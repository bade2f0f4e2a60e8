/** The hub world: which levels are open, how each level circle is styled,
    how the character walks, which target is near enough to enter, and what
    the Enter key does there. */
module Hub {
  import opened Geometry
  import opened Keys
  import opened Options
  import Progress

  /** Pixels moved per tick on each axis while a direction key is held. */
  const MoveSpeed := 3.0
  /** The character is kept this far from every screen edge. */
  const EdgeMargin := 40.0
  /** A target is near when closer than 80 px; compared as squares. */
  const ProximitySquared := 80.0 * 80.0

  /** Level 1 is always open; level n > 1 opens once level n - 1 is completed. */
  function IsLevelAvailable(completed: seq<int>, level: int): (r: bool)
    ensures level == 1 ==> r
    ensures level != 1 ==> (r <==> exists i :: 0 <= i < |completed| && completed[i] == level - 1)
  {
    level == 1 || (level - 1) in completed
  }

  /** The memory room opens when exactly six levels are completed. */
  predicate IsMemoryRoomAvailable(completed: seq<int>)
  {
    |completed| == 6
  }

  /** With no level listed twice, the memory room opens exactly when six
      distinct levels are completed. */
  lemma MemoryRoomMeansSixLevels(completed: seq<int>)
    requires Progress.NoDuplicates(completed)
    ensures IsMemoryRoomAvailable(completed) <==> |set x | x in completed| == 6
  {
    Progress.DistinctCardinality(completed);
  }

  /** Completing a level never closes an open level, and opens the next one. */
  lemma CompletingOpensNext(prev: Progress.GameState, level: int, memoryData: Option<Progress.MemoryData>, other: int)
    ensures var next := Progress.AfterCompleteLevel(prev, level, memoryData);
            IsLevelAvailable(next.completedLevels, level + 1) &&
            (IsLevelAvailable(prev.completedLevels, other) ==> IsLevelAvailable(next.completedLevels, other))
  {
    var next := Progress.AfterCompleteLevel(prev, level, memoryData);
    if other != 1 && IsLevelAvailable(prev.completedLevels, other) {
      var i :| 0 <= i < |prev.completedLevels| && prev.completedLevels[i] == other - 1;
      assert next.completedLevels[i] == other - 1;
    }
  }

  datatype CircleClass = Completed | Available | Locked

  /** `getLevelCircleClass`: completed beats available beats locked. */
  function LevelCircleClass(completed: seq<int>, level: int): (c: CircleClass)
    ensures c == Completed <==> level in completed
    ensures c == Available <==> level !in completed && IsLevelAvailable(completed, level)
    ensures c == Locked <==> level !in completed && !IsLevelAvailable(completed, level)
  {
    if level in completed then Completed
    else if IsLevelAvailable(completed, level) then Available
    else Locked
  }

  /** `getPathwayLineClass`. */
  function PathwayLineClass(completed: seq<int>, level: int): (c: string)
    ensures c == "pathway-line completed" <==> level in completed
    ensures c == "pathway-line" <==> level !in completed
  {
    if level in completed then "pathway-line completed" else "pathway-line"
  }

  /** A completed level is never shown as locked, and a locked level's
      predecessor is not completed; only level 1 is open on a fresh game. */
  lemma CircleClassFacts(completed: seq<int>, level: int)
    ensures level in completed ==> LevelCircleClass(completed, level) == Completed
    ensures LevelCircleClass(completed, level) == Locked ==> level != 1 && (level - 1) !in completed
    ensures LevelCircleClass([], level) == (if level == 1 then Available else Locked)
  {
  }

  // ---------------------------------------------------------------------
  // Character movement (`updateCharacter`)

  datatype Position = Position(x: real, y: real)

  predicate InBounds(p: Position, screenWidth: real, screenHeight: real)
  {
    EdgeMargin <= p.x <= screenWidth - EdgeMargin &&
    EdgeMargin <= p.y <= screenHeight - EdgeMargin
  }

  /** One 60 Hz step: every held direction moves the character by 3 px
      (opposite keys cancel), then the position is clamped to the screen. */
  function StepCharacter(p: Position, keys: set<Key>, screenWidth: real, screenHeight: real): (r: Position)
    ensures r.x >= EdgeMargin && r.y >= EdgeMargin
    ensures screenWidth >= 2.0 * EdgeMargin && screenHeight >= 2.0 * EdgeMargin ==>
              InBounds(r, screenWidth, screenHeight)
    ensures InBounds(p, screenWidth, screenHeight) ==>
              Abs(r.x - p.x) <= MoveSpeed && Abs(r.y - p.y) <= MoveSpeed
    ensures InBounds(p, screenWidth, screenHeight) && !LeftHeld(keys) && !RightHeld(keys) ==> r.x == p.x
    ensures InBounds(p, screenWidth, screenHeight) && !UpHeld(keys) && !DownHeld(keys) ==> r.y == p.y
  {
    var nx := p.x - (if LeftHeld(keys) then MoveSpeed else 0.0)
                  + (if RightHeld(keys) then MoveSpeed else 0.0);
    var ny := p.y - (if UpHeld(keys) then MoveSpeed else 0.0)
                  + (if DownHeld(keys) then MoveSpeed else 0.0);
    Position(Clamp(nx, EdgeMargin, screenWidth - EdgeMargin),
             Clamp(ny, EdgeMargin, screenHeight - EdgeMargin))
  }

  // ---------------------------------------------------------------------
  // Proximity (`nearestLevel`)

  datatype TargetKind = LevelTarget(number: int) | MemoryRoomTarget

  /** A point the character can walk up to. */
  datatype Target = Target(kind: TargetKind, x: real, y: real)

  /** The six level circles, laid out in a heart around the screen centre. */
  function LevelTargets(screenWidth: real, screenHeight: real): (levels: seq<Target>)
    ensures |levels| == 6
    ensures forall i :: 0 <= i < 6 ==> levels[i].kind == LevelTarget(i + 1)
    // the heart is symmetric about the vertical axis: 1 and 4 lie on it,
    // 2 mirrors 6 and 3 mirrors 5
    ensures levels[0].x == screenWidth / 2.0 && levels[3].x == screenWidth / 2.0
    ensures levels[1].x + levels[5].x == screenWidth && levels[1].y == levels[5].y
    ensures levels[2].x + levels[4].x == screenWidth && levels[2].y == levels[4].y
  {
    var cx := screenWidth / 2.0;
    var cy := screenHeight / 2.0;
    [ Target(LevelTarget(1), cx, cy - screenHeight * 0.05),
      Target(LevelTarget(2), cx - screenWidth * 0.15, cy - screenHeight * 0.15),
      Target(LevelTarget(3), cx - screenWidth * 0.225, cy),
      Target(LevelTarget(4), cx, cy + screenHeight * 0.35),
      Target(LevelTarget(5), cx + screenWidth * 0.225, cy),
      Target(LevelTarget(6), cx + screenWidth * 0.15, cy - screenHeight * 0.15) ]
  }

  /** The memory room is an 80 x 60 box whose top-left corner is at
      (cx - 40, cy - 0.2 h); distances are measured to its centre. */
  function MemoryRoomTargetAt(screenWidth: real, screenHeight: real): (t: Target)
    ensures t.kind == MemoryRoomTarget
    ensures t.x == screenWidth / 2.0 && t.y == 0.3 * screenHeight + 30.0
  {
    var boxX := screenWidth / 2.0 - 40.0;
    var boxY := screenHeight / 2.0 - screenHeight * 0.2;
    Target(MemoryRoomTarget, boxX + 80.0 / 2.0, boxY + 60.0 / 2.0)
  }

  function D(t: Target, p: Position): real
  {
    Dist2(p.x, p.y, t.x, t.y)
  }

  /** Level k is within reach, strictly closer than every earlier level and
      no farther than every later one (the earliest of equally close ones). */
  ghost predicate ClosestLevel(levels: seq<Target>, k: int, p: Position)
  {
    0 <= k < |levels| && D(levels[k], p) < ProximitySquared &&
    (forall j :: 0 <= j < k ==> D(levels[j], p) > D(levels[k], p)) &&
    (forall j :: k < j < |levels| ==> D(levels[j], p) >= D(levels[k], p))
  }

  /** The memory room is within reach and strictly closer than every level
      within reach. */
  ghost predicate MemoryRoomWins(levels: seq<Target>, room: Target, p: Position)
  {
    D(room, p) < ProximitySquared &&
    forall j :: 0 <= j < |levels| && D(levels[j], p) < ProximitySquared ==> D(room, p) < D(levels[j], p)
  }

  ghost predicate NothingInReach(levels: seq<Target>, room: Target, p: Position)
  {
    (forall j :: 0 <= j < |levels| ==> D(levels[j], p) >= ProximitySquared) &&
    D(room, p) >= ProximitySquared
  }

  /** The proximity effect: scan the levels keeping the strictly closest one
      within reach, then let the memory room replace it if strictly closer. */
  method FindNearest(levels: seq<Target>, room: Target, p: Position) returns (nearest: Option<Target>)
    ensures nearest.None? <==> NothingInReach(levels, room, p)
    ensures MemoryRoomWins(levels, room, p) ==> nearest == Some(room)
    ensures nearest.Some? && !MemoryRoomWins(levels, room, p) ==>
              exists k :: ClosestLevel(levels, k, p) && nearest == Some(levels[k])
  {
    nearest := None;
    var minDistance := 0.0;   // meaningful once `found` holds (the source starts at Infinity)
    var found := false;
    ghost var best := -1;
    var i := 0;
    while i < |levels|
      invariant 0 <= i <= |levels|
      invariant !found <==> forall j :: 0 <= j < i ==> D(levels[j], p) >= ProximitySquared
      invariant !found ==> nearest.None?
      invariant found ==> 0 <= best < i && nearest == Some(levels[best]) &&
                          minDistance == D(levels[best], p) && minDistance < ProximitySquared
      invariant found ==> forall j :: 0 <= j < best ==> D(levels[j], p) > minDistance
      invariant found ==> forall j :: best < j < i ==> D(levels[j], p) >= minDistance
    {
      var distance := D(levels[i], p);
      if distance < ProximitySquared && (!found || distance < minDistance) {
        nearest := Some(levels[i]);
        minDistance := distance;
        found := true;
        best := i;
      }
      i := i + 1;
    }
    var memoryDistance := D(room, p);
    if memoryDistance < ProximitySquared && (!found || memoryDistance < minDistance) {
      nearest := Some(room);
    }
    if found && !(memoryDistance < ProximitySquared && memoryDistance < minDistance) {
      assert ClosestLevel(levels, best, p);
    }
  }

  // ---------------------------------------------------------------------
  // The Enter key

  datatype HubAction = NoAction | StartLevelAction(level: int) | OpenMemoryRoomAction

  /** The key-up handler: Enter starts the nearby level if it is open, or
      opens the nearby memory room if it is open; anything else does nothing. */
  function OnKeyUp(key: Key, nearest: Option<Target>, completed: seq<int>): (a: HubAction)
    ensures a.StartLevelAction? <==>
              key == Enter && nearest.Some? && nearest.value.kind.LevelTarget? &&
              IsLevelAvailable(completed, nearest.value.kind.number)
    ensures a.StartLevelAction? ==> a.level == nearest.value.kind.number
    ensures a.OpenMemoryRoomAction? <==>
              key == Enter && nearest.Some? && nearest.value.kind.MemoryRoomTarget? &&
              IsMemoryRoomAvailable(completed)
  {
    if key == Enter && nearest.Some? then
      match nearest.value.kind
      case LevelTarget(n) => if IsLevelAvailable(completed, n) then StartLevelAction(n) else NoAction
      case MemoryRoomTarget => if IsMemoryRoomAvailable(completed) then OpenMemoryRoomAction else NoAction
    else NoAction
  }

  /** Only levels 1 to 5 can be completed (level 6 has no game), so from a
      fresh game the six completions the memory room asks for never happen:
      the Enter key can never open it. */
  lemma MemoryRoomNeverOpens(ops: seq<Progress.Op>, nearest: Option<Target>)
    requires forall k :: 0 <= k < |ops| && ops[k].CompleteOp? ==> 1 <= ops[k].level <= 5
    ensures var s := Progress.Run(Progress.InitialState(), ops);
            !IsMemoryRoomAvailable(s.completedLevels) &&
            OnKeyUp(Enter, nearest, s.completedLevels) != OpenMemoryRoomAction
  {
    Progress.InitialConsistent();
    Progress.RunFromInitialConsistent(Progress.InitialState(), ops);
  }

  /** Once level n is completed, level n + 1 can be entered from the hub. */
  lemma CompletingUnlocksNext(prev: Progress.GameState, n: int, m: Option<Progress.MemoryData>, t: Target)
    requires t.kind == LevelTarget(n + 1)
    ensures var s := Progress.AfterCompleteLevel(prev, n, m);
            OnKeyUp(Enter, Some(t), s.completedLevels) == StartLevelAction(n + 1)
  {
  }
}
