/** The top-level progress and lives state machine of the game: which levels
    are completed, which memories are unlocked, the current screen and the
    lives counter shared by the levels. Each React `setGameState(prev => ...)`
    updater is a pure function from the previous record to the next one; the
    `App` class holds the record and the `lastLoseLifeTimeRef` debounce. */
module Progress {
  import opened Options

  /** Number of levels the progress bar and the memory room count. */
  const TotalLevels := 6
  /** Lives granted when a level starts, completes or is reset. */
  const FullLives := 3
  /** Minimum number of milliseconds between two accepted life losses. */
  const DebounceMs := 100

  datatype Screen = Hub | Level(number: int) | MemoryCapsule | MemoryRoom

  datatype MemoryKind = Text | Photo | Video | Montage

  /** The reward payload a level hands to `onComplete`. */
  datatype MemoryData = MemoryData(title: string, kind: MemoryKind, content: string)

  /** An unlocked memory: `{ level, ...memoryData }`. */
  datatype Memory = Memory(level: int, data: MemoryData)

  datatype GameState = GameState(
    currentScreen: Screen,
    currentLevel: int,
    completedLevels: seq<int>,
    unlockedMemories: seq<Memory>,
    lives: int,
    progress: real,
    currentMemory: Option<MemoryData>)

  function InitialState(): GameState
  {
    GameState(Hub, 1, [], [], FullLives, 0.0, None)
  }

  predicate NoDuplicates(s: seq<int>)
  {
    forall i, j :: 0 <= i < j < |s| ==> s[i] != s[j]
  }

  predicate HasMemoryFor(memories: seq<Memory>, level: int)
  {
    exists i :: 0 <= i < |memories| && memories[i].level == level
  }

  /** No level has two memories. */
  predicate OneMemoryPerLevel(memories: seq<Memory>)
  {
    forall i, j :: 0 <= i < j < |memories| ==> memories[i].level != memories[j].level
  }

  /** `completeLevel(levelNumber, memoryData)`: mark the level completed if it
      is not already, unlock the memory if one is given and none exists for
      that level, show the memory capsule and restore the lives. */
  function AfterCompleteLevel(prev: GameState, level: int, memoryData: Option<MemoryData>): (next: GameState)
    ensures level in next.completedLevels
    ensures level in prev.completedLevels ==> next.completedLevels == prev.completedLevels
    ensures level !in prev.completedLevels ==> next.completedLevels == prev.completedLevels + [level]
    ensures memoryData.Some? && !HasMemoryFor(prev.unlockedMemories, level) ==>
              next.unlockedMemories == prev.unlockedMemories + [Memory(level, memoryData.value)]
    ensures memoryData.None? || HasMemoryFor(prev.unlockedMemories, level) ==>
              next.unlockedMemories == prev.unlockedMemories
    ensures next.currentScreen == MemoryCapsule && next.currentMemory == memoryData
    ensures next.lives == FullLives
    ensures next.currentLevel == prev.currentLevel && next.progress == prev.progress
  {
    var completed := if level in prev.completedLevels then prev.completedLevels
                     else prev.completedLevels + [level];
    var memories := if memoryData.Some? && !HasMemoryFor(prev.unlockedMemories, level)
                    then prev.unlockedMemories + [Memory(level, memoryData.value)]
                    else prev.unlockedMemories;
    prev.(completedLevels := completed, unlockedMemories := memories,
          currentScreen := MemoryCapsule, currentMemory := memoryData, lives := FullLives)
  }

  /** `startLevel(levelNumber)`. */
  function AfterStartLevel(prev: GameState, level: int): (next: GameState)
    ensures next.currentLevel == level && next.currentScreen == Level(level)
    ensures next.lives == FullLives
    ensures next.completedLevels == prev.completedLevels
    ensures next.unlockedMemories == prev.unlockedMemories
    ensures next.progress == prev.progress && next.currentMemory == prev.currentMemory
  {
    prev.(currentLevel := level, currentScreen := Level(level), lives := FullLives)
  }

  /** `returnToHub()`: only the screen changes. */
  function AfterReturnToHub(prev: GameState): (next: GameState)
    ensures next.currentScreen == Hub
    ensures next.(currentScreen := prev.currentScreen) == prev
  {
    prev.(currentScreen := Hub)
  }

  /** `resetLives()`: only the lives change. */
  function AfterResetLives(prev: GameState): (next: GameState)
    ensures next.lives == FullLives
    ensures next.(lives := prev.lives) == prev
  {
    prev.(lives := FullLives)
  }

  /** `openMemoryRoom()`: only the screen changes. */
  function AfterOpenMemoryRoom(prev: GameState): (next: GameState)
    ensures next.currentScreen == MemoryRoom
    ensures next.(currentScreen := prev.currentScreen) == prev
  {
    prev.(currentScreen := MemoryRoom)
  }

  /** `closeMemory()`: back to the hub, with no memory on display. */
  function AfterCloseMemory(prev: GameState): (next: GameState)
    ensures next.currentScreen == Hub && next.currentMemory == None
    ensures next.(currentScreen := prev.currentScreen, currentMemory := prev.currentMemory) == prev
  {
    prev.(currentScreen := Hub, currentMemory := None)
  }

  /** The updater inside `loseLife`, once the debounce has accepted the call.
      Level 1 shows its own game-over dialog, so there the counter is allowed
      to reach zero or below; on any other screen running out of lives sends
      the player back to the hub with full lives. */
  function AfterLoseLife(prev: GameState): (next: GameState)
    ensures prev.lives - 1 > 0 ==> next == prev.(lives := prev.lives - 1)
    ensures prev.lives - 1 <= 0 && prev.currentScreen == Level(1) ==>
              next == prev.(lives := prev.lives - 1)
    ensures prev.lives - 1 <= 0 && prev.currentScreen != Level(1) ==>
              next == prev.(lives := FullLives, currentScreen := Hub)
  {
    var newLives := prev.lives - 1;
    if newLives <= 0 then
      if prev.currentScreen == Level(1) then prev.(lives := newLives)
      else prev.(lives := FullLives, currentScreen := Hub)
    else prev.(lives := newLives)
  }

  /** `(completedLevels.length / TOTAL_LEVELS) * 100`. */
  function ProgressPercent(completedCount: nat): (p: real)
    ensures p >= 0.0
    ensures completedCount <= TotalLevels ==> p <= 100.0
    ensures completedCount == TotalLevels ==> p == 100.0
    ensures p * (TotalLevels as real) == (completedCount as real) * 100.0
  {
    (completedCount as real / TotalLevels as real) * 100.0
  }

  /** The effect that recomputes `progress` whenever `completedLevels` changes. */
  function WithProgress(s: GameState): (next: GameState)
    ensures next.progress == ProgressPercent(|s.completedLevels|)
    ensures next.(progress := s.progress) == s
  {
    s.(progress := ProgressPercent(|s.completedLevels|))
  }

  // ---------------------------------------------------------------------
  // Properties of the updaters

  /** Completing a level never introduces a duplicate entry. */
  lemma CompleteLevelKeepsNoDuplicates(prev: GameState, level: int, memoryData: Option<MemoryData>)
    requires NoDuplicates(prev.completedLevels)
    ensures NoDuplicates(AfterCompleteLevel(prev, level, memoryData).completedLevels)
  {
  }

  /** Completing the same level twice with the same payload is the same as
      completing it once. */
  lemma CompleteLevelIdempotent(prev: GameState, level: int, memoryData: Option<MemoryData>)
    ensures var once := AfterCompleteLevel(prev, level, memoryData);
            AfterCompleteLevel(once, level, memoryData) == once
  {
    var once := AfterCompleteLevel(prev, level, memoryData);
    if memoryData.Some? && !HasMemoryFor(prev.unlockedMemories, level) {
      var k := |prev.unlockedMemories|;
      assert once.unlockedMemories[k].level == level;
    }
  }

  /** Memories stay one per level, and the first memory unlocked for a level
      is never replaced by a later completion of that level. */
  lemma CompleteLevelFirstMemoryWins(prev: GameState, level: int, memoryData: Option<MemoryData>)
    requires OneMemoryPerLevel(prev.unlockedMemories)
    ensures var next := AfterCompleteLevel(prev, level, memoryData);
            OneMemoryPerLevel(next.unlockedMemories) &&
            (forall i :: 0 <= i < |prev.unlockedMemories| ==>
               next.unlockedMemories[i] == prev.unlockedMemories[i]) &&
            (HasMemoryFor(prev.unlockedMemories, level) ==>
               next.unlockedMemories == prev.unlockedMemories)
  {
  }

  /** Away from level 1, a lives counter in [1, 3] stays in [1, 3] after a
      life loss; on level 1 it drops by exactly one. */
  lemma LoseLifeBounds(prev: GameState)
    requires 1 <= prev.lives <= FullLives
    ensures var next := AfterLoseLife(prev);
            (prev.currentScreen != Level(1) ==> 1 <= next.lives <= FullLives) &&
            (prev.currentScreen == Level(1) ==> next.lives == prev.lives - 1 && next.lives >= 0) &&
            (next.currentScreen == prev.currentScreen || next.currentScreen == Hub)
  {
  }

  /** `resetGame` restores exactly the initial record, whatever came before. */
  lemma ResetGameRestoresInitial()
    ensures WithProgress(InitialState()) == InitialState()
    ensures InitialState().lives == FullLives && InitialState().completedLevels == []
  {
  }

  // ---------------------------------------------------------------------
  // What a game played from the start can reach

  /** Only levels 1 to 5 ever call `completeLevel` (level 6 has no component),
      every level is listed once, memories are one per level, and a memory
      is only unlocked together with its level. */
  ghost predicate Consistent(s: GameState)
  {
    NoDuplicates(s.completedLevels) &&
    (forall i :: 0 <= i < |s.completedLevels| ==> 1 <= s.completedLevels[i] <= 5) &&
    OneMemoryPerLevel(s.unlockedMemories) &&
    (forall i :: 0 <= i < |s.unlockedMemories| ==> s.unlockedMemories[i].level in s.completedLevels)
  }

  /** The operations of the game, with the level numbers the app passes. */
  datatype Op =
    | CompleteOp(level: int, memoryData: Option<MemoryData>)
    | StartOp(level: int)
    | ReturnToHubOp | LoseLifeOp | ResetGameOp | ResetLivesOp
    | OpenMemoryRoomOp | CloseMemoryOp | ProgressOp

  function Apply(s: GameState, op: Op): GameState
  {
    match op
    case CompleteOp(level, m) => AfterCompleteLevel(s, level, m)
    case StartOp(level) => AfterStartLevel(s, level)
    case ReturnToHubOp => AfterReturnToHub(s)
    case LoseLifeOp => AfterLoseLife(s)
    case ResetGameOp => InitialState()
    case ResetLivesOp => AfterResetLives(s)
    case OpenMemoryRoomOp => AfterOpenMemoryRoom(s)
    case CloseMemoryOp => AfterCloseMemory(s)
    case ProgressOp => WithProgress(s)
  }

  /** Every operation keeps a consistent record consistent, provided a
      completion names one of the five playable levels. */
  lemma ApplyKeepsConsistent(s: GameState, op: Op)
    requires Consistent(s)
    requires op.CompleteOp? ==> 1 <= op.level <= 5
    ensures Consistent(Apply(s, op))
  {
    if op.CompleteOp? {
      var next := AfterCompleteLevel(s, op.level, op.memoryData);
      CompleteLevelKeepsNoDuplicates(s, op.level, op.memoryData);
      CompleteLevelFirstMemoryWins(s, op.level, op.memoryData);
      forall i | 0 <= i < |next.unlockedMemories|
        ensures next.unlockedMemories[i].level in next.completedLevels
      {
        if i < |s.unlockedMemories| {
          assert s.unlockedMemories[i].level in s.completedLevels;
        }
      }
    }
  }

  /** A duplicate-free list of levels drawn from 1..5 has at most five
      entries, so a consistent record never has six completed levels. */
  lemma CompletedAtMostFive(s: GameState)
    requires Consistent(s)
    ensures |s.completedLevels| <= 5
  {
    var c := s.completedLevels;
    DistinctCardinality(c);
    var range: set<int> := {1, 2, 3, 4, 5};
    assert (set x | x in c) <= range;
    SubsetCardinality((set x | x in c), range);
  }

  lemma {:induction false} DistinctCardinality(s: seq<int>)
    requires NoDuplicates(s)
    ensures |set x | x in s| == |s|
  {
    if s != [] {
      var rest := s[1..];
      assert NoDuplicates(rest) by {
        forall i, j | 0 <= i < j < |rest| ensures rest[i] != rest[j] {
          assert rest[i] == s[i + 1] && rest[j] == s[j + 1];
        }
      }
      DistinctCardinality(rest);
      assert s[0] !in rest by {
        forall i | 0 <= i < |rest| ensures rest[i] != s[0] {
          assert rest[i] == s[i + 1];
        }
      }
      assert (set x | x in s) == {s[0]} + (set x | x in rest) by {
        assert s == [s[0]] + rest;
      }
    }
  }

  lemma SubsetCardinality(a: set<int>, b: set<int>)
    requires a <= b
    ensures |a| <= |b|
  {
    assert b == a + (b - a);
  }

  /** Applies a sequence of operations, oldest first. */
  function Run(s: GameState, ops: seq<Op>): GameState
    decreases |ops|
  {
    if ops == [] then s else Run(Apply(s, ops[0]), ops[1..])
  }

  /** Whatever the player does from a fresh game (or after `resetGame`),
      the record stays consistent; in particular at most five levels are
      ever completed. */
  lemma {:induction false} RunFromInitialConsistent(s: GameState, ops: seq<Op>)
    requires Consistent(s)
    requires forall k :: 0 <= k < |ops| && ops[k].CompleteOp? ==> 1 <= ops[k].level <= 5
    ensures Consistent(Run(s, ops))
    ensures |Run(s, ops).completedLevels| <= 5
    decreases |ops|
  {
    if ops == [] {
      CompletedAtMostFive(s);
    } else {
      ApplyKeepsConsistent(s, ops[0]);
      RunFromInitialConsistent(Apply(s, ops[0]), ops[1..]);
    }
  }

  lemma InitialConsistent()
    ensures Consistent(InitialState())
  {
  }

  /** The app component: the game record and the debounce reference. */
  class App {
    var state: GameState
    /** `lastLoseLifeTimeRef.current`, in milliseconds. */
    var lastLoseLifeTime: int

    constructor ()
      ensures state == InitialState() && lastLoseLifeTime == 0
    {
      state := InitialState();
      lastLoseLifeTime := 0;
    }

    method CompleteLevel(level: int, memoryData: Option<MemoryData>)
      modifies this
      ensures state == AfterCompleteLevel(old(state), level, memoryData)
      ensures lastLoseLifeTime == old(lastLoseLifeTime)
    {
      state := AfterCompleteLevel(state, level, memoryData);
    }

    method StartLevel(level: int)
      modifies this
      ensures state == AfterStartLevel(old(state), level)
      ensures lastLoseLifeTime == old(lastLoseLifeTime)
    {
      state := AfterStartLevel(state, level);
    }

    method ReturnToHub()
      modifies this
      ensures state == AfterReturnToHub(old(state))
      ensures lastLoseLifeTime == old(lastLoseLifeTime)
    {
      state := AfterReturnToHub(state);
    }

    /** `loseLife()` at wall-clock time `now` (`Date.now()`): a call within
        100 ms of the last accepted one is ignored entirely. */
    method LoseLife(now: int)
      modifies this
      ensures now - old(lastLoseLifeTime) < DebounceMs ==>
                state == old(state) && lastLoseLifeTime == old(lastLoseLifeTime)
      ensures now - old(lastLoseLifeTime) >= DebounceMs ==>
                state == AfterLoseLife(old(state)) && lastLoseLifeTime == now
    {
      if now - lastLoseLifeTime < DebounceMs {
        return;
      }
      lastLoseLifeTime := now;
      state := AfterLoseLife(state);
    }

    /** `resetGame()`; the debounce reference is not touched. Writing the
        record to storage is not modelled. */
    method ResetGame()
      modifies this
      ensures state == InitialState()
      ensures lastLoseLifeTime == old(lastLoseLifeTime)
    {
      state := InitialState();
    }

    method ResetLives()
      modifies this
      ensures state == AfterResetLives(old(state))
      ensures lastLoseLifeTime == old(lastLoseLifeTime)
    {
      state := AfterResetLives(state);
    }

    method OpenMemoryRoom()
      modifies this
      ensures state == AfterOpenMemoryRoom(old(state))
      ensures lastLoseLifeTime == old(lastLoseLifeTime)
    {
      state := AfterOpenMemoryRoom(state);
    }

    method CloseMemory()
      modifies this
      ensures state == AfterCloseMemory(old(state))
      ensures lastLoseLifeTime == old(lastLoseLifeTime)
    {
      state := AfterCloseMemory(state);
    }

    /** The effect that keeps `progress` in step with `completedLevels`. */
    method RecomputeProgress()
      modifies this
      ensures state == WithProgress(old(state))
      ensures lastLoseLifeTime == old(lastLoseLifeTime)
    {
      state := WithProgress(state);
    }
  }
}
