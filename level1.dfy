/** Level 1, the side-scrolling platformer: gravity and jumping, landing on
    platforms, checkpoints that move the respawn anchor, hearts to collect,
    hazards and falls that cost a life, and the win condition. Only the
    static hearts and hazards are modelled; the positions of the moving
    ones are whatever the caller stores. One call of `Tick` is one
    animation frame of the game loop. */
module Platformer {
  import opened Geometry
  import opened Keys

  const Gravity := 0.5
  const JumpForce := -12.0
  const MoveSpeed := 5.0
  /** Horizontal velocity is multiplied by this when no direction is held. */
  const Friction := 0.8
  const TotalHearts := 20
  const PlayerWidth := 50.0
  const PlayerHeight := 80.0
  const HeartSize := 20.0
  /** Frames of invincibility after a respawn. */
  const InvincibilityFrames := 120
  const StartX := 100.0
  /** The start (and initial respawn) point is this far above the bottom. */
  const StartHeightAboveBottom := 200.0

  /** The player's position, velocity and ground contact. */
  datatype Body = Body(x: real, y: real, vx: real, vy: real, grounded: bool)

  function BodyRect(b: Body): Rect
  {
    Rect(b.x, b.y, PlayerWidth, PlayerHeight)
  }

  datatype Checkpoint = Checkpoint(x: real, y: real, width: real, height: real, activated: bool)

  function CheckpointRect(c: Checkpoint): Rect
  {
    Rect(c.x, c.y, c.width, c.height)
  }

  datatype Heart = Heart(x: real, y: real)

  /** Hearts are tested as 20 x 20 boxes. */
  function HeartRect(h: Heart): Rect
  {
    Rect(h.x, h.y, HeartSize, HeartSize)
  }

  predicate JumpHeld(keys: set<Key>)
  {
    Space in keys || ArrowUp in keys || KeyW in keys
  }

  // ---------------------------------------------------------------------
  // Camera

  /** `updateCamera`: centre the player, but never show past either end of
      the level. */
  function CameraX(playerX: real, screenWidth: real, levelWidth: real): (c: real)
    ensures c >= 0.0
    ensures levelWidth >= screenWidth ==> c <= levelWidth - screenWidth
    ensures 0.0 <= playerX - screenWidth / 2.0 <= levelWidth - screenWidth ==>
              c == playerX - screenWidth / 2.0
  {
    Max(0.0, Min(levelWidth - screenWidth, playerX - screenWidth / 2.0))
  }

  // ---------------------------------------------------------------------
  // Invincibility

  /** One frame of the invincibility countdown. */
  function StepInvincibility(invincible: bool, time: int): (r: (bool, int))
    ensures !invincible ==> r == (invincible, time)
    ensures invincible ==> r == (if time - 1 <= 0 then (false, 0) else (true, time - 1))
  {
    if invincible then
      if time - 1 <= 0 then (false, 0) else (true, time - 1)
    else (invincible, time)
  }

  function StepInvincibilityTimes(invincible: bool, time: int, frames: nat): (bool, int)
  {
    if frames == 0 then (invincible, time)
    else
      var next := StepInvincibility(invincible, time);
      StepInvincibilityTimes(next.0, next.1, frames - 1)
  }

  /** A respawn with `time` frames of protection keeps the player
      invincible for exactly `time` frames. */
  lemma {:induction false} InvincibilityLasts(time: int, frames: nat)
    requires time >= 1
    ensures StepInvincibilityTimes(true, time, frames) ==
              if frames < time then (true, time - frames) else (false, 0)
  {
    if frames > 0 {
      if time == 1 {
        StaysVulnerable(0, frames - 1);
      } else {
        InvincibilityLasts(time - 1, frames - 1);
      }
    }
  }

  lemma {:induction false} StaysVulnerable(time: int, frames: nat)
    ensures StepInvincibilityTimes(false, time, frames) == (false, time)
  {
    if frames > 0 {
      StaysVulnerable(time, frames - 1);
    }
  }

  // ---------------------------------------------------------------------
  // Input, gravity and motion

  /** Left wins over right; with neither held the player slows down. A jump
      happens only from the ground. */
  function ApplyInput(b: Body, keys: set<Key>): (r: Body)
    ensures r.x == b.x && r.y == b.y
    ensures LeftHeld(keys) ==> r.vx == -MoveSpeed
    ensures !LeftHeld(keys) && RightHeld(keys) ==> r.vx == MoveSpeed
    ensures !LeftHeld(keys) && !RightHeld(keys) ==> r.vx == b.vx * Friction
    ensures JumpHeld(keys) && b.grounded ==> r.vy == JumpForce && !r.grounded
    ensures !(JumpHeld(keys) && b.grounded) ==> r.vy == b.vy && r.grounded == b.grounded
  {
    var vx := if LeftHeld(keys) then -MoveSpeed
              else if RightHeld(keys) then MoveSpeed
              else b.vx * Friction;
    if JumpHeld(keys) && b.grounded then b.(vx := vx, vy := JumpForce, grounded := false)
    else b.(vx := vx)
  }

  /** Gravity first, then one step of motion with the new velocity. */
  function Integrate(b: Body): (r: Body)
    ensures r.vx == b.vx && r.vy == b.vy + Gravity && r.grounded == b.grounded
    ensures r.x == b.x + b.vx && r.y == b.y + r.vy
  {
    var vy := b.vy + Gravity;
    b.(x := b.x + b.vx, y := b.y + vy, vy := vy)
  }

  // ---------------------------------------------------------------------
  // Platform collisions

  /** Falling onto the top of a platform. */
  predicate Lands(b: Body, p: Rect)
  {
    Overlaps(BodyRect(b), p) && b.vy > 0.0 && b.y < p.y
  }

  /** Rising into the underside of a platform. */
  predicate HitsCeiling(b: Body, p: Rect)
  {
    Overlaps(BodyRect(b), p) && !Lands(b, p) && b.vy < 0.0 && b.y > p.y
  }

  /** Resolve the overlap with one platform: land on it, bump the head on
      it, or be pushed out sideways against the direction of motion. */
  function ResolveOne(b: Body, p: Rect): (r: Body)
    ensures r.vx == b.vx
    ensures !Overlaps(BodyRect(b), p) ==> r == b
    ensures r.grounded <==> b.grounded || Lands(b, p)
    ensures Lands(b, p) ==> r.y + PlayerHeight == p.y && r.vy == 0.0 && r.x == b.x
    ensures HitsCeiling(b, p) ==> r.y == p.y + p.height && r.vy == 0.0 && r.x == b.x
    ensures !Lands(b, p) && !HitsCeiling(b, p) ==> r.y == b.y && r.vy == b.vy
  {
    if !Overlaps(BodyRect(b), p) then b
    else if b.vy > 0.0 && b.y < p.y then b.(y := p.y - PlayerHeight, vy := 0.0, grounded := true)
    else if b.vy < 0.0 && b.y > p.y then b.(y := p.y + p.height, vy := 0.0)
    else if b.vx > 0.0 then b.(x := p.x - PlayerWidth)
    else if b.vx < 0.0 then b.(x := p.x + p.width)
    else b
  }

  /** Whenever one of the four cases applies, the player no longer overlaps
      that platform afterwards; it is left touching one of its edges. */
  lemma ResolveOneSeparates(b: Body, p: Rect)
    requires Overlaps(BodyRect(b), p)
    requires Lands(b, p) || HitsCeiling(b, p) || b.vx != 0.0
    ensures !Overlaps(BodyRect(ResolveOne(b, p)), p)
  {
    var r := ResolveOne(b, p);
    if Lands(b, p) {
      TouchingEdgesDoNotOverlap(BodyRect(r), p);
    } else if HitsCeiling(b, p) {
      TouchingEdgesDoNotOverlap(p, BodyRect(r));
    } else if b.vx > 0.0 {
      TouchingEdgesDoNotOverlap(BodyRect(r), p);
    } else {
      TouchingEdgesDoNotOverlap(p, BodyRect(r));
    }
  }

  /** The platforms are resolved one after the other, in list order. */
  function ResolveAll(b: Body, platforms: seq<Rect>): Body
    decreases |platforms|
  {
    if platforms == [] then b else ResolveAll(ResolveOne(b, platforms[0]), platforms[1..])
  }

  /** The `for (const platform of platforms)` loop. */
  method ResolvePlatforms(b: Body, platforms: seq<Rect>) returns (r: Body)
    ensures r == ResolveAll(b, platforms)
  {
    r := b;
    var i := 0;
    while i < |platforms|
      invariant 0 <= i <= |platforms|
      invariant ResolveAll(r, platforms[i..]) == ResolveAll(b, platforms)
    {
      assert platforms[i..][1..] == platforms[i + 1..];
      r := ResolveOne(r, platforms[i]);
      i := i + 1;
    }
  }

  /** Collisions never change the horizontal velocity. */
  lemma {:induction false} ResolveKeepsVelocityX(b: Body, platforms: seq<Rect>)
    ensures ResolveAll(b, platforms).vx == b.vx
    decreases |platforms|
  {
    if platforms != [] {
      ResolveKeepsVelocityX(ResolveOne(b, platforms[0]), platforms[1..]);
    }
  }

  /** A body at rest vertically keeps its height and ground contact through
      any further platforms: only sideways pushes can still apply. */
  lemma {:induction false} RestingStaysPut(b: Body, platforms: seq<Rect>)
    requires b.vy == 0.0
    ensures var r := ResolveAll(b, platforms);
            r.y == b.y && r.vy == 0.0 && r.grounded == b.grounded
    decreases |platforms|
  {
    if platforms != [] {
      RestingStaysPut(ResolveOne(b, platforms[0]), platforms[1..]);
    }
  }

  /** After resolution from the air, a grounded player stands exactly on top
      of one of the platforms and is not moving vertically. */
  lemma {:induction false} GroundedRestsOnPlatform(b: Body, platforms: seq<Rect>)
    requires !b.grounded
    ensures var r := ResolveAll(b, platforms);
            r.grounded ==> r.vy == 0.0 &&
                           exists i :: 0 <= i < |platforms| && r.y + PlayerHeight == platforms[i].y
    decreases |platforms|
  {
    if platforms != [] {
      var next := ResolveOne(b, platforms[0]);
      var r := ResolveAll(b, platforms);
      if Lands(b, platforms[0]) {
        RestingStaysPut(next, platforms[1..]);
        assert r.y + PlayerHeight == platforms[0].y;
      } else {
        GroundedRestsOnPlatform(next, platforms[1..]);
        if r.grounded {
          var i :| 0 <= i < |platforms[1..]| && r.y + PlayerHeight == platforms[1..][i].y;
          assert r.y + PlayerHeight == platforms[i + 1].y;
        }
      }
    }
  }

  /** The level boundaries: no further left than 0, no further right than
      the level width minus the player width. */
  function ClampToLevel(x: real, levelWidth: real): (r: real)
    ensures r <= levelWidth - PlayerWidth
    ensures levelWidth >= PlayerWidth ==> r >= 0.0
    ensures 0.0 <= x <= levelWidth - PlayerWidth ==> r == x
  {
    var left := if x < 0.0 then 0.0 else x;
    if left + PlayerWidth > levelWidth then levelWidth - PlayerWidth else left
  }

  /** Input, gravity, motion, platform collisions and the level bounds: the
      part of a frame that only moves the player. The player ends inside the
      level, and stands on a platform whenever it is grounded. */
  method Move(b: Body, keys: set<Key>, platforms: seq<Rect>, levelWidth: real) returns (r: Body)
    ensures r.x <= levelWidth - PlayerWidth && (levelWidth >= PlayerWidth ==> r.x >= 0.0)
    ensures r.grounded ==>
              r.vy == 0.0 && exists i :: 0 <= i < |platforms| && r.y + PlayerHeight == platforms[i].y
    ensures var moved := Integrate(ApplyInput(b, keys)).(grounded := false);
            r == ResolveAll(moved, platforms).(x := ClampToLevel(ResolveAll(moved, platforms).x, levelWidth))
  {
    var moved := Integrate(ApplyInput(b, keys)).(grounded := false);
    r := ResolvePlatforms(moved, platforms);
    GroundedRestsOnPlatform(moved, platforms);
    r := r.(x := ClampToLevel(r.x, levelWidth));
  }

  /** Where `Move` puts the player, as a function of the frame's inputs. */
  function Stepped(b: Body, keys: set<Key>, platforms: seq<Rect>, levelWidth: real): Body
  {
    var resolved := ResolveAll(Integrate(ApplyInput(b, keys)).(grounded := false), platforms);
    resolved.(x := ClampToLevel(resolved.x, levelWidth))
  }

  // ---------------------------------------------------------------------
  // Checkpoints

  predicate NewlyActivated(player: Rect, c: Checkpoint)
  {
    !c.activated && Overlaps(player, CheckpointRect(c))
  }

  /** The checkpoints after the player's touch. */
  function Activated(player: Rect, checkpoints: seq<Checkpoint>): seq<Checkpoint>
  {
    seq(|checkpoints|, i requires 0 <= i < |checkpoints| =>
          checkpoints[i].(activated := checkpoints[i].activated || NewlyActivated(player, checkpoints[i])))
  }

  /** The index of the last checkpoint the player newly activates, or -1. */
  function LastActivation(player: Rect, checkpoints: seq<Checkpoint>): (k: int)
    ensures -1 <= k < |checkpoints|
    ensures k == -1 <==> forall i :: 0 <= i < |checkpoints| ==> !NewlyActivated(player, checkpoints[i])
    ensures k >= 0 ==> NewlyActivated(player, checkpoints[k]) &&
                       forall j :: k < j < |checkpoints| ==> !NewlyActivated(player, checkpoints[j])
  {
    if checkpoints == [] then -1
    else if NewlyActivated(player, checkpoints[|checkpoints| - 1]) then |checkpoints| - 1
    else LastActivation(player, checkpoints[..|checkpoints| - 1])
  }

  /** The respawn anchor after the player's touch: 10 px right of and 20 px
      above the last newly activated checkpoint, or where it was. */
  function AnchorAfter(player: Rect, checkpoints: seq<Checkpoint>, anchorX: real, anchorY: real): (real, real)
  {
    var k := LastActivation(player, checkpoints);
    if k == -1 then (anchorX, anchorY) else (checkpoints[k].x + 10.0, checkpoints[k].y - 20.0)
  }

  /** The checkpoint loop: every unactivated checkpoint the player touches is
      activated in place, and the respawn anchor moves to the last one
      (10 px right of and 20 px above its corner). */
  method ActivateCheckpoints(player: Rect, checkpoints: seq<Checkpoint>, anchorX: real, anchorY: real)
    returns (updated: seq<Checkpoint>, newAnchorX: real, newAnchorY: real)
    ensures |updated| == |checkpoints|
    ensures forall i :: 0 <= i < |checkpoints| ==>
              updated[i] == checkpoints[i].(activated := checkpoints[i].activated || NewlyActivated(player, checkpoints[i]))
    ensures (forall i :: 0 <= i < |checkpoints| ==> !NewlyActivated(player, checkpoints[i])) ==>
              newAnchorX == anchorX && newAnchorY == anchorY
    ensures (exists i :: 0 <= i < |checkpoints| && NewlyActivated(player, checkpoints[i])) ==>
              exists k :: 0 <= k < |checkpoints| && NewlyActivated(player, checkpoints[k]) &&
                (forall j :: k < j < |checkpoints| ==> !NewlyActivated(player, checkpoints[j])) &&
                newAnchorX == checkpoints[k].x + 10.0 && newAnchorY == checkpoints[k].y - 20.0
    ensures updated == Activated(player, checkpoints)
    ensures (newAnchorX, newAnchorY) == AnchorAfter(player, checkpoints, anchorX, anchorY)
  {
    updated := checkpoints;
    newAnchorX, newAnchorY := anchorX, anchorY;
    ghost var last := -1;
    var i := 0;
    while i < |checkpoints|
      invariant 0 <= i <= |checkpoints| && |updated| == |checkpoints|
      invariant forall j :: 0 <= j < i ==>
                  updated[j] == checkpoints[j].(activated := checkpoints[j].activated || NewlyActivated(player, checkpoints[j]))
      invariant forall j :: i <= j < |checkpoints| ==> updated[j] == checkpoints[j]
      invariant -1 <= last < i
      invariant last == -1 ==> (forall j :: 0 <= j < i ==> !NewlyActivated(player, checkpoints[j])) &&
                               newAnchorX == anchorX && newAnchorY == anchorY
      invariant last >= 0 ==> NewlyActivated(player, checkpoints[last]) &&
                              (forall j :: last < j < i ==> !NewlyActivated(player, checkpoints[j])) &&
                              newAnchorX == checkpoints[last].x + 10.0 && newAnchorY == checkpoints[last].y - 20.0
    {
      var c := updated[i];
      if !c.activated && Overlaps(player, CheckpointRect(c)) {
        updated := updated[i := c.(activated := true)];
        newAnchorX, newAnchorY := c.x + 10.0, c.y - 20.0;
        last := i;
      }
      i := i + 1;
    }
    assert last == LastActivation(player, checkpoints);
  }

  /** `checkpoints.map(c => ({ ...c, activated: false }))`. */
  function Deactivated(checkpoints: seq<Checkpoint>): (r: seq<Checkpoint>)
    ensures |r| == |checkpoints|
    ensures forall i :: 0 <= i < |r| ==> r[i] == checkpoints[i].(activated := false)
  {
    seq(|checkpoints|, i requires 0 <= i < |checkpoints| => checkpoints[i].(activated := false))
  }

  // ---------------------------------------------------------------------
  // Hearts

  /** The hearts the player does not touch, in their original order. */
  function Untouched(player: Rect, hearts: seq<Heart>): (r: seq<Heart>)
    ensures |r| <= |hearts|
    ensures forall h :: h in r ==> h in hearts && !Overlaps(player, HeartRect(h))
    ensures forall h :: h in hearts && !Overlaps(player, HeartRect(h)) ==> h in r
  {
    if hearts == [] then []
    else
      var rest := Untouched(player, hearts[1..]);
      if Overlaps(player, HeartRect(hearts[0])) then rest else [hearts[0]] + rest
  }

  /** The number of hearts the player touches. */
  function TouchedCount(player: Rect, hearts: seq<Heart>): nat
  {
    if hearts == [] then 0
    else (if Overlaps(player, HeartRect(hearts[0])) then 1 else 0) + TouchedCount(player, hearts[1..])
  }

  /** Every heart is either kept or counted, never both. */
  lemma {:induction false} HeartsAccounted(player: Rect, hearts: seq<Heart>)
    ensures |Untouched(player, hearts)| + TouchedCount(player, hearts) == |hearts|
  {
    if hearts != [] {
      HeartsAccounted(player, hearts[1..]);
    }
  }

  /** The heart filter: touched hearts are removed and counted. */
  method CollectHearts(player: Rect, hearts: seq<Heart>) returns (remaining: seq<Heart>, collected: nat)
    ensures remaining == Untouched(player, hearts)
    ensures collected == TouchedCount(player, hearts)
    ensures |remaining| + collected == |hearts|
  {
    remaining, collected := [], 0;
    var i := |hearts|;
    while i > 0
      invariant 0 <= i <= |hearts|
      invariant remaining == Untouched(player, hearts[i..])
      invariant collected == TouchedCount(player, hearts[i..])
    {
      i := i - 1;
      assert hearts[i..][1..] == hearts[i + 1..];
      if Overlaps(player, HeartRect(hearts[i])) {
        collected := collected + 1;
      } else {
        remaining := [hearts[i]] + remaining;
      }
    }
    assert hearts[0..] == hearts;
    HeartsAccounted(player, hearts);
  }

  // ---------------------------------------------------------------------
  // Hazards

  /** The hazard loop, which stops at the first hazard touched. */
  method HazardHit(player: Rect, hazards: seq<Rect>) returns (hit: bool)
    ensures hit <==> exists i :: 0 <= i < |hazards| && Overlaps(player, hazards[i])
  {
    hit := false;
    var i := 0;
    while i < |hazards|
      invariant 0 <= i <= |hazards|
      invariant forall j :: 0 <= j < i ==> !Overlaps(player, hazards[j])
    {
      if Overlaps(player, hazards[i]) {
        hit := true;
        break;
      }
      i := i + 1;
    }
  }

  // ---------------------------------------------------------------------
  // The level

  /** The level's `gameState` record (the respawn anchor lives in a
      separate ref, kept beside it by `Game`). */
  datatype World = World(
    player: Body,
    invincible: bool,
    invincibilityTime: int,
    cameraX: real,
    checkpoints: seq<Checkpoint>,
    hearts: seq<Heart>,
    platforms: seq<Rect>,
    hazards: seq<Rect>,
    heartsCollected: int,
    levelCompleted: bool,
    gameStarted: bool,
    gameOver: bool)

  /** The invincibility flag is on exactly while frames remain, at most 120. */
  predicate ValidWorld(w: World)
  {
    0 <= w.invincibilityTime <= InvincibilityFrames &&
    (w.invincible <==> w.invincibilityTime > 0) &&
    w.heartsCollected >= 0
  }

  /** The game loop only runs between the start and the end of the game. */
  predicate Running(w: World)
  {
    w.gameStarted && !w.gameOver && !w.levelCompleted
  }

  function StartBody(screenHeight: real): Body
  {
    Body(StartX, screenHeight - StartHeightAboveBottom, 0.0, 0.0, false)
  }

  /** Back at the respawn anchor, standing still. */
  function Respawn(anchorX: real, anchorY: real): Body
  {
    Body(anchorX, anchorY, 0.0, 0.0, false)
  }

  /** The first half of a frame: the player moves, and falling below the
      screen without the shield respawns it at the anchor with the shield
      restarted; otherwise the shield counts down. */
  method MoveAndFall(w: World, anchorX: real, anchorY: real, keys: set<Key>, levelWidth: real, screenHeight: real)
    returns (b: Body, shielded: bool, shieldTime: int, fell: bool)
    requires ValidWorld(w)
    ensures var shield := StepInvincibility(w.invincible, w.invincibilityTime);
            var moved := Stepped(w.player, keys, w.platforms, levelWidth);
            fell == (moved.y > screenHeight && !shield.0) &&
            b == (if fell then Respawn(anchorX, anchorY) else moved) &&
            (shielded, shieldTime) == (if fell then (true, InvincibilityFrames) else shield)
    ensures 0 <= shieldTime <= InvincibilityFrames && (shielded <==> shieldTime > 0)
    ensures fell ==> !w.invincible || w.invincibilityTime <= 1
    ensures !fell ==> b.x <= levelWidth - PlayerWidth && (levelWidth >= PlayerWidth ==> b.x >= 0.0)
    ensures b.grounded ==> b.vy == 0.0 && exists i :: 0 <= i < |w.platforms| && b.y + PlayerHeight == w.platforms[i].y
  {
    var shield := StepInvincibility(w.invincible, w.invincibilityTime);
    shielded, shieldTime := shield.0, shield.1;
    b := Move(w.player, keys, w.platforms, levelWidth);
    fell := b.y > screenHeight && !shielded;
    if fell {
      b := Respawn(anchorX, anchorY);
      shielded, shieldTime := true, InvincibilityFrames;
    }
  }

  /** The second half of a frame: the checkpoints and hearts the player
      touches are activated and collected, and touching a hazard without the
      shield respawns it at the new anchor with the shield restarted. */
  method TouchAndHit(b: Body, shielded: bool, shieldTime: int, w: World, anchorX: real, anchorY: real)
    returns (b': Body, shielded': bool, shieldTime': int, cps: seq<Checkpoint>, ax: real, ay: real,
             remaining: seq<Heart>, collected: nat, hit: bool)
    ensures cps == Activated(BodyRect(b), w.checkpoints) && |cps| == |w.checkpoints|
    ensures (ax, ay) == AnchorAfter(BodyRect(b), w.checkpoints, anchorX, anchorY)
    ensures remaining == Untouched(BodyRect(b), w.hearts) && collected == TouchedCount(BodyRect(b), w.hearts)
    ensures |remaining| + collected == |w.hearts|
    ensures hit <==> !shielded && exists i :: 0 <= i < |w.hazards| && Overlaps(BodyRect(b), w.hazards[i])
    ensures b' == (if hit then Respawn(ax, ay) else b)
    ensures (shielded', shieldTime') == (if hit then (true, InvincibilityFrames) else (shielded, shieldTime))
  {
    cps, ax, ay := ActivateCheckpoints(BodyRect(b), w.checkpoints, anchorX, anchorY);
    remaining, collected := CollectHearts(BodyRect(b), w.hearts);
    b', shielded', shieldTime', hit := b, shielded, shieldTime, false;
    if !shielded {
      hit := HazardHit(BodyRect(b), w.hazards);
      if hit {
        b' := Respawn(ax, ay);
        shielded', shieldTime' := true, InvincibilityFrames;
      }
    }
  }

  /** The world and anchor after one frame of a running game. The player
      moves; falling below the screen without the shield respawns it at the
      anchor; the checkpoints and hearts it then touches are activated and
      collected; touching a hazard without the shield respawns it at the new
      anchor; either loss restarts the two-second shield, and otherwise the
      shield counts down. The camera follows the player. */
  predicate FrameOutcome(w: World, anchorX: real, anchorY: real, keys: set<Key>, screenWidth: real, screenHeight: real,
                         next: World, nextAnchorX: real, nextAnchorY: real, livesLost: nat)
  {
    var levelWidth := 3.0 * screenWidth;
    var shield := StepInvincibility(w.invincible, w.invincibilityTime);
    var moved := Stepped(w.player, keys, w.platforms, levelWidth);
    var fell := moved.y > screenHeight && !shield.0;
    var at := if fell then Respawn(anchorX, anchorY) else moved;
    var hit := !fell && !shield.0 && exists i :: 0 <= i < |w.hazards| && Overlaps(BodyRect(moved), w.hazards[i]);
    (livesLost == 1 <==> fell || hit) &&
    next.checkpoints == Activated(BodyRect(at), w.checkpoints) &&
    (nextAnchorX, nextAnchorY) == AnchorAfter(BodyRect(at), w.checkpoints, anchorX, anchorY) &&
    next.hearts == Untouched(BodyRect(at), w.hearts) &&
    next.heartsCollected == w.heartsCollected + TouchedCount(BodyRect(at), w.hearts) &&
    next.player == (if hit then Respawn(nextAnchorX, nextAnchorY) else at) &&
    (next.invincible, next.invincibilityTime) == (if fell || hit then (true, InvincibilityFrames) else shield) &&
    next.cameraX == CameraX(next.player.x, screenWidth, levelWidth)
  }

  /** The updater of the game loop for one frame. `livesLost` counts the
      `onLoseLife` calls and `completedNow` says whether the delayed
      `onComplete` was scheduled. The level is three screens wide and one
      screen high. */
  method Frame(w: World, anchorX: real, anchorY: real, keys: set<Key>, screenWidth: real, screenHeight: real)
    returns (next: World, nextAnchorX: real, nextAnchorY: real, livesLost: nat, completedNow: bool)
    requires ValidWorld(w)
    ensures ValidWorld(next)
    ensures !Running(w) ==>
              next == w && nextAnchorX == anchorX && nextAnchorY == anchorY && livesLost == 0 && !completedNow
    ensures livesLost <= 1
    ensures next.platforms == w.platforms && next.hazards == w.hazards
    ensures next.gameOver == w.gameOver && next.gameStarted == w.gameStarted
    ensures livesLost == 1 ==>
              next.invincible && next.invincibilityTime == InvincibilityFrames &&
              (next.player == Respawn(anchorX, anchorY) || next.player == Respawn(nextAnchorX, nextAnchorY)) &&
              (!w.invincible || w.invincibilityTime <= 1)
    ensures Running(w) && livesLost == 0 ==>
              next.player.x <= 3.0 * screenWidth - PlayerWidth &&
              (3.0 * screenWidth >= PlayerWidth ==> next.player.x >= 0.0)
    ensures Running(w) && next.player.grounded ==>
              next.player.vy == 0.0 &&
              exists i :: 0 <= i < |w.platforms| && next.player.y + PlayerHeight == w.platforms[i].y
    ensures |next.checkpoints| == |w.checkpoints|
    ensures forall i :: 0 <= i < |w.checkpoints| && w.checkpoints[i].activated ==> next.checkpoints[i].activated
    ensures forall h :: h in next.hearts ==> h in w.hearts
    ensures next.heartsCollected == w.heartsCollected + (|w.hearts| - |next.hearts|)
    ensures Running(w) && screenWidth >= 0.0 ==> 0.0 <= next.cameraX <= 2.0 * screenWidth
    ensures completedNow <==> Running(w) && next.levelCompleted
    ensures completedNow <==>
              Running(w) && next.heartsCollected >= TotalHearts && next.player.x > 0.9 * (3.0 * screenWidth)
    ensures Running(w) ==>
              FrameOutcome(w, anchorX, anchorY, keys, screenWidth, screenHeight, next, nextAnchorX, nextAnchorY, livesLost)
  {
    next, nextAnchorX, nextAnchorY, livesLost, completedNow := w, anchorX, anchorY, 0, false;
    if !Running(w) {
      return;
    }
    var levelWidth := 3.0 * screenWidth;
    var at, shielded0, shieldTime0, fell := MoveAndFall(w, anchorX, anchorY, keys, levelWidth, screenHeight);
    var b, shielded, shieldTime, cps, ax, ay, remaining, collected, hit :=
      TouchAndHit(at, shielded0, shieldTime0, w, anchorX, anchorY);
    livesLost := if fell || hit then 1 else 0;

    var total := w.heartsCollected + collected;
    completedNow := total >= TotalHearts && b.x > 0.9 * levelWidth;
    next := w.(player := b, invincible := shielded, invincibilityTime := shieldTime,
               cameraX := CameraX(b.x, screenWidth, levelWidth),
               checkpoints := cps, hearts := remaining, heartsCollected := total,
               levelCompleted := completedNow);
    nextAnchorX, nextAnchorY := ax, ay;
    OutcomeOfHalves(w, anchorX, anchorY, keys, screenWidth, screenHeight, at, fell, hit,
                    next, nextAnchorX, nextAnchorY, livesLost);
  }

  /** The two halves of a frame compose to its outcome. */
  lemma OutcomeOfHalves(w: World, anchorX: real, anchorY: real, keys: set<Key>, screenWidth: real, screenHeight: real,
                        at: Body, fell: bool, hit: bool,
                        next: World, nextAnchorX: real, nextAnchorY: real, livesLost: nat)
    requires var shield := StepInvincibility(w.invincible, w.invincibilityTime);
             var moved := Stepped(w.player, keys, w.platforms, 3.0 * screenWidth);
             fell == (moved.y > screenHeight && !shield.0) &&
             at == (if fell then Respawn(anchorX, anchorY) else moved) &&
             (hit <==> !(fell || shield.0) && exists i :: 0 <= i < |w.hazards| && Overlaps(BodyRect(at), w.hazards[i])) &&
             next.player == (if hit then Respawn(nextAnchorX, nextAnchorY) else at) &&
             (next.invincible, next.invincibilityTime) ==
               (if hit || fell then (true, InvincibilityFrames) else shield)
    requires next.checkpoints == Activated(BodyRect(at), w.checkpoints)
    requires (nextAnchorX, nextAnchorY) == AnchorAfter(BodyRect(at), w.checkpoints, anchorX, anchorY)
    requires next.hearts == Untouched(BodyRect(at), w.hearts)
    requires next.heartsCollected == w.heartsCollected + TouchedCount(BodyRect(at), w.hearts)
    requires next.cameraX == CameraX(next.player.x, screenWidth, 3.0 * screenWidth)
    requires livesLost == if fell || hit then 1 else 0
    ensures FrameOutcome(w, anchorX, anchorY, keys, screenWidth, screenHeight, next, nextAnchorX, nextAnchorY, livesLost)
  {
  }

  /** The level component: its state record and the respawn anchor ref. */
  class Game {
    const screenWidth: real
    const screenHeight: real
    var world: World
    /** `activeCheckpointRef`. */
    var anchorX: real
    var anchorY: real

    ghost predicate Valid()
      reads this
    {
      screenWidth > 0.0 && screenHeight > 0.0 && ValidWorld(world)
    }

    constructor (screenWidth: real, screenHeight: real)
      requires screenWidth > 0.0 && screenHeight > 0.0
      ensures Valid()
      ensures this.screenWidth == screenWidth && this.screenHeight == screenHeight
      ensures world == World(StartBody(screenHeight), false, 0, 0.0, [], [], [], [], 0, false, false, false)
      ensures anchorX == StartX && anchorY == screenHeight - StartHeightAboveBottom
    {
      this.screenWidth := screenWidth;
      this.screenHeight := screenHeight;
      world := World(StartBody(screenHeight), false, 0, 0.0, [], [], [], [], 0, false, false, false);
      anchorX, anchorY := StartX, screenHeight - StartHeightAboveBottom;
    }

    /** `initializeLevel`: install the layout and start the game. */
    method InitializeLevel(platforms: seq<Rect>, hearts: seq<Heart>, hazards: seq<Rect>, checkpoints: seq<Checkpoint>)
      requires Valid()
      modifies this
      ensures Valid()
      ensures world == old(world).(platforms := platforms, hearts := hearts, hazards := hazards,
                                   checkpoints := checkpoints, gameStarted := true,
                                   heartsCollected := 0, levelCompleted := false)
      ensures anchorX == old(anchorX) && anchorY == old(anchorY)
    {
      world := world.(platforms := platforms, hearts := hearts, hazards := hazards,
                      checkpoints := checkpoints, gameStarted := true,
                      heartsCollected := 0, levelCompleted := false);
    }

    /** One animation frame. */
    method Tick(keys: set<Key>) returns (livesLost: nat, completedNow: bool)
      requires Valid()
      modifies this
      ensures Valid()
      ensures !Running(old(world)) ==> unchanged(this) && livesLost == 0 && !completedNow
      ensures livesLost <= 1
      ensures completedNow ==> world.levelCompleted && world.heartsCollected >= TotalHearts
      ensures Running(old(world)) ==>
                FrameOutcome(old(world), old(anchorX), old(anchorY), keys, screenWidth, screenHeight,
                             world, anchorX, anchorY, livesLost) &&
                world.platforms == old(world.platforms) && world.hazards == old(world.hazards) &&
                world.gameStarted && !world.gameOver &&
                (world.levelCompleted <==> completedNow) &&
                (completedNow <==> world.heartsCollected >= TotalHearts && world.player.x > 0.9 * (3.0 * screenWidth))
    {
      world, anchorX, anchorY, livesLost, completedNow :=
        Frame(world, anchorX, anchorY, keys, screenWidth, screenHeight);
    }

    /** The effect that ends the game once the shared lives run out while
        the level is in progress. */
    method GameOverEffect(lives: int)
      requires Valid()
      modifies this
      ensures Valid()
      ensures world == old(world).(gameOver := old(world.gameOver) ||
                                     (lives <= 0 && old(world.gameStarted) && !old(world.levelCompleted)))
      ensures anchorX == old(anchorX) && anchorY == old(anchorY)
    {
      if lives <= 0 && world.gameStarted && !world.levelCompleted && !world.gameOver {
        world := world.(gameOver := true);
      }
    }

    /** `handleRetry`: back to the start with every checkpoint cleared and
        no hearts until the layout is installed again; restoring the lives
        is the app's `resetLives`. */
    method Retry()
      requires Valid()
      modifies this
      ensures Valid()
      ensures world == old(world).(player := StartBody(screenHeight), invincible := false,
                                   invincibilityTime := 0, cameraX := 0.0, heartsCollected := 0,
                                   gameOver := false, checkpoints := Deactivated(old(world.checkpoints)),
                                   hearts := [])
      ensures anchorX == StartX && anchorY == screenHeight - StartHeightAboveBottom
    {
      world := world.(player := StartBody(screenHeight), invincible := false,
                      invincibilityTime := 0, cameraX := 0.0, heartsCollected := 0,
                      gameOver := false, checkpoints := Deactivated(world.checkpoints),
                      hearts := []);
      anchorX, anchorY := StartX, screenHeight - StartHeightAboveBottom;
    }
  }
}
