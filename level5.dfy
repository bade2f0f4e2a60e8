/** Level 5, the boss fight: the player runs along two lanes at the bottom
    of the street, shooting upwards at a boss that paces across the top,
    while the boss sends taxis along a lane, pigeons from the sky or a
    shockwave over a whole lane. Fifty hits win; a hazard hit costs a life
    and grants two seconds of invincibility. */
module BossFight {
  import opened Geometry
  import opened Keys

  /** Pixels per second. */
  const PlayerSpeed := 375.0
  const ProjectileSpeed := 700.0
  /** Milliseconds that must pass between two shots. */
  const FireRate := 200.0
  const BossMaxHealth := 50
  const LaneHeight := 80.0
  const PlayerSize := 50.0
  const BossWidth := 200.0
  const BossHeight := 150.0
  const ProjectileWidth := 10.0
  const ProjectileHeight := 20.0
  /** Pixels per second the boss paces. */
  const BossSpeed := 150.0
  /** The boss turns when it comes within 50 px of either edge. */
  const BossMargin := 50.0
  const InvincibilitySeconds := 2.0
  const MaxFrameSeconds := 0.1

  /** The bottom lane is lane 1, the top lane lane 2. */
  function LaneTop(lane: int, screenHeight: real): real
  {
    if lane == 1 then screenHeight - 80.0 else screenHeight - 160.0
  }

  /** The player's y is fixed by the lane. */
  function PlayerY(lane: int, screenHeight: real): real { LaneTop(lane, screenHeight) + 15.0 }

  // ---------------------------------------------------------------------
  // Hazards

  datatype Hazard =
    | Taxi(lane: int, x: real, y: real, vx: real, spawnTimer: real)
    | Pigeon(x: real, y: real, vx: real, vy: real)
    | Shockwave(lane: int, y: real, warning: real, active: real)

  function HazardRect(h: Hazard, screenWidth: real): Rect
  {
    match h
    case Taxi(_, x, y, _, _) => Rect(x, y, 100.0, 40.0)
    case Pigeon(x, y, _, _) => Rect(x, y, 30.0, 30.0)
    case Shockwave(_, y, _, _) => Rect(0.0, y, screenWidth, LaneHeight)
  }

  /** A taxi or a shockwave is on the road. */
  predicate GroundBlocked(hazards: seq<Hazard>)
  {
    exists i :: 0 <= i < |hazards| && !hazards[i].Pigeon?
  }

  datatype PigeonDraw = PigeonDraw(x: real, y: real, vx: real)

  /** The random draws one attack may use, each in [0, 1); a pigeon flock
      uses one `PigeonDraw` per bird. */
  datatype AttackDraws = AttackDraws(kind: real, lane: real, side: real, pigeons: seq<PigeonDraw>)

  predicate ValidAttackDraws(d: AttackDraws)
  {
    0.0 <= d.kind < 1.0 && 0.0 <= d.lane < 1.0 && 0.0 <= d.side < 1.0 && |d.pigeons| >= 3 &&
    forall p :: p in d.pigeons ==> ValidPigeonDraw(p)
  }

  /** The attack roll: forced to the pigeon band while the road is blocked. */
  function AttackRoll(hazards: seq<Hazard>, d: AttackDraws): real
  {
    if GroundBlocked(hazards) then 0.6 else d.kind
  }

  /** The taxi batch: one lane, one side, spaced 250 px apart off screen,
      each waiting 1.5 s before it drives. */
  function Taxis(phase: int, laneDraw: real, sideDraw: real, screenWidth: real, screenHeight: real): seq<Hazard>
  {
    var lane := if laneDraw > 0.5 then 1 else 2;
    var speed := if phase == 1 then 350.0 else 450.0;
    seq(if phase == 1 then 1 else 2, i =>
      Taxi(lane,
           if sideDraw > 0.5 then -150.0 - i as real * 250.0 else screenWidth + 150.0 + i as real * 250.0,
           LaneTop(lane, screenHeight) + 20.0,
           if sideDraw > 0.5 then speed else -speed,
           1.5))
  }

  /** The pigeon flock, one bird per draw. */
  function Pigeons(phase: int, draws: seq<PigeonDraw>, screenWidth: real): seq<Hazard>
    requires |draws| >= 3 && screenWidth >= 0.0
    requires forall p :: p in draws ==> ValidPigeonDraw(p)
  {
    seq(if phase == 1 then 2 else 3, i requires 0 <= i < (if phase == 1 then 2 else 3) =>
      assert draws[i] in draws;
      NewPigeon(draws[i], if phase == 1 then 200.0 else 300.0, screenWidth))
  }

  /** The hazards one attack adds, by the attack roll. */
  function Attacks(phase: int, hazards: seq<Hazard>, d: AttackDraws, screenWidth: real, screenHeight: real)
    : seq<Hazard>
    requires ValidAttackDraws(d) && screenWidth >= 0.0
  {
    var roll := AttackRoll(hazards, d);
    if roll < 0.5 then Taxis(phase, d.lane, d.side, screenWidth, screenHeight)
    else if roll < 0.8 then Pigeons(phase, d.pigeons, screenWidth)
    else
      var lane := if d.lane > 0.5 then 1 else 2;
      [Shockwave(lane, LaneTop(lane, screenHeight), 2.0, 0.5)]
  }

  /** `spawnAttack`: below 0.5 a batch of taxis (1, or 2 in phase 2) in one
      lane, all from the same side; below 0.8 a flock of pigeons (2, or 3 in
      phase 2); otherwise one shockwave. */
  method SpawnAttack(phase: int, hazards: seq<Hazard>, d: AttackDraws, screenWidth: real, screenHeight: real)
    returns (attacks: seq<Hazard>)
    requires ValidAttackDraws(d) && screenWidth >= 0.0
    ensures attacks == Attacks(phase, hazards, d, screenWidth, screenHeight)
    ensures GroundBlocked(hazards) ==> forall a :: a in attacks ==> a.Pigeon?
    ensures AttackRoll(hazards, d) < 0.5 ==>
              |attacks| == (if phase == 1 then 1 else 2) &&
              forall i :: 0 <= i < |attacks| ==>
                attacks[i].Taxi? && attacks[i].lane == (if d.lane > 0.5 then 1 else 2) &&
                attacks[i].y == LaneTop(attacks[i].lane, screenHeight) + 20.0 &&
                attacks[i].spawnTimer == 1.5 &&
                (if d.side > 0.5
                 then attacks[i].x == -150.0 - i as real * 250.0 &&
                      attacks[i].vx == (if phase == 1 then 350.0 else 450.0)
                 else attacks[i].x == screenWidth + 150.0 + i as real * 250.0 &&
                      attacks[i].vx == -(if phase == 1 then 350.0 else 450.0))
    ensures 0.5 <= AttackRoll(hazards, d) < 0.8 ==>
              |attacks| == (if phase == 1 then 2 else 3) &&
              forall a :: a in attacks ==>
                a.Pigeon? && 0.0 <= a.x <= screenWidth && -250.0 < a.y <= -50.0 &&
                -100.0 <= a.vx < 100.0 && a.vy == (if phase == 1 then 200.0 else 300.0)
    ensures AttackRoll(hazards, d) >= 0.8 ==>
              |attacks| == 1 && attacks[0].Shockwave? &&
              attacks[0].lane == (if d.lane > 0.5 then 1 else 2) &&
              attacks[0].y == LaneTop(attacks[0].lane, screenHeight) &&
              attacks[0].warning == 2.0 && attacks[0].active == 0.5
  {
    var roll := AttackRoll(hazards, d);
    if roll < 0.5 {
      attacks := SpawnTaxis(phase, d.lane, d.side, screenWidth, screenHeight);
    } else if roll < 0.8 {
      attacks := SpawnPigeons(phase, d.pigeons, screenWidth);
    } else {
      var lane := if d.lane > 0.5 then 1 else 2;
      attacks := [Shockwave(lane, LaneTop(lane, screenHeight), 2.0, 0.5)];
    }
    if 0.5 <= roll < 0.8 {
      forall a | a in attacks
        ensures a.Pigeon? && 0.0 <= a.x <= screenWidth && -250.0 < a.y <= -50.0 &&
                -100.0 <= a.vx < 100.0 && a.vy == (if phase == 1 then 200.0 else 300.0)
      {
        var i :| 0 <= i < |attacks| && attacks[i] == a;
        assert d.pigeons[i] in d.pigeons;
      }
    }
  }

  /** The taxi batch: one lane, one side, spaced 250 px apart off screen. */
  method SpawnTaxis(phase: int, laneDraw: real, sideDraw: real, screenWidth: real, screenHeight: real)
    returns (taxis: seq<Hazard>)
    ensures |taxis| == (if phase == 1 then 1 else 2)
    ensures forall i :: 0 <= i < |taxis| ==>
              taxis[i] == Taxi(if laneDraw > 0.5 then 1 else 2,
                               if sideDraw > 0.5 then -150.0 - i as real * 250.0
                               else screenWidth + 150.0 + i as real * 250.0,
                               LaneTop(if laneDraw > 0.5 then 1 else 2, screenHeight) + 20.0,
                               if sideDraw > 0.5 then (if phase == 1 then 350.0 else 450.0)
                               else -(if phase == 1 then 350.0 else 450.0),
                               1.5)
    ensures taxis == Taxis(phase, laneDraw, sideDraw, screenWidth, screenHeight)
  {
    var speed := if phase == 1 then 350.0 else 450.0;
    var count := if phase == 1 then 1 else 2;
    var lane := if laneDraw > 0.5 then 1 else 2;
    var fromLeft := sideDraw > 0.5;
    taxis := [];
    var i := 0;
    while i < count
      invariant 0 <= i <= count && |taxis| == i
      invariant forall j :: 0 <= j < i ==>
                  taxis[j] == Taxi(lane,
                                   if fromLeft then -150.0 - j as real * 250.0
                                   else screenWidth + 150.0 + j as real * 250.0,
                                   LaneTop(lane, screenHeight) + 20.0,
                                   if fromLeft then speed else -speed, 1.5)
    {
      taxis := taxis + [Taxi(lane,
                             if fromLeft then -150.0 - i as real * 250.0
                             else screenWidth + 150.0 + i as real * 250.0,
                             LaneTop(lane, screenHeight) + 20.0,
                             if fromLeft then speed else -speed, 1.5)];
      i := i + 1;
    }
  }

  predicate ValidPigeonDraw(p: PigeonDraw)
  {
    0.0 <= p.x < 1.0 && 0.0 <= p.y < 1.0 && 0.0 <= p.vx < 1.0
  }

  /** One bird from its draws: above the screen, within its width, drifting
      sideways at under 100 px/s. */
  function NewPigeon(p: PigeonDraw, vy: real, screenWidth: real): (h: Hazard)
    requires ValidPigeonDraw(p) && screenWidth >= 0.0
    ensures h.Pigeon? && h.vy == vy
    ensures 0.0 <= h.x <= screenWidth && -250.0 < h.y <= -50.0 && -100.0 <= h.vx < 100.0
  {
    ScaleWithin(p.x, screenWidth);
    ScaleWithin(p.y, 200.0);
    Pigeon(p.x * screenWidth, -50.0 - p.y * 200.0, (p.vx - 0.5) * 200.0, vy)
  }

  /** The pigeon flock, one bird per draw. */
  method SpawnPigeons(phase: int, draws: seq<PigeonDraw>, screenWidth: real) returns (pigeons: seq<Hazard>)
    requires |draws| >= 3 && screenWidth >= 0.0
    requires forall p :: p in draws ==> ValidPigeonDraw(p)
    ensures |pigeons| == (if phase == 1 then 2 else 3)
    ensures forall i :: 0 <= i < |pigeons| ==>
              pigeons[i] == NewPigeon(draws[i], if phase == 1 then 200.0 else 300.0, screenWidth)
    ensures pigeons == Pigeons(phase, draws, screenWidth)
  {
    var count := if phase == 1 then 2 else 3;
    var vy := if phase == 1 then 200.0 else 300.0;
    pigeons := [];
    var i := 0;
    while i < count
      invariant 0 <= i <= count && |pigeons| == i
      invariant forall j :: 0 <= j < i ==> pigeons[j] == NewPigeon(draws[j], vy, screenWidth)
    {
      assert draws[i] in draws;
      pigeons := pigeons + [NewPigeon(draws[i], vy, screenWidth)];
      i := i + 1;
    }
  }


  /** What one hazard does in a frame: whether it stays, how it moved and
      whether it hits the player. */
  datatype HazardStep = HazardStep(kept: bool, hazard: Hazard, hit: bool)

  /** The hazard `filter` callback. A taxi still in its warning phase only
      counts down; then it drives along its lane and hits a player in that
      lane it touches. A shockwave warns, then burns its lane while active
      and disappears once spent. A pigeon flies and hits whatever it
      touches. Whatever strays 400 px beside or 50 px below the screen is
      dropped. */
  function StepHazard(h: Hazard, dt: real, lane: int, player: Rect, screenWidth: real, screenHeight: real): (r: HazardStep)
    ensures h.Taxi? && h.spawnTimer > 0.0 ==>
              r == HazardStep(true, Taxi(h.lane, h.x, h.y, h.vx, h.spawnTimer - dt), false)
    ensures h.Taxi? && h.spawnTimer <= 0.0 ==>
              r.hazard == Taxi(h.lane, h.x + h.vx * dt, h.y, h.vx, h.spawnTimer) &&
              (r.hit <==> h.lane == lane && Overlaps(HazardRect(r.hazard, screenWidth), player))
    ensures h.Shockwave? ==>
              r.hazard.Shockwave? && r.hazard.lane == h.lane &&
              (r.hit <==> h.warning <= 0.0 && h.active - dt > 0.0 && h.lane == lane) &&
              (r.kept ==> r.hazard.active > 0.0) &&
              (h.warning > 0.0 ==> r.hazard.active == h.active)
    ensures h.Pigeon? ==>
              r.hazard == Pigeon(h.x + h.vx * dt, h.y + h.vy * dt, h.vx, h.vy) &&
              (r.hit <==> Overlaps(HazardRect(r.hazard, screenWidth), player))
  {
    match h
    case Taxi(tl, x, y, vx, timer) =>
      if timer > 0.0 then HazardStep(true, Taxi(tl, x, y, vx, timer - dt), false)
      else
        var moved := Taxi(tl, x + vx * dt, y, vx, timer);
        HazardStep(InPlay(moved, screenWidth, screenHeight), moved,
                   tl == lane && Overlaps(HazardRect(moved, screenWidth), player))
    case Shockwave(sl, y, warning, active) =>
      if warning > 0.0 then
        var warned := Shockwave(sl, y, warning - dt, active);
        HazardStep(active > 0.0 && InPlay(warned, screenWidth, screenHeight), warned, false)
      else
        var burnt := Shockwave(sl, y, warning, active - dt);
        HazardStep(active - dt > 0.0 && InPlay(burnt, screenWidth, screenHeight), burnt,
                   active - dt > 0.0 && sl == lane)
    case Pigeon(x, y, vx, vy) =>
      var moved := Pigeon(x + vx * dt, y + vy * dt, vx, vy);
      HazardStep(InPlay(moved, screenWidth, screenHeight), moved, Overlaps(HazardRect(moved, screenWidth), player))
  }

  /** The bounds check at the end of the hazard callback; a shockwave sits
      at x = 0 on a lane, so it always passes. */
  predicate InPlay(h: Hazard, screenWidth: real, screenHeight: real)
  {
    var x := if h.Shockwave? then 0.0 else h.x;
    x > -400.0 && x < screenWidth + 400.0 && h.y < screenHeight + 50.0
  }


  /** The hazards kept after the callback, in order. */
  function HazardsAfter(hazards: seq<Hazard>, dt: real, lane: int, player: Rect,
                        screenWidth: real, screenHeight: real): (r: seq<Hazard>)
    ensures |r| <= |hazards|
  {
    if hazards == [] then []
    else
      var step := StepHazard(hazards[0], dt, lane, player, screenWidth, screenHeight);
      (if step.kept then [step.hazard] else []) +
      HazardsAfter(hazards[1..], dt, lane, player, screenWidth, screenHeight)
  }

  lemma HazardsAfterUnfold(hazards: seq<Hazard>, i: int, dt: real, lane: int, player: Rect,
                           screenWidth: real, screenHeight: real)
    requires 0 <= i < |hazards|
    ensures var step := StepHazard(hazards[i], dt, lane, player, screenWidth, screenHeight);
            HazardsAfter(hazards[i..], dt, lane, player, screenWidth, screenHeight) ==
            (if step.kept then [step.hazard] else []) +
            HazardsAfter(hazards[i + 1..], dt, lane, player, screenWidth, screenHeight)
  {
    assert hazards[i..][1..] == hazards[i + 1..];
  }

  /** Some hazard hits the player this frame. */
  predicate AnyHit(hazards: seq<Hazard>, dt: real, lane: int, player: Rect, screenWidth: real, screenHeight: real)
  {
    exists i :: 0 <= i < |hazards| && StepHazard(hazards[i], dt, lane, player, screenWidth, screenHeight).hit
  }

  /** The hazard `filter`: the first hit while vulnerable costs one life and
      starts two seconds of invincibility; the rest of the frame's hits are
      absorbed by it. */
  method UpdateHazards(hazards: seq<Hazard>, dt: real, lane: int, player: Rect, invincible: bool, timer: real,
                       screenWidth: real, screenHeight: real)
    returns (kept: seq<Hazard>, nowInvincible: bool, nowTimer: real, livesLost: nat)
    ensures kept == HazardsAfter(hazards, dt, lane, player, screenWidth, screenHeight)
    ensures livesLost <= 1
    ensures livesLost == 1 <==> !invincible && AnyHit(hazards, dt, lane, player, screenWidth, screenHeight)
    ensures livesLost == 1 ==> nowInvincible && nowTimer == InvincibilitySeconds
    ensures livesLost == 0 ==> nowInvincible == invincible && nowTimer == timer
  {
    kept, nowInvincible, nowTimer, livesLost := [], invincible, timer, 0;
    var i := 0;
    while i < |hazards|
      invariant 0 <= i <= |hazards|
      invariant kept + HazardsAfter(hazards[i..], dt, lane, player, screenWidth, screenHeight) ==
                HazardsAfter(hazards, dt, lane, player, screenWidth, screenHeight)
      invariant livesLost <= 1
      invariant livesLost == 1 <==>
                  !invincible &&
                  exists j :: 0 <= j < i && StepHazard(hazards[j], dt, lane, player, screenWidth, screenHeight).hit
      invariant livesLost == 1 ==> nowInvincible && nowTimer == InvincibilitySeconds
      invariant livesLost == 0 ==> nowInvincible == invincible && nowTimer == timer
    {
      var step := StepHazard(hazards[i], dt, lane, player, screenWidth, screenHeight);
      HazardsAfterUnfold(hazards, i, dt, lane, player, screenWidth, screenHeight);
      if step.hit && !nowInvincible {
        nowInvincible, nowTimer, livesLost := true, InvincibilitySeconds, 1;
      }
      var emitted := if step.kept then [step.hazard] else [];
      assert kept + emitted + HazardsAfter(hazards[i + 1..], dt, lane, player, screenWidth, screenHeight) ==
             kept + (emitted + HazardsAfter(hazards[i + 1..], dt, lane, player, screenWidth, screenHeight));
      kept := kept + emitted;
      i := i + 1;
    }
  }

  // ---------------------------------------------------------------------
  // Projectiles

  /** A shot; `active` is set when fired and never cleared. */
  datatype Projectile = Projectile(x: real, y: real, active: bool)

  function ProjectileRect(p: Projectile): Rect { Rect(p.x, p.y, ProjectileWidth, ProjectileHeight) }

  function BossRect(x: real, y: real): Rect { Rect(x, y, BossWidth, BossHeight) }

  /** A projectile after this frame's climb. */
  function Climb(p: Projectile, dt: real): Projectile { p.(y := p.y - ProjectileSpeed * dt) }

  predicate HitsBoss(p: Projectile, dt: real, boss: Rect)
  {
    p.active && Overlaps(ProjectileRect(Climb(p, dt)), boss)
  }

  /** Projectiles still flying after the frame: neither in the boss nor
      50 px above the screen. */
  function ProjectilesAfter(ps: seq<Projectile>, dt: real, boss: Rect): (r: seq<Projectile>)
    ensures |r| <= |ps|
    ensures forall q :: q in r ==> q.y > -50.0
  {
    if ps == [] then []
    else
      var q := Climb(ps[0], dt);
      (if !HitsBoss(ps[0], dt, boss) && q.y > -50.0 then [q] else []) + ProjectilesAfter(ps[1..], dt, boss)
  }

  /** How many projectiles strike the boss this frame. */
  function BossHits(ps: seq<Projectile>, dt: real, boss: Rect): nat
  {
    if ps == [] then 0
    else (if HitsBoss(ps[0], dt, boss) then 1 else 0) + BossHits(ps[1..], dt, boss)
  }

  /** A projectile that hits is gone: hits and survivors never outnumber
      the shots. */
  lemma {:induction false} ShotsAccounted(ps: seq<Projectile>, dt: real, boss: Rect)
    ensures BossHits(ps, dt, boss) + |ProjectilesAfter(ps, dt, boss)| <= |ps|
  {
    if ps != [] {
      ShotsAccounted(ps[1..], dt, boss);
    }
  }

  /** The projectile `filter`: every projectile climbs; one that strikes the
      boss is removed and costs it exactly one health point. */
  method UpdateProjectiles(ps: seq<Projectile>, dt: real, boss: Rect) returns (kept: seq<Projectile>, hits: nat)
    ensures kept == ProjectilesAfter(ps, dt, boss) && hits == BossHits(ps, dt, boss)
    ensures hits + |kept| <= |ps|
  {
    kept, hits := [], 0;
    var i := 0;
    while i < |ps|
      invariant 0 <= i <= |ps|
      invariant kept + ProjectilesAfter(ps[i..], dt, boss) == ProjectilesAfter(ps, dt, boss)
      invariant hits + BossHits(ps[i..], dt, boss) == BossHits(ps, dt, boss)
    {
      assert ps[i..][1..] == ps[i + 1..];
      var q := Climb(ps[i], dt);
      if HitsBoss(ps[i], dt, boss) {
        hits := hits + 1;
      } else if q.y > -50.0 {
        kept := kept + [q];
      }
      i := i + 1;
    }
    ShotsAccounted(ps, dt, boss);
  }

  // ---------------------------------------------------------------------
  // Player and boss movement

  /** Left then right, each clamped to the screen. */
  function MovePlayer(x: real, keys: set<Key>, dt: real, screenWidth: real): (r: real)
    requires dt >= 0.0
    ensures 0.0 <= x <= screenWidth - PlayerSize ==> 0.0 <= r <= screenWidth - PlayerSize
    ensures !LeftHeld(keys) && !RightHeld(keys) ==> r == x
  {
    var afterLeft := if LeftHeld(keys) then Max(0.0, x - PlayerSpeed * dt) else x;
    if RightHeld(keys) then Min(screenWidth - PlayerSize, afterLeft + PlayerSpeed * dt) else afterLeft
  }

  /** Up picks the top lane and down the bottom one; down wins. */
  function NewLane(lane: int, keys: set<Key>): (r: int)
    ensures DownHeld(keys) ==> r == 1
    ensures UpHeld(keys) && !DownHeld(keys) ==> r == 2
    ensures !UpHeld(keys) && !DownHeld(keys) ==> r == lane
  {
    if DownHeld(keys) then 1 else if UpHeld(keys) then 2 else lane
  }

  /** The boss paces at 150 px/s and turns around whenever it ends the step
      within 50 px of either edge. */
  function BossStep(x: real, dir: int, dt: real, screenWidth: real): (r: (real, int))
    requires dir == 1 || dir == -1
    ensures r.0 == x + BossSpeed * dir as real * dt
    ensures r.1 == 1 || r.1 == -1
    ensures r.1 == -dir <==> r.0 <= BossMargin || r.0 + BossWidth >= screenWidth - BossMargin
  {
    var nx := x + BossSpeed * dir as real * dt;
    (nx, if nx <= BossMargin || nx + BossWidth >= screenWidth - BossMargin then -dir else dir)
  }

  // ---------------------------------------------------------------------
  // The frame

  datatype BossState = BossState(
    phase: int, playerX: real, lane: int, playerY: real, invincible: bool, invincibilityTimer: real,
    bossX: real, bossY: real, health: int, dir: int,
    projectiles: seq<Projectile>, hazards: seq<Hazard>,
    gameStarted: bool, gameOver: bool, levelCompleted: bool)

  function InitialBoss(screenWidth: real, screenHeight: real): BossState
  {
    BossState(1, screenWidth / 2.0, 1, PlayerY(1, screenHeight), false, 0.0,
              screenWidth / 2.0 - BossWidth / 2.0, 50.0, BossMaxHealth, 1,
              [], [], true, false, false)
  }

  predicate Over(s: BossState) { s.gameOver || s.levelCompleted }

  /** What every frame keeps: the player on screen in one of the two lanes
      at that lane's height, invincible only for a running timer of at most
      two seconds, the boss health never above its maximum, the boss
      pacing one way or the other, phase 2 only once the health has fallen
      to half, and a won fight at zero health. */
  predicate ValidBoss(s: BossState, screenWidth: real, screenHeight: real)
  {
    0.0 <= s.playerX <= screenWidth - PlayerSize &&
    (s.lane == 1 || s.lane == 2) && s.playerY == PlayerY(s.lane, screenHeight) &&
    (s.invincible ==> 0.0 < s.invincibilityTimer <= InvincibilitySeconds) &&
    s.health <= BossMaxHealth &&
    (s.dir == 1 || s.dir == -1) &&
    (s.phase == 1 || s.phase == 2) &&
    (s.phase == 2 ==> s.health <= BossMaxHealth / 2) &&
    (s.levelCompleted ==> s.health == 0)
  }

  /** The first half of a frame as a function: the player moves and
      changes lane, a due shot leaves from the player's centre, the boss
      paces and phase 2 starts at half health. */
  function Maneuvered(s: BossState, dt: real, keys: set<Key>, shoot: bool, screenWidth: real, screenHeight: real)
    : BossState
    requires (s.dir == 1 || s.dir == -1) && dt >= 0.0
  {
    var x := MovePlayer(s.playerX, keys, dt, screenWidth);
    var lane := NewLane(s.lane, keys);
    var y := PlayerY(lane, screenHeight);
    var boss := BossStep(s.bossX, s.dir, dt, screenWidth);
    s.(playerX := x, lane := lane, playerY := y,
       projectiles := s.projectiles +
                      (if shoot then [Projectile(x + PlayerSize / 2.0 - ProjectileWidth / 2.0, y, true)] else []),
       bossX := boss.0, dir := boss.1,
       phase := if s.health <= BossMaxHealth / 2 && s.phase == 1 then 2 else s.phase)
  }

  /** The invincibility countdown of one frame: the timer runs down and
      the protection ends when it reaches zero. */
  function Countdown(invincible: bool, timer: real, dt: real): (r: (bool, real))
    ensures !invincible ==> r == (false, timer)
    ensures invincible ==> r.1 == timer - dt && (r.0 <==> r.1 > 0.0)
  {
    if invincible then (timer - dt > 0.0, timer - dt) else (false, timer)
  }

  /** How the hazards treat the player in a frame: a due attack joins the
      hazards, the shield counts down, and then the callback runs over all
      of them. The hazards kept are exactly the ones the callback keeps; a
      hit while unprotected costs exactly one life and restarts the
      two-second shield, and with no such hit the counted-down shield
      stands. A new attack can only add hits. */
  predicate HazardOutcome(hazards: seq<Hazard>, invincible: bool, timer: real, dt: real, lane: int, player: Rect,
                          spawn: bool, phase: int, d: AttackDraws, screenWidth: real, screenHeight: real,
                          kept: seq<Hazard>, nowInvincible: bool, nowTimer: real, livesLost: nat)
    requires ValidAttackDraws(d) && screenWidth >= 0.0
  {
    var shield := Countdown(invincible, timer, dt);
    var all := hazards + (if spawn then Attacks(phase, hazards, d, screenWidth, screenHeight) else []);
    livesLost <= 1 &&
    (livesLost == 0 ==> (nowInvincible, nowTimer) == shield) &&
    (livesLost == 1 ==> !shield.0 && nowInvincible && nowTimer == InvincibilitySeconds) &&
    (!shield.0 && AnyHit(hazards, dt, lane, player, screenWidth, screenHeight) ==> livesLost == 1) &&
    kept == HazardsAfter(all, dt, lane, player, screenWidth, screenHeight) &&
    (livesLost == 1 <==> !shield.0 && AnyHit(all, dt, lane, player, screenWidth, screenHeight))
  }

  /** The second half of a frame in which the boss still stands, from the
      state `moved` after the first half: the projectiles fly and each hit
      takes one health point, a due attack resets the attack timer by
      phase, and the hazards treat the player as `HazardOutcome` says. */
  predicate SkirmishOutcome(moved: BossState, dt: real, spawn: bool, attackTimer: real, d: AttackDraws,
                            screenWidth: real, screenHeight: real,
                            next: BossState, nextAttackTimer: real, livesLost: nat)
    requires ValidAttackDraws(d) && screenWidth >= 0.0
  {
    var boss := BossRect(moved.bossX, moved.bossY);
    next == moved.(projectiles := ProjectilesAfter(moved.projectiles, dt, boss),
                   health := moved.health - BossHits(moved.projectiles, dt, boss),
                   hazards := next.hazards, invincible := next.invincible,
                   invincibilityTimer := next.invincibilityTimer) &&
    nextAttackTimer == (if spawn then (if moved.phase == 1 then 1.8 else 1.2) else attackTimer) &&
    HazardOutcome(moved.hazards, moved.invincible, moved.invincibilityTimer, dt, moved.lane,
                  Rect(moved.playerX, moved.playerY, PlayerSize, PlayerSize), spawn, moved.phase, d,
                  screenWidth, screenHeight, next.hazards, next.invincible, next.invincibilityTimer, livesLost)
  }

  /** The record after one frame: after the first half, a boss at zero
      health completes the level and nothing else happens; otherwise the
      second half runs. */
  predicate FrameOutcome(s: BossState, dt: real, keys: set<Key>, shoot: bool, spawn: bool, attackTimer: real,
                         d: AttackDraws, screenWidth: real, screenHeight: real,
                         next: BossState, nextAttackTimer: real, livesLost: nat, completedNow: bool)
    requires (s.dir == 1 || s.dir == -1) && dt >= 0.0
    requires ValidAttackDraws(d) && screenWidth >= 0.0
  {
    var moved := Maneuvered(s, dt, keys, shoot, screenWidth, screenHeight);
    (completedNow <==> s.health <= 0) &&
    (completedNow ==>
       next == moved.(levelCompleted := true, health := 0) && nextAttackTimer == attackTimer && livesLost == 0) &&
    (!completedNow ==>
       SkirmishOutcome(moved, dt, spawn, attackTimer, d, screenWidth, screenHeight, next, nextAttackTimer, livesLost))
  }

  /** What follows from a frame's outcome for a valid fight. */
  lemma FrameOutcomeFacts(s: BossState, dt: real, keys: set<Key>, shoot: bool, spawn: bool, attackTimer: real,
                          d: AttackDraws, screenWidth: real, screenHeight: real,
                          next: BossState, nextAttackTimer: real, livesLost: nat, completedNow: bool)
    requires ValidBoss(s, screenWidth, screenHeight) && 0.0 <= dt && ValidAttackDraws(d) && screenWidth >= 0.0
    requires FrameOutcome(s, dt, keys, shoot, spawn, attackTimer, d, screenWidth, screenHeight,
                          next, nextAttackTimer, livesLost, completedNow)
    ensures next.playerX == MovePlayer(s.playerX, keys, dt, screenWidth)
    ensures next.lane == NewLane(s.lane, keys)
    ensures (next.bossX, next.dir) == BossStep(s.bossX, s.dir, dt, screenWidth)
    ensures s.phase == 2 ==> next.phase == 2
    ensures next.phase == 2 <==> s.phase == 2 || s.health <= BossMaxHealth / 2
    ensures next.gameOver == s.gameOver && next.gameStarted == s.gameStarted
    ensures completedNow <==> s.health <= 0
    ensures completedNow ==>
              next.levelCompleted && next.health == 0 && livesLost == 0 &&
              next.hazards == s.hazards && nextAttackTimer == attackTimer &&
              next.projectiles == s.projectiles +
                (if shoot then [Projectile(next.playerX + PlayerSize / 2.0 - ProjectileWidth / 2.0,
                                           next.playerY, true)] else [])
    ensures !completedNow ==>
              next.levelCompleted == s.levelCompleted &&
              s.health - next.health <= |s.projectiles| + (if shoot then 1 else 0) &&
              next.health <= s.health
    ensures !completedNow ==>
              var fired := s.projectiles +
                (if shoot then [Projectile(next.playerX + PlayerSize / 2.0 - ProjectileWidth / 2.0,
                                           next.playerY, true)] else []);
              next.health == s.health - BossHits(fired, dt, BossRect(next.bossX, next.bossY)) &&
              next.projectiles == ProjectilesAfter(fired, dt, BossRect(next.bossX, next.bossY))
    ensures !completedNow ==>
              nextAttackTimer == (if spawn then (if next.phase == 1 then 1.8 else 1.2) else attackTimer)
    ensures livesLost <= 1
    ensures livesLost == 1 ==> next.invincible && next.invincibilityTimer == InvincibilitySeconds
    ensures s.invincible && s.invincibilityTimer - dt > 0.0 ==> livesLost == 0
  {
    var moved := Maneuvered(s, dt, keys, shoot, screenWidth, screenHeight);
    if !completedNow {
      ShotsAccounted(moved.projectiles, dt, BossRect(moved.bossX, moved.bossY));
    }
  }

  /** The state updater of one frame. `shoot` and `spawn` are the flags the
      loop computed before it; `attackTimer` is the attack countdown, which
      a spawn resets. */
  method Frame(s: BossState, dt: real, keys: set<Key>, shoot: bool, spawn: bool, attackTimer: real,
               d: AttackDraws, screenWidth: real, screenHeight: real)
    returns (next: BossState, nextAttackTimer: real, livesLost: nat, completedNow: bool)
    requires ValidBoss(s, screenWidth, screenHeight) && 0.0 <= dt <= MaxFrameSeconds
    requires ValidAttackDraws(d) && screenWidth >= 0.0
    ensures ValidBoss(next, screenWidth, screenHeight)
    ensures FrameOutcome(s, dt, keys, shoot, spawn, attackTimer, d, screenWidth, screenHeight,
                         next, nextAttackTimer, livesLost, completedNow)
    ensures next.playerX == MovePlayer(s.playerX, keys, dt, screenWidth)
    ensures next.lane == NewLane(s.lane, keys)
    ensures (next.bossX, next.dir) == BossStep(s.bossX, s.dir, dt, screenWidth)
    ensures s.phase == 2 ==> next.phase == 2
    ensures next.phase == 2 <==> s.phase == 2 || s.health <= BossMaxHealth / 2
    ensures next.gameOver == s.gameOver && next.gameStarted == s.gameStarted
    ensures completedNow <==> s.health <= 0
    ensures completedNow ==>
              next.levelCompleted && next.health == 0 && livesLost == 0 &&
              next.hazards == s.hazards && nextAttackTimer == attackTimer &&
              next.projectiles == s.projectiles +
                (if shoot then [Projectile(next.playerX + PlayerSize / 2.0 - ProjectileWidth / 2.0,
                                           next.playerY, true)] else [])
    ensures !completedNow ==>
              next.levelCompleted == s.levelCompleted &&
              s.health - next.health <= |s.projectiles| + (if shoot then 1 else 0) &&
              next.health <= s.health
    ensures !completedNow ==>
              var fired := s.projectiles +
                (if shoot then [Projectile(next.playerX + PlayerSize / 2.0 - ProjectileWidth / 2.0,
                                           next.playerY, true)] else []);
              next.health == s.health - BossHits(fired, dt, BossRect(next.bossX, next.bossY)) &&
              next.projectiles == ProjectilesAfter(fired, dt, BossRect(next.bossX, next.bossY))
    ensures !completedNow ==>
              nextAttackTimer == (if spawn then (if next.phase == 1 then 1.8 else 1.2) else attackTimer)
    ensures livesLost <= 1
    ensures livesLost == 1 ==> next.invincible && next.invincibilityTimer == InvincibilitySeconds
    ensures s.invincible && s.invincibilityTimer - dt > 0.0 ==> livesLost == 0
  {
    var moved := Maneuver(s, dt, keys, shoot, screenWidth, screenHeight);
    nextAttackTimer := attackTimer;
    livesLost := 0;
    if s.health <= 0 {
      next := moved.(levelCompleted := true, health := 0);
      completedNow := true;
    } else {
      completedNow := false;
      next, nextAttackTimer, livesLost := Skirmish(moved, s.health, dt, spawn, attackTimer, d, screenWidth, screenHeight);
    }
    FrameOutcomeFacts(s, dt, keys, shoot, spawn, attackTimer, d, screenWidth, screenHeight,
                      next, nextAttackTimer, livesLost, completedNow);
  }

  /** The first half of a frame: move the player, switch lanes, fire the
      shot if one is due, pace the boss and enter phase 2 at half health.
      Health, hazards and invincibility are not touched yet. */
  method Maneuver(s: BossState, dt: real, keys: set<Key>, shoot: bool, screenWidth: real, screenHeight: real)
    returns (moved: BossState)
    requires ValidBoss(s, screenWidth, screenHeight) && dt >= 0.0
    ensures ValidBoss(moved, screenWidth, screenHeight)
    ensures moved.playerX == MovePlayer(s.playerX, keys, dt, screenWidth)
    ensures moved.lane == NewLane(s.lane, keys)
    ensures (moved.bossX, moved.dir) == BossStep(s.bossX, s.dir, dt, screenWidth)
    ensures moved.phase == 2 <==> s.phase == 2 || s.health <= BossMaxHealth / 2
    ensures moved.projectiles == s.projectiles +
              (if shoot then [Projectile(moved.playerX + PlayerSize / 2.0 - ProjectileWidth / 2.0,
                                         moved.playerY, true)] else [])
    ensures moved == s.(playerX := moved.playerX, lane := moved.lane, playerY := moved.playerY,
                        projectiles := moved.projectiles, bossX := moved.bossX, dir := moved.dir,
                        phase := moved.phase)
    ensures moved == Maneuvered(s, dt, keys, shoot, screenWidth, screenHeight)
  {
    var x := MovePlayer(s.playerX, keys, dt, screenWidth);
    var lane := NewLane(s.lane, keys);
    var y := PlayerY(lane, screenHeight);
    var projectiles := s.projectiles;
    if shoot {
      projectiles := projectiles + [Projectile(x + PlayerSize / 2.0 - ProjectileWidth / 2.0, y, true)];
    }
    var (bossX, dir) := BossStep(s.bossX, s.dir, dt, screenWidth);
    var phase := if s.health <= BossMaxHealth / 2 && s.phase == 1 then 2 else s.phase;
    moved := s.(playerX := x, lane := lane, playerY := y, projectiles := projectiles,
                bossX := bossX, dir := dir, phase := phase);
  }

  /** A hit among the old hazards is still a hit once an attack joins them. */
  lemma HitSurvivesSpawn(hazards: seq<Hazard>, attacks: seq<Hazard>, dt: real, lane: int, player: Rect,
                         screenWidth: real, screenHeight: real)
    requires AnyHit(hazards, dt, lane, player, screenWidth, screenHeight)
    ensures AnyHit(hazards + attacks, dt, lane, player, screenWidth, screenHeight)
  {
    var i :| 0 <= i < |hazards| && StepHazard(hazards[i], dt, lane, player, screenWidth, screenHeight).hit;
    assert (hazards + attacks)[i] == hazards[i];
  }

  /** The hazard half of a frame: spawn an attack when due, run down the
      invincibility timer, then play the hazards against the player. */
  method Threaten(moved: BossState, dt: real, spawn: bool, attackTimer: real,
                  d: AttackDraws, screenWidth: real, screenHeight: real)
    returns (kept: seq<Hazard>, nowInvincible: bool, nowTimer: real, livesLost: nat, nextAttackTimer: real)
    requires ValidBoss(moved, screenWidth, screenHeight) && 0.0 <= dt && ValidAttackDraws(d) && screenWidth >= 0.0
    ensures nowInvincible ==> 0.0 < nowTimer <= InvincibilitySeconds
    ensures nextAttackTimer == (if spawn then (if moved.phase == 1 then 1.8 else 1.2) else attackTimer)
    ensures HazardOutcome(moved.hazards, moved.invincible, moved.invincibilityTimer, dt, moved.lane,
                          Rect(moved.playerX, moved.playerY, PlayerSize, PlayerSize), spawn, moved.phase, d,
                          screenWidth, screenHeight, kept, nowInvincible, nowTimer, livesLost)
  {
    nextAttackTimer := attackTimer;
    var attacks := [];
    if spawn {
      nextAttackTimer := if moved.phase == 1 then 1.8 else 1.2;
      attacks := SpawnAttack(moved.phase, moved.hazards, d, screenWidth, screenHeight);
    }
    var hazards := moved.hazards + attacks;
    var shield := Countdown(moved.invincible, moved.invincibilityTimer, dt);
    var player := Rect(moved.playerX, moved.playerY, PlayerSize, PlayerSize);
    kept, nowInvincible, nowTimer, livesLost :=
      UpdateHazards(hazards, dt, moved.lane, player, shield.0, shield.1, screenWidth, screenHeight);
    if !shield.0 && AnyHit(moved.hazards, dt, moved.lane, player, screenWidth, screenHeight) {
      HitSurvivesSpawn(moved.hazards, attacks, dt, moved.lane, player, screenWidth, screenHeight);
    }
  }

  /** The rest of a frame in which the boss still stands: spawn an attack
      when due, fly the projectiles, run down the invincibility timer, then
      play the hazards against the player. `moved` is the state after the
      movement steps. */
  method Skirmish(moved: BossState, health: int, dt: real, spawn: bool, attackTimer: real,
                  d: AttackDraws, screenWidth: real, screenHeight: real)
    returns (next: BossState, nextAttackTimer: real, livesLost: nat)
    requires moved.health == health && health > 0
    requires ValidBoss(moved, screenWidth, screenHeight) && 0.0 <= dt && ValidAttackDraws(d) && screenWidth >= 0.0
    ensures ValidBoss(next, screenWidth, screenHeight)
    ensures SkirmishOutcome(moved, dt, spawn, attackTimer, d, screenWidth, screenHeight, next, nextAttackTimer, livesLost)
    ensures next == moved.(projectiles := next.projectiles, health := next.health, hazards := next.hazards,
                           invincible := next.invincible, invincibilityTimer := next.invincibilityTimer)
    ensures next.health <= health && health - next.health <= |moved.projectiles|
    ensures next.health == health - BossHits(moved.projectiles, dt, BossRect(moved.bossX, moved.bossY))
    ensures next.projectiles == ProjectilesAfter(moved.projectiles, dt, BossRect(moved.bossX, moved.bossY))
    ensures nextAttackTimer == (if spawn then (if moved.phase == 1 then 1.8 else 1.2) else attackTimer)
    ensures livesLost <= 1
    ensures livesLost == 1 ==> next.invincible && next.invincibilityTimer == InvincibilitySeconds
    ensures moved.invincible && moved.invincibilityTimer - dt > 0.0 ==> livesLost == 0
  {
    var kept, nowInvincible, nowTimer;
    kept, nowInvincible, nowTimer, livesLost, nextAttackTimer :=
      Threaten(moved, dt, spawn, attackTimer, d, screenWidth, screenHeight);
    var flying, hits := UpdateProjectiles(moved.projectiles, dt, BossRect(moved.bossX, moved.bossY));
    next := moved.(projectiles := flying, health := health - hits, hazards := kept,
                   invincible := nowInvincible, invincibilityTimer := nowTimer);
  }

  // ---------------------------------------------------------------------
  // The level

  class Game {
    const screenWidth: real
    const screenHeight: real
    var state: BossState
    var lastTime: real
    var lastShotTime: real
    var attackTimer: real

    predicate Valid()
      reads this
    {
      ValidBoss(state, screenWidth, screenHeight) && screenWidth >= 0.0
    }

    constructor (screenWidth: real, screenHeight: real, now: real)
      requires screenWidth >= 2.0 * PlayerSize
      ensures Valid()
      ensures state == InitialBoss(screenWidth, screenHeight)
      ensures lastTime == now && lastShotTime == 0.0 && attackTimer == 0.0
    {
      this.screenWidth := screenWidth;
      this.screenHeight := screenHeight;
      state := InitialBoss(screenWidth, screenHeight);
      lastTime := now;
      lastShotTime := 0.0;
      attackTimer := 0.0;
    }

    /** One animation frame: count the attack timer down by the capped frame
        time, fire if Space is held and the fire rate allows, then run the
        state updater. The loop runs only while the fight is neither won
        nor lost. */
    method Tick(now: real, keys: set<Key>, d: AttackDraws) returns (livesLost: nat, completedNow: bool)
      requires Valid() && now >= lastTime && ValidAttackDraws(d)
      modifies this
      ensures Valid()
      ensures Over(old(state)) ==> unchanged(this) && livesLost == 0 && !completedNow
      ensures livesLost <= 1
      ensures !Over(old(state)) ==> lastTime == now
      ensures lastShotTime ==
                (if !Over(old(state)) && Space in keys && now - old(lastShotTime) > FireRate
                 then now else old(lastShotTime))
      ensures completedNow ==> state.levelCompleted && state.health == 0
      ensures !Over(old(state)) ==>
                var dt := Min((now - old(lastTime)) / 1000.0, MaxFrameSeconds);
                FrameOutcome(old(state), dt, keys, Space in keys && now - old(lastShotTime) > FireRate,
                             old(attackTimer) - dt <= 0.0, old(attackTimer) - dt, d, screenWidth, screenHeight,
                             state, attackTimer, livesLost, completedNow)
    {
      livesLost, completedNow := 0, false;
      if Over(state) {
        return;
      }
      var dt := Min((now - lastTime) / 1000.0, MaxFrameSeconds);
      lastTime := now;
      attackTimer := attackTimer - dt;
      var spawn := attackTimer <= 0.0;
      var shoot := false;
      if Space in keys && now - lastShotTime > FireRate {
        lastShotTime := now;
        shoot := true;
      }
      state, attackTimer, livesLost, completedNow :=
        Frame(state, dt, keys, shoot, spawn, attackTimer, d, screenWidth, screenHeight);
    }

    /** The lives watcher: out of lives ends a fight that is still on. */
    method GameOverEffect(lives: int)
      requires Valid()
      modifies this
      ensures Valid()
      ensures state.gameOver <==>
                old(state.gameOver) ||
                (lives <= 0 && old(state.gameStarted) && !old(state.levelCompleted))
      ensures state == old(state).(gameOver := state.gameOver)
      ensures lastTime == old(lastTime) && lastShotTime == old(lastShotTime) && attackTimer == old(attackTimer)
    {
      if lives <= 0 && state.gameStarted && !state.levelCompleted && !state.gameOver {
        state := state.(gameOver := true);
      }
    }

    /** `handleRetry`: a fresh fight; the shot and attack timers keep their
        values. */
    method Retry(now: real)
      requires Valid() && screenWidth >= 2.0 * PlayerSize
      modifies this
      ensures Valid()
      ensures state == InitialBoss(screenWidth, screenHeight) && lastTime == now
      ensures lastShotTime == old(lastShotTime) && attackTimer == old(attackTimer)
    {
      state := InitialBoss(screenWidth, screenHeight);
      lastTime := now;
    }
  }
}
