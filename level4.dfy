/** Level 4, the star catch: 25 stars fall one by one among obstacles that
    come faster as more stars have spawned; the player walks along the
    bottom catching them. Each caught star scores a point and each obstacle
    hit costs one; once all 25 stars have spawned and left the screen, a
    score of 20 wins and anything less is game over. */
module StarCollect {
  import opened Geometry
  import opened Keys

  const PlayerWidth := 80.0
  const PlayerHeight := 80.0
  /** The player stands 140 px above the bottom edge. */
  const PlayerLift := 140.0
  /** Pixels per second. */
  const PlayerSpeed := 700.0
  const ItemSize := 50.0
  const TotalStars := 25
  const StarsNeeded := 20
  const InitialFallSpeed := 3.0
  const MaxFallSpeed := 10.0
  const StarIntervalMin := 1.5
  const StarIntervalMax := 2.5
  const ObstacleIntervalStart := 3.0
  const ObstacleIntervalEnd := 0.25
  /** No obstacle spawns above a star that is still in the top 150 px. */
  const VerticalSafeZone := 150.0
  /** A frame never advances the game by more than 0.1 s. */
  const MaxFrameSeconds := 0.1
  /** Items are dropped once 100 px below the screen. */
  const CullMargin := 100.0

  /** A falling star or obstacle; `speed` is in pixels per 1/60 s. */
  datatype Item = Item(x: real, y: real, speed: real)

  function ItemRect(it: Item): Rect { Rect(it.x, it.y, ItemSize, ItemSize) }

  function PlayerBox(x: real, screenHeight: real): Rect
  {
    Rect(x, screenHeight - PlayerLift, PlayerWidth, PlayerHeight)
  }

  // ---------------------------------------------------------------------
  // Timing and difficulty

  /** The frame time in seconds, capped at 0.1 s. */
  function FrameSeconds(now: real, last: real): (dt: real)
    requires now >= last
    ensures 0.0 <= dt <= MaxFrameSeconds
    ensures dt == MaxFrameSeconds || dt * 1000.0 == now - last
  {
    Min((now - last) / 1000.0, MaxFrameSeconds)
  }

  /** The share of the stars spawned so far, at most 1. */
  function Progress(spawned: nat): (p: real)
    ensures 0.0 <= p <= 1.0
    ensures spawned >= TotalStars ==> p == 1.0
  {
    Min(spawned as real / TotalStars as real, 1.0)
  }

  /** Items fall faster as the stars run out: from 3 up to 10. */
  function FallSpeed(spawned: nat): (v: real)
    ensures InitialFallSpeed <= v <= MaxFallSpeed
    ensures spawned == 0 ==> v == InitialFallSpeed
    ensures spawned >= TotalStars ==> v == MaxFallSpeed
  {
    InitialFallSpeed + Progress(spawned) * (MaxFallSpeed - InitialFallSpeed)
  }

  /** Obstacles come more often as the stars run out: from every 3 s down
      to every 0.25 s. */
  function ObstacleInterval(spawned: nat): (t: real)
    ensures ObstacleIntervalEnd <= t <= ObstacleIntervalStart
    ensures spawned == 0 ==> t == ObstacleIntervalStart
    ensures spawned >= TotalStars ==> t == ObstacleIntervalEnd
  {
    ObstacleIntervalStart - Progress(spawned) * (ObstacleIntervalStart - ObstacleIntervalEnd)
  }

  /** The ramp only gets harder as more stars spawn. */
  lemma DifficultyRamps(a: nat, b: nat)
    requires a <= b
    ensures FallSpeed(a) <= FallSpeed(b)
    ensures ObstacleInterval(a) >= ObstacleInterval(b)
  {
    assert Progress(a) <= Progress(b);
    ScaleMonotone(Progress(a), Progress(b), MaxFallSpeed - InitialFallSpeed);
    ScaleMonotone(Progress(a), Progress(b), ObstacleIntervalStart - ObstacleIntervalEnd);
  }

  lemma ScaleMonotone(p: real, q: real, w: real)
    requires p <= q && w >= 0.0
    ensures p * w <= q * w
  {
    assert q * w - p * w == (q - p) * w;
  }

  /** The wait before the next star, from a random draw in [0, 1). */
  function NextStarInterval(draw: real): (t: real)
    requires 0.0 <= draw < 1.0
    ensures StarIntervalMin <= t < StarIntervalMax
  {
    draw * (StarIntervalMax - StarIntervalMin) + StarIntervalMin
  }

  /** A horizontal spawn position from a draw in [0, 1): the item fits on
      the screen. */
  function SpawnX(draw: real, screenWidth: real): (x: real)
    requires 0.0 <= draw < 1.0 && screenWidth >= ItemSize
    ensures 0.0 <= x <= screenWidth - ItemSize
  {
    var w := screenWidth - ItemSize;
    ScaleWithin(draw, w);
    draw * w
  }



  // ---------------------------------------------------------------------
  // Spawning

  /** An obstacle at `x` would not land on a star still near the top. */
  predicate IsSafe(stars: seq<Item>, x: real)
  {
    forall s :: s in stars ==> !(Abs(s.x - x) < ItemSize && s.y < VerticalSafeZone)
  }

  /** The obstacle spawn: only while stars are still to come or on screen,
      and only at a safe position. */
  function SpawnObstacle(stars: seq<Item>, obstacles: seq<Item>, spawned: nat, x: real, speed: real): (r: seq<Item>)
    ensures r == obstacles || r == obstacles + [Item(x, -ItemSize, speed)]
    ensures r != obstacles <==> (spawned < TotalStars || |stars| > 0) && IsSafe(stars, x)
    ensures r != obstacles ==>
              forall s :: s in stars ==> Abs(s.x - x) >= ItemSize || s.y >= VerticalSafeZone
  {
    if (spawned < TotalStars || |stars| > 0) && IsSafe(stars, x) then obstacles + [Item(x, -ItemSize, speed)]
    else obstacles
  }

  // ---------------------------------------------------------------------
  // Movement

  /** Left then right, each clamped to the screen. */
  function MovePlayer(x: real, keys: set<Key>, dt: real, screenWidth: real): (r: real)
    requires dt >= 0.0
    ensures 0.0 <= x <= screenWidth - PlayerWidth ==> 0.0 <= r <= screenWidth - PlayerWidth
    ensures !LeftHeld(keys) && !RightHeld(keys) ==> r == x
    ensures LeftHeld(keys) && !RightHeld(keys) ==> r == Max(0.0, x - PlayerSpeed * dt)
    ensures RightHeld(keys) && !LeftHeld(keys) ==> r == Min(screenWidth - PlayerWidth, x + PlayerSpeed * dt)
    ensures 0.0 <= x <= screenWidth - PlayerWidth ==> Abs(r - x) <= PlayerSpeed * dt
  {
    var afterLeft := if LeftHeld(keys) then Max(0.0, x - PlayerSpeed * dt) else x;
    if RightHeld(keys) then Min(screenWidth - PlayerWidth, afterLeft + PlayerSpeed * dt) else afterLeft
  }

  /** Every item falls by its speed, scaled to the frame time. */
  function Fall(items: seq<Item>, dt: real): (r: seq<Item>)
    ensures |r| == |items|
    ensures forall i :: 0 <= i < |items| ==>
              r[i] == items[i].(y := items[i].y + items[i].speed * 60.0 * dt)
  {
    seq(|items|, i requires 0 <= i < |items| => items[i].(y := items[i].y + items[i].speed * 60.0 * dt))
  }

  // ---------------------------------------------------------------------
  // Catching and culling

  /** The items the player box does not touch, in order. */
  function Missed(items: seq<Item>, box: Rect): (r: seq<Item>)
    ensures |r| <= |items|
    ensures forall it :: it in r <==> it in items && !Overlaps(box, ItemRect(it))
  {
    if items == [] then []
    else if Overlaps(box, ItemRect(items[0])) then Missed(items[1..], box)
    else [items[0]] + Missed(items[1..], box)
  }

  /** How many items the player box touches. */
  function CaughtCount(items: seq<Item>, box: Rect): nat
  {
    if items == [] then 0
    else (if Overlaps(box, ItemRect(items[0])) then 1 else 0) + CaughtCount(items[1..], box)
  }

  /** Every item is either caught or missed. */
  lemma {:induction false} CatchAccounted(items: seq<Item>, box: Rect)
    ensures |Missed(items, box)| + CaughtCount(items, box) == |items|
  {
    if items != [] {
      CatchAccounted(items[1..], box);
    }
  }

  /** The collision `filter`, counting what it removes. */
  method CatchItems(items: seq<Item>, box: Rect) returns (kept: seq<Item>, caught: nat)
    ensures kept == Missed(items, box) && caught == CaughtCount(items, box)
    ensures |kept| + caught == |items|
  {
    kept, caught := [], 0;
    var i := 0;
    while i < |items|
      invariant 0 <= i <= |items|
      invariant kept + Missed(items[i..], box) == Missed(items, box)
      invariant caught + CaughtCount(items[i..], box) == CaughtCount(items, box)
    {
      assert items[i..][1..] == items[i + 1..];
      if Overlaps(box, ItemRect(items[i])) {
        caught := caught + 1;
      } else {
        kept := kept + [items[i]];
      }
      i := i + 1;
    }
    assert items[i..] == [];
    CatchAccounted(items, box);
  }

  /** Items still above the cull line, in order. */
  function OnScreen(items: seq<Item>, screenHeight: real): (r: seq<Item>)
    ensures |r| <= |items|
    ensures forall it :: it in r <==> it in items && it.y < screenHeight + CullMargin
  {
    if items == [] then []
    else if items[0].y < screenHeight + CullMargin then [items[0]] + OnScreen(items[1..], screenHeight)
    else OnScreen(items[1..], screenHeight)
  }

  // ---------------------------------------------------------------------
  // The frame

  datatype StarState = StarState(
    playerX: real, stars: seq<Item>, obstacles: seq<Item>,
    starsSpawned: nat, starsCollected: nat, score: int,
    gameStarted: bool, gameOver: bool, levelCompleted: bool)

  function InitialStars(screenWidth: real): StarState
  {
    StarState(screenWidth / 2.0 - PlayerWidth / 2.0, [], [], 0, 0, 0, true, false, false)
  }

  predicate Over(s: StarState) { s.gameOver || s.levelCompleted }

  /** An item on screen: it fits horizontally, has fallen no farther than
      the cull line and falls at a speed of the ramp. */
  predicate ValidItem(it: Item, screenWidth: real, screenHeight: real)
  {
    Falling(it, screenWidth) && it.y < screenHeight + CullMargin
  }

  /** An item that fits horizontally, has not risen above its spawn line
      and falls at a speed of the ramp. */
  predicate Falling(it: Item, screenWidth: real)
  {
    0.0 <= it.x <= screenWidth - ItemSize && -ItemSize <= it.y &&
    InitialFallSpeed <= it.speed <= MaxFallSpeed
  }

  /** A state of the level: a running game keeps `Accounted`, and a
      finished game was decided by the score once every star had spawned
      and left, won or lost but not both. */
  predicate ValidStars(s: StarState, screenWidth: real, screenHeight: real)
  {
    Accounted(s, screenWidth, screenHeight) &&
    !(s.gameOver && s.levelCompleted) &&
    (Over(s) ==> s.starsSpawned == TotalStars && s.stars == []) &&
    (s.levelCompleted ==> s.score >= StarsNeeded) &&
    (s.gameOver ==> s.score < StarsNeeded)
  }

  /** The random draws one frame may use, each in [0, 1). */
  datatype FrameDraws = FrameDraws(starX: real, obstacleX: real)

  /** The stars after this frame's spawn: a new star at the top of the
      screen, falling at the current speed, when the star timer fired. */
  function StarsWithSpawn(s: StarState, spawnStar: bool, spawnedNow: nat, d: FrameDraws, screenWidth: real): seq<Item>
    requires 0.0 <= d.starX < 1.0 && screenWidth >= ItemSize
  {
    s.stars + (if spawnStar then [Item(SpawnX(d.starX, screenWidth), -ItemSize, FallSpeed(spawnedNow))] else [])
  }

  /** The obstacles after this frame's spawn, placed only where it is safe. */
  function ObstaclesWithSpawn(s: StarState, stars: seq<Item>, spawnObstacle: bool, spawnedNow: nat,
                              d: FrameDraws, screenWidth: real): seq<Item>
    requires 0.0 <= d.obstacleX < 1.0 && screenWidth >= ItemSize
  {
    if spawnObstacle
    then SpawnObstacle(stars, s.obstacles, spawnedNow, SpawnX(d.obstacleX, screenWidth), FallSpeed(spawnedNow))
    else s.obstacles
  }

  /** What every frame keeps: the player on screen, at most 25 stars
      spawned, every spawned star either caught, falling or gone, and the
      score never above the stars caught. */
  predicate Accounted(s: StarState, screenWidth: real, screenHeight: real)
  {
    0.0 <= s.playerX <= screenWidth - PlayerWidth &&
    s.starsSpawned <= TotalStars &&
    s.starsCollected + |s.stars| <= s.starsSpawned &&
    s.score <= s.starsCollected &&
    (forall it :: it in s.stars ==> ValidItem(it, screenWidth, screenHeight)) &&
    (forall it :: it in s.obstacles ==> ValidItem(it, screenWidth, screenHeight))
  }

  /** The running part of a frame: spawn, move the player, let everything
      fall, catch what touches the player box (a star scores and counts, an
      obstacle costs a point), and cull what fell past the screen. */
  method Advance(s: StarState, dt: real, spawnStar: bool, spawnObstacle: bool, spawnedNow: nat,
                 keys: set<Key>, d: FrameDraws, screenWidth: real, screenHeight: real)
    returns (next: StarState)
    requires Accounted(s, screenWidth, screenHeight) && screenWidth >= PlayerWidth
    requires 0.0 <= dt <= MaxFrameSeconds
    requires 0.0 <= d.starX < 1.0 && 0.0 <= d.obstacleX < 1.0
    requires spawnedNow == s.starsSpawned + (if spawnStar then 1 else 0) && spawnedNow <= TotalStars
    ensures Accounted(next, screenWidth, screenHeight)
    ensures next.starsSpawned == spawnedNow
    ensures next.playerX == MovePlayer(s.playerX, keys, dt, screenWidth)
    ensures var stars := StarsWithSpawn(s, spawnStar, spawnedNow, d, screenWidth);
            var obstacles := ObstaclesWithSpawn(s, stars, spawnObstacle, spawnedNow, d, screenWidth);
            var box := PlayerBox(next.playerX, screenHeight);
            next.starsCollected == s.starsCollected + CaughtCount(Fall(stars, dt), box) &&
            next.score == s.score + CaughtCount(Fall(stars, dt), box) - CaughtCount(Fall(obstacles, dt), box) &&
            next.stars == OnScreen(Missed(Fall(stars, dt), box), screenHeight) &&
            next.obstacles == OnScreen(Missed(Fall(obstacles, dt), box), screenHeight) &&
            |obstacles| <= |s.obstacles| + 1
    ensures next.starsCollected + |next.stars| <= s.starsCollected + |s.stars| + (if spawnStar then 1 else 0)
    ensures next.gameStarted == s.gameStarted && next.gameOver == s.gameOver &&
            next.levelCompleted == s.levelCompleted
  {
    var stars := StarsWithSpawn(s, spawnStar, spawnedNow, d, screenWidth);
    assert forall it :: it in stars ==> Falling(it, screenWidth);
    var obstacles := ObstaclesWithSpawn(s, stars, spawnObstacle, spawnedNow, d, screenWidth);
    assert forall it :: it in obstacles ==> Falling(it, screenWidth);
    var x := MovePlayer(s.playerX, keys, dt, screenWidth);
    var box := PlayerBox(x, screenHeight);
    var keptStars, caughtStars := CatchItems(Fall(stars, dt), box);
    var keptObstacles, hitObstacles := CatchItems(Fall(obstacles, dt), box);
    SurvivorsValid(stars, dt, box, screenWidth, screenHeight);
    SurvivorsValid(obstacles, dt, box, screenWidth, screenHeight);
    var onScreenStars := OnScreen(keptStars, screenHeight);
    var collected := s.starsCollected + caughtStars;
    assert collected + |onScreenStars| <= spawnedNow;
    next := s.(playerX := x, stars := onScreenStars,
               obstacles := OnScreen(keptObstacles, screenHeight),
               starsSpawned := spawnedNow, starsCollected := collected,
               score := s.score + caughtStars - hitObstacles);
  }

  /** The record after one frame of a running game: the spawn counter
      advances, the player moves, everything falls, what touches the player
      box is caught (a star scores and counts, an obstacle costs a point),
      what fell past the screen is culled, and once every star has spawned
      and none is left falling the game is won at 20 points or more and
      lost below. */
  predicate FrameOutcome(s: StarState, dt: real, spawnStar: bool, spawnObstacle: bool, spawnedNow: nat,
                         keys: set<Key>, d: FrameDraws, screenWidth: real, screenHeight: real, next: StarState)
    requires 0.0 <= d.starX < 1.0 && 0.0 <= d.obstacleX < 1.0 && screenWidth >= ItemSize && dt >= 0.0
  {
    var stars := StarsWithSpawn(s, spawnStar, spawnedNow, d, screenWidth);
    var obstacles := ObstaclesWithSpawn(s, stars, spawnObstacle, spawnedNow, d, screenWidth);
    var box := PlayerBox(next.playerX, screenHeight);
    var ended := spawnedNow == TotalStars && next.stars == [];
    next.starsSpawned == spawnedNow &&
    next.playerX == MovePlayer(s.playerX, keys, dt, screenWidth) &&
    next.starsCollected == s.starsCollected + CaughtCount(Fall(stars, dt), box) &&
    next.score == s.score + CaughtCount(Fall(stars, dt), box) - CaughtCount(Fall(obstacles, dt), box) &&
    next.stars == OnScreen(Missed(Fall(stars, dt), box), screenHeight) &&
    next.obstacles == OnScreen(Missed(Fall(obstacles, dt), box), screenHeight) &&
    next.gameStarted == s.gameStarted &&
    (next.levelCompleted <==> ended && next.score >= StarsNeeded) &&
    (next.gameOver <==> ended && next.score < StarsNeeded)
  }

  /** The state updater of one frame: the running part, then the end
      decision once every star has spawned and none is left falling.
      `spawnedNow` is the spawn counter after this frame's star check and
      `spawnStar` whether that check fired. */
  method Frame(s: StarState, dt: real, spawnStar: bool, spawnObstacle: bool, spawnedNow: nat,
               obstacleInterval: real, keys: set<Key>, d: FrameDraws,
               screenWidth: real, screenHeight: real)
    returns (next: StarState, nextObstacleInterval: real, completeScheduled: bool)
    requires ValidStars(s, screenWidth, screenHeight) && screenWidth >= PlayerWidth
    requires 0.0 <= dt <= MaxFrameSeconds
    requires 0.0 <= d.starX < 1.0 && 0.0 <= d.obstacleX < 1.0
    requires spawnedNow == s.starsSpawned + (if spawnStar then 1 else 0) && spawnedNow <= TotalStars
    ensures ValidStars(next, screenWidth, screenHeight)
    ensures Over(s) ==> next == s && nextObstacleInterval == obstacleInterval && !completeScheduled
    ensures !Over(s) ==> next.starsSpawned == spawnedNow
    ensures !Over(s) ==>
              nextObstacleInterval == (if spawnObstacle then ObstacleInterval(spawnedNow) else obstacleInterval)
    ensures !Over(s) ==> next.playerX == MovePlayer(s.playerX, keys, dt, screenWidth)
    ensures !Over(s) ==>
              var stars := StarsWithSpawn(s, spawnStar, spawnedNow, d, screenWidth);
              var obstacles := ObstaclesWithSpawn(s, stars, spawnObstacle, spawnedNow, d, screenWidth);
              var box := PlayerBox(next.playerX, screenHeight);
              next.starsCollected == s.starsCollected + CaughtCount(Fall(stars, dt), box) &&
              next.score == s.score + CaughtCount(Fall(stars, dt), box) - CaughtCount(Fall(obstacles, dt), box) &&
              next.stars == OnScreen(Missed(Fall(stars, dt), box), screenHeight) &&
              next.obstacles == OnScreen(Missed(Fall(obstacles, dt), box), screenHeight)
    ensures next.starsCollected >= s.starsCollected
    ensures next.starsCollected + |next.stars| <= s.starsCollected + |s.stars| + (if spawnStar then 1 else 0)
    ensures next.score - s.score <= next.starsCollected - s.starsCollected
    ensures next.score - s.score >= next.starsCollected - s.starsCollected - (|s.obstacles| + 1)
    ensures !Over(s) ==> (Over(next) <==> spawnedNow == TotalStars && next.stars == [])
    ensures !Over(s) && Over(next) ==>
              (next.levelCompleted <==> next.score >= StarsNeeded) &&
              (next.gameOver <==> next.score < StarsNeeded)
    ensures completeScheduled <==> !Over(s) && next.levelCompleted
    ensures !Over(s) ==> FrameOutcome(s, dt, spawnStar, spawnObstacle, spawnedNow, keys, d, screenWidth, screenHeight, next)
  {
    if Over(s) {
      return s, obstacleInterval, false;
    }
    nextObstacleInterval := if spawnObstacle then ObstacleInterval(spawnedNow) else obstacleInterval;
    next := Advance(s, dt, spawnStar, spawnObstacle, spawnedNow, keys, d, screenWidth, screenHeight);
    ghost var stars := StarsWithSpawn(s, spawnStar, spawnedNow, d, screenWidth);
    ghost var obstacles := ObstaclesWithSpawn(s, stars, spawnObstacle, spawnedNow, d, screenWidth);
    ghost var box := PlayerBox(next.playerX, screenHeight);
    CatchAccounted(Fall(obstacles, dt), box);
    if spawnedNow >= TotalStars && next.stars == [] {
      if next.score >= StarsNeeded {
        next := next.(levelCompleted := true);
      } else {
        next := next.(gameOver := true);
      }
    }
    completeScheduled := next.levelCompleted;
  }

  /** A frame's fall keeps every item within its column and speed range,
      so whatever is neither caught nor culled is still a valid item. */
  lemma SurvivorsValid(items: seq<Item>, dt: real, box: Rect, screenWidth: real, screenHeight: real)
    requires dt >= 0.0
    requires forall it :: it in items ==> Falling(it, screenWidth)
    ensures forall it :: it in OnScreen(Missed(Fall(items, dt), box), screenHeight) ==>
              ValidItem(it, screenWidth, screenHeight)
  {
    var fallen := Fall(items, dt);
    forall it | it in fallen
      ensures Falling(it, screenWidth)
    {
      var i :| 0 <= i < |fallen| && fallen[i] == it;
      assert items[i] in items;
      ProductNonNegative(items[i].speed * 60.0, dt);
    }
  }

  // ---------------------------------------------------------------------
  // The level

  class Game {
    const screenWidth: real
    const screenHeight: real
    var state: StarState
    var lastFrameTime: real
    var sinceStar: real
    var sinceObstacle: real
    var nextStarInterval: real
    var nextObstacleInterval: real
    /** `starsSpawnedRef`, the counter the star timer checks. */
    var starsSpawned: nat

    predicate Valid()
      reads this
    {
      screenWidth >= PlayerWidth &&
      ValidStars(state, screenWidth, screenHeight) &&
      starsSpawned == state.starsSpawned &&
      StarIntervalMin <= nextStarInterval <= StarIntervalMax &&
      ObstacleIntervalEnd <= nextObstacleInterval <= ObstacleIntervalStart
    }

    constructor (screenWidth: real, screenHeight: real, now: real)
      requires screenWidth >= PlayerWidth
      ensures Valid()
      ensures state == InitialStars(screenWidth) && lastFrameTime == now
      ensures sinceStar == 0.0 && sinceObstacle == 0.0 && starsSpawned == 0
      ensures nextStarInterval == StarIntervalMin && nextObstacleInterval == ObstacleIntervalStart
    {
      this.screenWidth := screenWidth;
      this.screenHeight := screenHeight;
      state := InitialStars(screenWidth);
      lastFrameTime := now;
      sinceStar, sinceObstacle := 0.0, 0.0;
      nextStarInterval := StarIntervalMin;
      nextObstacleInterval := ObstacleIntervalStart;
      starsSpawned := 0;
    }

    /** One animation frame: advance both spawn timers by the capped frame
        time, fire the star timer while stars remain and the obstacle timer,
        then run the state updater. The loop only runs while the game is
        neither won nor lost. */
    method Tick(now: real, keys: set<Key>, starDraw: real, d: FrameDraws) returns (completeScheduled: bool)
      requires Valid() && now >= lastFrameTime
      requires 0.0 <= starDraw < 1.0 && 0.0 <= d.starX < 1.0 && 0.0 <= d.obstacleX < 1.0
      modifies this
      ensures Valid()
      ensures Over(old(state)) ==> unchanged(this) && !completeScheduled
      ensures !Over(old(state)) ==> lastFrameTime == now
      ensures starsSpawned == old(starsSpawned) || starsSpawned == old(starsSpawned) + 1
      ensures starsSpawned == old(starsSpawned) + 1 <==>
                !Over(old(state)) && old(starsSpawned) < TotalStars &&
                old(sinceStar) + FrameSeconds(now, old(lastFrameTime)) >= old(nextStarInterval)
      ensures completeScheduled <==> !Over(old(state)) && state.levelCompleted
      ensures !Over(old(state)) ==> (Over(state) <==> starsSpawned == TotalStars && state.stars == [])
      ensures !Over(old(state)) ==>
                var dt := FrameSeconds(now, old(lastFrameTime));
                var spawnStar := old(sinceStar) + dt >= old(nextStarInterval) && old(starsSpawned) < TotalStars;
                var spawnObstacle := old(sinceObstacle) + dt >= old(nextObstacleInterval);
                sinceStar == (if spawnStar then 0.0 else old(sinceStar) + dt) &&
                nextStarInterval == (if spawnStar then NextStarInterval(starDraw) else old(nextStarInterval)) &&
                sinceObstacle == (if spawnObstacle then 0.0 else old(sinceObstacle) + dt) &&
                nextObstacleInterval ==
                  (if spawnObstacle then ObstacleInterval(starsSpawned) else old(nextObstacleInterval)) &&
                FrameOutcome(old(state), dt, spawnStar, spawnObstacle, starsSpawned, keys, d,
                             screenWidth, screenHeight, state)
    {
      completeScheduled := false;
      if Over(state) {
        return;
      }
      var dt := FrameSeconds(now, lastFrameTime);
      lastFrameTime := now;
      sinceStar := sinceStar + dt;
      sinceObstacle := sinceObstacle + dt;
      var spawnStar := false;
      if sinceStar >= nextStarInterval && starsSpawned < TotalStars {
        spawnStar := true;
        sinceStar := 0.0;
        starsSpawned := starsSpawned + 1;
        nextStarInterval := NextStarInterval(starDraw);
      }
      var spawnObstacle := false;
      if sinceObstacle >= nextObstacleInterval {
        spawnObstacle := true;
        sinceObstacle := 0.0;
      }
      state, nextObstacleInterval, completeScheduled :=
        Frame(state, dt, spawnStar, spawnObstacle, starsSpawned, nextObstacleInterval,
              keys, d, screenWidth, screenHeight);
    }

    /** `handleRetry`: a fresh round; the two spawn intervals keep their
        last values. */
    method Retry(now: real)
      requires Valid()
      modifies this
      ensures Valid()
      ensures state == InitialStars(screenWidth) && lastFrameTime == now
      ensures sinceStar == 0.0 && sinceObstacle == 0.0 && starsSpawned == 0
      ensures nextStarInterval == old(nextStarInterval) && nextObstacleInterval == old(nextObstacleInterval)
    {
      lastFrameTime := now;
      sinceStar, sinceObstacle := 0.0, 0.0;
      starsSpawned := 0;
      state := InitialStars(screenWidth);
    }
  }
}
