/** Level 2, the four-lane rhythm game: beats fall towards a hit zone, a key
    press in the right lane and window scores a hit, a press with nothing to
    hit or a beat that falls past the zone costs half a point, and 75 hits
    within 60 seconds win. Beat spawns and the countdown are driven by two
    time accumulators fed with the real frame time. */
module Rhythm {
  import opened Geometry
  import opened Keys

  const LaneCount := 4
  const BeatSize := 60.0
  /** The hit zone sits this far above the bottom of the screen. */
  const HitZoneFromBottom := 100.0
  const FallSpeedPerSecond := 400.0
  const HitTolerance := 80.0
  /** 135 beats per minute. */
  const BeatInterval := 60.0 / 135.0
  const TotalHitsNeeded := 75.0
  const TimeLimit := 60
  const DoubleNoteStartChance := 0.10
  const DoubleNoteEndChance := 0.30
  const MissPenalty := 0.5

  /** A falling note; every beat is a 60 x 60 square. */
  datatype Beat = Beat(lane: int, y: real, isDouble: bool)

  function BeatBottom(b: Beat): real { b.y + BeatSize }

  /** The lane a key plays, if it is one of A, S, D, F. */
  function LaneOfKey(k: Key): (lane: int)
    ensures -1 <= lane < LaneCount
    ensures lane == -1 <==> k !in {KeyA, KeyS, KeyD, KeyF}
  {
    match k
    case KeyA => 0
    case KeyS => 1
    case KeyD => 2
    case KeyF => 3
    case _ => -1
  }

  // ---------------------------------------------------------------------
  // Hits and misses

  /** `Math.max(0, h - 0.5)`. */
  function Penalize(hits: real): (r: real)
    ensures r >= 0.0 && r <= Max(hits, 0.0)
  {
    Max(0.0, hits - MissPenalty)
  }

  /** `count` consecutive misses. */
  function PenalizeTimes(hits: real, count: nat): real
    decreases count
  {
    if count == 0 then hits else PenalizeTimes(Penalize(hits), count - 1)
  }

  /** From a non-negative score, `count` misses in a row cost half a point
      each but never take the score below zero. */
  lemma {:induction false} PenalizeTimesClosedForm(hits: real, count: nat)
    requires hits >= 0.0
    ensures PenalizeTimes(hits, count) == Max(0.0, hits - MissPenalty * count as real)
    decreases count
  {
    if count > 0 {
      PenalizeTimesClosedForm(Penalize(hits), count - 1);
    }
  }

  predicate InWindow(b: Beat, lane: int, hitZoneY: real)
  {
    b.lane == lane && Abs(BeatBottom(b) - hitZoneY) <= HitTolerance
  }

  /** The index of the first beat of the lane within the hit window, or -1
      when there is none. */
  function FirstHit(beats: seq<Beat>, lane: int, hitZoneY: real): (k: int)
    ensures -1 <= k < |beats|
    ensures k == -1 <==> forall i :: 0 <= i < |beats| ==> !InWindow(beats[i], lane, hitZoneY)
    ensures k >= 0 ==> InWindow(beats[k], lane, hitZoneY) &&
                       forall j :: 0 <= j < k ==> !InWindow(beats[j], lane, hitZoneY)
  {
    if beats == [] then -1
    else if InWindow(beats[0], lane, hitZoneY) then 0
    else
      var k := FirstHit(beats[1..], lane, hitZoneY);
      if k == -1 then -1 else k + 1
  }

  /** The filter in `checkHit`: remove the first beat of the lane whose
      bottom edge is within 80 px of the hit zone, if there is one. */
  method RemoveFirstHit(beats: seq<Beat>, lane: int, hitZoneY: real) returns (remaining: seq<Beat>, hit: bool)
    ensures !hit <==> forall i :: 0 <= i < |beats| ==> !InWindow(beats[i], lane, hitZoneY)
    ensures !hit ==> remaining == beats
    ensures hit ==> exists k :: 0 <= k < |beats| && InWindow(beats[k], lane, hitZoneY) &&
                      (forall j :: 0 <= j < k ==> !InWindow(beats[j], lane, hitZoneY)) &&
                      remaining == beats[..k] + beats[k + 1..]
    ensures hit <==> FirstHit(beats, lane, hitZoneY) >= 0
    ensures hit ==> var k := FirstHit(beats, lane, hitZoneY); remaining == beats[..k] + beats[k + 1..]
  {
    remaining := [];
    hit := false;
    ghost var at := -1;
    var i := 0;
    while i < |beats|
      invariant 0 <= i <= |beats|
      invariant !hit ==> at == -1 && remaining == beats[..i] &&
                         forall j :: 0 <= j < i ==> !InWindow(beats[j], lane, hitZoneY)
      invariant hit ==> 0 <= at < i && InWindow(beats[at], lane, hitZoneY) &&
                        (forall j :: 0 <= j < at ==> !InWindow(beats[j], lane, hitZoneY)) &&
                        remaining == beats[..at] + beats[at + 1..i]
    {
      var b := beats[i];
      if b.lane == lane && !hit && Abs(BeatBottom(b) - hitZoneY) <= HitTolerance {
        hit := true;
        at := i;
        assert beats[at + 1..i + 1] == [];
      } else {
        if hit {
          assert beats[at + 1..i + 1] == beats[at + 1..i] + [b];
        } else {
          assert beats[..i + 1] == beats[..i] + [b];
        }
        remaining := remaining + [b];
      }
      i := i + 1;
    }
    assert beats[..|beats|] == beats;
    assert hit ==> at == FirstHit(beats, lane, hitZoneY);
  }

  // ---------------------------------------------------------------------
  // Spawning

  /** The random numbers one spawn consumes, each in [0, 1): whether the
      note is double, whether a double uses adjacent lanes, which adjacent
      pair, the first free lane, the draws of the `do ... while` loop for
      the second lane, and the lane of a single note. */
  datatype SpawnDraws = SpawnDraws(
    doubleDraw: real, adjacentDraw: real, pairDraw: real,
    firstLaneDraw: real, secondLaneDraws: seq<real>, singleLaneDraw: real)

  predicate UnitDraw(r: real) { 0.0 <= r < 1.0 }

  /** `Math.floor(r * n)` for a draw r in [0, 1). */
  function Pick(r: real, n: nat): (k: int)
    requires UnitDraw(r) && n > 0
    ensures 0 <= k < n
  {
    var v := r * n as real;
    assert n as real - v == (1.0 - r) * n as real;
    assert v < n as real;
    v.Floor
  }

  /** The do-while loop ends once a draw lands on a lane other than the
      first; the model is handed draws among which such a draw exists. */
  predicate ValidDraws(d: SpawnDraws)
  {
    UnitDraw(d.doubleDraw) && UnitDraw(d.adjacentDraw) && UnitDraw(d.pairDraw) &&
    UnitDraw(d.firstLaneDraw) && UnitDraw(d.singleLaneDraw) &&
    (forall i :: 0 <= i < |d.secondLaneDraws| ==> UnitDraw(d.secondLaneDraws[i])) &&
    exists i :: 0 <= i < |d.secondLaneDraws| &&
      Pick(d.secondLaneDraws[i], LaneCount) != Pick(d.firstLaneDraw, LaneCount)
  }

  /** The double-note chance grows linearly from 10% to 30% over the minute. */
  function DoubleChance(timeRemaining: int): (c: real)
    ensures 0 <= timeRemaining <= TimeLimit ==> DoubleNoteStartChance <= c <= DoubleNoteEndChance
    ensures timeRemaining == TimeLimit ==> c == DoubleNoteStartChance
    ensures timeRemaining == 0 ==> c == DoubleNoteEndChance
  {
    var elapsed := (TimeLimit - timeRemaining) as real;
    DoubleNoteStartChance + (elapsed / TimeLimit as real) * (DoubleNoteEndChance - DoubleNoteStartChance)
  }

  /** The first lane, from draw `i` on, that differs from `lane1`. */
  function OtherLane(lane1: int, draws: seq<real>, i: nat): (lane2: int)
    requires forall j :: 0 <= j < |draws| ==> UnitDraw(draws[j])
    requires exists m :: i <= m < |draws| && Pick(draws[m], LaneCount) != lane1
    ensures 0 <= lane2 < LaneCount && lane2 != lane1
    ensures exists k :: i <= k < |draws| && lane2 == Pick(draws[k], LaneCount) &&
              forall j :: i <= j < k ==> Pick(draws[j], LaneCount) == lane1
    decreases |draws| - i
  {
    var lane := Pick(draws[i], LaneCount);
    if lane != lane1 then lane else OtherLane(lane1, draws, i + 1)
  }

  /** `do { lane2 = ... } while (lane2 === lane1)`: the first drawn lane
      that differs from `lane1`. */
  method SecondLane(lane1: int, draws: seq<real>) returns (lane2: int)
    requires forall i :: 0 <= i < |draws| ==> UnitDraw(draws[i])
    requires exists i :: 0 <= i < |draws| && Pick(draws[i], LaneCount) != lane1
    ensures 0 <= lane2 < LaneCount && lane2 != lane1
    ensures exists k :: 0 <= k < |draws| && lane2 == Pick(draws[k], LaneCount) &&
              forall j :: 0 <= j < k ==> Pick(draws[j], LaneCount) == lane1
    ensures lane2 == OtherLane(lane1, draws, 0)
  {
    var i := 0;
    lane2 := Pick(draws[0], LaneCount);
    while lane2 == lane1
      invariant 0 <= i < |draws| && lane2 == Pick(draws[i], LaneCount)
      invariant forall j :: 0 <= j < i ==> Pick(draws[j], LaneCount) == lane1
      invariant exists m :: i <= m < |draws| && Pick(draws[m], LaneCount) != lane1
      invariant OtherLane(lane1, draws, 0) == OtherLane(lane1, draws, i)
      decreases |draws| - i
    {
      i := i + 1;
      lane2 := Pick(draws[i], LaneCount);
    }
  }

  /** The notes one spawn adds, as a function of its draws. */
  function Spawned(timeRemaining: int, d: SpawnDraws): seq<Beat>
    requires ValidDraws(d)
  {
    if d.doubleDraw < DoubleChance(timeRemaining) then
      if d.adjacentDraw < 0.5 then
        var pair := Pick(d.pairDraw, 3);
        [Beat(pair, -BeatSize, true), Beat(pair + 1, -BeatSize, true)]
      else
        var lane1 := Pick(d.firstLaneDraw, LaneCount);
        [Beat(lane1, -BeatSize, true), Beat(OtherLane(lane1, d.secondLaneDraws, 0), -BeatSize, true)]
    else
      [Beat(Pick(d.singleLaneDraw, LaneCount), -BeatSize, false)]
  }

  /** The notes spawned on a beat: two in different lanes with the
      double-note chance, one otherwise; all start just above the screen. */
  method SpawnBeats(timeRemaining: int, d: SpawnDraws) returns (spawned: seq<Beat>)
    requires ValidDraws(d)
    ensures |spawned| == (if d.doubleDraw < DoubleChance(timeRemaining) then 2 else 1)
    ensures forall i :: 0 <= i < |spawned| ==>
              0 <= spawned[i].lane < LaneCount && spawned[i].y == -BeatSize &&
              spawned[i].isDouble == (|spawned| == 2)
    ensures |spawned| == 2 ==> spawned[0].lane != spawned[1].lane
    ensures |spawned| == 2 && d.adjacentDraw < 0.5 ==> spawned[1].lane == spawned[0].lane + 1
    ensures spawned == Spawned(timeRemaining, d)
  {
    if d.doubleDraw < DoubleChance(timeRemaining) {
      var lane1, lane2;
      if d.adjacentDraw < 0.5 {
        var pair := Pick(d.pairDraw, 3);
        lane1, lane2 := pair, pair + 1;
      } else {
        lane1 := Pick(d.firstLaneDraw, LaneCount);
        lane2 := SecondLane(lane1, d.secondLaneDraws);
      }
      spawned := [Beat(lane1, -BeatSize, true), Beat(lane2, -BeatSize, true)];
    } else {
      spawned := [Beat(Pick(d.singleLaneDraw, LaneCount), -BeatSize, false)];
    }
  }

  // ---------------------------------------------------------------------
  // Falling and missing

  function MoveBeats(beats: seq<Beat>, dt: real): (moved: seq<Beat>)
    ensures |moved| == |beats|
    ensures forall i :: 0 <= i < |beats| ==> moved[i] == beats[i].(y := beats[i].y + FallSpeedPerSecond * dt)
  {
    seq(|beats|, i requires 0 <= i < |beats| => beats[i].(y := beats[i].y + FallSpeedPerSecond * dt))
  }

  /** A beat whose bottom edge has passed twice the tolerance below the
      hit zone is a miss. */
  predicate Missed(b: Beat, screenHeight: real)
  {
    BeatBottom(b) > (screenHeight - HitZoneFromBottom) + HitTolerance * 2.0
  }

  /** The beats the removal filter keeps: not missed and still above
      100 px below the screen. */
  function Survivors(beats: seq<Beat>, screenHeight: real): seq<Beat>
  {
    if beats == [] then []
    else
      var rest := Survivors(beats[1..], screenHeight);
      if Missed(beats[0], screenHeight) || !(beats[0].y < screenHeight + 100.0) then rest
      else [beats[0]] + rest
  }

  function MissCount(beats: seq<Beat>, screenHeight: real): nat
  {
    if beats == [] then 0
    else (if Missed(beats[0], screenHeight) then 1 else 0) + MissCount(beats[1..], screenHeight)
  }

  /** A beat that is not yet missed is still on screen, so the second
      condition of the filter never removes anything: exactly the missed
      beats leave. */
  lemma {:induction false} SurvivorsAreTheUnmissed(beats: seq<Beat>, screenHeight: real)
    ensures forall b :: b in Survivors(beats, screenHeight) <==> b in beats && !Missed(b, screenHeight)
    ensures |Survivors(beats, screenHeight)| + MissCount(beats, screenHeight) == |beats|
  {
    if beats != [] {
      SurvivorsAreTheUnmissed(beats[1..], screenHeight);
      assert beats == [beats[0]] + beats[1..];
    }
  }

  /** The removal filter, which charges the miss penalty once per missed
      beat as it goes. */
  method RemoveMissed(beats: seq<Beat>, hits: real, screenHeight: real) returns (kept: seq<Beat>, newHits: real)
    ensures kept == Survivors(beats, screenHeight)
    ensures newHits == PenalizeTimes(hits, MissCount(beats, screenHeight))
  {
    kept, newHits := [], hits;
    var i := 0;
    while i < |beats|
      invariant 0 <= i <= |beats|
      invariant Survivors(beats, screenHeight) == kept + Survivors(beats[i..], screenHeight)
      invariant PenalizeTimes(hits, MissCount(beats, screenHeight)) ==
                PenalizeTimes(newHits, MissCount(beats[i..], screenHeight))
    {
      var b := beats[i];
      assert beats[i..][1..] == beats[i + 1..];
      if Missed(b, screenHeight) {
        newHits := Penalize(newHits);
      } else if b.y < screenHeight + 100.0 {
        kept := kept + [b];
      }
      i := i + 1;
    }
  }

  // ---------------------------------------------------------------------
  // Time accumulators

  /** `Math.max(0, timeRemaining - 1)`: the countdown stops at zero. */
  function CountDown(t: int): (r: int)
    ensures r >= 0
    ensures t >= 1 ==> r == t - 1
    ensures t <= 1 ==> r == 0
  {
    if t - 1 > 0 then t - 1 else 0
  }

  /** Add the frame time; fire (at most once) when the interval is reached,
      subtracting the interval so the remainder carries over. */
  function Accumulate(acc: real, dt: real, interval: real): (r: (real, bool))
    ensures r.1 <==> acc + dt >= interval
    ensures r.0 == acc + dt - (if r.1 then interval else 0.0)
    ensures 0.0 <= acc < interval && 0.0 <= dt <= interval ==> 0.0 <= r.0 < interval
  {
    var total := acc + dt;
    if total >= interval then (total - interval, true) else (total, false)
  }

  function Sum(dts: seq<real>): real
  {
    if dts == [] then 0.0 else dts[0] + Sum(dts[1..])
  }

  /** Feeding a sequence of frame times: the final accumulator and the
      number of times it fired. */
  function AccumulateAll(acc: real, dts: seq<real>, interval: real): (real, nat)
    decreases |dts|
  {
    if dts == [] then (acc, 0)
    else
      var step := Accumulate(acc, dts[0], interval);
      var rest := AccumulateAll(step.0, dts[1..], interval);
      (rest.0, rest.1 + (if step.1 then 1 else 0))
  }

  /** No time is lost or invented: every firing accounts for exactly one
      interval, and the remainder is what is left of the elapsed time. */
  lemma {:induction false} AccumulatorConservesTime(acc: real, dts: seq<real>, interval: real)
    ensures var r := AccumulateAll(acc, dts, interval);
            r.0 + (r.1 as real) * interval == acc + Sum(dts)
    decreases |dts|
  {
    if dts != [] {
      var step := Accumulate(acc, dts[0], interval);
      AccumulatorConservesTime(step.0, dts[1..], interval);
    }
  }

  // ---------------------------------------------------------------------
  // The level

  /** The level's `gameState` record (lanes, popups and feedback are not
      modelled; every lane's hit zone is at the same height). */
  datatype RhythmState = RhythmState(
    beats: seq<Beat>,
    hitsCollected: real,
    totalBeats: int,
    timeRemaining: int,
    gameStarted: bool,
    levelCompleted: bool,
    gameOver: bool)

  function InitialRhythm(): RhythmState
  {
    RhythmState([], 0.0, 0, TimeLimit, true, false, false)
  }

  /** Scores are never negative; every beat on screen was counted when it
      spawned; the clock is within the minute; and a lost game has run out
      of time short of the target. */
  predicate ValidRhythm(s: RhythmState)
  {
    s.hitsCollected >= 0.0 && 0 <= |s.beats| <= s.totalBeats &&
    0 <= s.timeRemaining <= TimeLimit &&
    (forall i :: 0 <= i < |s.beats| ==> 0 <= s.beats[i].lane < LaneCount) &&
    (s.gameOver ==> s.timeRemaining == 0 && s.hitsCollected < TotalHitsNeeded)
  }

  /** The record after a key press. In a running game, a key of one of the
      four lanes scores a hit exactly when some beat of that lane is within
      the window, and then the first such beat goes; otherwise the press
      costs the miss penalty. Anything else leaves the record alone. */
  predicate HitOutcome(s: RhythmState, key: Key, screenHeight: real, next: RhythmState)
  {
    (s.gameOver || LaneOfKey(key) == -1 ==> next == s) &&
    (!s.gameOver && LaneOfKey(key) != -1 ==>
       var k := FirstHit(s.beats, LaneOfKey(key), screenHeight - HitZoneFromBottom);
       (k >= 0 ==> next == s.(beats := s.beats[..k] + s.beats[k + 1..],
                              hitsCollected := s.hitsCollected + 1.0)) &&
       (k == -1 ==> next == s.(hitsCollected := Penalize(s.hitsCollected))))
  }

  /** Scoring a hit on beat `k` of a running game keeps the record valid. */
  lemma HitKeepsValid(s: RhythmState, k: int)
    requires ValidRhythm(s) && !s.gameOver && 0 <= k < |s.beats|
    ensures ValidRhythm(s.(beats := s.beats[..k] + s.beats[k + 1..], hitsCollected := s.hitsCollected + 1.0))
  {
    var rest := s.beats[..k] + s.beats[k + 1..];
    assert |rest| == |s.beats| - 1;
    forall i | 0 <= i < |rest|
      ensures 0 <= rest[i].lane < LaneCount
    {
      assert rest[i] == s.beats[if i < k then i else i + 1];
    }
  }

  /** A press in a lane of a running game: a hit removes the first beat of
      the lane in the window and scores a point, a press with nothing to
      hit costs the penalty. */
  method Press(s: RhythmState, lane: int, hitZoneY: real) returns (next: RhythmState)
    requires ValidRhythm(s) && !s.gameOver
    ensures ValidRhythm(next)
    ensures var k := FirstHit(s.beats, lane, hitZoneY);
            (k >= 0 ==> next == s.(beats := s.beats[..k] + s.beats[k + 1..],
                                   hitsCollected := s.hitsCollected + 1.0)) &&
            (k == -1 ==> next == s.(hitsCollected := Penalize(s.hitsCollected)))
  {
    var remaining, hit := RemoveFirstHit(s.beats, lane, hitZoneY);
    if hit {
      HitKeepsValid(s, FirstHit(s.beats, lane, hitZoneY));
      next := s.(beats := remaining, hitsCollected := s.hitsCollected + 1.0);
    } else {
      next := s.(hitsCollected := Penalize(s.hitsCollected));
    }
  }

  /** `checkHit`. */
  method CheckHit(s: RhythmState, key: Key, screenHeight: real) returns (next: RhythmState)
    requires ValidRhythm(s)
    ensures ValidRhythm(next)
    ensures HitOutcome(s, key, screenHeight, next)
  {
    if s.gameOver || LaneOfKey(key) == -1 {
      return s;
    }
    next := Press(s, LaneOfKey(key), screenHeight - HitZoneFromBottom);
  }

  /** The record after one frame, given whether a beat spawns and whether a
      second passes: a finished game stands still; otherwise the spawned
      notes join, everything falls, the missed beats leave with half a point
      each, the clock ticks, completion latches at 75 hits, and when time is
      up the game either schedules completion or is lost. */
  predicate FrameOutcome(s: RhythmState, dt: real, spawn: bool, tickTimer: bool, draws: SpawnDraws,
                         screenHeight: real, next: RhythmState, completeScheduled: bool)
    requires ValidDraws(draws)
  {
    (s.gameOver ==> next == s && !completeScheduled) &&
    (!s.gameOver ==>
       var spawned := if spawn then Spawned(s.timeRemaining, draws) else [];
       var moved := MoveBeats(s.beats + spawned, dt);
       next.beats == Survivors(moved, screenHeight) &&
       next.hitsCollected == PenalizeTimes(s.hitsCollected, MissCount(moved, screenHeight)) &&
       next.totalBeats == s.totalBeats + |spawned| &&
       next.timeRemaining == (if tickTimer then CountDown(s.timeRemaining) else s.timeRemaining) &&
       next.gameStarted == s.gameStarted) &&
    (next.levelCompleted <==> s.levelCompleted || (!s.gameOver && next.hitsCollected >= TotalHitsNeeded)) &&
    (completeScheduled <==> !s.gameOver && next.timeRemaining <= 0 && next.hitsCollected >= TotalHitsNeeded) &&
    (next.gameOver <==> s.gameOver || (next.timeRemaining <= 0 && next.hitsCollected < TotalHitsNeeded))
  }

  /** The updater of one frame, after the accumulators have decided whether
      a beat spawns and whether a second passes. `completeScheduled` is the
      delayed `onComplete`. */
  method Frame(s: RhythmState, dt: real, spawn: bool, tickTimer: bool, draws: SpawnDraws, screenHeight: real)
    returns (next: RhythmState, completeScheduled: bool)
    requires ValidRhythm(s) && ValidDraws(draws)
    ensures ValidRhythm(next)
    ensures FrameOutcome(s, dt, spawn, tickTimer, draws, screenHeight, next, completeScheduled)
    ensures !s.gameOver ==>
              next.totalBeats == s.totalBeats + (if !spawn then 0
                                                 else if draws.doubleDraw < DoubleChance(s.timeRemaining) then 2
                                                 else 1)
    ensures !s.gameOver ==> next.hitsCollected <= Max(s.hitsCollected, 0.0)
  {
    completeScheduled := false;
    if s.gameOver {
      return s, false;
    }
    ghost var added := if spawn then Spawned(s.timeRemaining, draws) else [];
    var beats, total := s.beats, s.totalBeats;
    if spawn {
      var spawned := SpawnBeats(s.timeRemaining, draws);
      beats, total := beats + spawned, total + |spawned|;
    }
    assert beats == s.beats + added && total == s.totalBeats + |added|;
    assert forall i :: 0 <= i < |beats| ==> 0 <= beats[i].lane < LaneCount;
    beats := MoveBeats(beats, dt);
    var kept, hits := RemoveMissed(beats, s.hitsCollected, screenHeight);
    SurvivorsAreTheUnmissed(beats, screenHeight);
    PenalizeTimesClosedForm(s.hitsCollected, MissCount(beats, screenHeight));
    var time := s.timeRemaining;
    if tickTimer {
      time := CountDown(time);
    }
    var completed := s.levelCompleted || hits >= TotalHitsNeeded;
    var over := false;
    if time <= 0 {
      if hits >= TotalHitsNeeded {
        completeScheduled := true;
      } else {
        over := true;
      }
    }
    next := RhythmState(kept, hits, total, time, s.gameStarted, completed, over);
    assert forall i :: 0 <= i < |beats| ==> 0 <= beats[i].lane < LaneCount;
    assert forall i :: 0 <= i < |kept| ==> kept[i] in beats;
  }

  /** The component: its state record and the three time refs. */
  class Game {
    const screenHeight: real
    var state: RhythmState
    /** `lastFrameTimeRef`, in milliseconds. */
    var lastFrameTime: real
    /** `timeSinceLastBeatRef` and `timeSinceLastSecondRef`, in seconds. */
    var sinceBeat: real
    var sinceSecond: real

    ghost predicate Valid()
      reads this
    {
      ValidRhythm(state) && sinceBeat >= 0.0 && sinceSecond >= 0.0
    }

    constructor (screenHeight: real, now: real)
      ensures Valid() && this.screenHeight == screenHeight
      ensures state == InitialRhythm() && lastFrameTime == now
      ensures sinceBeat == 0.0 && sinceSecond == 0.0
    {
      this.screenHeight := screenHeight;
      state := InitialRhythm();
      lastFrameTime := now;
      sinceBeat, sinceSecond := 0.0, 0.0;
    }

    /** A key press (only the first press of a held key reaches here). */
    method KeyDown(key: Key)
      requires Valid()
      modifies this
      ensures Valid()
      ensures lastFrameTime == old(lastFrameTime) && sinceBeat == old(sinceBeat) && sinceSecond == old(sinceSecond)
      ensures HitOutcome(old(state), key, screenHeight, state)
    {
      var next := CheckHit(state, key, screenHeight);
      state := next;
    }

    /** One animation frame at `now` milliseconds. The loop runs only while
        the game is started and not over. */
    method Tick(now: real, draws: SpawnDraws) returns (completeScheduled: bool)
      requires Valid() && ValidDraws(draws)
      requires now >= lastFrameTime
      modifies this
      ensures Valid()
      ensures !old(state.gameStarted) || old(state.gameOver) ==> unchanged(this) && !completeScheduled
      ensures old(state.gameStarted) && !old(state.gameOver) ==>
                lastFrameTime == now &&
                sinceBeat == Accumulate(old(sinceBeat), (now - old(lastFrameTime)) / 1000.0, BeatInterval).0 &&
                sinceSecond == Accumulate(old(sinceSecond), (now - old(lastFrameTime)) / 1000.0, 1.0).0
      ensures old(state.gameStarted) && !old(state.gameOver) ==>
                var dt := (now - old(lastFrameTime)) / 1000.0;
                FrameOutcome(old(state), dt, Accumulate(old(sinceBeat), dt, BeatInterval).1,
                             Accumulate(old(sinceSecond), dt, 1.0).1, draws, screenHeight,
                             state, completeScheduled)
      ensures completeScheduled ==> state.timeRemaining <= 0 && state.hitsCollected >= TotalHitsNeeded
    {
      completeScheduled := false;
      if !state.gameStarted || state.gameOver {
        return;
      }
      var dt := (now - lastFrameTime) / 1000.0;
      lastFrameTime := now;
      var beat := Accumulate(sinceBeat, dt, BeatInterval);
      var second := Accumulate(sinceSecond, dt, 1.0);
      sinceBeat, sinceSecond := beat.0, second.0;
      state, completeScheduled := Frame(state, dt, beat.1, second.1, draws, screenHeight);
    }

    /** `handleRetry`: a fresh game with the clocks reset; restoring the
        lives is the app's `resetLives`. */
    method Retry(now: real)
      modifies this
      ensures Valid()
      ensures state == InitialRhythm() && lastFrameTime == now
      ensures sinceBeat == 0.0 && sinceSecond == 0.0
    {
      state := InitialRhythm();
      lastFrameTime := now;
      sinceBeat, sinceSecond := 0.0, 0.0;
    }
  }
}
