/**
 The animation playback machine: forward, reverse and ping-pong playback, looping or a
 fixed number of plays, over frames with fixed-point durations.
 */
module Animator {
  import opened Arithmetic
  import opened Options

  const INVALID_ANIM := 0
  const ONE := 4096
  const WRAP := 0x1_0000_0000

  datatype PlaybackMode = Forward | Reverse | PingPong

  // Raw durations of the frames of one animation, in playing order.
  type Frames = seq<int>

  type AnimDb = map<nat, Frames>

  datatype State = State(
    animId: nat, currentFrame: nat, currentTime: int, speed: int, animate: bool, loop: bool,
    finished: bool, mode: PlaybackMode, playCount: nat, playsCompleted: nat, dirty: bool,
    pingPongForward: bool)

  // ----- what one step does -----

  function Initialized(a: State, f: Frames): State
    requires f != []
  {
    if !a.dirty then a
    else
      var b := a.(finished := false, dirty := false, pingPongForward := true);
      if a.mode == Reverse then b.(currentFrame := |f| - 1, currentTime := f[|f| - 1])
      else b.(currentFrame := 0, currentTime := 0)
  }

  function Restarted(a: State, f: Frames): State
    requires f != []
  {
    Initialized(a.(dirty := true), f)
  }

  function FinishedOrRestarted(a: State, f: Frames, finishedTime: int): State
    requires f != []
  {
    if a.loop then Restarted(a, f)
    else
      var done := (a.playsCompleted + 1) % WRAP;
      var b := a.(playsCompleted := done);
      if done < a.playCount then Restarted(b, f)
      else b.(currentTime := finishedTime, finished := true)
  }

  function ForwardStep(a: State, f: Frames): State
    requires a.currentFrame < |f|
  {
    var b := a.(currentTime := a.currentTime + a.speed);
    if b.currentTime < f[a.currentFrame] then b
    else if a.currentFrame + 1 < |f| then b.(currentFrame := a.currentFrame + 1, currentTime := 0)
    else FinishedOrRestarted(b, f, f[a.currentFrame])
  }

  function ReverseStep(a: State, f: Frames): State
    requires a.currentFrame < |f|
  {
    var b := a.(currentTime := a.currentTime - a.speed);
    if b.currentTime > 0 then b
    else if a.currentFrame > 0 then b.(currentFrame := a.currentFrame - 1, currentTime := f[a.currentFrame - 1])
    else FinishedOrRestarted(b, f, 0)
  }

  function PingPongStep(a: State, f: Frames): State
    requires a.currentFrame < |f|
  {
    if |f| <= 1 then ForwardStep(a, f)
    else if !a.pingPongForward then ReverseStep(a, f)
    else if a.currentTime + a.speed >= f[a.currentFrame] && a.currentFrame + 1 == |f|
    then a.(pingPongForward := false, currentTime := f[a.currentFrame])
    else ForwardStep(a, f)
  }

  function ModeStep(a: State, f: Frames): State
    requires a.currentFrame < |f|
  {
    match a.mode
    case Forward => ForwardStep(a, f)
    case Reverse => ReverseStep(a, f)
    case PingPong => PingPongStep(a, f)
  }

  predicate Idle(a: State, db: AnimDb) {
    !a.animate || a.animId == INVALID_ANIM || a.finished || a.animId !in db || db[a.animId] == []
  }

  // The frame index is in range once playback is initialised.
  predicate InRange(a: State, db: AnimDb) {
    Idle(a, db) || a.dirty || a.currentFrame < |db[a.animId]|
  }

  function Stepped(a: State, db: AnimDb): State
    requires InRange(a, db)
  {
    if Idle(a, db) then a else ModeStep(Initialized(a, db[a.animId]), db[a.animId])
  }

  // ----- how long playback takes -----

  // Steps to use up time t at speed s: its ceiling, and one step at least.
  function StepsFor(t: int, s: int): int
    requires s > 0
  {
    if t <= 0 then 1 else (t + s - 1) / s
  }

  // Steps for the frames before i, and for those from i on.
  function StepsTo(f: Frames, s: int, i: nat): int
    requires s > 0 && i <= |f|
  {
    if i == 0 then 0 else StepsTo(f, s, i - 1) + StepsFor(f[i - 1], s)
  }

  function Total(f: Frames, s: int): int
    requires s > 0
  {
    StepsTo(f, s, |f|)
  }

  function StepsFrom(f: Frames, s: int, i: nat): int
    requires s > 0 && i <= |f|
  {
    Total(f, s) - StepsTo(f, s, i)
  }

  function PassLength(mode: PlaybackMode, f: Frames, s: int): int
    requires s > 0
  {
    if mode == PingPong && |f| > 1 then 2 * Total(f, s) else Total(f, s)
  }

  // Steps left in the current pass.
  function PassLeft(a: State, f: Frames): int
    requires a.speed > 0 && f != [] && (a.dirty || a.currentFrame < |f|)
  {
    if a.dirty then PassLength(a.mode, f, a.speed)
    else if a.mode == Forward || (a.mode == PingPong && |f| == 1) then
      StepsFor(f[a.currentFrame] - a.currentTime, a.speed) + StepsFrom(f, a.speed, a.currentFrame + 1)
    else if a.mode == PingPong && a.pingPongForward then
      StepsFor(f[a.currentFrame] - a.currentTime, a.speed) + StepsFrom(f, a.speed, a.currentFrame + 1) +
      Total(f, a.speed)
    else
      StepsFor(a.currentTime, a.speed) + StepsTo(f, a.speed, a.currentFrame)
  }

  // Whole passes still to come after the current one.
  function PassesLeft(a: State): nat {
    var done := (a.playsCompleted + 1) % WRAP;
    if done < a.playCount then a.playCount - done else 0
  }

  function Remaining(a: State, f: Frames): int
    requires a.speed > 0 && f != [] && (a.dirty || a.currentFrame < |f|)
  {
    PassLeft(a, f) + PassesLeft(a) * PassLength(a.mode, f, a.speed)
  }

  // A playing animation; durations are positive as the database makes them.
  ghost predicate Playing(a: State, db: AnimDb) {
    && !Idle(a, db) && a.speed > 0 && a.playCount < WRAP
    && (forall i :: 0 <= i < |db[a.animId]| ==> db[a.animId][i] > 0)
    && (a.dirty || (a.currentFrame < |db[a.animId]| && 0 <= a.currentTime <= db[a.animId][a.currentFrame]))
  }

  lemma OneStepLess(t: int, s: int)
    requires s > 0 && t > s
    ensures StepsFor(t, s) == StepsFor(t - s, s) + 1
  {
    assert (t - s + s - 1) / s == (t + s - 1 - s) / s;
    OneLess(t + s - 1, s);
  }

  lemma LastStep(t: int, s: int)
    requires s > 0 && t <= s
    ensures StepsFor(t, s) == 1
  {
  }

  // A fresh pass has exactly its length left.
  lemma FreshPass(a: State, f: Frames)
    requires a.speed > 0 && f != []
    ensures var b := Restarted(a, f);
            !b.dirty && b.currentFrame < |f| && PassLeft(b, f) == PassLength(a.mode, f, a.speed)
  {
    assert StepsTo(f, a.speed, 1) == StepsFor(f[0], a.speed);
  }

  lemma AtLeastOneStep(t: int, s: int)
    requires s > 0
    ensures StepsFor(t, s) >= 1
  {
  }

  // Every frame takes a step at least.
  lemma {:induction false} FramesTakeSteps(f: Frames, s: int, i: nat, j: nat)
    requires s > 0 && i <= j <= |f|
    ensures StepsTo(f, s, j) - StepsTo(f, s, i) >= j - i
    ensures StepsTo(f, s, i) >= i
  {
    if i < j {
      FramesTakeSteps(f, s, i, j - 1);
      AtLeastOneStep(f[j - 1], s);
    } else if i > 0 {
      FramesTakeSteps(f, s, i - 1, i - 1);
      AtLeastOneStep(f[i - 1], s);
    }
  }

  // Where the clock stands after the last play.
  function EndTime(a: State, f: Frames): int
    requires f != []
  {
    if a.mode == Reverse || (a.mode == PingPong && |f| > 1) then 0 else f[|f| - 1]
  }

  ghost predicate MidPass(a: State, f: Frames) {
    && a.speed > 0 && !a.dirty && !a.finished
    && a.currentFrame < |f| && 0 <= a.currentTime <= f[a.currentFrame]
    && forall i :: 0 <= i < |f| ==> f[i] > 0
  }

  // One step uses up one step of the pass, or is the pass's last and ends it.
  ghost predicate Counts(a: State, f: Frames, b: State)
    requires MidPass(a, f)
  {
    && PassLeft(a, f) >= 1
    && if PassLeft(a, f) == 1 then b == FinishedOrRestarted(a, f, EndTime(a, f))
       else
         && b == a.(currentTime := b.currentTime, currentFrame := b.currentFrame, pingPongForward := b.pingPongForward)
         && MidPass(b, f) && PassLeft(b, f) == PassLeft(a, f) - 1
  }

  lemma ForwardCounts(a: State, f: Frames)
    requires MidPass(a, f) && a.mode != Reverse
    requires a.mode == PingPong ==>
               |f| == 1 ||
               (a.pingPongForward && !(a.currentFrame + 1 == |f| && a.currentTime + a.speed >= f[a.currentFrame]))
    ensures Counts(a, f, ForwardStep(a, f))
  {
    var s, i := a.speed, a.currentFrame;
    var left := f[i] - a.currentTime;
    AtLeastOneStep(left, s);
    FramesTakeSteps(f, s, i + 1, |f|);
    FramesTakeSteps(f, s, 0, |f|);
    if left > s {
      OneStepLess(left, s);
      AtLeastOneStep(left - s, s);
    } else {
      LastStep(left, s);
      if i + 1 < |f| { AtLeastOneStep(f[i + 1], s); }
    }
  }

  lemma ReverseCounts(a: State, f: Frames)
    requires MidPass(a, f)
    requires a.mode == Reverse || (a.mode == PingPong && |f| > 1 && !a.pingPongForward)
    ensures Counts(a, f, ReverseStep(a, f))
  {
    var s, i := a.speed, a.currentFrame;
    AtLeastOneStep(a.currentTime, s);
    FramesTakeSteps(f, s, i, |f|);
    if a.currentTime > s {
      OneStepLess(a.currentTime, s);
      AtLeastOneStep(a.currentTime - s, s);
    } else {
      LastStep(a.currentTime, s);
    }
  }

  lemma ModeStepCounts(a: State, f: Frames)
    requires MidPass(a, f)
    ensures Counts(a, f, ModeStep(a, f))
  {
    if a.mode == Reverse || (a.mode == PingPong && |f| > 1 && !a.pingPongForward) {
      ReverseCounts(a, f);
    } else if a.mode == PingPong && |f| > 1 && a.currentFrame + 1 == |f| &&
              a.currentTime + a.speed >= f[a.currentFrame] {
      LastStep(f[a.currentFrame] - a.currentTime, a.speed);
      FramesTakeSteps(f, a.speed, 0, |f|);
    } else {
      ForwardCounts(a, f);
    }
  }

  // ----- exact lengths -----

  lemma PassGoesOn(a: State, b: State, f: Frames)
    requires MidPass(a, f) && Counts(a, f, b) && PassLeft(a, f) > 1
    ensures MidPass(b, f) && Remaining(b, f) == Remaining(a, f) - 1
    ensures Remaining(a, f) > 1
  {
    FramesTakeSteps(f, a.speed, 0, |f|);
    ProductAtLeastZero(PassesLeft(a), PassLength(a.mode, f, a.speed));
  }

  lemma PassEnds(a: State, f: Frames)
    requires MidPass(a, f) && PassLeft(a, f) == 1 && !a.loop && a.playCount < WRAP
    ensures var b := FinishedOrRestarted(a, f, EndTime(a, f));
            && Remaining(a, f) >= 1
            && (Remaining(a, f) == 1 ==> b.finished)
            && (Remaining(a, f) > 1 ==> MidPass(b, f) && Remaining(b, f) == Remaining(a, f) - 1)
  {
    PassTakesSteps(a, f);
    hide PassLength, PassLeft;
    if (a.playsCompleted + 1) % WRAP < a.playCount {
      PassRestarts(a, f);
      OneProductLess(PassesLeft(a), PassLength(a.mode, f, a.speed));
      hide MidPass, Restarted;
    }
  }

  lemma PassTakesSteps(a: State, f: Frames)
    requires MidPass(a, f)
    ensures PassLength(a.mode, f, a.speed) >= 1
  {
    FramesTakeSteps(f, a.speed, 0, |f|);
  }

  // The next pass, when there is one.
  lemma PassRestarts(a: State, f: Frames)
    requires MidPass(a, f) && !a.loop && a.playCount < WRAP && (a.playsCompleted + 1) % WRAP < a.playCount
    ensures var b := FinishedOrRestarted(a, f, EndTime(a, f));
            && MidPass(b, f) && PassLeft(b, f) == PassLength(a.mode, f, a.speed)
            && b.mode == a.mode && b.speed == a.speed && PassesLeft(b) == PassesLeft(a) - 1
  {
    hide StepsTo, StepsFor, PassLeft, PassLength;
    FreshPass(a.(playsCompleted := (a.playsCompleted + 1) % WRAP), f);
  }

  /** One call of Step takes exactly one off what remains; with one left it finishes. */
  lemma StepCountsDown(a: State, db: AnimDb)
    requires Playing(a, db) && !a.loop
    ensures var f := db[a.animId];
            var b := Stepped(a, db);
            && Remaining(a, f) >= 1
            && (Remaining(a, f) == 1 ==> b.finished)
            && (Remaining(a, f) > 1 ==>
                  Playing(b, db) && !b.loop && b.animId == a.animId && Remaining(b, f) == Remaining(a, f) - 1)
  {
    var f := db[a.animId];
    var i := Initialized(a, f);
    FreshPass(a, f);
    assert MidPass(i, f) && Remaining(i, f) == Remaining(a, f);
    hide ModeStep, PassLength, PassLeft, Remaining;
    ModeStepCounts(i, f);
    if PassLeft(i, f) == 1 {
      PassEnds(i, f);
    } else {
      PassGoesOn(i, ModeStep(i, f), f);
    }
  }

  lemma OneProductLess(n: nat, length: int)
    requires n > 0 && length >= 1
    ensures n * length == (n - 1) * length + length && (n - 1) * length >= 0
  {
  }

  lemma ProductAtLeastZero(n: nat, length: int)
    requires length >= 1
    ensures n * length >= 0
  {
  }

  function StepTimes(a: State, db: AnimDb, k: nat): State
    requires Playing(a, db) || a.finished
    decreases k
  {
    if k == 0 || a.finished then a
    else
      StepSafe(a, db);
      StepTimes(Stepped(a, db), db, k - 1)
  }

  lemma StepSafe(a: State, db: AnimDb)
    requires Playing(a, db)
    ensures Playing(Stepped(a, db), db) || Stepped(a, db).finished
  {
    var f := db[a.animId];
    var i := Initialized(a, f);
    FreshPass(a, f);
    ModeStepCounts(i, f);
    FreshPass(i.(playsCompleted := (i.playsCompleted + 1) % WRAP), f);
    FreshPass(i, f);
  }

  /** Playback is finished after Remaining steps and not before, and then no step changes anything. */
  lemma {:induction false} FinishesExactly(a: State, db: AnimDb, k: nat)
    requires Playing(a, db) && !a.loop
    ensures StepTimes(a, db, k).finished <==> k >= Remaining(a, db[a.animId])
    decreases k
  {
    StepCountsDown(a, db);
    if k > 0 && Remaining(a, db[a.animId]) > 1 {
      FinishesExactly(Stepped(a, db), db, k - 1);
    }
  }

  lemma FinishedStays(a: State, db: AnimDb)
    requires a.finished
    ensures Stepped(a, db) == a
  {
  }

  /** A fresh play of N passes takes exactly N times the pass. */
  lemma PlayLength(a: State, db: AnimDb)
    requires Playing(a, db) && a.dirty && a.playsCompleted == 0 && a.playCount > 0
    ensures Remaining(a, db[a.animId]) == a.playCount * PassLength(a.mode, db[a.animId], a.speed)
  {
    var length := PassLength(a.mode, db[a.animId], a.speed);
    assert length + (a.playCount - 1) * length == a.playCount * length;
  }

  // ----- which frame is shown -----

  // The frame shown after p steps of a pass through the frames, and the time spent on it.
  predicate OnWay(a: State, f: Frames, p: int)
    requires a.speed > 0 && a.currentFrame < |f|
  {
    && StepsTo(f, a.speed, a.currentFrame) <= p < StepsTo(f, a.speed, a.currentFrame + 1)
    && a.currentTime == (p - StepsTo(f, a.speed, a.currentFrame)) * a.speed
  }

  // The same on the way back, with q steps to go.
  predicate OnWayBack(a: State, f: Frames, q: int)
    requires a.speed > 0 && a.currentFrame < |f|
  {
    && StepsTo(f, a.speed, a.currentFrame) < q <= StepsTo(f, a.speed, a.currentFrame + 1)
    && a.currentTime == f[a.currentFrame] - (StepsTo(f, a.speed, a.currentFrame + 1) - q) * a.speed
  }

  // There and back only in ping-pong over more than one frame; the way back is the second half.
  ghost predicate Shows(a: State, f: Frames, p: int) {
    && MidPass(a, f) && 0 <= p < PassLength(a.mode, f, a.speed)
    && if a.mode == Reverse then OnWayBack(a, f, Total(f, a.speed) - p)
       else if p < Total(f, a.speed) then
         OnWay(a, f, p) && (a.mode == PingPong && |f| > 1 ==> a.pingPongForward)
       else OnWayBack(a, f, 2 * Total(f, a.speed) - p) && !a.pingPongForward
  }

  // What is shown when playback is over: the last frame of the way.
  predicate Rests(a: State, f: Frames) {
    && f != [] && a.finished
    && if a.mode == Reverse || (a.mode == PingPong && |f| > 1) then a.currentFrame == 0 && a.currentTime == 0
       else a.currentFrame == |f| - 1 && a.currentTime == f[|f| - 1]
  }

  lemma Times(t: int, s: int, n: int)
    requires t > 0 && s > 0
    ensures n * s < t <==> n < StepsFor(t, s)
  {
    var steps := StepsFor(t, s);
    assert steps * s >= t > (steps - 1) * s;
    if n < steps { Growing(n, steps - 1, s); } else { Growing(steps, n, s); }
  }

  lemma Growing(a: int, b: int, s: int)
    requires a <= b && s > 0
    ensures a * s <= b * s
  {
  }

  // What ends a pass: the start of the next one, or the last frame for good.
  ghost predicate Turns(a: State, f: Frames, b: State)
    requires f != [] && a.speed > 0
  {
    && b.mode == a.mode && b.speed == a.speed && b.loop == a.loop && b.animId == a.animId && b.animate == a.animate
    && b.playCount == a.playCount
    && b.playsCompleted == (if a.loop then a.playsCompleted else (a.playsCompleted + 1) % WRAP)
    && if a.loop || (a.playsCompleted + 1) % WRAP < a.playCount then Shows(b, f, 0) else Rests(b, f)
  }

  lemma StartShows(a: State, f: Frames)
    requires a.speed > 0 && f != [] && forall i :: 0 <= i < |f| ==> f[i] > 0
    ensures Shows(Restarted(a, f), f, 0)
  {
    var s := a.speed;
    FramesTakeSteps(f, s, 0, 1);
    FramesTakeSteps(f, s, 0, |f|);
    FramesTakeSteps(f, s, |f| - 1, |f|);
  }

  lemma EndTurns(a: State, f: Frames, time: int)
    requires a.speed > 0 && f != [] && (forall i :: 0 <= i < |f| ==> f[i] > 0)
    requires if a.mode == Reverse || (a.mode == PingPong && |f| > 1) then a.currentFrame == 0 && time == 0
             else a.currentFrame == |f| - 1 && time == f[|f| - 1]
    ensures Turns(a, f, FinishedOrRestarted(a, f, time))
  {
    StartShows(a, f);
    StartShows(a.(playsCompleted := (a.playsCompleted + 1) % WRAP), f);
    hide Shows;
  }

  lemma OneMore(m: int, s: int)
    ensures (m + 1) * s == m * s + s && 0 * s == 0
  {
  }

  lemma Positive(m: int, s: int)
    requires m >= 0 && s > 0
    ensures m * s >= 0
  {
  }

  lemma WayOn(a: State, f: Frames, p: int)
    requires MidPass(a, f) && OnWay(a, f, p)
    ensures var i, s := a.currentFrame, a.speed;
            && (a.currentTime + s < f[i] <==> p + 1 < StepsTo(f, s, i + 1))
            && (p + 1 < StepsTo(f, s, i + 1) ==>
                  var b := a.(currentTime := a.currentTime + s); MidPass(b, f) && OnWay(b, f, p + 1))
            && (p + 1 >= StepsTo(f, s, i + 1) && i + 1 < |f| ==>
                  var b := a.(currentTime := 0, currentFrame := i + 1); MidPass(b, f) && OnWay(b, f, p + 1))
  {
    var i, s := a.currentFrame, a.speed;
    var j := p - StepsTo(f, s, i);
    OneMore(j, s);
    Positive(j, s);
    Times(f[i], s, j + 1);
    if i + 1 < |f| { AtLeastOneStep(f[i + 1], s); }
    hide StepsFor;
  }

  lemma BackOn(a: State, f: Frames, q: int)
    requires MidPass(a, f) && OnWayBack(a, f, q)
    ensures var i, s := a.currentFrame, a.speed;
            && (a.currentTime - s > 0 <==> q - 1 > StepsTo(f, s, i))
            && (q - 1 > StepsTo(f, s, i) ==>
                  var b := a.(currentTime := a.currentTime - s); MidPass(b, f) && OnWayBack(b, f, q - 1))
            && (q - 1 <= StepsTo(f, s, i) && i > 0 ==>
                  var b := a.(currentTime := f[i - 1], currentFrame := i - 1); MidPass(b, f) && OnWayBack(b, f, q - 1))
  {
    var i, s := a.currentFrame, a.speed;
    var m := StepsTo(f, s, i + 1) - q;
    OneMore(m, s);
    Positive(m, s);
    Times(f[i], s, m + 1);
    if i > 0 { AtLeastOneStep(f[i - 1], s); }
    hide StepsFor;
  }

  /** One step of a pass shows what comes next, or turns to the next pass. */
  lemma ShowsOn(a: State, f: Frames, p: int)
    requires Shows(a, f, p)
    ensures var b := ModeStep(a, f);
            if p + 1 < PassLength(a.mode, f, a.speed) then
              && Shows(b, f, p + 1)
              && b == a.(currentTime := b.currentTime, currentFrame := b.currentFrame,
                         pingPongForward := b.pingPongForward)
            else Turns(a, f, b)
  {
    var total := Total(f, a.speed);
    if a.mode == Reverse {
      ShowsBack(a, f, p, total - p);
    } else if p < total {
      ShowsThere(a, f, p);
    } else {
      ShowsBack(a, f, p, 2 * total - p);
    }
  }

  lemma ShowsThere(a: State, f: Frames, p: int)
    requires Shows(a, f, p) && a.mode != Reverse && p < Total(f, a.speed)
    ensures var b := ModeStep(a, f);
            if p + 1 < PassLength(a.mode, f, a.speed) then
              && Shows(b, f, p + 1)
              && b == a.(currentTime := b.currentTime, currentFrame := b.currentFrame,
                         pingPongForward := b.pingPongForward)
            else Turns(a, f, b)
  {
    var i, s, n := a.currentFrame, a.speed, |f|;
    WayOn(a, f, p);
    FramesTakeSteps(f, s, i + 1, n);
    AtLeastOneStep(f[i], s);
    if p + 1 >= StepsTo(f, s, i + 1) && i + 1 == n {
      if a.mode == PingPong && n > 1 {
        var b := a.(pingPongForward := false, currentTime := f[i]);
        assert OnWayBack(b, f, 2 * Total(f, s) - (p + 1)) by { OneMore(0, s); }
        assert ModeStep(a, f) == b;
        hide StepsTo, StepsFor;
      } else {
        EndTurns(a.(currentTime := a.currentTime + s), f, f[i]);
        hide StepsTo, StepsFor, Shows, FinishedOrRestarted;
      }
    } else {
      hide StepsTo, StepsFor, FinishedOrRestarted;
    }
  }

  lemma ShowsBack(a: State, f: Frames, p: int, q: int)
    requires Shows(a, f, p) && OnWayBack(a, f, q) && q == PassLength(a.mode, f, a.speed) - p
    requires a.mode == Reverse || (a.mode == PingPong && |f| > 1 && p >= Total(f, a.speed) && !a.pingPongForward)
    ensures var b := ModeStep(a, f);
            if p + 1 < PassLength(a.mode, f, a.speed) then
              && Shows(b, f, p + 1)
              && b == a.(currentTime := b.currentTime, currentFrame := b.currentFrame,
                         pingPongForward := b.pingPongForward)
            else Turns(a, f, b)
  {
    var i, s := a.currentFrame, a.speed;
    BackOn(a, f, q);
    FramesTakeSteps(f, s, 0, i);
    if q - 1 <= StepsTo(f, s, i) && i == 0 {
      EndTurns(a.(currentTime := a.currentTime - s), f, 0);
      hide StepsFor, Shows, FinishedOrRestarted;
    } else {
      hide StepsTo, StepsFor, FinishedOrRestarted;
    }
  }

  lemma Around(p: int, k: nat, length: int)
    requires 0 <= p < length
    ensures p % length == p
    ensures k > 0 && p + 1 == length ==> (p + k) % length == (k - 1) % length
  {
    if k > 0 && p + 1 == length {
      var q, r := (k - 1) / length, (k - 1) % length;
      assert k - 1 == length * q + r;
      assert p + k == length * (q + 1) + r;
      Division(p + k, length, q + 1, r);
    }
  }

  // One step of a play, from what is shown.
  lemma StepShows(a: State, db: AnimDb, p: int)
    requires Playing(a, db) && Shows(Initialized(a, db[a.animId]), db[a.animId], p)
    ensures var f, b := db[a.animId], Stepped(a, db);
            && b.animId == a.animId && b.loop == a.loop && b.mode == a.mode && b.speed == a.speed
            && if p + 1 < PassLength(a.mode, f, a.speed) then Playing(b, db) && !b.dirty && Shows(b, f, p + 1)
               else (Playing(b, db) && !b.dirty && Shows(b, f, 0)) || (!a.loop && Rests(b, f))
  {
    var f := db[a.animId];
    ShowsOn(Initialized(a, f), f, p);
    StepSafe(a, db);
    hide ModeStep, PassLength, OnWay, OnWayBack, Total;
  }

  /** A play that shows step p of its pass shows step p + k of it k steps later, and in the end its last frame. */
  lemma {:induction false} ShownAfter(a: State, db: AnimDb, p: int, k: nat)
    requires Playing(a, db) && Shows(Initialized(a, db[a.animId]), db[a.animId], p)
    ensures var f, c := db[a.animId], StepTimes(a, db, k);
            if a.loop || k < Remaining(a, f) then
              Playing(c, db) && c.animId == a.animId &&
              Shows(Initialized(c, f), f, (p + k) % PassLength(a.mode, f, a.speed))
            else Rests(c, f)
    decreases k
  {
    var f, b := db[a.animId], Stepped(a, db);
    var length := PassLength(a.mode, f, a.speed);
    assert 0 <= p < length;
    Around(p, k, length);
    if !a.loop { StepCountsDown(a, db); }
    StepShows(a, db, p);
    hide Shows, Playing, Rests, PassLength, PassLeft, ModeStep, Remaining, Initialized, Stepped;
    if k > 0 {
      if Playing(b, db) {
        SameShown(b, f);
        ShownAfter(b, db, if p + 1 < length then p + 1 else 0, k - 1);
      }
      TimesOn(a, db, k);
    }
  }

  lemma SameShown(b: State, f: Frames)
    requires f != [] && !b.dirty
    ensures Initialized(b, f) == b
  {
  }

  lemma TimesOn(a: State, db: AnimDb, k: nat)
    requires Playing(a, db) && k > 0
    ensures Playing(Stepped(a, db), db) || Stepped(a, db).finished
    ensures StepTimes(a, db, k) == StepTimes(Stepped(a, db), db, k - 1)
    ensures Stepped(a, db).finished ==> StepTimes(a, db, k) == Stepped(a, db)
  {
    StepSafe(a, db);
  }

  /** So a fresh play shows after k steps what a pass shows after k, however many passes that is. */
  lemma FrameShown(a: State, db: AnimDb, k: nat)
    requires Playing(a, db) && a.dirty
    ensures var f, c := db[a.animId], StepTimes(a, db, k);
            if a.loop || k < Remaining(a, f) then
              Playing(c, db) && c.animId == a.animId && PassLength(a.mode, f, a.speed) > 0 &&
              Shows(Initialized(c, f), f, k % PassLength(a.mode, f, a.speed))
            else Rests(c, f)
    // What that means for the frame that is shown.
    ensures var f, s, c := db[a.animId], a.speed, StepTimes(a, db, k);
            if a.loop || k < Remaining(a, f) then
              var total, i := Total(f, s), Initialized(c, f).currentFrame;
              && PassLength(a.mode, f, s) > 0 && i < |f|
              && var p := k % PassLength(a.mode, f, s);
                 if a.mode == Reverse then StepsTo(f, s, i) < total - p <= StepsTo(f, s, i + 1)
                 else if p < total then StepsTo(f, s, i) <= p < StepsTo(f, s, i + 1)
                 else StepsTo(f, s, i) < 2 * total - p <= StepsTo(f, s, i + 1)
            else
              && f != [] && c.finished
              && c.currentFrame == if a.mode == Reverse || (a.mode == PingPong && |f| > 1) then 0 else |f| - 1
  {
    PlayShown(a, db, k);
    var f, c := db[a.animId], StepTimes(a, db, k);
    StepsKeepWay(a, db, k);
    hide StepTimes, Remaining, PassLength, Playing, Total, StepsTo;
  }

  // No step changes how the animation is played.
  predicate SameWay(a: State, b: State) {
    b.mode == a.mode && b.speed == a.speed && b.loop == a.loop && b.animId == a.animId
  }

  lemma {:induction false} StepsKeepWay(a: State, db: AnimDb, k: nat)
    requires Playing(a, db) || a.finished
    ensures SameWay(a, StepTimes(a, db, k))
    decreases k
  {
    if k > 0 && !a.finished {
      StepSafe(a, db);
      ModeStepKeepsWay(Initialized(a, db[a.animId]), db[a.animId]);
      assert SameWay(a, Stepped(a, db)) by { hide ModeStep; }
      hide Stepped, Playing;
      StepsKeepWay(Stepped(a, db), db, k - 1);
    }
  }

  lemma ModeStepKeepsWay(a: State, f: Frames)
    requires a.currentFrame < |f|
    ensures SameWay(a, ModeStep(a, f))
  {
    hide FinishedOrRestarted, ForwardStep, ReverseStep;
    ForwardKeepsWay(a, f);
    ReverseKeepsWay(a, f);
  }

  lemma ForwardKeepsWay(a: State, f: Frames)
    requires a.currentFrame < |f|
    ensures SameWay(a, ForwardStep(a, f))
  {
    hide FinishedOrRestarted;
    EndKeepsWay(a.(currentTime := a.currentTime + a.speed), f, f[a.currentFrame]);
  }

  lemma ReverseKeepsWay(a: State, f: Frames)
    requires a.currentFrame < |f|
    ensures SameWay(a, ReverseStep(a, f))
  {
    hide FinishedOrRestarted;
    EndKeepsWay(a.(currentTime := a.currentTime - a.speed), f, 0);
  }

  lemma EndKeepsWay(a: State, f: Frames, finishedTime: int)
    requires f != []
    ensures SameWay(a, FinishedOrRestarted(a, f, finishedTime))
  {
  }

  lemma PlayShown(a: State, db: AnimDb, k: nat)
    requires Playing(a, db) && a.dirty
    ensures var f, c := db[a.animId], StepTimes(a, db, k);
            if a.loop || k < Remaining(a, f) then
              Playing(c, db) && c.animId == a.animId && PassLength(a.mode, f, a.speed) > 0 &&
              Shows(Initialized(c, f), f, k % PassLength(a.mode, f, a.speed))
            else Rests(c, f)
  {
    StartShows(a, db[a.animId]);
    assert Initialized(a, db[a.animId]) == Restarted(a, db[a.animId]);
    hide Shows, StepTimes, Rests, Restarted;
    ShownAfter(a, db, 0, k);
  }

  // ----- looping, and forced frames -----

  lemma LoopStep(a: State, db: AnimDb)
    requires Playing(a, db) && a.loop
    ensures var f := db[a.animId];
            var b := Stepped(a, db);
            && Playing(b, db) && b.animId == a.animId && b.loop && PassLeft(a, f) >= 1
            && Restarted(b, f) == Restarted(a, f)
            && (PassLeft(a, f) == 1 ==> b == Restarted(a, f))
            && (PassLeft(a, f) > 1 ==> PassLeft(b, f) == PassLeft(a, f) - 1)
  {
    var f := db[a.animId];
    var i := Initialized(a, f);
    FreshPass(a, f);
    FreshPass(i, f);
    ModeStepCounts(i, f);
  }

  /** A looping animation never finishes: it is back at its start exactly when the pass is over. */
  lemma {:induction false} LoopRepeats(a: State, db: AnimDb)
    requires Playing(a, db) && a.loop
    ensures PassLeft(a, db[a.animId]) >= 1
    ensures StepTimes(a, db, PassLeft(a, db[a.animId])) == Restarted(a, db[a.animId])
    ensures PassLeft(Restarted(a, db[a.animId]), db[a.animId]) == PassLength(a.mode, db[a.animId], a.speed)
    decreases PassLeft(a, db[a.animId])
  {
    LoopStep(a, db);
    FreshPass(a, db[a.animId]);
    if PassLeft(a, db[a.animId]) > 1 {
      LoopRepeats(Stepped(a, db), db);
    }
  }

  function Forced(a: State, frame: nat): State {
    a.(currentFrame := frame, currentTime := 0, finished := false, dirty := false,
       pingPongForward := a.mode != Reverse)
  }

  /**
   Forcing a frame of a finished animation plays out that one pass and finishes again,
   because the plays completed are kept; only with the largest play count does the
   counter wrap and every play run once more.
   */
  lemma ForcedFrameAfterFinish(a: State, db: AnimDb, frame: nat)
    requires Playing(Forced(a, frame), db) && a.playsCompleted == a.playCount
    ensures var b := Forced(a, frame);
            Remaining(b, db[a.animId]) == PassLeft(b, db[a.animId]) <==> a.playCount != WRAP - 1
  {
    var b := Forced(a, frame);
    FramesTakeSteps(db[a.animId], a.speed, 0, |db[a.animId]|);
    if a.playCount == WRAP - 1 {
      OneProductLess(PassesLeft(b), PassLength(b.mode, db[a.animId], b.speed));
    }
  }

  /** A forced frame is shown from its beginning, so from then on ShownAfter says what is shown. */
  lemma ForcedShows(a: State, db: AnimDb, frame: nat)
    requires Playing(Forced(a, frame), db) && a.mode != Reverse
    ensures Shows(Forced(a, frame), db[a.animId], StepsTo(db[a.animId], a.speed, frame))
  {
    var f, b := db[a.animId], Forced(a, frame);
    AtLeastOneStep(f[frame], a.speed);
    FramesTakeSteps(f, a.speed, frame + 1, |f|);
    FramesTakeSteps(f, a.speed, 0, |f|);
    OneMore(0, a.speed);
    hide StepsFor;
  }

  function Clamped(value: real): real { if value < 0.01 then 0.01 else if value > 10.0 then 10.0 else value }

  // ----- frames that are in range -----

  // An initialised animator with frames to show is at one of them, whether it runs or not.
  predicate InFrame(a: State, db: AnimDb) {
    a.dirty || a.animId == INVALID_ANIM || a.animId !in db || db[a.animId] == [] || a.currentFrame < |db[a.animId]|
  }

  function Reset(a: State): State {
    a.(finished := false, playsCompleted := 0, dirty := true, pingPongForward := true)
  }

  // The calls and the public fields; the speed is any raw value.
  datatype Control =
    | SetAnim(animId: nat) | ForceFrame(frame: nat) | SetSpeed(speed: int) | SetMode(mode: PlaybackMode)
    | SetCount(count: nat) | Play(animId: nat, mode: PlaybackMode, loop: bool, count: nat)
    | SetAnimate(on: bool) | SetLoop(loop: bool) | Step

  function AtLeastOne(count: nat): nat { if count < 1 then 1 else count }

  // None if a step reads beyond the frames.
  function Controlled(a: State, c: Control, db: AnimDb): Option<State> {
    match c
    case SetAnim(id) => Some(if id == a.animId then a else Reset(a.(animId := id, currentFrame := 0, currentTime := 0)))
    case ForceFrame(frame) => Some(Forced(a, frame))
    case SetSpeed(speed) => Some(a.(speed := speed))
    case SetMode(mode) => Some(Reset(a.(mode := mode)))
    case SetCount(count) => Some(Reset(a.(playCount := AtLeastOne(count))))
    case Play(id, mode, loop, count) =>
      Some(Reset(a.(animId := id, currentFrame := 0, currentTime := 0, animate := true, loop := loop, mode := mode,
                    playCount := AtLeastOne(count))))
    case SetAnimate(on) => Some(a.(animate := on))
    case SetLoop(loop) => Some(a.(loop := loop))
    case Step => if InRange(a, db) then Some(Stepped(a, db)) else None
  }

  // A frame forced on an animation is one of its frames.
  predicate ForcedWell(a: State, c: Control, db: AnimDb) {
    c.ForceFrame? && a.animId != INVALID_ANIM && a.animId in db && db[a.animId] != [] ==> c.frame < |db[a.animId]|
  }

  /** Every control goes well and leaves the frame in range, except exactly a frame forced beyond the animation. */
  lemma ControlKeeps(a: State, c: Control, db: AnimDb)
    requires InFrame(a, db)
    ensures Controlled(a, c, db).Some?
    ensures InFrame(Controlled(a, c, db).value, db) <==> ForcedWell(a, c, db)
  {
    if c.Step? && !Idle(a, db) { StepInFrame(Initialized(a, db[a.animId]), db[a.animId]); }
    hide ModeStep;
  }

  lemma StepInFrame(a: State, f: Frames)
    requires a.currentFrame < |f|
    ensures ModeStep(a, f).currentFrame < |f| && ModeStep(a, f).animId == a.animId
  {
    ForwardInFrame(a, f);
    ReverseInFrame(a, f);
    hide ForwardStep, ReverseStep;
  }

  lemma ForwardInFrame(a: State, f: Frames)
    requires a.currentFrame < |f|
    ensures ForwardStep(a, f).currentFrame < |f| && ForwardStep(a, f).animId == a.animId
  {
    hide FinishedOrRestarted;
    RestartInFrame(a.(currentTime := a.currentTime + a.speed), f, f[a.currentFrame]);
  }

  lemma ReverseInFrame(a: State, f: Frames)
    requires a.currentFrame < |f|
    ensures ReverseStep(a, f).currentFrame < |f| && ReverseStep(a, f).animId == a.animId
  {
    hide FinishedOrRestarted;
    RestartInFrame(a.(currentTime := a.currentTime - a.speed), f, 0);
  }

  lemma RestartInFrame(a: State, f: Frames, time: int)
    requires a.currentFrame < |f|
    ensures FinishedOrRestarted(a, f, time).currentFrame < |f| && FinishedOrRestarted(a, f, time).animId == a.animId
  {
  }

  function RunControls(a: State, controls: seq<Control>, db: AnimDb): Option<State>
    decreases |controls|
  {
    if controls == [] then Some(a)
    else
      var b := Controlled(a, controls[0], db);
      if b.None? then None else RunControls(b.value, controls[1..], db)
  }

  predicate AllForcedWell(a: State, controls: seq<Control>, db: AnimDb)
    decreases |controls|
  {
    controls == [] ||
    var b := Controlled(a, controls[0], db);
    ForcedWell(a, controls[0], db) && (b.Some? ==> AllForcedWell(b.value, controls[1..], db))
  }

  /** No run in which forced frames are frames of their animations ever reads out of bounds. */
  lemma {:induction false} RunInFrame(a: State, controls: seq<Control>, db: AnimDb)
    requires InFrame(a, db) && AllForcedWell(a, controls, db)
    ensures RunControls(a, controls, db).Some? && InFrame(RunControls(a, controls, db).value, db)
    decreases |controls|
  {
    if controls != [] {
      ControlKeeps(a, controls[0], db);
      hide Controlled, InFrame;
      RunInFrame(Controlled(a, controls[0], db).value, controls[1..], db);
    }
  }

  /** Forcing a frame makes the next step read out of bounds exactly if a running animation has fewer frames. */
  lemma ForcedOutOfBounds(a: State, frame: nat, db: AnimDb)
    ensures RunControls(a, [ForceFrame(frame), Step], db).None? <==>
            a.animate && a.animId != INVALID_ANIM && a.animId in db && 0 < |db[a.animId]| <= frame
  {
    assert [ForceFrame(frame), Step][1..] == [Step] && [Step][1..] == [];
    hide Stepped;
  }

  /** The animator object. */
  class AFrameAnimator {
    var animId: nat
    var currentFrame: nat
    var currentTime: int
    var speed: int
    var animate: bool
    var loop: bool
    var finished: bool
    var playbackMode: PlaybackMode
    var playCount: nat
    var playsCompleted: nat
    var playbackDirty: bool
    var pingPongForward: bool

    ghost function View(): State
      reads this
    {
      State(animId, currentFrame, currentTime, speed, animate, loop, finished, playbackMode, playCount,
            playsCompleted, playbackDirty, pingPongForward)
    }

    constructor (animId: nat)
      ensures View() == State(animId, 0, 0, ONE, true, true, false, Forward, 1, 0, true, true)
    {
      this.animId, currentFrame, currentTime, speed, animate, loop := animId, 0, 0, ONE, true, true;
      finished, playbackMode, playCount, playsCompleted := false, Forward, 1, 0;
      playbackDirty, pingPongForward := true, true;
    }

    method ResetPlaybackState()
      modifies this
      ensures View() == old(View()).(finished := false, playsCompleted := 0, dirty := true, pingPongForward := true)
    {
      finished, playsCompleted, playbackDirty, pingPongForward := false, 0, true, true;
    }

    method SetAnim(animId: nat)
      modifies this
      ensures animId == old(this.animId) ==> View() == old(View())
      ensures animId != old(this.animId) ==>
                View() == old(View()).(animId := animId, currentFrame := 0, currentTime := 0, finished := false,
                                       playsCompleted := 0, dirty := true, pingPongForward := true)
    {
      if this.animId == animId {
        return;
      }
      currentFrame, currentTime, this.animId := 0, 0, animId;
      ResetPlaybackState();
    }

    // The source takes any index; one past the animation makes the next Step read out of bounds.
    method SetForcedFrame(frameIndex: nat)
      modifies this
      ensures View() == Forced(old(View()), frameIndex)
    {
      currentFrame, currentTime, finished, playbackDirty := frameIndex, 0, false, false;
      pingPongForward := playbackMode != Reverse;
    }

    // Clamped to [0.01, 10] and rounded to the nearest raw value: never zero.
    method SetSpeed(value: real)
      modifies this
      ensures View() == old(View()).(speed := speed) && 41 <= speed <= 10 * ONE
      ensures -0.5 <= speed as real - 4096.0 * Clamped(value) <= 0.5
    {
      var clamped := if value < 0.01 then 0.01 else if value > 10.0 then 10.0 else value;
      speed := (clamped * 4096.0 + 0.5).Floor;
    }

    method SetPlaybackMode(mode: PlaybackMode)
      modifies this
      ensures View() == old(View()).(mode := mode, finished := false, playsCompleted := 0, dirty := true,
                                     pingPongForward := true)
    {
      playbackMode := mode;
      ResetPlaybackState();
    }

    method SetPlayCount(count: nat)
      modifies this
      ensures View() == old(View()).(playCount := AtLeastOne(count), finished := false,
                                     playsCompleted := 0, dirty := true, pingPongForward := true)
    {
      playCount := if count < 1 then 1 else count;
      ResetPlaybackState();
    }

    method Play(animId: nat, mode: PlaybackMode, loop: bool, count: nat)
      modifies this
      ensures View() == State(animId, 0, 0, old(speed), true, loop, false, mode, AtLeastOne(count), 0, true, true)
    {
      this.animId, currentFrame, currentTime, animate, this.loop := animId, 0, 0, true, loop;
      playbackMode := mode;
      playCount := if count < 1 then 1 else count;
      ResetPlaybackState();
    }

    /** Play N times: the animation ends after exactly N passes of Step calls. */
    method PlayNTimes(animId: nat, count: nat, mode: PlaybackMode, ghost db: AnimDb)
      requires animId != INVALID_ANIM && animId in db && db[animId] != [] && 0 < count < WRAP && speed > 0
      requires forall i :: 0 <= i < |db[animId]| ==> db[animId][i] > 0
      modifies this
      ensures Playing(View(), db) && !loop && this.animId == animId && speed == old(speed)
      ensures forall k: nat :: StepTimes(View(), db, k).finished <==>
                k >= count * PassLength(mode, db[animId], speed)
      ensures forall k: nat :: StepTimes(View(), db, k).finished ==> Rests(StepTimes(View(), db, k), db[animId])
    {
      Play(animId, mode, false, count);
      ghost var a := View();
      PlayLength(a, db);
      forall k: nat
        ensures StepTimes(a, db, k).finished <==> k >= count * PassLength(mode, db[animId], speed)
        ensures StepTimes(a, db, k).finished ==> Rests(StepTimes(a, db, k), db[animId])
      {
        FinishesExactly(a, db, k);
        FrameShown(a, db, k);
      }
    }

    method InitializePlayback(frames: Frames)
      requires frames != []
      modifies this
      ensures View() == Initialized(old(View()), frames)
    {
      if !playbackDirty {
        return;
      }
      finished, playbackDirty, pingPongForward := false, false, true;
      match playbackMode {
        case Forward | PingPong =>
          currentFrame, currentTime := 0, 0;
        case Reverse =>
          currentFrame := |frames| - 1;
          currentTime := frames[currentFrame];
      }
    }

    method RestartPlayback(frames: Frames)
      requires frames != []
      modifies this
      ensures View() == Restarted(old(View()), frames)
    {
      playbackDirty := true;
      InitializePlayback(frames);
    }

    method FinishOrRestart(frames: Frames, finishedTime: int)
      requires frames != []
      modifies this
      ensures View() == FinishedOrRestarted(old(View()), frames, finishedTime)
    {
      if loop {
        RestartPlayback(frames);
        return;
      }
      playsCompleted := (playsCompleted + 1) % WRAP;
      if playsCompleted < playCount {
        RestartPlayback(frames);
        return;
      }
      currentTime := finishedTime;
      finished := true;
    }

    method StepForward(frames: Frames)
      requires currentFrame < |frames|
      modifies this
      ensures View() == ForwardStep(old(View()), frames)
    {
      hide FinishedOrRestarted;
      var duration := frames[currentFrame];
      currentTime := currentTime + speed;
      if currentTime < duration {
        return;
      }
      if currentFrame + 1 < |frames| {
        currentFrame := currentFrame + 1;
        currentTime := 0;
        return;
      }
      FinishOrRestart(frames, duration);
    }

    method StepReverse(frames: Frames)
      requires currentFrame < |frames|
      modifies this
      ensures View() == ReverseStep(old(View()), frames)
    {
      hide FinishedOrRestarted;
      currentTime := currentTime - speed;
      if currentTime > 0 {
        return;
      }
      if currentFrame > 0 {
        currentFrame := currentFrame - 1;
        currentTime := frames[currentFrame];
        return;
      }
      FinishOrRestart(frames, 0);
    }

    method StepPingPong(frames: Frames)
      requires currentFrame < |frames|
      modifies this
      ensures View() == PingPongStep(old(View()), frames)
    {
      if |frames| <= 1 {
        StepForward(frames);
        return;
      }
      if pingPongForward {
        var duration := frames[currentFrame];
        currentTime := currentTime + speed;
        if currentTime < duration {
          return;
        }
        if currentFrame + 1 < |frames| {
          currentFrame := currentFrame + 1;
          currentTime := 0;
          return;
        }
        pingPongForward := false;
        currentTime := duration;
        return;
      }
      currentTime := currentTime - speed;
      if currentTime > 0 {
        return;
      }
      if currentFrame > 0 {
        currentFrame := currentFrame - 1;
        currentTime := frames[currentFrame];
        return;
      }
      if loop {
        RestartPlayback(frames);
        return;
      }
      playsCompleted := (playsCompleted + 1) % WRAP;
      if playsCompleted < playCount {
        RestartPlayback(frames);
        return;
      }
      currentTime := 0;
      finished := true;
    }

    method Step(db: AnimDb)
      requires InRange(View(), db)
      modifies this
      ensures View() == Stepped(old(View()), db)
    {
      if !animate || animId == INVALID_ANIM || finished {
        return;
      }
      if animId !in db || db[animId] == [] {
        return;
      }
      InitializePlayback(db[animId]);
      if finished {
        return;
      }
      match playbackMode {
        case Forward => StepForward(db[animId]);
        case Reverse => StepReverse(db[animId]);
        case PingPong => StepPingPong(db[animId]);
      }
    }
  }
}
