/** The delay reverb: a ring buffer fed back through a low pass. */
module Reverb {
  import opened AudioFilter

  const MIN_DELAY_MS := 10.0
  const MAX_DELAY_MS := 350.0
  const MAX_FEEDBACK := 0.95

  function ClampDelayMs(ms: real): real { Clamp(ms, MIN_DELAY_MS, MAX_DELAY_MS) }

  function ClampFeedback(feedback: real): real { Clamp(feedback, 0.0, MAX_FEEDBACK) }

  // Room for the longest delay: its samples rounded up, and two more.
  function BufferSize(sampleRate: nat): (n: nat)
    ensures n >= 2
  {
    (sampleRate * 350 + 999) / 1000 + 2
  }

  datatype State = State(
    initialized: bool, sampleRate: nat, writeIndex: nat, wet: real, feedback: real, delayMs: real,
    cutoffHz: real, wetHistory: real, buffer: seq<real>)

  datatype Target = Target(wet: real, feedback: real, delayMs: real, cutoffHz: real)

  // One dry input sample and the output sample it is mixed into.
  datatype Sample = Sample(dry: real, out: real)

  function RoundToNat(x: real): int { (x + 0.5).Floor }

  function DelaySamples(delayMs: real, sampleRate: nat, size: nat): (d: nat)
    requires size >= 2
    ensures 1 <= d <= size - 1
  {
    var d := RoundedDelay(delayMs, sampleRate);
    if d > size - 1 then size - 1 else d
  }

  // The delay in samples before it is fitted to the ring.
  function RoundedDelay(delayMs: real, sampleRate: nat): (d: nat)
    ensures d > 0
  {
    var d := RoundToNat(delayMs * sampleRate as real / 1000.0);
    if d < 1 then 1 else d
  }

  function Sum(frame: seq<Sample>): real {
    if frame == [] then 0.0 else Sum(frame[..|frame| - 1]) + frame[|frame| - 1].dry
  }

  function Mono(frame: seq<Sample>): real
    requires frame != []
  {
    Sum(frame) / |frame| as real
  }

  function Smoothed(s: State, t: Target): State {
    var alpha := OnePoleAlpha(s.sampleRate as real, PARAMETER_SMOOTHING_HZ);
    s.(wet := Toward(s.wet, t.wet, alpha), feedback := Toward(s.feedback, t.feedback, alpha),
       delayMs := Toward(s.delayMs, t.delayMs, alpha), cutoffHz := Toward(s.cutoffHz, t.cutoffHz, alpha))
  }

  function ReadIndex(writeIndex: nat, delay: nat, size: nat): (i: nat)
    requires 0 < size && delay <= size
    ensures i < size
  {
    (writeIndex + size - delay) % size
  }

  function Delayed(s: State): real
    requires |s.buffer| >= 2
  {
    s.buffer[ReadIndex(s.writeIndex, DelaySamples(s.delayMs, s.sampleRate, |s.buffer|), |s.buffer|)]
  }

  function NextWetHistory(s: State): real
    requires |s.buffer| >= 2
  {
    Toward(if s.initialized then s.wetHistory else Delayed(s), Delayed(s),
           OnePoleAlpha(s.sampleRate as real, s.cutoffHz))
  }

  // What is written into the ring: the dry signal and what came back.
  function Written(s: State, frame: seq<Sample>): real
    requires |s.buffer| >= 2 && frame != []
  {
    Mono(frame) + Times(NextWetHistory(s), s.feedback)
  }

  function MixedOut(frame: seq<Sample>, wetSample: real): seq<real> {
    seq(|frame|, c requires 0 <= c < |frame| => frame[c].out + wetSample)
  }

  function StepFrame(s: State, frame: seq<Sample>): State
    requires |s.buffer| >= 2 && s.writeIndex < |s.buffer| && frame != []
  {
    s.(wetHistory := NextWetHistory(s), buffer := s.buffer[s.writeIndex := Written(s, frame)],
       writeIndex := (s.writeIndex + 1) % |s.buffer|, initialized := true)
  }

  function ReverbStep(t: Target): (State, seq<Sample>) -> (State, seq<real>) {
    (s: State, frame: seq<Sample>) =>
      if |s.buffer| < 2 || s.writeIndex >= |s.buffer| || frame == [] then (s, MixedOut(frame, 0.0))
      else
        var p := Smoothed(s, t);
        var next := StepFrame(p, frame);
        (next, MixedOut(frame, Times(next.wetHistory, p.wet)))
  }

  // A new sample rate, or the first block, gives a fresh silent ring.
  function Resized(s: State, rate: nat): State {
    if s.sampleRate == rate && |s.buffer| == BufferSize(rate) then s
    else s.(sampleRate := rate, buffer := seq(BufferSize(rate), _ => 0.0), writeIndex := 0, wetHistory := 0.0,
            initialized := false)
  }

  function ResetTo(s: State, t: Target): State {
    s.(initialized := false, wet := ClampUnit(t.wet), feedback := ClampFeedback(t.feedback),
       delayMs := ClampDelayMs(t.delayMs), cutoffHz := ClampCutoff(t.cutoffHz), wetHistory := 0.0, writeIndex := 0,
       buffer := seq(|s.buffer|, _ => 0.0))
  }

  function Desired(enabled: bool, t: Target): Target {
    Target(if enabled then ClampUnit(t.wet) else 0.0, if enabled then ClampFeedback(t.feedback) else 0.0,
           ClampDelayMs(t.delayMs), ClampCutoff(t.cutoffHz))
  }

  function BlockResult(s: State, spec: AudioSpec, enabled: bool, t: Target, samples: seq<Sample>): (State, seq<real>) {
    if samples == [] then (s, [])
    else FoldFrames(ReverbStep(Desired(enabled, t)), Resized(s, SampleRate(spec)), Channels(spec), samples)
  }

  // ----- stability -----

  /** With every dry sample within m, ring and memory stay within 20 m. */
  ghost predicate Stable(s: State, m: real) {
    && m >= 0.0
    && 0.0 <= s.feedback <= MAX_FEEDBACK && 0.0 <= s.wet <= 1.0
    && Bounded(s.buffer, 20.0 * m)
    && -20.0 * m <= s.wetHistory <= 20.0 * m
  }

  ghost predicate DryWithin(frame: seq<Sample>, m: real) {
    forall i :: 0 <= i < |frame| ==> -m <= frame[i].dry <= m
  }

  lemma {:induction false} SumBound(frame: seq<Sample>, m: real)
    requires DryWithin(frame, m)
    ensures -(|frame| as real * m) <= Sum(frame) <= |frame| as real * m
  {
    if frame != [] {
      SumBound(frame[..|frame| - 1], m);
      assert |frame| as real * m == (|frame| - 1) as real * m + m;
    }
  }

  lemma MonoBound(frame: seq<Sample>, m: real)
    requires frame != [] && DryWithin(frame, m)
    ensures -m <= Mono(frame) <= m
  {
    SumBound(frame, m);
    AverageBound(Sum(frame), |frame| as real, m);
  }

  lemma AverageBound(sum: real, n: real, m: real)
    requires n > 0.0 && -(n * m) <= sum <= n * m
    ensures -m <= sum / n <= m
  {
  }

  lemma FeedbackBound(x: real, feedback: real, m: real)
    requires m >= 0.0 && -20.0 * m <= x <= 20.0 * m && 0.0 <= feedback <= MAX_FEEDBACK
    ensures -19.0 * m <= Times(x, feedback) <= 19.0 * m
  {
    var a := 20.0 * m;
    hide Times;
    TimesOrder(x, a, feedback);
    TimesOrder(-a, x, feedback);
    TimesOrder(feedback, MAX_FEEDBACK, a);
    Turned(a, feedback);
    Scaled(a);
  }

  lemma Turned(a: real, b: real)
    ensures Times(a, b) == Times(b, a) && Times(-a, b) == -Times(a, b)
  {
  }

  lemma Scaled(a: real)
    ensures Times(MAX_FEEDBACK, a) == 0.95 * a
  {
  }

  /** One frame keeps the bound, whatever the targets: feedback stays below one. */
  lemma StepStable(s: State, t: Target, frame: seq<Sample>, m: real)
    requires Stable(s, m) && DryWithin(frame, m)
    requires 0.0 <= t.wet <= 1.0 && 0.0 <= t.feedback <= MAX_FEEDBACK
    ensures Stable(ReverbStep(t)(s, frame).0, m)
  {
    if |s.buffer| >= 2 && s.writeIndex < |s.buffer| && frame != [] {
      var p := Smoothed(s, t);
      var alpha := OnePoleAlpha(s.sampleRate as real, PARAMETER_SMOOTHING_HZ);
      TowardStays(s.wet, t.wet, alpha, 0.0, 1.0);
      TowardStays(s.feedback, t.feedback, alpha, 0.0, MAX_FEEDBACK);
      var filter := OnePoleAlpha(p.sampleRate as real, p.cutoffHz);
      hide Toward, Times, OnePoleAlpha, DelaySamples, ReadIndex, Mono;
      TowardStays(if p.initialized then p.wetHistory else Delayed(p), Delayed(p), filter, -20.0 * m, 20.0 * m);
      FeedbackBound(NextWetHistory(p), p.feedback, m);
      MonoBound(frame, m);
    }
  }

  lemma {:induction false} FoldStable(s: State, t: Target, channels: nat, samples: seq<Sample>, m: real)
    requires channels > 0 && Stable(s, m) && DryWithin(samples, m)
    requires 0.0 <= t.wet <= 1.0 && 0.0 <= t.feedback <= MAX_FEEDBACK
    ensures Stable(FoldFrames(ReverbStep(t), s, channels, samples).0, m)
    decreases |samples|
  {
    if |samples| >= channels {
      StepStable(s, t, samples[..channels], m);
      hide Stable;
      FoldStable(ReverbStep(t)(s, samples[..channels]).0, t, channels, samples[channels..], m);
    }
  }

  datatype Operation =
    | Reset(target: Target)
    | Block(spec: AudioSpec, enabled: bool, target: Target, samples: seq<Sample>)

  function Apply(s: State, op: Operation): State {
    match op
    case Reset(t) => ResetTo(s, t)
    case Block(spec, enabled, t, samples) => BlockResult(s, spec, enabled, t, samples).0
  }

  function ApplyAll(s: State, ops: seq<Operation>): State
    decreases |ops|
  {
    if ops == [] then s else ApplyAll(Apply(s, ops[0]), ops[1..])
  }

  /** The reverb never runs away: over any sequence of resets and blocks, with any targets. */
  lemma {:induction false} AlwaysStable(s: State, ops: seq<Operation>, m: real)
    requires Stable(s, m)
    requires forall i :: 0 <= i < |ops| && ops[i].Block? ==> DryWithin(ops[i].samples, m)
    ensures Stable(ApplyAll(s, ops), m)
    decreases |ops|
  {
    if ops != [] {
      var op := ops[0];
      if op.Block? && op.samples != [] {
        FoldStable(Resized(s, SampleRate(op.spec)), Desired(op.enabled, op.target), Channels(op.spec), op.samples, m);
      }
      assert Stable(Apply(s, op), m);
      AlwaysStable(Apply(s, op), ops[1..], m);
    }
  }

  // ----- the delay line -----

  // The sample written d frames ago, or silence from before the reset.
  function Ago(written: seq<real>, d: nat): real
    requires d > 0
  {
    if d <= |written| then written[|written| - d] else 0.0
  }

  // Where the sample of d frames ago sits.
  function Back(writeIndex: nat, d: nat, size: nat): int {
    if d <= writeIndex then writeIndex - d else writeIndex + size - d
  }

  ghost predicate DelayLine(s: State, written: seq<real>) {
    && |s.buffer| >= 2 && s.writeIndex < |s.buffer|
    && forall d :: 1 <= d <= |s.buffer| ==> s.buffer[Back(s.writeIndex, d, |s.buffer|)] == Ago(written, d)
  }

  lemma SmallRemainder(a: nat, n: nat)
    requires 0 < n && a < 2 * n
    ensures a % n == if a < n then a else a - n
  {
  }

  /** The ring read returns the sample written exactly that many frames earlier. */
  lemma ReadsTheDelay(s: State, written: seq<real>)
    requires DelayLine(s, written)
    ensures Delayed(s) == Ago(written, DelaySamples(s.delayMs, s.sampleRate, |s.buffer|))
  {
    var n := |s.buffer|;
    var d := DelaySamples(s.delayMs, s.sampleRate, n);
    SmallRemainder(s.writeIndex + n - d, n);
    assert ReadIndex(s.writeIndex, d, n) == Back(s.writeIndex, d, n);
  }

  /** Each frame appends what it writes to the line's history. */
  lemma StepExtendsLine(s: State, t: Target, frame: seq<Sample>, written: seq<real>)
    requires DelayLine(s, written) && frame != []
    ensures DelayLine(ReverbStep(t)(s, frame).0, written + [Written(Smoothed(s, t), frame)])
  {
    var p := Smoothed(s, t);
    var x := Written(p, frame);
    var after := ReverbStep(t)(s, frame).0;
    var n := |s.buffer|;
    hide Written, Smoothed, NextWetHistory;
    SmallRemainder(s.writeIndex + 1, n);
    forall d | 1 <= d <= n ensures after.buffer[Back(after.writeIndex, d, n)] == Ago(written + [x], d) {
      if d > 1 { assert s.buffer[Back(s.writeIndex, d - 1, n)] == Ago(written, d - 1); }
    }
  }

  // A parameter on its way to its target.
  predicate Nears(from: real, to: real, target: real, alpha: real) { to == from + Times(target - from, alpha) }

  /**
   One frame: the parameters near their targets; what was written the delay ago passes the one-pole low
   pass; the mean of the dry frame and the fed back result are written; and the result is mixed into
   every channel.
   */
  lemma StepEchoes(s: State, t: Target, frame: seq<Sample>, written: seq<real>)
    requires DelayLine(s, written) && frame != []
    ensures var (next, out) := ReverbStep(t)(s, frame);
            var alpha := OnePoleAlpha(s.sampleRate as real, PARAMETER_SMOOTHING_HZ);
            var echo := Ago(written, DelaySamples(next.delayMs, s.sampleRate, |s.buffer|));
            var memory := if s.initialized then s.wetHistory else echo;
            && Nears(s.wet, next.wet, t.wet, alpha) && Nears(s.feedback, next.feedback, t.feedback, alpha)
            && Nears(s.delayMs, next.delayMs, t.delayMs, alpha) && Nears(s.cutoffHz, next.cutoffHz, t.cutoffHz, alpha)
            && Nears(memory, next.wetHistory, echo, OnePoleAlpha(s.sampleRate as real, next.cutoffHz))
            && DelayLine(next, written + [Mono(frame) + Times(next.wetHistory, next.feedback)])
            && |out| == |frame|
            && (forall c :: 0 <= c < |frame| ==> out[c] == frame[c].out + Times(next.wetHistory, next.wet))
            && next.initialized && next.sampleRate == s.sampleRate && |next.buffer| == |s.buffer|
  {
    var p, next := Smoothed(s, t), ReverbStep(t)(s, frame).0;
    SmoothedNears(s, t, written);
    ReadsTheDelay(p, written);
    StepExtendsLine(s, t, frame, written);
    StepIs(s, t, frame);
    hide *;
  }

  lemma SmoothedNears(s: State, t: Target, written: seq<real>)
    requires DelayLine(s, written)
    ensures var p, alpha := Smoothed(s, t), OnePoleAlpha(s.sampleRate as real, PARAMETER_SMOOTHING_HZ);
            && Nears(s.wet, p.wet, t.wet, alpha) && Nears(s.feedback, p.feedback, t.feedback, alpha)
            && Nears(s.delayMs, p.delayMs, t.delayMs, alpha) && Nears(s.cutoffHz, p.cutoffHz, t.cutoffHz, alpha)
            && DelayLine(p, written) && p.initialized == s.initialized && p.wetHistory == s.wetHistory
            && p.sampleRate == s.sampleRate && |p.buffer| == |s.buffer|
  {
    hide OnePoleAlpha, Ago, Back, Times;
  }

  lemma StepIs(s: State, t: Target, frame: seq<Sample>)
    requires |s.buffer| >= 2 && s.writeIndex < |s.buffer| && frame != []
    ensures var (next, out) := ReverbStep(t)(s, frame);
            var p := Smoothed(s, t);
            && |p.buffer| == |s.buffer|
            && next.wet == p.wet && next.feedback == p.feedback
            && next.delayMs == p.delayMs && next.cutoffHz == p.cutoffHz
            && next.initialized && next.sampleRate == s.sampleRate && |next.buffer| == |s.buffer|
            && Nears(if s.initialized then s.wetHistory else Delayed(p), next.wetHistory, Delayed(p),
                     OnePoleAlpha(s.sampleRate as real, p.cutoffHz))
            && Written(p, frame) == Mono(frame) + Times(next.wetHistory, next.feedback)
            && |out| == |frame|
            && forall c :: 0 <= c < |frame| ==> out[c] == frame[c].out + Times(next.wetHistory, next.wet)
  {
    var p := Smoothed(s, t);
    assert p == s.(wet := p.wet, feedback := p.feedback, delayMs := p.delayMs, cutoffHz := p.cutoffHz);
    hide OnePoleAlpha, Delayed, Mono, Smoothed, Times;
  }

  predicate Silent(frame: seq<Sample>) { frame != [] && forall c :: 0 <= c < |frame| ==> frame[c].dry == 0.0 }

  lemma {:induction false} SumOfSilence(frame: seq<Sample>)
    requires Silent(frame)
    ensures Sum(frame) == 0.0
  {
    if |frame| > 1 { SumOfSilence(frame[..|frame| - 1]); } else { assert frame[..0] == []; }
  }

  /** The mean of a frame lies between its samples, and is their sum over their number. */
  lemma MonoIs(frame: seq<Sample>, low: real, high: real)
    requires frame != [] && forall c :: 0 <= c < |frame| ==> low <= frame[c].dry <= high
    ensures low <= Mono(frame) <= high && Mono(frame) * |frame| as real == Sum(frame)
  {
    SumBetween(frame, low, high);
    MeanBetween(Sum(frame), |frame| as real, low, high);
  }

  lemma {:induction false} SumBetween(frame: seq<Sample>, low: real, high: real)
    requires forall c :: 0 <= c < |frame| ==> low <= frame[c].dry <= high
    ensures low * |frame| as real <= Sum(frame) <= high * |frame| as real
  {
    if frame != [] { SumBetween(frame[..|frame| - 1], low, high); }
  }

  lemma MeanBetween(sum: real, n: real, low: real, high: real)
    requires n > 0.0 && low * n <= sum <= high * n
    ensures low <= sum / n <= high && sum / n * n == sum
  {
    var mean := sum / n;
    assert mean * n == sum;
  }

  // At its targets, with one impulse in the line n frames ago and nothing heard of it yet.
  ghost predicate Awaits(s: State, t: Target, impulse: real, n: nat) {
    && s.wet == t.wet && s.feedback == t.feedback && s.delayMs == t.delayMs && s.cutoffHz == t.cutoffHz
    && s.initialized && s.wetHistory == 0.0 && DelayLine(s, [impulse] + Zeros(n))
  }

  function Zeros(n: nat): seq<real> { seq(n, _ => 0.0) }

  function StepFrames(t: Target, s: State, frames: seq<seq<Sample>>): State {
    if frames == [] then s
    else ReverbStep(t)(StepFrames(t, s, frames[..|frames| - 1]), frames[|frames| - 1]).0
  }

  lemma SilentStep(s: State, t: Target, frame: seq<Sample>, impulse: real, n: nat)
    requires Awaits(s, t, impulse, n) && Silent(frame)
    ensures var next, d := ReverbStep(t)(s, frame).0, DelaySamples(t.delayMs, s.sampleRate, |s.buffer|);
            && next.sampleRate == s.sampleRate && |next.buffer| == |s.buffer|
            && (n + 1 < d ==> Awaits(next, t, impulse, n + 1))
            && (n + 1 == d ==> next.wetHistory == Times(impulse, OnePoleAlpha(s.sampleRate as real, t.cutoffHz)))
  {
    var written := [impulse] + Zeros(n);
    StepEchoes(s, t, frame, written);
    SumOfSilence(frame);
    assert written + [0.0] == [impulse] + Zeros(n + 1);
    forall x: real ensures Times(0.0, x) == 0.0 {}
    hide DelayLine, ReverbStep, DelaySamples, OnePoleAlpha, Times;
  }

  /** An impulse that was written comes back after exactly the delay, through the low pass, and not before. */
  lemma {:induction false} EchoReturns(s: State, t: Target, frames: seq<seq<Sample>>, impulse: real)
    requires Awaits(s, t, impulse, 0) && |frames| <= DelaySamples(t.delayMs, s.sampleRate, |s.buffer|)
    requires forall i :: 0 <= i < |frames| ==> Silent(frames[i])
    ensures var end := StepFrames(t, s, frames);
            && end.sampleRate == s.sampleRate && |end.buffer| == |s.buffer|
            && (|frames| < DelaySamples(t.delayMs, s.sampleRate, |s.buffer|) ==> Awaits(end, t, impulse, |frames|))
            && (|frames| == DelaySamples(t.delayMs, s.sampleRate, |s.buffer|) ==>
                  end.wetHistory == Times(impulse, OnePoleAlpha(s.sampleRate as real, t.cutoffHz)))
    decreases |frames|
  {
    if frames != [] {
      var n := |frames| - 1;
      hide *;
      StepFramesOn(t, s, frames);
      EchoReturns(s, t, frames[..n], impulse);
      SilentStep(StepFrames(t, s, frames[..n]), t, frames[n], impulse, n);
    }
  }

  lemma StepFramesOn(t: Target, s: State, frames: seq<seq<Sample>>)
    ensures frames != [] ==>
              StepFrames(t, s, frames) ==
              ReverbStep(t)(StepFrames(t, s, frames[..|frames| - 1]), frames[|frames| - 1]).0
    ensures StepFrames(t, s, []) == s
  {
  }

  /** What a block wants of the parameters: all of them in their ranges, and no echo at all when it is off. */
  lemma DesiredIs(enabled: bool, t: Target)
    ensures var d := Desired(enabled, t);
            && 0.0 <= d.wet <= 1.0 && 0.0 <= d.feedback <= 0.95 && 10.0 <= d.delayMs <= 350.0
            && (!enabled ==> d.wet == 0.0 && d.feedback == 0.0)
            && (enabled && 0.0 <= t.wet <= 1.0 ==> d.wet == t.wet)
            && (enabled && 0.0 <= t.feedback <= 0.95 ==> d.feedback == t.feedback)
            && (10.0 <= t.delayMs <= 350.0 ==> d.delayMs == t.delayMs)
            && (MIN_CUTOFF_HZ <= t.cutoffHz <= MAX_CUTOFF_HZ ==> d.cutoffHz == t.cutoffHz)
  {
  }

  // The samples one block writes, in order.
  function WrittenBy(t: Target, s: State, channels: nat, samples: seq<Sample>): seq<real>
    requires channels > 0
    decreases |samples|
  {
    if |samples| < channels || |s.buffer| < 2 then []
    else
      [Written(Smoothed(s, t), samples[..channels])] +
      WrittenBy(t, ReverbStep(t)(s, samples[..channels]).0, channels, samples[channels..])
  }

  /** Over a whole block the line's history grows by exactly what the block writes. */
  lemma {:induction false} BlockExtendsLine(
    s: State, t: Target, channels: nat, samples: seq<Sample>, written: seq<real>)
    requires channels > 0 && DelayLine(s, written)
    ensures DelayLine(FoldFrames(ReverbStep(t), s, channels, samples).0, written + WrittenBy(t, s, channels, samples))
    decreases |samples|
  {
    if |samples| < channels {
      assert written + [] == written;
    } else {
      var frame := samples[..channels];
      StepExtendsLine(s, t, frame, written);
      var x := Written(Smoothed(s, t), frame);
      var next := ReverbStep(t)(s, frame).0;
      var rest := WrittenBy(t, next, channels, samples[channels..]);
      BlockExtendsLine(next, t, channels, samples[channels..], written + [x]);
      assert (written + [x]) + rest == written + ([x] + rest);
    }
  }

  lemma {:induction false} FoldKeepsRing(s: State, t: Target, channels: nat, samples: seq<Sample>)
    requires channels > 0
    ensures var end := FoldFrames(ReverbStep(t), s, channels, samples).0;
            end.sampleRate == s.sampleRate && |end.buffer| == |s.buffer|
    decreases |samples|
  {
    if |samples| >= channels {
      FoldKeepsRing(ReverbStep(t)(s, samples[..channels]).0, t, channels, samples[channels..]);
    }
  }

  /** Block splitting: one block over a concatenation is two blocks with the same format. */
  lemma BlockSplits(s: State, spec: AudioSpec, enabled: bool, t: Target, a: seq<Sample>, b: seq<Sample>)
    requires WholeFrames(|a|, Channels(spec))
    ensures var (s1, o1) := BlockResult(s, spec, enabled, t, a);
            var (s2, o2) := BlockResult(s1, spec, enabled, t, b);
            BlockResult(s, spec, enabled, t, a + b) == (s2, o1 + o2)
  {
    var step, channels := ReverbStep(Desired(enabled, t)), Channels(spec);
    var start := Resized(s, SampleRate(spec));
    if a == [] {
      assert a + b == b;
      var o2 := BlockResult(s, spec, enabled, t, b).1;
      assert [] + o2 == o2;
    } else if b == [] {
      assert a + b == a;
      var o1 := BlockResult(s, spec, enabled, t, a).1;
      assert o1 + [] == o1;
    } else {
      FoldSplit(step, start, channels, a, b);
      FoldKeepsRing(start, Desired(enabled, t), channels, a);
    }
  }

  lemma ResetSilencesLine(s: State, t: Target)
    requires |s.buffer| >= 2
    ensures DelayLine(ResetTo(s, t), [])
  {
  }

  /** The longest delay fits the ring: it is never cut short. */
  lemma DelayFits(delayMs: real, sampleRate: nat)
    requires delayMs <= MAX_DELAY_MS
    ensures RoundedDelay(delayMs, sampleRate) <= BufferSize(sampleRate) - 1
  {
    var ms := delayMs * sampleRate as real;
    assert ms <= 350.0 * sampleRate as real by {
      assert (350.0 - delayMs) * sampleRate as real >= 0.0;
    }
    var k := (sampleRate * 350 + 999) / 1000;
    assert 1000 * k >= sampleRate * 350;
    assert 1000.0 * k as real >= 350.0 * sampleRate as real;
    assert ms / 1000.0 <= k as real;
  }

  // ----- the delay line over whole runs -----

  // The ring is not made yet, or is right for its sample rate; the delay is one that fits it.
  predicate Tuned(s: State) {
    && MIN_DELAY_MS <= s.delayMs <= MAX_DELAY_MS
    && (s.buffer == [] || |s.buffer| == BufferSize(s.sampleRate))
  }

  // Once there is a ring, it holds the history.
  ghost predicate Line(s: State, written: seq<real>) {
    if s.buffer == [] then written == [] else DelayLine(s, written)
  }

  // The samples written since the last reset or the last new ring.
  function History(s: State, op: Operation, written: seq<real>): seq<real> {
    match op
    case Reset(_) => []
    case Block(spec, enabled, t, samples) =>
      if samples == [] then written
      else
        var ready := Resized(s, SampleRate(spec));
        (if ready == s then written else []) + WrittenBy(Desired(enabled, t), ready, Channels(spec), samples)
  }

  function HistoryOf(s: State, ops: seq<Operation>, written: seq<real>): seq<real>
    decreases |ops|
  {
    if ops == [] then written else HistoryOf(Apply(s, ops[0]), ops[1..], History(s, ops[0], written))
  }

  lemma ResizedLine(s: State, rate: nat, written: seq<real>)
    requires rate > 0 && Tuned(s) && Line(s, written)
    ensures var ready := Resized(s, rate);
            Tuned(ready) && DelayLine(ready, if ready == s then written else [])
  {
  }

  lemma StepTuned(s: State, t: Target, frame: seq<Sample>)
    requires Tuned(s) && MIN_DELAY_MS <= t.delayMs <= MAX_DELAY_MS
    ensures Tuned(ReverbStep(t)(s, frame).0)
    ensures MIN_DELAY_MS <= Smoothed(s, t).delayMs <= MAX_DELAY_MS
  {
    var alpha := OnePoleAlpha(s.sampleRate as real, PARAMETER_SMOOTHING_HZ);
    TowardStays(s.delayMs, t.delayMs, alpha, MIN_DELAY_MS, MAX_DELAY_MS);
    hide Toward, Times, OnePoleAlpha, Delayed, Mono;
  }

  lemma {:induction false} FoldTuned(s: State, t: Target, channels: nat, samples: seq<Sample>)
    requires channels > 0 && Tuned(s) && MIN_DELAY_MS <= t.delayMs <= MAX_DELAY_MS
    ensures Tuned(FoldFrames(ReverbStep(t), s, channels, samples).0)
    decreases |samples|
  {
    if |samples| >= channels {
      StepTuned(s, t, samples[..channels]);
      hide Tuned;
      FoldTuned(ReverbStep(t)(s, samples[..channels]).0, t, channels, samples[channels..]);
    }
  }

  lemma ApplyLine(s: State, op: Operation, written: seq<real>)
    requires Tuned(s) && Line(s, written)
    ensures Tuned(Apply(s, op)) && Line(Apply(s, op), History(s, op, written))
  {
    if op.Block? && op.samples != [] {
      var ready := Resized(s, SampleRate(op.spec));
      ResizedLine(s, SampleRate(op.spec), written);
      var t := Desired(op.enabled, op.target);
      assert MIN_DELAY_MS <= t.delayMs <= MAX_DELAY_MS;
      hide ReverbStep, Tuned, DelayLine, Resized, WrittenBy;
      FoldTuned(ready, t, Channels(op.spec), op.samples);
      BlockExtendsLine(ready, t, Channels(op.spec), op.samples, if ready == s then written else []);
      RingThere(ready, t, Channels(op.spec), op.samples, if ready == s then written else []);
    } else if op.Reset? && s.buffer != [] {
      ResetSilencesLine(s, op.target);
    }
  }

  lemma RingThere(s: State, t: Target, channels: nat, samples: seq<Sample>, written: seq<real>)
    requires channels > 0 && DelayLine(s, written)
    ensures FoldFrames(ReverbStep(t), s, channels, samples).0.buffer != []
  {
    FoldKeepsRing(s, t, channels, samples);
  }

  /**
   Over any run of resets and blocks, at whatever sample rates, the ring holds exactly what was
   written since the last reset or new ring, and the delay stays one that fits it.
   */
  lemma {:induction false} AlwaysLine(s: State, ops: seq<Operation>, written: seq<real>)
    requires Tuned(s) && Line(s, written)
    ensures Tuned(ApplyAll(s, ops)) && Line(ApplyAll(s, ops), HistoryOf(s, ops, written))
    decreases |ops|
  {
    if ops != [] {
      ApplyLine(s, ops[0], written);
      hide Tuned, Line, History, Apply;
      AlwaysLine(Apply(s, ops[0]), ops[1..], History(s, ops[0], written));
    }
  }

  lemma ReadsRounded(s: State, written: seq<real>)
    requires DelayLine(s, written) && |s.buffer| == BufferSize(s.sampleRate) && s.delayMs <= MAX_DELAY_MS
    ensures Delayed(s) == Ago(written, RoundedDelay(s.delayMs, s.sampleRate))
  {
    hide DelayLine, Delayed, Ago, BufferSize, RoundedDelay;
    DelayFits(s.delayMs, s.sampleRate);
    ReadsTheDelay(s, written);
  }

  lemma SmoothedLine(s: State, t: Target, written: seq<real>)
    requires DelayLine(s, written)
    ensures DelayLine(Smoothed(s, t), written)
  {
  }

  /** So in a reachable state a frame reads what was written its rounded delay ago, never a shortened one. */
  lemma ReadsWholeDelay(s: State, ops: seq<Operation>, written: seq<real>, t: Target)
    requires Tuned(s) && Line(s, written) && MIN_DELAY_MS <= t.delayMs <= MAX_DELAY_MS
    requires ApplyAll(s, ops).buffer != []
    ensures var p := Smoothed(ApplyAll(s, ops), t);
            |p.buffer| >= 2 && Delayed(p) == Ago(HistoryOf(s, ops, written), RoundedDelay(p.delayMs, p.sampleRate))
  {
    AlwaysLine(s, ops, written);
    var end := ApplyAll(s, ops);
    StepTuned(end, t, []);
    SmoothedLine(end, t, HistoryOf(s, ops, written));
    hide DelayLine, ApplyAll, HistoryOf, ReadIndex, BufferSize, Toward, OnePoleAlpha, Delayed, Ago, RoundedDelay;
    ReadsRounded(Smoothed(end, t), HistoryOf(s, ops, written));
  }

  // ----- the processor object -----

  function Zip(dry: seq<real>, out: seq<real>): seq<Sample>
    requires |dry| == |out|
  {
    seq(|dry|, i requires 0 <= i < |dry| => Sample(dry[i], out[i]))
  }

  // A block in progress: the samples before index are mixed, the rest are as they were.
  ghost predicate Mixing(t: Target, start: State, channels: nat, was: seq<Sample>, s: State, now: seq<real>, index: nat)
    requires channels > 0
  {
    && |now| == |was| && index <= |was| && WholeFrames(index, channels)
    && (s, now[..index]) == FoldFrames(ReverbStep(t), start, channels, was[..index])
    && forall j :: index <= j < |was| ==> now[j] == was[j].out
  }

  lemma MixingStarts(t: Target, start: State, channels: nat, dry: seq<real>, out: seq<real>)
    requires channels > 0 && |dry| == |out|
    ensures Mixing(t, start, channels, Zip(dry, out), start, out, 0)
  {
  }

  lemma MixingEnds(t: Target, start: State, channels: nat, was: seq<Sample>, s: State, now: seq<real>)
    requires channels > 0 && Mixing(t, start, channels, was, s, now, |was|)
    ensures (s, now) == FoldFrames(ReverbStep(t), start, channels, was)
  {
    assert was[..|was|] == was && now[..|was|] == now;
  }

  lemma MixNextFrame(
    t: Target, start: State, channels: nat, was: seq<Sample>, s: State, now: seq<real>, index: nat, after: seq<real>)
    requires channels > 0 && Mixing(t, start, channels, was, s, now, index)
    requires index + channels <= |was| == |after|
    requires after[..index] == now[..index]
    requires after[index..index + channels] == ReverbStep(t)(s, was[index..index + channels]).1
    requires forall j :: index + channels <= j < |after| ==> after[j] == now[j]
    ensures Mixing(t, start, channels, was, ReverbStep(t)(s, was[index..index + channels]).0, after, index + channels)
  {
    assert was[..index] + was[index..index + channels] == was[..index + channels];
    FoldNextFrame(ReverbStep(t), start, channels, was[..index], was[index..index + channels]);
    assert after[..index + channels] == now[..index] + after[index..index + channels];
  }

  class DelayReverbProcessor {
    var initialized: bool
    var bufferSampleRate: nat
    var writeIndex: nat
    var currentWet: real
    var currentFeedback: real
    var currentDelayMs: real
    var currentCutoffHz: real
    var wetHistory: real
    var delayBuffer: seq<real>

    ghost function View(): State
      reads this
    {
      State(initialized, bufferSampleRate, writeIndex, currentWet, currentFeedback, currentDelayMs, currentCutoffHz,
            wetHistory, delayBuffer)
    }

    ghost predicate Valid()
      reads this
    {
      delayBuffer != [] ==> |delayBuffer| >= 2 && writeIndex < |delayBuffer|
    }

    constructor ()
      ensures View() == State(false, 0, 0, 0.0, 0.0, 80.0, MAX_CUTOFF_HZ, 0.0, []) && Valid()
      ensures Tuned(View()) && Line(View(), []) && forall m :: m >= 0.0 ==> Stable(View(), m)
    {
      initialized, bufferSampleRate, writeIndex := false, 0, 0;
      currentWet, currentFeedback, currentDelayMs, currentCutoffHz := 0.0, 0.0, 80.0, MAX_CUTOFF_HZ;
      wetHistory, delayBuffer := 0.0, [];
    }

    method Reset(target: Target)
      requires Valid()
      modifies this
      ensures Valid() && View() == ResetTo(old(View()), target)
    {
      initialized := false;
      currentWet, currentFeedback := ClampUnit(target.wet), ClampFeedback(target.feedback);
      currentDelayMs, currentCutoffHz := ClampDelayMs(target.delayMs), ClampCutoff(target.cutoffHz);
      wetHistory, writeIndex := 0.0, 0;
      delayBuffer := seq(|delayBuffer|, _ => 0.0);
    }

    method PrepareBuffer(rate: nat)
      modifies this
      ensures View() == Resized(old(View()), rate)
    {
      if bufferSampleRate != rate || |delayBuffer| != BufferSize(rate) {
        bufferSampleRate := rate;
        delayBuffer := seq(BufferSize(rate), _ => 0.0);
        writeIndex, wetHistory, initialized := 0, 0.0, false;
      }
    }

    method ProcessBlock(spec: AudioSpec, dry: array<real>, out: array<real>, enabled: bool, target: Target)
      requires Valid() && dry != out && dry.Length == out.Length && WholeFrames(out.Length, Channels(spec))
      modifies this, out
      ensures Valid()
      ensures (View(), out[..]) == BlockResult(old(View()), spec, enabled, target, Zip(dry[..], old(out[..])))
    {
      if out.Length <= 0 {
        assert out[..] == [];
        return;
      }
      PrepareBuffer(SampleRate(spec));
      MixBlock(dry, out, Channels(spec), Desired(enabled, target));
    }

    method MixBlock(dry: array<real>, out: array<real>, channels: nat, t: Target)
      requires Valid() && delayBuffer != [] && dry != out && dry.Length == out.Length
      requires channels > 0 && WholeFrames(out.Length, channels)
      modifies this, out
      ensures Valid()
      ensures (View(), out[..]) == FoldFrames(ReverbStep(t), old(View()), channels, Zip(dry[..], old(out[..])))
    {
      hide Mixing, FoldFrames, WholeFrames, StepFrame, ReverbStep, MixedOut;
      ghost var start, was := View(), Zip(dry[..], out[..]);
      MixingStarts(t, start, channels, dry[..], out[..]);
      var index := 0;
      while index < out.Length
        invariant Valid() && delayBuffer != [] && index <= out.Length && WholeFrames(index, channels)
        invariant Mixing(t, start, channels, was, View(), out[..], index)
        invariant forall j :: index <= j < out.Length ==> was[j] == Sample(dry[j], out[j])
      {
        NextFrameFits(index, out.Length, channels);
        ghost var now, s := out[..], View();
        MixFrame(dry, out, index, channels, t, was[index..index + channels]);
        MixNextFrame(t, start, channels, was, s, now, index, out[..]);
        index := index + channels;
      }
      MixingEnds(t, start, channels, was, View(), out[..]);
    }

    method SmoothParameters(t: Target)
      modifies this
      ensures View() == Smoothed(old(View()), t)
    {
      hide Toward, OnePoleAlpha;
      var smoothing := OnePoleAlpha(bufferSampleRate as real, PARAMETER_SMOOTHING_HZ);
      currentWet := Toward(currentWet, t.wet, smoothing);
      currentFeedback := Toward(currentFeedback, t.feedback, smoothing);
      currentDelayMs := Toward(currentDelayMs, t.delayMs, smoothing);
      currentCutoffHz := Toward(currentCutoffHz, t.cutoffHz, smoothing);
    }

    method MonoInput(dry: array<real>, index: nat, channels: nat, ghost frame: seq<Sample>) returns (mono: real)
      requires 0 < channels == |frame| && index + channels <= dry.Length
      requires forall c :: 0 <= c < channels ==> frame[c].dry == dry[index + c]
      ensures mono == Mono(frame)
    {
      mono := 0.0;
      for c := 0 to channels
        invariant mono == Sum(frame[..c])
      {
        assert frame[..c + 1][..c] == frame[..c];
        mono := mono + dry[index + c];
      }
      assert frame[..channels] == frame;
      mono := mono / channels as real;
    }

    // Read and filter the ring, write the next sample, move on.
    method TurnRing(mono: real, ghost frame: seq<Sample>)
      requires Valid() && delayBuffer != [] && frame != [] && mono == Mono(frame)
      modifies this
      ensures Valid() && delayBuffer != [] && View() == StepFrame(old(View()), frame)
    {
      hide Toward, OnePoleAlpha, DelaySamples, Mono, Times;
      var delaySamples := DelaySamples(currentDelayMs, bufferSampleRate, |delayBuffer|);
      var readIndex := (writeIndex + |delayBuffer| - delaySamples) % |delayBuffer|;
      var delayed := delayBuffer[readIndex];
      if !initialized {
        wetHistory := delayed;
      }
      wetHistory := Toward(wetHistory, delayed, OnePoleAlpha(bufferSampleRate as real, currentCutoffHz));
      delayBuffer := delayBuffer[writeIndex := mono + Times(wetHistory, currentFeedback)];
      writeIndex := (writeIndex + 1) % |delayBuffer|;
      initialized := true;
    }

    method MixInto(out: array<real>, index: nat, channels: nat, wetSample: real, ghost frame: seq<Sample>)
      requires channels == |frame| && index + channels <= out.Length
      requires forall c :: 0 <= c < channels ==> frame[c].out == out[index + c]
      modifies out
      ensures out[index..index + channels] == MixedOut(frame, wetSample)
      ensures forall j :: 0 <= j < index || index + channels <= j < out.Length ==> out[j] == old(out[j])
    {
      for c := 0 to channels
        invariant forall j :: 0 <= j < out.Length && !(index <= j < index + c) ==> out[j] == old(out[j])
        invariant forall j :: index <= j < index + c ==> out[j] == frame[j - index].out + wetSample
      {
        assert frame[c].out == out[index + c];
        out[index + c] := out[index + c] + wetSample;
      }
    }

    // One pass of the loop.
    method MixFrame(dry: array<real>, out: array<real>, index: nat, channels: nat, t: Target, ghost frame: seq<Sample>)
      requires Valid() && delayBuffer != [] && dry != out && dry.Length == out.Length
      requires 0 < channels && index + channels <= out.Length && |frame| == channels
      requires forall c :: 0 <= c < channels ==> frame[c] == Sample(dry[index + c], out[index + c])
      modifies this, out
      ensures Valid() && delayBuffer != []
      ensures (View(), out[index..index + channels]) == ReverbStep(t)(old(View()), frame)
      ensures forall j :: 0 <= j < index || index + channels <= j < out.Length ==> out[j] == old(out[j])
    {
      hide Toward, OnePoleAlpha, Mono, Times, MixedOut, NextWetHistory, Written;
      SmoothParameters(t);
      var mono := MonoInput(dry, index, channels, frame);
      TurnRing(mono, frame);
      MixInto(out, index, channels, Times(wetHistory, currentWet), frame);
    }
  }
}
