/**
 The per-track audio filters, over real samples. Each processor is a fold over frames of
 one sample per channel, with its smoothed parameters as the state.
 */
module AudioFilter {
  import opened Arithmetic

  const PI := 3.14159265358979323846
  const MIN_CUTOFF_HZ := 40.0
  const MAX_CUTOFF_HZ := 20000.0
  const MAX_TRACK_CHANNELS := 8
  const STEREO_PAN_SMOOTHING_HZ := 96.0
  const GAIN_SMOOTHING_HZ := 48.0
  const PARAMETER_SMOOTHING_HZ := 24.0

  // SDL's channel count and sample rate.
  datatype AudioSpec = AudioSpec(channels: int, freq: int)

  function Channels(spec: AudioSpec): (n: nat)
    ensures n > 0
  {
    if spec.channels > 1 then spec.channels else 1
  }

  function SampleRate(spec: AudioSpec): (n: nat)
    ensures n > 0
  {
    if spec.freq > 1 then spec.freq else 1
  }

  function Clamp(x: real, low: real, high: real): real {
    if x < low then low else if high < x then high else x
  }

  function ClampCutoff(hz: real): real { Clamp(hz, MIN_CUTOFF_HZ, MAX_CUTOFF_HZ) }

  function ClampUnit(x: real): real { Clamp(x, 0.0, 1.0) }

  function OnePoleAlpha(sampleRateHz: real, cutoffHz: real): (alpha: real)
    ensures 0.0 < alpha < 1.0
  {
    var rate := if sampleRateHz < 1.0 then 1.0 else sampleRateHz;
    var dt := 1.0 / rate;
    var rc := 1.0 / (2.0 * PI * ClampCutoff(cutoffHz));
    FractionBelowOne(rc, dt);
    dt / (rc + dt)
  }

  lemma FractionBelowOne(rc: real, dt: real)
    requires rc > 0.0 && dt > 0.0
    ensures 0.0 < dt / (rc + dt) < 1.0
  {
  }

  // The product of two samples, by name: proofs use the laws below instead of the operator.
  function Times(a: real, b: real): real { a * b }

  lemma TimesOrder(a: real, b: real, c: real)
    requires a <= b && c >= 0.0
    ensures Times(a, c) <= Times(b, c)
  {
  }

  lemma TimesDistribute(a: real, b: real, c: real)
    ensures Times(a - b, c) == Times(a, c) - Times(b, c)
    ensures Times(a, 1.0 - c) == a - Times(a, c)
  {
  }

  // One smoothing step toward the target.
  function Toward(current: real, target: real, alpha: real): real {
    current + Times(target - current, alpha)
  }

  /** A smoothing step stays between where it is and where it goes. */
  lemma TowardStays(current: real, target: real, alpha: real, low: real, high: real)
    requires low <= current <= high && low <= target <= high && 0.0 <= alpha <= 1.0
    ensures low <= Toward(current, target, alpha) <= high
  {
    hide Times;
    TimesDistribute(target, current, alpha);
    TimesDistribute(current, low, alpha);
    TimesDistribute(low, low, alpha);
    TimesDistribute(high, low, alpha);
    TimesOrder(low, target, alpha);
    TimesOrder(low, current, 1.0 - alpha);
    TimesOrder(target, high, alpha);
    TimesOrder(current, high, 1.0 - alpha);
  }

  // ----- folding a step over whole frames -----

  function FoldFrames<S, A, B>(step: (S, seq<A>) -> (S, seq<B>), s: S, channels: nat, xs: seq<A>): (S, seq<B>)
    requires channels > 0
  {
    if |xs| < channels then (s, [])
    else
      var (s1, out) := step(s, xs[..channels]);
      var (s2, rest) := FoldFrames(step, s1, channels, xs[channels..]);
      (s2, out + rest)
  }

  // n samples are whole frames of the channels.
  predicate WholeFrames(n: nat, channels: nat)
    requires channels > 0
  {
    n == 0 || (n >= channels && WholeFrames(n - channels, channels))
  }

  lemma {:induction false} WholeFramesIsDivisible(n: nat, channels: nat)
    requires channels > 0
    ensures WholeFrames(n, channels) <==> n % channels == 0
  {
    if n >= channels {
      WholeFramesIsDivisible(n - channels, channels);
      OneLess(n, channels);
    }
  }

  lemma {:induction false} NextFrameFits(index: nat, n: nat, channels: nat)
    requires channels > 0 && WholeFrames(index, channels) && WholeFrames(n, channels) && index < n
    ensures index + channels <= n && WholeFrames(index + channels, channels)
  {
    if index > 0 { NextFrameFits(index - channels, n - channels, channels); }
  }

  /** Block splitting: one block over a concatenation is two blocks, when the first is whole frames. */
  lemma {:induction false} FoldSplit<S, A, B>(
    step: (S, seq<A>) -> (S, seq<B>), s: S, channels: nat, a: seq<A>, b: seq<A>)
    requires channels > 0 && WholeFrames(|a|, channels)
    ensures var (s1, o1) := FoldFrames(step, s, channels, a);
            var (s2, o2) := FoldFrames(step, s1, channels, b);
            FoldFrames(step, s, channels, a + b) == (s2, o1 + o2)
    decreases |a|
  {
    if a == [] {
      assert a + b == b;
      var o2 := FoldFrames(step, s, channels, b).1;
      assert [] + o2 == o2;
    } else {
      var (s1, out) := step(s, a[..channels]);
      assert (a + b)[..channels] == a[..channels];
      assert (a + b)[channels..] == a[channels..] + b;
      FoldSplit(step, s1, channels, a[channels..], b);
      var (sa, oa) := FoldFrames(step, s1, channels, a[channels..]);
      var (sb, ob) := FoldFrames(step, sa, channels, b);
      assert out + (oa + ob) == (out + oa) + ob;
    }
  }

  lemma FoldNextFrame<S, A, B>(step: (S, seq<A>) -> (S, seq<B>), s: S, channels: nat, a: seq<A>, frame: seq<A>)
    requires channels > 0 && WholeFrames(|a|, channels) && |frame| == channels
    ensures var (s1, o1) := FoldFrames(step, s, channels, a);
            var (s2, o2) := step(s1, frame);
            FoldFrames(step, s, channels, a + frame) == (s2, o1 + o2)
  {
    FoldSplit(step, s, channels, a, frame);
    var s1 := FoldFrames(step, s, channels, a).0;
    assert frame[..channels] == frame && frame[channels..] == [];
    assert FoldFrames(step, step(s1, frame).0, channels, []) == (step(s1, frame).0, []);
    assert step(s1, frame).1 + [] == step(s1, frame).1;
  }

  // A block in progress: the samples before index are folded, the rest are as they were.
  ghost predicate Underway<S>(
    step: (S, seq<real>) -> (S, seq<real>), start: S, channels: nat, was: seq<real>, s: S, now: seq<real>, index: nat)
    requires channels > 0
  {
    && |now| == |was| && index <= |was| && WholeFrames(index, channels)
    && (s, now[..index]) == FoldFrames(step, start, channels, was[..index])
    && now[index..] == was[index..]
  }

  lemma BlockStarts<S>(step: (S, seq<real>) -> (S, seq<real>), start: S, channels: nat, was: seq<real>)
    requires channels > 0
    ensures Underway(step, start, channels, was, start, was, 0)
  {
  }

  lemma BlockEnds<S>(
    step: (S, seq<real>) -> (S, seq<real>), start: S, channels: nat, was: seq<real>, s: S, now: seq<real>)
    requires channels > 0 && Underway(step, start, channels, was, s, now, |was|)
    ensures (s, now) == FoldFrames(step, start, channels, was)
  {
    assert was[..|was|] == was && now[..|was|] == now;
  }

  lemma NextFrame<S>(
    step: (S, seq<real>) -> (S, seq<real>), start: S, channels: nat, was: seq<real>, s: S, now: seq<real>, index: nat,
    after: seq<real>)
    requires channels > 0 && Underway(step, start, channels, was, s, now, index)
    requires index + channels <= |now| == |after|
    requires after[..index] == now[..index]
    requires after[index..index + channels] == step(s, now[index..index + channels]).1
    requires after[index + channels..] == now[index + channels..]
    ensures Underway(step, start, channels, was, step(s, now[index..index + channels]).0, after, index + channels)
  {
    var frame := was[index..index + channels];
    assert frame == now[index..index + channels];
    assert was[..index] + frame == was[..index + channels];
    FoldNextFrame(step, start, channels, was[..index], frame);
    assert after[..index + channels] == now[..index] + after[index..index + channels];
  }

  // ----- gain -----

  function Scaled(frame: seq<real>, gain: real): seq<real> {
    seq(|frame|, i requires 0 <= i < |frame| => Times(frame[i], gain))
  }

  function GainStep(target: real, alpha: real): (real, seq<real>) -> (real, seq<real>) {
    (gain: real, frame: seq<real>) =>
      var g := Toward(gain, target, alpha);
      (g, Scaled(frame, g))
  }

  // The gain after n smoothing steps.
  function GainAfter(gain: real, target: real, alpha: real, n: nat): real
    decreases n
  {
    if n == 0 then gain else GainAfter(Toward(gain, target, alpha), target, alpha, n - 1)
  }

  function Power(x: real, n: nat): real
    decreases n
  {
    if n == 0 then 1.0 else x * Power(x, n - 1)
  }

  /** It nears the target geometrically: what is missing shrinks by the same factor with every frame. */
  lemma {:induction false} GainNears(gain: real, target: real, alpha: real, n: nat)
    ensures target - GainAfter(gain, target, alpha, n) == (target - gain) * Power(1.0 - alpha, n)
    decreases n
  {
    if n > 0 {
      var next := Toward(gain, target, alpha);
      GainNears(next, target, alpha, n - 1);
      OneNearer(gain, target, alpha);
      hide Toward;
      Regroup(target - gain, 1.0 - alpha, Power(1.0 - alpha, n - 1));
    }
  }

  lemma OneNearer(gain: real, target: real, alpha: real)
    ensures target - Toward(gain, target, alpha) == (target - gain) * (1.0 - alpha)
  {
  }

  lemma Regroup(a: real, b: real, c: real)
    ensures (a * b) * c == a * (b * c)
  {
  }

  // The frame of a sample.
  function FrameOf(i: nat, channels: nat): nat
    requires channels > 0
  {
    if i < channels then 0 else 1 + FrameOf(i - channels, channels)
  }

  lemma {:induction false} FrameOfIs(i: nat, channels: nat)
    requires channels > 0
    ensures FrameOf(i, channels) == i / channels
  {
    if i < channels {
      Division(i, channels, 0, i);
    } else {
      FrameOfIs(i - channels, channels);
      OneLess(i, channels);
    }
  }

  /** Each sample of a block is scaled by the gain of its frame: one smoothing step for every frame up to it. */
  lemma {:induction false} GainOverBlock(gain: real, target: real, alpha: real, channels: nat, xs: seq<real>, i: nat)
    requires channels > 0 && WholeFrames(|xs|, channels) && i < |xs|
    ensures var (end, out) := FoldFrames(GainStep(target, alpha), gain, channels, xs);
            && |out| == |xs| && out[i] == xs[i] * GainAfter(gain, target, alpha, FrameOf(i, channels) + 1)
            && end == GainAfter(gain, target, alpha, FrameOf(|xs|, channels))
    decreases |xs|
  {
    var next, rest := Toward(gain, target, alpha), xs[channels..];
    GainStepIs(gain, target, alpha, channels, xs);
    FrameOfNext(i, channels);
    FrameOfNext(|xs|, channels);
    if rest == [] {
      hide *;
    } else {
      assert WholeFrames(|rest|, channels);
      hide *;
      GainOverBlock(next, target, alpha, channels, rest, if i < channels then 0 else i - channels);
    }
  }

  lemma FrameOfNext(i: nat, channels: nat)
    requires channels > 0
    ensures FrameOf(i, channels) == (if i < channels then 0 else 1 + FrameOf(i - channels, channels))
    ensures FrameOf(0, channels) == 0
  {
  }

  // The first frame of a block, and the rest of it.
  lemma GainStepIs(gain: real, target: real, alpha: real, channels: nat, xs: seq<real>)
    requires channels > 0 && |xs| >= channels
    ensures var next, rest := Toward(gain, target, alpha), xs[channels..];
            var (end, out) := FoldFrames(GainStep(target, alpha), gain, channels, xs);
            var (last, more) := FoldFrames(GainStep(target, alpha), next, channels, rest);
            && end == last && |out| == channels + |more|
            && (forall i :: 0 <= i < channels ==> out[i] == xs[i] * next)
            && (forall i :: channels <= i < |out| ==> out[i] == more[i - channels])
            && (rest == [] ==> last == next && more == [])
    ensures forall n: nat ::
              GainAfter(gain, target, alpha, n + 1) == GainAfter(Toward(gain, target, alpha), target, alpha, n)
    ensures GainAfter(Toward(gain, target, alpha), target, alpha, 0) == Toward(gain, target, alpha)
  {
    hide Toward, FoldFrames;
    FoldOnce(GainStep(target, alpha), gain, channels, xs);
    var rest := FoldFrames(GainStep(target, alpha), Toward(gain, target, alpha), channels, xs[channels..]).1;
    assert forall i :: 0 <= i < channels ==> Scaled(xs[..channels], Toward(gain, target, alpha))[i] ==
                                             xs[i] * Toward(gain, target, alpha);
    FoldNone(GainStep(target, alpha), Toward(gain, target, alpha), channels);
  }

  lemma FoldOnce<S, A, B>(step: (S, seq<A>) -> (S, seq<B>), s: S, channels: nat, xs: seq<A>)
    requires channels > 0 && |xs| >= channels
    ensures var (s1, out) := step(s, xs[..channels]);
            var (s2, rest) := FoldFrames(step, s1, channels, xs[channels..]);
            FoldFrames(step, s, channels, xs) == (s2, out + rest)
  {
  }

  lemma FoldNone<S, A, B>(step: (S, seq<A>) -> (S, seq<B>), s: S, channels: nat)
    requires channels > 0
    ensures FoldFrames(step, s, channels, []) == (s, [])
  {
  }

  class GainProcessor {
    var initialized: bool
    var currentGain: real

    constructor ()
      ensures currentGain == 1.0 && !initialized
    {
      initialized, currentGain := false, 1.0;
    }

    method Reset(gain: real)
      modifies this
      ensures !initialized && currentGain == ClampUnit(gain)
    {
      initialized := false;
      currentGain := ClampUnit(gain);
    }

    method ProcessBlock(spec: AudioSpec, pcm: array<real>, targetGain: real)
      requires WholeFrames(pcm.Length, Channels(spec))
      modifies this, pcm
      ensures (currentGain, pcm[..]) ==
              FoldFrames(GainStep(ClampUnit(targetGain), OnePoleAlpha(SampleRate(spec) as real, GAIN_SMOOTHING_HZ)),
                         old(currentGain), Channels(spec), old(pcm[..]))
      ensures initialized == (old(initialized) || pcm.Length > 0)
    {
      if pcm.Length <= 0 {
        return;
      }
      var channels := Channels(spec);
      var desired := ClampUnit(targetGain);
      var alpha := OnePoleAlpha(SampleRate(spec) as real, GAIN_SMOOTHING_HZ);
      hide OnePoleAlpha, ClampUnit, Channels, Underway, FoldFrames, WholeFrames, Toward, Scaled;
      ghost var step := GainStep(desired, alpha);
      ghost var was := pcm[..];
      BlockStarts(step, currentGain, channels, was);
      var index := 0;
      while index < pcm.Length
        invariant index <= pcm.Length && WholeFrames(index, channels) && initialized == old(initialized)
        invariant Underway(step, old(currentGain), channels, was, currentGain, pcm[..], index)
      {
        NextFrameFits(index, pcm.Length, channels);
        ghost var now, gain := pcm[..], currentGain;
        currentGain := Toward(currentGain, desired, alpha);
        ScaleSamples(pcm, index, channels, currentGain);
        NextFrame(step, old(currentGain), channels, was, gain, now, index, pcm[..]);
        index := index + channels;
      }
      initialized := true;
      BlockEnds(step, old(currentGain), channels, was, currentGain, pcm[..]);
    }

    method ScaleSamples(pcm: array<real>, index: nat, channels: nat, gain: real)
      requires index + channels <= pcm.Length
      modifies pcm
      ensures pcm[..index] == old(pcm[..index])
      ensures pcm[index..index + channels] == Scaled(old(pcm[index..index + channels]), gain)
      ensures pcm[index + channels..] == old(pcm[index + channels..])
    {
      hide Times;
      ghost var was := pcm[..];
      for at := index to index + channels
        invariant forall j :: index <= j < at ==> pcm[j] == Times(was[j], gain)
        invariant forall j :: 0 <= j < index || at <= j < pcm.Length ==> pcm[j] == was[j]
      {
        pcm[at] := Times(pcm[at], gain);
      }
      assert pcm[index..index + channels] == Scaled(was[index..index + channels], gain);
    }
  }

  // ----- stereo pan -----

  datatype Pan = Pan(left: real, right: real)

  function Panned(frame: seq<real>, pan: Pan): seq<real> {
    if |frame| == 0 then frame
    else if |frame| == 1 then [Times(frame[0], (pan.left + pan.right) / 2.0)]
    else [Times(frame[0], pan.left), Times(frame[1], pan.right)] + frame[2..]
  }

  function PanStep(target: Pan, alpha: real): (Pan, seq<real>) -> (Pan, seq<real>) {
    (pan: Pan, frame: seq<real>) =>
      var p := Pan(Toward(pan.left, target.left, alpha), Toward(pan.right, target.right, alpha));
      (p, Panned(frame, p))
  }

  /** The first two channels have a gain each, a single channel has their mean, and any more are left alone. */
  lemma PannedIs(frame: seq<real>, pan: Pan, c: nat)
    requires c < |frame|
    ensures |Panned(frame, pan)| == |frame|
    ensures Panned(frame, pan)[c] ==
            if |frame| == 1 then frame[0] * ((pan.left + pan.right) / 2.0)
            else if c == 0 then frame[0] * pan.left else if c == 1 then frame[1] * pan.right else frame[c]
    ensures pan == Pan(1.0, 1.0) ==> Panned(frame, pan)[c] == frame[c]
  {
  }

  class StereoPanProcessor {
    var initialized: bool
    var currentLeft: real
    var currentRight: real

    constructor ()
      ensures currentLeft == 1.0 && currentRight == 1.0 && !initialized
    {
      initialized, currentLeft, currentRight := false, 1.0, 1.0;
    }

    method Reset(left: real, right: real)
      modifies this
      ensures !initialized && currentLeft == ClampUnit(left) && currentRight == ClampUnit(right)
    {
      initialized := false;
      currentLeft, currentRight := ClampUnit(left), ClampUnit(right);
    }

    method ProcessBlock(spec: AudioSpec, pcm: array<real>, targetLeft: real, targetRight: real)
      requires WholeFrames(pcm.Length, Channels(spec))
      modifies this, pcm
      ensures (Pan(currentLeft, currentRight), pcm[..]) ==
              FoldFrames(PanStep(Pan(ClampUnit(targetLeft), ClampUnit(targetRight)),
                                 OnePoleAlpha(SampleRate(spec) as real, STEREO_PAN_SMOOTHING_HZ)),
                         old(Pan(currentLeft, currentRight)), Channels(spec), old(pcm[..]))
      ensures initialized == (old(initialized) || pcm.Length > 0)
    {
      if pcm.Length <= 0 {
        return;
      }
      var channels := Channels(spec);
      var desired := Pan(ClampUnit(targetLeft), ClampUnit(targetRight));
      var alpha := OnePoleAlpha(SampleRate(spec) as real, STEREO_PAN_SMOOTHING_HZ);
      hide OnePoleAlpha, ClampUnit, Channels, Underway, FoldFrames, WholeFrames, Toward, Panned;
      ghost var step := PanStep(desired, alpha);
      ghost var was, start := pcm[..], Pan(currentLeft, currentRight);
      BlockStarts(step, start, channels, was);
      var index := 0;
      while index < pcm.Length
        invariant index <= pcm.Length && WholeFrames(index, channels) && initialized == old(initialized)
        invariant Underway(step, start, channels, was, Pan(currentLeft, currentRight), pcm[..], index)
      {
        NextFrameFits(index, pcm.Length, channels);
        ghost var now, pan := pcm[..], Pan(currentLeft, currentRight);
        currentLeft := Toward(currentLeft, desired.left, alpha);
        currentRight := Toward(currentRight, desired.right, alpha);
        PanFrame(pcm, index, channels);
        NextFrame(step, start, channels, was, pan, now, index, pcm[..]);
        index := index + channels;
      }
      initialized := true;
      BlockEnds(step, start, channels, was, Pan(currentLeft, currentRight), pcm[..]);
    }

    method PanFrame(pcm: array<real>, index: nat, channels: nat)
      requires 0 < channels && index + channels <= pcm.Length
      modifies pcm
      ensures pcm[..index] == old(pcm[..index])
      ensures pcm[index..index + channels] == Panned(old(pcm[index..index + channels]), Pan(currentLeft, currentRight))
      ensures pcm[index + channels..] == old(pcm[index + channels..])
    {
      hide Times;
      if channels == 1 {
        pcm[index] := Times(pcm[index], (currentLeft + currentRight) / 2.0);
        return;
      }
      pcm[index] := Times(pcm[index], currentLeft);
      pcm[index + 1] := Times(pcm[index + 1], currentRight);
    }
  }

  // ----- low pass -----

  datatype LowPass = LowPass(cutoffHz: real, wet: real, history: seq<real>, initialized: bool)

  datatype LowPassTarget = LowPassTarget(cutoffHz: real, wet: real, sampleRateHz: real)

  function Filtered(frame: seq<real>): nat {
    if |frame| < MAX_TRACK_CHANNELS then |frame| else MAX_TRACK_CHANNELS
  }

  // The filter memory after one frame; the first frame after a reset starts from itself.
  function NextHistory(s: LowPass, frame: seq<real>, alpha: real): seq<real>
    requires |s.history| == MAX_TRACK_CHANNELS
  {
    seq(MAX_TRACK_CHANNELS, c requires 0 <= c < MAX_TRACK_CHANNELS =>
      if c < |frame| then Toward(if s.initialized then s.history[c] else frame[c], frame[c], alpha) else s.history[c])
  }

  function Mixed(history: seq<real>, frame: seq<real>, wet: real): seq<real>
    requires |history| == MAX_TRACK_CHANNELS
  {
    seq(|frame|, c requires 0 <= c < |frame| =>
      if c < MAX_TRACK_CHANNELS then Toward(frame[c], history[c], wet) else frame[c])
  }

  function LowPassStep(t: LowPassTarget): (LowPass, seq<real>) -> (LowPass, seq<real>) {
    (s: LowPass, frame: seq<real>) =>
      if |s.history| != MAX_TRACK_CHANNELS then (s, frame)
      else
        var smoothing := OnePoleAlpha(t.sampleRateHz, PARAMETER_SMOOTHING_HZ);
        var cutoff := Toward(s.cutoffHz, t.cutoffHz, smoothing);
        var wet := Toward(s.wet, t.wet, smoothing);
        var history := NextHistory(s, frame, OnePoleAlpha(t.sampleRateHz, cutoff));
        (LowPass(cutoff, wet, history, true), Mixed(history, frame, wet))
  }

  ghost predicate Bounded(xs: seq<real>, m: real) {
    forall i :: 0 <= i < |xs| ==> -m <= xs[i] <= m
  }

  /** The low pass never amplifies: memory and output stay within the input's bound. */
  lemma LowPassBounded(t: LowPassTarget, s: LowPass, frame: seq<real>, m: real)
    requires |s.history| == MAX_TRACK_CHANNELS && 0.0 <= s.wet <= 1.0 && 0.0 <= t.wet <= 1.0
    requires Bounded(s.history, m) && Bounded(frame, m)
    ensures var (s1, out) := LowPassStep(t)(s, frame);
            |s1.history| == MAX_TRACK_CHANNELS && 0.0 <= s1.wet <= 1.0 && Bounded(s1.history, m) && Bounded(out, m) &&
            |out| == |frame|
  {
    var smoothing := OnePoleAlpha(t.sampleRateHz, PARAMETER_SMOOTHING_HZ);
    TowardStays(s.wet, t.wet, smoothing, 0.0, 1.0);
    var cutoff := Toward(s.cutoffHz, t.cutoffHz, smoothing);
    var wet := Toward(s.wet, t.wet, smoothing);
    var alpha := OnePoleAlpha(t.sampleRateHz, cutoff);
    var history := NextHistory(s, frame, alpha);
    hide Toward, OnePoleAlpha;
    forall c | 0 <= c < |history| ensures -m <= history[c] <= m {
      if c < |frame| { TowardStays(if s.initialized then s.history[c] else frame[c], frame[c], alpha, -m, m); }
    }
    forall c | 0 <= c < |frame| ensures -m <= Mixed(history, frame, wet)[c] <= m {
      if c < MAX_TRACK_CHANNELS { TowardStays(frame[c], history[c], wet, -m, m); }
    }
  }

  /**
   One frame of the low pass: the filtered channels near their input from the memory, or start from it
   after a reset, and are mixed with it; the others are left alone.
   */
  lemma LowPassIs(t: LowPassTarget, s: LowPass, frame: seq<real>, c: nat)
    requires |s.history| == MAX_TRACK_CHANNELS && c < |frame|
    ensures var (s1, out) := LowPassStep(t)(s, frame);
            && |out| == |frame| && |s1.history| == MAX_TRACK_CHANNELS && s1.initialized
            && (c >= MAX_TRACK_CHANNELS ==> out[c] == frame[c])
            && (c < MAX_TRACK_CHANNELS ==>
                  var memory := if s.initialized then s.history[c] else frame[c];
                  && s1.history[c] == memory + (frame[c] - memory) * OnePoleAlpha(t.sampleRateHz, s1.cutoffHz)
                  && out[c] == frame[c] + (s1.history[c] - frame[c]) * s1.wet)
    ensures var alpha := OnePoleAlpha(t.sampleRateHz, PARAMETER_SMOOTHING_HZ);
            var s1 := LowPassStep(t)(s, frame).0;
            s1.wet == s.wet + (t.wet - s.wet) * alpha && s1.cutoffHz == s.cutoffHz + (t.cutoffHz - s.cutoffHz) * alpha
  {
    hide OnePoleAlpha;
  }

  class LowPassProcessor {
    var initialized: bool
    var currentCutoffHz: real
    var currentWet: real
    const history: array<real>

    constructor ()
      ensures fresh(history) && history.Length == MAX_TRACK_CHANNELS && !initialized && currentWet == 0.0
    {
      initialized, currentCutoffHz, currentWet := false, MAX_CUTOFF_HZ, 0.0;
      history := new real[MAX_TRACK_CHANNELS](_ => 0.0);
    }

    ghost function View(): LowPass
      reads this, history
    {
      LowPass(currentCutoffHz, currentWet, history[..], initialized)
    }

    method Reset(cutoffHz: real, wet: real)
      modifies this, history
      ensures View() == LowPass(ClampCutoff(cutoffHz), ClampUnit(wet), seq(history.Length, _ => 0.0), false)
    {
      initialized := false;
      currentCutoffHz, currentWet := ClampCutoff(cutoffHz), ClampUnit(wet);
      for c := 0 to history.Length
        invariant forall j :: 0 <= j < c ==> history[j] == 0.0
        invariant !initialized && currentCutoffHz == ClampCutoff(cutoffHz) && currentWet == ClampUnit(wet)
      {
        history[c] := 0.0;
      }
    }

    method ProcessBlock(spec: AudioSpec, pcm: array<real>, enabled: bool, targetCutoffHz: real, targetWet: real)
      requires WholeFrames(pcm.Length, Channels(spec)) && history.Length == MAX_TRACK_CHANNELS && pcm != history
      modifies this, history, pcm
      ensures (View(), pcm[..]) ==
              var wet := if enabled then ClampUnit(targetWet) else 0.0;
              FoldFrames(LowPassStep(LowPassTarget(ClampCutoff(targetCutoffHz), wet, SampleRate(spec) as real)),
                         old(View()), Channels(spec), old(pcm[..]))
    {
      if pcm.Length <= 0 {
        return;
      }
      var channels := Channels(spec);
      var target := LowPassTarget(ClampCutoff(targetCutoffHz), if enabled then ClampUnit(targetWet) else 0.0,
                                  SampleRate(spec) as real);
      var smoothing := OnePoleAlpha(target.sampleRateHz, PARAMETER_SMOOTHING_HZ);
      hide OnePoleAlpha, ClampUnit, ClampCutoff, Channels, Underway, FoldFrames, WholeFrames, Toward, NextHistory,
           Mixed;
      ghost var step := LowPassStep(target);
      ghost var was, start := pcm[..], View();
      BlockStarts(step, start, channels, was);
      var index := 0;
      while index < pcm.Length
        invariant index <= pcm.Length && WholeFrames(index, channels)
        invariant Underway(step, start, channels, was, View(), pcm[..], index)
      {
        NextFrameFits(index, pcm.Length, channels);
        ghost var now, s := pcm[..], View();
        currentCutoffHz := Toward(currentCutoffHz, target.cutoffHz, smoothing);
        currentWet := Toward(currentWet, target.wet, smoothing);
        FilterFrame(pcm, index, channels, OnePoleAlpha(target.sampleRateHz, currentCutoffHz));
        initialized := true;
        NextHistoryIgnoresParameters(s, View().(initialized := s.initialized, history := s.history),
                                     now[index..index + channels], OnePoleAlpha(target.sampleRateHz, currentCutoffHz));
        NextFrame(step, start, channels, was, s, now, index, pcm[..]);
        index := index + channels;
      }
      BlockEnds(step, start, channels, was, View(), pcm[..]);
    }

    method FilterFrame(pcm: array<real>, index: nat, channels: nat, alpha: real)
      requires 0 < channels && index + channels <= pcm.Length && history.Length == MAX_TRACK_CHANNELS && pcm != history
      modifies history, pcm
      ensures history[..] == NextHistory(old(View()), old(pcm[index..index + channels]), alpha)
      ensures pcm[..index] == old(pcm[..index])
      ensures pcm[index..index + channels] == Mixed(history[..], old(pcm[index..index + channels]), currentWet)
      ensures pcm[index + channels..] == old(pcm[index + channels..])
    {
      hide Toward, NextHistory, Mixed;
      var processed := if channels < MAX_TRACK_CHANNELS then channels else MAX_TRACK_CHANNELS;
      ghost var was, before, start := pcm[..], history[..], View();
      for c := 0 to processed
        invariant forall j :: 0 <= j < pcm.Length && !(index <= j < index + c) ==> pcm[j] == was[j]
        invariant forall j :: index <= j < index + c ==> pcm[j] == Toward(was[j], history[j - index], currentWet)
        invariant forall j :: 0 <= j < c ==>
                    history[j] == Toward(if initialized then before[j] else was[index + j], was[index + j], alpha)
        invariant forall j :: c <= j < history.Length ==> history[j] == before[j]
      {
        var input := pcm[index + c];
        if !initialized {
          history[c] := input;
        }
        history[c] := Toward(history[c], input, alpha);
        pcm[index + c] := Toward(input, history[c], currentWet);
      }
      assert pcm[..index] == was[..index] && pcm[index + channels..] == was[index + channels..];
      FrameFiltered(start, was[index..index + channels], alpha, currentWet, history[..], pcm[index..index + channels]);
    }
  }

  // Sample by sample is the frame.
  lemma FrameFiltered(s: LowPass, frame: seq<real>, alpha: real, wet: real, history: seq<real>, after: seq<real>)
    requires |s.history| == |history| == MAX_TRACK_CHANNELS && |after| == |frame|
    requires forall c :: 0 <= c < |history| && c < |frame| ==>
               history[c] == Toward(if s.initialized then s.history[c] else frame[c], frame[c], alpha)
    requires forall c :: |frame| <= c < |history| ==> history[c] == s.history[c]
    requires forall c :: 0 <= c < |frame| ==>
               after[c] == if c < MAX_TRACK_CHANNELS then Toward(frame[c], history[c], wet) else frame[c]
    ensures history == NextHistory(s, frame, alpha) && after == Mixed(history, frame, wet)
  {
    hide Toward;
  }

  lemma NextHistoryIgnoresParameters(a: LowPass, b: LowPass, frame: seq<real>, alpha: real)
    requires |a.history| == MAX_TRACK_CHANNELS && a.history == b.history && a.initialized == b.initialized
    ensures NextHistory(a, frame, alpha) == NextHistory(b, frame, alpha)
  {
  }
}
