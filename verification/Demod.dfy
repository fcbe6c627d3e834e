/** The paging FM demodulator: however the sample stream is cut into blocks, the carried state makes the
    blocks' outputs join up to the output of one call on the whole stream.

    Samples are exact reals; the arc tangent is a parameter.  The oscillator is off (no frequency offset)
    and so is its automatic correction. */
module Demod {
  import opened ComplexNumbers

  // ---- one-shot filtering ----

  /** A filter: its taps, the silent sample, and acc + x * h on samples. */
  datatype Kernel<!T> = Kernel(taps: seq<real>, zero: T, mac: (T, T, real) -> T) {
    predicate Valid() {
      |taps| > 0
    }
  }

  /** The weighted sum of the first n samples of a window. */
  function Dot<T>(k: Kernel<T>, window: seq<T>, n: nat): T
    requires n <= |window| && n <= |k.taps|
  {
    if n == 0 then k.zero else k.mac(Dot(k, window, n - 1), window[n - 1], k.taps[n - 1])
  }

  /** x after the silence the filter starts from. */
  function Padded<T>(k: Kernel<T>, x: seq<T>): (r: seq<T>)
    requires k.Valid()
    ensures |r| == |k.taps| - 1 + |x|
  {
    seq(|k.taps| - 1, _ => k.zero) + x
  }

  /** The filter's output at sample i of x. */
  function FilteredAt<T>(k: Kernel<T>, x: seq<T>, i: nat): T
    requires k.Valid() && i < |x|
  {
    Dot(k, Padded(k, x)[i..i + |k.taps|], |k.taps|)
  }

  /** The filter's outputs at samples i, i + decim, i + 2 * decim, ... of x. */
  function Filtered<T>(k: Kernel<T>, x: seq<T>, decim: nat, i: nat): seq<T>
    requires k.Valid() && decim > 0
    decreases |x| - i
  {
    if i >= |x| then [] else [FilteredAt(k, x, i)] + Filtered(k, x, decim, i + decim)
  }

  /** The first of i, i + decim, ... that is not below n. */
  function NextIndex(n: nat, decim: nat, i: nat): (r: nat)
    requires decim > 0
    ensures n <= r && i <= r
    decreases n - i
  {
    if i >= n then i else NextIndex(n, decim, i + decim)
  }

  /** The samples a filter still needs after x. */
  function History<T>(k: Kernel<T>, x: seq<T>): (r: seq<T>)
    requires k.Valid()
    ensures |r| == |k.taps| - 1
  {
    Padded(k, x)[|x|..]
  }

  lemma {:induction false} FilteredSplit<T>(k: Kernel<T>, a: seq<T>, b: seq<T>, decim: nat, i: nat)
    requires k.Valid() && decim > 0
    ensures Filtered(k, a + b, decim, i) == Filtered(k, a, decim, i) + Filtered(k, a + b, decim, NextIndex(|a|, decim, i))
    decreases |a| - i
  {
    if i < |a| {
      var m := |k.taps|;
      assert Padded(k, a + b) == Padded(k, a) + b;
      assert Padded(k, a + b)[i..i + m] == Padded(k, a)[i..i + m];
      FilteredSplit(k, a, b, decim, i + decim);
    }
  }

  lemma {:induction false} NextIndexSplit(m: nat, n: nat, decim: nat, i: nat)
    requires decim > 0 && m <= n
    ensures NextIndex(n, decim, NextIndex(m, decim, i)) == NextIndex(n, decim, i)
    decreases m - i
  {
    if i < m {
      NextIndexSplit(m, n, decim, i + decim);
    }
  }

  lemma {:induction false} NextIndexShift(n: nat, decim: nat, i: nat, s: nat)
    requires decim > 0
    ensures NextIndex(n + s, decim, i + s) == NextIndex(n, decim, i) + s
    decreases n - i
  {
    if i < n {
      NextIndexShift(n, decim, i + decim, s);
    }
  }

  // ---- filtering one block ----

  /** The outputs of a block loop over buf = history + block, from index i of buf. */
  function BlockOutputs<T>(k: Kernel<T>, buf: seq<T>, decim: nat, i: nat): seq<T>
    requires k.Valid() && decim > 0 && |k.taps| - 1 <= i
    decreases |buf| - i
  {
    if i >= |buf| then []
    else [Dot(k, buf[i + 1 - |k.taps|..i + 1], |k.taps|)] + BlockOutputs(k, buf, decim, i + decim)
  }

  lemma BufferIsSuffix<T>(k: Kernel<T>, seen: seq<T>, block: seq<T>)
    requires k.Valid()
    ensures History(k, seen) + block == Padded(k, seen + block)[|seen|..]
    ensures History(k, seen + block) == (History(k, seen) + block)[|block|..]
  {
    assert Padded(k, seen + block) == Padded(k, seen) + block;
  }

  /** The block loop computes exactly the one-shot outputs that fall into the block. */
  lemma {:induction false} BlockOutputsAreFiltered<T>(k: Kernel<T>, seen: seq<T>, block: seq<T>, decim: nat, j: nat)
    requires k.Valid() && decim > 0
    ensures BlockOutputs(k, History(k, seen) + block, decim, |k.taps| - 1 + j)
         == Filtered(k, seen + block, decim, |seen| + j)
    decreases |block| - j
  {
    if j < |block| {
      var x, m, buf := Padded(k, seen + block), |k.taps|, History(k, seen) + block;
      BufferIsSuffix(k, seen, block);
      assert buf[j..j + m] == x[|seen| + j..|seen| + j + m];
      BlockOutputsAreFiltered(k, seen, block, decim, j + decim);
    }
  }

  lemma Rebase(seen: nat, block: nat, hist: nat, decim: nat, phase: nat)
    requires decim > 0
    ensures NextIndex(hist + block, decim, hist + phase) + seen == NextIndex(seen + block, decim, seen + phase) + hist
  {
    NextIndexShift(block, decim, phase, hist);
    NextIndexShift(block, decim, phase, seen);
  }

  /** One block carries the one-shot outputs, the history and the decimation phase on from seen to seen + block. */
  lemma BlockStep<T>(k: Kernel<T>, seen: seq<T>, block: seq<T>, decim: nat, phase: nat)
    requires k.Valid() && decim > 0
    requires |seen| + phase == NextIndex(|seen|, decim, 0)
    ensures var buf, start := History(k, seen) + block, |k.taps| - 1 + phase;
            && Filtered(k, seen + block, decim, 0) == Filtered(k, seen, decim, 0) + BlockOutputs(k, buf, decim, start)
            && History(k, seen + block) == buf[|block|..]
            && |seen + block| + NextIndex(|buf|, decim, start) - |buf| == NextIndex(|seen + block|, decim, 0)
  {
    hide Filtered, BlockOutputs, History, NextIndex;
    FilteredSplit(k, seen, block, decim, 0);
    BlockOutputsAreFiltered(k, seen, block, decim, phase);
    BufferIsSuffix(k, seen, block);
    NextIndexSplit(|seen|, |seen + block|, decim, 0);
    Rebase(|seen|, |block|, |k.taps| - 1, decim, phase);
  }

  /** The convolution loop both filters run. */
  method FilterBlock<T>(k: Kernel<T>, buf: seq<T>, decim: nat, start: nat) returns (out: seq<T>, i: nat)
    requires k.Valid() && decim > 0 && |k.taps| - 1 <= start
    ensures out == BlockOutputs(k, buf, decim, start)
    ensures i == NextIndex(|buf|, decim, start)
  {
    i, out := start, [];
    var taps := |k.taps|;
    while i < |buf|
      invariant start <= i
      invariant out + BlockOutputs(k, buf, decim, i) == BlockOutputs(k, buf, decim, start)
      invariant NextIndex(|buf|, decim, i) == NextIndex(|buf|, decim, start)
      decreases |buf| - i
    {
      var x := buf[i + 1 - taps..i + 1];
      var acc := k.zero;
      for t := 0 to taps
        invariant acc == Dot(k, x, t)
      {
        acc := k.mac(acc, x[t], k.taps[t]);
      }
      out := out + [acc];
      i := i + decim;
    }
  }

  /** Output k sits at sample k * decim, and the grid stops at the stream's end. */
  lemma {:induction false} FilteredGrid<T>(k: Kernel<T>, x: seq<T>, decim: nat, i: nat, n: nat)
    requires k.Valid() && decim > 0
    ensures n < |Filtered(k, x, decim, i)| <==> i + n * decim < |x|
    ensures i + n * decim < |x| ==> Filtered(k, x, decim, i)[n] == FilteredAt(k, x, i + n * decim)
    decreases n
  {
    hide *;
    FilteredFirst(k, x, decim, i);
    if n == 0 {
      assert n * decim == 0;
    } else {
      OneStepOn(i, n, decim);
      FilteredGrid(k, x, decim, i + decim, n - 1);
    }
  }

  lemma FilteredFirst<T>(k: Kernel<T>, x: seq<T>, decim: nat, i: nat)
    requires k.Valid() && decim > 0
    ensures i >= |x| ==> Filtered(k, x, decim, i) == []
    ensures i < |x| ==> Filtered(k, x, decim, i) == [FilteredAt(k, x, i)] + Filtered(k, x, decim, i + decim)
  {
  }

  lemma OneStepOn(i: nat, n: nat, decim: nat)
    requires n > 0
    ensures i + n * decim == (i + decim) + (n - 1) * decim && n * decim >= decim
  {
  }

  // ---- discriminator ----

  /** The phase step from each sample's predecessor, the first one's being prev. */
  function Phases(atan2: (real, real) -> real, x: seq<Complex>, prev: Complex): (r: seq<real>)
    ensures |r| == |x|
  {
    if x == [] then []
    else
      var prod := Mul(x[0], Conj(prev));
      [atan2(prod.im, prod.re)] + Phases(atan2, x[1..], x[0])
  }

  function Last<T>(x: seq<T>, none: T): T {
    if x == [] then none else x[|x| - 1]
  }

  lemma LastOfSum<T>(a: seq<T>, b: seq<T>, none: T)
    ensures Last(a + b, none) == if b == [] then Last(a, none) else b[|b| - 1]
  {
    if b == [] { assert a + b == a; }
  }

  lemma {:induction false} PhasesSplit(atan2: (real, real) -> real, a: seq<Complex>, b: seq<Complex>, prev: Complex)
    ensures Phases(atan2, a + b, prev) == Phases(atan2, a, prev) + Phases(atan2, b, Last(a, prev))
  {
    if a == [] {
      assert a + b == b;
    } else {
      assert (a + b)[1..] == a[1..] + b;
      PhasesSplit(atan2, a[1..], b, a[0]);
    }
  }

  // ---- fractional resampler ----

  function Lerp(s0: real, s1: real, frac: real): real {
    s0 + (s1 - s0) * frac
  }

  /** The straight line between the samples around position p. */
  function Interpolated(z: seq<real>, p: real): real
    requires 0.0 <= p && p.Floor + 1 < |z|
  {
    var i := p.Floor;
    Lerp(z[i], z[i + 1], p - i as real)
  }

  function Position(step: real, k: nat): real {
    k as real * step
  }

  /** Output k needs input sample floor(k * step) + 1. */
  predicate Ready(n: nat, step: real, k: nat) {
    Position(step, k).Floor + 1 < n
  }

  /** How far position k is from the end of n samples, in steps. */
  ghost function StepsLeft(n: nat, step: real, k: nat): real
    requires step > 0.0
  {
    n as real / step - k as real
  }

  lemma ReadyHasSteps(n: nat, step: real, k: nat)
    requires step > 0.0 && Ready(n, step, k)
    ensures StepsLeft(n, step, k) >= 0.0
    ensures StepsLeft(n, step, k + 1) == StepsLeft(n, step, k) - 1.0
  {
    var q := n as real / step;
    assert q * step == n as real;
    assert k as real * step <= n as real;
    if q < k as real {
      assert q * step < k as real * step;
    }
  }

  lemma PositionNonNegative(step: real, k: nat)
    requires step > 0.0
    ensures Position(step, k) >= 0.0
    ensures Position(step, k + 1) == Position(step, k) + step
  {
  }

  /** Outputs k, k + 1, ... as far as the n samples of z allow. */
  ghost function Resampled(z: seq<real>, step: real, k: nat): seq<real>
    requires step > 0.0
    decreases StepsLeft(|z|, step, k)
  {
    if !Ready(|z|, step, k) then []
    else
      PositionNonNegative(step, k);
      ReadyHasSteps(|z|, step, k);
      [Interpolated(z, Position(step, k))] + Resampled(z, step, k + 1)
  }

  /** The first output from k on that n samples do not allow. */
  ghost function NextOutput(n: nat, step: real, k: nat): (r: nat)
    requires step > 0.0
    ensures r >= k && !Ready(n, step, r)
    decreases StepsLeft(n, step, k)
  {
    if !Ready(n, step, k) then k
    else
      ReadyHasSteps(n, step, k);
      NextOutput(n, step, k + 1)
  }

  /** Both recursions, one step. */
  lemma ResampleUnfold(z: seq<real>, step: real, k: nat)
    requires step > 0.0
    ensures Position(step, k) >= 0.0 && Position(step, k + 1) == Position(step, k) + step
    ensures !Ready(|z|, step, k) ==> Resampled(z, step, k) == [] && NextOutput(|z|, step, k) == k
    ensures Ready(|z|, step, k) ==>
              && Resampled(z, step, k) == [Interpolated(z, Position(step, k))] + Resampled(z, step, k + 1)
              && NextOutput(|z|, step, k) == NextOutput(|z|, step, k + 1)
              && 0.0 <= StepsLeft(|z|, step, k) && StepsLeft(|z|, step, k + 1) == StepsLeft(|z|, step, k) - 1.0
  {
    PositionNonNegative(step, k);
    if Ready(|z|, step, k) { ReadyHasSteps(|z|, step, k); }
    hide Position, StepsLeft, Interpolated;
  }

  lemma PrefixInterpolated(a: seq<real>, b: seq<real>, step: real, k: nat)
    requires step > 0.0 && Ready(|a|, step, k)
    ensures Position(step, k) >= 0.0 && Ready(|a + b|, step, k)
    ensures Interpolated(a + b, Position(step, k)) == Interpolated(a, Position(step, k))
  {
    PositionNonNegative(step, k);
    hide Position;
  }

  lemma {:induction false} ResampledSplit(a: seq<real>, b: seq<real>, step: real, k: nat)
    requires step > 0.0
    ensures Resampled(a + b, step, k)
         == Resampled(a, step, k) + Resampled(a + b, step, NextOutput(|a|, step, k))
    decreases StepsLeft(|a|, step, k)
  {
    hide *;
    ResampleUnfold(a, step, k);
    if Ready(|a|, step, k) {
      PrefixInterpolated(a, b, step, k);
      ResampleUnfold(a + b, step, k);
      ResampledSplit(a, b, step, k + 1);
    }
  }

  lemma {:induction false} NextOutputSplit(m: nat, n: nat, step: real, k: nat)
    requires step > 0.0 && m <= n
    ensures NextOutput(n, step, NextOutput(m, step, k)) == NextOutput(n, step, k)
    decreases StepsLeft(m, step, k)
  {
    if Ready(m, step, k) {
      ReadyHasSteps(m, step, k);
      NextOutputSplit(m, n, step, k + 1);
    }
  }

  lemma PositionsIncrease(step: real, j: nat, k: nat)
    requires step > 0.0 && j <= k
    ensures Position(step, j) <= Position(step, k)
  {
    assert (k - j) as real * step >= 0.0;
  }

  /** Output n of the one-shot resampler is the line through the input at n * step. */
  lemma {:induction false} ResampledGrid(z: seq<real>, step: real, k: nat, n: nat)
    requires step > 0.0
    ensures n < |Resampled(z, step, k)| <==> Ready(|z|, step, k + n)
    ensures n < |Resampled(z, step, k)| ==>
              Position(step, k + n) >= 0.0 && Resampled(z, step, k)[n] == Interpolated(z, Position(step, k + n))
    decreases n
  {
    PositionNonNegative(step, k + n);
    PositionsIncrease(step, k, k + n);
    if n > 0 && Ready(|z|, step, k) {
      ResampledGrid(z, step, k + 1, n - 1);
    }
  }

  lemma ReadyAntitone(n: nat, step: real, j: nat, k: nat)
    requires step > 0.0 && j <= k && Ready(n, step, k)
    ensures Ready(n, step, j)
  {
    PositionsIncrease(step, j, k);
  }

  /** Output k read in the coordinates of a block that follows n samples: index i0 is -1 (the carried sample)
      or a sample of the block, never further back. */
  lemma BlockCoordinates(before: seq<real>, block: seq<real>, step: real, k: nat, pos: real, s0: real)
    requires step > 0.0 && !Ready(|before|, step, k) && Position(step, k) == pos + |before| as real
    ensures pos.Floor >= -1 && (pos.Floor < 0 ==> |before| > 0)
    ensures pos.Floor + 1 < |block| <==> Ready(|before + block|, step, k)
    ensures pos.Floor + 1 < |block| && s0 == (if pos.Floor < 0 then Last(before, 0.0) else block[pos.Floor]) ==>
              Position(step, k) >= 0.0 &&
              Interpolated(before + block, Position(step, k))
              == Lerp(s0, block[pos.Floor + 1], pos - pos.Floor as real)
  {
    var p, n := Position(step, k), |before|;
    PositionNonNegative(step, k);
    hide Position, Lerp;
    assert p.Floor == pos.Floor + n by {
      assert pos.Floor as real <= pos < (pos.Floor + 1) as real;
      assert (pos.Floor + n) as real <= p < (pos.Floor + n + 1) as real;
    }
  }

  // ---- the demodulator ----

  function MacComplex(acc: Complex, x: Complex, h: real): Complex {
    Add(acc, Scale(x, h))
  }

  function MacReal(acc: real, x: real, h: real): real {
    acc + x * h
  }

  /** What the constructor derives from the configuration; step is the decimated over the output rate. */
  datatype Config = Config(taps: seq<real>, audioTaps: seq<real>, decim: nat, step: real, scale: real,
                           atan2: (real, real) -> real) {
    predicate Valid() {
      |taps| > 0 && |audioTaps| > 0 && decim > 0 && step > 0.0
    }

    function Channel(): (k: Kernel<Complex>) {
      Kernel(taps, ZERO, MacComplex)
    }

    function Audio(): (k: Kernel<real>) {
      Kernel(audioTaps, 0.0, MacReal)
    }
  }

  /** Conversion to a 16-bit sample: scale, clip, truncate toward zero. */
  function Pcm(v: real, scale: real): (r: int)
    ensures -32768 <= r <= 32767
  {
    var s := v * scale;
    var t := if s > 32767.0 then 32767.0 else if s < -32768.0 then -32768.0 else s;
    if t >= 0.0 then t.Floor else -(-t).Floor
  }

  function Pcms(v: seq<real>, scale: real): (r: seq<int>)
    ensures |r| == |v|
    ensures forall i :: 0 <= i < |v| ==> r[i] == Pcm(v[i], scale)
  {
    seq(|v|, i requires 0 <= i < |v| => Pcm(v[i], scale))
  }

  // The stages of the chain on a whole stream x.

  function Decimated(c: Config, x: seq<Complex>): seq<Complex>
    requires c.Valid()
  {
    Filtered(c.Channel(), x, c.decim, 0)
  }

  function Discriminated(c: Config, x: seq<Complex>): seq<real>
    requires c.Valid()
  {
    Phases(c.atan2, Decimated(c, x), ONE)
  }

  function AudioFiltered(c: Config, x: seq<Complex>): seq<real>
    requires c.Valid()
  {
    Filtered(c.Audio(), Discriminated(c, x), 1, 0)
  }

  /** The output of one call on the whole stream. */
  ghost function OneShot(c: Config, x: seq<Complex>): seq<int>
    requires c.Valid()
  {
    Pcms(Resampled(AudioFiltered(c, x), c.step, 0), c.scale)
  }

  class PagerFmDemodulator {
    const cfg: Config
    var firHistory: seq<Complex>
    var decPhase: nat
    var lastSample: Complex
    var audioHistory: seq<real>
    var resamplePos: real
    var resamplePrev: real
    ghost var seen: seq<Complex>  // all samples so far

    /** The carried state is the one-shot chain's position in the stream seen so far. */
    ghost predicate Valid()
      reads this
    {
      && cfg.Valid()
      && firHistory == History(cfg.Channel(), seen)
      && |seen| + decPhase == NextIndex(|seen|, cfg.decim, 0)
      && lastSample == Last(Decimated(cfg, seen), ONE)
      && audioHistory == History(cfg.Audio(), Discriminated(cfg, seen))
      && resamplePrev == Last(AudioFiltered(cfg, seen), 0.0)
      && resamplePos == Position(cfg.step, NextOutput(|AudioFiltered(cfg, seen)|, cfg.step, 0))
                        - |AudioFiltered(cfg, seen)| as real
    }

    constructor (c: Config)
      requires c.Valid()
      ensures cfg == c && seen == [] && Valid()
    {
      cfg, seen := c, [];
      firHistory, decPhase, lastSample := seq(|c.taps| - 1, _ => ZERO), 0, ONE;
      audioHistory, resamplePos, resamplePrev := seq(|c.audioTaps| - 1, _ => 0.0), 0.0, 0.0;
    }

    /** Channel filter and decimation. */
    method MixAndFilterDecimate(input: seq<Complex>) returns (decimated: seq<Complex>)
      requires cfg.Valid() && firHistory == History(cfg.Channel(), seen)
      requires |seen| + decPhase == NextIndex(|seen|, cfg.decim, 0)
      modifies this`firHistory, this`decPhase
      ensures Decimated(cfg, seen + input) == Decimated(cfg, seen) + decimated
      ensures firHistory == History(cfg.Channel(), seen + input)
      ensures |seen + input| + decPhase == NextIndex(|seen + input|, cfg.decim, 0)
    {
      hide Filtered, BlockOutputs, History, NextIndex;
      var k := cfg.Channel();
      BlockStep(k, seen, input, cfg.decim, decPhase);
      var hist := |firHistory|;
      var buf := firHistory + input;
      var i;
      decimated, i := FilterBlock(k, buf, cfg.decim, hist + decPhase);
      decPhase := i - |buf|;
      firHistory := buf[|buf| - hist..];
    }

    /** Phase differences between successive samples. */
    method DemodBlock(decimated: seq<Complex>) returns (disc: seq<real>)
      modifies this`lastSample
      ensures disc == Phases(cfg.atan2, decimated, old(lastSample))
      ensures lastSample == Last(decimated, old(lastSample))
    {
      disc := [];
      var n := 0;
      while n < |decimated|
        invariant 0 <= n <= |decimated|
        invariant lastSample == Last(decimated[..n], old(lastSample))
        invariant disc + Phases(cfg.atan2, decimated[n..], lastSample) == Phases(cfg.atan2, decimated, old(lastSample))
      {
        var s := decimated[n];
        var prod := Mul(s, Conj(lastSample));
        disc := disc + [cfg.atan2(prod.im, prod.re)];
        lastSample := s;
        n := n + 1;
      }
    }

    /** Low-pass after detection; `before` is everything detected earlier. */
    method AudioFilter(disc: seq<real>, ghost before: seq<real>) returns (out: seq<real>)
      requires cfg.Valid() && audioHistory == History(cfg.Audio(), before)
      modifies this`audioHistory
      ensures Filtered(cfg.Audio(), before + disc, 1, 0) == Filtered(cfg.Audio(), before, 1, 0) + out
      ensures audioHistory == History(cfg.Audio(), before + disc)
    {
      hide Filtered, BlockOutputs, History, NextIndex;
      var k := cfg.Audio();
      EveryIndex(|before|, 0);
      BlockStep(k, before, disc, 1, 0);
      var hist := |audioHistory|;
      var buf := audioHistory + disc;
      var i;
      out, i := FilterBlock(k, buf, 1, hist);
      audioHistory := buf[|buf| - hist..];
    }

    /** Linear interpolation to the output rate; `before` is everything filtered earlier. */
    method ResampleToOutput(disc: seq<real>, ghost before: seq<real>) returns (out: seq<real>)
      requires cfg.step > 0.0 && resamplePrev == Last(before, 0.0)
      requires resamplePos == Position(cfg.step, NextOutput(|before|, cfg.step, 0)) - |before| as real
      modifies this`resamplePos, this`resamplePrev
      ensures Resampled(before + disc, cfg.step, 0) == Resampled(before, cfg.step, 0) + out
      ensures resamplePrev == Last(before + disc, 0.0)
      ensures resamplePos == Position(cfg.step, NextOutput(|before + disc|, cfg.step, 0)) - |before + disc| as real
    {
      hide *;
      LastOfSum(before, disc, 0.0);
      ghost var k := NextOutput(|before|, cfg.step, 0);
      ghost var all, k0 := before + disc, k;
      ResampledSplit(before, disc, cfg.step, 0);
      NextOutputSplit(|before|, |all|, cfg.step, 0);
      out := [];
      while true
        invariant resamplePrev == Last(before, 0.0)
        invariant k0 <= k && !Ready(|before|, cfg.step, k)
        invariant resamplePos == Position(cfg.step, k) - |before| as real
        invariant out + Resampled(all, cfg.step, k) == Resampled(all, cfg.step, k0)
        invariant NextOutput(|all|, cfg.step, k) == NextOutput(|all|, cfg.step, k0)
        decreases StepsLeft(|all|, cfg.step, k)
      {
        var i0 := resamplePos.Floor;
        var i1 := i0 + 1;
        ResampleUnfold(all, cfg.step, k);
        BlockCoordinates(before, disc, cfg.step, k, resamplePos, if i0 < 0 then resamplePrev else if i1 < |disc| then disc[i0] else 0.0);
        if i1 >= |disc| || i0 < -1 {
          assert i1 >= |disc|;  // the second guard never fires
          break;
        }
        var s0 := if i0 < 0 then resamplePrev else disc[i0];
        var s1 := disc[i1];
        var frac := resamplePos - i0 as real;
        var v := Lerp(s0, s1, frac);
        assert out + ([v] + Resampled(all, cfg.step, k + 1)) == out + [v] + Resampled(all, cfg.step, k + 1);
        out := out + [v];
        resamplePos := resamplePos + cfg.step;
        if Ready(|before|, cfg.step, k + 1) { ReadyAntitone(|before|, cfg.step, k, k + 1); }
        k := k + 1;
      }
      if |disc| > 0 { resamplePrev := disc[|disc| - 1]; }
      resamplePos := resamplePos - |disc| as real;
    }

    /** One block of samples in; what one call on all of the stream so far gives beyond what it gave before the block
        is appended to `out`. */
    method Process(input: seq<Complex>, out: seq<int>) returns (out': seq<int>)
      requires Valid()
      modifies this
      ensures Valid() && seen == old(seen) + input && OneShot(cfg, old(seen)) <= OneShot(cfg, seen)
      ensures out' == out + OneShot(cfg, seen)[|OneShot(cfg, old(seen))|..]
    {
      hide Filtered, Phases, Resampled, History, NextIndex, NextOutput, Position, Pcms;
      ghost var disc0, aud0 := Discriminated(cfg, seen), AudioFiltered(cfg, seen);
      var dec := MixAndFilterDecimate(input);
      PhasesSplit(cfg.atan2, Decimated(cfg, seen), dec, ONE);
      var disc := DemodBlock(dec);
      var aud := AudioFilter(disc, disc0);
      var res := ResampleToOutput(aud, aud0);
      PcmsAppend(Resampled(aud0, cfg.step, 0), res, cfg.scale);
      var pcm := ToPcm(res, cfg.scale);
      ghost var before := OneShot(cfg, seen);
      out' := out + pcm;
      seen := seen + input;
      assert OneShot(cfg, seen) == before + pcm;
    }
  }

  method ToPcm(v: seq<real>, scale: real) returns (pcm: seq<int>)
    ensures pcm == Pcms(v, scale)
  {
    pcm := [];
    for n := 0 to |v|
      invariant pcm == Pcms(v[..n], scale)
    {
      var s := v[n] * scale;
      if s > 32767.0 { s := 32767.0; }
      if s < -32768.0 { s := -32768.0; }
      var r := if s >= 0.0 then s.Floor else -(-s).Floor;
      assert r == Pcm(v[n], scale);
      PcmsAppend(v[..n], [v[n]], scale);
      assert v[..n + 1] == v[..n] + [v[n]];
      pcm := pcm + [r];
    }
    assert v[..|v|] == v;
  }

  lemma PcmsAppend(a: seq<real>, b: seq<real>, scale: real)
    ensures Pcms(a + b, scale) == Pcms(a, scale) + Pcms(b, scale)
    ensures Pcms([], scale) == []
    ensures |b| == 1 ==> Pcms(b, scale) == [Pcm(b[0], scale)]
  {
  }

  function Joined<T>(blocks: seq<seq<T>>): seq<T> {
    if blocks == [] then [] else Joined(blocks[..|blocks| - 1]) + blocks[|blocks| - 1]
  }

  lemma JoinedNothing<T>(blocks: seq<seq<T>>)
    ensures Joined(blocks[..0]) == []
  {
  }

  lemma JoinedStep<T>(blocks: seq<seq<T>>, n: nat)
    requires n < |blocks|
    ensures Joined(blocks[..n + 1]) == Joined(blocks[..n]) + blocks[n]
  {
    assert blocks[..n + 1][..n] == blocks[..n];
  }

  lemma OneShotOfNothing(c: Config)
    requires c.Valid()
    ensures OneShot(c, []) == []
  {
    hide Phases;
    assert Decimated(c, []) == [];
    assert Discriminated(c, []) == [];
    assert AudioFiltered(c, []) == [];
    assert !Ready(0, c.step, 0) by { assert Position(c.step, 0) == 0.0; }
  }

  /** Chunk invariance: any cutting of a stream into blocks, empty ones included, gives the output of one call. */
  method Stream(c: Config, blocks: seq<seq<Complex>>) returns (out: seq<int>)
    requires c.Valid()
    ensures out == OneShot(c, Joined(blocks))
  {
    hide *;
    JoinedNothing(blocks);
    var d := new PagerFmDemodulator(c);
    out := [];
    OneShotOfNothing(c);
    for n := 0 to |blocks|
      invariant d.Valid() && d.cfg == c && fresh(d) && d.seen == Joined(blocks[..n])
      invariant out == OneShot(c, d.seen)
    {
      JoinedStep(blocks, n);
      out := d.Process(blocks[n], out);
    }
    assert blocks[..|blocks|] == blocks;
  }

  lemma {:induction false} EveryIndex(n: nat, i: nat)
    requires i <= n
    ensures NextIndex(n, 1, i) == n
    decreases n - i
  {
    if i < n {
      EveryIndex(n, i + 1);
    }
  }
}
