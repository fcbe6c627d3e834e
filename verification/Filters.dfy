/** What the paging demodulator's filters compute: the answer to one sample is the taps, last one first, answers add up,
    and with them the whole chain's output is given sample by sample. */
module Filters {
  import opened ComplexNumbers
  import opened Demod
  import opened Detection

  // ---- the audio filter ----

  /** Nothing but one sample v at place p. */
  predicate OnlyReal(x: seq<real>, p: int, v: real) {
    forall i :: 0 <= i < |x| ==> x[i] == if i == p then v else 0.0
  }

  lemma {:induction false} DotOfOne(c: Config, w: seq<real>, p: int, v: real, n: nat)
    requires n <= |w| && n <= |c.audioTaps| && OnlyReal(w, p, v)
    ensures Dot(c.Audio(), w, n) == if 0 <= p < n then v * c.audioTaps[p] else 0.0
  {
    if n > 0 {
      DotOfOne(c, w, p, v, n - 1);
      NothingReal(c.audioTaps[n - 1]);
    }
  }

  lemma NothingReal(h: real)
    ensures 0.0 * h == 0.0
  {
  }

  /** A window of the padded stream. */
  lemma WindowReal(c: Config, x: seq<real>, i: nat)
    requires c.Valid() && i < |x|
    ensures var k, m := c.Audio(), |c.audioTaps|;
            var w := Padded(k, x)[i..i + m];
            |w| == m && forall t :: 0 <= t < m ==> w[t] == if t + i < m - 1 then 0.0 else x[t + i - (m - 1)]
  {
  }

  /** To a single sample the audio filter answers with its taps, last one first, from that sample on; before it and after
      them with silence. */
  lemma AudioImpulse(c: Config, x: seq<real>, p: nat, v: real, i: nat)
    requires c.Valid() && i < |x| && p < |x| && OnlyReal(x, p, v)
    ensures FilteredAt(c.Audio(), x, i) == if p <= i < p + |c.audioTaps| then v * c.audioTaps[|c.audioTaps| - 1 - (i - p)] else 0.0
  {
    hide Dot, Padded;
    var m := |c.audioTaps|;
    WindowReal(c, x, i);
    DotOfOne(c, Padded(c.Audio(), x)[i..i + m], p + (m - 1) - i, v, m);
  }

  /** z is a times x and b times y, sample by sample. */
  predicate MixReal(x: seq<real>, y: seq<real>, a: real, b: real, z: seq<real>) {
    |x| == |y| == |z| && forall i :: 0 <= i < |z| ==> z[i] == a * x[i] + b * y[i]
  }

  lemma {:induction false} DotOfMix(c: Config, x: seq<real>, y: seq<real>, a: real, b: real, z: seq<real>, n: nat)
    requires MixReal(x, y, a, b, z) && n <= |z| && n <= |c.audioTaps|
    ensures Dot(c.Audio(), z, n) == a * Dot(c.Audio(), x, n) + b * Dot(c.Audio(), y, n)
  {
    if n == 0 {
      NothingMixed(a, b);
    } else {
      hide Dot;
      DotOfMix(c, x, y, a, b, z, n - 1);
      DotMore(c, x, n);
      DotMore(c, y, n);
      DotMore(c, z, n);
      SpreadMix(Dot(c.Audio(), x, n - 1), Dot(c.Audio(), y, n - 1), x[n - 1], y[n - 1], a, b, c.audioTaps[n - 1],
                Dot(c.Audio(), z, n - 1), z[n - 1]);
    }
  }

  lemma DotMore(c: Config, w: seq<real>, n: nat)
    requires 0 < n <= |w| && n <= |c.audioTaps|
    ensures Dot(c.Audio(), w, n) == Dot(c.Audio(), w, n - 1) + w[n - 1] * c.audioTaps[n - 1]
  {
  }

  lemma SpreadMix(p: real, q: real, x: real, y: real, a: real, b: real, h: real, r: real, z: real)
    requires r == a * p + b * q && z == a * x + b * y
    ensures r + z * h == a * (p + x * h) + b * (q + y * h)
  {
    assert (a * x + b * y) * h == a * (x * h) + b * (y * h);
  }

  /** Answers of the audio filter add up and scale. */
  lemma AudioSuperposes(c: Config, x: seq<real>, y: seq<real>, a: real, b: real, z: seq<real>, i: nat)
    requires c.Valid() && MixReal(x, y, a, b, z) && i < |z|
    ensures FilteredAt(c.Audio(), z, i) == a * FilteredAt(c.Audio(), x, i) + b * FilteredAt(c.Audio(), y, i)
  {
    hide Dot, Padded;
    var m := |c.audioTaps|;
    WindowReal(c, x, i);
    WindowReal(c, y, i);
    WindowReal(c, z, i);
    NothingMixed(a, b);
    DotOfMix(c, Padded(c.Audio(), x)[i..i + m], Padded(c.Audio(), y)[i..i + m], a, b, Padded(c.Audio(), z)[i..i + m], m);
  }

  lemma NothingMixed(a: real, b: real)
    ensures a * 0.0 + b * 0.0 == 0.0
  {
  }

  // ---- the channel filter ----

  predicate OnlyOne(x: seq<Complex>, p: int, v: Complex) {
    forall i :: 0 <= i < |x| ==> x[i] == if i == p then v else ZERO
  }

  lemma {:induction false} ChannelDotOfOne(c: Config, w: seq<Complex>, p: int, v: Complex, n: nat)
    requires n <= |w| && n <= |c.taps| && OnlyOne(w, p, v)
    ensures Dot(c.Channel(), w, n) == if 0 <= p < n then Scale(v, c.taps[p]) else ZERO
  {
    if n > 0 {
      ChannelDotOfOne(c, w, p, v, n - 1);
      NothingReal(c.taps[n - 1]);
    }
  }

  lemma Window(c: Config, x: seq<Complex>, i: nat)
    requires c.Valid() && i < |x|
    ensures var k, m := c.Channel(), |c.taps|;
            var w := Padded(k, x)[i..i + m];
            |w| == m && forall t :: 0 <= t < m ==> w[t] == if t + i < m - 1 then ZERO else x[t + i - (m - 1)]
  {
  }

  /** The channel filter answers a single sample the same way. */
  lemma ChannelImpulse(c: Config, x: seq<Complex>, p: nat, v: Complex, i: nat)
    requires c.Valid() && i < |x| && p < |x| && OnlyOne(x, p, v)
    ensures FilteredAt(c.Channel(), x, i) == if p <= i < p + |c.taps| then Scale(v, c.taps[|c.taps| - 1 - (i - p)]) else ZERO
  {
    hide Dot, Padded;
    var m := |c.taps|;
    Window(c, x, i);
    ChannelDotOfOne(c, Padded(c.Channel(), x)[i..i + m], p + (m - 1) - i, v, m);
  }

  predicate Sum(x: seq<Complex>, y: seq<Complex>, z: seq<Complex>) {
    |x| == |y| == |z| && forall i :: 0 <= i < |z| ==> z[i] == Add(x[i], y[i])
  }

  lemma {:induction false} ChannelDotOfSum(c: Config, x: seq<Complex>, y: seq<Complex>, z: seq<Complex>, n: nat)
    requires Sum(x, y, z) && n <= |z| && n <= |c.taps|
    ensures Dot(c.Channel(), z, n) == Add(Dot(c.Channel(), x, n), Dot(c.Channel(), y, n))
  {
    if n > 0 {
      ChannelDotOfSum(c, x, y, z, n - 1);
      SpreadSum(Dot(c.Channel(), x, n - 1), Dot(c.Channel(), y, n - 1), x[n - 1], y[n - 1], c.taps[n - 1]);
    }
  }

  lemma SpreadSum(p: Complex, q: Complex, x: Complex, y: Complex, h: real)
    ensures MacComplex(Add(p, q), Add(x, y), h) == Add(MacComplex(p, x, h), MacComplex(q, y, h))
  {
    assert (x.re + y.re) * h == x.re * h + y.re * h;
    assert (x.im + y.im) * h == x.im * h + y.im * h;
  }

  /** Answers of the channel filter add up.  With its answers to single samples that is all there is to it. */
  lemma ChannelSuperposes(c: Config, x: seq<Complex>, y: seq<Complex>, z: seq<Complex>, i: nat)
    requires c.Valid() && Sum(x, y, z) && i < |z|
    ensures FilteredAt(c.Channel(), z, i) == Add(FilteredAt(c.Channel(), x, i), FilteredAt(c.Channel(), y, i))
  {
    hide Dot, Padded;
    var m := |c.taps|;
    Window(c, x, i);
    Window(c, y, i);
    Window(c, z, i);
    NothingAdded();
    ChannelDotOfSum(c, Padded(c.Channel(), x)[i..i + m], Padded(c.Channel(), y)[i..i + m], Padded(c.Channel(), z)[i..i + m], m);
  }

  lemma NothingAdded()
    ensures Add(ZERO, ZERO) == ZERO
  {
  }

  // ---- the chain, sample by sample ----

  /** Decimated sample n is the channel filter's answer at sample n * decim; there are as many as there are such samples. */
  lemma DecimatedIs(c: Config, x: seq<Complex>, n: nat)
    requires c.Valid()
    ensures n < |Decimated(c, x)| <==> n * c.decim < |x|
    ensures n * c.decim < |x| ==> Decimated(c, x)[n] == FilteredAt(c.Channel(), x, n * c.decim)
  {
    hide Filtered;
    FilteredGrid(c.Channel(), x, c.decim, 0, n);
  }

  /** Every detected sample is filtered, none is dropped. */
  lemma AudioIs(c: Config, x: seq<Complex>, d: seq<real>, a: seq<real>, n: nat)
    requires c.Valid() && d == Discriminated(c, x) && a == AudioFiltered(c, x)
    ensures |a| == |d| && (n < |d| ==> a[n] == FilteredAt(c.Audio(), d, n))
  {
    hide *;
    AudioOf(c, x, d, a);
    OneByOne(c, d, n);
    OneByOne(c, d, |d|);
    OneByOne(c, d, |a|);
  }

  lemma AudioOf(c: Config, x: seq<Complex>, d: seq<real>, a: seq<real>)
    requires c.Valid() && d == Discriminated(c, x) && a == AudioFiltered(c, x)
    ensures a == Filtered(c.Audio(), d, 1, 0) && c.Audio().Valid()
  {
    hide Filtered, Discriminated;
  }

  lemma OneByOne(c: Config, d: seq<real>, n: nat)
    requires c.Audio().Valid()
    ensures n < |Filtered(c.Audio(), d, 1, 0)| <==> n < |d|
    ensures n < |d| ==> Filtered(c.Audio(), d, 1, 0)[n] == FilteredAt(c.Audio(), d, n)
  {
    hide *;
    FilteredGrid(c.Audio(), d, 1, 0, n);
    Once(n);
  }

  lemma Once(n: nat)
    ensures 0 + n * 1 == n
  {
  }

  /** The straight line between the two samples around p. */
  function LineAt(a: seq<real>, p: real): real
    requires p >= 0.0 && p.Floor + 1 < |a|
  {
    a[p.Floor] + (a[p.Floor + 1] - a[p.Floor]) * (p - p.Floor as real)
  }

  /** Output n is the straight line between the two audio samples around n * step, in 16 bits; it is there as soon as both
      are. */
  lemma OutputIs(c: Config, x: seq<Complex>, a: seq<real>, o: seq<int>, n: nat)
    requires c.Valid() && a == AudioFiltered(c, x) && o == OneShot(c, x)
    ensures var p := n as real * c.step;
            && p >= 0.0 && (n < |o| <==> p.Floor + 1 < |a|)
            && (p.Floor + 1 < |a| ==> o[n] == Pcm(LineAt(a, p), c.scale))
  {
    hide *;
    ChainEnds(c, x, a, o);
    PositionIs(c.step, n);
    LineReached(c, a, n, n as real * c.step);
    PcmsAt(Resampled(a, c.step, 0), c.scale, n);
  }

  lemma PcmsAt(v: seq<real>, scale: real, n: nat)
    ensures |Pcms(v, scale)| == |v| && (n < |v| ==> Pcms(v, scale)[n] == Pcm(v[n], scale))
  {
    hide Pcms, Pcm;
  }

  lemma ChainEnds(c: Config, x: seq<Complex>, a: seq<real>, o: seq<int>)
    requires c.Valid() && a == AudioFiltered(c, x) && o == OneShot(c, x)
    ensures c.step > 0.0 && o == Pcms(Resampled(a, c.step, 0), c.scale)
  {
    hide AudioFiltered, Resampled, Pcms;
  }

  lemma LineReached(c: Config, a: seq<real>, n: nat, p: real)
    requires c.step > 0.0 && p == Position(c.step, n)
    ensures var r := Resampled(a, c.step, 0);
            p >= 0.0 && (n < |r| <==> p.Floor + 1 < |a|) && (n < |r| ==> r[n] == LineAt(a, p))
  {
    hide *;
    ResampledGrid(a, c.step, 0, n);
    FromFirst(|a|, c.step, n, p);
    if n < |Resampled(a, c.step, 0)| { LineIs(a, p); }
  }

  lemma FromFirst(size: nat, step: real, n: nat, p: real)
    requires step > 0.0 && p == Position(step, n)
    ensures 0 + n == n && p >= 0.0 && (Ready(size, step, n) <==> p.Floor + 1 < size)
  {
    PositionNonNegative(step, n);
    hide Position;
  }

  lemma LineIs(a: seq<real>, p: real)
    requires p >= 0.0 && p.Floor + 1 < |a|
    ensures Interpolated(a, p) == LineAt(a, p)
  {
  }

  lemma PositionIs(step: real, n: nat)
    ensures Position(step, n) == n as real * step
  {
  }
}
