/** What the paging demodulator makes of simple signals: which way and how far the phase turns between samples is what
    is detected, a carrier is silence, a straight line stays one through the resampler, and a sample is not bent by the
    conversion. */
module Detection {
  import opened ComplexNumbers
  import opened Demod

  /** The area two samples span, positive where b is turned forward from a, and their inner product. */
  function Cross(a: Complex, b: Complex): real {
    a.re * b.im - a.im * b.re
  }

  function Inner(a: Complex, b: Complex): real {
    a.re * b.re + a.im * b.im
  }

  function Norm(a: Complex): real {
    Inner(a, a)
  }

  lemma {:induction false} PhaseAt(atan2: (real, real) -> real, x: seq<Complex>, prev: Complex, n: nat)
    requires n < |x|
    ensures var a := if n == 0 then prev else x[n - 1];
            Phases(atan2, x, prev)[n] == atan2(Cross(a, x[n]), Inner(a, x[n]))
  {
    if n == 0 {
      StepArguments(x[0], prev);
    } else {
      PhaseAt(atan2, x[1..], x[0], n - 1);
    }
  }

  lemma StepArguments(s: Complex, prev: Complex)
    ensures Mul(s, Conj(prev)) == Complex(Inner(prev, s), Cross(prev, s))
  {
  }

  /** Each detected sample is the angle by which the decimated stream turned since its last sample. */
  lemma DetectedIsTurn(c: Config, x: seq<Complex>, n: nat)
    requires c.Valid() && n < |Decimated(c, x)|
    ensures |Discriminated(c, x)| == |Decimated(c, x)|
    ensures var d := Decimated(c, x);
            Discriminated(c, x)[n] == if n == 0 then c.atan2(d[0].im, d[0].re)
                                      else c.atan2(Cross(d[n - 1], d[n]), Inner(d[n - 1], d[n]))
  {
    hide Filtered, Phases;
    PhaseAt(c.atan2, Decimated(c, x), ONE, n);
  }

  // ---- the channel filter is linear ----

  /** Each sample sent through f. */
  function Each(f: Complex -> Complex, x: seq<Complex>): (r: seq<Complex>)
    ensures |r| == |x| && forall i :: 0 <= i < |x| ==> r[i] == f(x[i])
  {
    seq(|x|, i requires 0 <= i < |x| => f(x[i]))
  }

  /** f goes through a weighted sum. */
  ghost predicate Linear(f: Complex -> Complex) {
    f(ZERO) == ZERO && forall a, x, h :: f(MacComplex(a, x, h)) == MacComplex(f(a), f(x), h)
  }

  lemma {:induction false} DotEach(c: Config, f: Complex -> Complex, w: seq<Complex>, n: nat)
    requires Linear(f) && n <= |w| && n <= |c.taps|
    ensures Dot(c.Channel(), Each(f, w), n) == f(Dot(c.Channel(), w, n))
  {
    hide MacComplex;
    if n > 0 { DotEach(c, f, w, n - 1); }
  }

  lemma FilteredAtEach(c: Config, f: Complex -> Complex, x: seq<Complex>, i: nat)
    requires c.Valid() && Linear(f) && i < |x|
    ensures FilteredAt(c.Channel(), Each(f, x), i) == f(FilteredAt(c.Channel(), x, i))
  {
    hide Dot, Linear;
    var k := c.Channel();
    ZeroStays(f);
    var w := Padded(k, x)[i..i + |k.taps|];
    assert Padded(k, Each(f, x)) == Each(f, Padded(k, x));
    assert Padded(k, Each(f, x))[i..i + |k.taps|] == Each(f, w);
    DotEach(c, f, w, |k.taps|);
  }

  lemma ZeroStays(f: Complex -> Complex)
    requires Linear(f)
    ensures f(ZERO) == ZERO
  {
  }

  lemma {:induction false} FilteredEach(c: Config, f: Complex -> Complex, x: seq<Complex>, i: nat)
    requires c.Valid() && Linear(f)
    ensures Filtered(c.Channel(), Each(f, x), c.decim, i) == Each(f, Filtered(c.Channel(), x, c.decim, i))
    decreases |x| - i
  {
    hide FilteredAt, Linear;
    if i < |x| {
      FilteredAtEach(c, f, x, i);
      FilteredEach(c, f, x, i + c.decim);
    }
  }

  lemma DecimatedEach(c: Config, f: Complex -> Complex, x: seq<Complex>)
    requires c.Valid() && Linear(f)
    ensures Decimated(c, Each(f, x)) == Each(f, Decimated(c, x))
  {
    hide Filtered, Linear;
    FilteredEach(c, f, x, 0);
  }

  // ---- a stream turned, mirrored, or turning ----

  function TurnBy(w: Complex): Complex -> Complex {
    (x: Complex) => Complex(w.re * x.re - w.im * x.im, w.re * x.im + w.im * x.re)
  }

  function Mirror(): Complex -> Complex {
    (x: Complex) => Complex(x.re, -x.im)
  }

  lemma TurnIsLinear(w: Complex)
    ensures Linear(TurnBy(w))
  {
    var f := TurnBy(w);
    forall a, x, h ensures f(MacComplex(a, x, h)) == MacComplex(f(a), f(x), h) { TurnMac(w, a, x, h); }
  }

  lemma TurnMac(w: Complex, a: Complex, x: Complex, h: real)
    ensures TurnBy(w)(MacComplex(a, x, h)) == MacComplex(TurnBy(w)(a), TurnBy(w)(x), h)
  {
    Spread(w.re, a.re, x.re, h);
    Spread(w.im, a.im, x.im, h);
    Spread(w.re, a.im, x.im, h);
    Spread(w.im, a.re, x.re, h);
    hide Weighted;
    Factor(Weighted(w.re, x.re, h), Weighted(w.im, x.im, h), w.re * x.re, w.im * x.im, h);
    Factor(Weighted(w.re, x.im, h), Weighted(w.im, x.re, h), w.re * x.im, w.im * x.re, h);
  }

  function Weighted(w: real, x: real, h: real): real {
    w * x * h
  }

  lemma Spread(w: real, a: real, x: real, h: real)
    ensures w * (a + x * h) == w * a + Weighted(w, x, h)
    ensures Weighted(w, x, h) == (w * x) * h
  {
  }

  lemma Factor(p: real, q: real, u: real, v: real, h: real)
    requires p == u * h && q == v * h
    ensures (u - v) * h == p - q && (u + v) * h == p + q
  {
  }

  lemma MirrorIsLinear()
    ensures Linear(Mirror())
  {
  }

  lemma TurnKeepsAngles(w: Complex, a: Complex, b: Complex)
    requires Norm(w) == 1.0
    ensures Cross(TurnBy(w)(a), TurnBy(w)(b)) == Cross(a, b) && Inner(TurnBy(w)(a), TurnBy(w)(b)) == Inner(a, b)
  {
    TurnScales(w, a, b);
  }

  lemma TurnScales(w: Complex, a: Complex, b: Complex)
    ensures Cross(TurnBy(w)(a), TurnBy(w)(b)) == Norm(w) * Cross(a, b)
    ensures Inner(TurnBy(w)(a), TurnBy(w)(b)) == Norm(w) * Inner(a, b)
  {
    TurnCross(w.re, w.im, a.re, a.im, b.re, b.im);
    TurnInner(w.re, w.im, a.re, a.im, b.re, b.im);
  }

  lemma TurnCross(u: real, v: real, p: real, q: real, r: real, s: real)
    ensures (u * p - v * q) * (u * s + v * r) - (u * q + v * p) * (u * r - v * s) == (u * u + v * v) * (p * s - q * r)
  {
  }

  lemma TurnInner(u: real, v: real, p: real, q: real, r: real, s: real)
    ensures (u * p - v * q) * (u * r - v * s) + (u * q + v * p) * (u * s + v * r) == (u * u + v * v) * (p * r + q * s)
  {
  }

  predicate AlikeAfterFirst(a: seq<real>, b: seq<real>) {
    |a| == |b| && forall n :: 0 < n < |a| ==> a[n] == b[n]
  }

  /** Turning the whole stream, as a receiver with another carrier phase hears it, changes no detected sample but the
      first. */
  lemma TurnedAlike(c: Config, x: seq<Complex>, w: Complex)
    requires c.Valid() && Norm(w) == 1.0
    ensures AlikeAfterFirst(Discriminated(c, Each(TurnBy(w), x)), Discriminated(c, x))
  {
    hide *;
    TurnIsLinear(w);
    DecimatedEach(c, TurnBy(w), x);
    AllTurns(c, x);
    AllTurns(c, Each(TurnBy(w), x));
    TurnsAlike(c.atan2, Decimated(c, x), w, Discriminated(c, x), Discriminated(c, Each(TurnBy(w), x)));
  }

  /** The samples of s are the angles by which d turns. */
  predicate AnglesOf(atan2: (real, real) -> real, d: seq<Complex>, s: seq<real>) {
    |s| == |d| && forall n :: 0 < n < |d| ==> s[n] == atan2(Cross(d[n - 1], d[n]), Inner(d[n - 1], d[n]))
  }

  lemma AllTurns(c: Config, x: seq<Complex>)
    requires c.Valid()
    ensures AnglesOf(c.atan2, Decimated(c, x), Discriminated(c, x))
  {
    hide Decimated, Discriminated, Cross, Inner;
    DetectedCount(c, x);
    forall n | 0 < n < |Decimated(c, x)|
      ensures Discriminated(c, x)[n] ==
              c.atan2(Cross(Decimated(c, x)[n - 1], Decimated(c, x)[n]), Inner(Decimated(c, x)[n - 1], Decimated(c, x)[n]))
    {
      DetectedIsTurn(c, x, n);
    }
  }

  lemma DetectedCount(c: Config, x: seq<Complex>)
    requires c.Valid()
    ensures |Discriminated(c, x)| == |Decimated(c, x)|
  {
    hide Decimated;
  }

  lemma TurnsAlike(atan2: (real, real) -> real, d: seq<Complex>, w: Complex, s: seq<real>, t: seq<real>)
    requires Norm(w) == 1.0 && AnglesOf(atan2, d, s) && AnglesOf(atan2, Each(TurnBy(w), d), t)
    ensures AlikeAfterFirst(t, s)
  {
    hide Cross, Inner, TurnBy, Norm;
    forall n | 0 < n < |d| ensures t[n] == s[n] {
      TurnKeepsAngles(w, d[n - 1], d[n]);
    }
  }

  /** The mirrored stream, every sample conjugated, turns by the same angles the other way. */
  lemma MirroredOpposite(c: Config, x: seq<Complex>, n: nat)
    requires c.Valid() && 0 < n < |Decimated(c, x)|
    ensures AnglesOf(c.atan2, Decimated(c, x), Discriminated(c, x))
    ensures var d, s := Decimated(c, x), Discriminated(c, Each(Mirror(), x));
            |s| == |d| && s[n] == c.atan2(-Cross(d[n - 1], d[n]), Inner(d[n - 1], d[n]))
  {
    hide Decimated, Discriminated, Linear, Cross, Inner, Mirror;
    MirrorIsLinear();
    DecimatedEach(c, Mirror(), x);
    AllTurns(c, x);
    AllTurns(c, Each(Mirror(), x));
    var d := Decimated(c, x);
    MirrorAngles(d[n - 1], d[n]);
  }

  lemma MirrorAngles(a: Complex, b: Complex)
    ensures Cross(Mirror()(a), Mirror()(b)) == -Cross(a, b) && Inner(Mirror()(a), Mirror()(b)) == Inner(a, b)
  {
  }

  /** A quarter turn forward is detected as the angle of the positive imaginary axis. */
  lemma QuarterTurn(c: Config, x: seq<Complex>, n: nat)
    requires c.Valid() && 0 < n < |Decimated(c, x)|
    requires var a, b := Decimated(c, x)[n - 1], Decimated(c, x)[n];
             a != ZERO && b == Complex(-a.im, a.re)
    ensures |Discriminated(c, x)| == |Decimated(c, x)|
    ensures exists r :: r > 0.0 && Discriminated(c, x)[n] == c.atan2(r, 0.0)
  {
    hide Decimated, Discriminated;
    DetectedIsTurn(c, x, n);
    var a, b := Decimated(c, x)[n - 1], Decimated(c, x)[n];
    QuarterArea(a, b);
    assert Cross(a, b) > 0.0 && Discriminated(c, x)[n] == c.atan2(Cross(a, b), 0.0);
  }

  lemma QuarterArea(a: Complex, b: Complex)
    requires a != ZERO && b == Complex(-a.im, a.re)
    ensures Cross(a, b) == Norm(a) > 0.0 && Inner(a, b) == 0.0
  {
    NormPositive(a);
    assert a.re * (-a.im) == -(a.re * a.im);
  }

  function Product(x: real, y: real): real {
    x * y
  }

  lemma SameSigns(x: real, y: real)
    ensures (x > 0.0 && y > 0.0) || (x < 0.0 && y < 0.0) ==> Product(x, y) > 0.0
    ensures x == 0.0 ==> Product(x, y) == 0.0
  {
    if x < 0.0 && y < 0.0 { assert (-x) * (-y) > 0.0; }
  }

  lemma InnerSums(a: Complex, b: Complex)
    ensures Inner(a, b) == Product(a.re, b.re) + Product(a.im, b.im)
  {
  }

  lemma NormPositive(a: Complex)
    requires a != ZERO
    ensures Norm(a) > 0.0
  {
    hide Inner, Product;
    InnerSums(a, a);
    SameSigns(a.re, a.re);
    SameSigns(a.im, a.im);
    assert a == Complex(a.re, a.im);
  }

  // ---- a carrier ----

  /** The sum of the taps from lo on, up to n. */
  function TapSum(taps: seq<real>, lo: nat, n: nat): real
    requires n <= |taps|
  {
    if n <= lo then 0.0 else TapSum(taps, lo, n - 1) + taps[n - 1]
  }

  /** The filter's gain for a constant stream at its sample i: the taps that reach back no further than its start. */
  function Gain(taps: seq<real>, i: nat): real {
    TapSum(taps, if i + 1 >= |taps| then 0 else |taps| - 1 - i, |taps|)
  }

  lemma {:induction false} DotOfCarrier(c: Config, w: seq<Complex>, z: Complex, lo: nat, n: nat)
    requires n <= |w| && n <= |c.taps|
    requires forall t :: 0 <= t < |w| ==> w[t] == if t < lo then ZERO else z
    ensures Dot(c.Channel(), w, n) == Times(z, TapSum(c.taps, lo, n))
  {
    hide Times, MacComplex;
    if n == 0 {
      TimesNothing(z);
    } else {
      DotOfCarrier(c, w, z, lo, n - 1);
      TimesNothing(z);
      CarrierMac(z, TapSum(c.taps, lo, n - 1), c.taps[n - 1]);
    }
  }

  function Times(z: Complex, g: real): Complex {
    Complex(z.re * g, z.im * g)
  }

  lemma TimesNothing(z: Complex)
    ensures Times(z, 0.0) == ZERO
  {
  }

  lemma CarrierMac(z: Complex, g: real, h: real)
    ensures MacComplex(Times(z, g), z, h) == Times(z, g + h) && MacComplex(ZERO, ZERO, h) == ZERO
  {
  }

  lemma FilteredCarrier(c: Config, x: seq<Complex>, z: Complex, i: nat)
    requires c.Valid() && i < |x| && forall j :: 0 <= j < |x| ==> x[j] == z
    ensures FilteredAt(c.Channel(), x, i) == Times(z, Gain(c.taps, i))
  {
    hide Dot, TapSum, Times;
    var k, m := c.Channel(), |c.taps|;
    var lo := if i + 1 >= m then 0 else m - 1 - i;
    DotOfCarrier(c, Padded(k, x)[i..i + m], z, lo, m);
  }

  lemma SameDirection(z: Complex, g: real, h: real)
    ensures Cross(Times(z, g), Times(z, h)) == 0.0 && Inner(Times(z, g), Times(z, h)) == Power(z, g, h)
  {
    assert (z.re * g) * (z.im * h) == (z.im * g) * (z.re * h);
    assert (z.re * g) * (z.re * h) == g * h * (z.re * z.re);
    assert (z.im * g) * (z.im * h) == g * h * (z.im * z.im);
  }

  function Power(z: Complex, g: real, h: real): real {
    g * h * Norm(z)
  }

  /** The gain at the sample under output n. */
  function GainOf(c: Config, n: nat): real {
    Gain(c.taps, n * c.decim)
  }

  lemma DecimatedCarrier(c: Config, x: seq<Complex>, z: Complex, n: nat)
    requires c.Valid() && (forall j :: 0 <= j < |x| ==> x[j] == z) && n < |Decimated(c, x)|
    ensures Decimated(c, x)[n] == Times(z, GainOf(c, n))
  {
    hide Filtered, FilteredAt, Gain, Times;
    FilteredGrid(c.Channel(), x, c.decim, 0, n);
    FilteredCarrier(c, x, z, n * c.decim);
  }

  /** An unmodulated carrier is silence: the angle of the positive real axis, once the filter's gain keeps its sign. */
  lemma CarrierIsSilent(c: Config, x: seq<Complex>, z: Complex, n: nat)
    requires c.Valid() && (forall j :: 0 <= j < |x| ==> x[j] == z) && 0 < n < |Discriminated(c, x)|
    ensures Discriminated(c, x)[n] == c.atan2(0.0, Power(z, GainOf(c, n - 1), GainOf(c, n)))
    ensures c.taps == [1.0] ==> Discriminated(c, x)[n] == c.atan2(0.0, Norm(z))
  {
    hide Decimated, Discriminated, GainOf, Norm, Times, Cross, Inner, Power;
    DetectedCount(c, x);
    DecimatedCarrier(c, x, z, n - 1);
    DecimatedCarrier(c, x, z, n);
    DetectedIsTurn(c, x, n);
    SameDirection(z, GainOf(c, n - 1), GainOf(c, n));
    OneTap(c, n - 1);
    OneTap(c, n);
    UnitPower(z);
  }

  lemma UnitPower(z: Complex)
    ensures Power(z, 1.0, 1.0) == Norm(z)
  {
  }

  lemma OneTap(c: Config, n: nat)
    ensures c.taps == [1.0] ==> GainOf(c, n) == 1.0
  {
    hide Gain;
    if c.taps == [1.0] { GainOfOne(c.taps, n * c.decim); }
  }

  lemma GainOfOne(taps: seq<real>, i: nat)
    requires taps == [1.0]
    ensures Gain(taps, i) == 1.0
  {
    assert TapSum(taps, 0, 1) == TapSum(taps, 0, 0) + taps[0];
  }

  // ---- the resampler and the conversion ----

  /** A straight line is resampled to the same line. */
  lemma LineStays(z: seq<real>, a: real, b: real, step: real, n: nat)
    requires step > 0.0 && (forall i :: 0 <= i < |z| ==> z[i] == a + b * i as real) && n < |Resampled(z, step, 0)|
    ensures Resampled(z, step, 0)[n] == a + b * (n as real * step)
  {
    hide Resampled;
    ResampledGrid(z, step, 0, n);
    var p := Position(step, n);
    var i := p.Floor;
    assert Interpolated(z, p) == z[i] + (z[i + 1] - z[i]) * (p - i as real);
    OnLine(a, b, i, p);
  }

  lemma OnLine(a: real, b: real, i: int, p: real)
    ensures (a + b * i as real) + ((a + b * (i + 1) as real) - (a + b * i as real)) * (p - i as real) == a + b * p
  {
    assert (i + 1) as real == i as real + 1.0;
    assert b * (i as real + 1.0) == b * i as real + b;
    assert b * (p - i as real) == b * p - b * i as real;
  }

  /** A sample within the 16-bit range is off by less than one and never larger than it was; beyond it, it is clipped. */
  lemma PcmNear(v: real, scale: real)
    ensures var s, r := v * scale, Pcm(v, scale);
            && (s >= 32767.0 ==> r == 32767) && (s <= -32768.0 ==> r == -32768)
            && (0.0 <= s <= 32767.0 ==> r as real <= s < r as real + 1.0)
            && (-32768.0 <= s <= 0.0 ==> s <= r as real < s + 1.0)
  {
  }
}
