/** The spectrogram's in-place radix-2 FFT leaves the discrete Fourier transform in its arrays.

    Samples are exact reals.  The twiddle factor of stage `len` is a parameter `w(len)`, of which only
    the algebra of the roots of unity is used: w(2) = -1 and w(2m)^2 = w(m). */
module Fft {

  import opened ComplexNumbers

  function Pow(z: Complex, n: nat): Complex {
    if n == 0 then ONE else Mul(Pow(z, n - 1), z)
  }

  predicate PowerOfTwo(n: int): (b: bool)
    ensures b ==> n >= 1
    decreases n
  {
    n == 1 || (n >= 2 && n % 2 == 0 && PowerOfTwo(n / 2))
  }

  ghost predicate SquaresTo(w: nat -> Complex, m: nat) {
    Mul(w(2 * m), w(2 * m)) == w(m)
  }

  /** What the proof uses of w(len) = e^(-2*pi*i/len). */
  ghost predicate Twiddles(w: nat -> Complex) {
    w(2) == Complex(-1.0, 0.0) && forall m: nat :: m >= 2 ==> SquaresTo(w, m)
  }

  /** The sum over j < m of x[j] * z^(j*k). */
  function DftSum(x: seq<Complex>, z: Complex, k: nat, m: nat): Complex
    requires m <= |x|
  {
    if m == 0 then ZERO else Add(DftSum(x, z, k, m - 1), Mul(x[m - 1], Pow(z, (m - 1) * k)))
  }

  /** Coefficient k of the discrete Fourier transform of x, by its textbook definition. */
  function Dft(x: seq<Complex>, w: nat -> Complex, k: nat): Complex {
    DftSum(x, w(|x|), k, |x|)
  }

  // ---- arithmetic of complex numbers ----

  lemma MulAssoc(a: Complex, b: Complex, c: Complex)
    ensures Mul(Mul(a, b), c) == Mul(a, Mul(b, c))
  {
    assert Mul(Mul(a, b), c).re == Mul(a, Mul(b, c)).re;
    assert Mul(Mul(a, b), c).im == Mul(a, Mul(b, c)).im;
  }

  lemma MulComm(a: Complex, b: Complex)
    ensures Mul(a, b) == Mul(b, a)
  {
  }

  lemma Distribute(a: Complex, b: Complex, c: Complex)
    ensures Mul(a, Add(b, c)) == Add(Mul(a, b), Mul(a, c))
  {
  }

  lemma {:induction false} PowAdd(z: Complex, m: nat, n: nat)
    ensures Pow(z, m + n) == Mul(Pow(z, m), Pow(z, n))
  {
    if n == 0 {
    } else {
      PowAdd(z, m, n - 1);
      MulAssoc(Pow(z, m), Pow(z, n - 1), z);
    }
  }

  lemma {:induction false} PowMul(z: Complex, k: nat, j: nat)
    ensures Pow(Pow(z, k), j) == Pow(z, j * k)
  {
    hide Mul;
    if j == 0 {
    } else {
      PowMul(z, k, j - 1);
      PowAdd(z, (j - 1) * k, k);
      assert (j - 1) * k + k == j * k;
    }
  }

  /** (z^n)^2 = (z^2)^n */
  lemma {:induction false} PowSquare(z: Complex, n: nat)
    ensures Mul(Pow(z, n), Pow(z, n)) == Pow(Mul(z, z), n)
  {
    if n == 0 {
    } else {
      var p := Pow(z, n - 1);
      PowSquare(z, n - 1);
      MulAssoc(p, z, Mul(p, z));
      MulAssoc(z, p, z);
      MulComm(z, p);
      MulAssoc(p, z, z);
      MulAssoc(p, p, Mul(z, z));
    }
  }

  // ---- the recursive transform ----

  /** x[0] + x[1]*z + x[2]*z^2 + ..., by Horner's rule. */
  function Horner(x: seq<Complex>, z: Complex): Complex {
    if x == [] then ZERO else Add(x[0], Mul(z, Horner(x[1..], z)))
  }

  lemma {:induction false} HornerLast(x: seq<Complex>, c: Complex, z: Complex)
    ensures Horner(x + [c], z) == Add(Horner(x, z), Mul(c, Pow(z, |x|)))
  {
    if x == [] {
      assert [c][1..] == [];
    } else {
      assert (x + [c])[1..] == x[1..] + [c];
      HornerLast(x[1..], c, z);
      var p := Pow(z, |x| - 1);
      Distribute(z, Horner(x[1..], z), Mul(c, p));
      MulAssoc(c, p, z);
      MulComm(z, Mul(c, p));
    }
  }

  lemma {:induction false} DftSumIsHorner(x: seq<Complex>, z: Complex, k: nat, m: nat)
    requires m <= |x|
    ensures DftSum(x, z, k, m) == Horner(x[..m], Pow(z, k))
  {
    if m == 0 {
    } else {
      DftSumIsHorner(x, z, k, m - 1);
      assert x[..m] == x[..m - 1] + [x[m - 1]];
      HornerLast(x[..m - 1], x[m - 1], Pow(z, k));
      PowMul(z, k, m - 1);
    }
  }

  function Evens(x: seq<Complex>): (r: seq<Complex>)
    requires |x| % 2 == 0
    ensures 2 * |r| == |x|
    ensures forall i :: 0 <= i < |r| ==> r[i] == x[2 * i]
  {
    seq(|x| / 2, i requires 0 <= i < |x| / 2 => x[2 * i])
  }

  function Odds(x: seq<Complex>): (r: seq<Complex>)
    requires |x| % 2 == 0
    ensures 2 * |r| == |x|
    ensures forall i :: 0 <= i < |r| ==> r[i] == x[2 * i + 1]
  {
    seq(|x| / 2, i requires 0 <= i < |x| / 2 => x[2 * i + 1])
  }

  /** Evaluating a polynomial from its even and odd halves. */
  lemma {:induction false} HornerSplit(x: seq<Complex>, z: Complex)
    requires |x| % 2 == 0
    ensures Horner(x, z) == Add(Horner(Evens(x), Mul(z, z)), Mul(z, Horner(Odds(x), Mul(z, z))))
  {
    if x == [] {
    } else {
      var e, o, y, zz := Evens(x), Odds(x), x[2..], Mul(z, z);
      assert e[1..] == Evens(y);
      assert o[1..] == Odds(y);
      assert x[1..][1..] == y;
      HornerSplit(y, z);
      var he, ho := Horner(e[1..], zz), Horner(o[1..], zz);
      assert Horner(x, z) == Add(x[0], Mul(z, Add(x[1], Mul(z, Add(he, Mul(z, ho))))));
      SplitAlgebra(x[0], x[1], z, he, ho);
    }
  }

  lemma SplitAlgebra(a: Complex, b: Complex, z: Complex, e: Complex, o: Complex)
    ensures Add(a, Mul(z, Add(b, Mul(z, Add(e, Mul(z, o))))))
         == Add(Add(a, Mul(Mul(z, z), e)), Mul(z, Add(b, Mul(Mul(z, z), o))))
  {
    var zo := Mul(z, o);
    Distribute(z, e, zo);
    Distribute(z, b, Add(Mul(z, e), Mul(z, zo)));
    Distribute(z, Mul(z, e), Mul(z, zo));
    MulAssoc(z, z, e);
    MulAssoc(z, z, o);
    Distribute(z, b, Mul(Mul(z, z), o));
  }

  /** Element k of one butterfly pass joining the transforms of the even and the odd half. */
  function CombineAt(e: seq<Complex>, o: seq<Complex>, w: Complex, k: nat): Complex
    requires |e| == |o| && k < 2 * |e|
  {
    if k < |e| then Add(e[k], Mul(o[k], Pow(w, k))) else Sub(e[k - |e|], Mul(o[k - |e|], Pow(w, k - |e|)))
  }

  function Combine(e: seq<Complex>, o: seq<Complex>, w: Complex): (r: seq<Complex>)
    requires |e| == |o|
    ensures |r| == 2 * |e|
    ensures forall k :: 0 <= k < |r| ==> r[k] == CombineAt(e, o, w, k)
  {
    seq(2 * |e|, k requires 0 <= k < 2 * |e| => CombineAt(e, o, w, k))
  }

  /** All the passes over one block. */
  function Butterflies(y: seq<Complex>, w: nat -> Complex): (r: seq<Complex>)
    requires PowerOfTwo(|y|)
    ensures |r| == |y|
  {
    if |y| == 1 then y
    else
      var h := |y| / 2;
      Combine(Butterflies(y[..h], w), Butterflies(y[h..], w), w(|y|))
  }

  /** w(2h)^h = -1 */
  lemma {:induction false} HalfTurn(w: nat -> Complex, h: nat)
    requires Twiddles(w) && PowerOfTwo(h)
    ensures Pow(w(2 * h), h) == Complex(-1.0, 0.0)
  {
    if h == 1 {
      assert Pow(w(2), 1) == Mul(Pow(w(2), 0), w(2));
    } else {
      var g, z := h / 2, w(2 * h);
      assert h == g + g;
      calc {
        Pow(z, h);
        { PowAdd(z, g, g); }
        Mul(Pow(z, g), Pow(z, g));
        { PowSquare(z, g); }
        Pow(Mul(z, z), g);
        { assert SquaresTo(w, h); }
        Pow(w(2 * g), g);
        { HalfTurn(w, g); }
        Complex(-1.0, 0.0);
      }
    }
  }

  // ---- bit reversal ----

  /** i with its log2(n) bits in reverse order. */
  function Reverse(n: nat, i: nat): (r: nat)
    requires PowerOfTwo(n) && i < n
    ensures r < n
    decreases n
  {
    if n == 1 then 0
    else if i % 2 == 0 then Reverse(n / 2, i / 2)
    else n / 2 + Reverse(n / 2, i / 2)
  }

  function BitReversed(x: seq<Complex>): (r: seq<Complex>)
    requires PowerOfTwo(|x|)
    ensures |r| == |x|
    ensures forall i :: 0 <= i < |r| ==> r[i] == x[Reverse(|x|, i)]
  {
    seq(|x|, i requires 0 <= i < |x| => x[Reverse(|x|, i)])
  }

  /** The same reversal, peeling off the top bit of i instead of the bottom one. */
  lemma {:induction false} ReverseFromTop(n: nat, i: nat)
    requires PowerOfTwo(n) && i < n && n > 1
    ensures Reverse(n, i) == if i < n / 2 then 2 * Reverse(n / 2, i) else 2 * Reverse(n / 2, i - n / 2) + 1
    decreases n
  {
    if n == 2 {
    } else {
      ReverseFromTop(n / 2, i / 2);
      assert n / 2 / 2 * 2 == n / 2;
      if i >= n / 2 {
        assert (i - n / 2) / 2 == i / 2 - n / 2 / 2;
      }
    }
  }

  lemma {:induction false} ReverseTwice(n: nat, i: nat)
    requires PowerOfTwo(n) && i < n
    ensures Reverse(n, Reverse(n, i)) == i
    decreases n
  {
    if n == 1 {
    } else {
      ReverseTwice(n / 2, i / 2);
      ReverseFromTop(n, Reverse(n, i));
    }
  }

  /** What the loop on `bit` makes of j: it clears the leading ones and sets the first zero. */
  function CarryDown(n: nat, j: nat): (r: nat)
    requires PowerOfTwo(n) && j < n
    ensures r < n
    decreases n
  {
    if n == 1 then 0
    else if j < n / 2 then j + n / 2
    else CarryDown(n / 2, j - n / 2)
  }

  /** Counting up in reversed bits. */
  lemma {:induction false} CarryDownReverses(n: nat, i: nat)
    requires PowerOfTwo(n) && i + 1 < n
    ensures CarryDown(n, Reverse(n, i)) == Reverse(n, i + 1)
    decreases n
  {
    if i % 2 == 0 {
      assert (i + 1) / 2 == i / 2;
    } else {
      assert (i + 1) / 2 == i / 2 + 1;
      CarryDownReverses(n / 2, i / 2);
    }
  }

  lemma HalvesLength(x: seq<Complex>, h: nat)
    requires PowerOfTwo(h) && |x| == 2 * h
    ensures |Evens(x)| == h && |Odds(x)| == h && |x| / 2 == h > 0
  {
  }

  lemma BitReversedAt(x: seq<Complex>, h: nat, i: nat)
    requires PowerOfTwo(|x|) && PowerOfTwo(h) && |x| == 2 * h && i < |x|
    ensures BitReversed(x)[i] == (BitReversed(Evens(x)) + BitReversed(Odds(x)))[i]
  {
    hide Evens, Odds, Reverse, PowerOfTwo, BitReversed;
    var e, o, n := Evens(x), Odds(x), |x|;
    HalvesLength(x, h);
    ReverseFromTop(n, i);
    assert BitReversed(x)[i] == x[Reverse(n, i)];
    if i < h {
      assert BitReversed(e)[i] == e[Reverse(h, i)];
    } else {
      assert BitReversed(o)[i - h] == o[Reverse(h, i - h)];
    }
  }

  lemma BitReversedHalves(x: seq<Complex>, h: nat)
    requires PowerOfTwo(|x|) && PowerOfTwo(h) && |x| == 2 * h
    ensures BitReversed(x) == BitReversed(Evens(x)) + BitReversed(Odds(x))
  {
    var y, z := BitReversed(x), BitReversed(Evens(x)) + BitReversed(Odds(x));
    assert |y| == |z|;
    forall i | 0 <= i < |y|
      ensures y[i] == z[i]
    {
      BitReversedAt(x, h, i);
    }
  }

  // ---- correctness of the recursive transform ----

  /** Half a turn on, the butterfly's difference is the sum again. */
  lemma HalfTurnAlgebra(e: Complex, o: Complex, p: Complex, z: Complex)
    requires z == Mul(Complex(-1.0, 0.0), p)
    ensures Add(e, Mul(z, o)) == Sub(e, Mul(o, p)) && Mul(z, z) == Mul(p, p)
  {
  }

  lemma {:induction false} SingleHorner(x: seq<Complex>, z: Complex)
    requires |x| == 1
    ensures Horner(x, z) == x[0]
  {
    assert Horner(x[1..], z) == ZERO;
  }

  /** Coefficient k of a half's transform is that half's polynomial at w(n)^(2k). */
  lemma {:induction false} HalfCoefficient(x: seq<Complex>, w: nat -> Complex, k: nat)
    requires Twiddles(w) && PowerOfTwo(|x|) && k < |x|
    ensures Butterflies(BitReversed(x), w)[k] == Horner(x, Mul(Pow(w(2 * |x|), k), Pow(w(2 * |x|), k)))
    decreases |x|, 1
  {
    hide Mul;
    var h, z := |x|, w(2 * |x|);
    if h == 1 {
      SingleHorner(x, Mul(Pow(z, k), Pow(z, k)));
    } else {
      PowSquare(z, k);
      assert SquaresTo(w, h);
      Coefficient(x, w, k);
    }
  }

  /** All passes over the bit-reversed block evaluate the polynomial at w(n)^k. */
  lemma {:induction false} Coefficient(x: seq<Complex>, w: nat -> Complex, k: nat)
    requires Twiddles(w) && PowerOfTwo(|x|) && k < |x|
    ensures Butterflies(BitReversed(x), w)[k] == Horner(x, Pow(w(|x|), k))
    decreases |x|, 0
  {
    if |x| == 1 {
      SingleHorner(x, Pow(w(1), k));
    } else {
      var h, e, o := |x| / 2, BitReversed(Evens(x)), BitReversed(Odds(x));
      var c := if k < h then k else k - h;
      assert PowerOfTwo(h) && |x| == 2 * h;
      BitReversedHalves(x, h);
      HalfCoefficient(Evens(x), w, c);
      HalfCoefficient(Odds(x), w, c);
      JoinHalves(x, w, k);
      assert (e + o)[..h] == e && (e + o)[h..] == o;
      var be, bo := Butterflies(e, w), Butterflies(o, w);
      assert Butterflies(BitReversed(x), w) == Combine(be, bo, w(|x|));
      hide Pow, Horner, Butterflies, Add, Sub;
      assert Butterflies(BitReversed(x), w)[k] == CombineAt(be, bo, w(|x|), k);
    }
  }

  /** The butterfly of the halves' coefficients is the whole's coefficient, in both output halves. */
  lemma JoinHalves(x: seq<Complex>, w: nat -> Complex, k: nat)
    requires Twiddles(w) && PowerOfTwo(|x|) && |x| > 1 && k < |x|
    ensures var h := |x| / 2;
            var p := Pow(w(|x|), if k < h then k else k - h);
            var e, o := Horner(Evens(x), Mul(p, p)), Horner(Odds(x), Mul(p, p));
            Horner(x, Pow(w(|x|), k)) == if k < h then Add(e, Mul(o, p)) else Sub(e, Mul(o, p))
  {
    hide Mul, Evens, Odds;
    var h, z := |x| / 2, Pow(w(|x|), k);
    var c := if k < h then k else k - h;
    var p := Pow(w(|x|), c);
    HornerSplit(x, z);
    var e, o := Horner(Evens(x), Mul(p, p)), Horner(Odds(x), Mul(p, p));
    MulComm(o, p);
    if k >= h {
      HalfTurn(w, h);
      PowAdd(w(|x|), h, c);
      HalfTurnAlgebra(e, o, p, z);
    }
  }

  lemma ButterfliesAreDft(x: seq<Complex>, w: nat -> Complex, k: nat)
    requires Twiddles(w) && PowerOfTwo(|x|) && k < |x|
    ensures Butterflies(BitReversed(x), w)[k] == Dft(x, w, k)
  {
    hide Mul, Pow, DftSum, Horner, Butterflies;
    Coefficient(x, w, k);
    DftSumIsHorner(x, w(|x|), k, |x|);
    assert x[..|x|] == x;
  }

  // ---- the in-place algorithm ----

  /** The two arrays read as one sequence of complex numbers. */
  function Values(re: seq<real>, im: seq<real>): (r: seq<Complex>)
    requires |re| == |im|
    ensures |r| == |re|
    ensures forall k :: 0 <= k < |r| ==> r[k] == Complex(re[k], im[k])
  {
    seq(|re|, k requires 0 <= k < |re| => Complex(re[k], im[k]))
  }

  function At(re: array<real>, im: array<real>, k: int): Complex
    requires re.Length == im.Length && 0 <= k < re.Length
    reads re, im
  {
    Complex(re[k], im[k])
  }

  /** `j & bit` for a power of two `bit`. */
  predicate HasBit(j: nat, bit: nat) {
    bit > 0 && j / bit % 2 == 1
  }

  lemma TopBit(j: nat, bit: nat)
    requires 0 < bit && j < 2 * bit
    ensures HasBit(j, bit) <==> bit <= j
  {
    if j < bit {
      assert j / bit == 0;
    } else {
      assert j == bit + (j - bit);
      assert j / bit == 1;
    }
  }

  /** The reversed increment of j: flip bits from the top down to the first clear one. */
  method NextReversed(n: nat, j: nat) returns (r: nat)
    requires PowerOfTwo(n) && j < n
    ensures r == CarryDown(n, j)
  {
    hide HasBit;
    r := j;
    var bit := n / 2;
    ghost var size := n;
    if bit > 0 { TopBit(r, bit); }
    while HasBit(r, bit)
      invariant PowerOfTwo(size) && r < size && bit == size / 2
      invariant 0 < bit ==> (HasBit(r, bit) <==> bit <= r)
      invariant CarryDown(size, r) == CarryDown(n, j)
      decreases size
    {
      assert bit > 0 by { if bit == 0 { NoBit(r); } }
      size := bit;
      r := r - bit;
      bit := bit / 2;
      if bit > 0 { TopBit(r, bit); }
    }
    r := r + bit;
  }

  lemma NoBit(j: nat)
    ensures !HasBit(j, 0)
  {
  }

  lemma {:induction false} ReverseZero(n: nat)
    requires PowerOfTwo(n)
    ensures Reverse(n, 0) == 0
    decreases n
  {
    if n > 1 {
      ReverseZero(n / 2);
    }
  }

  /** x with the positions paired by perm already swapped when one of the two is below i. */
  ghost function SwappedBelow<T>(x: seq<T>, perm: seq<nat>, i: nat): (r: seq<T>)
    requires |perm| == |x| && forall p :: 0 <= p < |x| ==> perm[p] < |x|
    ensures |r| == |x|
    ensures forall p :: 0 <= p < |x| ==> r[p] == if p < i || perm[p] < i then x[perm[p]] else x[p]
  {
    seq(|x|, p requires 0 <= p < |x| => if p < i || perm[p] < i then x[perm[p]] else x[p])
  }

  lemma SwapStep<T>(x: seq<T>, perm: seq<nat>, i: nat)
    requires |perm| == |x| && i < |x| && forall p :: 0 <= p < |x| ==> perm[p] < |x|
    requires forall p :: 0 <= p < |x| ==> perm[perm[p]] == p
    ensures var s, j := SwappedBelow(x, perm, i), perm[i];
            SwappedBelow(x, perm, i + 1) == if i < j then s[i := s[j]][j := s[i]] else s
  {
    hide SwappedBelow;
    var s, t, j := SwappedBelow(x, perm, i), SwappedBelow(x, perm, i + 1), perm[i];
    var u := if i < j then s[i := s[j]][j := s[i]] else s;
    forall p | 0 <= p < |x|
      ensures t[p] == u[p]
    {
      assert perm[perm[p]] == p && perm[j] == i;
    }
  }

  /** The bit-reversal permutation of 0 .. n-1; it is its own inverse. */
  ghost function Permutation(n: nat): (perm: seq<nat>)
    requires PowerOfTwo(n)
    ensures |perm| == n
    ensures forall p :: 0 <= p < n ==> perm[p] == Reverse(n, p) < n
    ensures forall p :: 0 <= p < n ==> perm[perm[p]] == p
    ensures perm[0] == 0
  {
    ReverseZero(n);
    var perm := seq(n, p requires 0 <= p < n => Reverse(n, p));
    assert forall p :: 0 <= p < n ==> perm[perm[p]] == p by {
      forall p | 0 <= p < n ensures perm[perm[p]] == p { ReverseTwice(n, p); }
    }
    perm
  }

  lemma AllSwapped(re: seq<real>, im: seq<real>, perm: seq<nat>)
    requires |perm| == |re| == |im| && PowerOfTwo(|re|)
    requires forall p :: 0 <= p < |re| ==> perm[p] == Reverse(|re|, p) < |re|
    ensures Values(SwappedBelow(re, perm, |re|), SwappedBelow(im, perm, |re|)) == BitReversed(Values(re, im))
  {
    hide Reverse, PowerOfTwo, SwappedBelow, Values, BitReversed;
    var v := BitReversed(Values(re, im));
    forall p | 0 <= p < |re|
      ensures v[p] == Complex(re[perm[p]], im[perm[p]])
    {
    }
  }

  method Swap<T>(a: array<T>, i: nat, j: nat)
    requires i < j < a.Length
    modifies a
    ensures a[..] == old(a[..])[i := old(a[j])][j := old(a[i])]
  {
    a[i], a[j] := a[j], a[i];
  }

  /** Swap every element with the one at the bit-reversed position, once. */
  method ReverseBits(re: array<real>, im: array<real>)
    requires re != im && re.Length == im.Length && PowerOfTwo(re.Length)
    modifies re, im
    ensures Values(re[..], im[..]) == BitReversed(Values(old(re[..]), old(im[..])))
  {
    hide Permutation, Reverse, CarryDown, PowerOfTwo, SwappedBelow, Values, BitReversed;
    var n, i, j := re.Length, 1, 0;
    ghost var x, y := re[..], im[..];
    ghost var perm := Permutation(n);
    assert x == SwappedBelow(x, perm, 1) && y == SwappedBelow(y, perm, 1) by {
      SwapStep(x, perm, 0);
      SwapStep(y, perm, 0);
    }
    while i < n
      invariant 1 <= i <= n && j == perm[i - 1]
      invariant re[..] == SwappedBelow(x, perm, i) && im[..] == SwappedBelow(y, perm, i)
    {
      CarryDownReverses(n, i - 1);
      j := NextReversed(n, j);
      SwapStep(x, perm, i);
      SwapStep(y, perm, i);
      if i < j {
        Swap(re, i, j);
        Swap(im, i, j);
      }
      i := i + 1;
    }
    AllSwapped(x, y, perm);
  }

  // ---- butterfly passes ----

  /** Element k of v after the first j butterflies of the block of 2 * half elements at i. */
  ghost function PartAt(v: seq<Complex>, i: nat, half: nat, w: Complex, j: nat, k: nat): Complex
    requires i + 2 * half <= |v| && j <= half && k < |v|
  {
    if i <= k < i + j then Add(v[k], Mul(v[k + half], Pow(w, k - i)))
    else if i + half <= k < i + half + j then Sub(v[k - half], Mul(v[k], Pow(w, k - half - i)))
    else v[k]
  }

  ghost function PartOfBlock(v: seq<Complex>, i: nat, half: nat, w: Complex, j: nat): (r: seq<Complex>)
    requires i + 2 * half <= |v| && j <= half
    ensures |r| == |v|
    ensures forall k :: 0 <= k < |v| ==> r[k] == PartAt(v, i, half, w, j, k)
  {
    seq(|v|, k requires 0 <= k < |v| => PartAt(v, i, half, w, j, k))
  }

  lemma NextButterfly(v: seq<Complex>, i: nat, half: nat, w: Complex, j: nat)
    requires i + 2 * half <= |v| && j < half
    ensures var r, a, b := PartOfBlock(v, i, half, w, j), i + j, i + j + half;
            var t := Mul(r[b], Pow(w, j));
            PartOfBlock(v, i, half, w, j + 1) == r[b := Sub(r[a], t)][a := Add(r[a], t)]
  {
    hide PartOfBlock, Mul, Pow, Add, Sub;
    var r, s, a, b := PartOfBlock(v, i, half, w, j), PartOfBlock(v, i, half, w, j + 1), i + j, i + j + half;
    assert r[a] == v[a] && r[b] == v[b];
    var t := Mul(r[b], Pow(w, j));
    var u := r[b := Sub(r[a], t)][a := Add(r[a], t)];
    assert s[a] == u[a];
    assert s[b] == u[b];
    forall k | 0 <= k < |v| && k != a && k != b
      ensures s[k] == u[k]
    {
      assert PartAt(v, i, half, w, j + 1, k) == PartAt(v, i, half, w, j, k);
    }
  }

  lemma WholeBlock(v: seq<Complex>, i: nat, half: nat, w: Complex)
    requires i + 2 * half <= |v|
    ensures PartOfBlock(v, i, half, w, half) ==
            v[..i] + Combine(v[i..i + half], v[i + half..i + 2 * half], w) + v[i + 2 * half..]
  {
    hide PartOfBlock, Combine, Mul, Pow, Add, Sub;
    var e, o := v[i..i + half], v[i + half..i + 2 * half];
    var r, c := PartOfBlock(v, i, half, w, half), Combine(e, o, w);
    var u := v[..i] + c + v[i + 2 * half..];
    forall k | 0 <= k < |v|
      ensures r[k] == u[k]
    {
      if i <= k < i + 2 * half {
        assert u[k] == c[k - i] == CombineAt(e, o, w, k - i);
        assert r[k] == PartAt(v, i, half, w, half, k);
      }
    }
  }

  lemma ValuesUpdate(re: seq<real>, im: seq<real>, k: nat, c: Complex)
    requires |re| == |im| && k < |re|
    ensures Values(re[k := c.re], im[k := c.im]) == Values(re, im)[k := c]
  {
    hide Values;
    var x, y := Values(re[k := c.re], im[k := c.im]), Values(re, im)[k := c];
    forall p | 0 <= p < |re| ensures x[p] == y[p] { }
  }

  lemma NextTwiddle(cr: real, ci: real, wr: real, wi: real, j: nat)
    requires Complex(cr, ci) == Pow(Complex(wr, wi), j)
    ensures Complex(cr * wr - ci * wi, cr * wi + ci * wr) == Pow(Complex(wr, wi), j + 1)
  {
  }

  /** One butterfly, on the elements at a and b. */
  method Butterfly(re: array<real>, im: array<real>, a: nat, b: nat, cr: real, ci: real)
    requires re != im && re.Length == im.Length && a < b < re.Length
    modifies re, im
    ensures var v := Values(old(re[..]), old(im[..]));
            var t := Mul(v[b], Complex(cr, ci));
            Values(re[..], im[..]) == v[b := Sub(v[a], t)][a := Add(v[a], t)]
  {
    ghost var x, y := re[..], im[..];
    var vr, vi := re[b] * cr - im[b] * ci, re[b] * ci + im[b] * cr;
    ghost var t := Complex(vr, vi);
    assert t == Mul(Values(x, y)[b], Complex(cr, ci));
    hide Values, Mul;
    ghost var d, s := Sub(Values(x, y)[a], t), Add(Values(x, y)[a], t);
    ValuesUpdate(x, y, b, d);
    ValuesUpdate(x[b := d.re], y[b := d.im], a, s);
    re[b], im[b] := re[a] - vr, im[a] - vi;
    re[a], im[a] := re[a] + vr, im[a] + vi;
  }

  /** The inner loop: one block of `2 * half` elements at i, cr + ci*j running through the powers of wr + wi*j. */
  method ButterflyBlock(re: array<real>, im: array<real>, i: nat, half: nat, wr: real, wi: real)
    requires re != im && re.Length == im.Length && i + 2 * half <= re.Length
    modifies re, im
    ensures var v := Values(old(re[..]), old(im[..]));
            Values(re[..], im[..]) ==
            v[..i] + Combine(v[i..i + half], v[i + half..i + 2 * half], Complex(wr, wi)) + v[i + 2 * half..]
  {
    var cr, ci, j := 1.0, 0.0, 0;
    ghost var w := Complex(wr, wi);
    ghost var v := Values(re[..], im[..]);
    assert Pow(w, 0) == Complex(cr, ci);
    hide Values, PartOfBlock, Combine, Add, Sub, Mul, Pow;
    assert v == PartOfBlock(v, i, half, w, 0);
    while j < half
      invariant 0 <= j <= half && Complex(cr, ci) == Pow(w, j)
      invariant Values(re[..], im[..]) == PartOfBlock(v, i, half, w, j)
    {
      var a := i + j;
      var b := a + half;
      NextButterfly(v, i, half, w, j);
      Butterfly(re, im, a, b, cr, ci);
      NextTwiddle(cr, ci, wr, wi, j);
      var ncr := cr * wr - ci * wi;
      ci := cr * wi + ci * wr;
      cr := ncr;
      j := j + 1;
    }
    WholeBlock(v, i, half, w);
  }

  /** y with every complete block of len elements transformed. */
  ghost function Blocks(y: seq<Complex>, len: nat, w: nat -> Complex): (r: seq<Complex>)
    requires PowerOfTwo(len)
    ensures |r| == |y|
  {
    if |y| < len then y else Butterflies(y[..len], w) + Blocks(y[len..], len, w)
  }

  ghost predicate Divides(len: nat, m: nat)
    requires len > 0
    decreases m
  {
    m == 0 || (m >= len && Divides(len, m - len))
  }

  lemma {:induction false} DividesSum(len: nat, a: nat, b: nat)
    requires len > 0 && Divides(len, a) && Divides(len, b)
    ensures Divides(len, a + b)
    decreases a
  {
    if a > 0 {
      DividesSum(len, a - len, b);
    }
  }

  lemma {:induction false} SmallerPower(m: nat, n: nat)
    requires PowerOfTwo(m) && PowerOfTwo(n) && m < n
    ensures 2 * m <= n
    decreases m
  {
    if m > 1 {
      SmallerPower(m / 2, n / 2);
    }
  }

  lemma {:induction false} PowerDivides(m: nat, n: nat)
    requires PowerOfTwo(m) && PowerOfTwo(n) && m <= n
    ensures Divides(m, n)
    decreases n
  {
    if m < n {
      SmallerPower(m, n);
      PowerDivides(m, n / 2);
      DividesSum(m, n / 2, n / 2);
    }
  }

  lemma {:induction false} BlocksAppend(a: seq<Complex>, b: seq<Complex>, len: nat, w: nat -> Complex)
    requires PowerOfTwo(len) && Divides(len, |a|)
    ensures Blocks(a + b, len, w) == Blocks(a, len, w) + Blocks(b, len, w)
    decreases |a|
  {
    hide Butterflies;
    if |a| == 0 {
      assert a + b == b;
    } else {
      assert (a + b)[..len] == a[..len] && (a + b)[len..] == a[len..] + b;
      BlocksAppend(a[len..], b, len, w);
    }
  }

  lemma {:induction false} BlocksOfOne(y: seq<Complex>, w: nat -> Complex)
    ensures Blocks(y, 1, w) == y
  {
    if y != [] {
      BlocksOfOne(y[1..], w);
    }
  }

  lemma BlocksOfAll(y: seq<Complex>, w: nat -> Complex)
    requires PowerOfTwo(|y|)
    ensures Blocks(y, |y|, w) == Butterflies(y, w)
  {
    hide Butterflies;
    assert y[..|y|] == y;
  }

  /** The elements below i are in blocks of 2 * half already, the others still in blocks of half. */
  ghost function HalfWay(y: seq<Complex>, i: nat, half: nat, w: nat -> Complex): (r: seq<Complex>)
    requires PowerOfTwo(half) && i <= |y|
    ensures |r| == |y|
  {
    assert PowerOfTwo(2 * half);
    Blocks(y[..i], 2 * half, w) + Blocks(y[i..], half, w)
  }

  lemma FourParts<T>(p: seq<T>, e: seq<T>, o: seq<T>, r: seq<T>, i: nat, half: nat)
    requires |p| == i && |e| == half && |o| == half
    ensures var v := p + (e + (o + r));
            v[..i] == p && v[i..i + half] == e && v[i + half..i + 2 * half] == o && v[i + 2 * half..] == r
  {
  }

  lemma SplitInFour<T>(y: seq<T>, a: seq<T>, b: seq<T>, c: seq<T>, d: seq<T>, i: nat, half: nat)
    requires i + 2 * half <= |y|
    requires a == y[..i] && b == y[i..i + half] && c == y[i + half..i + 2 * half] && d == y[i + 2 * half..]
    ensures y[i..] == b + (c + d) && y[..i + 2 * half] == a + (b + c)
  {
  }

  lemma FirstBlock(b: seq<Complex>, d: seq<Complex>, len: nat, w: nat -> Complex)
    requires PowerOfTwo(len) && |b| == len
    ensures Blocks(b + d, len, w) == Butterflies(b, w) + Blocks(d, len, w)
  {
    assert (b + d)[..len] == b && (b + d)[len..] == d;
  }

  lemma JoinedBlock(b: seq<Complex>, c: seq<Complex>, w: nat -> Complex)
    requires PowerOfTwo(|b|) && PowerOfTwo(2 * |b|) && |c| == |b|
    ensures Butterflies(b + c, w) == Combine(Butterflies(b, w), Butterflies(c, w), w(2 * |b|))
    ensures Blocks(b + c, 2 * |b|, w) == Butterflies(b + c, w)
  {
    assert (b + c)[..|b|] == b && (b + c)[|b|..] == c;
    BlocksOfAll(b + c, w);
  }

  /** One block of the pass: combining the two transformed halves at i. */
  lemma PassStep(y: seq<Complex>, i: nat, half: nat, w: nat -> Complex)
    requires PowerOfTwo(half) && PowerOfTwo(2 * half) && Divides(2 * half, i) && i + 2 * half <= |y|
    ensures var v := HalfWay(y, i, half, w);
            HalfWay(y, i + 2 * half, half, w)
            == v[..i] + Combine(v[i..i + half], v[i + half..i + 2 * half], w(2 * half)) + v[i + 2 * half..]
  {
    var len := 2 * half;
    var a, b, c, d := y[..i], y[i..i + half], y[i + half..i + len], y[i + len..];
    SplitInFour(y, a, b, c, d, i, half);
    assert HalfWay(y, i, half, w) == Blocks(a, len, w) + Blocks(b + (c + d), half, w);
    assert HalfWay(y, i + len, half, w) == Blocks(a + (b + c), len, w) + Blocks(d, half, w);
    hide HalfWay, Butterflies, Combine, Blocks, PowerOfTwo;
    FirstBlock(b, c + d, half, w);
    FirstBlock(c, d, half, w);
    BlocksAppend(a, b + c, len, w);
    JoinedBlock(b, c, w);
    FourParts(Blocks(a, len, w), Butterflies(b, w), Butterflies(c, w), Blocks(d, half, w), i, half);
  }

  /** The passes: blocks of 2, 4, ... , n elements. */
  lemma DoublePower(n: nat)
    ensures PowerOfTwo(1) && (PowerOfTwo(n) ==> PowerOfTwo(2 * n))
  {
    assert PowerOfTwo(n) ==> (2 * n) / 2 == n;
  }

  method Passes(re: array<real>, im: array<real>, w: nat -> Complex)
    requires re != im && re.Length == im.Length && PowerOfTwo(re.Length)
    modifies re, im
    ensures Values(re[..], im[..]) == Butterflies(Values(old(re[..]), old(im[..])), w)
  {
    hide Values, Combine, Butterflies, Blocks, PowerOfTwo;
    var n, len := re.Length, 2;
    ghost var y := Values(re[..], im[..]);
    ghost var done := 1;
    DoublePower(1);
    BlocksOfOne(y, w);
    while len <= n
      invariant len == 2 * done && PowerOfTwo(done) && done <= n
      invariant Values(re[..], im[..]) == Blocks(y, done, w)
    {
      var half := len / 2;
      DoublePower(done);
      Pass(re, im, half, w, y);
      len, done := 2 * len, len;
    }
    if done < n {
      SmallerPower(done, n);
    }
    BlocksOfAll(y, w);
  }

  method PassBlock(re: array<real>, im: array<real>, i: nat, half: nat, root: Complex,
                   ghost w: nat -> Complex, ghost y: seq<Complex>)
    requires re != im && re.Length == im.Length == |y| && root == w(2 * half)
    requires PowerOfTwo(half) && PowerOfTwo(2 * half) && Divides(2 * half, i) && i + 2 * half <= |y|
    requires Values(re[..], im[..]) == HalfWay(y, i, half, w)
    modifies re, im
    ensures Values(re[..], im[..]) == HalfWay(y, i + 2 * half, half, w)
  {
    PassStep(y, i, half, w);
    hide HalfWay, Values, Combine, PowerOfTwo, Divides;
    ButterflyBlock(re, im, i, half, root.re, root.im);
  }

  /** One pass over all blocks of `2 * half` elements. */
  method Pass(re: array<real>, im: array<real>, half: nat, w: nat -> Complex, ghost y: seq<Complex>)
    requires re != im && re.Length == im.Length == |y| && PowerOfTwo(re.Length)
    requires PowerOfTwo(half) && PowerOfTwo(2 * half) && 2 * half <= |y|
    requires Values(re[..], im[..]) == Blocks(y, half, w)
    modifies re, im
    ensures Values(re[..], im[..]) == Blocks(y, 2 * half, w)
  {
    hide HalfWay, Values, Butterflies, Combine, Blocks, PowerOfTwo, Divides;
    var n, i, len := re.Length, 0, 2 * half;
    PassEnds(y, half, w);
    while i < n
      invariant 0 <= i <= n && Divides(len, i) && Divides(len, n - i)
      invariant Values(re[..], im[..]) == HalfWay(y, i, half, w)
    {
      NextBlock(len, n, i);
      PassBlock(re, im, i, half, w(len), w, y);
      i := i + len;
    }
  }

  lemma NextBlock(len: nat, n: nat, i: nat)
    requires 0 < len && i < n && Divides(len, i) && Divides(len, n - i)
    ensures i + len <= n && Divides(len, i + len) && Divides(len, n - (i + len))
  {
  }

  lemma PassEnds(y: seq<Complex>, half: nat, w: nat -> Complex)
    requires PowerOfTwo(half) && PowerOfTwo(2 * half) && PowerOfTwo(|y|) && 2 * half <= |y|
    ensures HalfWay(y, 0, half, w) == Blocks(y, half, w)
    ensures HalfWay(y, |y|, half, w) == Blocks(y, 2 * half, w)
    ensures Divides(2 * half, 0) && Divides(2 * half, |y|)
  {
    PowerDivides(2 * half, |y|);
    hide Butterflies;
    assert y[..0] == [] && y[0..] == y && y[..|y|] == y && y[|y|..] == [];
  }

  /** The whole transform: given the roots of unity, the arrays end up holding the discrete Fourier
      transform of what they held. */
  method FftRadix2(re: array<real>, im: array<real>, w: nat -> Complex)
    requires re != im && re.Length == im.Length && PowerOfTwo(re.Length) && Twiddles(w)
    modifies re, im
    ensures forall k :: 0 <= k < re.Length ==> At(re, im, k) == Dft(Values(old(re[..]), old(im[..])), w, k)
  {
    ghost var x := Values(re[..], im[..]);
    ReverseBits(re, im);
    Passes(re, im, w);
    forall k | 0 <= k < re.Length
      ensures At(re, im, k) == Dft(x, w, k)
    {
      ButterfliesAreDft(x, w, k);
      assert Values(re[..], im[..])[k] == At(re, im, k);
    }
  }
}
