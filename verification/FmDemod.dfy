/** The wideband FM demodulator's channel filter: its decimation starts afresh with every block, so the blocks join up
    to one call on the whole stream exactly when every block starts on the decimation grid. */
module FmDemod {
  import opened ComplexNumbers
  import opened Demod

  /** The indices from, from + decim, ... below end. */
  function Grid(from: nat, end: nat, decim: nat): seq<nat>
    requires decim > 0
    decreases end - from
  {
    if from >= end then [] else [from] + Grid(from + decim, end, decim)
  }

  /** n is a multiple of decim. */
  predicate OnGrid(n: nat, decim: nat)
    requires decim > 0
  {
    n == 0 || (n >= decim && OnGrid(n - decim, decim))
  }

  /** Where in the stream the outputs of the blocks sit, the first block starting at `start`. */
  function Positions<T>(blocks: seq<seq<T>>, start: nat, decim: nat): seq<nat>
    requires decim > 0
  {
    if blocks == [] then []
    else Grid(start, start + |blocks[0]|, decim) + Positions(blocks[1..], start + |blocks[0]|, decim)
  }

  /** Every block that holds samples starts on the grid. */
  predicate Aligned<T>(blocks: seq<seq<T>>, start: nat, decim: nat)
    requires decim > 0
  {
    blocks == [] || ((blocks[0] != [] ==> OnGrid(start, decim)) && Aligned(blocks[1..], start + |blocks[0]|, decim))
  }

  function Length<T>(blocks: seq<seq<T>>): nat {
    if blocks == [] then 0 else |blocks[0]| + Length(blocks[1..])
  }

  lemma {:induction false} GridOnGrid(from: nat, end: nat, decim: nat)
    requires decim > 0 && OnGrid(from, decim)
    ensures forall i :: 0 <= i < |Grid(from, end, decim)| ==> OnGrid(Grid(from, end, decim)[i], decim)
    decreases end - from
  {
    if from < end { GridOnGrid(from + decim, end, decim); }
  }

  /** Where the grid from `from` passes n, when n is on it. */
  lemma {:induction false} GridSplit(from: nat, n: nat, end: nat, decim: nat)
    requires decim > 0 && from <= n <= end && OnGrid(n - from, decim)
    ensures Grid(from, end, decim) == Grid(from, n, decim) + Grid(n, end, decim)
    decreases n - from
  {
    if from < n { GridSplit(from + decim, n, end, decim); }
  }

  lemma {:induction false} GridShift(from: nat, end: nat, n: nat, decim: nat)
    requires decim > 0 && OnGrid(from, decim) && from <= n && OnGrid(n, decim)
    ensures OnGrid(n - from, decim)
    decreases from
  {
    if from > 0 { GridShift(from - decim, end, n - decim, decim); }
  }

  lemma {:induction false} LaterStart<T>(blocks: seq<seq<T>>, start: nat, decim: nat)
    requires decim > 0 && Aligned(blocks, start, decim) && Length(blocks) > 0
    ensures OnGrid(start, decim)
  {
    if blocks[0] == [] { LaterStart(blocks[1..], start, decim); }
  }

  /** Blocks that start on the grid sample it as one call does. */
  lemma {:induction false} AlignedPositions<T>(blocks: seq<seq<T>>, start: nat, decim: nat)
    requires decim > 0 && Aligned(blocks, start, decim)
    ensures Positions(blocks, start, decim) == Grid(start, start + Length(blocks), decim)
  {
    if blocks != [] {
      var next, end := start + |blocks[0]|, start + Length(blocks);
      AlignedPositions(blocks[1..], next, decim);
      if Length(blocks[1..]) == 0 {
        assert Grid(start, next, decim) + [] == Grid(start, next, decim);
      } else if blocks[0] != [] {
        LaterStart(blocks[1..], next, decim);
        GridShift(start, end, next, decim);
        GridSplit(start, next, end, decim);
      }
    }
  }

  lemma {:induction false} StartsAreSampled<T>(blocks: seq<seq<T>>, start: nat, decim: nat)
    requires decim > 0 && !Aligned(blocks, start, decim)
    ensures exists p :: p in Positions(blocks, start, decim) && !OnGrid(p, decim)
  {
    var next := start + |blocks[0]|;
    var g, rest := Grid(start, next, decim), Positions(blocks[1..], next, decim);
    if blocks[0] != [] && !OnGrid(start, decim) {
      assert (g + rest)[0] == start;
    } else {
      StartsAreSampled(blocks[1..], next, decim);
      var p :| p in rest && !OnGrid(p, decim);
      assert p in g + rest;
    }
  }

  /** The blocks are sampled where one call on the whole stream samples exactly when each starts on the grid. */
  lemma SampledAlikeIffAligned<T>(blocks: seq<seq<T>>, decim: nat)
    requires decim > 0
    ensures Positions(blocks, 0, decim) == Grid(0, Length(blocks), decim) <==> Aligned(blocks, 0, decim)
  {
    if Aligned(blocks, 0, decim) {
      AlignedPositions(blocks, 0, decim);
    } else {
      StartsAreSampled(blocks, 0, decim);
      var p :| p in Positions(blocks, 0, decim) && !OnGrid(p, decim);
      GridOnGrid(0, Length(blocks), decim);
    }
  }

  // ---- the outputs ----

  predicate Below(ps: seq<nat>, n: nat) {
    forall i :: 0 <= i < |ps| ==> ps[i] < n
  }

  /** The filter's outputs at the positions ps of x. */
  function OutputsAt<T>(k: Kernel<T>, x: seq<T>, ps: seq<nat>): seq<T>
    requires k.Valid() && Below(ps, |x|)
  {
    if ps == [] then [] else [FilteredAt(k, x, ps[0])] + OutputsAt(k, x, ps[1..])
  }

  lemma {:induction false} GridWithin(from: nat, end: nat, decim: nat)
    requires decim > 0
    ensures Below(Grid(from, end, decim), end)
    decreases end - from
  {
    if from < end { GridWithin(from + decim, end, decim); }
  }

  lemma {:induction false} FilteredIsGrid<T>(k: Kernel<T>, x: seq<T>, decim: nat, from: nat)
    requires k.Valid() && decim > 0
    ensures Below(Grid(from, |x|, decim), |x|)
    ensures Filtered(k, x, decim, from) == OutputsAt(k, x, Grid(from, |x|, decim))
    decreases |x| - from
  {
    GridWithin(from, |x|, decim);
    if from < |x| {
      FilteredIsGrid(k, x, decim, from + decim);
      var g := Grid(from, |x|, decim);
      assert g[1..] == Grid(from + decim, |x|, decim);
    }
  }

  /** What was sampled stays the same when more samples follow. */
  lemma {:induction false} OutputsStay<T>(k: Kernel<T>, a: seq<T>, b: seq<T>, ps: seq<nat>)
    requires k.Valid() && Below(ps, |a|)
    ensures Below(ps, |a + b|) && OutputsAt(k, a + b, ps) == OutputsAt(k, a, ps)
  {
    if ps != [] {
      assert Padded(k, a + b) == Padded(k, a) + b;
      assert Padded(k, a + b)[ps[0]..ps[0] + |k.taps|] == Padded(k, a)[ps[0]..ps[0] + |k.taps|];
      OutputsStay(k, a, b, ps[1..]);
    }
  }

  lemma {:induction false} OutputsJoin<T>(k: Kernel<T>, x: seq<T>, a: seq<nat>, b: seq<nat>)
    requires k.Valid() && Below(a, |x|) && Below(b, |x|)
    ensures Below(a + b, |x|)
    ensures OutputsAt(k, x, a + b) == OutputsAt(k, x, a) + OutputsAt(k, x, b)
  {
    if a == [] {
      assert a + b == b;
    } else {
      assert (a + b)[0] == a[0] && (a + b)[1..] == a[1..] + b;
      OutputsJoin(k, x, a[1..], b);
    }
  }

  lemma {:induction false} PositionsWithin<T>(blocks: seq<seq<T>>, start: nat, decim: nat)
    requires decim > 0
    ensures Below(Positions(blocks, start, decim), start + Length(blocks))
  {
    if blocks != [] {
      GridWithin(start, start + |blocks[0]|, decim);
      PositionsWithin(blocks[1..], start + |blocks[0]|, decim);
    }
  }

  /** The joined blocks, from the front. */
  lemma {:induction false} JoinedFirst<T>(blocks: seq<seq<T>>)
    requires blocks != []
    ensures Joined(blocks) == blocks[0] + Joined(blocks[1..])
  {
    var before, last := blocks[..|blocks| - 1], blocks[|blocks| - 1];
    if before == [] {
      assert blocks[1..] == [];
      assert [] + last == last + [];
    } else {
      JoinedFirst(before);
      assert blocks[1..][..|blocks| - 2] == before[1..];
      assert blocks[0] + Joined(before[1..]) + last == blocks[0] + (Joined(before[1..]) + last);
    }
  }

  lemma {:induction false} JoinedLength<T>(blocks: seq<seq<T>>)
    ensures |Joined(blocks)| == Length(blocks)
  {
    hide Joined;
    if blocks != [] {
      JoinedFirst(blocks);
      JoinedLength(blocks[1..]);
    } else {
      JoinedNone(blocks);
    }
  }

  lemma JoinedNone<T>(blocks: seq<seq<T>>)
    requires blocks == []
    ensures Joined(blocks) == []
  {
  }

  /** The outputs of the blocks, after `seen`. */
  function BlockwiseOutputs<T>(k: Kernel<T>, seen: seq<T>, blocks: seq<seq<T>>, decim: nat): seq<T>
    requires k.Valid() && decim > 0
    decreases |blocks|
  {
    if blocks == [] then []
    else Filtered(k, seen + blocks[0], decim, |seen|) + BlockwiseOutputs(k, seen + blocks[0], blocks[1..], decim)
  }

  lemma {:induction false} BlockwiseIsSampled<T>(k: Kernel<T>, seen: seq<T>, blocks: seq<seq<T>>, decim: nat)
    requires k.Valid() && decim > 0
    ensures Below(Positions(blocks, |seen|, decim), |seen + Joined(blocks)|)
    ensures BlockwiseOutputs(k, seen, blocks, decim) == OutputsAt(k, seen + Joined(blocks), Positions(blocks, |seen|, decim))
    decreases |blocks|
  {
    PositionsWithin(blocks, |seen|, decim);
    JoinedLength(blocks);
    if blocks != [] {
      hide Filtered, FilteredAt, Grid, OutputsAt, Joined, Below;
      JoinedFirst(blocks);
      var next := seen + blocks[0];
      var g := Grid(|seen|, |next|, decim);
      FilteredIsGrid(k, next, decim, |seen|);
      BlockwiseIsSampled(k, next, blocks[1..], decim);
      assert seen + Joined(blocks) == next + Joined(blocks[1..]);
      OutputsStay(k, next, Joined(blocks[1..]), g);
      OutputsJoin(k, seen + Joined(blocks), g, Positions(blocks[1..], |next|, decim));
    } else {
      assert OutputsAt(k, seen + Joined(blocks), []) == [];
    }
  }

  /** Blocks that start on the grid give, together, what one call on the whole stream gives. */
  lemma AlignedStream<T>(k: Kernel<T>, blocks: seq<seq<T>>, decim: nat)
    requires k.Valid() && decim > 0 && Aligned(blocks, 0, decim)
    ensures BlockwiseOutputs(k, [], blocks, decim) == Filtered(k, Joined(blocks), decim, 0)
  {
    hide Filtered, OutputsAt, BlockwiseOutputs, Grid, Positions;
    BlockwiseIsSampled(k, [], blocks, decim);
    AlignedPositions(blocks, 0, decim);
    JoinedLength(blocks);
    FilteredIsGrid(k, Joined(blocks), decim, 0);
    assert [] + Joined(blocks) == Joined(blocks);
  }

  // ---- blocks off the grid ----

  /** The filter of one tap that gives every sample as it is. */
  const AS_IS := Kernel([1.0], ZERO, MacComplex)

  function Sample(p: nat): Complex {
    Complex(p as real, 0.0)
  }

  /** The stream whose samples tell their own positions, from n on. */
  function Ramp(n: nat, length: nat): (x: seq<Complex>)
    ensures |x| == length && forall i :: 0 <= i < length ==> x[i] == Sample(n + i)
  {
    seq(length, i requires 0 <= i < length => Sample(n + i))
  }

  /** That stream cut into blocks of the given lengths. */
  function RampBlocks(n: nat, lengths: seq<nat>): (blocks: seq<seq<Complex>>)
    ensures |blocks| == |lengths| && forall i :: 0 <= i < |lengths| ==> |blocks[i]| == lengths[i]
    decreases |lengths|
  {
    if lengths == [] then [] else [Ramp(n, lengths[0])] + RampBlocks(n + lengths[0], lengths[1..])
  }

  lemma {:induction false} RampJoined(n: nat, lengths: seq<nat>)
    ensures Joined(RampBlocks(n, lengths)) == Ramp(n, Length(RampBlocks(n, lengths)))
    decreases |lengths|
  {
    hide Joined;
    var blocks := RampBlocks(n, lengths);
    if lengths == [] {
      JoinedNone(blocks);
    } else {
      JoinedFirst(blocks);
      assert blocks[1..] == RampBlocks(n + lengths[0], lengths[1..]);
      RampJoined(n + lengths[0], lengths[1..]);
    }
  }

  lemma SampleAsIs(x: seq<Complex>, i: nat)
    requires i < |x|
    ensures FilteredAt(AS_IS, x, i) == x[i]
  {
    var w := Padded(AS_IS, x)[i..i + 1];
    assert w[0] == x[i] && Dot(AS_IS, w, 0) == ZERO;
  }

  lemma {:induction false} PositionsTold(length: nat, ps: seq<nat>)
    requires Below(ps, length)
    ensures |OutputsAt(AS_IS, Ramp(0, length), ps)| == |ps|
    ensures forall i :: 0 <= i < |ps| ==> OutputsAt(AS_IS, Ramp(0, length), ps)[i] == Sample(ps[i])
  {
    if ps != [] {
      SampleAsIs(Ramp(0, length), ps[0]);
      PositionsTold(length, ps[1..]);
    }
  }

  lemma SamePositions(length: nat, ps: seq<nat>, qs: seq<nat>)
    requires Below(ps, length) && Below(qs, length)
    requires OutputsAt(AS_IS, Ramp(0, length), ps) == OutputsAt(AS_IS, Ramp(0, length), qs)
    ensures ps == qs
  {
    hide OutputsAt;
    PositionsTold(length, ps);
    PositionsTold(length, qs);
    forall i | 0 <= i < |ps| ensures ps[i] == qs[i] { assert Sample(ps[i]) == Sample(qs[i]); }
  }

  /** Whatever the lengths of the blocks, if one of them with samples starts off the grid there is a filter and a stream
      on which the joined outputs are not one call's. */
  lemma OffGridOutputsDiffer(lengths: seq<nat>, decim: nat)
    requires decim > 0
    ensures var blocks := RampBlocks(0, lengths);
            BlockwiseOutputs(AS_IS, [], blocks, decim) == Filtered(AS_IS, Joined(blocks), decim, 0) <==> Aligned(blocks, 0, decim)
  {
    hide Filtered, OutputsAt, BlockwiseOutputs, Grid, Positions, Aligned;
    var blocks := RampBlocks(0, lengths);
    var x := Joined(blocks);
    if Aligned(blocks, 0, decim) { AlignedStream(AS_IS, blocks, decim); }
    BlockwiseIsSampled(AS_IS, [], blocks, decim);
    assert [] + x == x;
    JoinedLength(blocks);
    FilteredIsGrid(AS_IS, x, decim, 0);
    RampJoined(0, lengths);
    if BlockwiseOutputs(AS_IS, [], blocks, decim) == Filtered(AS_IS, x, decim, 0) {
      SamePositions(|x|, Positions(blocks, 0, decim), Grid(0, |x|, decim));
      SampledAlikeIffAligned(blocks, decim);
    }
  }

  /** Blocks of one sample each, of which every second is kept: both samples come out, where one call gives the first. */
  lemma OneByOne()
    ensures var blocks := [[Sample(0)], [Sample(1)]];
            BlockwiseOutputs(AS_IS, [], blocks, 2) == [Sample(0), Sample(1)] && Filtered(AS_IS, Joined(blocks), 2, 0) == [Sample(0)]
  {
    var blocks, x := [[Sample(0)], [Sample(1)]], [Sample(0), Sample(1)];
    assert blocks[..1] == [[Sample(0)]] && blocks[..1][..0] == [] && blocks[1..] == [[Sample(1)]] && blocks[1..][1..] == [];
    assert Joined(blocks[..1]) == [] + [Sample(0)];
    assert Joined(blocks) == x;
    SampleAsIs(x, 0);
    SampleAsIs(x, 1);
    SampleAsIs([Sample(0)], 0);
    assert [] + blocks[0] == [Sample(0)] && [Sample(0)] + blocks[1] == x;
    assert Filtered(AS_IS, [Sample(0)], 2, 0) == [Sample(0)] && Filtered(AS_IS, x, 2, 1) == [Sample(1)];
    assert BlockwiseOutputs(AS_IS, x, [], 2) == [];
    assert BlockwiseOutputs(AS_IS, [Sample(0)], blocks[1..], 2) == [Sample(1)];
  }

  /** The demodulator's channel filter, oscillator off. */
  class FmDemodulator {
    const k: Kernel<Complex>
    const decim: nat
    var firHistory: seq<Complex>
    ghost var seen: seq<Complex>

    ghost predicate Valid()
      reads this
    {
      k.Valid() && decim > 0 && firHistory == History(k, seen)
    }

    constructor (taps: seq<real>, decim: nat)
      requires |taps| > 0 && decim > 0
      ensures Valid() && seen == [] && this.decim == decim && k == Kernel(taps, ZERO, MacComplex)
    {
      k, this.decim, seen := Kernel(taps, ZERO, MacComplex), decim, [];
      firHistory := seq(|taps| - 1, _ => ZERO);
    }

    method MixAndFilterDecimate(input: seq<Complex>) returns (decimated: seq<Complex>)
      requires Valid()
      modifies this
      ensures Valid() && seen == old(seen) + input
      ensures decimated == Filtered(k, seen, decim, |old(seen)|)
    {
      hide Filtered, BlockOutputs, History, NextIndex;
      BlockOutputsAreFiltered(k, seen, input, decim, 0);
      BufferIsSuffix(k, seen, input);
      var hist := |firHistory|;
      var buf := firHistory + input;
      var i;
      decimated, i := FilterBlock(k, buf, decim, hist);
      firHistory := buf[|buf| - hist..];
      seen := seen + input;
    }
  }
}
