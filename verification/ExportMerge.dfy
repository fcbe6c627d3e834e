/** Merging a list of export files as it runs: the verdict's loops, layers erased from the back, reports rewritten. */
module ExportMerge {
  import opened Basics
  import opened Counters
  import opened Datasets
  import opened DatasetMerges
  import opened CallLists
  import opened Provenance

  method HeldIn(x: Source, ys: seq<Source>) returns (b: bool)
    ensures b == Within(x, ys)
  {
    for j := 0 to |ys|
      invariant forall k :: 0 <= k < j ==> !Contains(ys[k], x)
    {
      if Contains(ys[j], x) { return true; }
    }
    return false;
  }

  method AllHeld(xs: seq<Source>, ys: seq<Source>) returns (b: bool)
    ensures b == Covered(xs, ys)
  {
    hide Within;
    for i := 0 to |xs|
      invariant forall k :: 0 <= k < i ==> Within(xs[k], ys)
    {
      var h := HeldIn(xs[i], ys);
      if !h { return false; }
    }
    return true;
  }

  method AnyOverlap(xs: seq<Source>, ys: seq<Source>) returns (ov: bool)
    ensures ov == Meet(xs, ys)
  {
    ov := false;
    for i := 0 to |xs|
      invariant ov <==> exists k :: 0 <= k < i && Meets(xs[k], ys)
    {
      ghost var before := ov;
      for j := 0 to |ys|
        invariant ov <==> before || exists k :: 0 <= k < j && Overlaps(xs[i], ys[k])
      {
        ov := ov || Overlaps(xs[i], ys[j]);
      }
      assert Meets(xs[i], ys) <==> exists k :: 0 <= k < |ys| && Overlaps(xs[i], ys[k]);
    }
  }

  method GatherSources(layers: seq<Layer>) returns (s: seq<Source>)
    ensures s == AllSources(layers)
  {
    s := [];
    for i := 0 to |layers|
      invariant s == AllSources(layers[..i])
    {
      assert layers[..i + 1] == layers[..i] + [layers[i]] && [layers[i]][1..] == [];
      AllSourcesAppend(layers[..i], [layers[i]]);
      s := s + layers[i].data.sources;
    }
    assert layers[..|layers|] == layers;
  }

  /** The positions, ascending, of the first n layers that xs meets. */
  function MetAt(xs: seq<Source>, layers: seq<Layer>, n: nat): (r: seq<nat>)
    requires n <= |layers|
    ensures forall j :: 0 <= j < |r| ==> r[j] < n
  {
    if n == 0 then []
    else if Meet(xs, layers[n - 1].data.sources) then MetAt(xs, layers, n - 1) + [n - 1]
    else MetAt(xs, layers, n - 1)
  }

  method JudgeFile(xs: seq<Source>, layers: seq<Layer>, live: seq<Source>) returns (v: Verdict, gone: seq<nat>)
    ensures v == Judge(xs, layers, live)
    ensures v.Join? ==> gone == MetAt(xs, layers, |layers|)
  {
    hide Covered, Meet;
    gone := [];
    var shown := GatherSources(layers);
    var skip := AllHeld(xs, live + shown);
    if xs != [] && skip { return Skip, []; }
    var ov := AnyOverlap(xs, live);
    if ov { return Refuse, []; }
    for i := 0 to |layers|
      invariant gone == MetAt(xs, layers, i)
      invariant forall j :: 0 <= j < i ==> !Blocks(layers[j], xs)
    {
      var L := layers[i];
      ov := AnyOverlap(xs, L.data.sources);
      if ov {
        var whole := AllHeld(L.data.sources, xs);
        if !whole {
          assert Blocks(L, xs) && L in layers;
          return Refuse, [];
        }
        gone := gone + [i];
      }
    }
    v := Join;
  }

  lemma {:induction false} LastMet(xs: seq<Source>, layers: seq<Layer>, n: nat)
    requires n <= |layers| && MetAt(xs, layers, n) != []
    ensures var m := MetAt(xs, layers, n);
            var p := m[|m| - 1];
            && Meet(xs, layers[p].data.sources) && MetAt(xs, layers, p) == m[..|m| - 1]
            && forall i :: p < i < n ==> !Meet(xs, layers[i].data.sources)
  {
    hide Meet;
    if !Meet(xs, layers[n - 1].data.sources) { LastMet(xs, layers, n - 1); }
  }

  lemma {:induction false} NoneMet(xs: seq<Source>, layers: seq<Layer>, n: nat)
    requires n <= |layers| && MetAt(xs, layers, n) == []
    ensures Kept(xs, layers) == layers[..n] + Kept(xs, layers[n..])
    ensures forall i :: 0 <= i < n ==> !Meet(xs, layers[i].data.sources)
  {
    hide Meet;
    if n == 0 {
      assert layers[0..] == layers;
    } else {
      NoneMet(xs, layers, n - 1);
      assert layers[n - 1..][0] == layers[n - 1] && layers[n - 1..][1..] == layers[n..];
    }
  }

  lemma {:induction false} KeptStretch(xs: seq<Source>, layers: seq<Layer>, p: nat, n: nat)
    requires p <= n <= |layers| && forall i :: p <= i < n ==> !Meet(xs, layers[i].data.sources)
    ensures Kept(xs, layers[p..]) == layers[p..n] + Kept(xs, layers[n..])
    decreases n - p
  {
    hide Meet;
    if p < n {
      assert layers[p..][0] == layers[p] && layers[p..][1..] == layers[p + 1..];
      KeptStretch(xs, layers, p + 1, n);
    }
  }

  method MarkReports(report: seq<Report>, name: string) returns (r: seq<Report>)
    ensures r == Mark(report, {name})
  {
    r := report;
    for i := 0 to |r|
      invariant |r| == |report|
      invariant forall j :: 0 <= j < i ==> r[j] == Mark(report, {name})[j]
      invariant forall j :: i <= j < |r| ==> r[j] == report[j]
    {
      if r[i].name == name && r[i].status != Invalid { r := r[i := r[i].(status := Replaced)]; }
    }
  }

  lemma MarkTwice(report: seq<Report>, a: set<string>, b: set<string>)
    ensures Mark(Mark(report, a), b) == Mark(report, a + b)
  {
  }

  /** The names of the layers from n on that xs meets. */
  function NamesFrom(xs: seq<Source>, layers: seq<Layer>, n: nat): set<string>
    requires n <= |layers|
  {
    set i | n <= i < |layers| && Meet(xs, layers[i].data.sources) :: layers[i].data.name
  }

  /** Erase the layers at the positions `gone`, from the last back, and mark their reports. */
  method EraseMet(xs: seq<Source>, layers0: seq<Layer>, report0: seq<Report>, gone: seq<nat>)
    returns (layers: seq<Layer>, report: seq<Report>)
    requires gone == MetAt(xs, layers0, |layers0|)
    ensures layers == Kept(xs, layers0)
    ensures report == Mark(report0, ReplacedNames(xs, layers0))
  {
    hide Meet, Kept, MetAt;
    var m := gone;
    layers, report := layers0, report0;
    ghost var n := |layers0|;
    assert layers0[n..] == [] && Kept(xs, []) == [] by { NoLayers(xs); }
    assert NamesFrom(xs, layers0, n) == {};
    assert Mark(report0, {}) == report0;
    while m != []
      invariant n <= |layers0| && m == MetAt(xs, layers0, n)
      invariant layers == layers0[..n] + Kept(xs, layers0[n..])
      invariant report == Mark(report0, NamesFrom(xs, layers0, n))
      decreases |m|
    {
      LastMet(xs, layers0, n);
      var p := m[|m| - 1];
      KeptStretch(xs, layers0, p + 1, n);
      KeptAt(xs, layers0, p);
      assert layers[p] == layers0[p];
      report := MarkReports(report, layers[p].data.name);
      MarkTwice(report0, NamesFrom(xs, layers0, n), {layers[p].data.name});
      assert NamesFrom(xs, layers0, p) == NamesFrom(xs, layers0, n) + {layers0[p].data.name};
      layers := layers[..p] + layers[p + 1..];
      assert layers == layers0[..p] + (layers0[p + 1..n] + Kept(xs, layers0[n..]));
      m := m[..|m| - 1];
      n := p;
    }
    NoneMet(xs, layers0, n);
    NamesAll(xs, layers0, n);
  }

  lemma NoLayers(xs: seq<Source>)
    ensures Kept(xs, []) == []
  {
  }

  lemma KeptAt(xs: seq<Source>, layers: seq<Layer>, p: nat)
    requires p < |layers| && Meet(xs, layers[p].data.sources)
    ensures Kept(xs, layers[p..]) == Kept(xs, layers[p + 1..])
  {
    hide Meet;
    assert layers[p..][0] == layers[p] && layers[p..][1..] == layers[p + 1..];
  }

  lemma NamesAll(xs: seq<Source>, layers: seq<Layer>, n: nat)
    requires n <= |layers| && forall i :: 0 <= i < n ==> !Meet(xs, layers[i].data.sources)
    ensures NamesFrom(xs, layers, n) == ReplacedNames(xs, layers)
  {
    hide Meet;
    forall x ensures x in NamesFrom(xs, layers, n) <==> x in ReplacedNames(xs, layers) {
      if x in ReplacedNames(xs, layers) {
        var L :| L in layers && Meet(xs, L.data.sources) && L.data.name == x;
        var i :| 0 <= i < |layers| && layers[i] == L;
      }
      if x in NamesFrom(xs, layers, n) {
        var i :| n <= i < |layers| && Meet(xs, layers[i].data.sources) && layers[i].data.name == x;
        assert layers[i] in layers;
      }
    }
  }

  /** One file of the list. */
  method TakeFile(layers0: seq<Layer>, report0: seq<Report>, f: File) returns (layers: seq<Layer>, report: seq<Report>)
    ensures Desk(layers, report) == Take(Desk(layers0, report0), f, [])
  {
    hide Judge, Kept, Mark, ReplacedNames, MetAt;
    layers := layers0;
    if f.Unreadable? { return layers0, report0 + [Report(f.name, Invalid)]; }
    var x := f.data;
    var v, gone := JudgeFile(x.sources, layers0, []);
    if v == Skip { return layers0, report0 + [Report(x.name, Skipped)]; }
    if v == Refuse { return layers0, report0 + [Report(x.name, Refused)]; }
    layers, report := EraseMet(x.sources, layers0, report0, gone);
    report := report + [Report(x.name, MergedIn)];
    layers := layers + [Layer(|report0|, x)];
  }

  method MergeLayers(layers: seq<Layer>) returns (out: Dataset)
    ensures out == MergedLayers(layers)
  {
    hide Merged;
    var c := new Collector("merged");
    for i := 0 to |layers|
      invariant c.data == MergedLayers(layers[..i])
    {
      assert layers[..i + 1][..i] == layers[..i] && layers[..i + 1][i] == layers[i];
      c.MergeInto(layers[i].data);
      c.data := c.data.(exported := Max(c.data.exported, layers[i].data.exported));
    }
    assert layers[..|layers|] == layers;
    out := c.data;
  }

  method MergeExports(files: seq<File>, cap: nat) returns (out: Dataset, report: seq<Report>)
    ensures report == TakeAll(files).report
    ensures out == Finalized(MergedLayers(TakeAll(files).layers), true, cap)
  {
    hide Take, MergedLayers, Finalized;
    var layers: seq<Layer> := [];
    report := [];
    for i := 0 to |files|
      invariant Desk(layers, report) == TakeAll(files[..i])
    {
      assert files[..i + 1][..i] == files[..i] && files[..i + 1][i] == files[i];
      layers, report := TakeFile(layers, report, files[i]);
    }
    assert files[..|files|] == files;
    out := MergeLayers(layers);
    out := FinalizeMerge(out, true, cap);
  }
}
