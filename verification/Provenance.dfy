/** Which exports may be merged together: no instant of a server run counted twice, and none lost. */
module Provenance {
  import opened Basics
  import opened Ordered
  import opened Counters
  import opened NetMerges
  import opened Datasets
  import opened MergeInto
  import opened DatasetMerges

  // ---- spans of a run ----

  predicate Contains(a: Source, b: Source) {
    a.instance == b.instance && a.since <= b.since && b.through <= a.through
  }

  predicate Overlaps(a: Source, b: Source) {
    && a.instance == b.instance
    && ((a.since == b.since && a.through == b.through) || (a.since < b.through && b.since < a.through))
  }

  /** The instants of a run a source counted: from `since`, before `through`. */
  predicate Counted(s: Source, run: string, t: int) {
    s.instance == run && s.since <= t < s.through
  }

  /** Spans that do not overlap share no instant; spans with instants that do overlap share one. */
  lemma OverlapIsSharing(a: Source, b: Source)
    ensures !Overlaps(a, b) ==> forall run, t :: !(Counted(a, run, t) && Counted(b, run, t))
    ensures Overlaps(a, b) && a.since < a.through && b.since < b.through ==>
              exists t :: Counted(a, a.instance, t) && Counted(b, a.instance, t)
    ensures a.since == a.through && b.since == b.through ==> (Overlaps(a, b) <==> a == b)
  {
    var t := if a.since < b.since then b.since else a.since;
    if Overlaps(a, b) && a.since < a.through && b.since < b.through {
      assert Counted(a, a.instance, t) && Counted(b, a.instance, t);
    }
  }

  predicate Within(x: Source, ys: seq<Source>) {
    exists y :: y in ys && Contains(y, x)
  }

  predicate Covered(xs: seq<Source>, ys: seq<Source>) {
    forall x :: x in xs ==> Within(x, ys)
  }

  predicate Meets(a: Source, ys: seq<Source>) {
    exists b :: b in ys && Overlaps(a, b)
  }

  predicate Meet(xs: seq<Source>, ys: seq<Source>) {
    exists a :: a in xs && Meets(a, ys)
  }

  lemma MeetSymmetric(xs: seq<Source>, ys: seq<Source>)
    requires Meet(xs, ys)
    ensures Meet(ys, xs)
  {
    var a :| a in xs && Meets(a, ys);
    var b :| b in ys && Overlaps(a, b);
    assert Overlaps(b, a);
    assert Meets(b, xs);
  }

  // ---- may a data set join? ----

  /** A file taken in, and where it came in the list of files. */
  datatype Layer = Layer(file: nat, data: Dataset)

  datatype Verdict = Join | Skip | Refuse

  function AllSources(layers: seq<Layer>): seq<Source> {
    if layers == [] then [] else layers[0].data.sources + AllSources(layers[1..])
  }

  predicate Blocks(L: Layer, xs: seq<Source>) {
    Meet(xs, L.data.sources) && !Covered(L.data.sources, xs)
  }

  /** Skip what is shown already; refuse what overlaps the live data, or a layer it does not wholly contain. */
  function Judge(xs: seq<Source>, layers: seq<Layer>, live: seq<Source>): Verdict {
    if xs != [] && Covered(xs, live + AllSources(layers)) then Skip
    else if Meet(xs, live) || exists L :: L in layers && Blocks(L, xs) then Refuse
    else Join
  }

  predicate CountedBy(xs: seq<Source>, run: string, t: int) {
    exists x :: x in xs && Counted(x, run, t)
  }

  /** Spans with instants. */
  predicate Lasting(xs: seq<Source>) {
    forall x :: x in xs ==> x.since < x.through
  }

  /** Both count some instant. */
  ghost predicate ShareAnInstant(xs: seq<Source>, ys: seq<Source>) {
    exists run, t :: CountedBy(xs, run, t) && CountedBy(ys, run, t)
  }

  lemma MeetIsSharing(xs: seq<Source>, ys: seq<Source>)
    requires Lasting(xs) && Lasting(ys)
    ensures Meet(xs, ys) <==> ShareAnInstant(xs, ys)
  {
    if Meet(xs, ys) {
      var a :| a in xs && Meets(a, ys);
      var b :| b in ys && Overlaps(a, b);
      OverlapIsSharing(a, b);
      var t :| Counted(a, a.instance, t) && Counted(b, a.instance, t);
      assert CountedBy(xs, a.instance, t) && CountedBy(ys, a.instance, t);
    }
    if run, t :| CountedBy(xs, run, t) && CountedBy(ys, run, t) {
      var a :| a in xs && Counted(a, run, t);
      var b :| b in ys && Counted(b, run, t);
      OverlapIsSharing(a, b);
      assert Meets(a, ys);
    }
  }

  /** One source of ys counts all of x. */
  predicate InOne(x: Source, ys: seq<Source>) {
    exists y :: y in ys && y.instance == x.instance && y.since <= x.since && x.through <= y.through
  }

  lemma WithinIsInOne(x: Source, ys: seq<Source>)
    ensures Within(x, ys) <==> InOne(x, ys)
  {
    if y :| y in ys && Contains(y, x) { assert y.instance == x.instance && y.since <= x.since && x.through <= y.through; }
    if y :| y in ys && y.instance == x.instance && y.since <= x.since && x.through <= y.through { assert Contains(y, x); }
  }

  ghost predicate PartlyShared(L: Layer, xs: seq<Source>) {
    ShareAnInstant(xs, L.data.sources) && exists x :: x in L.data.sources && !InOne(x, xs)
  }

  predicate Shown(x: Source, layers: seq<Layer>, live: seq<Source>) {
    InOne(x, live) || exists L :: L in layers && InOne(x, L.data.sources)
  }

  /** What a verdict says, told by the instants counted: a file is skipped if it has sources and each lies in one that is
      shown; otherwise it is refused if it shares an instant with the live data, or with a layer one of whose sources lies
      in none of its own; otherwise it joins. */
  lemma VerdictMeans(xs: seq<Source>, layers: seq<Layer>, live: seq<Source>)
    requires Lasting(xs) && Lasting(live) && forall L :: L in layers ==> Lasting(L.data.sources)
    ensures Judge(xs, layers, live).Skip? <==> xs != [] && forall x :: x in xs ==> Shown(x, layers, live)
    ensures Judge(xs, layers, live).Refuse? <==>
            !Judge(xs, layers, live).Skip? && (ShareAnInstant(xs, live) || exists L :: L in layers && PartlyShared(L, xs))
  {
    hide Meet, Within, InOne, CountedBy, Lasting;
    MeetIsSharing(xs, live);
    forall L | L in layers ensures Blocks(L, xs) <==> PartlyShared(L, xs) {
      MeetIsSharing(xs, L.data.sources);
      forall x | x in L.data.sources ensures Within(x, xs) <==> InOne(x, xs) { WithinIsInOne(x, xs); }
    }
    forall x | x in xs ensures Within(x, live + AllSources(layers)) <==> Shown(x, layers, live) { ShownSources(x, live, layers); }
  }

  lemma ShownSources(x: Source, live: seq<Source>, layers: seq<Layer>)
    ensures Within(x, live + AllSources(layers)) <==> Shown(x, layers, live)
  {
    WithinIsInOne(x, live + AllSources(layers));
    SourcesAmong(layers);
    if L :| L in layers && InOne(x, L.data.sources) {
      var y :| y in L.data.sources && y.instance == x.instance && y.since <= x.since && x.through <= y.through;
      assert y in live + AllSources(layers);
    }
  }

  lemma {:induction false} SourcesAmong(layers: seq<Layer>)
    ensures forall y :: y in AllSources(layers) <==> exists L :: L in layers && y in L.data.sources
  {
    if layers != [] {
      SourcesAmong(layers[1..]);
      assert forall L :: L in layers <==> L == layers[0] || L in layers[1..];
    }
  }

  /** The layers that stay when xs joins: those it does not meet. */
  function Kept(xs: seq<Source>, layers: seq<Layer>): seq<Layer> {
    if layers == [] then []
    else if Meet(xs, layers[0].data.sources) then Kept(xs, layers[1..])
    else [layers[0]] + Kept(xs, layers[1..])
  }

  lemma {:induction false} KeptAre(xs: seq<Source>, layers: seq<Layer>)
    ensures forall L :: L in Kept(xs, layers) <==> L in layers && !Meet(xs, L.data.sources)
  {
    if layers != [] {
      hide Meet;
      KeptAre(xs, layers[1..]);
      assert forall L :: L in layers <==> L == layers[0] || L in layers[1..];
    }
  }

  // ---- merging a list of files ----

  datatype File = Unreadable(name: string) | Readable(data: Dataset)

  function NameOf(f: File): string {
    match f case Unreadable(n) => n case Readable(d) => d.name
  }

  datatype Status = MergedIn | Replaced | Skipped | Refused | Invalid

  datatype Report = Report(name: string, status: Status)

  datatype Desk = Desk(layers: seq<Layer>, report: seq<Report>)

  const EMPTY_DESK := Desk([], [])

  /** The names of the layers that xs replaces. */
  function ReplacedNames(xs: seq<Source>, layers: seq<Layer>): set<string> {
    set L | L in layers && Meet(xs, L.data.sources) :: L.data.name
  }

  /** Every readable file's report under one of the names turns to replaced. */
  function Mark(report: seq<Report>, names: set<string>): (r: seq<Report>)
    ensures |r| == |report|
    ensures forall i :: 0 <= i < |r| ==> r[i] == (if report[i].name in names && report[i].status != Invalid
                                                  then report[i].(status := Replaced) else report[i])
  {
    seq(|report|, i requires 0 <= i < |report| =>
      if report[i].name in names && report[i].status != Invalid then report[i].(status := Replaced) else report[i])
  }

  /** One file is taken in.  `live` is this server's own running data, where there is any. */
  function Take(d: Desk, f: File, live: seq<Source>): Desk {
    if f.Unreadable? then d.(report := d.report + [Report(f.name, Invalid)])
    else
      var x := f.data;
      match Judge(x.sources, d.layers, live)
      case Skip => d.(report := d.report + [Report(x.name, Skipped)])
      case Refuse => d.(report := d.report + [Report(x.name, Refused)])
      case Join => Desk(Kept(x.sources, d.layers) + [Layer(|d.report|, x)],
                        Mark(d.report, ReplacedNames(x.sources, d.layers)) + [Report(x.name, MergedIn)])
  }

  function TakeAll(files: seq<File>): Desk {
    if files == [] then EMPTY_DESK else Take(TakeAll(files[..|files| - 1]), files[|files| - 1], [])
  }

  // ---- nothing counted twice ----

  ghost predicate Apart(layers: seq<Layer>) {
    forall i, j :: 0 <= i < j < |layers| ==> !Meet(layers[i].data.sources, layers[j].data.sources)
  }

  lemma {:induction false} KeptApart(xs: seq<Source>, layers: seq<Layer>)
    requires Apart(layers)
    ensures Apart(Kept(xs, layers))
  {
    if layers != [] {
      hide Meet;
      assert Apart(layers[1..]);
      KeptApart(xs, layers[1..]);
      KeptAre(xs, layers[1..]);
      var k := Kept(xs, layers[1..]);
      forall j | 0 <= j < |k| ensures !Meet(layers[0].data.sources, k[j].data.sources) {
        assert k[j] in layers[1..];
        var m :| 1 <= m < |layers| && layers[m] == k[j];
      }
    }
  }

  lemma TakeKeepsApart(d: Desk, f: File, live: seq<Source>)
    requires Apart(d.layers)
    ensures Apart(Take(d, f, live).layers)
  {
    hide Meet;
    if f.Readable? && Judge(f.data.sources, d.layers, live).Join? {
      var xs, k := f.data.sources, Kept(f.data.sources, d.layers);
      KeptApart(xs, d.layers);
      KeptAre(xs, d.layers);
      forall i | 0 <= i < |k| ensures !Meet(k[i].data.sources, xs) {
        assert k[i] in k;
        if Meet(k[i].data.sources, xs) { MeetSymmetric(k[i].data.sources, xs); }
      }
    }
  }

  lemma {:induction false} AllApart(files: seq<File>)
    ensures Apart(TakeAll(files).layers)
  {
    if files != [] {
      hide Take, Apart;
      AllApart(files[..|files| - 1]);
      TakeKeepsApart(TakeAll(files[..|files| - 1]), files[|files| - 1], []);
    } else {
      assert Apart([]);
    }
  }

  predicate LayerCounts(L: Layer, run: string, t: int) {
    exists s :: s in L.data.sources && Counted(s, run, t)
  }

  /** Whatever files are given, in whatever order: no instant of a run is counted by two of the layers kept. */
  lemma NoInstantTwice(files: seq<File>, i: nat, j: nat, run: string, t: int)
    requires i < j < |TakeAll(files).layers|
    ensures !(LayerCounts(TakeAll(files).layers[i], run, t) && LayerCounts(TakeAll(files).layers[j], run, t))
  {
    hide TakeAll, Overlaps, Counted, Meet;
    var layers := TakeAll(files).layers;
    AllApart(files);
    var xs, ys := layers[i].data.sources, layers[j].data.sources;
    forall a, b | a in xs && b in ys ensures !(Counted(a, run, t) && Counted(b, run, t)) {
      OverlapIsSharing(a, b);
      if Overlaps(a, b) { MeetFrom(a, b, xs, ys); }
    }
  }

  lemma MeetFrom(a: Source, b: Source, xs: seq<Source>, ys: seq<Source>)
    requires a in xs && b in ys && Overlaps(a, b)
    ensures Meet(xs, ys)
  {
    assert Meets(a, ys);
  }

  lemma LiveNotMet(d: Desk, f: File, live: seq<Source>)
    requires forall L :: L in d.layers ==> !Meet(L.data.sources, live)
    ensures forall L :: L in Take(d, f, live).layers ==> !Meet(L.data.sources, live)
  {
    hide Meet, Covered;
    if f.Readable? { KeptAre(f.data.sources, d.layers); }
  }

  /** Layers that shared no instant with a server's live data still share none after a file is taken in. */
  lemma LiveStaysApart(d: Desk, f: File, live: seq<Source>, L: Layer, s: Source, run: string, t: int)
    requires forall K :: K in d.layers ==> !Meet(K.data.sources, live)
    requires L in Take(d, f, live).layers && s in live
    ensures !(LayerCounts(L, run, t) && Counted(s, run, t))
  {
    hide Take, Overlaps, Counted, Meet;
    LiveNotMet(d, f, live);
    forall a | a in L.data.sources ensures !(Counted(a, run, t) && Counted(s, run, t)) {
      OverlapIsSharing(a, s);
      if Overlaps(a, s) { MeetFrom(a, s, L.data.sources, live); }
    }
  }

  // ---- nothing lost ----

  /** The k-th file is merged, or shown already. */
  predicate Taken(files: seq<File>, k: nat)
    requires k < |files|
  {
    files[k].Readable? && !Judge(files[k].data.sources, TakeAll(files[..k]).layers, []).Refuse?
  }

  lemma {:induction false} SourceOfAll(layers: seq<Layer>, s: Source)
    ensures s in AllSources(layers) <==> exists i :: 0 <= i < |layers| && s in layers[i].data.sources
  {
    if layers != [] {
      SourceOfAll(layers[1..], s);
      if exists i :: 0 <= i < |layers[1..]| && s in layers[1..][i].data.sources {
        var i :| 0 <= i < |layers[1..]| && s in layers[1..][i].data.sources;
        assert s in layers[i + 1].data.sources;
      }
      if i :| 0 <= i < |layers| && s in layers[i].data.sources && i > 0 {
        assert s in layers[1..][i - 1].data.sources;
      }
    }
  }

  /** What was within the layers stays within them: a layer goes only when the newcomer contains it. */
  lemma TakeLosesNothing(d: Desk, f: File, live: seq<Source>, s: Source)
    requires Within(s, AllSources(d.layers))
    ensures Within(s, AllSources(Take(d, f, live).layers))
  {
    if f.Readable? && Judge(f.data.sources, d.layers, live).Join? {
      var e := Take(d, f, live).layers;
      var y :| y in AllSources(d.layers) && Contains(y, s);
      SourceOfAll(d.layers, y);
      var i :| 0 <= i < |d.layers| && y in d.layers[i].data.sources;
      var L := d.layers[i];
      KeptAre(f.data.sources, d.layers);
      if Meet(f.data.sources, L.data.sources) {
        assert !Blocks(L, f.data.sources);
        assert Within(y, f.data.sources);
        var z :| z in f.data.sources && Contains(z, y);
        NewcomerIn(d, f, live, z);
        assert Contains(z, s);
      } else {
        assert L in Kept(f.data.sources, d.layers);
        var m :| 0 <= m < |Kept(f.data.sources, d.layers)| && Kept(f.data.sources, d.layers)[m] == L;
        assert y in e[m].data.sources;
        SourceOfAll(e, y);
      }
    }
  }

  lemma NewcomerIn(d: Desk, f: File, live: seq<Source>, z: Source)
    requires f.Readable? && Judge(f.data.sources, d.layers, live).Join? && z in f.data.sources
    ensures z in AllSources(Take(d, f, live).layers)
  {
    hide Judge, Kept, Mark;
    var e := Take(d, f, live).layers;
    assert z in e[|e| - 1].data.sources;
    SourceOfAll(e, z);
  }

  lemma {:induction false} StillWithin(files: seq<File>, k: nat, s: Source)
    requires k <= |files| && Within(s, AllSources(TakeAll(files[..k]).layers))
    ensures Within(s, AllSources(TakeAll(files).layers))
    decreases |files|
  {
    if k == |files| {
      assert files[..k] == files;
    } else {
      hide Take, Within;
      var before := files[..|files| - 1];
      assert before[..k] == files[..k];
      StillWithin(before, k, s);
      TakeLosesNothing(TakeAll(before), files[|files| - 1], [], s);
    }
  }

  /** Every source of every file that was merged, even if replaced later, or skipped lies within a source of the result:
      each instant it counted is counted there. */
  lemma NothingLost(files: seq<File>, k: nat, s: Source)
    requires k < |files| && Taken(files, k) && s in files[k].data.sources
    ensures Within(s, AllSources(TakeAll(files).layers))
    ensures exists y :: y in AllSources(TakeAll(files).layers) && y.instance == s.instance && y.since <= s.since
                        && s.through <= y.through
    ensures forall run, t :: Counted(s, run, t) ==> exists y :: y in AllSources(TakeAll(files).layers) && Counted(y, run, t)
  {
    var d, f := TakeAll(files[..k]), files[k];
    var next := files[..k + 1];
    assert next[..k] == files[..k] && next[|next| - 1] == f;
    assert TakeAll(next) == Take(d, f, []);
    if Judge(f.data.sources, d.layers, []).Skip? {
      assert [] + AllSources(d.layers) == AllSources(d.layers);
    } else {
      NewcomerIn(d, f, [], s);
      assert Contains(s, s);
    }
    StillWithin(files, k + 1, s);
  }

  // ---- what the report says ----

  predicate IsLayer(layers: seq<Layer>, i: nat) {
    exists L :: L in layers && L.file == i
  }

  /** What is reported of a file when its turn comes. */
  function FirstStatus(files: seq<File>, k: nat): Status
    requires k < |files|
  {
    if files[k].Unreadable? then Invalid
    else
      match Judge(files[k].data.sources, TakeAll(files[..k]).layers, [])
      case Skip => Skipped
      case Refuse => Refused
      case Join => MergedIn
  }

  /** What became of the k-th file: the verdict on it when its turn came; or, where it joined and is not among the layers
      any more, replaced. */
  function Fate(files: seq<File>, k: nat): Status
    requires k < |files|
  {
    var first := FirstStatus(files, k);
    if first == MergedIn && !IsLayer(TakeAll(files).layers, k) then Replaced else first
  }

  /** One report a file, in order, under its name and with its fate. */
  ghost predicate ReportRight(files: seq<File>) {
    var report := TakeAll(files).report;
    |report| == |files| && forall k :: 0 <= k < |files| ==> report[k] == Report(NameOf(files[k]), Fate(files, k))
  }

  /** The layer of the i-th file goes when xs joins. */
  predicate Goes(xs: seq<Source>, layers: seq<Layer>, i: nat) {
    exists L :: L in layers && L.file == i && Meet(xs, L.data.sources)
  }

  predicate Joins(d: Desk, f: File) {
    f.Readable? && Judge(f.data.sources, d.layers, []).Join?
  }

  /** A report that would turn to replaced bears the name of a layer that goes, and is not of one. */
  predicate MisnamedAt(d: Desk, f: File, i: nat)
    requires i < |d.report|
  {
    && Joins(d, f) && d.report[i].status != Invalid && d.report[i].status != Replaced
    && d.report[i].name in ReplacedNames(f.data.sources, d.layers) && !Goes(f.data.sources, d.layers, i)
  }

  predicate Misnamed(d: Desk, f: File) {
    exists i :: 0 <= i < |d.report| && MisnamedAt(d, f, i)
  }

  /** A layer is the data of its file. */
  lemma {:induction false} LayersOfFiles(files: seq<File>)
    ensures |TakeAll(files).report| == |files|
    ensures forall L :: L in TakeAll(files).layers ==> L.file < |files| && files[L.file] == Readable(L.data)
  {
    if files != [] {
      hide Meet, Judge;
      var before, f := files[..|files| - 1], files[|files| - 1];
      LayersOfFiles(before);
      var d := TakeAll(before);
      if f.Readable? { KeptAre(f.data.sources, d.layers); }
      forall L | L in TakeAll(files).layers ensures L.file < |files| && files[L.file] == Readable(L.data) {
        if L in d.layers { assert before[L.file] == files[L.file]; }
      }
    }
  }

  lemma OneMore(files: seq<File>, f: File)
    ensures TakeAll(files + [f]) == Take(TakeAll(files), f, [])
  {
    hide Take;
    assert (files + [f])[..|files|] == files;
  }

  /** Of the files before, only those whose layers go have another fate once f is taken in. */
  lemma FateAfter(files: seq<File>, f: File, k: nat)
    requires k <= |files|
    ensures var d := TakeAll(files);
            if k == |files| then
              Fate(files + [f], k) == if f.Unreadable? then Invalid else
                                        match Judge(f.data.sources, d.layers, [])
                                        case Skip => Skipped case Refuse => Refused case Join => MergedIn
            else Fate(files + [f], k) == if Joins(d, f) && Goes(f.data.sources, d.layers, k) then Replaced else Fate(files, k)
  {
    hide Meet, Judge, TakeAll;
    var d, g := TakeAll(files), files + [f];
    OneMore(files, f);
    LayersOfFiles(files);
    assert g[..k] == files[..k];
    if Joins(d, f) {
      KeptAre(f.data.sources, d.layers);
      KeptLayers(d, f, k);
    }
    if k < |files| {
      assert g[k] == files[k];
      if IsLayer(d.layers, k) { GoerJoined(files, k); }
    } else {
      assert g[..k] == files;
    }
  }

  lemma KeptLayers(d: Desk, f: File, k: nat)
    requires Joins(d, f) && forall L, M :: L in d.layers && M in d.layers && L.file == M.file ==> L == M
    requires forall L :: L in d.layers ==> L.file < |d.report|
    ensures k == |d.report| ==> IsLayer(Take(d, f, []).layers, k)
    ensures k < |d.report| ==> (IsLayer(Take(d, f, []).layers, k) <==> IsLayer(d.layers, k) && !Goes(f.data.sources, d.layers, k))
  {
    hide Meet, Judge;
    var xs, e := f.data.sources, Take(d, f, []).layers;
    var n := Layer(|d.report|, f.data);
    KeptAre(xs, d.layers);
    assert forall L :: L in e <==> L in Kept(xs, d.layers) || L == n;
    assert n in e;
    if k < |d.report| && IsLayer(d.layers, k) && !Goes(xs, d.layers, k) {
      var L :| L in d.layers && L.file == k;
      assert L in e;
    }
  }

  /** A file with a layer joined when its turn came. */
  lemma {:induction false} GoerJoined(files: seq<File>, k: nat)
    requires k < |files| && IsLayer(TakeAll(files).layers, k)
    ensures files[k].Readable? && Judge(files[k].data.sources, TakeAll(files[..k]).layers, []).Join?
    decreases |files|
  {
    hide Meet, Judge;
    var before, f := files[..|files| - 1], files[|files| - 1];
    LayersOfFiles(files);
    LayersOfFiles(before);
    var d := TakeAll(before);
    if f.Readable? { KeptAre(f.data.sources, d.layers); }
    if k == |before| {
      assert files[..k] == before;
    } else {
      assert IsLayer(d.layers, k);
      GoerJoined(before, k);
      assert before[..k] == files[..k];
    }
  }

  /** Taking in a file leaves a right report right exactly when it is not misnamed. */
  lemma ReportStaysRight(files: seq<File>, f: File)
    requires ReportRight(files)
    ensures ReportRight(files + [f]) <==> !Misnamed(TakeAll(files), f)
  {
    hide Take, TakeAll, Fate, MisnamedAt;
    var d, g := TakeAll(files), files + [f];
    OneMore(files, f);
    LayersOfFiles(g);
    var e := TakeAll(g);
    forall k | 0 <= k < |g|
      ensures e.report[k] == Report(NameOf(g[k]), Fate(g, k)) <==> !(k < |files| && MisnamedAt(d, f, k))
    {
      RightAt(files, f, k);
    }
  }

  lemma RightAt(files: seq<File>, f: File, k: nat)
    requires ReportRight(files) && k <= |files|
    ensures var d, e := TakeAll(files), Take(TakeAll(files), f, []);
            && |d.report| == |files| && |e.report| == |files| + 1
            && (e.report[k] == Report(NameOf((files + [f])[k]), Fate(files + [f], k)) <==> !(k < |files| && MisnamedAt(d, f, k)))
  {
    hide Take, TakeAll, Fate, Judge, Goes, ReplacedNames;
    FateAfter(files, f, k);
    ReportAfter(TakeAll(files), f, k);
    ReportAfter(TakeAll(files), f, |files|);
    if k < |files| {
      assert (files + [f])[k] == files[k];
      if f.Readable? && Goes(f.data.sources, TakeAll(files).layers, k) { GoesByName(files, f, k); }
    }
  }

  /** A layer that goes has its own name among those replaced, and was reported as merged. */
  lemma GoesByName(files: seq<File>, f: File, k: nat)
    requires k < |files| && f.Readable? && Goes(f.data.sources, TakeAll(files).layers, k)
    ensures NameOf(files[k]) in ReplacedNames(f.data.sources, TakeAll(files).layers) && Fate(files, k) == MergedIn
  {
    hide Meet, Judge, TakeAll;
    LayersOfFiles(files);
    GoerJoined(files, k);
  }

  lemma ReportAfter(d: Desk, f: File, k: nat)
    requires k <= |d.report|
    ensures var e := Take(d, f, []);
            if k == |d.report| then
              |e.report| == k + 1 && e.report[k] == Report(NameOf(f), if f.Unreadable? then Invalid else
                                                                 match Judge(f.data.sources, d.layers, [])
                                                                 case Skip => Skipped case Refuse => Refused case Join => MergedIn)
            else
              |e.report| > k && e.report[k] ==
              if Joins(d, f) && d.report[k].name in ReplacedNames(f.data.sources, d.layers) && d.report[k].status != Invalid
              then d.report[k].(status := Replaced) else d.report[k]
  {
    hide Judge, Kept, ReplacedNames;
  }

  ghost predicate NamesDiffer(files: seq<File>) {
    forall i, j :: 0 <= i < j < |files| ==> NameOf(files[i]) != NameOf(files[j])
  }

  lemma NotMisnamed(files: seq<File>, f: File)
    requires ReportRight(files) && NamesDiffer(files)
    ensures !Misnamed(TakeAll(files), f)
  {
    hide Meet, TakeAll, Fate;
    if f.Unreadable? { return; }
    LayersOfFiles(files);
    var d, xs := TakeAll(files), f.data.sources;
    forall i | 0 <= i < |d.report| && d.report[i].name in ReplacedNames(xs, d.layers) ensures Goes(xs, d.layers, i) {
      var L :| L in d.layers && Meet(xs, L.data.sources) && L.data.name == d.report[i].name;
      assert NameOf(files[L.file]) == NameOf(files[i]);
    }
  }

  /** Files of different names: the report tells every file's fate. */
  lemma {:induction false} ReportIsRight(files: seq<File>)
    requires NamesDiffer(files)
    ensures ReportRight(files)
  {
    if files != [] {
      hide ReportRight, Misnamed;
      var before, f := files[..|files| - 1], files[|files| - 1];
      ReportIsRight(before);
      assert before + [f] == files;
      NotMisnamed(before, f);
      ReportStaysRight(before, f);
    } else {
      assert TakeAll([]) == EMPTY_DESK;
    }
  }

  // ---- the report on a whole list ----

  /** When the m-th file joins, a layer that goes bears the k-th file's name. */
  predicate Struck(files: seq<File>, k: nat, m: nat)
    requires k < m < |files|
  {
    && Joins(TakeAll(files[..m]), files[m])
    && NameOf(files[k]) in ReplacedNames(files[m].data.sources, TakeAll(files[..m]).layers)
  }

  predicate StruckLater(files: seq<File>, k: nat) {
    exists m :: k < m < |files| && Struck(files, k, m)
  }

  lemma StruckBy(files: seq<File>, f: File, k: nat)
    requires k < |files|
    ensures StruckLater(files + [f], k) <==>
            StruckLater(files, k) || (Joins(TakeAll(files), f) && NameOf(files[k]) in ReplacedNames(f.data.sources, TakeAll(files).layers))
  {
    hide Judge, TakeAll, ReplacedNames;
    var g := files + [f];
    assert forall m :: 0 <= m <= |files| ==> g[..m] == files[..m];
    assert files[..|files|] == files;
    assert forall m :: k < m < |files| ==> (Struck(g, k, m) <==> Struck(files, k, m));
    if StruckLater(files, k) {
      var m :| k < m < |files| && Struck(files, k, m);
      assert Struck(g, k, m);
    }
    assert Struck(g, k, |files|) <==> Joins(TakeAll(files), f) && NameOf(files[k]) in ReplacedNames(f.data.sources, TakeAll(files).layers);
  }

  /** A readable file's report says what was said at first, or replaced once it was struck. */
  lemma {:induction false} ReportSays(files: seq<File>, k: nat)
    requires k < |files|
    ensures |TakeAll(files).report| == |files|
    ensures TakeAll(files).report[k] ==
            Report(NameOf(files[k]), if files[k].Readable? && StruckLater(files, k) then Replaced else FirstStatus(files, k))
    decreases |files|
  {
    hide Take, TakeAll, Joins, Judge, StruckLater, ReplacedNames;
    var before, f := files[..|files| - 1], files[|files| - 1];
    assert before + [f] == files;
    OneMore(before, f);
    LayersOfFiles(before);
    LayersOfFiles(files);
    ReportAfter(TakeAll(before), f, k);
    assert files[..k] == before[..k];
    if k < |before| {
      assert before[k] == files[k];
      ReportSays(before, k);
      StruckBy(before, f, k);
    } else {
      assert before[..k] == before;
      NotStruckYet(files, k);
    }
  }

  lemma NotStruckYet(files: seq<File>, k: nat)
    requires k + 1 == |files|
    ensures !StruckLater(files, k)
  {
  }

  /** A file whose layer went was struck when it did. */
  lemma {:induction false} ReplacedWasStruck(files: seq<File>, k: nat)
    requires k < |files| && Fate(files, k) == Replaced
    ensures StruckLater(files, k)
    decreases |files|
  {
    hide Take, TakeAll, Joins, Judge, StruckLater, ReplacedNames, Fate, Goes;
    var before, f := files[..|files| - 1], files[|files| - 1];
    assert before + [f] == files;
    FateAfter(before, f, k);
    if k < |before| {
      StruckBy(before, f, k);
      assert before[k] == files[k];
      if Fate(before, k) == Replaced {
        ReplacedWasStruck(before, k);
      } else {
        JoinerReadable(TakeAll(before), f);
        GoesByName(before, f, k);
      }
    }
  }

  lemma JoinerReadable(d: Desk, f: File)
    requires Joins(d, f)
    ensures f.Readable?
  {
  }

  lemma FateOrFirst(files: seq<File>, k: nat)
    requires k < |files| && Fate(files, k) != Replaced
    ensures Fate(files, k) == FirstStatus(files, k) && FirstStatus(files, k) != Replaced
    ensures files[k].Unreadable? ==> FirstStatus(files, k) == Invalid
  {
    hide Judge, TakeAll;
  }

  /** The report on any list of files is right exactly if no readable file whose own layer has not gone bears the name of
      a layer that went when a later file joined. */
  lemma ReportRightIff(files: seq<File>)
    ensures ReportRight(files) <==>
            forall k :: 0 <= k < |files| && files[k].Readable? && Fate(files, k) != Replaced ==> !StruckLater(files, k)
  {
    hide TakeAll, Fate, FirstStatus, StruckLater;
    LayersOfFiles(files);
    forall k | 0 <= k < |files|
      ensures TakeAll(files).report[k] == Report(NameOf(files[k]), Fate(files, k)) <==>
              !(files[k].Readable? && Fate(files, k) != Replaced && StruckLater(files, k))
    {
      ReportSays(files, k);
      if Fate(files, k) == Replaced {
        ReplacedWasStruck(files, k);
        ReplacedReadable(files, k);
      } else {
        FateOrFirst(files, k);
      }
    }
  }

  lemma ReplacedReadable(files: seq<File>, k: nat)
    requires k < |files| && Fate(files, k) == Replaced
    ensures files[k].Readable?
  {
    hide Judge, TakeAll;
  }

  function Export(name: string, run: string, through: int): File {
    Readable(Dataset(name, 0, [Source(run, 0, through)], map[], map[]))
  }

  /** Two files of one name mislead it: an old export of run a, one of run b under the same name, and a newer one of
      run a.  The second file is in the result, yet reported as replaced. */
  lemma SameNameMisleads()
    ensures var d := TakeAll([Export("x", "a", 10), Export("x", "b", 10), Export("new", "a", 20)]);
            IsLayer(d.layers, 1) && d.report[..2] == [Report("x", Replaced), Report("x", Replaced)]
    ensures !ReportRight([Export("x", "a", 10), Export("x", "b", 10), Export("new", "a", 20)])
  {
    var f, g, h := Export("x", "a", 10), Export("x", "b", 10), Export("new", "a", 20);
    var one, two := Take(EMPTY_DESK, f, []), Take(Take(EMPTY_DESK, f, []), g, []);
    assert TakeAll([]) == EMPTY_DESK;
    assert TakeAll([f]) == one by { assert [f][..0] == []; }
    assert TakeAll([f, g]) == two by { assert [f, g][..1] == [f]; }
    assert TakeAll([f, g, h]) == Take(two, h, []) by { assert [f, g, h][..2] == [f, g]; }
    MisledFirst(one, f);
    MisledSecond(two, one, f, g);
    MisledThird(two, f, g, h);
    var files := [f, g, h];
    GoerJoined(files, 1);
    assert Fate(files, 1) == MergedIn && TakeAll(files).report[..2][1] == TakeAll(files).report[1];
  }

  lemma MisledFirst(d: Desk, f: File)
    requires f == Export("x", "a", 10) && d == Take(EMPTY_DESK, f, [])
    ensures d == Desk([Layer(0, f.data)], [Report("x", MergedIn)])
  {
    assert !Within(f.data.sources[0], []);
    assert [] + AllSources([]) == [];
  }

  lemma MisledSecond(e: Desk, d: Desk, f: File, g: File)
    requires f == Export("x", "a", 10) && g == Export("x", "b", 10)
    requires d == Desk([Layer(0, f.data)], [Report("x", MergedIn)]) && e == Take(d, g, [])
    ensures e == Desk([Layer(0, f.data), Layer(1, g.data)], [Report("x", MergedIn), Report("x", MergedIn)])
  {
    assert d.layers[1..] == [];
    assert [] + AllSources(d.layers) == f.data.sources;
    assert g.data.sources[0] in g.data.sources && !Within(g.data.sources[0], f.data.sources);
    assert !Meets(g.data.sources[0], f.data.sources);
    assert Kept(g.data.sources, d.layers) == d.layers;
  }

  lemma OtherRun(f: File, g: File)
    requires f.Readable? && g.Readable?
    requires forall a, b :: a in f.data.sources && b in g.data.sources ==> a.instance != b.instance
    ensures !Meet(f.data.sources, g.data.sources)
  {
  }

  lemma MisledThird(d: Desk, f: File, g: File, h: File)
    requires f == Export("x", "a", 10) && g == Export("x", "b", 10) && h == Export("new", "a", 20)
    requires d == Desk([Layer(0, f.data), Layer(1, g.data)], [Report("x", MergedIn), Report("x", MergedIn)])
    ensures var e := Take(d, h, []);
            IsLayer(e.layers, 1) && e.report[..2] == [Report("x", Replaced), Report("x", Replaced)]
  {
    var xs, L, M := h.data.sources, d.layers[0], d.layers[1];
    assert d.layers[1..] == [M] && [M][1..] == [];
    assert AllSources([M]) == M.data.sources + [];
    assert AllSources(d.layers) == L.data.sources + AllSources([M]);
    assert [] + AllSources(d.layers) == [Source("a", 0, 10), Source("b", 0, 10)];
    assert xs[0] in xs && !Within(xs[0], [Source("a", 0, 10), Source("b", 0, 10)]);
    MeetFrom(xs[0], L.data.sources[0], xs, L.data.sources);
    assert Contains(xs[0], L.data.sources[0]);
    assert Covered(L.data.sources, xs) by { assert Within(L.data.sources[0], xs); }
    OtherRun(h, g);
    assert Kept(xs, [M]) == [M] + [];
    assert Kept(xs, d.layers) == Kept(xs, [M]);
    assert L.data.name in ReplacedNames(xs, d.layers) by { assert L in d.layers; }
    var e := Take(d, h, []);
    assert e.layers[0] == M;
    assert M in e.layers && M.file == 1;
  }

  /** An old export of run a, a part of it under the same name, which is skipped, and a newer one: the report of the
      second file, right before, turns to replaced. */
  lemma SkippedMisleads()
    ensures var f, g, h := Export("x", "a", 10), Export("x", "a", 5), Export("new", "a", 20);
            ReportRight([f, g]) && !ReportRight([f, g, h])
  {
    hide *;
    var f, g, h := Export("x", "a", 10), Export("x", "a", 5), Export("new", "a", 20);
    assert [] + [f] == [f] && [f] + [g] == [f, g] && [f, g] + [h] == [f, g, h];
    NothingTaken(f);
    OneMore([], f);
    MisledFirst(TakeAll([f]), f);
    ReportStaysRight([], f);
    OneMore([f], g);
    PartSkipped(TakeAll([f]), f, g);
    ReportStaysRight([f], g);
    NewerMisnames(TakeAll([f, g]), f, h);
    ReportStaysRight([f, g], h);
  }

  lemma NothingTaken(f: File)
    ensures TakeAll([]) == EMPTY_DESK && ReportRight([]) && !Misnamed(EMPTY_DESK, f)
  {
  }

  lemma PartSkipped(d: Desk, f: File, g: File)
    requires f == Export("x", "a", 10) && g == Export("x", "a", 5)
    requires d == Desk([Layer(0, f.data)], [Report("x", MergedIn)])
    ensures Take(d, g, []) == Desk(d.layers, [Report("x", MergedIn), Report("x", Skipped)]) && !Misnamed(d, g)
  {
    assert d.layers[1..] == [] && [] + AllSources(d.layers) == f.data.sources;
    assert Contains(f.data.sources[0], g.data.sources[0]);
    assert Within(g.data.sources[0], f.data.sources);
    assert Covered(g.data.sources, f.data.sources);
  }

  lemma NewerMisnames(d: Desk, f: File, h: File)
    requires f == Export("x", "a", 10) && h == Export("new", "a", 20)
    requires d == Desk([Layer(0, f.data)], [Report("x", MergedIn), Report("x", Skipped)])
    ensures Misnamed(d, h)
  {
    var xs, L := h.data.sources, d.layers[0];
    assert d.layers[1..] == [] && [] + AllSources(d.layers) == f.data.sources;
    assert xs[0] in xs && !Within(xs[0], f.data.sources);
    MeetFrom(xs[0], L.data.sources[0], xs, L.data.sources);
    assert Contains(xs[0], L.data.sources[0]);
    assert Covered(L.data.sources, xs) by { assert Within(L.data.sources[0], xs); }
    assert L.data.name in ReplacedNames(xs, d.layers) by { assert L in d.layers; }
    assert MisnamedAt(d, h, 1);
  }

  // ---- the merge of the layers ----

  function MergedLayers(layers: seq<Layer>): Dataset {
    if layers == [] then Dataset("merged", 0, [], map[], map[])
    else
      var x := layers[|layers| - 1].data;
      var d := Merged(MergedLayers(layers[..|layers| - 1]), x);
      d.(exported := Max(d.exported, x.exported))
  }

  function BeyondSum(layers: seq<Layer>, f: Id, q: Counter): int {
    if layers == [] then 0 else BeyondSum(layers[..|layers| - 1], f, q) + Beyond(layers[|layers| - 1].data, f, q)
  }

  function StreamsSum(layers: seq<Layer>, f: Id): nat {
    if layers == [] then 0 else StreamsSum(layers[..|layers| - 1], f) + StreamsOf(layers[|layers| - 1].data, f)
  }

  /** The result holds the sources of its layers, and of each counter exactly what the layers hold together beyond
      the calls they list. */
  lemma {:induction false} LayersConserve(layers: seq<Layer>, f: Id, q: Counter)
    requires forall L :: L in layers ==> Beyond(L.data, f, q) >= 0
    ensures BeyondSum(layers, f, q) >= 0
    ensures Beyond(MergedLayers(layers), f, q) == BeyondSum(layers, f, q)
    ensures StreamsOf(MergedLayers(layers), f) == StreamsSum(layers, f)
  {
    hide Unlisted, Merged, Streams;
    if layers == [] {
      NothingBeyond(q);
    } else {
      var before := layers[..|layers| - 1];
      LayersConserve(before, f, q);
      MergedConserves(MergedLayers(before), layers[|layers| - 1].data, f, q);
    }
  }

  lemma {:induction false} AllSourcesAppend(a: seq<Layer>, b: seq<Layer>)
    ensures AllSources(a + b) == AllSources(a) + AllSources(b)
  {
    if a == [] {
      assert a + b == b;
    } else {
      assert (a + b)[1..] == a[1..] + b;
      AllSourcesAppend(a[1..], b);
    }
  }

  lemma {:induction false} LayersProvenance(layers: seq<Layer>)
    ensures MergedLayers(layers).sources == AllSources(layers)
  {
    if layers != [] {
      var before, last := layers[..|layers| - 1], layers[|layers| - 1..];
      LayersProvenance(before);
      AllSourcesAppend(before, last);
      assert layers == before + last && last[1..] == [];
    }
  }
}
