/** The merge as it runs: counters, entities and calls of one data set are worked into another in place, and twins
    are looked up in an index of the calls by target. */
module DatasetMerges {
  import opened Basics
  import opened Ordered
  import opened Counters
  import opened Maps
  import opened NetMerges
  import opened Datasets
  import opened Tracks
  import opened MergeInto

  function FamilyIn(fams: map<Id, DsFamily>, f: Id): DsFamily {
    if f in fams then fams[f] else NO_FAMILY
  }

  /** One family of `into` after `from` joined, under the joined rules. */
  function JoinedFamily(book: Book, into: map<Id, DsFamily>, from: map<Id, DsFamily>): Id -> DsFamily {
    f => MergeFamily(RulesOf(book, f), FamilyIn(into, f), FamilyIn(from, f))
  }

  /** `from` folded into `into`: rules, then families, then provenance. */
  function Merged(into: Dataset, from: Dataset): Dataset {
    var book := UnionBook(into.merges, from.merges);
    into.(merges := book, fams := Overlay(into.fams, from.fams.Keys, JoinedFamily(book, into.fams, from.fams)),
          sources := into.sources + from.sources)
  }

  /** Counter q's calls beyond those listed, in one family of a data set. */
  function Beyond(d: Dataset, f: Id, q: Counter): int {
    Unlisted(FamilyIn(d.fams, f), q)
  }

  function StreamsOf(d: Dataset, f: Id): nat {
    Streams(FamilyIn(d.fams, f).calls)
  }

  lemma MergedConserves(into: Dataset, from: Dataset, f: Id, q: Counter)
    requires Beyond(into, f, q) >= 0 && Beyond(from, f, q) >= 0
    ensures Beyond(Merged(into, from), f, q) == Beyond(into, f, q) + Beyond(from, f, q)
    ensures StreamsOf(Merged(into, from), f) == StreamsOf(into, f) + StreamsOf(from, f)
  {
    hide MergeFamily, UnionBook;
    if f in from.fams {
      MergeConserves(RulesOf(UnionBook(into.merges, from.merges), f), FamilyIn(into.fams, f), from.fams[f], q);
    } else {
      NothingBeyond(q);
    }
  }

  lemma NothingBeyond(q: Counter)
    ensures Unlisted(NO_FAMILY, q) == 0 && Streams(NO_FAMILY.calls) == 0
  {
  }

  // ---- entities ----

  method AddCountsInto(a: map<Id, nat>, b: map<Id, nat>) returns (r: map<Id, nat>)
    ensures r == AddCounts(a, b)
  {
    hide AddCounts;
    CountsEnd(a, b);
    r := a;
    var todo := b.Keys;
    while todo != {}
      invariant todo <= b.Keys && r == AddCounts(a, b - todo)
      decreases |todo|
    {
      var k :| k in todo;
      CountsStep(a, b, todo, k);
      r := r[k := Get(r, k) + b[k]];
      todo := todo - {k};
    }
  }

  lemma CountsStep(a: map<Id, nat>, b: map<Id, nat>, todo: set<Id>, k: Id)
    requires k in todo && todo <= b.Keys
    ensures var r := AddCounts(a, b - todo);
            AddCounts(a, b - (todo - {k})) == r[k := Get(r, k) + b[k]]
  {
    hide Mixed;
    MixStep(a, b, Plus, todo, k);
  }

  lemma CountsEnd(a: map<Id, nat>, b: map<Id, nat>)
    ensures AddCounts(a, b - b.Keys) == a && AddCounts(a, b - {}) == AddCounts(a, b)
  {
    hide Mixed;
    MixEnds(a, b, Plus);
  }

  method AddAliasesInto(a: seq<string>, b: seq<string>) returns (r: seq<string>)
    ensures r == AddAliases(a, b)
  {
    r := a;
    var i := 0;
    assert b[0..] == b;
    while i < |b|
      invariant i <= |b| && AddAliases(r, b[i..]) == AddAliases(a, b)
    {
      assert b[i..][0] == b[i] && b[i..][1..] == b[i + 1..];
      if |r| < MAX_ALIASES && b[i] !in r { r := r + [b[i]]; }
      i := i + 1;
    }
  }

  method NetworkInto(n: DsNetwork, m: DsNetwork) returns (r: DsNetwork)
    ensures r == MergedNetwork(n, m)
  {
    hide AddKeys, Insert;
    r := n;
    if ConfidenceRank(m.confidence) > ConfidenceRank(n.confidence) { r := r.(confidence := m.confidence, name := m.name); }
    var keys, _ := AddAllKeys(n.keys, m.keys);
    r := r.(ids := Insert(n.ids, m.ids), sites := n.sites + m.sites, freqs := n.freqs + m.freqs,
            sessions := n.sessions + m.sessions, calls := n.calls + m.calls, keys := keys,
            first := Earliest(n.first, m.first), last := Max(n.last, m.last));
  }

  method TgInto(t: DsTalkgroup, m: DsTalkgroup) returns (r: DsTalkgroup)
    ensures r == MergedTg(t, m)
  {
    hide AddKeys, AddCounts;
    var radios := AddCountsInto(t.radios, m.radios);
    var keys, _ := AddAllKeys(t.keys, m.keys);
    r := DsTalkgroup(radios, t.networks + m.networks, t.calls + m.calls, t.emerg + m.emerg, t.enc + m.enc,
                     Earliest(t.first, m.first), Max(t.last, m.last), keys);
  }

  method RadioInto(r0: DsRadio, m: DsRadio) returns (r: DsRadio)
    ensures r == MergedRadio(r0, m)
  {
    hide AddKeys, AddCounts, AddAliases, MergeTracks;
    var aliases := AddAliasesInto(r0.aliases, m.aliases);
    var tgs := AddCountsInto(r0.tgs, m.tgs);
    var peers := AddCountsInto(r0.peers, m.peers);
    var keys, _ := AddAllKeys(r0.keys, m.keys);
    r := r0.(aliases := aliases, tgs := tgs, peers := peers, networks := r0.networks + m.networks, keys := keys,
             calls := r0.calls + m.calls, first := Earliest(r0.first, m.first), last := Max(r0.last, m.last));
    if m.pos != "" && m.posTime >= r0.posTime { r := r.(pos := m.pos, posTime := m.posTime); }
    if m.track != [] {
      var track := JoinTracks(r0.track, m.track);
      r := r.(track := track);
    }
  }

  method NetworksInto(a: map<Id, DsNetwork>, b: map<Id, DsNetwork>) returns (r: map<Id, DsNetwork>)
    ensures r == Mixed(a, b, MergedNetwork)
  {
    hide Mixed, MergedNetwork;
    MixEnds(a, b, MergedNetwork);
    r := a;
    var todo := b.Keys;
    while todo != {}
      invariant todo <= b.Keys && r == Mixed(a, b - todo, MergedNetwork)
      decreases |todo|
    {
      var k :| k in todo;
      MixStep(a, b, MergedNetwork, todo, k);
      if k !in r {
        r := r[k := b[k]];
      } else {
        var x := NetworkInto(r[k], b[k]);
        r := r[k := x];
      }
      todo := todo - {k};
    }
  }

  method TgsInto(a: map<Id, DsTalkgroup>, b: map<Id, DsTalkgroup>) returns (r: map<Id, DsTalkgroup>)
    ensures r == Mixed(a, b, MergedTg)
  {
    hide Mixed, MergedTg;
    MixEnds(a, b, MergedTg);
    r := a;
    var todo := b.Keys;
    while todo != {}
      invariant todo <= b.Keys && r == Mixed(a, b - todo, MergedTg)
      decreases |todo|
    {
      var k :| k in todo;
      MixStep(a, b, MergedTg, todo, k);
      if k !in r {
        r := r[k := b[k]];
      } else {
        var x := TgInto(r[k], b[k]);
        r := r[k := x];
      }
      todo := todo - {k};
    }
  }

  method RadiosInto(a: map<Id, DsRadio>, b: map<Id, DsRadio>) returns (r: map<Id, DsRadio>)
    ensures r == Mixed(a, b, MergedRadio)
  {
    hide Mixed, MergedRadio;
    MixEnds(a, b, MergedRadio);
    r := a;
    var todo := b.Keys;
    while todo != {}
      invariant todo <= b.Keys && r == Mixed(a, b - todo, MergedRadio)
      decreases |todo|
    {
      var k :| k in todo;
      MixStep(a, b, MergedRadio, todo, k);
      if k !in r {
        r := r[k := b[k]];
      } else {
        var x := RadioInto(r[k], b[k]);
        r := r[k := x];
      }
      todo := todo - {k};
    }
  }

  // ---- calls, looked up by target ----

  type Index = map<Id, seq<nat>>

  function Bucket(ix: Index, tgt: Id): seq<nat> {
    if tgt in ix then ix[tgt] else []
  }

  predicate BothEnds(c: DsCall) {
    c.src != "" && c.tgt != ""
  }

  /** The positions among the first n of the calls on tgt with both ends, in order. */
  function Positions(s: seq<DsCall>, tgt: Id, n: nat): (r: seq<nat>)
    requires n <= |s|
    ensures forall j :: 0 <= j < |r| ==> r[j] < n && BothEnds(s[r[j]]) && s[r[j]].tgt == tgt
  {
    if n == 0 then []
    else if BothEnds(s[n - 1]) && s[n - 1].tgt == tgt then Positions(s, tgt, n - 1) + [n - 1]
    else Positions(s, tgt, n - 1)
  }

  ghost predicate Indexed(ix: Index, s: seq<DsCall>, n: nat)
    requires n <= |s|
  {
    forall t :: Bucket(ix, t) == Positions(s, t, n)
  }

  method BuildIndex(s: seq<DsCall>) returns (ix: Index)
    ensures Indexed(ix, s, |s|)
  {
    ix := map[];
    for i := 0 to |s|
      invariant Indexed(ix, s, i)
    {
      if s[i].src != "" && s[i].tgt != "" {
        ix := ix[s[i].tgt := Bucket(ix, s[i].tgt) + [i]];
      }
    }
  }

  /** The first of the positions b from k on that holds a twin of c; n without one. */
  function FirstTwin(R: Rules, s: seq<DsCall>, b: seq<nat>, c: DsCall, n: nat): nat
    requires forall j :: 0 <= j < |b| ==> b[j] < |s|
    decreases |b|
  {
    if b == [] then n else if IsTwin(R, s[b[0]], c) then b[0] else FirstTwin(R, s, b[1..], c, n)
  }

  lemma {:induction false} FirstTwinLast(R: Rules, s: seq<DsCall>, b: seq<nat>, i: nat, c: DsCall, n: nat, m: nat)
    requires (forall j :: 0 <= j < |b| ==> b[j] < m) && m <= |s| && i < |s|
    ensures FirstTwin(R, s, b + [i], c, n) ==
            if FirstTwin(R, s, b, c, m) < m then FirstTwin(R, s, b, c, m) else if IsTwin(R, s[i], c) then i else n
    decreases |b|
  {
    hide IsTwin;
    if b == [] {
      assert b + [i] == [i] && [i][1..] == [];
    } else {
      assert (b + [i])[1..] == b[1..] + [i];
      FirstTwinLast(R, s, b[1..], i, c, n, m);
    }
  }

  lemma {:induction false} FirstTwinOrElse(R: Rules, s: seq<DsCall>, b: seq<nat>, c: DsCall, n: nat, m: nat)
    requires (forall j :: 0 <= j < |b| ==> b[j] < m) && m <= |s|
    ensures FirstTwin(R, s, b, c, n) == if FirstTwin(R, s, b, c, m) < m then FirstTwin(R, s, b, c, m) else n
    decreases |b|
  {
    hide IsTwin;
    if b != [] { FirstTwinOrElse(R, s, b[1..], c, n, m); }
  }

  /** Looking through the bucket of c's target finds the very call a search of the whole list finds. */
  lemma {:induction false} BucketFindsTwin(R: Rules, s: seq<DsCall>, c: DsCall, n: nat)
    requires n <= |s| && Twinnable(c)
    ensures FirstTwin(R, s, Positions(s, c.tgt, n), c, n) == FindTwin(R, s[..n], c, 0)
  {
    if n > 0 {
      BucketFindsTwin(R, s, c, n - 1);
      TwinLast(R, s, c, n);
      BucketLast(R, s, c, n);
    }
  }

  /** One more call in the list, and in its bucket if that is c's. */
  lemma BucketLast(R: Rules, s: seq<DsCall>, c: DsCall, n: nat)
    requires 0 < n <= |s| && Twinnable(c)
    ensures var before := FirstTwin(R, s, Positions(s, c.tgt, n - 1), c, n - 1);
            FirstTwin(R, s, Positions(s, c.tgt, n), c, n)
            == if before < n - 1 then before else if IsTwin(R, s[n - 1], c) then n - 1 else n
  {
    hide FirstTwin;
    var b := Positions(s, c.tgt, n - 1);
    FirstTwinOrElse(R, s, b, c, n, n - 1);
    FirstTwinLast(R, s, b, n - 1, c, n, n - 1);
  }

  lemma TwinLast(R: Rules, s: seq<DsCall>, c: DsCall, n: nat)
    requires 0 < n <= |s|
    ensures var before := FindTwin(R, s[..n - 1], c, 0);
            FindTwin(R, s[..n], c, 0) == if before < n - 1 then before else if IsTwin(R, s[n - 1], c) then n - 1 else n
  {
    hide IsTwin;
    var r, before := FindTwin(R, s[..n], c, 0), FindTwin(R, s[..n - 1], c, 0);
    assert forall i :: 0 <= i < n - 1 ==> s[..n - 1][i] == s[..n][i];
    if r < n - 1 { assert IsTwin(R, s[..n - 1][r], c); }
    if before < n - 1 { assert IsTwin(R, s[..n][before], c); }
    if before == n - 1 && IsTwin(R, s[n - 1], c) { assert IsTwin(R, s[..n][n - 1], c); }
  }

  method SearchBucket(R: Rules, ix: Index, s: seq<DsCall>, n: nat, c: DsCall) returns (r: nat)
    requires n <= |s| && Indexed(ix, s, n) && Twinnable(c)
    ensures r == FindTwin(R, s[..n], c, 0)
  {
    hide IsTwin;
    BucketFindsTwin(R, s, c, n);
    var b := Bucket(ix, c.tgt);
    var k := 0;
    assert b[0..] == b;
    while k < |b|
      invariant k <= |b| && FirstTwin(R, s, b[k..], c, n) == FirstTwin(R, s, b, c, n)
    {
      assert b[k..][0] == b[k] && b[k..][1..] == b[k + 1..];
      if IsTwin(R, s[b[k]], c) { return b[k]; }
      k := k + 1;
    }
    r := n;
  }

  method UncountCall(F: DsFamily, c: DsCall) returns (G: DsFamily)
    ensures G == Uncount(F, c)
  {
    hide Unbump;
    G := F;
    var key := if c.kid == "" then "" else c.alg + ":" + c.kid;
    if c.src in G.radios {
      var x := G.radios[c.src];
      x := x.(calls := Less1(x.calls));
      if c.kid != "" { x := x.(keys := Unbump(x.keys, key)); }
      if c.priv { x := x.(peers := Unbump(x.peers, c.tgt)); } else { x := x.(tgs := Unbump(x.tgs, c.tgt)); }
      G := G.(radios := G.radios[c.src := x]);
    }
    assert G == UncountTalker(F, c);
    G := UncountOthers(G, c, key);
  }

  method UncountOthers(F: DsFamily, c: DsCall, key: string) returns (G: DsFamily)
    requires c.kid != "" ==> key == c.alg + ":" + c.kid
    ensures G == UncountNetwork(UncountTg(UncountPeer(F, c), c), c)
  {
    hide Unbump;
    G := F;
    if c.priv {
      if c.tgt in G.radios {
        G := G.(radios := G.radios[c.tgt := G.radios[c.tgt].(peers := Unbump(G.radios[c.tgt].peers, c.src))]);
      }
    } else if c.tgt in G.tgs {
      var x := G.tgs[c.tgt];
      x := x.(calls := Less1(x.calls), radios := Unbump(x.radios, c.src));
      if c.emerg { x := x.(emerg := Less1(x.emerg)); }
      if c.enc { x := x.(enc := Less1(x.enc)); }
      if c.kid != "" { x := x.(keys := Unbump(x.keys, key)); }
      G := G.(tgs := G.tgs[c.tgt := x]);
    }
    assert G == UncountTg(UncountPeer(F, c), c);
    if c.net in G.networks {
      var x := G.networks[c.net];
      x := x.(calls := Less1(x.calls));
      if c.kid != "" { x := x.(keys := Unbump(x.keys, key)); }
      G := G.(networks := G.networks[c.net := x]);
    }
  }

  /** Folding a duplicate in moves no call to another bucket. */
  lemma {:induction false} SamePositions(s: seq<DsCall>, t: seq<DsCall>, tgt: Id, n: nat)
    requires n <= |s| && n <= |t|
    requires forall i :: 0 <= i < n ==> t[i].src == s[i].src && t[i].tgt == s[i].tgt
    ensures Positions(s, tgt, n) == Positions(t, tgt, n)
  {
    if n > 0 { SamePositions(s, t, tgt, n - 1); }
  }

  lemma StillIndexed(ix: Index, s: seq<DsCall>, t: seq<DsCall>, n: nat)
    requires n <= |s| && n <= |t| && Indexed(ix, s, n)
    requires forall i :: 0 <= i < n ==> t[i].src == s[i].src && t[i].tgt == s[i].tgt
    ensures Indexed(ix, t, n)
  {
    hide Bucket;
    forall tgt ensures Bucket(ix, tgt) == Positions(t, tgt, n) { SamePositions(s, t, tgt, n); }
  }

  method CallInto(R: Rules, ix: Index, T: DsFamily, n: nat, c: DsCall) returns (U: DsFamily)
    requires n <= |T.calls| && Indexed(ix, T.calls, n)
    ensures U == TakeCall(R, T, n, c) && n <= |U.calls| && Indexed(ix, U.calls, n)
  {
    hide Uncount, Indexed, IsTwin;
    var t := n;
    if c.src != "" && c.tgt != "" && c.net != "" { t := SearchBucket(R, ix, T.calls, n, c); }
    if t < n {
      var calls := T.calls[t := FoldCall(T.calls[t], c)];
      StillIndexed(ix, T.calls, calls, n);
      U := UncountCall(T.(calls := calls), c);
    } else {
      U := T.(calls := T.calls + [c]);
      StillIndexed(ix, T.calls, U.calls, n);
    }
  }

  method FamilyInto(R: Rules, T: DsFamily, F: DsFamily) returns (U: DsFamily)
    ensures U == MergeFamily(R, T, F)
  {
    hide Mixed, TakeCall, Indexed;
    var nets := NetworksInto(T.networks, F.networks);
    var tgs := TgsInto(T.tgs, F.tgs);
    var radios := RadiosInto(T.radios, F.radios);
    U := DsFamily(nets, tgs, radios, T.calls);
    var n := |T.calls|;
    var ix := BuildIndex(T.calls);
    var i := 0;
    assert F.calls[0..] == F.calls;
    while i < |F.calls|
      invariant i <= |F.calls| && n <= |U.calls| && Indexed(ix, U.calls, n)
      invariant TakeCalls(R, U, n, F.calls[i..]) == MergeFamily(R, T, F)
    {
      assert F.calls[i..][0] == F.calls[i] && F.calls[i..][1..] == F.calls[i + 1..];
      U := CallInto(R, ix, U, n, F.calls[i]);
      i := i + 1;
    }
  }

  method FamiliesInto(book: Book, into: map<Id, DsFamily>, from: map<Id, DsFamily>) returns (fams: map<Id, DsFamily>)
    ensures fams == Overlay(into, from.Keys, JoinedFamily(book, into, from))
  {
    hide Overlay, MergeFamily;
    ghost var f := JoinedFamily(book, into, from);
    OverlayEnds(into, from.Keys, f);
    fams := into;
    var todo := from.Keys;
    while todo != {}
      invariant todo <= from.Keys && fams == Overlay(into, from.Keys - todo, f)
      decreases |todo|
    {
      var k :| k in todo;
      OverlayStep(into, from.Keys, f, todo, k);
      var U := FamilyInto(RulesOf(book, k), FamilyIn(fams, k), from[k]);
      fams := fams[k := U];
      todo := todo - {k};
    }
  }

  /** A data set others are merged into. */
  class Collector {
    var data: Dataset

    constructor (name: string)
      ensures data == Dataset(name, 0, [], map[], map[])
    {
      data := Dataset(name, 0, [], map[], map[]);
    }

    method MergeInto(from: Dataset)
      modifies this
      ensures data == Merged(old(data), from)
    {
      hide UnionBook, MergeFamily, Overlay;
      var book := UnionBooks(data.merges, from.merges);
      var fams := FamiliesInto(book, data.fams, from.fams);
      data := data.(merges := book, fams := fams, sources := data.sources + from.sources);
    }
  }
}
