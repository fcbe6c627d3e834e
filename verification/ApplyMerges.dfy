/** The networks of a data set gathered under their representatives: one for each, and nothing is lost. */
module ApplyMerges {
  import opened Basics
  import opened Ordered
  import opened Counters
  import opened Maps
  import opened NetMerges
  import opened Datasets
  import opened MergeInto

  type Nets = map<Id, DsNetwork>

  /** One more network of a group: as in a merge, but the group keeps the name it has. */
  function Grouped(n: DsNetwork, m: DsNetwork): DsNetwork {
    MergedNetwork(n, m).(name := n.name)
  }

  /** The networks listed in ks, each gathered under its representative. */
  function Gather(N: Nets, R: Rules, ks: seq<Id>): Nets
    requires forall k :: k in ks ==> k in N
  {
    if ks == [] then map[]
    else
      var acc, k := Gather(N, R, ks[..|ks| - 1]), ks[|ks| - 1];
      var r := Root(R, k);
      acc[r := if r in acc then Grouped(acc[r], N[k]) else N[k]]
  }

  /** The keys of ks that are targets, or those that are not, in order. */
  function Pass(R: Rules, ks: seq<Id>, targets: bool): (r: seq<Id>)
    ensures forall k :: k in r <==> k in ks && (Root(R, k) == k) == targets
  {
    if ks == [] then []
    else if (Root(R, ks[0]) == ks[0]) == targets then [ks[0]] + Pass(R, ks[1..], targets)
    else Pass(R, ks[1..], targets)
  }

  /** Targets first: theirs are the names. */
  function InPasses(R: Rules, ks: seq<Id>): (r: seq<Id>)
    ensures forall k :: k in r <==> k in ks
  {
    Pass(R, ks, true) + Pass(R, ks, false)
  }

  function AppliedNetworks(N: Nets, R: Rules): Nets {
    Gather(N, R, InPasses(R, Sorted(N.Keys)))
  }

  function Roots(R: Rules, s: set<Id>): set<Id> {
    set k | k in s :: Root(R, k)
  }

  function FixTg(R: Rules, tgs: map<Id, DsTalkgroup>): Id -> DsTalkgroup {
    t => if t in tgs then tgs[t].(networks := Roots(R, tgs[t].networks)) else DsTalkgroup(map[], {}, 0, 0, 0, 0, 0, map[])
  }

  function FixRadio(R: Rules, radios: map<Id, DsRadio>): Id -> DsRadio {
    r => if r in radios then radios[r].(networks := Roots(R, radios[r].networks))
         else DsRadio([], map[], map[], {}, map[], 0, 0, 0, "", 0, [])
  }

  function FixCalls(R: Rules, s: seq<DsCall>): (t: seq<DsCall>)
    ensures |t| == |s| && forall i :: 0 <= i < |s| ==> t[i] == s[i].(net := Root(R, s[i].net))
  {
    seq(|s|, i requires 0 <= i < |s| => s[i].(net := Root(R, s[i].net)))
  }

  function Applied(R: Rules, F: DsFamily): DsFamily {
    if R == map[] then F
    else DsFamily(AppliedNetworks(F.networks, R), Overlay(F.tgs, F.tgs.Keys, FixTg(R, F.tgs)),
                  Overlay(F.radios, F.radios.Keys, FixRadio(R, F.radios)), FixCalls(R, F.calls))
  }

  function ApplyIn(d: Dataset): Id -> DsFamily {
    f => if f in d.fams then Applied(RulesOf(d.merges, f), d.fams[f]) else NO_FAMILY
  }

  function AppliedAll(d: Dataset): Dataset {
    d.(fams := Overlay(d.fams, d.fams.Keys, ApplyIn(d)), merges := map[])
  }

  // ---- what a group adds up to ----

  predicate InGroup(N: Nets, R: Rules, r: Id, k: Id) {
    k in N && Root(R, k) == r
  }

  function CallsUnder(N: Nets, R: Rules, ks: seq<Id>, r: Id): nat
    requires forall k :: k in ks ==> k in N
  {
    if ks == [] then 0
    else (if Root(R, ks[0]) == r then N[ks[0]].calls else 0) + CallsUnder(N, R, ks[1..], r)
  }

  function SessionsUnder(N: Nets, R: Rules, ks: seq<Id>, r: Id): nat
    requires forall k :: k in ks ==> k in N
  {
    if ks == [] then 0
    else (if Root(R, ks[0]) == r then N[ks[0]].sessions else 0) + SessionsUnder(N, R, ks[1..], r)
  }

  /** x is the sum, union, least non-zero and greatest over the networks listed in ks and shown under r. */
  ghost predicate SumsUp(N: Nets, R: Rules, ks: seq<Id>, r: Id, x: DsNetwork)
    requires forall k :: k in ks ==> k in N
  {
    && x.calls == CallsUnder(N, R, ks, r) && x.sessions == SessionsUnder(N, R, ks, r)
    && (forall s :: s in x.sites <==> exists k :: k in ks && Root(R, k) == r && s in N[k].sites)
    && (forall f :: f in x.freqs <==> exists k :: k in ks && Root(R, k) == r && f in N[k].freqs)
    && (x.first == 0 <==> forall k :: k in ks && Root(R, k) == r ==> N[k].first == 0)
    && (forall k :: k in ks && Root(R, k) == r && N[k].first != 0 ==> x.first <= N[k].first)
    && (x.first != 0 ==> exists k :: k in ks && Root(R, k) == r && N[k].first == x.first)
    && (forall k :: k in ks && Root(R, k) == r ==> N[k].last <= x.last)
    && (exists k :: k in ks && Root(R, k) == r && N[k].last == x.last)
    && (forall k :: k in ks && Root(R, k) == r ==> ConfidenceRank(N[k].confidence) <= ConfidenceRank(x.confidence))
    && (exists k :: k in ks && Root(R, k) == r && N[k].confidence == x.confidence)
  }

  lemma {:induction false} UnderAppend(N: Nets, R: Rules, a: seq<Id>, b: seq<Id>, r: Id)
    requires forall k :: k in a + b ==> k in N
    ensures forall k :: k in a || k in b ==> k in a + b
    ensures CallsUnder(N, R, a + b, r) == CallsUnder(N, R, a, r) + CallsUnder(N, R, b, r)
    ensures SessionsUnder(N, R, a + b, r) == SessionsUnder(N, R, a, r) + SessionsUnder(N, R, b, r)
  {
    if a == [] {
      assert a + b == b;
    } else {
      assert (a + b)[1..] == a[1..] + b;
      UnderAppend(N, R, a[1..], b, r);
    }
  }

  lemma UnderOne(N: Nets, R: Rules, k: Id, r: Id)
    requires k in N
    ensures CallsUnder(N, R, [k], r) == (if Root(R, k) == r then N[k].calls else 0)
    ensures SessionsUnder(N, R, [k], r) == (if Root(R, k) == r then N[k].sessions else 0)
  {
    assert [k][1..] == [];
  }

  lemma SumsOne(N: Nets, R: Rules, ks: seq<Id>, k: Id)
    requires (forall j :: j in ks + [k] ==> j in N) && k in N
    requires forall j :: j in ks ==> Root(R, j) != Root(R, k)
    requires CallsUnder(N, R, ks, Root(R, k)) == 0 && SessionsUnder(N, R, ks, Root(R, k)) == 0
    ensures SumsUp(N, R, ks + [k], Root(R, k), N[k])
  {
    var r := Root(R, k);
    UnderAppend(N, R, ks, [k], r);
    UnderOne(N, R, k, r);
    assert k in ks + [k];
    assert forall j :: j in ks + [k] && Root(R, j) == r ==> j == k;
  }

  lemma {:induction false} NoneUnder(N: Nets, R: Rules, ks: seq<Id>, r: Id)
    requires (forall j :: j in ks ==> j in N) && forall j :: j in ks ==> Root(R, j) != r
    ensures CallsUnder(N, R, ks, r) == 0 && SessionsUnder(N, R, ks, r) == 0
  {
    if ks != [] { NoneUnder(N, R, ks[1..], r); }
  }

  lemma SumsMore(N: Nets, R: Rules, ks: seq<Id>, k: Id, x: DsNetwork)
    requires (forall j :: j in ks ==> j in N) && k in N && SumsUp(N, R, ks, Root(R, k), x)
    ensures forall j :: j in ks + [k] ==> j in N
    ensures SumsUp(N, R, ks + [k], Root(R, k), Grouped(x, N[k]))
  {
    hide AddKeys, Insert, CallsUnder, SessionsUnder, Root, ConfidenceRank;
    var r := Root(R, k);
    assert forall j :: j in ks + [k] <==> j in ks || j == k;
    UnderAppend(N, R, ks, [k], r);
    UnderOne(N, R, k, r);
    var z := Grouped(x, N[k]);
    assert k in ks + [k];
  }

  lemma SumsSame(N: Nets, R: Rules, ks: seq<Id>, k: Id, r: Id, x: DsNetwork)
    requires (forall j :: j in ks ==> j in N) && k in N && Root(R, k) != r && SumsUp(N, R, ks, r, x)
    ensures forall j :: j in ks + [k] ==> j in N
    ensures SumsUp(N, R, ks + [k], r, x)
  {
    hide CallsUnder, SessionsUnder, Root;
    assert forall j :: j in ks + [k] <==> j in ks || j == k;
    UnderAppend(N, R, ks, [k], r);
    UnderOne(N, R, k, r);
  }

  /** Gathering puts under each key exactly what its group adds up to. */
  lemma {:induction false} GatherSums(N: Nets, R: Rules, ks: seq<Id>)
    requires forall k :: k in ks ==> k in N
    ensures forall r :: r in Gather(N, R, ks) <==> exists k :: k in ks && Root(R, k) == r
    ensures forall r :: r in Gather(N, R, ks) ==> SumsUp(N, R, ks, r, Gather(N, R, ks)[r])
  {
    if ks != [] {
      hide SumsUp, Grouped, Root;
      var before, k := ks[..|ks| - 1], ks[|ks| - 1];
      assert ks == before + [k];
      assert forall j :: j in ks <==> j in before || j == k;
      GatherSums(N, R, before);
      var acc, G := Gather(N, R, before), Gather(N, R, ks);
      forall r | r in G ensures SumsUp(N, R, ks, r, G[r]) {
        if r != Root(R, k) {
          SumsSame(N, R, before, k, r, acc[r]);
        } else if r in acc {
          SumsMore(N, R, before, k, acc[r]);
        } else {
          NoneUnder(N, R, before, r);
          SumsOne(N, R, before, k);
        }
      }
    }
  }

  /** The j-th listed network is the first under r that tells id i. */
  predicate TellsFirst(N: Nets, R: Rules, ks: seq<Id>, r: Id, i: Id, j: nat)
    requires forall k :: k in ks ==> k in N
  {
    && j < |ks| && Root(R, ks[j]) == r && i in N[ks[j]].ids
    && forall l :: 0 <= l < j && Root(R, ks[l]) == r ==> i !in N[ks[l]].ids
  }

  /** Each id is the first's that tells it. */
  ghost predicate IdsOf(N: Nets, R: Rules, ks: seq<Id>, r: Id, ids: map<string, string>)
    requires forall k :: k in ks ==> k in N
  {
    && (forall i :: i in ids ==> exists j: nat :: TellsFirst(N, R, ks, r, i, j) && ids[i] == N[ks[j]].ids[i])
    && (forall i, k :: k in ks && Root(R, k) == r && i in N[k].ids ==> i in ids)
  }

  lemma IdsMore(N: Nets, R: Rules, ks: seq<Id>, k: Id, r: Id, ids: map<string, string>)
    requires (forall j :: j in ks ==> j in N) && k in N && IdsOf(N, R, ks, r, ids)
    ensures forall j :: j in ks + [k] ==> j in N
    ensures IdsOf(N, R, ks + [k], r, if Root(R, k) == r then Insert(ids, N[k].ids) else ids)
  {
    hide Root;
    var all := if Root(R, k) == r then Insert(ids, N[k].ids) else ids;
    assert forall j :: j in ks + [k] <==> j in ks || j == k;
    forall i | i in all ensures exists j: nat :: TellsFirst(N, R, ks + [k], r, i, j) && all[i] == N[(ks + [k])[j]].ids[i] {
      if i in ids {
        var j: nat :| TellsFirst(N, R, ks, r, i, j) && ids[i] == N[ks[j]].ids[i];
        assert TellsFirst(N, R, ks + [k], r, i, j);
      } else {
        assert forall l :: 0 <= l < |ks| && Root(R, ks[l]) == r ==> ks[l] in ks;
        assert TellsFirst(N, R, ks + [k], r, i, |ks|);
      }
    }
  }

  lemma {:induction false} GatherIds(N: Nets, R: Rules, ks: seq<Id>, r: Id)
    requires forall k :: k in ks ==> k in N
    ensures var G := Gather(N, R, ks); IdsOf(N, R, ks, r, if r in G then G[r].ids else map[])
  {
    hide IdsOf, Root, Insert;
    if ks == [] {
      NoIds(N, R, r);
    } else {
      var before, k := ks[..|ks| - 1], ks[|ks| - 1];
      assert ks == before + [k];
      GatherIds(N, R, before, r);
      var acc := Gather(N, R, before);
      var ids := if r in acc then acc[r].ids else map[];
      IdsMore(N, R, before, k, r, ids);
      GroupedIds(if r in acc then acc[r] else N[k], N[k]);
      InsertNone(N[k].ids);
    }
  }

  lemma NoIds(N: Nets, R: Rules, r: Id)
    ensures IdsOf(N, R, [], r, map[])
  {
  }

  lemma GroupedIds(x: DsNetwork, m: DsNetwork)
    ensures Grouped(x, m).ids == Insert(x.ids, m.ids)
  {
    hide MergedKeys;
  }

  lemma InsertNone(b: map<string, string>)
    ensures Insert(map[], b) == b
  {
  }

  /** A group has each id as the first of its networks tells it, the target before the others. */
  lemma GroupIds(N: Nets, R: Rules, r: Id)
    requires r in AppliedNetworks(N, R)
    ensures IdsOf(N, R, InPasses(R, Sorted(N.Keys)), r, AppliedNetworks(N, R)[r].ids)
    ensures r in N && Root(R, r) == r ==> forall i :: i in N[r].ids ==> AppliedNetworks(N, R)[r].ids[i] == N[r].ids[i]
  {
    hide Root, Gather, Sorted, IdsOf;
    var ks := InPasses(R, Sorted(N.Keys));
    GatherIds(N, R, ks, r);
    if r in N && Root(R, r) == r {
      TargetFirst(N, R, Sorted(N.Keys), r, AppliedNetworks(N, R)[r].ids);
    }
  }

  /** Of its group's networks the target comes first. */
  lemma TargetFirst(N: Nets, R: Rules, ks: seq<Id>, r: Id, ids: map<string, string>)
    requires (forall k :: k in ks ==> k in N) && r in ks && Root(R, r) == r && IdsOf(N, R, InPasses(R, ks), r, ids)
    ensures forall i :: i in N[r].ids ==> i in ids && ids[i] == N[r].ids[i]
  {
    hide Root, Pass;
    var a, all := Pass(R, ks, true), InPasses(R, ks);
    forall i | i in N[r].ids ensures i in ids && ids[i] == N[r].ids[i] {
      assert r in all && r in a;
      var j: nat :| TellsFirst(N, R, all, r, i, j) && ids[i] == N[all[j]].ids[i];
      var p :| 0 <= p < |a| && a[p] == r;
      assert all[p] == r;
      assert j <= p;
      assert all[j] == a[j] && a[j] in a;
    }
  }

  lemma {:induction false} PassesAddUp(N: Nets, R: Rules, ks: seq<Id>, r: Id)
    requires forall k :: k in ks ==> k in N
    ensures CallsUnder(N, R, InPasses(R, ks), r) == CallsUnder(N, R, ks, r)
    ensures SessionsUnder(N, R, InPasses(R, ks), r) == SessionsUnder(N, R, ks, r)
  {
    var a, b := Pass(R, ks, true), Pass(R, ks, false);
    UnderAppend(N, R, a, b, r);
    if ks != [] {
      PassesAddUp(N, R, ks[1..], r);
      UnderAppend(N, R, Pass(R, ks[1..], true), Pass(R, ks[1..], false), r);
    }
  }

  lemma GroupKeys(N: Nets, R: Rules, r: Id)
    ensures r in AppliedNetworks(N, R) <==> exists k :: InGroup(N, R, r, k)
  {
    hide Root, SumsUp, InPasses, Sorted, Gather;
    var order := InPasses(R, Sorted(N.Keys));
    GatherSums(N, R, order);
    if k :| InGroup(N, R, r, k) { assert k in order; }
    if r in AppliedNetworks(N, R) {
      var k :| k in order && Root(R, k) == r;
      assert InGroup(N, R, r, k);
    }
  }

  /** Each network of the result is the sum, union, least non-zero and greatest over exactly the networks shown under
      its key. */
  lemma GroupsAddUp(N: Nets, R: Rules)
    ensures forall r :: r in AppliedNetworks(N, R) <==> exists k :: InGroup(N, R, r, k)
    ensures forall r :: r in AppliedNetworks(N, R) ==> SumsUp(N, R, Sorted(N.Keys), r, AppliedNetworks(N, R)[r])
  {
    hide *;
    forall r ensures r in AppliedNetworks(N, R) <==> exists k :: InGroup(N, R, r, k) { GroupKeys(N, R, r); }
    forall r | r in AppliedNetworks(N, R) ensures SumsUp(N, R, Sorted(N.Keys), r, AppliedNetworks(N, R)[r]) {
      GroupSums(N, R, r);
    }
  }

  lemma GroupSums(N: Nets, R: Rules, r: Id)
    requires r in AppliedNetworks(N, R)
    ensures SumsUp(N, R, Sorted(N.Keys), r, AppliedNetworks(N, R)[r])
  {
    hide Root, CallsUnder, SessionsUnder, InPasses, Sorted, Gather;
    var ks := Sorted(N.Keys);
    GatherSums(N, R, InPasses(R, ks));
    PassesAddUp(N, R, ks, r);
    SameListed(N, R, InPasses(R, ks), ks, r, AppliedNetworks(N, R)[r]);
  }

  lemma SameListed(N: Nets, R: Rules, ks: seq<Id>, js: seq<Id>, r: Id, x: DsNetwork)
    requires (forall k :: k in ks <==> k in js) && (forall k :: k in ks ==> k in N) && SumsUp(N, R, ks, r, x)
    requires CallsUnder(N, R, ks, r) == CallsUnder(N, R, js, r) && SessionsUnder(N, R, ks, r) == SessionsUnder(N, R, js, r)
    ensures SumsUp(N, R, js, r, x)
  {
    hide Root, CallsUnder, SessionsUnder;
  }

  // ---- totals, names and references ----

  /** What a network's record counts. */
  datatype Amount = Calls | Sessions

  function Of(w: Amount, n: DsNetwork): nat {
    match w case Calls => n.calls case Sessions => n.sessions
  }

  function Total(N: Nets, w: Amount): nat {
    if N.Keys == {} then 0 else var k := Least(N.Keys); Of(w, N[k]) + Total(N - {k}, w)
  }

  lemma {:induction false} TotalAt(N: Nets, w: Amount, k: Id)
    requires k in N
    ensures Total(N, w) == Of(w, N[k]) + Total(N - {k}, w)
    decreases |N|
  {
    var l := Least(N.Keys);
    if k != l {
      Fewer(N, l);
      TotalAt(N - {l}, w, k);
      var M := N - {k};
      assert IsLeast(M.Keys, l);
      LeastUnique(M.Keys, l, Least(M.Keys));
      assert N - {l} - {k} == M - {l};
    }
  }

  lemma Fewer(N: Nets, k: Id)
    requires k in N
    ensures |N - {k}| < |N|
  {
    assert (N - {k}).Keys + {k} == N.Keys;
    assert |(N - {k}).Keys| == |N - {k}| && |N.Keys| == |N|;
  }

  function ListedTotal(N: Nets, w: Amount, ks: seq<Id>): nat
    requires forall k :: k in ks ==> k in N
  {
    if ks == [] then 0 else Of(w, N[ks[0]]) + ListedTotal(N, w, ks[1..])
  }

  lemma {:induction false} ListedAppend(N: Nets, w: Amount, a: seq<Id>, b: seq<Id>)
    requires forall k :: k in a + b ==> k in N
    ensures forall k :: k in a || k in b ==> k in a + b
    ensures ListedTotal(N, w, a + b) == ListedTotal(N, w, a) + ListedTotal(N, w, b)
  {
    if a == [] {
      assert a + b == b;
    } else {
      assert (a + b)[1..] == a[1..] + b;
      ListedAppend(N, w, a[1..], b);
    }
  }

  lemma {:induction false} ListedPasses(N: Nets, w: Amount, R: Rules, ks: seq<Id>)
    requires forall k :: k in ks ==> k in N
    ensures ListedTotal(N, w, InPasses(R, ks)) == ListedTotal(N, w, ks)
  {
    ListedAppend(N, w, Pass(R, ks, true), Pass(R, ks, false));
    if ks != [] {
      ListedPasses(N, w, R, ks[1..]);
      ListedAppend(N, w, Pass(R, ks[1..], true), Pass(R, ks[1..], false));
    }
  }

  lemma {:induction false} ListedSorted(N: Nets, w: Amount, s: set<Id>)
    requires s == N.Keys
    ensures ListedTotal(N, w, Sorted(s)) == Total(N, w)
    decreases |s|
  {
    if s != {} {
      var k := Least(s);
      var M, t := N - {k}, s - {k};
      assert t + {k} == s;
      ListedSorted(M, w, t);
      ListedSame(N, M, w, Sorted(t));
    }
  }

  lemma {:induction false} ListedSame(N: Nets, M: Nets, w: Amount, ks: seq<Id>)
    requires forall k :: k in ks ==> k in N && k in M && N[k] == M[k]
    ensures ListedTotal(N, w, ks) == ListedTotal(M, w, ks)
  {
    if ks != [] { ListedSame(N, M, w, ks[1..]); }
  }

  lemma GroupedAmount(w: Amount, x: DsNetwork, m: DsNetwork)
    ensures Of(w, Grouped(x, m)) == Of(w, x) + Of(w, m)
  {
  }

  lemma TotalPut(M: Nets, w: Amount, r: Id, x: DsNetwork)
    ensures Total(M[r := x], w) + (if r in M then Of(w, M[r]) else 0) == Total(M, w) + Of(w, x)
  {
    hide Total, Of;
    var G := M[r := x];
    TotalAt(G, w, r);
    assert G - {r} == M - {r};
    if r in M { TotalAt(M, w, r); } else { assert M - {r} == M; }
  }

  lemma LastListed(N: Nets, w: Amount, ks: seq<Id>)
    requires ks != [] && forall k :: k in ks ==> k in N
    ensures ListedTotal(N, w, ks) == ListedTotal(N, w, ks[..|ks| - 1]) + Of(w, N[ks[|ks| - 1]])
  {
    hide Of;
    var before, k := ks[..|ks| - 1], ks[|ks| - 1];
    assert ks == before + [k] && [k][1..] == [];
    ListedAppend(N, w, before, [k]);
  }

  lemma {:induction false} GatherTotal(N: Nets, w: Amount, R: Rules, ks: seq<Id>)
    requires forall k :: k in ks ==> k in N
    ensures Total(Gather(N, R, ks), w) == ListedTotal(N, w, ks)
  {
    if ks == [] {
      assert Gather(N, R, ks).Keys == {};
    } else {
      hide *;
      var before, k := ks[..|ks| - 1], ks[|ks| - 1];
      var acc, r := Gather(N, R, before), Root(R, k);
      GatherTotal(N, w, R, before);
      LastListed(N, w, ks);
      assert before + [k] == ks;
      GatherMore(N, R, before, k);
      var x := if r in acc then Grouped(acc[r], N[k]) else N[k];
      TotalPut(acc, w, r, x);
      if r in acc { GroupedAmount(w, acc[r], N[k]); }
    }
  }

  /** No call of the family, and no session, is lost or counted again. */
  lemma TotalUnchanged(N: Nets, w: Amount, R: Rules)
    ensures Total(AppliedNetworks(N, R), w) == Total(N, w)
  {
    hide Total, Of, Gather, InPasses;
    var ks := Sorted(N.Keys);
    GatherTotal(N, w, R, InPasses(R, ks));
    ListedPasses(N, w, R, ks);
    ListedSorted(N, w, N.Keys);
  }

  lemma {:induction false} GatherKeepsName(N: Nets, R: Rules, a: seq<Id>, b: seq<Id>, r: Id)
    requires (forall k :: k in a + b ==> k in N) && (forall k :: k in a ==> k in N)
    requires r in Gather(N, R, a)
    ensures r in Gather(N, R, a + b) && Gather(N, R, a + b)[r].name == Gather(N, R, a)[r].name
    decreases |b|
  {
    if b == [] {
      assert a + b == a;
    } else {
      hide MergedNetwork, Root;
      var c := a + b;
      assert c[..|c| - 1] == a + b[..|b| - 1];
      GatherKeepsName(N, R, a, b[..|b| - 1], r);
    }
  }

  lemma {:induction false} GatherTargets(N: Nets, R: Rules, ks: seq<Id>)
    requires (forall k :: k in ks ==> k in N && Root(R, k) == k) && Distinct(ks)
    ensures Gather(N, R, ks).Keys == set k | k in ks
    ensures forall k :: k in ks ==> Gather(N, R, ks)[k] == N[k]
  {
    if ks != [] {
      hide Root, Grouped;
      var before, k := ks[..|ks| - 1], ks[|ks| - 1];
      assert forall j :: j in ks <==> j in before || j == k;
      GatherTargets(N, R, before);
      assert k !in before;
    }
  }

  lemma {:induction false} PassDistinct(R: Rules, ks: seq<Id>, targets: bool)
    requires Distinct(ks)
    ensures Distinct(Pass(R, ks, targets))
  {
    if ks != [] {
      hide Root;
      PassDistinct(R, ks[1..], targets);
    }
  }

  /** Where the target is there, the group goes by its name. */
  lemma TargetsName(N: Nets, R: Rules, r: Id)
    requires r in N && Root(R, r) == r
    ensures r in AppliedNetworks(N, R) && AppliedNetworks(N, R)[r].name == N[r].name
  {
    hide Root, Gather, Sorted, Distinct;
    var ks := Sorted(N.Keys);
    SortedDistinct(N.Keys);
    var a, b := Pass(R, ks, true), Pass(R, ks, false);
    PassDistinct(R, ks, true);
    GatherTargets(N, R, a);
    assert r in a;
    GatherKeepsName(N, R, a, b, r);
  }

  /** Everything that names a network names one that is shown. */
  ghost predicate AllRoots(R: Rules, F: DsFamily) {
    && (forall n :: n in F.networks ==> Root(R, n) == n)
    && (forall t, n :: t in F.tgs && n in F.tgs[t].networks ==> Root(R, n) == n)
    && (forall r, n :: r in F.radios && n in F.radios[r].networks ==> Root(R, n) == n)
    && (forall i :: 0 <= i < |F.calls| ==> Root(R, F.calls[i].net) == F.calls[i].net)
  }

  lemma AppliedRoots(R: Rules, F: DsFamily)
    requires Flat(R)
    ensures AllRoots(R, Applied(R, F))
  {
    if R != map[] {
      hide AppliedNetworks, Flat, Root;
      forall k ensures Root(R, Root(R, k)) == Root(R, k) { RootIsFixed(R, k); }
      GroupsAddUp(F.networks, R);
    } else {
      assert forall k :: Root(R, k) == k;
    }
  }

  lemma {:induction false} PassAll(R: Rules, ks: seq<Id>)
    requires forall k :: k in ks ==> Root(R, k) == k
    ensures Pass(R, ks, true) == ks && Pass(R, ks, false) == []
  {
    if ks != [] {
      hide Root;
      PassAll(R, ks[1..]);
    }
  }

  lemma NetworksStay(N: Nets, R: Rules)
    requires forall n :: n in N ==> Root(R, n) == n
    ensures AppliedNetworks(N, R) == N
  {
    hide Root, Gather, Sorted, Distinct;
    var ks := Sorted(N.Keys);
    PassAll(R, ks);
    SortedDistinct(N.Keys);
    assert InPasses(R, ks) == ks;
    GatherTargets(N, R, ks);
  }

  /** A second application of the same rules changes nothing. */
  lemma ApplyTwice(R: Rules, F: DsFamily)
    requires Flat(R)
    ensures Applied(R, Applied(R, F)) == Applied(R, F)
  {
    hide AppliedNetworks, Flat, Root;
    var G := Applied(R, F);
    AppliedRoots(R, F);
    NetworksStay(G.networks, R);
    if R != map[] {
      assert Overlay(G.tgs, G.tgs.Keys, FixTg(R, G.tgs)) == G.tgs by {
        forall t | t in G.tgs ensures Roots(R, G.tgs[t].networks) == G.tgs[t].networks { }
      }
      assert Overlay(G.radios, G.radios.Keys, FixRadio(R, G.radios)) == G.radios by {
        forall r | r in G.radios ensures Roots(R, G.radios[r].networks) == G.radios[r].networks { }
      }
      assert FixCalls(R, G.calls) == G.calls;
    }
  }

  /** Every counter but the networks' own stays as it was. */
  lemma CountersStay(R: Rules, F: DsFamily, q: Counter)
    requires !q.NetTotal?
    ensures Value(Applied(R, F), q) == Value(F, q)
  {
    hide AppliedNetworks, Root, Roots;
  }

  // ---- the program's loops ----

  /** One more network gathered. */
  lemma GatherMore(N: Nets, R: Rules, ks: seq<Id>, k: Id)
    requires (forall j :: j in ks ==> j in N) && k in N
    ensures forall j :: j in ks + [k] ==> j in N
    ensures var nets, r := Gather(N, R, ks), Root(R, k);
            Gather(N, R, ks + [k]) == nets[r := if r in nets then Grouped(nets[r], N[k]) else N[k]]
  {
    assert (ks + [k])[..|ks|] == ks;
  }

  lemma PassStep(R: Rules, ks: seq<Id>, i: nat, targets: bool, done: seq<Id>)
    requires i < |ks|
    ensures done + Pass(R, ks[i..], targets) ==
            (if (Root(R, ks[i]) == ks[i]) == targets then done + [ks[i]] else done) + Pass(R, ks[i + 1..], targets)
  {
    hide Root;
    assert ks[i..][0] == ks[i] && ks[i..][1..] == ks[i + 1..];
    var rest := Pass(R, ks[i + 1..], targets);
    assert done + ([ks[i]] + rest) == done + [ks[i]] + rest;
  }

  lemma PassNone(R: Rules, ks: seq<Id>, targets: bool, done: seq<Id>)
    requires ks == []
    ensures done + Pass(R, ks, targets) == done
  {
  }

  /** One pass over the networks: the targets, or the others. */
  method OnePass(N: Nets, R: Rules, ks: seq<Id>, targets: bool, nets0: Nets, ghost done0: seq<Id>) returns (nets: Nets)
    requires (forall k :: k in ks ==> k in N) && (forall k :: k in done0 ==> k in N) && nets0 == Gather(N, R, done0)
    ensures forall k :: k in done0 + Pass(R, ks, targets) ==> k in N
    ensures nets == Gather(N, R, done0 + Pass(R, ks, targets))
  {
    hide Grouped, Gather, Pass;
    nets := nets0;
    ghost var done := done0;
    var i := 0;
    assert ks[0..] == ks;
    while i < |ks|
      invariant i <= |ks| && done + Pass(R, ks[i..], targets) == done0 + Pass(R, ks, targets)
      invariant (forall k :: k in done ==> k in N) && nets == Gather(N, R, done)
    {
      var k := ks[i];
      PassStep(R, ks, i, targets, done);
      var r := Root(R, k);
      if (r == k) == targets {
        GatherMore(N, R, done, k);
        nets := nets[r := if r in nets then Grouped(nets[r], N[k]) else N[k]];
        done := done + [k];
      }
      i := i + 1;
    }
    PassNone(R, ks[i..], targets, done);
  }

  method ApplyNetworks(N: Nets, R: Rules) returns (nets: Nets)
    ensures nets == AppliedNetworks(N, R)
  {
    hide Sorted, Pass;
    var ks := Sorted(N.Keys);
    nets := OnePass(N, R, ks, true, map[], []);
    assert [] + Pass(R, ks, true) == Pass(R, ks, true);
    nets := OnePass(N, R, ks, false, nets, Pass(R, ks, true));
  }

  lemma RootsStep(R: Rules, s: set<Id>, todo: set<Id>, k: Id)
    requires k in todo && todo <= s
    ensures Roots(R, s - (todo - {k})) == Roots(R, s - todo) + {Root(R, k)}
  {
    hide Root;
    assert s - (todo - {k}) == s - todo + {k};
  }

  method FixSet(R: Rules, s: set<Id>) returns (o: set<Id>)
    ensures o == Roots(R, s)
  {
    hide Root, Roots;
    o := {};
    var todo := s;
    NoRoots(R);
    assert s - s == {} && s - {} == s;
    while todo != {}
      invariant todo <= s && o == Roots(R, s - todo)
      decreases |todo|
    {
      var k :| k in todo;
      RootsStep(R, s, todo, k);
      o := o + {Root(R, k)};
      todo := todo - {k};
    }
  }

  lemma NoRoots(R: Rules)
    ensures Roots(R, {}) == {}
  {
  }

  method ApplyFamily(R: Rules, F: DsFamily) returns (G: DsFamily)
    ensures G == Applied(R, F)
  {
    hide AppliedNetworks, Overlay, Roots;
    if R == map[] { return F; }
    var nets := ApplyNetworks(F.networks, R);
    var tgs := FixTgs(R, F.tgs);
    var radios := FixRadios(R, F.radios);
    var calls := F.calls;
    for i := 0 to |calls|
      invariant |calls| == |F.calls|
      invariant forall j :: 0 <= j < i ==> calls[j] == F.calls[j].(net := Root(R, F.calls[j].net))
      invariant forall j :: i <= j < |calls| ==> calls[j] == F.calls[j]
    {
      calls := calls[i := calls[i].(net := Root(R, calls[i].net))];
    }
    assert calls == FixCalls(R, F.calls);
    G := DsFamily(nets, tgs, radios, calls);
  }

  method FixTgs(R: Rules, was: map<Id, DsTalkgroup>) returns (tgs: map<Id, DsTalkgroup>)
    ensures tgs == Overlay(was, was.Keys, FixTg(R, was))
  {
    hide Overlay, Roots;
    ghost var f := FixTg(R, was);
    OverlayEnds(was, was.Keys, f);
    tgs := was;
    var todo := was.Keys;
    while todo != {}
      invariant todo <= was.Keys && tgs == Overlay(was, was.Keys - todo, f)
      decreases |todo|
    {
      var k :| k in todo;
      OverlayStep(was, was.Keys, f, todo, k);
      var s := FixSet(R, tgs[k].networks);
      tgs := tgs[k := tgs[k].(networks := s)];
      todo := todo - {k};
    }
  }

  method FixRadios(R: Rules, was: map<Id, DsRadio>) returns (radios: map<Id, DsRadio>)
    ensures radios == Overlay(was, was.Keys, FixRadio(R, was))
  {
    hide Overlay, Roots;
    ghost var f := FixRadio(R, was);
    OverlayEnds(was, was.Keys, f);
    radios := was;
    var todo := was.Keys;
    while todo != {}
      invariant todo <= was.Keys && radios == Overlay(was, was.Keys - todo, f)
      decreases |todo|
    {
      var k :| k in todo;
      OverlayStep(was, was.Keys, f, todo, k);
      var s := FixSet(R, radios[k].networks);
      radios := radios[k := radios[k].(networks := s)];
      todo := todo - {k};
    }
  }

  method ApplyMerges(d: Dataset) returns (e: Dataset)
    ensures e == AppliedAll(d)
  {
    hide Overlay, Applied;
    ghost var f := ApplyIn(d);
    OverlayEnds(d.fams, d.fams.Keys, f);
    var fams, todo := d.fams, d.fams.Keys;
    while todo != {}
      invariant todo <= d.fams.Keys && fams == Overlay(d.fams, d.fams.Keys - todo, f)
      decreases |todo|
    {
      var k :| k in todo;
      OverlayStep(d.fams, d.fams.Keys, f, todo, k);
      var G := ApplyFamily(RulesOf(d.merges, k), fams[k]);
      fams := fams[k := G];
      todo := todo - {k};
    }
    e := d.(fams := fams, merges := map[]);
  }
}
