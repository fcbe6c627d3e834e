/** Merging two networks into one, and dropping networks a stream leaves without a trace, keep the balance. */
module NetworkProofs {
  import opened Basics
  import opened Ordered
  import opened Counters
  import opened LiveModel
  import opened CountingProofs
  import opened LiveProofs

  // ---- merging ----

  predicate OnNetwork(q: Query, n: Id) {
    match q
    case NetCalls(x) => x == n
    case NetKey(x, _) => x == n
    case _ => false
  }

  function MovedTo(q: Query, n: Id): Query {
    match q
    case NetCalls(_) => NetCalls(n)
    case NetKey(_, k) => NetKey(n, k)
    case _ => q
  }

  /** What becomes of a counter when network `from` is folded into `to`, given its values before. */
  function Folded(q: Query, from: Id, to: Id, own: nat, other: nat): nat {
    if OnNetwork(q, from) then 0 else if OnNetwork(q, to) then own + other else own
  }

  lemma RelabelContribution(k: Call, from: Id, to: Id, q: Query)
    requires from != to
    ensures Contribution(q, RelabelCall(k, from, to))
         == Folded(q, from, to, Contribution(q, k), Contribution(MovedTo(q, from), k))
  {
    hide Contribution, RelabelCall;
    if q.NetCalls? || q.NetKey? {
      RelabelOnNetwork(k, from, to, q);
    } else {
      RelabelElsewhere(k, from, to, q);
    }
  }

  lemma RelabelOnNetwork(k: Call, from: Id, to: Id, q: Query)
    requires from != to && (q.NetCalls? || q.NetKey?)
    ensures Contribution(q, RelabelCall(k, from, to))
         == Folded(q, from, to, Contribution(q, k), Contribution(MovedTo(q, from), k))
  {
    hide *;
    var l := RelabelCall(k, from, to);
    RelabelNet(k, from, to);
    match q
    case NetCalls(n) =>
      FoldedCalls(n, from, to, Contribution(q, k), Contribution(NetCalls(from), k));
      CallsOnNet(k, n);
      CallsOnNet(k, from);
      CallsOnNet(l, n);
      OneMoved(k.counted, k.net, from, to, n);
    case NetKey(n, key) =>
      FoldedKeys(n, key, from, to, Contribution(q, k), Contribution(NetKey(from, key), k));
      KeysOnNet(k, n, key);
      KeysOnNet(k, from, key);
      KeysOnNet(l, n, key);
      OneMoved(k.counted && k.kid != "" && EncKey(k) == key, k.net, from, to, n);
  }

  lemma RelabelNet(k: Call, from: Id, to: Id)
    ensures var l := RelabelCall(k, from, to);
            l.net == (if k.net == from then to else k.net) && l.counted == k.counted && l.kid == k.kid && EncKey(l) == EncKey(k)
  {
  }

  lemma CallsOnNet(k: Call, n: Id)
    ensures Contribution(NetCalls(n), k) == One(k.counted && k.net == n)
  {
  }

  lemma KeysOnNet(k: Call, n: Id, key: Id)
    ensures Contribution(NetKey(n, key), k) == One(k.counted && k.kid != "" && EncKey(k) == key && k.net == n)
  {
    hide EncKey;
  }

  lemma FoldedCalls(n: Id, from: Id, to: Id, own: nat, other: nat)
    ensures MovedTo(NetCalls(n), from) == NetCalls(from)
    ensures Folded(NetCalls(n), from, to, own, other) == if n == from then 0 else if n == to then own + other else own
  {
  }

  lemma FoldedKeys(n: Id, key: Id, from: Id, to: Id, own: nat, other: nat)
    ensures MovedTo(NetKey(n, key), from) == NetKey(from, key)
    ensures Folded(NetKey(n, key), from, to, own, other) == if n == from then 0 else if n == to then own + other else own
  {
  }

  lemma OneMoved(c: bool, net: Id, from: Id, to: Id, n: Id)
    requires from != to
    ensures One(c && (if net == from then to else net) == n) ==
            if n == from then 0 else if n == to then One(c && net == n) + One(c && net == from) else One(c && net == n)
  {
  }

  lemma RelabelElsewhere(k: Call, from: Id, to: Id, q: Query)
    requires !q.NetCalls? && !q.NetKey?
    ensures Contribution(q, RelabelCall(k, from, to)) == Contribution(q, k)
  {
    hide EncKey;
    SameEncKey(k, RelabelCall(k, from, to));
  }

  lemma SameEncKey(k: Call, l: Call)
    requires l.alg == k.alg && l.kid == k.kid
    ensures EncKey(l) == EncKey(k)
  {
  }

  lemma {:induction false} RelabelTally(s: seq<Call>, from: Id, to: Id, q: Query)
    requires from != to
    ensures Tally(RelabelCalls(s, from, to), q) == Folded(q, from, to, Tally(s, q), Tally(s, MovedTo(q, from)))
  {
    hide Contribution, RelabelCall, RelabelCalls;
    var r := RelabelCalls(s, from, to);
    if s != [] {
      assert r[1..] == RelabelCalls(s[1..], from, to);
      RelabelContribution(s[0], from, to, q);
      RelabelTally(s[1..], from, to, q);
    }
  }

  lemma MergeShown(F: Family, from: Id, to: Id, q: Query)
    requires from != to && from in F.networks && to in F.networks && !MergeNetwork(F, from, to).lossy
    ensures Shown(MergeNetwork(F, from, to), q) == Folded(q, from, to, Shown(F, q), Shown(F, MovedTo(q, from)))
  {
    hide MergeNetwork, Shown;
    match q
    case NetKey(n, key) => MergeShownKey(F, from, to, n, key);
    case NetCalls(n) => MergeShownCalls(F, from, to, n);
    case _ => MergeShownElsewhere(F, from, to, q);
  }

  lemma MergeShownKey(F: Family, from: Id, to: Id, n: Id, key: Id)
    requires from != to && from in F.networks && to in F.networks && !MergeNetwork(F, from, to).lossy
    ensures Shown(MergeNetwork(F, from, to), NetKey(n, key)) ==
            if n == from then 0 else Shown(F, NetKey(n, key)) + if n == to then Shown(F, NetKey(from, key)) else 0
  {
    hide AddKeys, KeysLost, Relabel, RelabelCalls, Sorted;
    var a, z := F.networks[from], F.networks[to];
    SortedDistinct(a.keys.Keys);
    AddKeysGet(z.keys, a.keys, Sorted(a.keys.Keys), key);
  }

  lemma MergeShownCalls(F: Family, from: Id, to: Id, n: Id)
    requires from != to && from in F.networks && to in F.networks
    ensures Shown(MergeNetwork(F, from, to), NetCalls(n)) ==
            if n == from then 0 else Shown(F, NetCalls(n)) + if n == to then Shown(F, NetCalls(from)) else 0
  {
    hide AddKeys, KeysLost, Relabel, RelabelCalls, Sorted;
  }

  /** No other counter is a network's. */
  lemma MergeShownElsewhere(F: Family, from: Id, to: Id, q: Query)
    requires from in F.networks && to in F.networks && !q.NetKey? && !q.NetCalls?
    ensures Shown(MergeNetwork(F, from, to), q) == Shown(F, q)
  {
    hide AddKeys, KeysLost, Relabel, RelabelCalls, Sorted;
  }

  lemma MergeBalances(F: Family, from: Id, to: Id)
    requires Balanced(F) && from != to && from in F.networks && to in F.networks && !MergeNetwork(F, from, to).lossy
    ensures Balanced(MergeNetwork(F, from, to))
  {
    hide Shown, Tally, AddKeys, KeysLost;
    var G := MergeNetwork(F, from, to);
    forall q ensures Shown(G, q) == Tally(G.calls, q) + Tally(G.past, q) {
      MergeShown(F, from, to, q);
      RelabelTally(F.calls, from, to, q);
      RelabelTally(F.past, from, to, q);
    }
  }

  lemma MergeNetworksExist(F: Family, from: Id, to: Id)
    requires NetworksExist(F) && from != to
    ensures NetworksExist(MergeNetwork(F, from, to))
  {
    hide AddKeys, KeysLost;
    var G := MergeNetwork(F, from, to);
    forall k | k in G.calls ensures k.net in G.networks {
      var i :| 0 <= i < |G.calls| && G.calls[i] == k;
      assert F.calls[i] in F.calls;
    }
  }

  lemma RelabelOk(F: Family, G: Family, from: Id, to: Id)
    requires CallsOk(F) && G.calls == RelabelCalls(F.calls, from, to) && G.past == RelabelCalls(F.past, from, to)
    ensures CallsOk(G)
  {
    forall k | k in G.calls ensures CallOk(k) {
      var i :| 0 <= i < |G.calls| && G.calls[i] == k;
      assert F.calls[i] in F.calls;
    }
    forall k | k in G.past ensures CallOk(k) && !k.open {
      var i :| 0 <= i < |G.past| && G.past[i] == k;
      assert F.past[i] in F.past;
    }
  }

  lemma RelabelIds(s: seq<Call>, from: Id, to: Id, n: nat)
    requires forall k :: k in s ==> k.id <= n
    ensures forall k :: k in RelabelCalls(s, from, to) ==> k.id <= n
  {
    var r := RelabelCalls(s, from, to);
    forall k | k in r ensures k.id <= n {
      var i :| 0 <= i < |r| && r[i] == k;
      assert s[i] in s;
    }
  }

  lemma MergeIds(F: Family, from: Id, to: Id, n: nat)
    requires IdsUpTo(F, n) && from in F.networks && to in F.networks
    ensures IdsUpTo(MergeNetwork(F, from, to), n)
  {
    hide AddKeys, KeysLost, RelabelCalls, Relabel;
    RelabelIds(F.calls, from, to, n);
    RelabelIds(F.past, from, to, n);
  }

  lemma MergeOk(F: Family, from: Id, to: Id, n: nat)
    requires FamilyOk(F) && IdsUpTo(F, n) && from != to
    ensures var G := MergeNetwork(F, from, to);
            && FamilyOk(G) && IdsUpTo(G, n) && (F.lossy ==> G.lossy)
            && (to in F.networks ==> to in G.networks)
  {
    if from in F.networks && to in F.networks {
      hide Balanced, NetworksExist, AddKeys, KeysLost, CallOk, IdsUpTo;
      var G := MergeNetwork(F, from, to);
      RelabelOk(F, G, from, to);
      MergeIds(F, from, to, n);
      if !G.lossy {
        MergeBalances(F, from, to);
        MergeNetworksExist(F, from, to);
      }
    }
  }

  // ---- dropping networks ----

  /** What a network must be for Prune to drop it. */
  ghost predicate Traceless(F: Family, dead: set<Id>) {
    && (forall n :: n in dead && n in F.networks ==> F.networks[n].calls == 0)
    && (forall k :: k in F.calls ==> k.net !in dead)
  }

  predicate OnRadio(q: Query, r: Id) {
    match q
    case RadioCalls(x) => x == r
    case RadioTg(x, _) => x == r
    case Peer(x, _) => x == r
    case RadioKey(x, _) => x == r
    case _ => false
  }

  lemma TotalBounds(F: Family, q: Query)
    requires Balanced(F) && Shown(F, Total(q)) == 0
    ensures Shown(F, q) == 0
  {
    hide Shown, Tally, Total;
    TallyWithinTotal(F.calls, q);
    TallyWithinTotal(F.past, q);
  }

  lemma IdleRadioShown(F: Family, r: Id, q: Query)
    requires Balanced(F) && r in F.radios && IdleRadio(F.radios[r]) && OnRadio(q, r)
    ensures Shown(F, q) == 0
  {
    hide Balanced, Tally;
    if q.RadioKey? { TotalBounds(F, q); }
  }

  lemma IdleTgShown(F: Family, t: Id, q: Query)
    requires Balanced(F) && t in F.tgs && IdleTg(F.tgs[t]) && OnTg(q, t)
    ensures Shown(F, q) == 0
  {
    hide Balanced, Tally;
    if !q.TgCalls? { TotalBounds(F, q); }
  }

  lemma TracelessShown(F: Family, dead: set<Id>, n: Id, q: Query)
    requires Balanced(F) && Traceless(F, dead) && n in dead && OnNetwork(q, n)
    ensures Shown(F, q) == 0
  {
    hide Balanced, Tally;
    if q.NetKey? { TotalBounds(F, q); }
  }

  lemma PrunedShown(F: Family, dead: set<Id>, q: Query)
    requires Balanced(F) && Traceless(F, dead)
    ensures Shown(Pruned(F, dead), q) == Shown(F, q)
  {
    hide Balanced, Traceless, IdleRadio, IdleTg;
    match q
    case NetCalls(n) => if n in dead { TracelessShown(F, dead, n, q); }
    case NetKey(n, _) => if n in dead { TracelessShown(F, dead, n, q); }
    case RadioCalls(r) => if r in F.radios && IdleRadio(F.radios[r]) { IdleRadioShown(F, r, q); }
    case RadioTg(r, _) => if r in F.radios && IdleRadio(F.radios[r]) { IdleRadioShown(F, r, q); }
    case Peer(r, _) => if r in F.radios && IdleRadio(F.radios[r]) { IdleRadioShown(F, r, q); }
    case RadioKey(r, _) => if r in F.radios && IdleRadio(F.radios[r]) { IdleRadioShown(F, r, q); }
    case TgCalls(t) => if t in F.tgs && IdleTg(F.tgs[t]) { IdleTgShown(F, t, q); }
    case TgRadio(t, _) => if t in F.tgs && IdleTg(F.tgs[t]) { IdleTgShown(F, t, q); }
    case TgKey(t, _) => if t in F.tgs && IdleTg(F.tgs[t]) { IdleTgShown(F, t, q); }
    case TgEmergencies(t) => if t in F.tgs && IdleTg(F.tgs[t]) { IdleTgShown(F, t, q); }
    case TgEncrypted(t) => if t in F.tgs && IdleTg(F.tgs[t]) { IdleTgShown(F, t, q); }
  }

  lemma PrunedOk(F: Family, dead: set<Id>, n: nat)
    requires FamilyOk(F) && IdsUpTo(F, n) && Traceless(F, dead)
    ensures FamilyOk(Pruned(F, dead)) && IdsUpTo(Pruned(F, dead), n)
  {
    var G := Pruned(F, dead);
    if !F.lossy {
      hide Shown, Tally;
      forall q ensures Shown(G, q) == Tally(G.calls, q) + Tally(G.past, q) {
        PrunedShown(F, dead, q);
      }
    }
  }
}
