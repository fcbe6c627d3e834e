/** The limits of the live model: in every reachable state no family has more entities than it may, and none of them more
    edges or keys; and what makes room for a new entity is the one heard longest ago. */
module LiveBounds {
  import opened Basics
  import opened Ordered
  import opened Counters
  import opened LiveModel

  // ---- who makes room ----

  /** Of some entities with these times, the one heard longest ago; the first by name of those heard equally long ago. */
  predicate HeardFirst(last: map<Id, int>, v: Id) {
    v in last && forall w :: w in last && w != v ==> last[v] < last[w] || (last[v] == last[w] && Less(v, w))
  }

  lemma VictimHeardFirst(last: map<Id, int>)
    requires last.Keys != {}
    ensures HeardFirst(last, Victim(last))
  {
    var oldest := set v | v in last && OldestAmong(last, v);
    var v := Victim(last);
    assert IsLeast(oldest, v);
    forall w | w in last && w != v ensures last[v] < last[w] || (last[v] == last[w] && Less(v, w)) {
      if last[w] <= last[v] { assert OldestAmong(last, w); }
    }
  }

  /** The names with one more, and without one of them if there are as many as there may be. */
  ghost predicate MadeRoom(before: map<Id, int>, after: set<Id>, id: Id, most: nat, lossy: bool, lossy': bool) {
    if id in before then after == before.Keys && lossy' == lossy
    else if |before.Keys| < most then after == before.Keys + {id} && lossy' == lossy
    else exists v :: HeardFirst(before, v) && after == before.Keys - {v} + {id} && lossy'
  }

  lemma NoRoomNeeded(before: map<Id, int>, id: Id, most: nat, lossy: bool)
    requires id in before
    ensures MadeRoom(before, before.Keys, id, most, lossy, lossy)
  {
  }

  lemma RoomLeft(before: map<Id, int>, id: Id, most: nat, lossy: bool)
    requires id !in before && |before.Keys| < most
    ensures MadeRoom(before, before.Keys + {id}, id, most, lossy, lossy)
  {
  }

  lemma RoomTaken(before: map<Id, int>, id: Id, most: nat, lossy: bool)
    requires id !in before && |before.Keys| >= most && before.Keys != {}
    ensures MadeRoom(before, before.Keys - {Victim(before)} + {id}, id, most, lossy, true)
  {
    hide HeardFirst, Victim;
    VictimHeardFirst(before);
  }

  /** A radio new to the family is entered; where there are 3000 already, the one heard longest ago goes, and the others
      stay as they were. */
  lemma RadioEntered(F: Family, id: Id, now: int)
    ensures var G := EnsureRadio(F, id, now);
            && MadeRoom(RadioAges(F), G.radios.Keys, id, 3000, F.lossy, G.lossy)
            && (forall r :: r in G.radios && r in F.radios ==> G.radios[r] == F.radios[r])
            && (id !in F.radios ==> G.radios[id] == Radio(map[], map[], map[], {}, 0, now))
            && G.tgs == F.tgs && G.networks == F.networks
  {
    hide HeardFirst, Victim, EnsureRadio, MadeRoom, RadioAges;
    if id in F.radios {
      RadioKnown(F, id, now);
      NoRoomNeeded(RadioAges(F), id, 3000, F.lossy);
    } else if |F.radios.Keys| < 3000 {
      RadioAdded(F, id, now);
      RoomLeft(RadioAges(F), id, 3000, F.lossy);
    } else {
      RadioSwapped(F, id, now);
      RoomTaken(RadioAges(F), id, 3000, F.lossy);
    }
  }

  lemma RadioKnown(F: Family, id: Id, now: int)
    requires id in F.radios
    ensures EnsureRadio(F, id, now) == F
  {
  }

  lemma RadioAdded(F: Family, id: Id, now: int)
    requires id !in F.radios && |F.radios.Keys| < 3000
    ensures var G := EnsureRadio(F, id, now);
            G.radios == F.radios[id := Radio(map[], map[], map[], {}, 0, now)] && G.lossy == F.lossy && G.radios.Keys == F.radios.Keys + {id} && G.tgs == F.tgs && G.networks == F.networks
  {
  }

  lemma RadioSwapped(F: Family, id: Id, now: int)
    requires id !in F.radios && |F.radios.Keys| >= 3000
    ensures RadioAges(F).Keys != {}
    ensures var G := EnsureRadio(F, id, now);
            && G.radios == (F.radios - {Victim(RadioAges(F))})[id := Radio(map[], map[], map[], {}, 0, now)] && G.lossy
            && G.radios.Keys == F.radios.Keys - {Victim(RadioAges(F))} + {id} && G.tgs == F.tgs && G.networks == F.networks
  {
    hide Victim;
  }

  lemma TgEntered(F: Family, id: Id, now: int)
    ensures var G := EnsureTg(F, id, now);
            && MadeRoom(TgAges(F), G.tgs.Keys, id, 1500, F.lossy, G.lossy)
            && (forall t :: t in G.tgs && t in F.tgs ==> G.tgs[t] == F.tgs[t])
            && (id !in F.tgs ==> G.tgs[id] == Talkgroup(map[], {}, 0, 0, 0, map[], now))
            && G.radios == F.radios && G.networks == F.networks
  {
    hide HeardFirst, Victim, EnsureTg, MadeRoom, TgAges;
    if id in F.tgs {
      TgKnown(F, id, now);
      NoRoomNeeded(TgAges(F), id, 1500, F.lossy);
    } else if |F.tgs.Keys| < 1500 {
      TgAdded(F, id, now);
      RoomLeft(TgAges(F), id, 1500, F.lossy);
    } else {
      TgSwapped(F, id, now);
      RoomTaken(TgAges(F), id, 1500, F.lossy);
    }
  }

  lemma TgKnown(F: Family, id: Id, now: int)
    requires id in F.tgs
    ensures EnsureTg(F, id, now) == F
  {
  }

  lemma TgAdded(F: Family, id: Id, now: int)
    requires id !in F.tgs && |F.tgs.Keys| < 1500
    ensures var G := EnsureTg(F, id, now);
            G.tgs == F.tgs[id := Talkgroup(map[], {}, 0, 0, 0, map[], now)] && G.lossy == F.lossy && G.tgs.Keys == F.tgs.Keys + {id} && G.radios == F.radios && G.networks == F.networks
  {
  }

  lemma TgSwapped(F: Family, id: Id, now: int)
    requires id !in F.tgs && |F.tgs.Keys| >= 1500
    ensures TgAges(F).Keys != {}
    ensures var G := EnsureTg(F, id, now);
            && G.tgs == (F.tgs - {Victim(TgAges(F))})[id := Talkgroup(map[], {}, 0, 0, 0, map[], now)] && G.lossy
            && G.tgs.Keys == F.tgs.Keys - {Victim(TgAges(F))} + {id} && G.radios == F.radios && G.networks == F.networks
  {
    hide Victim;
  }

  lemma NetworkEntered(F: Family, id: Id, now: int)
    ensures var G := EnsureNetwork(F, id, now);
            && MadeRoom(NetworkAges(F), G.networks.Keys, id, 200, F.lossy, G.lossy)
            && (forall n :: n in G.networks && n in F.networks ==> G.networks[n] == F.networks[n])
            && (id !in F.networks ==> G.networks[id] == Network({}, 0, map[], now))
            && G.radios == F.radios && G.tgs == F.tgs
  {
    hide HeardFirst, Victim, EnsureNetwork, MadeRoom, NetworkAges;
    if id in F.networks {
      NetworkKnown(F, id, now);
      NoRoomNeeded(NetworkAges(F), id, 200, F.lossy);
    } else if |F.networks.Keys| < 200 {
      NetworkAdded(F, id, now);
      RoomLeft(NetworkAges(F), id, 200, F.lossy);
    } else {
      NetworkSwapped(F, id, now);
      RoomTaken(NetworkAges(F), id, 200, F.lossy);
    }
  }

  lemma NetworkKnown(F: Family, id: Id, now: int)
    requires id in F.networks
    ensures EnsureNetwork(F, id, now) == F
  {
  }

  lemma NetworkAdded(F: Family, id: Id, now: int)
    requires id !in F.networks && |F.networks.Keys| < 200
    ensures var G := EnsureNetwork(F, id, now);
            G.networks == F.networks[id := Network({}, 0, map[], now)] && G.lossy == F.lossy && G.networks.Keys == F.networks.Keys + {id} && G.radios == F.radios && G.tgs == F.tgs
  {
  }

  lemma NetworkSwapped(F: Family, id: Id, now: int)
    requires id !in F.networks && |F.networks.Keys| >= 200
    ensures NetworkAges(F).Keys != {}
    ensures var G := EnsureNetwork(F, id, now);
            && G.networks == (F.networks - {Victim(NetworkAges(F))})[id := Network({}, 0, map[], now)] && G.lossy
            && G.networks.Keys == F.networks.Keys - {Victim(NetworkAges(F))} + {id} && G.radios == F.radios && G.tgs == F.tgs
  {
    hide Victim;
  }

  // ---- the limits ----

  predicate SmallRadio(r: Radio) {
    |r.tgs| <= 300 && |r.peers| <= 300 && |r.keys| <= 32
  }

  predicate SmallTg(t: Talkgroup) {
    |t.radios| <= 300 && |t.keys| <= 32
  }

  predicate SmallNetwork(n: Network) {
    |n.keys| <= 32
  }

  ghost predicate SmallRadios(m: map<Id, Radio>) {
    |m.Keys| <= 3000 && forall r :: r in m ==> SmallRadio(m[r])
  }

  ghost predicate SmallTgs(m: map<Id, Talkgroup>) {
    |m.Keys| <= 1500 && forall t :: t in m ==> SmallTg(m[t])
  }

  ghost predicate SmallNetworks(m: map<Id, Network>) {
    |m.Keys| <= 200 && forall n :: n in m ==> SmallNetwork(m[n])
  }

  ghost predicate Bounded(F: Family) {
    SmallRadios(F.radios) && SmallTgs(F.tgs) && SmallNetworks(F.networks)
  }

  ghost predicate AllBounded(m: State) {
    forall f :: f in m.fam ==> Bounded(m.fam[f])
  }

  lemma {:induction false} FewerKeys(a: set<Id>, b: set<Id>)
    requires a <= b
    ensures |a| <= |b|
  {
    if a != {} {
      var x :| x in a;
      FewerKeys(a - {x}, b - {x});
    }
  }

  lemma RadioSet(m: map<Id, Radio>, id: Id, r: Radio)
    requires SmallRadios(m) && id in m && SmallRadio(r)
    ensures SmallRadios(m[id := r])
  {
    assert m[id := r].Keys == m.Keys;
  }

  lemma TgSet(m: map<Id, Talkgroup>, id: Id, t: Talkgroup)
    requires SmallTgs(m) && id in m && SmallTg(t)
    ensures SmallTgs(m[id := t])
  {
    assert m[id := t].Keys == m.Keys;
  }

  lemma NetworkSet(m: map<Id, Network>, id: Id, n: Network)
    requires SmallNetworks(m) && id in m && SmallNetwork(n)
    ensures SmallNetworks(m[id := n])
  {
    assert m[id := n].Keys == m.Keys;
  }

  lemma RoomKept(before: map<Id, int>, after: set<Id>, id: Id, most: nat, lossy: bool, lossy': bool)
    requires MadeRoom(before, after, id, most, lossy, lossy') && |before.Keys| <= most && most > 0
    ensures |after| <= most && after <= before.Keys + {id}
  {
    hide HeardFirst;
    if id !in before && |before.Keys| >= most {
      var v :| HeardFirst(before, v) && after == before.Keys - {v} + {id} && lossy';
      assert v in before.Keys by { VictimThere(before, v); }
      assert |before.Keys - {v}| == |before.Keys| - 1;
    }
  }

  lemma VictimThere(last: map<Id, int>, v: Id)
    requires HeardFirst(last, v)
    ensures v in last.Keys
  {
  }

  lemma RadiosAfter(m: map<Id, Radio>, n: map<Id, Radio>, id: Id)
    requires SmallRadios(m) && |n.Keys| <= 3000 && n.Keys <= m.Keys + {id}
    requires (forall r :: r in n && r in m ==> n[r] == m[r]) && (id in n && id !in m ==> SmallRadio(n[id]))
    ensures SmallRadios(n)
  {
  }

  lemma TgsAfter(m: map<Id, Talkgroup>, n: map<Id, Talkgroup>, id: Id)
    requires SmallTgs(m) && |n.Keys| <= 1500 && n.Keys <= m.Keys + {id}
    requires (forall r :: r in n && r in m ==> n[r] == m[r]) && (id in n && id !in m ==> SmallTg(n[id]))
    ensures SmallTgs(n)
  {
  }

  lemma NetworksAfter(m: map<Id, Network>, n: map<Id, Network>, id: Id)
    requires SmallNetworks(m) && |n.Keys| <= 200 && n.Keys <= m.Keys + {id}
    requires (forall r :: r in n && r in m ==> n[r] == m[r]) && (id in n && id !in m ==> SmallNetwork(n[id]))
    ensures SmallNetworks(n)
  {
  }

  lemma Sizes(F: Family)
    requires Bounded(F)
    ensures |F.radios.Keys| <= 3000 && |F.tgs.Keys| <= 1500 && |F.networks.Keys| <= 200
  {
  }

  lemma EnsureRadioBounded(F: Family, id: Id, now: int)
    requires Bounded(F)
    ensures Bounded(EnsureRadio(F, id, now))
  {
    hide EnsureRadio, MadeRoom, SmallRadios, SmallTgs, SmallNetworks;
    var G := EnsureRadio(F, id, now);
    RadioEntered(F, id, now);
    Sizes(F);
    RoomKept(RadioAges(F), G.radios.Keys, id, 3000, F.lossy, G.lossy);
    RadiosAfter(F.radios, G.radios, id);
  }

  lemma EnsureTgBounded(F: Family, id: Id, now: int)
    requires Bounded(F)
    ensures Bounded(EnsureTg(F, id, now))
  {
    hide EnsureTg, MadeRoom, SmallRadios, SmallTgs, SmallNetworks;
    var G := EnsureTg(F, id, now);
    TgEntered(F, id, now);
    Sizes(F);
    RoomKept(TgAges(F), G.tgs.Keys, id, 1500, F.lossy, G.lossy);
    TgsAfter(F.tgs, G.tgs, id);
  }

  lemma EnsureNetworkBounded(F: Family, key: Id, now: int)
    requires Bounded(F)
    ensures Bounded(EnsureNetwork(F, key, now))
  {
    hide EnsureNetwork, MadeRoom, SmallRadios, SmallTgs, SmallNetworks;
    var G := EnsureNetwork(F, key, now);
    NetworkEntered(F, key, now);
    Sizes(F);
    RoomKept(NetworkAges(F), G.networks.Keys, key, 200, F.lossy, G.lossy);
    NetworksAfter(F.networks, G.networks, key);
  }

  lemma EnterRadioBounded(F: Family, id: Id, net: Id, now: int)
    requires Bounded(F)
    ensures Bounded(EnterRadio(F, id, net, now))
  {
    hide SmallRadios, SmallTgs, SmallNetworks, EnsureRadio;
    EnsureRadioBounded(F, id, now);
    var G := EnsureRadio(F, id, now);
    RadioIn(G.radios, id);
    RadioSet(G.radios, id, G.radios[id].(last := now, networks := G.radios[id].networks + Named(net)));
  }

  lemma RadioIn(m: map<Id, Radio>, id: Id)
    requires SmallRadios(m) && id in m
    ensures SmallRadio(m[id])
  {
  }

  lemma TgIn(m: map<Id, Talkgroup>, id: Id)
    requires SmallTgs(m) && id in m
    ensures SmallTg(m[id])
  {
  }

  lemma NetworkIn(m: map<Id, Network>, id: Id)
    requires SmallNetworks(m) && id in m
    ensures SmallNetwork(m[id])
  {
  }

  lemma EnterTgBounded(F: Family, id: Id, net: Id, now: int)
    requires Bounded(F)
    ensures Bounded(EnterTg(F, id, net, now))
  {
    hide SmallRadios, SmallTgs, SmallNetworks, EnsureTg;
    EnsureTgBounded(F, id, now);
    var G := EnsureTg(F, id, now);
    TgIn(G.tgs, id);
    TgSet(G.tgs, id, G.tgs[id].(last := Max(G.tgs[id].last, now), networks := G.tgs[id].networks + Named(net)));
  }

  // ---- counters ----

  lemma BumpSmall(m: map<Id, nat>, k: Id, most: nat)
    requires |m| <= most
    ensures |Bump(m, k, most)| <= most
  {
    assert k in m ==> m[k := m[k] + 1].Keys == m.Keys;
  }

  lemma UnbumpSmall(m: map<Id, nat>, k: Id, most: nat)
    requires |m| <= most
    ensures |Unbump(m, k)| <= most
  {
    if k in m && m[k] > 1 {
      var n := m[k] - 1;
      assert m[k := n].Keys == m.Keys;
    } else if k in m {
      FewerKeys((m - {k}).Keys, m.Keys);
    }
  }

  lemma IncBounded(F: Family, q: Query)
    requires Bounded(F)
    ensures Bounded(Inc(F, q))
  {
    hide SmallRadios, SmallTgs, SmallNetworks, Bump;
    if Held(F, q) {
      match q
      case RadioCalls(r) => RadioIn(F.radios, r); RadioSet(F.radios, r, Inc(F, q).radios[r]);
      case RadioTg(r, x) => RadioIn(F.radios, r); BumpSmall(F.radios[r].tgs, x, 300); RadioSet(F.radios, r, Inc(F, q).radios[r]);
      case Peer(r, x) => RadioIn(F.radios, r); BumpSmall(F.radios[r].peers, x, 300); RadioSet(F.radios, r, Inc(F, q).radios[r]);
      case RadioKey(r, x) => RadioIn(F.radios, r); BumpSmall(F.radios[r].keys, x, 32); RadioSet(F.radios, r, Inc(F, q).radios[r]);
      case NetCalls(n) => NetworkIn(F.networks, n); NetworkSet(F.networks, n, Inc(F, q).networks[n]);
      case NetKey(n, x) => NetworkIn(F.networks, n); BumpSmall(F.networks[n].keys, x, 32); NetworkSet(F.networks, n, Inc(F, q).networks[n]);
      case TgRadio(g, x) => TgIn(F.tgs, g); BumpSmall(F.tgs[g].radios, x, 300); TgSet(F.tgs, g, Inc(F, q).tgs[g]);
      case TgCalls(g) => TgIn(F.tgs, g); TgSet(F.tgs, g, Inc(F, q).tgs[g]);
      case TgKey(g, x) => TgIn(F.tgs, g); BumpSmall(F.tgs[g].keys, x, 32); TgSet(F.tgs, g, Inc(F, q).tgs[g]);
      case TgEmergencies(g) => TgIn(F.tgs, g); TgSet(F.tgs, g, Inc(F, q).tgs[g]);
      case TgEncrypted(g) => TgIn(F.tgs, g); TgSet(F.tgs, g, Inc(F, q).tgs[g]);
    }
  }

  lemma DecBounded(F: Family, q: Query)
    requires Bounded(F)
    ensures Bounded(Dec(F, q))
  {
    hide SmallRadios, SmallTgs, SmallNetworks, Unbump;
    if Held(F, q) {
      match q
      case RadioTg(r, x) => RadioIn(F.radios, r); UnbumpSmall(F.radios[r].tgs, x, 300); RadioSet(F.radios, r, Dec(F, q).radios[r]);
      case TgRadio(g, x) => TgIn(F.tgs, g); UnbumpSmall(F.tgs[g].radios, x, 300); TgSet(F.tgs, g, Dec(F, q).tgs[g]);
      case TgCalls(g) => TgIn(F.tgs, g); TgSet(F.tgs, g, Dec(F, q).tgs[g]);
      case TgKey(g, x) => TgIn(F.tgs, g); UnbumpSmall(F.tgs[g].keys, x, 32); TgSet(F.tgs, g, Dec(F, q).tgs[g]);
      case _ =>
    }
  }

  lemma {:induction false} IncAllBounded(F: Family, qs: seq<Query>)
    requires Bounded(F)
    ensures Bounded(IncAll(F, qs))
    decreases |qs|
  {
    hide Bounded, Inc;
    if qs != [] {
      IncBounded(F, qs[0]);
      IncAllBounded(Inc(F, qs[0]), qs[1..]);
    }
  }

  /** Only calls differ. */
  ghost predicate SameEntities(F: Family, G: Family) {
    G.radios == F.radios && G.tgs == F.tgs && G.networks == F.networks
  }

  lemma SameBounded(F: Family, G: Family)
    requires SameEntities(F, G) && Bounded(F)
    ensures Bounded(G)
  {
  }

  lemma SetCallSame(F: Family, i: nat, k: Call)
    requires i < |F.calls|
    ensures SameEntities(F, SetCall(F, i, k))
  {
  }

  lemma SetCallBounded(F: Family, i: nat, k: Call)
    requires i < |F.calls| && Bounded(F)
    ensures Bounded(SetCall(F, i, k))
  {
    SetCallSame(F, i, k);
    SameBounded(F, SetCall(F, i, k));
  }

  lemma NoteKeyBounded(F: Family, i: nat)
    requires i < |F.calls| && Bounded(F)
    ensures Bounded(NoteKey(F, i))
  {
    hide Bounded, IncAll, KeyCountersOf, SetCall;
    var k := F.calls[i];
    SetCallBounded(F, i, k.(keyNoted := true));
    IncAllBounded(SetCall(F, i, k.(keyNoted := true)), KeyCountersOf(k));
  }

  lemma EnterPartiesBounded(F: Family, k: Call, now: int)
    requires Bounded(F)
    ensures Bounded(EnterParties(F, k, now))
  {
    hide Bounded, EnterRadio, EnterTg;
    EnterRadioBounded(F, k.src, k.net, now);
    var G := if k.src == "" then F else EnterRadio(F, k.src, k.net, now);
    EnterTgBounded(G, k.tgt, k.net, now);
    EnterRadioBounded(G, k.tgt, k.net, now);
  }

  lemma CountCallBounded(F: Family, i: nat, now: int)
    requires i < |F.calls| && Bounded(F)
    ensures Bounded(CountCall(F, i, now))
  {
    hide Bounded, EnterParties, IncAll, NoteKey, CountersOf;
    var k := F.calls[i].(counted := true);
    SetCallBounded(F, i, k);
    EnterPartiesBounded(SetCall(F, i, k), k, now);
    IncAllBounded(EnterParties(SetCall(F, i, k), k, now), CountersOf(k));
    NoteKeyBounded(IncAll(EnterParties(SetCall(F, i, k), k, now), CountersOf(k)), i);
  }

  lemma NoteEncryptedBounded(F: Family, i: nat, ev: Event)
    requires i < |F.calls| && Bounded(F)
    ensures Bounded(NoteEncrypted(F, i, ev))
  {
    hide Bounded, NoteKey;
    var k := F.calls[i].(encrypted := true);
    var k' := if k.kid == "" && ev.kid != "" then k.(kid := ev.kid, alg := if ev.alg != "" then ev.alg else k.alg) else k;
    SetCallBounded(F, i, k');
    NoteKeyBounded(SetCall(F, i, k'), i);
  }

  lemma LeaveGroupBounded(F: Family, k: Call)
    requires Bounded(F)
    ensures Bounded(LeaveGroup(F, k))
  {
    hide Bounded, Dec;
    var a := Dec(F, RadioTg(k.src, k.tgt));
    var b := Dec(a, TgRadio(k.tgt, k.src));
    var c := Dec(b, TgCalls(k.tgt));
    var d := Dec(c, TgKey(k.tgt, EncKey(k)));
    DecBounded(F, RadioTg(k.src, k.tgt));
    DecBounded(a, TgRadio(k.tgt, k.src));
    DecBounded(b, TgCalls(k.tgt));
    DecBounded(c, TgKey(k.tgt, EncKey(k)));
    TgGone(c, k.tgt);
    TgGone(d, k.tgt);
  }

  lemma TgGone(F: Family, t: Id)
    requires Bounded(F)
    ensures Bounded(F.(tgs := F.tgs - {t}))
  {
    FewerKeys((F.tgs - {t}).Keys, F.tgs.Keys);
  }

  lemma JoinPeersBounded(F: Family, k: Call, now: int)
    requires Bounded(F)
    ensures Bounded(JoinPeers(F, k, now))
  {
    hide Bounded, EnterRadio, Inc;
    var G := EnterRadio(F, k.tgt, k.net, now);
    EnterRadioBounded(F, k.tgt, k.net, now);
    IncBounded(G, Peer(k.src, k.tgt));
    IncBounded(Inc(G, Peer(k.src, k.tgt)), Peer(k.tgt, k.src));
  }

  lemma SetPrivateBounded(F: Family, i: nat, now: int)
    requires i < |F.calls| && Bounded(F)
    ensures Bounded(SetPrivate(F, i, now))
  {
    hide Bounded, LeaveGroup, JoinPeers, SetCall;
    var k := F.calls[i];
    var G := SetCall(F, i, k.(priv := true));
    SetCallBounded(F, i, k.(priv := true));
    LeaveGroupBounded(G, k);
    JoinPeersBounded(LeaveGroup(G, k), k, now);
  }

  lemma EndCallBounded(F: Family, i: nat)
    requires i < |F.calls| && Bounded(F)
    ensures Bounded(EndCall(F, i))
  {
    hide Bounded, IncAll, ClosedCountersOf;
    var k := F.calls[i].(open := false);
    SetCallBounded(F, i, k);
    IncAllBounded(SetCall(F, i, k), ClosedCountersOf(k));
  }

  lemma CloseCallBounded(F: Family, i: nat)
    requires i < |F.calls| && Bounded(F)
    ensures Bounded(CloseCall(F, i))
  {
    hide Bounded, CountCall, EndCall;
    CountCallBounded(F, i, F.calls[i].last);
    EndCallBounded(CountCall(F, i, F.calls[i].last), i);
    EndCallBounded(F, i);
  }

  // ---- a line ----

  lemma {:induction false} ExpireBounded(F: Family, a: seq<(Id, nat)>, now: int)
    requires Bounded(F)
    ensures Bounded(Expire(F, a, now).0)
    decreases |a|
  {
    hide Bounded, CloseCall, Fresh, FindCall;
    if a != [] {
      var f := FindCall(F.calls, a[0].1, |F.calls|);
      if f.Some? && !Fresh(F.calls[f.value], now) {
        CloseCallBounded(F, f.value);
        ExpireBounded(CloseCall(F, f.value), a[1..], now);
      } else {
        ExpireBounded(F, a[1..], now);
      }
    }
  }

  lemma CallOfTargetSame(F: Family, c: Ctx, ev: Event, now: int)
    ensures SameEntities(F, CallOfTarget(F, c, ev, now).F)
  {
    hide FindAdoptable, FindCall, Lookup, Put, Erase, FreshCall;
  }

  lemma CurrentCallBounded(F: Family, c: Ctx, ev: Event, now: int)
    requires Bounded(F)
    ensures Bounded(CurrentCall(F, c, ev, now).F)
  {
    hide Bounded, CallOfTarget, CloseCall, FreshCall, SameEntities;
    CallOfTargetSame(F, c, ev, now);
    SameBounded(F, CallOfTarget(F, c, ev, now).F);
    var r := if ev.tgt != "" then CallOfTarget(F, c, ev, now) else Found(F, c, FreshCall(c, F, ev.slot, now));
    if r.cur.Some? { CloseCallBounded(r.F, r.cur.value); }
  }

  lemma OpenCallBounded(F: Family, c: Ctx, sid: nat, slot: Id, now: int, id: nat, maxCalls: nat)
    requires Bounded(F)
    ensures Bounded(OpenCall(F, c, sid, slot, now, id, maxCalls).0)
  {
    hide Bounded, CloseCall, FreshCall, RollOff, SameEntities;
    var prev := if slot != "" then FreshCall(c, F, slot, now) else None;
    if prev.Some? { CloseCallBounded(F, prev.value); }
    var F1 := if prev.Some? then CloseCall(F, prev.value) else F;
    RollOffBounded(F1, maxCalls);
    OnlyCalls(RollOff(F1, maxCalls), RollOff(F1, maxCalls).calls + [NewCall(id, sid, slot, c.net, now)], RollOff(F1, maxCalls).past);
  }

  lemma OnlyCalls(F: Family, calls: seq<Call>, past: seq<Call>)
    requires Bounded(F)
    ensures Bounded(F.(calls := calls)) && Bounded(F.(calls := calls, past := past))
  {
  }

  lemma RollOffBounded(F: Family, maxCalls: nat)
    requires Bounded(F)
    ensures Bounded(RollOff(F, maxCalls))
  {
    hide Bounded, CloseCall, FirstAudioLess, AudioLess;
    var i := FirstAudioLess(F.calls, 0);
    if i < |F.calls| {
      CloseCallBounded(F, i);
      var G := CloseCall(F, i);
      OnlyCalls(G, Without(G.calls, i), G.past + [G.calls[i]]);
    }
  }

  lemma AdoptTwinBounded(F: Family, c: Ctx, i: nat, j: nat, slot: Id)
    requires i < |F.calls| && j < |F.calls| && i != j && Bounded(F)
    ensures Bounded(AdoptTwin(F, c, i, j, slot).F)
  {
    hide Bounded, NoteKey, Joined, Repoint;
    var G := SetCall(F, j, Joined(F.calls[j], F.calls[i]));
    SetCallBounded(F, j, Joined(F.calls[j], F.calls[i]));
    OnlyCalls(G, Without(G.calls, i), G.past);
    NoteKeyBounded(G.(calls := Without(G.calls, i)), if i < j then j - 1 else j);
  }

  lemma FoldEventBounded(F: Family, c: Ctx, i: nat, ev: Event, now: int)
    requires i < |F.calls| && Bounded(F)
    ensures Bounded(FoldEvent(F, c, i, ev, now).0)
  {
    hide Bounded, SetCall, NoteEncrypted, SetPrivate, CountCall, AdoptTwin, FindTwin, Heard, Put;
    var k := Heard(F.calls[i], c, ev);
    var F1 := SetCall(F, i, k);
    SetCallBounded(F, i, k);
    SameLength(F, i, k);
    NoteEncryptedBounded(F1, i, ev);
    var F2 := if ev.enc then NoteEncrypted(F1, i, ev) else F1;
    SetCallBounded(F2, i, F2.calls[i].(last := now));
    SameLength(F2, i, F2.calls[i].(last := now));
    var F3 := SetCall(F2, i, F2.calls[i].(last := now));
    SetPrivateBounded(F3, i, now);
    var F4 := if ev.priv then SetPrivate(F3, i, now) else F3;
    CountCallBounded(F4, i, now);
    var k4 := F4.calls[i];
    var t := FindTwin(F4.calls, k4, now, |F4.calls|);
    if t.Some? {
      TwinElsewhere(F4.calls, k4, now);
      var c1 := if F.calls[i].tgt == "" && ev.tgt != "" then c.(active := Put(c.active, Key(ev.slot, ev.tgt), k.id)) else c;
      var c2 := c1.(lastOnSlot := c1.lastOnSlot[ev.slot := k.id]);
      AdoptTwinBounded(F4, c2, i, t.value, ev.slot);
      var r := AdoptTwin(F4, c2, i, t.value, ev.slot);
      CountCallBounded(r.F, r.cur.value, now);
    }
  }

  lemma SameLength(F: Family, i: nat, k: Call)
    requires i < |F.calls|
    ensures |SetCall(F, i, k).calls| == |F.calls|
  {
  }

  lemma TwinElsewhere(s: seq<Call>, k: Call, now: int)
    ensures var t := FindTwin(s, k, now, |s|); t.Some? ==> s[t.value].id != k.id
  {
    hide FindTwin;
  }

  lemma RefineOnlyBounded(F: Family, c: Ctx, ev: Event, now: int)
    requires Bounded(F)
    ensures Bounded(RefineOnly(F, c, ev, now))
  {
    hide Bounded, SetCall, NoteEncrypted, SetPrivate, FreshCall;
    var f := FreshCall(c, F, ev.slot, now);
    if f.Some? {
      var i := f.value;
      SetPrivateBounded(F, i, now);
      var F1 := if ev.priv then SetPrivate(F, i, now) else F;
      SetCallBounded(F1, i, F1.calls[i].(emergency := true));
      SameLength(F1, i, F1.calls[i].(emergency := true));
      var F2 := if ev.emergency then SetCall(F1, i, F1.calls[i].(emergency := true)) else F1;
      NoteEncryptedBounded(F2, i, ev);
    }
  }

  lemma HearBounded(F: Family, c: Ctx, sid: nat, ev: Event, now: int, next: nat, maxCalls: nat)
    requires Bounded(F)
    ensures Bounded(Hear(F, c, sid, ev, now, next, maxCalls).0)
  {
    hide Bounded, Expire, FreshCall, SetCall, RefineOnly, EnterRadio, CurrentCall, OpenCall, FoldEvent;
    ExpireBounded(F, c.active, now);
    var ex := Expire(F, c.active, now);
    var F1, c1 := ex.0, c.(active := ex.1);
    var f := FreshCall(c1, F1, ev.slot, now);
    if f.Some? { SetCallBounded(F1, f.value, F1.calls[f.value].(txEnd := F1.calls[f.value].last)); }
    RefineOnlyBounded(F1, c1, ev, now);
    EnterRadioBounded(F1, ev.src, c1.net, now);
    var F2 := if ev.src == "" then F1 else EnterRadio(F1, ev.src, c1.net, now);
    CurrentCallBounded(F2, c1, ev, now);
    var r := CurrentCall(F2, c1, ev, now);
    if r.cur.Some? {
      FoldEventBounded(r.F, r.c, r.cur.value, ev, now);
    } else {
      OpenCallBounded(r.F, r.c, sid, ev.slot, now, next + 1, maxCalls);
      var o := OpenCall(r.F, r.c, sid, ev.slot, now, next + 1, maxCalls);
      FoldEventBounded(o.0, o.1, |o.0.calls| - 1, ev, now);
    }
  }

  // ---- networks ----

  lemma {:induction false} AddKeysSmall(m: map<Id, nat>, src: map<Id, nat>, ks: seq<Id>)
    requires (forall k :: k in ks ==> k in src) && |m| <= 32
    ensures |AddKeys(m, src, ks)| <= 32
    decreases |ks|
  {
    if ks != [] {
      var k := ks[0];
      var n := if k in m then m[k := m[k] + src[k]] else if |m| < MAX_KEYS then m[k := src[k]] else m;
      if k in m {
        var x := m[k] + src[k];
        assert m[k := x].Keys == m.Keys;
      } else if |m| < MAX_KEYS {
        var x := src[k];
        assert m[k := x].Keys == m.Keys + {k};
      }
      AddKeysSmall(n, src, ks[1..]);
    }
  }

  lemma MergeNetworkBounded(F: Family, from: Id, to: Id)
    requires Bounded(F) && to in F.networks && to != from
    ensures Bounded(MergeNetwork(F, from, to)) && to in MergeNetwork(F, from, to).networks
  {
    hide SmallRadios, SmallTgs, SmallNetworks, AddKeys, KeysLost, Sorted, RelabelCalls, Relabel;
    if from in F.networks {
      var a, z := F.networks[from], F.networks[to];
      var ks := Sorted(a.keys.Keys);
      NetworkIn(F.networks, to);
      AddKeysSmall(z.keys, a.keys, ks);
      var z' := Network(z.sessions + a.sessions, z.calls + a.calls, AddKeys(z.keys, a.keys, ks), Max(z.last, a.last));
      NetworkSet(F.networks, to, z');
      NetworksLeft(F.networks[to := z'], F.networks[to := z'] - {from});
      var G := MergeNetwork(F, from, to);
      assert G.networks == F.networks[to := z'] - {from};
      MergedKeep(F, from, to);
      hide MergeNetwork;
      RadiosLike(F.radios, G.radios);
      TgsLike(F.tgs, G.tgs);
    }
  }

  lemma MergedKeep(F: Family, from: Id, to: Id)
    ensures var G := MergeNetwork(F, from, to);
            && G.radios.Keys == F.radios.Keys && G.tgs.Keys == F.tgs.Keys
            && (forall r :: r in G.radios ==> G.radios[r].tgs == F.radios[r].tgs && G.radios[r].peers == F.radios[r].peers
                                              && G.radios[r].keys == F.radios[r].keys)
            && forall t :: t in G.tgs ==> G.tgs[t].radios == F.tgs[t].radios && G.tgs[t].keys == F.tgs[t].keys
  {
    hide AddKeys, KeysLost, Sorted, RelabelCalls, Relabel;
  }

  lemma NetworksLeft(m: map<Id, Network>, n: map<Id, Network>)
    requires SmallNetworks(m) && n.Keys <= m.Keys && forall k :: k in n ==> n[k] == m[k]
    ensures SmallNetworks(n)
  {
    FewerKeys(n.Keys, m.Keys);
  }

  /** Some of the radios, whose networks may be others. */
  lemma RadiosLike(m: map<Id, Radio>, n: map<Id, Radio>)
    requires SmallRadios(m) && n.Keys <= m.Keys
    requires forall r :: r in n ==> n[r].tgs == m[r].tgs && n[r].peers == m[r].peers && n[r].keys == m[r].keys
    ensures SmallRadios(n)
  {
    FewerKeys(n.Keys, m.Keys);
  }

  lemma TgsLike(m: map<Id, Talkgroup>, n: map<Id, Talkgroup>)
    requires SmallTgs(m) && n.Keys <= m.Keys
    requires forall t :: t in n ==> n[t].radios == m[t].radios && n[t].keys == m[t].keys
    ensures SmallTgs(n)
  {
    FewerKeys(n.Keys, m.Keys);
  }

  lemma ResolveBounded(m: State, sid: nat, id: Identity, now: int)
    requires sid in m.sess && m.sess[sid].family in m.fam && AllBounded(m)
    ensures var r := ResolveNetwork(m, sid, id, now);
            AllBounded(r) && r.sess[sid].net in r.fam[r.sess[sid].family].networks
  {
    hide Bounded, EnsureNetwork, MergeNetwork, RelabelStreams;
    var c := m.sess[sid];
    EnsureNetworkBounded(m.fam[c.family], id.key, now);
    var F := EnsureNetwork(m.fam[c.family], id.key, now);
    if c.net != id.key { MergeNetworkBounded(F, c.net, id.key); }
  }

  lemma TouchNetworkBounded(F: Family, net: Id, sid: nat, now: int)
    requires Bounded(F) && net in F.networks
    ensures Bounded(TouchNetwork(F, net, sid, now))
  {
    hide SmallRadios, SmallTgs, SmallNetworks;
    NetworkIn(F.networks, net);
    NetworkSet(F.networks, net, TouchNetwork(F, net, sid, now).networks[net]);
  }

  lemma ListenBounded(m: State, sid: nat, ev: Event, now: int)
    requires sid in m.sess && m.sess[sid].family in m.fam && AllBounded(m)
    requires m.sess[sid].net in m.fam[m.sess[sid].family].networks
    ensures AllBounded(Listen(m, sid, ev, now))
  {
    hide Bounded, TouchNetwork, Hear;
    var c := m.sess[sid];
    TouchNetworkBounded(m.fam[c.family], c.net, sid, now);
    HearBounded(TouchNetwork(m.fam[c.family], c.net, sid, now), c, sid, ev, now, m.next, m.maxCalls);
  }

  lemma NewBounded()
    ensures Bounded(NEW_FAMILY)
  {
  }

  lemma HearsBounded(m: State, sid: nat, ev: Event, now: int)
    requires AllBounded(m)
    ensures AllBounded(Hears(m, sid, ev, now))
  {
    hide Bounded, ResolveNetwork, Listen;
    NewBounded();
    if sid in m.sess {
      var c0 := m.sess[sid];
      var c1 := if c0.family == "auto" then c0.(family := ev.family) else c0;
      var c2 := if ev.identity.restarted then c1.(net := "") else c1;
      var c3 := c2.(live := true);
      var m1 := m.(sess := m.sess[sid := c3], fam := if c3.family in m.fam then m.fam else m.fam[c3.family := NEW_FAMILY]);
      ResolveBounded(m1, sid, ev.identity, now);
      var m2 := if ev.identity.changed || c3.net == "" || c3.net !in m1.fam[c3.family].networks
                then ResolveNetwork(m1, sid, ev.identity, now) else m1;
      ListenBounded(m2, sid, ev, now);
    }
  }

  // ---- the other operations ----

  lemma {:induction false} CloseOfBounded(F: Family, sid: nat, n: nat)
    requires n <= |F.calls| && Bounded(F)
    ensures Bounded(CloseOf(F, sid, n))
    decreases n
  {
    hide Bounded, CloseCall;
    if n > 0 {
      CloseOfBounded(F, sid, n - 1);
      CloseCallBounded(CloseOf(F, sid, n - 1), n - 1);
    }
  }

  lemma CloseSessionBounded(m: State, sid: nat)
    requires AllBounded(m)
    ensures AllBounded(CloseSession(m, sid))
  {
    hide Bounded, CloseOf;
    if sid in m.sess && m.sess[sid].family in m.fam {
      var F := m.fam[m.sess[sid].family];
      CloseOfBounded(F, sid, |F.calls|);
    }
  }

  lemma PrunedBounded(F: Family, dead: set<Id>)
    requires Bounded(F)
    ensures Bounded(Pruned(F, dead))
  {
    hide SmallRadios, SmallTgs, SmallNetworks, Pruned;
    var G := Pruned(F, dead);
    RadiosPruned(F, dead);
    TgsPruned(F, dead);
    NetworksPruned(F, dead);
    NetworksLeft(F.networks, G.networks);
    RadiosLike(F.radios, G.radios);
    TgsLike(F.tgs, G.tgs);
  }

  lemma RadiosPruned(F: Family, dead: set<Id>)
    ensures var m, n := F.radios, Pruned(F, dead).radios;
            n.Keys <= m.Keys && forall r :: r in n ==> n[r].tgs == m[r].tgs && n[r].peers == m[r].peers && n[r].keys == m[r].keys
  {
    hide IdleRadio, IdleTg;
  }

  lemma TgsPruned(F: Family, dead: set<Id>)
    ensures var m, n := F.tgs, Pruned(F, dead).tgs;
            n.Keys <= m.Keys && forall t :: t in n ==> n[t].radios == m[t].radios && n[t].keys == m[t].keys
  {
    hide IdleRadio, IdleTg;
  }

  lemma NetworksPruned(F: Family, dead: set<Id>)
    ensures Pruned(F, dead).networks == F.networks - dead
  {
  }

  lemma PruneBounded(m: State, sid: nat, kept: set<Id>)
    requires AllBounded(m)
    ensures AllBounded(Prune(m, sid, kept))
  {
    hide Bounded, Pruned, DeadNetworks, Bare;
    if sid in m.sess && m.sess[sid].family in m.fam {
      PrunedBounded(m.fam[m.sess[sid].family], DeadNetworks(m, sid, m.sess[sid].family, kept));
    }
  }

  lemma StepBounded(m: State, op: Op)
    requires AllBounded(m)
    ensures AllBounded(Step(m, op))
  {
    hide Bounded, CloseSession, Prune, Hears, SetKeep;
    match op
    case Begin(sid, protocol, family, freq, now, kept) =>
      CloseSessionBounded(m, sid);
      PruneBounded(CloseSession(m, sid), sid, kept);
    case Tune(sid, freq, now) =>
      CloseSessionBounded(m, sid);
      PruneBounded(CloseSession(m, sid), sid, {});
    case Line(sid, ev, now) => HearsBounded(m, sid, ev, now);
    case End(sid, now, kept) =>
      CloseSessionBounded(m, sid);
      var m1 := CloseSession(m, sid);
      var m2 := if sid in m1.sess then m1.(sess := m1.sess[sid := m1.sess[sid].(running := false, active := [])]) else m1;
      PruneBounded(m2, sid, kept);
    case Remove(sid, now, kept) =>
      CloseSessionBounded(m, sid);
      PruneBounded(CloseSession(m, sid), sid, kept);
    case Keep(family, id, on) =>
      if family in m.fam { OnlyCalls(m.fam[family], SetKeep(m.fam[family].calls, id, on), m.fam[family].past); }
    case Clear(now) =>
  }

  /** Whatever is heard and for however long: no family ever has more than 3000 radios, 1500 talkgroups or 200 networks,
      no radio or talkgroup more than 300 edges of a kind, and nothing more than 32 keys. */
  lemma {:induction false} RunBounded(m: State, ops: seq<Op>)
    requires AllBounded(m)
    ensures AllBounded(Run(m, ops))
  {
    hide Step, AllBounded;
    if ops != [] {
      RunBounded(m, ops[..|ops| - 1]);
      StepBounded(Run(m, ops[..|ops| - 1]), ops[|ops| - 1]);
    }
  }
}
