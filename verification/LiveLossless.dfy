/** When nothing is lost: as long as a run names fewer ids, networks and keys than a family may hold, no entity is evicted
    and no edge or key turned away, so that every counter is a recount. */
module LiveLossless {
  import opened Basics
  import opened Ordered
  import opened Counters
  import opened LiveModel
  import opened LiveCounted
  import opened CountingProofs
  import opened LiveRuns

  /** The ids of radios and talkgroups, the networks' names and the keys' that a run names. */
  datatype Names = Names(ids: set<Id>, nets: set<Id>, keys: set<Id>)

  /** No more than there is room for: 300 edges a node, 200 networks, 32 keys. */
  predicate Few(N: Names) {
    "" in N.ids && |N.ids| <= 300 && |N.nets| <= 200 && |N.keys| <= 32
  }

  predicate RadioNamed(r: Radio, N: Names) {
    r.tgs.Keys <= N.ids && r.peers.Keys <= N.ids && r.keys.Keys <= N.keys
  }

  predicate TgNamed(t: Talkgroup, N: Names) {
    t.radios.Keys <= N.ids && t.keys.Keys <= N.keys
  }

  predicate NetworkNamed(n: Network, N: Names) {
    n.keys.Keys <= N.keys
  }

  ghost predicate RadiosNamed(m: map<Id, Radio>, N: Names) {
    m.Keys <= N.ids && forall r :: r in m ==> RadioNamed(m[r], N)
  }

  ghost predicate TgsNamed(m: map<Id, Talkgroup>, N: Names) {
    m.Keys <= N.ids && forall t :: t in m ==> TgNamed(m[t], N)
  }

  ghost predicate NetworksNamed(m: map<Id, Network>, N: Names) {
    m.Keys <= N.nets && forall n :: n in m ==> NetworkNamed(m[n], N)
  }

  /** A call without a key has no algorithm either. */
  predicate CallNamed(k: Call, N: Names) {
    k.src in N.ids && k.tgt in N.ids && if k.kid == "" then k.alg == "" else k.alg + ":" + k.kid in N.keys
  }

  ghost predicate CallsNamed(s: seq<Call>, N: Names) {
    forall i :: 0 <= i < |s| ==> CallNamed(s[i], N)
  }

  /** The family holds nothing but what is named, and nothing was lost. */
  ghost predicate Named(F: Family, N: Names) {
    && RadiosNamed(F.radios, N) && TgsNamed(F.tgs, N) && NetworksNamed(F.networks, N) && CallsNamed(F.calls, N)
    && !F.lossy
  }

  ghost predicate AllNamed(m: State, N: Names) {
    forall f :: f in m.fam ==> Named(m.fam[f], N)
  }

  /** What a line names: its ends, the network of its stream, and, where it says encrypted, its key. */
  predicate EventNamed(ev: Event, N: Names) {
    && ev.src in N.ids && ev.tgt in N.ids && ev.identity.key in N.nets
    && (ev.enc && ev.kid != "" ==> ev.alg + ":" + ev.kid in N.keys)
  }

  predicate OpNamed(op: Op, N: Names) {
    op.Line? ==> EventNamed(op.ev, N)
  }

  // ---- entities ----

  lemma {:induction false} FewerThan(a: set<Id>, b: set<Id>)
    requires a <= b
    ensures |a| <= |b|
    ensures a != b ==> |a| < |b|
  {
    if a != {} {
      var x :| x in a;
      FewerThan(a - {x}, b - {x});
      assert a - {x} == b - {x} ==> a == b by {
        if a - {x} == b - {x} { assert a == (a - {x}) + {x} && b == (b - {x}) + {x}; }
      }
    } else if a != b {
      var y :| y in b;
    }
  }

  lemma EntitySizes(F: Family, N: Names)
    requires Few(N) && Named(F, N)
    ensures |F.radios.Keys| <= 300 && |F.tgs.Keys| <= 300
    ensures forall n :: n in N.nets && n !in F.networks ==> |F.networks.Keys| < 200
  {
    FewerThan(F.radios.Keys, N.ids);
    FewerThan(F.tgs.Keys, N.ids);
    FewerThan(F.networks.Keys, N.nets);
  }

  lemma RadioSet(m: map<Id, Radio>, id: Id, r: Radio, N: Names)
    requires RadiosNamed(m, N) && id in N.ids && RadioNamed(r, N)
    ensures RadiosNamed(m[id := r], N)
  {
  }

  lemma TgSet(m: map<Id, Talkgroup>, id: Id, t: Talkgroup, N: Names)
    requires TgsNamed(m, N) && id in N.ids && TgNamed(t, N)
    ensures TgsNamed(m[id := t], N)
  {
  }

  lemma NetworkSet(m: map<Id, Network>, id: Id, n: Network, N: Names)
    requires NetworksNamed(m, N) && id in N.nets && NetworkNamed(n, N)
    ensures NetworksNamed(m[id := n], N)
  {
  }

  lemma RadioIn(m: map<Id, Radio>, id: Id, N: Names)
    requires RadiosNamed(m, N) && id in m
    ensures RadioNamed(m[id], N) && id in N.ids
  {
  }

  lemma TgIn(m: map<Id, Talkgroup>, id: Id, N: Names)
    requires TgsNamed(m, N) && id in m
    ensures TgNamed(m[id], N) && id in N.ids
  {
  }

  lemma NetworkIn(m: map<Id, Network>, id: Id, N: Names)
    requires NetworksNamed(m, N) && id in m
    ensures NetworkNamed(m[id], N) && id in N.nets
  {
  }

  lemma EnsureRadioNamed(F: Family, id: Id, now: int, N: Names)
    requires Few(N) && Named(F, N) && id in N.ids
    ensures Named(EnsureRadio(F, id, now), N)
  {
    hide RadiosNamed, TgsNamed, NetworksNamed, CallsNamed;
    EntitySizes(F, N);
    RadioSet(F.radios, id, Radio(map[], map[], map[], {}, 0, now), N);
  }

  lemma EnsureTgNamed(F: Family, id: Id, now: int, N: Names)
    requires Few(N) && Named(F, N) && id in N.ids
    ensures Named(EnsureTg(F, id, now), N)
  {
    hide RadiosNamed, TgsNamed, NetworksNamed, CallsNamed;
    EntitySizes(F, N);
    TgSet(F.tgs, id, Talkgroup(map[], {}, 0, 0, 0, map[], now), N);
  }

  lemma EnsureNetworkNamed(F: Family, key: Id, now: int, N: Names)
    requires Few(N) && Named(F, N) && key in N.nets
    ensures Named(EnsureNetwork(F, key, now), N)
  {
    hide RadiosNamed, TgsNamed, NetworksNamed, CallsNamed;
    EntitySizes(F, N);
    NetworkSet(F.networks, key, Network({}, 0, map[], now), N);
  }

  lemma EnterRadioNamed(F: Family, id: Id, net: Id, now: int, N: Names)
    requires Few(N) && Named(F, N) && id in N.ids
    ensures Named(EnterRadio(F, id, net, now), N)
  {
    hide RadiosNamed, TgsNamed, NetworksNamed, CallsNamed, EnsureRadio, Few;
    EnsureRadioNamed(F, id, now, N);
    var G := EnsureRadio(F, id, now);
    RadioIn(G.radios, id, N);
    RadioSet(G.radios, id, G.radios[id].(last := now, networks := G.radios[id].networks + LiveModel.Named(net)), N);
  }

  lemma EnterTgNamed(F: Family, id: Id, net: Id, now: int, N: Names)
    requires Few(N) && Named(F, N) && id in N.ids
    ensures Named(EnterTg(F, id, net, now), N)
  {
    hide RadiosNamed, TgsNamed, NetworksNamed, CallsNamed, EnsureTg, Few;
    EnsureTgNamed(F, id, now, N);
    var G := EnsureTg(F, id, now);
    TgIn(G.tgs, id, N);
    TgSet(G.tgs, id, G.tgs[id].(last := Max(G.tgs[id].last, now), networks := G.tgs[id].networks + LiveModel.Named(net)), N);
  }

  // ---- counters ----

  lemma BumpNamed(m: map<Id, nat>, k: Id, cap: nat, s: set<Id>)
    requires m.Keys <= s && k in s && |s| <= cap
    ensures Bump(m, k, cap).Keys <= s && !BumpLost(m, k, cap)
  {
    FewerThan(m.Keys, s);
  }

  lemma UnbumpNamed(m: map<Id, nat>, k: Id, s: set<Id>)
    requires m.Keys <= s
    ensures Unbump(m, k).Keys <= s
  {
  }

  predicate QueryNamed(q: Query, N: Names) {
    match q
    case RadioTg(_, t) => t in N.ids
    case Peer(_, p) => p in N.ids
    case RadioKey(_, k) => k in N.keys
    case NetKey(_, k) => k in N.keys
    case TgRadio(_, r) => r in N.ids
    case TgKey(_, k) => k in N.keys
    case _ => true
  }

  lemma IncNamed(F: Family, q: Query, N: Names)
    requires Few(N) && Named(F, N) && QueryNamed(q, N)
    ensures Named(Inc(F, q), N)
  {
    hide RadiosNamed, TgsNamed, NetworksNamed, CallsNamed, Bump, BumpLost;
    if Held(F, q) {
      match q
      case RadioCalls(r) => RadioIn(F.radios, r, N); RadioSet(F.radios, r, Inc(F, q).radios[r], N);
      case RadioTg(r, x) =>
        RadioIn(F.radios, r, N); BumpNamed(F.radios[r].tgs, x, MAX_EDGES, N.ids); RadioSet(F.radios, r, Inc(F, q).radios[r], N);
      case Peer(r, x) =>
        RadioIn(F.radios, r, N); BumpNamed(F.radios[r].peers, x, MAX_EDGES, N.ids); RadioSet(F.radios, r, Inc(F, q).radios[r], N);
      case RadioKey(r, x) =>
        RadioIn(F.radios, r, N); BumpNamed(F.radios[r].keys, x, MAX_KEYS, N.keys); RadioSet(F.radios, r, Inc(F, q).radios[r], N);
      case NetCalls(n) => NetworkIn(F.networks, n, N); NetworkSet(F.networks, n, Inc(F, q).networks[n], N);
      case NetKey(n, x) =>
        NetworkIn(F.networks, n, N); BumpNamed(F.networks[n].keys, x, MAX_KEYS, N.keys); NetworkSet(F.networks, n, Inc(F, q).networks[n], N);
      case TgRadio(g, x) =>
        TgIn(F.tgs, g, N); BumpNamed(F.tgs[g].radios, x, MAX_EDGES, N.ids); TgSet(F.tgs, g, Inc(F, q).tgs[g], N);
      case TgCalls(g) => TgIn(F.tgs, g, N); TgSet(F.tgs, g, Inc(F, q).tgs[g], N);
      case TgKey(g, x) =>
        TgIn(F.tgs, g, N); BumpNamed(F.tgs[g].keys, x, MAX_KEYS, N.keys); TgSet(F.tgs, g, Inc(F, q).tgs[g], N);
      case TgEmergencies(g) => TgIn(F.tgs, g, N); TgSet(F.tgs, g, Inc(F, q).tgs[g], N);
      case TgEncrypted(g) => TgIn(F.tgs, g, N); TgSet(F.tgs, g, Inc(F, q).tgs[g], N);
    }
  }

  lemma DecNamed(F: Family, q: Query, N: Names)
    requires Named(F, N)
    ensures Named(Dec(F, q), N)
  {
    hide RadiosNamed, TgsNamed, NetworksNamed, CallsNamed, Unbump;
    if Held(F, q) {
      match q
      case RadioTg(r, x) =>
        RadioIn(F.radios, r, N); UnbumpNamed(F.radios[r].tgs, x, N.ids); RadioSet(F.radios, r, Dec(F, q).radios[r], N);
      case TgRadio(g, x) =>
        TgIn(F.tgs, g, N); UnbumpNamed(F.tgs[g].radios, x, N.ids); TgSet(F.tgs, g, Dec(F, q).tgs[g], N);
      case TgCalls(g) => TgIn(F.tgs, g, N); TgSet(F.tgs, g, Dec(F, q).tgs[g], N);
      case TgKey(g, x) =>
        TgIn(F.tgs, g, N); UnbumpNamed(F.tgs[g].keys, x, N.keys); TgSet(F.tgs, g, Dec(F, q).tgs[g], N);
      case _ =>
    }
  }

  ghost predicate QueriesNamed(qs: seq<Query>, N: Names) {
    forall i :: 0 <= i < |qs| ==> QueryNamed(qs[i], N)
  }

  lemma {:induction false} IncAllNamed(F: Family, qs: seq<Query>, N: Names)
    requires Few(N) && Named(F, N) && QueriesNamed(qs, N)
    ensures Named(IncAll(F, qs), N)
    decreases |qs|
  {
    hide Named, Inc, QueryNamed, Few;
    if qs != [] {
      IncNamed(F, qs[0], N);
      IncAllNamed(Inc(F, qs[0]), qs[1..], N);
    }
  }

  // ---- calls ----

  lemma CallAt(F: Family, i: nat, N: Names)
    requires i < |F.calls| && Named(F, N)
    ensures CallNamed(F.calls[i], N)
  {
  }

  lemma SetCallNamed(F: Family, i: nat, k: Call, N: Names)
    requires i < |F.calls| && Named(F, N) && CallNamed(k, N)
    ensures Named(SetCall(F, i, k), N)
  {
  }

  /** Alike in ends and key. */
  predicate SameNames(k: Call, l: Call) {
    l.src == k.src && l.tgt == k.tgt && l.alg == k.alg && l.kid == k.kid
  }

  lemma SetAlike(F: Family, i: nat, k: Call, N: Names)
    requires i < |F.calls| && Named(F, N) && SameNames(F.calls[i], k)
    ensures Named(SetCall(F, i, k), N)
  {
    CallAt(F, i, N);
    SetCallNamed(F, i, k, N);
  }

  lemma KeyQueriesNamed(k: Call, N: Names)
    requires CallNamed(k, N) && k.kid != ""
    ensures QueriesNamed(KeyCountersOf(k), N)
  {
  }

  lemma CounterQueriesNamed(k: Call, N: Names)
    requires CallNamed(k, N)
    ensures QueriesNamed(CountersOf(k), N) && QueriesNamed(ClosedCountersOf(k), N)
  {
  }

  lemma NoteKeyNamed(F: Family, i: nat, N: Names)
    requires Few(N) && i < |F.calls| && Named(F, N)
    ensures Named(NoteKey(F, i), N)
  {
    hide Named, IncAll, KeyCountersOf, SetCall, QueriesNamed, CallNamed, Few;
    var k := F.calls[i];
    CallAt(F, i, N);
    SetAlike(F, i, k.(keyNoted := true), N);
    if k.kid != "" {
      KeyQueriesNamed(k, N);
      IncAllNamed(SetCall(F, i, k.(keyNoted := true)), KeyCountersOf(k), N);
    }
  }

  lemma EnterPartiesNamed(F: Family, k: Call, now: int, N: Names)
    requires Few(N) && Named(F, N) && CallNamed(k, N)
    ensures Named(EnterParties(F, k, now), N)
  {
    hide Named, EnterRadio, EnterTg, Few;
    EnterRadioNamed(F, k.src, k.net, now, N);
    var G := if k.src == "" then F else EnterRadio(F, k.src, k.net, now);
    EnterTgNamed(G, k.tgt, k.net, now, N);
    EnterRadioNamed(G, k.tgt, k.net, now, N);
  }

  lemma SameNamed(k: Call, l: Call, N: Names)
    requires CallNamed(k, N) && SameNames(k, l)
    ensures CallNamed(l, N)
  {
  }

  lemma CountCallNamed(F: Family, i: nat, now: int, N: Names)
    requires Few(N) && i < |F.calls| && Named(F, N)
    ensures Named(CountCall(F, i, now), N)
  {
    hide Named, EnterParties, IncAll, NoteKey, CountersOf, QueriesNamed, CallNamed, Few;
    var k := F.calls[i].(counted := true);
    CallAt(F, i, N);
    SameNamed(F.calls[i], k, N);
    SetAlike(F, i, k, N);
    EnterPartiesNamed(SetCall(F, i, k), k, now, N);
    CounterQueriesNamed(k, N);
    IncAllNamed(EnterParties(SetCall(F, i, k), k, now), CountersOf(k), N);
    NoteKeyNamed(IncAll(EnterParties(SetCall(F, i, k), k, now), CountersOf(k)), i, N);
  }

  lemma KeyedNamed(k: Call, ev: Event, N: Names)
    requires CallNamed(k, N) && EventNamed(ev, N) && ev.enc && k.kid == "" && ev.kid != ""
    ensures CallNamed(k.(kid := ev.kid, alg := if ev.alg != "" then ev.alg else k.alg), N)
  {
  }

  lemma NoteEncryptedNamed(F: Family, i: nat, ev: Event, N: Names)
    requires Few(N) && i < |F.calls| && Named(F, N) && EventNamed(ev, N) && ev.enc
    ensures Named(NoteEncrypted(F, i, ev), N)
  {
    hide Named, NoteKey, SetCall, CallNamed, EventNamed, Few;
    CallAt(F, i, N);
    var k := F.calls[i].(encrypted := true);
    SameNamed(F.calls[i], k, N);
    if k.kid == "" && ev.kid != "" { KeyedNamed(k, ev, N); }
    var k' := if k.kid == "" && ev.kid != "" then k.(kid := ev.kid, alg := if ev.alg != "" then ev.alg else k.alg) else k;
    SetCallNamed(F, i, k', N);
    SameLength(F, i, k');
    NoteKeyNamed(SetCall(F, i, k'), i, N);
  }

  lemma SameLength(F: Family, i: nat, k: Call)
    requires i < |F.calls|
    ensures |SetCall(F, i, k).calls| == |F.calls|
  {
  }

  lemma LeaveGroupNamed(F: Family, k: Call, N: Names)
    requires Named(F, N)
    ensures Named(LeaveGroup(F, k), N)
  {
    hide Named, Dec;
    var a := Dec(F, RadioTg(k.src, k.tgt));
    var b := Dec(a, TgRadio(k.tgt, k.src));
    var c := Dec(b, TgCalls(k.tgt));
    var d := Dec(c, TgKey(k.tgt, EncKey(k)));
    DecNamed(F, RadioTg(k.src, k.tgt), N);
    DecNamed(a, TgRadio(k.tgt, k.src), N);
    DecNamed(b, TgCalls(k.tgt), N);
    DecNamed(c, TgKey(k.tgt, EncKey(k)), N);
    TgGone(c, k.tgt, N);
    TgGone(d, k.tgt, N);
  }

  lemma TgGone(F: Family, t: Id, N: Names)
    requires Named(F, N)
    ensures Named(F.(tgs := F.tgs - {t}), N)
  {
  }

  lemma JoinPeersNamed(F: Family, k: Call, now: int, N: Names)
    requires Few(N) && Named(F, N) && CallNamed(k, N)
    ensures Named(JoinPeers(F, k, now), N)
  {
    hide Named, EnterRadio, Inc, Few;
    var G := EnterRadio(F, k.tgt, k.net, now);
    EnterRadioNamed(F, k.tgt, k.net, now, N);
    IncNamed(G, Peer(k.src, k.tgt), N);
    IncNamed(Inc(G, Peer(k.src, k.tgt)), Peer(k.tgt, k.src), N);
  }

  lemma SetPrivateNamed(F: Family, i: nat, now: int, N: Names)
    requires Few(N) && i < |F.calls| && Named(F, N)
    ensures Named(SetPrivate(F, i, now), N)
  {
    hide Named, LeaveGroup, JoinPeers, SetCall, CallNamed, Few;
    var k := F.calls[i];
    CallAt(F, i, N);
    SetAlike(F, i, k.(priv := true), N);
    var G := SetCall(F, i, k.(priv := true));
    LeaveGroupNamed(G, k, N);
    JoinPeersNamed(LeaveGroup(G, k), k, now, N);
  }

  lemma EndCallNamed(F: Family, i: nat, N: Names)
    requires Few(N) && i < |F.calls| && Named(F, N)
    ensures Named(EndCall(F, i), N)
  {
    hide Named, IncAll, ClosedCountersOf, QueriesNamed, CallNamed, Few;
    var k := F.calls[i].(open := false);
    CallAt(F, i, N);
    SameNamed(F.calls[i], k, N);
    SetAlike(F, i, k, N);
    CounterQueriesNamed(k, N);
    IncAllNamed(SetCall(F, i, k), ClosedCountersOf(k), N);
  }

  lemma CloseCallNamed(F: Family, i: nat, N: Names)
    requires Few(N) && i < |F.calls| && Named(F, N)
    ensures Named(CloseCall(F, i), N)
  {
    hide Named, CountCall, EndCall, Few;
    CountCallNamed(F, i, F.calls[i].last, N);
    EndCallNamed(CountCall(F, i, F.calls[i].last), i, N);
    EndCallNamed(F, i, N);
  }

  // ---- a line ----

  lemma {:induction false} ExpireNamed(F: Family, a: seq<(Id, nat)>, now: int, N: Names)
    requires Few(N) && Named(F, N)
    ensures Named(Expire(F, a, now).0, N)
    decreases |a|
  {
    hide Named, CloseCall, Fresh, FindCall, Few;
    if a != [] {
      var f := FindCall(F.calls, a[0].1, |F.calls|);
      if f.Some? && !Fresh(F.calls[f.value], now) {
        CloseCallNamed(F, f.value, N);
        ExpireNamed(CloseCall(F, f.value), a[1..], now, N);
      } else {
        ExpireNamed(F, a[1..], now, N);
      }
    }
  }

  lemma CallOfTargetNamed(F: Family, c: Ctx, ev: Event, now: int, N: Names)
    requires Named(F, N)
    ensures Named(CallOfTarget(F, c, ev, now).F, N)
  {
    hide FindAdoptable, FindCall, Lookup, Put, Erase, FreshCall, Named, SetCall;
    var ad := FindAdoptable(c.active, F, ev.slot, ev.tgt, ev.src, now);
    if ad.Some? { SetAlike(F, ad.value.1, F.calls[ad.value.1].(slot := ev.slot), N); }
  }

  lemma CurrentCallNamed(F: Family, c: Ctx, ev: Event, now: int, N: Names)
    requires Few(N) && Named(F, N)
    ensures Named(CurrentCall(F, c, ev, now).F, N)
  {
    hide Named, CallOfTarget, CloseCall, FreshCall, Few;
    CallOfTargetNamed(F, c, ev, now, N);
    var r := if ev.tgt != "" then CallOfTarget(F, c, ev, now) else Found(F, c, FreshCall(c, F, ev.slot, now));
    if r.cur.Some? { CloseCallNamed(r.F, r.cur.value, N); }
  }

  lemma CallsOnly(F: Family, calls: seq<Call>, past: seq<Call>, N: Names)
    requires Named(F, N) && CallsNamed(calls, N)
    ensures Named(F.(calls := calls), N) && Named(F.(calls := calls, past := past), N)
  {
  }

  lemma CallsIn(F: Family, N: Names)
    requires Named(F, N)
    ensures CallsNamed(F.calls, N)
  {
  }

  lemma WithoutNamed(s: seq<Call>, i: nat, N: Names)
    requires i < |s| && CallsNamed(s, N)
    ensures CallsNamed(Without(s, i), N)
  {
    hide CallNamed;
  }

  lemma RollOffNamed(F: Family, maxCalls: nat, N: Names)
    requires Few(N) && Named(F, N)
    ensures Named(RollOff(F, maxCalls), N)
  {
    hide Named, CloseCall, FirstAudioLess, AudioLess, CallsNamed, Without, Few;
    var i := FirstAudioLess(F.calls, 0);
    if i < |F.calls| {
      CloseCallNamed(F, i, N);
      var G := CloseCall(F, i);
      CallsIn(G, N);
      WithoutNamed(G.calls, i, N);
      CallsOnly(G, Without(G.calls, i), G.past + [G.calls[i]], N);
    }
  }

  lemma OneMoreNamed(s: seq<Call>, k: Call, N: Names)
    requires CallsNamed(s, N) && CallNamed(k, N)
    ensures CallsNamed(s + [k], N)
  {
    hide CallNamed;
  }

  lemma OpenCallNamed(F: Family, c: Ctx, sid: nat, slot: Id, now: int, id: nat, maxCalls: nat, N: Names)
    requires Few(N) && Named(F, N)
    ensures Named(OpenCall(F, c, sid, slot, now, id, maxCalls).0, N)
  {
    var prev := if slot != "" then FreshCall(c, F, slot, now) else None;
    assert CallNamed(NewCall(id, sid, slot, c.net, now), N);
    hide Named, CloseCall, FreshCall, RollOff, CallsNamed, CallNamed, Few, NewCall;
    if prev.Some? { CloseCallNamed(F, prev.value, N); }
    var F1 := if prev.Some? then CloseCall(F, prev.value) else F;
    RollOffNamed(F1, maxCalls, N);
    var F2 := RollOff(F1, maxCalls);
    CallsIn(F2, N);
    OneMoreNamed(F2.calls, NewCall(id, sid, slot, c.net, now), N);
    CallsOnly(F2, F2.calls + [NewCall(id, sid, slot, c.net, now)], F2.past, N);
  }

  lemma JoinedNamed(twin: Call, dup: Call, N: Names)
    requires CallNamed(twin, N) && CallNamed(dup, N)
    ensures CallNamed(Joined(twin, dup), N)
  {
  }

  lemma AdoptTwinNamed(F: Family, c: Ctx, i: nat, j: nat, slot: Id, N: Names)
    requires Few(N) && i < |F.calls| && j < |F.calls| && i != j && Named(F, N)
    ensures Named(AdoptTwin(F, c, i, j, slot).F, N)
  {
    hide Named, NoteKey, Joined, Repoint, CallNamed, CallsNamed, Without, Few;
    CallAt(F, i, N);
    CallAt(F, j, N);
    JoinedNamed(F.calls[j], F.calls[i], N);
    var G := SetCall(F, j, Joined(F.calls[j], F.calls[i]));
    SetCallNamed(F, j, Joined(F.calls[j], F.calls[i]), N);
    CallsIn(G, N);
    WithoutNamed(G.calls, i, N);
    CallsOnly(G, Without(G.calls, i), G.past, N);
    OneLess(G.calls, i);
    NoteKeyNamed(G.(calls := Without(G.calls, i)), if i < j then j - 1 else j, N);
  }

  lemma OneLess(s: seq<Call>, i: nat)
    requires i < |s|
    ensures |Without(s, i)| == |s| - 1
  {
  }

  lemma HeardNamed(k: Call, c: Ctx, ev: Event, N: Names)
    requires CallNamed(k, N) && EventNamed(ev, N)
    ensures CallNamed(Heard(k, c, ev), N)
  {
  }

  lemma FoldEventNamed(F: Family, c: Ctx, i: nat, ev: Event, now: int, N: Names)
    requires Few(N) && i < |F.calls| && Named(F, N) && EventNamed(ev, N)
    ensures Named(FoldEvent(F, c, i, ev, now).0, N)
  {
    hide Named, SetCall, NoteEncrypted, SetPrivate, CountCall, AdoptTwin, FindTwin, Heard, Put, CallNamed, EventNamed, Few;
    var k := Heard(F.calls[i], c, ev);
    CallAt(F, i, N);
    HeardNamed(F.calls[i], c, ev, N);
    var F1 := SetCall(F, i, k);
    SetCallNamed(F, i, k, N);
    SameLength(F, i, k);
    if ev.enc { NoteEncryptedNamed(F1, i, ev, N); }
    var F2 := if ev.enc then NoteEncrypted(F1, i, ev) else F1;
    SetAlike(F2, i, F2.calls[i].(last := now), N);
    SameLength(F2, i, F2.calls[i].(last := now));
    var F3 := SetCall(F2, i, F2.calls[i].(last := now));
    SetPrivateNamed(F3, i, now, N);
    var F4 := if ev.priv then SetPrivate(F3, i, now) else F3;
    CountCallNamed(F4, i, now, N);
    var k4 := F4.calls[i];
    var t := FindTwin(F4.calls, k4, now, |F4.calls|);
    if t.Some? {
      TwinElsewhere(F4.calls, k4, now);
      var c1 := if F.calls[i].tgt == "" && ev.tgt != "" then c.(active := Put(c.active, Key(ev.slot, ev.tgt), k.id)) else c;
      var c2 := c1.(lastOnSlot := c1.lastOnSlot[ev.slot := k.id]);
      AdoptTwinNamed(F4, c2, i, t.value, ev.slot, N);
      var r := AdoptTwin(F4, c2, i, t.value, ev.slot);
      CountCallNamed(r.F, r.cur.value, now, N);
    }
  }

  lemma TwinElsewhere(s: seq<Call>, k: Call, now: int)
    ensures var t := FindTwin(s, k, now, |s|); t.Some? ==> s[t.value].id != k.id
  {
    hide FindTwin;
  }

  lemma RefineOnlyNamed(F: Family, c: Ctx, ev: Event, now: int, N: Names)
    requires Few(N) && Named(F, N) && EventNamed(ev, N)
    ensures Named(RefineOnly(F, c, ev, now), N)
  {
    hide Named, SetCall, NoteEncrypted, SetPrivate, FreshCall, EventNamed, Few;
    var f := FreshCall(c, F, ev.slot, now);
    if f.Some? {
      var i := f.value;
      SetPrivateNamed(F, i, now, N);
      var F1 := if ev.priv then SetPrivate(F, i, now) else F;
      SetAlike(F1, i, F1.calls[i].(emergency := true), N);
      SameLength(F1, i, F1.calls[i].(emergency := true));
      var F2 := if ev.emergency then SetCall(F1, i, F1.calls[i].(emergency := true)) else F1;
      if ev.enc { NoteEncryptedNamed(F2, i, ev, N); }
    }
  }

  lemma VoiceEndNamed(F: Family, i: nat, N: Names)
    requires i < |F.calls| && Named(F, N)
    ensures Named(SetCall(F, i, F.calls[i].(txEnd := F.calls[i].last)), N)
  {
    hide Named, SetCall;
    SetAlike(F, i, F.calls[i].(txEnd := F.calls[i].last), N);
  }

  lemma ToldNamed(F: Family, c: Ctx, sid: nat, ev: Event, now: int, id: nat, maxCalls: nat, N: Names)
    requires Few(N) && Named(F, N) && EventNamed(ev, N)
    ensures var r := CurrentCall(F, c, ev, now);
            var o := OpenCall(r.F, r.c, sid, ev.slot, now, id, maxCalls);
            && Named(r.F, N) && Named(FoldEvent(o.0, o.1, |o.0.calls| - 1, ev, now).0, N)
            && (r.cur.Some? ==> Named(FoldEvent(r.F, r.c, r.cur.value, ev, now).0, N))
  {
    hide *;
    CurrentCallNamed(F, c, ev, now, N);
    var r := CurrentCall(F, c, ev, now);
    if r.cur.Some? { FoldEventNamed(r.F, r.c, r.cur.value, ev, now, N); }
    OpenCallNamed(r.F, r.c, sid, ev.slot, now, id, maxCalls, N);
    var o := OpenCall(r.F, r.c, sid, ev.slot, now, id, maxCalls);
    FoldEventNamed(o.0, o.1, |o.0.calls| - 1, ev, now, N);
  }

  lemma HeardRadioNamed(F: Family, ev: Event, net: Id, now: int, N: Names)
    requires Few(N) && Named(F, N) && EventNamed(ev, N)
    ensures Named(if ev.src == "" then F else EnterRadio(F, ev.src, net, now), N)
  {
    hide Named, Few, EnterRadio;
    EnterRadioNamed(F, ev.src, net, now, N);
  }

  lemma SyncNamed(F: Family, c: Ctx, slot: Id, now: int, N: Names)
    requires Named(F, N)
    ensures var f := FreshCall(c, F, slot, now);
            f.Some? ==> Named(SetCall(F, f.value, F.calls[f.value].(txEnd := F.calls[f.value].last)), N)
  {
    hide *;
    var f := FreshCall(c, F, slot, now);
    if f.Some? { VoiceEndNamed(F, f.value, N); }
  }

  lemma HearNamed(F: Family, c: Ctx, sid: nat, ev: Event, now: int, next: nat, maxCalls: nat, N: Names)
    requires Few(N) && Named(F, N) && EventNamed(ev, N)
    ensures Named(Hear(F, c, sid, ev, now, next, maxCalls).0, N)
  {
    hide Named, Expire, FreshCall, SetCall, RefineOnly, EnterRadio, CurrentCall, OpenCall, FoldEvent, EventNamed, Few, Callish;
    ExpireNamed(F, c.active, now, N);
    var ex := Expire(F, c.active, now);
    var F1, c1 := ex.0, c.(active := ex.1);
    SyncNamed(F1, c1, ev.slot, now, N);
    RefineOnlyNamed(F1, c1, ev, now, N);
    HeardRadioNamed(F1, ev, c1.net, now, N);
    var F2 := if ev.src == "" then F1 else EnterRadio(F1, ev.src, c1.net, now);
    ToldNamed(F2, c1, sid, ev, now, next + 1, maxCalls, N);
  }

  // ---- networks ----

  lemma {:induction false} AddKeysNamed(m: map<Id, nat>, src: map<Id, nat>, ks: seq<Id>, s: set<Id>)
    requires (forall k :: k in ks ==> k in src) && m.Keys <= s && src.Keys <= s && |s| <= 32
    ensures AddKeys(m, src, ks).Keys <= s && !KeysLost(m, src, ks)
    decreases |ks|
  {
    if ks != [] {
      var k := ks[0];
      var n := if k in m then m[k := m[k] + src[k]] else if |m| < MAX_KEYS then m[k := src[k]] else m;
      FewerThan(m.Keys, s);
      assert k !in m ==> m.Keys != s;
      AddKeysNamed(n, src, ks[1..], s);
    }
  }

  lemma MergeNetworkNamed(F: Family, from: Id, to: Id, N: Names)
    requires Few(N) && Named(F, N) && to in F.networks && to != from
    ensures Named(MergeNetwork(F, from, to), N) && to in MergeNetwork(F, from, to).networks
  {
    hide RadiosNamed, TgsNamed, NetworksNamed, CallsNamed, AddKeys, KeysLost, Sorted, RelabelCalls, Relabel, Max;
    if from in F.networks {
      var a, z := F.networks[from], F.networks[to];
      var ks := Sorted(a.keys.Keys);
      NetworkIn(F.networks, to, N);
      NetworkIn(F.networks, from, N);
      AddKeysNamed(z.keys, a.keys, ks, N.keys);
      var z' := Network(z.sessions + a.sessions, z.calls + a.calls, AddKeys(z.keys, a.keys, ks), Max(z.last, a.last));
      NetworkSet(F.networks, to, z', N);
      NetworksLeft(F.networks[to := z'], F.networks[to := z'] - {from}, N);
      var G := MergeNetwork(F, from, to);
      assert G.networks == F.networks[to := z'] - {from} && !G.lossy;
      MergedKeep(F, from, to);
      CallsRelabelled(F.calls, from, to, N);
      assert G.calls == RelabelCalls(F.calls, from, to);
      hide MergeNetwork;
      RadiosLike(F.radios, G.radios, N);
      TgsLike(F.tgs, G.tgs, N);
    }
  }

  lemma MergedKeep(F: Family, from: Id, to: Id)
    ensures var G := MergeNetwork(F, from, to);
            && G.radios.Keys == F.radios.Keys && G.tgs.Keys == F.tgs.Keys
            && (forall r :: r in G.radios ==> G.radios[r].tgs == F.radios[r].tgs && G.radios[r].peers == F.radios[r].peers
                                              && G.radios[r].keys == F.radios[r].keys)
            && forall t :: t in G.tgs ==> G.tgs[t].radios == F.tgs[t].radios && G.tgs[t].keys == F.tgs[t].keys
  {
    hide AddKeys, KeysLost, Sorted, RelabelCalls, Relabel, Max;
  }

  lemma CallsRelabelled(s: seq<Call>, from: Id, to: Id, N: Names)
    requires CallsNamed(s, N)
    ensures CallsNamed(RelabelCalls(s, from, to), N)
  {
    hide RelabelCalls, CallNamed;
    var r := RelabelCalls(s, from, to);
    forall i | 0 <= i < |r| ensures CallNamed(r[i], N) { SameNamed(s[i], RelabelCall(s[i], from, to), N); }
  }

  lemma NetworksLeft(m: map<Id, Network>, n: map<Id, Network>, N: Names)
    requires NetworksNamed(m, N) && n.Keys <= m.Keys && forall k :: k in n ==> n[k] == m[k]
    ensures NetworksNamed(n, N)
  {
  }

  lemma RadiosLike(m: map<Id, Radio>, n: map<Id, Radio>, N: Names)
    requires RadiosNamed(m, N) && n.Keys <= m.Keys
    requires forall r :: r in n ==> n[r].tgs == m[r].tgs && n[r].peers == m[r].peers && n[r].keys == m[r].keys
    ensures RadiosNamed(n, N)
  {
  }

  lemma TgsLike(m: map<Id, Talkgroup>, n: map<Id, Talkgroup>, N: Names)
    requires TgsNamed(m, N) && n.Keys <= m.Keys
    requires forall t :: t in n ==> n[t].radios == m[t].radios && n[t].keys == m[t].keys
    ensures TgsNamed(n, N)
  {
  }

  lemma ResolveNamed(m: State, sid: nat, id: Identity, now: int, N: Names)
    requires Few(N) && sid in m.sess && m.sess[sid].family in m.fam && AllNamed(m, N) && id.key in N.nets
    ensures var r := ResolveNetwork(m, sid, id, now);
            AllNamed(r, N) && r.sess[sid].net in r.fam[r.sess[sid].family].networks
  {
    hide Named, EnsureNetwork, MergeNetwork, RelabelStreams, Few;
    var c := m.sess[sid];
    EnsureNetworkNamed(m.fam[c.family], id.key, now, N);
    var F := EnsureNetwork(m.fam[c.family], id.key, now);
    if c.net != id.key { MergeNetworkNamed(F, c.net, id.key, N); }
  }

  lemma TouchNetworkNamed(F: Family, net: Id, sid: nat, now: int, N: Names)
    requires Named(F, N) && net in F.networks
    ensures Named(TouchNetwork(F, net, sid, now), N)
  {
    hide RadiosNamed, TgsNamed, NetworksNamed, CallsNamed;
    NetworkIn(F.networks, net, N);
    NetworkSet(F.networks, net, TouchNetwork(F, net, sid, now).networks[net], N);
  }

  lemma ListenNamed(m: State, sid: nat, ev: Event, now: int, N: Names)
    requires Few(N) && sid in m.sess && m.sess[sid].family in m.fam && AllNamed(m, N) && EventNamed(ev, N)
    requires m.sess[sid].net in m.fam[m.sess[sid].family].networks
    ensures AllNamed(Listen(m, sid, ev, now), N)
  {
    hide Named, TouchNetwork, Hear, EventNamed, Few;
    var c := m.sess[sid];
    TouchNetworkNamed(m.fam[c.family], c.net, sid, now, N);
    HearNamed(TouchNetwork(m.fam[c.family], c.net, sid, now), c, sid, ev, now, m.next, m.maxCalls, N);
  }

  lemma NewNamed(N: Names)
    ensures Named(NEW_FAMILY, N)
  {
  }

  lemma FamilyEntered(m: State, f: Id, N: Names)
    requires AllNamed(m, N)
    ensures AllNamed(m.(fam := if f in m.fam then m.fam else m.fam[f := NEW_FAMILY]), N)
  {
    hide Named;
    NewNamed(N);
  }

  lemma AttendedNamed(m: State, sid: nat, ev: Event, now: int, N: Names)
    requires Few(N) && AllNamed(m, N) && EventNamed(ev, N) && sid in m.sess && m.sess[sid].family in m.fam
    ensures var c := m.sess[sid];
            var m2 := if ev.identity.changed || c.net == "" || c.net !in m.fam[c.family].networks
                      then ResolveNetwork(m, sid, ev.identity, now) else m;
            AllNamed(Listen(m2, sid, ev, now), N)
  {
    assert ev.identity.key in N.nets;
    hide Named, AllNamed, ResolveNetwork, Listen, EventNamed, Few;
    ResolveNamed(m, sid, ev.identity, now, N);
    var c := m.sess[sid];
    var m2 := if ev.identity.changed || c.net == "" || c.net !in m.fam[c.family].networks
              then ResolveNetwork(m, sid, ev.identity, now) else m;
    ListenNamed(m2, sid, ev, now, N);
  }

  lemma OtherStreams(m: State, sess: map<nat, Ctx>, N: Names)
    requires AllNamed(m, N)
    ensures AllNamed(m.(sess := sess), N)
  {
    hide Named;
  }

  lemma HearsNamed(m: State, sid: nat, ev: Event, now: int, N: Names)
    requires Few(N) && AllNamed(m, N) && EventNamed(ev, N)
    ensures AllNamed(Hears(m, sid, ev, now), N)
  {
    hide Named, AllNamed, ResolveNetwork, Listen, EventNamed, Few;
    if sid in m.sess {
      var c0 := m.sess[sid];
      var c1 := if c0.family == "auto" then c0.(family := ev.family) else c0;
      OtherStreams(m, m.sess[sid := c1], N);
      var c2 := if ev.identity.restarted then c1.(net := "") else c1;
      OtherStreams(m, m.sess[sid := c2], N);
      var c3 := c2.(live := true);
      OtherStreams(m, m.sess[sid := c3], N);
      var m0 := m.(sess := m.sess[sid := c3]);
      FamilyEntered(m0, c3.family, N);
      var m1 := m0.(fam := if c3.family in m0.fam then m0.fam else m0.fam[c3.family := NEW_FAMILY]);
      AttendedNamed(m1, sid, ev, now, N);
    }
  }

  // ---- the other operations ----

  lemma {:induction false} CloseOfNamed(F: Family, sid: nat, n: nat, N: Names)
    requires Few(N) && n <= |F.calls| && Named(F, N)
    ensures Named(CloseOf(F, sid, n), N)
    decreases n
  {
    hide Named, CloseCall, Few;
    if n > 0 {
      CloseOfNamed(F, sid, n - 1, N);
      CloseCallNamed(CloseOf(F, sid, n - 1), n - 1, N);
    }
  }

  lemma CloseSessionNamed(m: State, sid: nat, N: Names)
    requires Few(N) && AllNamed(m, N)
    ensures AllNamed(CloseSession(m, sid), N)
  {
    hide Named, CloseOf, Few;
    if sid in m.sess && m.sess[sid].family in m.fam {
      var F := m.fam[m.sess[sid].family];
      CloseOfNamed(F, sid, |F.calls|, N);
    }
  }

  lemma PrunedNamed(F: Family, dead: set<Id>, N: Names)
    requires Named(F, N)
    ensures Named(Pruned(F, dead), N)
  {
    hide RadiosNamed, TgsNamed, NetworksNamed, CallsNamed, Pruned;
    var G := Pruned(F, dead);
    PrunedKeep(F, dead);
    NetworksLeft(F.networks, G.networks, N);
    RadiosLike(F.radios, G.radios, N);
    TgsLike(F.tgs, G.tgs, N);
  }

  lemma PrunedKeep(F: Family, dead: set<Id>)
    ensures var G := Pruned(F, dead);
            && G.networks == F.networks - dead && G.calls == F.calls && G.lossy == F.lossy
            && G.radios.Keys <= F.radios.Keys && G.tgs.Keys <= F.tgs.Keys
            && (forall r :: r in G.radios ==> G.radios[r].tgs == F.radios[r].tgs && G.radios[r].peers == F.radios[r].peers
                                              && G.radios[r].keys == F.radios[r].keys)
            && forall t :: t in G.tgs ==> G.tgs[t].radios == F.tgs[t].radios && G.tgs[t].keys == F.tgs[t].keys
  {
    hide IdleRadio, IdleTg;
  }

  lemma PruneNamed(m: State, sid: nat, kept: set<Id>, N: Names)
    requires AllNamed(m, N)
    ensures AllNamed(Prune(m, sid, kept), N)
  {
    hide Named, Pruned, DeadNetworks, Bare;
    if sid in m.sess && m.sess[sid].family in m.fam {
      PrunedNamed(m.fam[m.sess[sid].family], DeadNetworks(m, sid, m.sess[sid].family, kept), N);
    }
  }

  lemma {:induction false} KeepNamed(s: seq<Call>, id: nat, on: bool, N: Names)
    requires CallsNamed(s, N)
    ensures CallsNamed(SetKeep(s, id, on), N)
  {
    hide CallNamed;
    if s != [] {
      SameNamed(s[0], s[0].(keep := on), N);
      KeepNamed(s[1..], id, on, N);
    }
  }

  lemma StepNamed(m: State, op: Op, N: Names)
    requires Few(N) && AllNamed(m, N) && OpNamed(op, N)
    ensures AllNamed(Step(m, op), N)
  {
    hide Named, CloseSession, Prune, Hears, SetKeep, EventNamed, CallsNamed, Few;
    match op
    case Begin(sid, protocol, family, freq, now, kept) =>
      CloseSessionNamed(m, sid, N);
      PruneNamed(CloseSession(m, sid), sid, kept, N);
    case Tune(sid, freq, now) =>
      CloseSessionNamed(m, sid, N);
      PruneNamed(CloseSession(m, sid), sid, {}, N);
    case Line(sid, ev, now) => HearsNamed(m, sid, ev, now, N);
    case End(sid, now, kept) =>
      CloseSessionNamed(m, sid, N);
      var m1 := CloseSession(m, sid);
      var m2 := if sid in m1.sess then m1.(sess := m1.sess[sid := m1.sess[sid].(running := false, active := [])]) else m1;
      PruneNamed(m2, sid, kept, N);
    case Remove(sid, now, kept) =>
      CloseSessionNamed(m, sid, N);
      PruneNamed(CloseSession(m, sid), sid, kept, N);
    case Keep(family, id, on) =>
      if family in m.fam {
        CallsIn(m.fam[family], N);
        KeepNamed(m.fam[family].calls, id, on, N);
        CallsOnly(m.fam[family], SetKeep(m.fam[family].calls, id, on), m.fam[family].past, N);
      }
    case Clear(now) =>
  }

  lemma {:induction false} RunNamed(m: State, ops: seq<Op>, N: Names)
    requires Few(N) && AllNamed(m, N) && forall i :: 0 <= i < |ops| ==> OpNamed(ops[i], N)
    ensures AllNamed(Run(m, ops), N)
  {
    hide Step, AllNamed, OpNamed, Few;
    if ops != [] {
      RunNamed(m, ops[..|ops| - 1], N);
      StepNamed(Run(m, ops[..|ops| - 1]), ops[|ops| - 1], N);
    }
  }

  /** In a run that names fewer than 300 ids, at most 200 networks and at most 32 keys nothing is lost, and every counter of
      every family is the recount of its calls. */
  lemma NothingLost(sess: map<nat, Ctx>, maxCalls: nat, ops: seq<Op>, N: Names, f: Id)
    requires Few(N) && forall i :: 0 <= i < |ops| ==> OpNamed(ops[i], N)
    requires f in Run(State(map[], sess, 0, maxCalls), ops).fam
    ensures var F := Run(State(map[], sess, 0, maxCalls), ops).fam[f];
            !F.lossy && forall q :: Shown(F, q) == Tally(F.past + F.calls, q)
  {
    hide Run, Few, OpNamed, Shown, Tally, Due;
    var m := State(map[], sess, 0, maxCalls);
    RunNamed(m, ops, N);
    CountersAreRecounts(sess, maxCalls, ops, f);
    LosslessIn(Run(m, ops), f, N);
  }

  lemma LosslessIn(m: State, f: Id, N: Names)
    requires AllNamed(m, N) && f in m.fam
    ensures !m.fam[f].lossy
  {
  }
}
