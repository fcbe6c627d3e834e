/** Each primitive change to a family keeps every counter equal to its recount. */
module CountingProofs {
  import opened Counters
  import opened LiveModel

  /** Every counter the model shows equals the plain recount over all calls it ever listed. */
  ghost predicate Balanced(F: Family) {
    forall q :: Shown(F, q) == Tally(F.calls, q) + Tally(F.past, q)
  }

  /** Every network that a call, a radio or a talkgroup names exists. */
  ghost predicate NetworksExist(F: Family) {
    && (forall k :: k in F.calls ==> k.net in F.networks)
    && (forall r :: r in F.radios ==> F.radios[r].networks <= F.networks.Keys)
    && (forall t :: t in F.tgs ==> F.tgs[t].networks <= F.networks.Keys)
  }

  /** What a call record says of itself is consistent; its key is counted exactly once. */
  predicate CallOk(k: Call) {
    && (k.counted ==> k.tgt != "")
    && (k.keyNoted <==> k.counted && k.kid != "")
    && (k.counted && k.open ==> k.src != "")
  }

  /** Consistent records, each call once. */
  ghost predicate CallsOk(F: Family) {
    && (forall k :: k in F.calls ==> CallOk(k))
    && (forall k :: k in F.past ==> CallOk(k) && !k.open)
    && (forall i, j :: 0 <= i < j < |F.calls| ==> F.calls[i].id != F.calls[j].id)
    && (forall i, j :: 0 <= i < j < |F.past| ==> F.past[i].id != F.past[j].id)
    && (forall i, j :: 0 <= i < |F.calls| && 0 <= j < |F.past| ==> F.calls[i].id != F.past[j].id)
  }

  ghost predicate Exact(F: Family) {
    && Balanced(F) && NetworksExist(F) && "" !in F.radios
  }

  /** The family invariant: exact unless a limit was ever hit. */
  ghost predicate FamilyOk(F: Family) {
    CallsOk(F) && (!F.lossy ==> Exact(F))
  }

  // ---- entering entities ----

  /** G has all of F's entities, every counter unchanged, and no new network. */
  ghost predicate Entered(F: Family, G: Family) {
    && G.calls == F.calls && G.past == F.past && !F.lossy
    && F.radios.Keys <= G.radios.Keys && F.tgs.Keys <= G.tgs.Keys && G.networks.Keys == F.networks.Keys
    && (forall q :: Shown(G, q) == Shown(F, q))
    && (NetworksExist(F) ==> NetworksExist(G))
  }

  const NO_RADIO := Radio(map[], map[], map[], {}, 0, 0)
  const NO_TG := Talkgroup(map[], {}, 0, 0, 0, map[], 0)

  /** x is radio id of F, or a new one, with only its times and networks changed. */
  predicate SameRadioCounters(F: Family, id: Id, x: Radio) {
    var o := if id in F.radios then F.radios[id] else NO_RADIO;
    x.tgs == o.tgs && x.peers == o.peers && x.keys == o.keys && x.calls == o.calls
  }

  predicate SameTgCounters(F: Family, id: Id, x: Talkgroup) {
    var o := if id in F.tgs then F.tgs[id] else NO_TG;
    x.radios == o.radios && x.calls == o.calls && x.keys == o.keys
    && x.emergencies == o.emergencies && x.encrypted == o.encrypted
  }

  lemma RadioReplaced(F: Family, id: Id, x: Radio, q: Query)
    requires SameRadioCounters(F, id, x)
    ensures Shown(F.(radios := F.radios[id := x]), q) == Shown(F, q)
  {
  }

  lemma TgReplaced(F: Family, id: Id, x: Talkgroup, q: Query)
    requires SameTgCounters(F, id, x)
    ensures Shown(F.(tgs := F.tgs[id := x]), q) == Shown(F, q)
  {
  }

  lemma EnterRadioIs(F: Family, id: Id, net: Id, now: int)
    requires !EnterRadio(F, id, net, now).lossy
    ensures !F.lossy
    ensures var x := EnterRadio(F, id, net, now).radios[id];
            && EnterRadio(F, id, net, now) == F.(radios := F.radios[id := x])
            && SameRadioCounters(F, id, x)
            && x.networks == (if id in F.radios then F.radios[id].networks else {}) + Named(net)
  {
    hide Victim;
  }

  lemma EnterTgIs(F: Family, id: Id, net: Id, now: int)
    requires !EnterTg(F, id, net, now).lossy
    ensures !F.lossy
    ensures var x := EnterTg(F, id, net, now).tgs[id];
            && EnterTg(F, id, net, now) == F.(tgs := F.tgs[id := x])
            && SameTgCounters(F, id, x)
            && x.networks == (if id in F.tgs then F.tgs[id].networks else {}) + Named(net)
  {
    hide Victim;
  }

  lemma EnterRadioKeeps(F: Family, id: Id, net: Id, now: int)
    requires !EnterRadio(F, id, net, now).lossy
    requires net == "" || net in F.networks
    ensures Entered(F, EnterRadio(F, id, net, now))
    ensures id != "" && "" !in F.radios ==> "" !in EnterRadio(F, id, net, now).radios
  {
    hide Shown, EnterRadio, SameRadioCounters;
    EnterRadioIs(F, id, net, now);
    var x := EnterRadio(F, id, net, now).radios[id];
    forall q ensures Shown(EnterRadio(F, id, net, now), q) == Shown(F, q) {
      RadioReplaced(F, id, x, q);
    }
  }

  lemma EnterTgKeeps(F: Family, id: Id, net: Id, now: int)
    requires !EnterTg(F, id, net, now).lossy
    requires net == "" || net in F.networks
    ensures Entered(F, EnterTg(F, id, net, now)) && EnterTg(F, id, net, now).radios == F.radios
  {
    hide Shown, EnterTg, SameTgCounters;
    EnterTgIs(F, id, net, now);
    var x := EnterTg(F, id, net, now).tgs[id];
    forall q ensures Shown(EnterTg(F, id, net, now), q) == Shown(F, q) {
      TgReplaced(F, id, x, q);
    }
  }

  lemma EnteredTwice(F: Family, G: Family, H: Family)
    requires Entered(F, G) && Entered(G, H)
    ensures Entered(F, H)
  {
    hide Shown, NetworksExist;
  }

  lemma EnteredSelf(F: Family)
    requires !F.lossy
    ensures Entered(F, F)
  {
  }

  lemma EnterPartiesKeeps(F: Family, k: Call, now: int)
    requires !EnterParties(F, k, now).lossy && k.net in F.networks && k.tgt != ""
    ensures Entered(F, EnterParties(F, k, now))
    ensures "" !in F.radios ==> "" !in EnterParties(F, k, now).radios
  {
    hide Shown, NetworksExist, EnterRadio, EnterTg, Entered;
    var G := if k.src == "" then F else EnterRadio(F, k.src, k.net, now);
    if !k.priv {
      EnterTgIs(G, k.tgt, k.net, now);
    } else if k.src != "" {
      EnterRadioIs(G, k.tgt, k.net, now);
    }
    if k.src != "" {
      EnterRadioKeeps(F, k.src, k.net, now);
    } else {
      EnteredSelf(F);
    }
    assert k.net in G.networks by { EnteredNetworks(F, G); }
    if !k.priv {
      EnterTgKeeps(G, k.tgt, k.net, now);
      EnteredTwice(F, G, EnterParties(F, k, now));
    } else if k.src != "" {
      EnterRadioKeeps(G, k.tgt, k.net, now);
      EnteredTwice(F, G, EnterParties(F, k, now));
    }
  }

  lemma EnteredNetworks(F: Family, G: Family)
    requires Entered(F, G)
    ensures G.networks.Keys == F.networks.Keys
  {
  }

  lemma EnterPartiesHolds(F: Family, k: Call, now: int)
    requires !EnterParties(F, k, now).lossy && k.net in F.networks && k.tgt != ""
    ensures forall q :: q in CountersOf(k) || q in KeyCountersOf(k) ==> Held(EnterParties(F, k, now), q)
  {
    hide Shown, NetworksExist, EnterRadio, EnterTg;
    EnterPartiesKeeps(F, k, now);
    var G := if k.src == "" then F else EnterRadio(F, k.src, k.net, now);
    if !k.priv {
      EnterTgIs(G, k.tgt, k.net, now);
    } else if k.src != "" {
      EnterRadioIs(G, k.tgt, k.net, now);
    }
  }

  // ---- counting up ----

  lemma {:induction false} IncAllCounts(F: Family, qs: seq<Query>, q: Query)
    requires !IncAll(F, qs).lossy
    requires forall x :: x in qs ==> Held(F, x)
    ensures SameShape(F, IncAll(F, qs)) && !F.lossy
    ensures Shown(IncAll(F, qs), q) == Shown(F, q) + multiset(qs)[q]
    decreases |qs|
  {
    if qs != [] {
      hide Inc, Shown;
      var G := Inc(F, qs[0]);
      IncAllNotLossy(G, qs[1..]);
      IncShape(F, qs[0]);
      IncCounts(F, qs[0], q);
      SameShapeHeld(F, G);
      IncAllCounts(G, qs[1..], q);
      assert qs == [qs[0]] + qs[1..];
    }
  }

  lemma {:induction false} IncAllNotLossy(F: Family, qs: seq<Query>)
    ensures F.lossy ==> IncAll(F, qs).lossy
    decreases |qs|
  {
    if qs != [] {
      IncAllNotLossy(Inc(F, qs[0]), qs[1..]);
    }
  }

  lemma SameShapeHeld(F: Family, G: Family)
    requires SameShape(F, G)
    ensures forall q :: Held(G, q) == Held(F, q)
    ensures NetworksExist(F) ==> NetworksExist(G)
  {
  }

  // ---- one call of the list changes ----

  /** Only call i changed, and every counter by what its contribution changed: the balance holds on. */
  lemma CallChanged(F: Family, G: Family, i: nat, k: Call)
    requires Balanced(F) && i < |F.calls| && G.calls == F.calls[i := k] && G.past == F.past
    requires forall q :: Shown(G, q) + Contribution(q, F.calls[i]) == Shown(F, q) + Contribution(q, k)
    ensures Balanced(G)
  {
    hide Shown, Tally, Contribution;
    forall q
      ensures Shown(G, q) == Tally(G.calls, q) + Tally(G.past, q)
    {
      TallyUpdate(F.calls, i, k, q);
    }
  }

  lemma SetCallNetworks(F: Family, i: nat, k: Call)
    requires i < |F.calls| && NetworksExist(F) && k.net in F.networks
    ensures NetworksExist(SetCall(F, i, k))
  {
  }

  lemma SetCallsOk(F: Family, G: Family, i: nat, k: Call)
    requires CallsOk(F) && i < |F.calls| && G.calls == F.calls[i := k] && G.past == F.past
    requires CallOk(k) && k.id == F.calls[i].id
    ensures CallsOk(G)
  {
  }

  // ---- counting a call ----

  lemma PrivateCounters(k: Call, q: Query)
    requires k.counted && k.open && k.kid == "" && k.tgt != "" && k.priv
    ensures multiset(CountersOf(k))[q] == Contribution(q, k)
  {
  }

  lemma GroupCounters(k: Call, q: Query)
    requires k.counted && k.open && k.kid == "" && k.tgt != "" && !k.priv
    ensures multiset(CountersOf(k))[q] == Contribution(q, k)
  {
  }

  /** Without its key, a call goes up on exactly the counters it contributes to. */
  lemma CountersAreContribution(k: Call, q: Query)
    requires k.counted && k.open && k.kid == "" && k.tgt != ""
    ensures multiset(CountersOf(k))[q] == Contribution(q, k)
  {
    hide *;
    if k.priv { PrivateCounters(k, q); } else { GroupCounters(k, q); }
  }

  /** And its key on the key counters it contributes to. */
  lemma KeyCountersAreContribution(k: Call, q: Query)
    requires k.counted && k.open && k.kid != "" && k.tgt != ""
    ensures multiset(KeyCountersOf(k))[q] + Contribution(q, k.(kid := "")) == Contribution(q, k)
  {
    hide *;
    if k.priv { PrivateKeyCounters(k, q); } else { GroupKeyCounters(k, q); }
  }

  lemma PrivateKeyCounters(k: Call, q: Query)
    requires k.counted && k.open && k.kid != "" && k.tgt != "" && k.priv
    ensures multiset(KeyCountersOf(k))[q] + Contribution(q, k.(kid := "")) == Contribution(q, k)
  {
    hide EncKey;
  }

  lemma GroupKeyCounters(k: Call, q: Query)
    requires k.counted && k.open && k.kid != "" && k.tgt != "" && !k.priv
    ensures multiset(KeyCountersOf(k))[q] + Contribution(q, k.(kid := "")) == Contribution(q, k)
  {
    hide EncKey;
  }

  lemma NotCounted(k: Call, q: Query)
    requires !k.counted
    ensures Contribution(q, k) == 0
  {
  }

  lemma KeyNotedIsNoMatter(k: Call, b: bool, q: Query)
    ensures Contribution(q, k.(keyNoted := b)) == Contribution(q, k)
  {
  }

  lemma SameCounters(k: Call)
    ensures CountersOf(k.(kid := "")) == CountersOf(k)
  {
  }

  lemma CallsDoNotShow(F: Family, i: nat, k: Call, q: Query)
    requires i < |F.calls|
    ensures Shown(SetCall(F, i, k), q) == Shown(F, q) && Held(SetCall(F, i, k), q) == Held(F, q)
  {
  }

  lemma NoteKeyIs(F: Family, i: nat)
    requires i < |F.calls| && F.calls[i].counted && !F.calls[i].keyNoted
    ensures NoteKey(F, i) == if F.calls[i].kid == "" then F
            else IncAll(SetCall(F, i, F.calls[i].(keyNoted := true)), KeyCountersOf(F.calls[i]))
  {
    hide IncAll, KeyCountersOf, SetCall;
  }

  /** Noting the key of a counted call raises the counters it contributes its key to. */
  lemma NoteKeyShown(F: Family, i: nat, q: Query)
    requires i < |F.calls| && !NoteKey(F, i).lossy
    requires var k := F.calls[i]; k.counted && !k.keyNoted && k.open && k.tgt != ""
    requires forall x :: x in KeyCountersOf(F.calls[i]) ==> Held(F, x)
    ensures var k, G := F.calls[i], NoteKey(F, i);
            && SameShape(SetCall(F, i, k.(keyNoted := k.kid != "")), G) && !F.lossy
            && Shown(G, q) + Contribution(q, k.(kid := "")) == Shown(F, q) + Contribution(q, k)
  {
    hide Shown, Contribution, IncAll, KeyCountersOf, Held;
    var k := F.calls[i];
    NoteKeyIs(F, i);
    if k.kid != "" {
      var H := SetCall(F, i, k.(keyNoted := true));
      forall x ensures Shown(H, x) == Shown(F, x) && Held(H, x) == Held(F, x) {
        CallsDoNotShow(F, i, k.(keyNoted := true), x);
      }
      IncAllCounts(H, KeyCountersOf(k), q);
      KeyCountersAreContribution(k, q);
    } else {
      assert F.calls[i := k] == F.calls;
    }
  }

  /** Counting an open call raises exactly the counters it contributes to. */
  lemma CountCallShown(F: Family, i: nat, now: int, q: Query)
    requires i < |F.calls| && !CountCall(F, i, now).lossy
    requires var k := F.calls[i]; !k.counted && k.open && k.tgt != "" && !k.keyNoted && k.net in F.networks
    ensures var k, G := F.calls[i].(counted := true), CountCall(F, i, now);
            && !F.lossy && Shown(G, q) == Shown(F, q) + Contribution(q, k)
            && SameShape(SetCall(EnterParties(SetCall(F, i, k), k, now), i, k.(keyNoted := k.kid != "")), G)
            && !EnterParties(SetCall(F, i, k), k, now).lossy
  {
    hide Shown, Contribution, CountersOf, KeyCountersOf, EnterParties, NoteKey, IncAll, Held, Entered;
    var k := F.calls[i].(counted := true);
    var F1 := SetCall(F, i, k);
    var F2 := EnterParties(F1, k, now);
    var F3 := IncAll(F2, CountersOf(k));
    assert CountCall(F, i, now) == NoteKey(F3, i);
    NoteKeyNotLossy(F3, i);
    IncAllNotLossy(F2, CountersOf(k));
    EnterPartiesKeeps(F1, k, now);
    EnterPartiesHolds(F1, k, now);
    EnteredShown(F1, F2, q);
    CallsDoNotShow(F, i, k, q);
    IncAllCounts(F2, CountersOf(k), q);
    SameShapeHeld(F2, F3);
    NoteKeyShown(F3, i, q);
    SameCounters(k);
    CountersAreContribution(k.(kid := ""), q);
  }

  lemma EnteredShown(F: Family, G: Family, q: Query)
    requires Entered(F, G)
    ensures Shown(G, q) == Shown(F, q) && !F.lossy && G.calls == F.calls && G.past == F.past
  {
    hide Shown;
  }

  lemma NoteKeyNotLossy(F: Family, i: nat)
    requires i < |F.calls|
    ensures F.lossy ==> NoteKey(F, i).lossy
  {
    var k := F.calls[i];
    IncAllNotLossy(SetCall(F, i, k.(keyNoted := true)), KeyCountersOf(k));
  }

  lemma SameShapeNetworks(F: Family, G: Family)
    requires SameShape(F, G) && NetworksExist(F)
    ensures NetworksExist(G)
  {
  }

  function Counted(k: Call): Call {
    k.(counted := true, keyNoted := k.kid != "")
  }

  lemma CountCallDelta(F: Family, i: nat, now: int, q: Query)
    requires i < |F.calls| && !CountCall(F, i, now).lossy
    requires var k := F.calls[i]; !k.counted && k.open && k.tgt != "" && !k.keyNoted && k.net in F.networks
    ensures var k, G := F.calls[i], CountCall(F, i, now);
            && !F.lossy && G.calls == F.calls[i := Counted(k)] && G.past == F.past
            && Shown(G, q) + Contribution(q, k) == Shown(F, q) + Contribution(q, Counted(k))
  {
    hide Shown, Contribution, EnterParties, CountCall;
    var k := F.calls[i];
    CountCallShown(F, i, now, q);
    NotCounted(k, q);
    KeyNotedIsNoMatter(k.(counted := true), k.kid != "", q);
  }

  lemma CountCallBalances(F: Family, i: nat, now: int)
    requires i < |F.calls| && Balanced(F) && !CountCall(F, i, now).lossy
    requires var k := F.calls[i]; !k.counted && k.open && k.tgt != "" && !k.keyNoted && k.net in F.networks
    ensures var k, G := F.calls[i], CountCall(F, i, now);
            && G.calls == F.calls[i := Counted(k)] && G.past == F.past
            && Balanced(G) && !F.lossy
  {
    hide *;
    var G := CountCall(F, i, now);
    forall q
      ensures Shown(G, q) + Contribution(q, F.calls[i]) == Shown(F, q) + Contribution(q, Counted(F.calls[i]))
    {
      CountCallDelta(F, i, now, q);
    }
    CountCallDelta(F, i, now, NetCalls(""));
    CallChanged(F, G, i, Counted(F.calls[i]));
  }

  lemma CountCallKeeps(F: Family, i: nat, now: int)
    requires i < |F.calls| && Exact(F) && !CountCall(F, i, now).lossy
    requires var k := F.calls[i]; !k.counted && k.open && k.tgt != "" && !k.keyNoted
    ensures var k, G := F.calls[i], CountCall(F, i, now);
            && G.calls == F.calls[i := Counted(k)] && G.past == F.past
            && Exact(G) && !F.lossy && G.networks.Keys == F.networks.Keys
  {
    hide Shown, EnterParties, CountCall, NetworksExist, Balanced, Contribution;
    var k := F.calls[i].(counted := true);
    var k' := k.(keyNoted := k.kid != "");
    CallNetwork(F, i);
    CountCallBalances(F, i, now);
    CountCallShown(F, i, now, NetCalls(""));
    var F2 := EnterParties(SetCall(F, i, k), k, now);
    EnterPartiesKeeps(SetCall(F, i, k), k, now);
    SetCallNetworks(F, i, k);
    SetCallNetworks(F2, i, k');
    SameShapeNetworks(SetCall(F2, i, k'), CountCall(F, i, now));
  }

  lemma CallNetwork(F: Family, i: nat)
    requires i < |F.calls| && NetworksExist(F)
    ensures F.calls[i].net in F.networks
  {
    assert F.calls[i] in F.calls;
  }

  /** A counted call's own contribution is part of the recount, so what it is counted on exists. */
  lemma {:induction false} TallyHasCall(s: seq<Call>, i: nat, q: Query)
    requires i < |s|
    ensures Tally(s, q) >= Contribution(q, s[i])
  {
    if i > 0 { TallyHasCall(s[1..], i - 1, q); }
  }

  lemma ShownHasCall(F: Family, i: nat, q: Query)
    requires Balanced(F) && i < |F.calls|
    ensures Shown(F, q) >= Contribution(q, F.calls[i])
  {
    TallyHasCall(F.calls, i, q);
  }

  lemma ShownIsHeld(F: Family, q: Query)
    requires Shown(F, q) > 0
    ensures Held(F, q)
  {
  }

  // ---- refining an open call ----

  /** k2 is k as far as the counters it is on go; only a key not known before may be new. */
  predicate Refined(k: Call, k2: Call) {
    && k2.id == k.id && k2.src == k.src && k2.tgt == k.tgt && k2.net == k.net && k2.priv == k.priv
    && k2.counted == k.counted && k2.open == k.open && k2.keyNoted == k.keyNoted
    && (k.kid != "" ==> k2.kid == k.kid && k2.alg == k.alg)
  }

  lemma RefinedContribution(k: Call, k2: Call, q: Query)
    requires Refined(k, k2) && k.open && (k.kid == k2.kid || !k.counted)
    ensures Contribution(q, k2) == Contribution(q, k)
  {
  }

  lemma RefinedWithKey(k: Call, k2: Call, q: Query)
    requires Refined(k, k2) && k.open && k.kid == ""
    ensures Contribution(q, k2.(kid := "")) == Contribution(q, k)
  {
    RefinedContribution(k, k2.(kid := ""), q);
  }

  lemma KeyCountersHeld(F: Family, i: nat)
    requires i < |F.calls| && Balanced(F) && NetworksExist(F)
    requires var k := F.calls[i]; k.counted && k.src != "" && k.tgt != ""
    ensures forall x :: x in KeyCountersOf(F.calls[i]) ==> Held(F, x)
  {
    hide Shown, NetworksExist;
    var k := F.calls[i];
    CallNetwork(F, i);
    ShownHasCall(F, i, RadioCalls(k.src));
    ShownIsHeld(F, RadioCalls(k.src));
    if !k.priv {
      ShownHasCall(F, i, TgCalls(k.tgt));
      ShownIsHeld(F, TgCalls(k.tgt));
    }
  }

  /** Replacing an open call by a refinement of it and noting its key. */
  lemma RefineKeeps(F: Family, i: nat, k2: Call)
    requires i < |F.calls| && Exact(F) && !NoteKey(SetCall(F, i, k2), i).lossy
    requires var k := F.calls[i]; k.open && CallOk(k) && Refined(k, k2)
    ensures var G := NoteKey(SetCall(F, i, k2), i);
            && G.calls == F.calls[i := k2.(keyNoted := k2.counted && k2.kid != "")] && G.past == F.past
            && Exact(G) && !F.lossy && G.networks.Keys == F.networks.Keys
  {
    var k := F.calls[i];
    if k.counted && k.kid == "" && k2.kid != "" {
      RefineWithNewKey(F, i, k2);
    } else {
      hide Contribution, Shown, IncAll;
      var G := SetCall(F, i, k2);
      assert NoteKey(G, i) == G;
      CallNetwork(F, i);
      SetCallNetworks(F, i, k2);
      forall q ensures Shown(G, q) + Contribution(q, k) == Shown(F, q) + Contribution(q, k2) {
        RefinedContribution(k, k2, q);
        CallsDoNotShow(F, i, k2, q);
      }
      CallChanged(F, G, i, k2);
    }
  }

  lemma RefineWithNewKey(F: Family, i: nat, k2: Call)
    requires i < |F.calls| && Exact(F) && !NoteKey(SetCall(F, i, k2), i).lossy
    requires var k := F.calls[i]; k.open && CallOk(k) && Refined(k, k2) && k.counted && k.kid == "" && k2.kid != ""
    ensures var G := NoteKey(SetCall(F, i, k2), i);
            && G.calls == F.calls[i := k2.(keyNoted := true)] && G.past == F.past
            && Exact(G) && !F.lossy && G.networks.Keys == F.networks.Keys
  {
    hide Contribution, Shown, NoteKey, NetworksExist, Balanced, KeyCountersOf, Held;
    var k := F.calls[i];
    var F1, G := SetCall(F, i, k2), NoteKey(SetCall(F, i, k2), i);
    KeyCountersHeld(F, i);
    CallNetwork(F, i);
    forall x | x in KeyCountersOf(k2) ensures Held(F1, x) {
      RefinedKeyHeld(F, i, k2, x);
      CallsDoNotShow(F, i, k2, x);
    }
    forall q ensures Shown(G, q) + Contribution(q, k) == Shown(F, q) + Contribution(q, k2.(keyNoted := true)) {
      NoteKeyShown(F1, i, q);
      RefinedWithKey(k, k2, q);
      CallsDoNotShow(F, i, k2, q);
      KeyNotedIsNoMatter(k2, true, q);
    }
    NoteKeyShown(F1, i, NetCalls(""));
    CallChanged(F, G, i, k2.(keyNoted := true));
    SetCallNetworks(F, i, k2);
    SetCallNetworks(F1, i, k2.(keyNoted := true));
    SameShapeNetworks(SetCall(F1, i, k2.(keyNoted := true)), G);
  }

  lemma RefinedKeyHeld(F: Family, i: nat, k2: Call, x: Query)
    requires i < |F.calls| && Refined(F.calls[i], k2) && x in KeyCountersOf(k2)
    requires forall y :: y in KeyCountersOf(F.calls[i]) ==> Held(F, y)
    ensures Held(F, x)
  {
    var key := EncKey(F.calls[i]);
    var y := match x case NetKey(n, _) => NetKey(n, key) case TgKey(t, _) => TgKey(t, key) case RadioKey(r, _) => RadioKey(r, key) case _ => x;
    assert y in KeyCountersOf(F.calls[i]);
  }

  // ---- a group call turns out to be private ----

  /** The counters a re-classified call goes down on. */
  function GroupCountersOf(k: Call): seq<Query> {
    if k.keyNoted then [RadioTg(k.src, k.tgt), TgRadio(k.tgt, k.src), TgCalls(k.tgt), TgKey(k.tgt, EncKey(k))]
    else [RadioTg(k.src, k.tgt), TgRadio(k.tgt, k.src), TgCalls(k.tgt)]
  }

  function PeerCountersOf(k: Call): seq<Query> {
    [Peer(k.src, k.tgt), Peer(k.tgt, k.src)]
  }

  lemma MovedKeyContribution(k: Call, q: Query)
    requires k.counted && k.open && !k.priv && CallOk(k) && k.keyNoted
    ensures Contribution(q, k) + multiset(PeerCountersOf(k))[q]
         == Contribution(q, k.(priv := true)) + multiset(GroupCountersOf(k))[q]
  {
    var k' := k.(priv := true);
    assert EncKey(k') == EncKey(k);
    hide EncKey;
  }

  lemma MovedPlainContribution(k: Call, q: Query)
    requires k.counted && k.open && !k.priv && CallOk(k) && !k.keyNoted
    ensures Contribution(q, k) + multiset(PeerCountersOf(k))[q]
         == Contribution(q, k.(priv := true)) + multiset(GroupCountersOf(k))[q]
  {
    hide EncKey;
  }

  /** The move from the group to the peer counters is the change of the call's contribution. */
  lemma MovedContribution(k: Call, q: Query)
    requires k.counted && k.open && !k.priv && CallOk(k)
    ensures Contribution(q, k) + multiset(PeerCountersOf(k))[q]
         == Contribution(q, k.(priv := true)) + multiset(GroupCountersOf(k))[q]
  {
    hide *;
    if k.keyNoted { MovedKeyContribution(k, q); } else { MovedPlainContribution(k, q); }
  }

  /** All the decrements of LeaveGroup, before an empty talkgroup is dropped. */
  function Left(F: Family, k: Call): Family {
    var G := Dec(Dec(Dec(F, RadioTg(k.src, k.tgt)), TgRadio(k.tgt, k.src)), TgCalls(k.tgt));
    if k.keyNoted then Dec(G, TgKey(k.tgt, EncKey(k))) else G
  }

  lemma ThreeDecs(F: Family, q1: Query, q2: Query, q3: Query, q: Query)
    requires q1.RadioTg? && q2.TgRadio? && q3.TgCalls?
    requires Shown(F, q1) > 0 && Shown(F, q2) > 0 && Shown(F, q3) > 0
    ensures var G := Dec(Dec(Dec(F, q1), q2), q3);
            && SameShape(F, G) && G.lossy == F.lossy
            && Shown(G, q) + One(q == q1) + One(q == q2) + One(q == q3) == Shown(F, q)
  {
    hide Shown, Dec;
    var F1 := Dec(F, q1);
    var F2 := Dec(F1, q2);
    DecShape(F, q1);
    DecShape(F1, q2);
    DecShape(F2, q3);
    DecCounts(F, q1, q2);
    DecCounts(F, q1, q3);
    DecCounts(F1, q2, q3);
    DecCounts(F, q1, q);
    DecCounts(F1, q2, q);
    DecCounts(F2, q3, q);
  }

  lemma LeftShown(F: Family, k: Call, q: Query)
    requires Shown(F, RadioTg(k.src, k.tgt)) > 0 && Shown(F, TgRadio(k.tgt, k.src)) > 0 && Shown(F, TgCalls(k.tgt)) > 0
    requires k.keyNoted ==> Shown(F, TgKey(k.tgt, EncKey(k))) > 0
    ensures SameShape(F, Left(F, k)) && Left(F, k).lossy == F.lossy
    ensures Shown(Left(F, k), q) + multiset(GroupCountersOf(k))[q] == Shown(F, q)
  {
    hide Shown, Dec, EncKey;
    var q1, q2, q3, q4 := RadioTg(k.src, k.tgt), TgRadio(k.tgt, k.src), TgCalls(k.tgt), TgKey(k.tgt, EncKey(k));
    var G := Dec(Dec(Dec(F, q1), q2), q3);
    ThreeDecs(F, q1, q2, q3, q);
    if k.keyNoted {
      ThreeDecs(F, q1, q2, q3, q4);
      DecShape(G, q4);
      DecCounts(G, q4, q);
    }
  }

  predicate OnTg(q: Query, t: Id) {
    match q
    case TgRadio(x, _) => x == t
    case TgCalls(x) => x == t
    case TgKey(x, _) => x == t
    case TgEmergencies(x) => x == t
    case TgEncrypted(x) => x == t
    case _ => false
  }

  lemma DropTgShown(F: Family, t: Id, q: Query)
    requires forall x :: OnTg(x, t) ==> Shown(F, x) == 0
    ensures Shown(F.(tgs := F.tgs - {t}), q) == Shown(F, q)
  {
    assert OnTg(q, t) ==> Shown(F, q) == 0;
  }

  /** When the shown talkgroup counters are a recount, one without calls shows nothing at all. */
  lemma EmptyTg(F: Family, s: seq<Call>, p: seq<Call>, t: Id, q: Query)
    requires forall x :: OnTg(x, t) ==> Shown(F, x) == Tally(s, x) + Tally(p, x)
    requires Shown(F, TgCalls(t)) == 0 && OnTg(q, t)
    ensures Shown(F, q) == 0
  {
    hide Shown;
    TallyWithinTotal(s, q);
    TallyWithinTotal(p, q);
    assert Total(q) == TgCalls(t);
    assert OnTg(TgCalls(t), t);
  }

  lemma LeaveGroupShown(F: Family, i: nat, q: Query)
    requires i < |F.calls| && Balanced(F)
    requires var k := F.calls[i]; k.counted && k.open && !k.priv && CallOk(k)
    ensures var k, k' := F.calls[i], F.calls[i].(priv := true);
            var L := Left(SetCall(F, i, k'), k);
            && SameShape(SetCall(F, i, k'), L) && L.lossy == F.lossy
            && Shown(L, q) + multiset(PeerCountersOf(k))[q] == Tally(F.calls[i := k'], q) + Tally(F.past, q)
  {
    hide Shown, Left, GroupCountersOf, PeerCountersOf, EncKey;
    var k, k' := F.calls[i], F.calls[i].(priv := true);
    var F1 := SetCall(F, i, k');
    forall x ensures Shown(F1, x) == Shown(F, x) { CallsDoNotShow(F, i, k', x); }
    ShownHasCall(F, i, RadioTg(k.src, k.tgt));
    ShownHasCall(F, i, TgRadio(k.tgt, k.src));
    ShownHasCall(F, i, TgCalls(k.tgt));
    ShownHasCall(F, i, TgKey(k.tgt, EncKey(k)));
    LeftShown(F1, k, q);
    MovedContribution(k, q);
    TallyUpdate(F.calls, i, k', q);
  }

  /** Dropping the talkgroup when it is empty shows no difference. */
  lemma LeaveGroupDrops(F: Family, i: nat, q: Query)
    requires i < |F.calls| && Balanced(F)
    requires var k := F.calls[i]; k.counted && k.open && !k.priv && CallOk(k)
    ensures var F1, k := SetCall(F, i, F.calls[i].(priv := true)), F.calls[i];
            Shown(LeaveGroup(F1, k), q) == Shown(Left(F1, k), q)
  {
    hide Shown, Left, PeerCountersOf, Tally;
    var k, k' := F.calls[i], F.calls[i].(priv := true);
    var F1 := SetCall(F, i, k');
    var L := Left(F1, k);
    LeaveGroupIs(F1, k);
    if k.tgt in L.tgs && L.tgs[k.tgt].calls == 0 && L.tgs[k.tgt].radios == map[] {
      assert Shown(L, TgCalls(k.tgt)) == 0 by { TgCallsShown(L, k.tgt); }
      forall x | OnTg(x, k.tgt) ensures Shown(L, x) == 0 {
        forall y | OnTg(y, k.tgt) ensures Shown(L, y) == Tally(F.calls[i := k'], y) + Tally(F.past, y) {
          LeaveGroupShown(F, i, y);
          NoPeerOnTg(k, y, k.tgt);
        }
        EmptyTg(L, F.calls[i := k'], F.past, k.tgt, x);
      }
      DropTgShown(L, k.tgt, q);
    }
  }

  lemma LeaveGroupIs(F: Family, k: Call)
    ensures var L := Left(F, k);
            LeaveGroup(F, k) == if k.tgt in L.tgs && L.tgs[k.tgt].calls == 0 && L.tgs[k.tgt].radios == map[]
                                then L.(tgs := L.tgs - {k.tgt}) else L
  {
    hide Dec, EncKey;
  }

  lemma TgCallsShown(F: Family, t: Id)
    ensures t in F.tgs ==> Shown(F, TgCalls(t)) == F.tgs[t].calls
  {
  }

  lemma NoPeerOnTg(k: Call, q: Query, t: Id)
    requires OnTg(q, t)
    ensures multiset(PeerCountersOf(k))[q] == 0
  {
  }

  lemma JoinPeersShown(F: Family, k: Call, now: int, q: Query)
    requires k.src in F.radios && k.net in F.networks && !JoinPeers(F, k, now).lossy && k.tgt != ""
    ensures var G := JoinPeers(F, k, now);
            && !F.lossy && Shown(G, q) == Shown(F, q) + multiset(PeerCountersOf(k))[q]
            && G.networks.Keys == F.networks.Keys && (NetworksExist(F) ==> NetworksExist(G))
            && ("" !in F.radios ==> "" !in G.radios)
  {
    hide Shown, EnterRadio, Inc, NetworksExist;
    var F1 := EnterRadio(F, k.tgt, k.net, now);
    var q1, q2 := Peer(k.src, k.tgt), Peer(k.tgt, k.src);
    var F2 := Inc(F1, q1);
    var G := Inc(F2, q2);
    assert G == JoinPeers(F, k, now);
    IncLossy(F1, q1);
    IncLossy(F2, q2);
    EnterRadioKeeps(F, k.tgt, k.net, now);
    EnteredShown(F, F1, q);
    IncShape(F1, q1);
    IncShape(F2, q2);
    IncCounts(F1, q1, q);
    IncCounts(F2, q2, q);
    SameShapeHeld(F1, F2);
    SameShapeHeld(F2, G);
  }

  lemma IncLossy(F: Family, q: Query)
    ensures F.lossy ==> Inc(F, q).lossy
  {
  }

  lemma SameShapeTransitive(F: Family, G: Family, H: Family)
    requires SameShape(F, G) && SameShape(G, H)
    ensures SameShape(F, H)
  {
  }

  lemma LeftShape(F: Family, k: Call)
    ensures SameShape(F, Left(F, k)) && Left(F, k).lossy == F.lossy
  {
    hide Dec, EncKey, SameShape;
    var F1 := Dec(F, RadioTg(k.src, k.tgt));
    var F2 := Dec(F1, TgRadio(k.tgt, k.src));
    var F3 := Dec(F2, TgCalls(k.tgt));
    DecShape(F, RadioTg(k.src, k.tgt));
    DecShape(F1, TgRadio(k.tgt, k.src));
    DecShape(F2, TgCalls(k.tgt));
    DecShape(F3, TgKey(k.tgt, EncKey(k)));
    SameShapeTransitive(F, F1, F2);
    SameShapeTransitive(F, F2, F3);
    if k.keyNoted { SameShapeTransitive(F, F3, Left(F, k)); }
  }

  lemma LeaveGroupKeeps(F: Family, k: Call)
    ensures var G := LeaveGroup(F, k);
            && G.radios.Keys == F.radios.Keys && G.networks.Keys == F.networks.Keys && G.lossy == F.lossy
            && (NetworksExist(F) ==> NetworksExist(G))
  {
    hide Left, LeaveGroup;
    LeftShape(F, k);
    LeaveGroupIs(F, k);
    SubsetNetworks(F, Left(F, k), LeaveGroup(F, k));
  }

  lemma SubsetNetworks(F: Family, L: Family, G: Family)
    requires SameShape(F, L) && G.networks == L.networks && G.radios == L.radios && G.calls == L.calls
    requires forall t :: t in G.tgs ==> t in L.tgs && G.tgs[t] == L.tgs[t]
    ensures NetworksExist(F) ==> NetworksExist(G)
  {
  }

  lemma SetPrivateBalances(F: Family, i: nat, now: int)
    requires i < |F.calls| && Balanced(F) && NetworksExist(F) && !SetPrivate(F, i, now).lossy
    requires var k := F.calls[i]; k.counted && k.open && !k.priv && CallOk(k)
    ensures Balanced(SetPrivate(F, i, now)) && !F.lossy
    ensures NetworksExist(SetPrivate(F, i, now)) && SetPrivate(F, i, now).networks.Keys == F.networks.Keys
    ensures "" !in F.radios ==> "" !in SetPrivate(F, i, now).radios
  {
    hide Shown, LeaveGroup, JoinPeers, PeerCountersOf, Left, Tally, NetworksExist, Contribution;
    var k, k' := F.calls[i], F.calls[i].(priv := true);
    var F1, G := SetCall(F, i, k'), SetPrivate(F, i, now);
    var F2 := LeaveGroup(F1, k);
    assert G == JoinPeers(F2, k, now);
    CallNetwork(F, i);
    SetCallNetworks(F, i, k');
    LeaveGroupKeeps(F1, k);
    TalkerHeld(F, i);
    forall q ensures Shown(G, q) == Tally(G.calls, q) + Tally(G.past, q) {
      LeaveGroupShown(F, i, q);
      LeaveGroupDrops(F, i, q);
      JoinPeersShown(F2, k, now, q);
    }
    JoinPeersShown(F2, k, now, NetCalls(""));
  }

  lemma TalkerHeld(F: Family, i: nat)
    requires i < |F.calls| && Balanced(F) && F.calls[i].counted && F.calls[i].src != ""
    ensures F.calls[i].src in F.radios
  {
    hide Tally, Shown;
    ShownHasCall(F, i, RadioCalls(F.calls[i].src));
    ShownIsHeld(F, RadioCalls(F.calls[i].src));
  }

  lemma SetPrivateKeeps(F: Family, i: nat, now: int)
    requires i < |F.calls| && Exact(F) && !SetPrivate(F, i, now).lossy
    requires F.calls[i].open && CallOk(F.calls[i])
    ensures var G := SetPrivate(F, i, now);
            && G.calls == F.calls[i := F.calls[i].(priv := true)] && G.past == F.past
            && Exact(G) && !F.lossy && G.networks.Keys == F.networks.Keys
  {
    var k := F.calls[i];
    if !k.priv && k.counted {
      hide Balanced, NetworksExist, LeaveGroup, JoinPeers;
      SetPrivateBalances(F, i, now);
    } else if k.priv {
      assert F.calls[i := k.(priv := true)] == F.calls;
    } else {
      CallNetwork(F, i);
      UncountedKeeps(F, i, k.(priv := true));
    }
  }

  /** A call that is not counted may change in any way that does not count it. */
  lemma UncountedKeeps(F: Family, i: nat, k2: Call)
    requires i < |F.calls| && Exact(F) && !F.lossy && k2.net in F.networks
    requires !F.calls[i].counted && !k2.counted
    ensures Exact(SetCall(F, i, k2))
  {
    hide Shown, NetworksExist, Contribution, Balanced;
    SetCallNetworks(F, i, k2);
    forall q
      ensures Shown(SetCall(F, i, k2), q) + Contribution(q, F.calls[i]) == Shown(F, q) + Contribution(q, k2)
    {
      NotCounted(F.calls[i], q);
      NotCounted(k2, q);
      CallsDoNotShow(F, i, k2, q);
    }
    CallChanged(F, SetCall(F, i, k2), i, k2);
  }

  // ---- a call ends ----

  /** Ending a call adds what it contributes as a closed call to its talkgroup. */
  lemma ClosedContribution(k: Call, q: Query)
    requires k.open
    ensures Contribution(q, k.(open := false))
         == Contribution(q, k) + (if k.counted && !k.priv then multiset(ClosedCountersOf(k))[q] else 0)
  {
  }

  lemma EndCallShown(F: Family, i: nat, q: Query)
    requires i < |F.calls| && F.calls[i].open && !EndCall(F, i).lossy
    requires F.calls[i].counted && !F.calls[i].priv ==> F.calls[i].tgt in F.tgs
    ensures var k := F.calls[i].(open := false);
            && SameShape(SetCall(F, i, k), EndCall(F, i)) && !F.lossy
            && Shown(EndCall(F, i), q) + Contribution(q, F.calls[i]) == Shown(F, q) + Contribution(q, k)
  {
    hide Shown, Contribution, IncAll, ClosedCountersOf, Held;
    var k := F.calls[i];
    var k' := k.(open := false);
    ClosedContribution(k, q);
    CallsDoNotShow(F, i, k', q);
    if k.counted && !k.priv {
      ClosedHeld(SetCall(F, i, k'), k);
      IncAllCounts(SetCall(F, i, k'), ClosedCountersOf(k'), q);
    }
  }

  lemma ClosedHeld(F: Family, k: Call)
    requires k.tgt in F.tgs
    ensures ClosedCountersOf(k.(open := false)) == ClosedCountersOf(k)
    ensures forall j :: 0 <= j < |ClosedCountersOf(k)| ==> Held(F, ClosedCountersOf(k)[j])
  {
  }

  lemma EndCallKeeps(F: Family, i: nat)
    requires i < |F.calls| && Exact(F) && F.calls[i].open && !EndCall(F, i).lossy
    ensures var G := EndCall(F, i);
            && G.calls == F.calls[i := F.calls[i].(open := false)] && G.past == F.past
            && Exact(G) && !F.lossy && G.networks.Keys == F.networks.Keys
  {
    hide Shown, Contribution, EndCall, NetworksExist, Balanced, Tally;
    var k, G := F.calls[i], EndCall(F, i);
    CallNetwork(F, i);
    if k.counted && !k.priv { GroupHeld(F, i); }
    forall q
      ensures Shown(G, q) + Contribution(q, k) == Shown(F, q) + Contribution(q, k.(open := false))
    {
      EndCallShown(F, i, q);
    }
    EndCallShown(F, i, NetCalls(""));
    CallChanged(F, G, i, k.(open := false));
    SetCallNetworks(F, i, k.(open := false));
    SameShapeNetworks(SetCall(F, i, k.(open := false)), G);
  }

  lemma GroupHeld(F: Family, i: nat)
    requires i < |F.calls| && Balanced(F) && F.calls[i].counted && !F.calls[i].priv
    ensures F.calls[i].tgt in F.tgs
  {
    hide Tally, Shown;
    ShownHasCall(F, i, TgCalls(F.calls[i].tgt));
    ShownIsHeld(F, TgCalls(F.calls[i].tgt));
  }
}
