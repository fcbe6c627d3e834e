/** Which calls the live model counts: in every reachable state exactly those with both ends known, and those that ended
    as voice for a target without a source. */
module LiveCounted {
  import opened Basics
  import opened Counters
  import opened LiveModel
  import opened CountingProofs
  import opened LiveProofs

  /** A call that is to be counted. */
  predicate Due(k: Call) {
    k.tgt != "" && (k.src != "" || (!k.open && k.voice && !k.data))
  }

  predicate Settles(k: Call) {
    k.counted <==> Due(k)
  }

  ghost predicate Settled(s: seq<Call>) {
    forall i :: 0 <= i < |s| ==> Settles(s[i])
  }

  ghost predicate AllSettled(F: Family) {
    Settled(F.calls) && Settled(F.past)
  }

  /** Alike in all that decides whether a call is to be counted, and in whether it is. */
  predicate Alike(k: Call, l: Call) {
    l.src == k.src && l.tgt == k.tgt && l.open == k.open && l.voice == k.voice && l.data == k.data && l.counted == k.counted
  }

  /** Of the listed calls only the i-th changed, and into k. */
  ghost predicate OnlyAt(F: Family, G: Family, i: nat, k: Call) {
    i < |F.calls| && G.calls == F.calls[i := k] && G.past == F.past
  }

  lemma OnlyAtSettled(F: Family, G: Family, i: nat, k: Call)
    requires OnlyAt(F, G, i, k) && AllSettled(F) && Settles(k)
    ensures AllSettled(G)
  {
  }

  lemma AlikeSettled(F: Family, G: Family, i: nat, k: Call)
    requires OnlyAt(F, G, i, k) && AllSettled(F) && Alike(F.calls[i], k)
    ensures AllSettled(G)
  {
    OnlyAtSettled(F, G, i, k);
  }

  // ---- what single steps do to the list ----

  lemma NoteKeyAt(F: Family, i: nat)
    requires i < |F.calls|
    ensures OnlyAt(F, NoteKey(F, i), i, NoteKey(F, i).calls[i]) && Alike(F.calls[i], NoteKey(F, i).calls[i])
    ensures NoteKey(F, i).calls[i] == F.calls[i].(keyNoted := NoteKey(F, i).calls[i].keyNoted)
  {
    hide IncAll, KeyCountersOf, Alike;
    var k := F.calls[i];
    FlagAlike(k, true);
    FlagAlike(k, k.keyNoted);
    if k.counted && k.kid != "" && !k.keyNoted {
      assert NoteKey(F, i).calls == F.calls[i := k.(keyNoted := true)];
    } else {
      assert F.calls[i := k] == F.calls;
    }
  }

  lemma FlagAlike(k: Call, b: bool)
    ensures Alike(k, k.(keyNoted := b)) && (b == k.keyNoted ==> k.(keyNoted := b) == k)
  {
  }

  lemma CountCallAt(F: Family, i: nat, now: int)
    requires i < |F.calls|
    ensures var k := CountCall(F, i, now).calls[i];
            && OnlyAt(F, CountCall(F, i, now), i, k) && Alike(F.calls[i].(counted := true), k)
            && k == F.calls[i].(counted := true, keyNoted := k.keyNoted)
  {
    hide IncAll, EnterParties, NoteKey;
    var k := F.calls[i].(counted := true);
    NoteKeyAt(IncAll(EnterParties(SetCall(F, i, k), k, now), CountersOf(k)), i);
  }

  lemma NoteEncryptedAt(F: Family, i: nat, ev: Event)
    requires i < |F.calls|
    ensures var k := NoteEncrypted(F, i, ev).calls[i];
            OnlyAt(F, NoteEncrypted(F, i, ev), i, k) && Alike(F.calls[i], k)
  {
    hide NoteKey, NoteEncrypted, Keyed;
    NoteEncryptedIs(F, i, ev);
    var k := Keyed(F.calls[i], ev);
    KeyedAlike(F.calls[i], ev);
    NoteKeyAt(SetCall(F, i, k), i);
  }

  lemma KeyedAlike(k: Call, ev: Event)
    ensures Alike(k, Keyed(k, ev))
  {
    hide Refined;
    var l := k.(encrypted := true);
    assert Alike(k, l);
    if l.kid == "" && ev.kid != "" {
      assert Alike(l, l.(kid := ev.kid, alg := ev.alg)) && Alike(l, l.(kid := ev.kid, alg := l.alg));
    }
  }

  lemma SetPrivateAt(F: Family, i: nat, now: int)
    requires i < |F.calls|
    ensures var k := SetPrivate(F, i, now).calls[i];
            OnlyAt(F, SetPrivate(F, i, now), i, k) && Alike(F.calls[i], k)
  {
    hide SetPrivate;
    SetPrivateCalls(F, i, now);
  }

  lemma CloseSettled(F: Family, i: nat)
    requires i < |F.calls| && AllSettled(F)
    ensures var G := CloseCall(F, i); AllSettled(G) && |G.calls| == |F.calls| && !G.calls[i].open
  {
    hide CountCall, EndCall, AllSettled;
    SettledAt(F, i);
    var k := F.calls[i];
    if k.open {
      if CountedAtEnd(k) {
        CountCallAt(F, i, k.last);
        OnlyAtSettled(F, CloseCall(F, i), i, CountCall(F, i, k.last).calls[i].(open := false));
      } else {
        OnlyAtSettled(F, CloseCall(F, i), i, k.(open := false));
      }
    }
  }

  lemma SettledAt(F: Family, i: nat)
    requires i < |F.calls| && AllSettled(F)
    ensures Settles(F.calls[i])
  {
  }

  // ---- the steps of a line ----

  lemma {:induction false} ExpireSettled(F: Family, a: seq<(Id, nat)>, now: int)
    requires AllSettled(F)
    ensures AllSettled(Expire(F, a, now).0)
    decreases |a|
  {
    hide AllSettled, CloseCall, Fresh;
    if a != [] {
      var f := FindCall(F.calls, a[0].1, |F.calls|);
      if f.Some? && !Fresh(F.calls[f.value], now) {
        CloseSettled(F, f.value);
        ExpireSettled(CloseCall(F, f.value), a[1..], now);
      } else {
        ExpireSettled(F, a[1..], now);
      }
    }
  }

  lemma RefineOnlySettled(F: Family, c: Ctx, ev: Event, now: int)
    requires AllSettled(F)
    ensures AllSettled(RefineOnly(F, c, ev, now))
  {
    hide AllSettled, FreshCall, SetPrivate, NoteEncrypted;
    var f := FreshCall(c, F, ev.slot, now);
    if f.Some? {
      var i := f.value;
      var F1 := if ev.priv then SetPrivate(F, i, now) else F;
      if ev.priv {
        SetPrivateAt(F, i, now);
        AlikeSettled(F, F1, i, F1.calls[i]);
      }
      var F2 := if ev.emergency then SetCall(F1, i, F1.calls[i].(emergency := true)) else F1;
      if ev.emergency { AlikeSettled(F1, F2, i, F2.calls[i]); }
      if ev.enc {
        NoteEncryptedAt(F2, i, ev);
        AlikeSettled(F2, NoteEncrypted(F2, i, ev), i, NoteEncrypted(F2, i, ev).calls[i]);
      }
    }
  }

  lemma CallOfTargetSettled(F: Family, c: Ctx, ev: Event, now: int)
    requires AllSettled(F)
    ensures AllSettled(CallOfTarget(F, c, ev, now).F)
  {
    hide AllSettled, FindAdoptable, Lookup, Put, Erase, FreshCall;
    var ad := FindAdoptable(c.active, F, ev.slot, ev.tgt, ev.src, now);
    if ad.Some? {
      var k := F.calls[ad.value.1].(slot := ev.slot);
      AlikeSettled(F, SetCall(F, ad.value.1, k), ad.value.1, k);
    }
  }

  lemma CurrentCallSettled(F: Family, c: Ctx, ev: Event, now: int)
    requires AllSettled(F)
    ensures AllSettled(CurrentCall(F, c, ev, now).F)
  {
    hide AllSettled, CallOfTarget, FreshCall, CloseCall;
    CallOfTargetSettled(F, c, ev, now);
    var r := if ev.tgt != "" then CallOfTarget(F, c, ev, now) else Found(F, c, FreshCall(c, F, ev.slot, now));
    if r.cur.Some? { CloseSettled(r.F, r.cur.value); }
  }

  lemma RemoveSettled(F: Family, i: nat, past: seq<Call>)
    requires i < |F.calls| && AllSettled(F) && (past == F.past || past == F.past + [F.calls[i]])
    ensures AllSettled(F.(calls := Without(F.calls, i), past := past))
  {
    var s := Without(F.calls, i);
    assert forall j :: 0 <= j < |s| ==> s[j] == F.calls[if j < i then j else j + 1];
  }

  lemma RollOffSettled(F: Family, maxCalls: nat)
    requires AllSettled(F)
    ensures AllSettled(RollOff(F, maxCalls))
  {
    hide AllSettled, CloseCall, AudioLess, Without;
    var i := FirstAudioLess(F.calls, 0);
    if i < |F.calls| {
      CloseSettled(F, i);
      var G := CloseCall(F, i);
      RemoveSettled(G, i, G.past + [G.calls[i]]);
    }
  }

  lemma PushSettled(F: Family, k: Call)
    requires AllSettled(F) && !k.counted && k.tgt == ""
    ensures AllSettled(F.(calls := F.calls + [k]))
  {
  }

  lemma OpenSettled(F: Family, c: Ctx, sid: nat, slot: Id, now: int, id: nat, maxCalls: nat)
    requires AllSettled(F)
    ensures var G := OpenCall(F, c, sid, slot, now, id, maxCalls).0; AllSettled(G) && G.calls[|G.calls| - 1].open
  {
    hide AllSettled, CloseCall, RollOff;
    var prev := if slot != "" then FreshCall(c, F, slot, now) else None;
    var F1 := if prev.Some? then CloseCall(F, prev.value) else F;
    if prev.Some? { CloseSettled(F, prev.value); }
    RollOffSettled(F1, maxCalls);
    PushSettled(RollOff(F1, maxCalls), NewCall(id, sid, slot, c.net, now));
  }

  // ---- folding a line into its call ----

  /** All are settled but the open i-th call, which may be due and not counted yet. */
  ghost predicate SettledBut(F: Family, i: nat) {
    && i < |F.calls| && F.calls[i].open && (F.calls[i].counted ==> Due(F.calls[i])) && Settled(F.past)
    && forall j :: 0 <= j < |F.calls| && j != i ==> Settles(F.calls[j])
  }

  lemma ButAt(F: Family, G: Family, i: nat, k: Call)
    requires SettledBut(F, i) && OnlyAt(F, G, i, k) && k.open && (k.counted ==> Due(k))
    ensures SettledBut(G, i)
  {
  }

  lemma HeardBut(F: Family, c: Ctx, i: nat, ev: Event)
    requires i < |F.calls| && AllSettled(F) && F.calls[i].open
    ensures SettledBut(SetCall(F, i, Heard(F.calls[i], c, ev)), i)
  {
    SettledAt(F, i);
  }

  /** Up to where the call may be counted. */
  lemma FoldedBut(F: Family, c: Ctx, i: nat, ev: Event, now: int)
    requires i < |F.calls| && AllSettled(F) && F.calls[i].open
    ensures var F1 := SetCall(F, i, Heard(F.calls[i], c, ev));
            var F2 := if ev.enc then NoteEncrypted(F1, i, ev) else F1;
            var F3 := SetCall(F2, i, F2.calls[i].(last := now));
            var F4 := if ev.priv then SetPrivate(F3, i, now) else F3;
            SettledBut(F4, i)
  {
    hide AllSettled, NoteEncrypted, SetPrivate, Heard;
    var F1 := SetCall(F, i, Heard(F.calls[i], c, ev));
    HeardBut(F, c, i, ev);
    var F2 := if ev.enc then NoteEncrypted(F1, i, ev) else F1;
    if ev.enc {
      NoteEncryptedAt(F1, i, ev);
      ButAt(F1, F2, i, F2.calls[i]);
    }
    var F3 := SetCall(F2, i, F2.calls[i].(last := now));
    ButAt(F2, F3, i, F3.calls[i]);
    var F4 := if ev.priv then SetPrivate(F3, i, now) else F3;
    if ev.priv {
      SetPrivateAt(F3, i, now);
      ButAt(F3, F4, i, F4.calls[i]);
    }
  }

  lemma CountedNow(F: Family, i: nat, now: int)
    requires SettledBut(F, i) && Due(F.calls[i])
    ensures AllSettled(CountCall(F, i, now))
  {
    hide CountCall;
    CountCallAt(F, i, now);
  }

  lemma NotDueYet(F: Family, i: nat)
    requires SettledBut(F, i) && (F.calls[i].counted || F.calls[i].src == "" || F.calls[i].tgt == "")
    ensures AllSettled(F)
  {
  }

  /** The duplicate leaves; its twin, with both ends known, is counted already. */
  lemma AdoptSettled(F: Family, c: Ctx, i: nat, j: nat, slot: Id)
    requires SettledBut(F, i) && j < |F.calls| && i != j && F.calls[j].src != "" && F.calls[j].tgt != "" && F.calls[j].open
    ensures var r := AdoptTwin(F, c, i, j, slot); AllSettled(r.F) && r.F.calls[r.cur.value].counted
  {
    hide NoteKey, Joined;
    var j' := if i < j then j - 1 else j;
    var k := Joined(F.calls[j], F.calls[i]);
    JoinedEnds(F.calls[j], F.calls[i]);
    var G := SetCall(F, j, k);
    var D := G.(calls := Without(G.calls, i));
    assert forall m :: 0 <= m < |D.calls| ==> D.calls[m] == G.calls[if m < i then m else m + 1];
    assert AllSettled(D) && D.calls[j'] == k;
    NoteKeyAt(D, j');
    AlikeSettled(D, NoteKey(D, j'), j', NoteKey(D, j').calls[j']);
  }

  lemma JoinedEnds(twin: Call, dup: Call)
    ensures var k := Joined(twin, dup); k.src == twin.src && k.tgt == twin.tgt && k.counted == twin.counted && k.open == twin.open
  {
  }

  lemma CountOrFoldSettled(F: Family, c: Ctx, i: nat, slot: Id, now: int)
    requires SettledBut(F, i)
    ensures AllSettled(CountedOrFolded(F, c, i, slot, now).0)
  {
    hide AllSettled, CountCall, AdoptTwin;
    var k := F.calls[i];
    if k.counted || k.src == "" || k.tgt == "" {
      NotDueYet(F, i);
    } else {
      var t := FindTwin(F.calls, k, now, |F.calls|);
      if t.None? {
        CountedNow(F, i, now);
      } else {
        AdoptSettled(F, c, i, t.value, slot);
      }
    }
  }

  lemma FoldSettled(F: Family, c: Ctx, i: nat, ev: Event, now: int)
    requires i < |F.calls| && AllSettled(F) && F.calls[i].open
    ensures AllSettled(FoldEvent(F, c, i, ev, now).0)
  {
    hide AllSettled, NoteEncrypted, SetPrivate, Heard, SettledBut, CountedOrFolded, FoldEvent, FoldedCtx;
    FoldedBut(F, c, i, ev, now);
    var F1 := SetCall(F, i, Heard(F.calls[i], c, ev));
    var F2 := if ev.enc then NoteEncrypted(F1, i, ev) else F1;
    var F3 := SetCall(F2, i, F2.calls[i].(last := now));
    var F4 := if ev.priv then SetPrivate(F3, i, now) else F3;
    FoldEventIs(F, c, i, ev, now);
    CountOrFoldSettled(F4, FoldedCtx(F, c, i, ev), i, ev.slot, now);
  }

  lemma HearSettled(F: Family, c: Ctx, sid: nat, ev: Event, now: int, n: nat, maxCalls: nat)
    requires AllSettled(F)
    ensures AllSettled(Hear(F, c, sid, ev, now, n, maxCalls).0)
  {
    hide AllSettled, CurrentCall, FoldEvent, OpenCall, Expire, RefineOnly, FreshCall, EnterRadio;
    var ex := Expire(F, c.active, now);
    var F1, c1 := ex.0, c.(active := ex.1);
    ExpireSettled(F, c.active, now);
    if ev.roster {
    } else if ev.kind == Sync && ev.terminator {
      var f := FreshCall(c1, F1, ev.slot, now);
      if f.Some? {
        var k := F1.calls[f.value].(txEnd := F1.calls[f.value].last);
        AlikeSettled(F1, SetCall(F1, f.value, k), f.value, k);
      }
    } else if ev.kind == Unknown {
      RefineOnlySettled(F1, c1, ev, now);
    } else {
      var F2 := if ev.src == "" then F1 else EnterRadio(F1, ev.src, c1.net, now);
      SameLists(F1, F2);
      CallLineSettled(F2, c1, sid, ev, now, n, maxCalls);
    }
  }

  lemma CallLineSettled(F: Family, c: Ctx, sid: nat, ev: Event, now: int, n: nat, maxCalls: nat)
    requires AllSettled(F)
    ensures var r := CurrentCall(F, c, ev, now);
            && AllSettled(r.F)
            && if r.cur.Some? then AllSettled(FoldEvent(r.F, r.c, r.cur.value, ev, now).0)
               else var o := OpenCall(r.F, r.c, sid, ev.slot, now, n + 1, maxCalls);
                    AllSettled(FoldEvent(o.0, o.1, |o.0.calls| - 1, ev, now).0)
  {
    hide AllSettled, CurrentCall, FoldEvent, OpenCall;
    CurrentCallSettled(F, c, ev, now);
    var r := CurrentCall(F, c, ev, now);
    if r.cur.Some? {
      FoldSettled(r.F, r.c, r.cur.value, ev, now);
    } else {
      var o := OpenCall(r.F, r.c, sid, ev.slot, now, n + 1, maxCalls);
      OpenSettled(r.F, r.c, sid, ev.slot, now, n + 1, maxCalls);
      FoldSettled(o.0, o.1, |o.0.calls| - 1, ev, now);
    }
  }

  lemma SameLists(F: Family, G: Family)
    requires AllSettled(F) && G.calls == F.calls && G.past == F.past
    ensures AllSettled(G)
  {
  }

  // ---- operations and runs ----

  ghost predicate StateSettled(m: State) {
    forall f :: f in m.fam ==> AllSettled(m.fam[f])
  }

  lemma SettledIn(m: State, f: Id)
    requires StateSettled(m) && f in m.fam
    ensures AllSettled(m.fam[f])
  {
    hide AllSettled;
  }

  lemma ReplaceSettled(m: State, f: Id, G: Family, r: State)
    requires StateSettled(m) && AllSettled(G) && r.fam == m.fam[f := G]
    ensures StateSettled(r)
  {
    hide AllSettled;
  }

  lemma FewerSettled(m: State, r: State)
    requires StateSettled(m) && forall f :: f in r.fam ==> f in m.fam && r.fam[f] == m.fam[f]
    ensures StateSettled(r)
  {
    hide AllSettled;
  }

  lemma MergeSettled(F: Family, from: Id, to: Id)
    requires AllSettled(F)
    ensures AllSettled(MergeNetwork(F, from, to))
  {
    hide KeysLost, AddKeys;
  }

  lemma ResolveSettled(m: State, sid: nat, id: Identity, now: int)
    requires StateSettled(m) && sid in m.sess && m.sess[sid].family in m.fam
    ensures StateSettled(ResolveNetwork(m, sid, id, now))
  {
    hide AllSettled, StateSettled, MergeNetwork, EnsureNetwork;
    var c := m.sess[sid];
    var F := EnsureNetwork(m.fam[c.family], id.key, now);
    SettledIn(m, c.family);
    SameLists(m.fam[c.family], F);
    MergeSettled(F, c.net, id.key);
    var r := ResolveNetwork(m, sid, id, now);
    ReplaceSettled(m, c.family, r.fam[c.family], r);
  }

  lemma ListenSettled(m: State, sid: nat, ev: Event, now: int)
    requires StateSettled(m) && sid in m.sess && m.sess[sid].family in m.fam
    ensures StateSettled(Listen(m, sid, ev, now))
  {
    hide AllSettled, StateSettled, Hear;
    var c := m.sess[sid];
    var F := TouchNetwork(m.fam[c.family], c.net, sid, now);
    SettledIn(m, c.family);
    SameLists(m.fam[c.family], F);
    HearSettled(F, c, sid, ev, now, m.next, m.maxCalls);
    ReplaceSettled(m, c.family, Hear(F, c, sid, ev, now, m.next, m.maxCalls).0, Listen(m, sid, ev, now));
  }

  lemma NewSettled()
    ensures AllSettled(NEW_FAMILY)
  {
  }

  lemma LineSettled(m: State, sid: nat, ev: Event, now: int)
    requires StateSettled(m)
    ensures StateSettled(Hears(m, sid, ev, now))
  {
    hide AllSettled, StateSettled, Listen, ResolveNetwork;
    if sid in m.sess && m.sess[sid].family != "" {
      var c0 := m.sess[sid];
      if !(c0.family == "auto" && (ev.kind == Unknown || ev.family == "")) {
        var c1 := if c0.family == "auto" then c0.(family := ev.family) else c0;
        var c2 := if ev.identity.restarted then c1.(net := "") else c1;
        FewerSettled(m, m.(sess := m.sess[sid := c1]));
        FewerSettled(m, m.(sess := m.sess[sid := c2]));
        var c3 := c2.(live := true);
        var m1 := m.(sess := m.sess[sid := c3], fam := if c3.family in m.fam then m.fam else m.fam[c3.family := NEW_FAMILY]);
        NewSettled();
        if c3.family in m.fam { FewerSettled(m, m1); } else { ReplaceSettled(m, c3.family, NEW_FAMILY, m1); }
        var m2 := if ev.identity.changed || c3.net == "" || c3.net !in m1.fam[c3.family].networks
                  then ResolveNetwork(m1, sid, ev.identity, now) else m1;
        ResolveSettled(m1, sid, ev.identity, now);
        ListenSettled(m2, sid, ev, now);
      }
    }
  }

  lemma {:induction false} CloseOfSettled(F: Family, sid: nat, n: nat)
    requires n <= |F.calls| && AllSettled(F)
    ensures AllSettled(CloseOf(F, sid, n))
    decreases n
  {
    hide AllSettled, CloseCall;
    if n > 0 {
      CloseOfSettled(F, sid, n - 1);
      CloseSettled(CloseOf(F, sid, n - 1), n - 1);
    }
  }

  lemma CloseSessionSettled(m: State, sid: nat)
    requires StateSettled(m)
    ensures StateSettled(CloseSession(m, sid))
  {
    hide AllSettled, StateSettled, CloseOf;
    if sid in m.sess && m.sess[sid].family in m.fam {
      var f := m.sess[sid].family;
      SettledIn(m, f);
      CloseOfSettled(m.fam[f], sid, |m.fam[f].calls|);
      ReplaceSettled(m, f, CloseOf(m.fam[f], sid, |m.fam[f].calls|), CloseSession(m, sid));
    }
  }

  lemma PruneSettled(m: State, sid: nat, kept: set<Id>)
    requires StateSettled(m)
    ensures StateSettled(Prune(m, sid, kept))
  {
    hide AllSettled, StateSettled, DeadNetworks;
    if sid in m.sess && m.sess[sid].family in m.fam {
      var f := m.sess[sid].family;
      var G := Pruned(m.fam[f], DeadNetworks(m, sid, f, kept));
      SettledIn(m, f);
      SameLists(m.fam[f], G);
      var r := Prune(m, sid, kept);
      if f in r.fam && r.fam[f] != m.fam[f] { ReplaceSettled(m, f, G, r); } else { FewerSettled(m, r); }
    }
  }

  lemma KeepSettled(F: Family, id: nat, on: bool)
    requires AllSettled(F)
    ensures AllSettled(F.(calls := SetKeep(F.calls, id, on)))
  {
    hide SetKeep;
    var s := SetKeep(F.calls, id, on);
    forall i | 0 <= i < |s| ensures Settles(s[i]) { SetKeepAt(F.calls, id, on, i); }
  }

  lemma {:induction false} SetKeepAt(s: seq<Call>, id: nat, on: bool, i: nat)
    requires i < |s|
    ensures SetKeep(s, id, on)[i] == s[i] || SetKeep(s, id, on)[i] == s[i].(keep := on)
  {
    if s[0].id != id && i > 0 { SetKeepAt(s[1..], id, on, i - 1); }
  }

  lemma StepSettled(m: State, op: Op)
    requires StateSettled(m)
    ensures StateSettled(Step(m, op))
  {
    hide AllSettled, StateSettled, Prune, CloseSession, Hears;
    match op
    case Begin(sid, protocol, family, freq, now, kept) =>
      CloseSessionSettled(m, sid);
      PruneSettled(CloseSession(m, sid), sid, kept);
      FewerSettled(Prune(CloseSession(m, sid), sid, kept), Step(m, op));
    case Tune(sid, freq, now) =>
      CloseSessionSettled(m, sid);
      PruneSettled(CloseSession(m, sid), sid, {});
      if sid in m.sess && m.sess[sid].freq != freq { FewerSettled(Prune(CloseSession(m, sid), sid, {}), Step(m, op)); }
    case Line(sid, ev, now) => LineSettled(m, sid, ev, now);
    case End(sid, now, kept) =>
      CloseSessionSettled(m, sid);
      var m1 := CloseSession(m, sid);
      var m2 := if sid in m1.sess then m1.(sess := m1.sess[sid := m1.sess[sid].(running := false, active := [])]) else m1;
      FewerSettled(m1, m2);
      PruneSettled(m2, sid, kept);
    case Remove(sid, now, kept) =>
      CloseSessionSettled(m, sid);
      PruneSettled(CloseSession(m, sid), sid, kept);
      FewerSettled(Prune(CloseSession(m, sid), sid, kept), Step(m, op));
    case Keep(family, id, on) =>
      if family in m.fam {
        SettledIn(m, family);
        KeepSettled(m.fam[family], id, on);
        ReplaceSettled(m, family, m.fam[family].(calls := SetKeep(m.fam[family].calls, id, on)), Step(m, op));
      }
    case Clear(now) => NoFamilies(Step(m, op));
  }

  lemma NoFamilies(m: State)
    requires m.fam == map[]
    ensures StateSettled(m)
  {
  }

  /** After any operations at all, a call ever listed, and not folded into a twin, is counted exactly if it is due. */
  lemma {:induction false} RunSettled(m: State, ops: seq<Op>)
    requires StateSettled(m)
    ensures StateSettled(Run(m, ops))
  {
    hide StateSettled, Step;
    if ops != [] {
      RunSettled(m, ops[..|ops| - 1]);
      StepSettled(Run(m, ops[..|ops| - 1]), ops[|ops| - 1]);
    }
  }
}
