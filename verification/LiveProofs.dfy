/** In every state the live model can reach, each counter equals its recount, unless a limit was ever hit. */
module LiveProofs {
  import opened Basics
  import opened Ordered
  import opened Counters
  import opened LiveModel
  import opened CountingProofs

  /** G follows from F by changes to listed calls: same ids in the same places, and the invariant holds. */
  ghost predicate Follows(F: Family, G: Family) {
    && FamilyOk(G) && G.past == F.past && SameIds(F.calls, G.calls)
    && (F.lossy ==> G.lossy)
    && (!G.lossy ==> G.networks.Keys == F.networks.Keys)
  }

  predicate SameIds(s: seq<Call>, t: seq<Call>) {
    |s| == |t| && forall i :: 0 <= i < |s| ==> s[i].id == t[i].id && s[i].session == t[i].session
  }

  lemma FollowsTwice(F: Family, G: Family, H: Family)
    requires Follows(F, G) && Follows(G, H)
    ensures Follows(F, H)
  {
    hide FamilyOk;
  }

  lemma FollowsItself(F: Family)
    requires FamilyOk(F)
    ensures Follows(F, F)
  {
    hide FamilyOk;
  }

  // ---- the call list, whatever the limits do ----

  lemma CountCallCalls(F: Family, i: nat, now: int)
    requires i < |F.calls| && !F.calls[i].counted && !F.calls[i].keyNoted
    ensures CountCall(F, i, now).calls == F.calls[i := Counted(F.calls[i])] && CountCall(F, i, now).past == F.past
    ensures F.lossy ==> CountCall(F, i, now).lossy
  {
    hide EnterParties, CountersOf, KeyCountersOf, IncAll, EncKey;
    var k := F.calls[i].(counted := true);
    var F1 := SetCall(F, i, k);
    var F2 := EnterParties(F1, k, now);
    EnterPartiesLossy(F1, k, now);
    var F3 := IncAll(F2, CountersOf(k));
    IncAllNotLossy(F2, CountersOf(k));
    NoteKeyIs(F3, i);
    NoteKeyNotLossy(F3, i);
  }

  lemma EnterRadioLossy(F: Family, id: Id, net: Id, now: int)
    ensures F.lossy ==> EnterRadio(F, id, net, now).lossy
  {
    hide Victim;
  }

  lemma EnterTgLossy(F: Family, id: Id, net: Id, now: int)
    ensures F.lossy ==> EnterTg(F, id, net, now).lossy
  {
    hide Victim;
  }

  lemma EnterPartiesLossy(F: Family, k: Call, now: int)
    ensures F.lossy ==> EnterParties(F, k, now).lossy
  {
    hide EnterRadio, EnterTg;
    EnterRadioLossy(F, k.src, k.net, now);
    var G := if k.src == "" then F else EnterRadio(F, k.src, k.net, now);
    EnterTgLossy(G, k.tgt, k.net, now);
    EnterRadioLossy(G, k.tgt, k.net, now);
  }

  lemma RefineCalls(F: Family, i: nat, k2: Call)
    requires i < |F.calls| && Refined(F.calls[i], k2) && CallOk(F.calls[i])
    ensures NoteKey(SetCall(F, i, k2), i).calls == F.calls[i := k2.(keyNoted := k2.counted && k2.kid != "")]
    ensures NoteKey(SetCall(F, i, k2), i).past == F.past
    ensures F.lossy ==> NoteKey(SetCall(F, i, k2), i).lossy
  {
    hide KeyCountersOf, IncAll, EncKey;
    NoteKeyNotLossy(SetCall(F, i, k2), i);
  }

  lemma SetPrivateCalls(F: Family, i: nat, now: int)
    requires i < |F.calls|
    ensures SetPrivate(F, i, now).calls == F.calls[i := F.calls[i].(priv := true)]
    ensures SetPrivate(F, i, now).past == F.past
    ensures F.lossy ==> SetPrivate(F, i, now).lossy
  {
    hide LeaveGroup, JoinPeers;
    var k := F.calls[i];
    if k.priv {
      assert F.calls[i := k.(priv := true)] == F.calls;
    } else {
      var G := SetCall(F, i, k.(priv := true));
      LeaveGroupKeeps(G, k);
      JoinPeersLossy(LeaveGroup(G, k), k, now);
    }
  }

  lemma JoinPeersLossy(F: Family, k: Call, now: int)
    ensures F.lossy ==> JoinPeers(F, k, now).lossy
  {
    hide Victim, Inc;
    var G := EnterRadio(F, k.tgt, k.net, now);
    IncLossy(G, Peer(k.src, k.tgt));
    IncLossy(Inc(G, Peer(k.src, k.tgt)), Peer(k.tgt, k.src));
  }

  // ---- steps on one call ----

  lemma CountFollows(F: Family, i: nat, now: int)
    requires i < |F.calls| && FamilyOk(F)
    requires var k := F.calls[i]; !k.counted && k.open && k.src != "" && k.tgt != ""
    ensures Follows(F, CountCall(F, i, now))
    ensures CountCall(F, i, now).calls == F.calls[i := Counted(F.calls[i])]
  {
    hide Balanced, NetworksExist, CountCall;
    assert F.calls[i] in F.calls;
    var G := CountCall(F, i, now);
    CountCallCalls(F, i, now);
    SetCallsOk(F, G, i, Counted(F.calls[i]));
    if !G.lossy {
      CountCallKeeps(F, i, now);
    }
  }

  lemma RefineFollows(F: Family, i: nat, k2: Call)
    requires i < |F.calls| && FamilyOk(F) && F.calls[i].open && Refined(F.calls[i], k2) && k2.session == F.calls[i].session
    ensures var G := NoteKey(SetCall(F, i, k2), i);
            Follows(F, G) && G.calls == F.calls[i := k2.(keyNoted := k2.counted && k2.kid != "")]
  {
    hide Balanced, NetworksExist, NoteKey;
    assert F.calls[i] in F.calls;
    var G := NoteKey(SetCall(F, i, k2), i);
    RefineCalls(F, i, k2);
    SetCallsOk(F, G, i, k2.(keyNoted := k2.counted && k2.kid != ""));
    if !G.lossy {
      RefineKeeps(F, i, k2);
    }
  }

  /** A refinement that names no new key. */
  lemma AdjustFollows(F: Family, i: nat, k2: Call)
    requires i < |F.calls| && FamilyOk(F) && F.calls[i].open && Refined(F.calls[i], k2) && k2.session == F.calls[i].session
    requires k2.kid == F.calls[i].kid
    ensures Follows(F, SetCall(F, i, k2))
  {
    assert F.calls[i] in F.calls;
    RefineFollows(F, i, k2);
    assert NoteKey(SetCall(F, i, k2), i) == SetCall(F, i, k2);
  }

  lemma PrivateFollows(F: Family, i: nat, now: int)
    requires i < |F.calls| && FamilyOk(F) && F.calls[i].open
    ensures Follows(F, SetPrivate(F, i, now))
    ensures SetPrivate(F, i, now).calls == F.calls[i := F.calls[i].(priv := true)]
  {
    hide Balanced, NetworksExist, SetPrivate;
    assert F.calls[i] in F.calls;
    var G := SetPrivate(F, i, now);
    SetPrivateCalls(F, i, now);
    SetCallsOk(F, G, i, F.calls[i].(priv := true));
    if !G.lossy {
      SetPrivateKeeps(F, i, now);
    }
  }

  lemma EncryptedFollows(F: Family, i: nat, ev: Event)
    requires i < |F.calls| && FamilyOk(F) && F.calls[i].open
    ensures var G := NoteEncrypted(F, i, ev); Follows(F, G)
    ensures var k := NoteEncrypted(F, i, ev).calls[i];
            k.open && k.src == F.calls[i].src && k.tgt == F.calls[i].tgt && k.counted == F.calls[i].counted
  {
    hide FamilyOk, NoteKey, Follows, NoteEncrypted, Keyed;
    var k2 := Keyed(F.calls[i], ev);
    NoteEncryptedIs(F, i, ev);
    RefineFollows(F, i, k2);
  }

  lemma NoteEncryptedIs(F: Family, i: nat, ev: Event)
    requires i < |F.calls|
    ensures NoteEncrypted(F, i, ev) == NoteKey(SetCall(F, i, Keyed(F.calls[i], ev)), i)
  {
    hide NoteKey;
  }

  /** The call, flagged encrypted, with the first key named. */
  function Keyed(k0: Call, ev: Event): (k2: Call)
    ensures k2.session == k0.session && Refined(k0, k2)
  {
    var k := k0.(encrypted := true);
    if k.kid == "" && ev.kid != "" then k.(kid := ev.kid, alg := if ev.alg != "" then ev.alg else k.alg) else k
  }

  /** A call not counted yet takes on ids and its stream's network. */
  lemma UncountedFollows(F: Family, i: nat, k2: Call)
    requires i < |F.calls| && FamilyOk(F) && !F.calls[i].counted && !k2.counted && !k2.keyNoted
    requires k2.id == F.calls[i].id && k2.session == F.calls[i].session
    requires !F.lossy ==> k2.net in F.networks
    ensures Follows(F, SetCall(F, i, k2))
  {
    hide Balanced, NetworksExist;
    SetCallsOk(F, SetCall(F, i, k2), i, k2);
    if !F.lossy {
      UncountedKeeps(F, i, k2);
    }
  }

  lemma EndCallLossy(F: Family, i: nat)
    requires i < |F.calls|
    ensures F.lossy ==> EndCall(F, i).lossy
  {
    var k := F.calls[i].(open := false);
    IncAllNotLossy(SetCall(F, i, k), ClosedCountersOf(k));
  }

  function Ended(k: Call): Call {
    if !k.counted && k.src == "" && k.tgt != "" && k.voice && !k.data then Counted(k).(open := false) else k.(open := false)
  }

  /** A voice call heard without its talker is counted when it ends. */
  predicate CountedAtEnd(k: Call) {
    !k.counted && k.src == "" && k.tgt != "" && k.voice && !k.data
  }

  lemma CloseCounted(F: Family, i: nat)
    requires i < |F.calls| && FamilyOk(F) && F.calls[i].open && CountedAtEnd(F.calls[i])
    ensures var k := F.calls[i];
            && Follows(F, EndCall(CountCall(F, i, k.last), i))
            && EndCall(CountCall(F, i, k.last), i).calls == F.calls[i := Ended(k)]
  {
    hide CountCall, EndCall, Balanced, NetworksExist;
    var k := F.calls[i];
    assert k in F.calls;
    var H := CountCall(F, i, k.last);
    var G := EndCall(H, i);
    CountCallCalls(F, i, k.last);
    EndCallLossy(H, i);
    SetCallsOk(F, G, i, Ended(k));
    if !G.lossy {
      CountCallKeeps(F, i, k.last);
      EndCallKeeps(H, i);
    }
  }

  lemma CloseUncounted(F: Family, i: nat)
    requires i < |F.calls| && FamilyOk(F) && F.calls[i].open && !CountedAtEnd(F.calls[i])
    ensures Follows(F, EndCall(F, i)) && EndCall(F, i).calls == F.calls[i := Ended(F.calls[i])]
  {
    hide EndCall, Balanced, NetworksExist;
    var k, G := F.calls[i], EndCall(F, i);
    assert k in F.calls;
    EndCallLossy(F, i);
    SetCallsOk(F, G, i, Ended(k));
    if !G.lossy { EndCallKeeps(F, i); }
  }

  lemma CloseFollows(F: Family, i: nat)
    requires i < |F.calls| && FamilyOk(F)
    ensures Follows(F, CloseCall(F, i))
    ensures CloseCall(F, i).calls == if F.calls[i].open then F.calls[i := Ended(F.calls[i])] else F.calls
  {
    hide CountCall, EndCall, FamilyOk, Follows, Ended;
    if !F.calls[i].open {
      FollowsItself(F);
    } else if CountedAtEnd(F.calls[i]) {
      CloseCounted(F, i);
    } else {
      CloseUncounted(F, i);
    }
  }

  // ---- Expire, roll-off, twins ----

  lemma FollowsCalls(F: Family, G: Family)
    requires Follows(F, G)
    ensures |G.calls| == |F.calls| && FamilyOk(G)
  {
    hide FamilyOk;
  }

  lemma {:induction false} ExpireFollows(F: Family, a: seq<(Id, nat)>, now: int)
    requires FamilyOk(F)
    ensures Follows(F, Expire(F, a, now).0)
    decreases |a|
  {
    hide Follows, FamilyOk, CloseCall, Fresh;
    if a == [] {
      FollowsItself(F);
    } else {
      var f := FindCall(F.calls, a[0].1, |F.calls|);
      if f.Some? && !Fresh(F.calls[f.value], now) {
        var G := CloseCall(F, f.value);
        CloseFollows(F, f.value);
        FollowsCalls(F, G);
        ExpireFollows(G, a[1..], now);
        FollowsTwice(F, G, Expire(G, a[1..], now).0);
      } else {
        ExpireFollows(F, a[1..], now);
      }
    }
  }

  /** The ids the family knows are at most n: the next call's id is new. */
  ghost predicate IdsUpTo(F: Family, n: nat) {
    (forall k :: k in F.calls ==> k.id <= n) && (forall k :: k in F.past ==> k.id <= n)
  }

  lemma FollowsIds(F: Family, G: Family, n: nat)
    requires Follows(F, G) && IdsUpTo(F, n)
    ensures IdsUpTo(G, n)
  {
    hide FamilyOk;
    forall k | k in G.calls ensures k.id <= n {
      var i :| 0 <= i < |G.calls| && G.calls[i] == k;
      assert F.calls[i] in F.calls;
    }
  }

  /** Taking call i off the list, into the past if it was closed. */
  lemma RemoveOk(F: Family, i: nat, G: Family)
    requires i < |F.calls| && FamilyOk(F) && !F.calls[i].open
    requires G == F.(calls := Without(F.calls, i), past := F.past + [F.calls[i]])
    ensures FamilyOk(G)
  {
    assert F.calls[i] in F.calls;
    assert forall k :: k in G.calls ==> k in F.calls;
    if !F.lossy {
      hide Shown, Contribution, Tally;
      forall q ensures Shown(G, q) == Tally(G.calls, q) + Tally(G.past, q) {
        TallyWithout(F.calls, i, q);
        TallyAppend(F.past, [F.calls[i]], q);
        ListsDoNotShow(F, G.calls, G.past, q);
        TallyOne(F.calls[i], q);
      }
    }
  }

  lemma TallyOne(k: Call, q: Query)
    ensures Tally([k], q) == Contribution(q, k)
  {
    assert [k][1..] == [];
  }

  lemma ListsDoNotShow(F: Family, calls: seq<Call>, past: seq<Call>, q: Query)
    ensures Shown(F.(calls := calls, past := past), q) == Shown(F, q)
  {
  }

  lemma DropOk(F: Family, i: nat)
    requires i < |F.calls| && FamilyOk(F) && !F.calls[i].counted
    ensures FamilyOk(F.(calls := Without(F.calls, i)))
  {
    var G := F.(calls := Without(F.calls, i));
    assert forall k :: k in G.calls ==> k in F.calls;
    if !F.lossy {
      hide Shown, Contribution, Tally;
      forall q ensures Shown(G, q) == Tally(G.calls, q) + Tally(G.past, q) {
        TallyWithout(F.calls, i, q);
        NotCounted(F.calls[i], q);
        ListsDoNotShow(F, G.calls, G.past, q);
      }
    }
  }

  lemma PushOk(F: Family, k: Call, n: nat)
    requires FamilyOk(F) && IdsUpTo(F, n) && k.id > n && !k.counted && !k.keyNoted
    requires !F.lossy ==> k.net in F.networks
    ensures FamilyOk(F.(calls := F.calls + [k])) && IdsUpTo(F.(calls := F.calls + [k]), k.id)
  {
    var G := F.(calls := F.calls + [k]);
    assert forall x :: x in G.calls ==> x in F.calls || x == k;
    assert forall i :: 0 <= i < |F.calls| ==> F.calls[i] in F.calls;
    if !F.lossy {
      hide Shown, Contribution, Tally;
      forall q ensures Shown(G, q) == Tally(G.calls, q) + Tally(G.past, q) {
        TallyAppend(F.calls, [k], q);
        TallyOne(k, q);
        NotCounted(k, q);
        ListsDoNotShow(F, G.calls, G.past, q);
      }
    }
  }

  /** G follows from F with calls opened, rolled off or folded; ids up to n. */
  ghost predicate Keeps(F: Family, G: Family, n: nat) {
    && FamilyOk(G) && IdsUpTo(G, n) && (F.lossy ==> G.lossy)
    && (!G.lossy ==> G.networks.Keys == F.networks.Keys)
  }

  lemma KeepsFollowing(F: Family, G: Family, H: Family, n: nat)
    requires Keeps(F, G, n) && Follows(G, H)
    ensures Keeps(F, H, n)
  {
    hide FamilyOk, SameIds, IdsUpTo;
    FollowsIds(G, H, n);
  }

  lemma KeepsTwice(F: Family, G: Family, H: Family, m: nat, n: nat)
    requires Keeps(F, G, m) && Keeps(G, H, n)
    ensures Keeps(F, H, n)
  {
    hide FamilyOk, IdsUpTo;
  }

  lemma KeepsItself(F: Family, n: nat)
    requires FamilyOk(F) && IdsUpTo(F, n)
    ensures Keeps(F, F, n)
  {
    hide FamilyOk, IdsUpTo;
  }

  lemma WithoutIds(F: Family, i: nat, past: seq<Call>, n: nat)
    requires i < |F.calls| && IdsUpTo(F, n) && (past == F.past || past == F.past + [F.calls[i]])
    ensures IdsUpTo(F.(calls := Without(F.calls, i), past := past), n)
  {
    assert forall k :: k in Without(F.calls, i) ==> k in F.calls;
  }

  lemma RollOffKeeps(F: Family, maxCalls: nat, n: nat)
    requires FamilyOk(F) && IdsUpTo(F, n)
    ensures Keeps(F, RollOff(F, maxCalls), n)
  {
    hide FamilyOk, IdsUpTo, CloseCall, AudioLess, Without, Follows;
    var i := FirstAudioLess(F.calls, 0);
    if AudioLess(F.calls) < maxCalls || i == |F.calls| {
      KeepsItself(F, n);
    } else {
      var G := CloseCall(F, i);
      CloseFollows(F, i);
      KeepsItself(F, n);
      KeepsFollowing(F, F, G, n);
      FollowsCalls(F, G);
      RemoveOk(G, i, RollOff(F, maxCalls));
      WithoutIds(G, i, G.past + [G.calls[i]], n);
    }
  }

  lemma OpenKeeps(F: Family, c: Ctx, sid: nat, slot: Id, now: int, n: nat, maxCalls: nat)
    requires FamilyOk(F) && IdsUpTo(F, n) && (!F.lossy ==> c.net in F.networks)
    ensures var G := OpenCall(F, c, sid, slot, now, n + 1, maxCalls).0;
            Keeps(F, G, n + 1) && G.calls[|G.calls| - 1] == NewCall(n + 1, sid, slot, c.net, now)
  {
    hide FamilyOk, IdsUpTo, CloseCall, Follows, RollOff;
    var prev := if slot != "" then FreshCall(c, F, slot, now) else None;
    var F1 := if prev.Some? then CloseCall(F, prev.value) else F;
    KeepsItself(F, n);
    if prev.Some? {
      CloseFollows(F, prev.value);
      KeepsFollowing(F, F, F1, n);
    }
    RollOffKeeps(F1, maxCalls, n);
    var F2 := RollOff(F1, maxCalls);
    KeepsTwice(F, F1, F2, n, n);
    PushOk(F2, NewCall(n + 1, sid, slot, c.net, now), n);
  }

  lemma JoinedRefines(twin: Call, dup: Call)
    ensures Refined(twin, Joined(twin, dup)) && Joined(twin, dup).session == twin.session
  {
  }

  lemma AdoptKeeps(F: Family, c: Ctx, i: nat, j: nat, slot: Id, n: nat)
    requires i < |F.calls| && j < |F.calls| && i != j && FamilyOk(F) && IdsUpTo(F, n)
    requires !F.calls[i].counted && F.calls[j].open
    ensures var r := AdoptTwin(F, c, i, j, slot);
            && Keeps(F, r.F, n) && r.F.calls[r.cur.value].open
            && r.F.calls[r.cur.value].src == F.calls[j].src && r.F.calls[r.cur.value].tgt == F.calls[j].tgt
  {
    hide FamilyOk, IdsUpTo, NoteKey, Joined, Refined;
    var dup, twin := F.calls[i], F.calls[j];
    var j' := if i < j then j - 1 else j;
    // Dropping the duplicate and joining the twin commute.
    var D := F.(calls := Without(F.calls, i));
    DropOk(F, i);
    WithoutIds(F, i, F.past, n);
    assert D.calls[j'] == twin;
    JoinedRefines(twin, dup);
    assert SetCall(D, j', Joined(twin, dup)).calls == Without(F.calls[j := Joined(twin, dup)], i);
    RefineFollows(D, j', Joined(twin, dup));
    KeepsItself(F, n);
    assert Keeps(F, D, n);
    KeepsFollowing(F, D, NoteKey(SetCall(D, j', Joined(twin, dup)), j'), n);
    JoinedSame(twin, dup);
  }

  lemma JoinedSame(twin: Call, dup: Call)
    ensures var k := Joined(twin, dup); k.open == twin.open && k.src == twin.src && k.tgt == twin.tgt
  {
  }

  // ---- one line ----

  lemma HeardFollows(F: Family, c: Ctx, i: nat, ev: Event)
    requires i < |F.calls| && FamilyOk(F) && F.calls[i].open && (!F.lossy ==> c.net in F.networks)
    ensures Follows(F, SetCall(F, i, Heard(F.calls[i], c, ev)))
  {
    hide Balanced, NetworksExist;
    assert F.calls[i] in F.calls;
    var k := F.calls[i];
    if k.counted {
      AdjustFollows(F, i, Heard(k, c, ev));
    } else {
      UncountedFollows(F, i, Heard(k, c, ev));
    }
  }

  /** Up to the point where the call may be counted, FoldEvent only refines call i. */
  lemma FoldFollows(F: Family, c: Ctx, i: nat, ev: Event, now: int)
    requires i < |F.calls| && FamilyOk(F) && F.calls[i].open && (!F.lossy ==> c.net in F.networks)
    ensures var F1 := SetCall(F, i, Heard(F.calls[i], c, ev));
            var F2 := if ev.enc then NoteEncrypted(F1, i, ev) else F1;
            var F3 := SetCall(F2, i, F2.calls[i].(last := now));
            var F4 := if ev.priv then SetPrivate(F3, i, now) else F3;
            Follows(F, F4) && F4.calls[i].open
  {
    hide FamilyOk, Follows, NoteEncrypted, SetPrivate, Heard;
    var F1 := SetCall(F, i, Heard(F.calls[i], c, ev));
    HeardFollows(F, c, i, ev);
    FollowsCalls(F, F1);
    HeardOpen(F.calls[i], c, ev);
    var F2 := if ev.enc then NoteEncrypted(F1, i, ev) else F1;
    if ev.enc { EncryptedFollows(F1, i, ev); } else { FollowsItself(F1); }
    FollowsCalls(F1, F2);
    FollowsTwice(F, F1, F2);
    var F3 := SetCall(F2, i, F2.calls[i].(last := now));
    AdjustFollows(F2, i, F2.calls[i].(last := now));
    FollowsCalls(F2, F3);
    FollowsTwice(F, F2, F3);
    var F4 := if ev.priv then SetPrivate(F3, i, now) else F3;
    if ev.priv {
      PrivateFollows(F3, i, now);
      FollowsTwice(F, F3, F4);
    }
  }

  lemma HeardOpen(k: Call, c: Ctx, ev: Event)
    ensures Heard(k, c, ev).open == k.open
  {
  }

  lemma FoldKeeps(F: Family, c: Ctx, i: nat, ev: Event, now: int, n: nat)
    requires i < |F.calls| && FamilyOk(F) && IdsUpTo(F, n) && F.calls[i].open && (!F.lossy ==> c.net in F.networks)
    ensures Keeps(F, FoldEvent(F, c, i, ev, now).0, n)
  {
    hide FamilyOk, Follows, NoteEncrypted, SetPrivate, Heard, Keeps, IdsUpTo, CountCall, AdoptTwin, IsTwin;
    FoldFollows(F, c, i, ev, now);
    var F1 := SetCall(F, i, Heard(F.calls[i], c, ev));
    var F2 := if ev.enc then NoteEncrypted(F1, i, ev) else F1;
    var F3 := SetCall(F2, i, F2.calls[i].(last := now));
    var F4 := if ev.priv then SetPrivate(F3, i, now) else F3;
    FollowsCalls(F, F4);
    KeepsItself(F, n);
    KeepsFollowing(F, F, F4, n);
    KeepsOk(F, F4, n);
    CountOrFold(F4, FoldedCtx(F, c, i, ev), i, ev.slot, now, n);
    var G := CountedOrFolded(F4, FoldedCtx(F, c, i, ev), i, ev.slot, now).0;
    KeepsTwice(F, F4, G, n, n);
    FoldEventIs(F, c, i, ev, now);
  }

  /** The stream's view after FoldEvent's own updates of it. */
  function FoldedCtx(F: Family, c: Ctx, i: nat, ev: Event): Ctx
    requires i < |F.calls|
  {
    var c1 := if F.calls[i].tgt == "" && ev.tgt != "" then c.(active := Put(c.active, Key(ev.slot, ev.tgt), F.calls[i].id)) else c;
    c1.(lastOnSlot := c1.lastOnSlot[ev.slot := F.calls[i].id])
  }

  function CountedOrFolded(F: Family, c: Ctx, i: nat, slot: Id, now: int): (r: (Family, Ctx))
    requires i < |F.calls|
  {
    var k := F.calls[i];
    if k.counted || k.src == "" || k.tgt == "" then (F, c)
    else
      var t := FindTwin(F.calls, k, now, |F.calls|);
      if t.None? then (CountCall(F, i, now), c)
      else
        var r := AdoptTwin(F, c, i, t.value, slot);
        if r.F.calls[r.cur.value].counted then (r.F, r.c) else (CountCall(r.F, r.cur.value, now), r.c)
  }

  lemma FoldEventIs(F: Family, c: Ctx, i: nat, ev: Event, now: int)
    requires i < |F.calls|
    ensures var F1 := SetCall(F, i, Heard(F.calls[i], c, ev));
            var F2 := if ev.enc then NoteEncrypted(F1, i, ev) else F1;
            var F3 := SetCall(F2, i, F2.calls[i].(last := now));
            var F4 := if ev.priv then SetPrivate(F3, i, now) else F3;
            FoldEvent(F, c, i, ev, now) == CountedOrFolded(F4, FoldedCtx(F, c, i, ev), i, ev.slot, now)
  {
    hide NoteEncrypted, SetPrivate, CountCall, AdoptTwin, FindTwin, Put;
  }

  lemma CountOrFold(F: Family, c: Ctx, i: nat, slot: Id, now: int, n: nat)
    requires i < |F.calls| && FamilyOk(F) && IdsUpTo(F, n) && F.calls[i].open
    ensures Keeps(F, CountedOrFolded(F, c, i, slot, now).0, n)
  {
    hide FamilyOk, Follows, IdsUpTo, CountCall, AdoptTwin, Keeps;
    var k := F.calls[i];
    KeepsItself(F, n);
    if !(k.counted || k.src == "" || k.tgt == "") {
      var t := FindTwin(F.calls, k, now, |F.calls|);
      if t.None? {
        CountFollows(F, i, now);
        KeepsFollowing(F, F, CountCall(F, i, now), n);
      } else {
        var r := AdoptTwin(F, c, i, t.value, slot);
        AdoptKeeps(F, c, i, t.value, slot, n);
        if !r.F.calls[r.cur.value].counted {
          KeepsOk(F, r.F, n);
          CountFollows(r.F, r.cur.value, now);
          KeepsFollowing(F, r.F, CountCall(r.F, r.cur.value, now), n);
        }
      }
    }
  }

  lemma KeepsOk(F: Family, G: Family, n: nat)
    requires Keeps(F, G, n)
    ensures FamilyOk(G) && IdsUpTo(G, n) && (F.lossy ==> G.lossy) && (!G.lossy ==> G.networks.Keys == F.networks.Keys)
  {
    hide FamilyOk, IdsUpTo;
  }

  lemma CallOfTargetFollows(F: Family, c: Ctx, ev: Event, now: int)
    requires FamilyOk(F)
    ensures var r := CallOfTarget(F, c, ev, now); Follows(F, r.F) && r.c.net == c.net
  {
    hide FamilyOk, Follows, FindAdoptable, Lookup, Put, Erase;
    FollowsItself(F);
    var ad := FindAdoptable(c.active, F, ev.slot, ev.tgt, ev.src, now);
    if ad.Some? {
      AdjustFollows(F, ad.value.1, F.calls[ad.value.1].(slot := ev.slot));
    }
  }

  lemma CurrentCallFollows(F: Family, c: Ctx, ev: Event, now: int)
    requires FamilyOk(F)
    ensures var r := CurrentCall(F, c, ev, now); Follows(F, r.F) && r.c.net == c.net
  {
    hide FamilyOk, Follows, CallOfTarget, FreshCall, CloseCall;
    FollowsItself(F);
    var r := if ev.tgt != "" then CallOfTarget(F, c, ev, now) else Found(F, c, FreshCall(c, F, ev.slot, now));
    if ev.tgt != "" { CallOfTargetFollows(F, c, ev, now); }
    FollowsCalls(F, r.F);
    if r.cur.Some? {
      CloseFollows(r.F, r.cur.value);
      FollowsTwice(F, r.F, CloseCall(r.F, r.cur.value));
    }
  }

  lemma RefineOnlyFollows(F: Family, c: Ctx, ev: Event, now: int)
    requires FamilyOk(F)
    ensures Follows(F, RefineOnly(F, c, ev, now))
  {
    hide FamilyOk, Follows, FreshCall, SetPrivate, NoteEncrypted;
    FollowsItself(F);
    var f := FreshCall(c, F, ev.slot, now);
    if f.Some? {
      var i := f.value;
      var F1 := if ev.priv then SetPrivate(F, i, now) else F;
      PrivateFollows(F, i, now);
      FollowsCalls(F, F1);
      var F2 := if ev.emergency then SetCall(F1, i, F1.calls[i].(emergency := true)) else F1;
      AdjustFollows(F1, i, F1.calls[i].(emergency := true));
      FollowsItself(F1);
      FollowsTwice(F, F1, F2);
      FollowsCalls(F, F2);
      EncryptedFollows(F2, i, ev);
      FollowsTwice(F, F2, NoteEncrypted(F2, i, ev));
    }
  }

  lemma EnterRadioFollows(F: Family, id: Id, net: Id, now: int)
    requires FamilyOk(F) && id != "" && (!F.lossy ==> net in F.networks)
    ensures Follows(F, EnterRadio(F, id, net, now))
  {
    hide NetworksExist, Shown, Tally;
    var G := EnterRadio(F, id, net, now);
    EnterRadioLossy(F, id, net, now);
    if !G.lossy {
      EnterRadioIs(F, id, net, now);
      EnterRadioKeeps(F, id, net, now);
    }
  }

  lemma FoundCall(F: Family, c: Ctx, ev: Event, now: int, n: nat)
    requires FamilyOk(F) && IdsUpTo(F, n)
    ensures var r := CurrentCall(F, c, ev, now);
            Keeps(F, r.F, n) && FamilyOk(r.F) && IdsUpTo(r.F, n) && r.c.net == c.net
  {
    hide FamilyOk, Follows, CurrentCall, Keeps, IdsUpTo;
    CurrentCallFollows(F, c, ev, now);
    KeepsItself(F, n);
    KeepsFollowing(F, F, CurrentCall(F, c, ev, now).F, n);
    KeepsOk(F, CurrentCall(F, c, ev, now).F, n);
  }

  /** The call part of a line: find or open its call, and fold the line into it. */
  lemma CallLineKeeps(F: Family, c: Ctx, sid: nat, ev: Event, now: int, n: nat, maxCalls: nat)
    requires FamilyOk(F) && IdsUpTo(F, n) && (!F.lossy ==> c.net in F.networks)
    ensures var r := CurrentCall(F, c, ev, now);
            if r.cur.Some? then Keeps(F, FoldEvent(r.F, r.c, r.cur.value, ev, now).0, n)
            else
              && Keeps(F, r.F, n)
              && var o := OpenCall(r.F, r.c, sid, ev.slot, now, n + 1, maxCalls);
                 Keeps(F, FoldEvent(o.0, o.1, |o.0.calls| - 1, ev, now).0, n + 1)
  {
    hide FamilyOk, IdsUpTo, CurrentCall, FoldEvent, OpenCall, Keeps, Follows;
    var r := CurrentCall(F, c, ev, now);
    FoundCall(F, c, ev, now, n);
    KeepsOk(F, r.F, n);
    if r.cur.Some? {
      FoldKeeps(r.F, r.c, r.cur.value, ev, now, n);
      KeepsTwice(F, r.F, FoldEvent(r.F, r.c, r.cur.value, ev, now).0, n, n);
    } else {
      var o := OpenCall(r.F, r.c, sid, ev.slot, now, n + 1, maxCalls);
      OpenKeeps(r.F, r.c, sid, ev.slot, now, n, maxCalls);
      KeepsOk(r.F, o.0, n + 1);
      KeepsTwice(F, r.F, o.0, n, n + 1);
      OpenCtx(r.F, r.c, sid, ev.slot, now, n + 1, maxCalls);
      FoldKeeps(o.0, o.1, |o.0.calls| - 1, ev, now, n + 1);
      KeepsTwice(F, o.0, FoldEvent(o.0, o.1, |o.0.calls| - 1, ev, now).0, n + 1, n + 1);
    }
  }

  lemma OpenCtx(F: Family, c: Ctx, sid: nat, slot: Id, now: int, id: nat, maxCalls: nat)
    ensures OpenCall(F, c, sid, slot, now, id, maxCalls).1.net == c.net
  {
  }

  lemma HearKeeps(F: Family, c: Ctx, sid: nat, ev: Event, now: int, n: nat, maxCalls: nat)
    requires FamilyOk(F) && IdsUpTo(F, n) && (!F.lossy ==> c.net in F.networks)
    ensures var r := Hear(F, c, sid, ev, now, n, maxCalls); Keeps(F, r.0, r.2)
  {
    hide FamilyOk, IdsUpTo, CurrentCall, FoldEvent, OpenCall, Keeps, Follows, Expire, RefineOnly, FreshCall, EnterRadio;
    var ex := Expire(F, c.active, now);
    var F1, c1 := ex.0, c.(active := ex.1);
    ExpireFollows(F, c.active, now);
    FollowsCalls(F, F1);
    KeepsItself(F, n);
    KeepsFollowing(F, F, F1, n);
    KeepsOk(F, F1, n);
    if ev.roster {
    } else if ev.kind == Sync && ev.terminator {
      var f := FreshCall(c1, F1, ev.slot, now);
      if f.Some? && F1.calls[f.value].txEnd == 0 {
        var k2 := F1.calls[f.value].(txEnd := F1.calls[f.value].last);
        AdjustFollows(F1, f.value, k2);
        KeepsFollowing(F, F1, SetCall(F1, f.value, k2), n);
      }
    } else if ev.kind == Unknown {
      RefineOnlyFollows(F1, c1, ev, now);
      KeepsFollowing(F, F1, RefineOnly(F1, c1, ev, now), n);
    } else {
      var F2 := if ev.src == "" then F1 else EnterRadio(F1, ev.src, c1.net, now);
      if ev.src != "" {
        EnterRadioFollows(F1, ev.src, c1.net, now);
        KeepsFollowing(F, F1, F2, n);
      }
      KeepsOk(F, F2, n);
      CallLineKeeps(F2, c1, sid, ev, now, n, maxCalls);
      var r := CurrentCall(F2, c1, ev, now);
      if r.cur.Some? {
        KeepsTwice(F, F2, FoldEvent(r.F, r.c, r.cur.value, ev, now).0, n, n);
      } else {
        KeepsTwice(F, F2, r.F, n, n);
        var o := OpenCall(r.F, r.c, sid, ev.slot, now, n + 1, maxCalls);
        KeepsTwice(F, F2, FoldEvent(o.0, o.1, |o.0.calls| - 1, ev, now).0, n, n + 1);
      }
    }
  }
}
