/** Where a stream's active calls point: in every reachable state an active entry's call is on the target the entry's
    key names, as long as the target's id has no bar in it. */
module LivePointers {
  import opened Basics
  import opened Counters
  import opened LiveModel
  import opened CountingProofs
  import opened LiveProofs
  import opened LiveCounted
  import opened LiveLists
  import opened LiveLines
  import opened LiveRuns

  /** The call has a target, and the key is that target's on some slot. */
  ghost predicate PointsAt(key: Id, k: Call) {
    k.tgt != "" && ('|' in k.tgt || exists slot :: key == Key(slot, k.tgt))
  }

  ghost predicate Pointed(s: seq<Call>, a: seq<(Id, nat)>) {
    forall e, k :: e in a && k in s && k.id == e.1 ==> PointsAt(e.0, k)
  }

  /** t came of s: every call of it is one of s, on its target if it had one, or is new, its id between n and n2. */
  ghost predicate Led(s: seq<Call>, t: seq<Call>, n: nat, n2: nat) {
    n <= n2 && forall l :: l in t ==> (n < l.id <= n2) || exists k :: k in s && k.id == l.id && (k.tgt == "" || k.tgt == l.tgt)
  }

  ghost predicate EntriesUpTo(a: seq<(Id, nat)>, n: nat) {
    forall e :: e in a ==> e.1 <= n
  }

  /** Every entry is an old one, or of a call of the list. */
  ghost predicate Entries(a: seq<(Id, nat)>, s: seq<Call>, b: seq<(Id, nat)>) {
    forall e :: e in b ==> e in a || exists k :: k in s && k.id == e.1
  }

  lemma LedPointed(s: seq<Call>, t: seq<Call>, n: nat, n2: nat, a: seq<(Id, nat)>)
    requires Led(s, t, n, n2) && Pointed(s, a) && EntriesUpTo(a, n)
    ensures Pointed(t, a) && EntriesUpTo(a, n2)
  {
    hide PointsAt;
    forall e, l | e in a && l in t && l.id == e.1 ensures PointsAt(e.0, l) {
      var k :| k in s && k.id == l.id && (k.tgt == "" || k.tgt == l.tgt);
      SameTarget(e.0, k, l);
    }
  }

  lemma SameTarget(key: Id, k: Call, l: Call)
    requires PointsAt(key, k) && (k.tgt == "" || k.tgt == l.tgt)
    ensures PointsAt(key, l)
  {
  }

  lemma LedTwice(s: seq<Call>, t: seq<Call>, u: seq<Call>, n: nat, n1: nat, n2: nat)
    requires Led(s, t, n, n1) && Led(t, u, n1, n2)
    ensures Led(s, u, n, n2)
  {
    forall l | l in u && !(n < l.id <= n2) ensures exists k :: k in s && k.id == l.id && (k.tgt == "" || k.tgt == l.tgt) {
      var k :| k in t && k.id == l.id && (k.tgt == "" || k.tgt == l.tgt);
      var k0 :| k0 in s && k0.id == k.id && (k0.tgt == "" || k0.tgt == k.tgt);
    }
  }

  lemma LedSame(s: seq<Call>, n: nat)
    ensures Led(s, s, n, n)
  {
  }

  /** The same calls in their places, with the same targets. */
  lemma LedPlaces(s: seq<Call>, t: seq<Call>, n: nat)
    requires |t| == |s| && forall i :: 0 <= i < |s| ==> t[i].id == s[i].id && (s[i].tgt == "" || s[i].tgt == t[i].tgt)
    ensures Led(s, t, n, n)
  {
    forall l | l in t ensures exists k :: k in s && k.id == l.id && (k.tgt == "" || k.tgt == l.tgt) {
      var i :| 0 <= i < |t| && t[i] == l;
      assert s[i] in s;
    }
  }

  lemma LedExpired(F: Family, a: seq<(Id, nat)>, now: int, n: nat)
    ensures Led(F.calls, Expire(F, a, now).0.calls, n, n)
    ensures forall e :: e in Expire(F, a, now).1 ==> e in a
  {
    hide Expire, Listed, Fresh, FreshOnes;
    ExpireCloses(F, a, now);
    FreshOnesIn(a, F.calls, now);
    LedPlaces(F.calls, Expire(F, a, now).0.calls, n);
  }

  lemma {:induction false} FreshOnesIn(a: seq<(Id, nat)>, calls: seq<Call>, now: int)
    ensures forall e :: e in FreshOnes(a, calls, now) ==> e in a
  {
    hide EntryFresh;
    if a != [] { FreshOnesIn(a[1..], calls, now); }
  }

  lemma LedTold(s: seq<Call>, i: nat, ev: Event, net: Id, now: int, t: seq<Call>, fate: Fate, n: nat)
    requires ToldAt(s, i, ev, net, now, t, fate)
    ensures Led(s, t, n, n)
  {
    var l :| Told(s[i], ev, net, now, l)
         && match fate
            case Stayed => |t| == |s| && (forall j :: 0 <= j < |s| && j != i ==> t[j] == s[j])
                           && t[i] == l.(counted := t[i].counted, keyNoted := t[i].keyNoted)
            case Joined(j) =>
              && j < |s| && j != i && |t| == |s| - 1 && TookOver(s[j], l, t[if j < i then j else j - 1])
              && forall m :: 0 <= m < |s| && m != i && m != j ==> t[if m < i then m else m - 1] == s[m];
    if fate.Stayed? {
      LedPlaces(s, t, n);
    } else {
      hide Told;
      forall x | x in t ensures exists k :: k in s && k.id == x.id && (k.tgt == "" || k.tgt == x.tgt) {
        var m :| 0 <= m < |t| && t[m] == x;
        assert s[if m < i then m else m + 1] in s;
      }
    }
  }

  lemma LedSlotted(s: seq<Call>, i: nat, slot: Id, t: seq<Call>, n: nat)
    requires Slotted(s, i, slot, t)
    ensures Led(s, t, n, n)
  {
    LedPlaces(s, t, n);
  }

  lemma SlottedPlaces(s: seq<Call>, i: nat, slot: Id, t: seq<Call>)
    requires Slotted(s, i, slot, t)
    ensures i < |t| == |s| && forall j :: 0 <= j < |s| ==> t[j].id == s[j].id && t[j].tgt == s[j].tgt
  {
  }

  lemma LedNone(s: seq<Call>, c: Ctx, ev: Event, now: int, t: seq<Call>, n: nat)
    requires ContinuesNone(s, c, ev, now, t)
    ensures Led(s, t, n, n)
  {
    hide Reached, Live, Compatible;
    if t == s {
      LedSame(s, n);
    } else {
      var i: nat, u: seq<Call> :| Reached(s, c, ev, i) && Slotted(s, i, ev.slot, u) && t == u[i := t[i]] && EndsAs(u[i], t[i]);
      LedPlaces(s, t, n);
    }
  }

  lemma LedOpened(s: seq<Call>, c: Ctx, slot: Id, now: int, t: seq<Call>, maxCalls: nat, u: seq<Call>, k: Call, n: nat)
    requires SlotEnded(s, c, slot, now, t) && RoomMade(t, maxCalls, u) && k.id == n + 1
    ensures Led(s, u + [k], n, n + 1)
  {
    hide Latest, Live, AudioLess;
    LedPlaces(s, t, n);
    forall l | l in u ensures l in t { }
  }

  // ---- the active calls ----

  lemma {:induction false} PutEntries(a: seq<(Id, nat)>, key: Id, id: nat)
    ensures forall e :: e in Put(a, key, id) ==> e in a || e == (key, id)
  {
    if a != [] && a[0].0 != key {
      PutEntries(a[1..], key, id);
    }
  }

  lemma {:induction false} EraseEntries(a: seq<(Id, nat)>, key: Id)
    ensures forall e :: e in Erase(a, key) ==> e in a
  {
    if a != [] && a[0].0 != key { EraseEntries(a[1..], key); }
  }

  ghost predicate OneEach(s: seq<Call>) {
    forall i, j :: 0 <= i < j < |s| ==> s[i].id != s[j].id
  }

  lemma OnlyOne(s: seq<Call>, i: nat, k: Call)
    requires OneEach(s) && i < |s| && k in s && k.id == s[i].id
    ensures k == s[i]
  {
  }

  lemma {:induction false} LastBarOf(slot: Id, tgt: Id, n: nat)
    requires '|' !in tgt && |slot| < n <= |slot + "|" + tgt|
    ensures LastBar(slot + "|" + tgt, n) == |slot|
  {
    var key := slot + "|" + tgt;
    if n > |slot| + 1 {
      assert key[n - 1] == tgt[n - 2 - |slot|];
      LastBarOf(slot, tgt, n - 1);
    }
  }

  /** A key that names the line's target belongs to a call on it. */
  lemma NamedTarget(key: Id, k: Call, ev: Event)
    requires PointsAt(key, k) && Names(key, ev) && '|' !in k.tgt
    ensures k.tgt == ev.tgt || '|' in ev.tgt
  {
    var slot :| key == Key(slot, k.tgt);
    LastBarOf(slot, k.tgt, |key|);
    assert key[|slot| + 1..] == k.tgt;
    if key == Key(ev.slot, ev.tgt) && '|' !in ev.tgt {
      LastBarOf(ev.slot, ev.tgt, |key|);
      assert key[|ev.slot| + 1..] == ev.tgt;
    }
  }

  // ---- a line's call and the entries ----

  /** An entry is an old one, or of a call that an active entry naming the line's target is of, under the line's key. */
  ghost predicate FoundEntry(s: seq<Call>, a: seq<(Id, nat)>, ev: Event, e: (Id, nat)) {
    e in a || (ev.tgt != "" && e.0 == Key(ev.slot, ev.tgt)
               && exists i, m :: 0 <= i < |s| && 0 <= m < |a| && s[i].id == e.1 && FindCall(s, a[m].1, |s|) == Some(i)
                                 && Names(a[m].0, ev))
  }

  lemma TargetEntries(F: Family, c: Ctx, ev: Event, now: int)
    requires ev.tgt != ""
    ensures forall e :: e in CallOfTarget(F, c, ev, now).c.active ==> FoundEntry(F.calls, c.active, ev, e)
  {
    hide FindAdoptable, Adoptable, Lookup, FindCall, Names, Key, Put, Erase, FreshCall;
    var ad := FindAdoptable(c.active, F, ev.slot, ev.tgt, ev.src, now);
    if ad.Some? {
      var m := AdoptableNames(c.active, F, ev.slot, ev.tgt, ev.src, now);
      AdoptableIs(c.active[m], F, ev, now);
      EraseEntries(c.active, ad.value.0);
      PutEntries(Erase(c.active, ad.value.0), Key(ev.slot, ev.tgt), F.calls[ad.value.1].id);
    }
  }

  /** Finding the line's call: entries are old ones, or the found call's under the line's key. */
  lemma FoundEntries(F: Family, c: Ctx, ev: Event, now: int)
    ensures forall e :: e in CurrentCall(F, c, ev, now).c.active ==> FoundEntry(F.calls, c.active, ev, e)
  {
    hide CallOfTarget, FreshCall, CloseCall, VoiceLine, FoundEntry;
    if ev.tgt != "" { TargetEntries(F, c, ev, now); } else { OldEntries(F.calls, c.active, ev); }
  }

  lemma OldEntries(s: seq<Call>, a: seq<(Id, nat)>, ev: Event)
    ensures forall e :: e in a ==> FoundEntry(s, a, ev, e)
  {
  }

  lemma FoundPointed(F: Family, c: Ctx, ev: Event, now: int)
    requires OneEach(F.calls) && Pointed(F.calls, c.active)
    ensures var r := CurrentCall(F, c, ev, now); Pointed(F.calls, r.c.active) && Entries(c.active, F.calls, r.c.active)
  {
    hide PointsAt, CurrentCall, Names, Key, FindCall;
    FoundEntries(F, c, ev, now);
    var r := CurrentCall(F, c, ev, now);
    assert forall e :: e in r.c.active ==> FoundEntry(F.calls, c.active, ev, e);
    forall e, k | e in r.c.active && k in F.calls && k.id == e.1 ensures PointsAt(e.0, k) {
      if e !in c.active {
        var i, m :| 0 <= i < |F.calls| && 0 <= m < |c.active| && F.calls[i].id == e.1
                    && FindCall(F.calls, c.active[m].1, |F.calls|) == Some(i) && Names(c.active[m].0, ev);
        OnlyOne(F.calls, i, k);
        assert c.active[m] in c.active && F.calls[i] in F.calls;
        assert PointsAt(c.active[m].0, k);
        NamedPointsAt(c.active[m].0, k, ev);
      }
    }
    forall e | e in r.c.active && e !in c.active ensures exists k :: k in F.calls && k.id == e.1 {
      var i, m :| 0 <= i < |F.calls| && 0 <= m < |c.active| && F.calls[i].id == e.1
                  && FindCall(F.calls, c.active[m].1, |F.calls|) == Some(i) && Names(c.active[m].0, ev);
      assert F.calls[i] in F.calls;
    }
  }

  /** Under the line's own key it is on the line's target, or some id has a bar. */
  lemma NamedPointsAt(key: Id, k: Call, ev: Event)
    requires PointsAt(key, k) && Names(key, ev)
    ensures PointsAt(Key(ev.slot, ev.tgt), k)
  {
    if '|' !in k.tgt {
      var slot :| key == Key(slot, k.tgt);
      LastBarOf(slot, k.tgt, |key|);
      assert key[|slot| + 1..] == k.tgt;
      if key != Key(ev.slot, ev.tgt) { assert k.tgt == ev.tgt; }
    }
  }

  /** A call that took on the line's target, and its entry. */
  lemma ToldPointed(s: seq<Call>, a: seq<(Id, nat)>, i: nat, ev: Event, l: Call, b: seq<(Id, nat)>)
    requires i < |s| && OneEach(s) && Pointed(s, a) && l.id == s[i].id
    requires l.tgt == if s[i].tgt == "" then ev.tgt else s[i].tgt
    requires forall e :: e in b ==> e in a || (s[i].tgt == "" && ev.tgt != "" && e == (Key(ev.slot, ev.tgt), l.id))
    ensures Pointed(s[i := l], b)
  {
    hide PointsAt;
    var t := s[i := l];
    forall e, k | e in b && k in t && k.id == e.1 ensures PointsAt(e.0, k) {
      var j :| 0 <= j < |t| && t[j] == k;
      assert s[i] in s;
      if e in a {
        assert s[j] in s;
        if j == i { SameTarget(e.0, s[i], l); }
      } else {
        assert j == i;
        KeyPoints(ev, l);
      }
    }
  }

  lemma KeyPoints(ev: Event, l: Call)
    requires l.tgt == ev.tgt != ""
    ensures PointsAt(Key(ev.slot, ev.tgt), l)
  {
  }

  lemma CtxEntries(F: Family, c: Ctx, i: nat, ev: Event)
    requires i < |F.calls|
    ensures forall e :: e in FoldedCtx(F, c, i, ev).active ==>
              e in c.active || (F.calls[i].tgt == "" && ev.tgt != "" && e == (Key(ev.slot, ev.tgt), F.calls[i].id))
  {
    hide Put, Key;
    PutEntries(c.active, Key(ev.slot, ev.tgt), F.calls[i].id);
  }

  /** Folding the duplicate at i into its twin at j. */
  lemma RepointedPointed(s: seq<Call>, a: seq<(Id, nat)>, i: nat, j: nat, t: seq<Call>, b: seq<(Id, nat)>)
    requires i < |s| && j < |s| && i != j && OneEach(s) && Pointed(s, a) && s[j].tgt == s[i].tgt
    requires |t| == |s| - 1 && forall m :: 0 <= m < |s| && m != i ==>
               var k := t[if m < i then m else m - 1]; k.id == s[m].id && k.tgt == s[m].tgt
    requires |b| == |a| && forall m :: 0 <= m < |a| ==> b[m] == (a[m].0, if a[m].1 == s[i].id then s[j].id else a[m].1)
    ensures Pointed(t, b) && Entries(a, t, b)
  {
    hide PointsAt;
    forall e, k | e in b && k in t && k.id == e.1 ensures PointsAt(e.0, k) {
      var m :| 0 <= m < |b| && b[m] == e;
      var p :| 0 <= p < |t| && t[p] == k;
      var q := if p < i then p else p + 1;
      assert k.id == s[q].id && k.tgt == s[q].tgt && s[q] in s && s[i] in s && a[m] in a;
      if a[m].1 == s[i].id {
        assert PointsAt(e.0, s[i]);
        assert q == j;
        SameTarget(e.0, s[i], k) by { assert PointsAt(e.0, s[i]); }
      } else {
        SameTarget(e.0, s[q], k);
      }
    }
    forall e | e in b && e !in a ensures exists k :: k in t && k.id == e.1 {
      var m :| 0 <= m < |b| && b[m] == e;
      assert a[m].1 == s[i].id by { assert a[m] in a; }
      assert t[if j < i then j else j - 1] in t;
    }
  }

  lemma BranchCtx(F: Family, c: Ctx, i: nat, slot: Id, now: int)
    requires i < |F.calls|
    ensures var k, d := F.calls[i], CountedOrFolded(F, c, i, slot, now).1;
            var t := FindTwin(F.calls, k, now, |F.calls|);
            if k.counted || k.src == "" || k.tgt == "" || t.None? then d == c
            else i != t.value ==> d == AdoptTwin(F, c, i, t.value, slot).c
  {
    hide CountCall, AdoptTwin, FindTwin, IsTwin;
  }

  lemma CountPointed(F: Family, c: Ctx, i: nat, slot: Id, now: int)
    requires i < |F.calls| && OneEach(F.calls) && Pointed(F.calls, c.active)
    ensures var r := CountedOrFolded(F, c, i, slot, now); Pointed(r.0.calls, r.1.active) && Entries(c.active, r.0.calls, r.1.active)
  {
    hide CountCall, AdoptTwin, CountedOrFolded, PointsAt, FindTwin, Pointed, OneEach, Alike;
    var k := F.calls[i];
    Branches(F, c, i, slot, now);
    BranchCtx(F, c, i, slot, now);
    var t := FindTwin(F.calls, k, now, |F.calls|);
    if !(k.counted || k.src == "" || k.tgt == "") {
      if t.None? {
        CountCallAt(F, i, now);
        SamePointed(F.calls, CountCall(F, i, now).calls, c.active);
      } else {
        TwinApart(F.calls[t.value], k, now);
        FoldPointed(F, c, i, t.value, slot, now);
      }
    }
  }

  lemma TwinApart(o: Call, k: Call, now: int)
    requires IsTwin(o, k, now)
    ensures o != k && o.tgt == k.tgt
  {
  }

  lemma SamePointed(s: seq<Call>, t: seq<Call>, a: seq<(Id, nat)>)
    requires Pointed(s, a) && |t| == |s| && forall i :: 0 <= i < |s| ==> t[i].id == s[i].id && t[i].tgt == s[i].tgt
    ensures Pointed(t, a)
  {
    hide PointsAt;
    forall e, k | e in a && k in t && k.id == e.1 ensures PointsAt(e.0, k) {
      var i :| 0 <= i < |t| && t[i] == k;
      assert s[i] in s;
      SameTarget(e.0, s[i], k);
    }
  }

  lemma FoldPointed(F: Family, c: Ctx, i: nat, j: nat, slot: Id, now: int)
    requires i < |F.calls| && j < |F.calls| && i != j && F.calls[j].tgt == F.calls[i].tgt
    requires OneEach(F.calls) && Pointed(F.calls, c.active)
    ensures var r := AdoptTwin(F, c, i, j, slot);
            var G := if r.F.calls[r.cur.value].counted then r.F else CountCall(r.F, r.cur.value, now);
            Pointed(G.calls, r.c.active) && Entries(c.active, G.calls, r.c.active)
  {
    hide AdoptTwin, CountCall, Pointed, OneEach, PointsAt;
    AdoptIs(F, c, i, j, slot);
    var r := AdoptTwin(F, c, i, j, slot);
    var G := if r.F.calls[r.cur.value].counted then r.F else CountCall(r.F, r.cur.value, now);
    FoldIs(F, c, i, j, slot, now);
    FoldTargets(F, G, i, j);
    RepointedPointed(F.calls, c.active, i, j, G.calls, r.c.active);
  }

  lemma FoldTargets(F: Family, G: Family, i: nat, j: nat)
    requires i < |F.calls| && j < |F.calls| && i != j && |G.calls| == |F.calls| - 1
    requires TookOver(F.calls[j], F.calls[i], G.calls[if j < i then j else j - 1])
    requires forall m :: 0 <= m < |F.calls| && m != i && m != j ==> G.calls[if m < i then m else m - 1] == F.calls[m]
    ensures forall m :: 0 <= m < |F.calls| && m != i ==>
              var k := G.calls[if m < i then m else m - 1]; k.id == F.calls[m].id && k.tgt == F.calls[m].tgt
  {
  }

  /** Folding the line into its call keeps the entries right. */
  lemma FoldEventPointed(F: Family, c: Ctx, i: nat, ev: Event, now: int)
    requires i < |F.calls| && OneEach(F.calls) && Pointed(F.calls, c.active)
    ensures var r := FoldEvent(F, c, i, ev, now);
            Pointed(r.0.calls, r.1.active) && EntriesBut(c.active, F.calls[i].id, r.0.calls, r.1.active)
  {
    hide NoteEncrypted, SetPrivate, Heard, CountedOrFolded, FoldEvent, FoldedCtx, Told, Pointed, Entries, OneEach;
    FoldedTold(F, c, i, ev, now);
    var F1 := SetCall(F, i, Heard(F.calls[i], c, ev));
    var F2 := if ev.enc then NoteEncrypted(F1, i, ev) else F1;
    var F3 := SetCall(F2, i, F2.calls[i].(last := now));
    var F4 := if ev.priv then SetPrivate(F3, i, now) else F3;
    FoldEventIs(F, c, i, ev, now);
    var d := FoldedCtx(F, c, i, ev);
    CtxEntries(F, c, i, ev);
    ToldTarget(F.calls[i], ev, c.net, now, F4.calls[i]);
    ToldPointed(F.calls, c.active, i, ev, F4.calls[i], d.active);
    SameOnes(F.calls, F4.calls);
    CountPointed(F4, d, i, ev.slot, now);
    EntriesOn(c.active, F.calls[i].id, d.active, CountedOrFolded(F4, d, i, ev.slot, now).0.calls,
              CountedOrFolded(F4, d, i, ev.slot, now).1.active);
  }

  lemma ToldTarget(k: Call, ev: Event, net: Id, now: int, l: Call)
    requires Told(k, ev, net, now, l)
    ensures l.id == k.id && l.tgt == if k.tgt == "" then ev.tgt else k.tgt
  {
  }

  lemma SameOnes(s: seq<Call>, t: seq<Call>)
    requires OneEach(s) && |t| == |s| && forall i :: 0 <= i < |s| ==> t[i].id == s[i].id
    ensures OneEach(t)
  {
  }

  /** Every entry is an old one, of the call with the id, or of a call of the list. */
  ghost predicate EntriesBut(a: seq<(Id, nat)>, id: nat, s: seq<Call>, b: seq<(Id, nat)>) {
    forall e :: e in b ==> e in a || e.1 == id || exists k :: k in s && k.id == e.1
  }

  lemma EntriesOn(a: seq<(Id, nat)>, id: nat, d: seq<(Id, nat)>, s: seq<Call>, b: seq<(Id, nat)>)
    requires Entries(d, s, b) && forall e :: e in d ==> e in a || e.1 == id
    ensures EntriesBut(a, id, s, b)
  {
  }

  // ---- a whole line ----

  /** What a line leaves: the family's calls came of those before, the entries point where their keys name, and every
      entry is an old one, of a call there was, or of the new one. */
  ghost predicate LinePoints(s: seq<Call>, a: seq<(Id, nat)>, n: nat, t: seq<Call>, b: seq<(Id, nat)>, n2: nat) {
    && Led(s, t, n, n2) && Pointed(t, b)
    && forall e :: e in b ==> e in a || n < e.1 <= n2 || exists k :: k in s && k.id == e.1
  }

  lemma NoCallPoints(s: seq<Call>, a: seq<(Id, nat)>, n: nat, t: seq<Call>, b: seq<(Id, nat)>)
    requires Led(s, t, n, n) && Pointed(s, a) && EntriesUpTo(a, n) && forall e :: e in b ==> e in a
    ensures LinePoints(s, a, n, t, b, n)
  {
    hide PointsAt;
    LedPointed(s, t, n, n, a);
  }

  lemma PointsFrom(s: seq<Call>, a: seq<(Id, nat)>, n: nat, u: seq<Call>, b: seq<(Id, nat)>, t: seq<Call>, d: seq<(Id, nat)>, n2: nat)
    requires Led(s, u, n, n) && (forall e :: e in b ==> e in a) && LinePoints(u, b, n, t, d, n2)
    ensures LinePoints(s, a, n, t, d, n2)
  {
    hide PointsAt, Pointed;
    LedTwice(s, u, t, n, n, n2);
    forall e | e in d && e !in a && !(n < e.1 <= n2) ensures exists k :: k in s && k.id == e.1 {
      if k :| k in u && k.id == e.1 {
        var k0 :| k0 in s && k0.id == k.id;
      }
    }
  }

  lemma FoldPoints(s: seq<Call>, a: seq<(Id, nat)>, n: nat, u: seq<Call>, b: seq<(Id, nat)>, n2: nat, id: nat,
                   t: seq<Call>, d: seq<(Id, nat)>)
    requires Led(s, u, n, n2) && Led(u, t, n2, n2) && Entries(a, s, b) && Pointed(t, d) && EntriesBut(b, id, t, d)
    requires exists k :: k in u && k.id == id
    ensures LinePoints(s, a, n, t, d, n2)
  {
    hide Pointed;
    LedTwice(s, u, t, n, n2, n2);
    forall e | e in d && e !in a && !(n < e.1 <= n2) ensures exists k :: k in s && k.id == e.1 {
      if e in b {
      } else if e.1 == id {
        var k :| k in u && k.id == id;
        var k0 :| k0 in s && k0.id == k.id;
      } else {
        var k :| k in t && k.id == e.1;
        var k0 :| k0 in s && k0.id == k.id;
      }
    }
  }

  /** The call part of a line. */
  lemma CallPoints(F: Family, c: Ctx, sid: nat, ev: Event, now: int, n: nat, maxCalls: nat)
    requires OneEach(F.calls) && Pointed(F.calls, c.active) && EntriesUpTo(c.active, n) && forall k :: k in F.calls ==> k.id <= n
    ensures var r := CurrentCall(F, c, ev, now);
            if r.cur.Some? then
              var g := FoldEvent(r.F, r.c, r.cur.value, ev, now);
              LinePoints(F.calls, c.active, n, g.0.calls, g.1.active, n)
            else
              var o := OpenCall(r.F, r.c, sid, ev.slot, now, n + 1, maxCalls);
              var g := FoldEvent(o.0, o.1, |o.0.calls| - 1, ev, now);
              && LinePoints(F.calls, c.active, n, r.F.calls, r.c.active, n)
              && LinePoints(F.calls, c.active, n, g.0.calls, g.1.active, n + 1)
  {
    hide CurrentCall, FoldEvent, OpenCall, Pointed, Led, EntriesUpTo, OneEach, LinePoints, Continues, ContinuesNone, ToldAt;
    var r := CurrentCall(F, c, ev, now);
    CurrentIs(F, c, ev, now);
    FoundPointed(F, c, ev, now);
    if r.cur.Some? {
      ContinuedPoints(F.calls, c, ev, now, r, n);
      FoldEventPointed(r.F, r.c, r.cur.value, ev, now);
      var g := FoldEvent(r.F, r.c, r.cur.value, ev, now);
      var fate := FoldTells(r.F, r.c, r.cur.value, ev, now);
      LedTold(r.F.calls, r.cur.value, ev, r.c.net, now, g.0.calls, fate, n);
      assert r.F.calls[r.cur.value] in r.F.calls;
      FoldPoints(F.calls, c.active, n, r.F.calls, r.c.active, n, r.F.calls[r.cur.value].id, g.0.calls, g.1.active);
    } else {
      NonePoints(F, c, ev, now, r, n);
      OpenedPoints(F.calls, c.active, r.F, r.c, sid, ev, now, n, maxCalls);
    }
  }

  lemma ContinuedPoints(s: seq<Call>, c: Ctx, ev: Event, now: int, r: Found, n: nat)
    requires r.cur.Some? && Continues(s, c, ev, now, r.cur.value, r.F.calls)
    requires OneEach(s) && Pointed(s, r.c.active)
    ensures r.cur.value < |r.F.calls| && Led(s, r.F.calls, n, n) && OneEach(r.F.calls) && Pointed(r.F.calls, r.c.active)
  {
    hide Reached, Live, Compatible, Pointed, Slotted, Led, OneEach;
    LedSlotted(s, r.cur.value, ev.slot, r.F.calls, n);
    SlottedPlaces(s, r.cur.value, ev.slot, r.F.calls);
    SamePointed(s, r.F.calls, r.c.active);
    SameOnes(s, r.F.calls);
  }

  lemma NonePoints(F: Family, c: Ctx, ev: Event, now: int, r: Found, n: nat)
    requires r.F.calls == F.calls || ContinuesNone(F.calls, c, ev, now, r.F.calls)
    requires OneEach(F.calls) && Pointed(F.calls, r.c.active) && Entries(c.active, F.calls, r.c.active)
    requires EntriesUpTo(c.active, n) && forall k :: k in F.calls ==> k.id <= n
    ensures Led(F.calls, r.F.calls, n, n) && OneEach(r.F.calls) && Pointed(r.F.calls, r.c.active)
    ensures EntriesUpTo(r.c.active, n) && (forall k :: k in r.F.calls ==> k.id <= n)
    ensures LinePoints(F.calls, c.active, n, r.F.calls, r.c.active, n)
  {
    hide PointsAt, Reached, Live, Compatible;
    LedNone(F.calls, c, ev, now, r.F.calls, n);
    NoneSame(F.calls, c, ev, now, r.F.calls);
    SamePointed(F.calls, r.F.calls, r.c.active);
    SameOnes(F.calls, r.F.calls);
  }

  lemma NoneSame(s: seq<Call>, c: Ctx, ev: Event, now: int, t: seq<Call>)
    requires t == s || ContinuesNone(s, c, ev, now, t)
    ensures |t| == |s| && forall i :: 0 <= i < |s| ==> t[i].id == s[i].id && t[i].tgt == s[i].tgt
  {
    hide Reached, Live, Compatible;
  }

  lemma OpenedPoints(s: seq<Call>, a: seq<(Id, nat)>, F: Family, c: Ctx, sid: nat, ev: Event, now: int, n: nat, maxCalls: nat)
    requires Led(s, F.calls, n, n) && OneEach(F.calls) && Pointed(F.calls, c.active) && Entries(a, s, c.active)
    requires EntriesUpTo(c.active, n) && forall k :: k in F.calls ==> k.id <= n
    ensures var o := OpenCall(F, c, sid, ev.slot, now, n + 1, maxCalls);
            var g := FoldEvent(o.0, o.1, |o.0.calls| - 1, ev, now);
            LinePoints(s, a, n, g.0.calls, g.1.active, n + 1)
  {
    hide FoldEvent, OpenCall, Pointed, Led, OneEach, EntriesUpTo, LinePoints, SlotEnded, RoomMade, Entries, EntriesBut, ToldAt;
    var o := OpenCall(F, c, sid, ev.slot, now, n + 1, maxCalls);
    var g := FoldEvent(o.0, o.1, |o.0.calls| - 1, ev, now);
    var t := OpenList(F, c, sid, ev.slot, now, n + 1, maxCalls);
    var i := |o.0.calls| - 1;
    var k := NewCall(n + 1, sid, ev.slot, c.net, now);
    assert o.0.calls == o.0.calls[..i] + [k];
    LedOpened(F.calls, c, ev.slot, now, t, maxCalls, o.0.calls[..i], k, n);
    LedTwice(s, F.calls, o.0.calls, n, n, n + 1);
    OpenOnes(F.calls, c, ev.slot, now, t, maxCalls, o.0.calls[..i], k, n);
    LedPointed(F.calls, o.0.calls, n, n + 1, c.active);
    OpenActive(F, c, sid, ev.slot, now, n + 1, maxCalls);
    FoldEventPointed(o.0, o.1, i, ev, now);
    var fate := FoldTells(o.0, o.1, i, ev, now);
    LedTold(o.0.calls, i, ev, o.1.net, now, g.0.calls, fate, n + 1);
    assert o.0.calls[i] in o.0.calls;
    FoldPoints(s, a, n, o.0.calls, c.active, n + 1, o.0.calls[i].id, g.0.calls, g.1.active);
  }

  lemma OpenActive(F: Family, c: Ctx, sid: nat, slot: Id, now: int, id: nat, maxCalls: nat)
    ensures OpenCall(F, c, sid, slot, now, id, maxCalls).1.active == c.active
  {
  }

  lemma OpenOnes(s: seq<Call>, c: Ctx, slot: Id, now: int, t: seq<Call>, maxCalls: nat, u: seq<Call>, k: Call, n: nat)
    requires SlotEnded(s, c, slot, now, t) && RoomMade(t, maxCalls, u) && k.id == n + 1
    requires OneEach(s) && forall l :: l in s ==> l.id <= n
    ensures OneEach(u + [k])
  {
    hide OneEach, SlotEnded, RoomMade;
    EndedOnes(s, c, slot, now, t, n);
    RoomOnes(t, maxCalls, u);
    OneMore(u, k, n);
  }

  lemma EndedOnes(s: seq<Call>, c: Ctx, slot: Id, now: int, t: seq<Call>, n: nat)
    requires SlotEnded(s, c, slot, now, t) && OneEach(s) && forall l :: l in s ==> l.id <= n
    ensures OneEach(t) && forall l :: l in t ==> l.id <= n
  {
    hide Latest, Live, OneEach;
    forall i | 0 <= i < |s| ensures t[i].id == s[i].id && s[i] in s { }
    SameOnes(s, t);
  }

  lemma RoomOnes(s: seq<Call>, maxCalls: nat, t: seq<Call>)
    requires RoomMade(s, maxCalls, t) && OneEach(s)
    ensures OneEach(t) && forall l :: l in t ==> l in s
  {
    hide AudioLess;
    if t != s {
      var o :| OldestIdle(s, o) && t == Without(s, o);
      forall j | 0 <= j < |t| ensures t[j] == s[if j < o then j else j + 1] { }
    }
  }

  lemma OneMore(s: seq<Call>, k: Call, n: nat)
    requires OneEach(s) && k.id == n + 1 && forall l :: l in s ==> l.id <= n
    ensures OneEach(s + [k])
  {
    assert forall j :: 0 <= j < |s| ==> s[j] in s;
  }

  lemma HearPoints(F: Family, c: Ctx, sid: nat, ev: Event, now: int, n: nat, maxCalls: nat)
    requires OneEach(F.calls) && Pointed(F.calls, c.active) && EntriesUpTo(c.active, n) && forall k :: k in F.calls ==> k.id <= n
    ensures var r := Hear(F, c, sid, ev, now, n, maxCalls); LinePoints(F.calls, c.active, n, r.0.calls, r.1.active, r.2)
  {
    hide CurrentCall, FoldEvent, OpenCall, Expire, RefineOnly, FreshCall, EnterRadio, OneEach, Pointed, EntriesUpTo, Led,
      LinePoints, VoiceLine;
    var ex := Expire(F, c.active, now);
    var F1, c1 := ex.0, c.(active := ex.1);
    ExpiredPoints(F, c.active, now, n);
    if ev.roster {
      NoCallPoints(F.calls, c.active, n, F1.calls, c1.active);
    } else if ev.kind == Sync && ev.terminator {
      var f := FreshCall(c1, F1, ev.slot, now);
      NoCallPoints(F.calls, c.active, n, F1.calls, c1.active);
      if f.Some? && F1.calls[f.value].txEnd == 0 {
        var G := SetCall(F1, f.value, F1.calls[f.value].(txEnd := F1.calls[f.value].last));
        LedPlaces(F1.calls, G.calls, n);
        LedTwice(F.calls, F1.calls, G.calls, n, n, n);
        NoCallPoints(F.calls, c.active, n, G.calls, c1.active);
      }
    } else if ev.kind == Unknown {
      RefineLed(F1, c1, ev, now, n);
      LedTwice(F.calls, F1.calls, RefineOnly(F1, c1, ev, now).calls, n, n, n);
      NoCallPoints(F.calls, c.active, n, RefineOnly(F1, c1, ev, now).calls, c1.active);
    } else {
      var F2 := if ev.src == "" then F1 else EnterRadio(F1, ev.src, c1.net, now);
      NoCallPoints(F.calls, c.active, n, F1.calls, c1.active);
      CallPoints(F2, c1, sid, ev, now, n, maxCalls);
      var r := CurrentCall(F2, c1, ev, now);
      if r.cur.Some? {
        var g := FoldEvent(r.F, r.c, r.cur.value, ev, now);
        PointsFrom(F.calls, c.active, n, F2.calls, c1.active, g.0.calls, g.1.active, n);
      } else {
        PointsFrom(F.calls, c.active, n, F2.calls, c1.active, r.F.calls, r.c.active, n);
        var o := OpenCall(r.F, r.c, sid, ev.slot, now, n + 1, maxCalls);
        var g := FoldEvent(o.0, o.1, |o.0.calls| - 1, ev, now);
        PointsFrom(F.calls, c.active, n, F2.calls, c1.active, g.0.calls, g.1.active, n + 1);
      }
    }
  }

  lemma ExpiredPoints(F: Family, a: seq<(Id, nat)>, now: int, n: nat)
    requires OneEach(F.calls) && Pointed(F.calls, a) && EntriesUpTo(a, n) && forall k :: k in F.calls ==> k.id <= n
    ensures var r := Expire(F, a, now);
            && Led(F.calls, r.0.calls, n, n) && OneEach(r.0.calls) && Pointed(r.0.calls, r.1) && EntriesUpTo(r.1, n)
            && (forall k :: k in r.0.calls ==> k.id <= n) && (forall e :: e in r.1 ==> e in a)
  {
    hide Expire, PointsAt, OneEach, Pointed, Listed, Fresh, FreshOnes;
    LedExpired(F, a, now, n);
    ExpireCloses(F, a, now);
    SameOnes(F.calls, Expire(F, a, now).0.calls);
    LedPointed(F.calls, Expire(F, a, now).0.calls, n, n, a);
    FewerPointed(Expire(F, a, now).0.calls, a, Expire(F, a, now).1);
  }

  lemma FewerPointed(s: seq<Call>, a: seq<(Id, nat)>, b: seq<(Id, nat)>)
    requires Pointed(s, a) && forall e :: e in b ==> e in a
    ensures Pointed(s, b)
  {
    hide PointsAt;
  }

  lemma RefineLed(F: Family, c: Ctx, ev: Event, now: int, n: nat)
    ensures Led(F.calls, RefineOnly(F, c, ev, now).calls, n, n)
  {
    hide FreshCall, SetPrivate, NoteEncrypted, Keyed, Led;
    LedSame(F.calls, n);
    var f := FreshCall(c, F, ev.slot, now);
    if f.Some? {
      var i := f.value;
      var F1 := if ev.priv then SetPrivate(F, i, now) else F;
      if ev.priv { SetPrivateCalls(F, i, now); }
      LedPlaces(F.calls, F1.calls, n);
      var F2 := if ev.emergency then SetCall(F1, i, F1.calls[i].(emergency := true)) else F1;
      LedPlaces(F1.calls, F2.calls, n);
      LedTwice(F.calls, F1.calls, F2.calls, n, n, n);
      if ev.enc {
        EncryptedLed(F2, i, ev, n);
        LedTwice(F.calls, F2.calls, NoteEncrypted(F2, i, ev).calls, n, n, n);
      }
    }
  }

  lemma EncryptedLed(F: Family, i: nat, ev: Event, n: nat)
    requires i < |F.calls| && ev.enc
    ensures Led(F.calls, NoteEncrypted(F, i, ev).calls, n, n)
  {
    hide NoteEncrypted, Keyed, AlikeOtherwise;
    EncryptedAt(F, i, ev);
    LiveLines.KeyedAlike(F.calls[i], ev);
    SameParties(F.calls[i], Keyed(F.calls[i], ev));
    LedPlaces(F.calls, NoteEncrypted(F, i, ev).calls, n);
  }

  lemma SameParties(k: Call, l: Call)
    requires AlikeOtherwise(k, l)
    ensures l.id == k.id && l.tgt == k.tgt
  {
  }

  // ---- states and runs ----

  ghost predicate IdsApart(m: State) {
    forall f, g, k, l :: f in m.fam && g in m.fam && f != g && k in m.fam[f].calls && l in m.fam[g].calls ==> k.id != l.id
  }

  /** Every stream's entries point where their keys name, in whatever family; and no id is in two families. */
  ghost predicate StatePointed(m: State) {
    && (forall s, f :: s in m.sess && f in m.fam ==> Pointed(m.fam[f].calls, m.sess[s].active))
    && (forall s :: s in m.sess ==> EntriesUpTo(m.sess[s].active, m.next))
    && IdsApart(m)
  }

  lemma FamilyOnes(m: State, f: Id)
    requires StateOk(m) && f in m.fam
    ensures OneEach(m.fam[f].calls) && forall k :: k in m.fam[f].calls ==> k.id <= m.next
  {
    hide Exact;
  }

  /** No new call, no new entry. */
  lemma StateLed(m: State, r: State)
    requires StatePointed(m) && r.next == m.next
    requires forall f :: f in r.fam ==> r.fam[f].calls == [] || (f in m.fam && Led(m.fam[f].calls, r.fam[f].calls, m.next, m.next))
    requires forall s :: s in r.sess ==> r.sess[s].active == [] || (s in m.sess && r.sess[s].active == m.sess[s].active)
    requires StateOk(m)
    ensures StatePointed(r)
  {
    hide PointsAt, StateOk, Pointed, Led, IdsApart;
    forall s, f | s in r.sess && f in r.fam ensures Pointed(r.fam[f].calls, r.sess[s].active) {
      if r.fam[f].calls != [] && r.sess[s].active != [] {
        LedPointed(m.fam[f].calls, r.fam[f].calls, m.next, m.next, m.sess[s].active);
      } else {
        NothingPointed(r.fam[f].calls, r.sess[s].active);
      }
    }
    LedApart(m, r);
  }

  lemma NothingPointed(s: seq<Call>, a: seq<(Id, nat)>)
    requires s == [] || a == []
    ensures Pointed(s, a)
  {
  }

  lemma LedApart(m: State, r: State)
    requires IdsApart(m)
    requires forall f :: f in r.fam ==> r.fam[f].calls == [] || (f in m.fam && Led(m.fam[f].calls, r.fam[f].calls, m.next, m.next))
    ensures IdsApart(r)
  {
    hide Led;
    forall f, g, k, l | f in r.fam && g in r.fam && f != g && k in r.fam[f].calls && l in r.fam[g].calls ensures k.id != l.id {
      var k0 := LedFrom(m.fam[f].calls, r.fam[f].calls, m.next, k);
      var l0 := LedFrom(m.fam[g].calls, r.fam[g].calls, m.next, l);
    }
  }

  lemma LedFrom(s: seq<Call>, t: seq<Call>, n: nat, k: Call) returns (k0: Call)
    requires Led(s, t, n, n) && k in t
    ensures k0 in s && k0.id == k.id
  {
    k0 :| k0 in s && k0.id == k.id;
  }

  /** One stream's line, heard in one family. */
  lemma LinePointed(m: State, sid: nat, f: Id, G: Family, d: Ctx, n2: nat)
    requires StatePointed(m) && StateOk(m) && sid in m.sess && f in m.fam
    requires LinePoints(m.fam[f].calls, m.sess[sid].active, m.next, G.calls, d.active, n2)
    ensures StatePointed(m.(fam := m.fam[f := G], sess := m.sess[sid := d], next := n2))
  {
    hide PointsAt, StateOk, IdsApart;
    var r := m.(fam := m.fam[f := G], sess := m.sess[sid := d], next := n2);
    FamilyOnes(m, f);
    forall s, g | s in r.sess && g in r.fam ensures Pointed(r.fam[g].calls, r.sess[s].active) {
      if g != f { FamilyOnes(m, g); }
      if s != sid {
        if g == f { LedPointed(m.fam[f].calls, G.calls, m.next, n2, m.sess[s].active); }
      } else if g != f {
        ElsewherePointed(m, sid, f, g, G, d, n2);
      }
    }
    LineApart(m, f, G, r, n2);
  }

  lemma ElsewherePointed(m: State, sid: nat, f: Id, g: Id, G: Family, d: Ctx, n2: nat)
    requires StatePointed(m) && sid in m.sess && f in m.fam && g in m.fam && g != f
    requires LinePoints(m.fam[f].calls, m.sess[sid].active, m.next, G.calls, d.active, n2)
    requires forall k :: k in m.fam[g].calls ==> k.id <= m.next
    ensures Pointed(m.fam[g].calls, d.active)
  {
    hide PointsAt, Led;
  }

  lemma LineApart(m: State, f: Id, G: Family, r: State, n2: nat)
    requires IdsApart(m) && StateOk(m) && f in m.fam && r.fam == m.fam[f := G] && Led(m.fam[f].calls, G.calls, m.next, n2)
    ensures IdsApart(r)
  {
    hide StateOk;
    forall g, k, l | g in r.fam && g != f && k in G.calls && l in r.fam[g].calls ensures k.id != l.id {
      FamilyOnes(m, g);
      if k.id <= m.next { var k0 :| k0 in m.fam[f].calls && k0.id == k.id; }
    }
  }

  lemma ListenPointed(m: State, sid: nat, ev: Event, now: int)
    requires StatePointed(m) && StateOk(m) && sid in m.sess && m.sess[sid].family in m.fam
    ensures StatePointed(Listen(m, sid, ev, now))
  {
    hide StateOk, Hear, PointsAt, Pointed, LinePoints, IdsApart, OneEach, EntriesUpTo;
    var c := m.sess[sid];
    var f := c.family;
    var F := TouchNetwork(m.fam[f], c.net, sid, now);
    FamilyOnes(m, f);
    HearPoints(F, c, sid, ev, now, m.next, m.maxCalls);
    var r := Hear(F, c, sid, ev, now, m.next, m.maxCalls);
    LinePointed(m, sid, f, r.0, r.1, r.2);
  }

  lemma LedRelabelled(s: seq<Call>, from: Id, to: Id, n: nat)
    ensures Led(s, RelabelCalls(s, from, to), n, n)
  {
    LedPlaces(s, RelabelCalls(s, from, to), n);
  }

  lemma MergedLed(F: Family, from: Id, to: Id, n: nat)
    ensures Led(F.calls, MergeNetwork(F, from, to).calls, n, n)
  {
    hide KeysLost, AddKeys, RelabelCalls, Led;
    LedSame(F.calls, n);
    LedRelabelled(F.calls, from, to, n);
  }

  lemma ResolvePointed(m: State, sid: nat, id: Identity, now: int)
    requires StatePointed(m) && StateOk(m) && sid in m.sess && m.sess[sid].family in m.fam
    ensures StatePointed(ResolveNetwork(m, sid, id, now))
  {
    hide StateOk, StatePointed, MergeNetwork, EnsureNetwork, Led;
    var c := m.sess[sid];
    var F := EnsureNetwork(m.fam[c.family], id.key, now);
    var r := ResolveNetwork(m, sid, id, now);
    MergedLed(F, c.net, id.key, m.next);
    forall f | f in r.fam ensures f in m.fam && Led(m.fam[f].calls, r.fam[f].calls, m.next, m.next) {
      LedSame(m.fam[f].calls, m.next);
    }
    StateLed(m, r);
  }

  lemma LineHeardPointed(m: State, sid: nat, ev: Event, now: int)
    requires StatePointed(m) && StateOk(m)
    ensures StatePointed(Hears(m, sid, ev, now))
  {
    hide StateOk, StatePointed, Listen, ResolveNetwork;
    HearsAttended(m, sid, ev, now);
    if sid in m.sess {
      var r := Attended(m.sess[sid], ev);
      AttendedActive(m.sess[sid], ev);
      if r.1 { HeardOnPointed(m, sid, r.0, ev, now); } else { SamePointers(m, m.(sess := m.sess[sid := r.0])); }
    }
  }

  lemma AttendedActive(c: Ctx, ev: Event)
    ensures Attended(c, ev).0.active == c.active && Attended(c, ev).0.lastOnSlot == c.lastOnSlot
  {
  }

  lemma HeardOnPointed(m: State, sid: nat, c: Ctx, ev: Event, now: int)
    requires StatePointed(m) && StateOk(m) && sid in m.sess && c.active == m.sess[sid].active
    ensures StatePointed(HeardOn(m, sid, c, ev, now))
  {
    hide StateOk, StatePointed, Listen, ResolveNetwork;
    var m1 := m.(sess := m.sess[sid := c], fam := if c.family in m.fam then m.fam else m.fam[c.family := NEW_FAMILY]);
    SamePointers(m, m1);
    RegisterOk(m, sid, c);
    ResolvePointed(m1, sid, ev.identity, now);
    ResolveOk(m1, sid, ev.identity, now);
    var m2 := if ev.identity.changed || c.net == "" || c.net !in m1.fam[c.family].networks
              then ResolveNetwork(m1, sid, ev.identity, now) else m1;
    ListenPointed(m2, sid, ev, now);
  }

  /** The same lists, and a family without calls at most. */
  lemma SamePointers(m: State, r: State)
    requires StatePointed(m) && StateOk(m) && r.next == m.next
    requires forall f :: f in r.fam ==> r.fam[f].calls == [] || (f in m.fam && r.fam[f].calls == m.fam[f].calls)
    requires forall s :: s in r.sess ==> r.sess[s].active == [] || (s in m.sess && r.sess[s].active == m.sess[s].active)
    ensures StatePointed(r)
  {
    hide StateOk, StatePointed, Led;
    forall f | f in r.fam && r.fam[f].calls != [] ensures Led(m.fam[f].calls, r.fam[f].calls, m.next, m.next) {
      LedSame(m.fam[f].calls, m.next);
    }
    StateLed(m, r);
  }

  lemma ClosePointed(m: State, sid: nat)
    requires StatePointed(m) && StateOk(m)
    ensures StatePointed(CloseSession(m, sid)) && CloseSession(m, sid).sess == m.sess
  {
    hide StateOk, StatePointed, Led, CloseOf;
    if sid in m.sess && m.sess[sid].family in m.fam {
      var f := m.sess[sid].family;
      ClosedLed(m.fam[f], sid, |m.fam[f].calls|, m.next);
      forall g | g in m.fam ensures Led(m.fam[g].calls, CloseSession(m, sid).fam[g].calls, m.next, m.next) {
        LedSame(m.fam[g].calls, m.next);
      }
      StateLed(m, CloseSession(m, sid));
    }
  }

  lemma ClosedLed(F: Family, sid: nat, k: nat, n: nat)
    requires k <= |F.calls|
    ensures Led(F.calls, CloseOf(F, sid, k).calls, n, n)
  {
    hide CloseOf, Led;
    CloseOfEnds(F, sid, k);
    LedPlaces(F.calls, CloseOf(F, sid, k).calls, n);
  }

  lemma PrunePointed(m: State, sid: nat, kept: set<Id>)
    requires StatePointed(m) && StateOk(m)
    ensures StatePointed(Prune(m, sid, kept))
  {
    hide StateOk, StatePointed, DeadNetworks;
    SamePointers(m, Prune(m, sid, kept));
  }

  lemma KeepPointed(m: State, f: Id, id: nat, on: bool)
    requires StatePointed(m) && StateOk(m) && f in m.fam
    ensures StatePointed(m.(fam := m.fam[f := m.fam[f].(calls := SetKeep(m.fam[f].calls, id, on))]))
  {
    hide StateOk, StatePointed, Led, SetKeep;
    var r := m.(fam := m.fam[f := m.fam[f].(calls := SetKeep(m.fam[f].calls, id, on))]);
    forall g | g in m.fam ensures Led(m.fam[g].calls, r.fam[g].calls, m.next, m.next) {
      LedSame(m.fam[g].calls, m.next);
      if g == f {
        forall i | 0 <= i < |m.fam[f].calls|
          ensures r.fam[f].calls[i].id == m.fam[f].calls[i].id && r.fam[f].calls[i].tgt == m.fam[f].calls[i].tgt
        {
          SetKeepAt(m.fam[f].calls, id, on, i);
        }
        LedPlaces(m.fam[f].calls, r.fam[f].calls, m.next);
      }
    }
    StateLed(m, r);
  }

  lemma StepPointed(m: State, op: Op)
    requires StatePointed(m) && StateOk(m)
    ensures StatePointed(Step(m, op))
  {
    hide StateOk, StatePointed, Prune, CloseSession, Hears;
    match op
    case Begin(sid, protocol, family, freq, now, kept) =>
      StoppedPointed(m, sid, kept);
      SamePointers(Prune(CloseSession(m, sid), sid, kept), Step(m, op));
    case Tune(sid, freq, now) =>
      StoppedPointed(m, sid, {});
      if sid in m.sess && m.sess[sid].freq != freq { SamePointers(Prune(CloseSession(m, sid), sid, {}), Step(m, op)); }
    case Line(sid, ev, now) => LineHeardPointed(m, sid, ev, now);
    case End(sid, now, kept) =>
      ClosePointed(m, sid);
      CloseSessionOk(m, sid);
      var m1 := CloseSession(m, sid);
      var m2 := if sid in m1.sess then m1.(sess := m1.sess[sid := m1.sess[sid].(running := false, active := [])]) else m1;
      SamePointers(m1, m2);
      SameFamilies(m1, m2);
      PrunePointed(m2, sid, kept);
    case Remove(sid, now, kept) =>
      StoppedPointed(m, sid, kept);
      SamePointers(Prune(CloseSession(m, sid), sid, kept), Step(m, op));
    case Keep(family, id, on) => if family in m.fam { KeepPointed(m, family, id, on); }
    case Clear(now) => ClearPointed(m, now);
  }

  lemma StoppedPointed(m: State, sid: nat, kept: set<Id>)
    requires StatePointed(m) && StateOk(m)
    ensures StatePointed(Prune(CloseSession(m, sid), sid, kept)) && StateOk(Prune(CloseSession(m, sid), sid, kept))
  {
    hide StateOk, StatePointed, Prune, CloseSession;
    ClosePointed(m, sid);
    CloseSessionOk(m, sid);
    PrunePointed(CloseSession(m, sid), sid, kept);
    PruneOk(CloseSession(m, sid), sid, kept);
  }

  lemma ClearPointed(m: State, now: int)
    ensures StatePointed(Step(m, Clear(now)))
  {
  }

  /** In every state that operations reach from an empty model, entries point where their keys name. */
  lemma {:induction false} RunPointed(m: State, ops: seq<Op>)
    requires StatePointed(m) && StateOk(m)
    ensures StatePointed(Run(m, ops)) && StateOk(Run(m, ops))
  {
    hide StateOk, StatePointed, Step;
    RunOk(m, ops);
    if ops != [] {
      RunPointed(m, ops[..|ops| - 1]);
      StepPointed(Run(m, ops[..|ops| - 1]), ops[|ops| - 1]);
    }
  }
}
