/** What the live model's walks over a family's calls do: which calls they close, drop, open and keep. */
module LiveLists {
  import opened Basics
  import opened Counters
  import opened LiveModel
  import opened LiveProofs
  import opened LiveCounted

  /** k, ended: nothing else about it changed but that it may be counted now. */
  predicate EndsAs(k: Call, l: Call) {
    l == k.(open := false, counted := l.counted, keyNoted := l.keyNoted)
  }

  lemma CloseEnds(F: Family, i: nat)
    requires i < |F.calls|
    ensures var l := CloseCall(F, i).calls[i]; OnlyAt(F, CloseCall(F, i), i, l) && EndsAs(F.calls[i], l)
  {
    hide CountCall, EndCall;
    var k := F.calls[i];
    if k.open && CountedAtEnd(k) { CountCallAt(F, i, k.last); }
  }

  // ---- quiet calls ----

  /** An active entry is of the i-th call. */
  predicate Listed(a: seq<(Id, nat)>, calls: seq<Call>, i: nat) {
    exists m :: 0 <= m < |a| && FindCall(calls, a[m].1, |calls|) == Some(i)
  }

  predicate EntryFresh(e: (Id, nat), calls: seq<Call>, now: int) {
    var f := FindCall(calls, e.1, |calls|);
    f.Some? && Fresh(calls[f.value], now)
  }

  /** The entries of calls that can still continue. */
  function FreshOnes(a: seq<(Id, nat)>, calls: seq<Call>, now: int): seq<(Id, nat)> {
    if a == [] then [] else (if EntryFresh(a[0], calls, now) then [a[0]] else []) + FreshOnes(a[1..], calls, now)
  }

  /** Exactly the active calls that went quiet ended, and exactly the entries of the others are kept. */
  ghost predicate ExpiredAs(F: Family, a: seq<(Id, nat)>, now: int, G: Family, kept: seq<(Id, nat)>) {
    && |G.calls| == |F.calls| && G.past == F.past && kept == FreshOnes(a, F.calls, now)
    && forall i :: 0 <= i < |F.calls| ==>
         if Listed(a, F.calls, i) && !Fresh(F.calls[i], now) then EndsAs(F.calls[i], G.calls[i]) else G.calls[i] == F.calls[i]
  }

  /** A list with the same ids in the same places, and fresh at the same ones. */
  ghost predicate SameFresh(s: seq<Call>, t: seq<Call>, now: int) {
    |s| == |t| && forall i :: 0 <= i < |s| ==> s[i].id == t[i].id && Fresh(s[i], now) == Fresh(t[i], now)
  }

  lemma {:induction false} SameFound(s: seq<Call>, t: seq<Call>, id: nat, n: nat, now: int)
    requires SameFresh(s, t, now) && n <= |s|
    ensures FindCall(s, id, n) == FindCall(t, id, n)
  {
    hide Fresh;
    if n > 0 { SameFound(s, t, id, n - 1, now); }
  }

  lemma {:induction false} SameKept(a: seq<(Id, nat)>, s: seq<Call>, t: seq<Call>, now: int)
    requires SameFresh(s, t, now)
    ensures FreshOnes(a, s, now) == FreshOnes(a, t, now)
    ensures forall i :: 0 <= i < |s| ==> Listed(a, s, i) == Listed(a, t, i)
  {
    hide Fresh, FindCall;
    forall e: (Id, nat) ensures FindCall(s, e.1, |s|) == FindCall(t, e.1, |t|) { SameFound(s, t, e.1, |s|, now); }
    if a != [] { SameKept(a[1..], s, t, now); }
  }

  lemma ListedFirst(a: seq<(Id, nat)>, calls: seq<Call>, i: nat)
    requires a != []
    ensures Listed(a, calls, i) <==> FindCall(calls, a[0].1, |calls|) == Some(i) || Listed(a[1..], calls, i)
  {
    hide FindCall;
    var t := a[1..];
    if Listed(t, calls, i) {
      var m :| 0 <= m < |t| && FindCall(calls, t[m].1, |calls|) == Some(i);
      assert a[m + 1] == t[m];
    }
    if Listed(a, calls, i) {
      var m :| 0 <= m < |a| && FindCall(calls, a[m].1, |calls|) == Some(i);
      assert m > 0 ==> t[m - 1] == a[m];
    }
  }

  lemma {:induction false} ExpireCloses(F: Family, a: seq<(Id, nat)>, now: int)
    ensures ExpiredAs(F, a, now, Expire(F, a, now).0, Expire(F, a, now).1)
    decreases |a|
  {
    hide CloseCall, FindCall, ExpiredAs, Listed, FreshOnes, EndsAs, SameFresh, Fresh;
    if a == [] {
      NothingExpired(F, now);
    } else {
      var f := FindCall(F.calls, a[0].1, |F.calls|);
      if f.Some? && !Fresh(F.calls[f.value], now) {
        var G := CloseCall(F, f.value);
        CloseEnds(F, f.value);
        ExpireCloses(G, a[1..], now);
        ExpiredMore(F, a, now, G, Expire(F, a, now).0, Expire(F, a, now).1);
      } else {
        ExpireCloses(F, a[1..], now);
        ExpiredSkip(F, a, now, Expire(F, a[1..], now).0, Expire(F, a[1..], now).1);
      }
    }
  }

  lemma NothingExpired(F: Family, now: int)
    ensures ExpiredAs(F, [], now, F, [])
  {
  }

  lemma ExpiredMore(F: Family, a: seq<(Id, nat)>, now: int, G: Family, H: Family, kept: seq<(Id, nat)>)
    requires a != [] && FindCall(F.calls, a[0].1, |F.calls|).Some?
    requires var i := FindCall(F.calls, a[0].1, |F.calls|).value;
             !Fresh(F.calls[i], now) && i < |G.calls| && OnlyAt(F, G, i, G.calls[i]) && EndsAs(F.calls[i], G.calls[i])
    requires ExpiredAs(G, a[1..], now, H, kept)
    ensures ExpiredAs(F, a, now, H, kept)
  {
    hide FindCall, Listed;
    var f := FindCall(F.calls, a[0].1, |F.calls|).value;
    assert SameFresh(F.calls, G.calls, now);
    SameKept(a[1..], F.calls, G.calls, now);
    forall i | 0 <= i < |F.calls|
      ensures if Listed(a, F.calls, i) && !Fresh(F.calls[i], now) then EndsAs(F.calls[i], H.calls[i]) else H.calls[i] == F.calls[i]
    {
      ListedFirst(a, F.calls, i);
    }
    assert [] + FreshOnes(a[1..], F.calls, now) == FreshOnes(a[1..], F.calls, now);
  }

  lemma ExpiredSkip(F: Family, a: seq<(Id, nat)>, now: int, H: Family, kept: seq<(Id, nat)>)
    requires a != [] && ExpiredAs(F, a[1..], now, H, kept)
    requires var f := FindCall(F.calls, a[0].1, |F.calls|); f.None? || Fresh(F.calls[f.value], now)
    ensures ExpiredAs(F, a, now, H, if FindCall(F.calls, a[0].1, |F.calls|).None? then kept else [a[0]] + kept)
  {
    hide FindCall, Listed, EndsAs;
    forall i | 0 <= i < |F.calls|
      ensures if Listed(a, F.calls, i) && !Fresh(F.calls[i], now) then EndsAs(F.calls[i], H.calls[i]) else H.calls[i] == F.calls[i]
    {
      ListedFirst(a, F.calls, i);
    }
    assert [] + FreshOnes(a[1..], F.calls, now) == FreshOnes(a[1..], F.calls, now);
  }

  // ---- a session's calls ----

  /** Exactly the session's calls among the first n ended. */
  ghost predicate EndedOf(F: Family, sid: nat, n: nat, G: Family) {
    && |G.calls| == |F.calls| && G.past == F.past
    && forall i :: 0 <= i < |F.calls| ==>
         if i < n && F.calls[i].session == sid then EndsAs(F.calls[i], G.calls[i]) else G.calls[i] == F.calls[i]
  }

  lemma {:induction false} CloseOfEnds(F: Family, sid: nat, n: nat)
    requires n <= |F.calls|
    ensures EndedOf(F, sid, n, CloseOf(F, sid, n))
    decreases n
  {
    hide CloseCall;
    if n > 0 {
      CloseOfEnds(F, sid, n - 1);
      CloseEnds(CloseOf(F, sid, n - 1), n - 1);
    }
  }

  // ---- folding and opening ----

  /** The duplicate at i left the list and nothing points to it any more; what did points to the twin, which takes on
      what the duplicate knew. */
  ghost predicate AdoptedAs(F: Family, c: Ctx, i: nat, j: nat, slot: Id, r: Found)
    requires i < |F.calls| && j < |F.calls|
  {
    var dup, twin := F.calls[i], F.calls[j];
    && r.cur == Some(if i < j then j - 1 else j) && r.cur.value < |r.F.calls|
    && var k := r.F.calls[r.cur.value];
       && k == Joined(twin, dup).(keyNoted := k.keyNoted)
       && r.F.calls == Without(F.calls[j := k], i) && r.F.past == F.past
       && |r.c.active| == |c.active|
       && (forall m :: 0 <= m < |c.active| ==>
             r.c.active[m] == (c.active[m].0, if c.active[m].1 == dup.id then twin.id else c.active[m].1))
       && r.c.lastOnSlot.Keys == c.lastOnSlot.Keys + {slot} && r.c.lastOnSlot[slot] == twin.id
       && forall s :: s in c.lastOnSlot && s != slot ==>
            r.c.lastOnSlot[s] == if c.lastOnSlot[s] == dup.id then twin.id else c.lastOnSlot[s]
  }

  lemma AdoptIs(F: Family, c: Ctx, i: nat, j: nat, slot: Id)
    requires i < |F.calls| && j < |F.calls| && i != j
    ensures AdoptedAs(F, c, i, j, slot, AdoptTwin(F, c, i, j, slot))
  {
    hide NoteKey, Joined;
    var k := Joined(F.calls[j], F.calls[i]);
    var G := F.(calls := Without(F.calls[j := k], i));
    var j' := if i < j then j - 1 else j;
    NoteKeyAt(G, j');
    RepointIs(c.active, F.calls[i].id, F.calls[j].id);
    var l := NoteKey(G, j').calls[j'];
    assert Without(F.calls[j := k], i)[j' := l] == Without(F.calls[j := l], i);
  }

  lemma {:induction false} RepointIs(a: seq<(Id, nat)>, from: nat, to': nat)
    ensures |Repoint(a, from, to')| == |a|
    ensures forall m :: 0 <= m < |a| ==> Repoint(a, from, to')[m] == (a[m].0, if a[m].1 == from then to' else a[m].1)
  {
    if a != [] { RepointIs(a[1..], from, to'); }
  }

  /** k is among the calls, ended or as it was. */
  ghost predicate Stays(k: Call, s: seq<Call>) {
    exists i :: 0 <= i < |s| && (s[i] == k || EndsAs(k, s[i]))
  }

  /** The new call is the newest and its slot's latest; calls with the keep flag all stay; and where the list had no
      more than maxCalls of the others, it still has not. */
  ghost predicate OpenedAs(F: Family, c: Ctx, sid: nat, slot: Id, now: int, id: nat, maxCalls: nat, G: Family, d: Ctx) {
    && G.calls != [] && G.calls[|G.calls| - 1] == NewCall(id, sid, slot, c.net, now)
    && d == c.(lastOnSlot := c.lastOnSlot[slot := id])
    && (forall i :: 0 <= i < |F.calls| && F.calls[i].keep ==> Stays(F.calls[i], G.calls))
    && (AudioLess(F.calls) <= maxCalls && maxCalls > 0 ==> AudioLess(G.calls) <= maxCalls)
  }

  lemma OpenIs(F: Family, c: Ctx, sid: nat, slot: Id, now: int, id: nat, maxCalls: nat)
    ensures var r := OpenCall(F, c, sid, slot, now, id, maxCalls); OpenedAs(F, c, sid, slot, now, id, maxCalls, r.0, r.1)
  {
    hide CloseCall, FreshCall, RollOff, EndsAs, AudioLess, NewCall;
    var prev := if slot != "" then FreshCall(c, F, slot, now) else None;
    var F1 := if prev.Some? then CloseCall(F, prev.value) else F;
    if prev.Some? {
      CloseEnds(F, prev.value);
      EndKeeps(F, F1, prev.value);
    }
    var F2 := RollOff(F1, maxCalls);
    RollOffIs(F1, maxCalls);
    var n := NewCall(id, sid, slot, c.net, now);
    PushAudioLess(F2.calls, n);
    forall i | 0 <= i < |F.calls| && F.calls[i].keep ensures Stays(F.calls[i], F2.calls + [n]) {
      KeptFlag(F, F1, prev, i);
      assert Stays(F1.calls[i], F2.calls);
      StaysOn(F.calls[i], F1.calls[i], F2.calls, n);
    }
  }

  lemma KeptFlag(F: Family, G: Family, at: Option<nat>, i: nat)
    requires i < |F.calls| && F.calls[i].keep
    requires if at.Some? then at.value < |F.calls| && at.value < |G.calls| && OnlyAt(F, G, at.value, G.calls[at.value])
                              && EndsAs(F.calls[at.value], G.calls[at.value])
             else G == F
    ensures i < |G.calls| && G.calls[i].keep && (G.calls[i] == F.calls[i] || EndsAs(F.calls[i], G.calls[i]))
  {
  }

  lemma StaysOn(k: Call, l: Call, s: seq<Call>, n: Call)
    requires (l == k || EndsAs(k, l)) && Stays(l, s)
    ensures Stays(k, s + [n])
  {
    var i :| 0 <= i < |s| && (s[i] == l || EndsAs(l, s[i]));
    assert (s + [n])[i] == s[i];
  }

  lemma EndKeeps(F: Family, G: Family, i: nat)
    requires i < |F.calls| && i < |G.calls| && OnlyAt(F, G, i, G.calls[i]) && EndsAs(F.calls[i], G.calls[i])
    ensures AudioLess(G.calls) == AudioLess(F.calls)
  {
    SameAudioLess(F.calls, G.calls);
  }

  lemma {:induction false} SameAudioLess(s: seq<Call>, t: seq<Call>)
    requires |s| == |t| && forall i :: 0 <= i < |s| ==> s[i].keep == t[i].keep
    ensures AudioLess(s) == AudioLess(t)
  {
    if s != [] { SameAudioLess(s[1..], t[1..]); }
  }

  lemma {:induction false} PushAudioLess(s: seq<Call>, k: Call)
    ensures AudioLess(s + [k]) == AudioLess(s) + if k.keep then 0 else 1
  {
    if s == [] {
      assert (s + [k])[1..] == [];
    } else {
      assert (s + [k])[1..] == s[1..] + [k];
      PushAudioLess(s[1..], k);
    }
  }

  lemma {:induction false} DropAudioLess(s: seq<Call>, i: nat)
    requires i < |s| && !s[i].keep
    ensures AudioLess(Without(s, i)) == AudioLess(s) - 1
  {
    if i == 0 {
      assert Without(s, i) == s[1..];
    } else {
      assert Without(s, i)[1..] == Without(s[1..], i - 1);
      DropAudioLess(s[1..], i - 1);
    }
  }

  lemma {:induction false} FirstAudioLessIs(s: seq<Call>, i: nat)
    requires i <= |s|
    ensures var r := FirstAudioLess(s, i); (r < |s| ==> !s[r].keep) && forall j :: i <= j < r ==> s[j].keep
    decreases |s| - i
  {
    if i < |s| && s[i].keep { FirstAudioLessIs(s, i + 1); }
  }

  lemma {:induction false} NoneAudioLess(s: seq<Call>)
    requires forall j :: 0 <= j < |s| ==> s[j].keep
    ensures AudioLess(s) == 0
  {
    if s != [] { NoneAudioLess(s[1..]); }
  }

  /** Kept calls stay; a full list has one of the others less. */
  lemma RollOffIs(F: Family, maxCalls: nat)
    ensures var G := RollOff(F, maxCalls);
            && (forall i :: 0 <= i < |F.calls| && F.calls[i].keep ==> Stays(F.calls[i], G.calls))
            && (AudioLess(F.calls) <= maxCalls && maxCalls > 0 ==> AudioLess(G.calls) < maxCalls)
  {
    hide CloseCall, EndsAs, AudioLess;
    var i := FirstAudioLess(F.calls, 0);
    FirstAudioLessIs(F.calls, 0);
    var R := RollOff(F, maxCalls);
    if AudioLess(F.calls) < maxCalls || i == |F.calls| {
      forall j | 0 <= j < |F.calls| ensures Stays(F.calls[j], R.calls) { assert R.calls[j] == F.calls[j]; }
      if i == |F.calls| { NoneAudioLess(F.calls); }
    } else {
      CloseEnds(F, i);
      var G := CloseCall(F, i);
      EndKeeps(F, G, i);
      FlagStays(F.calls[i], G.calls[i]);
      DropAudioLess(G.calls, i);
      forall j | 0 <= j < |F.calls| && F.calls[j].keep ensures Stays(F.calls[j], R.calls) {
        assert R.calls[if j < i then j else j - 1] == F.calls[j];
      }
    }
  }

  lemma FlagStays(k: Call, l: Call)
    requires EndsAs(k, l)
    ensures l.keep == k.keep
  {
  }
}
