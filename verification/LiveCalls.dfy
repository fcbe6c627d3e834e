/** What one decoder line does to the calls of its stream's family, over the model's own step: where the line's call is
    afterwards, and what it says there. */
module LiveCalls {
  import opened Basics
  import opened Counters
  import opened LiveModel
  import opened CountingProofs
  import opened LiveProofs
  import opened LiveCounted
  import opened LiveLists
  import opened LiveLines
  import opened LivePointers
  import opened LiveRuns

  /** The family a stream's lines are heard in. */
  function StreamFamily(c: Ctx, ev: Event): Id {
    if c.family == "auto" then ev.family else c.family
  }

  /** The line is heard, and may belong to a call. */
  predicate Attends(m: State, sid: nat, ev: Event) {
    && sid in m.sess && m.sess[sid].family != "" && (m.sess[sid].family == "auto" ==> ev.family != "")
    && !ev.crcError && ev.kind != Unknown && !ev.roster && !(ev.kind == Sync && ev.terminator)
  }

  function CallsOf(m: State, f: Id): seq<Call> {
    if f in m.fam then m.fam[f].calls else []
  }

  /** The same calls, perhaps on other networks. */
  ghost predicate SameButNets(s: seq<Call>, t: seq<Call>) {
    |t| == |s| && forall i :: 0 <= i < |s| ==> t[i] == s[i].(net := t[i].net)
  }

  /** Of the calls the entries are of, those that went quiet ended; no other changed. */
  ghost predicate Quieted(s: seq<Call>, a: seq<(Id, nat)>, now: int, t: seq<Call>) {
    |t| == |s| && forall i :: 0 <= i < |s| ==>
      if Listed(a, s, i) && !Live(s[i], now) then EndsAs(s[i], t[i]) else t[i] == s[i]
  }

  /** A call that nothing is known of yet. */
  predicate IsBlank(k: Call, id: nat, sid: nat, slot: Id, net: Id, now: int) {
    && k.id == id && k.session == sid && k.slot == slot && k.net == net && k.start == now && k.last == now && k.open
    && k.src == "" && k.tgt == "" && k.kid == "" && k.alg == "" && k.streams == 1 && k.txEnd == 0
    && !k.priv && !k.voice && !k.data && !k.emergency && !k.encrypted && !k.counted && !k.keep
  }

  /** The stream, with the entries of its live calls alone. */
  function KeptCtx(c: Ctx, s: seq<Call>, now: int): Ctx {
    c.(active := FreshOnes(c.active, s, now))
  }

  /** A direct call of another talker ended, and nothing else changed but that its slot may be known. */
  ghost predicate DirectEnded(s: seq<Call>, c: Ctx, ev: Event, now: int, t: seq<Call>) {
    ContinuesNone(s, c, ev, now, t) && forall p: nat :: Direct(s, c, ev, now, p) ==> p < |t| && EndsAs(s[p], t[p])
  }

  /** A new call at the end: another talker's direct call ended, the slot's latest ended, room made. */
  ghost predicate Opens(s: seq<Call>, c: Ctx, ev: Event, now: int, maxCalls: nat, t: seq<Call>) {
    && t != [] && (Interrupts(s, c, ev, now) || ReachesNone(s, c, ev, now))
    && exists u, v :: DirectEnded(s, c, ev, now, u) && SlotEnded(u, c, ev.slot, now, v) && RoomMade(v, maxCalls, t[..|t| - 1])
  }

  // ---- inside the family ----

  lemma QuietedIs(F: Family, a: seq<(Id, nat)>, now: int)
    ensures Quieted(F.calls, a, now, Expire(F, a, now).0.calls)
    ensures Expire(F, a, now).1 == FreshOnes(a, F.calls, now)
  {
    hide Expire, Listed, EndsAs, FreshOnes;
    ExpireCloses(F, a, now);
  }

  lemma NewIsBlank(id: nat, sid: nat, slot: Id, net: Id, now: int)
    ensures IsBlank(NewCall(id, sid, slot, net, now), id, sid, slot, net, now)
  {
  }

  lemma FoldNet(F: Family, c: Ctx, i: nat, ev: Event, now: int)
    requires i < |F.calls|
    ensures FoldEvent(F, c, i, ev, now).1.net == c.net && FoldEvent(F, c, i, ev, now).1.family == c.family
  {
    hide NoteEncrypted, SetPrivate, Heard, CountedOrFolded, FoldEvent, FoldedCtx;
    FoldEventIs(F, c, i, ev, now);
    var F1 := SetCall(F, i, Heard(F.calls[i], c, ev));
    var F2 := if ev.enc then NoteEncrypted(F1, i, ev) else F1;
    var F3 := SetCall(F2, i, F2.calls[i].(last := now));
    var F4 := if ev.priv then SetPrivate(F3, i, now) else F3;
    CtxNet(F, c, i, ev);
    CountNet(F4, FoldedCtx(F, c, i, ev), i, ev.slot, now);
  }

  lemma CtxNet(F: Family, c: Ctx, i: nat, ev: Event)
    requires i < |F.calls|
    ensures FoldedCtx(F, c, i, ev).net == c.net && FoldedCtx(F, c, i, ev).family == c.family
  {
    hide Put, Key;
  }

  lemma CountNet(F: Family, c: Ctx, i: nat, slot: Id, now: int)
    requires i < |F.calls|
    ensures var d := CountedOrFolded(F, c, i, slot, now).1; d.net == c.net && d.family == c.family
  {
    hide CountCall, AdoptTwin, CountedOrFolded, FindTwin;
    BranchCtx(F, c, i, slot, now);
    var t := FindTwin(F.calls, F.calls[i], now, |F.calls|);
    if t.Some? {
      TwinApart(F.calls[t.value], F.calls[i], now);
      AdoptNet(F, c, i, t.value, slot);
    }
  }

  lemma AdoptNet(F: Family, c: Ctx, i: nat, j: nat, slot: Id)
    requires i < |F.calls| && j < |F.calls| && i != j
    ensures var d := AdoptTwin(F, c, i, j, slot).c; d.net == c.net && d.family == c.family
  {
    hide NoteKey, LiveModel.Joined, Repoint;
  }

  lemma KeptStream(F: Family, c: Ctx, ev: Event, now: int)
    ensures CurrentCall(F, c, ev, now).c.family == c.family && CurrentCall(F, c, ev, now).c.net == c.net
  {
    hide FindAdoptable, Lookup, FindCall, Put, Erase, FreshCall, CloseCall, VoiceLine;
  }

  /** What the call part of a line leaves: the list with the line's call ready, and that call told the line. */
  ghost predicate CallHeard(s: seq<Call>, c: Ctx, sid: nat, ev: Event, net: Id, now: int, n: nat, maxCalls: nat,
                            ready: seq<Call>, i: nat, fate: Fate, t: seq<Call>, n2: nat) {
    && (if n2 == n then Continues(s, c, ev, now, i, ready) && forall p: nat :: Direct(s, c, ev, now, p) ==> i == p && ready == s
        else n2 == n + 1 && Opens(s, c, ev, now, maxCalls, ready) && i == |ready| - 1
             && IsBlank(ready[i], n + 1, sid, ev.slot, net, now))
    && ToldAt(ready, i, ev, net, now, t, fate)
  }

  lemma HearCalls(F: Family, c: Ctx, sid: nat, ev: Event, now: int, n: nat, maxCalls: nat)
    returns (awake: seq<Call>, ready: seq<Call>, i: nat, fate: Fate)
    requires ev.kind != Unknown && !ev.roster && !(ev.kind == Sync && ev.terminator) && CallKind(ev)
    requires ev.src != "" || ev.tgt != "" || ev.kind == Message
    ensures var r := Hear(F, c, sid, ev, now, n, maxCalls);
            && r.1.net == c.net && r.1.family == c.family && Quieted(F.calls, c.active, now, awake)
            && CallHeard(awake, KeptCtx(c, F.calls, now), sid, ev, c.net, now, n, maxCalls, ready, i, fate, r.0.calls, r.2)
  {
    hide CurrentCall, FoldEvent, OpenCall, Expire, EnterRadio, Continues, ContinuesNone, ToldAt, Quieted, SlotEnded, RoomMade,
      IsBlank, NewCall, Interrupts, ReachesNone, Direct, EndsAs, Compatible, FreshOnes;
    var ex := Expire(F, c.active, now);
    var F1, c1 := ex.0, c.(active := ex.1);
    QuietedIs(F, c.active, now);
    awake := F1.calls;
    var F2 := if ev.src == "" then F1 else EnterRadio(F1, ev.src, c1.net, now);
    var r := CurrentCall(F2, c1, ev, now);
    CurrentIs(F2, c1, ev, now);
    CurrentComplete(F2, c1, ev, now);
    KeptStream(F2, c1, ev, now);
    if r.cur.Some? {
      i := r.cur.value;
      ready := r.F.calls;
      fate := FoldTells(r.F, r.c, i, ev, now);
      FoldNet(r.F, r.c, i, ev, now);
    } else {
      NotVoiceless(F2.calls, c1, ev, now, r.F.calls);
      var o := OpenCall(r.F, r.c, sid, ev.slot, now, n + 1, maxCalls);
      var v := OpenList(r.F, r.c, sid, ev.slot, now, n + 1, maxCalls);
      OpenStream(r.F, r.c, sid, ev.slot, now, n + 1, maxCalls);
      i := |o.0.calls| - 1;
      ready := o.0.calls;
      SlotEndedBefore(r.F.calls, c1, r.c, ev.slot, now, v);
      NewIsBlank(n + 1, sid, ev.slot, c.net, now);
      OpensNow(awake, c1, ev, now, maxCalls, ready, r.F.calls, v);
      fate := FoldTells(o.0, o.1, i, ev, now);
      FoldNet(o.0, o.1, i, ev, now);
    }
  }

  lemma OpensNow(s: seq<Call>, c: Ctx, ev: Event, now: int, maxCalls: nat, t: seq<Call>, u: seq<Call>, v: seq<Call>)
    requires t != [] && (Interrupts(s, c, ev, now) || ReachesNone(s, c, ev, now)) && ContinuesNone(s, c, ev, now, u)
    requires forall p: nat :: Direct(s, c, ev, now, p) ==> p < |u| && EndsAs(s[p], u[p])
    requires SlotEnded(u, c, ev.slot, now, v) && RoomMade(v, maxCalls, t[..|t| - 1])
    ensures Opens(s, c, ev, now, maxCalls, t)
  {
    hide Interrupts, ReachesNone, ContinuesNone, SlotEnded, RoomMade, EndsAs, Direct;
  }

  lemma NotVoiceless(s: seq<Call>, c: Ctx, ev: Event, now: int, t: seq<Call>)
    requires ContinuesNone(s, c, ev, now, t) || t == s
    ensures ContinuesNone(s, c, ev, now, t)
  {
  }

  lemma OpenStream(F: Family, c: Ctx, sid: nat, slot: Id, now: int, id: nat, maxCalls: nat)
    ensures var d := OpenCall(F, c, sid, slot, now, id, maxCalls).1; d.net == c.net && d.family == c.family
  {
  }

  lemma SlotEndedBefore(s: seq<Call>, c: Ctx, d: Ctx, slot: Id, now: int, t: seq<Call>)
    requires SlotEnded(s, d, slot, now, t) && d.lastOnSlot == c.lastOnSlot
    ensures SlotEnded(s, c, slot, now, t)
  {
    hide FindCall, Live, EndsAs;
  }

  // ---- over the step ----

  lemma CallHeardBy(s: seq<Call>, c: Ctx, d: Ctx, sid: nat, ev: Event, net: Id, now: int, n: nat, maxCalls: nat,
                    ready: seq<Call>, i: nat, fate: Fate, t: seq<Call>, n2: nat)
    requires CallHeard(s, c, sid, ev, net, now, n, maxCalls, ready, i, fate, t, n2)
    requires d.active == c.active && d.lastOnSlot == c.lastOnSlot
    ensures CallHeard(s, d, sid, ev, net, now, n, maxCalls, ready, i, fate, t, n2)
  {
    hide ToldAt, IsBlank, RoomMade, EndsAs, Live, Compatible, FindCall, Lookup, Key, Names, OnTarget, Slotted;
    forall p: nat ensures Direct(s, c, ev, now, p) == Direct(s, d, ev, now, p) && Indirect(s, c, ev, now, p) == Indirect(s, d, ev, now, p) { }
    forall p: nat ensures Reached(s, c, ev, p) == Reached(s, d, ev, p) { }
    if n2 != n {
      hide Direct, Indirect, Reached;
      var u, v :| DirectEnded(s, c, ev, now, u) && SlotEnded(u, c, ev.slot, now, v) && RoomMade(v, maxCalls, ready[..|ready| - 1]);
      SlotEndedBefore(u, d, c, ev.slot, now, v);
      assert DirectEnded(s, d, ev, now, u);
    }
  }

  lemma ResolvedCalls(m: State, sid: nat, id: Identity, now: int)
    requires sid in m.sess && m.sess[sid].family in m.fam
    ensures var r, f := ResolveNetwork(m, sid, id, now), m.sess[sid].family;
            && SameButNets(m.fam[f].calls, r.fam[f].calls) && r.next == m.next && r.maxCalls == m.maxCalls
            && sid in r.sess && r.sess[sid].active == m.sess[sid].active && r.sess[sid].lastOnSlot == m.sess[sid].lastOnSlot
            && r.sess[sid].family == f
  {
    hide MergeNetwork, EnsureNetwork, RelabelStreams;
    var c := m.sess[sid];
    var F := EnsureNetwork(m.fam[c.family], id.key, now);
    MergedCalls(F, c.net, id.key);
    SameNets(F.calls);
  }

  lemma SameNets(s: seq<Call>)
    ensures SameButNets(s, s)
  {
    forall i | 0 <= i < |s| ensures s[i] == s[i].(net := s[i].net) { }
  }

  lemma MergedCalls(F: Family, from: Id, to: Id)
    ensures SameButNets(F.calls, MergeNetwork(F, from, to).calls)
  {
    hide KeysLost, AddKeys, RelabelCall;
    SameNets(F.calls);
    forall k: Call ensures RelabelCall(k, from, to) == k.(net := RelabelCall(k, from, to).net) { Relabelled(k, from, to); }
  }

  lemma Relabelled(k: Call, from: Id, to: Id)
    ensures RelabelCall(k, from, to) == k.(net := RelabelCall(k, from, to).net)
  {
    if k.net != from { SameNet(k); }
  }

  lemma SameNet(k: Call)
    ensures k.(net := k.net) == k
  {
  }

  /** A line that a stream attends to is heard by its family: F are the family's records at that point, and d the stream,
      as they were but for networks. */
  lemma HeardIn(m: State, sid: nat, ev: Event, now: int) returns (F: Family, d: Ctx)
    requires sid in m.sess && Attended(m.sess[sid], ev).1
    ensures var c, r, f := m.sess[sid], Step(m, Line(sid, ev, now)), StreamFamily(m.sess[sid], ev);
            var h := Hear(F, d, sid, ev, now, m.next, m.maxCalls);
            && sid in r.sess && r.sess[sid] == h.1 && f in r.fam && r.fam[f] == h.0 && r.next == h.2
            && SameButNets(CallsOf(m, f), F.calls)
            && d.active == c.active && d.lastOnSlot == c.lastOnSlot && d.family == f
  {
    hide Hear, ResolveNetwork, Step, HeardOn, SameButNets;
    HearsAttended(m, sid, ev, now);
    AttendedActive(m.sess[sid], ev);
    AttendedFamily(m.sess[sid], ev);
    F, d := HeardOnIn(m, sid, Attended(m.sess[sid], ev).0, ev, now);
  }

  lemma AttendedFamily(c: Ctx, ev: Event)
    ensures Attended(c, ev).1 ==> Attended(c, ev).0.family == StreamFamily(c, ev)
  {
  }

  lemma HeardOnIn(m: State, sid: nat, c: Ctx, ev: Event, now: int) returns (F: Family, d: Ctx)
    requires sid in m.sess
    ensures var r := HeardOn(m, sid, c, ev, now);
            var h := Hear(F, d, sid, ev, now, m.next, m.maxCalls);
            && sid in r.sess && r.sess[sid] == h.1 && c.family in r.fam && r.fam[c.family] == h.0 && r.next == h.2
            && SameButNets(CallsOf(m, c.family), F.calls)
            && d.active == c.active && d.lastOnSlot == c.lastOnSlot && d.family == c.family
  {
    hide Hear, ResolveNetwork, SameButNets;
    var f := c.family;
    var m1 := m.(sess := m.sess[sid := c], fam := if f in m.fam then m.fam else m.fam[f := NEW_FAMILY]);
    var m2 := if ev.identity.changed || c.net == "" || c.net !in m1.fam[f].networks
              then ResolveNetwork(m1, sid, ev.identity, now) else m1;
    ResolvedCalls(m1, sid, ev.identity, now);
    SameNets(m1.fam[f].calls);
    d := m2.sess[sid];
    F := TouchNetwork(m2.fam[f], d.net, sid, now);
  }

  /** Every line that is heard and is a call's, with an id or a message, has a call afterwards: one the stream reached,
      still live and not another talker's, or a new one, at the end of the list and with the next id; and that call was
      told the line. */
  lemma LineHeard(m: State, sid: nat, ev: Event, now: int)
    returns (before: seq<Call>, awake: seq<Call>, ready: seq<Call>, i: nat, fate: Fate)
    requires Attends(m, sid, ev) && CallKind(ev) && (ev.src != "" || ev.tgt != "" || ev.kind == Message)
    ensures var c, r, f := m.sess[sid], Step(m, Line(sid, ev, now)), StreamFamily(m.sess[sid], ev);
            && sid in r.sess && r.sess[sid].family == f && f in r.fam
            && SameButNets(CallsOf(m, f), before) && Quieted(before, c.active, now, awake)
            && CallHeard(awake, KeptCtx(c, before, now), sid, ev, r.sess[sid].net, now, m.next, m.maxCalls, ready, i, fate,
                         r.fam[f].calls, r.next)
  {
    hide Hear, Quieted, CallHeard, Step, FreshOnes, SameButNets;
    var F, d := HeardIn(m, sid, ev, now);
    before := F.calls;
    awake, ready, i, fate := HearCalls(F, d, sid, ev, now, m.next, m.maxCalls);
    var r, f := Step(m, Line(sid, ev, now)), StreamFamily(m.sess[sid], ev);
    CallHeardBy(awake, KeptCtx(d, before, now), KeptCtx(m.sess[sid], before, now), sid, ev, r.sess[sid].net, now, m.next,
                m.maxCalls, ready, i, fate, r.fam[f].calls, r.next);
  }

  // ---- what follows ----

  /** The line's ends are the call's, wherever the line names them. */
  predicate HasEnds(k: Call, ev: Event) {
    && (ev.src != "" ==> k.src == ev.src)
    && (ev.tgt != "" ==> k.tgt == ev.tgt || '|' in ev.tgt || '|' in k.tgt)
  }

  /** The line's flags are the call's. */
  predicate HasFlags(k: Call, ev: Event) {
    && (ev.kind == Voice ==> k.voice) && (ev.kind == Message || ev.data ==> k.data)
    && (ev.emergency ==> k.emergency) && (ev.enc ==> k.encrypted)
  }

  lemma ReachedTarget(s: seq<Call>, c: Ctx, ev: Event, i: nat)
    requires Reached(s, c, ev, i) && Pointed(s, c.active) && ev.tgt != ""
    ensures s[i].tgt == "" || s[i].tgt == ev.tgt || '|' in ev.tgt || '|' in s[i].tgt
  {
    hide PointsAt, Names;
    if s[i].tgt != "" {
      var m :| 0 <= m < |c.active| && FindCall(s, c.active[m].1, |s|) == Some(i) && Names(c.active[m].0, ev);
      assert c.active[m] in c.active && s[i] in s;
      if '|' !in s[i].tgt { NamedTarget(c.active[m].0, s[i], ev); }
    }
  }

  lemma ToldEnds(k: Call, ev: Event, net: Id, now: int, l: Call)
    requires Told(k, ev, net, now, l) && Compatible(k, ev)
    requires ev.tgt != "" ==> k.tgt == "" || k.tgt == ev.tgt || '|' in ev.tgt || '|' in k.tgt
    ensures HasEnds(l, ev) && HasFlags(l, ev) && l.open == k.open && l.last == now
    ensures l.id == k.id && l.net == if k.counted then k.net else net
  {
  }

  /** Where the line's call is. */
  function HeardAt(i: nat, fate: Fate): nat {
    match fate case Stayed => i case Joined(j) => if j > i then j - 1 else j
  }

  lemma ToldThere(s: seq<Call>, i: nat, ev: Event, net: Id, now: int, t: seq<Call>, fate: Fate)
    requires ToldAt(s, i, ev, net, now, t, fate) && s[i].open && Compatible(s[i], ev)
    requires ev.tgt != "" ==> s[i].tgt == "" || s[i].tgt == ev.tgt || '|' in ev.tgt || '|' in s[i].tgt
    ensures HeardAt(i, fate) < |t|
    ensures var k := t[HeardAt(i, fate)];
            && HasEnds(k, ev) && HasFlags(k, ev) && k.open && k.last >= now && (fate.Stayed? ==> k.last == now)
            && (k.net == net || (s[i].counted && k.id == s[i].id))
  {
    hide Told, HasFlags;
    var l :| Told(s[i], ev, net, now, l)
         && match fate
            case Stayed => |t| == |s| && t[i] == l.(counted := t[i].counted, keyNoted := t[i].keyNoted)
            case Joined(j) => j < |s| && j != i && |t| == |s| - 1 && SameElsewhere(s[j], l, now) && !s[i].counted
                              && TookOver(s[j], l, t[if j < i then j else j - 1]);
    ToldEnds(s[i], ev, net, now, l);
    FlagsOn(l, t[HeardAt(i, fate)], ev);
  }

  lemma FlagsOn(l: Call, k: Call, ev: Event)
    requires HasFlags(l, ev) && (l.voice ==> k.voice) && (l.data ==> k.data) && (l.emergency ==> k.emergency)
    requires l.encrypted ==> k.encrypted
    ensures HasFlags(k, ev)
  {
  }

  lemma CallsPointed(m: State, sid: nat, f: Id, before: seq<Call>, now: int, awake: seq<Call>)
    requires StatePointed(m) && sid in m.sess && SameButNets(CallsOf(m, f), before)
    requires Quieted(before, m.sess[sid].active, now, awake)
    ensures Pointed(awake, FreshOnes(m.sess[sid].active, before, now))
  {
    hide PointsAt, Listed, Live, IdsApart, EntriesUpTo, Pointed, FreshOnes;
    FreshOnesIn(m.sess[sid].active, before, now);
    NothingPointed([], m.sess[sid].active);
    NetsOnly(CallsOf(m, f), before);
    SamePointed(CallsOf(m, f), before, m.sess[sid].active);
    SamePointed(before, awake, m.sess[sid].active);
    FewerPointed(awake, m.sess[sid].active, FreshOnes(m.sess[sid].active, before, now));
  }

  lemma NetsOnly(s: seq<Call>, t: seq<Call>)
    requires SameButNets(s, t)
    ensures |t| == |s| && forall i :: 0 <= i < |s| ==> t[i].id == s[i].id && t[i].tgt == s[i].tgt
  {
  }

  /** In any state that operations can reach: after a call's line with an id, an open call of the family has the ends and
      the flags the line names, was heard now, or later where another stream has it, and is on the stream's network, unless
      it was counted on another before. */
  lemma EndsHeard(m: State, sid: nat, ev: Event, now: int)
    requires StatePointed(m) && Attends(m, sid, ev) && CallKind(ev) && (ev.src != "" || ev.tgt != "")
    ensures var r, f := Step(m, Line(sid, ev, now)), StreamFamily(m.sess[sid], ev);
            && f in r.fam
            && sid in r.sess
            && exists k :: k in r.fam[f].calls && k.open && HasEnds(k, ev) && HasFlags(k, ev) && k.last >= now
                           && (k.net == r.sess[sid].net || exists k0 :: k0 in CallsOf(m, f) && k0.id == k.id && k0.counted)
  {
    hide Step, StatePointed, Quieted, ToldAt, HasEnds, HasFlags, SameButNets, Slotted, Reached, Opens, FreshOnes, Direct;
    var before, awake, ready, i, fate := LineHeard(m, sid, ev, now);
    var c, r, f := m.sess[sid], Step(m, Line(sid, ev, now)), StreamFamily(m.sess[sid], ev);
    CallsPointed(m, sid, f, before, now, awake);
    if r.next == m.next {
      if ev.tgt != "" { ReachedTarget(awake, KeptCtx(c, before, now), ev, i); }
      SlottedSame(awake, i, ev.slot, ready);
      SlottedOpen(awake, i, ev.slot, ready);
      LiveEarlier(CallsOf(m, f), before, c.active, now, awake, i);
    }
    ToldThere(ready, i, ev, r.sess[sid].net, now, r.fam[f].calls, fate);
    assert r.fam[f].calls[HeardAt(i, fate)] in r.fam[f].calls;
  }

  lemma LiveEarlier(s: seq<Call>, before: seq<Call>, a: seq<(Id, nat)>, now: int, awake: seq<Call>, i: nat)
    requires SameButNets(s, before) && Quieted(before, a, now, awake) && i < |awake| && Live(awake[i], now)
    ensures i < |s| && s[i] in s && s[i].id == awake[i].id && s[i].counted == awake[i].counted
  {
    hide Listed;
  }

  lemma SlottedOpen(s: seq<Call>, i: nat, slot: Id, t: seq<Call>)
    requires Slotted(s, i, slot, t)
    ensures i < |s| && |t| == |s| && t[i].open == s[i].open && t[i].counted == s[i].counted && t[i].id == s[i].id
  {
  }

  // ---- the call a stream has on a slot and target ----

  lemma {:induction false} LookupFresh(a: seq<(Id, nat)>, s: seq<Call>, now: int, key: Id)
    requires Lookup(a, key).Some? && EntryFresh((key, Lookup(a, key).value), s, now)
    ensures Lookup(FreshOnes(a, s, now), key) == Lookup(a, key)
  {
    hide EntryFresh;
    var rest := FreshOnes(a[1..], s, now);
    assert a[0] == (a[0].0, a[0].1);
    if EntryFresh(a[0], s, now) { assert ([a[0]] + rest)[1..] == rest; } else { assert [] + rest == rest; }
    if a[0].0 != key { LookupFresh(a[1..], s, now, key); }
  }

  /** The same calls by their ids, and live at the same places. */
  lemma SameLive(s: seq<Call>, before: seq<Call>, a: seq<(Id, nat)>, now: int, awake: seq<Call>)
    requires SameButNets(s, before) && Quieted(before, a, now, awake)
    ensures SameFresh(s, before, now) && SameFresh(before, awake, now)
  {
    hide Listed;
  }

  /** The direct call stays the direct one while its family wakes. */
  lemma DirectAwake(s: seq<Call>, c: Ctx, ev: Event, now: int, p: nat, before: seq<Call>, awake: seq<Call>)
    requires SameButNets(s, before) && Quieted(before, c.active, now, awake) && Direct(s, c, ev, now, p)
    ensures p < |s| == |awake| && awake[p] == before[p] && before[p].open && Direct(awake, KeptCtx(c, before, now), ev, now, p)
  {
    hide Listed, FindCall, FreshOnes, Lookup, Key, EndsAs;
    SameLive(s, before, c.active, now, awake);
    forall id: nat ensures FindCall(s, id, |s|) == FindCall(before, id, |s|) == FindCall(awake, id, |s|) {
      SameFound(s, before, id, |s|, now);
      SameFound(before, awake, id, |s|, now);
    }
    if ev.tgt != "" { LookupFresh(c.active, before, now, Key(ev.slot, ev.tgt)); }
  }

  lemma OneDirect(s: seq<Call>, c: Ctx, ev: Event, now: int, p: nat)
    requires Direct(s, c, ev, now, p) && Compatible(s[p], ev)
    ensures !Interrupts(s, c, ev, now) && !ReachesNone(s, c, ev, now)
  {
    hide FindCall, Lookup, Key, Compatible, Live;
  }

  /** A call that a line touched only by its family waking: as it was but for its network, or ended. */
  predicate LeftAlone(k: Call, now: int, l: Call) {
    && l == k.(net := l.net, open := l.open, counted := l.counted, keyNoted := l.keyNoted)
    && (Live(k, now) ==> l.open && l.counted == k.counted) && (l.open ==> k.open)
  }

  lemma AwakeAlone(k: Call, b: Call, now: int, l: Call)
    requires b == k.(net := b.net) && (l == b || (EndsAs(b, l) && !Live(b, now)))
    ensures LeftAlone(k, now, l)
  {
  }

  /** The stream's live call on the line's own slot and target, with the line's talker: that is the call, its start, ends
      and id as they were, heard now; no call is opened, and no other changes but that quiet ones end. */
  lemma SameCallHeard(m: State, sid: nat, ev: Event, now: int, p: nat)
    requires StateSettled(m) && Attends(m, sid, ev) && CallKind(ev) && ev.src != "" && ev.tgt != ""
    requires var s := CallsOf(m, StreamFamily(m.sess[sid], ev));
             Direct(s, m.sess[sid], ev, now, p) && s[p].src == ev.src && s[p].tgt == ev.tgt
    ensures var r, f := Step(m, Line(sid, ev, now)), StreamFamily(m.sess[sid], ev);
            var s := CallsOf(m, f);
            && r.next == m.next && f in r.fam && |r.fam[f].calls| == |s|
            && (forall j :: 0 <= j < |s| && j != p ==> LeftAlone(s[j], now, r.fam[f].calls[j]))
            && var k := r.fam[f].calls[p];
               && k.id == s[p].id && k.session == s[p].session && k.start == s[p].start && k.streams == s[p].streams
               && k.src == ev.src && k.tgt == ev.tgt && k.open && k.last == now && HasFlags(k, ev)
  {
    hide Step, StateSettled, Quieted, ToldAt, HasFlags, SameButNets, Direct, Opens, FreshOnes, LeftAlone, Reached;
    var before, awake, ready, i, fate := LineHeard(m, sid, ev, now);
    var c, r, f := m.sess[sid], Step(m, Line(sid, ev, now)), StreamFamily(m.sess[sid], ev);
    var s := CallsOf(m, f);
    DirectAwake(s, c, ev, now, p, before, awake);
    CompatibleNow(s, before, p, ev);
    OneDirect(awake, KeptCtx(c, before, now), ev, now, p);
    if r.next != m.next { NotOpened(awake, KeptCtx(c, before, now), ev, now, m.maxCalls, ready); }
    CountedNow(m, f, p, before);
    ToldAlone(awake, p, ev, r.sess[sid].net, now, r.fam[f].calls, fate);
    forall j | 0 <= j < |s| && j != p ensures LeftAlone(s[j], now, r.fam[f].calls[j]) {
      AwakeAt(s, before, c.active, now, awake, j);
    }
  }

  lemma NotOpened(s: seq<Call>, c: Ctx, ev: Event, now: int, maxCalls: nat, t: seq<Call>)
    requires Opens(s, c, ev, now, maxCalls, t)
    ensures Interrupts(s, c, ev, now) || ReachesNone(s, c, ev, now)
  {
    hide Interrupts, ReachesNone;
  }

  lemma CompatibleNow(s: seq<Call>, before: seq<Call>, p: nat, ev: Event)
    requires p < |s| && SameButNets(s, before) && s[p].src == ev.src && s[p].tgt == ev.tgt
    ensures p < |before| && Compatible(before[p], ev) && before[p].src == ev.src && before[p].tgt == ev.tgt
    ensures before[p] == s[p].(net := before[p].net)
  {
  }

  lemma CountedNow(m: State, f: Id, p: nat, before: seq<Call>)
    requires StateSettled(m) && SameButNets(CallsOf(m, f), before) && p < |before|
    requires CallsOf(m, f)[p].src != "" && CallsOf(m, f)[p].tgt != ""
    ensures before[p].counted
  {
    SettledIn(m, f);
    SettledAt(m.fam[f], p);
  }

  lemma AwakeAt(s: seq<Call>, before: seq<Call>, a: seq<(Id, nat)>, now: int, awake: seq<Call>, j: nat)
    requires SameButNets(s, before) && Quieted(before, a, now, awake) && j < |s|
    ensures LeftAlone(s[j], now, awake[j])
  {
    hide Listed, EndsAs, Live, LeftAlone;
    AwakeAlone(s[j], before[j], now, awake[j]);
  }

  /** A counted call is told the line where it is. */
  lemma ToldAlone(s: seq<Call>, i: nat, ev: Event, net: Id, now: int, t: seq<Call>, fate: Fate)
    requires ToldAt(s, i, ev, net, now, t, fate) && s[i].counted && s[i].open && s[i].src == ev.src && s[i].tgt == ev.tgt
    requires ev.src != "" && ev.tgt != ""
    ensures fate == Stayed && |t| == |s| && forall j :: 0 <= j < |s| && j != i ==> t[j] == s[j]
    ensures t[i].id == s[i].id && t[i].session == s[i].session && t[i].start == s[i].start && t[i].streams == s[i].streams
    ensures t[i].src == ev.src && t[i].tgt == ev.tgt && t[i].open && t[i].last == now && HasFlags(t[i], ev)
  {
  }

  // ---- a new call ----

  /** No live call of the line's talker, or of one not known, is reached. */
  ghost predicate NoneReached(s: seq<Call>, c: Ctx, ev: Event, now: int) {
    forall p: nat :: p < |s| && Live(s[p], now) && Compatible(s[p], ev) ==> !Reached(s, c, ev, p)
  }

  /** A call of the list that is ready stems from one there was: same stream, ends and kind, and live only if that was. */
  predicate Stems(k: Call, now: int, l: Call) {
    l.session == k.session && l.src == k.src && l.tgt == k.tgt && l.priv == k.priv && (Live(l, now) ==> Live(k, now))
  }

  ghost predicate AllStem(s: seq<Call>, now: int, t: seq<Call>) {
    forall l :: l in t ==> exists k :: k in s && Stems(k, now, l)
  }

  lemma StemPlaces(s: seq<Call>, now: int, t: seq<Call>)
    requires |t| == |s| && forall i :: 0 <= i < |s| ==> Stems(s[i], now, t[i])
    ensures AllStem(s, now, t)
  {
    hide Stems;
    forall l | l in t ensures exists k :: k in s && Stems(k, now, l) {
      var i :| 0 <= i < |t| && t[i] == l;
      assert s[i] in s;
    }
  }

  lemma StemTwice(s: seq<Call>, now: int, t: seq<Call>, u: seq<Call>)
    requires AllStem(s, now, t) && AllStem(t, now, u)
    ensures AllStem(s, now, u)
  {
    hide Live;
    forall l | l in u ensures exists k :: k in s && Stems(k, now, l) {
      var k :| k in t && Stems(k, now, l);
      var k0 :| k0 in s && Stems(k0, now, k);
    }
  }

  lemma NoneStem(s: seq<Call>, c: Ctx, ev: Event, now: int, t: seq<Call>)
    requires ContinuesNone(s, c, ev, now, t)
    ensures AllStem(s, now, t)
  {
    hide Reached, Compatible;
    StemPlaces(s, now, t);
  }

  lemma OpensStem(s: seq<Call>, c: Ctx, ev: Event, now: int, maxCalls: nat, t: seq<Call>)
    requires Opens(s, c, ev, now, maxCalls, t)
    ensures AllStem(s, now, t[..|t| - 1])
  {
    hide Interrupts, ReachesNone, AudioLess, Latest, AllStem;
    var u, v :| DirectEnded(s, c, ev, now, u) && SlotEnded(u, c, ev.slot, now, v) && RoomMade(v, maxCalls, t[..|t| - 1]);
    NoneStem(s, c, ev, now, u);
    EndedStem(u, c, ev.slot, now, v);
    RoomStem(v, maxCalls, t[..|t| - 1], now);
    StemTwice(s, now, u, v);
    StemTwice(s, now, v, t[..|t| - 1]);
  }

  lemma EndedStem(s: seq<Call>, c: Ctx, slot: Id, now: int, t: seq<Call>)
    requires SlotEnded(s, c, slot, now, t)
    ensures AllStem(s, now, t)
  {
    hide Latest;
    StemPlaces(s, now, t);
  }

  lemma RoomStem(s: seq<Call>, maxCalls: nat, t: seq<Call>, now: int)
    requires RoomMade(s, maxCalls, t)
    ensures AllStem(s, now, t)
  {
    hide AudioLess;
    forall l | l in t ensures l in s { }
    forall l | l in t ensures exists k :: k in s && Stems(k, now, l) { assert Stems(l, now, l); }
  }

  lemma AwakeStem(s: seq<Call>, before: seq<Call>, a: seq<(Id, nat)>, now: int, awake: seq<Call>)
    requires SameButNets(s, before) && Quieted(before, a, now, awake)
    ensures AllStem(s, now, awake)
  {
    hide Listed;
    forall i | 0 <= i < |s| ensures Stems(s[i], now, awake[i]) { }
    StemPlaces(s, now, awake);
  }

  /** What is reached while the family wakes was reached before. */
  lemma ReachedEarlier(s: seq<Call>, c: Ctx, ev: Event, now: int, before: seq<Call>, awake: seq<Call>, p: nat)
    requires SameButNets(s, before) && Quieted(before, c.active, now, awake) && p < |awake| && Live(awake[p], now)
    requires Reached(awake, KeptCtx(c, before, now), ev, p)
    ensures p < |s| && Live(s[p], now) && Reached(s, c, ev, p) && s[p].src == awake[p].src
  {
    hide Listed, FindCall, FreshOnes, Names;
    SameLive(s, before, c.active, now, awake);
    FreshOnesIn(c.active, before, now);
    forall id: nat ensures FindCall(s, id, |s|) == FindCall(awake, id, |s|) {
      SameFound(s, before, id, |s|, now);
      SameFound(before, awake, id, |s|, now);
    }
    var d := KeptCtx(c, before, now);
    if ev.tgt != "" && !(Latest(awake, d, ev.slot, p) && awake[p].tgt == "") {
      var m :| 0 <= m < |d.active| && FindCall(awake, d.active[m].1, |awake|) == Some(p) && Names(d.active[m].0, ev);
      assert d.active[m] in c.active;
      var q :| 0 <= q < |c.active| && c.active[q] == d.active[m];
    }
  }

  /** What the new call is after the line: the line's ends and flags, and no others. */
  predicate SaysOnly(k: Call, ev: Event) {
    && k.src == ev.src && k.tgt == ev.tgt && (k.priv <==> ev.priv) && (k.voice <==> HasVoice(ev))
    && (k.data <==> ev.data || ev.kind == Message) && (k.emergency <==> ev.emergency) && (k.encrypted <==> ev.enc)
    && k.kid == (if ev.enc then ev.kid else "") && k.alg == if ev.enc && ev.kid != "" then ev.alg else ""
  }

  /** Nobody else has a live call between the line's ends. */
  ghost predicate NowhereElse(s: seq<Call>, sid: nat, ev: Event, now: int) {
    forall k :: k in s && Live(k, now) && k.session != sid ==> k.src != ev.src || k.tgt != ev.tgt || k.priv != ev.priv
  }

  /** Where the line reaches no live call of its talker, and no other stream has one between its ends, a new call is the
      newest of the list: with the next id, of this stream, begun now, on its network, and saying what the line says. */
  lemma NewCallHeard(m: State, sid: nat, ev: Event, now: int)
    requires Attends(m, sid, ev) && CallKind(ev) && (ev.src != "" || ev.tgt != "" || ev.kind == Message)
    requires var s := CallsOf(m, StreamFamily(m.sess[sid], ev));
             NoneReached(s, m.sess[sid], ev, now) && NowhereElse(s, sid, ev, now)
    ensures var r, f := Step(m, Line(sid, ev, now)), StreamFamily(m.sess[sid], ev);
            && r.next == m.next + 1 && sid in r.sess && f in r.fam && r.fam[f].calls != []
            && (CallsOf(m, f) == [] ==> |r.fam[f].calls| == 1)
            && var k := r.fam[f].calls[|r.fam[f].calls| - 1];
               && k.id == m.next + 1 && k.session == sid && k.slot == ev.slot && k.net == r.sess[sid].net
               && k.start == now && k.last == now && k.open && k.streams == 1 && SaysOnly(k, ev)
  {
    hide Step, Quieted, ToldAt, SameButNets, Continues, Opens, FreshOnes, Reached, SaysOnly, AllStem, NowhereElse, IsBlank;
    var before, awake, ready, i, fate := LineHeard(m, sid, ev, now);
    var c, r, f := m.sess[sid], Step(m, Line(sid, ev, now)), StreamFamily(m.sess[sid], ev);
    var s := CallsOf(m, f);
    if r.next == m.next {
      ContinuesLive(awake, KeptCtx(c, before, now), ev, now, i, ready);
      ReachedEarlier(s, c, ev, now, before, awake, i);
    }
    AwakeStem(s, before, c.active, now, awake);
    OpensStem(awake, KeptCtx(c, before, now), ev, now, m.maxCalls, ready);
    StemTwice(s, now, awake, ready[..i]);
    BlankTold(s, ready, i, ev, sid, m.next + 1, r.sess[sid].net, now, r.fam[f].calls, fate);
    if s == [] { NoneStems(s, now, ready[..i]); }
  }

  lemma ContinuesLive(s: seq<Call>, c: Ctx, ev: Event, now: int, i: nat, t: seq<Call>)
    requires Continues(s, c, ev, now, i, t)
    ensures i < |s| && Reached(s, c, ev, i) && Live(s[i], now) && Compatible(s[i], ev)
  {
    hide Reached, Live, Compatible;
  }

  lemma NoneStems(s: seq<Call>, now: int, t: seq<Call>)
    requires AllStem(s, now, t)
    ensures t != [] ==> s != []
  {
    if t != [] {
      var l := t[0];
      assert l in t;
      var k :| k in s && Stems(k, now, l);
    }
  }

  lemma BlankTold(s: seq<Call>, ready: seq<Call>, i: nat, ev: Event, sid: nat, id: nat, net: Id, now: int, t: seq<Call>, fate: Fate)
    requires ToldAt(ready, i, ev, net, now, t, fate) && i == |ready| - 1 && IsBlank(ready[i], id, sid, ev.slot, net, now)
    requires AllStem(s, now, ready[..i]) && NowhereElse(s, sid, ev, now)
    ensures fate == Stayed && |t| == |ready| && t[i].id == id && t[i].session == sid && t[i].slot == ev.slot && t[i].net == net
    ensures t[i].start == now && t[i].last == now && t[i].open && t[i].streams == 1 && SaysOnly(t[i], ev)
  {
    hide AllStem, NowhereElse;
    NoTwins(s, ready[..i], ev, sid, now);
    assert forall j :: 0 <= j < i ==> ready[..i][j] == ready[j];
  }

  lemma NoTwins(s: seq<Call>, t: seq<Call>, ev: Event, sid: nat, now: int)
    requires AllStem(s, now, t) && NowhereElse(s, sid, ev, now)
    ensures forall j, l: Call :: 0 <= j < |t| && l.session == sid && l.src == ev.src && l.tgt == ev.tgt && l.priv == ev.priv ==>
              !SameElsewhere(t[j], l, now)
  {
    forall j | 0 <= j < |t| && Live(t[j], now) && t[j].session != sid
      ensures t[j].src != ev.src || t[j].tgt != ev.tgt || t[j].priv != ev.priv
    {
      assert t[j] in t;
      var k :| k in s && Stems(k, now, t[j]);
    }
  }

  // ---- the other lines ----

  /** A line without ids, and no message, that belongs to a call if there is one: call, voice and burst lines, and syncs of
      voice or traffic. */
  predicate Nameless(ev: Event) {
    && ev.src == "" && ev.tgt == "" && ev.kind != Message && ev.kind != Unknown
    && (CallKind(ev) || (ev.kind == Sync && (ev.voiceSync || ev.trafficSync)))
  }

  /** It is the slot's latest call's while that is live, unless it is voice and that is a data call; otherwise nobody's. */
  lemma NamelessHeard(m: State, sid: nat, ev: Event, now: int) returns (before: seq<Call>, awake: seq<Call>)
    requires Attends(m, sid, ev) && Nameless(ev)
    ensures var c, r, f := m.sess[sid], Step(m, Line(sid, ev, now)), StreamFamily(m.sess[sid], ev);
            && sid in r.sess && f in r.fam && r.next == m.next
            && SameButNets(CallsOf(m, f), before) && Quieted(before, c.active, now, awake)
            && (forall p: nat :: Direct(awake, c, ev, now, p) && !(awake[p].data && !awake[p].voice && HasVoice(ev)) ==>
                  exists fate :: ToldAt(awake, p, ev, r.sess[sid].net, now, r.fam[f].calls, fate))
            && ((forall p: nat :: Direct(awake, c, ev, now, p) ==> awake[p].data && !awake[p].voice && HasVoice(ev)) ==>
                  r.fam[f].calls == awake)
  {
    hide Hear, Quieted, Step, SameButNets, ToldAt, FindCall, VoiceLine;
    var F, d := HeardIn(m, sid, ev, now);
    before := F.calls;
    awake := HearNameless(F, d, sid, ev, now, m.next, m.maxCalls);
  }

  lemma HearNameless(F: Family, c: Ctx, sid: nat, ev: Event, now: int, n: nat, maxCalls: nat) returns (awake: seq<Call>)
    requires Nameless(ev) && !ev.roster && !(ev.kind == Sync && ev.terminator)
    ensures var r := Hear(F, c, sid, ev, now, n, maxCalls);
            && r.2 == n && Quieted(F.calls, c.active, now, awake)
            && (forall p: nat :: Direct(awake, c, ev, now, p) && !(awake[p].data && !awake[p].voice && HasVoice(ev)) ==>
                  exists fate :: ToldAt(awake, p, ev, r.1.net, now, r.0.calls, fate))
            && ((forall p: nat :: Direct(awake, c, ev, now, p) ==> awake[p].data && !awake[p].voice && HasVoice(ev)) ==>
                  r.0.calls == awake)
  {
    hide FoldEvent, Expire, ToldAt, Quieted, FindCall, OpenCall, VoiceLine, Callish, HasVoice, CallKind;
    KindsAre(ev);
    var ex := Expire(F, c.active, now);
    var F1, c1 := ex.0, c.(active := ex.1);
    QuietedIs(F, c.active, now);
    awake := F1.calls;
    var r := CurrentCall(F1, c1, ev, now);
    if r.cur.Some? {
      var fate := FoldTells(r.F, r.c, r.cur.value, ev, now);
      FoldNet(r.F, r.c, r.cur.value, ev, now);
    }
  }

  /** Lines that are no call's: a roster, a terminator and a line of unknown kind. */
  predicate NoCalls(ev: Event) {
    ev.roster || (ev.kind == Sync && ev.terminator) || ev.kind == Unknown
  }

  /** Call k after a terminator: its voice ended when it was last heard. */
  predicate Terminated(k: Call, l: Call) {
    l == k.(txEnd := if k.txEnd == 0 then k.last else k.txEnd)
  }

  /** Call k after a line of unknown kind: flags and key taken on, ends and times as they were. */
  predicate RefinedBy(k: Call, ev: Event, l: Call) {
    && l.id == k.id && l.session == k.session && l.slot == k.slot && l.net == k.net && l.src == k.src && l.tgt == k.tgt
    && l.voice == k.voice && l.data == k.data && l.open == k.open && l.start == k.start && l.last == k.last
    && l.txEnd == k.txEnd && l.streams == k.streams && l.keep == k.keep && l.counted == k.counted
    && (l.priv <==> k.priv || ev.priv) && (l.emergency <==> k.emergency || ev.emergency)
    && (l.encrypted <==> k.encrypted || ev.enc) && l.kid == (if k.kid == "" && ev.enc then ev.kid else k.kid)
    && l.alg == (if k.kid == "" && ev.enc && ev.kid != "" && ev.alg != "" then ev.alg else k.alg)
  }

  /** They open and extend no call; at most they refine the slot's latest while it is live. */
  lemma QuietLineHeard(m: State, sid: nat, ev: Event, now: int) returns (before: seq<Call>, awake: seq<Call>)
    requires sid in m.sess && Attended(m.sess[sid], ev).1 && NoCalls(ev)
    ensures var c, r, f := m.sess[sid], Step(m, Line(sid, ev, now)), StreamFamily(m.sess[sid], ev);
            && f in r.fam && r.next == m.next
            && SameButNets(CallsOf(m, f), before) && Quieted(before, c.active, now, awake)
            && |r.fam[f].calls| == |awake|
            && forall p :: 0 <= p < |awake| ==>
                 if !ev.roster && Latest(awake, c, ev.slot, p) && Live(awake[p], now) then
                   if ev.kind == Unknown then RefinedBy(awake[p], ev, r.fam[f].calls[p])
                   else Terminated(awake[p], r.fam[f].calls[p])
                 else r.fam[f].calls[p] == awake[p]
  {
    hide Hear, Quieted, Step, SameButNets, FindCall, Terminated, RefinedBy, Attended;
    var F, d := HeardIn(m, sid, ev, now);
    before := F.calls;
    awake := HearQuiet(F, d, sid, ev, now, m.next, m.maxCalls);
  }

  lemma HearQuiet(F: Family, c: Ctx, sid: nat, ev: Event, now: int, n: nat, maxCalls: nat) returns (awake: seq<Call>)
    requires NoCalls(ev)
    ensures var r := Hear(F, c, sid, ev, now, n, maxCalls);
            && r.2 == n && Quieted(F.calls, c.active, now, awake) && |r.0.calls| == |awake|
            && forall p :: 0 <= p < |awake| ==>
                 if !ev.roster && Latest(awake, c, ev.slot, p) && Live(awake[p], now) then
                   if ev.kind == Unknown then RefinedBy(awake[p], ev, r.0.calls[p]) else Terminated(awake[p], r.0.calls[p])
                 else r.0.calls[p] == awake[p]
  {
    hide Expire, Quieted, FindCall, RefineOnly, Terminated, RefinedBy;
    var ex := Expire(F, c.active, now);
    var F1, c1 := ex.0, c.(active := ex.1);
    QuietedIs(F, c.active, now);
    awake := F1.calls;
    var f := FreshCall(c1, F1, ev.slot, now);
    if ev.roster {
    } else if ev.kind == Sync && ev.terminator {
      if f.Some? { TerminatedIs(F1.calls[f.value]); }
    } else {
      RefineIs(F1, c1, ev, now);
    }
  }

  lemma TerminatedIs(k: Call)
    ensures k.txEnd == 0 ==> Terminated(k, k.(txEnd := k.last))
    ensures k.txEnd != 0 ==> Terminated(k, k)
  {
    SameEnd(k);
  }

  lemma SameEnd(k: Call)
    ensures k.(txEnd := k.txEnd) == k
  {
  }

  lemma RefineIs(F: Family, c: Ctx, ev: Event, now: int)
    ensures var f, G := FreshCall(c, F, ev.slot, now), RefineOnly(F, c, ev, now);
            && |G.calls| == |F.calls|
            && forall p :: 0 <= p < |F.calls| ==>
                 if f == Some(p) then RefinedBy(F.calls[p], ev, G.calls[p]) else G.calls[p] == F.calls[p]
  {
    hide FreshCall, SetPrivate, NoteEncrypted, Keyed, RefinedBy;
    var f := FreshCall(c, F, ev.slot, now);
    if f.Some? {
      var i := f.value;
      var F1 := if ev.priv then SetPrivate(F, i, now) else F;
      if ev.priv { SetPrivateCalls(F, i, now); }
      var F2 := if ev.emergency then SetCall(F1, i, F1.calls[i].(emergency := true)) else F1;
      EncryptedAt(F2, i, ev);
      RefinedFields(F.calls[i], ev, F1.calls[i], F2.calls[i], RefineOnly(F, c, ev, now).calls[i]);
    }
  }

  lemma RefinedFields(k: Call, ev: Event, a: Call, b: Call, l: Call)
    requires a == (if ev.priv then k.(priv := true) else k) && b == (if ev.emergency then a.(emergency := true) else a)
    requires l == (if ev.enc then Keyed(b, ev) else b).(keyNoted := l.keyNoted)
    ensures RefinedBy(k, ev, l)
  {
    hide Refined, Keyed;
    KeyedFlags(b, ev);
    LiveLines.KeyedAlike(b, ev);
    KeyedTimes(b, ev);
  }

  lemma KeyedTimes(h: Call, ev: Event)
    ensures Keyed(h, ev).last == h.last
  {
    hide Refined;
  }
}
