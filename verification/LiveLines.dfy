/** What a decoder line does to a family's calls, told by the calls' own fields: which call the line belongs to, what it
    leaves there, and what becomes of the others. */
module LiveLines {
  import opened Basics
  import opened Counters
  import opened LiveModel
  import opened CountingProofs
  import opened LiveProofs
  import opened LiveCounted
  import opened LiveLists

  /** Lines that belong to a call. */
  predicate CallKind(ev: Event) {
    ev.kind in {CallLine, Voice, Message, Burst}
  }

  /** Voice frames, a sync that says voice, and call lines with an audio codec's frame. */
  predicate HasVoice(ev: Event) {
    match ev.kind
    case Voice => true
    case Sync => ev.voiceSync
    case CallLine => ev.ambe
    case _ => false
  }

  lemma KindsAre(ev: Event)
    ensures (Callish(ev) <==> CallKind(ev)) && (VoiceLine(ev) <==> HasVoice(ev))
  {
  }

  /** Call k, having heard the line, is l: an end that was empty takes the line's, one that was known stays; the flags
      the line sets are set; and it was heard last now. */
  predicate Told(k: Call, ev: Event, net: Id, now: int, l: Call) {
    ToldParties(k, ev, net, now, l) && ToldKey(k, ev, l)
  }

  predicate ToldParties(k: Call, ev: Event, net: Id, now: int, l: Call) {
    && l.id == k.id && l.session == k.session && l.start == k.start && l.streams == k.streams && l.keep == k.keep
    && l.open == k.open && l.last == now
    && (if k.src == "" then l.src == ev.src else l.src == k.src)
    && (if k.tgt == "" then l.tgt == ev.tgt else l.tgt == k.tgt)
    && l.slot == k.slot
    && (l.voice <==> k.voice || HasVoice(ev)) && (l.data <==> k.data || ev.data || ev.kind == Message)
    && (l.emergency <==> k.emergency || ev.emergency)
    && (l.priv <==> k.priv || ev.priv)
    && l.net == (if k.counted then k.net else net)
    && l.txEnd == (if HasVoice(ev) then 0 else k.txEnd)
  }

  predicate ToldKey(k: Call, ev: Event, l: Call) {
    && (l.encrypted <==> k.encrypted || ev.enc)
    && l.kid == (if k.kid == "" && ev.enc then ev.kid else k.kid)
    && l.alg == (if k.kid == "" && ev.enc && ev.kid != "" && ev.alg != "" then ev.alg else k.alg)
  }

  /** Heard within four seconds, and still open. */
  predicate Live(k: Call, now: int) {
    k.open && now - k.last <= 4000
  }

  /** Another stream's live call between the same ends, of the same kind, on the same network. */
  predicate SameElsewhere(o: Call, l: Call, now: int) {
    && o.id != l.id && o.session != l.session && Live(o, now)
    && o.net == l.net && o.src == l.src && o.tgt == l.tgt && o.priv == l.priv
  }

  /** Call o took over the duplicate l, and is t. */
  predicate TookOver(o: Call, l: Call, t: Call) {
    && t.id == o.id && t.session == o.session && t.open == o.open && t.net == o.net && t.src == o.src && t.tgt == o.tgt
    && t.priv == o.priv && t.streams == o.streams + 1
    && t.start == (if l.start < o.start then l.start else o.start) && t.last == (if o.last < l.last then l.last else o.last)
    && (t.voice <==> o.voice || l.voice) && (t.data <==> o.data || l.data) && (t.emergency <==> o.emergency || l.emergency)
    && (t.encrypted <==> o.encrypted || l.encrypted) && (t.keep <==> o.keep || l.keep)
    && t.kid == (if o.kid == "" then l.kid else o.kid) && t.alg == (if o.kid == "" then l.alg else o.alg)
    && t.slot == (if o.slot == "" then l.slot else o.slot)
  }

  /** What became of the call a line belongs to: it was told, or it was folded into another stream's. */
  datatype Fate = Stayed | Joined(twin: nat)

  /** The list after call i was told the line. */
  ghost predicate ToldAt(s: seq<Call>, i: nat, ev: Event, net: Id, now: int, t: seq<Call>, fate: Fate) {
    && i < |s|
    && exists l :: Told(s[i], ev, net, now, l)
         && match fate
            case Stayed =>
              && |t| == |s| && (forall j :: 0 <= j < |s| && j != i ==> t[j] == s[j])
              && t[i] == l.(counted := t[i].counted, keyNoted := t[i].keyNoted)
              && (s[i].counted || l.src == "" || l.tgt == "" || forall j :: 0 <= j < |s| && j != i ==> !SameElsewhere(s[j], l, now))
            case Joined(j) =>
              && j < |s| && j != i && SameElsewhere(s[j], l, now) && !s[i].counted && l.src != "" && l.tgt != ""
              && |t| == |s| - 1 && TookOver(s[j], l, t[if j < i then j else j - 1])
              && forall m :: 0 <= m < |s| && m != i && m != j ==> t[if m < i then m else m - 1] == s[m]
  }

  // ---- folding a line into its call ----

  /** Alike in all that only the line's ends, kind and network bear on. */
  predicate AlikeOtherwise(h: Call, l: Call) {
    && l.id == h.id && l.session == h.session && l.net == h.net && l.slot == h.slot && l.src == h.src && l.tgt == h.tgt
    && l.voice == h.voice && l.data == h.data && l.emergency == h.emergency && l.open == h.open && l.counted == h.counted
    && l.keep == h.keep && l.start == h.start && l.txEnd == h.txEnd && l.streams == h.streams
  }

  /** The line's own facts, before its encryption is looked at. */
  lemma HeardTold(k: Call, c: Ctx, ev: Event, now: int, l: Call)
    requires AlikeOtherwise(Heard(k, c, ev), l) && l.last == now && (l.priv <==> k.priv || ev.priv)
    ensures ToldParties(k, ev, c.net, now, l) && l.counted == k.counted
  {
  }

  lemma HeardKey(k: Call, c: Ctx, ev: Event)
    ensures var h := Heard(k, c, ev); h.kid == k.kid && h.alg == k.alg && h.encrypted == k.encrypted && h.priv == k.priv
  {
  }

  lemma AlikeTwice(h: Call, g: Call, l: Call)
    requires AlikeOtherwise(h, g) && AlikeOtherwise(g, l)
    ensures AlikeOtherwise(h, l)
  {
  }

  lemma AlikeKeyed(h: Call, kid: Id, alg: Id)
    ensures AlikeOtherwise(h, h) && AlikeOtherwise(h, h.(encrypted := true)) && AlikeOtherwise(h, h.(kid := kid, alg := alg))
  {
  }

  lemma KeyedAlike(h: Call, ev: Event)
    ensures AlikeOtherwise(h, Keyed(h, ev))
  {
    hide Refined, AlikeOtherwise;
    var k := h.(encrypted := true);
    AlikeKeyed(h, "", "");
    if h.kid == "" && ev.kid != "" {
      var alg := if ev.alg != "" then ev.alg else k.alg;
      AlikeKeyed(k, ev.kid, alg);
      AlikeTwice(h, k, k.(kid := ev.kid, alg := alg));
    }
  }

  lemma KeyFields(k: Call, kid: Id, alg: Id)
    ensures var l := k.(kid := kid, alg := alg);
            l.kid == kid && l.alg == alg && l.encrypted == k.encrypted && l.priv == k.priv
  {
  }

  lemma EncryptedFields(k: Call)
    ensures var l := k.(encrypted := true); l.kid == k.kid && l.alg == k.alg && l.encrypted && l.priv == k.priv
  {
  }

  lemma KeyedFlags(h: Call, ev: Event)
    ensures Keyed(h, ev).encrypted && Keyed(h, ev).priv == h.priv
    ensures Keyed(h, ev).kid == if h.kid == "" then ev.kid else h.kid
    ensures Keyed(h, ev).alg == if h.kid == "" && ev.kid != "" && ev.alg != "" then ev.alg else h.alg
  {
    hide *;
    EncryptedFields(h);
    KeyFields(h.(encrypted := true), ev.kid, if ev.alg != "" then ev.alg else h.alg);
    KeyedIs(h, ev);
  }

  lemma KeyedIs(h: Call, ev: Event)
    ensures var k := h.(encrypted := true);
            Keyed(h, ev) == if h.kid == "" && ev.kid != "" then k.(kid := ev.kid, alg := if ev.alg != "" then ev.alg else h.alg) else k
  {
    hide Refined;
    EncryptedFields(h);
  }

  /** Up to where the call may be counted. */
  lemma FoldedTold(F: Family, c: Ctx, i: nat, ev: Event, now: int)
    requires i < |F.calls|
    ensures var F1 := SetCall(F, i, Heard(F.calls[i], c, ev));
            var F2 := if ev.enc then NoteEncrypted(F1, i, ev) else F1;
            var F3 := SetCall(F2, i, F2.calls[i].(last := now));
            var F4 := if ev.priv then SetPrivate(F3, i, now) else F3;
            && F4.calls == F.calls[i := F4.calls[i]] && Told(F.calls[i], ev, c.net, now, F4.calls[i])
            && F4.calls[i].counted == F.calls[i].counted
  {
    hide NoteEncrypted, SetPrivate, Heard, NoteKey, Keyed, Told;
    var k := F.calls[i];
    var h := Heard(k, c, ev);
    var F1 := SetCall(F, i, h);
    var F2 := if ev.enc then NoteEncrypted(F1, i, ev) else F1;
    EncryptedAt(F1, i, ev);
    var a := F2.calls[i];
    var F3 := SetCall(F2, i, a.(last := now));
    var F4 := if ev.priv then SetPrivate(F3, i, now) else F3;
    if ev.priv { SetPrivateCalls(F3, i, now); }
    assert F4.calls == F.calls[i := F4.calls[i]];
    TellAll(k, h, c, ev, now, a, F4.calls[i]);
  }

  lemma TellAll(k: Call, h: Call, c: Ctx, ev: Event, now: int, a: Call, l: Call)
    requires h == Heard(k, c, ev) && a == (if ev.enc then Keyed(h, ev) else h).(keyNoted := a.keyNoted)
    requires l == if ev.priv then a.(last := now).(priv := true) else a.(last := now)
    ensures Told(k, ev, c.net, now, l) && l.counted == k.counted
  {
    hide Heard, Keyed, ToldParties, ToldKey, AlikeOtherwise;
    var g := if ev.enc then Keyed(h, ev) else h;
    KeyedAlike(h, ev);
    KeyedFlags(h, ev);
    HeardKey(k, c, ev);
    AlikeKeyed(h, "", "");
    NotedFields(g, a);
    AlikeTwice(h, g, a);
    HeardFields(a, now, ev.priv, l);
    AlikeTwice(h, a, l);
    HeardTold(k, c, ev, now, l);
    KeyTold(k, ev, h, g, l);
  }

  lemma KeyTold(k: Call, ev: Event, h: Call, g: Call, l: Call)
    requires h.kid == k.kid && h.alg == k.alg && h.encrypted == k.encrypted
    requires l.kid == g.kid && l.alg == g.alg && l.encrypted == g.encrypted
    requires g.encrypted == (h.encrypted || ev.enc) && g.kid == (if h.kid == "" && ev.enc then ev.kid else h.kid)
    requires g.alg == if h.kid == "" && ev.enc && ev.kid != "" && ev.alg != "" then ev.alg else h.alg
    ensures ToldKey(k, ev, l)
  {
  }

  lemma NotedFields(g: Call, a: Call)
    requires a == g.(keyNoted := a.keyNoted)
    ensures AlikeOtherwise(g, a) && a.priv == g.priv && a.encrypted == g.encrypted && a.kid == g.kid && a.alg == g.alg
  {
  }

  lemma HeardFields(a: Call, now: int, private: bool, l: Call)
    requires l == if private then a.(last := now).(priv := true) else a.(last := now)
    ensures AlikeOtherwise(a, l) && l.last == now && (l.priv <==> a.priv || private)
    ensures l.encrypted == a.encrypted && l.kid == a.kid && l.alg == a.alg
  {
  }

  lemma EncryptedAt(F: Family, i: nat, ev: Event)
    requires i < |F.calls|
    ensures var G := if ev.enc then NoteEncrypted(F, i, ev) else F;
            && G.calls == F.calls[i := G.calls[i]]
            && G.calls[i] == (if ev.enc then Keyed(F.calls[i], ev) else F.calls[i]).(keyNoted := G.calls[i].keyNoted)
  {
    hide NoteEncrypted, NoteKey, Keyed;
    SameFlag(F.calls[i]);
    if ev.enc {
      NoteEncryptedIs(F, i, ev);
      NoteKeyAt(SetCall(F, i, Keyed(F.calls[i], ev)), i);
    }
  }

  lemma SameFlag(k: Call)
    ensures k.(keyNoted := k.keyNoted) == k
  {
  }

  lemma {:induction false} NoTwin(calls: seq<Call>, k: Call, now: int, n: nat)
    requires n <= |calls| && FindTwin(calls, k, now, n).None?
    ensures forall j :: 0 <= j < n ==> !IsTwin(calls[j], k, now)
  {
    hide IsTwin;
    if n > 0 { NoTwin(calls, k, now, n - 1); }
  }

  lemma TwinElsewhere(o: Call, k: Call, now: int)
    ensures IsTwin(o, k, now) <==> SameElsewhere(o, k, now)
  {
  }

  lemma JoinedTookOver(o: Call, l: Call, n: bool, m: bool)
    ensures TookOver(o, l, LiveModel.Joined(o, l).(keyNoted := n, counted := m))
  {
  }

  /** A told call, once it may be counted: it stays, or is folded into its twin. */
  lemma CountOrFoldIs(s: seq<Call>, F: Family, c: Ctx, i: nat, ev: Event, net: Id, now: int) returns (fate: Fate)
    requires i < |F.calls| && i < |s| && F.calls == s[i := F.calls[i]] && Told(s[i], ev, net, now, F.calls[i])
    requires F.calls[i].counted == s[i].counted
    ensures ToldAt(s, i, ev, net, now, CountedOrFolded(F, c, i, ev.slot, now).0.calls, fate)
  {
    hide CountCall, AdoptTwin, Told, SameElsewhere, TookOver, IsTwin;
    hide ToldAt, CountedOrFolded;
    var l := F.calls[i];
    Branches(F, c, i, ev.slot, now);
    fate := Stayed;
    if l.counted || l.src == "" || l.tgt == "" {
      UncountedAt(s, F, i, ev, net, now);
    } else {
      var t := FindTwin(F.calls, l, now, |F.calls|);
      if t.None? {
        Unmatched(s, F, i, now);
        CountedAt(s, F, i, ev, net, now);
      } else {
        fate := Joined(t.value);
        FoldedAt(s, F, c, i, t.value, ev, net, now);
      }
    }
  }

  lemma UncountedAt(s: seq<Call>, F: Family, i: nat, ev: Event, net: Id, now: int)
    requires i < |F.calls| && i < |s| && F.calls == s[i := F.calls[i]] && Told(s[i], ev, net, now, F.calls[i])
    requires s[i].counted || F.calls[i].src == "" || F.calls[i].tgt == ""
    ensures ToldAt(s, i, ev, net, now, F.calls, Stayed)
  {
    hide Told, SameElsewhere, ToldAt;
    SameFlags(F.calls[i]);
    StayedAt(s, i, ev, net, now, F.calls, F.calls[i]);
  }

  lemma Branches(F: Family, c: Ctx, i: nat, slot: Id, now: int)
    requires i < |F.calls|
    ensures var k, G := F.calls[i], CountedOrFolded(F, c, i, slot, now).0;
            var t := FindTwin(F.calls, k, now, |F.calls|);
            if k.counted || k.src == "" || k.tgt == "" then G == F
            else if t.None? then G == CountCall(F, i, now)
            else i != t.value ==> var r := AdoptTwin(F, c, i, t.value, slot);
                                  G == if r.F.calls[r.cur.value].counted then r.F else CountCall(r.F, r.cur.value, now)
  {
    hide CountCall, AdoptTwin, FindTwin, IsTwin;
  }

  lemma Unmatched(s: seq<Call>, F: Family, i: nat, now: int)
    requires i < |F.calls| && i < |s| && F.calls == s[i := F.calls[i]] && FindTwin(F.calls, F.calls[i], now, |F.calls|).None?
    ensures forall j :: 0 <= j < |s| && j != i ==> !SameElsewhere(s[j], F.calls[i], now)
  {
    hide IsTwin, SameElsewhere, FindTwin;
    NoTwin(F.calls, F.calls[i], now, |F.calls|);
    forall j | 0 <= j < |s| && j != i ensures !SameElsewhere(s[j], F.calls[i], now) {
      assert s[j] == F.calls[j];
      TwinElsewhere(s[j], F.calls[i], now);
    }
  }

  lemma CountedAt(s: seq<Call>, F: Family, i: nat, ev: Event, net: Id, now: int)
    requires i < |F.calls| && i < |s| && F.calls == s[i := F.calls[i]] && Told(s[i], ev, net, now, F.calls[i])
    requires forall j :: 0 <= j < |s| && j != i ==> !SameElsewhere(s[j], F.calls[i], now)
    ensures ToldAt(s, i, ev, net, now, CountCall(F, i, now).calls, Stayed)
  {
    hide CountCall, Told, SameElsewhere, ToldAt;
    CountCallAt(F, i, now);
    StayedAt(s, i, ev, net, now, CountCall(F, i, now).calls, F.calls[i]);
  }

  lemma FoldedAt(s: seq<Call>, F: Family, c: Ctx, i: nat, j: nat, ev: Event, net: Id, now: int)
    requires i < |F.calls| && i < |s| && F.calls == s[i := F.calls[i]] && Told(s[i], ev, net, now, F.calls[i])
    requires F.calls[i].counted == s[i].counted && j < |F.calls| && IsTwin(F.calls[j], F.calls[i], now)
    requires !s[i].counted && F.calls[i].src != "" && F.calls[i].tgt != ""
    ensures i != j
    ensures var r := AdoptTwin(F, c, i, j, ev.slot);
            var G := if r.F.calls[r.cur.value].counted then r.F else CountCall(r.F, r.cur.value, now);
            ToldAt(s, i, ev, net, now, G.calls, Joined(j))
  {
    hide CountCall, AdoptTwin, Told, SameElsewhere, TookOver, IsTwin, ToldAt;
    TwinElsewhere(F.calls[j], F.calls[i], now);
    NotOneself(F.calls[i], now);
    FoldIs(F, c, i, j, ev.slot, now);
    var r := AdoptTwin(F, c, i, j, ev.slot);
    var G := if r.F.calls[r.cur.value].counted then r.F else CountCall(r.F, r.cur.value, now);
    FoldedList(F, s, i, j, G.calls);
    JoinedAt(s, i, j, ev, net, now, G.calls, F.calls[i]);
  }

  lemma FoldedList(F: Family, s: seq<Call>, i: nat, j: nat, t: seq<Call>)
    requires i < |s| && |F.calls| == |s| && F.calls == s[i := F.calls[i]] && j < |s| && j != i && |t| == |s| - 1
    requires forall m :: 0 <= m < |F.calls| && m != i && m != j ==> t[if m < i then m else m - 1] == F.calls[m]
    ensures s[j] == F.calls[j] && forall m :: 0 <= m < |s| && m != i && m != j ==> t[if m < i then m else m - 1] == s[m]
  {
    forall m | 0 <= m < |s| && m != i ensures F.calls[m] == s[m] { }
  }

  lemma StayedAt(s: seq<Call>, i: nat, ev: Event, net: Id, now: int, t: seq<Call>, l: Call)
    requires i < |s| && i < |t| && Told(s[i], ev, net, now, l) && t == s[i := t[i]]
    requires t[i] == l.(counted := t[i].counted, keyNoted := t[i].keyNoted)
    requires s[i].counted || l.src == "" || l.tgt == "" || forall j :: 0 <= j < |s| && j != i ==> !SameElsewhere(s[j], l, now)
    ensures ToldAt(s, i, ev, net, now, t, Stayed)
  {
    hide Told, SameElsewhere;
  }

  lemma JoinedAt(s: seq<Call>, i: nat, j: nat, ev: Event, net: Id, now: int, t: seq<Call>, l: Call)
    requires i < |s| && Told(s[i], ev, net, now, l) && j < |s| && j != i && SameElsewhere(s[j], l, now)
    requires !s[i].counted && l.src != "" && l.tgt != ""
    requires |t| == |s| - 1 && TookOver(s[j], l, t[if j < i then j else j - 1])
    requires forall m :: 0 <= m < |s| && m != i && m != j ==> t[if m < i then m else m - 1] == s[m]
    ensures ToldAt(s, i, ev, net, now, t, Joined(j))
  {
    hide Told, SameElsewhere, TookOver;
  }

  lemma SameFlags(k: Call)
    ensures k == k.(counted := k.counted, keyNoted := k.keyNoted)
  {
  }

  lemma NotOneself(k: Call, now: int)
    ensures !IsTwin(k, k, now)
  {
  }

  lemma FoldIs(F: Family, c: Ctx, i: nat, j: nat, slot: Id, now: int)
    requires i < |F.calls| && j < |F.calls| && i != j
    ensures var r := AdoptTwin(F, c, i, j, slot);
            var G := if r.F.calls[r.cur.value].counted then r.F else CountCall(r.F, r.cur.value, now);
            && |G.calls| == |F.calls| - 1 && TookOver(F.calls[j], F.calls[i], G.calls[if j < i then j else j - 1])
            && forall m :: 0 <= m < |F.calls| && m != i && m != j ==> G.calls[if m < i then m else m - 1] == F.calls[m]
  {
    hide AdoptTwin, CountCall, LiveModel.Joined, TookOver;
    AdoptIs(F, c, i, j, slot);
    var r := AdoptTwin(F, c, i, j, slot);
    var k := r.F.calls[r.cur.value];
    JoinedTookOver(F.calls[j], F.calls[i], k.keyNoted, k.counted);
    SameFlags(k);
    if !k.counted {
      CountCallAt(r.F, r.cur.value, now);
      var k' := CountCall(r.F, r.cur.value, now).calls[r.cur.value];
      JoinedTookOver(F.calls[j], F.calls[i], k'.keyNoted, true);
    }
  }

  lemma FoldTells(F: Family, c: Ctx, i: nat, ev: Event, now: int) returns (fate: Fate)
    requires i < |F.calls|
    ensures ToldAt(F.calls, i, ev, c.net, now, FoldEvent(F, c, i, ev, now).0.calls, fate)
  {
    hide NoteEncrypted, SetPrivate, Heard, CountedOrFolded, FoldEvent, FoldedCtx, ToldAt, Told;
    FoldedTold(F, c, i, ev, now);
    var F1 := SetCall(F, i, Heard(F.calls[i], c, ev));
    var F2 := if ev.enc then NoteEncrypted(F1, i, ev) else F1;
    var F3 := SetCall(F2, i, F2.calls[i].(last := now));
    var F4 := if ev.priv then SetPrivate(F3, i, now) else F3;
    FoldEventIs(F, c, i, ev, now);
    fate := CountOrFoldIs(F.calls, F4, FoldedCtx(F, c, i, ev), i, ev, c.net, now);
  }

  // ---- which call a line belongs to ----

  /** Not another talker's. */
  predicate Compatible(k: Call, ev: Event) {
    ev.src == "" || k.src == "" || k.src == ev.src
  }

  /** The key of an active call names the line's slot and target, or its target where one of the slots is not known. */
  predicate Names(key: Id, ev: Event) {
    var bar := LastBar(key, |key|);
    key == Key(ev.slot, ev.tgt) || (bar >= 0 && key[bar + 1..] == ev.tgt && (key[..bar] == "" || ev.slot == ""))
  }

  /** Call i is the slot's latest. */
  predicate Latest(s: seq<Call>, c: Ctx, slot: Id, i: nat) {
    slot in c.lastOnSlot && FindCall(s, c.lastOnSlot[slot], |s|) == Some(i)
  }

  /** The line reaches call i: through an active call on its target, or as the latest of its slot. */
  predicate Reached(s: seq<Call>, c: Ctx, ev: Event, i: nat) {
    i < |s|
    && if ev.tgt == "" then Latest(s, c, ev.slot, i)
       else (exists m :: 0 <= m < |c.active| && FindCall(s, c.active[m].1, |s|) == Some(i) && Names(c.active[m].0, ev))
            || (Latest(s, c, ev.slot, i) && s[i].tgt == "")
  }

  /** The same list but for call i's slot, which was not known and is now. */
  predicate Slotted(s: seq<Call>, i: nat, slot: Id, t: seq<Call>) {
    i < |s| && |t| == |s| && (t == s || (s[i].slot == "" && t == s[i := s[i].(slot := slot)]))
  }

  /** The line continues call i. */
  ghost predicate Continues(s: seq<Call>, c: Ctx, ev: Event, now: int, i: nat, t: seq<Call>) {
    Reached(s, c, ev, i) && Live(s[i], now) && Compatible(s[i], ev) && Slotted(s, i, ev.slot, t)
  }

  /** It continues none: another talker's call that it reached ends. */
  ghost predicate ContinuesNone(s: seq<Call>, c: Ctx, ev: Event, now: int, t: seq<Call>) {
    t == s
    || (|t| == |s|
        && exists i: nat, u: seq<Call> ::
             Reached(s, c, ev, i) && Live(s[i], now) && !Compatible(s[i], ev) && Slotted(s, i, ev.slot, u)
             && t == u[i := t[i]] && EndsAs(u[i], t[i]))
  }

  lemma {:induction false} AdoptableNames(a: seq<(Id, nat)>, F: Family, slot: Id, tgt: Id, src: Id, now: int) returns (m: nat)
    requires FindAdoptable(a, F, slot, tgt, src, now).Some?
    ensures m < |a| && Adoptable(a[m], F, slot, tgt, src, now)
    ensures var r := FindAdoptable(a, F, slot, tgt, src, now).value;
            a[m].0 == r.0 && FindCall(F.calls, a[m].1, |F.calls|) == Some(r.1)
  {
    hide Adoptable, FindCall;
    m := 0;
    if !Adoptable(a[0], F, slot, tgt, src, now) {
      var n := AdoptableNames(a[1..], F, slot, tgt, src, now);
      m := n + 1;
    } else {
      AdoptableFound(a[0], F, slot, tgt, src, now);
    }
  }

  lemma AdoptableFound(e: (Id, nat), F: Family, slot: Id, tgt: Id, src: Id, now: int)
    requires Adoptable(e, F, slot, tgt, src, now)
    ensures FindCall(F.calls, e.1, |F.calls|).Some?
  {
  }

  lemma {:induction false} LookupAt(a: seq<(Id, nat)>, key: Id) returns (m: nat)
    requires Lookup(a, key).Some?
    ensures m < |a| && a[m] == (key, Lookup(a, key).value)
  {
    m := 0;
    if a[0].0 != key {
      var n := LookupAt(a[1..], key);
      m := n + 1;
    }
  }

  /** The call of a line with a target. */
  lemma TargetCall(F: Family, c: Ctx, ev: Event, now: int)
    requires ev.tgt != ""
    ensures var r := CallOfTarget(F, c, ev, now);
            && r.c.lastOnSlot == c.lastOnSlot && r.c.net == c.net
            && if r.cur.None? then r.F.calls == F.calls
               else Reached(F.calls, c, ev, r.cur.value) && Live(F.calls[r.cur.value], now)
                    && Slotted(F.calls, r.cur.value, ev.slot, r.F.calls)
  {
    hide FindAdoptable, Adoptable, Lookup, FindCall, Names, Key, Put, Erase, LastBar;
    var known := Lookup(c.active, Key(ev.slot, ev.tgt));
    var f := if known.Some? then FindCall(F.calls, known.value, |F.calls|) else None;
    if f.Some? && Fresh(F.calls[f.value], now) {
      var m := LookupAt(c.active, Key(ev.slot, ev.tgt));
      KeyNames(c.active[m].0, ev);
    } else {
      var ad := FindAdoptable(c.active, F, ev.slot, ev.tgt, ev.src, now);
      if ad.Some? {
        var m := AdoptableNames(c.active, F, ev.slot, ev.tgt, ev.src, now);
        AdoptableIs(c.active[m], F, ev, now);
      }
    }
  }

  lemma KeyNames(key: Id, ev: Event)
    ensures key == Key(ev.slot, ev.tgt) ==> Names(key, ev)
  {
  }

  lemma AdoptableIs(e: (Id, nat), F: Family, ev: Event, now: int)
    requires Adoptable(e, F, ev.slot, ev.tgt, ev.src, now)
    ensures Names(e.0, ev)
    ensures var f := FindCall(F.calls, e.1, |F.calls|); f.Some? && Live(F.calls[f.value], now)
  {
  }

  lemma SlotlessCall(F: Family, c: Ctx, ev: Event, now: int)
    requires ev.tgt == ""
    ensures var r := FreshCall(c, F, ev.slot, now);
            r.Some? ==> Reached(F.calls, c, ev, r.value) && Live(F.calls[r.value], now) && Slotted(F.calls, r.value, ev.slot, F.calls)
  {
    hide FindCall;
  }

  lemma CurrentIs(F: Family, c: Ctx, ev: Event, now: int)
    ensures var r := CurrentCall(F, c, ev, now);
            && r.c.lastOnSlot == c.lastOnSlot && r.c.net == c.net
            && if r.cur.Some? then Continues(F.calls, c, ev, now, r.cur.value, r.F.calls)
               else ContinuesNone(F.calls, c, ev, now, r.F.calls)
                    || (ev.src == "" && ev.tgt == "" && HasVoice(ev) && r.F.calls == F.calls)
  {
    hide CallOfTarget, FreshCall, CloseCall, Reached, Slotted, EndsAs, Live;
    var r := if ev.tgt != "" then CallOfTarget(F, c, ev, now) else Found(F, c, FreshCall(c, F, ev.slot, now));
    if ev.tgt != "" { TargetCall(F, c, ev, now); } else { SlotlessCall(F, c, ev, now); }
    if r.cur.Some? {
      var i := r.cur.value;
      SlottedSame(F.calls, i, ev.slot, r.F.calls);
      CloseEnds(r.F, i);
    }
  }

  lemma SlottedSame(s: seq<Call>, i: nat, slot: Id, t: seq<Call>)
    requires Slotted(s, i, slot, t)
    ensures i < |s| && |t| == |s| && t[i].src == s[i].src && t[i].tgt == s[i].tgt
  {
  }

  /** The active call under the line's own slot and target, while it is live, is the one, or is another talker's. */
  lemma KeyCall(F: Family, c: Ctx, ev: Event, now: int, i: nat)
    requires ev.tgt != "" && i < |F.calls| && Live(F.calls[i], now)
    requires var id := Lookup(c.active, Key(ev.slot, ev.tgt)); id.Some? && FindCall(F.calls, id.value, |F.calls|) == Some(i)
    ensures var r := CurrentCall(F, c, ev, now);
            if Compatible(F.calls[i], ev) then r.cur == Some(i) && r.F.calls == F.calls
            else r.cur.None? && r.F.calls == F.calls[i := r.F.calls[i]] && EndsAs(F.calls[i], r.F.calls[i])
  {
    hide FindAdoptable, Lookup, FindCall, Key, CloseCall, EndsAs;
    CloseEnds(F, i);
  }

  /** The call the line finds directly: that of its own slot and target, or without a target its slot's latest. */
  predicate Direct(s: seq<Call>, c: Ctx, ev: Event, now: int, p: nat) {
    && p < |s| && Live(s[p], now)
    && if ev.tgt == "" then Latest(s, c, ev.slot, p)
       else var id := Lookup(c.active, Key(ev.slot, ev.tgt)); id.Some? && FindCall(s, id.value, |s|) == Some(p)
  }

  /** A call on the line's target where one of the two slots is not known, or the slot's latest without a target. */
  predicate Indirect(s: seq<Call>, c: Ctx, ev: Event, now: int, p: nat) {
    && p < |s| && Live(s[p], now) && ev.tgt != ""
    && ((Latest(s, c, ev.slot, p) && s[p].tgt == "")
        || exists m :: 0 <= m < |c.active| && FindCall(s, c.active[m].1, |s|) == Some(p) && OnTarget(c.active[m].0, ev))
  }

  predicate OnTarget(key: Id, ev: Event) {
    var bar := LastBar(key, |key|);
    bar >= 0 && key[bar + 1..] == ev.tgt && (key[..bar] == "" || ev.slot == "")
  }

  lemma {:induction false} NoneAdoptable(a: seq<(Id, nat)>, F: Family, slot: Id, tgt: Id, src: Id, now: int)
    requires FindAdoptable(a, F, slot, tgt, src, now).None?
    ensures forall m :: 0 <= m < |a| ==> !Adoptable(a[m], F, slot, tgt, src, now)
  {
    hide Adoptable, FindCall;
    if a != [] { NoneAdoptable(a[1..], F, slot, tgt, src, now); }
  }

  lemma AdoptableIf(e: (Id, nat), F: Family, ev: Event, now: int, p: nat)
    requires FindCall(F.calls, e.1, |F.calls|) == Some(p) && OnTarget(e.0, ev) && Live(F.calls[p], now) && Compatible(F.calls[p], ev)
    ensures Adoptable(e, F, ev.slot, ev.tgt, ev.src, now)
  {
  }

  /** A line with a target for which no call is found reached no live call that is not another talker's. */
  lemma TargetNone(F: Family, c: Ctx, ev: Event, now: int, p: nat)
    requires ev.tgt != "" && CallOfTarget(F, c, ev, now).cur.None? && p < |F.calls| && Compatible(F.calls[p], ev)
    ensures !Direct(F.calls, c, ev, now, p) && !Indirect(F.calls, c, ev, now, p)
  {
    hide FindAdoptable, Adoptable, Lookup, FindCall, OnTarget, Key;
    if Indirect(F.calls, c, ev, now, p) && !(Latest(F.calls, c, ev.slot, p) && F.calls[p].tgt == "") {
      NoneAdoptable(c.active, F, ev.slot, ev.tgt, ev.src, now);
      var m :| 0 <= m < |c.active| && FindCall(F.calls, c.active[m].1, |F.calls|) == Some(p) && OnTarget(c.active[m].0, ev);
      AdoptableIf(c.active[m], F, ev, now, p);
      assert false;
    }
  }

  /** The direct call is another talker's. */
  ghost predicate Interrupts(s: seq<Call>, c: Ctx, ev: Event, now: int) {
    exists q: nat :: Direct(s, c, ev, now, q) && !Compatible(s[q], ev)
  }

  /** The line reaches no live call of its own talker. */
  ghost predicate ReachesNone(s: seq<Call>, c: Ctx, ev: Event, now: int) {
    forall p: nat :: p < |s| && Compatible(s[p], ev) ==> !Direct(s, c, ev, now, p) && !Indirect(s, c, ev, now, p)
  }

  /** What is found for a line with an id or a message: the direct call, if it is not another talker's, and otherwise that
      ends; and no call, only if the direct one is another talker's or none is reached. */
  lemma CurrentComplete(F: Family, c: Ctx, ev: Event, now: int)
    requires ev.src != "" || ev.tgt != "" || ev.kind == Message
    ensures var r := CurrentCall(F, c, ev, now);
            && (r.cur.None? ==> Interrupts(F.calls, c, ev, now) || ReachesNone(F.calls, c, ev, now))
            && (forall p: nat :: Direct(F.calls, c, ev, now, p) ==>
                  if Compatible(F.calls[p], ev) then r.cur == Some(p) && r.F.calls == F.calls
                  else r.cur.None? && p < |r.F.calls| && EndsAs(F.calls[p], r.F.calls[p]))
  {
    hide CallOfTarget, CurrentCall, FindCall, EndsAs, Lookup, Key, Indirect, VoiceLine;
    var r := CurrentCall(F, c, ev, now);
    forall p: nat | Direct(F.calls, c, ev, now, p)
      ensures if Compatible(F.calls[p], ev) then r.cur == Some(p) && r.F.calls == F.calls
              else r.cur.None? && p < |r.F.calls| && EndsAs(F.calls[p], r.F.calls[p])
    {
      if ev.tgt != "" { KeyCall(F, c, ev, now, p); } else { LatestCall(F, c, ev, now, p); }
    }
    if r.cur.None? && !Interrupts(F.calls, c, ev, now) {
      forall p: nat | p < |F.calls| && Compatible(F.calls[p], ev)
        ensures !Direct(F.calls, c, ev, now, p) && !Indirect(F.calls, c, ev, now, p)
      {
        if ev.tgt == "" { NoTargetNone(F.calls, c, ev, now, p); } else { NoneFound(F, c, ev, now, p); }
      }
    }
  }

  lemma NoTargetNone(s: seq<Call>, c: Ctx, ev: Event, now: int, p: nat)
    requires ev.tgt == ""
    ensures !Indirect(s, c, ev, now, p)
  {
  }

  lemma LatestCall(F: Family, c: Ctx, ev: Event, now: int, p: nat)
    requires ev.tgt == "" && (ev.src != "" || ev.kind == Message) && Direct(F.calls, c, ev, now, p)
    ensures var r := CurrentCall(F, c, ev, now);
            if Compatible(F.calls[p], ev) then r.cur == Some(p) && r.F.calls == F.calls
            else r.cur.None? && p < |r.F.calls| && EndsAs(F.calls[p], r.F.calls[p])
  {
    hide CloseCall, FindCall, EndsAs;
    CloseEnds(F, p);
  }

  lemma NoneFound(F: Family, c: Ctx, ev: Event, now: int, p: nat)
    requires ev.tgt != "" && CurrentCall(F, c, ev, now).cur.None? && p < |F.calls| && Compatible(F.calls[p], ev)
    requires !Interrupts(F.calls, c, ev, now)
    ensures !Direct(F.calls, c, ev, now, p) && !Indirect(F.calls, c, ev, now, p)
  {
    hide CallOfTarget, CloseCall, Direct, Indirect;
    var r := CallOfTarget(F, c, ev, now);
    if r.cur.None? {
      TargetNone(F, c, ev, now, p);
    } else {
      TargetDirect(F, c, ev, now);
    }
  }

  /** A call that was found and is another talker's is the direct one. */
  lemma TargetDirect(F: Family, c: Ctx, ev: Event, now: int)
    requires ev.tgt != ""
    ensures var r := CallOfTarget(F, c, ev, now);
            r.cur.Some? && !Compatible(r.F.calls[r.cur.value], ev) ==>
              r.F.calls == F.calls && Direct(F.calls, c, ev, now, r.cur.value)
  {
    hide FindAdoptable, Adoptable, Lookup, FindCall, Key, Put, Erase, FreshCall, LastBar;
    var known := Lookup(c.active, Key(ev.slot, ev.tgt));
    var f := if known.Some? then FindCall(F.calls, known.value, |F.calls|) else None;
    if !(f.Some? && Fresh(F.calls[f.value], now)) {
      var ad := FindAdoptable(c.active, F, ev.slot, ev.tgt, ev.src, now);
      if ad.Some? {
        var m := AdoptableNames(c.active, F, ev.slot, ev.tgt, ev.src, now);
        AdoptableFits(c.active[m], F, ev, now);
      }
    }
  }

  lemma AdoptableFits(e: (Id, nat), F: Family, ev: Event, now: int)
    requires Adoptable(e, F, ev.slot, ev.tgt, ev.src, now)
    ensures var f := FindCall(F.calls, e.1, |F.calls|); f.Some? && Compatible(F.calls[f.value], ev)
  {
  }

  // ---- opening a call ----

  /** The list with the slot's latest call ended. */
  ghost predicate SlotEnded(s: seq<Call>, c: Ctx, slot: Id, now: int, t: seq<Call>) {
    |t| == |s| && forall j :: 0 <= j < |s| ==>
      if slot != "" && Latest(s, c, slot, j) && Live(s[j], now) then EndsAs(s[j], t[j]) else t[j] == s[j]
  }

  /** The oldest call without the keep flag. */
  predicate OldestIdle(s: seq<Call>, o: nat) {
    o < |s| && !s[o].keep && forall j :: 0 <= j < o ==> s[j].keep
  }

  /** Room was made where there was none: the oldest call without the keep flag went. */
  ghost predicate RoomMade(s: seq<Call>, maxCalls: nat, t: seq<Call>) {
    if AudioLess(s) < maxCalls || (forall j :: 0 <= j < |s| ==> s[j].keep) then t == s
    else exists o :: OldestIdle(s, o) && t == Without(s, o)
  }

  lemma OpenList(F: Family, c: Ctx, sid: nat, slot: Id, now: int, id: nat, maxCalls: nat) returns (t: seq<Call>)
    ensures var r := OpenCall(F, c, sid, slot, now, id, maxCalls);
            var n := |r.0.calls| - 1;
            && SlotEnded(F.calls, c, slot, now, t) && RoomMade(t, maxCalls, r.0.calls[..n])
            && r.0.calls[n] == NewCall(id, sid, slot, c.net, now)
            && r.1.net == c.net
  {
    hide CloseCall, FindCall, RollOff, EndsAs, AudioLess, NewCall;
    var prev := if slot != "" then FreshCall(c, F, slot, now) else None;
    var F1 := if prev.Some? then CloseCall(F, prev.value) else F;
    if prev.Some? { CloseEnds(F, prev.value); }
    t := F1.calls;
    var F2 := RollOff(F1, maxCalls);
    RollOffList(F1, maxCalls);
    var g := F2.calls + [NewCall(id, sid, slot, c.net, now)];
    assert g[..|g| - 1] == F2.calls;
  }

  lemma RollOffList(F: Family, maxCalls: nat)
    ensures RoomMade(F.calls, maxCalls, RollOff(F, maxCalls).calls)
  {
    hide CloseCall, EndsAs, AudioLess;
    var i := FirstAudioLess(F.calls, 0);
    FirstAudioLessIs(F.calls, 0);
    if i < |F.calls| && AudioLess(F.calls) >= maxCalls {
      CloseEnds(F, i);
      var G := CloseCall(F, i);
      assert Without(G.calls, i) == Without(F.calls, i);
      assert OldestIdle(F.calls, i);
    }
  }
}
