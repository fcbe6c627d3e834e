/** The association model as the object it is: its operations update the families and stream contexts in place,
    searching and erasing with loops, and each leaves exactly the state the step functions describe. */
module AssocModels {
  import opened Basics
  import opened Ordered
  import opened Counters
  import opened LiveModel
  import opened LiveProofs
  import opened LiveCounted
  import opened LiveLists
  import opened LiveRuns

  // ---- loops over one family ----

  /** The newest call with an id. */
  method SearchCall(calls: seq<Call>, id: nat) returns (r: Option<nat>)
    ensures r == FindCall(calls, id, |calls|)
    ensures r.None? ==> forall i :: 0 <= i < |calls| ==> calls[i].id != id
    ensures r.Some? ==> calls[r.value].id == id && forall i :: r.value < i < |calls| ==> calls[i].id != id
  {
    var n := |calls|;
    while n > 0
      invariant 0 <= n <= |calls| && FindCall(calls, id, n) == FindCall(calls, id, |calls|)
      invariant forall i :: n <= i < |calls| ==> calls[i].id != id
    {
      if calls[n - 1].id == id { return Some(n - 1); }
      n := n - 1;
    }
    return None;
  }

  /** The newest twin of k, if it has any. */
  method SearchTwin(calls: seq<Call>, k: Call, now: int) returns (r: Option<nat>)
    ensures r == FindTwin(calls, k, now, |calls|)
    ensures r.None? ==> forall i :: 0 <= i < |calls| ==> !IsTwin(calls[i], k, now)
    ensures r.Some? ==> IsTwin(calls[r.value], k, now) && forall i :: r.value < i < |calls| ==> !IsTwin(calls[i], k, now)
  {
    var n := |calls|;
    while n > 0
      invariant 0 <= n <= |calls| && FindTwin(calls, k, now, n) == FindTwin(calls, k, now, |calls|)
      invariant forall i :: n <= i < |calls| ==> !IsTwin(calls[i], k, now)
    {
      var o := calls[n - 1];
      if o.id != k.id && o.session != k.session && o.open && now - o.last <= CONTINUE_MS
         && o.net == k.net && o.src == k.src && o.tgt == k.tgt && o.priv == k.priv {
        return Some(n - 1);
      }
      n := n - 1;
    }
    return None;
  }

  method SlotCall(c: Ctx, F: Family, slot: Id, now: int) returns (r: Option<nat>)
    ensures r == FreshCall(c, F, slot, now)
    ensures r.Some? ==> Fresh(F.calls[r.value], now)
  {
    if slot !in c.lastOnSlot { return None; }
    r := SearchCall(F.calls, c.lastOnSlot[slot]);
    if r.Some? && !(F.calls[r.value].open && now - F.calls[r.value].last <= CONTINUE_MS) { r := None; }
  }

  method ReverseFindBar(key: Id) returns (r: int)
    ensures r == LastBar(key, |key|)
  {
    var n := |key|;
    while n > 0 && key[n - 1] != '|'
      invariant 0 <= n <= |key| && LastBar(key, n) == LastBar(key, |key|)
    {
      n := n - 1;
    }
    r := n - 1;
  }

  /** Close and erase quiet calls while walking the active calls. */
  method ExpireCalls(F0: Family, a: seq<(Id, nat)>, now: int) returns (F: Family, kept: seq<(Id, nat)>)
    ensures (F, kept) == Expire(F0, a, now)
    ensures ExpiredAs(F0, a, now, F, kept)
  {
    hide CloseCall, Fresh, ExpiredAs;
    ExpireCloses(F0, a, now);
    F, kept := F0, [];
    var i := 0;
    assert a[0..] == a && [] + Expire(F, a, now).1 == Expire(F, a, now).1;
    while i < |a|
      invariant i <= |a|
      invariant var rest := Expire(F, a[i..], now); Expire(F0, a, now) == (rest.0, kept + rest.1)
    {
      var f := SearchCall(F.calls, a[i].1);
      assert a[i..][0] == a[i] && a[i..][1..] == a[i + 1..];
      ghost var tail := Expire(F, a[i + 1..], now).1;
      assert kept + ([a[i]] + tail) == kept + [a[i]] + tail;
      if f.Some? && Fresh(F.calls[f.value], now) {
        kept := kept + [a[i]];
      } else if f.Some? {
        F := CloseCall(F, f.value);
      }
      i := i + 1;
    }
    assert a[i..] == [] && kept + [] == kept;
  }

  /** The first active call that the line may join, if there is any. */
  method SearchAdoptable(a: seq<(Id, nat)>, F: Family, slot: Id, tgt: Id, src: Id, now: int) returns (r: Option<(Id, nat)>)
    ensures r == FindAdoptable(a, F, slot, tgt, src, now)
    ensures r.None? ==> forall i :: 0 <= i < |a| ==> !Adoptable(a[i], F, slot, tgt, src, now)
    ensures r.Some? ==> exists i :: 0 <= i < |a| && FirstAdoptable(a, i, F, slot, tgt, src, now)
                                    && r.value.0 == a[i].0 && FindCall(F.calls, a[i].1, |F.calls|) == Some(r.value.1)
  {
    var i := 0;
    while i < |a|
      invariant i <= |a|
      invariant FindAdoptable(a[i..], F, slot, tgt, src, now) == FindAdoptable(a, F, slot, tgt, src, now)
      invariant forall j :: 0 <= j < i ==> !Adoptable(a[j], F, slot, tgt, src, now)
    {
      var key := a[i].0;
      var bar := ReverseFindBar(key);
      if bar >= 0 && key[bar + 1..] == tgt && (key[..bar] == "" || slot == "") {
        var f := SearchCall(F.calls, a[i].1);
        if f.Some? && Fresh(F.calls[f.value], now)
           && !(src != "" && F.calls[f.value].src != "" && F.calls[f.value].src != src) {
          assert FirstAdoptable(a, i, F, slot, tgt, src, now);
          return Some((key, f.value));
        }
      }
      i := i + 1;
    }
    return None;
  }

  ghost predicate FirstAdoptable(a: seq<(Id, nat)>, i: nat, F: Family, slot: Id, tgt: Id, src: Id, now: int)
    requires i < |a|
  {
    Adoptable(a[i], F, slot, tgt, src, now) && forall j :: 0 <= j < i ==> !Adoptable(a[j], F, slot, tgt, src, now)
  }

  lemma {:induction false} AudioLessPrefix(calls: seq<Call>, i: nat)
    requires i < |calls|
    ensures AudioLess(calls[..i + 1]) == AudioLess(calls[..i]) + (if calls[i].keep then 0 else 1)
  {
    if i > 0 {
      assert calls[..i + 1][1..] == calls[1..][..i] && calls[..i][1..] == calls[1..][..i - 1];
      AudioLessPrefix(calls[1..], i - 1);
    }
  }

  /** Count the audio-less calls; if the list is full, close and erase the oldest of them. */
  method DropOldest(F0: Family, maxCalls: nat) returns (F: Family)
    ensures F == RollOff(F0, maxCalls)
  {
    F := F0;
    var audioLess := 0;
    for i := 0 to |F.calls|
      invariant audioLess == AudioLess(F.calls[..i])
    {
      AudioLessPrefix(F.calls, i);
      if !F.calls[i].keep { audioLess := audioLess + 1; }
    }
    assert F.calls[..|F.calls|] == F.calls;
    if audioLess >= maxCalls {
      var i := 0;
      while i < |F.calls| && F.calls[i].keep
        invariant i <= |F.calls| && FirstAudioLess(F.calls, i) == FirstAudioLess(F.calls, 0)
      {
        i := i + 1;
      }
      if i < |F.calls| {
        var G := CloseCall(F, i);
        F := G.(calls := Without(G.calls, i), past := G.past + [G.calls[i]]);
      }
    }
  }

  method RepointActive(a: seq<(Id, nat)>, from: nat, to: nat) returns (r: seq<(Id, nat)>)
    ensures r == Repoint(a, from, to)
  {
    r := [];
    var i := 0;
    while i < |a|
      invariant i <= |a| && r + Repoint(a[i..], from, to) == Repoint(a, from, to)
    {
      r := r + [if a[i].1 == from then (a[i].0, to) else a[i]];
      i := i + 1;
    }
  }

  /** Copy what the duplicate knows into the twin, point the stream's slots at it, and erase the duplicate. */
  method FoldTwin(F: Family, c: Ctx, i: nat, j: nat, slot: Id) returns (r: Found)
    requires i < |F.calls| && j < |F.calls| && i != j
    ensures r == AdoptTwin(F, c, i, j, slot) && AdoptedAs(F, c, i, j, slot, r)
  {
    hide NoteKey, Joined, AdoptedAs;
    AdoptIs(F, c, i, j, slot);
    var dup, twin := F.calls[i], F.calls[j];
    var active := RepointActive(c.active, dup.id, twin.id);
    var slots := (map s | s in c.lastOnSlot :: if c.lastOnSlot[s] == dup.id then twin.id else c.lastOnSlot[s]);
    var G := SetCall(F, j, Joined(twin, dup));
    G := G.(calls := G.calls[..i] + G.calls[i + 1..]);
    var j' := if i < j then j - 1 else j;
    r := Found(NoteKey(G, j'), c.(active := active, lastOnSlot := slots[slot := twin.id]), Some(j'));
  }

  // ---- the call of a line ----

  method FindCallOfTarget(F: Family, c: Ctx, ev: Event, now: int) returns (r: Found)
    ensures r == CallOfTarget(F, c, ev, now)
    ensures r.cur.Some? ==> Fresh(r.F.calls[r.cur.value], now)
  {
    hide FreshCall, FindAdoptable, Put, Erase;
    var known := Lookup(c.active, Key(ev.slot, ev.tgt));
    var f: Option<nat> := None;
    if known.Some? { f := SearchCall(F.calls, known.value); }
    if f.Some? && Fresh(F.calls[f.value], now) { return Found(F, c, f); }
    var ad := SearchAdoptable(c.active, F, ev.slot, ev.tgt, ev.src, now);
    if ad.Some? {
      var i := ad.value.1;
      if F.calls[i].slot == "" && ev.slot != "" {
        var a := Put(Erase(c.active, ad.value.0), Key(ev.slot, ev.tgt), F.calls[i].id);
        return Found(SetCall(F, i, F.calls[i].(slot := ev.slot)), c.(active := a), Some(i));
      }
      return Found(F, c, Some(i));
    }
    var last := SlotCall(c, F, ev.slot, now);
    if last.Some? && F.calls[last.value].tgt == ""
       && (ev.src == "" || F.calls[last.value].src == "" || F.calls[last.value].src == ev.src) {
      return Found(F, c, last);
    }
    return Found(F, c, None);
  }

  /** The call a line continues, if any, can still continue, is not another talker's, and is no data call that a
      voice line without ids would turn into a voice call. */
  method FindCurrentCall(F: Family, c: Ctx, ev: Event, now: int) returns (r: Found)
    ensures r == CurrentCall(F, c, ev, now)
    ensures r.cur.Some? ==> Fresh(r.F.calls[r.cur.value], now) && Continues(r.F.calls[r.cur.value], ev)
  {
    hide CallOfTarget, FreshCall, CloseCall, Fresh;
    if ev.tgt != "" {
      r := FindCallOfTarget(F, c, ev, now);
    } else {
      var last := SlotCall(c, F, ev.slot, now);
      r := Found(F, c, last);
    }
    if r.cur.Some? {
      var k := r.F.calls[r.cur.value];
      if k.data && !k.voice && ev.src == "" && ev.tgt == "" && VoiceLine(ev) {
        r := r.(cur := None);
      } else if ev.src != "" && k.src != "" && ev.src != k.src {
        r := Found(CloseCall(r.F, r.cur.value), r.c, None);
      }
    }
  }

  predicate Continues(k: Call, ev: Event) {
    && (ev.src == "" || k.src == "" || k.src == ev.src)
    && !(k.data && !k.voice && ev.src == "" && ev.tgt == "" && VoiceLine(ev))
  }

  method StartCall(F: Family, c: Ctx, sid: nat, slot: Id, now: int, id: nat, maxCalls: nat) returns (G: Family, d: Ctx)
    ensures (G, d) == OpenCall(F, c, sid, slot, now, id, maxCalls)
    ensures OpenedAs(F, c, sid, slot, now, id, maxCalls, G, d)
  {
    hide RollOff, CloseCall, FreshCall, OpenedAs;
    OpenIs(F, c, sid, slot, now, id, maxCalls);
    G := F;
    if slot != "" {
      var prev := SlotCall(c, G, slot, now);
      if prev.Some? { G := CloseCall(G, prev.value); }
    }
    G := DropOldest(G, maxCalls);
    G := G.(calls := G.calls + [NewCall(id, sid, slot, c.net, now)]);
    d := c.(lastOnSlot := c.lastOnSlot[slot := id]);
  }

  method Fold(F: Family, c: Ctx, i: nat, ev: Event, now: int) returns (G: Family, d: Ctx)
    requires i < |F.calls|
    ensures (G, d) == FoldEvent(F, c, i, ev, now)
  {
    hide Heard, NoteEncrypted, SetPrivate, CountedOrFolded, Put;
    FoldEventIs(F, c, i, ev, now);
    d := c;
    var k := Heard(F.calls[i], c, ev);
    HeardId(F.calls[i], c, ev);
    if F.calls[i].tgt == "" && ev.tgt != "" { d := d.(active := Put(d.active, Key(ev.slot, ev.tgt), k.id)); }
    G := SetCall(F, i, k);
    if ev.enc { G := NoteEncrypted(G, i, ev); }
    G := SetCall(G, i, G.calls[i].(last := now));
    d := d.(lastOnSlot := d.lastOnSlot[ev.slot := k.id]);
    if ev.priv { G := SetPrivate(G, i, now); }
    hide FoldEvent;
    G, d := CountOrFoldCall(G, d, i, ev.slot, now);
  }

  lemma HeardId(k: Call, c: Ctx, ev: Event)
    ensures Heard(k, c, ev).id == k.id
  {
  }

  /** Once both ends are known: another stream's same call takes this one over, or it is counted. */
  method CountOrFoldCall(F: Family, c: Ctx, i: nat, slot: Id, now: int) returns (G: Family, d: Ctx)
    requires i < |F.calls|
    ensures (G, d) == CountedOrFolded(F, c, i, slot, now)
  {
    hide FindTwin, AdoptTwin, CountCall, IsTwin;
    G, d := F, c;
    var k := G.calls[i];
    if !k.counted && k.src != "" && k.tgt != "" {
      var t := SearchTwin(G.calls, k, now);
      var cur := i;
      if t.Some? {
        TwinIsAnother(G.calls, k, now, i);
        var r := FoldTwin(G, d, i, t.value, slot);
        G, d, cur := r.F, r.c, r.cur.value;
      }
      if !G.calls[cur].counted { G := CountCall(G, cur, now); }
    }
  }

  lemma TwinIsAnother(calls: seq<Call>, k: Call, now: int, i: nat)
    requires i < |calls| && calls[i] == k
    ensures FindTwin(calls, k, now, |calls|).Some? ==> FindTwin(calls, k, now, |calls|).value != i
  {
  }

  method HearLine(F: Family, c: Ctx, sid: nat, ev: Event, now: int, next: nat, maxCalls: nat)
    returns (G: Family, d: Ctx, n: nat)
    ensures (G, d, n) == Hear(F, c, sid, ev, now, next, maxCalls)
  {
    hide Expire, FreshCall, CurrentCall, FoldEvent, OpenCall, EnterRadio, RefineOnly;
    var a;
    G, a := ExpireCalls(F, c.active, now);
    d, n := c.(active := a), next;
    if ev.roster { return; }
    if ev.kind == Sync && ev.terminator {
      var f := SlotCall(d, G, ev.slot, now);
      if f.Some? && G.calls[f.value].txEnd == 0 {
        G := SetCall(G, f.value, G.calls[f.value].(txEnd := G.calls[f.value].last));
      }
      return;
    }
    if ev.kind == Unknown { G := RefineOnly(G, d, ev, now); return; }
    if ev.src != "" { G := EnterRadio(G, ev.src, d.net, now); }
    if !(Callish(ev) || (ev.kind == Sync && (ev.voiceSync || ev.trafficSync))) { return; }
    var r := FindCurrentCall(G, d, ev, now);
    G, d := r.F, r.c;
    var cur: nat;
    if r.cur.Some? {
      cur := r.cur.value;
    } else {
      if !Callish(ev) || (ev.src == "" && ev.tgt == "" && ev.kind != Message) { return; }
      n := n + 1;
      G, d := StartCall(G, d, sid, ev.slot, now, n, maxCalls);
      cur := |G.calls| - 1;
    }
    G, d := Fold(G, d, cur, ev, now);
  }

  method CloseCallsOf(F: Family, sid: nat) returns (G: Family)
    ensures G == CloseOf(F, sid, |F.calls|) && EndedOf(F, sid, |F.calls|, G)
  {
    hide CloseCall, EndedOf;
    CloseOfEnds(F, sid, |F.calls|);
    G := F;
    for n := 0 to |F.calls|
      invariant |G.calls| == |F.calls| && G == CloseOf(F, sid, n)
    {
      if G.calls[n].session == sid { G := CloseCall(G, n); }
    }
  }

  method KeepCall(s: seq<Call>, id: nat, on: bool) returns (r: seq<Call>)
    ensures r == SetKeep(s, id, on)
  {
    hide SetKeep;
    var i := 0;
    assert s[0..] == s && [] + SetKeep(s, id, on) == SetKeep(s, id, on);
    while i < |s| && s[i].id != id
      invariant i <= |s| && SetKeep(s, id, on) == s[..i] + SetKeep(s[i..], id, on)
    {
      KeepStep(s, i, id, on);
      i := i + 1;
    }
    KeepStep(s, i, id, on);
    r := if i < |s| then s[i := s[i].(keep := on)] else s;
  }

  lemma KeepStep(s: seq<Call>, i: nat, id: nat, on: bool)
    requires i <= |s|
    ensures s[..i] + SetKeep(s[i..], id, on) ==
            if i == |s| then s
            else if s[i].id == id then s[i := s[i].(keep := on)]
            else s[..i + 1] + SetKeep(s[i + 1..], id, on)
  {
    if i == |s| {
      assert s[i..] == [] && s[..i] + [] == s;
    } else {
      assert s[i..][0] == s[i] && s[i..][1..] == s[i + 1..];
      assert s[..i + 1] == s[..i] + [s[i]];
      assert s[..i] + ([s[i]] + SetKeep(s[i + 1..], id, on)) == s[..i + 1] + SetKeep(s[i + 1..], id, on);
      assert s[..i] + ([s[i].(keep := on)] + s[i + 1..]) == s[i := s[i].(keep := on)];
    }
  }

  // ---- networks ----

  method RelabelAll(s: seq<Call>, from: Id, to: Id) returns (r: seq<Call>)
    ensures r == RelabelCalls(s, from, to)
  {
    r := s;
    for i := 0 to |s|
      invariant |r| == |s|
      invariant forall j :: 0 <= j < i ==> r[j] == RelabelCall(s[j], from, to)
      invariant forall j :: i <= j < |s| ==> r[j] == s[j]
    {
      if r[i].net == from { r := r[i := r[i].(net := to)]; }
    }
  }

  method Merge(F: Family, from: Id, to: Id) returns (G: Family)
    ensures G == MergeNetwork(F, from, to)
    ensures from != to && from in F.networks && to in F.networks ==>
              && from !in G.networks && to in G.networks && G.networks[to].calls == F.networks[to].calls + F.networks[from].calls
              && (forall k :: k in G.calls ==> k.net != from)
              && (forall r :: r in G.radios ==> from !in G.radios[r].networks)
              && (forall t :: t in G.tgs ==> from !in G.tgs[t].networks)
  {
    hide AddKeys, KeysLost, RelabelCalls, Max;
    if from !in F.networks || to !in F.networks { return F; }
    var a, z := F.networks[from], F.networks[to];
    var keys, lost := AddAllKeys(z.keys, a.keys);
    var calls := RelabelAll(F.calls, from, to);
    var past := RelabelAll(F.past, from, to);
    var z' := Network(z.sessions + a.sessions, z.calls + a.calls, keys, Max(z.last, a.last));
    G := Family(F.networks[to := z'] - {from},
                map t | t in F.tgs :: F.tgs[t].(networks := Relabel(F.tgs[t].networks, from, to)),
                map r | r in F.radios :: F.radios[r].(networks := Relabel(F.radios[r].networks, from, to)),
                calls, past, F.lossy || lost);
  }

  // ---- the object ----

  class AssocModel {
    var fam: map<Id, Family>
    var sess: map<nat, Ctx>
    var nextCall: nat
    var maxCalls: nat

    function Current(): State
      reads this
    {
      State(fam, sess, nextCall, maxCalls)
    }

    /** Every counter of every family is its recount, unless a limit was hit. */
    ghost predicate Valid()
      reads this
    {
      StateOk(Current()) && StateSettled(Current())
    }

    constructor (cap: nat)
      ensures Valid() && Current() == State(map[], map[], 0, cap)
    {
      fam, sess, nextCall, maxCalls := map[], map[], 0, cap;
    }

    /** Of the session's family exactly its own calls end. */
    method CloseSessionCalls(sid: nat)
      modifies this`fam
      ensures Current() == CloseSession(old(Current()), sid)
      ensures sid in sess && sess[sid].family in old(fam) ==>
                && fam.Keys == old(fam).Keys
                && EndedOf(old(fam)[sess[sid].family], sid, |old(fam)[sess[sid].family].calls|, fam[sess[sid].family])
    {
      hide CloseOf, EndedOf;
      if sid !in sess || sess[sid].family !in fam { return; }
      var f := sess[sid].family;
      var G := CloseCallsOf(fam[f], sid);
      fam := fam[f := G];
    }

    /** Networks the stream fed that nothing refers to are erased, with what was known only through them. */
    method PruneSession(sid: nat, kept: set<Id>)
      modifies this`fam, this`sess
      ensures Current() == Prune(old(Current()), sid, kept)
    {
      hide Pruned, CloseOf;
      if sid !in sess || sess[sid].family !in fam { return; }
      var c := sess[sid];
      var F := fam[c.family];
      var dead: set<Id> := {};
      var todo := F.networks.Keys;
      ghost var all := DeadNetworks(Current(), sid, c.family, kept);
      while todo != {}
        invariant todo <= F.networks.Keys && fam == old(fam) && sess == old(sess)
        invariant dead == all - todo
        decreases |todo|
      {
        var n :| n in todo;
        todo := todo - {n};
        var x := F.networks[n];
        if x.calls == 0 && sid in x.sessions && n !in kept {
          var inUse := exists s :: s in sess && s != sid && sess[s].running && sess[s].family == c.family && sess[s].net == n;
          var hasCall := exists k :: k in F.calls && k.net == n;
          if !inUse && !hasCall { dead := dead + {n}; }
        }
      }
      assert dead == all;
      hide DeadNetworks;
      if dead == {} { return; }
      F := Pruned(F, dead);
      sess := sess[sid := if c.net in dead then c.(net := "") else c];
      fam := if Bare(F) then fam - {c.family} else fam[c.family := F];
    }

    method BeginStream(sid: nat, protocol: Id, family: Id, freq: int, now: int, kept: set<Id>)
      requires Valid()
      modifies this
      ensures Valid() && Current() == Step(old(Current()), Begin(sid, protocol, family, freq, now, kept))
    {
      hide StateOk, StateSettled, CloseSession, Prune;
      StepValid(Current(), Begin(sid, protocol, family, freq, now, kept));
      CloseSessionCalls(sid);
      PruneSession(sid, kept);
      sess := sess[sid := FreshCtx(family, protocol, true, freq)];
    }

    method RetuneStream(sid: nat, freq: int, now: int)
      requires Valid()
      modifies this
      ensures Valid() && Current() == Step(old(Current()), Tune(sid, freq, now))
    {
      StepValid(Current(), Tune(sid, freq, now));
      if sid !in sess || sess[sid].freq == freq { return; }
      hide StateOk, StateSettled, CloseSession, Prune;
      var c := sess[sid];
      CloseSessionCalls(sid);
      PruneSession(sid, {});
      sess := sess[sid := FreshCtx(c.family, c.protocol, c.running, freq)];
    }

    method EndStream(sid: nat, now: int, kept: set<Id>)
      requires Valid()
      modifies this
      ensures Valid() && Current() == Step(old(Current()), End(sid, now, kept))
    {
      hide StateOk, StateSettled, CloseSession, Prune;
      StepValid(Current(), End(sid, now, kept));
      CloseSessionCalls(sid);
      if sid in sess { sess := sess[sid := sess[sid].(running := false, active := [])]; }
      PruneSession(sid, kept);
    }

    method RemoveSession(sid: nat, now: int, kept: set<Id>)
      requires Valid()
      modifies this
      ensures Valid() && Current() == Step(old(Current()), Remove(sid, now, kept))
    {
      hide StateOk, StateSettled, CloseSession, Prune;
      StepValid(Current(), Remove(sid, now, kept));
      CloseSessionCalls(sid);
      PruneSession(sid, kept);
      sess := sess - {sid};
    }

    method ClearAll(now: int)
      requires Valid()
      modifies this
      ensures Valid() && Current() == Step(old(Current()), Clear(now))
    {
      StepValid(Current(), Clear(now));
      fam := map[];
      sess := map s | s in sess :: FreshCtx(sess[s].family, sess[s].protocol, sess[s].running, sess[s].freq);
      nextCall := 0;
    }

    method MarkKeep(family: Id, id: nat, on: bool)
      requires Valid()
      modifies this
      ensures Valid() && Current() == Step(old(Current()), Keep(family, id, on))
    {
      StepValid(Current(), Keep(family, id, on));
      if family !in fam { return; }
      hide StateOk, StateSettled;
      hide SetKeep;
      var s := KeepCall(fam[family].calls, id, on);
      fam := fam[family := fam[family].(calls := s)];
    }

    /** The stream's network, from its identity; a bucket it outgrew is folded into it. */
    method Resolve(sid: nat, id: Identity, now: int)
      requires sid in sess && sess[sid].family in fam
      modifies this`fam, this`sess
      ensures Current() == ResolveNetwork(old(Current()), sid, id, now)
      ensures sid in sess && sess[sid].net == id.key && sess[sid].family in fam && id.key in fam[sess[sid].family].networks
    {
      hide MergeNetwork, EnsureNetwork;
      var c := sess[sid];
      var F := EnsureNetwork(fam[c.family], id.key, now);
      if c.net != "" && c.net != id.key && c.net in F.networks && (F.networks[c.net].sessions <= {sid} || id.narrows) {
        F := Merge(F, c.net, id.key);
        sess := RelabelStreams(sess, c.net, id.key);
      }
      fam := fam[c.family := F];
      sess := sess[sid := c.(net := id.key)];
    }

    /** A line of a live stream, its network already up to date. */
    method HearNow(sid: nat, ev: Event, now: int)
      requires sid in sess && sess[sid].family in fam
      modifies this`fam, this`sess, this`nextCall
      ensures Current() == Listen(old(Current()), sid, ev, now)
    {
      hide Hear, TouchNetwork;
      var c := sess[sid];
      var F := TouchNetwork(fam[c.family], c.net, sid, now);
      var d, n;
      F, d, n := HearLine(F, c, sid, ev, now, nextCall, maxCalls);
      fam, sess, nextCall := fam[c.family := F], sess[sid := d], n;
    }

    /** What a line makes of its stream before its network is looked at, and whether it is heard at all. */
    method Attend(c0: Ctx, ev: Event) returns (c: Ctx, heard: bool)
      ensures (c, heard) == Attended(c0, ev)
    {
      c, heard := c0, false;
      if c.family == "" { return; }
      if c.family == "auto" {
        if ev.kind == Unknown || ev.family == "" { return; }
        c := c.(family := ev.family);
      }
      if ev.crcError { return; }
      if ev.identity.restarted { c := c.(net := ""); }
      if !c.live && ev.kind == Unknown { return; }
      c, heard := c.(live := true), true;
    }

    /** One decoded line of a stream. */
    method Ingest(sid: nat, ev: Event, now: int)
      requires Valid()
      modifies this
      ensures Valid() && Current() == Step(old(Current()), Line(sid, ev, now))
    {
      StepValid(Current(), Line(sid, ev, now));
      hide StateOk, StateSettled, Listen, ResolveNetwork, Attended, Hears, Step;
      HearsAttended(Current(), sid, ev, now);
      hide HeardOn;
      if sid !in sess { return; }
      var c, heard := Attend(sess[sid], ev);
      if heard { Take(sid, c, ev, now); } else { sess := sess[sid := c]; }
    }

    /** A line heard on a stream that it leaves as c. */
    method Take(sid: nat, c: Ctx, ev: Event, now: int)
      modifies this
      ensures Current() == HeardOn(old(Current()), sid, c, ev, now)
    {
      hide Listen, ResolveNetwork;
      sess := sess[sid := c];
      if c.family !in fam { fam := fam[c.family := NEW_FAMILY]; }
      if ev.identity.changed || c.net == "" || c.net !in fam[c.family].networks {
        Resolve(sid, ev.identity, now);
      }
      HearNow(sid, ev, now);
    }
  }

  lemma StepValid(m: State, op: Op)
    requires StateOk(m) && StateSettled(m)
    ensures StateOk(Step(m, op)) && StateSettled(Step(m, op))
  {
    hide StateOk, StateSettled, Step;
    StepOk(m, op);
    StepSettled(m, op);
  }
}
