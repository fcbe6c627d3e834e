/** The live association model, step by step, as functions on its state.

    A decoder line arrives classified: what the line says about source, target, slot, flags and keys, and which
    network identity it leaves the stream with, is an input.  Everything the model does with it is here. */
module LiveModel {
  import opened Basics
  import opened Ordered
  import opened Counters

  const CONTINUE_MS := 4000

  datatype Kind = Unknown | CallLine | Voice | Message | Burst | Sync | Other

  /** What a line did to its stream's identity: whether it changed, whether it started over on another
      network, the network it names now, and whether that identity narrows the one before. */
  datatype Identity = Identity(changed: bool, restarted: bool, key: Id, narrows: bool)

  datatype Event = Event(kind: Kind, src: Id, tgt: Id, slot: Id, crcError: bool, family: Id, identity: Identity,
                         priv: bool, data: bool, enc: bool, emergency: bool, alg: Id, kid: Id,
                         roster: bool, terminator: bool, voiceSync: bool, trafficSync: bool, ambe: bool)

  /** One stream: its active calls in std::map order ("slot|target" to call id), and the latest call per slot. */
  datatype Ctx = Ctx(family: Id, protocol: Id, net: Id, live: bool, running: bool, freq: int,
                     active: seq<(Id, nat)>, lastOnSlot: map<Id, nat>)

  datatype State = State(fam: map<Id, Family>, sess: map<nat, Ctx>, next: nat, maxCalls: nat)

  // ---- entities ----

  predicate OldestAmong(last: map<Id, int>, v: Id) {
    v in last && forall w :: w in last ==> last[v] <= last[w]
  }

  predicate NoneOlder(last: map<Id, int>, s: set<Id>, v: Id)
    requires s <= last.Keys && v in last
  {
    forall w :: w in s ==> last[v] <= last[w]
  }

  lemma {:induction false} OldestExists(last: map<Id, int>, s: set<Id>) returns (v: Id)
    requires s != {} && s <= last.Keys
    ensures v in s && NoneOlder(last, s, v)
  {
    v :| v in s;
    if s != {v} {
      var other := OldestExists(last, s - {v});
      v := OlderOfTwo(last, s, v, other);
    }
  }

  lemma OlderOfTwo(last: map<Id, int>, s: set<Id>, a: Id, b: Id) returns (v: Id)
    requires s <= last.Keys && a in s && b in s && NoneOlder(last, s - {a}, b)
    ensures v in s && NoneOlder(last, s, v)
  {
    v := if last[a] <= last[b] then a else b;
  }

  /** The entity to evict: the least recently heard, the first in key order among equals. */
  function Victim(last: map<Id, int>): (v: Id)
    requires last.Keys != {}
    ensures v in last
  {
    var oldest := set v | v in last && OldestAmong(last, v);
    assert oldest != {} by {
      var v := OldestExists(last, last.Keys);
      assert v in oldest;
    }
    Least(oldest)
  }

  function RadioAges(F: Family): (last: map<Id, int>)
    ensures last.Keys == F.radios.Keys
  {
    map r | r in F.radios :: F.radios[r].last
  }

  function TgAges(F: Family): (last: map<Id, int>)
    ensures last.Keys == F.tgs.Keys
  {
    map t | t in F.tgs :: F.tgs[t].last
  }

  function NetworkAges(F: Family): (last: map<Id, int>)
    ensures last.Keys == F.networks.Keys
  {
    map n | n in F.networks :: F.networks[n].last
  }

  function EnsureRadio(F: Family, id: Id, now: int): (G: Family)
    ensures id in G.radios && G.calls == F.calls && G.past == F.past
  {
    if id in F.radios then F
    else
      var G := if |F.radios.Keys| >= MAX_RADIOS
               then F.(radios := F.radios - {Victim(RadioAges(F))}, lossy := true) else F;
      G.(radios := G.radios[id := Radio(map[], map[], map[], {}, 0, now)])
  }

  function EnsureTg(F: Family, id: Id, now: int): (G: Family)
    ensures id in G.tgs && G.calls == F.calls && G.past == F.past
  {
    if id in F.tgs then F
    else
      var G := if |F.tgs.Keys| >= MAX_TALKGROUPS
               then F.(tgs := F.tgs - {Victim(TgAges(F))}, lossy := true) else F;
      G.(tgs := G.tgs[id := Talkgroup(map[], {}, 0, 0, 0, map[], now)])
  }

  function EnsureNetwork(F: Family, key: Id, now: int): (G: Family)
    ensures key in G.networks && G.calls == F.calls && G.past == F.past
  {
    if key in F.networks then F
    else
      var G := if |F.networks.Keys| >= MAX_NETWORKS
               then F.(networks := F.networks - {Victim(NetworkAges(F))}, lossy := true) else F;
      G.(networks := G.networks[key := Network({}, 0, map[], now)])
  }

  function Named(net: Id): set<Id> {
    if net == "" then {} else {net}
  }

  /** The radio, heard now on a network. */
  function EnterRadio(F: Family, id: Id, net: Id, now: int): (G: Family)
    ensures id in G.radios && G.calls == F.calls && G.past == F.past
  {
    var G := EnsureRadio(F, id, now);
    var r := G.radios[id];
    G.(radios := G.radios[id := r.(last := now, networks := r.networks + Named(net))])
  }

  /** The talkgroup, used now on a network. */
  function EnterTg(F: Family, id: Id, net: Id, now: int): (G: Family)
    ensures id in G.tgs && G.calls == F.calls && G.past == F.past
  {
    var G := EnsureTg(F, id, now);
    var t := G.tgs[id];
    G.(tgs := G.tgs[id := t.(last := Max(t.last, now), networks := t.networks + Named(net))])
  }

  // ---- counting a call ----

  function IncAll(F: Family, qs: seq<Query>): (G: Family)
    ensures G.calls == F.calls && G.past == F.past
    decreases |qs|
  {
    if qs == [] then F else IncAll(Inc(F, qs[0]), qs[1..])
  }

  function SetCall(F: Family, i: nat, k: Call): Family
    requires i < |F.calls|
  {
    F.(calls := F.calls[i := k])
  }

  /** The counters a counted call goes up on. */
  function CountersOf(k: Call): seq<Query> {
    if k.priv then
      if k.src == "" then [NetCalls(k.net)]
      else [RadioCalls(k.src), Peer(k.src, k.tgt), Peer(k.tgt, k.src), NetCalls(k.net)]
    else
      if k.src == "" then [TgCalls(k.tgt), NetCalls(k.net)]
      else [RadioCalls(k.src), RadioTg(k.src, k.tgt), TgCalls(k.tgt), TgRadio(k.tgt, k.src), NetCalls(k.net)]
  }

  /** The counters its key goes up on. */
  function KeyCountersOf(k: Call): seq<Query> {
    var key := EncKey(k);
    if k.priv then
      if k.src == "" then [NetKey(k.net, key)] else [NetKey(k.net, key), RadioKey(k.src, key)]
    else
      if k.src == "" then [NetKey(k.net, key), TgKey(k.tgt, key)]
      else [NetKey(k.net, key), TgKey(k.tgt, key), RadioKey(k.src, key)]
  }

  /** Once a call is counted: its key, once. */
  function NoteKey(F: Family, i: nat): (G: Family)
    requires i < |F.calls|
    ensures |G.calls| == |F.calls|
  {
    var k := F.calls[i];
    if !k.counted || k.kid == "" || k.keyNoted then F
    else IncAll(SetCall(F, i, k.(keyNoted := true)), KeyCountersOf(k))
  }

  /** The entities the call's counters are on. */
  function EnterParties(F: Family, k: Call, now: int): (G: Family)
    ensures G.calls == F.calls && G.past == F.past
  {
    var G := if k.src == "" then F else EnterRadio(F, k.src, k.net, now);
    if !k.priv then EnterTg(G, k.tgt, k.net, now)
    else if k.src == "" then G
    else EnterRadio(G, k.tgt, k.net, now)
  }

  /** Both ends are known: record the association. */
  function CountCall(F: Family, i: nat, now: int): (G: Family)
    requires i < |F.calls|
    ensures |G.calls| == |F.calls|
  {
    var k := F.calls[i].(counted := true);
    NoteKey(IncAll(EnterParties(SetCall(F, i, k), k, now), CountersOf(k)), i)
  }

  /** A call flagged encrypted; it takes the first key named. */
  function NoteEncrypted(F: Family, i: nat, ev: Event): (G: Family)
    requires i < |F.calls|
    ensures |G.calls| == |F.calls|
  {
    var k := F.calls[i].(encrypted := true);
    var k' := if k.kid == "" && ev.kid != "" then k.(kid := ev.kid, alg := if ev.alg != "" then ev.alg else k.alg) else k;
    NoteKey(SetCall(F, i, k'), i)
  }

  /** The group association of k is taken back; a talkgroup without any left goes. */
  function LeaveGroup(F: Family, k: Call): (G: Family)
    ensures G.calls == F.calls && G.past == F.past
  {
    var F2 := Dec(Dec(Dec(F, RadioTg(k.src, k.tgt)), TgRadio(k.tgt, k.src)), TgCalls(k.tgt));
    var F3 := if k.keyNoted then Dec(F2, TgKey(k.tgt, EncKey(k))) else F2;
    if k.tgt in F3.tgs && F3.tgs[k.tgt].calls == 0 && F3.tgs[k.tgt].radios == map[]
    then F3.(tgs := F3.tgs - {k.tgt}) else F3
  }

  function JoinPeers(F: Family, k: Call, now: int): (G: Family)
    ensures G.calls == F.calls && G.past == F.past
  {
    Inc(Inc(EnterRadio(F, k.tgt, k.net, now), Peer(k.src, k.tgt)), Peer(k.tgt, k.src))
  }

  /** Call i becomes a private one; if it was counted, what it counts for moves to the peer edge. */
  function SetPrivate(F: Family, i: nat, now: int): (G: Family)
    requires i < |F.calls|
    ensures |G.calls| == |F.calls|
  {
    var k := F.calls[i];
    if k.priv then F
    else
      var G := SetCall(F, i, k.(priv := true));
      if k.counted then JoinPeers(LeaveGroup(G, k), k, now) else G
  }

  function ClosedCountersOf(k: Call): seq<Query> {
    (if k.emergency then [TgEmergencies(k.tgt)] else []) + (if k.encrypted then [TgEncrypted(k.tgt)] else [])
  }

  /** The call stops being open; counted for a talkgroup, it is tallied there as a closed one. */
  function EndCall(F: Family, i: nat): (G: Family)
    requires i < |F.calls|
    ensures G.calls == F.calls[i := F.calls[i].(open := false)] && G.past == F.past
  {
    var k := F.calls[i].(open := false);
    var H := SetCall(F, i, k);
    if !k.counted || k.priv then H else IncAll(H, ClosedCountersOf(k))
  }

  /** The call ends; one with a target but no source, voice and no data, is counted at this point or never. */
  function CloseCall(F: Family, i: nat): (G: Family)
    requires i < |F.calls|
    ensures |G.calls| == |F.calls|
  {
    var k := F.calls[i];
    if !k.open then F
    else
      EndCall(if !k.counted && k.src == "" && k.tgt != "" && k.voice && !k.data then CountCall(F, i, k.last) else F, i)
  }

  // ---- finding calls ----

  /** The call with an id, searched from the newest of the first n back. */
  function FindCall(calls: seq<Call>, id: nat, n: nat): (r: Option<nat>)
    requires n <= |calls|
    ensures r.Some? ==> r.value < n && calls[r.value].id == id
  {
    if n == 0 then None
    else if calls[n - 1].id == id then Some(n - 1)
    else FindCall(calls, id, n - 1)
  }

  predicate Fresh(k: Call, now: int) {
    k.open && now - k.last <= CONTINUE_MS
  }

  /** The slot's latest call, while it can still continue. */
  function FreshCall(c: Ctx, F: Family, slot: Id, now: int): (r: Option<nat>)
    ensures r.Some? ==> r.value < |F.calls| && F.calls[r.value].open
  {
    if slot !in c.lastOnSlot then None
    else
      var r := FindCall(F.calls, c.lastOnSlot[slot], |F.calls|);
      if r.Some? && Fresh(F.calls[r.value], now) then r else None
  }

  predicate IsTwin(o: Call, k: Call, now: int) {
    && o.id != k.id && o.session != k.session && Fresh(o, now)
    && o.net == k.net && o.src == k.src && o.tgt == k.tgt && o.priv == k.priv
  }

  /** The newest call that is a twin of k: open, recent, from another stream, alike in network, ends and kind. */
  function FindTwin(calls: seq<Call>, k: Call, now: int, n: nat): (r: Option<nat>)
    requires n <= |calls|
    ensures r.Some? ==> r.value < n && IsTwin(calls[r.value], k, now)
  {
    if n == 0 then None
    else if IsTwin(calls[n - 1], k, now) then Some(n - 1)
    else FindTwin(calls, k, now, n - 1)
  }

  // ---- the active calls of a stream, a map from "slot|target" in key order ----

  function Key(slot: Id, tgt: Id): Id {
    slot + "|" + tgt
  }

  function Lookup(a: seq<(Id, nat)>, key: Id): Option<nat> {
    if a == [] then None else if a[0].0 == key then Some(a[0].1) else Lookup(a[1..], key)
  }

  function Put(a: seq<(Id, nat)>, key: Id, id: nat): seq<(Id, nat)> {
    if a == [] then [(key, id)]
    else if a[0].0 == key then [(key, id)] + a[1..]
    else if Less(key, a[0].0) then [(key, id)] + a
    else [a[0]] + Put(a[1..], key, id)
  }

  function Erase(a: seq<(Id, nat)>, key: Id): seq<(Id, nat)> {
    if a == [] then [] else if a[0].0 == key then a[1..] else [a[0]] + Erase(a[1..], key)
  }

  /** The position of the last '|' before n; -1 without one. */
  function LastBar(key: Id, n: nat): (r: int)
    requires n <= |key|
    ensures -1 <= r < n
  {
    if n == 0 then -1 else if key[n - 1] == '|' then n - 1 else LastBar(key, n - 1)
  }

  /** An active call on tgt that a line may join: one of the slots, its own or the line's, is empty, it can still
      continue, and it is not another talker's. */
  predicate Adoptable(e: (Id, nat), F: Family, slot: Id, tgt: Id, src: Id, now: int) {
    var bar := LastBar(e.0, |e.0|);
    var f := FindCall(F.calls, e.1, |F.calls|);
    && bar >= 0 && e.0[bar + 1..] == tgt && (e.0[..bar] == "" || slot == "")
    && f.Some? && Fresh(F.calls[f.value], now)
    && !(src != "" && F.calls[f.value].src != "" && F.calls[f.value].src != src)
  }

  /** The first such call, in key order. */
  function FindAdoptable(a: seq<(Id, nat)>, F: Family, slot: Id, tgt: Id, src: Id, now: int): (r: Option<(Id, nat)>)
    ensures r.Some? ==> r.value.1 < |F.calls| && F.calls[r.value.1].open
  {
    if a == [] then None
    else if Adoptable(a[0], F, slot, tgt, src, now) then Some((a[0].0, FindCall(F.calls, a[0].1, |F.calls|).value))
    else FindAdoptable(a[1..], F, slot, tgt, src, now)
  }

  // ---- one line of a live stream ----

  /** Active calls that went quiet are closed and forgotten. */
  function Expire(F: Family, a: seq<(Id, nat)>, now: int): (r: (Family, seq<(Id, nat)>))
    decreases |a|
  {
    if a == [] then (F, [])
    else
      var f := FindCall(F.calls, a[0].1, |F.calls|);
      if f.None? then Expire(F, a[1..], now)
      else if !Fresh(F.calls[f.value], now) then Expire(CloseCall(F, f.value), a[1..], now)
      else
        var r := Expire(F, a[1..], now);
        (r.0, [a[0]] + r.1)
  }

  /** Where an event's call is: the family and stream after looking, and the call found. */
  datatype Found = Found(F: Family, c: Ctx, cur: Option<nat>)

  /** The call a line with a target belongs to. */
  function CallOfTarget(F: Family, c: Ctx, ev: Event, now: int): (r: Found)
    ensures r.cur.Some? ==> r.cur.value < |r.F.calls| && r.F.calls[r.cur.value].open
  {
    var known := Lookup(c.active, Key(ev.slot, ev.tgt));
    var f := if known.Some? then FindCall(F.calls, known.value, |F.calls|) else None;
    if f.Some? && Fresh(F.calls[f.value], now) then Found(F, c, f)
    else
      var ad := FindAdoptable(c.active, F, ev.slot, ev.tgt, ev.src, now);
      if ad.Some? then
        var i := ad.value.1;
        if F.calls[i].slot == "" && ev.slot != "" then
          Found(SetCall(F, i, F.calls[i].(slot := ev.slot)),
                c.(active := Put(Erase(c.active, ad.value.0), Key(ev.slot, ev.tgt), F.calls[i].id)), Some(i))
        else Found(F, c, Some(i))
      else
        var last := FreshCall(c, F, ev.slot, now);
        if last.Some? && F.calls[last.value].tgt == ""
           && (ev.src == "" || F.calls[last.value].src == "" || F.calls[last.value].src == ev.src)
        then Found(F, c, last)
        else Found(F, c, None)
  }

  predicate VoiceLine(ev: Event) {
    ev.kind == Voice || (ev.kind == Sync && ev.voiceSync) || (ev.kind == CallLine && ev.ambe)
  }

  predicate Callish(ev: Event) {
    ev.kind == CallLine || ev.kind == Voice || ev.kind == Message || ev.kind == Burst
  }

  /** The call the line continues, if any: not a data call for a voice line without ids, and not another
      talker's call, which ends. */
  function CurrentCall(F: Family, c: Ctx, ev: Event, now: int): (r: Found)
    ensures r.cur.Some? ==> r.cur.value < |r.F.calls| && r.F.calls[r.cur.value].open
  {
    var r := if ev.tgt != "" then CallOfTarget(F, c, ev, now) else Found(F, c, FreshCall(c, F, ev.slot, now));
    if r.cur.None? then r
    else
      var k := r.F.calls[r.cur.value];
      if k.data && !k.voice && ev.src == "" && ev.tgt == "" && VoiceLine(ev) then r.(cur := None)
      else if ev.src != "" && k.src != "" && ev.src != k.src then Found(CloseCall(r.F, r.cur.value), r.c, None)
      else r
  }

  function AudioLess(calls: seq<Call>): nat {
    if calls == [] then 0 else (if calls[0].keep then 0 else 1) + AudioLess(calls[1..])
  }

  /** The oldest call without audio. */
  function FirstAudioLess(calls: seq<Call>, i: nat): (r: nat)
    requires i <= |calls|
    ensures i <= r <= |calls|
    decreases |calls| - i
  {
    if i == |calls| || !calls[i].keep then i else FirstAudioLess(calls, i + 1)
  }

  /** The oldest audio-less call rolls off a full list. */
  function RollOff(F: Family, maxCalls: nat): Family {
    var i := FirstAudioLess(F.calls, 0);
    if AudioLess(F.calls) < maxCalls || i == |F.calls| then F
    else
      var G := CloseCall(F, i);
      G.(calls := Without(G.calls, i), past := G.past + [G.calls[i]])
  }

  function NewCall(id: nat, sid: nat, slot: Id, net: Id, now: int): Call {
    Call(id, sid, net, slot, "", "", false, false, false, false, false, true, false, "", "", false, false, now, now, 0, 1)
  }

  /** A new call, the newest of the list; on a real slot it ends the one before. */
  function OpenCall(F: Family, c: Ctx, sid: nat, slot: Id, now: int, id: nat, maxCalls: nat): (r: (Family, Ctx))
    ensures |r.0.calls| > 0
  {
    var prev := if slot != "" then FreshCall(c, F, slot, now) else None;
    var F1 := if prev.Some? then CloseCall(F, prev.value) else F;
    var F2 := RollOff(F1, maxCalls);
    (F2.(calls := F2.calls + [NewCall(id, sid, slot, c.net, now)]), c.(lastOnSlot := c.lastOnSlot[slot := id]))
  }

  function Repoint(a: seq<(Id, nat)>, from: nat, to: nat): seq<(Id, nat)> {
    if a == [] then [] else [if a[0].1 == from then (a[0].0, to) else a[0]] + Repoint(a[1..], from, to)
  }

  /** The twin after hearing its duplicate too. */
  function Joined(twin: Call, dup: Call): Call {
    twin.(voice := twin.voice || dup.voice, data := twin.data || dup.data,
          emergency := twin.emergency || dup.emergency, encrypted := twin.encrypted || dup.encrypted,
          alg := if twin.kid == "" then dup.alg else twin.alg, kid := if twin.kid == "" then dup.kid else twin.kid,
          slot := if twin.slot == "" then dup.slot else twin.slot,
          start := if dup.start < twin.start then dup.start else twin.start, last := Max(twin.last, dup.last),
          streams := twin.streams + 1, keep := twin.keep || dup.keep)
  }

  /** The duplicate at i is folded into the twin at j and dropped; returns where the twin is then. */
  function AdoptTwin(F: Family, c: Ctx, i: nat, j: nat, slot: Id): (r: Found)
    requires i < |F.calls| && j < |F.calls| && i != j
    ensures r.cur.Some? && r.cur.value < |r.F.calls|
  {
    var dup, twin := F.calls[i], F.calls[j];
    var c' := c.(active := Repoint(c.active, dup.id, twin.id),
                 lastOnSlot := (map s | s in c.lastOnSlot :: if c.lastOnSlot[s] == dup.id then twin.id else c.lastOnSlot[s])[slot := twin.id]);
    var j' := if i < j then j - 1 else j;
    var G := SetCall(F, j, Joined(twin, dup));
    Found(NoteKey(G.(calls := Without(G.calls, i)), j'), c', Some(j'))
  }

  /** The line's facts about the call itself: ids, flags, network, times. */
  function Heard(k: Call, c: Ctx, ev: Event): Call {
    var src := if k.src == "" then ev.src else k.src;
    var tgt := if k.tgt == "" then ev.tgt else k.tgt;
    k.(src := src, tgt := tgt, voice := k.voice || VoiceLine(ev), txEnd := if VoiceLine(ev) then 0 else k.txEnd,
       data := k.data || ev.data || ev.kind == Message, emergency := k.emergency || ev.emergency,
       net := if k.counted then k.net else c.net)
  }

  /** Folding the line into its call: refine it, and once both ends are known count it, unless another stream
      has the same call already. */
  function FoldEvent(F: Family, c: Ctx, i: nat, ev: Event, now: int): (r: (Family, Ctx))
    requires i < |F.calls|
  {
    var k := Heard(F.calls[i], c, ev);
    var c1 := if F.calls[i].tgt == "" && ev.tgt != "" then c.(active := Put(c.active, Key(ev.slot, ev.tgt), k.id)) else c;
    var F1 := SetCall(F, i, k);
    var F2 := if ev.enc then NoteEncrypted(F1, i, ev) else F1;
    var F3 := SetCall(F2, i, F2.calls[i].(last := now));
    var c2 := c1.(lastOnSlot := c1.lastOnSlot[ev.slot := k.id]);
    var F4 := if ev.priv then SetPrivate(F3, i, now) else F3;
    var k4 := F4.calls[i];
    if k4.counted || k4.src == "" || k4.tgt == "" then (F4, c2)
    else
      var t := FindTwin(F4.calls, k4, now, |F4.calls|);
      if t.None? then (CountCall(F4, i, now), c2)
      else
        var r := AdoptTwin(F4, c2, i, t.value, ev.slot);
        if r.F.calls[r.cur.value].counted then (r.F, r.c) else (CountCall(r.F, r.cur.value, now), r.c)
  }

  /** Everything a line does after its stream's network is known. */
  function Hear(F: Family, c: Ctx, sid: nat, ev: Event, now: int, next: nat, maxCalls: nat): (r: (Family, Ctx, nat))
    ensures next <= r.2
  {
    var ex := Expire(F, c.active, now);
    var F1, c1 := ex.0, c.(active := ex.1);
    if ev.roster then (F1, c1, next)
    else if ev.kind == Sync && ev.terminator then
      var f := FreshCall(c1, F1, ev.slot, now);
      if f.Some? && F1.calls[f.value].txEnd == 0
      then (SetCall(F1, f.value, F1.calls[f.value].(txEnd := F1.calls[f.value].last)), c1, next)
      else (F1, c1, next)
    else if ev.kind == Unknown then (RefineOnly(F1, c1, ev, now), c1, next)
    else
      var F2 := if ev.src == "" then F1 else EnterRadio(F1, ev.src, c1.net, now);
      if !(Callish(ev) || (ev.kind == Sync && (ev.voiceSync || ev.trafficSync))) then (F2, c1, next)
      else
        var r := CurrentCall(F2, c1, ev, now);
        if r.cur.Some? then
          var g := FoldEvent(r.F, r.c, r.cur.value, ev, now);
          (g.0, g.1, next)
        else if !Callish(ev) || (ev.src == "" && ev.tgt == "" && ev.kind != Message) then (r.F, r.c, next)
        else
          var o := OpenCall(r.F, r.c, sid, ev.slot, now, next + 1, maxCalls);
          var g := FoldEvent(o.0, o.1, |o.0.calls| - 1, ev, now);
          (g.0, g.1, next + 1)
  }

  /** A line of unknown kind only refines the call in progress on its slot. */
  function RefineOnly(F: Family, c: Ctx, ev: Event, now: int): Family {
    var f := FreshCall(c, F, ev.slot, now);
    if f.None? then F
    else
      var i := f.value;
      var F1 := if ev.priv then SetPrivate(F, i, now) else F;
      var F2 := if ev.emergency then SetCall(F1, i, F1.calls[i].(emergency := true)) else F1;
      if ev.enc then NoteEncrypted(F2, i, ev) else F2
  }

  // ---- networks ----

  function RelabelCall(k: Call, from: Id, to: Id): Call {
    if k.net == from then k.(net := to) else k
  }

  function RelabelCalls(s: seq<Call>, from: Id, to: Id): (r: seq<Call>)
    ensures |r| == |s|
    ensures forall i :: 0 <= i < |s| ==> r[i] == RelabelCall(s[i], from, to)
  {
    seq(|s|, i requires 0 <= i < |s| => RelabelCall(s[i], from, to))
  }

  function Relabel(s: set<Id>, from: Id, to: Id): set<Id> {
    if from in s then s - {from} + {to} else s
  }

  /** Network `from` turns out to be `to`: its counts, and everything that names it, move there. */
  function MergeNetwork(F: Family, from: Id, to: Id): Family {
    if from !in F.networks || to !in F.networks then F
    else
      var a, z := F.networks[from], F.networks[to];
      var ks := Sorted(a.keys.Keys);
      var z' := Network(z.sessions + a.sessions, z.calls + a.calls, AddKeys(z.keys, a.keys, ks), Max(z.last, a.last));
      Family(F.networks[to := z'] - {from},
             map t | t in F.tgs :: F.tgs[t].(networks := Relabel(F.tgs[t].networks, from, to)),
             map r | r in F.radios :: F.radios[r].(networks := Relabel(F.radios[r].networks, from, to)),
             RelabelCalls(F.calls, from, to), RelabelCalls(F.past, from, to),
             F.lossy || KeysLost(z.keys, a.keys, ks))
  }

  function RelabelStreams(sess: map<nat, Ctx>, from: Id, to: Id): map<nat, Ctx> {
    map s | s in sess :: if sess[s].net == from then sess[s].(net := to) else sess[s]
  }

  /** The stream's network is entered under the key its identity derives; a bucket that only it fed, or that its
      identity narrows, is folded into it. */
  function ResolveNetwork(m: State, sid: nat, id: Identity, now: int): (r: State)
    requires sid in m.sess && m.sess[sid].family in m.fam
    ensures sid in r.sess && r.sess[sid].family == m.sess[sid].family && r.sess[sid].family in r.fam
  {
    var c := m.sess[sid];
    var F := EnsureNetwork(m.fam[c.family], id.key, now);
    var folds := c.net != "" && c.net != id.key && c.net in F.networks
                 && (F.networks[c.net].sessions <= {sid} || id.narrows);
    var G := if folds then MergeNetwork(F, c.net, id.key) else F;
    var sess := if folds then RelabelStreams(m.sess, c.net, id.key) else m.sess;
    m.(fam := m.fam[c.family := G], sess := sess[sid := c.(net := id.key)])
  }

  /** The stream's network was heard now. */
  function TouchNetwork(F: Family, net: Id, sid: nat, now: int): Family {
    var n := if net in F.networks then F.networks[net] else Network({}, 0, map[], 0);
    F.(networks := F.networks[net := n.(last := now, sessions := n.sessions + {sid})])
  }

  // ---- the operations ----

  datatype Op =
    | Begin(sid: nat, protocol: Id, family: Id, freq: int, now: int, kept: set<Id>)
    | Tune(sid: nat, freq: int, now: int)
    | Line(sid: nat, ev: Event, now: int)
    | End(sid: nat, now: int, kept: set<Id>)
    | Remove(sid: nat, now: int, kept: set<Id>)
    | Keep(family: Id, id: nat, on: bool)
    | Clear(now: int)

  function FreshCtx(family: Id, protocol: Id, running: bool, freq: int): Ctx {
    Ctx(family, protocol, "", false, running, freq, [], map[])
  }

  /** A line of a live stream, its network up to date. */
  function Listen(m: State, sid: nat, ev: Event, now: int): State
    requires sid in m.sess && m.sess[sid].family in m.fam
  {
    var c := m.sess[sid];
    var r := Hear(TouchNetwork(m.fam[c.family], c.net, sid, now), c, sid, ev, now, m.next, m.maxCalls);
    m.(fam := m.fam[c.family := r.0], sess := m.sess[sid := r.1], next := r.2)
  }

  function Hears(m: State, sid: nat, ev: Event, now: int): State {
    if sid !in m.sess || m.sess[sid].family == "" then m
    else
      var c0 := m.sess[sid];
      if c0.family == "auto" && (ev.kind == Unknown || ev.family == "") then m
      else
        var c1 := if c0.family == "auto" then c0.(family := ev.family) else c0;
        if ev.crcError then m.(sess := m.sess[sid := c1])
        else
          var c2 := if ev.identity.restarted then c1.(net := "") else c1;
          if !c2.live && ev.kind == Unknown then m.(sess := m.sess[sid := c2])
          else
            var c3 := c2.(live := true);
            var m1 := m.(sess := m.sess[sid := c3],
                         fam := if c3.family in m.fam then m.fam else m.fam[c3.family := NEW_FAMILY]);
            var m2 := if ev.identity.changed || c3.net == "" || c3.net !in m1.fam[c3.family].networks
                      then ResolveNetwork(m1, sid, ev.identity, now) else m1;
            Listen(m2, sid, ev, now)
  }

  function CloseOf(F: Family, sid: nat, n: nat): (G: Family)
    requires n <= |F.calls|
    ensures |G.calls| == |F.calls|
    decreases n
  {
    if n == 0 then F
    else
      var G := CloseOf(F, sid, n - 1);
      if G.calls[n - 1].session == sid then CloseCall(G, n - 1) else G
  }

  /** The session's calls end. */
  function CloseSession(m: State, sid: nat): State {
    if sid !in m.sess || m.sess[sid].family !in m.fam then m
    else
      var f := m.sess[sid].family;
      m.(fam := m.fam[f := CloseOf(m.fam[f], sid, |m.fam[f].calls|)])
  }

  predicate InUse(m: State, sid: nat, f: Id, net: Id) {
    exists s :: s in m.sess && s != sid && m.sess[s].running && m.sess[s].family == f && m.sess[s].net == net
  }

  /** The networks a stopping stream leaves without a trace: it fed them, no call was counted or is listed on
      them, no other running stream is on them, and they are not among those identified for good. */
  function DeadNetworks(m: State, sid: nat, f: Id, kept: set<Id>): set<Id>
    requires f in m.fam
  {
    var F := m.fam[f];
    set n | n in F.networks && F.networks[n].calls == 0 && sid in F.networks[n].sessions && n !in kept
            && !InUse(m, sid, f, n) && (forall k :: k in F.calls ==> k.net != n)
  }

  function Pruned(F: Family, dead: set<Id>): Family {
    F.(networks := F.networks - dead,
       radios := map r | r in F.radios && !(F.radios[r].networks * dead == F.radios[r].networks && IdleRadio(F.radios[r]))
                 :: F.radios[r].(networks := F.radios[r].networks - dead),
       tgs := map t | t in F.tgs && !(F.tgs[t].networks * dead == F.tgs[t].networks && IdleTg(F.tgs[t]))
              :: F.tgs[t].(networks := F.tgs[t].networks - dead))
  }

  predicate IdleRadio(r: Radio) {
    r.calls == 0 && r.tgs == map[] && r.peers == map[]
  }

  predicate IdleTg(t: Talkgroup) {
    t.calls == 0 && t.radios == map[]
  }

  predicate Bare(F: Family) {
    F.networks == map[] && F.radios == map[] && F.tgs == map[] && F.calls == []
  }

  function Prune(m: State, sid: nat, kept: set<Id>): State {
    if sid !in m.sess || m.sess[sid].family !in m.fam then m
    else
      var c := m.sess[sid];
      var dead := DeadNetworks(m, sid, c.family, kept);
      if dead == {} then m
      else
        var F := Pruned(m.fam[c.family], dead);
        m.(fam := if Bare(F) then m.fam - {c.family} else m.fam[c.family := F],
           sess := m.sess[sid := if c.net in dead then c.(net := "") else c])
  }

  function SetKeep(s: seq<Call>, id: nat, on: bool): (r: seq<Call>)
    ensures |r| == |s|
  {
    if s == [] then [] else if s[0].id == id then [s[0].(keep := on)] + s[1..] else [s[0]] + SetKeep(s[1..], id, on)
  }

  function Step(m: State, op: Op): State {
    match op
    case Begin(sid, protocol, family, freq, now, kept) =>
      var m1 := Prune(CloseSession(m, sid), sid, kept);
      m1.(sess := m1.sess[sid := FreshCtx(family, protocol, true, freq)])
    case Tune(sid, freq, now) =>
      if sid !in m.sess || m.sess[sid].freq == freq then m
      else
        var m1 := Prune(CloseSession(m, sid), sid, {});
        var c := m.sess[sid];
        m1.(sess := m1.sess[sid := FreshCtx(c.family, c.protocol, c.running, freq)])
    case Line(sid, ev, now) => Hears(m, sid, ev, now)
    case End(sid, now, kept) =>
      var m1 := CloseSession(m, sid);
      var m2 := if sid in m1.sess then m1.(sess := m1.sess[sid := m1.sess[sid].(running := false, active := [])]) else m1;
      Prune(m2, sid, kept)
    case Remove(sid, now, kept) =>
      var m1 := Prune(CloseSession(m, sid), sid, kept);
      m1.(sess := m1.sess - {sid})
    case Keep(family, id, on) =>
      if family !in m.fam then m
      else m.(fam := m.fam[family := m.fam[family].(calls := SetKeep(m.fam[family].calls, id, on))])
    case Clear(now) =>
      State(map[], map s | s in m.sess :: FreshCtx(m.sess[s].family, m.sess[s].protocol, m.sess[s].running, m.sess[s].freq),
            0, m.maxCalls)
  }

  function Run(m: State, ops: seq<Op>): State {
    if ops == [] then m else Step(Run(m, ops[..|ops| - 1]), ops[|ops| - 1])
  }
}
