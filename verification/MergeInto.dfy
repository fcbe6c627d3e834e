/** Merging one data set into another: counters join by addition, twins among the calls fold into one, and
    what a folded call was counted for is subtracted exactly. */
module MergeInto {
  import opened Basics
  import opened Ordered
  import opened Counters
  import opened Maps
  import opened NetMerges
  import opened Datasets
  import opened Tracks

  const TWIN_GAP_MS := 4000
  const MAX_ALIASES: nat := 8

  // ---- counters of a data set ----

  /** The counters the merge is answerable for. */
  datatype Counter =
    | RadioTotal(r: string)
    | RadioUse(r: string, t: string)
    | TgUse(t: string, r: string)
    | PeerCalls(r: string, p: string)
    | TgTotal(t: string)
    | NetTotal(n: string)

  function Value(F: DsFamily, q: Counter): nat {
    match q
    case RadioTotal(r) => if r in F.radios then F.radios[r].calls else 0
    case RadioUse(r, t) => if r in F.radios then Get(F.radios[r].tgs, t) else 0
    case PeerCalls(r, p) => if r in F.radios then Get(F.radios[r].peers, p) else 0
    case TgTotal(t) => if t in F.tgs then F.tgs[t].calls else 0
    case TgUse(t, r) => if t in F.tgs then Get(F.tgs[t].radios, r) else 0
    case NetTotal(n) => if n in F.networks then F.networks[n].calls else 0
  }

  /** Both ends and the network are known: such a call can have a twin in another data set. */
  predicate Twinnable(c: DsCall) {
    c.src != "" && c.tgt != "" && c.net != ""
  }

  /** What a listed call that can have a twin was counted for. */
  function Share(q: Counter, c: DsCall): nat {
    if !Twinnable(c) then 0
    else
      match q
      case RadioTotal(r) => One(c.src == r)
      case RadioUse(r, t) => One(!c.priv && c.src == r && c.tgt == t)
      case TgUse(t, r) => One(!c.priv && c.src == r && c.tgt == t)
      case PeerCalls(r, p) => One(c.priv && c.src == r && c.tgt == p) + One(c.priv && c.tgt == r && c.src == p)
      case TgTotal(t) => One(!c.priv && c.tgt == t)
      case NetTotal(n) => One(c.net == n)
  }

  function Shares(s: seq<DsCall>, q: Counter): nat {
    if s == [] then 0 else Share(q, s[0]) + Shares(s[1..], q)
  }

  function Streams(s: seq<DsCall>): nat {
    if s == [] then 0 else s[0].streams + Streams(s[1..])
  }

  /** The calls counted beyond those still listed, rolled off the list or never listed. */
  function Unlisted(F: DsFamily, q: Counter): int {
    Value(F, q) - Shares(F.calls, q)
  }

  // ---- adding entities ----

  function Plus(x: nat, y: nat): nat {
    x + y
  }

  function AddCounts(a: map<string, nat>, b: map<string, nat>): (r: map<string, nat>)
    ensures forall k :: Get(r, k) == Get(a, k) + Get(b, k)
  {
    Mixed<string, nat>(a, b, Plus)
  }

  function MergedKeys(a: map<string, nat>, b: map<string, nat>): map<string, nat> {
    AddKeys(a, b, Sorted(b.Keys))
  }

  /** Key by key, the first map wins. */
  function Insert<K, V>(a: map<K, V>, b: map<K, V>): map<K, V> {
    b + a
  }

  function MergedNetwork(n: DsNetwork, m: DsNetwork): DsNetwork {
    var better := ConfidenceRank(m.confidence) > ConfidenceRank(n.confidence);
    DsNetwork(if better then m.name else n.name, if better then m.confidence else n.confidence,
              Insert(n.ids, m.ids), n.sites + m.sites, n.freqs + m.freqs, n.sessions + m.sessions, n.calls + m.calls,
              Earliest(n.first, m.first), Max(n.last, m.last), MergedKeys(n.keys, m.keys))
  }

  function MergedTg(t: DsTalkgroup, m: DsTalkgroup): DsTalkgroup {
    DsTalkgroup(AddCounts(t.radios, m.radios), t.networks + m.networks, t.calls + m.calls, t.emerg + m.emerg, t.enc + m.enc,
                Earliest(t.first, m.first), Max(t.last, m.last), MergedKeys(t.keys, m.keys))
  }

  function AddAliases(a: seq<string>, b: seq<string>): seq<string>
    decreases |b|
  {
    if b == [] then a
    else AddAliases(if |a| < MAX_ALIASES && b[0] !in a then a + [b[0]] else a, b[1..])
  }

  function MergedRadio(r: DsRadio, m: DsRadio): DsRadio {
    var newer := m.pos != "" && m.posTime >= r.posTime;
    DsRadio(AddAliases(r.aliases, m.aliases), AddCounts(r.tgs, m.tgs), AddCounts(r.peers, m.peers), r.networks + m.networks,
            MergedKeys(r.keys, m.keys), r.calls + m.calls, Earliest(r.first, m.first), Max(r.last, m.last),
            if newer then m.pos else r.pos, if newer then m.posTime else r.posTime,
            if m.track == [] then r.track else MergeTracks(r.track, m.track))
  }

  function AddEntities(T: DsFamily, F: DsFamily): (U: DsFamily)
    ensures U.calls == T.calls
  {
    DsFamily(Mixed(T.networks, F.networks, MergedNetwork), Mixed(T.tgs, F.tgs, MergedTg),
             Mixed(T.radios, F.radios, MergedRadio), T.calls)
  }

  lemma EntitiesAdd(T: DsFamily, F: DsFamily, q: Counter)
    ensures Value(AddEntities(T, F), q) == Value(T, q) + Value(F, q)
  {
    hide AddCounts, MergedKeys, AddAliases, Insert;
  }

  // ---- taking a duplicate's counts back ----

  /** A saturating decrement of a plain counter. */
  function Less1(n: nat): nat {
    if n > 0 then n - 1 else 0
  }

  function OffRadio(F: DsFamily, r: string, x: DsRadio): DsFamily
    requires r in F.radios
  {
    F.(radios := F.radios[r := x])
  }

  /** The duplicate's calls, edges and key on its talker. */
  function UncountTalker(F: DsFamily, c: DsCall): DsFamily {
    if c.src !in F.radios then F
    else
      var x := F.radios[c.src];
      OffRadio(F, c.src, x.(calls := Less1(x.calls), keys := if c.kid == "" then x.keys else Unbump(x.keys, c.alg + ":" + c.kid),
                            peers := if c.priv then Unbump(x.peers, c.tgt) else x.peers,
                            tgs := if c.priv then x.tgs else Unbump(x.tgs, c.tgt)))
  }

  /** The other end of a private call. */
  function UncountPeer(F: DsFamily, c: DsCall): DsFamily {
    if !c.priv || c.tgt !in F.radios then F
    else
      var x := F.radios[c.tgt];
      OffRadio(F, c.tgt, x.(peers := Unbump(x.peers, c.src)))
  }

  function UncountTg(F: DsFamily, c: DsCall): DsFamily {
    if c.priv || c.tgt !in F.tgs then F
    else
      var x := F.tgs[c.tgt];
      F.(tgs := F.tgs[c.tgt := x.(calls := Less1(x.calls), radios := Unbump(x.radios, c.src),
                                  emerg := if c.emerg then Less1(x.emerg) else x.emerg,
                                  enc := if c.enc then Less1(x.enc) else x.enc,
                                  keys := if c.kid == "" then x.keys else Unbump(x.keys, c.alg + ":" + c.kid))])
  }

  function UncountNetwork(F: DsFamily, c: DsCall): DsFamily {
    if c.net !in F.networks then F
    else
      var x := F.networks[c.net];
      F.(networks := F.networks[c.net := x.(calls := Less1(x.calls),
                                            keys := if c.kid == "" then x.keys else Unbump(x.keys, c.alg + ":" + c.kid))])
  }

  function Uncount(F: DsFamily, c: DsCall): (G: DsFamily)
    ensures G.calls == F.calls
  {
    UncountNetwork(UncountTg(UncountPeer(UncountTalker(F, c), c), c), c)
  }

  lemma UnbumpLess(m: map<string, nat>, k: string, j: string)
    ensures Get(Unbump(m, k), j) == if j == k then Less1(Get(m, j)) else Get(m, j)
  {
  }

  /** What each of the four parts does to a counter. */
  lemma TalkerPart(F: DsFamily, c: DsCall, q: Counter)
    ensures Value(UncountTalker(F, c), q) ==
            if q == RadioTotal(c.src) || (c.priv && q == PeerCalls(c.src, c.tgt)) || (!c.priv && q == RadioUse(c.src, c.tgt))
            then Less1(Value(F, q)) else Value(F, q)
  {
    hide Unbump;
    match q
    case RadioUse(r, t) => if r in F.radios { UnbumpLess(F.radios[r].tgs, c.tgt, t); }
    case PeerCalls(r, p) => if r in F.radios { UnbumpLess(F.radios[r].peers, c.tgt, p); }
    case _ =>
  }

  lemma PeerPart(F: DsFamily, c: DsCall, q: Counter)
    ensures Value(UncountPeer(F, c), q) == if c.priv && q == PeerCalls(c.tgt, c.src) then Less1(Value(F, q)) else Value(F, q)
  {
    hide Unbump;
    if q.PeerCalls? && q.r in F.radios { UnbumpLess(F.radios[q.r].peers, c.src, q.p); }
  }

  lemma TgPart(F: DsFamily, c: DsCall, q: Counter)
    ensures Value(UncountTg(F, c), q) ==
            if !c.priv && (q == TgTotal(c.tgt) || q == TgUse(c.tgt, c.src)) then Less1(Value(F, q)) else Value(F, q)
  {
    hide Unbump;
    if q.TgUse? && q.t in F.tgs { UnbumpLess(F.tgs[q.t].radios, c.src, q.r); }
  }

  lemma NetworkPart(F: DsFamily, c: DsCall, q: Counter)
    ensures Value(UncountNetwork(F, c), q) == if q == NetTotal(c.net) then Less1(Value(F, q)) else Value(F, q)
  {
    hide Unbump;
  }

  /** Where the counters cover the duplicate, uncounting takes back exactly its share: no decrement saturates. */
  lemma UncountTakesShare(F: DsFamily, c: DsCall, q: Counter)
    requires Twinnable(c) && Value(F, q) >= Share(q, c)
    ensures Value(Uncount(F, c), q) + Share(q, c) == Value(F, q)
  {
    hide Value, UncountTalker, UncountPeer, UncountTg, UncountNetwork;
    var F1 := UncountTalker(F, c);
    var F2 := UncountPeer(F1, c);
    var F3 := UncountTg(F2, c);
    TalkerPart(F, c, q);
    PeerPart(F1, c, q);
    TgPart(F2, c, q);
    NetworkPart(F3, c, q);
  }

  // ---- folding twins ----

  predicate Contains(s: string, t: string)
    decreases |s|
  {
    t <= s || (s != [] && Contains(s[1..], t))
  }

  function ServiceRank(s: string): nat {
    if s == "" then 0 else if s == "preamble" then 1 else if s == "ack" then 2 else if s == "data" then 3 else 4
  }

  function Or(a: string, b: string): string {
    if a == "" then b else a
  }

  /** The twin after taking over what the duplicate knows. */
  function FoldCall(t: DsCall, d: DsCall): DsCall {
    t.(voice := t.voice || d.voice, data := t.data || d.data, emerg := t.emerg || d.emerg, enc := t.enc || d.enc,
       alg := if t.kid == "" then d.alg else t.alg, kid := Or(t.kid, d.kid), alias := Or(t.alias, d.alias),
       text := if d.text == "" || Contains(t.text, d.text) then t.text else if t.text == "" then d.text else t.text + " | " + d.text,
       slot := Or(t.slot, d.slot), site := Or(t.site, d.site),
       svc := if ServiceRank(d.svc) > ServiceRank(t.svc) then d.svc else t.svc, pos := Or(t.pos, d.pos),
       audio := Or(t.audio, d.audio), audioMs := if t.audio == "" then d.audioMs else t.audioMs,
       start := if d.start < t.start then d.start else t.start, last := Max(t.last, d.last),
       streams := t.streams + d.streams)
  }

  predicate IsTwin(R: Rules, o: DsCall, c: DsCall) {
    && o.src != "" && o.tgt == c.tgt
    && (o.net == c.net || Root(R, o.net) == Root(R, c.net)) && o.src == c.src && o.priv == c.priv
    && c.start <= o.last + TWIN_GAP_MS && o.start <= c.last + TWIN_GAP_MS
  }

  /** The first twin of c among the listed calls from i on; n without one. */
  function FindTwin(R: Rules, s: seq<DsCall>, c: DsCall, i: nat): (r: nat)
    requires i <= |s|
    ensures i <= r <= |s| && (r < |s| ==> IsTwin(R, s[r], c))
    ensures forall j :: i <= j < r ==> !IsTwin(R, s[j], c)
    decreases |s| - i
  {
    if i == |s| || IsTwin(R, s[i], c) then i else FindTwin(R, s, c, i + 1)
  }

  /** One call of the other data set joins: folded into its twin among the first n, or listed. */
  function TakeCall(R: Rules, T: DsFamily, n: nat, c: DsCall): (U: DsFamily)
    requires n <= |T.calls|
    ensures n <= |U.calls|
  {
    var t := if Twinnable(c) then FindTwin(R, T.calls[..n], c, 0) else n;
    if t < n then Uncount(T.(calls := T.calls[t := FoldCall(T.calls[t], c)]), c)
    else T.(calls := T.calls + [c])
  }

  function TakeCalls(R: Rules, T: DsFamily, n: nat, s: seq<DsCall>): (U: DsFamily)
    requires n <= |T.calls|
    decreases |s|
  {
    if s == [] then T else TakeCalls(R, TakeCall(R, T, n, s[0]), n, s[1..])
  }

  /** One family of a merge; R are the merged data set's rules for it. */
  function MergeFamily(R: Rules, T: DsFamily, F: DsFamily): DsFamily {
    TakeCalls(R, AddEntities(T, F), |T.calls|, F.calls)
  }

  // ---- conservation ----

  lemma {:induction false} SharesAppend(a: seq<DsCall>, b: seq<DsCall>, q: Counter)
    ensures Shares(a + b, q) == Shares(a, q) + Shares(b, q)
  {
    if a == [] {
      assert a + b == b;
    } else {
      assert (a + b)[1..] == a[1..] + b;
      SharesAppend(a[1..], b, q);
    }
  }

  lemma {:induction false} StreamsAppend(a: seq<DsCall>, b: seq<DsCall>)
    ensures Streams(a + b) == Streams(a) + Streams(b)
  {
    if a == [] {
      assert a + b == b;
    } else {
      assert (a + b)[1..] == a[1..] + b;
      StreamsAppend(a[1..], b);
    }
  }

  /** Folding changes no share and adds the duplicate's streams. */
  lemma {:induction false} FoldInList(s: seq<DsCall>, i: nat, d: DsCall, q: Counter)
    requires i < |s|
    ensures Shares(s[i := FoldCall(s[i], d)], q) == Shares(s, q)
    ensures Streams(s[i := FoldCall(s[i], d)]) == Streams(s) + d.streams
  {
    hide Share, FoldCall;
    var t := s[i := FoldCall(s[i], d)];
    FoldedShare(s[i], d, q);
    if i == 0 {
      assert t[1..] == s[1..];
    } else {
      assert t[1..] == s[1..][i - 1 := FoldCall(s[1..][i - 1], d)];
      FoldInList(s[1..], i - 1, d, q);
    }
  }

  lemma FoldedShare(t: DsCall, d: DsCall, q: Counter)
    ensures Share(q, FoldCall(t, d)) == Share(q, t) && FoldCall(t, d).streams == t.streams + d.streams
  {
  }

  lemma CallsDoNotCount(F: DsFamily, calls: seq<DsCall>, q: Counter)
    ensures Value(F.(calls := calls), q) == Value(F, q)
  {
  }

  /** One call joins: its share stays counted once, in the list or, folded, in its twin's. */
  lemma TakeCallConserves(R: Rules, T: DsFamily, n: nat, c: DsCall, q: Counter)
    requires n <= |T.calls| && Value(T, q) >= Share(q, c)
    ensures var U := TakeCall(R, T, n, c);
            && Unlisted(U, q) == Unlisted(T, q) - Share(q, c)
            && Streams(U.calls) == Streams(T.calls) + c.streams
  {
    hide Value, Share, Uncount, FoldCall, IsTwin;
    var t := if Twinnable(c) then FindTwin(R, T.calls[..n], c, 0) else n;
    if t < n {
      var calls := T.calls[t := FoldCall(T.calls[t], c)];
      FoldInList(T.calls, t, c, q);
      CallsDoNotCount(T, calls, q);
      UncountTakesShare(T.(calls := calls), c, q);
    } else {
      SharesAppend(T.calls, [c], q);
      StreamsAppend(T.calls, [c]);
      CallsDoNotCount(T, T.calls + [c], q);
      assert [c][1..] == [];
    }
  }

  lemma {:induction false} TakeCallsConserves(R: Rules, T: DsFamily, n: nat, s: seq<DsCall>, q: Counter)
    requires n <= |T.calls| && Unlisted(T, q) >= Shares(s, q)
    ensures var U := TakeCalls(R, T, n, s);
            && Unlisted(U, q) == Unlisted(T, q) - Shares(s, q)
            && Streams(U.calls) == Streams(T.calls) + Streams(s)
    decreases |s|
  {
    hide Value, Share, TakeCall;
    if s != [] {
      TakeCallConserves(R, T, n, s[0], q);
      TakeCallsConserves(R, TakeCall(R, T, n, s[0]), n, s[1..], q);
    }
  }

  /** Conservation: where both inputs' counters cover their own lists, the calls a counter holds beyond the list
      are, after the merge, those of the two inputs together; and no receiver's hearing of a call is lost. */
  lemma MergeConserves(R: Rules, T: DsFamily, F: DsFamily, q: Counter)
    requires Unlisted(T, q) >= 0 && Unlisted(F, q) >= 0
    ensures Unlisted(MergeFamily(R, T, F), q) == Unlisted(T, q) + Unlisted(F, q)
    ensures Streams(MergeFamily(R, T, F).calls) == Streams(T.calls) + Streams(F.calls)
  {
    hide Value, Share, TakeCalls, AddEntities;
    var U := AddEntities(T, F);
    EntitiesAdd(T, F, q);
    TakeCallsConserves(R, U, |T.calls|, F.calls, q);
  }
}
