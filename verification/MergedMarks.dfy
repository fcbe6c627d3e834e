/** What a merge does to the counters of flags and keys: a twin takes over the duplicate's, yet uncounting the duplicate
    takes them back, so a flag or key the twin lacked ends up listed and not counted. */
module MergedMarks {
  import opened Basics
  import opened Ordered
  import opened Counters
  import opened Maps
  import opened NetMerges
  import opened Datasets
  import opened MergeInto

  /** The counters of a flag or a key. */
  datatype Mark =
    | Emergencies(t: string)
    | Encrypteds(t: string)
    | OnRadio(r: string, key: string)
    | OnTg(t: string, key: string)
    | OnNetwork(n: string, key: string)

  function Marked(F: DsFamily, m: Mark): nat {
    match m
    case Emergencies(t) => if t in F.tgs then F.tgs[t].emerg else 0
    case Encrypteds(t) => if t in F.tgs then F.tgs[t].enc else 0
    case OnRadio(r, k) => if r in F.radios then Get(F.radios[r].keys, k) else 0
    case OnTg(t, k) => if t in F.tgs then Get(F.tgs[t].keys, k) else 0
    case OnNetwork(n, k) => if n in F.networks then Get(F.networks[n].keys, k) else 0
  }

  /** The call belongs to the mark's radio, talkgroup or network. */
  predicate On(m: Mark, c: DsCall) {
    match m
    case Emergencies(t) => !c.priv && c.tgt == t
    case Encrypteds(t) => !c.priv && c.tgt == t
    case OnRadio(r, _) => c.src == r
    case OnTg(t, _) => !c.priv && c.tgt == t
    case OnNetwork(n, _) => c.net == n
  }

  /** The call has the mark's flag, or names its key. */
  predicate Bears(m: Mark, c: DsCall) {
    match m
    case Emergencies(_) => c.emerg
    case Encrypteds(_) => c.enc
    case _ => c.kid != "" && c.alg + ":" + c.kid == m.key
  }

  /** The call has nothing a duplicate's could not be added to: no flag, no key of its own. */
  predicate Bare(m: Mark, c: DsCall) {
    match m
    case Emergencies(_) => !c.emerg
    case Encrypteds(_) => !c.enc
    case _ => c.kid == ""
  }

  function MarkShare(m: Mark, c: DsCall): nat {
    One(Twinnable(c) && On(m, c) && Bears(m, c))
  }

  function MarkShares(s: seq<DsCall>, m: Mark): nat {
    if s == [] then 0 else MarkShare(m, s[0]) + MarkShares(s[1..], m)
  }

  /** What the counter holds beyond the listed calls. */
  function Excess(F: DsFamily, m: Mark): int {
    Marked(F, m) - MarkShares(F.calls, m)
  }

  /** No key of the mark's entity is turned away for lack of room. */
  predicate KeysFit(T: DsFamily, F: DsFamily, m: Mark) {
    match m
    case OnRadio(r, _) => r in T.radios && r in F.radios ==> Fit(T.radios[r].keys, F.radios[r].keys)
    case OnTg(t, _) => t in T.tgs && t in F.tgs ==> Fit(T.tgs[t].keys, F.tgs[t].keys)
    case OnNetwork(n, _) => n in T.networks && n in F.networks ==> Fit(T.networks[n].keys, F.networks[n].keys)
    case _ => true
  }

  predicate Fit(a: map<string, nat>, b: map<string, nat>) {
    !KeysLost(a, b, Sorted(b.Keys))
  }

  lemma FittingKeysAdd(a: map<string, nat>, b: map<string, nat>, k: string)
    requires Fit(a, b)
    ensures Get(MergedKeys(a, b), k) == Get(a, k) + Get(b, k)
  {
    hide Sorted, AddKeys, KeysLost;
    SortedDistinct(b.Keys);
    AddKeysGet(a, b, Sorted(b.Keys), k);
  }

  lemma MarksAdd(T: DsFamily, F: DsFamily, m: Mark)
    requires KeysFit(T, F, m)
    ensures Marked(AddEntities(T, F), m) == Marked(T, m) + Marked(F, m)
  {
    hide AddCounts, MergedKeys, AddAliases, Insert, Fit;
    match m
    case OnRadio(r, k) => if r in T.radios && r in F.radios { FittingKeysAdd(T.radios[r].keys, F.radios[r].keys, k); }
    case OnTg(t, k) => if t in T.tgs && t in F.tgs { FittingKeysAdd(T.tgs[t].keys, F.tgs[t].keys, k); }
    case OnNetwork(n, k) => if n in T.networks && n in F.networks { FittingKeysAdd(T.networks[n].keys, F.networks[n].keys, k); }
    case _ =>
  }

  // ---- taking a duplicate's marks back ----

  lemma TalkerMarks(F: DsFamily, c: DsCall, m: Mark)
    ensures Marked(UncountTalker(F, c), m) ==
            if m.OnRadio? && On(m, c) && Bears(m, c) then Less1(Marked(F, m)) else Marked(F, m)
  {
    hide Unbump;
    if m.OnRadio? && m.r in F.radios { UnbumpLess(F.radios[m.r].keys, c.alg + ":" + c.kid, m.key); }
  }

  lemma PeerMarks(F: DsFamily, c: DsCall, m: Mark)
    ensures Marked(UncountPeer(F, c), m) == Marked(F, m)
  {
    hide Unbump;
  }

  lemma TgMarks(F: DsFamily, c: DsCall, m: Mark)
    ensures Marked(UncountTg(F, c), m) ==
            if !m.OnRadio? && !m.OnNetwork? && On(m, c) && Bears(m, c) then Less1(Marked(F, m)) else Marked(F, m)
  {
    hide Unbump;
    if m.OnTg? && m.t in F.tgs { UnbumpLess(F.tgs[m.t].keys, c.alg + ":" + c.kid, m.key); }
  }

  lemma NetworkMarks(F: DsFamily, c: DsCall, m: Mark)
    ensures Marked(UncountNetwork(F, c), m) ==
            if m.OnNetwork? && On(m, c) && Bears(m, c) then Less1(Marked(F, m)) else Marked(F, m)
  {
    hide Unbump;
    if m.OnNetwork? && m.n in F.networks { UnbumpLess(F.networks[m.n].keys, c.alg + ":" + c.kid, m.key); }
  }

  lemma UncountTakesMark(F: DsFamily, c: DsCall, m: Mark)
    requires Twinnable(c) && Marked(F, m) >= MarkShare(m, c)
    ensures Marked(Uncount(F, c), m) + MarkShare(m, c) == Marked(F, m)
  {
    hide Marked, On, Bears, UncountTalker, UncountPeer, UncountTg, UncountNetwork;
    var F1 := UncountTalker(F, c);
    var F2 := UncountPeer(F1, c);
    var F3 := UncountTg(F2, c);
    TalkerMarks(F, c, m);
    PeerMarks(F1, c, m);
    TgMarks(F2, c, m);
    NetworkMarks(F3, c, m);
  }

  // ---- folding ----

  /** The twin t takes from the duplicate d a flag or key it lacked. */
  predicate Lends(m: Mark, t: DsCall, d: DsCall) {
    Twinnable(t) && On(m, t) && Bare(m, t) && Bears(m, d)
  }

  lemma FoldedMark(t: DsCall, d: DsCall, m: Mark)
    ensures MarkShare(m, FoldCall(t, d)) == MarkShare(m, t) + One(Lends(m, t, d))
  {
  }

  lemma {:induction false} FoldMarks(s: seq<DsCall>, i: nat, d: DsCall, m: Mark)
    requires i < |s|
    ensures MarkShares(s[i := FoldCall(s[i], d)], m) == MarkShares(s, m) + One(Lends(m, s[i], d))
  {
    hide MarkShare, Lends, FoldCall;
    var t := s[i := FoldCall(s[i], d)];
    FoldedMark(s[i], d, m);
    if i == 0 {
      assert t[1..] == s[1..];
    } else {
      assert t[1..] == s[1..][i - 1 := FoldCall(s[1..][i - 1], d)];
      FoldMarks(s[1..], i - 1, d, m);
    }
  }

  lemma {:induction false} MarkSharesAppend(a: seq<DsCall>, b: seq<DsCall>, m: Mark)
    ensures MarkShares(a + b, m) == MarkShares(a, m) + MarkShares(b, m)
  {
    if a == [] {
      assert a + b == b;
    } else {
      assert (a + b)[1..] == a[1..] + b;
      MarkSharesAppend(a[1..], b, m);
    }
  }

  lemma CallsBearNoCount(F: DsFamily, calls: seq<DsCall>, m: Mark)
    ensures Marked(F.(calls := calls), m) == Marked(F, m)
  {
  }

  /** Does call c, joining, lend its twin the mark? */
  predicate LendsOnJoining(R: Rules, T: DsFamily, n: nat, c: DsCall, m: Mark)
    requires n <= |T.calls|
  {
    Twinnable(c) && var t := FindTwin(R, T.calls[..n], c, 0); t < n && Lends(m, T.calls[t], c)
  }

  /** How many of the joining calls do. */
  function Lent(R: Rules, T: DsFamily, n: nat, s: seq<DsCall>, m: Mark): nat
    requires n <= |T.calls|
    decreases |s|
  {
    if s == [] then 0
    else One(LendsOnJoining(R, T, n, s[0], m)) + Lent(R, TakeCall(R, T, n, s[0]), n, s[1..], m)
  }

  lemma TakeCallMarks(R: Rules, T: DsFamily, n: nat, c: DsCall, m: Mark)
    requires n <= |T.calls| && Marked(T, m) >= MarkShare(m, c)
    ensures var U := TakeCall(R, T, n, c);
            && Marked(U, m) >= Marked(T, m) - MarkShare(m, c)
            && Excess(U, m) == Excess(T, m) - MarkShare(m, c) - One(LendsOnJoining(R, T, n, c, m))
  {
    hide Marked, MarkShare, Uncount, FoldCall, IsTwin, Lends;
    var t := if Twinnable(c) then FindTwin(R, T.calls[..n], c, 0) else n;
    if t < n {
      var calls := T.calls[t := FoldCall(T.calls[t], c)];
      FoldMarks(T.calls, t, c, m);
      CallsBearNoCount(T, calls, m);
      UncountTakesMark(T.(calls := calls), c, m);
    } else {
      MarkSharesAppend(T.calls, [c], m);
      CallsBearNoCount(T, T.calls + [c], m);
      assert [c][1..] == [];
    }
  }

  lemma {:induction false} TakeCallsMarks(R: Rules, T: DsFamily, n: nat, s: seq<DsCall>, m: Mark)
    requires n <= |T.calls| && Marked(T, m) >= MarkShares(s, m)
    ensures Excess(TakeCalls(R, T, n, s), m) == Excess(T, m) - MarkShares(s, m) - Lent(R, T, n, s, m)
    decreases |s|
  {
    hide Marked, MarkShare, TakeCall, LendsOnJoining;
    if s != [] {
      TakeCallMarks(R, T, n, s[0], m);
      TakeCallsMarks(R, TakeCall(R, T, n, s[0]), n, s[1..], m);
    }
  }

  /** Where both inputs' counters cover their own lists and no key is turned away, a merge loses one count of a flag or
      key for each duplicate that lends it to its twin, and none otherwise. */
  lemma MarksFallShort(R: Rules, T: DsFamily, F: DsFamily, m: Mark)
    requires Excess(T, m) >= 0 && Excess(F, m) >= 0 && KeysFit(T, F, m)
    ensures Excess(MergeFamily(R, T, F), m) ==
            Excess(T, m) + Excess(F, m) - Lent(R, AddEntities(T, F), |T.calls|, F.calls, m)
  {
    hide Marked, MarkShare, TakeCalls, AddEntities, KeysFit;
    MarksAdd(T, F, m);
    TakeCallsMarks(R, AddEntities(T, F), |T.calls|, F.calls, m);
  }

  /** A family that lists one group call and counts its emergency. */
  function OneCall(c: DsCall): DsFamily {
    DsFamily(map[], map[c.tgt := DsTalkgroup(map[], {}, 1, One(c.emerg), 0, c.start, c.last, map[])], map[], [c])
  }

  /** One receiver took a call for an emergency, the other did not: merged, the call is listed as an emergency and its
      talkgroup counts none. */
  lemma EmergencyForgotten(R: Rules, c: DsCall)
    requires Twinnable(c) && !c.priv && !c.emerg && c.start <= c.last
    ensures var U := MergeFamily(R, OneCall(c), OneCall(c.(emerg := true)));
            |U.calls| == 1 && U.calls[0].emerg && Marked(U, Emergencies(c.tgt)) == 0
  {
    hide MergedKeys, AddCounts, FoldCall;
    var d := c.(emerg := true);
    var T := AddEntities(OneCall(c), OneCall(d));
    assert T.calls == [c] && T.calls[..1] == [c];
    assert IsTwin(R, c, d);
    assert FindTwin(R, [c], d, 0) == 0;
    var t := FoldCall(c, d);
    assert [c][0 := t] == [t];
    FoldedEmergency(c, d);
    var U := TakeCall(R, T, 1, d);
    assert U == Uncount(T.(calls := [t]), d);
    assert [d][1..] == [];
    assert TakeCalls(R, U, 1, []) == U;
    TgMarks(UncountPeer(UncountTalker(T.(calls := [t]), d), d), d, Emergencies(c.tgt));
  }

  lemma FoldedEmergency(t: DsCall, d: DsCall)
    requires d.emerg
    ensures FoldCall(t, d).emerg
  {
  }
}
