/** Safety of the live model over whole runs. */
module LiveRuns {
  import opened Counters
  import opened LiveModel
  import opened CountingProofs
  import opened LiveProofs
  import opened LiveCounted
  import opened NetworkProofs

  ghost predicate StateOk(m: State) {
    forall f :: f in m.fam ==> FamilyOk(m.fam[f]) && IdsUpTo(m.fam[f], m.next)
  }

  lemma NewFamilyOk(n: nat)
    ensures FamilyOk(NEW_FAMILY) && IdsUpTo(NEW_FAMILY, n)
  {
  }

  lemma ReplaceOk(m: State, f: Id, G: Family)
    requires StateOk(m) && FamilyOk(G) && IdsUpTo(G, m.next)
    ensures StateOk(m.(fam := m.fam[f := G]))
  {
    hide FamilyOk, IdsUpTo;
  }

  lemma LaterOk(m: State, f: Id, G: Family, n: nat)
    requires StateOk(m) && FamilyOk(G) && IdsUpTo(G, n) && m.next <= n
    ensures StateOk(m.(fam := m.fam[f := G], next := n))
  {
    hide FamilyOk;
  }

  // ---- networks ----

  /** G is F with one network added or its own record changed, its counters the same. */
  lemma NetworkReplacedOk(F: Family, n: Id, x: Network, k: nat)
    requires FamilyOk(F) && IdsUpTo(F, k)
    requires x.calls == (if n in F.networks then F.networks[n].calls else 0)
    requires x.keys == (if n in F.networks then F.networks[n].keys else map[])
    ensures var G := F.(networks := F.networks[n := x]); FamilyOk(G) && IdsUpTo(G, k)
  {
    var G := F.(networks := F.networks[n := x]);
    if !F.lossy {
      hide Tally;
      forall q ensures Shown(G, q) == Shown(F, q) { }
    }
  }

  lemma TouchOk(F: Family, net: Id, sid: nat, now: int, n: nat)
    requires FamilyOk(F) && IdsUpTo(F, n)
    ensures var G := TouchNetwork(F, net, sid, now); FamilyOk(G) && IdsUpTo(G, n) && net in G.networks
  {
    hide FamilyOk, IdsUpTo;
    NetworkReplacedOk(F, net, TouchNetwork(F, net, sid, now).networks[net], n);
  }

  lemma EnsureNetworkOk(F: Family, key: Id, now: int, n: nat)
    requires FamilyOk(F) && IdsUpTo(F, n)
    ensures var G := EnsureNetwork(F, key, now); FamilyOk(G) && IdsUpTo(G, n)
  {
    hide Victim;
    var G := EnsureNetwork(F, key, now);
    if !G.lossy && key !in F.networks {
      NetworkReplacedOk(F, key, Network({}, 0, map[], now), n);
    }
  }

  lemma ResolveOk(m: State, sid: nat, id: Identity, now: int)
    requires StateOk(m) && sid in m.sess && m.sess[sid].family in m.fam
    ensures StateOk(ResolveNetwork(m, sid, id, now)) && ResolveNetwork(m, sid, id, now).next == m.next
  {
    hide FamilyOk, IdsUpTo, MergeNetwork, EnsureNetwork, StateOk;
    var c := m.sess[sid];
    var F := EnsureNetwork(m.fam[c.family], id.key, now);
    StateHolds(m, c.family);
    EnsureNetworkOk(m.fam[c.family], id.key, now, m.next);
    ReplaceOk(m, c.family, F);
    if c.net != id.key {
      MergeOk(F, c.net, id.key, m.next);
      ReplaceOk(m, c.family, MergeNetwork(F, c.net, id.key));
    }
    SessionsDoNotMatter(m, ResolveNetwork(m, sid, id, now), c.family);
  }

  lemma StateHolds(m: State, f: Id)
    requires StateOk(m) && f in m.fam
    ensures FamilyOk(m.fam[f]) && IdsUpTo(m.fam[f], m.next)
  {
    hide FamilyOk, IdsUpTo;
  }

  lemma SessionsDoNotMatter(m: State, r: State, f: Id)
    requires r.next == m.next && f in r.fam && r.fam == m.fam[f := r.fam[f]]
    requires StateOk(m.(fam := m.fam[f := r.fam[f]]))
    ensures StateOk(r)
  {
    hide FamilyOk, IdsUpTo;
  }

  lemma SameFamilies(m: State, r: State)
    requires StateOk(m) && r.fam == m.fam && r.next == m.next
    ensures StateOk(r)
  {
    hide FamilyOk, IdsUpTo;
  }

  // ---- the operations ----

  /** Registering a live line: its stream's family exists from now on. */
  lemma RegisterOk(m: State, sid: nat, c: Ctx)
    requires StateOk(m)
    ensures StateOk(m.(sess := m.sess[sid := c], fam := if c.family in m.fam then m.fam else m.fam[c.family := NEW_FAMILY]))
  {
    hide FamilyOk, IdsUpTo;
    NewFamilyOk(m.next);
  }

  lemma HearOk(m: State, sid: nat, ev: Event, now: int)
    requires StateOk(m) && sid in m.sess && m.sess[sid].family in m.fam
    ensures StateOk(Listen(m, sid, ev, now))
  {
    hide FamilyOk, IdsUpTo, Hear, TouchNetwork, Keeps, StateOk;
    var c := m.sess[sid];
    var F := TouchNetwork(m.fam[c.family], c.net, sid, now);
    StateHolds(m, c.family);
    TouchOk(m.fam[c.family], c.net, sid, now, m.next);
    var r := Hear(F, c, sid, ev, now, m.next, m.maxCalls);
    HearKeeps(F, c, sid, ev, now, m.next, m.maxCalls);
    KeepsOk(F, r.0, r.2);
    LaterOk(m, c.family, r.0, r.2);
    SameFamilies(m.(fam := m.fam[c.family := r.0], next := r.2),
                 m.(fam := m.fam[c.family := r.0], sess := m.sess[sid := r.1], next := r.2));
  }

  /** A line's effect on its stream before its network is looked at. */
  function Attended(c0: Ctx, ev: Event): (r: (Ctx, bool))
    ensures r.1 ==> r.0.live
  {
    if c0.family == "" || (c0.family == "auto" && (ev.kind == Unknown || ev.family == "")) then (c0, false)
    else
      var c1 := if c0.family == "auto" then c0.(family := ev.family) else c0;
      if ev.crcError then (c1, false)
      else
        var c2 := if ev.identity.restarted then c1.(net := "") else c1;
        if !c2.live && ev.kind == Unknown then (c2, false) else (c2.(live := true), true)
  }

  /** A line heard on a stream that attends to it. */
  function HeardOn(m: State, sid: nat, c: Ctx, ev: Event, now: int): State {
    var m1 := m.(sess := m.sess[sid := c], fam := if c.family in m.fam then m.fam else m.fam[c.family := NEW_FAMILY]);
    var m2 := if ev.identity.changed || c.net == "" || c.net !in m1.fam[c.family].networks
              then ResolveNetwork(m1, sid, ev.identity, now) else m1;
    Listen(m2, sid, ev, now)
  }

  lemma HearsAttended(m: State, sid: nat, ev: Event, now: int)
    ensures Step(m, Line(sid, ev, now)) ==
            if sid !in m.sess then m
            else
              var r := Attended(m.sess[sid], ev);
              if r.1 then HeardOn(m, sid, r.0, ev, now) else m.(sess := m.sess[sid := r.0])
  {
    hide ResolveNetwork, Listen;
    if sid in m.sess { assert m.sess[sid := m.sess[sid]] == m.sess; }
  }

  lemma LineOk(m: State, sid: nat, ev: Event, now: int)
    requires StateOk(m)
    ensures StateOk(Hears(m, sid, ev, now))
  {
    hide StateOk, Listen, ResolveNetwork;
    if sid in m.sess && m.sess[sid].family != "" {
      var c0 := m.sess[sid];
      if !(c0.family == "auto" && (ev.kind == Unknown || ev.family == "")) {
        var c1 := if c0.family == "auto" then c0.(family := ev.family) else c0;
        var c2 := if ev.identity.restarted then c1.(net := "") else c1;
        SameFamilies(m, m.(sess := m.sess[sid := c1]));
        SameFamilies(m, m.(sess := m.sess[sid := c2]));
        var c3 := c2.(live := true);
        RegisterOk(m, sid, c3);
        var m1 := m.(sess := m.sess[sid := c3], fam := if c3.family in m.fam then m.fam else m.fam[c3.family := NEW_FAMILY]);
        var m2 := if ev.identity.changed || c3.net == "" || c3.net !in m1.fam[c3.family].networks
                  then ResolveNetwork(m1, sid, ev.identity, now) else m1;
        ResolveOk(m1, sid, ev.identity, now);
        HearOk(m2, sid, ev, now);
      }
    }
  }

  lemma {:induction false} CloseOfFollows(F: Family, sid: nat, n: nat)
    requires n <= |F.calls| && FamilyOk(F)
    ensures Follows(F, CloseOf(F, sid, n))
    decreases n
  {
    hide FamilyOk, Follows, CloseCall;
    if n == 0 {
      FollowsItself(F);
    } else {
      CloseOfFollows(F, sid, n - 1);
      var G := CloseOf(F, sid, n - 1);
      FollowsCalls(F, G);
      CloseFollows(G, n - 1);
      FollowsTwice(F, G, CloseCall(G, n - 1));
    }
  }

  lemma CloseSessionOk(m: State, sid: nat)
    requires StateOk(m)
    ensures StateOk(CloseSession(m, sid)) && CloseSession(m, sid).sess == m.sess
  {
    hide StateOk, FamilyOk, IdsUpTo, CloseOf, Follows;
    if sid in m.sess && m.sess[sid].family in m.fam {
      var f := m.sess[sid].family;
      var G := CloseOf(m.fam[f], sid, |m.fam[f].calls|);
      StateHolds(m, f);
      CloseOfFollows(m.fam[f], sid, |m.fam[f].calls|);
      FollowsCalls(m.fam[f], G);
      FollowsIds(m.fam[f], G, m.next);
      ReplaceOk(m, f, G);
    }
  }

  lemma DeadIsTraceless(m: State, sid: nat, f: Id, kept: set<Id>)
    requires f in m.fam
    ensures Traceless(m.fam[f], DeadNetworks(m, sid, f, kept))
  {
  }

  lemma PruneOk(m: State, sid: nat, kept: set<Id>)
    requires StateOk(m)
    ensures StateOk(Prune(m, sid, kept))
  {
    hide StateOk, FamilyOk, IdsUpTo, Pruned, Traceless, DeadNetworks;
    if sid in m.sess && m.sess[sid].family in m.fam {
      var f := m.sess[sid].family;
      var dead := DeadNetworks(m, sid, f, kept);
      StateHolds(m, f);
      DeadIsTraceless(m, sid, f, kept);
      PrunedOk(m.fam[f], dead, m.next);
      ReplaceOk(m, f, Pruned(m.fam[f], dead));
      FewerFamilies(m, m.(fam := m.fam - {f}));
      var r := Prune(m, sid, kept);
      if dead != {} {
        if Bare(Pruned(m.fam[f], dead)) { SameFamilies(m.(fam := m.fam - {f}), r); }
        else { SameFamilies(m.(fam := m.fam[f := Pruned(m.fam[f], dead)]), r); }
      }
    }
  }

  lemma FewerFamilies(m: State, r: State)
    requires StateOk(m) && r.next == m.next
    requires forall f :: f in r.fam ==> f in m.fam && r.fam[f] == m.fam[f]
    ensures StateOk(r)
  {
    hide FamilyOk, IdsUpTo;
  }

  lemma {:induction false} KeepContribution(s: seq<Call>, id: nat, on: bool, q: Query)
    ensures Tally(SetKeep(s, id, on), q) == Tally(s, q)
  {
    hide Contribution;
    if s != [] {
      if s[0].id == id {
        assert ([s[0].(keep := on)] + s[1..])[1..] == s[1..];
        FlagContribution(s[0], on, q);
      } else {
        assert ([s[0]] + SetKeep(s[1..], id, on))[1..] == SetKeep(s[1..], id, on);
        KeepContribution(s[1..], id, on, q);
      }
    }
  }

  lemma FlagContribution(k: Call, on: bool, q: Query)
    ensures Contribution(q, k.(keep := on)) == Contribution(q, k)
  {
    hide EncKey;
    SameEncKey(k, k.(keep := on));
  }

  lemma KeepOk(F: Family, id: nat, on: bool, n: nat)
    requires FamilyOk(F) && IdsUpTo(F, n)
    ensures var G := F.(calls := SetKeep(F.calls, id, on)); FamilyOk(G) && IdsUpTo(G, n)
  {
    var G := F.(calls := SetKeep(F.calls, id, on));
    hide SetKeep;
    forall i | 0 <= i < |G.calls|
      ensures G.calls[i] == F.calls[i] || G.calls[i] == F.calls[i].(keep := on)
      ensures F.calls[i] in F.calls
    {
      SetKeepAt(F.calls, id, on, i);
    }
    if !F.lossy {
      hide Shown, Tally;
      forall q ensures Shown(G, q) == Tally(G.calls, q) + Tally(G.past, q) {
        KeepContribution(F.calls, id, on, q);
        ListsDoNotShow(F, G.calls, G.past, q);
      }
    }
  }

  /** Every operation keeps every family's counters exact. */
  lemma StepOk(m: State, op: Op)
    requires StateOk(m)
    ensures StateOk(Step(m, op))
  {
    hide StateOk, FamilyOk, IdsUpTo, Prune, CloseSession, Hears;
    match op
    case Begin(sid, protocol, family, freq, now, kept) =>
      CloseSessionOk(m, sid);
      PruneOk(CloseSession(m, sid), sid, kept);
      SameFamilies(Prune(CloseSession(m, sid), sid, kept), Step(m, op));
    case Tune(sid, freq, now) =>
      CloseSessionOk(m, sid);
      PruneOk(CloseSession(m, sid), sid, {});
      if sid in m.sess && m.sess[sid].freq != freq { SameFamilies(Prune(CloseSession(m, sid), sid, {}), Step(m, op)); }
    case Line(sid, ev, now) => LineOk(m, sid, ev, now);
    case End(sid, now, kept) =>
      CloseSessionOk(m, sid);
      var m1 := CloseSession(m, sid);
      var m2 := if sid in m1.sess then m1.(sess := m1.sess[sid := m1.sess[sid].(running := false, active := [])]) else m1;
      SameFamilies(m1, m2);
      PruneOk(m2, sid, kept);
    case Remove(sid, now, kept) =>
      CloseSessionOk(m, sid);
      PruneOk(CloseSession(m, sid), sid, kept);
      SameFamilies(Prune(CloseSession(m, sid), sid, kept), Step(m, op));
    case Keep(family, id, on) =>
      if family in m.fam {
        StateHolds(m, family);
        KeepOk(m.fam[family], id, on, m.next);
        ReplaceOk(m, family, m.fam[family].(calls := SetKeep(m.fam[family].calls, id, on)));
      }
    case Clear(now) =>
      FewerFamilies(State(map[], m.sess, 0, m.maxCalls), Step(m, op)) by { EmptyOk(m.sess, 0, m.maxCalls); }
  }

  lemma EmptyOk(sess: map<nat, Ctx>, next: nat, maxCalls: nat)
    ensures StateOk(State(map[], sess, next, maxCalls))
  {
  }

  lemma {:induction false} RunOk(m: State, ops: seq<Op>)
    requires StateOk(m)
    ensures StateOk(Run(m, ops))
  {
    hide StateOk, Step;
    if ops != [] {
      RunOk(m, ops[..|ops| - 1]);
      StepOk(Run(m, ops[..|ops| - 1]), ops[|ops| - 1]);
    }
  }

  /** The live model's counters are a cache of its call history: after any operations at all, in every family
      that never hit a limit, each counter is the plain recount over the calls ever listed, each call once; so
      both ends of an edge agree, and every network that is named exists.  Whatever the limits did, the calls that
      count are exactly those with both ends known, and those that ended as voice for a target without a source. */
  lemma CountersAreRecounts(sess: map<nat, Ctx>, maxCalls: nat, ops: seq<Op>, f: Id)
    requires f in Run(State(map[], sess, 0, maxCalls), ops).fam
    ensures var F := Run(State(map[], sess, 0, maxCalls), ops).fam[f];
            && (forall i :: 0 <= i < |F.past + F.calls| ==> ((F.past + F.calls)[i].counted <==> Due((F.past + F.calls)[i])))
            && (!F.lossy ==>
              && (forall q :: Shown(F, q) == Tally(F.past + F.calls, q))
              && (forall i, j :: 0 <= i < j < |F.past + F.calls| ==> (F.past + F.calls)[i].id != (F.past + F.calls)[j].id)
              && (forall r, t :: Shown(F, RadioTg(r, t)) == Shown(F, TgRadio(t, r)))
              && (forall a, b :: Shown(F, Peer(a, b)) == Shown(F, Peer(b, a)))
              && NetworksExist(F))
  {
    hide Shown, Tally, NetworksExist, Run, AllSettled, FamilyOk, Due;
    EmptyOk(sess, 0, maxCalls);
    RunOk(State(map[], sess, 0, maxCalls), ops);
    NoFamilies(State(map[], sess, 0, maxCalls));
    RunSettled(State(map[], sess, 0, maxCalls), ops);
    var m := Run(State(map[], sess, 0, maxCalls), ops);
    StateHolds(m, f);
    SettledIn(m, f);
    BothSettled(m.fam[f]);
    if !m.fam[f].lossy { ExactRecount(m.fam[f]); }
  }

  lemma ExactRecount(F: Family)
    requires FamilyOk(F) && !F.lossy
    ensures forall q :: Shown(F, q) == Tally(F.past + F.calls, q)
    ensures forall i, j :: 0 <= i < j < |F.past + F.calls| ==> (F.past + F.calls)[i].id != (F.past + F.calls)[j].id
    ensures forall r, t :: Shown(F, RadioTg(r, t)) == Shown(F, TgRadio(t, r))
    ensures forall a, b :: Shown(F, Peer(a, b)) == Shown(F, Peer(b, a))
    ensures NetworksExist(F)
  {
    hide Shown, Tally, NetworksExist;
    forall q ensures Shown(F, q) == Tally(F.past + F.calls, q) { TallyAppend(F.past, F.calls, q); }
    forall r, t ensures Shown(F, RadioTg(r, t)) == Shown(F, TgRadio(t, r)) {
      TwoEnds(F.calls, RadioTg(r, t), TgRadio(t, r));
      TwoEnds(F.past, RadioTg(r, t), TgRadio(t, r));
    }
    forall a, b ensures Shown(F, Peer(a, b)) == Shown(F, Peer(b, a)) {
      TwoEnds(F.calls, Peer(a, b), Peer(b, a));
      TwoEnds(F.past, Peer(a, b), Peer(b, a));
    }
  }

  lemma BothSettled(F: Family)
    requires AllSettled(F)
    ensures forall i :: 0 <= i < |F.past + F.calls| ==> ((F.past + F.calls)[i].counted <==> Due((F.past + F.calls)[i]))
  {
    var s := F.past + F.calls;
    forall i | 0 <= i < |s| ensures s[i].counted <==> Due(s[i]) {
      assert s[i] == if i < |F.past| then F.past[i] else F.calls[i - |F.past|];
      assert i < |F.past| ==> Settles(F.past[i]);
      assert i >= |F.past| ==> Settles(F.calls[i - |F.past|]);
    }
  }

  lemma {:induction false} TwoEnds(s: seq<Call>, q: Query, q': Query)
    requires (exists r, t :: q == RadioTg(r, t) && q' == TgRadio(t, r)) || (exists a, b :: q == Peer(a, b) && q' == Peer(b, a))
    ensures Tally(s, q) == Tally(s, q')
  {
    if s != [] { TwoEnds(s[1..], q, q'); }
  }
}
