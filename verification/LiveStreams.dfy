/** What the operations do to the streams themselves, and what a stopping stream takes with it. */
module LiveStreams {
  import opened Basics
  import opened Counters
  import opened LiveModel

  /** No stream but one differs. */
  ghost predicate OthersStay(m: State, r: State, sid: nat) {
    forall s :: s != sid ==> (s in r.sess <==> s in m.sess) && (s in m.sess ==> r.sess[s] == m.sess[s])
  }

  /** A stream that has heard nothing: no network, no calls. */
  predicate HeardNothing(c: Ctx) {
    c.net == "" && !c.live && c.active == [] && c.lastOnSlot == map[]
  }

  lemma CloseKeepsStreams(m: State, sid: nat)
    ensures CloseSession(m, sid).sess == m.sess && CloseSession(m, sid).fam.Keys == m.fam.Keys
    ensures CloseSession(m, sid).next == m.next && CloseSession(m, sid).maxCalls == m.maxCalls
  {
    hide CloseOf;
  }

  // ---- what goes with a stream ----

  /** Another running stream of the family is on the network. */
  ghost predicate OnIt(m: State, sid: nat, f: Id, net: Id) {
    exists s :: s in m.sess && s != sid && m.sess[s].running && m.sess[s].family == f && m.sess[s].net == net
  }

  /** The stopping stream alone vouches for the network: it fed it, no call was counted on it and none listed names it, no
      other running stream is on it, and it is not identified for good. */
  ghost predicate GoesWith(m: State, sid: nat, net: Id, kept: set<Id>)
    requires sid in m.sess && m.sess[sid].family in m.fam
  {
    var f := m.sess[sid].family;
    var F := m.fam[f];
    && net in F.networks && sid in F.networks[net].sessions && F.networks[net].calls == 0
    && (forall i :: 0 <= i < |F.calls| ==> F.calls[i].net != net)
    && !OnIt(m, sid, f, net) && net !in kept
  }

  /** Exactly these networks go. */
  ghost predicate AllThatGo(m: State, sid: nat, kept: set<Id>, dead: set<Id>)
    requires sid in m.sess && m.sess[sid].family in m.fam
  {
    forall n :: n in dead <==> GoesWith(m, sid, n, kept)
  }

  /** The radios without the networks that go, and without those that no other network and no call tells of. */
  ghost predicate RadiosLeft(m: map<Id, Radio>, dead: set<Id>, n: map<Id, Radio>) {
    && (forall x :: x in n <==> x in m && !(m[x].networks <= dead && m[x].calls == 0 && m[x].tgs == map[] && m[x].peers == map[]))
    && forall x :: x in n ==> n[x] == m[x].(networks := m[x].networks - dead)
  }

  ghost predicate TgsLeft(m: map<Id, Talkgroup>, dead: set<Id>, n: map<Id, Talkgroup>) {
    && (forall x :: x in n <==> x in m && !(m[x].networks <= dead && m[x].calls == 0 && m[x].radios == map[]))
    && forall x :: x in n ==> n[x] == m[x].(networks := m[x].networks - dead)
  }

  /** What is left of a family when these networks go. */
  ghost predicate Leftover(F: Family, dead: set<Id>, G: Family) {
    && G.networks == F.networks - dead && RadiosLeft(F.radios, dead, G.radios) && TgsLeft(F.tgs, dead, G.tgs)
    && G.calls == F.calls && G.past == F.past && G.lossy == F.lossy
  }

  /** Of the families only f changed: the networks went; and with nothing left the family went too. */
  ghost predicate TookWith(m: State, f: Id, dead: set<Id>, r: State)
    requires f in m.fam
  {
    && (forall g :: g != f ==> (g in r.fam <==> g in m.fam) && (g in m.fam ==> r.fam[g] == m.fam[g]))
    && if dead == {} then r.fam == m.fam
       else exists G: Family ::
              && Leftover(m.fam[f], dead, G)
              && if G.networks.Keys == {} && G.radios.Keys == {} && G.tgs.Keys == {} && G.calls == [] then f !in r.fam
                 else f in r.fam && r.fam[f] == G
  }

  lemma DeadAre(m: State, sid: nat, kept: set<Id>)
    requires sid in m.sess && m.sess[sid].family in m.fam
    ensures AllThatGo(m, sid, kept, DeadNetworks(m, sid, m.sess[sid].family, kept))
  {
    var F := m.fam[m.sess[sid].family];
    forall n ensures n in DeadNetworks(m, sid, m.sess[sid].family, kept) <==> GoesWith(m, sid, n, kept) {
      InUseIs(m, sid, m.sess[sid].family, n);
      assert (forall k :: k in F.calls ==> k.net != n) <==> (forall i :: 0 <= i < |F.calls| ==> F.calls[i].net != n);
    }
  }

  lemma InUseIs(m: State, sid: nat, f: Id, n: Id)
    ensures InUse(m, sid, f, n) <==> OnIt(m, sid, f, n)
  {
  }

  lemma BareIs(G: Family)
    ensures Bare(G) <==> G.networks.Keys == {} && G.radios.Keys == {} && G.tgs.Keys == {} && G.calls == []
  {
    assert G.networks.Keys == {} ==> G.networks == map[];
    assert G.radios.Keys == {} ==> G.radios == map[];
    assert G.tgs.Keys == {} ==> G.tgs == map[];
  }

  lemma LeftoverIs(F: Family, dead: set<Id>)
    ensures Leftover(F, dead, Pruned(F, dead))
  {
    forall s: set<Id> ensures s * dead == s <==> s <= dead { }
  }

  /** A stopping stream takes with it exactly the networks that it alone vouches for, and the radios and talkgroups known
      through none but these and without a call; a family left with nothing goes too.  It forgets its own network if that
      went. */
  lemma PruneTakes(m: State, sid: nat, kept: set<Id>) returns (dead: set<Id>)
    requires sid in m.sess && m.sess[sid].family in m.fam
    ensures AllThatGo(m, sid, kept, dead)
    ensures var r := Prune(m, sid, kept);
            && TookWith(m, m.sess[sid].family, dead, r) && OthersStay(m, r, sid) && sid in r.sess
            && r.sess[sid] == m.sess[sid].(net := if m.sess[sid].net in dead then "" else m.sess[sid].net)
            && r.next == m.next && r.maxCalls == m.maxCalls
  {
    hide AllThatGo, Leftover, DeadNetworks, Pruned, Bare;
    DeadAre(m, sid, kept);
    dead := DeadNetworks(m, sid, m.sess[sid].family, kept);
    var G := Pruned(m.fam[m.sess[sid].family], dead);
    LeftoverIs(m.fam[m.sess[sid].family], dead);
    BareIs(G);
  }

  // ---- the operations ----

  /** The stream has a family that is there. */
  predicate HasFamily(m: State, sid: nat) {
    sid in m.sess && m.sess[sid].family in m.fam
  }

  lemma PruneNothing(m: State, sid: nat, kept: set<Id>)
    requires !HasFamily(m, sid)
    ensures Prune(m, sid, kept) == m
  {
  }

  /** A stream begins: its calls end, what the stream before it alone vouched for goes, and it has heard nothing. */
  lemma BeginIs(m: State, sid: nat, protocol: Id, family: Id, freq: int, now: int, kept: set<Id>) returns (dead: set<Id>)
    ensures var n, r := CloseSession(m, sid), Step(m, Begin(sid, protocol, family, freq, now, kept));
            && OthersStay(m, r, sid) && sid in r.sess && HeardNothing(r.sess[sid]) && r.sess[sid].running
            && r.sess[sid].family == family && r.sess[sid].protocol == protocol && r.sess[sid].freq == freq
            && (HasFamily(n, sid) ==> AllThatGo(n, sid, kept, dead) && TookWith(n, n.sess[sid].family, dead, r))
            && (!HasFamily(n, sid) ==> r.fam == n.fam)
  {
    hide CloseSession, Prune, AllThatGo, TookWith;
    CloseKeepsStreams(m, sid);
    var n := CloseSession(m, sid);
    dead := {};
    if HasFamily(n, sid) {
      dead := PruneTakes(n, sid, kept);
      SameFamilies(n, Prune(n, sid, kept), Step(m, Begin(sid, protocol, family, freq, now, kept)), n.sess[sid].family, dead);
    } else {
      PruneNothing(n, sid, kept);
    }
  }

  lemma SameFamilies(m: State, q: State, r: State, f: Id, dead: set<Id>)
    requires f in m.fam && TookWith(m, f, dead, q) && r.fam == q.fam
    ensures TookWith(m, f, dead, r)
  {
    hide Leftover;
  }

  /** A stream ends: its calls end, it is no longer running and has no active calls, and what it alone vouched for goes; it
      keeps its family, protocol and frequency. */
  lemma EndIs(m: State, sid: nat, now: int, kept: set<Id>) returns (n: State, dead: set<Id>)
    ensures var c, r := CloseSession(m, sid), Step(m, End(sid, now, kept));
            && n.fam == c.fam && OthersStay(m, n, sid) && OthersStay(m, r, sid) && (sid in r.sess <==> sid in m.sess)
            && (sid in m.sess ==> sid in n.sess && n.sess[sid] == m.sess[sid].(running := false, active := []))
            && (HasFamily(m, sid) ==>
                  && HasFamily(n, sid) && AllThatGo(n, sid, kept, dead) && TookWith(n, n.sess[sid].family, dead, r)
                  && r.sess[sid] == n.sess[sid].(net := if n.sess[sid].net in dead then "" else n.sess[sid].net))
            && (!HasFamily(m, sid) ==> r == n)
  {
    hide CloseSession, Prune, AllThatGo, TookWith;
    CloseKeepsStreams(m, sid);
    var c := CloseSession(m, sid);
    n := if sid in c.sess then c.(sess := c.sess[sid := c.sess[sid].(running := false, active := [])]) else c;
    dead := {};
    if HasFamily(n, sid) { dead := PruneTakes(n, sid, kept); } else { PruneNothing(n, sid, kept); }
  }

  /** A retuned stream carries on as one that has heard nothing, and even what it identified for good goes; nothing happens
      to one that is there already. */
  lemma TuneIs(m: State, sid: nat, freq: int, now: int) returns (dead: set<Id>)
    requires sid in m.sess
    ensures var n, r := CloseSession(m, sid), Step(m, Tune(sid, freq, now));
            if m.sess[sid].freq == freq then r == m
            else
              && OthersStay(m, r, sid) && sid in r.sess && HeardNothing(r.sess[sid]) && r.sess[sid].freq == freq
              && r.sess[sid].family == m.sess[sid].family && r.sess[sid].protocol == m.sess[sid].protocol
              && (r.sess[sid].running <==> m.sess[sid].running)
              && (HasFamily(n, sid) ==> AllThatGo(n, sid, {}, dead) && TookWith(n, n.sess[sid].family, dead, r))
              && (!HasFamily(n, sid) ==> r.fam == n.fam)
  {
    hide CloseSession, Prune, AllThatGo, TookWith;
    CloseKeepsStreams(m, sid);
    var n := CloseSession(m, sid);
    dead := {};
    if HasFamily(n, sid) {
      dead := PruneTakes(n, sid, {});
      if m.sess[sid].freq != freq {
        SameFamilies(n, Prune(n, sid, {}), Step(m, Tune(sid, freq, now)), n.sess[sid].family, dead);
      }
    } else {
      PruneNothing(n, sid, {});
    }
  }

  /** A clear forgets every family and what every stream heard, and nothing else of it. */
  lemma ClearIs(m: State, now: int)
    ensures var r := Step(m, Clear(now));
            && r.fam == map[] && r.next == 0 && r.sess.Keys == m.sess.Keys
            && forall s :: s in m.sess ==>
                 && HeardNothing(r.sess[s]) && r.sess[s].family == m.sess[s].family && r.sess[s].protocol == m.sess[s].protocol
                 && (r.sess[s].running <==> m.sess[s].running) && r.sess[s].freq == m.sess[s].freq
  {
  }

  /** The i-th call is the first with the id. */
  ghost predicate IsFirst(s: seq<Call>, id: nat, i: nat)
    requires i < |s|
  {
    s[i].id == id && forall j :: 0 <= j < i ==> s[j].id != id
  }

  /** The keep flag of the first call with the id, of that family, is set so; nothing else changes. */
  lemma KeepIs(m: State, f: Id, id: nat, on: bool)
    requires f in m.fam
    ensures var r, s := Step(m, Keep(f, id, on)), m.fam[f].calls;
            && r.sess == m.sess && r.fam.Keys == m.fam.Keys && (forall g :: g in m.fam && g != f ==> r.fam[g] == m.fam[g])
            && r.fam[f] == m.fam[f].(calls := r.fam[f].calls) && |r.fam[f].calls| == |s|
            && forall i :: 0 <= i < |s| ==> r.fam[f].calls[i] == if IsFirst(s, id, i) then s[i].(keep := on) else s[i]
  {
    KeptAt(m.fam[f].calls, id, on);
    hide SetKeep;
  }

  lemma {:induction false} KeptAt(s: seq<Call>, id: nat, on: bool)
    ensures forall i :: 0 <= i < |s| ==> SetKeep(s, id, on)[i] == if IsFirst(s, id, i) then s[i].(keep := on) else s[i]
  {
    if s != [] && s[0].id != id {
      hide IsFirst;
      var t := s[1..];
      KeptAt(t, id, on);
      NotFirst(s, id);
      forall i | 0 < i < |s| ensures SetKeep(s, id, on)[i] == if IsFirst(s, id, i) then s[i].(keep := on) else s[i] {
        FirstLater(s, id, i);
        assert SetKeep(s, id, on)[i] == SetKeep(t, id, on)[i - 1] && s[i] == t[i - 1];
      }
    }
  }

  lemma NotFirst(s: seq<Call>, id: nat)
    requires s != [] && s[0].id != id
    ensures !IsFirst(s, id, 0)
  {
  }

  lemma FirstLater(s: seq<Call>, id: nat, i: nat)
    requires 0 < i < |s| && s[0].id != id
    ensures IsFirst(s, id, i) <==> IsFirst(s[1..], id, i - 1)
  {
    assert forall j :: 0 <= j < |s| - 1 ==> s[1..][j] == s[j + 1];
    assert forall j :: 0 < j < |s| ==> s[j] == s[1..][j - 1];
  }

  // ---- whose network moves ----

  /** A stream's network is resolved: it is on the network its identity names, which exists; and if it had another that it
      alone fed, or that its identity narrows, every stream on that one is on the new one too, and the old one is gone. */
  lemma ResolvedStreams(m: State, sid: nat, id: Identity, now: int)
    requires HasFamily(m, sid)
    ensures var r, c := ResolveNetwork(m, sid, id, now), m.sess[sid];
            var F := EnsureNetwork(m.fam[c.family], id.key, now);
            var folds := c.net != "" && c.net != id.key && c.net in F.networks
                         && ((forall s :: s in F.networks[c.net].sessions ==> s == sid) || id.narrows);
            && r.sess.Keys == m.sess.Keys && r.sess[sid] == c.(net := id.key)
            && (forall s :: s in m.sess && s != sid ==>
                  r.sess[s] == m.sess[s].(net := if folds && m.sess[s].net == c.net then id.key else m.sess[s].net))
            && id.key in r.fam[c.family].networks && (folds ==> c.net !in r.fam[c.family].networks)
            && (!folds ==> r.fam[c.family] == F)
  {
    hide EnsureNetwork;
    MergeMoves(EnsureNetwork(m.fam[m.sess[sid].family], id.key, now), m.sess[sid].net, id.key);
    hide MergeNetwork;
    var F := EnsureNetwork(m.fam[m.sess[sid].family], id.key, now);
    if m.sess[sid].net in F.networks {
      AloneIs(F.networks[m.sess[sid].net].sessions, sid);
    }
    forall s | s in m.sess ensures m.sess[s].(net := m.sess[s].net) == m.sess[s] { }
  }

  lemma AloneIs(s: set<nat>, sid: nat)
    ensures s <= {sid} <==> forall x :: x in s ==> x == sid
  {
  }

  lemma MergeMoves(F: Family, from: Id, to: Id)
    ensures from in F.networks && to in F.networks && from != to ==>
              to in MergeNetwork(F, from, to).networks && from !in MergeNetwork(F, from, to).networks
  {
  }
}
