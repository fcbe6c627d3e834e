/** How a stream's network identity follows what its lines report: strong ids are taken as they come, short codes
    only when seen twice in a row, and another value of an anchor starts the identity over. */
module Hysteresis {
  import opened Basics
  import opened Ordered

  type Id = string

  /** The ids whose change means another network. */
  predicate Anchor(fam: Id, k: Id) {
    if fam == "p25" then k == "wacn" || k == "system_id" || k == "nac"
    else if fam == "dmr" then k == "network_id" || k == "cc"
    else if fam == "nxdn" then k == "system_code" || k == "ran"
    else if fam == "tetra" then k == "mcc" || k == "mnc" || k == "cc"
    else if fam == "dpmr" then k == "cc"
    else if fam == "dstar" then k == "rpt1"
    else if fam == "ysf" then k == "downlink"
    else fam == "edacs" && k == "system_id"
  }

  predicate Weak(k: Id) {
    k == "cc" || k == "nac" || k == "ran"
  }

  /** What a stream is believed to be, and the codes seen but not believed yet, with how often. */
  datatype Belief = Belief(ids: map<Id, Id>, pending: map<Id, (Id, nat)>)

  const NOTHING := Belief(map[], map[])

  /** Does a report of v for k pass? */
  predicate Passes(b: Belief, k: Id, v: Id) {
    || !Weak(k)
    || (k in b.ids && b.ids[k] == v)
    || (k in b.pending && b.pending[k].0 == v && b.pending[k].1 >= 1)
  }

  function Passed(b: Belief, got: map<Id, Id>): (r: map<Id, Id>)
    ensures r.Keys <= got.Keys
  {
    map k | k in got && Passes(b, k, got[k]) :: got[k]
  }

  function PendingAfter(b: Belief, got: map<Id, Id>): map<Id, (Id, nat)> {
    map k | k in b.pending.Keys + got.Keys && (if k in got && Weak(k) then !Passes(b, k, got[k]) else k in b.pending) ::
      if k in got && Weak(k) then (got[k], 1) else b.pending[k]
  }

  predicate Restarts(fam: Id, ids: map<Id, Id>, got: map<Id, Id>) {
    exists k :: k in got && k in ids && ids[k] != got[k] && Anchor(fam, k)
  }

  /** One report's ids, none of them empty. */
  function Absorb(fam: Id, b: Belief, got: map<Id, Id>): Belief {
    var passed := Passed(b, got);
    Belief((if Restarts(fam, b.ids, passed) then map[] else b.ids) + passed, PendingAfter(b, got))
  }

  function AbsorbAll(fam: Id, reports: seq<map<Id, Id>>): Belief {
    if reports == [] then NOTHING
    else Absorb(fam, AbsorbAll(fam, reports[..|reports| - 1]), reports[|reports| - 1])
  }

  // ---- the closed form ----

  /** What the reports said of k, in order. */
  function Seen(reports: seq<map<Id, Id>>, k: Id): seq<Id> {
    if reports == [] then []
    else
      var r := reports[|reports| - 1];
      Seen(reports[..|reports| - 1], k) + if k in r then [r[k]] else []
  }

  /** The value of the latest two equal sightings in a row. */
  function LastPair(s: seq<Id>): Option<Id> {
    if |s| < 2 then None
    else if s[|s| - 1] == s[|s| - 2] then Some(s[|s| - 1])
    else LastPair(s[..|s| - 1])
  }

  function Believed(b: Belief, k: Id): Option<Id> {
    if k in b.ids then Some(b.ids[k]) else None
  }

  /** The belief in k is the latest pair's; a code waits exactly when it was seen last and is not believed. */
  ghost predicate InStep(b: Belief, k: Id, seen: seq<Id>) {
    && Believed(b, k) == LastPair(seen)
    && (if k in b.pending then seen != [] && b.pending[k] == (seen[|seen| - 1], 1) && LastPair(seen) != Some(seen[|seen| - 1])
        else seen == [] || LastPair(seen) == Some(seen[|seen| - 1]))
  }

  /** k is the only anchor the report may hold. */
  predicate OnlyAnchor(fam: Id, k: Id, got: map<Id, Id>) {
    forall j :: j in got ==> j == k || !Anchor(fam, j)
  }

  lemma AbsorbInStep(fam: Id, b: Belief, k: Id, seen: seq<Id>, got: map<Id, Id>)
    requires Weak(k) && Anchor(fam, k) && OnlyAnchor(fam, k, got) && InStep(b, k, seen)
    ensures InStep(Absorb(fam, b, got), k, seen + if k in got then [got[k]] else [])
  {
    hide Anchor;
    var c := Absorb(fam, b, got);
    if k in got {
      var next := seen + [got[k]];
      assert next[..|next| - 1] == seen;
      SightingInStep(fam, b, k, seen, got);
    } else {
      assert seen + [] == seen;
      assert forall j :: j in Passed(b, got) ==> j in got && !Anchor(fam, j);
    }
  }

  lemma SightingInStep(fam: Id, b: Belief, k: Id, seen: seq<Id>, got: map<Id, Id>)
    requires Weak(k) && Anchor(fam, k) && k in got && OnlyAnchor(fam, k, got) && InStep(b, k, seen)
    ensures InStep(Absorb(fam, b, got), k, seen + [got[k]])
  {
    hide Anchor;
    var next := seen + [got[k]];
    assert next[..|next| - 1] == seen;
    var c := Absorb(fam, b, got);
    assert k in c.pending <==> !Passes(b, k, got[k]);
    assert Restarts(fam, b.ids, Passed(b, got)) ==> k in Passed(b, got) by {
      if Restarts(fam, b.ids, Passed(b, got)) {
        var j :| j in Passed(b, got) && j in b.ids && b.ids[j] != Passed(b, got)[j] && Anchor(fam, j);
        assert j in got;
        assert j == k;
      }
    }
    if seen != [] {
      assert next[|next| - 2] == seen[|seen| - 1];
    }
  }

  /** A stream that reports one weak anchor, whatever else it reports of its sites: it is believed to be the value
      of the latest two equal sightings in a row, and nothing before there are any.  Alternating noise flips nothing. */
  lemma {:induction false} BelievedIsLastPair(fam: Id, reports: seq<map<Id, Id>>, k: Id)
    requires Weak(k) && Anchor(fam, k) && forall i :: 0 <= i < |reports| ==> OnlyAnchor(fam, k, reports[i])
    ensures Believed(AbsorbAll(fam, reports), k) == LastPair(Seen(reports, k))
  {
    StaysInStep(fam, reports, k);
  }

  lemma {:induction false} StaysInStep(fam: Id, reports: seq<map<Id, Id>>, k: Id)
    requires Weak(k) && Anchor(fam, k) && forall i :: 0 <= i < |reports| ==> OnlyAnchor(fam, k, reports[i])
    ensures InStep(AbsorbAll(fam, reports), k, Seen(reports, k))
  {
    hide Anchor;
    if reports != [] {
      hide InStep, OnlyAnchor, Absorb;
      var before := reports[..|reports| - 1];
      StaysInStep(fam, before, k);
      AbsorbInStep(fam, AbsorbAll(fam, before), k, Seen(before, k), reports[|reports| - 1]);
    }
  }

  /** The pending counts in every belief reached. */
  ghost predicate Waiting(b: Belief) {
    forall k :: k in b.pending ==> Weak(k) && b.pending[k].1 == 1 && !(k in b.ids && b.ids[k] == b.pending[k].0)
  }

  /** Strong ids are believed at once; a report under which the identity starts over leaves only what it let through. */
  lemma StrongAtOnce(fam: Id, b: Belief, got: map<Id, Id>, k: Id)
    requires k in got && !Weak(k)
    ensures Believed(Absorb(fam, b, got), k) == Some(got[k])
    ensures Anchor(fam, k) && k in b.ids && b.ids[k] != got[k] ==> Absorb(fam, b, got).ids == Passed(b, got)
  {
    hide Anchor;
    if Anchor(fam, k) && k in b.ids && b.ids[k] != got[k] {
      assert k in Passed(b, got);
      assert Restarts(fam, b.ids, Passed(b, got));
      assert map[] + Passed(b, got) == Passed(b, got);
    }
  }

  /** The short code of each family that has one, printed with every burst. */
  predicate ShortCode(fam: Id, k: Id) {
    (fam == "p25" && k == "nac") || (fam in ["dmr", "tetra", "dpmr"] && k == "cc") || (fam == "nxdn" && k == "ran")
  }

  /** The ids of a network that decoded control messages tell. */
  predicate ControlId(fam: Id, k: Id) {
    || (fam == "p25" && k in ["wacn", "system_id"]) || (fam == "dmr" && k == "network_id")
    || (fam == "nxdn" && k == "system_code") || (fam == "tetra" && k in ["mcc", "mnc"])
    || (fam == "dstar" && k == "rpt1") || (fam == "ysf" && k == "downlink") || (fam == "edacs" && k == "system_id")
  }

  lemma AnchorsAre(fam: Id, k: Id)
    ensures Anchor(fam, k) <==> ShortCode(fam, k) || ControlId(fam, k)
    ensures ShortCode(fam, k) ==> Weak(k)
    ensures ControlId(fam, k) ==> !Weak(k)
  {
  }

  /** The short code of a stream that tells no other id of its network: the value of the latest two equal sightings in a
      row is believed. */
  lemma ShortCodeBelieved(fam: Id, reports: seq<map<Id, Id>>, k: Id)
    requires ShortCode(fam, k) && forall i, j :: 0 <= i < |reports| && j in reports[i] ==> !ControlId(fam, j)
    ensures Believed(AbsorbAll(fam, reports), k) == LastPair(Seen(reports, k))
  {
    hide Anchor, Weak, ControlId;
    AnchorsAre(fam, k);
    forall i, j | 0 <= i < |reports| && j in reports[i] ensures j == k || !Anchor(fam, j) {
      AnchorsAre(fam, j);
      OneShortCode(fam, j, k);
    }
    BelievedIsLastPair(fam, reports, k);
  }

  lemma OneShortCode(fam: Id, j: Id, k: Id)
    requires ShortCode(fam, k)
    ensures ShortCode(fam, j) ==> j == k
  {
  }

  /** An id told by a control message is believed at once, and where it contradicts the one before, everything believed
      before is forgotten. */
  lemma ControlIdAtOnce(fam: Id, b: Belief, got: map<Id, Id>, k: Id)
    requires ControlId(fam, k) && k in got
    ensures var c := Absorb(fam, b, got);
            && Believed(c, k) == Some(got[k])
            && (k in b.ids && b.ids[k] != got[k] ==> forall j :: j in c.ids ==> j in got && c.ids[j] == got[j])
  {
    hide Anchor, Weak, ControlId;
    AnchorsAre(fam, k);
    StrongAtOnce(fam, b, got, k);
  }

  /** Reports of ids that are none of the network's forget nothing. */
  lemma SiteIdsForgetNothing(fam: Id, b: Belief, got: map<Id, Id>, k: Id)
    requires forall j :: j in got ==> !ControlId(fam, j) && !ShortCode(fam, j)
    requires k in b.ids && k !in got
    ensures Believed(Absorb(fam, b, got), k) == Some(b.ids[k])
  {
    hide Anchor, Weak, ControlId, ShortCode;
    forall j | j in got ensures !Anchor(fam, j) { AnchorsAre(fam, j); }
  }

  // ---- the stream's fields ----

  class StreamIdentity {
    var ids: map<Id, Id>
    var pending: map<Id, (Id, nat)>
    var net: Id

    ghost predicate Valid()
      reads this
    {
      Waiting(Belief(ids, pending))
    }

    constructor ()
      ensures Valid() && Belief(ids, pending) == NOTHING
    {
      ids, pending, net := map[], map[], "";
    }

    /** Returns whether the identity changed; a restart also forgets the network. */
    method AbsorbIdentity(fam: Id, got0: map<Id, Id>) returns (changed: bool)
      requires Valid()
      modifies this
      ensures Valid()
      ensures Belief(ids, pending) == Absorb(fam, old(Belief(ids, pending)), got0)
      ensures changed <==> ids != old(ids)
      ensures net == if Restarts(fam, old(ids), Passed(old(Belief(ids, pending)), got0)) then "" else old(net)
    {
      hide Anchor, Passes, Restarts;
      ghost var b := Belief(ids, pending);
      AbsorbWaits(fam, b, got0);
      var got;
      got, pending := Sift(ids, pending, got0);
      assert got == Passed(b, got0);
      if got == map[] {
        NothingNew(fam, b.ids);
        assert b.ids + map[] == b.ids;
        return false;
      }
      var restart := AnyMoved(fam, ids, got);
      if restart {
        ids, net := map[], "";
        Moved(fam, b.ids, got);
      }
      ids, changed := TakeIn(ids, got);
    }
  }

  lemma NothingNew(fam: Id, ids: map<Id, Id>)
    ensures !Restarts(fam, ids, map[])
  {
  }

  /** A restart always leaves the identity changed. */
  lemma Moved(fam: Id, ids: map<Id, Id>, got: map<Id, Id>)
    requires Restarts(fam, ids, got)
    ensures map[] + got != ids && map[] + got != map[]
  {
    var k :| k in got && k in ids && ids[k] != got[k] && Anchor(fam, k);
    assert (map[] + got)[k] == got[k];
  }

  lemma AbsorbWaits(fam: Id, b: Belief, got: map<Id, Id>)
    requires Waiting(b)
    ensures Waiting(Absorb(fam, b, got))
  {
    hide Anchor;
    var c := Absorb(fam, b, got);
    forall k | k in c.pending ensures Weak(k) && c.pending[k].1 == 1 && !(k in c.ids && c.ids[k] == c.pending[k].0) {
      assert k !in Passed(b, got);
    }
  }

  /** One report of a weak code: does it pass, and what waits then? */
  method Decide(ids: map<Id, Id>, pending0: map<Id, (Id, nat)>, k: Id, v: Id)
    returns (passes: bool, pending: map<Id, (Id, nat)>)
    requires Waiting(Belief(ids, pending0)) && Weak(k)
    ensures passes == Passes(Belief(ids, pending0), k, v)
    ensures pending == if passes then pending0 - {k} else pending0[k := (v, 1)]
  {
    if k in ids && ids[k] == v { return true, pending0 - {k}; }
    var p := if k in pending0 && pending0[k].0 == v then (v, pending0[k].1 + 1) else (v, 1);
    passes := p.1 >= 2;
    pending := if passes then pending0 - {k} else pending0[k := p];
  }

  /** Let each id through or make it wait, erasing while walking. */
  method Sift(ids: map<Id, Id>, pending0: map<Id, (Id, nat)>, got0: map<Id, Id>)
    returns (got: map<Id, Id>, pending: map<Id, (Id, nat)>)
    requires Waiting(Belief(ids, pending0))
    ensures got == Passed(Belief(ids, pending0), got0)
    ensures pending == PendingAfter(Belief(ids, pending0), got0)
  {
    hide Sifted, PendingAfter, Passed, Weak, Waiting;
    ghost var b := Belief(ids, pending0);
    SiftEnds(b, got0);
    got, pending := got0, pending0;
    var todo := got0.Keys;
    while todo != {}
      invariant todo <= got0.Keys
      invariant got == Sifted(b, got0, todo) && pending == PendingAfter(b, got0 - todo)
      decreases |todo|
    {
      var k :| k in todo;
      SiftStep(b, got0, todo, k);
      if Weak(k) {
        DecideAsBefore(b, pending, got0 - todo, k, got0[k]);
        var passes;
        passes, pending := Decide(ids, pending, k, got0[k]);
        if !passes { got := got - {k}; }
      }
      todo := todo - {k};
    }
  }

  /** What waits for other keys does not matter to k. */
  lemma DecideAsBefore(b: Belief, pending: map<Id, (Id, nat)>, done: map<Id, Id>, k: Id, v: Id)
    requires Waiting(b) && k !in done && pending == PendingAfter(b, done)
    ensures Waiting(Belief(b.ids, pending)) && Passes(Belief(b.ids, pending), k, v) == Passes(b, k, v)
  {
  }

  lemma SiftEnds(b: Belief, got: map<Id, Id>)
    ensures Sifted(b, got, got.Keys) == got && PendingAfter(b, got - got.Keys) == b.pending
    ensures Sifted(b, got, {}) == Passed(b, got) && PendingAfter(b, got - {}) == PendingAfter(b, got)
  {
    hide Passes, Weak;
    assert got - {} == got;
  }

  /** The ids let through, and those still to be looked at. */
  function Sifted(b: Belief, got: map<Id, Id>, todo: set<Id>): map<Id, Id> {
    map k | k in got && (k in todo || Passes(b, k, got[k])) :: got[k]
  }

  lemma SiftStep(b: Belief, got: map<Id, Id>, todo: set<Id>, k: Id)
    requires Waiting(b) && todo <= got.Keys && k in todo
    ensures var p := PendingAfter(b, got - todo);
            && (k in p <==> k in b.pending) && (k in p ==> p[k] == b.pending[k])
            && PendingAfter(b, got - (todo - {k})) ==
               (if !Weak(k) then p else if Passes(b, k, got[k]) then p - {k} else p[k := (got[k], 1)])
    ensures Sifted(b, got, todo - {k}) == if Passes(b, k, got[k]) then Sifted(b, got, todo) else Sifted(b, got, todo) - {k}
    ensures !Weak(k) ==> Passes(b, k, got[k])
  {
    hide Passes, Weak;
    NotWeakPasses(b, k, got[k]);
  }

  lemma NotWeakPasses(b: Belief, k: Id, v: Id)
    ensures !Weak(k) ==> Passes(b, k, v)
  {
  }

  method AnyMoved(fam: Id, ids: map<Id, Id>, got: map<Id, Id>) returns (b: bool)
    ensures b == Restarts(fam, ids, got)
  {
    hide Anchor;
    var todo := got.Keys;
    while todo != {}
      invariant todo <= got.Keys
      invariant forall k :: k in got && k !in todo ==> !(k in ids && ids[k] != got[k] && Anchor(fam, k))
      decreases |todo|
    {
      var k :| k in todo;
      if k in ids && ids[k] != got[k] && Anchor(fam, k) { return true; }
      todo := todo - {k};
    }
    return false;
  }

  method TakeIn(ids0: map<Id, Id>, got: map<Id, Id>) returns (ids: map<Id, Id>, changed: bool)
    ensures ids == ids0 + got && (changed <==> ids != ids0)
  {
    ids, changed := ids0, false;
    var todo := got.Keys;
    assert got - todo == map[] && ids0 + map[] == ids0;
    while todo != {}
      invariant todo <= got.Keys && ids == ids0 + (got - todo)
      invariant changed <==> ids != ids0
      decreases |todo|
    {
      var k :| k in todo;
      assert ids0 + (got - (todo - {k})) == ids[k := got[k]];
      if !(k in ids && ids[k] == got[k]) {
        assert k in ids <==> k in ids0;
        assert k in ids0 ==> ids[k] == ids0[k];
        ids := ids[k := got[k]];
        changed := true;
        assert ids[k] == got[k];
      }
      todo := todo - {k};
    }
    assert got - {} == got;
  }
}
