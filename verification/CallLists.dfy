/** Bounding and ordering the merged calls: newest first, every call with audio, and the newest of the others. */
module CallLists {
  import opened Counters
  import opened Maps
  import opened Datasets
  import opened StableSorts

  predicate Silent(c: DsCall) {
    c.audio == ""
  }

  function SilentCalls(s: seq<DsCall>): (r: seq<DsCall>)
    ensures |r| <= |s|
  {
    if s == [] then [] else if Silent(s[0]) then [s[0]] + SilentCalls(s[1..]) else SilentCalls(s[1..])
  }

  function AudioCalls(s: seq<DsCall>): seq<DsCall> {
    if s == [] then [] else if Silent(s[0]) then AudioCalls(s[1..]) else [s[0]] + AudioCalls(s[1..])
  }

  /** Every call with audio, and the first `cap` of the others, in the list's order. */
  function Capped(s: seq<DsCall>, cap: nat): seq<DsCall> {
    if s == [] then []
    else if !Silent(s[0]) then [s[0]] + Capped(s[1..], cap)
    else if cap > 0 then [s[0]] + Capped(s[1..], cap - 1)
    else Capped(s[1..], 0)
  }

  function Min(a: nat, b: nat): nat {
    if a < b then a else b
  }

  /** The bounded list: no call with audio lost, exactly the first of the others, and its size as reserved. */
  lemma {:induction false} CappedKeeps(s: seq<DsCall>, cap: nat)
    ensures AudioCalls(Capped(s, cap)) == AudioCalls(s)
    ensures SilentCalls(Capped(s, cap)) == SilentCalls(s)[..Min(cap, |SilentCalls(s)|)]
    ensures |Capped(s, cap)| == |s| - (|SilentCalls(s)| - Min(cap, |SilentCalls(s)|))
  {
    if s != [] {
      CappedKeeps(s[1..], if Silent(s[0]) && cap > 0 then cap - 1 else cap);
    }
  }

  /** p lists, ascending, where in s the elements of r are. */
  ghost predicate Picks(r: seq<DsCall>, s: seq<DsCall>, p: seq<nat>) {
    && |p| == |r|
    && (forall i, j :: 0 <= i < j < |p| ==> p[i] < p[j])
    && (forall i :: 0 <= i < |p| ==> p[i] < |s| && r[i] == s[p[i]])
  }

  function Later(q: seq<nat>): (p: seq<nat>)
    ensures |p| == |q| && forall i :: 0 <= i < |q| ==> p[i] == q[i] + 1
  {
    seq(|q|, i requires 0 <= i < |q| => q[i] + 1)
  }

  lemma PickStep(r: seq<DsCall>, s: seq<DsCall>, q: seq<nat>)
    requires s != [] && Picks(r, s[1..], q)
    ensures Picks(r, s, Later(q)) && Picks([s[0]] + r, s, [0] + Later(q))
  {
  }

  lemma {:induction false} CappedPicks(s: seq<DsCall>, cap: nat) returns (p: seq<nat>)
    ensures Picks(Capped(s, cap), s, p)
  {
    if s == [] {
      p := [];
    } else {
      hide Picks;
      var fewer := if Silent(s[0]) && cap > 0 then cap - 1 else cap;
      var q := CappedPicks(s[1..], fewer);
      PickStep(Capped(s[1..], fewer), s, q);
      p := if Silent(s[0]) && cap == 0 then Later(q) else [0] + Later(q);
    }
  }

  /** A list whose first part already holds `cap` calls without audio keeps that part and the rest's audio. */
  lemma {:induction false} CappedSplit(s: seq<DsCall>, i: nat, cap: nat)
    requires i <= |s| && |SilentCalls(s[..i])| == cap
    ensures Capped(s, cap) == s[..i] + AudioCalls(s[i..])
  {
    if i == 0 {
      assert s[0..] == s;
      CappedNone(s);
    } else {
      assert s[..i][0] == s[0] && s[..i][1..] == s[1..][..i - 1];
      assert s[i..] == s[1..][i - 1..];
      CappedSplit(s[1..], i - 1, if Silent(s[0]) then cap - 1 else cap);
      assert s[..i] == [s[0]] + s[1..][..i - 1];
    }
  }

  lemma {:induction false} CappedNone(s: seq<DsCall>)
    ensures Capped(s, 0) == AudioCalls(s)
  {
    if s != [] { CappedNone(s[1..]); }
  }

  lemma {:induction false} CappedAll(s: seq<DsCall>, cap: nat)
    requires |SilentCalls(s)| <= cap
    ensures Capped(s, cap) == s
  {
    if s != [] { CappedAll(s[1..], if Silent(s[0]) then cap - 1 else cap); }
  }

  lemma {:induction false} SilentAppend(a: seq<DsCall>, b: seq<DsCall>)
    ensures SilentCalls(a + b) == SilentCalls(a) + SilentCalls(b)
    ensures AudioCalls(a + b) == AudioCalls(a) + AudioCalls(b)
  {
    if a == [] {
      assert a + b == b;
    } else {
      assert (a + b)[1..] == a[1..] + b;
      SilentAppend(a[1..], b);
    }
  }

  lemma SilentOne(c: DsCall)
    ensures SilentCalls([c]) == (if Silent(c) then [c] else []) && AudioCalls([c]) == if Silent(c) then [] else [c]
  {
    assert [c][1..] == [];
  }

  lemma NoCalls()
    ensures SilentCalls([]) == [] && AudioCalls([]) == []
  {
  }

  method CountSilent(s: seq<DsCall>) returns (n: nat)
    ensures n == |SilentCalls(s)|
  {
    n := 0;
    for i := 0 to |s|
      invariant n == |SilentCalls(s[..i])|
    {
      assert s[..i + 1] == s[..i] + [s[i]];
      SilentAppend(s[..i], [s[i]]);
      SilentOne(s[i]);
      if s[i].audio == "" { n := n + 1; }
    }
    assert s[..|s|] == s;
  }

  /** Flag the last `over` calls without audio, from the end back; everything before `from` stays. */
  method FlagOldest(s: seq<DsCall>, over: nat, drop: array<bool>) returns (from: nat)
    requires drop.Length == |s| && (forall j :: 0 <= j < |s| ==> !drop[j]) && over <= |SilentCalls(s)|
    modifies drop
    ensures from <= |s| && |SilentCalls(s[..from])| == |SilentCalls(s)| - over
    ensures forall j :: 0 <= j < |s| ==> drop[j] == (j >= from && Silent(s[j]))
  {
    hide SilentCalls, AudioCalls;
    from := |s|;
    var left: nat := over;
    assert s[..|s|] == s;
    while from > 0 && left > 0
      invariant from <= |s| && 0 <= left <= over
      invariant |SilentCalls(s[..from])| == |SilentCalls(s)| - (over - left)
      invariant forall j :: 0 <= j < |s| ==> drop[j] == (j >= from && Silent(s[j]))
      decreases from
    {
      from := from - 1;
      assert s[..from + 1] == s[..from] + [s[from]];
      SilentAppend(s[..from], [s[from]]);
      SilentOne(s[from]);
      if s[from].audio == "" {
        drop[from] := true;
        left := left - 1;
      }
    }
    if from == 0 {
      assert s[..from] == [];
      NoCalls();
      assert |SilentCalls(s[..from])| == 0;
    }
  }

  method KeepUnflagged(s: seq<DsCall>, from: nat, drop: array<bool>) returns (r: seq<DsCall>)
    requires drop.Length == |s| && from <= |s|
    requires forall j :: 0 <= j < |s| ==> drop[j] == (j >= from && Silent(s[j]))
    ensures r == s[..from] + AudioCalls(s[from..])
  {
    hide AudioCalls, SilentCalls;
    NoCalls();
    r := [];
    for i := 0 to |s|
      invariant r == KeptSoFar(s, from, i)
    {
      KeptMore(s, from, i);
      if !drop[i] { r := r + [s[i]]; }
    }
    assert s[from..|s|] == s[from..] && s[..|s|] == s;
    if from == |s| { assert s[from..] == [] && s[..from] + [] == s; }
  }

  /** What is kept of the first i calls: all before `from`, then those with audio. */
  function KeptSoFar(s: seq<DsCall>, from: nat, i: nat): seq<DsCall>
    requires from <= |s| && i <= |s|
  {
    if i <= from then s[..i] else s[..from] + AudioCalls(s[from..i])
  }

  lemma KeptMore(s: seq<DsCall>, from: nat, i: nat)
    requires from <= |s| && i < |s|
    ensures KeptSoFar(s, from, i + 1) == KeptSoFar(s, from, i) + if i >= from && Silent(s[i]) then [] else [s[i]]
  {
    hide AudioCalls, SilentCalls;
    NoCalls();
    if i >= from {
      assert s[from..i + 1] == s[from..i] + [s[i]];
      SilentAppend(s[from..i], [s[i]]);
      SilentOne(s[i]);
      if i == from { assert s[from..i] == []; }
    }
  }

  method CapCalls(s: seq<DsCall>, cap: nat) returns (r: seq<DsCall>)
    ensures r == Capped(s, cap)
  {
    var n := CountSilent(s);
    if n <= cap {
      CappedAll(s, cap);
      return s;
    }
    var drop := new bool[|s|](_ => false);
    var from := FlagOldest(s, n - cap, drop);
    CappedSplit(s, from, cap);
    r := KeepUnflagged(s, from, drop);
  }

  // ---- the finished list ----

  const NEWEST_FIRST := (c: DsCall) => -c.start

  function Numbered(s: seq<DsCall>): (r: seq<DsCall>)
    ensures |r| == |s|
    ensures forall i :: 0 <= i < |s| ==> r[i] == s[i].(id := |s| - i)
  {
    seq(|s|, i requires 0 <= i < |s| => s[i].(id := |s| - i))
  }

  function Finished(s: seq<DsCall>, renumber: bool, cap: nat): seq<DsCall> {
    var r := Capped(Sort(s, NEWEST_FIRST), cap);
    if renumber then Numbered(r) else r
  }

  method FinishList(s: seq<DsCall>, renumber: bool, cap: nat) returns (r: seq<DsCall>)
    ensures r == Finished(s, renumber, cap)
  {
    r := CapCalls(Sort(s, NEWEST_FIRST), cap);
    if renumber {
      ghost var was := r;
      for i := 0 to |r|
        invariant |r| == |was|
        invariant forall j :: 0 <= j < i ==> r[j] == was[j].(id := |was| - j)
        invariant forall j :: i <= j < |r| ==> r[j] == was[j]
      {
        r := r[i := r[i].(id := |r| - i)];
      }
      assert r == Numbered(was);
    }
  }

  /** A call that was dropped is silent and no newer than any silent call that stayed. */
  ghost predicate NewestStay(all: seq<DsCall>, n: nat)
    requires n <= |all|
  {
    forall i, j :: 0 <= i < n <= j < |all| ==> all[j].start <= all[i].start
  }

  lemma {:induction false} SilentInOrder(s: seq<DsCall>)
    requires InKeyOrder(s, NEWEST_FIRST)
    ensures InKeyOrder(SilentCalls(s), NEWEST_FIRST)
    ensures forall i :: 0 <= i < |SilentCalls(s)| ==> NEWEST_FIRST(s[0]) <= NEWEST_FIRST(SilentCalls(s)[i])
  {
    if s != [] {
      SilentInOrder(s[1..]);
      if |s| > 1 { assert NEWEST_FIRST(s[0]) <= NEWEST_FIRST(s[1]) && s[1] == s[1..][0]; }
    }
  }

  /** The finished list: a stable newest-first order; ids strictly falling; every call with audio; and of the silent
      ones exactly the `cap` newest. */
  lemma FinishedList(s: seq<DsCall>, renumber: bool, cap: nat)
    ensures var sorted, r := Sort(s, NEWEST_FIRST), Finished(s, renumber, cap);
            && StablySorted(s, sorted, NEWEST_FIRST)
            && (forall i, j :: 0 <= i < j < |r| ==> r[j].start <= r[i].start)
            && (renumber ==> forall i, j :: 0 <= i < j < |r| ==> r[j].id < r[i].id)
            && AudioCalls(Capped(sorted, cap)) == AudioCalls(sorted)
            && SilentCalls(Capped(sorted, cap)) == SilentCalls(sorted)[..Min(cap, |SilentCalls(sorted)|)]
            && NewestStay(SilentCalls(sorted), Min(cap, |SilentCalls(sorted)|))
  {
    hide Capped, Sort, AudioCalls, SilentCalls, SameByKey;
    var sorted := Sort(s, NEWEST_FIRST);
    SortIsStable(s, NEWEST_FIRST);
    CappedKeeps(sorted, cap);
    SilentInOrder(sorted);
    var r := Capped(sorted, cap);
    var p := CappedPicks(sorted, cap);
    forall i, j | 0 <= i < j < |r| ensures r[j].start <= r[i].start {
      assert NEWEST_FIRST(sorted[p[i]]) <= NEWEST_FIRST(sorted[p[j]]);
    }
    var silent := SilentCalls(sorted);
    forall i, j | 0 <= i < j < |silent| ensures silent[j].start <= silent[i].start {
      assert NEWEST_FIRST(silent[i]) <= NEWEST_FIRST(silent[j]);
    }
  }

  lemma {:induction false} WhichAreSilent(s: seq<DsCall>, c: DsCall)
    ensures c in SilentCalls(s) <==> c in s && c.audio == ""
    ensures c in AudioCalls(s) <==> c in s && c.audio != ""
  {
    if s != [] {
      WhichAreSilent(s[1..], c);
      assert c in s <==> c == s[0] || c in s[1..];
    }
  }

  /** The call is in the list, perhaps under another id. */
  predicate StillIn(c: DsCall, r: seq<DsCall>) {
    exists i :: 0 <= i < |r| && r[i] == c.(id := r[i].id)
  }

  /** How many have no audio. */
  function WithoutAudio(s: seq<DsCall>): nat {
    if s == [] then 0 else (if s[0].audio == "" then 1 else 0) + WithoutAudio(s[1..])
  }

  lemma {:induction false} SilentCount(s: seq<DsCall>)
    ensures WithoutAudio(s) == |SilentCalls(s)|
  {
    if s != [] { SilentCount(s[1..]); }
  }

  lemma {:induction false} SameCount(s: seq<DsCall>, t: seq<DsCall>)
    requires |s| == |t| && forall i :: 0 <= i < |s| ==> t[i].audio == s[i].audio
    ensures WithoutAudio(t) == WithoutAudio(s)
  {
    if s != [] { SameCount(s[1..], t[1..]); }
  }

  lemma KeptId(c: DsCall, s: seq<DsCall>, r: seq<DsCall>)
    requires c in s && |r| == |s| && forall i :: 0 <= i < |s| ==> r[i] == s[i].(id := r[i].id)
    ensures StillIn(c, r)
  {
    var i :| 0 <= i < |s| && s[i] == c;
    assert r[i] == c.(id := r[i].id);
  }

  lemma SameIds(s: seq<DsCall>)
    ensures forall i :: 0 <= i < |s| ==> s[i] == s[i].(id := s[i].id)
  {
    forall i | 0 <= i < |s| ensures s[i] == s[i].(id := s[i].id) { SameId(s[i]); }
  }

  lemma SameId(c: DsCall)
    ensures c == c.(id := c.id)
  {
  }

  /** What happens to a call of the list: one with audio stays; one without stays too, unless as many as there may be are
      kept and none of them is older. */
  lemma CallStays(s: seq<DsCall>, renumber: bool, cap: nat, c: DsCall)
    requires c in s
    ensures var r := Finished(s, renumber, cap);
            && (c.audio != "" ==> StillIn(c, r))
            && WithoutAudio(r) <= cap
            && (c.audio == "" && !StillIn(c, r) ==>
                  WithoutAudio(r) == cap && forall x :: x in r && x.audio == "" ==> c.start <= x.start)
  {
    hide Capped, Sort, SameByKey, InKeyOrder, StillIn, WithoutAudio, Finished;
    var sorted := Sort(s, NEWEST_FIRST);
    SortIsStable(s, NEWEST_FIRST);
    SameMembers(s, sorted, NEWEST_FIRST);
    FinishedIs(s, renumber, cap);
    Bounded(sorted, Capped(sorted, cap), cap, Finished(s, renumber, cap), c);
  }

  lemma FinishedIs(s: seq<DsCall>, renumber: bool, cap: nat)
    ensures var kept, r := Capped(Sort(s, NEWEST_FIRST), cap), Finished(s, renumber, cap);
            |r| == |kept| && forall i :: 0 <= i < |kept| ==> r[i] == kept[i].(id := r[i].id)
  {
    hide Capped, Sort;
    SameIds(Capped(Sort(s, NEWEST_FIRST), cap));
  }

  lemma Bounded(s: seq<DsCall>, kept: seq<DsCall>, cap: nat, r: seq<DsCall>, c: DsCall)
    requires InKeyOrder(s, NEWEST_FIRST) && c in s && kept == Capped(s, cap)
    requires |r| == |kept| && forall i :: 0 <= i < |kept| ==> r[i] == kept[i].(id := r[i].id)
    ensures c.audio != "" ==> StillIn(c, r)
    ensures WithoutAudio(r) <= cap
    ensures c.audio == "" && !StillIn(c, r) ==> WithoutAudio(r) == cap && forall x :: x in r && x.audio == "" ==> c.start <= x.start
  {
    hide Capped, AudioCalls, SilentCalls, InKeyOrder, StillIn, WithoutAudio;
    CappedKeeps(s, cap);
    SameCount(kept, r);
    SilentCount(kept);
    AudioKept(s, kept, c);
    if c in kept {
      KeptId(c, kept, r);
    } else if c.audio == "" {
      OldestGo(s, kept, cap, c);
      forall x | x in r && x.audio == "" ensures c.start <= x.start {
        var i :| 0 <= i < |r| && r[i] == x;
        assert kept[i] in kept && kept[i].audio == "";
      }
    }
  }

  lemma AudioKept(s: seq<DsCall>, kept: seq<DsCall>, c: DsCall)
    requires c in s && AudioCalls(kept) == AudioCalls(s)
    ensures c.audio != "" ==> c in kept
  {
    WhichAreSilent(s, c);
    WhichAreSilent(kept, c);
  }

  lemma OldestGo(s: seq<DsCall>, kept: seq<DsCall>, cap: nat, c: DsCall)
    requires InKeyOrder(s, NEWEST_FIRST) && c in s && c.audio == "" && c !in kept
    requires SilentCalls(kept) == SilentCalls(s)[..Min(cap, |SilentCalls(s)|)]
    ensures |SilentCalls(kept)| == cap && forall x :: x in kept && x.audio == "" ==> c.start <= x.start
  {
    hide SilentCalls, AudioCalls;
    var silent, n := SilentCalls(s), Min(cap, |SilentCalls(s)|);
    WhichAreSilent(s, c);
    WhichAreSilent(kept, c);
    var j :| 0 <= j < |silent| && silent[j] == c;
    SilentInOrder(s);
    assert forall k :: 0 <= k < |SilentCalls(kept)| ==> SilentCalls(kept)[k] == silent[k] && SilentCalls(kept)[k] in SilentCalls(kept);
    forall x | x in kept && x.audio == "" ensures c.start <= x.start {
      WhichAreSilent(kept, x);
      var i :| 0 <= i < |SilentCalls(kept)| && SilentCalls(kept)[i] == x;
      assert silent[i] == x && NEWEST_FIRST(silent[i]) <= NEWEST_FIRST(silent[j]);
    }
  }

  /** Every family's calls finished; nothing else changes. */
  function FinishFamily(fams: map<Id, DsFamily>, renumber: bool, cap: nat): Id -> DsFamily {
    f => if f in fams then fams[f].(calls := Finished(fams[f].calls, renumber, cap)) else NO_FAMILY
  }

  function Finalized(d: Dataset, renumber: bool, cap: nat): Dataset {
    d.(fams := Overlay(d.fams, d.fams.Keys, FinishFamily(d.fams, renumber, cap)))
  }

  method FinalizeMerge(d: Dataset, renumber: bool, cap: nat) returns (e: Dataset)
    ensures e == Finalized(d, renumber, cap)
  {
    hide Overlay, Finished;
    ghost var f := FinishFamily(d.fams, renumber, cap);
    OverlayEnds(d.fams, d.fams.Keys, f);
    var fams, todo := d.fams, d.fams.Keys;
    while todo != {}
      invariant todo <= d.fams.Keys && fams == Overlay(d.fams, d.fams.Keys - todo, f)
      decreases |todo|
    {
      var k :| k in todo;
      OverlayStep(d.fams, d.fams.Keys, f, todo, k);
      var calls := FinishList(fams[k].calls, renumber, cap);
      fams := fams[k := fams[k].(calls := calls)];
      todo := todo - {k};
    }
    e := d.(fams := fams);
  }
}
