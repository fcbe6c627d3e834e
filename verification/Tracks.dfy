/** Position tracks: adding fixes one by one leaves the last hundred of the run-compressed fixes, and two
    receivers' tracks join in time order. */
module Tracks {
  import opened Basics
  import opened Datasets
  import opened StableSorts

  const MAX_TRACK: nat := 100

  function Last<T>(s: seq<T>, n: nat): seq<T> {
    if |s| > n then s[|s| - n..] else s
  }

  /** One fix joins: it prolongs the last run, or starts a new one, of which the last MAX_TRACK are kept. */
  function TrackAdd(tr: seq<Fix>, f: Fix): seq<Fix> {
    var n := |tr|;
    if n > 0 && tr[n - 1].pos == f.pos then tr[n - 1 := Fix(Max(tr[n - 1].time, f.time), f.pos)]
    else Last(tr + [f], MAX_TRACK)
  }

  /** Fixes added one by one. */
  function Tracked(tr: seq<Fix>, fixes: seq<Fix>): seq<Fix>
    decreases |fixes|
  {
    if fixes == [] then tr else Tracked(TrackAdd(tr, fixes[0]), fixes[1..])
  }

  const TIME := (f: Fix) => f.time

  /** All fixes of both, sorted stably on their times, added one by one. */
  function MergeTracks(a: seq<Fix>, b: seq<Fix>): seq<Fix> {
    Tracked([], Sort(a + b, TIME))
  }

  // ---- what a track is ----

  /** One fix before runs: it joins the first of them or starts its own. */
  function RunFirst(f: Fix, r: seq<Fix>): (q: seq<Fix>)
    ensures q != [] && q[0].pos == f.pos && (r == [] || q[|q| - 1].pos == r[|r| - 1].pos)
  {
    if r != [] && r[0].pos == f.pos then [Fix(Max(f.time, r[0].time), f.pos)] + r[1..] else [f] + r
  }

  /** Every run of fixes at one position becomes one fix at the run's latest time. */
  function Runs(s: seq<Fix>): seq<Fix> {
    if s == [] then [] else RunFirst(s[0], Runs(s[1..]))
  }

  /** One more fix joins the last run or starts a new one. */
  function RunsAdd(r: seq<Fix>, f: Fix): (q: seq<Fix>)
    ensures q != []
  {
    var n := |r|;
    if n > 0 && r[n - 1].pos == f.pos then r[n - 1 := Fix(Max(r[n - 1].time, f.time), f.pos)] else r + [f]
  }

  lemma FirstThenLast(a: Fix, r: seq<Fix>, f: Fix)
    ensures RunFirst(a, RunsAdd(r, f)) == RunsAdd(RunFirst(a, r), f)
  {
    if |r| > 1 { assert RunsAdd(r, f)[0] == r[0]; }
  }

  lemma {:induction false} RunsAppend(s: seq<Fix>, f: Fix)
    ensures Runs(s + [f]) == RunsAdd(Runs(s), f)
  {
    if s == [] {
      assert s + [f] == [f] && [f][1..] == [];
    } else {
      hide RunFirst, RunsAdd;
      assert (s + [f])[0] == s[0] && (s + [f])[1..] == s[1..] + [f];
      RunsAppend(s[1..], f);
      FirstThenLast(s[0], Runs(s[1..]), f);
    }
  }

  lemma LastAdd(r: seq<Fix>, f: Fix)
    ensures TrackAdd(Last(r, MAX_TRACK), f) == Last(RunsAdd(r, f), MAX_TRACK)
  {
  }

  lemma {:induction false} TrackedAppend(tr: seq<Fix>, s: seq<Fix>, f: Fix)
    ensures Tracked(tr, s + [f]) == TrackAdd(Tracked(tr, s), f)
    decreases |s|
  {
    hide TrackAdd;
    if s == [] {
      assert s + [f] == [f] && [f][1..] == [];
    } else {
      assert (s + [f])[0] == s[0] && (s + [f])[1..] == s[1..] + [f];
      TrackedAppend(TrackAdd(tr, s[0]), s[1..], f);
    }
  }

  /** A track is the last hundred of the run-compressed fixes. */
  lemma {:induction false} TrackIsLastRuns(fixes: seq<Fix>)
    ensures Tracked([], fixes) == Last(Runs(fixes), MAX_TRACK)
    decreases |fixes|
  {
    if fixes != [] {
      hide TrackAdd, RunsAdd, Runs, Last, Tracked;
      var s, f := fixes[..|fixes| - 1], fixes[|fixes| - 1];
      assert fixes == s + [f];
      TrackIsLastRuns(s);
      TrackedAppend([], s, f);
      RunsAppend(s, f);
      LastAdd(Runs(s), f);
    }
  }

  ghost predicate NoEqualNeighbours(s: seq<Fix>) {
    forall i :: 0 < i < |s| ==> s[i - 1].pos != s[i].pos
  }

  lemma FirstDiffers(f: Fix, r: seq<Fix>)
    requires NoEqualNeighbours(r)
    ensures NoEqualNeighbours(RunFirst(f, r))
  {
  }

  lemma {:induction false} RunsDiffer(s: seq<Fix>)
    ensures NoEqualNeighbours(Runs(s))
  {
    if s != [] {
      hide RunFirst, NoEqualNeighbours;
      RunsDiffer(s[1..]);
      FirstDiffers(s[0], Runs(s[1..]));
    } else {
      assert NoEqualNeighbours([]);
    }
  }

  /** In time order, from time t on. */
  ghost predicate OrderedFrom(t: int, s: seq<Fix>) {
    InKeyOrder(s, TIME) && forall i :: 0 <= i < |s| ==> t <= TIME(s[i])
  }

  lemma FirstOrdered(t: int, f: Fix, r: seq<Fix>)
    requires OrderedFrom(f.time, r) && t <= f.time
    ensures OrderedFrom(t, RunFirst(f, r))
  {
    var q := RunFirst(f, r);
    forall i | 0 <= i < |q| ensures t <= TIME(q[i]) {
      if |q| == |r| { assert q[i] == r[i] || i == 0; } else { assert i == 0 || q[i] == r[i - 1]; }
    }
    forall i, j | 0 <= i < j < |q| ensures TIME(q[i]) <= TIME(q[j]) {
      if |q| == |r| { assert q[j] == r[j]; assert i > 0 ==> q[i] == r[i]; assert TIME(r[0]) <= TIME(r[j]); }
      else { assert q[j] == r[j - 1]; assert i > 0 ==> q[i] == r[i - 1]; }
    }
  }

  /** Compressing fixes in time order keeps them in time order. */
  lemma {:induction false} RunsOrdered(t: int, s: seq<Fix>)
    requires OrderedFrom(t, s)
    ensures OrderedFrom(t, Runs(s))
    decreases |s|
  {
    if s != [] {
      hide RunFirst;
      assert OrderedFrom(s[0].time, s[1..]) by {
        forall i | 0 <= i < |s[1..]| ensures TIME(s[0]) <= TIME(s[1..][i]) { assert s[1..][i] == s[i + 1]; }
      }
      assert t <= TIME(s[0]);
      RunsOrdered(s[0].time, s[1..]);
      FirstOrdered(t, s[0], Runs(s[1..]));
    }
  }

  lemma LastKeeps(r: seq<Fix>, n: nat)
    requires NoEqualNeighbours(r) && InKeyOrder(r, TIME)
    ensures |Last(r, n)| <= n && NoEqualNeighbours(Last(r, n)) && InKeyOrder(Last(r, n), TIME)
  {
  }

  /** Two tracks joined: in time order, without equal neighbours, the last hundred runs of all their fixes. */
  lemma MergedTrack(a: seq<Fix>, b: seq<Fix>)
    ensures var t := MergeTracks(a, b);
            && t == Last(Runs(Sort(a + b, TIME)), MAX_TRACK) && |t| <= MAX_TRACK
            && NoEqualNeighbours(t) && InKeyOrder(t, TIME)
            && StablySorted(a + b, Sort(a + b, TIME), TIME)
  {
    hide Runs, Last, Sort, Tracked, InKeyOrder, NoEqualNeighbours, SameByKey;
    var all := Sort(a + b, TIME);
    SortIsStable(a + b, TIME);
    TrackIsLastRuns(all);
    RunsDiffer(all);
    AllInTime(all);
    LastKeeps(Runs(all), MAX_TRACK);
  }

  lemma AllInTime(s: seq<Fix>)
    requires InKeyOrder(s, TIME)
    ensures InKeyOrder(Runs(s), TIME)
  {
    if s != [] { RunsOrdered(s[0].time, s); }
  }

  // ---- the program's loops ----

  method AddFix(tr: seq<Fix>, t: int, pos: string) returns (r: seq<Fix>)
    ensures r == TrackAdd(tr, Fix(t, pos))
  {
    r := tr;
    if |r| > 0 && r[|r| - 1].pos == pos {
      r := r[|r| - 1 := Fix(if r[|r| - 1].time < t then t else r[|r| - 1].time, pos)];
      return;
    }
    r := r + [Fix(t, pos)];
    if |r| > MAX_TRACK { r := r[|r| - MAX_TRACK..]; }
  }

  method JoinTracks(a: seq<Fix>, b: seq<Fix>) returns (r: seq<Fix>)
    ensures r == MergeTracks(a, b)
  {
    hide TrackAdd, Sort;
    var all := Sort(a + b, TIME);
    r := [];
    var i := 0;
    assert all[0..] == all;
    while i < |all|
      invariant i <= |all| && Tracked(r, all[i..]) == MergeTracks(a, b)
    {
      assert all[i..][0] == all[i] && all[i..][1..] == all[i + 1..];
      r := AddFix(r, all[i].time, all[i].pos);
      i := i + 1;
    }
  }
}
