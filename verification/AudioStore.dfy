/** The store of call recordings: its accounts always match the files, and the cap evicts only finished files, the
    first in index order, and no more than needed. */
module AudioStore {
  import opened StableSorts

  type Name = string

  const HEADER: nat := 44
  const MAX_DATA: nat := 0xFFFFFFF0
  const PATCH_MS := 1000

  datatype Entry = Entry(name: Name, bytes: nat, mtime: int)

  /** A file being written: its samples so far, and when its header was last brought up to date. */
  datatype Writer = Writer(samples: nat, patched: int)

  /** A file in the folder: found there, or made by this store with the data bytes its header tells of. */
  datatype File = Found(size: nat) | Made(samples: nat, told: nat)

  function Size(f: File): nat {
    match f case Found(size) => size case Made(samples, _) => HEADER + 2 * samples
  }

  /** The data size a header written for so many samples tells. */
  function Told(samples: nat): nat {
    if 2 * samples < MAX_DATA then 2 * samples else MAX_DATA
  }

  predicate SafeChar(c: char) {
    'a' <= c <= 'z' || 'A' <= c <= 'Z' || '0' <= c <= '9' || c == '_' || c == '-' || c == '.'
  }

  predicate ValidName(n: Name) {
    && 10 <= |n| <= 96 && n[..5] == "call_" && n[|n| - 4..] == ".wav"
    && (forall i :: 0 <= i < |n| ==> SafeChar(n[i]))
    && forall i :: 0 < i < |n| ==> !(n[i - 1] == '.' && n[i] == '.')
  }

  // ---- accounts ----

  function Bytes(s: seq<Entry>): nat {
    if s == [] then 0 else s[0].bytes + Bytes(s[1..])
  }

  function Names(s: seq<Entry>): set<Name> {
    set i | 0 <= i < |s| :: s[i].name
  }

  ghost predicate DistinctNames(s: seq<Entry>) {
    forall i, j :: 0 <= i < j < |s| ==> s[i].name != s[j].name
  }

  /** The index lists the folder's files, each once, with its size. */
  ghost predicate Lists(index: seq<Entry>, folder: map<Name, File>) {
    && DistinctNames(index) && folder.Keys == Names(index)
    && forall i :: 0 <= i < |index| ==> index[i].bytes == Size(folder[index[i].name])
  }

  /** Each file being written is in the folder with its samples; each finished one's header tells all its data. */
  ghost predicate Written(open: map<Name, Writer>, folder: map<Name, File>) {
    && (forall n :: n in open ==> n in folder && folder[n].Made? && folder[n].samples == open[n].samples)
    && (forall n :: n in folder && folder[n].Made? && n !in open ==> folder[n].told == Told(folder[n].samples))
  }

  // ---- the cap ----

  predicate TooOld(e: Entry, maxAge: int, now: int) {
    maxAge > 0 && now - e.mtime > maxAge
  }

  datatype Pruned = Pruned(kept: seq<Entry>, total: nat, gone: seq<Entry>)

  /** Walk the index from the oldest while over the cap, or at an entry past the age limit; finished files go. */
  function Enforce(s: seq<Entry>, open: set<Name>, total: nat, cap: nat, maxAge: int, now: int): Pruned {
    if s == [] || !(total > cap || TooOld(s[0], maxAge, now)) then Pruned(s, total, [])
    else if s[0].name in open then
      var r := Enforce(s[1..], open, total, cap, maxAge, now);
      r.(kept := [s[0]] + r.kept)
    else
      var r := Enforce(s[1..], open, if total < s[0].bytes then 0 else total - s[0].bytes, cap, maxAge, now);
      r.(gone := [s[0]] + r.gone)
  }

  function Finished(s: seq<Entry>, open: set<Name>): seq<Entry> {
    if s == [] then [] else if s[0].name in open then Finished(s[1..], open) else [s[0]] + Finished(s[1..], open)
  }

  function Open(s: seq<Entry>, open: set<Name>): seq<Entry> {
    if s == [] then [] else if s[0].name in open then [s[0]] + Open(s[1..], open) else Open(s[1..], open)
  }

  /** Exactly the first finished files went, in index order, and every file still being written stayed. */
  lemma {:induction false} FirstFinishedGo(s: seq<Entry>, open: set<Name>, total: nat, cap: nat, maxAge: int, now: int)
    ensures var r := Enforce(s, open, total, cap, maxAge, now);
            && r.gone + Finished(r.kept, open) == Finished(s, open) && Open(r.kept, open) == Open(s, open)
            && forall i :: 0 <= i < |r.gone| ==> r.gone[i].name !in open
  {
    if s != [] {
      FirstFinishedGo(s[1..], open, if s[0].name in open then total else if total < s[0].bytes then 0 else total - s[0].bytes,
                      cap, maxAge, now);
    }
  }

  /** With the total right before, it is right after; and it is within the cap, or only files being written are left. */
  lemma {:induction false} CapHolds(s: seq<Entry>, before: nat, open: set<Name>, total: nat, cap: nat, maxAge: int, now: int)
    requires total == before + Bytes(s)
    ensures var r := Enforce(s, open, total, cap, maxAge, now);
            && r.total == before + Bytes(r.kept)
            && (r.total <= cap || forall i :: 0 <= i < |r.kept| ==> r.kept[i].name in open)
  {
    if s != [] && (total > cap || TooOld(s[0], maxAge, now)) {
      if s[0].name in open {
        CapHolds(s[1..], before + s[0].bytes, open, total, cap, maxAge, now);
        var r := Enforce(s[1..], open, total, cap, maxAge, now);
        assert ([s[0]] + r.kept)[1..] == r.kept;
      } else {
        CapHolds(s[1..], before, open, total - s[0].bytes, cap, maxAge, now);
      }
    }
  }

  /** Without an age limit no more goes than the cap needs: before the last file went, the total was over it. */
  lemma {:induction false} NoMoreThanNeeded(s: seq<Entry>, open: set<Name>, total: nat, cap: nat, maxAge: int, now: int)
    requires maxAge <= 0 && total >= Bytes(s)
    ensures var r := Enforce(s, open, total, cap, maxAge, now);
            r.gone != [] ==> r.total + r.gone[|r.gone| - 1].bytes > cap
  {
    if s != [] && total > cap {
      NoMoreThanNeeded(s[1..], open, if s[0].name in open then total else total - s[0].bytes, cap, maxAge, now);
      if s[0].name !in open {
        var r := Enforce(s[1..], open, total - s[0].bytes, cap, maxAge, now);
        if r.gone == [] { NoneGone(s[1..], open, total - s[0].bytes, cap, maxAge, now); }
      }
    }
  }

  lemma {:induction false} NoneGone(s: seq<Entry>, open: set<Name>, total: nat, cap: nat, maxAge: int, now: int)
    requires Enforce(s, open, total, cap, maxAge, now).gone == []
    ensures Enforce(s, open, total, cap, maxAge, now).total == total
  {
    if s != [] && (total > cap || TooOld(s[0], maxAge, now)) {
      if s[0].name in open { NoneGone(s[1..], open, total, cap, maxAge, now); }
    }
  }

  /** Position i is young, and the cap is met once the finished files before it are gone. */
  predicate Rests(s: seq<Entry>, i: nat, open: set<Name>, total: nat, cap: nat, maxAge: int, now: int)
    requires i < |s|
  {
    !TooOld(s[i], maxAge, now) && total - Bytes(Finished(s[..i], open)) <= cap
  }

  /** An old finished file has a resting place before it. */
  ghost predicate Shielded(s: seq<Entry>, open: set<Name>, total: nat, cap: nat, maxAge: int, now: int) {
    exists i, j :: 0 <= i < j < |s| && Rests(s, i, open, total, cap, maxAge, now)
                   && s[j].name !in open && TooOld(s[j], maxAge, now)
  }

  ghost predicate OldLeft(s: seq<Entry>, open: set<Name>, maxAge: int, now: int) {
    exists j :: 0 <= j < |s| && s[j].name !in open && TooOld(s[j], maxAge, now)
  }

  /** The age limit is kept exactly when no old finished file stands behind a young entry the walk rests at. */
  lemma {:induction false} AgeLimitExact(s: seq<Entry>, open: set<Name>, total: nat, cap: nat, maxAge: int, now: int)
    requires total >= Bytes(s)
    ensures OldLeft(Enforce(s, open, total, cap, maxAge, now).kept, open, maxAge, now)
            <==> Shielded(s, open, total, cap, maxAge, now)
  {
    hide TooOld;
    if s != [] {
      var r := Enforce(s, open, total, cap, maxAge, now);
      assert s[..0] == [];
      if !(total > cap || TooOld(s[0], maxAge, now)) {
        RestsAtOnce(s, open, total, cap, maxAge, now);
      } else {
        var left := if s[0].name in open then total else total - s[0].bytes;
        AgeLimitExact(s[1..], open, left, cap, maxAge, now);
        ShieldedLater(s, open, total, left, cap, maxAge, now);
        if s[0].name in open { OldLeftLater(s[0], Enforce(s[1..], open, left, cap, maxAge, now).kept, open, maxAge, now); }
      }
    }
  }

  lemma OldLeftLater(e: Entry, kept: seq<Entry>, open: set<Name>, maxAge: int, now: int)
    requires e.name in open
    ensures OldLeft([e] + kept, open, maxAge, now) <==> OldLeft(kept, open, maxAge, now)
  {
    hide TooOld;
    var s := [e] + kept;
    if OldLeft(kept, open, maxAge, now) {
      var j :| 0 <= j < |kept| && kept[j].name !in open && TooOld(kept[j], maxAge, now);
      assert s[j + 1] == kept[j];
    }
    if OldLeft(s, open, maxAge, now) {
      var j :| 0 <= j < |s| && s[j].name !in open && TooOld(s[j], maxAge, now);
      assert s[j] == kept[j - 1];
    }
  }

  lemma RestsAtOnce(s: seq<Entry>, open: set<Name>, total: nat, cap: nat, maxAge: int, now: int)
    requires s != [] && total <= cap && !TooOld(s[0], maxAge, now)
    ensures OldLeft(s, open, maxAge, now) <==> Shielded(s, open, total, cap, maxAge, now)
  {
    hide TooOld;
    assert s[..0] == [];
    assert Rests(s, 0, open, total, cap, maxAge, now);
    if OldLeft(s, open, maxAge, now) {
      var j :| 0 <= j < |s| && s[j].name !in open && TooOld(s[j], maxAge, now);
      assert 0 < j;
    }
  }

  lemma ShieldedLater(s: seq<Entry>, open: set<Name>, total: nat, left: nat, cap: nat, maxAge: int, now: int)
    requires s != [] && (total > cap || TooOld(s[0], maxAge, now))
    requires s[0].name in open ==> left == total
    requires s[0].name !in open ==> left == total - s[0].bytes
    ensures Shielded(s, open, total, cap, maxAge, now) <==> Shielded(s[1..], open, left, cap, maxAge, now)
  {
    hide TooOld;
    var t := s[1..];
    assert s[..0] == [];
    assert !Rests(s, 0, open, total, cap, maxAge, now);
    forall i | 0 <= i < |t| ensures Rests(t, i, open, left, cap, maxAge, now) == Rests(s, i + 1, open, total, cap, maxAge, now) {
      assert s[..i + 1][0] == s[0] && s[..i + 1][1..] == t[..i];
    }
    if Shielded(s, open, total, cap, maxAge, now) {
      var i, j :| 0 <= i < j < |s| && Rests(s, i, open, total, cap, maxAge, now)
                  && s[j].name !in open && TooOld(s[j], maxAge, now);
      assert Rests(t, i - 1, open, left, cap, maxAge, now) && t[j - 1] == s[j];
    }
    if Shielded(t, open, left, cap, maxAge, now) {
      var i, j :| 0 <= i < j < |t| && Rests(t, i, open, left, cap, maxAge, now)
                  && t[j].name !in open && TooOld(t[j], maxAge, now);
      assert Rests(s, i + 1, open, total, cap, maxAge, now) && s[j + 1] == t[j];
    }
  }

  /** While the index runs from the oldest to the newest, the age limit is kept. */
  lemma OldestFirstKeepsAge(s: seq<Entry>, open: set<Name>, total: nat, cap: nat, maxAge: int, now: int)
    requires total >= Bytes(s) && forall i, j :: 0 <= i < j < |s| ==> s[i].mtime <= s[j].mtime
    ensures !OldLeft(Enforce(s, open, total, cap, maxAge, now).kept, open, maxAge, now)
  {
    AgeLimitExact(s, open, total, cap, maxAge, now);
  }

  /** The index after samples brought the total to `total`: it is walked only past the cap. */
  function Walked(s: seq<Entry>, open: set<Name>, total: nat, cap: nat, maxAge: int, now: int): seq<Entry> {
    if total <= cap then s else Enforce(s, open, total, cap, maxAge, now).kept
  }

  /** Within the cap, any old finished file; past it, one that stands behind a young entry the walk rests at. */
  ghost predicate Overlooked(s: seq<Entry>, open: set<Name>, total: nat, cap: nat, maxAge: int, now: int) {
    (total <= cap && OldLeft(s, open, maxAge, now)) || (total > cap && Shielded(s, open, total, cap, maxAge, now))
  }

  lemma AgeLimitAfterSamples(s: seq<Entry>, open: set<Name>, total: nat, cap: nat, maxAge: int, now: int)
    requires total >= Bytes(s)
    ensures OldLeft(Walked(s, open, total, cap, maxAge, now), open, maxAge, now)
            <==> Overlooked(s, open, total, cap, maxAge, now)
  {
    hide OldLeft, Shielded, Enforce;
    AgeLimitExact(s, open, total, cap, maxAge, now);
  }

  /** The index once n samples went to a file: its entry keeps its place. */
  function GrownIndex(s: seq<Entry>, name: Name, n: nat, now: int): seq<Entry>
    requires Find(s, name) < |s|
  {
    s[Find(s, name) := Entry(name, s[Find(s, name)].bytes + 2 * n, now)]
  }

  /** What stays in the index stays listed once the rest is deleted. */
  lemma {:induction false} EnforceLists(s: seq<Entry>, folder: map<Name, File>, open: set<Name>, total: nat, cap: nat, maxAge: int, now: int)
    requires Lists(s, folder)
    ensures var r := Enforce(s, open, total, cap, maxAge, now);
            && Lists(r.kept, folder - Names(r.gone)) && Names(r.kept) <= Names(s)
            && Names(r.gone) <= Names(s) && Names(r.gone) !! open
  {
    hide Lists, Names, TooOld;
    NoNames();
    var r := Enforce(s, open, total, cap, maxAge, now);
    if s == [] || !(total > cap || TooOld(s[0], maxAge, now)) {
      assert folder - {} == folder;
    } else {
      var t := s[1..];
      var rest := folder - {s[0].name};
      HeadListed(s, folder);
      TailLists(s, folder);
      var left := if s[0].name in open then total else if total < s[0].bytes then 0 else total - s[0].bytes;
      EnforceLists(t, rest, open, left, cap, maxAge, now);
      var q := Enforce(t, open, left, cap, maxAge, now);
      assert s == [s[0]] + t;
      NamesHead(s[0], t);
      NamesHead(s[0], q.gone);
      NamesHead(s[0], q.kept);
      if s[0].name in open {
        HeadLists(s[0], q.kept, q.gone, t, folder, rest);
      } else {
        assert folder - Names(r.gone) == rest - Names(q.gone);
      }
    }
  }

  lemma NoNames()
    ensures Names([]) == {}
  {
  }

  lemma HeadListed(s: seq<Entry>, folder: map<Name, File>)
    requires s != [] && Lists(s, folder)
    ensures s[0].name in folder && s[0].bytes == Size(folder[s[0].name])
  {
    assert s[0].name in Names(s);
  }

  lemma GoneListed(s: seq<Entry>, folder: map<Name, File>, open: set<Name>, total: nat, cap: nat, maxAge: int, now: int, told: seq<Name>)
    requires Lists(s, folder)
    ensures var gone := Enforce(s, open, total, cap, maxAge, now).gone;
            Accounted(folder, folder - Names(gone), told, told + NamesOf(gone))
  {
    hide Enforce, Lists, Names;
    var gone := Enforce(s, open, total, cap, maxAge, now).gone;
    EnforceLists(s, folder, open, total, cap, maxAge, now);
    ListsAll(s, folder);
    NamesAre(gone);
    var after := told + NamesOf(gone);
    forall n | n in Names(gone) ensures n in after {
      var i :| 0 <= i < |gone| && gone[i].name == n;
      assert after[|told| + i] == n;
    }
    forall n | n in after && n !in told ensures n in folder && n !in folder - Names(gone) {
      var j :| 0 <= j < |after| && after[j] == n;
      assert gone[j - |told|].name == n;
    }
  }

  lemma ListsAll(s: seq<Entry>, folder: map<Name, File>)
    requires Lists(s, folder)
    ensures folder.Keys == Names(s)
  {
  }

  lemma NamesAre(s: seq<Entry>)
    ensures forall i :: 0 <= i < |s| ==> s[i].name in Names(s)
    ensures forall n :: n in Names(s) ==> exists i :: 0 <= i < |s| && s[i].name == n
  {
  }

  lemma NamesHead(e: Entry, s: seq<Entry>)
    ensures Names([e] + s) == {e.name} + Names(s)
  {
    forall n ensures n in Names([e] + s) <==> n in {e.name} + Names(s) {
      if n in Names(s) {
        var i :| 0 <= i < |s| && s[i].name == n;
        assert ([e] + s)[i + 1].name == n;
      }
      if n == e.name { assert ([e] + s)[0].name == n; }
    }
  }

  lemma TailLists(s: seq<Entry>, folder: map<Name, File>)
    requires s != [] && Lists(s, folder)
    ensures Lists(s[1..], folder - {s[0].name}) && s[0].name !in Names(s[1..])
  {
    NamesHead(s[0], s[1..]);
    assert s == [s[0]] + s[1..];
  }

  lemma HeadLists(e: Entry, kept: seq<Entry>, gone: seq<Entry>, t: seq<Entry>, folder: map<Name, File>, rest: map<Name, File>)
    requires e.name in folder && e.bytes == Size(folder[e.name]) && rest == folder - {e.name}
    requires Lists(kept, rest - Names(gone)) && Names(gone) <= Names(t) && e.name !in Names(t)
    ensures Lists([e] + kept, folder - Names(gone))
  {
    NamesHead(e, kept);
    var s := [e] + kept;
    assert e.name !in Names(kept);
    forall i, j | 0 <= i < j < |s| ensures s[i].name != s[j].name { assert kept[j - 1].name in Names(kept); }
  }

  // ---- loops over the index ----

  function EnforceFrom(s: seq<Entry>, i: nat, open: set<Name>, total: nat, cap: nat, maxAge: int, now: int, gone: seq<Entry>): Pruned
    requires i <= |s|
  {
    var r := Enforce(s[i..], open, total, cap, maxAge, now);
    Pruned(s[..i] + r.kept, r.total, gone + r.gone)
  }

  method EnforceLoop(s0: seq<Entry>, open: set<Name>, total0: nat, cap: nat, maxAge: int, now: int)
    returns (s: seq<Entry>, total: nat, gone: seq<Entry>)
    ensures Pruned(s, total, gone) == Enforce(s0, open, total0, cap, maxAge, now)
  {
    s, total, gone := s0, total0, [];
    var it := 0;
    while it < |s|
      invariant it <= |s|
      invariant EnforceFrom(s, it, open, total, cap, maxAge, now, gone) == Enforce(s0, open, total0, cap, maxAge, now)
      decreases |s| - it
    {
      EnforceStep(s, it, open, total, cap, maxAge, now, gone);
      if !(total > cap || TooOld(s[it], maxAge, now)) { break; }
      if s[it].name in open {
        it := it + 1;
      } else {
        total := if total < s[it].bytes then 0 else total - s[it].bytes;
        gone := gone + [s[it]];
        s := s[..it] + s[it + 1..];
      }
    }
    if it == |s| { assert s[..it] == s && s[it..] == []; }
  }

  lemma EnforceStep(s: seq<Entry>, i: nat, open: set<Name>, total: nat, cap: nat, maxAge: int, now: int, gone: seq<Entry>)
    requires i < |s|
    ensures EnforceFrom(s, i, open, total, cap, maxAge, now, gone) ==
            if !(total > cap || TooOld(s[i], maxAge, now)) then Pruned(s, total, gone)
            else if s[i].name in open then EnforceFrom(s, i + 1, open, total, cap, maxAge, now, gone)
            else EnforceFrom(s[..i] + s[i + 1..], i, open, if total < s[i].bytes then 0 else total - s[i].bytes,
                             cap, maxAge, now, gone + [s[i]])
  {
    hide TooOld;
    assert s[i..][0] == s[i] && s[i..][1..] == s[i + 1..] && s[..i] + s[i..] == s;
    var t := s[..i] + s[i + 1..];
    assert t[i..] == s[i + 1..] && t[..i] == s[..i];
    assert gone + [] == gone;
    var left := if total < s[i].bytes then 0 else total - s[i].bytes;
    var q, r := Enforce(s[i + 1..], open, total, cap, maxAge, now), Enforce(s[i + 1..], open, left, cap, maxAge, now);
    assert s[..i] + ([s[i]] + q.kept) == s[..i + 1] + q.kept;
    assert gone + ([s[i]] + r.gone) == gone + [s[i]] + r.gone;
  }

  /** The entry's place; |s| without one. */
  function Find(s: seq<Entry>, name: Name): (r: nat)
    ensures r <= |s| && (r < |s| ==> s[r].name == name) && (forall i :: 0 <= i < r ==> s[i].name != name)
  {
    if s == [] || s[0].name == name then 0
    else
      var r := Find(s[1..], name);
      assert forall i :: 0 < i < r + 1 ==> s[i] == s[1..][i - 1];
      r + 1
  }

  method FindEntry(s: seq<Entry>, name: Name) returns (r: nat)
    ensures r == Find(s, name)
  {
    r := 0;
    while r < |s| && s[r].name != name
      invariant r <= |s| && forall i :: 0 <= i < r ==> s[i].name != name
    {
      r := r + 1;
    }
  }

  lemma {:induction false} BytesAppend(a: seq<Entry>, b: seq<Entry>)
    ensures Bytes(a + b) == Bytes(a) + Bytes(b)
  {
    if a == [] {
      assert a + b == b;
    } else {
      assert (a + b)[1..] == a[1..] + b;
      BytesAppend(a[1..], b);
    }
  }

  lemma BytesAt(s: seq<Entry>, i: nat, e: Entry)
    requires i < |s|
    ensures Bytes(s[i := e]) == Bytes(s) - s[i].bytes + e.bytes
    ensures Bytes(s[..i] + s[i + 1..]) == Bytes(s) - s[i].bytes
  {
    var a, b := s[..i], s[i + 1..];
    assert s == a + ([s[i]] + b) && s[i := e] == a + ([e] + b);
    BytesAppend(a, [s[i]] + b);
    BytesAppend(a, [e] + b);
    BytesAppend(a, b);
    assert ([s[i]] + b)[1..] == b && ([e] + b)[1..] == b;
  }

  lemma RemoveLists(s: seq<Entry>, folder: map<Name, File>, i: nat)
    requires i < |s| && Lists(s, folder)
    ensures Lists(s[..i] + s[i + 1..], folder - {s[i].name})
  {
    hide Names;
    var t := s[..i] + s[i + 1..];
    assert forall j :: 0 <= j < |t| ==> t[j] == s[if j < i then j else j + 1];
    RemovedNames(s, i);
    forall j | 0 <= j < |s| ensures s[j].name in folder { NameIn(s, j); }
    forall j | 0 <= j < |t| ensures t[j].bytes == Size((folder - {s[i].name})[t[j].name]) { }
  }

  lemma NameIn(s: seq<Entry>, i: nat)
    requires i < |s|
    ensures s[i].name in Names(s)
  {
  }

  lemma RemovedNames(s: seq<Entry>, i: nat)
    requires i < |s| && DistinctNames(s)
    ensures Names(s[..i] + s[i + 1..]) == Names(s) - {s[i].name}
  {
    var t := s[..i] + s[i + 1..];
    assert forall j :: 0 <= j < |t| ==> t[j] == s[if j < i then j else j + 1];
    forall n ensures n in Names(t) <==> n in Names(s) && n != s[i].name {
      if n in Names(s) && n != s[i].name {
        var j :| 0 <= j < |s| && s[j].name == n;
        assert t[if j < i then j else j - 1].name == n;
      }
    }
  }

  lemma GrowLists(s: seq<Entry>, folder: map<Name, File>, i: nat, e: Entry, f: File)
    requires i < |s| && Lists(s, folder) && e.name == s[i].name && e.bytes == Size(f)
    ensures Lists(s[i := e], folder[e.name := f])
  {
    var t := s[i := e];
    forall n ensures n in Names(t) <==> n in Names(s) {
      if n in Names(s) {
        var j :| 0 <= j < |s| && s[j].name == n;
        assert t[j].name == n;
      }
      if n in Names(t) {
        var j :| 0 <= j < |t| && t[j].name == n;
        assert s[j].name == n;
      }
    }
  }

  lemma AddLists(s: seq<Entry>, folder: map<Name, File>, e: Entry, f: File)
    requires Lists(s, folder) && e.bytes == Size(f)
    ensures Lists(s + [e], folder[e.name := f]) <==> e.name !in Names(s)
  {
    var t := s + [e];
    assert t[|s|] == e;
    assert forall i :: 0 <= i < |s| ==> t[i] == s[i];
    if e.name in Names(s) {
      var i :| 0 <= i < |s| && s[i].name == e.name;
      assert t[i].name == t[|s|].name;
    } else {
      forall n ensures n in Names(t) <==> n in Names(s) || n == e.name {
        if n in Names(s) {
          var i :| 0 <= i < |s| && s[i].name == n;
          assert t[i].name == n;
        }
      }
    }
  }

  lemma {:induction false} BytesSplit(s: seq<Entry>, open: set<Name>)
    ensures Bytes(Open(s, open)) + Bytes(Finished(s, open)) == Bytes(s)
  {
    if s != [] {
      BytesSplit(s[1..], open);
      assert ([s[0]] + Open(s[1..], open))[1..] == Open(s[1..], open);
      assert ([s[0]] + Finished(s[1..], open))[1..] == Finished(s[1..], open);
    }
  }

  lemma {:induction false} OpenLists(s: seq<Entry>, folder: map<Name, File>, open: set<Name>)
    requires Lists(s, folder)
    ensures Lists(Open(s, open), folder - Names(Finished(s, open))) && Names(Finished(s, open)) <= Names(s)
    ensures Names(Finished(s, open)) !! open
  {
    if s == [] {
      assert folder - Names([]) == folder;
    } else {
      hide Lists, Names;
      var t, rest := s[1..], folder - {s[0].name};
      HeadListed(s, folder);
      TailLists(s, folder);
      OpenLists(t, rest, open);
      var kept, gone := Open(t, open), Finished(t, open);
      HeadLists(s[0], kept, gone, t, folder, rest);
      NamesHead(s[0], gone);
      NamesHead(s[0], t);
      assert s == [s[0]] + t;
      assert folder - Names([s[0]] + gone) == rest - Names(gone);
    }
  }

  method RemoveFinished(s0: seq<Entry>, open: set<Name>, total0: nat)
    returns (s: seq<Entry>, total: nat, gone: seq<Entry>, bytes: nat)
    requires total0 == Bytes(s0)
    ensures s == Open(s0, open) && gone == Finished(s0, open) && total == Bytes(s) && bytes == Bytes(gone)
  {
    hide Open, Finished, Bytes;
    s, total, gone, bytes := s0, total0, [], 0;
    var it := 0;
    assert s0[0..] == s0;
    NoBytes(open);
    while it < |s|
      invariant it <= |s| && s[..it] + Open(s[it..], open) == Open(s0, open) && gone + Finished(s[it..], open) == Finished(s0, open)
      invariant total == Bytes(s) && bytes == Bytes(gone)
      decreases |s| - it
    {
      RemoveStep(s, it, open, gone);
      if s[it].name in open {
        it := it + 1;
      } else {
        bytes := bytes + s[it].bytes;
        total := total - s[it].bytes;
        gone := gone + [s[it]];
        s := s[..it] + s[it + 1..];
      }
    }
    assert s[..it] == s && s[it..] == [];
  }

  lemma NoBytes(open: set<Name>)
    ensures Bytes([]) == 0 && Open([], open) == [] && Finished([], open) == []
  {
  }

  lemma RemoveStep(s: seq<Entry>, i: nat, open: set<Name>, gone: seq<Entry>)
    requires i < |s|
    ensures s[i].name in open ==> s[..i] + Open(s[i..], open) == s[..i + 1] + Open(s[i + 1..], open)
                                  && gone + Finished(s[i..], open) == gone + Finished(s[i + 1..], open)
    ensures s[i].name !in open ==>
              var t := s[..i] + s[i + 1..];
              && s[..i] + Open(s[i..], open) == t[..i] + Open(t[i..], open)
              && gone + Finished(s[i..], open) == gone + [s[i]] + Finished(t[i..], open)
              && Bytes(t) == Bytes(s) - s[i].bytes && Bytes(gone + [s[i]]) == Bytes(gone) + s[i].bytes
  {
    hide Open, Finished, Bytes;
    assert s[i..][0] == s[i] && s[i..][1..] == s[i + 1..];
    FirstOpen(s[i..], open);
    var rest := s[i + 1..];
    if s[i].name in open {
      assert s[..i] + ([s[i]] + Open(rest, open)) == s[..i + 1] + Open(rest, open);
    } else {
      var t := s[..i] + rest;
      assert t[..i] == s[..i] && t[i..] == rest;
      assert gone + ([s[i]] + Finished(rest, open)) == gone + [s[i]] + Finished(rest, open);
      BytesAt(s, i, s[i]);
      BytesAppend(gone, [s[i]]);
      OneEntry(s[i]);
    }
  }

  lemma FirstOpen(s: seq<Entry>, open: set<Name>)
    requires s != []
    ensures s[0].name in open ==> Open(s, open) == [s[0]] + Open(s[1..], open) && Finished(s, open) == Finished(s[1..], open)
    ensures s[0].name !in open ==> Open(s, open) == Open(s[1..], open) && Finished(s, open) == [s[0]] + Finished(s[1..], open)
  {
  }

  function NamesOf(s: seq<Entry>): (r: seq<Name>)
    ensures |r| == |s| && forall i :: 0 <= i < |s| ==> r[i] == s[i].name
  {
    seq(|s|, i requires 0 <= i < |s| => s[i].name)
  }

  /** Files went from the folder, and exactly those that went are told of since. */
  ghost predicate Accounted(was: map<Name, File>, folder: map<Name, File>, before: seq<Name>, after: seq<Name>) {
    && folder.Keys <= was.Keys && before <= after
    && (forall n :: n in was ==> n in folder || n in after)
    && (forall n :: n in after ==> n in before || (n in was && n !in folder))
  }

  lemma AccountedAgain(was: map<Name, File>, later: map<Name, File>, last: map<Name, File>,
                       a: seq<Name>, b: seq<Name>, c: seq<Name>)
    requires Accounted(was, later, a, b) && Accounted(later, last, b, c)
    ensures Accounted(was, last, a, c)
  {
    assert forall n :: n in b ==> n in c;
  }

  // ---- the store ----

  class CallAudioStore {
    var on: bool
    var cap: nat
    var maxAge: int
    var total: nat
    var index: seq<Entry>
    var open: map<Name, Writer>
    var evicted: seq<Name>
    ghost var folder: map<Name, File>

    /** The accounts: the index is the folder, the total its size, and every file being written is in it. */
    ghost predicate Valid()
      reads this
    {
      Lists(index, folder) && Written(open, folder) && total == Bytes(index) && (!on ==> open == map[])
    }

    constructor ()
      ensures Valid() && !on && index == [] && open == map[] && evicted == []
    {
      on, cap, maxAge, total, index, open, evicted, folder := false, 0, 0, 0, [], map[], [], map[];
    }

    /** Start in a folder that lists these files of ours. */
    method Enable(cap: nat, maxAge: int, now: int, found: seq<Entry>)
      requires Valid() && !on && DistinctNames(found)
      modifies this
      ensures Valid() && on && open == map[]
      ensures var r := Enforce(Sort(found, AGE), {}, Bytes(found), cap, maxAge, now);
              index == r.kept && evicted == old(evicted) + NamesOf(r.gone) && total <= cap
      ensures !OldLeft(index, open.Keys, maxAge, now)
      ensures this.cap == cap && this.maxAge == maxAge
      ensures Accounted(ListingOf(found), folder, old(evicted), evicted) && ListingOf(found).Keys == Names(found)
    {
      hide Lists, Enforce, Sort, OldLeft;
      SortLists(found);
      SortIsStable(found, AGE);
      OldestFirstKeepsAge(Sort(found, AGE), {}, Bytes(found), cap, maxAge, now);
      NoneOpen(ListingOf(found));
      this.cap, this.maxAge, on := cap, maxAge, true;
      index, total := Sort(found, AGE), Bytes(found);
      folder := ListingOf(found);
      assert open.Keys == {};
      EnforceNow(now);
    }

    /** Stop: every open file is finished. */
    method Disable()
      requires Valid()
      modifies this
      ensures Valid() && !on && open == map[] && index == old(index) && total == old(total) && evicted == old(evicted)
      ensures folder.Keys == old(folder).Keys
    {
      folder := Closed(folder, open);
      CloseLists(index, old(folder), open);
      open, on := map[], false;
    }

    /** Create a call's file.  The accounts stay right exactly when the name is new to the index. */
    method OpenFile(name: Name, now: int, creates: bool) returns (ok: bool)
      requires Valid()
      modifies this
      ensures ok == (on && ValidName(name) && name !in old(open) && creates)
      ensures !ok ==> Valid() && index == old(index) && open == old(open) && total == old(total)
      ensures ok ==> index == old(index) + [Entry(name, HEADER, now)] && open == old(open)[name := Writer(0, now)]
                     && total == old(total) + HEADER && folder == old(folder)[name := Made(0, 0)]
      ensures !ok ==> folder == old(folder)
      ensures Valid() <==> !ok || name !in Names(old(index))
      ensures on == old(on) && evicted == old(evicted) && cap == old(cap) && maxAge == old(maxAge)
    {
      hide ValidName, Lists;
      if !on || !ValidName(name) || name in open || !creates { return false; }
      AddLists(index, folder, Entry(name, HEADER, now), Made(0, 0));
      BytesAppend(index, [Entry(name, HEADER, now)]);
      OneEntry(Entry(name, HEADER, now));
      open := open[name := Writer(0, now)];
      index := index + [Entry(name, HEADER, now)];
      total := total + HEADER;
      folder := folder[name := Made(0, 0)];
      return true;
    }

    /** Samples arrive: the file and its entry grow, and past the cap the oldest finished files go. */
    method Append(name: Name, n: nat, now: int)
      requires Valid()
      modifies this
      ensures Valid() && on == old(on) && cap == old(cap) && maxAge == old(maxAge)
      ensures Accounted(old(folder), folder, old(evicted), evicted)
      ensures name !in old(open) || n == 0 ==> index == old(index) && open == old(open) && evicted == old(evicted)
      ensures name in old(open) && n > 0 ==>
                && open.Keys == old(open).Keys && open[name].samples == old(open)[name].samples + n
                && (forall m :: m in open && m != name ==> open[m] == old(open)[m])
                && Find(old(index), name) < |old(index)|
                && var grown := GrownIndex(old(index), name, n, now);
                   if old(total) + 2 * n <= cap then index == grown && evicted == old(evicted)
                   else var r := Enforce(grown, open.Keys, old(total) + 2 * n, cap, maxAge, now);
                        index == r.kept && evicted == old(evicted) + NamesOf(r.gone)
      ensures name in old(open) && n > 0 ==>
                && name in old(folder) && old(folder)[name].Made? && open[name] == Grown(old(open)[name], n, now)
                && name in folder && folder[name] == GrownFile(old(folder)[name], old(open)[name], n, now)
      ensures name in old(open) && n > 0 && Find(old(index), name) < |old(index)| ==>
                (OldLeft(index, open.Keys, maxAge, now)
                 <==> Overlooked(GrownIndex(old(index), name, n, now), open.Keys, old(total) + 2 * n, cap, maxAge, now))
    {
      hide Lists, Enforce, Written, OldLeft, Overlooked, Grown, GrownFile, Accounted, Bytes;
      Unmoved(folder, folder, evicted);
      if name !in open || n == 0 { return; }
      var w := open[name];
      var i := FindEntry(index, name);
      GrowAccounts(index, folder, open, name, n, now);
      index := index[i := Entry(name, index[i].bytes + 2 * n, now)];
      total := total + 2 * n;
      open := open[name := Grown(w, n, now)];
      folder := folder[name := GrownFile(folder[name], w, n, now)];
      AgeLimitAfterSamples(index, open.Keys, total, cap, maxAge, now);
      ghost var grown := folder;
      Unmoved(old(folder), grown, evicted);
      if total > cap {
        EnforceNow(now);
        AccountedAgain(old(folder), grown, folder, old(evicted), old(evicted), evicted);
        WrittenThere(open, folder, name);
      }
    }

    /** Oldest finished files go first. */
    method EnforceNow(now: int)
      requires Valid()
      modifies this`total, this`index, this`evicted, this`folder
      ensures Valid()
      ensures var r := Enforce(old(index), open.Keys, old(total), cap, maxAge, now);
              && index == r.kept && evicted == old(evicted) + NamesOf(r.gone)
              && (total <= cap || forall i :: 0 <= i < |index| ==> index[i].name in open)
      ensures Accounted(old(folder), folder, old(evicted), evicted)
      ensures forall n :: n in folder ==> folder[n] == old(folder)[n]
    {
      hide Lists, Enforce;
      GoneListed(index, folder, open.Keys, total, cap, maxAge, now, evicted);
      EnforceLists(index, folder, open.Keys, total, cap, maxAge, now);
      CapHolds(index, 0, open.Keys, total, cap, maxAge, now);
      var s, left, gone := EnforceLoop(index, open.Keys, total, cap, maxAge, now);
      index, total, evicted := s, left, evicted + NamesOf(gone);
      folder := folder - Names(gone);
    }

    /** The call ended: its file is final. */
    method Finish(name: Name)
      requires Valid()
      modifies this`open, this`folder
      ensures Valid() && open == old(open) - {name}
      ensures name in old(open) ==> folder == old(folder)[name := Made(old(open)[name].samples, Told(old(open)[name].samples))]
      ensures name !in old(open) ==> folder == old(folder)
    {
      if name in open {
        var w := open[name];
        SameSizeLists(index, folder, name, Made(w.samples, Told(w.samples)));
        folder := folder[name := Made(w.samples, Told(w.samples))];
        open := open - {name};
      }
    }

    /** Drop a call's audio: its file goes, open or not. */
    method Discard(name: Name)
      requires Valid()
      modifies this
      ensures Valid() && on == old(on) && cap == old(cap) && maxAge == old(maxAge) && evicted == old(evicted)
      ensures open == old(open) - {name} && folder == old(folder) - {name}
      ensures var i := Find(old(index), name);
              index == if i < |old(index)| then old(index)[..i] + old(index)[i + 1..] else old(index)
    {
      hide Lists, Written;
      var i := FindEntry(index, name);
      NotListed(index, folder, open, name);
      DropWritten(open, folder, name);
      open := open - {name};
      if i < |index| {
        RemoveLists(index, folder, i);
        BytesAt(index, i, index[i]);
        total := total - (if total < index[i].bytes then total else index[i].bytes);
        index := index[..i] + index[i + 1..];
      }
      folder := folder - {name};
    }

    /** Delete every finished file; how many and how large they were. */
    method RemoveAll() returns (n: nat, bytes: nat)
      requires Valid()
      modifies this`index, this`total, this`folder
      ensures Valid() && index == Open(old(index), open.Keys)
      ensures n == |Finished(old(index), open.Keys)| && bytes == Bytes(Finished(old(index), open.Keys))
      ensures old(total) == total + bytes && folder == old(folder) - Names(Finished(old(index), open.Keys))
    {
      hide Lists, Open, Finished;
      OpenLists(index, folder, open.Keys);
      BytesSplit(index, open.Keys);
      var s, left, gone, b := RemoveFinished(index, open.Keys, total);
      index, total, n, bytes := s, left, |gone|, b;
      folder := folder - Names(gone);
    }

    /** Hand over the names of evicted files, and forget them. */
    method TakeEvicted() returns (names: seq<Name>)
      requires Valid()
      modifies this`evicted
      ensures Valid() && names == old(evicted) && evicted == []
    {
      names, evicted := evicted, [];
    }

    /** A file is served only under a valid name, and only while the folder holds it. */
    method Has(name: Name) returns (b: bool)
      requires Valid()
      ensures b == (ValidName(name) && name in folder)
    {
      var i := FindEntry(index, name);
      b := ValidName(name) && i < |index|;
    }
  }

  method ThreeOpen(a: Name, b: Name, c: Name) returns (s: CallAudioStore)
    requires ValidName(a) && ValidName(b) && ValidName(c) && a != b && b != c && a != c
    ensures fresh(s) && s.Valid() && s.on && s.cap == 400 && s.maxAge == 5000
    ensures s.index == [Entry(a, HEADER, 0), Entry(b, HEADER, 0), Entry(c, HEADER, 0)] && s.open.Keys == {a, b, c}
  {
    hide *;
    s := new CallAudioStore();
    NoneToFind();
    s.Enable(400, 5000, 0, []);
    NothingFound(s);
    var ok := s.OpenFile(a, 0, true);
    NamesOfTwo(s.index, a, b);
    ok := s.OpenFile(b, 0, true);
    NamesOfTwo(s.index, b, c);
    ok := s.OpenFile(c, 0, true);
  }

  /** The third file is finished at once, the first one later and after more samples. */
  method FinishTwo(s: CallAudioStore, a: Name, b: Name, c: Name)
    requires s.Valid() && s.on && s.cap == 400 && s.maxAge == 5000 && a != b && b != c && a != c
    requires s.index == [Entry(a, HEADER, 0), Entry(b, HEADER, 0), Entry(c, HEADER, 0)] && s.open.Keys == {a, b, c}
    modifies s
    ensures s.Valid() && s.on && s.cap == 400 && s.maxAge == 5000 && s.open.Keys == {b}
    ensures s.index == [Entry(a, HEADER + 2 * 100, 9000), Entry(b, HEADER, 0), Entry(c, HEADER, 0)]
  {
    hide *;
    HeaderSize();
    s.Finish(c);
    ThreeEntries(s, Entry(a, HEADER, 0), Entry(b, HEADER, 0), Entry(c, HEADER, 0));
    s.Append(a, 100, 9000);
    s.Finish(a);
  }

  /** A run in which an old file outlives the age limit: of three files written side by side the third is finished at
      once; the first, finished later, is evicted when the second one's samples pass the cap, and the walk rests at
      the second. */
  method AgeLimitMissed() returns (s: CallAudioStore)
    ensures fresh(s) && s.Valid() && s.on && s.maxAge == 5000
    ensures OldLeft(s.index, s.open.Keys, s.maxAge, 10000)
  {
    hide *;
    var a, b, c := "call_1.wav", "call_2.wav", "call_3.wav";
    ThreeNames();
    s := ThreeOpen(a, b, c);
    FinishTwo(s, a, b, c);
    ThreeEntries(s, Entry(a, HEADER + 2 * 100, 9000), Entry(b, HEADER, 0), Entry(c, HEADER, 0));
    s.Append(b, 50, 10000);
    ThirdIsLeft(a, b, c);
  }

  /** A run in which opening a file breaks the accounts: its name is that of a finished file, which the index then lists
      twice. */
  method AccountsBroken() returns (s: CallAudioStore)
    ensures fresh(s) && s.on && !s.Valid()
  {
    hide *;
    var a, b, c := "call_1.wav", "call_2.wav", "call_3.wav";
    ThreeNames();
    s := ThreeOpen(a, b, c);
    FinishTwo(s, a, b, c);
    FirstNamed(s.index);
    var ok := s.OpenFile(a, 9500, true);
  }

  lemma FirstNamed(s: seq<Entry>)
    ensures s != [] ==> s[0].name in Names(s)
  {
  }

  // ---- how the accounts are kept ----

  const AGE := (e: Entry) => e.mtime

  function ListingOf(s: seq<Entry>): (r: map<Name, File>)
    ensures forall n :: n in r ==> r[n].Found?
  {
    if s == [] then map[] else ListingOf(s[1..])[s[0].name := Found(s[0].bytes)]
  }

  lemma {:induction false} InsertLists(e: Entry, s: seq<Entry>, folder: map<Name, File>)
    requires Lists(s, folder) && e.name !in Names(s)
    ensures Lists(InsertFirst(e, s, AGE), folder[e.name := Found(e.bytes)])
    ensures Bytes(InsertFirst(e, s, AGE)) == e.bytes + Bytes(s)
  {
    hide Lists, Names;
    assert ([e] + s)[1..] == s;
    if s == [] || AGE(e) <= AGE(s[0]) {
      FirstLists(e, s, folder);
    } else {
      HeadListed(s, folder);
      TailLists(s, folder);
      NamesHead(s[0], s[1..]);
      assert s == [s[0]] + s[1..];
      InsertLists(e, s[1..], folder - {s[0].name});
      var r := InsertFirst(e, s[1..], AGE);
      assert ([s[0]] + r)[1..] == r;
      var rest := (folder - {s[0].name})[e.name := Found(e.bytes)];
      assert folder[e.name := Found(e.bytes)] == rest[s[0].name := folder[s[0].name]];
      AgainLists(s[0], r, rest, folder[s[0].name]);
    }
  }

  lemma FirstLists(e: Entry, s: seq<Entry>, folder: map<Name, File>)
    requires Lists(s, folder) && e.name !in Names(s)
    ensures Lists([e] + s, folder[e.name := Found(e.bytes)])
  {
    AgainLists(e, s, folder, Found(e.bytes));
  }

  lemma AgainLists(e: Entry, s: seq<Entry>, folder: map<Name, File>, f: File)
    requires Lists(s, folder) && e.name !in folder && e.bytes == Size(f)
    ensures Lists([e] + s, folder[e.name := f])
  {
    NamesHead(e, s);
    var t := [e] + s;
    forall i, j | 0 <= i < j < |t| ensures t[i].name != t[j].name { assert s[j - 1].name in Names(s); }
    forall i | 0 <= i < |t| ensures t[i].bytes == Size(folder[e.name := f][t[i].name]) {
      if i > 0 { assert s[i - 1].name in Names(s); }
    }
  }

  lemma {:induction false} SortLists(s: seq<Entry>)
    requires DistinctNames(s)
    ensures Lists(Sort(s, AGE), ListingOf(s)) && Bytes(Sort(s, AGE)) == Bytes(s) && ListingOf(s).Keys == Names(s)
  {
    if s != [] {
      SortLists(s[1..]);
      NamesHead(s[0], s[1..]);
      assert s == [s[0]] + s[1..];
      assert s[0].name !in Names(s[1..]);
      InsertLists(s[0], Sort(s[1..], AGE), ListingOf(s[1..]));
    }
  }

  lemma NoneOpen(folder: map<Name, File>)
    requires forall n :: n in folder ==> folder[n].Found?
    ensures Written(map[], folder)
  {
  }

  lemma OneEntry(e: Entry)
    ensures Bytes([e]) == e.bytes
  {
    assert [e][1..] == [];
  }

  /** The folder once every file being written is closed. */
  ghost function Closed(folder: map<Name, File>, open: map<Name, Writer>): (r: map<Name, File>)
    requires Written(open, folder)
    ensures r.Keys == folder.Keys && forall n :: n in folder ==> Size(r[n]) == Size(folder[n])
  {
    map n | n in folder :: if n in open then Made(open[n].samples, Told(open[n].samples)) else folder[n]
  }

  lemma CloseLists(s: seq<Entry>, folder: map<Name, File>, open: map<Name, Writer>)
    requires Lists(s, folder) && Written(open, folder)
    ensures Lists(s, Closed(folder, open)) && Written(map[], Closed(folder, open))
  {
    forall i | 0 <= i < |s| ensures s[i].bytes == Size(Closed(folder, open)[s[i].name]) { assert s[i].name in Names(s); }
  }

  lemma SameSizeLists(s: seq<Entry>, folder: map<Name, File>, name: Name, f: File)
    requires Lists(s, folder) && name in folder && Size(f) == Size(folder[name])
    ensures Lists(s, folder[name := f])
  {
  }

  /** A file being written is in the index. */
  lemma OpenIsListed(s: seq<Entry>, folder: map<Name, File>, open: map<Name, Writer>, name: Name)
    requires Lists(s, folder) && Written(open, folder) && name in open
    ensures Find(s, name) < |s| && s[Find(s, name)].bytes == HEADER + 2 * open[name].samples
  {
    assert name in Names(s);
    var i :| 0 <= i < |s| && s[i].name == name;
  }

  /** The writer after n more samples; once a second the header is brought up to date. */
  function Grown(w: Writer, n: nat, now: int): (g: Writer)
    ensures g.samples == w.samples + n
  {
    Writer(w.samples + n, if now - w.patched >= PATCH_MS then now else w.patched)
  }

  ghost function GrownFile(f: File, w: Writer, n: nat, now: int): File
    requires f.Made?
  {
    Made(w.samples + n, if now - w.patched >= PATCH_MS then Told(w.samples + n) else f.told)
  }

  lemma GrowAccounts(s: seq<Entry>, folder: map<Name, File>, open: map<Name, Writer>, name: Name, n: nat, now: int)
    requires Lists(s, folder) && Written(open, folder) && name in open
    ensures name in folder && folder[name].Made? && Find(s, name) < |s|
    ensures var i, f := Find(s, name), folder[name := GrownFile(folder[name], open[name], n, now)];
            && Lists(s[i := Entry(name, s[i].bytes + 2 * n, now)], f) && Written(open[name := Grown(open[name], n, now)], f)
            && Bytes(s[i := Entry(name, s[i].bytes + 2 * n, now)]) == Bytes(s) + 2 * n
  {
    hide Lists, Written, Bytes, Find;
    OpenIsListed(s, folder, open, name);
    GrowWritten(folder, open, name, n, now);
    var i := Find(s, name);
    var e := Entry(name, s[i].bytes + 2 * n, now);
    BytesAt(s, i, e);
    GrowLists(s, folder, i, e, GrownFile(folder[name], open[name], n, now));
  }

  lemma Unmoved(was: map<Name, File>, folder: map<Name, File>, told: seq<Name>)
    requires was.Keys == folder.Keys
    ensures Accounted(was, folder, told, told)
  {
    assert forall n :: n in folder.Keys <==> n in was.Keys;
  }

  lemma WrittenThere(open: map<Name, Writer>, folder: map<Name, File>, name: Name)
    requires Written(open, folder) && name in open
    ensures name in folder
  {
  }

  lemma GrowWritten(folder: map<Name, File>, open: map<Name, Writer>, name: Name, n: nat, now: int)
    requires Written(open, folder) && name in open
    ensures name in folder && folder[name].Made? && folder[name].samples == open[name].samples
    ensures Written(open[name := Grown(open[name], n, now)], folder[name := GrownFile(folder[name], open[name], n, now)])
  {
  }

  lemma DropWritten(open: map<Name, Writer>, folder: map<Name, File>, name: Name)
    requires Written(open, folder)
    ensures Written(open - {name}, folder - {name})
    ensures name !in folder ==> folder - {name} == folder
  {
  }

  lemma NotListed(s: seq<Entry>, folder: map<Name, File>, open: map<Name, Writer>, name: Name)
    requires Lists(s, folder) && Written(open, folder)
    ensures Find(s, name) == |s| ==> name !in folder && name !in open
  {
    if name in Names(s) { var i :| 0 <= i < |s| && s[i].name == name; }
  }

  lemma ThreeNames()
    ensures ValidName("call_1.wav") && ValidName("call_2.wav") && ValidName("call_3.wav")
  {
    hide ValidName;
    DigitName("call_1.wav");
    DigitName("call_2.wav");
    DigitName("call_3.wav");
  }

  lemma DigitName(n: Name)
    requires |n| == 10 && n[..5] == "call_" && '0' <= n[5] <= '9' && n[6..] == ".wav"
    ensures ValidName(n)
  {
    assert n[0] == n[..5][0] && n[1] == n[..5][1] && n[2] == n[..5][2] && n[3] == n[..5][3] && n[4] == n[..5][4];
    assert n[6] == n[6..][0] && n[7] == n[6..][1] && n[8] == n[6..][2] && n[9] == n[6..][3];
  }

  lemma HeaderSize()
    ensures HEADER == 44
  {
  }

  lemma NoneToFind()
    ensures DistinctNames([])
  {
  }

  lemma NothingFound(s: CallAudioStore)
    requires s.Valid() && s.index == Enforce(Sort([], AGE), {}, Bytes([]), s.cap, s.maxAge, 0).kept
    ensures s.index == [] && Names(s.index) == {}
  {
  }

  lemma NamesOfTwo(s: seq<Entry>, a: Name, b: Name)
    requires (s == [Entry(a, HEADER, 0)] || (|s| == 2 && s[0].name != b && s[1].name == a)) && a != b
    ensures b !in Names(s)
  {
  }

  lemma ThreeEntries(s: CallAudioStore, x: Entry, y: Entry, z: Entry)
    requires s.Valid() && s.index == [x, y, z]
    requires x.name != y.name
    ensures s.total == x.bytes + y.bytes + z.bytes && Find(s.index, x.name) == 0 && Find(s.index, y.name) == 1
    ensures forall n: nat, now :: GrownIndex(s.index, x.name, n, now) == [Entry(x.name, x.bytes + 2 * n, now), y, z]
    ensures forall n: nat, now :: GrownIndex(s.index, y.name, n, now) == [x, Entry(y.name, y.bytes + 2 * n, now), z]
  {
    hide Lists, Written, Find, Bytes;
    BytesOfThree(x, y, z);
    FoundOfThree(x, y, z);
    var i := s.index;
    forall n: nat, now ensures GrownIndex(i, x.name, n, now) == [Entry(x.name, x.bytes + 2 * n, now), y, z] { }
    forall n: nat, now ensures GrownIndex(i, y.name, n, now) == [x, Entry(y.name, y.bytes + 2 * n, now), z] { }
  }

  lemma BytesOfThree(x: Entry, y: Entry, z: Entry)
    ensures Bytes([x, y, z]) == x.bytes + y.bytes + z.bytes
  {
    hide Bytes;
    BytesAppend([x], [y] + [z]);
    BytesAppend([y], [z]);
    OneEntry(x);
    OneEntry(y);
    OneEntry(z);
    assert [x] + ([y] + [z]) == [x, y, z];
  }

  lemma FoundOfThree(x: Entry, y: Entry, z: Entry)
    requires x.name != y.name
    ensures Find([x, y, z], x.name) == 0 && Find([x, y, z], y.name) == 1
  {
    hide Find;
    assert [x, y, z][0] == x && [x, y, z][1] == y;
    assert Find([x, y, z], x.name) < 1 && Find([x, y, z], y.name) < 2;
  }

  lemma ThirdIsLeft(a: Name, b: Name, c: Name)
    requires a != b && b != c && a != c
    ensures var s := [Entry(a, HEADER + 2 * 100, 9000), Entry(b, HEADER + 2 * 50, 10000), Entry(c, HEADER, 0)];
            Overlooked(s, {b}, 3 * HEADER + 2 * 100 + 2 * 50, 400, 5000, 10000)
  {
    var s := [Entry(a, HEADER + 2 * 100, 9000), Entry(b, HEADER + 2 * 50, 10000), Entry(c, HEADER, 0)];
    assert s[1..] == [s[1], s[2]] && s[..1] == [s[0]] && s[..1][1..] == [];
    assert Bytes(Finished(s[..1], {b})) == 244;
    assert Rests(s, 1, {b}, 3 * HEADER + 2 * 100 + 2 * 50, 400, 5000, 10000);
    assert TooOld(s[2], 5000, 10000) && s[2].name !in {b};
    assert Shielded(s, {b}, 3 * HEADER + 2 * 100 + 2 * 50, 400, 5000, 10000);
  }
}
