/** The counters of a merge of exports, once its call lists are bounded: no count is lost, and those of the calls that
    are dropped join the counts beyond the list. */
module ExportCounts {
  import opened Counters
  import opened Datasets
  import opened MergeInto
  import opened DatasetMerges
  import opened CallLists
  import opened Provenance
  import opened StableSorts

  lemma {:induction false} InsertShares(x: DsCall, s: seq<DsCall>, key: DsCall -> int, q: Counter)
    ensures Shares(InsertFirst(x, s, key), q) == Share(q, x) + Shares(s, q)
  {
    hide Share;
    if s == [] || key(x) <= key(s[0]) {
      assert ([x] + s)[1..] == s;
    } else {
      InsertShares(x, s[1..], key, q);
      var r := InsertFirst(x, s[1..], key);
      assert ([s[0]] + r)[1..] == r;
    }
  }

  lemma {:induction false} SortShares(s: seq<DsCall>, key: DsCall -> int, q: Counter)
    ensures Shares(Sort(s, key), q) == Shares(s, q)
  {
    hide Share;
    if s != [] {
      SortShares(s[1..], key, q);
      InsertShares(s[0], Sort(s[1..], key), key, q);
    }
  }

  /** The silent calls past the first `cap`. */
  function PastCap(s: seq<DsCall>, cap: nat): seq<DsCall> {
    SilentCalls(s)[Min(cap, |SilentCalls(s)|)..]
  }

  lemma {:induction false} CapShares(s: seq<DsCall>, cap: nat, q: Counter)
    ensures Shares(Capped(s, cap), q) + Shares(PastCap(s, cap), q) == Shares(s, q)
  {
    hide Share;
    if s != [] {
      var fewer := if Silent(s[0]) && cap > 0 then cap - 1 else cap;
      CapShares(s[1..], fewer, q);
      var kept := Capped(s[1..], fewer);
      assert ([s[0]] + kept)[1..] == kept;
      if Silent(s[0]) {
        var silent := SilentCalls(s[1..]);
        assert SilentCalls(s) == [s[0]] + silent;
        if cap > 0 {
          assert PastCap(s, cap) == PastCap(s[1..], fewer);
        } else {
          assert PastCap(s, 0) == [s[0]] + PastCap(s[1..], 0);
          assert PastCap(s, 0)[1..] == PastCap(s[1..], 0);
        }
      }
    }
  }

  lemma {:induction false} NumberShares(s: seq<DsCall>, t: seq<DsCall>, q: Counter)
    requires |s| == |t| && forall i :: 0 <= i < |s| ==> t[i] == s[i].(id := t[i].id)
    ensures Shares(t, q) == Shares(s, q)
  {
    if s != [] {
      forall i | 0 <= i < |s[1..]| ensures t[1..][i] == s[1..][i].(id := t[1..][i].id) {
        assert t[i + 1] == s[i + 1].(id := t[i + 1].id);
      }
      NumberShares(s[1..], t[1..], q);
    }
  }

  /** The calls the bound drops from a family's list. */
  function Dropped(d: Dataset, f: Id, cap: nat): seq<DsCall> {
    PastCap(Sort(FamilyIn(d.fams, f).calls, NEWEST_FIRST), cap)
  }

  /** Bounding the list leaves every counter alone: what it holds beyond the listed calls grows by the dropped ones. */
  lemma BoundBeyond(d: Dataset, f: Id, renumber: bool, cap: nat, q: Counter)
    ensures Beyond(Finalized(d, renumber, cap), f, q) == Beyond(d, f, q) + Shares(Dropped(d, f, cap), q)
  {
    hide Sort, Capped, Share, Shares, PastCap, Value;
    var F := FamilyIn(d.fams, f);
    var sorted := Sort(F.calls, NEWEST_FIRST);
    var kept := Capped(sorted, cap);
    SortShares(F.calls, NEWEST_FIRST, q);
    CapShares(sorted, cap, q);
    if renumber { NumberShares(kept, Numbered(kept), q); }
    CallsDoNotCount(F, Finished(F.calls, renumber, cap), q);
    if f !in d.fams {
      NoneDropped(cap, q);
    }
  }

  lemma NoneDropped(cap: nat, q: Counter)
    ensures Shares(PastCap(Sort([], NEWEST_FIRST), cap), q) == 0
  {
  }

  /** The result of merging files whose counters cover the calls they list: each counter holds, beyond the calls the
      result lists, what the merged layers hold beyond theirs and the calls the bound drops. */
  lemma ExportsConserve(files: seq<File>, cap: nat, f: Id, q: Counter)
    requires forall x :: x in files && x.Readable? ==> Beyond(x.data, f, q) >= 0
    ensures var layers := TakeAll(files).layers;
            var merged := MergedLayers(layers);
            Beyond(Finalized(merged, true, cap), f, q) == BeyondSum(layers, f, q) + Shares(Dropped(merged, f, cap), q)
  {
    hide Beyond, Finalized, MergedLayers, TakeAll, Dropped, Shares;
    LayersOfFiles(files);
    var layers := TakeAll(files).layers;
    LayersConserve(layers, f, q);
    BoundBeyond(MergedLayers(layers), f, true, cap, q);
  }
}
