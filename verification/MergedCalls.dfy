/** Which calls a merge takes for one, told by the calls' own fields: a call of the second data set goes to the first
    listed call of the first one that is alike and not more than four seconds away, and otherwise stays a call of its
    own. */
module MergedCalls {
  import opened Basics
  import opened NetMerges
  import opened Datasets
  import opened MergeInto

  /** Same talker and target, same kind, and networks that are shown as one. */
  predicate Alike(R: Rules, a: DsCall, b: DsCall) {
    a.src == b.src && a.tgt == b.tgt && a.priv == b.priv && Root(R, a.net) == Root(R, b.net)
  }

  /** A call's time span, and on how many streams it was heard. */
  datatype Span = Span(start: int, last: int, streams: nat)

  function SpanOf(c: DsCall): Span {
    Span(c.start, c.last, c.streams)
  }

  function Hull(s: Span, c: DsCall): Span {
    Span(if c.start < s.start then c.start else s.start, if c.last > s.last then c.last else s.last, s.streams + c.streams)
  }

  /** No more than four seconds lie between the spans. */
  predicate Near(s: Span, c: DsCall) {
    c.start - s.last <= 4000 && s.start - c.last <= 4000
  }

  /** The span of a listed call together with the joining calls that went to place i. */
  function Grown(s: Span, joining: seq<DsCall>, home: seq<nat>, i: nat): Span
    requires |home| == |joining|
  {
    if home == [] then s
    else
      var k := |home| - 1;
      var g := Grown(s, joining[..k], home[..k], i);
      if home[k] == i then Hull(g, joining[k]) else g
  }

  /** Who, whom and where are known. */
  predicate Whole(c: DsCall) {
    c.src != "" && c.tgt != "" && c.net != ""
  }

  /** Call c can join listed call i, given where those before it went. */
  predicate Fits(R: Rules, listed: seq<DsCall>, joining: seq<DsCall>, home: seq<nat>, c: DsCall, i: nat)
    requires |home| == |joining| && i < |listed|
  {
    Whole(c) && Alike(R, listed[i], c) && Near(Grown(SpanOf(listed[i]), joining, home, i), c)
  }

  /** How many of the calls stayed calls of their own. */
  function Newcomers(home: seq<nat>, n: nat): nat {
    if home == [] then 0 else Newcomers(home[..|home| - 1], n) + if home[|home| - 1] < n then 0 else 1
  }

  /** Place p is right for call c: the first listed call it can join, or else the end of the list. */
  ghost predicate Belongs(R: Rules, listed: seq<DsCall>, joining: seq<DsCall>, home: seq<nat>, c: DsCall, p: nat)
    requires |home| == |joining|
  {
    if p < |listed| then
      Fits(R, listed, joining, home, c, p) && forall i :: 0 <= i < p ==> !Fits(R, listed, joining, home, c, i)
    else
      p == |listed| + Newcomers(home, |listed|) && forall i :: 0 <= i < |listed| ==> !Fits(R, listed, joining, home, c, i)
  }

  ghost predicate Placed(R: Rules, listed: seq<DsCall>, joining: seq<DsCall>, home: seq<nat>) {
    && |home| == |joining|
    && forall k :: 0 <= k < |home| ==> Belongs(R, listed, joining[..k], home[..k], joining[k], home[k])
  }

  /** The call keeps who, whom and where. */
  predicate SameEnds(a: DsCall, b: DsCall) {
    a.src == b.src && a.tgt == b.tgt && a.priv == b.priv && a.net == b.net
  }

  /** The yes-or-no facts of a call, and the facts it may not know. */
  datatype Flag = Voice | Data | Emergency | Encrypted

  datatype Text = Key | Alias | Slot | Site | Position | Recording

  predicate Has(c: DsCall, f: Flag) {
    match f case Voice => c.voice case Data => c.data case Emergency => c.emerg case Encrypted => c.enc
  }

  function Known(c: DsCall, f: Text): string {
    match f
    case Key => c.kid
    case Alias => c.alias
    case Slot => c.slot
    case Site => c.site
    case Position => c.pos
    case Recording => c.audio
  }

  /** What a known fact brings along: a key its algorithm, a recording its length. */
  function Along(c: DsCall, f: Text): (string, nat) {
    if f == Key then (c.alg, 0) else if f == Recording then ("", c.audioMs) else ("", 0)
  }

  /** The call that first knew the fact: the listed one, or the first to join it that did. */
  function Teller(o: DsCall, joining: seq<DsCall>, home: seq<nat>, i: nat, f: Text): DsCall
    requires |home| == |joining|
  {
    if home == [] then o
    else
      var k := |home| - 1;
      var t := Teller(o, joining[..k], home[..k], i, f);
      if home[k] == i && Known(t, f) == "" then joining[k] else t
  }

  /** Nothing a call told is lost: a fact holds if it held of one of the joined calls, and is known as the first of them
      that knew it told it; of the kinds of service the most telling is kept. */
  ghost predicate Informed(c: DsCall, o: DsCall, joining: seq<DsCall>, home: seq<nat>, i: nat)
    requires |home| == |joining|
  {
    && (forall f :: Has(c, f) <==> Has(o, f) || exists k :: 0 <= k < |home| && home[k] == i && Has(joining[k], f))
    && (forall f :: var t := Teller(o, joining, home, i, f); Known(c, f) == Known(t, f) && Along(c, f) == Along(t, f))
    && ServiceRank(c.svc) >= ServiceRank(o.svc)
    && (forall k :: 0 <= k < |home| && home[k] == i ==> ServiceRank(c.svc) >= ServiceRank(joining[k].svc))
    && (c.svc == o.svc || exists k :: 0 <= k < |home| && home[k] == i && c.svc == joining[k].svc)
  }

  /** A merged list: the listed calls in place, each grown by the calls that joined it, then the newcomers unchanged. */
  ghost predicate Composed(calls: seq<DsCall>, listed: seq<DsCall>, joining: seq<DsCall>, home: seq<nat>) {
    && |home| == |joining| && |calls| == |listed| + Newcomers(home, |listed|)
    && (forall i :: 0 <= i < |listed| ==>
          && SameEnds(calls[i], listed[i]) && SpanOf(calls[i]) == Grown(SpanOf(listed[i]), joining, home, i)
          && Informed(calls[i], listed[i], joining, home, i))
    && (forall k :: 0 <= k < |home| && home[k] >= |listed| ==> home[k] < |calls| && calls[home[k]] == joining[k])
  }

  // ---- the merge places every call ----

  lemma {:induction false} TakeCallsGrow(R: Rules, T: DsFamily, n: nat, s: seq<DsCall>)
    requires n <= |T.calls|
    ensures n <= |TakeCalls(R, T, n, s).calls|
    decreases |s|
  {
    hide TakeCall;
    if s != [] { TakeCallsGrow(R, TakeCall(R, T, n, s[0]), n, s[1..]); }
  }

  lemma {:induction false} TakeCallsSnoc(R: Rules, T: DsFamily, n: nat, s: seq<DsCall>, c: DsCall)
    requires n <= |T.calls|
    ensures n <= |TakeCalls(R, T, n, s).calls|
    ensures TakeCalls(R, T, n, s + [c]) == TakeCall(R, TakeCalls(R, T, n, s), n, c)
    decreases |s|
  {
    hide TakeCall;
    TakeCallsGrow(R, T, n, s);
    if s == [] {
      assert [] + [c] == [c] && [c][1..] == [];
      assert TakeCalls(R, TakeCall(R, T, n, c), n, []) == TakeCall(R, T, n, c);
    } else {
      assert (s + [c])[0] == s[0] && (s + [c])[1..] == s[1..] + [c];
      TakeCallsSnoc(R, TakeCall(R, T, n, s[0]), n, s[1..], c);
    }
  }

  lemma TwinIffFits(R: Rules, o: DsCall, c: DsCall)
    requires Twinnable(c)
    ensures IsTwin(R, o, c) <==> Alike(R, o, c) && Near(SpanOf(o), c)
  {
  }

  lemma FoldedCall(t: DsCall, d: DsCall)
    ensures SameEnds(FoldCall(t, d), t) && SpanOf(FoldCall(t, d)) == Hull(SpanOf(t), d)
  {
  }

  /** What one joining call does to the list, in these terms. */
  lemma OneJoins(R: Rules, U: DsFamily, n: nat, c: DsCall) returns (p: nat)
    requires n <= |U.calls|
    ensures var calls := TakeCall(R, U, n, c).calls;
            if p < n then
              && Twinnable(c) && Alike(R, U.calls[p], c) && Near(SpanOf(U.calls[p]), c)
              && (forall i :: 0 <= i < p ==> !(Alike(R, U.calls[i], c) && Near(SpanOf(U.calls[i]), c)))
              && |calls| == |U.calls| && (forall i :: 0 <= i < |calls| && i != p ==> calls[i] == U.calls[i])
              && calls[p] == FoldCall(U.calls[p], c)
            else
              && p == |U.calls| && calls == U.calls + [c]
              && forall i :: 0 <= i < n ==> !(Twinnable(c) && Alike(R, U.calls[i], c) && Near(SpanOf(U.calls[i]), c))
  {
    hide IsTwin, FoldCall, Alike, Near, Uncount;
    p := if Twinnable(c) then FindTwin(R, U.calls[..n], c, 0) else n;
    if Twinnable(c) {
      forall i | 0 <= i < n ensures IsTwin(R, U.calls[i], c) <==> Alike(R, U.calls[i], c) && Near(SpanOf(U.calls[i]), c) {
        TwinIffFits(R, U.calls[i], c);
      }
      assert forall i :: 0 <= i < n ==> U.calls[..n][i] == U.calls[i];
    }
    if p >= n { p := |U.calls|; }
  }

  lemma AlikeByEnds(R: Rules, a: DsCall, b: DsCall, c: DsCall)
    requires SameEnds(a, b)
    ensures Alike(R, a, c) <==> Alike(R, b, c)
  {
  }

  /** So the list after one more call is composed of one more. */
  lemma ComposedOneMore(R: Rules, calls: seq<DsCall>, calls': seq<DsCall>, listed: seq<DsCall>, joining: seq<DsCall>,
                        home: seq<nat>, c: DsCall, p: nat)
    requires Composed(calls, listed, joining, home)
    requires if p < |listed| then
               && |calls'| == |calls| && (forall i :: 0 <= i < |calls| && i != p ==> calls'[i] == calls[i])
               && calls'[p] == FoldCall(calls[p], c)
             else p == |calls| && calls' == calls + [c]
    ensures Composed(calls', listed, joining + [c], home + [p])
  {
    hide SameEnds, Hull, SpanOf, FoldCall, Informed;
    var js, hs := joining + [c], home + [p];
    assert js[..|home|] == joining && hs[..|home|] == home;
    forall i | 0 <= i < |listed|
      ensures SameEnds(calls'[i], listed[i]) && SpanOf(calls'[i]) == Grown(SpanOf(listed[i]), js, hs, i)
      ensures Informed(calls'[i], listed[i], js, hs, i)
    {
      GrownOneMore(SpanOf(listed[i]), joining, home, c, p, i);
      if i == p {
        FoldedCall(calls[i], c);
        SameEndsOn(calls'[i], calls[i], listed[i]);
      }
      InformedOneMore(calls[i], listed[i], joining, home, c, p, i);
    }
  }

  lemma InformedOneMore(o: DsCall, o0: DsCall, joining: seq<DsCall>, home: seq<nat>, c: DsCall, p: nat, i: nat)
    requires |home| == |joining| && Informed(o, o0, joining, home, i)
    ensures Informed(if p == i then FoldCall(o, c) else o, o0, joining + [c], home + [p], i)
  {
    hide FoldCall, Has, Known, Along, ServiceRank;
    var js, hs, m := joining + [c], home + [p], |home|;
    var o' := if p == i then FoldCall(o, c) else o;
    assert js[..m] == joining && hs[..m] == home && js[m] == c && hs[m] == p;
    assert forall k :: 0 <= k < m ==> js[k] == joining[k] && hs[k] == home[k];
    FoldTells(o, c);
    forall f ensures Has(o', f) <==> Has(o0, f) || exists k :: 0 <= k < |hs| && hs[k] == i && Has(js[k], f) {
      if k :| 0 <= k < m && home[k] == i && Has(joining[k], f) { assert hs[k] == i && Has(js[k], f); }
      if p == i && Has(c, f) { assert hs[m] == i && Has(js[m], f); }
    }
    if o'.svc == o.svc && o.svc != o0.svc {
      var k :| 0 <= k < m && home[k] == i && o.svc == joining[k].svc;
      assert hs[k] == i && o'.svc == js[k].svc;
    } else if o'.svc != o.svc {
      assert hs[m] == i && o'.svc == js[m].svc;
    }
  }

  /** What a fold leaves the twin knowing. */
  lemma FoldTells(o: DsCall, c: DsCall)
    ensures var t := FoldCall(o, c);
            && (forall f :: Has(t, f) <==> Has(o, f) || Has(c, f))
            && (forall f :: Known(t, f) == (if Known(o, f) == "" then Known(c, f) else Known(o, f))
                            && Along(t, f) == (if Known(o, f) == "" then Along(c, f) else Along(o, f)))
            && ServiceRank(t.svc) >= ServiceRank(o.svc) && ServiceRank(t.svc) >= ServiceRank(c.svc)
            && (t.svc == o.svc || t.svc == c.svc)
  {
    hide ServiceRank;
  }

  lemma SameEndsOn(a: DsCall, b: DsCall, c: DsCall)
    requires SameEnds(a, b) && SameEnds(b, c)
    ensures SameEnds(a, c)
  {
  }

  lemma GrownOneMore(s: Span, joining: seq<DsCall>, home: seq<nat>, c: DsCall, p: nat, i: nat)
    requires |home| == |joining|
    ensures Grown(s, joining + [c], home + [p], i) ==
            if p == i then Hull(Grown(s, joining, home, i), c) else Grown(s, joining, home, i)
  {
    assert (joining + [c])[..|home|] == joining && (home + [p])[..|home|] == home;
  }

  lemma PlacedOneMore(R: Rules, listed: seq<DsCall>, joining: seq<DsCall>, home: seq<nat>, c: DsCall, p: nat)
    requires Placed(R, listed, joining, home) && Belongs(R, listed, joining, home, c, p)
    ensures Placed(R, listed, joining + [c], home + [p])
  {
    hide Belongs;
    var js, hs := joining + [c], home + [p];
    forall k | 0 <= k < |hs| ensures Belongs(R, listed, js[..k], hs[..k], js[k], hs[k]) {
      if k < |home| {
        assert js[..k] == joining[..k] && hs[..k] == home[..k];
      } else {
        assert js[..k] == joining && hs[..k] == home;
      }
    }
  }

  lemma BelongsThere(R: Rules, calls: seq<DsCall>, listed: seq<DsCall>, joining: seq<DsCall>, home: seq<nat>, c: DsCall, p: nat)
    requires Composed(calls, listed, joining, home)
    requires if p < |listed| then
               && Twinnable(c) && Alike(R, calls[p], c) && Near(SpanOf(calls[p]), c)
               && forall i :: 0 <= i < p ==> !(Alike(R, calls[i], c) && Near(SpanOf(calls[i]), c))
             else
               && p == |calls|
               && forall i :: 0 <= i < |listed| ==> !(Twinnable(c) && Alike(R, calls[i], c) && Near(SpanOf(calls[i]), c))
    ensures Belongs(R, listed, joining, home, c, p)
  {
    hide Alike, Near, SameEnds, SpanOf, Grown, Newcomers;
    forall i | 0 <= i < |listed| ensures Alike(R, calls[i], c) <==> Alike(R, listed[i], c) {
      AlikeByEnds(R, calls[i], listed[i], c);
    }
  }

  lemma {:induction false} TakeCallsPlace(R: Rules, T: DsFamily, s: seq<DsCall>) returns (home: seq<nat>)
    ensures Placed(R, T.calls, s, home) && Composed(TakeCalls(R, T, |T.calls|, s).calls, T.calls, s, home)
    decreases |s|
  {
    hide TakeCall, TakeCalls, Belongs, Composed, Placed;
    var n := |T.calls|;
    if s == [] {
      home := [];
      NothingJoined(R, T);
    } else {
      var before, c := s[..|s| - 1], s[|s| - 1];
      assert before + [c] == s;
      var h := TakeCallsPlace(R, T, before);
      TakeCallsSnoc(R, T, n, before, c);
      var U := TakeCalls(R, T, n, before);
      var p := OneJoins(R, U, n, c);
      BelongsThere(R, U.calls, T.calls, before, h, c, p);
      PlacedOneMore(R, T.calls, before, h, c, p);
      ComposedOneMore(R, U.calls, TakeCall(R, U, n, c).calls, T.calls, before, h, c, p);
      home := h + [p];
    }
  }

  lemma NothingJoined(R: Rules, T: DsFamily)
    ensures Placed(R, T.calls, [], []) && Composed(TakeCalls(R, T, |T.calls|, []).calls, T.calls, [], [])
  {
  }

  /** The calls of a merged family: every joining call is in its right place, and the list is made of nothing else. */
  lemma MergePlaces(R: Rules, T: DsFamily, F: DsFamily) returns (home: seq<nat>)
    ensures Placed(R, T.calls, F.calls, home) && Composed(MergeFamily(R, T, F).calls, T.calls, F.calls, home)
  {
    hide TakeCalls, Placed, Composed, AddEntities;
    home := TakeCallsPlace(R, AddEntities(T, F), F.calls);
  }

  // ---- what follows for single calls ----

  predicate Within(c: DsCall, o: DsCall) {
    o.start <= c.start && c.last <= o.last
  }

  lemma {:induction false} GrownHolds(s: Span, joining: seq<DsCall>, home: seq<nat>, i: nat, k: nat)
    requires |home| == |joining|
    ensures var g := Grown(s, joining, home, i);
            && g.start <= s.start && s.last <= g.last
            && (k < |home| && home[k] == i ==> g.start <= joining[k].start && joining[k].last <= g.last)
  {
    if home != [] {
      var m := |home| - 1;
      GrownHolds(s, joining[..m], home[..m], i, k);
    }
  }

  lemma PlaceInRange(R: Rules, listed: seq<DsCall>, joining: seq<DsCall>, home: seq<nat>, k: nat)
    requires Placed(R, listed, joining, home) && k < |home|
    ensures home[k] < |listed| ==> Alike(R, listed[home[k]], joining[k])
  {
    hide Alike, Near, Grown;
    assert Belongs(R, listed, joining[..k], home[..k], joining[k], home[k]);
  }

  /** No call is lost: each call of either input is within a call of the result between the same parties. */
  lemma EveryCallListed(R: Rules, T: DsFamily, F: DsFamily, c: DsCall)
    requires c in T.calls || c in F.calls
    ensures exists o :: o in MergeFamily(R, T, F).calls && Alike(R, o, c) && Within(c, o)
  {
    hide MergeFamily, Placed, Alike;
    var home := MergePlaces(R, T, F);
    var calls := MergeFamily(R, T, F).calls;
    var i;
    if c in T.calls {
      i :| 0 <= i < |T.calls| && T.calls[i] == c;
      GrownHolds(SpanOf(c), F.calls, home, i, 0);
      AlikeByEnds(R, calls[i], c, c);
      AlikeSelf(R, c);
    } else {
      var k :| 0 <= k < |F.calls| && F.calls[k] == c;
      i := home[k];
      AlikeSelf(R, c);
      if i < |T.calls| {
        PlaceInRange(R, T.calls, F.calls, home, k);
        GrownHolds(SpanOf(T.calls[i]), F.calls, home, i, k);
        AlikeByEnds(R, calls[i], T.calls[i], c);
      }
    }
    assert calls[i] in calls;
    SpanWithin(c, calls[i]);
  }

  lemma AlikeSelf(R: Rules, c: DsCall)
    ensures Alike(R, c, c)
  {
  }

  lemma SpanWithin(c: DsCall, o: DsCall)
    requires SpanOf(o).start <= c.start && c.last <= SpanOf(o).last
    ensures Within(c, o)
  {
  }

  /** Two calls alike, one in each input, with no other like them: if more than four seconds apart both are listed as
      they were, and otherwise one call spans both. */
  lemma PairMerged(R: Rules, T: DsFamily, F: DsFamily, i: nat, k: nat)
    requires i < |T.calls| && k < |F.calls| && Whole(F.calls[k]) && Alike(R, T.calls[i], F.calls[k])
    requires forall j :: 0 <= j < |T.calls| && j != i ==> !Alike(R, T.calls[j], F.calls[k])
    requires forall j :: 0 <= j < |F.calls| && j != k ==> !Alike(R, F.calls[j], F.calls[k])
    ensures var a, b, calls := T.calls[i], F.calls[k], MergeFamily(R, T, F).calls;
            && i < |calls| && SameEnds(calls[i], a)
            && if b.start - a.last > 4000 || a.start - b.last > 4000 then
                 && SpanOf(calls[i]) == SpanOf(a)
                 && exists j :: i < j < |calls| && calls[j] == b
                                && forall m :: 0 <= m < |calls| && m != i && m != j ==> !Alike(R, calls[m], b)
               else
                 && calls[i].start == (if a.start < b.start then a.start else b.start)
                 && calls[i].last == (if a.last > b.last then a.last else b.last)
                 && calls[i].streams == a.streams + b.streams
                 && forall m :: 0 <= m < |calls| && m != i ==> !Alike(R, calls[m], b)
  {
    hide MergeFamily, Alike, Newcomers;
    var home := MergePlaces(R, T, F);
    var calls, b := MergeFamily(R, T, F).calls, F.calls[k];
    OnlyOneJoins(R, T.calls, F.calls, home, i, k);
    JoinsIfNear(R, T.calls, F.calls, home, i, k);
    GrownByOne(SpanOf(T.calls[i]), F.calls, home, i, k);
    OthersUnlike(R, calls, T.calls, F.calls, home, i, k);
    hide Placed, Grown, SameEnds;
    if home[k] != i { assert calls[home[k]] == b; }
  }

  /** The one call that can joins exactly if it is near. */
  lemma JoinsIfNear(R: Rules, listed: seq<DsCall>, joining: seq<DsCall>, home: seq<nat>, i: nat, k: nat)
    requires Placed(R, listed, joining, home) && i < |listed| && k < |joining|
    requires Whole(joining[k]) && Alike(R, listed[i], joining[k])
    requires forall j :: 0 <= j < |home| && j != k ==> home[j] != i
    requires home[k] == i || home[k] >= |listed|
    ensures home[k] == i <==> Near(SpanOf(listed[i]), joining[k])
  {
    hide Alike, Newcomers, Near, Grown;
    assert Belongs(R, listed, joining[..k], home[..k], joining[k], home[k]);
    GrownByNone(SpanOf(listed[i]), joining[..k], home[..k], i);
    assert Fits(R, listed, joining[..k], home[..k], joining[k], i) <==> Near(SpanOf(listed[i]), joining[k]);
  }

  /** No other call goes to place i. */
  lemma OnlyOneJoins(R: Rules, listed: seq<DsCall>, joining: seq<DsCall>, home: seq<nat>, i: nat, k: nat)
    requires Placed(R, listed, joining, home) && i < |listed| && k < |joining| && Alike(R, listed[i], joining[k])
    requires forall j :: 0 <= j < |joining| && j != k ==> !Alike(R, joining[j], joining[k])
    requires forall j :: 0 <= j < |listed| && j != i ==> !Alike(R, listed[j], joining[k])
    ensures forall j :: 0 <= j < |home| && j != k ==> home[j] != i
    ensures home[k] == i || home[k] >= |listed|
  {
    hide Belongs, Alike;
    forall j | 0 <= j < |home| ensures j != k ==> home[j] != i {
      PlaceInRange(R, listed, joining, home, j);
      if home[j] == i { AlikeBoth(R, listed[i], joining[j], joining[k]); }
    }
    PlaceInRange(R, listed, joining, home, k);
  }

  lemma AlikeBoth(R: Rules, o: DsCall, a: DsCall, b: DsCall)
    requires Alike(R, o, a) && Alike(R, o, b)
    ensures Alike(R, a, b)
  {
  }

  lemma {:induction false} GrownByNone(s: Span, joining: seq<DsCall>, home: seq<nat>, i: nat)
    requires |home| == |joining| && forall j :: 0 <= j < |home| ==> home[j] != i
    ensures Grown(s, joining, home, i) == s
  {
    if home != [] { GrownByNone(s, joining[..|home| - 1], home[..|home| - 1], i); }
  }

  lemma {:induction false} GrownByOne(s: Span, joining: seq<DsCall>, home: seq<nat>, i: nat, k: nat)
    requires |home| == |joining| && k < |home| && forall j :: 0 <= j < |home| && j != k ==> home[j] != i
    ensures Grown(s, joining, home, i) == if home[k] == i then Hull(s, joining[k]) else s
  {
    var m := |home| - 1;
    if k == m {
      GrownByNone(s, joining[..m], home[..m], i);
    } else {
      GrownByOne(s, joining[..m], home[..m], i, k);
    }
  }

  lemma OthersUnlike(R: Rules, calls: seq<DsCall>, listed: seq<DsCall>, joining: seq<DsCall>, home: seq<nat>, i: nat, k: nat)
    requires Composed(calls, listed, joining, home) && Placed(R, listed, joining, home) && k < |joining|
    requires forall j :: 0 <= j < |joining| && j != k ==> !Alike(R, joining[j], joining[k])
    requires forall j :: 0 <= j < |listed| && j != i ==> !Alike(R, listed[j], joining[k])
    ensures forall m :: 0 <= m < |calls| && m != i && m != home[k] ==> !Alike(R, calls[m], joining[k])
  {
    hide Alike, Grown;
    forall m | 0 <= m < |calls| && m != i && m != home[k] ensures !Alike(R, calls[m], joining[k]) {
      if m < |listed| {
        AlikeByEnds(R, calls[m], listed[m], joining[k]);
      } else {
        var j := NewcomerAt(R, listed, joining, home, m);
      }
    }
  }

  /** Every place past the listed calls is a newcomer's. */
  lemma {:induction false} NewcomerAt(R: Rules, listed: seq<DsCall>, joining: seq<DsCall>, home: seq<nat>, m: nat) returns (j: nat)
    requires Placed(R, listed, joining, home) && |listed| <= m < |listed| + Newcomers(home, |listed|)
    ensures j < |home| && home[j] == m
  {
    var k := |home| - 1;
    assert Belongs(R, listed, joining[..k], home[..k], joining[k], home[k]);
    if home[k] == m {
      j := k;
    } else {
      PlacedPrefix(R, listed, joining, home, k);
      j := NewcomerAt(R, listed, joining[..k], home[..k], m);
    }
  }

  lemma PlacedPrefix(R: Rules, listed: seq<DsCall>, joining: seq<DsCall>, home: seq<nat>, k: nat)
    requires Placed(R, listed, joining, home) && k <= |home|
    ensures Placed(R, listed, joining[..k], home[..k])
  {
    hide Belongs;
    forall j | 0 <= j < k ensures Belongs(R, listed, joining[..k][..j], home[..k][..j], joining[..k][j], home[..k][j]) {
      assert joining[..k][..j] == joining[..j] && home[..k][..j] == home[..j];
    }
  }

  // ---- no gap is bridged ----

  /** A call of the result bridges no silence: into every stretch of more than four seconds within it reaches a call of
      the inputs between the same parties. */
  lemma NoGapInMerge(R: Rules, T: DsFamily, F: DsFamily, i: nat, a: int, b: int)
    requires forall c :: c in T.calls || c in F.calls ==> c.start <= c.last
    requires i < |T.calls| && i < |MergeFamily(R, T, F).calls| && b - a > 4000
    requires MergeFamily(R, T, F).calls[i].start <= a && b <= MergeFamily(R, T, F).calls[i].last
    ensures exists c :: (c in T.calls || c in F.calls) && Alike(R, T.calls[i], c) && Reaches(c, a, b)
  {
    hide MergeFamily, Placed, Alike, Informed, Grown;
    var home := MergePlaces(R, T, F);
    NoGapBridged(R, T.calls, F.calls, home, i, a, b);
    AlikeSelf(R, T.calls[i]);
    if !Reaches(T.calls[i], a, b) {
      var k :| 0 <= k < |home| && home[k] == i && Reaches(F.calls[k], a, b);
      PlaceInRange(R, T.calls, F.calls, home, k);
      assert F.calls[k] in F.calls;
    } else {
      assert T.calls[i] in T.calls;
    }
  }

  /** c reaches into the time between a and b. */
  predicate Reaches(c: DsCall, a: int, b: int) {
    c.start < b && a < c.last
  }

  /** The listed call at i or a call that went there reaches into the time between a and b. */
  ghost predicate SomeReaches(o: DsCall, joining: seq<DsCall>, home: seq<nat>, i: nat, a: int, b: int)
    requires |home| == |joining|
  {
    Reaches(o, a, b) || exists k :: 0 <= k < |home| && home[k] == i && Reaches(joining[k], a, b)
  }

  /** The ends of a grown span are ends of calls in it. */
  lemma {:induction false} GrownEnds(o: DsCall, joining: seq<DsCall>, home: seq<nat>, i: nat)
    requires |home| == |joining|
    ensures var g := Grown(SpanOf(o), joining, home, i);
            && (g.start == o.start || exists k :: 0 <= k < |home| && home[k] == i && joining[k].start == g.start)
            && (g.last == o.last || exists k :: 0 <= k < |home| && home[k] == i && joining[k].last == g.last)
  {
    if home != [] {
      var m := |home| - 1;
      GrownEnds(o, joining[..m], home[..m], i);
      var w, g := Grown(SpanOf(o), joining[..m], home[..m], i), Grown(SpanOf(o), joining, home, i);
      if g.start != o.start && g.start == w.start {
        var k :| 0 <= k < m && home[..m][k] == i && joining[..m][k].start == w.start;
        assert home[k] == i && joining[k].start == g.start;
      }
      if g.last != o.last && g.last == w.last {
        var k :| 0 <= k < m && home[..m][k] == i && joining[..m][k].last == w.last;
        assert home[k] == i && joining[k].last == g.last;
      }
    }
  }

  /** Within a call of the result there is no stretch of more than four seconds that none of its calls reaches into. */
  lemma {:induction false} NoGapBridged(R: Rules, listed: seq<DsCall>, joining: seq<DsCall>, home: seq<nat>, i: nat, a: int, b: int)
    requires Placed(R, listed, joining, home) && i < |listed| && b - a > 4000
    requires listed[i].start <= listed[i].last && forall k :: 0 <= k < |joining| ==> joining[k].start <= joining[k].last
    requires var g := Grown(SpanOf(listed[i]), joining, home, i);
             g.start <= a && b <= g.last
    ensures SomeReaches(listed[i], joining, home, i, a, b)
    decreases |home|
  {
    hide Hull, Near, Reaches, Alike, SomeReaches, Belongs;
    var o := listed[i];
    if home == [] {
      OwnReaches(o, joining, home, i, a, b);
    } else {
      var m := |home| - 1;
      var js, hs := joining[..m], home[..m];
      var w := Grown(SpanOf(o), js, hs, i);
      PlacedPrefix(R, listed, joining, home, m);
      assert Belongs(R, listed, js, hs, joining[m], home[m]);
      if w.start <= a && b <= w.last {
        NoGapBridged(R, listed, js, hs, i, a, b);
        StillReaches(o, joining, home, i, m, a, b);
      } else {
        assert home[m] == i;
        BelongsNear(R, listed, js, hs, joining[m], i);
        if Reaches(joining[m], a, b) {
          LastReaches(o, joining, home, i, a, b);
        } else {
          EndsInside(w, joining[m], a, b);
          EndReaches(o, js, hs, i, a, b);
          StillReaches(o, joining, home, i, m, a, b);
        }
      }
    }
  }

  lemma OwnReaches(o: DsCall, joining: seq<DsCall>, home: seq<nat>, i: nat, a: int, b: int)
    requires |home| == |joining| && o.start <= a && b <= o.last && a < b
    ensures SomeReaches(o, joining, home, i, a, b)
  {
  }

  lemma LastReaches(o: DsCall, joining: seq<DsCall>, home: seq<nat>, i: nat, a: int, b: int)
    requires |home| == |joining| && home != [] && home[|home| - 1] == i && Reaches(joining[|home| - 1], a, b)
    ensures SomeReaches(o, joining, home, i, a, b)
  {
    hide Reaches;
  }

  lemma BelongsNear(R: Rules, listed: seq<DsCall>, joining: seq<DsCall>, home: seq<nat>, c: DsCall, i: nat)
    requires |home| == |joining| && i < |listed| && Belongs(R, listed, joining, home, c, i)
    ensures Near(Grown(SpanOf(listed[i]), joining, home, i), c)
  {
    hide Near, Alike, Grown;
  }

  /** A stretch that a span takes in only with a call near it, and that the call does not reach into, has an end of the
      span inside. */
  lemma EndsInside(w: Span, c: DsCall, a: int, b: int)
    requires Near(w, c) && Hull(w, c).start <= a && b <= Hull(w, c).last && b - a > 4000 && c.start <= c.last
    requires !(w.start <= a && b <= w.last) && !Reaches(c, a, b)
    ensures a < w.start < b || a < w.last < b
  {
  }

  /** A grown span that begins or ends between a and b has a call that reaches in there. */
  lemma EndReaches(o: DsCall, joining: seq<DsCall>, home: seq<nat>, i: nat, a: int, b: int)
    requires |home| == |joining|
    requires o.start <= o.last && forall k :: 0 <= k < |joining| ==> joining[k].start <= joining[k].last
    requires var g := Grown(SpanOf(o), joining, home, i);
             a < g.start < b || a < g.last < b
    ensures SomeReaches(o, joining, home, i, a, b)
  {
    hide Grown;
    var g := Grown(SpanOf(o), joining, home, i);
    GrownEnds(o, joining, home, i);
    if a < g.start < b {
      if g.start != o.start {
        var k :| 0 <= k < |home| && home[k] == i && joining[k].start == g.start;
        assert Reaches(joining[k], a, b);
      }
    } else {
      if g.last != o.last {
        var k :| 0 <= k < |home| && home[k] == i && joining[k].last == g.last;
        assert Reaches(joining[k], a, b);
      }
    }
  }

  lemma StillReaches(o: DsCall, joining: seq<DsCall>, home: seq<nat>, i: nat, m: nat, a: int, b: int)
    requires |home| == |joining| && m <= |home| && SomeReaches(o, joining[..m], home[..m], i, a, b)
    ensures SomeReaches(o, joining, home, i, a, b)
  {
    hide Reaches;
    if !Reaches(o, a, b) {
      var k :| 0 <= k < m && home[..m][k] == i && Reaches(joining[..m][k], a, b);
      assert home[k] == i && Reaches(joining[k], a, b);
    }
  }
}
