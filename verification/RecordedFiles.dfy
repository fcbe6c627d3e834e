/** A recording as a file: how much of the run it holds, and what a damaged line in it costs. */
module RecordedFiles {
  import opened Basics
  import Json
  import opened LogLines
  import opened Replay

  // ---- the cap ----

  /** The lines of some entries, one after the other. */
  function Lines(es: seq<Entry>): string
    requires AllWritable(es)
  {
    if es == [] then "" else Lines(es[..|es| - 1]) + EntryText(es[|es| - 1]) + "\n"
  }

  lemma LinesMore(es: seq<Entry>, e: Entry)
    requires AllWritable(es) && Writable(e)
    ensures AllWritable(es + [e]) && Lines(es + [e]) == Lines(es) + EntryText(e) + "\n"
  {
    hide Writable, EntryText;
    var s := es + [e];
    assert forall i :: 0 <= i < |s| ==> Writable(s[i]);
    assert s[..|s| - 1] == es && s[|s| - 1] == e;
  }

  /** The file holds the lines of the longest beginning of the run that fits into the cap, and, if that is not all of it,
      the mark that says so. */
  lemma {:induction false} FileIsPrefix(es: seq<Entry>, max: nat)
    requires AllWritable(es)
    ensures var n, r := HeldCount(es, max), Recorded(es, max);
            && r.text == Lines(es[..n]) + (if n < |es| then TRUNCATED + "\n" else "")
            && (n < |es| <==> r.truncated) && r.bytes == |Lines(es[..n])|
            && (max > 0 ==> |Lines(es[..n])| <= max)
            && (n < |es| ==> max > 0 && |Lines(es[..n + 1])| > max)
  {
    hide *;
    if es == [] {
      assert es[..0] == [];
      NothingYetRecorded(max);
    } else {
      var before, e := es[..|es| - 1], es[|es| - 1];
      OneMoreRecorded(es, max);
      FileIsPrefix(before, max);
      var m := HeldCount(before, max);
      assert before + [e] == es;
      if m < |before| {
        assert es[..m] == before[..m] && es[..m + 1] == before[..m + 1];
      } else {
        assert before[..m] == before && es[..m] == before && es[..|es|] == es;
        LinesMore(before, e);
      }
    }
  }

  lemma NothingYetRecorded(max: nat)
    ensures AllWritable([]) && HeldCount([], max) == 0 && Recorded([], max) == Recorder("", 0, false) && Lines([]) == ""
  {
  }

  lemma OneMoreRecorded(es: seq<Entry>, max: nat)
    requires AllWritable(es) && es != []
    ensures var before, e := es[..|es| - 1], es[|es| - 1];
            && AllWritable(before) && Writable(e)
            && var r, s := Recorded(before, max), Recorded(es, max);
               && HeldCount(es, max) == (if s.truncated then HeldCount(before, max) else HeldCount(before, max) + 1)
               && (r.truncated ==> s == r)
               && (!r.truncated && max > 0 && r.bytes + |EntryText(e)| + 1 > max ==>
                     s == Recorder(r.text + TRUNCATED + "\n", r.bytes, true))
               && (!r.truncated && !(max > 0 && r.bytes + |EntryText(e)| + 1 > max) ==>
                     s == Recorder(r.text + EntryText(e) + "\n", r.bytes + |EntryText(e)| + 1, false))
  {
    hide Writable, EntryText;
  }

  // ---- damaged lines ----

  /** A line that is no flat object of texts and numbers, or tells of nothing the reader knows in time. */
  predicate Damaged(line: string, until: int) {
    && line != "" && '\n' !in line && !(SNAPSHOT <= line)
    && match ParseLine(line)
       case None => true
       case Some(k) =>
         && Get(k, "op") != "truncated" && Get(k, "op") != "header"
         && var t := if "t" in k then Stoll(k["t"]) else Some(0);
            t.None? || (t.value <= until && NothingTold(k, t.value))
  }

  predicate NothingTold(k: map<string, string>, t: int) {
    var sid := if "s" in k then Stoull(k["s"]) else Some(0);
    sid.None? || OpOf(k, t, sid.value).None?
  }

  /** With so many lines more, so many of them bad. */
  function Counting<S>(o: Out<S>, lines: nat, bad: nat): Out<S> {
    o.(lines := o.lines + lines, bad := o.bad + bad)
  }

  lemma DamagedHandled<S>(o: Out<S>, line: string, until: int, step: (S, LogOp) -> S)
    requires Damaged(line, until)
    ensures Handle(o, line, until, step) == Counting(o, 1, 1)
  {
    hide OpOf, Stoll, Stoull, ParseLine;
  }

  lemma HandleCounts<S>(o: Out<S>, line: string, until: int, step: (S, LogOp) -> S, lines: nat, bad: nat)
    ensures Handle(Counting(o, lines, bad), line, until, step) == Counting(Handle(o, line, until, step), lines, bad)
  {
    hide ParseLine, TakeFields;
    var k := ParseLine(line);
    if line != "" && !(SNAPSHOT <= line) && k.Some? {
      var o1 := o.(lines := o.lines + 1);
      FieldsCount(o1, k.value, until, step, lines, bad);
      assert Counting(o, lines, bad).(lines := o.lines + lines + 1) == Counting(o1, lines, bad);
    }
  }

  lemma FieldsCount<S>(o: Out<S>, k: map<string, string>, until: int, step: (S, LogOp) -> S, lines: nat, bad: nat)
    ensures TakeFields(Counting(o, lines, bad), k, until, step) == Counting(TakeFields(o, k, until, step), lines, bad)
  {
    hide OpOf, Stoll, Stoull, TakeHeader;
    HeaderCounts(o, k, step, lines, bad);
  }

  lemma HeaderCounts<S>(o: Out<S>, k: map<string, string>, step: (S, LogOp) -> S, lines: nat, bad: nat)
    ensures forall t :: TakeHeader(Counting(o, lines, bad), k, t, step) == Counting(TakeHeader(o, k, t, step), lines, bad)
  {
    hide Stoll, Stoull;
  }

  lemma {:induction false} ProcessCounts<S>(o: Out<S>, buf: string, until: int, step: (S, LogOp) -> S, lines: nat, bad: nat)
    ensures var r := Process(o, buf, until, step);
            Process(Counting(o, lines, bad), buf, until, step) == (Counting(r.0, lines, bad), r.1)
    decreases |buf|
  {
    hide Handle;
    var p := LineEnd(buf);
    if !o.stop && p < |buf| {
      HandleCounts(o, buf[..p], until, step, lines, bad);
      ProcessCounts(Handle(o, buf[..p], until, step), buf[p + 1..], until, step, lines, bad);
    }
  }

  /** Two files, the second with a damaged line more, between two whole lines. */
  lemma DamagedProcessed<S>(o: Out<S>, before: string, line: string, later: string, until: int, step: (S, LogOp) -> S)
    requires Damaged(line, until) && (before == "" || before[|before| - 1] == '\n')
    ensures var a, b := Process(o, before + later, until, step), Process(o, before + (line + "\n" + later), until, step);
            if Process(o, before, until, step).0.stop then b.0 == a.0
            else b == (Counting(a.0, 1, 1), a.1)
  {
    hide Handle, Damaged, Process;
    var r := Process(o, before, until, step);
    ProcessMore(o, before, later, until, step);
    ProcessMore(o, before, line + "\n" + later, until, step);
    if r.0.stop {
      StoppedStays(r.0, r.1 + later, until, step);
      StoppedStays(r.0, r.1 + (line + "\n" + later), until, step);
    } else {
      WholeLines(o, before, until, step);
      assert "" + later == later && "" + (line + "\n" + later) == line + "\n" + later;
      OneMore(r.0, line, later, until, step);
      ProcessCounts(r.0, later, until, step, 1, 1);
    }
  }

  lemma OneMore<S>(o: Out<S>, line: string, later: string, until: int, step: (S, LogOp) -> S)
    requires Damaged(line, until) && !o.stop
    ensures Process(o, line + "\n" + later, until, step) == Process(Counting(o, 1, 1), later, until, step)
  {
    hide Handle;
    var s := line + "\n" + later;
    LineEndIs(s, |line|);
    assert s[..|line|] == line && s[|line| + 1..] == later;
    DamagedHandled(o, line, until, step);
  }

  /** Whole lines leave nothing over. */
  lemma {:induction false} WholeLines<S>(o: Out<S>, s: string, until: int, step: (S, LogOp) -> S)
    requires s == "" || s[|s| - 1] == '\n'
    ensures var r := Process(o, s, until, step); !r.0.stop ==> r.1 == ""
    decreases |s|
  {
    hide Handle;
    var p := LineEnd(s);
    if !o.stop && p < |s| { WholeLines(Handle(o, s[..p], until, step), s[p + 1..], until, step); }
  }

  /** A damaged line anywhere in a file, however both are read in pieces: the replay ends in the same model, stopped or
      not as before, and counts one line more, and that one as bad, if it comes so far. */
  lemma DamagedLineCounted<S>(m: S, before: string, line: string, later: string, a: seq<string>, b: seq<string>, until: int,
                              step: (S, LogOp) -> S)
    requires Damaged(line, until) && (before == "" || before[|before| - 1] == '\n')
    requires Concat(a) == before + later && Concat(b) == before + (line + "\n" + later)
    ensures var p, q := ReplayOf(m, a, until, step), ReplayOf(m, b, until, step);
            && q.m == p.m && q.stop == p.stop && q.truncated == p.truncated
            && (if Process(Out(m, false, 0, 0, false), before, until, step).0.stop then q.lines == p.lines && q.bad == p.bad
                else q.lines == p.lines + 1 && q.bad == p.bad + 1)
  {
    hide Process, Handle, Damaged, ReplayOf;
    var o := Out(m, false, 0, 0, false);
    PiecesDoNotMatter(m, a, until, step);
    PiecesDoNotMatter(m, b, until, step);
    DamagedProcessed(o, before, line, later, until, step);
    var r, s := Process(o, before + later, until, step), Process(o, before + (line + "\n" + later), until, step);
    if Process(o, before, until, step).0.stop {
      StopsAlike(o, before, later, until, step);
    } else {
      HandleCounts(r.0, r.1, until, step, 1, 1);
    }
  }

  lemma StopsAlike<S>(o: Out<S>, before: string, later: string, until: int, step: (S, LogOp) -> S)
    requires Process(o, before, until, step).0.stop
    ensures Process(o, before + later, until, step).0.stop
  {
    hide Process;
    ProcessMore(o, before, later, until, step);
    StoppedStays(Process(o, before, until, step).0, Process(o, before, until, step).1 + later, until, step);
  }

  // ---- the header ----

  /** What a reader finds in a recording's header line: the format's version, when it was begun, whether the model was empty
      then, the run's identity and span, and how many calls it lists. */
  lemma HeaderRead(e: Entry)
    requires e.Header? && Writable(e)
    ensures ParseLine(EntryText(e)) ==
            Some(map["op" := "header", "v" := "1", "t" := Json.Decimal(e.t), "fresh" := if e.clean then "true" else "false",
                     "instance" := e.instance, "name" := e.name, "since" := Json.Decimal(e.since),
                     "max_calls" := Json.Decimal(e.maxCalls)])
  {
    hide Line, ParseLine, Writable;
    FieldsGood(e);
    LineBack(FieldsOf(e));
    EightFields(e);
  }

  lemma EightFields(e: Entry)
    requires e.Header?
    ensures MapOf(HeaderFields(e)) ==
            map["op" := "header", "v" := "1", "t" := Json.Decimal(e.t), "fresh" := if e.clean then "true" else "false",
                "instance" := e.instance, "name" := e.name, "since" := Json.Decimal(e.since),
                "max_calls" := Json.Decimal(e.maxCalls)]
  {
    hide MapOf;
    var f := HeaderFields(e);
    NoFields();
    forall n: nat | n < 8 ensures MapOf(f[..n + 1]) == MapOf(f[..n])[f[n].key := f[n].s] {
      assert f[..n + 1][..n] == f[..n];
      OneField(f[..n + 1]);
    }
    assert f[..0] == [] && f[..8] == f;
    assert MapOf(f[..1]) == map["op" := "header"];
    assert MapOf(f[..2]) == MapOf(f[..1])["v" := "1"];
    assert MapOf(f[..3]) == MapOf(f[..2])["t" := f[2].s];
    assert MapOf(f[..4]) == MapOf(f[..3])["fresh" := f[3].s];
    assert MapOf(f[..5]) == MapOf(f[..4])["instance" := f[4].s];
    assert MapOf(f[..6]) == MapOf(f[..5])["name" := f[5].s];
    assert MapOf(f[..7]) == MapOf(f[..6])["since" := f[6].s];
    assert MapOf(f[..8]) == MapOf(f[..7])["max_calls" := f[7].s];
  }

  lemma NoFields()
    ensures MapOf([]) == map[]
  {
  }

  lemma OneField(fs: seq<Field>)
    requires fs != []
    ensures MapOf(fs) == MapOf(fs[..|fs| - 1])[fs[|fs| - 1].key := fs[|fs| - 1].s]
  {
  }
}
