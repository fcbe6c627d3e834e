/** A recording of the live association model, replayed into an empty one, leaves it in the very same state, and every
    stream's identity in the state it had. */
module LiveReplay {
  import opened Replay
  import H = Hysteresis
  import L = LiveModel

  /** What the model is given from outside, the same live and in the replay: how a decoder line reads, which networks
      a stream leaves identified for good, and a label's family.  All of it may go by a state S of its own, which
      every operation may change: what each stream has said of its identity, what is known of each network. */
  datatype Reading<!S> = Reading(event: (L.State, S, nat, DsdEvent) -> L.Event, kept: (L.State, S, nat) -> set<string>,
                                 family: string -> string, hidden: (L.State, S, LogOp) -> S)

  /** The model, and the state the reading of lines goes by. */
  datatype Whole<S> = Whole(m: L.State, s: S)

  /** No list of calls is shorter. */
  function ListSize(n: nat): (r: nat)
    ensures r >= 10 && r >= n && r in {n, 10}
  {
    if n < 10 then 10 else n
  }

  /** The model's step for a recorded operation. */
  function Applied<S>(w: Whole<S>, op: LogOp, r: Reading<S>): L.State {
    var m := w.m;
    match op
    case SetIdentity(_, _) => m
    case SetSince(_) => m
    case SetMaxCalls(n) => m.(maxCalls := ListSize(n))
    case Begin(t, sid, protocol, family, freq) =>
      L.Step(m, L.Begin(sid, protocol, if family == "" then r.family(protocol) else family, freq, t, r.kept(m, w.s, sid)))
    case Tune(t, sid, freq) => L.Step(m, L.Tune(sid, freq, t))
    case Ev(t, sid, e) => L.Step(m, L.Line(sid, r.event(m, w.s, sid, e), t))
    case Keep(t, family, id, on) => L.Step(m, L.Keep(family, id, on))
    case End(t, sid) => L.Step(m, L.End(sid, t, r.kept(m, w.s, sid)))
    case Remove(t, sid) => L.Step(m, L.Remove(sid, t, r.kept(m, w.s, sid)))
    case Clear(t) => L.Step(m, L.Clear(t))
  }

  predicate FromHeader(op: LogOp) {
    op.SetIdentity? || op.SetSince? || op.SetMaxCalls?
  }

  /** A retune that changes nothing is not written. */
  predicate Unwritten(m: L.State, op: LogOp) {
    op.Tune? && (op.sid !in m.sess || m.sess[op.sid].freq == op.freq)
  }

  function Next<S>(w: Whole<S>, op: LogOp, r: Reading<S>): Whole<S> {
    Whole(Applied(w, op, r), if FromHeader(op) || Unwritten(w.m, op) then w.s else r.hidden(w.m, w.s, op))
  }

  function StepLog<S>(r: Reading<S>): (Whole<S>, LogOp) -> Whole<S> {
    (w: Whole<S>, op: LogOp) => Next(w, op, r)
  }

  /** What the recorder is given while the model runs through ops. */
  function WrittenOps<S>(w: Whole<S>, ops: seq<LogOp>, r: Reading<S>): seq<LogOp>
    decreases |ops|
  {
    if ops == [] then []
    else (if Unwritten(w.m, ops[0]) then [] else [ops[0]]) + WrittenOps(StepLog(r)(w, ops[0]), ops[1..], r)
  }

  lemma UnwrittenStays<S>(w: Whole<S>, op: LogOp, r: Reading<S>)
    requires Unwritten(w.m, op)
    ensures StepLog(r)(w, op) == w
  {
    assert StepLog(r)(w, op) == Next(w, op, r);
    assert Applied(w, op, r) == L.Step(w.m, L.Tune(op.sid, op.freq, op.t));
  }

  lemma {:induction false} WrittenSuffice<S>(w: Whole<S>, ops: seq<LogOp>, r: Reading<S>)
    ensures ApplyAll(w, WrittenOps(w, ops, r), StepLog(r)) == ApplyAll(w, ops, StepLog(r))
    decreases |ops|
  {
    hide StepLog, Unwritten;
    if ops != [] {
      var next := StepLog(r)(w, ops[0]);
      WrittenSuffice(next, ops[1..], r);
      if Unwritten(w.m, ops[0]) {
        UnwrittenStays(w, ops[0], r);
        assert [] + WrittenOps(next, ops[1..], r) == WrittenOps(next, ops[1..], r);
      } else {
        var o := WrittenOps(w, ops, r);
        assert o[0] == ops[0] && o[1..] == WrittenOps(next, ops[1..], r);
      }
    }
  }

  function Logs(ops: seq<LogOp>): (es: seq<Entry>)
    ensures |es| == |ops| && forall i :: 0 <= i < |ops| ==> es[i] == Logged(ops[i])
  {
    seq(|ops|, i requires 0 <= i < |ops| => Logged(ops[i]))
  }

  lemma {:induction false} OpsOfLogs(h: Entry, ops: seq<LogOp>)
    ensures AllOps([h] + Logs(ops)) == OpsOf(h) + ops
  {
    var es := [h] + Logs(ops);
    if ops == [] {
      assert es == [h] && es[..0] == [] && [] + OpsOf(h) == OpsOf(h) + [];
    } else {
      var before := ops[..|ops| - 1];
      assert es[..|es| - 1] == [h] + Logs(before);
      OpsOfLogs(h, before);
      assert OpsOf(h) + before + [ops[|ops| - 1]] == OpsOf(h) + ops;
    }
  }

  /** A model that has heard nothing yet. */
  function Empty<S>(maxCalls: nat, s: S): Whole<S> {
    Whole(L.State(map[], map[], 0, maxCalls), s)
  }

  /** The live model and its hidden state before the first written operation later than `until`. */
  function LiveUntil<S>(w: Whole<S>, ops: seq<LogOp>, r: Reading<S>, until: int): Whole<S>
    decreases |ops|
  {
    if ops == [] || (!Unwritten(w.m, ops[0]) && !InTime(Logged(ops[0]), until)) then w
    else LiveUntil(StepLog(r)(w, ops[0]), ops[1..], r, until)
  }

  /** While no operation is late, that is the state after all of them. */
  lemma {:induction false} LiveToTheEnd<S>(w: Whole<S>, ops: seq<LogOp>, r: Reading<S>, until: int)
    requires forall i :: 0 <= i < |ops| ==> InTime(Logged(ops[i]), until)
    ensures LiveUntil(w, ops, r, until) == ApplyAll(w, ops, StepLog(r))
    decreases |ops|
  {
    hide StepLog, Unwritten, InTime;
    if ops != [] { LiveToTheEnd(StepLog(r)(w, ops[0]), ops[1..], r, until); }
  }

  /** What the recorder was given before the first late operation leads there. */
  lemma {:induction false} WrittenUntil<S>(w: Whole<S>, ops: seq<LogOp>, r: Reading<S>, until: int)
    ensures var o := WrittenOps(w, ops, r);
            ApplyAll(w, o[..FirstLate(Logs(o), until)], StepLog(r)) == LiveUntil(w, ops, r, until)
    decreases |ops|
  {
    hide StepLog, Unwritten, InTime;
    if ops != [] {
      var next, o := StepLog(r)(w, ops[0]), WrittenOps(w, ops, r);
      WrittenUntil(next, ops[1..], r, until);
      var rest := WrittenOps(next, ops[1..], r);
      if Unwritten(w.m, ops[0]) {
        UnwrittenStays(w, ops[0], r);
        assert o == rest;
      } else {
        assert o == [ops[0]] + rest;
        assert Logs(o)[1..] == Logs(rest);
        var k := FirstLate(Logs(rest), until);
        if InTime(Logged(ops[0]), until) {
          assert FirstLate(Logs(o), until) == k + 1;
          assert o[..k + 1][1..] == rest[..k];
        }
      }
    }
  }

  /** Recording from an empty model on: the header, then every operation as it happens.  Replaying the file into an
      empty model up to any time, in whatever pieces it is read and whatever list size that model had, ends in the state
      the live model had before the first operation later than that time, and so does the state that lines are read by. */
  lemma ReplayReachesLive<S>(ops: seq<LogOp>, r: Reading<S>, s: S, h: Entry, maxCalls: nat, chunks: seq<string>, until: int)
    requires h.Header?
    requires var es := [h] + Logs(WrittenOps(Empty(ListSize(h.maxCalls), s), ops, r));
             AllWritable(es) && Concat(chunks) == Recorded(es, 0).text
    ensures var live := Empty(ListSize(h.maxCalls), s);
            var o := ReplayOf(Empty(maxCalls, s), chunks, until, StepLog(r));
            && o.m == LiveUntil(live, ops, r, until) && o.bad == 0 && !o.truncated
            && (o.stop <==> exists op :: op in WrittenOps(live, ops, r) && !InTime(Logged(op), until))
  {
    hide ReplayOf, Recorded, HeldCount, WrittenOps, InTime, AllWritable, AllOps;
    var live, m, step := Empty(ListSize(h.maxCalls), s), Empty(maxCalls, s), StepLog(r);
    var written := WrittenOps(live, ops, r);
    var es := [h] + Logs(written);
    RoundTrip(m, es, 0, chunks, until, step);
    assert es[..|es|] == es;
    var k := FirstLate(Logs(written), until);
    HeaderInTime(h, until);
    assert es[1..] == Logs(written);
    assert FirstLate(es, until) == k + 1;
    assert es[..k + 1] == [h] + Logs(written[..k]);
    OpsOfLogs(h, written[..k]);
    ApplyBoth(m, OpsOf(h), written[..k], step);
    HeaderSets(h, maxCalls, r, s);
    WrittenUntil(live, ops, r, until);
    LateAmong(h, written, until);
  }

  lemma HeaderInTime(h: Entry, until: int)
    requires h.Header?
    ensures InTime(h, until)
  {
  }

  lemma LateAmong(h: Entry, ops: seq<LogOp>, until: int)
    requires h.Header?
    ensures var es := [h] + Logs(ops);
            (exists i :: 0 <= i < |es| && !InTime(es[i], until)) <==> exists op :: op in ops && !InTime(Logged(op), until)
  {
    hide InTime;
    HeaderInTime(h, until);
    var es := [h] + Logs(ops);
    if op :| op in ops && !InTime(Logged(op), until) {
      var i :| 0 <= i < |ops| && ops[i] == op;
      assert es[i + 1] == Logged(op);
    }
    if i :| 0 <= i < |es| && !InTime(es[i], until) {
      assert es[i] == Logged(ops[i - 1]);
    }
  }

  lemma HeaderSets<S>(h: Entry, maxCalls: nat, r: Reading<S>, s: S)
    requires h.Header?
    ensures ApplyAll(Empty(maxCalls, s), OpsOf(h), StepLog(r)) == Empty(ListSize(h.maxCalls), s)
  {
    hide L.Step;
    var ops, w, step := OpsOf(h), Empty(maxCalls, s), StepLog(r);
    assert ops[1..] == [ops[1], ops[2]] && ops[1..][1..] == [ops[2]] && ops[1..][1..][1..] == [];
    assert Next(w, ops[0], r) == w && Next(w, ops[1], r) == w && Next(w, ops[2], r) == Empty(ListSize(h.maxCalls), s);
    assert step(w, ops[0]) == w && step(w, ops[1]) == w && step(w, ops[2]) == Empty(ListSize(h.maxCalls), s);
    assert ApplyAll(w, [ops[2]], step) == step(w, ops[2]);
    assert ApplyAll(w, ops[1..], step) == ApplyAll(w, [ops[2]], step);
  }

  // ---- identities ----

  /** What a stream's lines made of its identity, and whether the ids now printed are a neighbour's. */
  datatype Stream = Stream(belief: H.Belief, adjacent: bool)

  const SILENT := Stream(H.NOTHING, false)

  function StreamOf(s: map<nat, Stream>, sid: nat): Stream {
    if sid in s then s[sid] else SILENT
  }

  /** What a line tells of its stream's identity: the ids it reports, none where they are not the stream's own or the
      line is passed over; and whether a neighbour's ids follow. */
  type Report = (L.State, Stream, nat, DsdEvent) -> (map<string, string>, bool)

  function Sighted(m: L.State, s: map<nat, Stream>, sid: nat, e: DsdEvent, report: Report): map<nat, Stream> {
    if sid !in m.sess then s
    else
      var (got, adjacent) := report(m, StreamOf(s, sid), sid, e);
      s[sid := Stream(H.Absorb(m.sess[sid].family, StreamOf(s, sid).belief, got), adjacent)]
  }

  /** Identities as the lines report them: a line reads by its stream's identity before and after it; a stream that
      begins, moves channel or goes starts over, and so do all when the model is cleared. */
  function ByIdentity(report: Report, read: (L.State, map<nat, Stream>, map<nat, Stream>, nat, DsdEvent) -> L.Event,
                      kept: (L.State, map<nat, Stream>, nat) -> set<string>, family: string -> string): Reading<map<nat, Stream>> {
    Reading((m: L.State, s: map<nat, Stream>, sid: nat, e: DsdEvent) => read(m, s, Sighted(m, s, sid, e, report), sid, e),
            kept, family,
            (m: L.State, s: map<nat, Stream>, op: LogOp) =>
              if op.Ev? then Sighted(m, s, op.sid, op.e, report)
              else if op.Begin? || op.Tune? || op.Remove? then s - {op.sid}
              else if op.Clear? then map[]
              else s)
  }

  /** After a replay up to any time every stream is believed to be what it was live then, with the same codes pending. */
  lemma IdentitiesReplayed(ops: seq<LogOp>, report: Report,
                           read: (L.State, map<nat, Stream>, map<nat, Stream>, nat, DsdEvent) -> L.Event,
                           kept: (L.State, map<nat, Stream>, nat) -> set<string>, family: string -> string,
                           h: Entry, maxCalls: nat, chunks: seq<string>, until: int)
    requires h.Header?
    requires var r := ByIdentity(report, read, kept, family);
             var es := [h] + Logs(WrittenOps(Empty(ListSize(h.maxCalls), map[]), ops, r));
             AllWritable(es) && Concat(chunks) == Recorded(es, 0).text
    ensures var r := ByIdentity(report, read, kept, family);
            var live := LiveUntil(Empty(ListSize(h.maxCalls), map[]), ops, r, until);
            var replayed := ReplayOf(Empty(maxCalls, map[]), chunks, until, StepLog(r)).m;
            replayed.m == live.m && forall sid :: StreamOf(replayed.s, sid) == StreamOf(live.s, sid)
  {
    hide *;
    ReplayReachesLive(ops, ByIdentity(report, read, kept, family), map[], h, maxCalls, chunks, until);
  }
}
