/** Recording and replay: every operation is written as a line, and reading the file back, in whatever pieces it
    comes, drives a model through the very same operations. */
module Replay {
  import opened Basics
  import opened Json
  import opened LogLines

  /** The decoder's event, its thirteen text fields. */
  datatype DsdEvent = DsdEvent(kind: string, tg: string, src: string, slot: string, cc: string, ran: string, nac: string,
                               em: string, alias: string, crc: string, msg: string, extra: string, raw: string)

  /** What a recording does to a model. */
  datatype LogOp =
    | SetIdentity(instance: string, name: string)
    | SetSince(since: int)
    | SetMaxCalls(maxCalls: nat)
    | Begin(t: int, sid: nat, protocol: string, family: string, freq: int)
    | Tune(t: int, sid: nat, freq: int)
    | Ev(t: int, sid: nat, e: DsdEvent)
    | Keep(t: int, family: string, id: nat, on: bool)
    | End(t: int, sid: nat)
    | Remove(t: int, sid: nat)
    | Clear(t: int)

  /** What is written: the header, a snapshot of the model for comparison, or one operation. */
  datatype Entry =
    | Header(t: int, clean: bool, instance: string, name: string, since: int, maxCalls: nat)
    | Snapshot(body: string)
    | Logged(op: LogOp)

  const INT64: int := 0x8000_0000_0000_0000
  const UINT64: int := 0x1_0000_0000_0000_0000
  const OLD_MAX_CALLS: nat := 400

  // ---- numbers ----

  predicate Int64(n: int) {
    -INT64 <= n < INT64
  }

  /** Sign and digits at the front of s, past any space; None without a digit. */
  function Number(s: string): Option<int> {
    var t := Skip(s);
    var neg := t != [] && t[0] == '-';
    var u := if t != [] && (t[0] == '-' || t[0] == '+') then t[1..] else t;
    RunAreDigits(u);
    if Run(u) == 0 then None
    else
      var v: int := DigitsValue(u[..Run(u)]);
      Some(if neg then -v else v)
  }

  /** std::stoll; None where it throws. */
  function Stoll(s: string): Option<int> {
    var n := Number(s);
    if n.Some? && Int64(n.value) then n else None
  }

  /** std::stoull: a minus sign wraps around; None where it throws. */
  function Stoull(s: string): Option<nat> {
    var n := Number(s);
    if n.None? || n.value >= UINT64 || n.value <= -UINT64 then None
    else Some(if n.value < 0 then n.value + UINT64 else n.value)
  }

  lemma NumberBackAgain(n: int)
    ensures Number(Decimal(n)) == Some(n)
  {
    hide Digits, Run, DigitsValue;
    var m := if n < 0 then -n else n;
    var s, d := Decimal(n), Digits(m);
    DigitsBack(m);
    RunOf(d, "");
    assert d + "" == d && d[..|d|] == d;
    FirstOfDecimal(n);
    SkipNone(s);
    assert n < 0 ==> s[1..] == d;
  }

  lemma DecimalPlain(n: int)
    ensures PlainLit(Decimal(n))
  {
    hide Digits;
  }

  // ---- a line for each entry ----

  const EVENT_KEYS: seq<string> := ["kind", "tg", "src", "slot", "cc", "ran", "nac", "em", "alias", "crc", "msg", "extra", "raw"]

  function ValuesOf(e: DsdEvent): (r: seq<string>)
    ensures |r| == 13
  {
    [e.kind, e.tg, e.src, e.slot, e.cc, e.ran, e.nac, e.em, e.alias, e.crc, e.msg, e.extra, e.raw]
  }

  function EventOf(v: seq<string>): (e: DsdEvent)
    requires |v| == 13
    ensures ValuesOf(e) == v
  {
    DsdEvent(v[0], v[1], v[2], v[3], v[4], v[5], v[6], v[7], v[8], v[9], v[10], v[11], v[12])
  }

  /** The fields that are not empty. */
  function Present(keys: seq<string>, values: seq<string>): (fs: seq<Field>)
    requires |keys| == |values|
  {
    if keys == [] then []
    else
      Present(keys[..|keys| - 1], values[..|values| - 1])
      + if values[|values| - 1] == "" then [] else [Quote(keys[|keys| - 1], values[|values| - 1])]
  }

  function Int(key: string, n: int): Field {
    Lit(key, Decimal(n))
  }

  function Stamp(op: string, t: int): seq<Field> {
    [Quote("op", op), Int("t", t)]
  }

  function StampFor(op: string, t: int, sid: int): seq<Field> {
    [Quote("op", op), Int("t", t), Int("s", sid)]
  }

  /** A stream that was running when recording began carries its family along. */
  function BeginFields(op: LogOp): seq<Field>
    requires op.Begin?
  {
    var freq := if op.freq == 0 then [] else [Int("freq", op.freq)];
    StampFor("begin", op.t, op.sid) + [Quote("label", op.protocol)]
    + if op.family == "" then freq else [Quote("family", op.family)] + freq + [Lit("resumed", "true")]
  }

  predicate Written1(op: LogOp) {
    !op.SetIdentity? && !op.SetSince? && !op.SetMaxCalls?
  }

  function OpFields(op: LogOp): (fs: seq<Field>)
    requires Written1(op)
    ensures fs != []
  {
    match op
    case Begin(_, _, _, _, _) => BeginFields(op)
    case Tune(t, sid, freq) => StampFor("tune", t, sid) + [Int("freq", freq)]
    case Ev(t, sid, e) => StampFor("ev", t, sid) + Present(EVENT_KEYS, ValuesOf(e))
    case Keep(t, family, id, on) => Stamp("keep", t) + [Quote("f", family), Int("c", id), Lit("on", if on then "1" else "0")]
    case End(t, sid) => StampFor("end", t, sid)
    case Remove(t, sid) => StampFor("remove", t, sid)
    case Clear(t) => Stamp("clear", t)
  }

  function HeaderFields(e: Entry): seq<Field>
    requires e.Header?
  {
    [Quote("op", "header"), Lit("v", "1"), Int("t", e.t), Lit("fresh", if e.clean then "true" else "false"),
     Quote("instance", e.instance), Quote("name", e.name), Int("since", e.since), Int("max_calls", e.maxCalls)]
  }

  const SNAPSHOT := "{\"op\":\"snapshot\","

  /** Texts hold bytes, numbers fit the program's integers, and a snapshot is one line. */
  predicate Writable(e: Entry) {
    match e
    case Snapshot(body) => '\n' !in body
    case Header(t, _, instance, name, since, maxCalls) =>
      Int64(t) && IsBytes(instance) && IsBytes(name) && Int64(since) && maxCalls < UINT64
    case Logged(op) =>
      match op
      case Begin(t, sid, protocol, family, freq) =>
        Int64(t) && sid < UINT64 && IsBytes(protocol) && IsBytes(family) && Int64(freq)
      case Tune(t, sid, freq) => Int64(t) && sid < UINT64 && Int64(freq)
      case Ev(t, sid, e) => Int64(t) && sid < UINT64 && forall i :: 0 <= i < 13 ==> IsBytes(ValuesOf(e)[i])
      case Keep(t, family, id, _) => Int64(t) && IsBytes(family) && id < UINT64
      case End(t, sid) => Int64(t) && sid < UINT64
      case Remove(t, sid) => Int64(t) && sid < UINT64
      case Clear(t) => Int64(t)
      case _ => false
  }

  function FieldsOf(e: Entry): (fs: seq<Field>)
    requires Writable(e) && !e.Snapshot?
    ensures fs != []
  {
    if e.Header? then HeaderFields(e) else OpFields(e.op)
  }

  lemma BaseGood(op: string, t: int, sid: int)
    requires IsBytes(op)
    ensures AllGood(StampFor(op, t, sid)) && AllGood(Stamp(op, t))
  {
    hide Decimal;
    DecimalPlain(t);
    DecimalPlain(sid);
    PlainKeys();
  }

  lemma PlainKeys()
    ensures PlainKey("op") && PlainKey("t") && PlainKey("s") && PlainKey("label") && PlainKey("family") && PlainKey("freq")
    ensures PlainKey("resumed") && PlainKey("f") && PlainKey("c") && PlainKey("on")
    ensures PlainLit("true") && PlainLit("false") && PlainLit("1") && PlainLit("0")
  {
  }

  lemma HeaderKeys()
    ensures PlainKey("op") && PlainKey("t") && PlainKey("v") && PlainKey("fresh")
    ensures PlainKey("instance") && PlainKey("name") && PlainKey("since") && PlainKey("max_calls")
    ensures PlainLit("true") && PlainLit("false") && PlainLit("1")
  {
  }

  lemma EventKeys()
    ensures |EVENT_KEYS| == 13 && forall i :: 0 <= i < 13 ==> PlainKey(EVENT_KEYS[i])
  {
  }

  lemma {:induction false} PresentGood(keys: seq<string>, values: seq<string>)
    requires |keys| == |values| && forall i :: 0 <= i < |keys| ==> PlainKey(keys[i]) && IsBytes(values[i])
    ensures AllGood(Present(keys, values))
  {
    if keys != [] {
      hide PlainKey;
      PresentGood(keys[..|keys| - 1], values[..|values| - 1]);
    }
  }

  lemma GoodBoth(a: seq<Field>, b: seq<Field>)
    requires AllGood(a) && AllGood(b)
    ensures AllGood(a + b)
  {
    hide Good;
  }

  lemma NamesAreBytes()
    ensures IsBytes("begin") && IsBytes("tune") && IsBytes("ev") && IsBytes("keep") && IsBytes("end") && IsBytes("remove")
    ensures IsBytes("clear") && IsBytes("header") && IsBytes("truncated")
  {
  }

  lemma FieldsGood(e: Entry)
    requires Writable(e) && !e.Snapshot?
    ensures AllGood(FieldsOf(e))
  {
    hide Decimal, PlainKey, PlainLit, IsBytes, EVENT_KEYS;
    PlainKeys();
    NamesAreBytes();
    match e
    case Header(t, _, _, _, since, maxCalls) =>
      HeaderKeys();
      DecimalPlain(t);
      DecimalPlain(since);
      DecimalPlain(maxCalls);
    case Logged(op) =>
      match op
      case Begin(t, sid, _, _, freq) =>
        BaseGood("begin", t, sid);
        DecimalPlain(freq);
      case Tune(t, sid, freq) =>
        BaseGood("tune", t, sid);
        DecimalPlain(freq);
      case Ev(t, sid, ev) =>
        BaseGood("ev", t, sid);
        EventKeys();
        PresentGood(EVENT_KEYS, ValuesOf(ev));
        GoodBoth(StampFor("ev", t, sid), Present(EVENT_KEYS, ValuesOf(ev)));
      case Keep(t, _, id, _) =>
        BaseGood("keep", t, 0);
        DecimalPlain(id);
      case End(t, sid) => BaseGood("end", t, sid);
      case Remove(t, sid) => BaseGood("remove", t, sid);
      case Clear(t) => BaseGood("clear", t, 0);
  }

  function EntryText(e: Entry): string
    requires Writable(e)
  {
    if e.Snapshot? then SNAPSHOT + e.body else FieldsGood(e); Line(FieldsOf(e))
  }

  // ---- reading one line ----

  function Get(k: map<string, string>, key: string): string {
    if key in k then k[key] else ""
  }

  function EventFrom(k: map<string, string>): DsdEvent {
    EventOf(seq(13, i requires 0 <= i < 13 => Get(k, EVENT_KEYS[i])))
  }

  /** A replay under way: the model, whether it has stopped, and what the file held. */
  datatype Out<S> = Out(m: S, stop: bool, lines: nat, bad: nat, truncated: bool)

  function Spoil<S>(o: Out<S>): Out<S> {
    o.(bad := o.bad + 1)
  }

  function TakeHeader<S>(o: Out<S>, k: map<string, string>, t: int, step: (S, LogOp) -> S): Out<S> {
    var m1 := if "instance" in k then step(o.m, SetIdentity(Get(k, "instance"), Get(k, "name"))) else o.m;
    var since := if "since" in k then Stoll(k["since"]) else Some(t);
    if since.None? then Spoil(o.(m := m1))
    else
      var m2 := step(m1, SetSince(since.value));
      var n := if "max_calls" in k then Stoull(k["max_calls"]) else Some(OLD_MAX_CALLS);
      if n.None? then Spoil(o.(m := m2)) else o.(m := step(m2, SetMaxCalls(n.value)))
  }

  /** The operation of a line; None where it is unknown or a number is missing. */
  function OpOf(k: map<string, string>, t: int, sid: nat): Option<LogOp> {
    var op := Get(k, "op");
    if op == "ev" then Some(Ev(t, sid, EventFrom(k)))
    else if op == "begin" then
      var freq := if "freq" in k then Stoll(k["freq"]) else Some(0);
      if freq.None? then None else Some(Begin(t, sid, Get(k, "label"), Get(k, "family"), freq.value))
    else if op == "tune" then
      var freq := Stoll(Get(k, "freq"));
      if freq.None? then None else Some(Tune(t, sid, freq.value))
    else if op == "keep" then
      var id := Stoull(Get(k, "c"));
      if id.None? then None else Some(Keep(t, Get(k, "f"), id.value, Get(k, "on") == "1"))
    else if op == "end" then Some(End(t, sid))
    else if op == "remove" then Some(Remove(t, sid))
    else if op == "clear" then Some(Clear(t))
    else None
  }

  function TakeFields<S>(o: Out<S>, k: map<string, string>, until: int, step: (S, LogOp) -> S): Out<S> {
    if Get(k, "op") == "truncated" then o.(truncated := true)
    else
      var t := if "t" in k then Stoll(k["t"]) else Some(0);
      if t.None? then Spoil(o)
      else if Get(k, "op") == "header" then TakeHeader(o, k, t.value, step)
      else if t.value > until then o.(stop := true)
      else
        var sid := if "s" in k then Stoull(k["s"]) else Some(0);
        if sid.None? then Spoil(o)
        else
          var op := OpOf(k, t.value, sid.value);
          if op.None? then Spoil(o) else o.(m := step(o.m, op.value))
  }

  function Handle<S>(o: Out<S>, line: string, until: int, step: (S, LogOp) -> S): Out<S> {
    if line == "" then o
    else
      var o1 := o.(lines := o.lines + 1);
      if SNAPSHOT <= line then o1
      else
        var k := ParseLine(line);
        if k.None? then Spoil(o1) else TakeFields(o1, k.value, until, step)
  }

  // ---- reading the file in pieces ----

  /** Where the first line end is; |s| without one. */
  function LineEnd(s: string): (n: nat)
    ensures n <= |s| && (n < |s| ==> s[n] == '\n') && forall i :: 0 <= i < n ==> s[i] != '\n'
  {
    if s == [] || s[0] == '\n' then 0
    else
      var n := LineEnd(s[1..]);
      assert forall i :: 0 < i < n + 1 ==> s[i] == s[1..][i - 1];
      n + 1
  }

  /** Handle the whole lines of buf; what is left over. */
  function Process<S>(o: Out<S>, buf: string, until: int, step: (S, LogOp) -> S): (Out<S>, string)
    decreases |buf|
  {
    var p := LineEnd(buf);
    if o.stop || p == |buf| then (o, buf) else Process(Handle(o, buf[..p], until, step), buf[p + 1..], until, step)
  }

  function Feed<S>(o: Out<S>, buf: string, chunks: seq<string>, until: int, step: (S, LogOp) -> S): (Out<S>, string)
    decreases |chunks|
  {
    if o.stop || chunks == [] then (o, buf)
    else
      var r := Process(o, buf + chunks[0], until, step);
      Feed(r.0, r.1, chunks[1..], until, step)
  }

  /** The last line may lack its end. */
  function Finish<S>(r: (Out<S>, string), until: int, step: (S, LogOp) -> S): Out<S> {
    if !r.0.stop && r.1 != "" then Handle(r.0, r.1, until, step) else r.0
  }

  function ReplayOf<S>(m: S, chunks: seq<string>, until: int, step: (S, LogOp) -> S): Out<S> {
    Finish(Feed(Out(m, false, 0, 0, false), "", chunks, until, step), until, step)
  }

  function Concat(chunks: seq<string>): string {
    if chunks == [] then "" else chunks[0] + Concat(chunks[1..])
  }

  lemma LineEndIs(s: string, n: nat)
    requires n <= |s| && (n < |s| ==> s[n] == '\n') && forall i :: 0 <= i < n ==> s[i] != '\n'
    ensures LineEnd(s) == n
  {
    var p := LineEnd(s);
    if p < n { assert false; }
    if n < p { assert false; }
  }

  /** More text after the whole lines changes nothing of how they are handled. */
  lemma {:induction false} ProcessMore<S>(o: Out<S>, a: string, b: string, until: int, step: (S, LogOp) -> S)
    ensures var r := Process(o, a, until, step);
            Process(o, a + b, until, step) == Process(r.0, r.1 + b, until, step)
    decreases |a|
  {
    hide Handle, LineEnd;
    var p := LineEnd(a);
    if !o.stop && p < |a| {
      LineEndIs(a + b, p);
      assert (a + b)[..p] == a[..p] && (a + b)[p + 1..] == a[p + 1..] + b;
      ProcessMore(Handle(o, a[..p], until, step), a[p + 1..], b, until, step);
    }
  }

  lemma StoppedStays<S>(o: Out<S>, buf: string, until: int, step: (S, LogOp) -> S)
    requires o.stop
    ensures Process(o, buf, until, step) == (o, buf)
  {
  }

  /** What is left once the whole lines are handled holds no line end. */
  lemma {:induction false} Settled<S>(o: Out<S>, a: string, until: int, step: (S, LogOp) -> S)
    ensures var r := Process(o, a, until, step);
            Process(r.0, r.1, until, step) == r
    decreases |a|
  {
    hide Handle;
    var p := LineEnd(a);
    if !o.stop && p < |a| { Settled(Handle(o, a[..p], until, step), a[p + 1..], until, step); }
  }

  lemma {:induction false} FeedIsProcess<S>(o: Out<S>, buf: string, chunks: seq<string>, until: int, step: (S, LogOp) -> S)
    requires Process(o, buf, until, step) == (o, buf)
    ensures var r, w := Feed(o, buf, chunks, until, step), Process(o, buf + Concat(chunks), until, step);
            r.0 == w.0 && (!r.0.stop ==> r.1 == w.1)
    decreases |chunks|
  {
    hide Process, Handle;
    if chunks == [] {
      assert buf + "" == buf;
    } else if o.stop {
      StoppedStays(o, buf + Concat(chunks), until, step);
    } else {
      var r := Process(o, buf + chunks[0], until, step);
      Settled(o, buf + chunks[0], until, step);
      FeedIsProcess(r.0, r.1, chunks[1..], until, step);
      ProcessMore(o, buf + chunks[0], Concat(chunks[1..]), until, step);
      assert buf + Concat(chunks) == buf + chunks[0] + Concat(chunks[1..]);
    }
  }

  /** However the text is cut into pieces, the replay is that of the whole text. */
  lemma PiecesDoNotMatter<S>(m: S, chunks: seq<string>, until: int, step: (S, LogOp) -> S)
    ensures ReplayOf(m, chunks, until, step) ==
            Finish(Process(Out(m, false, 0, 0, false), Concat(chunks), until, step), until, step)
  {
    hide Process, Handle, Feed;
    var o := Out(m, false, 0, 0, false);
    NothingYet(o, until, step);
    FeedIsProcess(o, "", chunks, until, step);
    assert "" + Concat(chunks) == Concat(chunks);
  }

  lemma NothingYet<S>(o: Out<S>, until: int, step: (S, LogOp) -> S)
    ensures Process(o, "", until, step) == (o, "")
  {
  }

  // ---- the round trip, line by line ----

  /** The operations an entry stands for. */
  function OpsOf(e: Entry): seq<LogOp> {
    match e
    case Header(_, _, instance, name, since, maxCalls) => [SetIdentity(instance, name), SetSince(since), SetMaxCalls(maxCalls)]
    case Snapshot(_) => []
    case Logged(op) => [op]
  }

  function ApplyAll<S>(m: S, ops: seq<LogOp>, step: (S, LogOp) -> S): S
    decreases |ops|
  {
    if ops == [] then m else ApplyAll(step(m, ops[0]), ops[1..], step)
  }

  predicate InTime(e: Entry, until: int) {
    e.Logged? && Written1(e.op) ==> e.op.t <= until
  }

  /** A key's value in the fields: the last that is given. */
  lemma MapOfSnoc(fs: seq<Field>, f: Field)
    ensures MapOf(fs + [f]) == MapOf(fs)[f.key := f.s]
  {
    assert (fs + [f])[..|fs|] == fs;
  }

  lemma StampMap(op: string, t: int)
    ensures MapOf(Stamp(op, t)) == map["op" := op, "t" := Decimal(t)]
  {
    hide Decimal;
    var fs := Stamp(op, t);
    MapOfSnoc([fs[0]], fs[1]);
    MapOfSnoc([], fs[0]);
    assert [fs[0]] == [] + [fs[0]] && fs == [fs[0]] + [fs[1]];
  }

  lemma StampForMap(op: string, t: int, sid: int)
    ensures MapOf(StampFor(op, t, sid)) == map["op" := op, "t" := Decimal(t), "s" := Decimal(sid)]
  {
    hide Decimal;
    StampMap(op, t);
    MapOfSnoc(Stamp(op, t), Int("s", sid));
    assert StampFor(op, t, sid) == Stamp(op, t) + [Int("s", sid)];
  }

  /** A field that is left out when it is empty. */
  function AddField(m: map<string, string>, k: string, v: string): map<string, string> {
    if v == "" then m else m[k := v]
  }

  lemma PresentLast(fs: seq<Field>, keys: seq<string>, values: seq<string>)
    requires |keys| == |values| && keys != []
    ensures var n := |keys| - 1;
            MapOf(fs + Present(keys, values)) == AddField(MapOf(fs + Present(keys[..n], values[..n])), keys[n], values[n])
  {
    hide MapOf;
    var n := |keys| - 1;
    var before := Present(keys[..n], values[..n]);
    if values[n] == "" {
      assert before + [] == before;
    } else {
      var f := Quote(keys[n], values[n]);
      assert fs + (before + [f]) == fs + before + [f];
      MapOfSnoc(fs + before, f);
    }
  }

  /** Every other key keeps what it had. */
  lemma {:induction false} PresentElse(fs: seq<Field>, keys: seq<string>, values: seq<string>, k: string)
    requires |keys| == |values| && k !in keys
    ensures var m := MapOf(fs + Present(keys, values));
            (k in m <==> k in MapOf(fs)) && Get(m, k) == Get(MapOf(fs), k)
  {
    hide MapOf;
    if keys == [] {
      assert fs + [] == fs;
    } else {
      var n := |keys| - 1;
      PresentLast(fs, keys, values);
      PresentElse(fs, keys[..n], values[..n], k);
    }
  }

  /** Each key then has its value. */
  lemma {:induction false} PresentAt(fs: seq<Field>, keys: seq<string>, values: seq<string>, i: nat)
    requires |keys| == |values| && i < |keys| && keys[i] !in MapOf(fs)
    requires forall i, j :: 0 <= i < j < |keys| ==> keys[i] != keys[j]
    ensures Get(MapOf(fs + Present(keys, values)), keys[i]) == values[i]
  {
    hide MapOf;
    var n := |keys| - 1;
    PresentLast(fs, keys, values);
    if i < n {
      PresentAt(fs, keys[..n], values[..n], i);
    } else {
      PresentElse(fs, keys[..n], values[..n], keys[n]);
    }
  }

  lemma KeysDiffer()
    ensures forall i, j :: 0 <= i < j < 13 ==> EVENT_KEYS[i] != EVENT_KEYS[j]
    ensures forall i :: 0 <= i < 13 ==> EVENT_KEYS[i] != "op" && EVENT_KEYS[i] != "t" && EVENT_KEYS[i] != "s"
  {
  }

  lemma NumbersBack(n: int)
    ensures Int64(n) ==> Stoll(Decimal(n)) == Some(n)
    ensures 0 <= n < UINT64 ==> Stoull(Decimal(n)) == Some(n)
    ensures -UINT64 < n < 0 ==> Stoull(Decimal(n)) == Some(n + UINT64)
    ensures (n <= -UINT64 || UINT64 <= n ==> Stoull(Decimal(n)) == None) && (!Int64(n) ==> Stoll(Decimal(n)) == None)
  {
    hide Decimal, Number;
    NumberBackAgain(n);
  }

  lemma EventBack(t: int, sid: int, e: DsdEvent)
    ensures var k := MapOf(StampFor("ev", t, sid) + Present(EVENT_KEYS, ValuesOf(e)));
            && Get(k, "op") == "ev" && "t" in k && k["t"] == Decimal(t) && "s" in k && k["s"] == Decimal(sid)
            && EventFrom(k) == e
  {
    hide MapOf, Decimal, EVENT_KEYS, Present;
    KeyCount();
    var fs := StampFor("ev", t, sid);
    var k := MapOf(fs + Present(EVENT_KEYS, ValuesOf(e)));
    StampForMap("ev", t, sid);
    KeysDiffer();
    PresentElse(fs, EVENT_KEYS, ValuesOf(e), "op");
    PresentElse(fs, EVENT_KEYS, ValuesOf(e), "t");
    PresentElse(fs, EVENT_KEYS, ValuesOf(e), "s");
    forall i | 0 <= i < 13 ensures Get(k, EVENT_KEYS[i]) == ValuesOf(e)[i] {
      PresentAt(fs, EVENT_KEYS, ValuesOf(e), i);
    }
    assert seq(13, i requires 0 <= i < 13 => Get(k, EVENT_KEYS[i])) == ValuesOf(e);
  }

  lemma KeyCount()
    ensures |EVENT_KEYS| == 13
  {
  }

  /** The map of a Begin line. */
  lemma BeginBack(op: LogOp)
    requires op.Begin?
    ensures var k := MapOf(BeginFields(op));
            && Get(k, "op") == "begin" && "t" in k && k["t"] == Decimal(op.t) && "s" in k && k["s"] == Decimal(op.sid)
            && Get(k, "label") == op.protocol && Get(k, "family") == op.family
            && ("freq" in k <==> op.freq != 0) && (op.freq != 0 ==> k["freq"] == Decimal(op.freq))
  {
    hide MapOf, Decimal;
    var base := StampFor("begin", op.t, op.sid);
    StampForMap("begin", op.t, op.sid);
    var a := base + [Quote("label", op.protocol)];
    MapOfSnoc(base, Quote("label", op.protocol));
    var freq := Int("freq", op.freq);
    if op.family == "" {
      if op.freq == 0 { assert BeginFields(op) == a; } else { assert BeginFields(op) == a + [freq]; MapOfSnoc(a, freq); }
    } else {
      var b := a + [Quote("family", op.family)];
      MapOfSnoc(a, Quote("family", op.family));
      var c := if op.freq == 0 then b else b + [freq];
      MapOfSnoc(b, freq);
      assert BeginFields(op) == c + [Lit("resumed", "true")];
      MapOfSnoc(c, Lit("resumed", "true"));
    }
  }

  lemma TuneKeepBack(t: int, sid: int, freq: int, family: string, id: int, on: bool)
    ensures MapOf(StampFor("tune", t, sid) + [Int("freq", freq)]) ==
            map["op" := "tune", "t" := Decimal(t), "s" := Decimal(sid), "freq" := Decimal(freq)]
    ensures MapOf(Stamp("keep", t) + [Quote("f", family), Int("c", id), Lit("on", if on then "1" else "0")]) ==
            map["op" := "keep", "t" := Decimal(t), "f" := family, "c" := Decimal(id), "on" := if on then "1" else "0"]
  {
    hide MapOf, Decimal;
    StampForMap("tune", t, sid);
    MapOfSnoc(StampFor("tune", t, sid), Int("freq", freq));
    var a, f, c, o := Stamp("keep", t), Quote("f", family), Int("c", id), Lit("on", if on then "1" else "0");
    StampMap("keep", t);
    MapOfSnoc(a, f);
    MapOfSnoc(a + [f], c);
    MapOfSnoc(a + [f] + [c], o);
    assert a + [f, c, o] == a + [f] + [c] + [o];
  }

  lemma HeaderBack(e: Entry)
    requires e.Header?
    ensures var k := MapOf(HeaderFields(e));
            && Get(k, "op") == "header" && "t" in k && k["t"] == Decimal(e.t)
            && "instance" in k && k["instance"] == e.instance && Get(k, "name") == e.name
            && "since" in k && k["since"] == Decimal(e.since) && "max_calls" in k && k["max_calls"] == Decimal(e.maxCalls)
  {
    hide MapOf, Decimal;
    var fs := HeaderFields(e);
    MapOfSnoc([], fs[0]);
    MapOfSnoc([fs[0]], fs[1]);
    MapOfSnoc(fs[..2], fs[2]);
    MapOfSnoc(fs[..3], fs[3]);
    MapOfSnoc(fs[..4], fs[4]);
    MapOfSnoc(fs[..5], fs[5]);
    MapOfSnoc(fs[..6], fs[6]);
    MapOfSnoc(fs[..7], fs[7]);
    assert [] + [fs[0]] == [fs[0]] && [fs[0]] + [fs[1]] == fs[..2] && fs[..2] + [fs[2]] == fs[..3];
    assert fs[..3] + [fs[3]] == fs[..4] && fs[..4] + [fs[4]] == fs[..5] && fs[..5] + [fs[5]] == fs[..6];
    assert fs[..6] + [fs[6]] == fs[..7] && fs[..7] + [fs[7]] == fs;
  }

  /** The fields of a written operation give it back, and one later than `until` stops the replay. */
  lemma OpBack<S>(o: Out<S>, op: LogOp, until: int, step: (S, LogOp) -> S)
    requires Writable(Logged(op))
    ensures TakeFields(o, MapOf(OpFields(op)), until, step) == if op.t > until then o.(stop := true) else o.(m := step(o.m, op))
  {
    hide TakeFields, MapOf, OpFields;
    match op
    case Begin(_, _, _, _, _) => BeginTaken(o, op, until, step);
    case Tune(_, _, _) => ChangeTaken(o, op, until, step);
    case Ev(_, _, _) => EventTaken(o, op, until, step);
    case Keep(_, _, _, _) => ChangeTaken(o, op, until, step);
    case _ => StampTaken(o, op, until, step);
  }

  lemma BeginTaken<S>(o: Out<S>, op: LogOp, until: int, step: (S, LogOp) -> S)
    requires Writable(Logged(op)) && op.Begin?
    ensures TakeFields(o, MapOf(OpFields(op)), until, step) == if op.t > until then o.(stop := true) else o.(m := step(o.m, op))
  {
    hide MapOf, Decimal, Stoll, Stoull, EventFrom, Present, EVENT_KEYS;
    BeginBack(op);
    NumbersBack(op.t);
    NumbersBack(op.sid);
    NumbersBack(op.freq);
  }

  lemma ChangeTaken<S>(o: Out<S>, op: LogOp, until: int, step: (S, LogOp) -> S)
    requires Writable(Logged(op)) && (op.Tune? || op.Keep?)
    ensures TakeFields(o, MapOf(OpFields(op)), until, step) == if op.t > until then o.(stop := true) else o.(m := step(o.m, op))
  {
    hide MapOf, Decimal, Stoll, Stoull, EventFrom, Present, EVENT_KEYS;
    NumbersBack(op.t);
    if op.Tune? {
      TuneKeepBack(op.t, op.sid, op.freq, "", 0, false);
      NumbersBack(op.sid);
      NumbersBack(op.freq);
    } else {
      TuneKeepBack(op.t, 0, 0, op.family, op.id, op.on);
      NumbersBack(op.id);
    }
  }

  lemma EventTaken<S>(o: Out<S>, op: LogOp, until: int, step: (S, LogOp) -> S)
    requires Writable(Logged(op)) && op.Ev?
    ensures TakeFields(o, MapOf(OpFields(op)), until, step) == if op.t > until then o.(stop := true) else o.(m := step(o.m, op))
  {
    hide MapOf, Decimal, Stoll, Stoull, EventFrom, Present, EVENT_KEYS;
    NumbersBack(op.t);
    EventBack(op.t, op.sid, op.e);
    NumbersBack(op.sid);
  }

  lemma StampTaken<S>(o: Out<S>, op: LogOp, until: int, step: (S, LogOp) -> S)
    requires Writable(Logged(op)) && (op.End? || op.Remove? || op.Clear?)
    ensures TakeFields(o, MapOf(OpFields(op)), until, step) == if op.t > until then o.(stop := true) else o.(m := step(o.m, op))
  {
    hide MapOf, Decimal, Stoll, Stoull, EventFrom, Present, EVENT_KEYS;
    NumbersBack(op.t);
    match op
    case End(t, sid) =>
      StampForMap("end", t, sid);
      NumbersBack(sid);
    case Remove(t, sid) =>
      StampForMap("remove", t, sid);
      NumbersBack(sid);
    case Clear(t) => StampMap("clear", t);
  }

  lemma HeaderTaken<S>(o: Out<S>, e: Entry, until: int, step: (S, LogOp) -> S)
    requires e.Header? && Writable(e)
    ensures TakeFields(o, MapOf(HeaderFields(e)), until, step) == o.(m := ApplyAll(o.m, OpsOf(e), step))
  {
    hide MapOf, Decimal, Stoll, Stoull, HeaderFields;
    HeaderBack(e);
    NumbersBack(e.t);
    NumbersBack(e.since);
    NumbersBack(e.maxCalls);
    var ops := OpsOf(e);
    assert ops[1..] == [ops[1], ops[2]] && ops[1..][1..] == [ops[2]] && ops[1..][1..][1..] == [];
    var m1 := step(o.m, ops[0]);
    var m2 := step(m1, ops[1]);
    assert ApplyAll(m2, [ops[2]], step) == step(m2, ops[2]);
    assert ApplyAll(m1, ops[1..], step) == ApplyAll(m2, [ops[2]], step);
  }

  /** No operation's line looks like a snapshot. */
  lemma NotSnapshot(fs: seq<Field>, op: string)
    requires fs != [] && AllGood(fs) && fs[0] == Quote("op", op) && op != "" && op[0] != 's' && 'a' <= op[0] <= 'z'
    ensures Line(fs) != "" && !(SNAPSHOT <= Line(fs))
  {
    var s := Line(fs);
    assert Esc(op)[0] == op[0];
    assert FieldText(fs[0])[..7] == "\"op\":\"" + [op[0]];
    assert FieldsText(fs)[..7] == FieldText(fs[0])[..7];
    assert s[7] == FieldsText(fs)[6] == op[0];
    assert SNAPSHOT[7] == 's';
  }

  lemma OpName(e: Entry)
    requires Writable(e) && !e.Snapshot?
    ensures var f := FieldsOf(e)[0];
            f.Quote? && f.key == "op" && f.s != "" && f.s[0] != 's' && 'a' <= f.s[0] <= 'z'
  {
    hide Decimal, Present;
  }

  lemma EntryBack<S>(o: Out<S>, e: Entry, until: int, step: (S, LogOp) -> S)
    requires Writable(e)
    ensures Handle(o, EntryText(e), until, step) ==
            if InTime(e, until) then o.(lines := o.lines + 1, m := ApplyAll(o.m, OpsOf(e), step))
            else o.(lines := o.lines + 1, stop := true)
  {
    hide ParseLine, Line, MapOf, FieldsOf, TakeFields;
    if e.Snapshot? {
      assert (SNAPSHOT + e.body)[..|SNAPSHOT|] == SNAPSHOT;
    } else {
      FieldsGood(e);
      LineBack(FieldsOf(e));
      OpName(e);
      NotSnapshot(FieldsOf(e), FieldsOf(e)[0].s);
      FieldsTaken(o.(lines := o.lines + 1), e, until, step);
    }
  }

  lemma FieldsTaken<S>(o: Out<S>, e: Entry, until: int, step: (S, LogOp) -> S)
    requires Writable(e) && !e.Snapshot?
    ensures TakeFields(o, MapOf(FieldsOf(e)), until, step) ==
            if InTime(e, until) then o.(m := ApplyAll(o.m, OpsOf(e), step)) else o.(stop := true)
  {
    hide TakeFields, MapOf, OpFields, HeaderFields;
    if e.Header? {
      HeaderTaken(o, e, until, step);
    } else {
      OpBack(o, e.op, until, step);
      assert [e.op][1..] == [];
      assert ApplyAll(step(o.m, e.op), [], step) == step(o.m, e.op);
    }
  }

  lemma OneLine(e: Entry)
    requires Writable(e)
    ensures EntryText(e) != "" && '\n' !in EntryText(e)
  {
    hide Line, FieldsOf;
    if !e.Snapshot? {
      FieldsGood(e);
      LinePrintable(FieldsOf(e));
      OpName(e);
      NotSnapshot(FieldsOf(e), FieldsOf(e)[0].s);
    } else {
      assert '\n' !in SNAPSHOT;
    }
  }

  // ---- the recorder and its cap ----

  const TRUNCATED: string := "{" + ("\"" + "op" + "\":" + ("\"" + "truncated" + "\"")) + "}"

  /** The recorder's file: the text so far, the bytes counted, and whether the cap was reached. */
  datatype Recorder = Recorder(text: string, bytes: nat, truncated: bool)

  function Record(r: Recorder, e: Entry, max: nat): Recorder
    requires Writable(e)
  {
    var line := EntryText(e);
    if r.truncated then r
    else if max > 0 && r.bytes + |line| + 1 > max then r.(text := r.text + TRUNCATED + "\n", truncated := true)
    else Recorder(r.text + line + "\n", r.bytes + |line| + 1, false)
  }

  predicate AllWritable(es: seq<Entry>) {
    forall i :: 0 <= i < |es| ==> Writable(es[i])
  }

  /** The file after the entries, with a cap of max bytes (0: none). */
  function Recorded(es: seq<Entry>, max: nat): Recorder
    requires AllWritable(es)
  {
    if es == [] then Recorder("", 0, false) else Record(Recorded(es[..|es| - 1], max), es[|es| - 1], max)
  }

  /** How many of the entries the file holds. */
  function HeldCount(es: seq<Entry>, max: nat): (n: nat)
    requires AllWritable(es)
    ensures n <= |es| && (Recorded(es, max).truncated <==> n < |es|)
  {
    if es == [] then 0
    else
      var n := HeldCount(es[..|es| - 1], max);
      if Recorded(es, max).truncated then n else n + 1
  }

  function AllOps(es: seq<Entry>): seq<LogOp> {
    if es == [] then [] else AllOps(es[..|es| - 1]) + OpsOf(es[|es| - 1])
  }

  lemma {:induction false} ApplyBoth<S>(m: S, a: seq<LogOp>, b: seq<LogOp>, step: (S, LogOp) -> S)
    ensures ApplyAll(m, a + b, step) == ApplyAll(ApplyAll(m, a, step), b, step)
    decreases |a|
  {
    if a == [] {
      assert a + b == b;
    } else {
      assert (a + b)[0] == a[0] && (a + b)[1..] == a[1..] + b;
      ApplyBoth(step(m, a[0]), a[1..], b, step);
    }
  }

  /** One whole line more. */
  lemma ProcessLine<S>(o: Out<S>, text: string, line: string, until: int, step: (S, LogOp) -> S)
    requires '\n' !in line && !Process(o, text, until, step).0.stop && Process(o, text, until, step).1 == ""
    ensures Process(o, text + line + "\n", until, step) == (Handle(Process(o, text, until, step).0, line, until, step), "")
  {
    hide Handle;
    var r := Process(o, text, until, step);
    assert text + line + "\n" == text + (line + "\n");
    ProcessMore(o, text, line + "\n", until, step);
    assert "" + (line + "\n") == line + "\n";
    LineEndIs(line + "\n", |line|);
    assert (line + "\n")[..|line|] == line && (line + "\n")[|line| + 1..] == "";
    NothingYet(Handle(r.0, line, until, step), until, step);
  }

  lemma TruncatedLine<S>(o: Out<S>, until: int, step: (S, LogOp) -> S)
    ensures '\n' !in TRUNCATED
    ensures Handle(o, TRUNCATED, until, step) == o.(lines := o.lines + 1, truncated := true)
  {
    hide ParseLine, MapOf, Esc, PlainKey, IsBytes, TRUNCATED, Line, AllGood;
    var fs := [Quote("op", "truncated")];
    TruncatedText();
    LineBack(fs);
    LinePrintable(fs);
    NotSnapshot(fs, "truncated");
    TruncatedMap();
  }

  lemma TruncatedMap()
    ensures MapOf([Quote("op", "truncated")]) == map["op" := "truncated"]
  {
    var fs := [Quote("op", "truncated")];
    assert fs[..0] == [];
  }

  lemma TruncatedText()
    ensures AllGood([Quote("op", "truncated")]) && Line([Quote("op", "truncated")]) == TRUNCATED
  {
    NamesAreBytes();
    PlainKeys();
    PlainEsc("truncated");
    hide Esc, PlainKey, PlainLit, IsBytes;
    var f := Quote("op", "truncated");
    assert FieldsText([f]) == FieldText(f) + "" == FieldText(f);
  }

  lemma {:induction false} PlainEsc(s: string)
    requires IsBytes(s) && forall i :: 0 <= i < |s| ==> 'a' <= s[i] <= 'z'
    ensures Esc(s) == s
  {
    if s != [] {
      PlainEsc(s[1..]);
      assert EscByte(s[0]) == [s[0]];
      assert s == [s[0]] + s[1..];
    }
  }

  /** The first entry later than `until`; |es| without one. */
  function FirstLate(es: seq<Entry>, until: int): (k: nat)
    ensures k <= |es| && (k < |es| ==> !InTime(es[k], until)) && forall i :: 0 <= i < k ==> InTime(es[i], until)
  {
    if es == [] then 0 else if !InTime(es[0], until) then 0 else 1 + FirstLate(es[1..], until)
  }

  lemma FirstLateIs(es: seq<Entry>, until: int, k: nat)
    requires k <= |es| && (k < |es| ==> !InTime(es[k], until)) && forall i :: 0 <= i < k ==> InTime(es[i], until)
    ensures FirstLate(es, until) == k
  {
    hide InTime;
    var f := FirstLate(es, until);
    if f < k { assert false; }
    if k < f { assert false; }
  }

  /** How many of the entries in the file come before the first late one. */
  function Reached(es: seq<Entry>, max: nat, until: int): nat
    requires AllWritable(es)
  {
    FirstLate(es[..HeldCount(es, max)], until)
  }

  /** The replay of the file: the entries before the first late one are applied, and of the others only that one's line,
      or else the mark of a cut-short file, is looked at. */
  ghost predicate ReadBack<S>(m: S, es: seq<Entry>, max: nat, until: int, step: (S, LogOp) -> S, o: Out<S>)
    requires AllWritable(es)
  {
    var n, k := HeldCount(es, max), Reached(es, max, until);
    && o.m == ApplyAll(m, AllOps(es[..k]), step) && o.bad == 0
    && (o.stop <==> exists i :: 0 <= i < n && !InTime(es[i], until))
    && (o.truncated <==> n < |es| && !o.stop)
    && o.lines == k + if o.stop || o.truncated then 1 else 0
  }

  /** What the recorder wrote is what is read. */
  lemma {:induction false} RecordedBack<S>(m: S, es: seq<Entry>, max: nat, until: int, step: (S, LogOp) -> S)
    requires AllWritable(es)
    ensures var r := Process(Out(m, false, 0, 0, false), Recorded(es, max).text, until, step);
            ReadBack(m, es, max, until, step, r.0) && (!r.0.stop ==> r.1 == "")
  {
    hide Process, Handle, EntryText, Writable, InTime, ApplyAll, OpsOf, TRUNCATED, ReadBack, Reached;
    var o := Out(m, false, 0, 0, false);
    if es == [] {
      NothingYet(o, until, step);
      NothingRead(m, max, until, step);
    } else {
      var before, e := es[..|es| - 1], es[|es| - 1];
      RecordedBack(m, before, max, until, step);
      var was := Recorded(before, max);
      var r := Process(o, was.text, until, step);
      OneLine(e);
      HeldStep(es, max);
      if Recorded(es, max).truncated {
        NoRoom(m, es, max, until, step, r.0);
        if !was.truncated {
          TruncatedLine(r.0, until, step);
          AfterLine(o, was.text, TRUNCATED, until, step);
          NotYetCut(m, before, max, until, step, r.0);
        } else {
          CutShort(m, before, max, until, step, r.0);
        }
      } else {
        EntryBack(r.0, e, until, step);
        AfterLine(o, was.text, EntryText(e), until, step);
        if r.0.stop || !InTime(e, until) {
          StopsAt(m, es, max, until, step, r.0);
        } else {
          ReadsOn(m, es, max, until, step, r.0);
        }
      }
    }
  }

  lemma CutShort<S>(m: S, es: seq<Entry>, max: nat, until: int, step: (S, LogOp) -> S, o: Out<S>)
    requires AllWritable(es) && Recorded(es, max).truncated && ReadBack(m, es, max, until, step, o)
    ensures o.truncated || o.stop
  {
    hide Recorded, ApplyAll, AllOps, InTime;
  }

  lemma NotYetCut<S>(m: S, es: seq<Entry>, max: nat, until: int, step: (S, LogOp) -> S, o: Out<S>)
    requires AllWritable(es) && !Recorded(es, max).truncated && ReadBack(m, es, max, until, step, o)
    ensures !o.truncated
  {
    hide Recorded, ApplyAll, AllOps, InTime;
  }

  lemma NothingRead<S>(m: S, max: nat, until: int, step: (S, LogOp) -> S)
    ensures ReadBack(m, [], max, until, step, Out(m, false, 0, 0, false))
  {
    NoOps(m, step);
  }

  /** One whole line more: read on, or nothing once the replay has stopped. */
  lemma AfterLine<S>(o: Out<S>, text: string, line: string, until: int, step: (S, LogOp) -> S)
    requires '\n' !in line && (!Process(o, text, until, step).0.stop ==> Process(o, text, until, step).1 == "")
    ensures var r, w := Process(o, text, until, step), Process(o, text + line + "\n", until, step);
            w.0 == (if r.0.stop then r.0 else Handle(r.0, line, until, step)) && (!w.0.stop ==> w.1 == "")
  {
    hide Handle;
    var r := Process(o, text, until, step);
    if r.0.stop {
      assert text + line + "\n" == text + (line + "\n");
      ProcessMore(o, text, line + "\n", until, step);
      StoppedStays(r.0, r.1 + (line + "\n"), until, step);
    } else {
      ProcessLine(o, text, line, until, step);
    }
  }

  /** The file holds all entries while it has room for them. */
  lemma HeldStep(es: seq<Entry>, max: nat)
    requires AllWritable(es) && es != []
    ensures var before := es[..|es| - 1];
            var n, n1 := HeldCount(before, max), HeldCount(es, max);
            && before[..n] == es[..n]
            && (if Recorded(es, max).truncated then n1 == n else n == |before| && n1 == |es|)
            && (Recorded(before, max).truncated ==> Recorded(es, max).truncated)
  {
    hide EntryText, Writable;
  }

  /** The file took no entry more. */
  lemma NoRoom<S>(m: S, es: seq<Entry>, max: nat, until: int, step: (S, LogOp) -> S, o: Out<S>)
    requires AllWritable(es) && es != [] && Recorded(es, max).truncated
    requires ReadBack(m, es[..|es| - 1], max, until, step, o)
    ensures ReadBack(m, es, max, until, step, if o.truncated || o.stop then o else o.(lines := o.lines + 1, truncated := true))
  {
    hide Recorded, HeldCount, FirstLate, InTime, ApplyAll, AllOps, Writable;
    var before := es[..|es| - 1];
    HeldStep(es, max);
    var n := HeldCount(before, max);
    assert forall i :: 0 <= i < n ==> before[i] == es[i];
    assert es[..Reached(es, max, until)] == before[..Reached(es, max, until)];
  }

  lemma StopsAt<S>(m: S, es: seq<Entry>, max: nat, until: int, step: (S, LogOp) -> S, o: Out<S>)
    requires AllWritable(es) && es != [] && !Recorded(es, max).truncated && (o.stop || !InTime(es[|es| - 1], until))
    requires ReadBack(m, es[..|es| - 1], max, until, step, o)
    ensures ReadBack(m, es, max, until, step, if o.stop then o else o.(lines := o.lines + 1, stop := true))
  {
    hide Recorded, HeldCount, FirstLate, InTime, ApplyAll, AllOps, Writable;
    var before := es[..|es| - 1];
    HeldStep(es, max);
    var k := Reached(before, max, until);
    assert before[..|before|] == before && es[..|es|] == es;
    assert forall i :: 0 <= i < |before| ==> before[i] == es[i];
    FirstLateIs(es, until, k);
    assert es[..k] == before[..k];
    if o.stop {
      var i :| 0 <= i < |before| && !InTime(before[i], until);
      assert !InTime(es[i], until);
    } else {
      assert !InTime(es[|es| - 1], until);
    }
  }

  lemma ReadsOn<S>(m: S, es: seq<Entry>, max: nat, until: int, step: (S, LogOp) -> S, o: Out<S>)
    requires AllWritable(es) && es != [] && !Recorded(es, max).truncated && !o.stop && InTime(es[|es| - 1], until)
    requires ReadBack(m, es[..|es| - 1], max, until, step, o)
    ensures ReadBack(m, es, max, until, step, o.(lines := o.lines + 1, m := ApplyAll(o.m, OpsOf(es[|es| - 1]), step)))
  {
    hide Recorded, HeldCount, FirstLate, InTime, ApplyAll, OpsOf, Writable;
    var before, e := es[..|es| - 1], es[|es| - 1];
    HeldStep(es, max);
    assert before[..|before|] == before && es[..|es|] == es;
    assert forall i :: 0 <= i < |before| ==> before[i] == es[i];
    FirstLateIs(before, until, |before|);
    FirstLateIs(es, until, |es|);
    ApplyBoth(m, AllOps(before), OpsOf(e), step);
  }

  lemma NoOps<S>(m: S, step: (S, LogOp) -> S)
    ensures ApplyAll(m, AllOps([]), step) == m
  {
  }

  /** Whatever is recorded, whatever bytes its texts hold, however the file is cut into pieces when read and whatever
      time it is read up to: the replay applies exactly the recorded operations, with their times, sessions and texts,
      up to the size cap and before the first that is later than that time. */
  lemma RoundTrip<S>(m: S, es: seq<Entry>, max: nat, chunks: seq<string>, until: int, step: (S, LogOp) -> S)
    requires AllWritable(es) && Concat(chunks) == Recorded(es, max).text
    ensures ReadBack(m, es, max, until, step, ReplayOf(m, chunks, until, step))
    ensures max == 0 ==> HeldCount(es, max) == |es|
  {
    hide Process, Handle, Feed, ApplyAll, Recorded, InTime, Writable, ReadBack;
    RecordedBack(m, es, max, until, step);
    PiecesDoNotMatter(m, chunks, until, step);
    if max == 0 { NoCap(es); }
  }

  lemma {:induction false} NoCap(es: seq<Entry>)
    requires AllWritable(es)
    ensures !Recorded(es, 0).truncated
  {
    hide EntryText, Writable;
    if es != [] { NoCap(es[..|es| - 1]); }
  }

  // ---- the program's loops ----

  method FindLineEnd(buf: string, start: nat) returns (pos: nat)
    requires start <= |buf|
    ensures start <= pos <= |buf| && LineEnd(buf[start..]) == pos - start
  {
    pos := start;
    while pos < |buf| && buf[pos] != '\n'
      invariant start <= pos <= |buf| && forall i :: start <= i < pos ==> buf[i] != '\n'
    {
      pos := pos + 1;
    }
    LineEndIs(buf[start..], pos - start);
  }

  method ParseText(line: string) returns (k: Option<map<string, string>>)
    ensures k == ParseLine(line)
  {
    hide ParseLine;
    var p := new LineReader(line);
    var ok, out := p.Parse();
    k := if ok then Some(out) else None;
  }

  /** Read the file piece by piece, handling each whole line as it is there. */
  method ReplayLog<S>(m: S, chunks: seq<string>, until: int, step: (S, LogOp) -> S) returns (o: Out<S>)
    ensures o == ReplayOf(m, chunks, until, step)
  {
    hide Handle, Process;
    o := Out(m, false, 0, 0, false);
    var buf := "";
    var c := 0;
    assert chunks[0..] == chunks;
    while !o.stop && c < |chunks|
      invariant c <= |chunks| && Feed(o, buf, chunks[c..], until, step) == Feed(Out(m, false, 0, 0, false), "", chunks, until, step)
      decreases |chunks| - c
    {
      assert chunks[c..][0] == chunks[c] && chunks[c..][1..] == chunks[c + 1..];
      o, buf := TakeChunk(o, buf + chunks[c], until, step);
      c := c + 1;
    }
    if !o.stop && buf != "" { o := HandleLine(o, buf, until, step); }
  }

  lemma ProcessNext<S>(o: Out<S>, buf: string, start: nat, pos: nat, until: int, step: (S, LogOp) -> S)
    requires start <= pos <= |buf| && LineEnd(buf[start..]) == pos - start
    ensures Process(o, buf[start..], until, step) ==
            if o.stop || pos == |buf| then (o, buf[start..])
            else Process(Handle(o, buf[start..pos], until, step), buf[pos + 1..], until, step)
  {
    hide Handle, LineEnd;
    if pos < |buf| {
      assert buf[start..][..pos - start] == buf[start..pos] && buf[start..][pos - start + 1..] == buf[pos + 1..];
    }
  }

  method TakeChunk<S>(o0: Out<S>, buf0: string, until: int, step: (S, LogOp) -> S) returns (o: Out<S>, buf: string)
    ensures (o, buf) == Process(o0, buf0, until, step)
  {
    hide Handle, Process, LineEnd;
    o := o0;
    var start := 0;
    assert buf0[0..] == buf0;
    var pos := FindLineEnd(buf0, start);
    while !o.stop && pos < |buf0|
      invariant start <= pos <= |buf0| && LineEnd(buf0[start..]) == pos - start
      invariant Process(o, buf0[start..], until, step) == Process(o0, buf0, until, step)
      decreases |buf0| - start
    {
      ProcessNext(o, buf0, start, pos, until, step);
      o := HandleLine(o, buf0[start..pos], until, step);
      start := pos + 1;
      pos := FindLineEnd(buf0, start);
    }
    ProcessNext(o, buf0, start, pos, until, step);
    buf := buf0[start..];
  }

  method HandleLine<S>(o: Out<S>, line: string, until: int, step: (S, LogOp) -> S) returns (r: Out<S>)
    ensures r == Handle(o, line, until, step)
  {
    hide TakeFields, ParseLine;
    if line == "" { return o; }
    r := o.(lines := o.lines + 1);
    if SNAPSHOT <= line { return; }
    var k := ParseText(line);
    if k.None? { return Spoil(r); }
    r := TakeFields(r, k.value, until, step);
  }
}
