/** The recording's lines: flat objects whose strings keep every byte, read back field by field. */
module LogLines {
  import opened Basics
  import opened Json

  /** Strings hold bytes. */
  predicate IsBytes(s: string) {
    forall i :: 0 <= i < |s| ==> s[i] as int < 256
  }

  // ---- writing ----

  /** One byte of a quoted string: everything outside printable ASCII is spelled out. */
  function EscByte(c: char): (r: string)
    requires c as int < 256
    ensures |r| > 0 && r[0] != '"'
  {
    if c == '"' then "\\\""
    else if c == '\\' then "\\\\"
    else if c < ' ' || c as int >= 0x7F then "\\u00" + [HexDigit(c as int / 16), HexDigit(c as int % 16)]
    else [c]
  }

  function Esc(s: string): string
    requires IsBytes(s)
  {
    if s == [] then [] else EscByte(s[0]) + Esc(s[1..])
  }

  function Q(s: string): string
    requires IsBytes(s)
  {
    "\"" + Esc(s) + "\""
  }

  method EscLoop(s: string) returns (o: string)
    requires IsBytes(s)
    ensures o == Esc(s)
  {
    hide EscByte;
    o := "";
    for i := 0 to |s|
      invariant o == Esc(s[..i])
    {
      assert s[..i + 1] == s[..i] + [s[i]];
      EscMore(s[..i], s[i]);
      o := o + EscByte(s[i]);
    }
    assert s[..|s|] == s;
  }

  lemma {:induction false} EscMore(s: string, c: char)
    requires IsBytes(s) && c as int < 256
    ensures IsBytes(s + [c]) && Esc(s + [c]) == Esc(s) + EscByte(c)
  {
    hide EscByte;
    var t := s + [c];
    assert IsBytes(t);
    if s == [] {
      assert t == [c] && [c][1..] == [];
      assert EscByte(c) + [] == EscByte(c);
    } else {
      assert t[0] == s[0] && t[1..] == s[1..] + [c];
      EscMore(s[1..], c);
      assert EscByte(s[0]) + (Esc(s[1..]) + EscByte(c)) == EscByte(s[0]) + Esc(s[1..]) + EscByte(c);
    }
  }

  /** A field of a line: a quoted string, or a literal (a number, true or false). */
  datatype Field = Quote(key: string, s: string) | Lit(key: string, s: string)

  predicate PlainKey(k: string) {
    forall i :: 0 <= i < |k| ==> ' ' <= k[i] <= '~' && k[i] != '"' && k[i] != '\\'
  }

  /** A literal that ends where the next comma or brace comes. */
  predicate PlainLit(s: string) {
    s != "" && forall i :: 0 <= i < |s| ==> '!' <= s[i] <= '~' && s[i] != ',' && s[i] != '}' && s[i] != '"'
  }

  predicate Good(f: Field) {
    PlainKey(f.key) && match f case Quote(_, s) => IsBytes(s) case Lit(_, s) => PlainLit(s)
  }

  function FieldText(f: Field): string
    requires Good(f)
  {
    "\"" + f.key + "\":" + match f case Quote(_, s) => Q(s) case Lit(_, s) => s
  }

  predicate AllGood(fs: seq<Field>) {
    forall i :: 0 <= i < |fs| ==> Good(fs[i])
  }

  function FieldsText(fs: seq<Field>): string
    requires fs != [] && AllGood(fs)
  {
    FieldText(fs[0]) + if |fs| == 1 then "" else "," + FieldsText(fs[1..])
  }

  /** A whole line, without its line end. */
  function Line(fs: seq<Field>): string
    requires fs != [] && AllGood(fs)
  {
    "{" + FieldsText(fs) + "}"
  }

  // ---- a line is one line ----

  predicate Printable(s: string) {
    forall i :: 0 <= i < |s| ==> ' ' <= s[i] <= '~'
  }

  lemma PrintableBoth(a: string, b: string)
    requires Printable(a) && Printable(b)
    ensures Printable(a + b)
  {
  }

  lemma {:induction false} EscPrintable(s: string)
    requires IsBytes(s)
    ensures Printable(Esc(s))
  {
    if s != [] {
      EscPrintable(s[1..]);
      EscBytePrintable(s[0]);
      hide Printable, EscByte;
      PrintableBoth(EscByte(s[0]), Esc(s[1..]));
    }
  }

  lemma EscBytePrintable(c: char)
    requires c as int < 256
    ensures Printable(EscByte(c))
  {
  }

  lemma FieldPrintable(f: Field)
    requires Good(f)
    ensures Printable(FieldText(f))
  {
    hide Esc;
    match f
    case Quote(_, s) => EscPrintable(s);
    case Lit(_, s) =>
  }

  lemma {:induction false} FieldsPrintable(fs: seq<Field>)
    requires fs != [] && AllGood(fs)
    ensures Printable(FieldsText(fs))
  {
    FieldPrintable(fs[0]);
    if |fs| > 1 {
      FieldsPrintable(fs[1..]);
      hide Printable, FieldText;
      CommaPrintable();
      PrintableBoth(",", FieldsText(fs[1..]));
      PrintableBoth(FieldText(fs[0]), "," + FieldsText(fs[1..]));
    } else {
      assert FieldText(fs[0]) + "" == FieldText(fs[0]);
    }
  }

  lemma CommaPrintable()
    ensures Printable(",")
  {
  }

  /** No byte of a line is a line end, whatever its strings hold. */
  lemma LinePrintable(fs: seq<Field>)
    requires fs != [] && AllGood(fs)
    ensures Printable(Line(fs))
  {
    hide FieldsText;
    FieldsPrintable(fs);
  }

  // ---- reading ----

  predicate Blank(c: char) {
    c == ' ' || c == '\t' || c == '\r'
  }

  function Ws(s: string): (r: string)
    ensures |r| <= |s|
  {
    if s != [] && Blank(s[0]) then Ws(s[1..]) else s
  }

  /** Hex digits from the front of s onto v, until something else comes. */
  function HexRun(s: string, v: nat): nat {
    if s != [] && HexValue(s[0]) >= 0 then HexRun(s[1..], 16 * v + HexValue(s[0])) else v
  }

  /** std::stoul to base 16, as an unsigned: space, a sign and "0x" may come first; None where it throws. */
  function Stoul16(s: string): Option<nat> {
    var t := Skip(s);
    var neg := t != [] && t[0] == '-';
    var u := if t != [] && (t[0] == '-' || t[0] == '+') then t[1..] else t;
    var h := if |u| > 2 && u[0] == '0' && (u[1] == 'x' || u[1] == 'X') && HexValue(u[2]) >= 0 then u[2..] else u;
    if h == [] || HexValue(h[0]) < 0 then None
    else
      var v := HexRun(h, 0);
      Some(if neg then (0x1_0000_0000 - v % 0x1_0000_0000) % 0x1_0000_0000 else v % 0x1_0000_0000)
  }

  /** The bytes a \u escape stands for: one raw byte up to 0xff. */
  function CodeBytes(cp: nat): string
    requires cp < 0x1_0000_0000
  {
    if cp <= 0xFF then [cp as char]
    else if cp < 0x800 then [(0xC0 + cp / 0x40) as char, (0x80 + cp % 0x40) as char]
    else [(if cp < 0x1_0000 then 0xE0 + cp / 0x1000 else 0xFF) as char, (0x80 + cp / 0x40 % 0x40) as char,
          (0x80 + cp % 0x40) as char]
  }

  function LogUnescape(s: string): (r: Option<(string, string)>)
    ensures r.Some? ==> |r.value.1| < |s|
  {
    if s == [] || s[0] != 'u' then Unescape(s)
    else if |s| < 5 then None
    else
      var cp := Stoul16(s[1..5]);
      if cp.None? then None else Some((CodeBytes(cp.value % 0x1_0000_0000), s[5..]))
  }

  /** The bytes b are the UTF-8 form of n, in two or three bytes. */
  predicate IsUtf8(b: string, n: nat) {
    if n < 0x800 then
      && |b| == 2 && 0xC0 <= b[0] as int < 0xE0 && 0x80 <= b[1] as int < 0xC0
      && n == 0x40 * (b[0] as int - 0xC0) + (b[1] as int - 0x80)
    else
      && |b| == 3 && 0xE0 <= b[0] as int < 0xF0 && 0x80 <= b[1] as int < 0xC0 && 0x80 <= b[2] as int < 0xC0
      && n == 0x1000 * (b[0] as int - 0xE0) + 0x40 * (b[1] as int - 0x80) + (b[2] as int - 0x80)
  }

  /** A \u escape of any four hexadecimal digits, in either case, is read: as one byte up to 0xff, and beyond as the
      UTF-8 form of what it writes; what follows it is left. */
  lemma CodeRead(h: string, rest: string)
    requires |h| == 4 && forall i :: 0 <= i < 4 ==> HexValue(h[i]) >= 0
    ensures var n := 0x1000 * HexValue(h[0]) + 0x100 * HexValue(h[1]) + 0x10 * HexValue(h[2]) + HexValue(h[3]);
            var r := LogUnescape("u" + h + rest);
            r.Some? && r.value.1 == rest && if n <= 0xFF then r.value.0 == [n as char] else IsUtf8(r.value.0, n)
  {
    hide HexValue, CodeBytes, HexRun, Skip;
    var s := "u" + h + rest;
    assert s[1..5] == h && s[5..] == rest;
    HexIsPlain(h[0]);
    HexIsPlain(h[1]);
    SkipNone(h);
    FourHex(h);
    var n := 0x1000 * HexValue(h[0]) + 0x100 * HexValue(h[1]) + 0x10 * HexValue(h[2]) + HexValue(h[3]);
    assert n < 0x1_0000;
    CodeIsUtf8(n);
  }

  lemma HexIsPlain(c: char)
    requires HexValue(c) >= 0
    ensures !IsSpace(c) && c != '-' && c != '+' && c != 'x' && c != 'X'
  {
  }

  lemma FourHex(h: string)
    requires |h| == 4 && forall i :: 0 <= i < 4 ==> HexValue(h[i]) >= 0
    ensures HexRun(h, 0) == 0x1000 * HexValue(h[0]) + 0x100 * HexValue(h[1]) + 0x10 * HexValue(h[2]) + HexValue(h[3])
  {
    hide HexValue;
    var a, b, c := h[1..], h[2..], h[3..];
    assert a[0] == h[1] && a[1..] == b && b[0] == h[2] && b[1..] == c && c[0] == h[3] && c[1..] == [];
    var v := HexValue(h[0]);
    var w := 16 * v + HexValue(h[1]);
    var x := 16 * w + HexValue(h[2]);
    assert HexRun(h, 0) == HexRun(a, v);
    assert HexRun(a, v) == HexRun(b, w);
    assert HexRun(b, w) == HexRun(c, x);
    assert HexRun(c, x) == HexRun([], 16 * x + HexValue(h[3]));
  }

  lemma CodeIsUtf8(n: nat)
    requires n < 0x1_0000
    ensures if n <= 0xFF then CodeBytes(n) == [n as char] else IsUtf8(CodeBytes(n), n)
  {
    var q := n / 0x40;
    assert n == 0x40 * q + n % 0x40 && q == 0x40 * (q / 0x40) + q % 0x40 && n / 0x1000 == q / 0x40;
  }

  /** The rest of a string, after its opening quote. */
  function StrRest(s: string): (r: Option<(string, string)>)
    ensures r.Some? ==> |r.value.1| < |s|
    decreases |s|
  {
    if s == [] then None
    else if s[0] == '"' then Some(([], s[1..]))
    else
      var piece := if s[0] == '\\' then LogUnescape(s[1..]) else Some(([s[0]], s[1..]));
      if piece.None? then None
      else
        var rest := StrRest(piece.value.1);
        if rest.None? then None else Some((piece.value.0 + rest.value.0, rest.value.1))
  }

  function StrOf(s: string): (r: Option<(string, string)>)
    ensures r.Some? ==> |r.value.1| < |s|
  {
    if s == [] || s[0] != '"' then None else StrRest(s[1..])
  }

  /** How long the literal at the front of s is. */
  function LitLength(s: string): (n: nat)
    ensures n <= |s|
  {
    if s == [] || s[0] == ',' || s[0] == '}' || s[0] == ' ' then 0 else 1 + LitLength(s[1..])
  }

  function ValueOf(s: string): (r: Option<(string, string)>)
    ensures r.Some? ==> |r.value.1| < |s|
  {
    if s != [] && s[0] == '"' then StrOf(s)
    else if LitLength(s) == 0 then None
    else Some((s[..LitLength(s)], s[LitLength(s)..]))
  }

  /** One field: key, value and what follows. */
  function FieldOf(s: string): (r: Option<(string, string, string)>)
    ensures r.Some? ==> |r.value.2| < |s|
  {
    var k := StrOf(Ws(s));
    if k.None? then None
    else
      var t := Ws(k.value.1);
      if t == [] || t[0] != ':' then None
      else
        var v := ValueOf(Ws(t[1..]));
        if v.None? then None else Some((k.value.0, v.value.0, v.value.1))
  }

  function ParseFields(s: string, out: map<string, string>): Option<map<string, string>>
    decreases |s|
  {
    var f := FieldOf(s);
    if f.None? then None
    else
      var t := Ws(f.value.2);
      if t == [] then None
      else if t[0] == ',' then ParseFields(t[1..], out[f.value.0 := f.value.1])
      else if t[0] == '}' then Some(out[f.value.0 := f.value.1])
      else None
  }

  /** A line's fields; None for a malformed line, and where a \u escape throws. */
  function ParseLine(s: string): Option<map<string, string>> {
    var t := Ws(s);
    if t == [] || t[0] != '{' then None
    else
      var u := Ws(t[1..]);
      if u != [] && u[0] == '}' then Some(map[]) else ParseFields(u, map[])
  }

  // ---- the round trip ----

  function MapOf(fs: seq<Field>): map<string, string> {
    if fs == [] then map[] else MapOf(fs[..|fs| - 1])[fs[|fs| - 1].key := fs[|fs| - 1].s]
  }

  /** The fields of fs put into out, in order. */
  function PutAll(out: map<string, string>, fs: seq<Field>): map<string, string>
    decreases |fs|
  {
    if fs == [] then out else PutAll(out[fs[0].key := fs[0].s], fs[1..])
  }

  lemma {:induction false} PutAllAppend(out: map<string, string>, fs: seq<Field>, f: Field)
    ensures PutAll(out, fs + [f]) == PutAll(out, fs)[f.key := f.s]
    decreases |fs|
  {
    if fs == [] {
      assert fs + [f] == [f] && [f][1..] == [];
    } else {
      assert (fs + [f])[0] == fs[0] && (fs + [f])[1..] == fs[1..] + [f];
      PutAllAppend(out[fs[0].key := fs[0].s], fs[1..], f);
    }
  }

  lemma {:induction false} MapOfPut(fs: seq<Field>)
    ensures MapOf(fs) == PutAll(map[], fs)
  {
    if fs != [] {
      var before, f := fs[..|fs| - 1], fs[|fs| - 1];
      MapOfPut(before);
      PutAllAppend(map[], before, f);
      assert before + [f] == fs;
    }
  }

  function Before(c: char, r: Option<(string, string)>): Option<(string, string)> {
    if r.None? then None else Some(([c] + r.value.0, r.value.1))
  }

  lemma PlainRead(e: string)
    requires e != [] && e[0] != '"' && e[0] != '\\'
    ensures StrRest(e) == Before(e[0], StrRest(e[1..]))
  {
    hide LogUnescape;
  }

  lemma EscapeRead(e: string, c: char, rest: string)
    requires e != [] && e[0] == '\\' && LogUnescape(e[1..]) == Some(([c], rest))
    ensures StrRest(e) == Before(c, StrRest(rest))
  {
    hide LogUnescape;
  }

  lemma ByteBack(c: char, rest: string)
    requires c as int < 256
    ensures StrRest(EscByte(c) + rest) == Before(c, StrRest(rest))
  {
    var e := EscByte(c) + rest;
    if c == '"' || c == '\\' {
      assert e[1..][1..] == rest;
      EscapeRead(e, c, rest);
    } else if c < ' ' || c as int >= 0x7F {
      RawByteBack(c, rest);
      EscapeRead(e, c, rest);
    } else {
      assert e[1..] == rest;
      PlainRead(e);
    }
  }

  lemma RawByteBack(c: char, rest: string)
    requires c as int < 256
    ensures LogUnescape(("\\u00" + [HexDigit(c as int / 16), HexDigit(c as int % 16)] + rest)[1..]) == Some(([c], rest))
  {
    var n := c as int;
    var x := "00" + [HexDigit(n / 16), HexDigit(n % 16)];
    var s := ("\\u00" + [HexDigit(n / 16), HexDigit(n % 16)] + rest)[1..];
    assert s == "u" + x + rest;
    assert s[1..5] == x && s[5..] == rest && s[0] == 'u';
    FourDigits(n);
  }

  lemma FourDigits(n: nat)
    requires n < 256
    ensures Stoul16("00" + [HexDigit(n / 16), HexDigit(n % 16)]) == Some(n)
  {
    var x := "00" + [HexDigit(n / 16), HexDigit(n % 16)];
    HexBack(n / 16);
    HexBack(n % 16);
    assert !IsSpace(x[0]) && x[0] == '0' && x[1] == '0' && HexValue('0') == 0;
    SkipNone(x);
    var a, b, c := x[1..], x[2..], x[3..];
    assert a[0] == '0' && a[1..] == b && b[0] == HexDigit(n / 16) && b[1..] == c && c[0] == HexDigit(n % 16) && c[1..] == [];
    assert HexRun([], n) == n;
    assert HexRun(c, n / 16) == HexRun(c[1..], 16 * (n / 16) + n % 16) == n;
    assert HexRun(b, 0) == HexRun(c, n / 16);
    assert HexRun(a, 0) == HexRun(b, 0);
    assert HexRun(x, 0) == HexRun(a, 0);
  }

  lemma NoMore(rest: string)
    ensures StrRest(Esc("") + "\"" + rest) == Some(("", rest))
  {
    assert Esc("") + "\"" + rest == "\"" + rest;
    assert ("\"" + rest)[1..] == rest;
  }

  lemma FirstOut(t: string, rest: string)
    requires IsBytes(t) && t != []
    ensures IsBytes(t[1..]) && Esc(t) + "\"" + rest == EscByte(t[0]) + (Esc(t[1..]) + "\"" + rest)
  {
    hide EscByte;
  }

  lemma {:induction false} StrBack(t: string, rest: string)
    requires IsBytes(t)
    ensures StrRest(Esc(t) + "\"" + rest) == Some((t, rest))
  {
    hide EscByte, StrRest, Esc;
    if t == [] {
      NoMore(rest);
    } else {
      FirstOut(t, rest);
      StrBack(t[1..], rest);
      ByteBack(t[0], Esc(t[1..]) + "\"" + rest);
      assert t == [t[0]] + t[1..];
    }
  }

  lemma QBack(t: string, rest: string)
    requires IsBytes(t)
    ensures StrOf(Q(t) + rest) == Some((t, rest)) && (Q(t) + rest)[0] == '"'
  {
    hide StrRest, Esc;
    StrBack(t, rest);
    assert (Q(t) + rest)[1..] == Esc(t) + "\"" + rest;
  }

  lemma {:induction false} KeyBack(k: string, rest: string)
    requires PlainKey(k)
    ensures StrRest(k + "\"" + rest) == Some((k, rest))
  {
    if k == [] {
      assert k + "\"" + rest == "\"" + rest && ("\"" + rest)[1..] == rest;
    } else {
      KeyBack(k[1..], rest);
      PlainRead(k + "\"" + rest);
      assert (k + "\"" + rest)[1..] == k[1..] + "\"" + rest;
      assert k == [k[0]] + k[1..];
    }
  }

  lemma {:induction false} LitBack(s: string, rest: string)
    requires (forall i :: 0 <= i < |s| ==> s[i] != ',' && s[i] != '}' && s[i] != ' ')
    requires rest != [] && (rest[0] == ',' || rest[0] == '}')
    ensures LitLength(s + rest) == |s|
  {
    if s == [] {
      assert s + rest == rest;
    } else {
      assert (s + rest)[1..] == s[1..] + rest;
      LitBack(s[1..], rest);
    }
  }

  lemma WsNone(s: string)
    requires s == [] || !Blank(s[0])
    ensures Ws(s) == s
  {
  }

  lemma FieldBack(f: Field, rest: string)
    requires Good(f) && rest != [] && (rest[0] == ',' || rest[0] == '}')
    ensures FieldOf(FieldText(f) + rest) == Some((f.key, f.s, rest))
  {
    hide StrRest, PlainKey, Q;
    var v := match f case Quote(_, s) => Q(s) case Lit(_, s) => s;
    var s, t := FieldText(f) + rest, ":" + (v + rest);
    assert s[0] == '"' && s[1..] == f.key + "\"" + t;
    KeyBack(f.key, t);
    WsNone(s);
    WsNone(t);
    assert t[1..] == v + rest;
    match f
    case Quote(_, x) =>
      QBack(x, rest);
      WsNone(v + rest);
    case Lit(_, x) =>
      LitBack(x, rest);
      WsNone(v + rest);
      assert (v + rest)[..|x|] == x && (v + rest)[|x|..] == rest;
  }

  lemma {:induction false} FieldsBack(fs: seq<Field>, out: map<string, string>)
    requires fs != [] && AllGood(fs)
    ensures ParseFields(FieldsText(fs) + "}", out) == Some(PutAll(out, fs))
    decreases |fs|
  {
    hide FieldOf, FieldText, Good;
    if |fs| == 1 {
      assert FieldsText(fs) + "}" == FieldText(fs[0]) + "}";
      FieldBack(fs[0], "}");
      WsNone("}");
      assert fs[1..] == [];
    } else {
      var rest := "," + (FieldsText(fs[1..]) + "}");
      assert FieldsText(fs) + "}" == FieldText(fs[0]) + rest;
      FieldBack(fs[0], rest);
      WsNone(rest);
      assert rest[1..] == FieldsText(fs[1..]) + "}";
      FieldsBack(fs[1..], out[fs[0].key := fs[0].s]);
    }
  }

  lemma TextQuoted(fs: seq<Field>)
    requires fs != [] && AllGood(fs)
    ensures |FieldsText(fs)| > 0 && FieldsText(fs)[0] == '"'
  {
    assert Good(fs[0]);
  }

  /** Every line is read back field by field, whatever bytes its strings hold. */
  lemma LineBack(fs: seq<Field>)
    requires fs != [] && AllGood(fs)
    ensures ParseLine(Line(fs)) == Some(MapOf(fs))
  {
    hide ParseFields, FieldsText, PutAll, MapOf, Good;
    var s := Line(fs);
    FieldsBack(fs, map[]);
    MapOfPut(fs);
    TextQuoted(fs);
    WsNone(s);
    assert s[1..] == FieldsText(fs) + "}";
    WsNone(s[1..]);
  }

  // ---- the reader with its index ----

  class LineReader {
    const s: string
    var i: nat

    ghost predicate Valid()
      reads this
    {
      i <= |s|
    }

    constructor (line: string)
      ensures Valid() && s == line && i == 0
    {
      s, i := line, 0;
    }

    method SkipWs()
      requires Valid()
      modifies this
      ensures Valid() && old(i) <= i && s[i..] == Ws(s[old(i)..])
    {
      while i < |s| && (s[i] == ' ' || s[i] == '\t' || s[i] == '\r')
        invariant i <= |s| && old(i) <= i && Ws(s[i..]) == Ws(s[old(i)..])
      {
        assert s[i..][0] == s[i] && s[i..][1..] == s[i + 1..];
        i := i + 1;
      }
      assert i < |s| ==> s[i..][0] == s[i];
    }

    method ReadEscape() returns (ok: bool, v: string)
      requires Valid()
      modifies this
      ensures Valid() && old(i) <= i
      ensures ok == LogUnescape(s[old(i)..]).Some?
      ensures ok ==> LogUnescape(s[old(i)..]) == Some((v, s[i..])) && old(i) < i
    {
      hide Stoul16, CodeBytes;
      v := "";
      if i >= |s| { return false, ""; }
      var e := s[i];
      ghost var u := s[i..];
      assert u[0] == e && u[1..] == s[i + 1..];
      i := i + 1;
      ok := true;
      match e
      case 'n' => v := "\n";
      case 'r' => v := "\r";
      case 't' => v := "\t";
      case 'b' => v := [8 as char];
      case 'f' => v := [12 as char];
      case 'u' =>
        if i + 4 > |s| { return false, ""; }
        assert u[1..5] == s[i..i + 4] && u[5..] == s[i + 4..];
        var cp := Stoul16(s[i..i + 4]);
        if cp.None? { return false, ""; }
        i := i + 4;
        v := CodeBytes(cp.value % 0x1_0000_0000);
      case _ => v := [e];
    }

    method ReadStr() returns (ok: bool, v: string)
      requires Valid()
      modifies this
      ensures Valid() && old(i) <= i
      ensures ok == StrOf(s[old(i)..]).Some?
      ensures ok ==> StrOf(s[old(i)..]) == Some((v, s[i..])) && old(i) < i
    {
      hide LogUnescape;
      v := "";
      if i >= |s| || s[i] != '"' { return false, ""; }
      assert s[i..][1..] == s[i + 1..];
      i := i + 1;
      ghost var all := StrRest(s[i..]);
      NothingRead(s[i..]);
      while i < |s| && s[i] != '"'
        invariant old(i) < i <= |s| && StrFrom(v, s[i..]) == all
        decreases |s| - i
      {
        var c := s[i];
        StrStep(v, s[i..]);
        assert s[i..][0] == c && s[i..][1..] == s[i + 1..];
        i := i + 1;
        if c != '\\' {
          v := v + [c];
        } else {
          var got, piece := ReadEscape();
          if !got { return false, ""; }
          v := v + piece;
        }
      }
      StrStep(v, s[i..]);
      if i >= |s| { return false, ""; }
      assert s[i..][0] == '"' && s[i..][1..] == s[i + 1..];
      i := i + 1;
      ok := true;
    }

    method ReadValue() returns (ok: bool, v: string)
      requires Valid()
      modifies this
      ensures Valid() && old(i) <= i
      ensures ok == ValueOf(s[old(i)..]).Some?
      ensures ok ==> ValueOf(s[old(i)..]) == Some((v, s[i..])) && old(i) < i
    {
      hide StrOf;
      if i < |s| && s[i] == '"' {
        assert s[i..][0] == '"';
        ok, v := ReadStr();
        return;
      }
      var st := i;
      while i < |s| && s[i] != ',' && s[i] != '}' && s[i] != ' '
        invariant st <= i <= |s| && LitLength(s[st..]) == i - st + LitLength(s[i..])
      {
        assert s[i..][0] == s[i] && s[i..][1..] == s[i + 1..];
        i := i + 1;
      }
      assert i < |s| ==> s[i..][0] == s[i];
      assert LitLength(s[i..]) == 0;
      v := s[st..i];
      ok := i != st;
      assert s[st..][..i - st] == v && s[st..][i - st..] == s[i..];
    }

    method ReadField() returns (ok: bool, k: string, v: string)
      requires Valid()
      modifies this
      ensures Valid() && old(i) <= i
      ensures ok == FieldOf(s[old(i)..]).Some?
      ensures ok ==> FieldOf(s[old(i)..]) == Some((k, v, s[i..])) && old(i) < i
    {
      hide StrOf, ValueOf, Ws;
      v := "";
      SkipWs();
      ok, k := ReadStr();
      if !ok { return; }
      SkipWs();
      if i >= |s| || s[i] != ':' { return false, k, ""; }
      assert s[i..][0] == ':' && s[i..][1..] == s[i + 1..];
      i := i + 1;
      SkipWs();
      ok, v := ReadValue();
    }

    method Parse() returns (ok: bool, out: map<string, string>)
      requires Valid() && i == 0
      modifies this
      ensures ok == ParseLine(s).Some? && (ok ==> ParseLine(s) == Some(out))
    {
      hide FieldOf, Ws;
      out := map[];
      assert s[0..] == s;
      SkipWs();
      if i >= |s| || s[i] != '{' { return false, out; }
      assert s[i..][0] == '{' && s[i..][1..] == s[i + 1..];
      i := i + 1;
      SkipWs();
      if i < |s| && s[i] == '}' { assert s[i..][0] == '}'; return true, out; }
      assert i < |s| ==> s[i..][0] == s[i];
      while true
        invariant Valid() && ParseFields(s[i..], out) == ParseLine(s)
        decreases |s| - i
      {
        var got, k, v := ReadField();
        if !got { return false, out; }
        out := out[k := v];
        SkipWs();
        if i < |s| { assert s[i..][0] == s[i] && s[i..][1..] == s[i + 1..]; }
        if i < |s| && s[i] == ',' { i := i + 1; }
        else if i < |s| && s[i] == '}' { return true, out; }
        else { return false, out; }
      }
    }
  }

  function StrFrom(o: string, s: string): Option<(string, string)> {
    var r := StrRest(s);
    if r.None? then None else Some((o + r.value.0, r.value.1))
  }

  lemma NothingRead(s: string)
    ensures StrFrom("", s) == StrRest(s)
  {
    hide StrRest;
    if StrRest(s).Some? { assert "" + StrRest(s).value.0 == StrRest(s).value.0; }
  }

  lemma StrStep(o: string, s: string)
    ensures StrFrom(o, s) ==
            if s == [] then None
            else if s[0] == '"' then Some((o, s[1..]))
            else if s[0] != '\\' then StrFrom(o + [s[0]], s[1..])
            else if LogUnescape(s[1..]).None? then None
            else StrFrom(o + LogUnescape(s[1..]).value.0, LogUnescape(s[1..]).value.1)
  {
    hide LogUnescape;
    assert o + "" == o;
    if s != [] && s[0] != '"' {
      var piece := if s[0] == '\\' then LogUnescape(s[1..]) else Some(([s[0]], s[1..]));
      if piece.Some? {
        var rest := StrRest(piece.value.1);
        if rest.Some? { assert o + (piece.value.0 + rest.value.0) == o + piece.value.0 + rest.value.0; }
      }
    }
  }
}
