/** The explorer's JSON: what its serializers print, the recursive-descent reader takes back. */
module Json {
  import opened Basics

  datatype V = Null | Bool(b: bool) | Num(n: real) | Str(s: string) | Arr(a: seq<V>) | Obj(o: seq<Member>)

  datatype Member = Member(key: string, value: V)

  const MAX_DEPTH: nat := 64
  const EXACT: int := 0x20_0000_0000_0000

  // ---- printing ----

  function HexDigit(n: nat): (c: char)
    requires n < 16
  {
    if n < 10 then '0' + n as char else 'a' + (n - 10) as char
  }

  /** One character of a quoted string. */
  function Escaped(c: char): (r: string)
    ensures |r| > 0 && r[0] != '"'
  {
    if c == '"' then "\\\""
    else if c == '\\' then "\\\\"
    else if c == '\n' then "\\n"
    else if c == '\r' then "\\r"
    else if c == '\t' then "\\t"
    else if c < ' ' then "\\u00" + [HexDigit(c as int / 16), HexDigit(c as int % 16)]
    else [c]
  }

  function EscapedAll(s: string): string {
    if s == [] then [] else Escaped(s[0]) + EscapedAll(s[1..])
  }

  function Quoted(s: string): string {
    "\"" + EscapedAll(s) + "\""
  }

  function Digits(n: nat): (r: string)
    ensures |r| > 0 && forall i :: 0 <= i < |r| ==> IsDigit(r[i])
  {
    if n < 10 then [HexDigit(n)] else Digits(n / 10) + [HexDigit(n % 10)]
  }

  function Decimal(n: int): (r: string)
    ensures |r| > 0
  {
    if n < 0 then "-" + Digits(-n) else Digits(n)
  }

  /** Every number in v is a whole one that a double holds exactly. */
  predicate Whole(v: V) {
    match v
    case Num(n) => n == n.Floor as real && -EXACT <= n.Floor <= EXACT
    case Arr(a) => forall i :: 0 <= i < |a| ==> Whole(a[i])
    case Obj(o) => forall i :: 0 <= i < |o| ==> Whole(o[i].value)
    case _ => true
  }

  function Text(v: V): (r: string)
    decreases v
  {
    match v
    case Null => "null"
    case Bool(b) => if b then "true" else "false"
    case Num(n) => Decimal(n.Floor)
    case Str(s) => Quoted(s)
    case Arr(a) => if a == [] then "[]" else "[" + TextElements(a) + "]"
    case Obj(o) => if o == [] then "{}" else "{" + TextMembers(o) + "}"
  }

  function TextElements(a: seq<V>): string
    requires a != []
    decreases a
  {
    Text(a[0]) + if |a| == 1 then "" else "," + TextElements(a[1..])
  }

  function TextMembers(o: seq<Member>): string
    requires o != []
    decreases o
  {
    Quoted(o[0].key) + ":" + Text(o[0].value) + if |o| == 1 then "" else "," + TextMembers(o[1..])
  }

  // ---- reading: the parts of a text ----

  predicate IsSpace(c: char) {
    c == ' ' || '\t' <= c <= '\r'
  }

  predicate IsDigit(c: char) {
    '0' <= c <= '9'
  }

  function Skip(s: string): (r: string)
    ensures |r| <= |s|
  {
    if s != [] && IsSpace(s[0]) then Skip(s[1..]) else s
  }

  function HexValue(c: char): (n: int)
    ensures -1 <= n < 16
  {
    if '0' <= c <= '9' then c as int - '0' as int
    else if 'a' <= c <= 'f' then c as int - 'a' as int + 10
    else if 'A' <= c <= 'F' then c as int - 'A' as int + 10
    else -1
  }

  function Hex4(s: string): (r: Option<nat>)
    ensures r.Some? ==> |s| >= 4 && r.value < 0x1_0000
  {
    if |s| < 4 || HexValue(s[0]) < 0 || HexValue(s[1]) < 0 || HexValue(s[2]) < 0 || HexValue(s[3]) < 0 then None
    else Some(0x1000 * HexValue(s[0]) + 0x100 * HexValue(s[1]) + 0x10 * HexValue(s[2]) + HexValue(s[3]))
  }

  /** The bytes of a code point, each as a character. */
  function Utf8(cp: nat): string
    requires cp < 0x11_0000
  {
    if cp < 0x80 then [cp as char]
    else if cp < 0x800 then [(0xC0 + cp / 0x40) as char, (0x80 + cp % 0x40) as char]
    else if cp < 0x1_0000 then
      [(0xE0 + cp / 0x1000) as char, (0x80 + cp / 0x40 % 0x40) as char, (0x80 + cp % 0x40) as char]
    else
      [(0xF0 + cp / 0x4_0000) as char, (0x80 + cp / 0x1000 % 0x40) as char, (0x80 + cp / 0x40 % 0x40) as char,
       (0x80 + cp % 0x40) as char]
  }

  /** After "\u": a code unit, or a surrogate pair. */
  function Unicode(s: string): (r: Option<(string, string)>)
    ensures r.Some? ==> |r.value.1| <= |s|
  {
    var hi := Hex4(s);
    if hi.None? then None
    else
      var t := s[4..];
      var lo := if 0xD800 <= hi.value < 0xDC00 && |t| >= 6 && t[0] == '\\' && t[1] == 'u' then Hex4(t[2..]) else None;
      if lo.Some? && 0xDC00 <= lo.value < 0xE000
      then Some((Utf8(0x1_0000 + (hi.value - 0xD800) * 0x400 + (lo.value - 0xDC00)), t[6..]))
      else Some((Utf8(hi.value), t))
  }

  /** What one escape, after its backslash, stands for. */
  function Unescape(s: string): (r: Option<(string, string)>)
    ensures r.Some? ==> |r.value.1| < |s|
  {
    if s == [] then None
    else if s[0] == 'n' then Some(("\n", s[1..]))
    else if s[0] == 'r' then Some(("\r", s[1..]))
    else if s[0] == 't' then Some(("\t", s[1..]))
    else if s[0] == 'b' then Some(([8 as char], s[1..]))
    else if s[0] == 'f' then Some(([12 as char], s[1..]))
    else if s[0] == 'u' then Unicode(s[1..])
    else Some(([s[0]], s[1..]))
  }

  /** The rest of a string, after its opening quote. */
  function StringRest(s: string): (r: Option<(string, string)>)
    ensures r.Some? ==> |r.value.1| < |s|
    decreases |s|
  {
    if s == [] then None
    else if s[0] == '"' then Some(([], s[1..]))
    else
      var piece := if s[0] == '\\' then Unescape(s[1..]) else Some(([s[0]], s[1..]));
      if piece.None? then None
      else
        var rest := StringRest(piece.value.1);
        if rest.None? then None else Some((piece.value.0 + rest.value.0, rest.value.1))
  }

  function ReadString(s: string): (r: Option<(string, string)>)
    ensures r.Some? ==> |r.value.1| < |s|
  {
    if s == [] || s[0] != '"' then None else StringRest(s[1..])
  }

  /** How many digits s begins with. */
  function Run(s: string): (n: nat)
    ensures n <= |s|
  {
    if s != [] && IsDigit(s[0]) then 1 + Run(s[1..]) else 0
  }

  function DigitsValue(s: string): nat
    requires forall i :: 0 <= i < |s| ==> IsDigit(s[i])
  {
    if s == [] then 0
    else
      assert IsDigit(s[|s| - 1]);
      10 * DigitsValue(s[..|s| - 1]) + (s[|s| - 1] as int - '0' as int)
  }

  lemma {:induction false} RunAreDigits(s: string)
    ensures forall i :: 0 <= i < Run(s) ==> IsDigit(s[i])
    ensures Run(s) < |s| ==> !IsDigit(s[Run(s)])
  {
    if s != [] && IsDigit(s[0]) { RunAreDigits(s[1..]); }
  }

  /** The number s begins with and its length, as strtod reads it: whole numbers that a double holds exactly are
      those numbers, every other form is read by `other`. */
  function Strtod(s: string, other: string -> (real, nat)): (r: (real, nat))
    ensures r.1 <= |s|
  {
    var neg := s != [] && s[0] == '-';
    var t := if neg then s[1..] else s;
    var k := Run(t);
    RunAreDigits(t);
    var m := DigitsValue(t[..k]);
    var value: int := if neg then 0 - m else m;
    if k > 0 && (k == |t| || t[k] !in ".eExX") && -EXACT <= value <= EXACT then (value as real, if neg then k + 1 else k)
    else
      var r := other(s);
      (r.0, if r.1 <= |s| then r.1 else |s|)
  }

  // ---- reading a value ----

  function Value(s: string, d: nat, other: string -> (real, nat)): (r: Option<(V, string)>)
    ensures r.Some? ==> |r.value.1| < |s|
    decreases |s|, 1
  {
    if d > MAX_DEPTH then None
    else
      var t := Skip(s);
      if t == [] then None
      else if t[0] == '{' then
        var u := Skip(t[1..]);
        if u != [] && u[0] == '}' then Some((Obj([]), u[1..]))
        else
          var m := Members(t[1..], d, other);
          if m.None? then None else Some((Obj(m.value.0), m.value.1))
      else if t[0] == '[' then
        var u := Skip(t[1..]);
        if u != [] && u[0] == ']' then Some((Arr([]), u[1..]))
        else
          var m := Elements(t[1..], d, other);
          if m.None? then None else Some((Arr(m.value.0), m.value.1))
      else if t[0] == '"' then
        var q := ReadString(t);
        if q.None? then None else Some((Str(q.value.0), q.value.1))
      else if "true" <= t then Some((Bool(true), t[4..]))
      else if "false" <= t then Some((Bool(false), t[5..]))
      else if "null" <= t then Some((Null, t[4..]))
      else
        var x := Strtod(t, other);
        if x.1 == 0 then None else Some((Num(x.0), t[x.1..]))
  }

  /** One member: a key, a colon, a value. */
  function MemberOf(s: string, d: nat, other: string -> (real, nat)): (r: Option<(Member, string)>)
    ensures r.Some? ==> |r.value.1| < |s|
    decreases |s|, 0
  {
    var k := ReadString(Skip(s));
    if k.None? then None
    else
      var t := Skip(k.value.1);
      if t == [] || t[0] != ':' then None
      else
        var v := Value(t[1..], d + 1, other);
        if v.None? then None else Some((Member(k.value.0, v.value.0), v.value.1))
  }

  function Members(s: string, d: nat, other: string -> (real, nat)): (r: Option<(seq<Member>, string)>)
    ensures r.Some? ==> |r.value.1| < |s|
    decreases |s|, 1
  {
    var m := MemberOf(s, d, other);
    if m.None? then None
    else
      var t := Skip(m.value.1);
      if t == [] then None
      else if t[0] == '}' then Some(([m.value.0], t[1..]))
      else if t[0] != ',' then None
      else
        var rest := Members(t[1..], d, other);
        if rest.None? then None else Some(([m.value.0] + rest.value.0, rest.value.1))
  }

  function Elements(s: string, d: nat, other: string -> (real, nat)): (r: Option<(seq<V>, string)>)
    ensures r.Some? ==> |r.value.1| < |s|
    decreases |s|, 2
  {
    var v := Value(s, d + 1, other);
    if v.None? then None
    else
      var t := Skip(v.value.1);
      if t == [] then None
      else if t[0] == ']' then Some(([v.value.0], t[1..]))
      else if t[0] != ',' then None
      else
        var rest := Elements(t[1..], d, other);
        if rest.None? then None else Some(([v.value.0] + rest.value.0, rest.value.1))
  }

  /** A whole text: one value, and nothing but space after it. */
  function Parse(s: string, other: string -> (real, nat)): Option<V> {
    var v := Value(s, 0, other);
    if v.None? || Skip(v.value.1) != [] then None else Some(v.value.0)
  }

  // ---- the round trip ----

  /** How deep v nests: a value inside another is one deeper. */
  function Depth(v: V): nat
    decreases v
  {
    match v
    case Arr(a) => if a == [] then 0 else 1 + ElementsDepth(a)
    case Obj(o) => if o == [] then 0 else 1 + MembersDepth(o)
    case _ => 0
  }

  function ElementsDepth(a: seq<V>): nat
    decreases a
  {
    if a == [] then 0 else Max(Depth(a[0]), ElementsDepth(a[1..]))
  }

  function MembersDepth(o: seq<Member>): nat
    decreases o
  {
    if o == [] then 0 else Max(Depth(o[0].value), MembersDepth(o[1..]))
  }

  /** One more character before the rest of a string. */
  function Before(c: char, r: Option<(string, string)>): Option<(string, string)> {
    if r.None? then None else Some(([c] + r.value.0, r.value.1))
  }

  /** One escaped character is read back. */
  lemma UnescapesOne(c: char, rest: string)
    ensures StringRest(Escaped(c) + rest) == Before(c, StringRest(rest))
  {
    var e := Escaped(c) + rest;
    if c == '"' || c == '\\' || c == '\n' || c == '\r' || c == '\t' || c < ' ' {
      EscapeBack(c, rest);
      EscapeRead(e, c, rest);
    } else {
      assert e[0] == c && e[1..] == rest;
      PlainRead(e);
    }
  }

  lemma PlainRead(e: string)
    requires e != [] && e[0] != '"' && e[0] != '\\'
    ensures StringRest(e) == Before(e[0], StringRest(e[1..]))
  {
    hide Unescape;
  }

  lemma EscapeRead(e: string, c: char, rest: string)
    requires e != [] && e[0] == '\\' && Unescape(e[1..]) == Some(([c], rest))
    ensures StringRest(e) == Before(c, StringRest(rest))
  {
    hide Unescape;
  }

  lemma EscapeBack(c: char, rest: string)
    requires c == '"' || c == '\\' || c == '\n' || c == '\r' || c == '\t' || c < ' '
    ensures Escaped(c)[0] == '\\' && Unescape((Escaped(c) + rest)[1..]) == Some(([c], rest))
  {
    hide Unicode;
    var e := Escaped(c) + rest;
    if c == '"' || c == '\\' || c == '\n' || c == '\r' || c == '\t' {
      assert e[1..][1..] == rest;
    } else {
      UnicodeControl(c, rest);
      assert e[1] == 'u';
      assert e[1..][1..] == "00" + [HexDigit(c as int / 16), HexDigit(c as int % 16)] + rest;
    }
  }

  lemma HexBack(n: nat)
    requires n < 16
    ensures HexValue(HexDigit(n)) == n
  {
  }

  lemma UnicodeControl(c: char, rest: string)
    requires c < ' '
    ensures Unicode("00" + [HexDigit(c as int / 16), HexDigit(c as int % 16)] + rest) == Some(([c], rest))
  {
    hide HexDigit;
    var n := c as int;
    HexBack(n / 16);
    HexBack(n % 16);
    var s := "00" + [HexDigit(n / 16), HexDigit(n % 16)] + rest;
    assert s[0] == '0' && s[1] == '0' && s[2] == HexDigit(n / 16) && s[3] == HexDigit(n % 16) && s[4..] == rest;
    assert HexValue('0') == 0;
    assert Hex4(s) == Some(n);
    assert Utf8(n) == [c];
  }

  lemma {:induction false} StringBack(t: string, rest: string)
    ensures StringRest(EscapedAll(t) + "\"" + rest) == Some((t, rest))
  {
    hide Unescape, Escaped;
    if t == [] {
      assert EscapedAll(t) + "\"" + rest == "\"" + rest;
      assert ("\"" + rest)[1..] == rest;
    } else {
      StringBack(t[1..], rest);
      UnescapesOne(t[0], EscapedAll(t[1..]) + "\"" + rest);
      assert EscapedAll(t) + "\"" + rest == Escaped(t[0]) + (EscapedAll(t[1..]) + "\"" + rest);
      assert t == [t[0]] + t[1..];
    }
  }

  lemma QuotedBack(t: string, rest: string)
    ensures ReadString(Quoted(t) + rest) == Some((t, rest))
  {
    hide EscapedAll, StringRest;
    StringBack(t, rest);
    assert (Quoted(t) + rest)[1..] == EscapedAll(t) + "\"" + rest;
  }

  /** A digit run ends where no digit follows. */
  lemma {:induction false} RunOf(s: string, rest: string)
    requires (forall i :: 0 <= i < |s| ==> IsDigit(s[i])) && (rest == [] || !IsDigit(rest[0]))
    ensures Run(s + rest) == |s|
  {
    if s == [] {
      assert s + rest == rest;
    } else {
      assert (s + rest)[1..] == s[1..] + rest;
      RunOf(s[1..], rest);
    }
  }

  lemma {:induction false} DigitsBack(n: nat)
    ensures DigitsValue(Digits(n)) == n
  {
    if n >= 10 {
      DigitsBack(n / 10);
      assert Digits(n)[..|Digits(n)| - 1] == Digits(n / 10);
    } else {
      assert [HexDigit(n)][..0] == [];
    }
  }

  /** What may follow a value: nothing a number could go on with. */
  predicate Ends(rest: string) {
    rest == [] || (!IsDigit(rest[0]) && rest[0] !in ".eExX")
  }

  lemma NumberBack(n: int, rest: string, other: string -> (real, nat))
    requires -EXACT <= n <= EXACT && Ends(rest)
    ensures Strtod(Decimal(n) + rest, other) == (n as real, |Decimal(n)|)
  {
    hide Digits, Run, DigitsValue;
    var m := if n < 0 then -n else n;
    var s := Decimal(n) + rest;
    var d := Digits(m);
    DigitsBack(m);
    RunOf(d, rest);
    var t := if n < 0 then s[1..] else s;
    assert t == d + rest;
    assert t[..|d|] == d;
    assert s[0] == '-' <==> n < 0;
  }

  lemma SkipNone(s: string)
    requires s == [] || !IsSpace(s[0])
    ensures Skip(s) == s
  {
  }

  lemma FirstOfDecimal(n: int)
    ensures IsDigit(Decimal(n)[0]) || Decimal(n)[0] == '-'
  {
  }

  /** No printed value begins with a space, or as something else would. */
  lemma {:induction false} TextBegins(v: V)
    ensures |Text(v)| > 0 && !IsSpace(Text(v)[0])
    ensures v.Num? ==> Text(v)[0] !in "{[\"tfn"
    ensures Text(v)[0] !in "]}"
  {
    hide Decimal, EscapedAll;
    match v
    case Num(n) => FirstOfDecimal(n.Floor);
    case _ =>
  }

  /** The reader takes back what was printed, as long as it does not nest too deeply; otherwise it refuses it. */
  lemma {:induction false} ValueBack(v: V, rest: string, d: nat, other: string -> (real, nat))
    requires Whole(v) && Ends(rest)
    ensures Value(Text(v) + rest, d, other) == if d + Depth(v) <= MAX_DEPTH then Some((v, rest)) else None
    decreases v
  {
    if d <= MAX_DEPTH {
      match v
      case Arr(a) =>
        if a != [] { ElementsBack(a, rest, d, other); ArrayBack(a, rest, d, other); } else { EmptyBack(rest, d, other); }
      case Obj(o) =>
        if o != [] { MembersBack(o, rest, d, other); ObjectBack(o, rest, d, other); } else { EmptyBack(rest, d, other); }
      case _ =>
        LeafBack(v, rest, d, other);
    }
  }

  lemma EmptyBack(rest: string, d: nat, other: string -> (real, nat))
    requires d <= MAX_DEPTH
    ensures Value(Text(Arr([])) + rest, d, other) == Some((Arr([]), rest))
    ensures Value(Text(Obj([])) + rest, d, other) == Some((Obj([]), rest))
  {
    hide Members, Elements;
    var s, t := "[]" + rest, "{}" + rest;
    assert s[1..] == "]" + rest && t[1..] == "}" + rest;
    assert ("]" + rest)[1..] == rest && ("}" + rest)[1..] == rest;
  }

  lemma LeafBack(v: V, rest: string, d: nat, other: string -> (real, nat))
    requires Whole(v) && Ends(rest) && d <= MAX_DEPTH && !v.Arr? && !v.Obj?
    ensures Value(Text(v) + rest, d, other) == Some((v, rest))
  {
    hide Members, Elements, Decimal, Quoted, ReadString, Strtod;
    var s := Text(v) + rest;
    TextBegins(v);
    SkipNone(s);
    match v
    case Null => assert s[4..] == rest && s[..4] == "null";
    case Bool(b) =>
      if b { assert s[4..] == rest && s[..4] == "true"; } else { assert s[5..] == rest && s[..5] == "false"; }
    case Str(t) =>
      QuotedBack(t, rest);
      assert Quoted(t)[0] == '"' by { QuoteFirst(t); }
    case Num(n) =>
      NumberBack(n.Floor, rest, other);
      assert s[0] == Text(v)[0];
      NoWord(s);
      assert s[|Decimal(n.Floor)|..] == rest;
  }

  lemma QuoteFirst(t: string)
    ensures |Quoted(t)| > 0 && Quoted(t)[0] == '"'
  {
  }

  lemma NoWord(s: string)
    requires s != [] && s[0] !in "{[\"tfn"
    ensures !("true" <= s) && !("false" <= s) && !("null" <= s) && s[0] != '{' && s[0] != '[' && s[0] != '"'
  {
    assert "true"[0] == 't' && "false"[0] == 'f' && "null"[0] == 'n';
    assert 't' in "{[\"tfn" && 'f' in "{[\"tfn" && 'n' in "{[\"tfn" && '{' in "{[\"tfn" && '[' in "{[\"tfn" && '"' in "{[\"tfn";
  }

  lemma ArrayBack(a: seq<V>, rest: string, d: nat, other: string -> (real, nat))
    requires a != [] && d <= MAX_DEPTH
    requires Elements(TextElements(a) + "]" + rest, d, other) ==
             if d + 1 + ElementsDepth(a) <= MAX_DEPTH then Some((a, rest)) else None
    ensures Value(Text(Arr(a)) + rest, d, other) == if d + Depth(Arr(a)) <= MAX_DEPTH then Some((Arr(a), rest)) else None
  {
    hide Elements, TextElements, Members, Strtod, ReadString;
    var s := Text(Arr(a)) + rest;
    assert s[1..] == TextElements(a) + "]" + rest;
    ElementsBegin(a);
    SkipNone(s);
    SkipNone(s[1..]);
  }

  lemma ElementsBegin(a: seq<V>)
    requires a != []
    ensures |TextElements(a)| > 0 && !IsSpace(TextElements(a)[0]) && TextElements(a)[0] != ']'
  {
    TextBegins(a[0]);
  }

  lemma ObjectBack(o: seq<Member>, rest: string, d: nat, other: string -> (real, nat))
    requires o != [] && d <= MAX_DEPTH
    requires Members(TextMembers(o) + "}" + rest, d, other) ==
             if d + 1 + MembersDepth(o) <= MAX_DEPTH then Some((o, rest)) else None
    ensures Value(Text(Obj(o)) + rest, d, other) == if d + Depth(Obj(o)) <= MAX_DEPTH then Some((Obj(o), rest)) else None
  {
    hide Elements, TextMembers, Members, Strtod, ReadString;
    var s := Text(Obj(o)) + rest;
    assert s[1..] == TextMembers(o) + "}" + rest;
    MembersBegin(o);
    SkipNone(s);
    SkipNone(s[1..]);
  }

  lemma MembersBegin(o: seq<Member>)
    requires o != []
    ensures |TextMembers(o)| > 0 && TextMembers(o)[0] == '"'
  {
    hide Quoted;
    QuoteFirst(o[0].key);
  }

  /** What follows the first element, and the first member. */
  function AfterElement(a: seq<V>, rest: string): string
    requires a != []
  {
    if |a| == 1 then "]" + rest else "," + (TextElements(a[1..]) + "]" + rest)
  }

  function AfterMember(o: seq<Member>, rest: string): string
    requires o != []
  {
    if |o| == 1 then "}" + rest else "," + (TextMembers(o[1..]) + "}" + rest)
  }

  lemma AfterElementIs(a: seq<V>, rest: string)
    requires a != []
    ensures TextElements(a) + "]" + rest == Text(a[0]) + AfterElement(a, rest)
  {
    hide Text;
    var x := Text(a[0]);
    if |a| > 1 { assert x + ("," + TextElements(a[1..])) + "]" + rest == x + ("," + (TextElements(a[1..]) + "]" + rest)); }
  }

  lemma AfterMemberIs(o: seq<Member>, rest: string)
    requires o != []
    ensures TextMembers(o) + "}" + rest == Quoted(o[0].key) + ":" + Text(o[0].value) + AfterMember(o, rest)
  {
    hide Text, Quoted;
    var y := Quoted(o[0].key) + ":" + Text(o[0].value);
    if |o| > 1 { assert y + ("," + TextMembers(o[1..])) + "}" + rest == y + ("," + (TextMembers(o[1..]) + "}" + rest)); }
  }

  lemma AfterEnds(a: seq<V>, o: seq<Member>, rest: string)
    requires a != [] && o != []
    ensures var e, m := AfterElement(a, rest), AfterMember(o, rest);
            && Ends(e) && Skip(e) == e && e != [] && e[0] == (if |a| == 1 then ']' else ',')
            && e[1..] == (if |a| == 1 then rest else TextElements(a[1..]) + "]" + rest)
            && Ends(m) && Skip(m) == m && m != [] && m[0] == (if |o| == 1 then '}' else ',')
            && m[1..] == if |o| == 1 then rest else TextMembers(o[1..]) + "}" + rest
  {
    hide TextElements, TextMembers;
    assert ',' !in ".eExX" && ']' !in ".eExX" && '}' !in ".eExX";
  }

  lemma {:induction false} ElementsBack(a: seq<V>, rest: string, d: nat, other: string -> (real, nat))
    requires a != [] && d <= MAX_DEPTH && (forall i :: 0 <= i < |a| ==> Whole(a[i]))
    ensures Elements(TextElements(a) + "]" + rest, d, other) ==
            if d + 1 + ElementsDepth(a) <= MAX_DEPTH then Some((a, rest)) else None
    decreases a
  {
    hide Value, Whole, Text, Depth, AfterElement, AfterMember, TextElements, TextMembers;
    AfterElementIs(a, rest);
    AfterEnds(a, [Member("", Null)], rest);
    ValueBack(a[0], AfterElement(a, rest), d + 1, other);
    if |a| == 1 {
      assert a == [a[0]] && a[1..] == [];
    } else {
      ElementsBack(a[1..], rest, d, other);
      assert a == [a[0]] + a[1..];
    }
  }

  lemma {:induction false} MembersBack(o: seq<Member>, rest: string, d: nat, other: string -> (real, nat))
    requires o != [] && d <= MAX_DEPTH && (forall i :: 0 <= i < |o| ==> Whole(o[i].value))
    ensures Members(TextMembers(o) + "}" + rest, d, other) ==
            if d + 1 + MembersDepth(o) <= MAX_DEPTH then Some((o, rest)) else None
    decreases o
  {
    hide Value, Whole, Text, Depth, MemberOf, Quoted, AfterElement, AfterMember, TextElements, TextMembers;
    AfterMemberIs(o, rest);
    AfterEnds([Null], o, rest);
    var after := AfterMember(o, rest);
    ValueBack(o[0].value, after, d + 1, other);
    MemberBack(o[0].key, o[0].value, after, d, other);
    if |o| == 1 {
      assert o == [o[0]] && o[1..] == [];
    } else {
      MembersBack(o[1..], rest, d, other);
      assert o == [o[0]] + o[1..];
    }
  }

  lemma MemberBack(k: string, v: V, after: string, d: nat, other: string -> (real, nat))
    requires Value(Text(v) + after, d + 1, other) == if d + 1 + Depth(v) <= MAX_DEPTH then Some((v, after)) else None
    ensures MemberOf(Quoted(k) + ":" + Text(v) + after, d, other) ==
            if d + 1 + Depth(v) <= MAX_DEPTH then Some((Member(k, v), after)) else None
  {
    hide Value, Text, Depth, Quoted, ReadString;
    var s, t := Quoted(k) + ":" + Text(v) + after, ":" + Text(v) + after;
    assert s == Quoted(k) + t;
    QuoteFirst(k);
    QuotedBack(k, t);
    SkipNone(s);
    SkipNone(t);
    assert t[1..] == Text(v) + after;
  }

  /** Every printed value is read back, with a line end after it, exactly when it nests at most 64 deep. */
  lemma RoundTrip(v: V, other: string -> (real, nat))
    requires Whole(v)
    ensures Parse(Text(v) + "\n", other) == if Depth(v) <= MAX_DEPTH then Some(v) else None
  {
    hide Value, Text, Depth;
    ValueBack(v, "\n", 0, other);
    assert Skip("\n") == [] by { assert "\n"[1..] == []; }
  }

  // ---- the reader with its cursor ----

  class Parser {
    const s: string
    var i: nat

    ghost predicate Valid()
      reads this
    {
      i <= |s|
    }

    constructor (text: string)
      ensures Valid() && s == text && i == 0
    {
      s, i := text, 0;
    }

    method Ws()
      requires Valid()
      modifies this
      ensures Valid() && old(i) <= i && s[i..] == Skip(s[old(i)..])
    {
      while i < |s| && IsSpace(s[i])
        invariant i <= |s| && old(i) <= i && Skip(s[i..]) == Skip(s[old(i)..])
      {
        assert s[i..][0] == s[i] && s[i..][1..] == s[i + 1..];
        i := i + 1;
      }
      assert i < |s| ==> s[i..][0] == s[i];
    }

    method ReadHex4() returns (ok: bool, cp: nat)
      requires Valid()
      modifies this
      ensures Valid() && old(i) <= i
      ensures ok == Hex4(s[old(i)..]).Some?
      ensures ok ==> cp == Hex4(s[old(i)..]).value && i == old(i) + 4
    {
      if i + 4 > |s| { return false, 0; }
      ghost var u := s[i..];
      cp := 0;
      var k := 0;
      while k < 4
        invariant 0 <= k <= 4 && i == old(i) + k && i + (4 - k) <= |s|
        invariant forall j :: 0 <= j < k ==> HexValue(u[j]) >= 0
        invariant k == 0 ==> cp == 0
        invariant k == 1 ==> cp == HexValue(u[0])
        invariant k == 2 ==> cp == 0x10 * HexValue(u[0]) + HexValue(u[1])
        invariant k == 3 ==> cp == 0x100 * HexValue(u[0]) + 0x10 * HexValue(u[1]) + HexValue(u[2])
        invariant k == 4 ==> cp == 0x1000 * HexValue(u[0]) + 0x100 * HexValue(u[1]) + 0x10 * HexValue(u[2]) + HexValue(u[3])
      {
        assert u[k] == s[i];
        var h := HexValue(s[i]);
        i := i + 1;
        if h < 0 { return false, cp; }
        cp := 0x10 * cp + h;
        k := k + 1;
      }
      ok := true;
    }

    /** After "\\u": a code unit, or a surrogate pair; a second escape that makes no pair is left for later. */
    method ReadUnicode() returns (ok: bool, o: string)
      requires Valid()
      modifies this
      ensures Valid() && old(i) <= i
      ensures ok == Unicode(s[old(i)..]).Some?
      ensures ok ==> Unicode(s[old(i)..]) == Some((o, s[i..]))
    {
      hide Hex4, Utf8;
      var cp;
      ok, cp := ReadHex4();
      if !ok { return false, ""; }
      assert s[old(i)..][4..] == s[i..];
      if 0xD800 <= cp < 0xDC00 && i + 6 <= |s| && s[i] == '\\' && s[i + 1] == 'u' {
        var save := i;
        i := i + 2;
        assert s[save..][2..] == s[i..];
        var paired, lo := ReadHex4();
        if paired && 0xDC00 <= lo < 0xE000 {
          cp := 0x1_0000 + (cp - 0xD800) * 0x400 + (lo - 0xDC00);
          assert s[save..][6..] == s[i..];
        } else {
          i := save;
        }
      }
      o := Utf8(cp);
    }

    /** One escape, after its backslash. */
    method ReadEscape() returns (ok: bool, o: string)
      requires Valid()
      modifies this
      ensures Valid() && old(i) <= i
      ensures ok == Unescape(s[old(i)..]).Some?
      ensures ok ==> Unescape(s[old(i)..]) == Some((o, s[i..])) && old(i) < i
    {
      hide Unicode;
      if i >= |s| { return false, ""; }
      var e := s[i];
      assert s[i..][0] == e && s[i..][1..] == s[i + 1..];
      i := i + 1;
      ok := true;
      match e
      case 'n' => o := "\n";
      case 'r' => o := "\r";
      case 't' => o := "\t";
      case 'b' => o := [8 as char];
      case 'f' => o := [12 as char];
      case 'u' => ok, o := ReadUnicode();
      case _ => o := [e];
    }

    method ReadStr() returns (ok: bool, o: string)
      requires Valid()
      modifies this
      ensures Valid() && old(i) <= i
      ensures ok == ReadString(s[old(i)..]).Some?
      ensures ok ==> ReadString(s[old(i)..]) == Some((o, s[i..])) && old(i) < i
    {
      hide Unescape;
      o := "";
      if i >= |s| || s[i] != '"' { return false, ""; }
      assert s[i..][1..] == s[i + 1..];
      i := i + 1;
      ghost var all := StringRest(s[i..]);
      FromNothing(s[i..]);
      while i < |s| && s[i] != '"'
        invariant old(i) < i <= |s| && StringFrom(o, s[i..]) == all
        decreases |s| - i
      {
        var c := s[i];
        StringStep(o, s[i..]);
        assert s[i..][0] == c && s[i..][1..] == s[i + 1..];
        i := i + 1;
        if c != '\\' {
          o := o + [c];
        } else {
          var got, piece := ReadEscape();
          if !got { return false, ""; }
          o := o + piece;
        }
      }
      StringStep(o, s[i..]);
      if i >= |s| { return false, ""; }
      assert s[i..][0] == '"' && s[i..][1..] == s[i + 1..];
      i := i + 1;
      ok := true;
    }

    /** One member: a key, a colon, a value. */
    method ReadMember(d: nat, other: string -> (real, nat)) returns (ok: bool, m: Member)
      requires Valid()
      modifies this
      ensures Valid() && old(i) <= i
      ensures ok == MemberOf(s[old(i)..], d, other).Some?
      ensures ok ==> MemberOf(s[old(i)..], d, other) == Some((m, s[i..])) && old(i) < i
      decreases |s| - i, 2
    {
      hide Value, ReadString, Skip;
      m := Member("", Null);
      Ws();
      var k;
      ok, k := ReadStr();
      if !ok { return; }
      Ws();
      if i >= |s| || s[i] != ':' { return false, m; }
      assert s[i..][0] == ':' && s[i..][1..] == s[i + 1..];
      i := i + 1;
      var v;
      ok, v := ReadValue(d + 1, other);
      m := Member(k, v);
    }

    /** Members after the opening brace, up to and with the closing one. */
    method ReadMembers(d: nat, other: string -> (real, nat)) returns (ok: bool, o: seq<Member>)
      requires Valid()
      modifies this
      ensures Valid() && old(i) <= i
      ensures ok == Members(s[old(i)..], d, other).Some?
      ensures ok ==> Members(s[old(i)..], d, other) == Some((o, s[i..])) && old(i) < i
      decreases |s| - i, 3
    {
      hide MemberOf;
      o := [];
      ghost var all := Members(s[i..], d, other);
      MembersFromNothing(s[i..], d, other);
      while true
        invariant old(i) <= i <= |s| && MembersFrom(o, s[i..], d, other) == all
        decreases |s| - i
      {
        MembersStep(o, s[i..], d, other);
        var got, m := ReadMember(d, other);
        if !got { return false, []; }
        o := o + [m];
        Ws();
        if i < |s| { assert s[i..][0] == s[i] && s[i..][1..] == s[i + 1..]; }
        if i < |s| && s[i] == ',' {
          i := i + 1;
        } else if i < |s| && s[i] == '}' {
          i := i + 1;
          return true, o;
        } else {
          return false, [];
        }
      }
    }

    method ReadElements(d: nat, other: string -> (real, nat)) returns (ok: bool, a: seq<V>)
      requires Valid()
      modifies this
      ensures Valid() && old(i) <= i
      ensures ok == Elements(s[old(i)..], d, other).Some?
      ensures ok ==> Elements(s[old(i)..], d, other) == Some((a, s[i..])) && old(i) < i
      decreases |s| - i, 2
    {
      hide Value;
      a := [];
      ghost var all := Elements(s[i..], d, other);
      ElementsFromNothing(s[i..], d, other);
      while true
        invariant old(i) <= i <= |s| && ElementsFrom(a, s[i..], d, other) == all
        decreases |s| - i
      {
        ElementsStep(a, s[i..], d, other);
        var got, v := ReadValue(d + 1, other);
        if !got { return false, []; }
        a := a + [v];
        Ws();
        if i < |s| { assert s[i..][0] == s[i] && s[i..][1..] == s[i + 1..]; }
        if i < |s| && s[i] == ',' {
          i := i + 1;
        } else if i < |s| && s[i] == ']' {
          i := i + 1;
          return true, a;
        } else {
          return false, [];
        }
      }
    }

    method ReadValue(d: nat, other: string -> (real, nat)) returns (ok: bool, v: V)
      requires Valid()
      modifies this
      ensures Valid() && old(i) <= i
      ensures ok == Value(s[old(i)..], d, other).Some?
      ensures ok ==> Value(s[old(i)..], d, other) == Some((v, s[i..])) && old(i) < i
      decreases |s| - i, 1
    {
      hide Members, Elements, ReadString, Strtod, Skip;
      v := Null;
      if d > MAX_DEPTH { return false, Null; }
      Ws();
      ghost var t := s[i..];
      if i >= |s| { return false, Null; }
      var c := s[i];
      assert t[0] == c && t[1..] == s[i + 1..];
      if c == '{' {
        i := i + 1;
        ghost var at := i;
        Ws();
        if i < |s| { assert s[i..][0] == s[i] && s[i..][1..] == s[i + 1..]; }
        if i < |s| && s[i] == '}' { i := i + 1; return true, Obj([]); }
        MembersSkip(s[at..], d, other);
        var o;
        ok, o := ReadMembers(d, other);
        v := Obj(o);
        return;
      }
      if c == '[' {
        i := i + 1;
        ghost var at := i;
        Ws();
        if i < |s| { assert s[i..][0] == s[i] && s[i..][1..] == s[i + 1..]; }
        if i < |s| && s[i] == ']' { i := i + 1; return true, Arr([]); }
        ElementsSkip(s[at..], d, other);
        var a;
        ok, a := ReadElements(d, other);
        v := Arr(a);
        return;
      }
      if c == '"' {
        var x;
        ok, x := ReadStr();
        v := Str(x);
        return;
      }
      ok, v := ReadWord(other);
    }

    /** A word or a number. */
    method ReadWord(other: string -> (real, nat)) returns (ok: bool, v: V)
      requires Valid() && i < |s|
      modifies this
      ensures Valid() && old(i) <= i
      ensures var t := s[old(i)..];
              if "true" <= t then ok && v == Bool(true) && i == old(i) + 4
              else if "false" <= t then ok && v == Bool(false) && i == old(i) + 5
              else if "null" <= t then ok && v == Null && i == old(i) + 4
              else (ok <==> Strtod(t, other).1 > 0) && (ok ==> v == Num(Strtod(t, other).0) && i == old(i) + Strtod(t, other).1)
    {
      hide Strtod;
      var t := s[i..];
      ok, v := true, Null;
      if "true" <= t { i := i + 4; v := Bool(true); }
      else if "false" <= t { i := i + 5; v := Bool(false); }
      else if "null" <= t { i := i + 4; }
      else {
        var x := Strtod(t, other);
        if x.1 == 0 { return false, Null; }
        i, v := i + x.1, Num(x.0);
      }
    }

    method ParseAll(other: string -> (real, nat)) returns (ok: bool, v: V)
      requires Valid() && i == 0
      modifies this
      ensures ok == Parse(s, other).Some? && (ok ==> Parse(s, other) == Some(v))
    {
      hide Value, Skip;
      assert s[0..] == s;
      ok, v := ReadValue(0, other);
      if !ok { return; }
      Ws();
      ok := i == |s|;
    }
  }

  // ---- the printers' loops ----

  lemma {:induction false} EscapedAppend(a: string, b: string)
    ensures EscapedAll(a + b) == EscapedAll(a) + EscapedAll(b)
  {
    hide Escaped;
    if a == [] {
      assert a + b == b;
    } else {
      assert (a + b)[1..] == a[1..] + b;
      EscapedAppend(a[1..], b);
      assert Escaped(a[0]) + (EscapedAll(a[1..]) + EscapedAll(b)) == Escaped(a[0]) + EscapedAll(a[1..]) + EscapedAll(b);
    }
  }

  method Quote(s: string) returns (o: string)
    ensures o == Quoted(s)
  {
    hide Escaped;
    o := "\"";
    assert o == "\"" + EscapedAll(s[..0]);
    for i := 0 to |s|
      invariant o == "\"" + EscapedAll(s[..i])
    {
      assert s[..i + 1] == s[..i] + [s[i]];
      EscapedAppend(s[..i], [s[i]]);
      assert EscapedAll([s[i]]) == Escaped(s[i]) by { assert [s[i]][1..] == []; assert Escaped(s[i]) + "" == Escaped(s[i]); }
      assert "\"" + (EscapedAll(s[..i]) + Escaped(s[i])) == "\"" + EscapedAll(s[..i]) + Escaped(s[i]);
      o := o + Escaped(s[i]);
    }
    assert s[..|s|] == s;
    o := o + "\"";
  }

  /** One member as printed. */
  function MemberText(m: Member): string {
    Quoted(m.key) + ":" + Text(m.value)
  }

  /** The members printed so far. */
  function Joined(o: seq<Member>): string {
    if o == [] then "" else TextMembers(o)
  }

  /** One member more, after a comma unless it is the first. */
  lemma {:induction false} JoinedMore(o: seq<Member>, m: Member)
    ensures Joined(o + [m]) == Joined(o) + (if o == [] then "" else ",") + MemberText(m)
    decreases |o|
  {
    hide Quoted, Text;
    var t := o + [m];
    if o == [] {
      assert t == [m] && "" + "" + MemberText(m) == MemberText(m) && MemberText(m) + "" == MemberText(m);
    } else {
      assert t[0] == o[0] && t[1..] == o[1..] + [m];
      JoinedMore(o[1..], m);
      var x := MemberText(o[0]);
      if |o| == 1 {
        assert o[1..] == [];
        assert x + ("," + MemberText(m)) == x + "" + "," + MemberText(m);
        assert Joined(o[1..]) == "";
        assert TextMembers(t[1..]) == MemberText(m);
      } else {
        var j := TextMembers(o[1..]);
        assert x + ("," + (j + "," + MemberText(m))) == x + ("," + j) + "," + MemberText(m);
      }
    }
  }

  // ---- steps of the reader's loops ----

  function StringFrom(o: string, s: string): Option<(string, string)> {
    var r := StringRest(s);
    if r.None? then None else Some((o + r.value.0, r.value.1))
  }

  lemma FromNothing(s: string)
    ensures StringFrom("", s) == StringRest(s)
  {
    hide StringRest;
    if StringRest(s).Some? { assert "" + StringRest(s).value.0 == StringRest(s).value.0; }
  }

  lemma StringStep(o: string, s: string)
    ensures StringFrom(o, s) ==
            if s == [] then None
            else if s[0] == '"' then Some((o, s[1..]))
            else if s[0] != '\\' then StringFrom(o + [s[0]], s[1..])
            else if Unescape(s[1..]).None? then None
            else StringFrom(o + Unescape(s[1..]).value.0, Unescape(s[1..]).value.1)
  {
    hide Unescape;
    assert o + "" == o;
    if s != [] && s[0] != '"' {
      var piece := if s[0] == '\\' then Unescape(s[1..]) else Some(([s[0]], s[1..]));
      if piece.Some? {
        var rest := StringRest(piece.value.1);
        if rest.Some? { assert o + (piece.value.0 + rest.value.0) == o + piece.value.0 + rest.value.0; }
      }
    }
  }

  function MembersFrom(o: seq<Member>, s: string, d: nat, other: string -> (real, nat)): Option<(seq<Member>, string)> {
    var r := Members(s, d, other);
    if r.None? then None else Some((o + r.value.0, r.value.1))
  }

  lemma MembersFromNothing(s: string, d: nat, other: string -> (real, nat))
    ensures MembersFrom([], s, d, other) == Members(s, d, other)
  {
    hide Members;
    var r := Members(s, d, other);
    if r.Some? { assert [] + r.value.0 == r.value.0; }
  }

  lemma MembersStep(o: seq<Member>, s: string, d: nat, other: string -> (real, nat))
    ensures MembersFrom(o, s, d, other) ==
            var m := MemberOf(s, d, other);
            if m.None? then None
            else
              var t := Skip(m.value.1);
              if t == [] then None
              else if t[0] == '}' then Some((o + [m.value.0], t[1..]))
              else if t[0] != ',' then None
              else MembersFrom(o + [m.value.0], t[1..], d, other)
  {
    hide MemberOf;
    var m := MemberOf(s, d, other);
    if m.Some? {
      var t := Skip(m.value.1);
      if t != [] && t[0] == ',' {
        var rest := Members(t[1..], d, other);
        if rest.Some? { assert o + ([m.value.0] + rest.value.0) == o + [m.value.0] + rest.value.0; }
      }
    }
  }

  function ElementsFrom(a: seq<V>, s: string, d: nat, other: string -> (real, nat)): Option<(seq<V>, string)> {
    var r := Elements(s, d, other);
    if r.None? then None else Some((a + r.value.0, r.value.1))
  }

  lemma ElementsFromNothing(s: string, d: nat, other: string -> (real, nat))
    ensures ElementsFrom([], s, d, other) == Elements(s, d, other)
  {
    hide Elements;
    var r := Elements(s, d, other);
    if r.Some? { assert [] + r.value.0 == r.value.0; }
  }

  lemma ElementsStep(a: seq<V>, s: string, d: nat, other: string -> (real, nat))
    ensures ElementsFrom(a, s, d, other) ==
            var v := Value(s, d + 1, other);
            if v.None? then None
            else
              var t := Skip(v.value.1);
              if t == [] then None
              else if t[0] == ']' then Some((a + [v.value.0], t[1..]))
              else if t[0] != ',' then None
              else ElementsFrom(a + [v.value.0], t[1..], d, other)
  {
    hide Value;
    var v := Value(s, d + 1, other);
    if v.Some? {
      var t := Skip(v.value.1);
      if t != [] && t[0] == ',' {
        var rest := Elements(t[1..], d, other);
        if rest.Some? { assert a + ([v.value.0] + rest.value.0) == a + [v.value.0] + rest.value.0; }
      }
    }
  }

  /** Space before the first member or element does not matter. */
  lemma {:induction false} SkipTwice(s: string)
    ensures Skip(Skip(s)) == Skip(s)
  {
    if s != [] && IsSpace(s[0]) { SkipTwice(s[1..]); }
  }

  lemma MembersSkip(s: string, d: nat, other: string -> (real, nat))
    ensures Members(Skip(s), d, other) == Members(s, d, other)
  {
    hide ReadString, Value;
    SkipTwice(s);
    assert MemberOf(Skip(s), d, other) == MemberOf(s, d, other);
  }

  lemma ElementsSkip(s: string, d: nat, other: string -> (real, nat))
    ensures Elements(Skip(s), d, other) == Elements(s, d, other)
  {
    hide ReadString, Members, Strtod;
    SkipTwice(s);
    assert Value(Skip(s), d + 1, other) == Value(s, d + 1, other);
  }
}
