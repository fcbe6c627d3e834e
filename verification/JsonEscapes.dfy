/** The escapes another program's JSON may spell a string with: each is read as the bytes of what it writes. */
module JsonEscapes {
  import opened Basics
  import opened Json

  /** A byte that continues a character, and its six bits. */
  predicate Continues(c: char) {
    0x80 <= c as int < 0xC0
  }

  function Bits(c: char): int {
    c as int - 0x80
  }

  /** The bytes b are the UTF-8 form of the code point n, in as few bytes as there can be. */
  predicate Encodes(b: string, n: nat) {
    if n < 0x80 then b == [n as char]
    else if n < 0x800 then |b| == 2 && Continues(b[1]) && n == 0x40 * (b[0] as int - 0xC0) + Bits(b[1])
    else if n < 0x1_0000 then
      |b| == 3 && Continues(b[1]) && Continues(b[2]) && n == 0x1000 * (b[0] as int - 0xE0) + 0x40 * Bits(b[1]) + Bits(b[2])
    else
      && |b| == 4 && Continues(b[1]) && Continues(b[2]) && Continues(b[3])
      && n == 0x4_0000 * (b[0] as int - 0xF0) + 0x1000 * Bits(b[1]) + 0x40 * Bits(b[2]) + Bits(b[3])
  }

  lemma Utf8Encodes(n: nat)
    requires n < 0x11_0000
    ensures Encodes(Utf8(n), n)
  {
    var q, r := n / 0x40, n / 0x1000;
    assert n == 0x40 * q + n % 0x40 && q == 0x40 * r + q % 0x40 && r == 0x40 * (n / 0x4_0000) + r % 0x40 by {
      assert q / 0x40 == r && r / 0x40 == n / 0x4_0000;
    }
  }

  predicate Hexes(h: string) {
    |h| == 4 && HexValue(h[0]) >= 0 && HexValue(h[1]) >= 0 && HexValue(h[2]) >= 0 && HexValue(h[3]) >= 0
  }

  /** What four hexadecimal digits write. */
  function Unit(h: string): (n: nat)
    requires Hexes(h)
  {
    0x1000 * HexValue(h[0]) + 0x100 * HexValue(h[1]) + 0x10 * HexValue(h[2]) + HexValue(h[3])
  }

  lemma UnitRead(h: string, rest: string)
    requires Hexes(h)
    ensures Hex4(h + rest) == Some(Unit(h)) && (h + rest)[4..] == rest
  {
  }

  /** A surrogate pair is read as the one code point beyond 0xffff that it stands for. */
  lemma PairRead(h: string, l: string, rest: string)
    requires Hexes(h) && Hexes(l) && 0xD800 <= Unit(h) < 0xDC00 && 0xDC00 <= Unit(l) < 0xE000
    ensures var r := Unescape("u" + h + "\\u" + l + rest);
            r.Some? && r.value.1 == rest && Encodes(r.value.0, 0x1_0000 + 0x400 * (Unit(h) - 0xD800) + (Unit(l) - 0xDC00))
  {
    hide Hexes, Hex4, Unit, Utf8, Encodes;
    var s := "u" + h + "\\u" + l + rest;
    var t := "\\u" + l + rest;
    assert s[1..] == h + t;
    UnitRead(h, t);
    assert t[2..] == l + rest && t[0] == '\\' && t[1] == 'u';
    UnitRead(l, rest);
    FourLong(l);
    assert t[6..] == rest;
    Utf8Encodes(0x1_0000 + 0x400 * (Unit(h) - 0xD800) + (Unit(l) - 0xDC00));
  }

  lemma FourLong(h: string)
    requires Hexes(h)
    ensures |h| == 4
  {
  }

  /** No second half of a surrogate pair comes first. */
  predicate NoLowHalf(rest: string) {
    !("\\u" <= rest && |rest| >= 6 && Hexes(rest[2..6]) && 0xDC00 <= Unit(rest[2..6]) < 0xE000)
  }

  /** Any other unit is read as itself; half a pair alone is not refused. */
  lemma UnitAloneRead(h: string, rest: string)
    requires Hexes(h) && (!(0xD800 <= Unit(h) < 0xDC00) || NoLowHalf(rest))
    ensures var r := Unescape("u" + h + rest);
            r.Some? && r.value.1 == rest && Encodes(r.value.0, Unit(h))
  {
    hide Hexes, Hex4, Unit, Utf8, Encodes;
    var s := "u" + h + rest;
    assert s[1..] == h + rest;
    UnitRead(h, rest);
    if |rest| >= 6 && rest[0] == '\\' && rest[1] == 'u' {
      assert "\\u" <= rest by { assert rest[..2] == ['\\', 'u']; }
      HexesOrNot(rest[2..]);
      assert rest[2..][..4] == rest[2..6];
    }
    Utf8Encodes(Unit(h));
  }

  lemma HexesOrNot(s: string)
    requires |s| >= 4
    ensures Hex4(s) == if Hexes(s[..4]) then Some(Unit(s[..4])) else None
  {
  }

  /** The one-letter escapes; any other character after a backslash stands for itself. */
  lemma LetterRead(c: char, rest: string)
    requires c != 'u'
    ensures Unescape([c] + rest) == Some(([match c case 'n' => 10 as char case 'r' => 13 as char case 't' => 9 as char
                                                   case 'b' => 8 as char case 'f' => 12 as char case _ => c], rest))
  {
    assert ([c] + rest)[1..] == rest;
  }
}
