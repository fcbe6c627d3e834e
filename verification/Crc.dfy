/** CRC-32: the table-driven form gives what the bit-by-bit definition gives. */
module Crc {

  const POLYNOMIAL: bv32 := 0xEDB88320

  /** One bit of the division. */
  function Bit(c: bv32): bv32 {
    if c & 1 == 1 then POLYNOMIAL ^ (c >> 1) else c >> 1
  }

  function Bits(c: bv32, n: nat): bv32 {
    if n == 0 then c else Bit(Bits(c, n - 1))
  }

  function Xor(a: bv32, b: bv32): bv32 {
    a ^ b
  }

  function Wide(b: bv8): bv32 {
    b as bv32
  }

  /** The remainder after the bytes of s, bit by bit. */
  function Remainder(s: seq<bv8>): bv32 {
    if s == [] then 0xFFFF_FFFF else Bits(Xor(Remainder(s[..|s| - 1]), Wide(s[|s| - 1])), 8)
  }

  function Crc32(s: seq<bv8>): bv32 {
    Xor(Remainder(s), 0xFFFF_FFFF)
  }

  /** The division is linear. */
  lemma BitLinear(a: bv32, b: bv32)
    ensures Bit(a ^ b) == Bit(a) ^ Bit(b)
  {
    OddOrEven(a);
    OddOrEven(b);
    if a & 1 == 1 && b & 1 == 1 { BothOdd(a, b); }
    else if a & 1 == 1 { OneOdd(a, b); assert Bit(a ^ b) == Bit(a) ^ Bit(b); }
    else if b & 1 == 1 { OneOdd(b, a); Commute(a, b); Commute(POLYNOMIAL ^ (b >> 1), a >> 1); }
    else { BothEven(a, b); }
  }

  lemma OddOrEven(a: bv32)
    ensures a & 1 == 0 || a & 1 == 1
  {
  }

  lemma Commute(a: bv32, b: bv32)
    ensures a ^ b == b ^ a
  {
  }

  lemma BothOdd(a: bv32, b: bv32)
    requires a & 1 == 1 && b & 1 == 1
    ensures (a ^ b) & 1 == 0 && (POLYNOMIAL ^ (a >> 1)) ^ (POLYNOMIAL ^ (b >> 1)) == (a ^ b) >> 1
  {
  }

  lemma OneOdd(a: bv32, b: bv32)
    requires a & 1 == 1 && b & 1 == 0
    ensures (a ^ b) & 1 == 1 && (POLYNOMIAL ^ (a >> 1)) ^ (b >> 1) == POLYNOMIAL ^ ((a ^ b) >> 1)
  {
  }

  lemma BothEven(a: bv32, b: bv32)
    requires a & 1 == 0 && b & 1 == 0
    ensures (a ^ b) & 1 == 0 && (a >> 1) ^ (b >> 1) == (a ^ b) >> 1
  {
  }

  lemma {:induction false} BitsLinear(a: bv32, b: bv32, n: nat)
    ensures Bits(Xor(a, b), n) == Xor(Bits(a, n), Bits(b, n))
  {
    hide Bit, Xor;
    if n > 0 {
      BitsLinear(a, b, n - 1);
      XorLinear(Bits(a, n - 1), Bits(b, n - 1));
    }
  }

  lemma XorLinear(a: bv32, b: bv32)
    ensures Bit(Xor(a, b)) == Xor(Bit(a), Bit(b))
  {
    hide Bit;
    BitLinear(a, b);
  }

  /** Bits above the low byte only move down. */
  lemma HighBits(h: bv32)
    requires h & 0xFF == 0
    ensures Bits(h, 8) == h >> 8
  {
    EightBits(h);
    assert Bit(Bit(Bit(Bit(Bit(Bit(Bit(Bit(h)))))))) == h >> 8;
  }

  lemma EightBits(h: bv32)
    ensures Bits(h, 8) == Bit(Bit(Bit(Bit(Bit(Bit(Bit(Bit(h))))))))
  {
    hide Bit;
    assert Bits(h, 0) == h;
    assert Bits(h, 1) == Bit(h);
    assert Bits(h, 2) == Bit(Bit(h));
    assert Bits(h, 3) == Bit(Bit(Bit(h)));
    assert Bits(h, 4) == Bit(Bit(Bit(Bit(h))));
    assert Bits(h, 5) == Bit(Bit(Bit(Bit(Bit(h)))));
    assert Bits(h, 6) == Bit(Bit(Bit(Bit(Bit(Bit(h))))));
    assert Bits(h, 7) == Bit(Bit(Bit(Bit(Bit(Bit(Bit(h)))))));
  }

  function Low(v: bv32): bv8 {
    (v & 255) as bv8
  }

  function Rest(v: bv32): bv32 {
    v & 0xFFFF_FF00
  }

  function Down(v: bv32): bv32 {
    v >> 8
  }

  lemma SplitLow(v: bv32)
    ensures Xor(Wide(Low(v)), Rest(v)) == v && Rest(v) & 0xFF == 0 && Rest(v) >> 8 == Down(v)
  {
  }

  lemma RestDown(v: bv32)
    ensures Bits(Rest(v), 8) == Down(v)
  {
    hide Bits;
    SplitLow(v);
    HighBits(Rest(v));
  }

  /** A whole byte at once: what the low byte alone gives, and the rest moved down. */
  lemma ByteAtOnce(v: bv32)
    ensures Bits(v, 8) == Xor(Bits(Wide(Low(v)), 8), Down(v))
  {
    hide *;
    SplitLow(v);
    BitsLinear(Wide(Low(v)), Rest(v), 8);
    RestDown(v);
  }

  lemma MoveDown(x: bv32, b: bv8)
    ensures Down(Xor(x, Wide(b))) == Down(x)
  {
  }

  lemma IndexBack(b: bv8)
    ensures (b as int) as bv8 == b
  {
  }

  ghost predicate IsTable(t: seq<bv32>) {
    |t| == 256 && forall n :: 0 <= n < 256 ==> t[n] == Bits(Wide(n as bv8), 8)
  }

  method MakeTable() returns (t: array<bv32>)
    ensures fresh(t) && IsTable(t[..])
  {
    hide Bits, Wide;
    t := new bv32[256];
    for n := 0 to 256
      invariant forall m :: 0 <= m < n ==> t[m] == Bits(Wide(m as bv8), 8)
    {
      t[n] := TableEntry(Wide(n as bv8));
    }
  }

  method TableEntry(n: bv32) returns (c: bv32)
    ensures c == Bits(n, 8)
  {
    hide Bit;
    c := n;
    for k := 0 to 8
      invariant c == Bits(n, k)
    {
      c := StepBit(c);
    }
  }

  method StepBit(c: bv32) returns (d: bv32)
    ensures d == Bit(c)
  {
    if c & 1 == 1 { d := 0xEDB88320 ^ (c >> 1); } else { d := c >> 1; }
  }

  /** The page's checksum, with the table it keeps. */
  class Checksum {
    var table: array?<bv32>

    ghost predicate Valid()
      reads this, table
    {
      table != null ==> IsTable(table[..])
    }

    constructor ()
      ensures Valid()
    {
      table := null;
    }

    method Of(s: seq<bv8>) returns (crc: bv32)
      requires Valid()
      modifies this
      ensures Valid() && crc == Crc32(s)
    {
      hide Bits;
      if table == null { table := MakeTable(); }
      var t := table[..];
      crc := Run(t, s);
    }
  }

  method Run(t: seq<bv32>, s: seq<bv8>) returns (crc: bv32)
    requires IsTable(t)
    ensures crc == Crc32(s)
  {
    hide Bits, IsTable, Xor, Wide;
    var x: bv32 := 0xFFFF_FFFF;
    for i := 0 to |s|
      invariant x == Remainder(s[..i])
    {
      assert s[..i + 1][..i] == s[..i] && s[..i + 1][i] == s[i];
      x := TableStep(t, x, s[i]);
    }
    assert s[..|s|] == s;
    crc := Xor(x, 0xFFFF_FFFF);
  }

  method TableStep(t: seq<bv32>, x: bv32, b: bv8) returns (y: bv32)
    requires IsTable(t)
    ensures y == Bits(Xor(x, Wide(b)), 8)
  {
    hide Bits, Xor, Wide, Low, Rest, Down;
    var v := Xor(x, Wide(b));
    ByteAtOnce(v);
    MoveDown(x, b);
    IndexBack(Low(v));
    y := Xor(t[Low(v) as int], Down(x));
  }
}
