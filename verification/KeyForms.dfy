/** What the normal forms of key ids and key values stand for: an id's is its number in upper-case hexadecimal, a
    value's is its digits. */
module KeyForms {
  import opened Basics
  import opened Json
  import opened Keyring

  const UPPER := "0123456789ABCDEF"

  /** The number some hexadecimal digits write. */
  function Number(s: string): (n: nat)
    requires AllHex(s)
  {
    if s == [] then 0 else assert IsHex(s[|s| - 1]); 16 * Number(s[..|s| - 1]) + HexValue(s[|s| - 1])
  }

  /** The number an id stands for: hexadecimal digits, after an optional "0x". */
  function IdNumber(s: string): Option<nat> {
    var t := if "0x" < s || "0X" < s then s[2..] else s;
    if t != "" && AllHex(t) then Some(Number(t)) else None
  }

  /** A number in upper-case hexadecimal. */
  function Hex(n: nat): (r: string)
    ensures r != ""
  {
    if n < 16 then [UPPER[n]] else Hex(n / 16) + [UPPER[n % 16]]
  }

  /** The same, of two digits at least. */
  function Hex02(n: nat): string {
    if n < 16 then ['0', UPPER[n]] else Hex(n)
  }

  /** The normal form of an id is its number in upper-case hexadecimal, of two digits at least; what is no number has
      none. */
  lemma NormIdWritesNumber(s: string)
    ensures NormId(s) == match IdNumber(s) case Some(n) => Hex02(n) case None => ""
  {
    hide Number, Hex, Upper, HexValue, NoZeros;
    var t := Without0x(s);
    PrefixGone(s);
    if t != "" && AllHex(t) {
      var u := UpperAll(t);
      UpperNumber(t);
      ZerosGone(u);
      var z := NoZeros(u);
      PaddedIsHex02(z);
    }
  }

  lemma PrefixGone(s: string)
    ensures Without0x(s) == if "0x" < s || "0X" < s then s[2..] else s
  {
    assert "0x" < s ==> s[..2] == "0x";
    assert "0X" < s ==> s[..2] == "0X";
    if |s| > 2 {
      assert s[..2] == [s[0], s[1]];
      assert "0x" == ['0', 'x'] && "0X" == ['0', 'X'];
    }
  }

  lemma UpperIs(c: char)
    requires IsHex(c)
    ensures 0 <= HexValue(c) < 16 && Upper(c) == UPPER[HexValue(c)] && HexValue(Upper(c)) == HexValue(c)
    ensures HexValue(c) == 0 <==> c == '0'
  {
  }

  lemma {:induction false} UpperNumber(t: string)
    requires AllHex(t)
    ensures AllHex(UpperAll(t)) && Number(UpperAll(t)) == Number(t)
    ensures forall i :: 0 <= i < |t| ==> Upper(UpperAll(t)[i]) == UpperAll(t)[i]
  {
    hide Upper, HexValue;
    forall i | 0 <= i < |t| ensures IsHex(UpperAll(t)[i]) && Upper(UpperAll(t)[i]) == UpperAll(t)[i] { UpperHex(t[i]); }
    if t != [] {
      var u := t[..|t| - 1];
      UpperNumber(u);
      assert UpperAll(t)[..|t| - 1] == UpperAll(u);
      UpperIs(t[|t| - 1]);
    }
  }

  lemma {:induction false} ZerosGone(u: string)
    requires AllHex(u)
    ensures AllHex(NoZeros(u)) && Number(NoZeros(u)) == Number(u) && (NoZeros(u) != [] ==> NoZeros(u)[0] != '0')
    ensures (forall i :: 0 <= i < |u| ==> Upper(u[i]) == u[i]) ==> forall i :: 0 <= i < |NoZeros(u)| ==> Upper(NoZeros(u)[i]) == NoZeros(u)[i]
  {
    if u != [] && u[0] == '0' {
      hide Upper;
      ZeroInFront(u[1..]);
      assert u == ['0'] + u[1..];
      ZerosGone(u[1..]);
    }
  }

  lemma {:induction false} ZeroInFront(s: string)
    requires AllHex(s)
    ensures AllHex(['0'] + s) && Number(['0'] + s) == Number(s)
  {
    var t := ['0'] + s;
    assert forall i :: 0 < i < |t| ==> t[i] == s[i - 1];
    if s == [] {
      assert t[..|t| - 1] == [];
    } else {
      ZeroInFront(s[..|s| - 1]);
      assert t[..|t| - 1] == ['0'] + s[..|s| - 1];
    }
  }

  /** Upper-case digits without a zero in front are the number's own. */
  lemma {:induction false} DigitsAreHex(z: string)
    requires z != [] && AllHex(z) && z[0] != '0' && forall i :: 0 <= i < |z| ==> Upper(z[i]) == z[i]
    ensures Number(z) > 0 && z == Hex(Number(z)) && (|z| == 1 <==> Number(z) < 16)
  {
    hide Upper, HexValue;
    var y, c := z[..|z| - 1], z[|z| - 1];
    assert IsHex(c) && z == y + [c];
    UpperIs(c);
    if y == [] {
      assert Number(z) == HexValue(c);
    } else {
      hide Hex, Number;
      DigitsAreHex(y);
      OneDigitMore(y, c);
    }
  }

  lemma OneDigitMore(y: string, c: char)
    requires y != [] && AllHex(y) && IsHex(c) && Upper(c) == c && Number(y) > 0 && y == Hex(Number(y))
    ensures AllHex(y + [c]) && Number(y + [c]) >= 16 && y + [c] == Hex(Number(y + [c]))
  {
    hide *;
    UpperIs(c);
    NumberMore(y, c);
    HexMore(Number(y), HexValue(c));
  }

  lemma NumberMore(y: string, c: char)
    requires AllHex(y) && IsHex(c)
    ensures AllHex(y + [c]) && Number(y + [c]) == 16 * Number(y) + HexValue(c)
  {
    hide HexValue;
    assert (y + [c])[..|y|] == y;
  }

  lemma HexMore(m: nat, d: nat)
    requires m > 0 && d < 16
    ensures Hex(16 * m + d) == Hex(m) + [UPPER[d]]
  {
    LastDigit(m, d);
  }

  lemma LastDigit(m: nat, d: nat)
    requires d < 16
    ensures (16 * m + d) / 16 == m && (16 * m + d) % 16 == d
  {
  }

  lemma PaddedIsHex02(z: string)
    requires AllHex(z) && (z != [] ==> z[0] != '0') && forall i :: 0 <= i < |z| ==> Upper(z[i]) == z[i]
    ensures Padded(z) == Hex02(Number(z))
  {
    hide *;
    if z == [] {
      NothingIsZero();
    } else {
      DigitsAreHex(z);
      PadTo02(z, Number(z));
    }
  }

  lemma NothingIsZero()
    ensures Number([]) == 0 && Padded([]) == Hex02(0)
  {
  }

  lemma PadTo02(z: string, n: nat)
    requires z == Hex(n) && (|z| == 1 <==> n < 16)
    ensures Padded(z) == Hex02(n)
  {
  }

  lemma {:induction false} HexNumber(n: nat)
    ensures AllHex(Hex(n)) && Number(Hex(n)) == n
  {
    if n < 16 {
      assert [UPPER[n]][..0] == [];
      DigitValue(n);
    } else {
      HexNumber(n / 16);
      DigitValue(n % 16);
      var r := Hex(n);
      assert r[..|r| - 1] == Hex(n / 16);
    }
  }

  lemma DigitValue(d: nat)
    requires d < 16
    ensures HexValue(UPPER[d]) == d
  {
  }

  lemma Hex02Apart(m: nat, n: nat)
    ensures Hex02(m) == Hex02(n) <==> m == n
    ensures |Hex02(m)| >= 2
  {
    hide Hex;
    Hex02Number(m);
    Hex02Number(n);
  }

  lemma Hex02Number(n: nat)
    ensures AllHex(Hex02(n)) && Number(Hex02(n)) == n && |Hex02(n)| >= 2
  {
    if n < 16 {
      DigitValue(n);
      assert AllHex([UPPER[n]]);
      ZeroInFront([UPPER[n]]);
      assert ['0'] + [UPPER[n]] == Hex02(n);
      assert [UPPER[n]][..0] == [];
    } else {
      HexNumber(n);
      assert Hex(n / 16) != "";
    }
  }

  /** Two ids are one key's exactly if they write the same number, or neither writes one. */
  lemma SameKeyIffSameNumber(a: string, b: string)
    ensures NormId(a) == NormId(b) <==> IdNumber(a) == IdNumber(b)
  {
    hide NormId, IdNumber, Hex02;
    NormIdWritesNumber(a);
    NormIdWritesNumber(b);
    var m, n := IdNumber(a), IdNumber(b);
    Hex02Apart(if m.Some? then m.value else 0, if n.Some? then n.value else 0);
    if n.Some? { Hex02Apart(n.value, n.value); }
  }

  // ---- key values ----

  /** The digits of a key value, spaces skipped; None where something else stands. */
  function KeyDigits(s: string): Option<seq<nat>> {
    if s == [] then Some([])
    else if s[0] in " \t\n\r" || s[0] as int in {11, 12} then KeyDigits(s[1..])
    else
      var rest := KeyDigits(s[1..]);
      if rest.Some? && HexValue(s[0]) >= 0 then Some([HexValue(s[0])] + rest.value) else None
  }

  predicate IsSpelled(r: string, d: seq<nat>) {
    |r| == |d| && forall i :: 0 <= i < |d| ==> d[i] < 16 && r[i] == UPPER[d[i]]
  }

  lemma {:induction false} SpacesSkipped(s: string)
    ensures KeyDigits(s).Some? <==> AllHex(NoSpaces(s))
    ensures KeyDigits(s).Some? ==> IsSpelled(UpperAll(NoSpaces(s)), KeyDigits(s).value)
  {
    hide Upper, HexValue;
    if s != [] {
      SpacesSkipped(s[1..]);
      SpaceIs(s[0]);
      var r, t := NoSpaces(s[1..]), NoSpaces(s);
      if !IsSpace(s[0]) {
        assert t == [s[0]] + r;
        AllHexHead(s[0], r);
        if IsHex(s[0]) { UpperIs(s[0]); }
      }
    }
  }

  lemma AllHexHead(c: char, r: string)
    ensures AllHex([c] + r) <==> IsHex(c) && AllHex(r)
  {
    hide IsHex;
    var t := [c] + r;
    assert t[0] == c && forall i :: 0 <= i < |r| ==> t[i + 1] == r[i];
    assert forall i :: 0 < i < |t| ==> t[i] == r[i - 1];
  }

  lemma SpaceIs(c: char)
    ensures IsSpace(c) <==> c in " \t\n\r" || c as int in {11, 12}
  {
  }

  /** A key value's normal form is its digits in upper case: an even number of them, from two to 64; what has another
      number of digits, or anything but digits and spaces, has none. */
  lemma NormValueSpellsDigits(s: string)
    ensures var d := KeyDigits(s);
            if d.Some? && 2 <= |d.value| <= 64 && |d.value| % 2 == 0 then IsSpelled(NormValue(s), d.value) else NormValue(s) == ""
  {
    hide KeyDigits, Upper, HexValue;
    SpacesSkipped(s);
  }

  // ---- any keys file ----

  /** What a file's object says under a family, a network and a key. */
  datatype Spot = Spot(fam: string, net: string, key: string, value: V)

  function IdSpots(fam: string, net: string, o: seq<Member>): seq<Spot> {
    if o == [] then [] else IdSpots(fam, net, o[..|o| - 1]) + [Spot(fam, net, o[|o| - 1].key, o[|o| - 1].value)]
  }

  function NetSpots(fam: string, o: seq<Member>): seq<Spot> {
    if o == [] then []
    else
      var m := o[|o| - 1];
      NetSpots(fam, o[..|o| - 1]) + if m.value.Obj? then IdSpots(fam, m.key, m.value.o) else []
  }

  /** All there is three levels down, in the order of the file; what is no object on the way holds nothing. */
  function Spots(o: seq<Member>): seq<Spot> {
    if o == [] then []
    else
      var m := o[|o| - 1];
      Spots(o[..|o| - 1]) + if m.value.Obj? then NetSpots(m.key, m.value.o) else []
  }

  /** The spot gives the key with number i an entry: the value is an object with a key value of the normal form. */
  predicate Gives(x: Spot, f: string, n: string, i: nat) {
    x.fam == f && x.net == n && IdNumber(x.key) == Some(i) && x.value.Obj? && NormValue(StrOf(x.value, "key")) != ""
  }

  /** Of the spots that give the key an entry the last one's, read as it stands. */
  function LastGiven(s: seq<Spot>, f: string, n: string, i: nat): Option<KeyEntry> {
    if s == [] then None
    else if Gives(s[|s| - 1], f, n, i) then Some(EntryOf(s[|s| - 1].value))
    else LastGiven(s[..|s| - 1], f, n, i)
  }

  function Or(a: Option<KeyEntry>, b: Option<KeyEntry>): Option<KeyEntry> {
    if a.Some? then a else b
  }

  lemma {:induction false} LastOfBoth(a: seq<Spot>, b: seq<Spot>, f: string, n: string, i: nat)
    ensures LastGiven(a + b, f, n, i) == Or(LastGiven(b, f, n, i), LastGiven(a, f, n, i))
  {
    hide Gives, EntryOf;
    if b == [] {
      assert a + b == a;
    } else {
      LastOfBoth(a, b[..|b| - 1], f, n, i);
      assert (a + b)[..|a + b| - 1] == a + b[..|b| - 1];
    }
  }

  lemma IdTaken(r: Ring, fam: string, net: string, m: Member, f: string, n: string, i: nat)
    ensures Lookup(TakeId(r, fam, net, m), f, n, Hex02(i))
            == if Gives(Spot(fam, net, m.key, m.value), f, n, i) then Some(EntryOf(m.value)) else Lookup(r, f, n, Hex02(i))
  {
    hide NormId, IdNumber, Hex02, NormValue, Lookup, Put;
    NormIdWritesNumber(m.key);
    var k := IdNumber(m.key);
    if k.Some? { Hex02Apart(k.value, i); }
    PutLooksUp(r, fam, net, NormId(m.key), EntryOf(m.value), f, n, Hex02(i));
  }

  lemma {:induction false} IdsTaken(r: Ring, fam: string, net: string, o: seq<Member>, f: string, n: string, i: nat)
    ensures Lookup(TakeIds(r, fam, net, o), f, n, Hex02(i))
            == Or(LastGiven(IdSpots(fam, net, o), f, n, i), Lookup(r, f, n, Hex02(i)))
  {
    hide Gives, EntryOf, Lookup, Hex02, TakeId;
    if o != [] {
      var before, m := o[..|o| - 1], o[|o| - 1];
      IdsTaken(r, fam, net, before, f, n, i);
      IdTaken(TakeIds(r, fam, net, before), fam, net, m, f, n, i);
      var s := IdSpots(fam, net, o);
      assert s[..|s| - 1] == IdSpots(fam, net, before);
    }
  }

  lemma {:induction false} NetsTaken(r: Ring, fam: string, o: seq<Member>, f: string, n: string, i: nat)
    ensures Lookup(TakeNets(r, fam, o), f, n, Hex02(i)) == Or(LastGiven(NetSpots(fam, o), f, n, i), Lookup(r, f, n, Hex02(i)))
  {
    hide LastGiven, Lookup, Hex02, TakeIds, IdSpots;
    if o == [] {
      NoneGiven(f, n, i);
    } else {
      var before, m := o[..|o| - 1], o[|o| - 1];
      NetsTaken(r, fam, before, f, n, i);
      if m.value.Obj? {
        IdsTaken(TakeNets(r, fam, before), fam, m.key, m.value.o, f, n, i);
        LastOfBoth(NetSpots(fam, before), IdSpots(fam, m.key, m.value.o), f, n, i);
      } else {
        assert NetSpots(fam, before) + [] == NetSpots(fam, before);
      }
    }
  }

  lemma {:induction false} FamsTaken(r: Ring, o: seq<Member>, f: string, n: string, i: nat)
    ensures Lookup(TakeFams(r, o), f, n, Hex02(i)) == Or(LastGiven(Spots(o), f, n, i), Lookup(r, f, n, Hex02(i)))
  {
    hide LastGiven, Lookup, Hex02, TakeNets, NetSpots;
    if o == [] {
      NoneGiven(f, n, i);
    } else {
      var before, m := o[..|o| - 1], o[|o| - 1];
      FamsTaken(r, before, f, n, i);
      if m.value.Obj? {
        NetsTaken(TakeFams(r, before), m.key, m.value.o, f, n, i);
        LastOfBoth(Spots(before), NetSpots(m.key, m.value.o), f, n, i);
      } else {
        assert Spots(before) + [] == Spots(before);
      }
    }
  }

  lemma NoneGiven(f: string, n: string, i: nat)
    ensures LastGiven([], f, n, i) == None
  {
  }

  /** The first member of an object under a name. */
  predicate FirstUnder(v: V, k: string, x: V) {
    v.Obj? && exists j :: 0 <= j < |v.o| && v.o[j] == Member(k, x) && forall l :: 0 <= l < j ==> v.o[l].key != k
  }

  /** Any keys file, whoever wrote it: under each family, network and key number the ring has the entry the file gives
      last under its keys, and none where it gives none.  Nothing in the file makes the reader refuse the rest of it. */
  lemma LastMemberWins(root: V, keys: V, f: string, n: string, i: nat)
    requires FirstUnder(root, "keys", keys) && keys.Obj?
    ensures Lookup(RingOf(root), f, n, Hex02(i)) == LastGiven(Spots(keys.o), f, n, i)
  {
    hide LastGiven, Hex02, Spots, TakeFams;
    GetsFirst(root, "keys", keys);
    FamsTaken(map[], keys.o, f, n, i);
    assert Lookup(map[], f, n, Hex02(i)) == None;
  }

  lemma GetsFirst(v: V, k: string, x: V)
    requires FirstUnder(v, k, x)
    ensures Get(v, k) == Some(x)
  {
    var j :| 0 <= j < |v.o| && v.o[j] == Member(k, x) && forall l :: 0 <= l < j ==> v.o[l].key != k;
    FoundAt(v.o, k, j);
  }

  lemma {:induction false} FoundAt(o: seq<Member>, k: string, j: nat)
    requires j < |o| && o[j].key == k && forall l :: 0 <= l < j ==> o[l].key != k
    ensures GetIn(o, k) == Some(o[j].value)
  {
    if j > 0 { FoundAt(o[1..], k, j - 1); }
  }

  /** An entry's time is what the file says, rounded toward zero; 0 if it says no number. */
  lemma AddedIsTruncated(v: V, x: V)
    requires FirstUnder(v, "added", x)
    ensures var t := EntryOf(v).added as real;
            if x.Num? then (if x.n >= 0.0 then 0.0 <= t <= x.n < t + 1.0 else t - 1.0 < x.n <= t <= 0.0) else t == 0.0
  {
    hide NormId, NormValue;
    GetsFirst(v, "added", x);
  }
}
