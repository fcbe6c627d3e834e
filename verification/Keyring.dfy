/** The decryption keyring: ids and values in one normal form, no empty inner maps, and a keys file that is read back
    to the very ring that was written. */
module Keyring {
  import opened Basics
  import opened Ordered
  import opened Json

  datatype KeyEntry = KeyEntry(alg: string, value: string, added: int)

  type Ids = map<string, KeyEntry>
  type Nets = map<string, Ids>
  /** Family to network to key id to entry. */
  type Ring = map<string, Nets>

  // ---- normal forms ----

  predicate IsHex(c: char) {
    HexValue(c) >= 0
  }

  function Upper(c: char): char {
    if 'a' <= c <= 'z' then (c as int - 32) as char else c
  }

  predicate AllHex(s: string) {
    forall i :: 0 <= i < |s| ==> IsHex(s[i])
  }

  function UpperAll(s: string): (r: string)
    ensures |r| == |s| && forall i :: 0 <= i < |s| ==> r[i] == Upper(s[i])
  {
    seq(|s|, i requires 0 <= i < |s| => Upper(s[i]))
  }

  function NoZeros(s: string): (r: string)
    ensures |r| <= |s|
  {
    if s != [] && s[0] == '0' then NoZeros(s[1..]) else s
  }

  function Padded(s: string): string {
    if |s| == 0 then "00" else if |s| == 1 then "0" + s else s
  }

  function Without0x(s: string): string {
    if |s| > 2 && s[0] == '0' && (s[1] == 'x' || s[1] == 'X') then s[2..] else s
  }

  /** The normal form of a hexadecimal id, padded to a byte; "" stands for no normal form. */
  function NormId(s: string): string {
    var t := Without0x(s);
    if t == [] || !AllHex(t) then "" else Padded(NoZeros(UpperAll(t)))
  }

  function NoSpaces(s: string): (r: string)
    ensures |r| <= |s|
  {
    if s == [] then [] else if IsSpace(s[0]) then NoSpaces(s[1..]) else [s[0]] + NoSpaces(s[1..])
  }

  /** A key value: upper-case hex without spaces, an even number of digits up to 64; "" if it is none. */
  function NormValue(s: string): string {
    var t := NoSpaces(s);
    if t == [] || !AllHex(t) || |t| % 2 != 0 || |t| > 64 then "" else UpperAll(t)
  }

  lemma UpperHex(c: char)
    requires IsHex(c)
    ensures IsHex(Upper(c)) && Upper(Upper(c)) == Upper(c) && HexValue(Upper(c)) == HexValue(c) && !IsSpace(Upper(c))
    ensures Upper(c) != 'x' && Upper(c) != 'X' && (Upper(c) == '0' <==> c == '0')
  {
  }

  lemma {:induction false} NoZerosIs(s: string)
    ensures NoZeros(s) == s[|s| - |NoZeros(s)|..] && (NoZeros(s) != [] ==> NoZeros(s)[0] != '0')
  {
    if s != [] && s[0] == '0' { NoZerosIs(s[1..]); }
  }

  lemma {:induction false} PaddedZeros(s: string)
    requires s == [] || s[0] != '0'
    ensures NoZeros(Padded(s)) == s
  {
    if |s| == 0 {
      assert "00"[1..] == "0" && "0"[1..] == [];
    } else if |s| == 1 {
      assert ("0" + s)[1..] == s;
    }
  }

  /** A normal form is its own normal form. */
  lemma NormIdIdempotent(s: string)
    ensures NormId(NormId(s)) == NormId(s)
  {
    hide HexValue, Upper, IsSpace;
    var t := Without0x(s);
    if t != [] && AllHex(t) {
      var u := UpperAll(t);
      forall i | 0 <= i < |u| ensures IsHex(u[i]) && Upper(u[i]) == u[i] && u[i] != 'x' && u[i] != 'X' { UpperHex(t[i]); }
      var z := NoZeros(u);
      NoZerosIs(u);
      assert forall i :: 0 <= i < |z| ==> z[i] == u[|u| - |z| + i];
      PaddedZeros(z);
      var p := Padded(z);
      ZeroHex();
      assert forall i :: 0 <= i < |p| ==> IsHex(p[i]) && Upper(p[i]) == p[i] && p[i] != 'x' && p[i] != 'X';
      assert Without0x(p) == p && UpperAll(p) == p;
    }
  }

  lemma ZeroHex()
    ensures IsHex('0') && Upper('0') == '0'
  {
  }

  lemma {:induction false} NoSpacesSame(s: string)
    requires forall i :: 0 <= i < |s| ==> !IsSpace(s[i])
    ensures NoSpaces(s) == s
  {
    hide IsSpace;
    if s != [] { NoSpacesSame(s[1..]); }
  }

  lemma NormValueIdempotent(s: string)
    ensures NormValue(NormValue(s)) == NormValue(s)
  {
    hide HexValue, Upper, IsSpace;
    var t := NoSpaces(s);
    if !(t == [] || !AllHex(t) || |t| % 2 != 0 || |t| > 64) {
      var u := UpperAll(t);
      forall i | 0 <= i < |u| ensures IsHex(u[i]) && Upper(u[i]) == u[i] && !IsSpace(u[i]) { UpperHex(t[i]); }
      NoSpacesSame(u);
      assert UpperAll(u) == u;
    }
  }

  // ---- the ring ----

  function NetsOf(r: Ring, fam: string): Nets {
    if fam in r then r[fam] else map[]
  }

  function IdsOf(n: Nets, net: string): Ids {
    if net in n then n[net] else map[]
  }

  /** r[fam][net][id] = e */
  function Put(r: Ring, fam: string, net: string, id: string, e: KeyEntry): Ring {
    var n := NetsOf(r, fam);
    r[fam := n[net := IdsOf(n, net)[id := e]]]
  }

  function Set(r: Ring, fam: string, net: string, kid: string, alg: string, value: string, now: int): (Ring, bool) {
    if fam == "" || net == "" || NormId(kid) == "" || NormValue(value) == "" then (r, false)
    else (Put(r, fam, net, NormId(kid), KeyEntry(NormId(alg), NormValue(value), now)), true)
  }

  /** The key goes, and with it a network and a family that have none left. */
  function Remove(r: Ring, fam: string, net: string, kid: string): (Ring, bool) {
    var id := NormId(kid);
    if fam !in r || net !in r[fam] || id !in r[fam][net] then (r, false)
    else
      var ids := r[fam][net] - {id};
      var n := if ids == map[] then r[fam] - {net} else r[fam][net := ids];
      (if n == map[] then r - {fam} else r[fam := n], true)
  }

  predicate GoodEntry(id: string, e: KeyEntry) {
    id != "" && NormId(id) == id && NormId(e.alg) == e.alg && e.value != "" && NormValue(e.value) == e.value
  }

  ghost predicate GoodIds(m: Ids) {
    m != map[] && forall i :: i in m ==> GoodEntry(i, m[i])
  }

  ghost predicate GoodNets(n: Nets) {
    n != map[] && forall k :: k in n ==> k != "" && GoodIds(n[k])
  }

  /** Everything in normal form, nothing empty. */
  ghost predicate WellFormed(r: Ring) {
    forall f :: f in r ==> f != "" && GoodNets(r[f])
  }

  /** The entry of one key. */
  function Lookup(r: Ring, fam: string, net: string, id: string): Option<KeyEntry> {
    if fam in r && net in r[fam] && id in r[fam][net] then Some(r[fam][net][id]) else None
  }

  lemma PutLooksUp(r: Ring, fam: string, net: string, id: string, e: KeyEntry, f: string, n: string, i: string)
    ensures Lookup(Put(r, fam, net, id, e), f, n, i) == if (f, n, i) == (fam, net, id) then Some(e) else Lookup(r, f, n, i)
  {
  }

  lemma PutWellFormed(r: Ring, fam: string, net: string, id: string, e: KeyEntry)
    requires WellFormed(r) && fam != "" && net != "" && GoodEntry(id, e)
    ensures WellFormed(Put(r, fam, net, id, e))
  {
    hide GoodNets;
    var n := NetsOf(r, fam);
    NetPutGood(n, net, id, e);
  }

  lemma NetPutGood(n: Nets, net: string, id: string, e: KeyEntry)
    requires (n == map[] || GoodNets(n)) && net != "" && GoodEntry(id, e)
    ensures GoodNets(n[net := IdsOf(n, net)[id := e]])
  {
    hide GoodIds;
    IdPutGood(IdsOf(n, net), id, e);
    assert net in n[net := IdsOf(n, net)[id := e]];
  }

  lemma IdPutGood(m: Ids, id: string, e: KeyEntry)
    requires (m == map[] || GoodIds(m)) && GoodEntry(id, e)
    ensures GoodIds(m[id := e])
  {
    hide GoodEntry;
    assert id in m[id := e];
  }

  lemma SetWellFormed(r: Ring, fam: string, net: string, kid: string, alg: string, value: string, now: int)
    requires WellFormed(r)
    ensures WellFormed(Set(r, fam, net, kid, alg, value, now).0)
  {
    hide NormId, NormValue, Put, WellFormed;
    NormIdIdempotent(kid);
    NormIdIdempotent(alg);
    NormValueIdempotent(value);
    if Set(r, fam, net, kid, alg, value, now).1 {
      PutWellFormed(r, fam, net, NormId(kid), KeyEntry(NormId(alg), NormValue(value), now));
    }
  }

  lemma RemoveWellFormed(r: Ring, fam: string, net: string, kid: string)
    requires WellFormed(r)
    ensures WellFormed(Remove(r, fam, net, kid).0)
  {
    hide NormId, GoodIds;
    if Remove(r, fam, net, kid).1 {
      var ids := r[fam][net] - {NormId(kid)};
      if ids != map[] { IdRemoveGood(r[fam][net], NormId(kid)); }
    }
  }

  lemma IdRemoveGood(m: Ids, id: string)
    requires GoodIds(m) && m - {id} != map[]
    ensures GoodIds(m - {id})
  {
    hide GoodEntry;
  }

  /** Removing takes away that key and no other. */
  lemma RemoveLooksUp(r: Ring, fam: string, net: string, kid: string, f: string, n: string, i: string)
    ensures Lookup(Remove(r, fam, net, kid).0, f, n, i) == if (f, n, i) == (fam, net, NormId(kid)) then None else Lookup(r, f, n, i)
    ensures Remove(r, fam, net, kid).1 == Lookup(r, fam, net, NormId(kid)).Some?
  {
    hide NormId;
    if Remove(r, fam, net, kid).1 && f == fam {
      var ids := r[fam][net] - {NormId(kid)};
      var nets := if ids == map[] then r[fam] - {net} else r[fam][net := ids];
      assert ids == map[] ==> i !in ids;
      assert nets == map[] ==> n !in nets;
      assert i in ids <==> i in r[fam][net] && i != NormId(kid);
      if n == net {
        assert Lookup(Remove(r, fam, net, kid).0, f, n, i) == if i in ids then Some(r[fam][net][i]) else None;
      } else {
        assert n in nets <==> n in r[fam];
        assert n in nets ==> nets[n] == r[fam][n];
      }
    }
  }

  datatype Change = SetKey(fam: string, net: string, kid: string, alg: string, value: string, now: int)
                  | RemoveKey(fam: string, net: string, kid: string)

  function Apply(r: Ring, c: Change): Ring {
    match c
    case SetKey(fam, net, kid, alg, value, now) => Set(r, fam, net, kid, alg, value, now).0
    case RemoveKey(fam, net, kid) => Remove(r, fam, net, kid).0
  }

  function Run(cs: seq<Change>): Ring {
    if cs == [] then map[] else Apply(Run(cs[..|cs| - 1]), cs[|cs| - 1])
  }

  lemma {:induction false} RunWellFormed(cs: seq<Change>)
    ensures WellFormed(Run(cs))
  {
    if cs != [] {
      hide WellFormed, Set, Remove;
      RunWellFormed(cs[..|cs| - 1]);
      match cs[|cs| - 1]
      case SetKey(fam, net, kid, alg, value, now) => SetWellFormed(Run(cs[..|cs| - 1]), fam, net, kid, alg, value, now);
      case RemoveKey(fam, net, kid) => RemoveWellFormed(Run(cs[..|cs| - 1]), fam, net, kid);
    }
  }

  // ---- the keys file ----

  function EntryJson(e: KeyEntry): V {
    Obj([Member("alg", Str(e.alg)), Member("key", Str(e.value)), Member("added", Num(e.added as real))])
  }

  function IdMembers(m: Ids, ks: seq<string>): (o: seq<Member>)
    requires forall k :: k in ks ==> k in m
    ensures |o| == |ks|
  {
    if ks == [] then [] else IdMembers(m, ks[..|ks| - 1]) + [Member(ks[|ks| - 1], EntryJson(m[ks[|ks| - 1]]))]
  }

  function IdsJson(m: Ids): V {
    Obj(IdMembers(m, Sorted(m.Keys)))
  }

  function NetMembers(n: Nets, ks: seq<string>): (o: seq<Member>)
    requires forall k :: k in ks ==> k in n
    ensures |o| == |ks|
  {
    if ks == [] then [] else NetMembers(n, ks[..|ks| - 1]) + [Member(ks[|ks| - 1], IdsJson(n[ks[|ks| - 1]]))]
  }

  function NetsJson(n: Nets): V {
    Obj(NetMembers(n, Sorted(n.Keys)))
  }

  function FamMembers(r: Ring, ks: seq<string>): (o: seq<Member>)
    requires forall k :: k in ks ==> k in r
    ensures |o| == |ks|
  {
    if ks == [] then [] else FamMembers(r, ks[..|ks| - 1]) + [Member(ks[|ks| - 1], NetsJson(r[ks[|ks| - 1]]))]
  }

  function RingJson(r: Ring): V {
    Obj(FamMembers(r, Sorted(r.Keys)))
  }

  /** The member under k, the first if there are several. */
  function Get(v: V, k: string): Option<V> {
    if !v.Obj? then None else GetIn(v.o, k)
  }

  function GetIn(o: seq<Member>, k: string): Option<V> {
    if o == [] then None else if o[0].key == k then Some(o[0].value) else GetIn(o[1..], k)
  }

  function StrOf(v: V, k: string): string {
    var x := Get(v, k);
    if x.Some? && x.value.Str? then x.value.s else ""
  }

  /** Rounding toward zero. */
  function Truncated(n: real): int {
    if n >= 0.0 then n.Floor else -(-n).Floor
  }

  function EntryOf(v: V): KeyEntry {
    var a := Get(v, "added");
    KeyEntry(NormId(StrOf(v, "alg")), NormValue(StrOf(v, "key")), if a.Some? && a.value.Num? then Truncated(a.value.n) else 0)
  }

  function TakeId(r: Ring, fam: string, net: string, m: Member): Ring {
    if !m.value.Obj? || NormId(m.key) == "" || EntryOf(m.value).value == "" then r
    else Put(r, fam, net, NormId(m.key), EntryOf(m.value))
  }

  function TakeIds(r: Ring, fam: string, net: string, o: seq<Member>): Ring {
    if o == [] then r else TakeId(TakeIds(r, fam, net, o[..|o| - 1]), fam, net, o[|o| - 1])
  }

  function TakeNets(r: Ring, fam: string, o: seq<Member>): Ring {
    if o == [] then r
    else
      var before, m := TakeNets(r, fam, o[..|o| - 1]), o[|o| - 1];
      if m.value.Obj? then TakeIds(before, fam, m.key, m.value.o) else before
  }

  function TakeFams(r: Ring, o: seq<Member>): Ring {
    if o == [] then r
    else
      var before, m := TakeFams(r, o[..|o| - 1]), o[|o| - 1];
      if m.value.Obj? then TakeNets(before, m.key, m.value.o) else before
  }

  function RingOf(root: V): Ring {
    var keys := Get(root, "keys");
    if keys.Some? && keys.value.Obj? then TakeFams(map[], keys.value.o) else map[]
  }

  /** A keys file's ring; None where the file is no JSON object. */
  function Load(text: string, other: string -> (real, nat)): Option<Ring> {
    var root := Parse(text, other);
    if root.Some? && root.value.Obj? then Some(RingOf(root.value)) else None
  }

  // ---- the round trip ----

  lemma EntryBack(e: KeyEntry, id: string)
    requires GoodEntry(id, e)
    ensures EntryOf(EntryJson(e)) == e
  {
    hide NormId, NormValue;
    var v := EntryJson(e);
    var o := v.o;
    assert o[1..] == [Member("key", Str(e.value)), Member("added", Num(e.added as real))];
    assert o[1..][1..] == [Member("added", Num(e.added as real))];
    assert Get(v, "alg") == Some(Str(e.alg));
    assert GetIn(o[1..], "key") == Some(Str(e.value));
    assert Get(v, "key") == Some(Str(e.value));
    assert GetIn(o[1..][1..], "added") == Some(Num(e.added as real));
    assert GetIn(o[1..], "added") == GetIn(o[1..][1..], "added");
    assert Get(v, "added") == Some(Num(e.added as real));
    WholeTruncated(e.added);
  }

  lemma WholeTruncated(n: int)
    ensures Truncated(n as real) == n
  {
    assert -(n as real) == (-n) as real;
  }

  /** One member more, printed and taken. */
  lemma LastId(r: Ring, fam: string, net: string, m: Ids, ks: seq<string>)
    requires ks != [] && forall k :: k in ks ==> k in m
    ensures var before, k := ks[..|ks| - 1], ks[|ks| - 1];
            && (forall k :: k in before ==> k in m)
            && TakeIds(r, fam, net, IdMembers(m, ks)) ==
               TakeId(TakeIds(r, fam, net, IdMembers(m, before)), fam, net, Member(k, EntryJson(m[k])))
  {
    hide TakeId, EntryJson;
    var o := IdMembers(m, ks);
    assert o[..|o| - 1] == IdMembers(m, ks[..|ks| - 1]);
  }

  lemma NoIds(r: Ring, fam: string, net: string, m: Ids)
    ensures TakeIds(r, fam, net, IdMembers(m, [])) == r
  {
  }

  /** The last of some keys, and those before it. */
  lemma LastKey<T>(ks: seq<string>, m: map<string, T>, i: string)
    requires ks != [] && forall k :: k in ks ==> k in m
    ensures ks[|ks| - 1] in ks && forall k :: k in ks[..|ks| - 1] ==> k in ks
    ensures i in ks <==> i in ks[..|ks| - 1] || i == ks[|ks| - 1]
  {
  }

  lemma {:induction false} IdsBack(r: Ring, fam: string, net: string, m: Ids, ks: seq<string>, f: string, n: string, i: string)
    requires forall k :: k in ks ==> k in m && GoodEntry(k, m[k])
    ensures Lookup(TakeIds(r, fam, net, IdMembers(m, ks)), f, n, i) ==
            if f == fam && n == net && i in ks then Some(m[i]) else Lookup(r, f, n, i)
  {
    hide *;
    if ks == [] {
      NoIds(r, fam, net, m);
    } else {
      var before, k := ks[..|ks| - 1], ks[|ks| - 1];
      LastKey(ks, m, i);
      var earlier := TakeIds(r, fam, net, IdMembers(m, before));
      IdsBack(r, fam, net, m, before, f, n, i);
      LastId(r, fam, net, m, ks);
      IdTaken(earlier, fam, net, k, m[k], f, n, i);
    }
  }

  lemma IdTaken(r: Ring, fam: string, net: string, k: string, e: KeyEntry, f: string, n: string, i: string)
    requires GoodEntry(k, e)
    ensures Lookup(TakeId(r, fam, net, Member(k, EntryJson(e))), f, n, i) ==
            if (f, n, i) == (fam, net, k) then Some(e) else Lookup(r, f, n, i)
  {
    hide Put, Lookup, EntryOf, EntryJson, NormId, NormValue;
    EntryBack(e, k);
    EntryIsObj(e);
    PutLooksUp(r, fam, net, k, e, f, n, i);
  }

  lemma EntryIsObj(e: KeyEntry)
    ensures EntryJson(e).Obj?
  {
  }

  lemma LastNet(r: Ring, fam: string, ns: Nets, ks: seq<string>)
    requires ks != [] && forall k :: k in ks ==> k in ns
    ensures var before, k := ks[..|ks| - 1], ks[|ks| - 1];
            && (forall k :: k in before ==> k in ns) && IdsJson(ns[k]).Obj?
            && TakeNets(r, fam, NetMembers(ns, ks)) == TakeIds(TakeNets(r, fam, NetMembers(ns, before)), fam, k, IdsJson(ns[k]).o)
  {
    hide TakeIds, IdMembers;
    var o := NetMembers(ns, ks);
    assert o[..|o| - 1] == NetMembers(ns, ks[..|ks| - 1]);
  }

  lemma NoNets(r: Ring, fam: string, ns: Nets)
    ensures TakeNets(r, fam, NetMembers(ns, [])) == r
  {
  }

  lemma {:induction false} NetsBack(r: Ring, fam: string, ns: Nets, ks: seq<string>, f: string, n: string, i: string)
    requires forall k :: k in ks ==> k in ns && GoodIds(ns[k])
    ensures Lookup(TakeNets(r, fam, NetMembers(ns, ks)), f, n, i) ==
            if f == fam && n in ks && i in ns[n] then Some(ns[n][i]) else Lookup(r, f, n, i)
  {
    hide *;
    if ks == [] {
      NoNets(r, fam, ns);
    } else {
      var before, k := ks[..|ks| - 1], ks[|ks| - 1];
      LastKey(ks, ns, n);
      var earlier := TakeNets(r, fam, NetMembers(ns, before));
      NetsBack(r, fam, ns, before, f, n, i);
      LastNet(r, fam, ns, ks);
      NetTaken(earlier, fam, k, ns[k], f, n, i);
    }
  }

  lemma NetTaken(r: Ring, fam: string, k: string, m: Ids, f: string, n: string, i: string)
    requires GoodIds(m)
    ensures IdsJson(m).Obj?
    ensures Lookup(TakeIds(r, fam, k, IdsJson(m).o), f, n, i) ==
            if f == fam && n == k && i in m then Some(m[i]) else Lookup(r, f, n, i)
  {
    hide Lookup, TakeIds, IdMembers, GoodEntry, Sorted;
    IdsBack(r, fam, k, m, Sorted(m.Keys), f, n, i);
  }

  lemma NoFams(r: Ring, s: Ring)
    ensures TakeFams(r, FamMembers(s, [])) == r
  {
  }

  lemma LastFam(r: Ring, s: Ring, ks: seq<string>)
    requires ks != [] && forall k :: k in ks ==> k in s
    ensures var before, k := ks[..|ks| - 1], ks[|ks| - 1];
            && (forall k :: k in before ==> k in s) && NetsJson(s[k]).Obj?
            && TakeFams(r, FamMembers(s, ks)) == TakeNets(TakeFams(r, FamMembers(s, before)), k, NetsJson(s[k]).o)
  {
    hide TakeNets, NetMembers;
    var o := FamMembers(s, ks);
    assert o[..|o| - 1] == FamMembers(s, ks[..|ks| - 1]);
  }

  lemma {:induction false} FamsBack(r: Ring, s: Ring, ks: seq<string>, f: string, n: string, i: string)
    requires WellFormed(s) && forall k :: k in ks ==> k in s
    ensures Lookup(TakeFams(r, FamMembers(s, ks)), f, n, i) ==
            if f in ks && Lookup(s, f, n, i).Some? then Lookup(s, f, n, i) else Lookup(r, f, n, i)
  {
    hide *;
    if ks == [] {
      NoFams(r, s);
    } else {
      var before, k := ks[..|ks| - 1], ks[|ks| - 1];
      LastKey(ks, s, f);
      var earlier := TakeFams(r, FamMembers(s, before));
      FamsBack(r, s, before, f, n, i);
      LastFam(r, s, ks);
      FamTaken(earlier, s, k, f, n, i);
    }
  }

  lemma FamTaken(r: Ring, s: Ring, k: string, f: string, n: string, i: string)
    requires WellFormed(s) && k in s
    ensures NetsJson(s[k]).Obj?
    ensures Lookup(TakeNets(r, k, NetsJson(s[k]).o), f, n, i) ==
            if f == k && Lookup(s, f, n, i).Some? then Lookup(s, f, n, i) else Lookup(r, f, n, i)
  {
    hide TakeNets, NetMembers, GoodIds, Sorted;
    NetsBack(r, k, s[k], Sorted(s[k].Keys), f, n, i);
  }

  /** Nothing in it is empty. */
  ghost predicate NoneEmpty(r: Ring) {
    forall f :: f in r ==> r[f] != map[] && forall n :: n in r[f] ==> r[f][n] != map[]
  }

  lemma {:induction false} TakenNoneEmpty(r: Ring, fam: string, net: string, o: seq<Member>)
    requires NoneEmpty(r)
    ensures NoneEmpty(TakeIds(r, fam, net, o))
  {
    if o != [] {
      hide EntryOf, NormId, NoneEmpty;
      TakenNoneEmpty(r, fam, net, o[..|o| - 1]);
      var m := o[|o| - 1];
      PutNoneEmpty(TakeIds(r, fam, net, o[..|o| - 1]), fam, net, NormId(m.key), EntryOf(m.value));
    }
  }

  lemma PutNoneEmpty(r: Ring, fam: string, net: string, id: string, e: KeyEntry)
    requires NoneEmpty(r)
    ensures NoneEmpty(Put(r, fam, net, id, e))
  {
    var p := Put(r, fam, net, id, e);
    assert net in p[fam] && id in p[fam][net];
  }

  lemma {:induction false} NetsNoneEmpty(r: Ring, fam: string, o: seq<Member>)
    requires NoneEmpty(r)
    ensures NoneEmpty(TakeNets(r, fam, o))
  {
    if o != [] {
      hide NoneEmpty, TakeIds;
      NetsNoneEmpty(r, fam, o[..|o| - 1]);
      var m := o[|o| - 1];
      if m.value.Obj? { TakenNoneEmpty(TakeNets(r, fam, o[..|o| - 1]), fam, m.key, m.value.o); }
    }
  }

  lemma {:induction false} FamsNoneEmpty(r: Ring, o: seq<Member>)
    requires NoneEmpty(r)
    ensures NoneEmpty(TakeFams(r, o))
  {
    if o != [] {
      hide NoneEmpty, TakeNets;
      FamsNoneEmpty(r, o[..|o| - 1]);
      var m := o[|o| - 1];
      if m.value.Obj? { NetsNoneEmpty(TakeFams(r, o[..|o| - 1]), m.key, m.value.o); }
    }
  }

  /** Rings with the same keys, and nothing empty, are the same. */
  lemma SameRing(r: Ring, s: Ring)
    requires NoneEmpty(r) && NoneEmpty(s)
    requires forall f, n, i :: Lookup(r, f, n, i) == Lookup(s, f, n, i)
    ensures r == s
  {
    hide Lookup, NoneEmpty;
    forall f ensures f in r <==> f in s { SameHas(r, s, f); }
    forall f | f in r ensures r[f] == s[f] {
      forall n ensures n in r[f] <==> n in s[f] { SameNets(r, s, f, n); }
      forall n | n in r[f] ensures r[f][n] == s[f][n] { SameIds(r, s, f, n); }
    }
  }

  lemma SameIds(r: Ring, s: Ring, f: string, n: string)
    requires f in r && f in s && n in r[f] && n in s[f] && forall f, n, i :: Lookup(r, f, n, i) == Lookup(s, f, n, i)
    ensures r[f][n] == s[f][n]
  {
    forall i ensures i in r[f][n] <==> i in s[f][n] { assert Lookup(r, f, n, i) == Lookup(s, f, n, i); }
    forall i | i in r[f][n] ensures r[f][n][i] == s[f][n][i] { assert Lookup(r, f, n, i) == Lookup(s, f, n, i); }
  }

  lemma HasKey(r: Ring, f: string)
    requires NoneEmpty(r)
    ensures f in r ==> exists n, i :: Lookup(r, f, n, i).Some?
  {
    if f in r {
      var n :| n in r[f];
      var i :| i in r[f][n];
      assert Lookup(r, f, n, i).Some?;
    }
  }

  lemma SameHas(r: Ring, s: Ring, f: string)
    requires NoneEmpty(r) && NoneEmpty(s) && forall f, n, i :: Lookup(r, f, n, i) == Lookup(s, f, n, i)
    ensures f in r <==> f in s
  {
    HasKey(r, f);
    HasKey(s, f);
    if f in r { var n, i :| Lookup(r, f, n, i).Some?; assert Lookup(s, f, n, i).Some?; }
    if f in s { var n, i :| Lookup(s, f, n, i).Some?; assert Lookup(r, f, n, i).Some?; }
  }

  lemma SameNets(r: Ring, s: Ring, f: string, n: string)
    requires NoneEmpty(r) && NoneEmpty(s) && f in r && f in s && forall f, n, i :: Lookup(r, f, n, i) == Lookup(s, f, n, i)
    ensures n in r[f] <==> n in s[f]
  {
    if n in r[f] { var i :| i in r[f][n]; assert Lookup(r, f, n, i) == Lookup(s, f, n, i); }
    if n in s[f] { var i :| i in s[f][n]; assert Lookup(r, f, n, i) == Lookup(s, f, n, i); }
  }

  /** Reading back a ring's members gives the ring. */
  lemma RingBack(r: Ring)
    requires WellFormed(r)
    ensures TakeFams(map[], FamMembers(r, Sorted(r.Keys))) == r
  {
    hide TakeFams, FamMembers, GoodEntry, Sorted, Lookup;
    var ks := Sorted(r.Keys);
    var s := TakeFams(map[], FamMembers(r, ks));
    NoRingEmpty();
    FamsNoneEmpty(map[], FamMembers(r, ks));
    forall f, n, i ensures Lookup(s, f, n, i) == Lookup(r, f, n, i) {
      FamsBack(map[], r, ks, f, n, i);
      LookupNone(r, f, n, i);
    }
    SameRing(s, r);
  }

  lemma NoRingEmpty()
    ensures NoneEmpty(map[])
  {
  }

  lemma LookupNone(r: Ring, f: string, n: string, i: string)
    ensures Lookup(map[], f, n, i) == None && (f !in r ==> Lookup(r, f, n, i) == None)
  {
  }

  /** When a key was set, in a range a double holds exactly. */
  ghost predicate DatedExactly(r: Ring) {
    forall f, n, i :: f in r && n in r[f] && i in r[f][n] ==> -EXACT <= r[f][n][i].added <= EXACT
  }

  lemma EntryPrints(e: KeyEntry)
    requires -EXACT <= e.added <= EXACT
    ensures Whole(EntryJson(e)) && Depth(EntryJson(e)) == 1
  {
    var o := EntryJson(e).o;
    assert (e.added as real).Floor == e.added;
    forall i | 0 <= i < |o| ensures Whole(o[i].value) { }
    assert MembersDepth(o) == 0 by {
      assert o[1..][1..] == [o[2]] && o[1..][0] == o[1] && [o[2]][1..] == [];
      assert MembersDepth([o[2]]) == 0;
      assert MembersDepth(o[1..]) == 0;
    }
  }

  lemma {:induction false} MembersDepthAppend(o: seq<Member>, m: Member)
    ensures MembersDepth(o + [m]) == Max(MembersDepth(o), Depth(m.value))
    decreases |o|
  {
    hide Depth;
    if o == [] {
      assert o + [m] == [m] && [m][1..] == [];
    } else {
      assert (o + [m])[0] == o[0] && (o + [m])[1..] == o[1..] + [m];
      MembersDepthAppend(o[1..], m);
    }
  }

  lemma {:induction false} IdsPrint(m: Ids, ks: seq<string>)
    requires forall k :: k in ks ==> k in m && -EXACT <= m[k].added <= EXACT
    ensures var o := IdMembers(m, ks);
            MembersDepth(o) <= 1 && forall i :: 0 <= i < |o| ==> Whole(o[i].value)
  {
    if ks != [] {
      hide EntryJson, Whole, Depth;
      var before, k := ks[..|ks| - 1], ks[|ks| - 1];
      IdsPrint(m, before);
      EntryPrints(m[k]);
      MembersDepthAppend(IdMembers(m, before), Member(k, EntryJson(m[k])));
    }
  }

  lemma IdsJsonPrints(m: Ids)
    requires forall k :: k in m ==> -EXACT <= m[k].added <= EXACT
    ensures Whole(IdsJson(m)) && Depth(IdsJson(m)) <= 2 && IdsJson(m).Obj?
  {
    hide IdMembers, Sorted;
    IdsPrint(m, Sorted(m.Keys));
  }

  lemma {:induction false} NetsPrint(n: Nets, ks: seq<string>)
    requires forall k :: k in ks ==> k in n && forall i :: i in n[k] ==> -EXACT <= n[k][i].added <= EXACT
    ensures var o := NetMembers(n, ks);
            MembersDepth(o) <= 2 && forall i :: 0 <= i < |o| ==> Whole(o[i].value)
  {
    if ks != [] {
      hide IdsJson, Whole, Depth;
      var before, k := ks[..|ks| - 1], ks[|ks| - 1];
      NetsPrint(n, before);
      IdsJsonPrints(n[k]);
      MembersDepthAppend(NetMembers(n, before), Member(k, IdsJson(n[k])));
    }
  }

  lemma NetsJsonPrints(n: Nets)
    requires forall k :: k in n ==> forall i :: i in n[k] ==> -EXACT <= n[k][i].added <= EXACT
    ensures Whole(NetsJson(n)) && Depth(NetsJson(n)) <= 3 && NetsJson(n).Obj?
  {
    hide NetMembers, Sorted;
    NetsPrint(n, Sorted(n.Keys));
  }

  lemma {:induction false} FamsPrint(r: Ring, ks: seq<string>)
    requires DatedExactly(r) && forall k :: k in ks ==> k in r
    ensures var o := FamMembers(r, ks);
            MembersDepth(o) <= 3 && forall i :: 0 <= i < |o| ==> Whole(o[i].value)
  {
    hide NetsJson, Whole, Depth, DatedExactly, MembersDepth, FamMembers;
    if ks == [] {
      NoFamsPrint(r);
    } else {
      var before, k := ks[..|ks| - 1], ks[|ks| - 1];
      FamsPrint(r, before);
      FamDated(r, k);
      NetsJsonPrints(r[k]);
      MembersDepthAppend(FamMembers(r, before), Member(k, NetsJson(r[k])));
      FamAppended(r, ks);
    }
  }

  lemma NoFamsPrint(r: Ring)
    ensures FamMembers(r, []) == [] && MembersDepth([]) == 0
  {
  }

  lemma FamDated(r: Ring, k: string)
    requires DatedExactly(r) && k in r
    ensures forall n :: n in r[k] ==> forall i :: i in r[k][n] ==> -EXACT <= r[k][n][i].added <= EXACT
  {
  }

  lemma FamAppended(r: Ring, ks: seq<string>)
    requires ks != [] && forall k :: k in ks ==> k in r
    ensures var before, k := ks[..|ks| - 1], ks[|ks| - 1];
            && (forall k :: k in before ==> k in r)
            && FamMembers(r, ks) == FamMembers(r, before) + [Member(k, NetsJson(r[k]))]
  {
    hide NetsJson;
  }

  lemma RingJsonPrints(r: Ring)
    requires DatedExactly(r)
    ensures Whole(RingJson(r)) && Depth(RingJson(r)) <= 4 && RingJson(r).Obj?
  {
    hide FamMembers, Sorted;
    FamsPrint(r, Sorted(r.Keys));
  }

  /** The file as written: the ring, whatever else is kept beside it, and a line end. */
  function FileText(r: Ring, more: seq<Member>): string {
    Text(Obj([Member("keys", RingJson(r))] + more)) + "\n"
  }

  /** Every ring that sets and removals reach, with times a double holds, is read back from its file as it was,
      whatever families, networks and further members the file names. */
  lemma FileBack(cs: seq<Change>, more: seq<Member>, other: string -> (real, nat))
    requires DatedExactly(Run(cs))
    requires MembersDepth(more) < MAX_DEPTH && forall i :: 0 <= i < |more| ==> Whole(more[i].value)
    ensures Load(FileText(Run(cs), more), other) == Some(Run(cs))
  {
    hide Text, Parse, RingJson, Run, WellFormed, DatedExactly, TakeFams;
    var r := Run(cs);
    RunWellFormed(cs);
    RingJsonPrints(r);
    var o := [Member("keys", RingJson(r))] + more;
    assert o[1..] == more;
    FilePrints(RingJson(r), more);
    RoundTrip(Obj(o), other);
    KeysBack(r, more);
  }

  lemma FilePrints(v: V, more: seq<Member>)
    requires Whole(v) && Depth(v) <= 4 && MembersDepth(more) < MAX_DEPTH && forall i :: 0 <= i < |more| ==> Whole(more[i].value)
    ensures var o := [Member("keys", v)] + more;
            Whole(Obj(o)) && Depth(Obj(o)) <= MAX_DEPTH
  {
    var o := [Member("keys", v)] + more;
    assert o[1..] == more && o[0].value == v;
    forall i | 0 <= i < |o| ensures Whole(o[i].value) { if i > 0 { assert o[i] == more[i - 1]; } }
  }

  lemma KeysBack(r: Ring, more: seq<Member>)
    requires WellFormed(r)
    ensures RingOf(Obj([Member("keys", RingJson(r))] + more)) == r
  {
    hide TakeFams, FamMembers, WellFormed, Sorted;
    RingBack(r);
  }

  // ---- the program's loops ----

  /** Upper-case every digit; "" at the first that is not hex. */
  method UpperHexAll(s: string) returns (ok: bool, up: string)
    ensures ok == AllHex(s) && (ok ==> up == UpperAll(s))
  {
    hide HexValue, Upper;
    up := "";
    for i := 0 to |s|
      invariant |up| == i && AllHex(s[..i]) && forall j :: 0 <= j < i ==> up[j] == Upper(s[j])
    {
      if !IsHex(s[i]) { return false, ""; }
      up := up + [Upper(s[i])];
    }
    assert s[..|s|] == s;
    ok := true;
  }

  method KeyNormId(text: string) returns (up: string)
    ensures up == NormId(text)
  {
    hide HexValue, Upper;
    var s := text;
    if |s| > 2 && s[0] == '0' && (s[1] == 'x' || s[1] == 'X') { s := s[2..]; }
    var ok;
    ok, up := UpperHexAll(s);
    if !ok || up == "" { return ""; }
    var nz := 0;
    ghost var all := up;
    assert all[0..] == all;
    while nz < |up| && up[nz] == '0'
      invariant nz <= |up| && NoZeros(up[nz..]) == NoZeros(all)
    {
      assert up[nz..][0] == up[nz] && up[nz..][1..] == up[nz + 1..];
      nz := nz + 1;
    }
    assert nz < |up| ==> up[nz..][0] == up[nz];
    up := up[nz..];
    ghost var z := up;
    while |up| < 2
      invariant |up| <= 2 || up == z
      invariant Padded(up) == Padded(z)
      decreases 2 - |up|
    {
      assert |up| == 0 ==> "0" + up == "0" && "0" + "0" == "00";
      up := "0" + up;
    }
  }

  method KeyNormValue(text: string) returns (up: string)
    ensures up == NormValue(text)
  {
    hide HexValue, Upper, IsSpace;
    var digits := "";
    for i := 0 to |text|
      invariant digits == NoSpaces(text[..i])
    {
      NoSpacesMore(text[..i], text[i]);
      assert text[..i + 1] == text[..i] + [text[i]];
      if !IsSpace(text[i]) { digits := digits + [text[i]]; }
    }
    assert text[..|text|] == text;
    var ok;
    ok, up := UpperHexAll(digits);
    if !ok || up == "" || |up| % 2 != 0 || |up| > 64 { up := ""; }
  }

  lemma {:induction false} NoSpacesMore(s: string, c: char)
    ensures NoSpaces(s + [c]) == NoSpaces(s) + if IsSpace(c) then [] else [c]
  {
    hide IsSpace;
    if s == [] {
      assert s + [c] == [c] && [c][1..] == [];
    } else {
      assert (s + [c])[0] == s[0] && (s + [c])[1..] == s[1..] + [c];
      NoSpacesMore(s[1..], c);
    }
  }

  lemma EntryText(k: string, e: KeyEntry)
    ensures MemberText(Member(k, EntryJson(e))) ==
            Quoted(k) + ":{\"alg\":" + Quoted(e.alg) + ",\"key\":" + Quoted(e.value) + ",\"added\":" + Decimal(e.added) + "}"
  {
    hide Quoted, Decimal, TextMembers;
    var o := EntryJson(e).o;
    assert (e.added as real).Floor == e.added;
    ThreeMembers(o[0], o[1], o[2]);
    KeyNames();
    EntryPieces(Quoted(k), Quoted(e.alg), Quoted(e.value), Decimal(e.added));
  }

  lemma EntryPieces(k: string, a: string, b: string, c: string)
    ensures k + ":" + ("{" + ("\"alg\"" + ":" + a + ("," + ("\"key\"" + ":" + b + ("," + ("\"added\"" + ":" + c))))) + "}") ==
            k + ":{\"alg\":" + a + ",\"key\":" + b + ",\"added\":" + c + "}"
  {
    assert "\"alg\"" + ":" == "\"alg\":" && "," + ("\"key\"" + ":") == ",\"key\":" && "," + ("\"added\"" + ":") == ",\"added\":";
    assert ":" + ("{" + "\"alg\":") == ":{\"alg\":";
  }

  lemma ThreeMembers(x: Member, y: Member, z: Member)
    ensures TextMembers([x, y, z]) == MemberText(x) + ("," + (MemberText(y) + ("," + MemberText(z))))
  {
    hide Quoted, Text;
    assert [x, y, z][1..] == [y, z] && [y, z][1..] == [z];
    assert TextMembers([z]) == MemberText(z) + "" == MemberText(z);
    assert TextMembers([y, z]) == MemberText(y) + ("," + TextMembers([z]));
  }

  lemma {:induction false} PlainText(s: string)
    requires forall i :: 0 <= i < |s| ==> s[i] > '\\'
    ensures EscapedAll(s) == s
  {
    if s != [] {
      PlainText(s[1..]);
      assert Escaped(s[0]) == [s[0]];
      assert s == [s[0]] + s[1..];
    }
  }

  lemma KeyNames()
    ensures Quoted("alg") == "\"alg\"" && Quoted("key") == "\"key\"" && Quoted("added") == "\"added\""
  {
    hide EscapedAll;
    PlainText("alg");
    PlainText("key");
    PlainText("added");
  }

  method PrintEntry(k: string, e: KeyEntry) returns (o: string)
    ensures o == MemberText(Member(k, EntryJson(e)))
  {
    hide Quoted, Decimal, EntryJson, MemberText;
    EntryText(k, e);
    var id := Quote(k);
    var alg := Quote(e.alg);
    var value := Quote(e.value);
    o := id + ":{\"alg\":" + alg + ",\"key\":" + value + ",\"added\":" + Decimal(e.added) + "}";
  }

  method PrintIds(m: Ids) returns (o: string)
    ensures o == Text(IdsJson(m))
  {
    hide Sorted, Quoted, Decimal, EntryJson, MemberText, TextMembers;
    var ks := Sorted(m.Keys);
    var text := "";
    for i := 0 to |ks|
      invariant text == Joined(IdMembers(m, ks[..i]))
    {
      var k := ks[i];
      assert k in ks;
      assert ks[..i + 1][..i] == ks[..i] && ks[..i + 1][i] == k;
      JoinedMore(IdMembers(m, ks[..i]), Member(k, EntryJson(m[k])));
      var entry := PrintEntry(k, m[k]);
      text := text + (if i == 0 then "" else ",") + entry;
    }
    assert ks[..|ks|] == ks;
    o := "{" + text + "}";
  }

  method PrintNets(n: Nets) returns (o: string)
    ensures o == Text(NetsJson(n))
  {
    hide Sorted, Quoted, IdsJson, TextMembers;
    var ks := Sorted(n.Keys);
    var text := "";
    for i := 0 to |ks|
      invariant text == Joined(NetMembers(n, ks[..i]))
    {
      var k := ks[i];
      assert k in ks;
      assert ks[..i + 1][..i] == ks[..i] && ks[..i + 1][i] == k;
      JoinedMore(NetMembers(n, ks[..i]), Member(k, IdsJson(n[k])));
      var name := Quote(k);
      var ids := PrintIds(n[k]);
      text := text + (if i == 0 then "" else ",") + (name + ":" + ids);
    }
    assert ks[..|ks|] == ks;
    o := "{" + text + "}";
  }

  method KeyringJson(r: Ring) returns (o: string)
    ensures o == Text(RingJson(r))
  {
    hide Sorted, Quoted, NetsJson, TextMembers;
    var ks := Sorted(r.Keys);
    var text := "";
    for i := 0 to |ks|
      invariant text == Joined(FamMembers(r, ks[..i]))
    {
      var k := ks[i];
      assert k in ks;
      assert ks[..i + 1][..i] == ks[..i] && ks[..i + 1][i] == k;
      JoinedMore(FamMembers(r, ks[..i]), Member(k, NetsJson(r[k])));
      var name := Quote(k);
      var nets := PrintNets(r[k]);
      text := text + (if i == 0 then "" else ",") + (name + ":" + nets);
    }
    assert ks[..|ks|] == ks;
    o := "{" + text + "}";
  }

  method ReadIds(r0: Ring, fam: string, net: string, o: seq<Member>) returns (r: Ring)
    ensures r == TakeIds(r0, fam, net, o)
  {
    hide NormId, NormValue, Put, Get, StrOf, Truncated;
    r := r0;
    for i := 0 to |o|
      invariant r == TakeIds(r0, fam, net, o[..i])
    {
      assert o[..i + 1][..i] == o[..i] && o[..i + 1][i] == o[i];
      var v := o[i].value;
      if v.Obj? {
        var id := KeyNormId(o[i].key);
        var val := KeyNormValue(StrOf(v, "key"));
        if id != "" && val != "" {
          var alg := KeyNormId(StrOf(v, "alg"));
          var a := Get(v, "added");
          r := Put(r, fam, net, id, KeyEntry(alg, val, if a.Some? && a.value.Num? then Truncated(a.value.n) else 0));
        }
      }
    }
    assert o[..|o|] == o;
  }

  method ReadNets(r0: Ring, fam: string, o: seq<Member>) returns (r: Ring)
    ensures r == TakeNets(r0, fam, o)
  {
    hide TakeIds;
    r := r0;
    for i := 0 to |o|
      invariant r == TakeNets(r0, fam, o[..i])
    {
      assert o[..i + 1][..i] == o[..i] && o[..i + 1][i] == o[i];
      if o[i].value.Obj? { r := ReadIds(r, fam, o[i].key, o[i].value.o); }
    }
    assert o[..|o|] == o;
  }

  method KeyringParse(root: V) returns (r: Ring)
    ensures r == RingOf(root)
  {
    hide TakeNets, Get;
    r := map[];
    var keys := Get(root, "keys");
    if keys.None? || !keys.value.Obj? { return; }
    var o := keys.value.o;
    for i := 0 to |o|
      invariant r == TakeFams(map[], o[..i])
    {
      assert o[..i + 1][..i] == o[..i] && o[..i + 1][i] == o[i];
      if o[i].value.Obj? { r := ReadNets(r, o[i].key, o[i].value.o); }
    }
    assert o[..|o|] == o;
  }

  /** The keyring the explorer keeps. */
  class KeyStore {
    var keys: Ring

    ghost predicate Valid()
      reads this
    {
      WellFormed(keys)
    }

    constructor ()
      ensures Valid() && keys == map[]
    {
      keys := map[];
    }

    method KeyringSet(fam: string, net: string, kid: string, alg: string, value: string, now: int) returns (ok: bool)
      requires Valid()
      modifies this
      ensures Valid() && (keys, ok) == Set(old(keys), fam, net, kid, alg, value, now)
    {
      hide NormId, NormValue, Put, WellFormed;
      SetWellFormed(keys, fam, net, kid, alg, value, now);
      if fam == "" || net == "" { return false; }
      var id := KeyNormId(kid);
      var val := KeyNormValue(value);
      if id == "" || val == "" { return false; }
      var a := KeyNormId(alg);
      keys := Put(keys, fam, net, id, KeyEntry(a, val, now));
      return true;
    }

    method KeyringRemove(fam: string, net: string, kid: string) returns (ok: bool)
      requires Valid()
      modifies this
      ensures Valid() && (keys, ok) == Remove(old(keys), fam, net, kid)
    {
      hide NormId, WellFormed;
      RemoveWellFormed(keys, fam, net, kid);
      var id := KeyNormId(kid);
      if fam !in keys || net !in keys[fam] || id !in keys[fam][net] { return false; }
      var ids := keys[fam][net] - {id};
      var n := keys[fam][net := ids];
      if ids == map[] { n := keys[fam] - {net}; }
      keys := if n == map[] then keys - {fam} else keys[fam := n];
      return true;
    }

    method KeyringHas(fam: string, net: string, kid: string) returns (has: bool)
      requires Valid()
      ensures has == Lookup(keys, fam, net, NormId(kid)).Some?
    {
      var id := KeyNormId(kid);
      has := fam in keys && net in keys[fam] && id in keys[fam][net];
    }

    /** Read a keys file; nothing changes where it is none. */
    method UseKeysFile(text: string, other: string -> (real, nat)) returns (ok: bool)
      modifies this
      ensures ok == Load(text, other).Some?
      ensures keys == if ok then Load(text, other).value else old(keys)
    {
      hide Parse, RingOf;
      var p := new Parser(text);
      var root;
      ok, root := p.ParseAll(other);
      if !ok || !root.Obj? { return false; }
      keys := KeyringParse(root);
    }
  }
}
