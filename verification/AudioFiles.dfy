/** The files of the recordings: how they are named, which of them the age limit and the cap spare, and how far a
    header lags behind its file. */
module AudioFiles {
  import opened Json
  import opened StableSorts
  import opened AudioStore

  // ---- names ----

  predicate IsAlnum(c: char) {
    'a' <= c <= 'z' || 'A' <= c <= 'Z' || IsDigit(c)
  }

  /** The first eight letters and digits of a server's instance id; "x" without any. */
  function Instance(s: string): (r: string)
    ensures 0 < |r| <= 8 && forall i :: 0 <= i < |r| ==> IsAlnum(r[i])
  {
    var a := Alnums(s);
    var r := if |a| < 8 then a else a[..8];
    if r == [] then "x" else r
  }

  function Alnums(s: string): (r: string)
    ensures forall i :: 0 <= i < |r| ==> IsAlnum(r[i])
  {
    if s == [] then [] else (if IsAlnum(s[0]) then [s[0]] else []) + Alnums(s[1..])
  }

  /** The file name of a call: when it started, on which run, and its id. */
  function MakeName(start: int, instance: string, id: nat): Name {
    "call_" + Decimal(start) + ("_" + (Instance(instance) + ("_" + (Digits(id) + ".wav"))))
  }

  lemma {:induction false} DigitsLength(n: nat, k: nat)
    requires n < Power(k) && k > 0
    ensures |Digits(n)| <= k
  {
    if n >= 10 { DigitsLength(n / 10, k - 1); }
  }

  function Power(k: nat): nat {
    if k == 0 then 1 else 10 * Power(k - 1)
  }

  /** Whatever 64-bit start and id a call has and whatever the instance id is, the store takes the file name made for
      it. */
  lemma NamesAccepted(start: int, instance: string, id: nat)
    requires -0x8000_0000_0000_0000 <= start < 0x8000_0000_0000_0000 && id < 0x1_0000_0000_0000_0000
    ensures ValidName(MakeName(start, instance, id))
  {
    hide Digits, Instance, Power, ValidName;
    TwentyDigits();
    DigitsLength(if start < 0 then -start else start, 20);
    DigitsLength(id, 20);
    var a, b, c := Decimal(start), Instance(instance), Digits(id);
    assert Undotted(a) && Undotted(b) && Undotted(c) && |a| <= 21;
    NameOf(a, b, c);
  }

  /** Letters, digits and dashes. */
  predicate Undotted(s: string) {
    forall i :: 0 <= i < |s| ==> IsAlnum(s[i]) || s[i] == '-'
  }

  lemma NameOf(a: string, b: string, c: string)
    requires Undotted(a) && Undotted(b) && Undotted(c) && |a| <= 21 && 0 < |b| <= 8 && 0 < |c| <= 20
    ensures ValidName("call_" + a + ("_" + (b + ("_" + (c + ".wav")))))
  {
    var m := "call_" + a + ("_" + (b + ("_" + c)));
    var n := "call_" + a + ("_" + (b + ("_" + (c + ".wav"))));
    assert n == m + ".wav";
    assert forall i :: 0 <= i < |m| ==> IsAlnum(m[i]) || m[i] == '-' || m[i] == '_';
    Suffixed(m);
  }

  lemma Suffixed(m: string)
    requires forall i :: 0 <= i < |m| ==> IsAlnum(m[i]) || m[i] == '-' || m[i] == '_'
    requires 6 <= |m| <= 92 && m[..5] == "call_"
    ensures ValidName(m + ".wav")
  {
    var n := m + ".wav";
    assert n[..5] == m[..5] && n[|n| - 4..] == ".wav";
    assert forall i :: 0 <= i < |m| ==> n[i] == m[i];
  }

  lemma TwentyDigits()
    ensures Power(20) == 100_000_000_000_000_000_000
  {
    assert Power(5) == 100_000;
    assert Power(10) == 10_000_000_000;
    assert Power(15) == 1_000_000_000_000_000;
  }

  /** A name the store takes leads nowhere but to a file in its folder. */
  lemma NamesStayInside(n: Name)
    requires ValidName(n)
    ensures '/' !in n && '\\' !in n && n != "." && n != ".."
    ensures forall a: string, b: string :: n != a + ".." + b
  {
    forall a: string, b: string ensures n != a + ".." + b {
      var m := a + ".." + b;
      assert m[|a|] == '.' && m[|a| + 1] == '.';
    }
  }

  /** Where the first character that is not plain stands: the parts before it are told apart. */
  lemma SplitAt(a: string, b: string, c: string, d: string, x: char)
    requires a + ([x] + b) == c + ([x] + d) && x !in a && x !in c
    ensures a == c && b == d
  {
    var s := a + ([x] + b);
    assert s[|a|] == x && s[|c|] == x;
    assert forall i :: 0 <= i < |a| ==> s[i] == a[i];
    assert forall i :: 0 <= i < |c| ==> s[i] == c[i];
    assert |a| == |c|;
    assert s[..|a|] == a && s[..|c|] == c;
    assert s[|a| + 1..] == b && s[|c| + 1..] == d;
  }

  lemma NumberPlain(n: int)
    ensures '_' !in Decimal(n) && '.' !in Decimal(n)
  {
    hide Digits;
  }

  lemma InstancePlain(s: string)
    ensures '_' !in Instance(s)
  {
    hide Instance;
  }

  lemma DecimalBack(m: int, n: int)
    requires Decimal(m) == Decimal(n)
    ensures m == n
  {
    hide Digits;
    var a, b := if m < 0 then -m else m, if n < 0 then -n else n;
    assert m < 0 ==> Decimal(m)[0] == '-' && Decimal(m)[1..] == Digits(a);
    assert n < 0 ==> Decimal(n)[0] == '-' && Decimal(n)[1..] == Digits(b);
    DigitsBack(a);
    DigitsBack(b);
  }

  /** Two calls have one file name only if they started at one time, have one id, and are of runs whose instance ids
      begin alike. */
  lemma NamesTellApart(s: int, i: string, id: nat, s': int, i': string, id': nat)
    ensures MakeName(s, i, id) == MakeName(s', i', id') <==> s == s' && Instance(i) == Instance(i') && id == id'
  {
    hide Instance, Decimal, Digits;
    if MakeName(s, i, id) == MakeName(s', i', id') {
      var d, d' := Digits(id) + ".wav", Digits(id') + ".wav";
      var t, t' := Instance(i) + ("_" + d), Instance(i') + ("_" + d');
      assert MakeName(s, i, id)[5..] == Decimal(s) + ("_" + t);
      assert MakeName(s', i', id')[5..] == Decimal(s') + ("_" + t');
      NumberPlain(s);
      NumberPlain(s');
      SplitAt(Decimal(s), t, Decimal(s'), t', '_');
      InstancePlain(i);
      InstancePlain(i');
      SplitAt(Instance(i), d, Instance(i'), d', '_');
      assert d[..|d| - 4] == Digits(id) && d'[..|d'| - 4] == Digits(id');
      DecimalBack(s, s');
      DigitsBack(id);
      DigitsBack(id');
    }
  }

  // ---- what is spared ----

  /** Within the cap only finished files older than the limit go, and without a limit none. */
  lemma {:induction false} OnlyOldGo(s: seq<Entry>, open: set<Name>, total: nat, cap: nat, maxAge: int, now: int)
    requires total <= cap
    ensures forall e :: e in Enforce(s, open, total, cap, maxAge, now).gone ==>
              e in s && e.name !in open && maxAge > 0 && e.mtime < now - maxAge
  {
    if s != [] && TooOld(s[0], maxAge, now) {
      OnlyOldGo(s[1..], open, if s[0].name in open || total < s[0].bytes then (if s[0].name in open then total else 0) else total - s[0].bytes,
                cap, maxAge, now);
    }
  }

  /** Of an index in the order of age, no finished file is left that was last written to longer ago than the limit. */
  lemma NoneOutlives(s: seq<Entry>, open: set<Name>, total: nat, cap: nat, maxAge: int, now: int)
    requires total >= Bytes(s) && maxAge > 0 && forall i, j :: 0 <= i < j < |s| ==> s[i].mtime <= s[j].mtime
    ensures forall e :: e in Enforce(s, open, total, cap, maxAge, now).kept ==> e.name in open || e.mtime >= now - maxAge
  {
    hide Enforce;
    OldestFirstKeepsAge(s, open, total, cap, maxAge, now);
  }

  // ---- how far a header lags ----

  /** The data bytes a header can tell of n samples: all of them, up to the most its 32-bit fields are given. */
  ghost predicate TellsOf(told: nat, n: nat) {
    (2 * n <= 0xFFFF_FFF0 && told == 2 * n) || (2 * n > 0xFFFF_FFF0 && told == 0xFFFF_FFF0)
  }

  lemma HeaderTells(n: nat)
    ensures TellsOf(Told(n), n)
  {
  }

  /** After samples came in, the header tells of them all, or it did less than a second before and is as it was. */
  lemma HeaderKeepsUp(f: File, w: Writer, n: nat, now: int)
    requires f.Made? && f.samples == w.samples
    ensures var f', w' := GrownFile(f, w, n, now), Grown(w, n, now);
            && f'.Made? && f'.samples == w'.samples == w.samples + n
            && if now < w.patched + 1000 then f'.told == f.told && w'.patched == w.patched
               else TellsOf(f'.told, w.samples + n) && w'.patched == now
  {
    HeaderTells(w.samples + n);
  }
}
