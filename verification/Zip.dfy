/** The page's zip writer and reader: what is written is read back, name by name and byte by byte. */
module Zip {
  import opened Basics
  import opened Crc

  type Octet = n: int | 0 <= n < 256

  type Bytes = seq<Octet>

  datatype File = File(name: Bytes, data: Bytes)

  /** Reading fails on what is no zip, on a damaged directory, and where a field lies outside the buffer. */
  datatype Result = Entries(files: seq<File>) | NotAZip | Damaged | OutOfRange

  const LOCAL_SIG: nat := 0x04034b50
  const CENTRAL_SIG: nat := 0x02014b50
  const END_SIG: nat := 0x06054b50
  const UTF8_FLAG: nat := 0x0800
  const LOCAL: nat := 30
  const CENTRAL: nat := 46
  const END: nat := 22
  const WORD: nat := 0x1_0000
  const LONG: nat := 0x1_0000_0000

  // ---- little-endian fields ----

  function Byte(n: nat): Octet {
    n % 256
  }

  function Put16(n: nat): (r: Bytes)
    ensures |r| == 2
  {
    [Byte(n), Byte(n / 256)]
  }

  function Put32(n: nat): (r: Bytes)
    ensures |r| == 4
  {
    Put16(n) + Put16(n / WORD)
  }

  function Get16(v: Bytes, p: nat): nat
    requires p + 2 <= |v|
  {
    var lo: int, hi: int := v[p], v[p + 1];
    lo + 256 * hi
  }

  function Get32(v: Bytes, p: nat): nat
    requires p + 4 <= |v|
  {
    Get16(v, p) + WORD * Get16(v, p + 2)
  }

  /** What a 16-bit and a 32-bit field keep of a number. */
  function Low16(n: nat): (r: nat)
    ensures r <= n && r < WORD && (n < WORD ==> r == n)
  {
    n % WORD
  }

  function Low32(n: nat): (r: nat)
    ensures r <= n && r < LONG && (n < LONG ==> r == n)
  {
    n % LONG
  }

  lemma Digits16(n: nat)
    ensures n % 256 + 256 * ((n / 256) % 256) == Low16(n)
  {
    var c := n / 256;
    var b, q := c % 256, c / 256;
    assert n == 256 * c + n % 256 && c == 256 * q + b;
    Remainder16(n, q, n % 256 + 256 * b);
  }

  lemma Remainder16(n: nat, q: nat, r: nat)
    requires n == 0x1_0000 * q + r && r < 0x1_0000
    ensures Low16(n) == r
  {
  }

  lemma Digits32(n: nat)
    ensures Low16(n) + WORD * Low16(n / WORD) == Low32(n)
  {
    var c := n / WORD;
    var b, q := c % WORD, c / WORD;
    assert n == WORD * c + n % WORD && c == WORD * q + b;
    Remainder32(n, q, n % WORD + WORD * b);
  }

  lemma Remainder32(n: nat, q: nat, r: nat)
    requires n == 0x1_0000_0000 * q + r && r < 0x1_0000_0000
    ensures Low32(n) == r
  {
  }

  /** The bytes r stand at p. */
  ghost predicate At(v: Bytes, p: nat, r: Bytes) {
    p + |r| <= |v| && v[p..p + |r|] == r
  }

  lemma Read16(v: Bytes, p: nat, n: nat)
    requires At(v, p, Put16(n))
    ensures p + 2 <= |v| && Get16(v, p) == Low16(n)
  {
    hide Low16;
    Digits16(n);
    assert v[p] == v[p..p + 2][0] && v[p + 1] == v[p..p + 2][1];
  }

  lemma Read32(v: Bytes, p: nat, n: nat)
    requires At(v, p, Put32(n))
    ensures p + 4 <= |v| && Get32(v, p) == Low32(n)
  {
    hide Put16, Get16, Low16, Low32;
    var r := Put32(n);
    assert v[p..p + 2] == v[p..p + 4][..2] == r[..2] == Put16(n);
    assert v[p + 2..p + 4] == v[p..p + 4][2..] == r[2..] == Put16(n / WORD);
    Digits32(n);
    Read16(v, p, n);
    Read16(v, p + 2, n / WORD);
  }

  /** What stands in a part stands in the whole. */
  lemma AtWithin(v: Bytes, p: nat, r: Bytes, q: nat, x: Bytes)
    requires At(v, p, r) && At(r, q, x)
    ensures At(v, p + q, x)
  {
    forall i | 0 <= i < |x| ensures v[p + q + i] == x[i] {
      assert v[p..p + |r|][q + i] == r[q + i] && r[q..q + |x|][i] == x[i];
    }
  }

  lemma AtConcat(a: Bytes, r: Bytes, b: Bytes)
    ensures At(a + r + b, |a|, r)
  {
  }

  // ---- the headers ----

  function CrcOf(data: Bytes): nat {
    Crc32(seq(|data|, i requires 0 <= i < |data| => data[i] as bv8)) as int
  }

  /** Version, flags, method 0 (stored), time and date. */
  function Stamp(dtime: nat, ddate: nat): (r: Bytes)
    ensures |r| == 10
  {
    Put16(20) + Put16(UTF8_FLAG) + Put16(0) + Put16(dtime) + Put16(ddate)
  }

  function LocalHeader(f: File, dtime: nat, ddate: nat): (r: Bytes)
    ensures |r| == LOCAL
  {
    Put32(LOCAL_SIG) + Stamp(dtime, ddate) + (Put32(CrcOf(f.data)) + Put32(|f.data|) + Put32(|f.data|))
    + (Put16(|f.name|) + Put16(0))
  }

  function CentralHeader(f: File, dtime: nat, ddate: nat, off: nat): (r: Bytes)
    ensures |r| == CENTRAL
  {
    (Put32(CENTRAL_SIG) + Put16(20)) + Stamp(dtime, ddate) + (Put32(CrcOf(f.data)) + Put32(|f.data|) + Put32(|f.data|))
    + (Put16(|f.name|) + Put16(0) + Put16(0)) + (Put16(0) + Put16(0) + Put32(0)) + Put32(off)
  }

  function EndRecord(n: nat, size: nat, off: nat): (r: Bytes)
    ensures |r| == END
  {
    Put32(END_SIG) + (Put16(0) + Put16(0)) + (Put16(n) + Put16(n)) + Put32(size) + Put32(off) + Put16(0)
  }

  // ---- writing ----

  function Record(f: File, dtime: nat, ddate: nat): Bytes {
    LocalHeader(f, dtime, ddate) + f.name + f.data
  }

  /** The local records of the files. */
  function Locals(files: seq<File>, dtime: nat, ddate: nat): Bytes {
    if files == [] then [] else Locals(files[..|files| - 1], dtime, ddate) + Record(files[|files| - 1], dtime, ddate)
  }

  function Offset(files: seq<File>, dtime: nat, ddate: nat): nat {
    |Locals(files, dtime, ddate)|
  }

  function DirectoryEntry(f: File, dtime: nat, ddate: nat, off: nat): Bytes {
    CentralHeader(f, dtime, ddate, off) + f.name
  }

  /** The central directory. */
  function Directory(files: seq<File>, dtime: nat, ddate: nat): Bytes {
    if files == [] then []
    else
      var before := files[..|files| - 1];
      Directory(before, dtime, ddate) + DirectoryEntry(files[|files| - 1], dtime, ddate, Offset(before, dtime, ddate))
  }

  function Zipped(files: seq<File>, dtime: nat, ddate: nat): Bytes {
    var locals, dir := Locals(files, dtime, ddate), Directory(files, dtime, ddate);
    locals + dir + EndRecord(|files|, |dir|, |locals|)
  }

  // ---- reading ----

  /** Part of the buffer, as far as there is one. */
  function Sub(v: Bytes, a: nat, b: nat): Bytes {
    var hi := if b < |v| then b else |v|;
    if a <= hi then v[a..hi] else []
  }

  /** A decoded name: a leading byte-order mark is not part of it. */
  function Decoded(b: Bytes): Bytes {
    if |b| >= 3 && b[0] == 0xEF && b[1] == 0xBB && b[2] == 0xBF then b[3..] else b
  }

  /** The end record's place, searched from the end back. */
  function FindEnd(v: Bytes, i: int): (e: int)
    requires |v| >= END && i <= |v| - END
    ensures -1 <= e <= |v| - END
    ensures e >= 0 ==> |v| - 66000 <= e <= i && Get32(v, e) == 0x06054b50
    ensures forall j: nat :: e < j <= i && |v| - 66000 <= j ==> Get32(v, j) != 0x06054b50
    decreases i + 1
  {
    if i < 0 || i < |v| - 66000 then -1
    else if Get32(v, i) == END_SIG then i
    else FindEnd(v, i - 1)
  }

  datatype Raw = Raw(name: Bytes, meth: nat, data: Bytes)

  datatype Walk = Walked(raws: seq<Raw>) | BadEntry | Outside

  /** The next n directory entries from p. */
  function ReadEntries(v: Bytes, p: nat, n: nat): Walk
    decreases n
  {
    if n == 0 then Walked([])
    else if p + 4 > |v| then Outside
    else if Get32(v, p) != CENTRAL_SIG then BadEntry
    else if p + CENTRAL > |v| then Outside
    else
      var lo := Get32(v, p + 42);
      if lo + LOCAL > |v| then Outside
      else
        var ds := lo + LOCAL + Get16(v, lo + 26) + Get16(v, lo + 28);
        var raw := Raw(Decoded(Sub(v, p + CENTRAL, p + CENTRAL + Get16(v, p + 28))), Get16(v, p + 10),
                       Sub(v, ds, ds + Get32(v, p + 20)));
        var rest := ReadEntries(v, p + CENTRAL + Get16(v, p + 28) + Get16(v, p + 30) + Get16(v, p + 32), n - 1);
        if rest.Walked? then Walked([raw] + rest.raws) else rest
  }

  predicate Folder(name: Bytes) {
    name != [] && name[|name| - 1] == 0x2F
  }

  /** The entry's file: stored as it is, deflated through `inflate`, otherwise none. */
  function Unpacked(x: Raw, inflate: Bytes -> Option<Bytes>): Option<File> {
    if Folder(x.name) then None
    else if x.meth == 0 then Some(File(x.name, x.data))
    else if x.meth == 8 then (match inflate(x.data) case Some(b) => Some(File(x.name, b)) case None => None)
    else None
  }

  function UnpackedAll(s: seq<Raw>, inflate: Bytes -> Option<Bytes>): seq<File> {
    if s == [] then []
    else
      var f := Unpacked(s[0], inflate);
      (if f.Some? then [f.value] else []) + UnpackedAll(s[1..], inflate)
  }

  function Unzipped(v: Bytes, inflate: Bytes -> Option<Bytes>): Result {
    if |v| < END then NotAZip
    else
      var e := FindEnd(v, |v| - END);
      if e < 0 then NotAZip
      else
        match ReadEntries(v, Get32(v, e + 16), Get16(v, e + 10))
        case Walked(raws) => Entries(UnpackedAll(raws, inflate))
        case BadEntry => Damaged
        case Outside => OutOfRange
  }

  // ---- the round trip ----

  /** The names as they are read back, folders left out. */
  function Readable(files: seq<File>): seq<File> {
    if files == [] then []
    else
      var name := Decoded(files[0].name);
      (if Folder(name) then [] else [File(name, files[0].data)]) + Readable(files[1..])
  }

  function Stored(files: seq<File>): seq<Raw> {
    if files == [] then [] else [Raw(Decoded(files[0].name), 0, files[0].data)] + Stored(files[1..])
  }

  lemma {:induction false} StoredUnpacks(files: seq<File>, inflate: Bytes -> Option<Bytes>)
    ensures UnpackedAll(Stored(files), inflate) == Readable(files)
  {
    if files != [] {
      StoredUnpacks(files[1..], inflate);
      var s := Stored(files);
      assert s[1..] == Stored(files[1..]);
    }
  }

  /** The fields a reader looks at in a directory entry. */
  lemma CentralFields(v: Bytes, p: nat, f: File, dtime: nat, ddate: nat, off: nat)
    requires At(v, p, CentralHeader(f, dtime, ddate, off))
    ensures p + CENTRAL <= |v| && Get32(v, p) == CENTRAL_SIG && Get16(v, p + 10) == 0
    ensures Get32(v, p + 16) == Low32(CrcOf(f.data))
    ensures Get32(v, p + 20) == Low32(|f.data|) && Get16(v, p + 28) == Low16(|f.name|)
    ensures Get16(v, p + 30) == 0 && Get16(v, p + 32) == 0 && Get32(v, p + 42) == Low32(off)
  {
    hide Get16, Get32, At, Put16, Put32;
    var h := CentralHeader(f, dtime, ddate, off);
    CentralParts(f, dtime, ddate, off);
    AtWithin(v, p, h, 0, Put32(CENTRAL_SIG));
    AtWithin(v, p, h, 10, Put16(0));
    AtWithin(v, p, h, 16, Put32(CrcOf(f.data)));
    AtWithin(v, p, h, 20, Put32(|f.data|));
    AtWithin(v, p, h, 28, Put16(|f.name|));
    AtWithin(v, p, h, 30, Put16(0));
    AtWithin(v, p, h, 32, Put16(0));
    AtWithin(v, p, h, 42, Put32(off));
    Read32(v, p, CENTRAL_SIG);
    Read16(v, p + 10, 0);
    Read32(v, p + 16, CrcOf(f.data));
    Read32(v, p + 20, |f.data|);
    Read16(v, p + 28, |f.name|);
    Read16(v, p + 30, 0);
    Read16(v, p + 32, 0);
    Read32(v, p + 42, off);
    WholeHeader(v, p, h);
  }

  lemma WholeHeader(v: Bytes, p: nat, h: Bytes)
    requires At(v, p, h)
    ensures p + |h| <= |v|
  {
  }

  lemma CentralParts(f: File, dtime: nat, ddate: nat, off: nat)
    ensures var h := CentralHeader(f, dtime, ddate, off);
            && At(h, 0, Put32(CENTRAL_SIG)) && At(h, 10, Put16(0)) && At(h, 16, Put32(CrcOf(f.data)))
            && At(h, 20, Put32(|f.data|)) && At(h, 28, Put16(|f.name|)) && At(h, 30, Put16(0)) && At(h, 32, Put16(0))
            && At(h, 42, Put32(off))
  {
    hide Put16, Put32, CrcOf;
  }

  lemma LocalFields(v: Bytes, p: nat, f: File, dtime: nat, ddate: nat)
    requires At(v, p, LocalHeader(f, dtime, ddate))
    ensures p + LOCAL <= |v| && Get32(v, p) == LOCAL_SIG && Get32(v, p + 14) == Low32(CrcOf(f.data))
    ensures Get16(v, p + 26) == Low16(|f.name|) && Get16(v, p + 28) == 0
  {
    hide Get16, Get32, At, Put16, Put32;
    var h := LocalHeader(f, dtime, ddate);
    LocalParts(f, dtime, ddate);
    AtWithin(v, p, h, 0, Put32(LOCAL_SIG));
    AtWithin(v, p, h, 14, Put32(CrcOf(f.data)));
    AtWithin(v, p, h, 26, Put16(|f.name|));
    AtWithin(v, p, h, 28, Put16(0));
    Read32(v, p, LOCAL_SIG);
    Read32(v, p + 14, CrcOf(f.data));
    Read16(v, p + 26, |f.name|);
    Read16(v, p + 28, 0);
    WholeHeader(v, p, h);
  }

  lemma LocalParts(f: File, dtime: nat, ddate: nat)
    ensures var h := LocalHeader(f, dtime, ddate);
            && At(h, 0, Put32(LOCAL_SIG)) && At(h, 14, Put32(CrcOf(f.data))) && At(h, 26, Put16(|f.name|))
            && At(h, 28, Put16(0))
  {
    hide Put16, Put32, CrcOf;
  }

  lemma EndFields(v: Bytes, p: nat, n: nat, size: nat, off: nat)
    requires At(v, p, EndRecord(n, size, off))
    ensures p + END <= |v| && Get32(v, p) == END_SIG && Get16(v, p + 10) == Low16(n) && Get32(v, p + 16) == Low32(off)
  {
    hide Get16, Get32, At, Put16, Put32;
    var h := EndRecord(n, size, off);
    EndParts(n, size, off);
    AtWithin(v, p, h, 0, Put32(END_SIG));
    AtWithin(v, p, h, 10, Put16(n));
    AtWithin(v, p, h, 16, Put32(off));
    Read32(v, p, END_SIG);
    Read16(v, p + 10, n);
    Read32(v, p + 16, off);
    WholeHeader(v, p, h);
  }

  lemma EndParts(n: nat, size: nat, off: nat)
    ensures var h := EndRecord(n, size, off);
            At(h, 0, Put32(END_SIG)) && At(h, 10, Put16(n)) && At(h, 16, Put32(off))
  {
    hide Put16, Put32;
  }

  /** The k-th file's records stand where the offsets say. */
  lemma {:induction false} RecordAt(files: seq<File>, k: nat, dtime: nat, ddate: nat)
    requires k < |files|
    ensures At(Locals(files, dtime, ddate), Offset(files[..k], dtime, ddate), Record(files[k], dtime, ddate))
    ensures Offset(files[..k], dtime, ddate) <= Offset(files, dtime, ddate)
    decreases |files|
  {
    hide Record;
    var before := files[..|files| - 1];
    if k == |files| - 1 {
      AtConcat(Locals(before, dtime, ddate), Record(files[k], dtime, ddate), []);
      assert Locals(before, dtime, ddate) + Record(files[k], dtime, ddate) + [] == Locals(files, dtime, ddate);
    } else {
      RecordAt(before, k, dtime, ddate);
      assert before[..k] == files[..k];
      var l := Locals(files, dtime, ddate);
      assert l[..|Locals(before, dtime, ddate)|] == Locals(before, dtime, ddate);
      AtPrefix(l, Locals(before, dtime, ddate), Offset(files[..k], dtime, ddate), Record(files[k], dtime, ddate));
    }
  }

  lemma AtPrefix(v: Bytes, a: Bytes, p: nat, r: Bytes)
    requires |a| <= |v| && v[..|a|] == a && At(a, p, r)
    ensures At(v, p, r)
  {
    assert v[p..p + |r|] == v[..|a|][p..p + |r|];
  }

  lemma {:induction false} DirectoryAt(files: seq<File>, k: nat, dtime: nat, ddate: nat)
    requires k < |files|
    ensures At(Directory(files, dtime, ddate), |Directory(files[..k], dtime, ddate)|,
               DirectoryEntry(files[k], dtime, ddate, Offset(files[..k], dtime, ddate)))
    decreases |files|
  {
    hide DirectoryEntry, Offset;
    var before := files[..|files| - 1];
    if k == |files| - 1 {
      var x := DirectoryEntry(files[k], dtime, ddate, Offset(before, dtime, ddate));
      AtConcat(Directory(before, dtime, ddate), x, []);
      assert Directory(before, dtime, ddate) + x + [] == Directory(files, dtime, ddate);
    } else {
      DirectoryAt(before, k, dtime, ddate);
      assert before[..k] == files[..k];
      var l := Directory(files, dtime, ddate);
      assert l[..|Directory(before, dtime, ddate)|] == Directory(before, dtime, ddate);
      AtPrefix(l, Directory(before, dtime, ddate), |Directory(files[..k], dtime, ddate)|,
               DirectoryEntry(files[k], dtime, ddate, Offset(files[..k], dtime, ddate)));
    }
  }

  /** The format's 32- and 16-bit fields hold the sizes. */
  predicate Fits(files: seq<File>, dtime: nat, ddate: nat) {
    Offset(files, dtime, ddate) < LONG && forall i :: 0 <= i < |files| ==> |files[i].name| < WORD
  }

  /** Where in the whole the k-th file's pieces are. */
  lemma PiecesAt(files: seq<File>, k: nat, dtime: nat, ddate: nat)
    requires k < |files|
    ensures var v, off := Zipped(files, dtime, ddate), Offset(files[..k], dtime, ddate);
            var p := Offset(files, dtime, ddate) + |Directory(files[..k], dtime, ddate)|;
            && At(v, off, LocalHeader(files[k], dtime, ddate))
            && At(v, off + LOCAL + |files[k].name|, files[k].data)
            && At(v, p, CentralHeader(files[k], dtime, ddate, off)) && At(v, p + CENTRAL, files[k].name)
            && off + LOCAL + |files[k].name| + |files[k].data| <= Offset(files, dtime, ddate)
  {
    hide Locals, Directory, EndRecord, LocalHeader, CentralHeader, At, Record, DirectoryEntry, Zipped;
    var f := files[k];
    var v, off := Zipped(files, dtime, ddate), Offset(files[..k], dtime, ddate);
    var locals, dir := Locals(files, dtime, ddate), Directory(files, dtime, ddate);
    ZippedAt(files, dtime, ddate);
    RecordAt(files, k, dtime, ddate);
    DirectoryAt(files, k, dtime, ddate);
    var r, x := Record(f, dtime, ddate), DirectoryEntry(f, dtime, ddate, off);
    var d := |Directory(files[..k], dtime, ddate)|;
    WholeHeader(locals, off, r);
    AtWithin(v, 0, locals, off, r);
    AtWithin(v, |locals|, dir, d, x);
    RecordParts(f, dtime, ddate);
    EntryParts(f, dtime, ddate, off);
    AtWithin(v, off, r, 0, LocalHeader(f, dtime, ddate));
    AtWithin(v, off, r, LOCAL + |f.name|, f.data);
    AtWithin(v, |locals| + d, x, 0, CentralHeader(f, dtime, ddate, off));
    AtWithin(v, |locals| + d, x, CENTRAL, f.name);
  }

  lemma ZippedAt(files: seq<File>, dtime: nat, ddate: nat)
    ensures var v := Zipped(files, dtime, ddate);
            At(v, 0, Locals(files, dtime, ddate)) && At(v, |Locals(files, dtime, ddate)|, Directory(files, dtime, ddate))
  {
    hide Locals, Directory, EndRecord;
    var locals, dir := Locals(files, dtime, ddate), Directory(files, dtime, ddate);
    var end := EndRecord(|files|, |dir|, |locals|);
    assert [] + locals + (dir + end) == Zipped(files, dtime, ddate);
    AtConcat([], locals, dir + end);
    AtConcat(locals, dir, end);
  }

  lemma RecordParts(f: File, dtime: nat, ddate: nat)
    ensures var r := Record(f, dtime, ddate);
            && At(r, 0, LocalHeader(f, dtime, ddate)) && At(r, LOCAL + |f.name|, f.data)
            && |r| == LOCAL + |f.name| + |f.data|
  {
    hide LocalHeader;
  }

  lemma EntryParts(f: File, dtime: nat, ddate: nat, off: nat)
    ensures var x := DirectoryEntry(f, dtime, ddate, off);
            At(x, 0, CentralHeader(f, dtime, ddate, off)) && At(x, CENTRAL, f.name) && |x| == CENTRAL + |f.name|
  {
    hide CentralHeader;
  }

  lemma SubAt(v: Bytes, p: nat, r: Bytes)
    requires At(v, p, r)
    ensures Sub(v, p, p + |r|) == r
  {
  }

  /** At p a directory entry for f, at the offset it names f's local header, and in both the data's checksum. */
  ghost predicate LeadsTo(v: Bytes, p: nat, off: nat, f: File) {
    && p + CENTRAL <= |v| && Get32(v, p) == CENTRAL_SIG && Get32(v, p + 16) == Low32(CrcOf(f.data))
    && Get32(v, p + 42) == off
    && off + LOCAL <= |v| && Get32(v, off) == LOCAL_SIG && Get32(v, off + 14) == Low32(CrcOf(f.data))
  }

  /** Every offset points where the reader looks. */
  lemma HeadersInPlace(files: seq<File>, k: nat, dtime: nat, ddate: nat)
    requires k < |files| && Fits(files, dtime, ddate)
    ensures LeadsTo(Zipped(files, dtime, ddate), Offset(files, dtime, ddate) + |Directory(files[..k], dtime, ddate)|,
                    Offset(files[..k], dtime, ddate), files[k])
  {
    hide Zipped, Directory, Offset, Get16, Get32, At, LocalHeader, CentralHeader, CrcOf, Low32, Low16;
    var v, off := Zipped(files, dtime, ddate), Offset(files[..k], dtime, ddate);
    var p := Offset(files, dtime, ddate) + |Directory(files[..k], dtime, ddate)|;
    PiecesAt(files, k, dtime, ddate);
    CentralFields(v, p, files[k], dtime, ddate, off);
    LocalFields(v, off, files[k], dtime, ddate);
  }

  /** One directory entry, read with what its local header says. */
  lemma ReadOne(v: Bytes, p: nat, n: nat, f: File, off: nat, rest: seq<Raw>)
    requires n > 0 && p + CENTRAL <= |v| && Get32(v, p) == CENTRAL_SIG && Get16(v, p + 10) == 0
    requires Get32(v, p + 20) == |f.data| && Get16(v, p + 28) == |f.name|
    requires Get16(v, p + 30) == 0 && Get16(v, p + 32) == 0 && Get32(v, p + 42) == off
    requires off + LOCAL <= |v| && Get16(v, off + 26) == |f.name| && Get16(v, off + 28) == 0
    requires At(v, p + CENTRAL, f.name) && At(v, off + LOCAL + |f.name|, f.data)
    requires ReadEntries(v, p + CENTRAL + |f.name|, n - 1) == Walked(rest)
    ensures ReadEntries(v, p, n) == Walked([Raw(Decoded(f.name), 0, f.data)] + rest)
  {
    hide Get16, Get32, At, Sub, Decoded;
    SubAt(v, p + CENTRAL, f.name);
    SubAt(v, off + LOCAL + |f.name|, f.data);
  }

  lemma {:induction false} ReadsBack(files: seq<File>, k: nat, n: nat, dtime: nat, ddate: nat)
    requires k + n <= |files| && Fits(files, dtime, ddate)
    ensures ReadEntries(Zipped(files, dtime, ddate), Offset(files, dtime, ddate) + |Directory(files[..k], dtime, ddate)|, n)
            == Walked(Stored(files[k..k + n]))
    decreases n
  {
    hide *;
    if n > 0 {
      var v, off, f := Zipped(files, dtime, ddate), Offset(files[..k], dtime, ddate), files[k];
      var p := Offset(files, dtime, ddate) + |Directory(files[..k], dtime, ddate)|;
      PiecesAt(files, k, dtime, ddate);
      CentralFields(v, p, f, dtime, ddate, off);
      LocalFields(v, off, f, dtime, ddate);
      NextEntry(files, k, dtime, ddate);
      FitsAt(files, k, dtime, ddate);
      ReadsBack(files, k + 1, n - 1, dtime, ddate);
      var rest := files[k + 1..k + n];
      assert files[k + 1..k + 1 + (n - 1)] == rest;
      ReadOne(v, p, n, f, off, Stored(rest));
      assert files[k..k + n][0] == f && files[k..k + n][1..] == rest;
    }
    ReadNone(Zipped(files, dtime, ddate), Offset(files, dtime, ddate) + |Directory(files[..k], dtime, ddate)|,
             files[k..k + n]);
  }

  lemma FitsAt(files: seq<File>, k: nat, dtime: nat, ddate: nat)
    requires k < |files| && Fits(files, dtime, ddate)
    ensures |files[k].name| < WORD && Offset(files, dtime, ddate) < LONG
  {
    hide Offset;
  }

  lemma ReadNone(v: Bytes, p: nat, s: seq<File>)
    ensures ReadEntries(v, p, 0) == Walked(Stored([]))
    ensures s != [] ==> Stored(s) == [Raw(Decoded(s[0].name), 0, s[0].data)] + Stored(s[1..])
    ensures s == [] ==> Stored(s) == Stored([])
  {
  }

  lemma NextEntry(files: seq<File>, k: nat, dtime: nat, ddate: nat)
    requires k < |files|
    ensures |Directory(files[..k + 1], dtime, ddate)| == |Directory(files[..k], dtime, ddate)| + CENTRAL + |files[k].name|
  {
    hide CentralHeader;
    assert files[..k + 1][..k] == files[..k] && files[..k + 1][k] == files[k];
  }

  /** Whatever files are zipped, within the sizes the format can hold: reading the zip gives them back, names and
      bytes and order, folders left out.  Of their number the format keeps 16 bits: with more files than that only
      the first of them, as many as the field then says, are read. */
  lemma RoundTrip(files: seq<File>, dtime: nat, ddate: nat, inflate: Bytes -> Option<Bytes>)
    requires Fits(files, dtime, ddate)
    ensures Unzipped(Zipped(files, dtime, ddate), inflate) == Entries(Readable(files[..Low16(|files|)]))
  {
    hide Directory, Locals, Get16, Get32, EndRecord, Sub, Decoded, ReadEntries, At, FindEnd, Low16, Low32;
    var v, n := Zipped(files, dtime, ddate), Low16(|files|);
    var locals, dir := Locals(files, dtime, ddate), Directory(files, dtime, ddate);
    var end := EndRecord(|files|, |dir|, |locals|);
    AtConcat(locals + dir, end, []);
    assert locals + dir + end + [] == v;
    EndFields(v, |v| - END, |files|, |dir|, |locals|);
    EndFound(v);
    ReadsBack(files, 0, n, dtime, ddate);
    NoDirectory(files, dtime, ddate);
    assert files[0..0 + n] == files[..n];
    StoredUnpacks(files[..n], inflate);
  }

  lemma NoDirectory(files: seq<File>, dtime: nat, ddate: nat)
    ensures |Directory(files[..0], dtime, ddate)| == 0
  {
  }

  lemma EndFound(v: Bytes)
    requires |v| >= END && Get32(v, |v| - END) == END_SIG
    ensures FindEnd(v, |v| - END) == |v| - END
  {
    hide Get32;
  }

  /** The name does not end with a slash, which marks a folder, and does not begin with the bytes of a byte-order mark. */
  predicate Plain(f: File) {
    && (f.name == [] || f.name[|f.name| - 1] != 0x2F)
    && !([0xEF, 0xBB, 0xBF] <= f.name)
  }

  lemma PlainNames(f: File)
    ensures Plain(f) <==> !Folder(Decoded(f.name)) && Decoded(f.name) == f.name
  {
  }

  lemma {:induction false} ReadableIsShorter(files: seq<File>)
    ensures |Readable(files)| <= |files|
  {
    if files != [] { ReadableIsShorter(files[1..]); }
  }

  lemma {:induction false} ReadableIffPlain(files: seq<File>)
    ensures Readable(files) == files <==> forall i :: 0 <= i < |files| ==> Plain(files[i])
  {
    if files != [] {
      hide Decoded, Folder, Plain;
      ReadableIsShorter(files[1..]);
      ReadableIffPlain(files[1..]);
      PlainNames(files[0]);
      var r := Readable(files);
      assert files == [files[0]] + files[1..];
      assert !Folder(Decoded(files[0].name)) ==> r[0] == File(Decoded(files[0].name), files[0].data) && r[1..] == Readable(files[1..]);
      assert forall i :: 0 <= i < |files[1..]| ==> files[1..][i] == files[i + 1];
      assert forall i :: 0 < i < |files| ==> files[i] == files[1..][i - 1];
    }
  }

  /** Files within the sizes the format can hold come back exactly if and only if there are fewer than 65536 of them
      and all are plain. */
  lemma PlainRoundTrip(files: seq<File>, dtime: nat, ddate: nat, inflate: Bytes -> Option<Bytes>)
    requires Fits(files, dtime, ddate)
    ensures Unzipped(Zipped(files, dtime, ddate), inflate) == Entries(files)
            <==> |files| < WORD && forall i :: 0 <= i < |files| ==> Plain(files[i])
  {
    hide Unzipped, Zipped, Plain, Offset, Readable;
    RoundTrip(files, dtime, ddate, inflate);
    ReadableIsShorter(files[..Low16(|files|)]);
    ReadableIffPlain(files);
    if |files| < WORD { assert files[..Low16(|files|)] == files; }
  }

  // ---- what other readers look at ----

  /** The archive ends with an end record of no comment: one disk, all of its entries on it, and the place and size of
      the directory, which is all that stands between the files and that record. */
  lemma EndRecordTells(files: seq<File>, dtime: nat, ddate: nat)
    ensures var v := Zipped(files, dtime, ddate);
            var e := |v| - END;
            && e >= 0 && Get32(v, e) == END_SIG && Get16(v, e + 4) == 0 && Get16(v, e + 6) == 0
            && Get16(v, e + 8) == Get16(v, e + 10) == Low16(|files|) && Get16(v, e + 20) == 0
            && Get32(v, e + 16) == Low32(Offset(files, dtime, ddate))
            && Get32(v, e + 12) == Low32(e - Offset(files, dtime, ddate))
  {
    hide *;
    var locals, dir := Locals(files, dtime, ddate), Directory(files, dtime, ddate);
    var end := EndRecord(|files|, |dir|, |locals|);
    var v := Zipped(files, dtime, ddate);
    ThreeParts(files, dtime, ddate);
    AtConcat(locals + dir, end, []);
    assert locals + dir + end + [] == v;
    EndBytes(|files|, |dir|, |locals|);
    var e := |v| - END;
    Field32(v, e, end, 0, END_SIG);
    Field16(v, e, end, 4, 0);
    Field16(v, e, end, 6, 0);
    Field16(v, e, end, 8, |files|);
    Field16(v, e, end, 10, |files|);
    Field32(v, e, end, 12, |dir|);
    Field32(v, e, end, 16, |locals|);
    Field16(v, e, end, 20, 0);
    NoLow();
  }

  lemma ThreeParts(files: seq<File>, dtime: nat, ddate: nat)
    ensures Zipped(files, dtime, ddate) == Locals(files, dtime, ddate) + Directory(files, dtime, ddate)
              + EndRecord(|files|, |Directory(files, dtime, ddate)|, |Locals(files, dtime, ddate)|)
    ensures Offset(files, dtime, ddate) == |Locals(files, dtime, ddate)| && END == 22
  {
    hide Locals, Directory, EndRecord;
  }

  lemma EndBytes(n: nat, size: nat, off: nat)
    ensures var h := EndRecord(n, size, off);
            && At(h, 0, Put32(END_SIG)) && At(h, 4, Put16(0)) && At(h, 6, Put16(0)) && At(h, 8, Put16(n))
            && At(h, 10, Put16(n)) && At(h, 12, Put32(size)) && At(h, 16, Put32(off)) && At(h, 20, Put16(0))
  {
    hide Put16, Put32;
  }

  lemma Field16(v: Bytes, p: nat, h: Bytes, q: nat, n: nat)
    requires At(v, p, h) && At(h, q, Put16(n))
    ensures p + q + 2 <= |v| && Get16(v, p + q) == Low16(n)
  {
    hide At, Put16, Get16, Low16;
    AtWithin(v, p, h, q, Put16(n));
    Read16(v, p + q, n);
  }

  lemma Field32(v: Bytes, p: nat, h: Bytes, q: nat, n: nat)
    requires At(v, p, h) && At(h, q, Put32(n))
    ensures p + q + 4 <= |v| && Get32(v, p + q) == Low32(n)
  {
    hide At, Put32, Get32, Low32;
    AtWithin(v, p, h, q, Put32(n));
    Read32(v, p + q, n);
  }

  lemma NoLow()
    ensures Low16(0) == 0 && Low32(END_SIG) == END_SIG
  {
  }

  /** A file's local header and its directory entry say the same of it, and are true: stored without compression, in
      names of UTF-8, packed and unpacked size that of the data, the time and date asked for, and the name after the
      header. */
  ghost predicate Described(v: Bytes, p: nat, f: File, dtime: nat, ddate: nat) {
    && p + 26 <= |v| && Get16(v, p) == 20 && Get16(v, p + 2) == 0x0800 && Get16(v, p + 4) == 0
    && Get16(v, p + 6) == Low16(dtime) && Get16(v, p + 8) == Low16(ddate)
    && Get32(v, p + 14) == Get32(v, p + 18) == Low32(|f.data|)
    && Get16(v, p + 22) == Low16(|f.name|) && Get16(v, p + 24) == 0
  }

  lemma HeadersAgree(files: seq<File>, k: nat, dtime: nat, ddate: nat)
    requires k < |files|
    ensures var v, off := Zipped(files, dtime, ddate), Offset(files[..k], dtime, ddate);
            var p := Offset(files, dtime, ddate) + |Directory(files[..k], dtime, ddate)|;
            && Described(v, off + 4, files[k], dtime, ddate) && Described(v, p + 6, files[k], dtime, ddate)
            && At(v, off + LOCAL, files[k].name) && At(v, p + CENTRAL, files[k].name)
  {
    hide *;
    var f := files[k];
    var v, off := Zipped(files, dtime, ddate), Offset(files[..k], dtime, ddate);
    var p := Offset(files, dtime, ddate) + |Directory(files[..k], dtime, ddate)|;
    PiecesAt(files, k, dtime, ddate);
    LocalTold(f, dtime, ddate);
    CentralTold(f, dtime, ddate, off);
    DescribedAt(v, off, LocalHeader(f, dtime, ddate), 4, f, dtime, ddate);
    DescribedAt(v, p, CentralHeader(f, dtime, ddate, off), 6, f, dtime, ddate);
    NameAfter(files, k, dtime, ddate);
  }

  lemma NameAfter(files: seq<File>, k: nat, dtime: nat, ddate: nat)
    requires k < |files|
    ensures At(Zipped(files, dtime, ddate), Offset(files[..k], dtime, ddate) + LOCAL, files[k].name)
  {
    hide Locals, LocalHeader, At, Record, Zipped, Directory;
    var f := files[k];
    var r, off := Record(f, dtime, ddate), Offset(files[..k], dtime, ddate);
    ZippedAt(files, dtime, ddate);
    RecordAt(files, k, dtime, ddate);
    AtWithin(Zipped(files, dtime, ddate), 0, Locals(files, dtime, ddate), off, r);
    NameInRecord(f, dtime, ddate);
    AtWithin(Zipped(files, dtime, ddate), off, r, LOCAL, f.name);
  }

  lemma NameInRecord(f: File, dtime: nat, ddate: nat)
    ensures At(Record(f, dtime, ddate), LOCAL, f.name)
  {
    hide LocalHeader;
    AtConcat(LocalHeader(f, dtime, ddate), f.name, f.data);
  }

  /** What `Described` reads, as it was put. */
  ghost predicate Puts(h: Bytes, q: nat, f: File, dtime: nat, ddate: nat) {
    && At(h, q, Put16(20)) && At(h, q + 2, Put16(0x0800)) && At(h, q + 4, Put16(0)) && At(h, q + 6, Put16(dtime))
    && At(h, q + 8, Put16(ddate)) && At(h, q + 14, Put32(|f.data|)) && At(h, q + 18, Put32(|f.data|))
    && At(h, q + 22, Put16(|f.name|)) && At(h, q + 24, Put16(0))
  }

  lemma LocalTold(f: File, dtime: nat, ddate: nat)
    ensures Puts(LocalHeader(f, dtime, ddate), 4, f, dtime, ddate)
  {
    hide Put16, Put32, CrcOf;
  }

  lemma CentralTold(f: File, dtime: nat, ddate: nat, off: nat)
    ensures Puts(CentralHeader(f, dtime, ddate, off), 6, f, dtime, ddate)
  {
    hide Put16, Put32, CrcOf;
  }

  lemma DescribedAt(v: Bytes, p: nat, h: Bytes, q: nat, f: File, dtime: nat, ddate: nat)
    requires At(v, p, h) && Puts(h, q, f, dtime, ddate)
    ensures Described(v, p + q, f, dtime, ddate)
  {
    hide At, Put16, Put32, Get16, Get32, Low16, Low32;
    Field16(v, p, h, q, 20);
    Field16(v, p, h, q + 2, 0x0800);
    Field16(v, p, h, q + 4, 0);
    Field16(v, p, h, q + 6, dtime);
    Field16(v, p, h, q + 8, ddate);
    Field32(v, p, h, q + 14, |f.data|);
    Field32(v, p, h, q + 18, |f.data|);
    Field16(v, p, h, q + 22, |f.name|);
    Field16(v, p, h, q + 24, 0);
    SmallFields();
  }

  lemma SmallFields()
    ensures Low16(0) == 0 && Low16(20) == 20 && Low16(0x0800) == 0x0800
  {
  }

  // ---- too many files ----

  /** n empty files, all named "a". */
  function Many(n: nat): (files: seq<File>)
    ensures |files| == n && forall i :: 0 <= i < n ==> files[i] == File([0x61], [])
  {
    seq(n, _ => File([0x61], []))
  }

  lemma {:induction false} ManyOffset(n: nat, dtime: nat, ddate: nat)
    ensures Offset(Many(n), dtime, ddate) == n * (LOCAL + 1)
  {
    if n > 0 {
      hide LocalHeader;
      ManyOffset(n - 1, dtime, ddate);
      assert Many(n)[..n - 1] == Many(n - 1);
    }
  }

  /** The zip of 65536 small files reads as one of none. */
  lemma TooManyFiles(dtime: nat, ddate: nat, inflate: Bytes -> Option<Bytes>)
    ensures Fits(Many(WORD), dtime, ddate)
    ensures Unzipped(Zipped(Many(WORD), dtime, ddate), inflate) == Entries([])
  {
    hide Unzipped, Zipped, Offset, Many;
    ManyOffset(WORD, dtime, ddate);
    RoundTrip(Many(WORD), dtime, ddate, inflate);
    assert Many(WORD)[..Low16(WORD)] == [];
  }

  // ---- the program's loops ----

  method ZipBlob(files: seq<File>, dtime: nat, ddate: nat) returns (blob: Bytes)
    ensures blob == Zipped(files, dtime, ddate)
  {
    hide LocalHeader, CentralHeader, EndRecord;
    var parts: Bytes, cdir: Bytes, off, cdLen := [], [], 0, 0;
    for k := 0 to |files|
      invariant parts == Locals(files[..k], dtime, ddate) && off == |parts|
      invariant cdir == Directory(files[..k], dtime, ddate) && cdLen == |cdir|
    {
      var f := files[k];
      assert files[..k + 1][..k] == files[..k] && files[..k + 1][k] == f;
      parts := parts + (LocalHeader(f, dtime, ddate) + f.name + f.data);
      cdir := cdir + (CentralHeader(f, dtime, ddate, off) + f.name);
      off := off + 30 + |f.name| + |f.data|;
      cdLen := cdLen + 46 + |f.name|;
    }
    assert files[..|files|] == files;
    blob := parts + cdir + EndRecord(|files|, cdLen, off);
  }

  method SearchEnd(v: Bytes) returns (e: int)
    ensures e == if |v| < END then -1 else FindEnd(v, |v| - END)
  {
    hide Get32;
    var i: int := |v| - 22;
    while i >= 0 && i >= |v| - 66000
      invariant i <= |v| - END && (|v| < END ==> i < 0)
      invariant |v| >= END ==> -1 <= i && FindEnd(v, i) == FindEnd(v, |v| - END)
      decreases i + 1
    {
      if Get32(v, i) == END_SIG { return i; }
      i := i - 1;
    }
    e := -1;
  }

  /** The next n entries from p on after those in `before`. */
  function WalkFrom(before: seq<Raw>, v: Bytes, p: nat, n: nat): Walk {
    var rest := ReadEntries(v, p, n);
    if rest.Walked? then Walked(before + rest.raws) else rest
  }

  /** One entry more has been read. */
  lemma WalkStep(before: seq<Raw>, v: Bytes, p: nat, n: nat)
    requires n > 0
    ensures WalkFrom(before, v, p, n) ==
            if p + 4 > |v| then Outside
            else if Get32(v, p) != CENTRAL_SIG then BadEntry
            else if p + CENTRAL > |v| then Outside
            else
              var lo := Get32(v, p + 42);
              if lo + LOCAL > |v| then Outside
              else
                var ds := lo + LOCAL + Get16(v, lo + 26) + Get16(v, lo + 28);
                var raw := Raw(Decoded(Sub(v, p + CENTRAL, p + CENTRAL + Get16(v, p + 28))), Get16(v, p + 10),
                               Sub(v, ds, ds + Get32(v, p + 20)));
                WalkFrom(before + [raw], v, p + CENTRAL + Get16(v, p + 28) + Get16(v, p + 30) + Get16(v, p + 32), n - 1)
  {
    hide Get16, Get32, Sub, Decoded;
    if p + CENTRAL <= |v| && Get32(v, p + 42) + LOCAL <= |v| {
      var lo := Get32(v, p + 42);
      var ds := lo + LOCAL + Get16(v, lo + 26) + Get16(v, lo + 28);
      var raw := Raw(Decoded(Sub(v, p + CENTRAL, p + CENTRAL + Get16(v, p + 28))), Get16(v, p + 10),
                     Sub(v, ds, ds + Get32(v, p + 20)));
      var rest := ReadEntries(v, p + CENTRAL + Get16(v, p + 28) + Get16(v, p + 30) + Get16(v, p + 32), n - 1);
      if rest.Walked? { assert before + ([raw] + rest.raws) == before + [raw] + rest.raws; }
    }
  }

  lemma WalkEnds(before: seq<Raw>, v: Bytes, p: nat, n: nat)
    ensures WalkFrom([], v, p, n) == ReadEntries(v, p, n) && WalkFrom(before, v, p, 0) == Walked(before)
  {
    hide Get16, Get32, Sub, Decoded;
    var w := ReadEntries(v, p, n);
    if w.Walked? { assert [] + w.raws == w.raws; }
    assert before + [] == before;
  }

  method WalkDirectory(v: Bytes, p0: nat, n: nat) returns (w: Walk)
    ensures w == ReadEntries(v, p0, n)
  {
    hide Get16, Get32, Sub, Decoded, WalkFrom, ReadEntries;
    var out: seq<Raw>, p: nat := [], p0;
    WalkEnds([], v, p0, n);
    for k := 0 to n
      invariant WalkFrom(out, v, p, n - k) == ReadEntries(v, p0, n)
    {
      WalkStep(out, v, p, n - k);
      if p + 4 > |v| { return Outside; }
      if Get32(v, p) != CENTRAL_SIG { return BadEntry; }
      if p + 46 > |v| { return Outside; }
      var meth, csz, nl, xl, cl, lo := Get16(v, p + 10), Get32(v, p + 20), Get16(v, p + 28), Get16(v, p + 30),
                                       Get16(v, p + 32), Get32(v, p + 42);
      var name := Decoded(Sub(v, p + 46, p + 46 + nl));
      if lo + 30 > |v| { return Outside; }
      var ds := lo + 30 + Get16(v, lo + 26) + Get16(v, lo + 28);
      out := out + [Raw(name, meth, Sub(v, ds, ds + csz))];
      p := p + 46 + nl + xl + cl;
    }
    WalkEnds(out, v, p, 0);
    w := Walked(out);
  }

  method UnpackEntries(raws: seq<Raw>, inflate: Bytes -> Option<Bytes>) returns (out: seq<File>)
    ensures out == UnpackedAll(raws, inflate)
  {
    hide Unpacked;
    out := [];
    var i := 0;
    assert raws[0..] == raws;
    while i < |raws|
      invariant i <= |raws| && out + UnpackedAll(raws[i..], inflate) == UnpackedAll(raws, inflate)
    {
      assert raws[i..][0] == raws[i] && raws[i..][1..] == raws[i + 1..];
      var f := Unpacked(raws[i], inflate);
      if f.Some? {
        assert out + ([f.value] + UnpackedAll(raws[i + 1..], inflate)) == out + [f.value] + UnpackedAll(raws[i + 1..], inflate);
        out := out + [f.value];
      }
      i := i + 1;
    }
  }

  method Unzip(v: Bytes, inflate: Bytes -> Option<Bytes>) returns (r: Result)
    ensures r == Unzipped(v, inflate)
  {
    hide Get16, Get32, ReadEntries, FindEnd, UnpackedAll;
    var e := SearchEnd(v);
    if e < 0 { return NotAZip; }
    var w := WalkDirectory(v, Get32(v, e + 16), Get16(v, e + 10));
    match w
    case BadEntry => r := Damaged;
    case Outside => r := OutOfRange;
    case Walked(raws) =>
      var out := UnpackEntries(raws, inflate);
      r := Entries(out);
  }
}
