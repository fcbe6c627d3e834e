/** The calls and the files that hold their audio agree: a call names only a file that is there, no two calls name one
    file, and a call that ended keeps its file only if it is worth one. */
module CallAudio {
  import opened StableSorts
  import opened AudioStore

  const MIN_SAMPLES: nat := 1600

  /** A call, as far as its audio goes. */
  datatype Call = Call(id: nat, open: bool, encrypted: bool, voice: bool, data: bool, noAudio: bool, keyed: bool,
                       audio: Name, samples: nat, keep: bool)

  /** Audio worth a file: not encrypted unless decoded with a key, not a data-only call's, not too short. */
  predicate Worthy(k: Call) {
    (k.encrypted ==> k.keyed) && (k.data ==> k.voice) && k.samples >= MIN_SAMPLES
  }

  predicate DataOnly(k: Call) {
    k.data && !k.voice
  }

  /** Every named file is in the folder, or among those just evicted. */
  ghost predicate NamesHeld(calls: seq<Call>, folder: map<Name, File>, gone: seq<Name>) {
    forall i :: 0 <= i < |calls| && calls[i].audio != "" ==> calls[i].audio in folder || calls[i].audio in gone
  }

  ghost predicate NamesApart(calls: seq<Call>) {
    forall i, j :: 0 <= i < j < |calls| && calls[i].audio != "" ==> calls[i].audio != calls[j].audio
  }

  ghost predicate ClosedWorthy(calls: seq<Call>) {
    forall i :: 0 <= i < |calls| && !calls[i].open && calls[i].audio != "" ==> Worthy(calls[i])
  }

  /** The keep flag, which saves a call from rolling off the list, tells which calls have a file. */
  predicate KeptAlike(calls: seq<Call>) {
    forall i :: 0 <= i < |calls| ==> (calls[i].keep <==> calls[i].audio != "")
  }

  ghost predicate Tidy(calls: seq<Call>, folder: map<Name, File>, gone: seq<Name>) {
    NamesHeld(calls, folder, gone) && NamesApart(calls) && ClosedWorthy(calls) && KeptAlike(calls)
  }

  /** The files of the open calls. */
  function OpenAudio(calls: seq<Call>): set<Name> {
    set i | 0 <= i < |calls| && calls[i].open :: calls[i].audio
  }

  /** Some names, once a call's file changes from one name to another, "" for none. */
  function Renamed(names: set<Name>, before: Name, after: Name): set<Name> {
    if before == after then names else if after == "" then names - {before} else names + {after}
  }

  /** A call that ends loses its audio unless it is worth keeping. */
  function Ended(k: Call): Call {
    var c := k.(open := false);
    if !k.open || k.audio == "" || Worthy(c) then c else Silenced(c)
  }

  /** The twin after the duplicate joined it; of two files it keeps its own. */
  function Joined(twin: Call, dup: Call): (t: Call)
    ensures t.open == twin.open && t.audio == if twin.audio == "" then dup.audio else twin.audio
  {
    var t := twin.(voice := twin.voice || dup.voice, data := twin.data || dup.data,
                   encrypted := twin.encrypted || dup.encrypted, keep := twin.keep || dup.keep);
    if twin.audio == "" && dup.audio != "" then t.(audio := dup.audio, samples := dup.samples) else t
  }

  function Folded(calls: seq<Call>, i: nat, j: nat): seq<Call>
    requires i < |calls| && j < |calls|
  {
    var c := calls[j := Joined(calls[j], calls[i])];
    c[..i] + c[i + 1..]
  }

  function Silenced(k: Call): Call {
    k.(audio := "", samples := 0, keep := false)
  }

  /** The calls without the audio that is gone. */
  function Dropped(calls: seq<Call>, gone: seq<Name>): (r: seq<Call>)
    ensures |r| == |calls|
    ensures forall i :: 0 <= i < |calls| ==>
              r[i] == if calls[i].audio != "" && calls[i].audio in gone then Silenced(calls[i]) else calls[i]
  {
    seq(|calls|, i requires 0 <= i < |calls| =>
      if calls[i].audio != "" && calls[i].audio in gone then Silenced(calls[i]) else calls[i])
  }

  lemma DroppedTidy(calls: seq<Call>, folder: map<Name, File>, gone: seq<Name>)
    requires Tidy(calls, folder, gone)
    ensures Tidy(Dropped(calls, gone), folder, [])
  {
  }

  /** The folder lost files, all of them among those gone. */
  lemma EvictedTidy(calls: seq<Call>, folder: map<Name, File>, later: map<Name, File>, before: seq<Name>, gone: seq<Name>)
    requires Tidy(calls, folder, before) && forall n :: n in folder ==> n in later || n in gone
    requires before <= gone
    ensures Tidy(calls, later, gone)
  {
    assert forall n :: n in before ==> n in gone;
  }

  /** One call's audio changes: dropped, or another file no other call names. */
  lemma SetTidy(calls: seq<Call>, i: nat, k: Call, folder: map<Name, File>, gone: seq<Name>)
    requires i < |calls| && Tidy(calls, folder, gone) && (k.keep <==> k.audio != "")
    requires k.audio == "" || (k.audio in folder && forall j :: 0 <= j < |calls| && j != i ==> calls[j].audio != k.audio)
    requires !k.open && k.audio != "" ==> Worthy(k)
    ensures Tidy(calls[i := k], folder, gone)
  {
  }

  /** The file of call i is deleted and the call silenced. */
  lemma DiscardTidy(calls: seq<Call>, i: nat, k: Call, folder: map<Name, File>)
    requires i < |calls| && Tidy(calls, folder, []) && k.audio == "" && !k.keep
    ensures Tidy(calls[i := k], if calls[i].audio == "" then folder else folder - {calls[i].audio}, [])
  {
  }

  lemma RemoveTidy(calls: seq<Call>, i: nat, folder: map<Name, File>)
    requires i < |calls| && Tidy(calls, folder, [])
    ensures Tidy(calls[..i] + calls[i + 1..], folder, [])
  {
    var r := calls[..i] + calls[i + 1..];
    assert forall j :: 0 <= j < |r| ==> r[j] == calls[if j < i then j else j + 1];
  }

  /** Drop every name of `gone` from the call that has it. */
  method Reconcile(calls0: seq<Call>, gone: seq<Name>) returns (calls: seq<Call>)
    requires NamesApart(calls0) && "" !in gone
    ensures calls == Dropped(calls0, gone)
  {
    calls := calls0;
    assert Dropped(calls0, []) == calls0;
    for g := 0 to |gone|
      invariant calls == Dropped(calls0, gone[..g])
    {
      var name := gone[g];
      assert gone[..g + 1] == gone[..g] + [name];
      var i := 0;
      while i < |calls| && calls[i].audio != name
        invariant i <= |calls| && forall j :: 0 <= j < i ==> calls[j].audio != name
      {
        i := i + 1;
      }
      DropOne(calls0, gone[..g], name, i);
      if i < |calls| { calls := calls[i := Silenced(calls[i])]; }
    }
    assert gone[..|gone|] == gone;
  }

  lemma DropOne(calls: seq<Call>, gone: seq<Name>, name: Name, i: nat)
    requires NamesApart(calls) && name != "" && i <= |calls|
    requires var d := Dropped(calls, gone);
             (forall j :: 0 <= j < i ==> d[j].audio != name) && (i < |calls| ==> d[i].audio == name)
    ensures var d := Dropped(calls, gone);
            Dropped(calls, gone + [name]) == if i < |calls| then d[i := Silenced(d[i])] else d
  {
    var d := Dropped(calls, gone);
    forall j | 0 <= j < |calls| ensures calls[j].audio == name && name !in gone ==> j == i {
      if i < |calls| && calls[j].audio == name { assert calls[i].audio == name; }
      if calls[j].audio == name && name !in gone { assert d[j].audio == name; }
    }
  }

  function HeldTotal(held: seq<nat>): nat {
    if held == [] then 0 else HeldTotal(held[..|held| - 1]) + held[|held| - 1]
  }

  /** A call after a block of voice, whose file, if it needs one, can be created or not. */
  function Recorded(k: Call, n: nat, held: seq<nat>, audible: bool, mine: bool, keyed: bool, name: Name, creates: bool): (c: Call)
    ensures c.open == k.open
  {
    if k.noAudio then k
    else if k.encrypted && !keyed then k.(noAudio := true, audio := "", keep := false)
    else
      var c := k.(keyed := k.keyed || keyed);
      if c.audio == "" then
        if audible && creates then c.(audio := name, keep := true, samples := c.samples + HeldTotal(held) + n) else c
      else if mine then c.(samples := c.samples + n)
      else c
  }

  /** Whether a file can be created: the folder lets it, and the name is well formed and not being written to. */
  predicate CanCreate(name: Name, creates: bool, open: set<Name>) {
    creates && ValidName(name) && name !in open
  }

  /** Whether a block has a file created for its call. */
  predicate Starts(k: Call, audible: bool, keyed: bool, can: bool) {
    !k.noAudio && (k.encrypted ==> keyed) && k.audio == "" && audible && can
  }

  function Flagged(k: Call, encrypted: bool, voice: bool, data: bool): (c: Call)
    ensures c.open == k.open && c.audio == k.audio
  {
    k.(encrypted := k.encrypted || encrypted, voice := k.voice || voice, data := k.data || data)
  }

  // ---- a call from a fold on ----

  /** What may happen to an open call: a block of voice, or a line that flags it. */
  datatype Doing = Sample(n: nat, held: seq<nat>, audible: bool, mine: bool, keyed: bool, name: Name, creates: bool)
                 | Flag(encrypted: bool, voice: bool, data: bool)

  function Does(k: Call, d: Doing): (c: Call)
    ensures c.open == k.open
  {
    match d
    case Sample(n, held, audible, mine, keyed, name, creates) => Recorded(k, n, held, audible, mine, keyed, name, creates)
    case Flag(encrypted, voice, data) => Flagged(k, encrypted, voice, data)
  }

  function DoesAll(k: Call, ds: seq<Doing>): (c: Call)
    ensures c.open == k.open
  {
    if ds == [] then k else Does(DoesAll(k, ds[..|ds| - 1]), ds[|ds| - 1])
  }

  predicate EncryptedBy(k: Call, ds: seq<Doing>) {
    k.encrypted || exists i :: 0 <= i < |ds| && ds[i].Flag? && ds[i].encrypted
  }

  predicate VoiceBy(k: Call, ds: seq<Doing>) {
    k.voice || exists i :: 0 <= i < |ds| && ds[i].Flag? && ds[i].voice
  }

  predicate DataBy(k: Call, ds: seq<Doing>) {
    k.data || exists i :: 0 <= i < |ds| && ds[i].Flag? && ds[i].data
  }

  predicate KeyedBy(k: Call, ds: seq<Doing>) {
    k.keyed || exists i :: 0 <= i < |ds| && ds[i].Sample? && ds[i].keyed
  }

  /** A block without a key came while the call was encrypted. */
  predicate Barred(k: Call, ds: seq<Doing>) {
    exists i :: 0 <= i < |ds| && ds[i].Sample? && !ds[i].keyed && EncryptedBy(k, ds[..i])
  }

  /** The samples of the recording's own blocks. */
  function OwnSamples(ds: seq<Doing>): nat {
    if ds == [] then 0
    else OwnSamples(ds[..|ds| - 1]) + if ds[|ds| - 1].Sample? && ds[|ds| - 1].mine then ds[|ds| - 1].n else 0
  }

  /** What ds leaves of a call with a recording. */
  function Told(k: Call, ds: seq<Doing>): Call {
    k.(encrypted := EncryptedBy(k, ds), voice := VoiceBy(k, ds), data := DataBy(k, ds),
       keyed := if k.noAudio then k.keyed else KeyedBy(k, ds),
       samples := k.samples + if k.noAudio then 0 else OwnSamples(ds))
  }

  lemma OneDoingMore(k: Call, ds: seq<Doing>)
    requires ds != []
    ensures var before, d := ds[..|ds| - 1], ds[|ds| - 1];
            && EncryptedBy(k, ds) == (EncryptedBy(k, before) || (d.Flag? && d.encrypted))
            && VoiceBy(k, ds) == (VoiceBy(k, before) || (d.Flag? && d.voice))
            && DataBy(k, ds) == (DataBy(k, before) || (d.Flag? && d.data))
            && KeyedBy(k, ds) == (KeyedBy(k, before) || (d.Sample? && d.keyed))
  {
    var before := ds[..|ds| - 1];
    assert forall i :: 0 <= i < |before| ==> before[i] == ds[i];
  }

  lemma OneBlockMore(k: Call, ds: seq<Doing>)
    requires ds != []
    ensures var before, d := ds[..|ds| - 1], ds[|ds| - 1];
            Barred(k, ds) == (Barred(k, before) || (d.Sample? && !d.keyed && EncryptedBy(k, before)))
  {
    hide EncryptedBy;
    var before := ds[..|ds| - 1];
    assert forall i :: 0 <= i < |before| ==> before[i] == ds[i] && before[..i] == ds[..i];
    assert ds[..|ds| - 1] == before;
    if Barred(k, before) {
      var i :| 0 <= i < |before| && before[i].Sample? && !before[i].keyed && EncryptedBy(k, before[..i]);
      assert ds[i].Sample? && !ds[i].keyed && EncryptedBy(k, ds[..i]);
    }
    if Barred(k, ds) {
      var i :| 0 <= i < |ds| && ds[i].Sample? && !ds[i].keyed && EncryptedBy(k, ds[..i]);
      assert i < |before| ==> before[i].Sample? && !before[i].keyed && EncryptedBy(k, before[..i]);
    }
  }

  /** One more thing happens to a call with a recording. */
  lemma ToldStep(k: Call, ds: seq<Doing>)
    requires ds != [] && k.audio != "" && (k.noAudio || !Barred(k, ds[..|ds| - 1]))
    ensures var c := Does(Told(k, ds[..|ds| - 1]), ds[|ds| - 1]);
            if !k.noAudio && Barred(k, ds) then c.audio == "" && c.noAudio else c == Told(k, ds)
  {
    hide EncryptedBy, VoiceBy, DataBy, KeyedBy, Barred;
    OneDoingMore(k, ds);
    OneBlockMore(k, ds);
  }

  lemma BarredStays(c: Call, d: Doing)
    requires c.audio == "" && c.noAudio
    ensures Does(c, d).audio == "" && Does(c, d).noAudio
  {
  }

  lemma NothingTold(k: Call)
    ensures Told(k, []) == k && !Barred(k, []) && DoesAll(k, []) == k
  {
  }

  /** A recording is kept through whatever happens, or gone with its call barred from audio. */
  lemma {:induction false} ToldAfter(k: Call, ds: seq<Doing>)
    requires k.audio != ""
    ensures var c := DoesAll(k, ds);
            if !k.noAudio && Barred(k, ds) then c.audio == "" && c.noAudio else c == Told(k, ds)
  {
    hide Does, Told, Barred;
    if ds == [] {
      NothingTold(k);
    } else {
      var before := ds[..|ds| - 1];
      ToldAfter(k, before);
      if !k.noAudio && Barred(k, before) {
        OneBlockMore(k, ds);
        BarredStays(DoesAll(k, before), ds[|ds| - 1]);
      } else {
        ToldStep(k, ds);
      }
    }
  }

  /** The recording a twin takes over survives the twin's end exactly if no block without a key came while either call
      was encrypted; and, should one be encrypted, the twin was itself decoded with a key before the fold or is
      after it, whatever the duplicate was; and it is no data-only call, and long enough.  A twin barred from audio
      before the fold takes part in no block after it. */
  predicate Survives(twin: Call, dup: Call, ds: seq<Doing>) {
    && (twin.noAudio || !(Barred(twin, ds) || (dup.encrypted && exists i :: 0 <= i < |ds| && ds[i].Sample? && !ds[i].keyed)))
    && (dup.encrypted || EncryptedBy(twin, ds) ==>
          twin.keyed || (!twin.noAudio && exists i :: 0 <= i < |ds| && ds[i].Sample? && ds[i].keyed))
    && (dup.data || DataBy(twin, ds) ==> dup.voice || VoiceBy(twin, ds))
    && dup.samples + (if twin.noAudio then 0 else OwnSamples(ds)) >= MIN_SAMPLES
  }

  lemma AdoptedAudioKept(twin: Call, dup: Call, ds: seq<Doing>)
    requires twin.open && twin.audio == "" && dup.audio != ""
    ensures Ended(DoesAll(Joined(twin, dup), ds)).audio == if Survives(twin, dup, ds) then dup.audio else ""
  {
    hide DoesAll, EncryptedBy, VoiceBy, DataBy, Barred, OwnSamples;
    ToldAfter(Joined(twin, dup), ds);
    JoinedFlags(twin, dup, ds);
    JoinedBarred(twin, dup, ds);
  }

  lemma JoinedFlags(twin: Call, dup: Call, ds: seq<Doing>)
    ensures var t := Joined(twin, dup);
            && EncryptedBy(t, ds) == (dup.encrypted || EncryptedBy(twin, ds))
            && VoiceBy(t, ds) == (dup.voice || VoiceBy(twin, ds)) && DataBy(t, ds) == (dup.data || DataBy(twin, ds))
  {
  }

  lemma JoinedBarred(twin: Call, dup: Call, ds: seq<Doing>)
    ensures Barred(Joined(twin, dup), ds)
            == (Barred(twin, ds) || (dup.encrypted && exists i :: 0 <= i < |ds| && ds[i].Sample? && !ds[i].keyed))
  {
    hide Joined, EncryptedBy;
    var t := Joined(twin, dup);
    forall i | 0 <= i < |ds| ensures EncryptedBy(t, ds[..i]) == (dup.encrypted || EncryptedBy(twin, ds[..i])) {
      JoinedFlags(twin, dup, ds[..i]);
    }
    if Barred(t, ds) {
      var i :| 0 <= i < |ds| && ds[i].Sample? && !ds[i].keyed && EncryptedBy(t, ds[..i]);
      assert dup.encrypted || EncryptedBy(twin, ds[..i]);
    }
    if Barred(twin, ds) {
      var i :| 0 <= i < |ds| && ds[i].Sample? && !ds[i].keyed && EncryptedBy(twin, ds[..i]);
      assert EncryptedBy(t, ds[..i]);
    }
    if dup.encrypted && exists i :: 0 <= i < |ds| && ds[i].Sample? && !ds[i].keyed {
      var i :| 0 <= i < |ds| && ds[i].Sample? && !ds[i].keyed;
      assert EncryptedBy(t, ds[..i]);
    }
  }

  // ---- a call from its first block on ----

  /** A block that gives its call a file, should it have none. */
  predicate Audible(d: Doing) {
    d.Sample? && d.audible && d.creates
  }

  /** Where the first such block is; |ds| without one. */
  function FirstAudible(ds: seq<Doing>): (m: nat)
    ensures m <= |ds| && (m < |ds| ==> Audible(ds[m])) && forall i :: 0 <= i < m ==> !Audible(ds[i])
  {
    if ds == [] then 0
    else
      var m := FirstAudible(ds[..|ds| - 1]);
      if m < |ds| - 1 || Audible(ds[|ds| - 1]) then m else |ds|
  }

  /** What ds leaves of a call without a recording: none, and no other, once a block came without a key while it was
      encrypted; else none before an audible block whose file could be created; else that block's file, with what was
      held back before it, the block itself, and every later block of the same recording. */
  ghost predicate RecordedBy(k: Call, ds: seq<Doing>, c: Call) {
    var m := FirstAudible(ds);
    if Barred(k, ds) then c.audio == "" && c.noAudio && !c.keep
    else
      && c.encrypted == EncryptedBy(k, ds) && c.keyed == KeyedBy(k, ds) && !c.noAudio
      && if m == |ds| then c.audio == "" && !c.keep && c.samples == k.samples
         else c.audio == ds[m].name && c.keep
              && c.samples == k.samples + HeldTotal(ds[m].held) + ds[m].n + OwnSamples(ds[m + 1..])
  }

  lemma {:induction false} RecordingBegins(k: Call, ds: seq<Doing>)
    requires k.audio == "" && !k.noAudio && !k.keep
    requires forall i :: 0 <= i < |ds| && ds[i].Sample? ==> ds[i].name != ""
    ensures RecordedBy(k, ds, DoesAll(k, ds))
  {
    hide *;
    if ds == [] {
      NothingRecorded(k);
    } else {
      var before, d := ds[..|ds| - 1], ds[|ds| - 1];
      RecordingBegins(k, before);
      assert before + [d] == ds;
      LastDoing(k, ds, |ds| - 1);
      FirstIsSample(before);
      if d.Flag? {
        FlagRecorded(k, before, d, DoesAll(k, before));
      } else {
        BlockRecorded(k, before, d, DoesAll(k, before));
      }
      assert ds[..|ds|] == ds;
    }
  }

  lemma NothingRecorded(k: Call)
    requires k.audio == "" && !k.noAudio && !k.keep
    ensures RecordedBy(k, [], DoesAll(k, []))
  {
  }

  lemma FirstLater(before: seq<Doing>, d: Doing)
    ensures var m := FirstAudible(before);
            FirstAudible(before + [d]) == if m < |before| || Audible(d) then m else m + 1
  {
    hide Audible;
    assert (before + [d])[..|before|] == before;
  }

  lemma OwnLater(before: seq<Doing>, d: Doing, m: nat)
    requires m < |before|
    ensures OwnSamples((before + [d])[m + 1..]) == OwnSamples(before[m + 1..]) + if d.Sample? && d.mine then d.n else 0
  {
    var later := (before + [d])[m + 1..];
    assert later[..|later| - 1] == before[m + 1..] && later[|later| - 1] == d;
  }

  lemma NoneLater(before: seq<Doing>, d: Doing)
    ensures OwnSamples((before + [d])[|before| + 1..]) == 0
  {
  }

  lemma FirstIsSample(ds: seq<Doing>)
    ensures FirstAudible(ds) < |ds| ==> ds[FirstAudible(ds)].Sample?
  {
    hide FirstAudible;
  }

  lemma FlagRecorded(k: Call, before: seq<Doing>, d: Doing, c: Call)
    requires d.Flag? && RecordedBy(k, before, c)
    ensures RecordedBy(k, before + [d], Does(c, d))
  {
    hide EncryptedBy, KeyedBy, Barred, OwnSamples, FirstAudible, HeldTotal;
    var ds, m := before + [d], FirstAudible(before);
    assert ds[..|ds| - 1] == before;
    OneDoingMore(k, ds);
    OneBlockMore(k, ds);
    FirstLater(before, d);
    if m < |before| { OwnLater(before, d, m); }
  }

  lemma BlockBars(c: Call, d: Doing)
    requires d.Sample? && (c.noAudio || (c.encrypted && !d.keyed))
    ensures var r := Does(c, d); if c.noAudio then r == c else r.audio == "" && r.noAudio && !r.keep
  {
    hide HeldTotal;
  }

  lemma BlockStarts(c: Call, d: Doing)
    requires d.Sample? && !c.noAudio && (c.encrypted ==> d.keyed) && c.audio == ""
    ensures var r := Does(c, d);
            && !r.noAudio && r.encrypted == c.encrypted && r.keyed == (c.keyed || d.keyed)
            && if Audible(d) then r.audio == d.name && r.keep && r.samples == c.samples + HeldTotal(d.held) + d.n
               else r.audio == "" && r.keep == c.keep && r.samples == c.samples
  {
    hide HeldTotal;
  }

  lemma BlockGoesOn(c: Call, d: Doing)
    requires d.Sample? && !c.noAudio && (c.encrypted ==> d.keyed) && c.audio != ""
    ensures var r := Does(c, d);
            && !r.noAudio && r.encrypted == c.encrypted && r.keyed == (c.keyed || d.keyed)
            && r.audio == c.audio && r.keep == c.keep && r.samples == c.samples + if d.mine then d.n else 0
  {
    hide HeldTotal;
  }

  lemma BlockRecorded(k: Call, before: seq<Doing>, d: Doing, c: Call)
    requires d.Sample? && d.name != "" && RecordedBy(k, before, c)
    requires FirstAudible(before) < |before| ==> before[FirstAudible(before)].Sample? && before[FirstAudible(before)].name != ""
    ensures RecordedBy(k, before + [d], Does(c, d))
  {
    hide EncryptedBy, KeyedBy, Barred, OwnSamples, FirstAudible, HeldTotal, Does, Audible;
    var ds, m := before + [d], FirstAudible(before);
    assert ds[..|ds| - 1] == before;
    OneDoingMore(k, ds);
    OneBlockMore(k, ds);
    FirstLater(before, d);
    if c.noAudio || (c.encrypted && !d.keyed) {
      BlockBars(c, d);
    } else if c.audio == "" {
      BlockStarts(c, d);
    } else {
      BlockGoesOn(c, d);
    }
    NoneLater(before, d);
    if m < |before| { OwnLater(before, d, m); }
  }

  /** A call that ends keeps a recording exactly if it is not encrypted or was decoded with a key, is not data alone,
      and is at least a fifth of a second long at 8000 samples a second; else it has none, of no length, and no keep
      flag. */
  lemma EndKeepsOrClears(k: Call)
    requires k.open && k.audio != ""
    ensures var c := Ended(k);
            && !c.open && (c.encrypted, c.voice, c.data, c.keyed) == (k.encrypted, k.voice, k.data, k.keyed)
            && if (!k.encrypted || k.keyed) && (!k.data || k.voice) && k.samples * 5 >= 8000
               then (c.audio, c.samples, c.keep) == (k.audio, k.samples, k.keep)
               else (c.audio, c.samples, c.keep) == ("", 0, false)
  {
  }

  /** Of a call that was recorded as k: it has its file still, which is being written, or is barred and has none. */
  predicate Followed(k: Call, c: Call, folder: set<Name>, open: set<Name>) {
    if c.audio == "" then c.noAudio && k.audio !in folder
    else c.audio == k.audio && c.audio in folder && c.audio in open
  }

  lemma FollowedFirst(k: Call, folder: set<Name>, open: set<Name>)
    requires k.audio != "" && k.audio in folder && k.audio in open
    ensures Followed(k, k, folder, open) && DoesAll(k, []) == k
  {
  }

  lemma LastDoing(k: Call, ds: seq<Doing>, m: nat)
    requires m < |ds|
    ensures DoesAll(k, ds[..m + 1]) == Does(DoesAll(k, ds[..m]), ds[m])
  {
    assert ds[..m + 1][..m] == ds[..m];
  }

  lemma FlagFollows(k: Call, c: Call, d: Doing, folder: set<Name>, open: set<Name>)
    requires d.Flag? && Followed(k, c, folder, open)
    ensures Does(c, d) == Flagged(c, d.encrypted, d.voice, d.data) && Followed(k, Does(c, d), folder, open)
  {
  }

  lemma NoStart(k: Call, c: Call, d: Doing, can: bool, folder: set<Name>, open: set<Name>)
    requires d.Sample? && Followed(k, c, folder, open)
    ensures !Starts(c, d.audible, d.keyed, can)
    ensures Recorded(c, d.n, d.held, d.audible, d.mine, d.keyed, d.name, can) == Does(c, d)
  {
  }

  lemma BlockFollows(k: Call, c: Call, d: Doing, calls: seq<Call>, i: nat, lost: seq<Name>, folder: set<Name>, open: set<Name>,
                     folder': set<Name>, open': set<Name>)
    requires d.Sample? && Followed(k, c, folder, open) && i < |calls|
    requires open' == Renamed(open, c.audio, Does(c, d).audio) && open' <= folder'
    requires folder' == Renamed(folder, c.audio, Does(c, d).audio) - (set m | m in lost)
    ensures Dropped(calls[i := Does(c, d)], lost)[i] == Does(c, d) && Followed(k, Does(c, d), folder', open')
  {
    hide OwnSamples;
  }

  lemma EndFollows(c: Call, k: Call, folder: set<Name>, open: set<Name>)
    requires Followed(k, c, folder, open) && k.audio != ""
    ensures Ended(c).audio == "" || Ended(c).audio == c.audio
    ensures k.audio in Renamed(folder, c.audio, Ended(c).audio) <==> Ended(c).audio == k.audio
  {
  }

  /** How many calls have no keep flag. */
  function Unkept(calls: seq<Call>): nat {
    if calls == [] then 0 else Unkept(calls[..|calls| - 1]) + if calls[|calls| - 1].keep then 0 else 1
  }

  /** The oldest call without the keep flag; |calls| without one. */
  function FirstUnkept(calls: seq<Call>): (i: nat)
    ensures i <= |calls| && (i < |calls| ==> !calls[i].keep) && forall j :: 0 <= j < i ==> calls[j].keep
  {
    if calls == [] || !calls[0].keep then 0
    else
      var i := FirstUnkept(calls[1..]);
      assert forall j :: 0 < j < i + 1 ==> calls[j] == calls[1..][j - 1];
      i + 1
  }

  /** A full list loses its oldest call without the keep flag. */
  function RolledOff(calls: seq<Call>, max: nat): seq<Call> {
    var i := FirstUnkept(calls);
    if Unkept(calls) < max || i == |calls| then calls else calls[..i] + calls[i + 1..]
  }

  /** At most all calls are unkept, and all exactly if none has the flag; one kept call more changes nothing. */
  lemma {:induction false} UnkeptCounts(calls: seq<Call>)
    ensures Unkept(calls) <= |calls|
    ensures Unkept(calls) == |calls| <==> forall i :: 0 <= i < |calls| ==> !calls[i].keep
    ensures Unkept(calls) == 0 <==> forall i :: 0 <= i < |calls| ==> calls[i].keep
  {
    if calls != [] {
      var before := calls[..|calls| - 1];
      UnkeptCounts(before);
      assert forall i :: 0 <= i < |before| ==> before[i] == calls[i];
    }
  }

  lemma {:induction false} UnkeptSplit(a: seq<Call>, b: seq<Call>)
    ensures Unkept(a + b) == Unkept(a) + Unkept(b)
  {
    if b == [] {
      assert a + b == a;
    } else {
      UnkeptSplit(a, b[..|b| - 1]);
      assert (a + b)[..|a + b| - 1] == a + b[..|b| - 1];
    }
  }

  /** A list within its bound has room for one call more after the roll-off; with room before, nothing goes; and the
      calls with the keep flag stay, however many they are. */
  lemma RollOffMakesRoom(calls: seq<Call>, max: nat)
    requires 0 < max && Unkept(calls) <= max
    ensures var r := RolledOff(calls, max);
            && Unkept(r) < max && |calls| <= |r| + 1 && (Unkept(calls) < max ==> r == calls)
            && forall i :: 0 <= i < |calls| && calls[i].keep ==> calls[i] in r
  {
    hide Unkept;
    var i := FirstUnkept(calls);
    UnkeptCounts(calls);
    if i < |calls| {
      var a, b := calls[..i], calls[i + 1..];
      assert calls == a + ([calls[i]] + b);
      UnkeptSplit(a, [calls[i]] + b);
      UnkeptSplit([calls[i]], b);
      UnkeptSplit(a, b);
      UnkeptCounts([calls[i]]);
      OthersStay(calls, i);
    }
  }

  lemma OthersStay(calls: seq<Call>, i: nat)
    requires i < |calls|
    ensures forall j :: 0 <= j < |calls| && j != i ==> calls[j] in calls[..i] + calls[i + 1..]
  {
    var r := calls[..i] + calls[i + 1..];
    forall j | 0 <= j < |calls| && j != i ensures calls[j] in r {
      assert r[if j < i then j else j - 1] == calls[j];
    }
  }

  /** The calls of one run, and the store their files are in. */
  class CallRecorder {
    const store: CallAudioStore
    var calls: seq<Call>

    /** Calls and files agree, but for the files just evicted; every file being written is an open call's. */
    ghost predicate Pending()
      reads this, store
    {
      && store.Valid() && Tidy(calls, store.folder, store.evicted)
      && "" !in store.folder && "" !in store.evicted && (forall n :: n in store.evicted ==> n !in store.folder)
      && store.open.Keys <= OpenAudio(calls)
    }

    ghost predicate Valid()
      reads this, store
    {
      Pending() && store.evicted == []
    }

    constructor (store: CallAudioStore)
      requires store.Valid() && store.evicted == [] && "" !in store.folder && store.open == map[]
      ensures Valid() && this.store == store && calls == []
    {
      this.store, calls := store, [];
    }

    /** Recording starts in a folder that lists these files; exactly the calls whose files the cap evicts on the way
        lose them.  Calls and files then agree exactly if the folder had every file a call names. */
    method StartAudio(cap: nat, maxAge: int, now: int, found: seq<Entry>)
      requires Valid() && !store.on && DistinctNames(found) && "" !in Names(found)
      modifies this, store
      ensures store.on
      ensures Valid() <==> forall i :: 0 <= i < |old(calls)| && old(calls)[i].audio != "" ==> old(calls)[i].audio in Names(found)
      ensures var r := Enforce(Sort(found, AGE), {}, Bytes(found), cap, maxAge, now);
              store.index == r.kept && calls == Dropped(old(calls), NamesOf(r.gone))
    {
      hide Dropped, Enforce, Lists, Sort, OpenAudio, OldLeft;
      store.Enable(cap, maxAge, now, found);
      ghost var was := calls;
      ghost var told := store.evicted;
      if forall i :: 0 <= i < |calls| && calls[i].audio != "" ==> calls[i].audio in Names(found) {
        FoundTidy(calls, store.folder, ListingOf(found), told);
        TakeBack();
      } else {
        var gone := store.TakeEvicted();
        calls := Reconcile(calls, gone);
        LostStays(was, store.folder, ListingOf(found), told);
      }
    }

    /** The evicted files' calls lose them. */
    method TakeBack()
      requires Pending()
      modifies this`calls, store`evicted
      ensures Valid() && calls == Dropped(old(calls), old(store.evicted))
    {
      hide Dropped, Lists, Enforce;
      DroppedTidy(calls, store.folder, store.evicted);
      DroppedOpen(calls, store.evicted, store.open, store.folder);
      var gone := store.TakeEvicted();
      calls := Reconcile(calls, gone);
    }

    method StopAudio()
      requires Valid()
      modifies store
      ensures Valid() && !store.on && store.open == map[] && store.index == old(store.index)
    {
      hide Lists;
      ghost var was := store.folder;
      store.Disable();
      SameKeys(calls, was, store.folder, []);
    }

    method OpenCall(id: nat)
      requires Valid()
      modifies this`calls
      ensures Valid() && calls == old(calls) + [Call(id, true, false, false, false, false, false, "", 0, false)]
    {
      hide Lists, Written;
      var k := Call(id, true, false, false, false, false, false, "", 0, false);
      MoreOpen(calls, k);
      calls := calls + [k];
    }

    /** Lines flag an open call encrypted, voice or data. */
    method Refine(i: nat, encrypted: bool, voice: bool, data: bool)
      requires Valid() && i < |calls| && calls[i].open
      modifies this`calls
      ensures Valid()
      ensures calls == old(calls)[i := Flagged(old(calls)[i], encrypted, voice, data)]
    {
      hide Lists, Written, Tidy, OpenAudio;
      var k := Flagged(calls[i], encrypted, voice, data);
      SetOpen(calls, i, k, store.folder, []);
      calls := calls[i := k];
    }

    /** The call ends: its file is final, or deleted when it is not worth one. */
    method Close(i: nat)
      requires Valid() && i < |calls|
      modifies this`calls, store
      ensures Valid() && calls == old(calls)[i := Ended(old(calls)[i])]
      ensures store.folder.Keys == Renamed(old(store.folder).Keys, old(calls)[i].audio, calls[i].audio)
      ensures store.open.Keys == if old(calls)[i].open then old(store.open).Keys - {old(calls)[i].audio} else old(store.open).Keys
    {
      hide Lists, Tidy, OpenAudio;
      if !calls[i].open { return; }
      var k := calls[i].(open := false);
      EndedOpen(calls, i, store.open.Keys);
      KeepTells(calls, i, store.folder);
      if k.audio == "" {
        SetTidy(calls, i, k, store.folder, []);
        calls := calls[i := k];
      } else if (k.encrypted && !k.keyed) || DataOnly(k) || k.samples < MIN_SAMPLES {
        DiscardTidy(calls, i, Silenced(k), store.folder);
        store.Discard(k.audio);
        calls := calls[i := Silenced(k)];
      } else {
        OwnName(calls, i, store.folder);
        SetTidy(calls, i, k, store.folder, []);
        ghost var was := store.folder;
        store.Finish(k.audio);
        calls := calls[i := k];
        SameKeys(calls, was, store.folder, []);
      }
    }

    /** The duplicate i is folded into the twin j and dropped; the twin's file stays, else it takes the duplicate's. */
    method Adopt(i: nat, j: nat)
      requires Valid() && i < |calls| && j < |calls| && i != j && calls[j].open
      modifies this`calls, store
      ensures Valid() && calls == Folded(old(calls), i, j)
      ensures store.on == old(store.on)
      ensures if old(calls)[i].audio == "" || old(calls)[j].audio == ""
              then store.folder == old(store.folder) && store.open == old(store.open)
              else store.folder == old(store.folder) - {old(calls)[i].audio} && store.open == old(store.open) - {old(calls)[i].audio}
    {
      hide Lists, Written, Tidy, Joined, Folded, OpenAudio;
      var dup, twin := calls[i], calls[j];
      FoldedTidy(calls, i, j, store.folder);
      FoldedOpen(calls, i, j, store.open, store.folder);
      if dup.audio != "" && twin.audio != "" { store.Discard(dup.audio); }
      calls := Folded(calls, i, j);
    }

    /** A full list: the oldest call without the keep flag ends and rolls off; it has no file. */
    method RollOff(max: nat)
      requires Valid()
      modifies this`calls, store
      ensures Valid() && calls == RolledOff(old(calls), max)
      ensures store.folder.Keys == old(store.folder).Keys && store.open.Keys == old(store.open).Keys
    {
      hide Lists, Tidy, OpenAudio, Written, Unkept;
      var unkept := CountUnkept(calls);
      if unkept < max { return; }
      var i := FindUnkept(calls);
      if i < |calls| {
        UnkeptSilent(calls, i, store.folder, store.open);
        Close(i);
        RemoveTidy(calls, i, store.folder);
        RemoveOpen(calls, i, store.open.Keys);
        calls := calls[..i] + calls[i + 1..];
      }
    }

    /** A block of voice for the open call i: n samples, after those held from before its call was known.  Where a
        file is created, no finished file has its name.  What the cap then evicts, its calls lose. */
    method Block(i: nat, n: nat, held: seq<nat>, audible: bool, mine: bool, keyed: bool, name: Name, creates: bool, now: int)
      returns (ghost lost: seq<Name>)
      requires Valid() && i < |calls| && calls[i].open && n > 0
      requires store.on && Starts(calls[i], audible, keyed, CanCreate(name, creates, store.open.Keys)) ==> name !in store.folder
      modifies this`calls, store
      ensures Valid() && store.on == old(store.on)
      ensures !old(store.on) ==> calls == old(calls) && store.folder == old(store.folder)
      ensures old(store.on) ==>
                var can := CanCreate(name, creates, old(store.open).Keys);
                var k, c := old(calls)[i], Recorded(old(calls)[i], n, held, audible, mine, keyed, name, can);
                && calls == Dropped(old(calls)[i := c], lost)
                && store.open.Keys == Renamed(old(store.open).Keys, k.audio, c.audio)
                && store.folder.Keys == Renamed(old(store.folder).Keys, k.audio, c.audio) - (set m | m in lost)
    {
      hide Lists, Written, Tidy, ValidName, Enforce, Dropped, OpenAudio, HeldTotal;
      lost := [];
      NothingDropped(calls);
      SetAgain(calls, i);
      var k := calls[i];
      if !store.on || k.noAudio { return; }
      if k.encrypted && !keyed {
        Forbid(i);
        NothingDropped(calls);
        return;
      }
      lost := Record(i, n, held, audible, mine, keyed, name, creates, now);
    }

    /** A block that may be recorded. */
    method Record(i: nat, n: nat, held: seq<nat>, audible: bool, mine: bool, keyed: bool, name: Name, creates: bool, now: int)
      returns (ghost lost: seq<Name>)
      requires Valid() && store.on && i < |calls| && calls[i].open
      requires !calls[i].noAudio && (calls[i].encrypted ==> keyed)
      requires calls[i].audio == "" && audible && CanCreate(name, creates, store.open.Keys) ==> name !in store.folder
      modifies this`calls, store
      ensures Valid() && store.on
      ensures var can := CanCreate(name, creates, old(store.open).Keys);
              var k, c := old(calls)[i], Recorded(old(calls)[i], n, held, audible, mine, keyed, name, can);
              && calls == Dropped(old(calls)[i := c], lost)
              && store.open.Keys == Renamed(old(store.open).Keys, k.audio, c.audio)
              && store.folder.Keys == Renamed(old(store.folder).Keys, k.audio, c.audio) - (set m | m in lost)
    {
      hide Valid, ValidName, CanCreate, Dropped, HeldTotal;
      lost := [];
      NoteKey(i, keyed);
      NothingDropped(calls);
      if calls[i].audio == "" {
        if !audible { return; }
        NameGiven(name, creates, store.open.Keys);
        lost := StartVoice(i, held, n, name, creates, now);
      } else if mine {
        NoneHeld();
        lost := Voice(i, [], n, now);
      }
    }

    /** Decoded with a key: the call says so from here on. */
    method NoteKey(i: nat, keyed: bool)
      requires Valid() && i < |calls| && calls[i].open
      modifies this`calls
      ensures Valid() && calls == old(calls)[i := old(calls)[i].(keyed := old(calls)[i].keyed || keyed)]
    {
      hide Lists, Written, Tidy, OpenAudio;
      var k := calls[i].(keyed := calls[i].keyed || keyed);
      SetOpen(calls, i, k, store.folder, []);
      calls := calls[i := k];
    }

    /** The call gets its file, if that can be created, and the block goes in. */
    method StartVoice(i: nat, held: seq<nat>, n: nat, name: Name, creates: bool, now: int) returns (ghost lost: seq<Name>)
      requires Valid() && store.on && i < |calls| && calls[i].open && calls[i].audio == ""
      requires CanCreate(name, creates, store.open.Keys) ==> name !in store.folder
      modifies this`calls, store
      ensures Valid() && store.on
      ensures var can := CanCreate(name, creates, old(store.open).Keys);
              var c := old(calls)[i].(audio := name, keep := true, samples := old(calls)[i].samples + HeldTotal(held) + n);
              && calls == Dropped(if can then old(calls)[i := c] else old(calls), lost)
              && store.open.Keys == old(store.open).Keys + (if can then {name} else {})
              && store.folder.Keys == old(store.folder).Keys + (if can then {name} else {}) - (set m | m in lost)
    {
      hide Valid, ValidName, CanCreate, Dropped, HeldTotal;
      lost := [];
      var ok := StartFile(i, name, creates, now);
      if ok {
        ghost var k := calls[i];
        lost := Voice(i, held, n, now);
        SetTwice(old(calls), i, k, k.(samples := k.samples + HeldTotal(held) + n));
      } else {
        NothingDropped(calls);
        NothingLost(store.folder.Keys);
      }
    }

    /** Held audio and the block go into the call's file. */
    method Voice(i: nat, held: seq<nat>, n: nat, now: int) returns (ghost lost: seq<Name>)
      requires Valid() && i < |calls| && calls[i].open
      modifies this`calls, store
      ensures Valid() && store.on == old(store.on)
      ensures calls == Dropped(old(calls)[i := old(calls)[i].(samples := old(calls)[i].samples + HeldTotal(held) + n)], lost)
      ensures store.open.Keys == old(store.open).Keys
      ensures store.folder.Keys == old(store.folder).Keys - (set m | m in lost)
    {
      hide Pending, Dropped, HeldTotal;
      AppendHeld(i, held, now);
      ghost var was, told := store.folder, store.evicted;
      AppendTo(i, n, now);
      lost := store.evicted;
      AccountedAgain(old(store.folder), was, store.folder, [], told, lost);
      WentExactly(old(store.folder), store.folder, lost);
      TakeBack();
    }

    /** No audio is recorded for the call any more, and its file goes. */
    method Forbid(i: nat)
      requires Valid() && i < |calls| && calls[i].open
      modifies this`calls, store
      ensures Valid() && store.on == old(store.on)
      ensures calls == old(calls)[i := old(calls)[i].(noAudio := true, audio := "", keep := false)]
      ensures store.folder.Keys == Renamed(old(store.folder).Keys, old(calls)[i].audio, "")
      ensures store.open.Keys == Renamed(old(store.open).Keys, old(calls)[i].audio, "")
    {
      hide Lists, Written, Tidy, OpenAudio;
      var k := calls[i].(noAudio := true, audio := "", keep := false);
      DiscardTidy(calls, i, k, store.folder);
      SilentOpen(calls, i, k, store.open.Keys);
      OpenNamed(store.open, store.folder);
      if calls[i].audio != "" { store.Discard(calls[i].audio); }
      calls := calls[i := k];
    }

    /** The call's file is created.  Calls and files still agree exactly if no finished file had its name. */
    method StartFile(i: nat, name: Name, creates: bool, now: int) returns (ok: bool)
      requires Valid() && store.on && i < |calls| && calls[i].open && calls[i].audio == ""
      modifies this`calls, store
      ensures ok == CanCreate(name, creates, old(store.open).Keys) && store.on
      ensures Valid() <==> !ok || name !in old(store.folder)
      ensures ok ==> calls == old(calls)[i := old(calls)[i].(audio := name, keep := true)]
      ensures !ok ==> calls == old(calls)
      ensures store.folder.Keys == old(store.folder).Keys + (if ok then {name} else {})
      ensures store.open.Keys == old(store.open).Keys + (if ok then {name} else {})
    {
      hide Lists, Tidy, ValidName, OpenAudio;
      ghost var was := store.folder;
      IndexTells(store.index, was, name);
      NameGiven(name, creates, store.open.Keys);
      ok := store.OpenFile(name, now, creates);
      if !ok { return; }
      var k := calls[i].(audio := name, keep := true);
      if name !in was {
        NewNameTidy(calls, i, k, was, store.folder, name);
        NewNameOpen(calls, i, k, store.open.Keys - {name});
      }
      calls := calls[i := k];
    }

    /** Held audio goes in first, piece by piece. */
    method AppendHeld(i: nat, held: seq<nat>, now: int)
      requires Pending() && i < |calls| && calls[i].open
      modifies this`calls, store
      ensures Pending() && calls == old(calls)[i := old(calls)[i].(samples := old(calls)[i].samples + HeldTotal(held))]
      ensures store.open.Keys == old(store.open).Keys && store.on == old(store.on)
      ensures Accounted(old(store.folder), store.folder, old(store.evicted), store.evicted)
    {
      hide Pending, Accounted;
      Unaccounted(store.folder, store.evicted);
      for h := 0 to |held|
        invariant Pending() && store.open.Keys == old(store.open).Keys && store.on == old(store.on)
        invariant calls == old(calls)[i := old(calls)[i].(samples := old(calls)[i].samples + HeldTotal(held[..h]))]
        invariant Accounted(old(store.folder), store.folder, old(store.evicted), store.evicted)
      {
        ghost var was, told := store.folder, store.evicted;
        assert held[..h + 1][..h] == held[..h];
        AppendTo(i, held[h], now);
        AccountedAgain(old(store.folder), was, store.folder, old(store.evicted), told, store.evicted);
      }
      assert held[..|held|] == held;
    }

    /** Append to call i's file; past the cap other files are evicted. */
    method AppendTo(i: nat, n: nat, now: int)
      requires Pending() && i < |calls| && calls[i].open
      modifies this`calls, store
      ensures Pending() && calls == old(calls)[i := old(calls)[i].(samples := old(calls)[i].samples + n)]
      ensures store.open.Keys == old(store.open).Keys && store.on == old(store.on)
      ensures Accounted(old(store.folder), store.folder, old(store.evicted), store.evicted)
    {
      hide Lists, Written, Tidy, Enforce, OpenAudio;
      ghost var was, told := store.folder, store.evicted;
      store.Append(calls[i].audio, n, now);
      EvictedTidy(calls, was, store.folder, told, store.evicted);
      var k := calls[i].(samples := calls[i].samples + n);
      SetOpen(calls, i, k, store.folder, store.evicted);
      calls := calls[i := k];
    }

    lemma OpenHeld(name: Name)
      requires Valid() && name in store.open
      ensures name != "" && name in store.folder
    {
    }

    /** Blocks and flags for an open call whose file is being written. */
    method Happen(i: nat, ds: seq<Doing>, now: int)
      requires Valid() && store.on && i < |calls| && calls[i].open && calls[i].audio in store.open
      requires forall m :: 0 <= m < |ds| && ds[m].Sample? ==> ds[m].n > 0
      modifies this`calls, store
      ensures Valid() && |calls| == |old(calls)| && calls[i] == DoesAll(old(calls)[i], ds)
      ensures Followed(old(calls)[i], calls[i], store.folder.Keys, store.open.Keys)
    {
      hide Valid, Does, DoesAll, Starts, Recorded, Dropped, Renamed, ValidName, Followed;
      var k := calls[i];
      OpenHeld(k.audio);
      FollowedFirst(k, store.folder.Keys, store.open.Keys);
      for m := 0 to |ds|
        invariant Valid() && store.on && |calls| == |old(calls)| && calls[i] == DoesAll(k, ds[..m])
        invariant Followed(k, calls[i], store.folder.Keys, store.open.Keys)
      {
        LastDoing(k, ds, m);
        HappenOne(k, i, ds[m], now);
      }
      assert ds[..|ds|] == ds;
    }

    method HappenOne(ghost k: Call, i: nat, d: Doing, now: int)
      requires Valid() && store.on && i < |calls| && calls[i].open && (d.Sample? ==> d.n > 0)
      requires Followed(k, calls[i], store.folder.Keys, store.open.Keys)
      modifies this`calls, store
      ensures Valid() && store.on && |calls| == |old(calls)| && calls[i] == Does(old(calls)[i], d)
      ensures Followed(k, calls[i], store.folder.Keys, store.open.Keys)
    {
      hide Valid, Does, Starts, Recorded, CanCreate, Renamed, ValidName, Followed;
      ghost var c, was, open := calls[i], store.folder.Keys, store.open.Keys;
      ghost var before := calls;
      match d
      case Flag(encrypted, voice, data) =>
        FlagFollows(k, c, d, was, open);
        Refine(i, encrypted, voice, data);
      case Sample(n, held, audible, mine, keyed, name, creates) =>
        NoStart(k, c, d, CanCreate(name, creates, open), was, open);
        ghost var lost := Block(i, n, held, audible, mine, keyed, name, creates, now);
        OpenInFolder();
        BlockFollows(k, c, d, before, i, lost, was, open, store.folder.Keys, store.open.Keys);
    }

    lemma OpenInFolder()
      requires Valid()
      ensures store.open.Keys <= store.folder.Keys
    {
    }

    /** A duplicate that is being recorded is folded into a twin that is not; then the twin goes on, and ends. */
    method AdoptRecording(i: nat, j: nat, ds: seq<Doing>, now: int)
      requires Valid() && store.on && i < |calls| && j < |calls| && i != j
      requires calls[i].audio in store.open && calls[j].open && calls[j].audio == ""
      requires forall m :: 0 <= m < |ds| && ds[m].Sample? ==> ds[m].n > 0
      modifies this`calls, store
      ensures Valid() && |calls| == |old(calls)| - 1
      ensures old(calls)[i].audio in store.folder <==> Survives(old(calls)[j], old(calls)[i], ds)
    {
      hide Valid, Joined, DoesAll, Survives, Ended, Followed, Renamed;
      var twin, dup := calls[j], calls[i];
      OpenHeld(dup.audio);
      AdoptedAudioKept(twin, dup, ds);
      var at := if j < i then j else j - 1;
      Adopt(i, j);
      Happen(at, ds, now);
      EndFollows(calls[at], Joined(twin, dup), store.folder.Keys, store.open.Keys);
      Close(at);
    }

    /** Forget the calls; their files stay, and when asked all files are deleted. */
    method Clear(withAudio: bool)
      requires Valid()
      modifies this`calls, store
      ensures Valid() && calls == [] && store.open == map[] && store.on == old(store.on)
      ensures store.folder.Keys == if withAudio then {} else old(store.folder).Keys
    {
      hide Lists, Written, OpenAudio;
      StillOpen(calls, store.open.Keys);
      for i := 0 to |calls|
        invariant store.Valid() && store.evicted == [] && "" !in store.folder
        invariant calls == old(calls) && store.folder.Keys == old(store.folder).Keys && store.on == old(store.on)
        invariant store.open.Keys <= OpenAudio(calls[i..])
      {
        FinishedOpen(calls, i, store.open.Keys);
        if calls[i].audio != "" { store.Finish(calls[i].audio); } else { OpenNamed(store.open, store.folder); }
      }
      NoneLeftOpen(calls[|calls|..]);
      calls := [];
      if withAudio {
        NoneOpenAllFinished(store.index, store.folder);
        assert store.open.Keys == {};
        var _, _ := store.RemoveAll();
      }
    }
  }

  method CountUnkept(calls: seq<Call>) returns (n: nat)
    ensures n == Unkept(calls)
  {
    n := 0;
    for i := 0 to |calls|
      invariant n == Unkept(calls[..i])
    {
      assert calls[..i + 1][..i] == calls[..i];
      if !calls[i].keep { n := n + 1; }
    }
    assert calls[..|calls|] == calls;
  }

  method FindUnkept(calls: seq<Call>) returns (i: nat)
    ensures i == FirstUnkept(calls)
  {
    i := 0;
    while i < |calls| && calls[i].keep
      invariant i <= |calls| && forall j :: 0 <= j < i ==> calls[j].keep
    {
      i := i + 1;
    }
  }

  /** A recording decoded with a key, long enough and worth its file, is lost: its call is folded into a twin that was
      not itself decoded with a key, and the twin ends. */
  method RecordingLost() returns (r: CallRecorder)
    ensures fresh(r) && fresh(r.store) && r.Valid() && "call_1.wav" !in r.store.folder
  {
    hide *;
    var store := new CallAudioStore();
    NoneToFind();
    store.Enable(10000, 0, 0, []);
    EmptyStart(store.folder, store.evicted);
    r := new CallRecorder(store);
    r.OpenCall(1);
    r.OpenCall(2);
    r.Refine(1, true, true, false);
    RefinedSecond(r.calls);
    OneName();
    assert store.open.Keys == {} && store.folder.Keys == {} && store.on;
    ghost var lost := r.Block(1, 1600, [], true, true, true, "call_1.wav", true, 0);
    r.OpenInFolder();
    KeyedStart(r.calls, lost, store.folder.Keys, store.open.Keys);
    r.AdoptRecording(1, 0, [], 0);
  }

  /** Calls and files come to disagree: after a clear a call of the same id and start time, and so of the same file name,
      has its file created over the finished one. */
  method AgreementBroken() returns (r: CallRecorder)
    ensures fresh(r) && fresh(r.store) && r.store.on && !r.Valid()
  {
    hide *;
    var name := "call_1.wav";
    OneName();
    var store := new CallAudioStore();
    NoneToFind();
    store.Enable(10000, 0, 0, []);
    EmptyStart(store.folder, store.evicted);
    r := new CallRecorder(store);
    r.OpenCall(1);
    CreatedFirst(name, store.open.Keys);
    var ok := r.StartFile(0, name, true, 0);
    r.Clear(false);
    r.OpenCall(1);
    CreatedFirst(name, store.open.Keys);
    ok := r.StartFile(0, name, true, 0);
  }

  lemma CreatedFirst(name: Name, open: set<Name>)
    requires ValidName(name) && open == {}
    ensures CanCreate(name, true, open)
  {
  }

  const FIRST := Call(1, true, false, false, false, false, false, "", 0, false)
  const SECOND := Call(2, true, true, true, false, false, false, "", 0, false)

  lemma RefinedSecond(calls: seq<Call>)
    requires var c := [] + [Call(1, true, false, false, false, false, false, "", 0, false)]
                         + [Call(2, true, false, false, false, false, false, "", 0, false)];
             calls == c[1 := Flagged(c[1], true, true, false)]
    ensures calls == [FIRST, SECOND] && FIRST.open && SECOND.open && FIRST.audio == "" && SECOND.audio == ""
  {
  }

  /** The second call's recording, decoded with a key, would not survive a fold into the first. */
  lemma KeyedStart(calls: seq<Call>, lost: seq<Name>, folder: set<Name>, open: set<Name>)
    requires var c := Recorded(SECOND, 1600, [], true, true, true, "call_1.wav", CanCreate("call_1.wav", true, {}));
             && calls == Dropped([FIRST, SECOND][1 := c], lost)
             && open == Renamed({}, "", c.audio)
             && folder == Renamed({}, "", c.audio) - (set m | m in lost)
    requires open <= folder
    ensures |calls| == 2 && calls[0] == FIRST && calls[1].audio == "call_1.wav" && calls[1].audio in open && Worthy(calls[1])
    ensures !Survives(calls[0], calls[1], [])
  {
    hide ValidName;
    OneName();
    assert "call_1.wav" in folder;
  }

  // ---- how they stay in agreement ----

  lemma IndexTells(index: seq<Entry>, folder: map<Name, File>, name: Name)
    requires Lists(index, folder)
    ensures name in Names(index) <==> name in folder
  {
  }

  lemma NameGiven(name: Name, creates: bool, open: set<Name>)
    ensures CanCreate(name, creates, open) ==> name != ""
  {
  }

  lemma FoundTidy(calls: seq<Call>, folder: map<Name, File>, listing: map<Name, File>, gone: seq<Name>)
    requires NamesApart(calls) && ClosedWorthy(calls) && KeptAlike(calls) && Accounted(listing, folder, [], gone)
    requires forall i :: 0 <= i < |calls| && calls[i].audio != "" ==> calls[i].audio in listing
    ensures Tidy(calls, folder, gone)
  {
  }

  /** A call whose file the folder does not have still names it. */
  lemma LostStays(calls: seq<Call>, folder: map<Name, File>, listing: map<Name, File>, gone: seq<Name>)
    requires Accounted(listing, folder, [], gone)
    requires exists i :: 0 <= i < |calls| && calls[i].audio != "" && calls[i].audio !in listing
    ensures !Tidy(Dropped(calls, gone), folder, [])
  {
    var i :| 0 <= i < |calls| && calls[i].audio != "" && calls[i].audio !in listing;
    assert Dropped(calls, gone)[i] == calls[i];
  }

  lemma NothingDropped(calls: seq<Call>)
    ensures Dropped(calls, []) == calls
  {
  }

  lemma EmptyStart(folder: map<Name, File>, evicted: seq<Name>)
    requires Accounted(ListingOf([]), folder, [], evicted)
    ensures folder == map[] && evicted == []
  {
    FirstIn(evicted);
  }

  lemma FirstIn(s: seq<Name>)
    ensures s != [] ==> s[0] in s
  {
  }

  lemma OneName()
    ensures ValidName("call_1.wav") && HeldTotal([]) == 0
  {
  }

  lemma NothingLost(names: set<Name>)
    ensures names + {} - (set m: Name | m in []) == names + {} == names
  {
  }

  lemma NoneHeld()
    ensures HeldTotal([]) == 0
  {
  }

  lemma SetTwice(calls: seq<Call>, i: nat, k: Call, l: Call)
    requires i < |calls|
    ensures calls[i := k][i := l] == calls[i := l]
  {
  }

  lemma SetAgain(calls: seq<Call>, i: nat)
    requires i < |calls|
    ensures calls[i := calls[i]] == calls
  {
  }

  lemma WentExactly(was: map<Name, File>, folder: map<Name, File>, gone: seq<Name>)
    requires Accounted(was, folder, [], gone)
    ensures folder.Keys == was.Keys - (set m | m in gone)
  {
  }

  lemma Unaccounted(folder: map<Name, File>, told: seq<Name>)
    ensures Accounted(folder, folder, told, told)
  {
  }

  /** A call without the keep flag has no file. */
  lemma UnkeptSilent(calls: seq<Call>, i: nat, folder: map<Name, File>, open: map<Name, Writer>)
    requires i < |calls| && Tidy(calls, folder, []) && !calls[i].keep && "" !in folder && Written(open, folder)
    ensures calls[i].audio == "" && Ended(calls[i]).audio == "" && open.Keys - {""} == open.Keys
  {
  }

  /** An open call may change all but its audio. */
  lemma SetOpen(calls: seq<Call>, i: nat, k: Call, folder: map<Name, File>, gone: seq<Name>)
    requires i < |calls| && Tidy(calls, folder, gone) && calls[i].open && k.open && k.audio == calls[i].audio && k.keep == calls[i].keep
    ensures Tidy(calls[i := k], folder, gone) && OpenAudio(calls[i := k]) == OpenAudio(calls)
  {
    var r := calls[i := k];
    forall n ensures n in OpenAudio(r) <==> n in OpenAudio(calls) {
      if n in OpenAudio(calls) {
        var j :| 0 <= j < |calls| && calls[j].open && calls[j].audio == n;
        assert r[j].open && r[j].audio == n;
      }
      if n in OpenAudio(r) {
        var j :| 0 <= j < |r| && r[j].open && r[j].audio == n;
        assert calls[j].open && calls[j].audio == n;
      }
    }
  }

  lemma OwnName(calls: seq<Call>, i: nat, folder: map<Name, File>)
    requires i < |calls| && Tidy(calls, folder, [])
    ensures calls[i].audio != "" ==> calls[i].audio in folder
    ensures calls[i].audio != "" ==> forall j :: 0 <= j < |calls| && j != i ==> calls[j].audio != calls[i].audio
  {
  }

  lemma FoldedTidy(calls: seq<Call>, i: nat, j: nat, folder: map<Name, File>)
    requires i < |calls| && j < |calls| && i != j && Tidy(calls, folder, []) && calls[j].open
    ensures Tidy(Folded(calls, i, j), if calls[i].audio == "" || calls[j].audio == "" then folder else folder - {calls[i].audio}, [])
  {
    hide Tidy, Joined, OpenAudio;
    var dup, twin := calls[i], calls[j];
    var silent, joined := dup.(audio := "", keep := false), Joined(twin, dup);
    var later := if dup.audio == "" || twin.audio == "" then folder else folder - {dup.audio};
    JoinedKeep(calls, i, j, folder);
    KeepTells(calls, j, folder);
    if twin.audio == "" && dup.audio != "" {
      MoveTidy(calls, i, j, joined, folder);
    } else {
      SetOpen(calls, j, joined, folder, []);
      DiscardTidy(calls[j := joined], i, silent, folder);
      assert calls[j := joined][i := silent] == calls[i := silent][j := joined];
    }
    var c := calls[i := silent][j := joined];
    RemoveTidy(c, i, later);
    var d := calls[j := joined];
    assert c[..i] == d[..i] && c[i + 1..] == d[i + 1..];
  }

  lemma JoinedKeep(calls: seq<Call>, i: nat, j: nat, folder: map<Name, File>)
    requires i < |calls| && j < |calls| && Tidy(calls, folder, [])
    ensures var t := Joined(calls[j], calls[i]); t.keep <==> t.audio != ""
  {
  }

  lemma KeepTells(calls: seq<Call>, i: nat, folder: map<Name, File>)
    requires i < |calls| && Tidy(calls, folder, [])
    ensures calls[i].keep <==> calls[i].audio != ""
  {
  }

  lemma MoveTidy(calls: seq<Call>, i: nat, j: nat, twin: Call, folder: map<Name, File>)
    requires i < |calls| && j < |calls| && i != j && Tidy(calls, folder, []) && calls[i].audio != ""
    requires twin.open && twin.audio == calls[i].audio && twin.keep
    ensures Tidy(calls[i := calls[i].(audio := "", keep := false)][j := twin], folder, [])
  {
  }

  lemma NewNameTidy(calls: seq<Call>, i: nat, k: Call, was: map<Name, File>, folder: map<Name, File>, name: Name)
    requires i < |calls| && Tidy(calls, was, []) && k.open && k.keep && k.audio == name && name != "" && name !in was
    requires was.Keys <= folder.Keys && name in folder
    ensures Tidy(calls[i := k], folder, [])
  {
  }

  lemma SameKeys(calls: seq<Call>, was: map<Name, File>, folder: map<Name, File>, gone: seq<Name>)
    requires Tidy(calls, was, gone) && was.Keys <= folder.Keys
    ensures Tidy(calls, folder, gone)
  {
  }

  // ---- every file being written is an open call's ----

  lemma OpenAt(calls: seq<Call>, i: nat)
    requires i < |calls| && calls[i].open
    ensures calls[i].audio in OpenAudio(calls)
  {
  }

  lemma DroppedOpen(calls: seq<Call>, gone: seq<Name>, open: map<Name, Writer>, folder: map<Name, File>)
    requires open.Keys <= OpenAudio(calls) && Written(open, folder) && forall n :: n in gone ==> n !in folder
    ensures open.Keys <= OpenAudio(Dropped(calls, gone))
  {
    var r := Dropped(calls, gone);
    forall n | n in open ensures n in OpenAudio(r) {
      var j :| 0 <= j < |calls| && calls[j].open && calls[j].audio == n;
      OpenAt(r, j);
    }
  }

  lemma MoreOpen(calls: seq<Call>, k: Call)
    ensures OpenAudio(calls) <= OpenAudio(calls + [k])
  {
    var r := calls + [k];
    forall n | n in OpenAudio(calls) ensures n in OpenAudio(r) {
      var j :| 0 <= j < |calls| && calls[j].open && calls[j].audio == n;
      assert r[j] == calls[j];
    }
  }

  /** Whatever becomes of call i, the files being written but its own are open calls'. */
  lemma SilentOpen(calls: seq<Call>, i: nat, k: Call, open: set<Name>)
    requires i < |calls| && open <= OpenAudio(calls)
    ensures open - {calls[i].audio} <= OpenAudio(calls[i := k])
  {
    var r := calls[i := k];
    forall n | n in open - {calls[i].audio} ensures n in OpenAudio(r) {
      var j :| 0 <= j < |calls| && calls[j].open && calls[j].audio == n;
      OpenAt(r, j);
    }
  }

  lemma EndedOpen(calls: seq<Call>, i: nat, open: set<Name>)
    requires i < |calls| && open <= OpenAudio(calls)
    ensures open - {calls[i].audio} <= OpenAudio(calls[i := Ended(calls[i])])
  {
    SilentOpen(calls, i, Ended(calls[i]), open);
  }

  lemma NewNameOpen(calls: seq<Call>, i: nat, k: Call, open: set<Name>)
    requires i < |calls| && open <= OpenAudio(calls) && k.open && calls[i].audio !in open
    ensures open + {k.audio} <= OpenAudio(calls[i := k])
  {
    SilentOpen(calls, i, k, open);
    OpenAt(calls[i := k], i);
  }

  lemma RemoveOpen(calls: seq<Call>, i: nat, open: set<Name>)
    requires i < |calls| && open <= OpenAudio(calls) && calls[i].audio !in open
    ensures open <= OpenAudio(calls[..i] + calls[i + 1..])
  {
    var r := calls[..i] + calls[i + 1..];
    forall n | n in open ensures n in OpenAudio(r) {
      var j :| 0 <= j < |calls| && calls[j].open && calls[j].audio == n;
      assert r[if j < i then j else j - 1] == calls[j];
    }
  }

  lemma FoldedOpen(calls: seq<Call>, i: nat, j: nat, open: map<Name, Writer>, folder: map<Name, File>)
    requires i < |calls| && j < |calls| && i != j && calls[j].open && open.Keys <= OpenAudio(calls)
    requires Written(open, folder) && "" !in folder
    ensures (if calls[i].audio == "" || calls[j].audio == "" then open.Keys else open.Keys - {calls[i].audio})
            <= OpenAudio(Folded(calls, i, j))
  {
    var c, r := calls[j := Joined(calls[j], calls[i])], Folded(calls, i, j);
    var at := if j < i then j else j - 1;
    assert r[at] == c[j];
    forall n | n in open && !(n == calls[i].audio && calls[j].audio != "") ensures n in OpenAudio(r) {
      var m :| 0 <= m < |calls| && calls[m].open && calls[m].audio == n;
      if m == i || m == j {
        OpenAt(r, at);
      } else {
        assert r[if m < i then m else m - 1] == calls[m];
      }
    }
  }

  lemma StillOpen(calls: seq<Call>, open: set<Name>)
    requires open <= OpenAudio(calls)
    ensures open <= OpenAudio(calls[0..])
  {
    assert calls[0..] == calls;
  }

  lemma FinishedOpen(calls: seq<Call>, i: nat, open: set<Name>)
    requires i < |calls| && open <= OpenAudio(calls[i..])
    ensures open - {calls[i].audio} <= OpenAudio(calls[i + 1..])
  {
    var s, r := calls[i..], calls[i + 1..];
    forall n | n in open - {calls[i].audio} ensures n in OpenAudio(r) {
      var j :| 0 <= j < |s| && s[j].open && s[j].audio == n;
      assert r[j - 1] == s[j];
    }
  }

  lemma NoneLeftOpen(calls: seq<Call>)
    requires calls == []
    ensures OpenAudio(calls) == {}
  {
  }

  lemma OpenNamed(open: map<Name, Writer>, folder: map<Name, File>)
    requires Written(open, folder) && "" !in folder
    ensures "" !in open
  {
  }

  /** With no file being written, every file is a finished one. */
  lemma {:induction false} AllFinished(s: seq<Entry>)
    ensures Finished(s, {}) == s
  {
    if s != [] { AllFinished(s[1..]); }
  }

  lemma NoneOpenAllFinished(index: seq<Entry>, folder: map<Name, File>)
    requires Lists(index, folder)
    ensures folder - Names(Finished(index, {})) == map[]
  {
    AllFinished(index);
  }
}
