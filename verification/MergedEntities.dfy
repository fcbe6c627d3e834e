/** What two data sets' records of a network, a talkgroup or a radio become when they are merged, field by field. */
module MergedEntities {
  import opened Basics
  import opened Counters
  import opened Maps
  import opened NetMerges
  import opened Datasets
  import opened Tracks
  import opened MergeInto

  /** The earlier of two first times, where 0 is none, and the later of two last ones. */
  predicate Spans(first: int, last: int, f1: int, l1: int, f2: int, l2: int) {
    && (f1 == 0 ==> first == f2) && (f2 == 0 ==> first == f1)
    && (f1 != 0 && f2 != 0 ==> first <= f1 && first <= f2 && (first == f1 || first == f2))
    && last >= l1 && last >= l2 && (last == l1 || last == l2)
  }

  /** The entries of both; where both have one, the first's. */
  ghost predicate FirstWins(a: map<string, string>, b: map<string, string>, r: map<string, string>) {
    && r.Keys == a.Keys + b.Keys
    && (forall k :: k in a ==> r[k] == a[k]) && (forall k :: k in b && k !in a ==> r[k] == b[k])
  }

  /** A strong identity is surer than one by channel, that than a weak one, and that than any other. */
  predicate SurerOf(c: string, d: string) {
    || (d == "strong" && c != "strong")
    || (d == "channel" && c != "strong" && c != "channel")
    || (d == "weak" && c != "strong" && c != "channel" && c != "weak")
  }

  ghost predicate NetworkOf(n: DsNetwork, m: DsNetwork, r: DsNetwork) {
    && Spans(r.first, r.last, n.first, n.last, m.first, m.last)
    && FirstWins(n.ids, m.ids, r.ids) && r.sites == n.sites + m.sites && r.freqs == n.freqs + m.freqs
    && r.sessions == n.sessions + m.sessions
    && (if SurerOf(n.confidence, m.confidence) then r.confidence == m.confidence && r.name == m.name
        else r.confidence == n.confidence && r.name == n.name)
  }

  ghost predicate TgOf(n: DsTalkgroup, m: DsTalkgroup, r: DsTalkgroup) {
    Spans(r.first, r.last, n.first, n.last, m.first, m.last) && r.networks == n.networks + m.networks
  }

  /** The first's aliases, then such of the second's as are new, in order, eight at most. */
  ghost predicate AliasesOf(a: seq<string>, b: seq<string>, r: seq<string>) {
    && a <= r && (|r| <= 8 || r == a)
    && (forall i :: |a| <= i < |r| ==> r[i] in b && r[i] !in r[..i])
    && (|r| < 8 ==> forall x :: x in b ==> x in r)
  }

  ghost predicate RadioOf(n: DsRadio, m: DsRadio, r: DsRadio) {
    && Spans(r.first, r.last, n.first, n.last, m.first, m.last) && r.networks == n.networks + m.networks
    && AliasesOf(n.aliases, m.aliases, r.aliases)
    && (if m.pos != "" && n.posTime <= m.posTime then r.pos == m.pos && r.posTime == m.posTime
        else r.pos == n.pos && r.posTime == n.posTime)
    && r.track == if m.track == [] then n.track else MergeTracks(n.track, m.track)
  }

  /** Every entity of either side is there and no other; one that both know is joined. */
  ghost predicate Joined(T: DsFamily, F: DsFamily, U: DsFamily) {
    && U.networks.Keys == T.networks.Keys + F.networks.Keys
    && U.tgs.Keys == T.tgs.Keys + F.tgs.Keys && U.radios.Keys == T.radios.Keys + F.radios.Keys
    && (forall n :: n in T.networks && n in F.networks ==> NetworkOf(T.networks[n], F.networks[n], U.networks[n]))
    && (forall t :: t in T.tgs && t in F.tgs ==> TgOf(T.tgs[t], F.tgs[t], U.tgs[t]))
    && (forall r :: r in T.radios && r in F.radios ==> RadioOf(T.radios[r], F.radios[r], U.radios[r]))
  }

  // ---- joining ----

  lemma NetworkJoined(n: DsNetwork, m: DsNetwork)
    ensures NetworkOf(n, m, MergedNetwork(n, m))
  {
    hide MergedKeys;
    Confidence(n.confidence, m.confidence);
  }

  lemma Confidence(c: string, d: string)
    ensures ConfidenceRank(d) > ConfidenceRank(c) <==> SurerOf(c, d)
  {
  }

  lemma TgJoined(n: DsTalkgroup, m: DsTalkgroup)
    ensures TgOf(n, m, MergedTg(n, m))
  {
    hide MergedKeys, AddCounts;
  }

  lemma RadioJoined(n: DsRadio, m: DsRadio)
    ensures RadioOf(n, m, MergedRadio(n, m))
  {
    hide MergedKeys, AddCounts, AddAliases, MergeTracks, AliasesOf;
    AliasesJoined(n.aliases, m.aliases);
  }

  lemma {:induction false} AliasesJoined(a: seq<string>, b: seq<string>)
    ensures AliasesOf(a, b, AddAliases(a, b))
    decreases |b|
  {
    if b != [] {
      hide AliasesOf;
      var a1 := if |a| < MAX_ALIASES && b[0] !in a then a + [b[0]] else a;
      AliasesJoined(a1, b[1..]);
      OneAlias(a, b, a1, AddAliases(a, b));
    }
  }

  lemma OneAlias(a: seq<string>, b: seq<string>, a1: seq<string>, r: seq<string>)
    requires b != [] && a1 == (if |a| < 8 && b[0] !in a then a + [b[0]] else a) && AliasesOf(a1, b[1..], r)
    ensures AliasesOf(a, b, r)
  {
    assert forall x :: x in b <==> x == b[0] || x in b[1..];
    if a1 != a {
      assert r[..|a|] == a && r[|a|] == b[0];
    }
  }

  lemma EntitiesJoined(T: DsFamily, F: DsFamily)
    ensures Joined(T, F, AddEntities(T, F))
  {
    hide MergedNetwork, MergedTg, MergedRadio, NetworkOf, TgOf, RadioOf;
    forall n | n in T.networks && n in F.networks ensures NetworkOf(T.networks[n], F.networks[n], AddEntities(T, F).networks[n]) {
      NetworkJoined(T.networks[n], F.networks[n]);
    }
    forall t | t in T.tgs && t in F.tgs ensures TgOf(T.tgs[t], F.tgs[t], AddEntities(T, F).tgs[t]) {
      TgJoined(T.tgs[t], F.tgs[t]);
    }
    forall r | r in T.radios && r in F.radios ensures RadioOf(T.radios[r], F.radios[r], AddEntities(T, F).radios[r]) {
      RadioJoined(T.radios[r], F.radios[r]);
    }
  }

  // ---- taking calls back changes counters alone ----

  ghost predicate SameNetwork(n: DsNetwork, r: DsNetwork) {
    r == n.(calls := r.calls, keys := r.keys)
  }

  ghost predicate SameTg(n: DsTalkgroup, r: DsTalkgroup) {
    r == n.(calls := r.calls, keys := r.keys, radios := r.radios, emerg := r.emerg, enc := r.enc)
  }

  ghost predicate SameRadio(n: DsRadio, r: DsRadio) {
    r == n.(calls := r.calls, keys := r.keys, tgs := r.tgs, peers := r.peers)
  }

  ghost predicate SameRecords(T: DsFamily, U: DsFamily) {
    && U.networks.Keys == T.networks.Keys && U.tgs.Keys == T.tgs.Keys && U.radios.Keys == T.radios.Keys
    && (forall n :: n in T.networks ==> SameNetwork(T.networks[n], U.networks[n]))
    && (forall t :: t in T.tgs ==> SameTg(T.tgs[t], U.tgs[t]))
    && (forall r :: r in T.radios ==> SameRadio(T.radios[r], U.radios[r]))
  }

  lemma NetworkAlike(n: DsNetwork)
    ensures SameNetwork(n, n)
  {
  }

  lemma TgAlike(t: DsTalkgroup)
    ensures SameTg(t, t)
  {
  }

  lemma RadioAlike(r: DsRadio)
    ensures SameRadio(r, r)
  {
  }

  lemma SelfSame(T: DsFamily, calls: seq<DsCall>)
    ensures SameRecords(T, T.(calls := calls))
  {
    hide SameNetwork, SameTg, SameRadio;
    forall n | n in T.networks ensures SameNetwork(T.networks[n], T.networks[n]) { NetworkAlike(T.networks[n]); }
    forall t | t in T.tgs ensures SameTg(T.tgs[t], T.tgs[t]) { TgAlike(T.tgs[t]); }
    forall r | r in T.radios ensures SameRadio(T.radios[r], T.radios[r]) { RadioAlike(T.radios[r]); }
  }

  lemma SameTwice(T: DsFamily, U: DsFamily, V: DsFamily)
    requires SameRecords(T, U) && SameRecords(U, V)
    ensures SameRecords(T, V)
  {
    forall n | n in T.networks ensures SameNetwork(T.networks[n], V.networks[n]) {
      assert SameNetwork(T.networks[n], U.networks[n]) && SameNetwork(U.networks[n], V.networks[n]);
    }
    forall t | t in T.tgs ensures SameTg(T.tgs[t], V.tgs[t]) {
      assert SameTg(T.tgs[t], U.tgs[t]) && SameTg(U.tgs[t], V.tgs[t]);
    }
    forall r | r in T.radios ensures SameRadio(T.radios[r], V.radios[r]) {
      assert SameRadio(T.radios[r], U.radios[r]) && SameRadio(U.radios[r], V.radios[r]);
    }
  }

  lemma TalkerSame(F: DsFamily, c: DsCall)
    ensures SameRecords(F, UncountTalker(F, c))
  {
    hide Unbump;
    SelfSame(F, F.calls);
  }

  lemma PeerSame(F: DsFamily, c: DsCall)
    ensures SameRecords(F, UncountPeer(F, c))
  {
    hide Unbump;
    SelfSame(F, F.calls);
  }

  lemma TgSame(F: DsFamily, c: DsCall)
    ensures SameRecords(F, UncountTg(F, c))
  {
    hide Unbump;
    SelfSame(F, F.calls);
  }

  lemma NetSame(F: DsFamily, c: DsCall)
    ensures SameRecords(F, UncountNetwork(F, c))
  {
    hide Unbump;
    SelfSame(F, F.calls);
  }

  lemma UncountSame(F: DsFamily, c: DsCall)
    ensures SameRecords(F, Uncount(F, c))
  {
    hide UncountTalker, UncountPeer, UncountTg, UncountNetwork, SameRecords;
    var F1 := UncountTalker(F, c);
    var F2 := UncountPeer(F1, c);
    var F3 := UncountTg(F2, c);
    TalkerSame(F, c);
    PeerSame(F1, c);
    TgSame(F2, c);
    NetSame(F3, c);
    SameTwice(F, F1, F2);
    SameTwice(F, F2, F3);
    SameTwice(F, F3, UncountNetwork(F3, c));
  }

  lemma {:induction false} TakeCallsSame(R: Rules, T: DsFamily, n: nat, s: seq<DsCall>)
    requires n <= |T.calls|
    ensures SameRecords(T, TakeCalls(R, T, n, s))
    decreases |s|
  {
    hide Uncount, SameRecords, FoldCall, FindTwin;
    if s == [] {
      SelfSame(T, T.calls);
    } else {
      var U := TakeCall(R, T, n, s[0]);
      TakeCallsSame(R, U, n, s[1..]);
      var t := if Twinnable(s[0]) then FindTwin(R, T.calls[..n], s[0], 0) else n;
      if t < n {
        var calls := T.calls[t := FoldCall(T.calls[t], s[0])];
        SelfSame(T, calls);
        UncountSame(T.(calls := calls), s[0]);
        SameTwice(T, T.(calls := calls), U);
      } else {
        SelfSame(T, T.calls + [s[0]]);
      }
      SameTwice(T, U, TakeCalls(R, U, n, s[1..]));
    }
  }

  lemma NetworkOn(a: DsNetwork, b: DsNetwork, u: DsNetwork, v: DsNetwork)
    requires NetworkOf(a, b, u) && SameNetwork(u, v)
    ensures NetworkOf(a, b, v)
  {
    hide Spans, FirstWins, SurerOf;
  }

  lemma TgOn(a: DsTalkgroup, b: DsTalkgroup, u: DsTalkgroup, v: DsTalkgroup)
    requires TgOf(a, b, u) && SameTg(u, v)
    ensures TgOf(a, b, v)
  {
    hide Spans, FirstWins, SurerOf;
  }

  lemma RadioOn(a: DsRadio, b: DsRadio, u: DsRadio, v: DsRadio)
    requires RadioOf(a, b, u) && SameRadio(u, v)
    ensures RadioOf(a, b, v)
  {
    hide Spans, FirstWins, SurerOf, AliasesOf, MergeTracks;
  }

  lemma JoinedOn(T: DsFamily, F: DsFamily, U: DsFamily, V: DsFamily)
    requires Joined(T, F, U) && SameRecords(U, V)
    ensures Joined(T, F, V)
  {
    hide NetworkOf, TgOf, RadioOf, SameNetwork, SameTg, SameRadio;
    forall n | n in T.networks && n in F.networks ensures NetworkOf(T.networks[n], F.networks[n], V.networks[n]) {
      NetworkOn(T.networks[n], F.networks[n], U.networks[n], V.networks[n]);
    }
    forall t | t in T.tgs && t in F.tgs ensures TgOf(T.tgs[t], F.tgs[t], V.tgs[t]) {
      TgOn(T.tgs[t], F.tgs[t], U.tgs[t], V.tgs[t]);
    }
    forall r | r in T.radios && r in F.radios ensures RadioOf(T.radios[r], F.radios[r], V.radios[r]) {
      RadioOn(T.radios[r], F.radios[r], U.radios[r], V.radios[r]);
    }
  }

  /** The records of a merged family: none is missing, and where both sides know an entity its times, places, ids, name and
      aliases are joined as said. */
  lemma MergedRecords(R: Rules, T: DsFamily, F: DsFamily)
    ensures Joined(T, F, MergeFamily(R, T, F))
  {
    hide TakeCalls, AddEntities, Joined, SameRecords;
    var U := AddEntities(T, F);
    EntitiesJoined(T, F);
    TakeCallsSame(R, U, |T.calls|, F.calls);
    JoinedOn(T, F, U, MergeFamily(R, T, F));
  }

  // ---- text and services of a folded call ----

  lemma {:induction false} ContainsIs(s: string, t: string)
    ensures Contains(s, t) <==> exists i :: 0 <= i <= |s| && t <= s[i..]
    decreases |s|
  {
    if s == [] {
      assert s[0..] == s;
    } else {
      ContainsIs(s[1..], t);
      if i :| 0 <= i <= |s| && t <= s[i..] {
        if i == 0 { assert s[0..] == s; } else { assert s[1..][i - 1..] == s[i..]; }
      }
      if i :| 0 <= i <= |s[1..]| && t <= s[1..][i..] { assert s[1..][i..] == s[i + 1..]; }
      if t <= s { assert t <= s[0..]; }
    }
  }

  /** Both calls' texts are in the folded call's. */
  lemma TextsKept(t: DsCall, d: DsCall)
    ensures t.text <= FoldCall(t, d).text
    ensures exists i :: 0 <= i <= |FoldCall(t, d).text| && d.text <= FoldCall(t, d).text[i..]
  {
    hide Contains;
    var r := FoldCall(t, d).text;
    ContainsIs(t.text, d.text);
    if d.text == "" {
      assert d.text <= r[0..];
    } else if !Contains(t.text, d.text) && t.text != "" {
      assert r == t.text + " | " + d.text;
      assert r[|t.text| + 3..] == d.text;
    } else if !Contains(t.text, d.text) {
      assert r[0..] == d.text;
    }
  }

  /** Services from the least telling: none, a preamble, an acknowledgement, data, any other. */
  lemma ServicesInOrder(s: string)
    ensures ServiceRank("") < ServiceRank("preamble") < ServiceRank("ack") < ServiceRank("data")
    ensures s !in ["", "preamble", "ack", "data"] ==> ServiceRank("data") < ServiceRank(s) == ServiceRank("voice")
  {
  }
}
