/** The explorer's records and the counters it derives from them, next to what a plain recount gives. */
module Counters {
  import opened Basics
  import opened Ordered

  type Id = string

  // Limits per protocol family (entities) and per entity (edges, keys).
  const MAX_RADIOS: nat := 3000
  const MAX_TALKGROUPS: nat := 1500
  const MAX_NETWORKS: nat := 200
  const MAX_EDGES: nat := 300
  const MAX_KEYS: nat := 32

  datatype Call = Call(
    id: nat, session: nat, net: Id, slot: Id, src: Id, tgt: Id,
    priv: bool, voice: bool, data: bool, emergency: bool, encrypted: bool,
    open: bool, counted: bool, alg: Id, kid: Id, keyNoted: bool, keep: bool,
    start: int, last: int, txEnd: int, streams: nat)

  datatype Network = Network(sessions: set<nat>, calls: nat, keys: map<Id, nat>, last: int)

  datatype Talkgroup = Talkgroup(radios: map<Id, nat>, networks: set<Id>, calls: nat,
                                 emergencies: nat, encrypted: nat, keys: map<Id, nat>, last: int)

  datatype Radio = Radio(tgs: map<Id, nat>, peers: map<Id, nat>, keys: map<Id, nat>, networks: set<Id>,
                         calls: nat, last: int)

  /** One protocol family.  `calls` is the list, oldest first.  Two instrumentation fields are not in the
      program: `past` holds the calls that rolled off the list, and `lossy` is set when a limit evicts an
      entity or turns a new edge or key away. */
  datatype Family = Family(networks: map<Id, Network>, tgs: map<Id, Talkgroup>, radios: map<Id, Radio>,
                           calls: seq<Call>, past: seq<Call>, lossy: bool)

  const NEW_FAMILY := Family(map[], map[], map[], [], [], false)

  function EncKey(k: Call): Id {
    k.alg + ":" + k.kid
  }

  // ---- counters ----

  /** The name of one derived counter. */
  datatype Query =
    | RadioCalls(r: Id)
    | RadioTg(r: Id, t: Id)
    | TgRadio(t: Id, r: Id)
    | Peer(r: Id, p: Id)
    | TgCalls(t: Id)
    | NetCalls(n: Id)
    | RadioKey(r: Id, key: Id)
    | TgKey(t: Id, key: Id)
    | NetKey(n: Id, key: Id)
    | TgEmergencies(t: Id)
    | TgEncrypted(t: Id)

  function Get(m: map<Id, nat>, k: Id): nat {
    if k in m then m[k] else 0
  }

  /** Does the entity that holds counter q exist? */
  predicate Held(F: Family, q: Query) {
    match q
    case RadioCalls(r) => r in F.radios
    case RadioTg(r, _) => r in F.radios
    case Peer(r, _) => r in F.radios
    case RadioKey(r, _) => r in F.radios
    case NetCalls(n) => n in F.networks
    case NetKey(n, _) => n in F.networks
    case TgRadio(t, _) => t in F.tgs
    case TgCalls(t) => t in F.tgs
    case TgKey(t, _) => t in F.tgs
    case TgEmergencies(t) => t in F.tgs
    case TgEncrypted(t) => t in F.tgs
  }

  /** What the model shows for counter q. */
  function Shown(F: Family, q: Query): nat {
    if !Held(F, q) then 0
    else
      match q
      case RadioCalls(r) => F.radios[r].calls
      case RadioTg(r, t) => Get(F.radios[r].tgs, t)
      case Peer(r, p) => Get(F.radios[r].peers, p)
      case RadioKey(r, k) => Get(F.radios[r].keys, k)
      case NetCalls(n) => F.networks[n].calls
      case NetKey(n, k) => Get(F.networks[n].keys, k)
      case TgRadio(t, r) => Get(F.tgs[t].radios, r)
      case TgCalls(t) => F.tgs[t].calls
      case TgKey(t, k) => Get(F.tgs[t].keys, k)
      case TgEmergencies(t) => F.tgs[t].emergencies
      case TgEncrypted(t) => F.tgs[t].encrypted
  }

  function One(b: bool): nat {
    if b then 1 else 0
  }

  /** What one call contributes to counter q. */
  function Contribution(q: Query, k: Call): nat {
    match q
    case RadioCalls(r) => One(k.counted && k.src == r && r != "")
    case RadioTg(r, t) => One(k.counted && !k.priv && k.src == r && k.tgt == t && r != "")
    case TgRadio(t, r) => One(k.counted && !k.priv && k.src == r && k.tgt == t && r != "")
    case Peer(r, p) => One(k.counted && k.priv && k.src == r && k.tgt == p && r != "")
                       + One(k.counted && k.priv && k.tgt == r && k.src == p && p != "")
    case TgCalls(t) => One(k.counted && !k.priv && k.tgt == t)
    case NetCalls(n) => One(k.counted && k.net == n)
    case RadioKey(r, key) => One(k.counted && k.kid != "" && k.src == r && r != "" && EncKey(k) == key)
    case TgKey(t, key) => One(k.counted && k.kid != "" && !k.priv && k.tgt == t && EncKey(k) == key)
    case NetKey(n, key) => One(k.counted && k.kid != "" && k.net == n && EncKey(k) == key)
    case TgEmergencies(t) => One(k.counted && !k.open && !k.priv && k.tgt == t && k.emergency)
    case TgEncrypted(t) => One(k.counted && !k.open && !k.priv && k.tgt == t && k.encrypted)
  }

  /** The recount of counter q over a list of calls. */
  function Tally(s: seq<Call>, q: Query): nat {
    if s == [] then 0 else Contribution(q, s[0]) + Tally(s[1..], q)
  }

  lemma {:induction false} TallyAppend(a: seq<Call>, b: seq<Call>, q: Query)
    ensures Tally(a + b, q) == Tally(a, q) + Tally(b, q)
  {
    if a == [] {
      assert a + b == b;
    } else {
      assert (a + b)[1..] == a[1..] + b;
      TallyAppend(a[1..], b, q);
    }
  }

  lemma {:induction false} TallyUpdate(s: seq<Call>, i: nat, k: Call, q: Query)
    requires i < |s|
    ensures Tally(s[i := k], q) + Contribution(q, s[i]) == Tally(s, q) + Contribution(q, k)
  {
    if i == 0 {
      assert s[i := k][1..] == s[1..];
    } else {
      assert s[i := k][1..] == s[1..][i - 1 := k];
      TallyUpdate(s[1..], i - 1, k, q);
    }
  }

  function Without<T>(s: seq<T>, i: nat): seq<T>
    requires i < |s|
  {
    s[..i] + s[i + 1..]
  }

  lemma {:induction false} TallyWithout(s: seq<Call>, i: nat, q: Query)
    requires i < |s|
    ensures Tally(Without(s, i), q) + Contribution(q, s[i]) == Tally(s, q)
  {
    TallyAppend(s[..i], s[i + 1..], q);
    assert s == s[..i] + ([s[i]] + s[i + 1..]);
    TallyAppend(s[..i], [s[i]] + s[i + 1..], q);
    assert ([s[i]] + s[i + 1..])[1..] == s[i + 1..];
  }

  /** A tally counted for one radio, talkgroup or network under a key, or only when closed, never exceeds the
      tally of all that entity's calls. */
  function Total(q: Query): Query {
    match q
    case RadioTg(r, _) => RadioCalls(r)
    case RadioKey(r, _) => RadioCalls(r)
    case NetKey(n, _) => NetCalls(n)
    case TgRadio(t, _) => TgCalls(t)
    case TgKey(t, _) => TgCalls(t)
    case TgEmergencies(t) => TgCalls(t)
    case TgEncrypted(t) => TgCalls(t)
    case _ => q
  }

  lemma {:induction false} TallyWithinTotal(s: seq<Call>, q: Query)
    ensures Tally(s, q) <= Tally(s, Total(q))
  {
    if s != [] {
      TallyWithinTotal(s[1..], q);
    }
  }

  // ---- one counter up or down ----

  /** A new edge is turned away when the node has the most edges it may have. */
  function Bump(m: map<Id, nat>, k: Id, cap: nat): map<Id, nat> {
    if k in m then m[k := m[k] + 1] else if |m| < cap then m[k := 1] else m
  }

  predicate BumpLost(m: map<Id, nat>, k: Id, cap: nat) {
    k !in m && |m| >= cap
  }

  /** An edge that drops to zero goes. */
  function Unbump(m: map<Id, nat>, k: Id): map<Id, nat> {
    if k !in m then m else if m[k] <= 1 then m - {k} else m[k := m[k] - 1]
  }

  /** Count one up, where the entity exists. */
  function Inc(F: Family, q: Query): (G: Family)
    ensures G.calls == F.calls && G.past == F.past
  {
    if !Held(F, q) then F
    else
      match q
      case RadioCalls(r) =>
        var x := F.radios[r]; F.(radios := F.radios[r := x.(calls := x.calls + 1)])
      case RadioTg(r, t) =>
        var x := F.radios[r];
        F.(radios := F.radios[r := x.(tgs := Bump(x.tgs, t, MAX_EDGES))], lossy := F.lossy || BumpLost(x.tgs, t, MAX_EDGES))
      case Peer(r, p) =>
        var x := F.radios[r];
        F.(radios := F.radios[r := x.(peers := Bump(x.peers, p, MAX_EDGES))], lossy := F.lossy || BumpLost(x.peers, p, MAX_EDGES))
      case RadioKey(r, k) =>
        var x := F.radios[r];
        F.(radios := F.radios[r := x.(keys := Bump(x.keys, k, MAX_KEYS))], lossy := F.lossy || BumpLost(x.keys, k, MAX_KEYS))
      case NetCalls(n) =>
        var x := F.networks[n]; F.(networks := F.networks[n := x.(calls := x.calls + 1)])
      case NetKey(n, k) =>
        var x := F.networks[n];
        F.(networks := F.networks[n := x.(keys := Bump(x.keys, k, MAX_KEYS))], lossy := F.lossy || BumpLost(x.keys, k, MAX_KEYS))
      case TgRadio(t, r) =>
        var x := F.tgs[t];
        F.(tgs := F.tgs[t := x.(radios := Bump(x.radios, r, MAX_EDGES))], lossy := F.lossy || BumpLost(x.radios, r, MAX_EDGES))
      case TgCalls(t) =>
        var x := F.tgs[t]; F.(tgs := F.tgs[t := x.(calls := x.calls + 1)])
      case TgKey(t, k) =>
        var x := F.tgs[t];
        F.(tgs := F.tgs[t := x.(keys := Bump(x.keys, k, MAX_KEYS))], lossy := F.lossy || BumpLost(x.keys, k, MAX_KEYS))
      case TgEmergencies(t) =>
        var x := F.tgs[t]; F.(tgs := F.tgs[t := x.(emergencies := x.emergencies + 1)])
      case TgEncrypted(t) =>
        var x := F.tgs[t]; F.(tgs := F.tgs[t := x.(encrypted := x.encrypted + 1)])
  }

  /** Count one down (the counters a re-classification takes back). */
  function Dec(F: Family, q: Query): (G: Family)
    ensures G.calls == F.calls && G.past == F.past
  {
    if !Held(F, q) then F
    else
      match q
      case RadioTg(r, t) =>
        var x := F.radios[r]; F.(radios := F.radios[r := x.(tgs := Unbump(x.tgs, t))])
      case TgRadio(t, r) =>
        var x := F.tgs[t]; F.(tgs := F.tgs[t := x.(radios := Unbump(x.radios, r))])
      case TgCalls(t) =>
        var x := F.tgs[t]; F.(tgs := F.tgs[t := x.(calls := if x.calls > 0 then x.calls - 1 else 0)])
      case TgKey(t, k) =>
        var x := F.tgs[t]; F.(tgs := F.tgs[t := x.(keys := Unbump(x.keys, k))])
      case _ => F
  }

  /** One entity's key counts added to another's, in the order of ks, as far as there is room. */
  function AddKeys(m: map<Id, nat>, src: map<Id, nat>, ks: seq<Id>): map<Id, nat>
    requires forall k :: k in ks ==> k in src
    decreases |ks|
  {
    if ks == [] then m
    else
      var k := ks[0];
      AddKeys(if k in m then m[k := m[k] + src[k]] else if |m| < MAX_KEYS then m[k := src[k]] else m, src, ks[1..])
  }

  predicate KeysLost(m: map<Id, nat>, src: map<Id, nat>, ks: seq<Id>)
    requires forall k :: k in ks ==> k in src
    decreases |ks|
  {
    if ks == [] then false
    else
      var k := ks[0];
      (k !in m && |m| >= MAX_KEYS)
      || KeysLost(if k in m then m[k := m[k] + src[k]] else if |m| < MAX_KEYS then m[k := src[k]] else m, src, ks[1..])
  }

  /** As long as there is room, every key's count is the sum of both. */
  lemma {:induction false} AddKeysGet(m: map<Id, nat>, src: map<Id, nat>, ks: seq<Id>, j: Id)
    requires forall k :: k in ks ==> k in src
    requires Distinct(ks) && !KeysLost(m, src, ks)
    ensures Get(AddKeys(m, src, ks), j) == Get(m, j) + (if j in ks then src[j] else 0)
    decreases |ks|
  {
    if ks != [] {
      var k := ks[0];
      var m1 := if k in m then m[k := m[k] + src[k]] else m[k := src[k]];
      AddKeysGet(m1, src, ks[1..], j);
    }
  }

  /** Add one entity's keys to another's in key order. */
  method AddAllKeys(m: map<Id, nat>, src: map<Id, nat>) returns (r: map<Id, nat>, lost: bool)
    ensures r == AddKeys(m, src, Sorted(src.Keys)) && lost == KeysLost(m, src, Sorted(src.Keys))
  {
    hide Sorted;
    r, lost := m, false;
    var ks := Sorted(src.Keys);
    var i := 0;
    while i < |ks|
      invariant i <= |ks|
      invariant forall k :: k in ks[i..] ==> k in src
      invariant AddKeys(r, src, ks[i..]) == AddKeys(m, src, ks)
      invariant (lost || KeysLost(r, src, ks[i..])) == KeysLost(m, src, ks)
    {
      var k := ks[i];
      assert ks[i..][0] == k && ks[i..][1..] == ks[i + 1..];
      if k in r { r := r[k := r[k] + src[k]]; }
      else if |r| < MAX_KEYS { r := r[k := src[k]]; }
      else { lost := true; }
      i := i + 1;
    }
  }

  /** Same entities, same lists: what Inc and Dec leave alone. */
  ghost predicate SameShape(F: Family, G: Family) {
    && G.networks.Keys == F.networks.Keys && G.tgs.Keys == F.tgs.Keys && G.radios.Keys == F.radios.Keys
    && G.calls == F.calls && G.past == F.past
    && (forall t :: t in F.tgs ==> G.tgs[t].networks == F.tgs[t].networks)
    && (forall r :: r in F.radios ==> G.radios[r].networks == F.radios[r].networks)
  }

  lemma IncShape(F: Family, q: Query)
    requires Held(F, q) && !Inc(F, q).lossy
    ensures SameShape(F, Inc(F, q)) && !F.lossy
  {
  }

  lemma BumpGet(m: map<Id, nat>, k: Id, cap: nat, j: Id)
    requires !BumpLost(m, k, cap)
    ensures Get(Bump(m, k, cap), j) == Get(m, j) + One(j == k)
  {
  }

  lemma UnbumpGet(m: map<Id, nat>, k: Id, j: Id)
    requires Get(m, k) > 0
    ensures Get(Unbump(m, k), j) + One(j == k) == Get(m, j)
  {
  }

  lemma IncRadioCounts(F: Family, q: Query, q': Query)
    requires q.RadioCalls? || q.RadioTg? || q.Peer? || q.RadioKey?
    requires Held(F, q) && !Inc(F, q).lossy
    ensures Shown(Inc(F, q), q') == Shown(F, q') + One(q == q')
  {
    hide Bump;
    match q
    case RadioTg(r, t) => if q'.RadioTg? { BumpGet(F.radios[r].tgs, t, MAX_EDGES, q'.t); }
    case Peer(r, p) => if q'.Peer? { BumpGet(F.radios[r].peers, p, MAX_EDGES, q'.p); }
    case RadioKey(r, k) => if q'.RadioKey? { BumpGet(F.radios[r].keys, k, MAX_KEYS, q'.key); }
    case RadioCalls(_) =>
  }

  lemma IncTgCounts(F: Family, q: Query, q': Query)
    requires q.TgRadio? || q.TgCalls? || q.TgKey? || q.TgEmergencies? || q.TgEncrypted?
    requires Held(F, q) && !Inc(F, q).lossy
    ensures Shown(Inc(F, q), q') == Shown(F, q') + One(q == q')
  {
    hide Bump;
    match q
    case TgRadio(t, r) => if q'.TgRadio? { BumpGet(F.tgs[t].radios, r, MAX_EDGES, q'.r); }
    case TgKey(t, k) => if q'.TgKey? { BumpGet(F.tgs[t].keys, k, MAX_KEYS, q'.key); }
    case _ =>
  }

  lemma IncNetworkCounts(F: Family, q: Query, q': Query)
    requires q.NetCalls? || q.NetKey?
    requires Held(F, q) && !Inc(F, q).lossy
    ensures Shown(Inc(F, q), q') == Shown(F, q') + One(q == q')
  {
    hide Bump;
    match q
    case NetKey(n, k) => if q'.NetKey? { BumpGet(F.networks[n].keys, k, MAX_KEYS, q'.key); }
    case NetCalls(_) =>
  }

  lemma IncCounts(F: Family, q: Query, q': Query)
    requires Held(F, q) && !Inc(F, q).lossy
    ensures Shown(Inc(F, q), q') == Shown(F, q') + One(q == q')
  {
    hide Inc, Shown, Held;
    match q
    case NetCalls(_) => IncNetworkCounts(F, q, q');
    case NetKey(_, _) => IncNetworkCounts(F, q, q');
    case RadioCalls(_) => IncRadioCounts(F, q, q');
    case RadioTg(_, _) => IncRadioCounts(F, q, q');
    case Peer(_, _) => IncRadioCounts(F, q, q');
    case RadioKey(_, _) => IncRadioCounts(F, q, q');
    case _ => IncTgCounts(F, q, q');
  }

  lemma DecShape(F: Family, q: Query)
    ensures SameShape(F, Dec(F, q)) && Dec(F, q).lossy == F.lossy
  {
  }

  lemma DecCounts(F: Family, q: Query, q': Query)
    requires q.RadioTg? || q.TgRadio? || q.TgCalls? || q.TgKey?
    requires Shown(F, q) > 0
    ensures Shown(Dec(F, q), q') + One(q == q') == Shown(F, q')
  {
    hide Unbump;
    match q
    case RadioTg(r, t) => if q'.RadioTg? { UnbumpGet(F.radios[r].tgs, t, q'.t); }
    case TgRadio(t, r) => if q'.TgRadio? { UnbumpGet(F.tgs[t].radios, r, q'.r); }
    case TgKey(t, k) => if q'.TgKey? { UnbumpGet(F.tgs[t].keys, k, q'.key); }
    case TgCalls(t) =>
  }
}
