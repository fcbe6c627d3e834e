/** Rules by which several networks pass for one stay flat, and describe a partition of the network keys. */
module NetMerges {
  import opened Basics
  import opened Ordered

  type Id = string

  const MAX_RULES: nat := 500

  /** One family's rules, each from a network to its representative. */
  type Rules = map<Id, Id>

  type Book = map<Id, Rules>

  function RulesOf(m: Book, fam: Id): Rules {
    if fam in m then m[fam] else map[]
  }

  /** The representative of k under the rules. */
  function Root(R: Rules, k: Id): Id {
    if k in R then R[k] else k
  }

  /** No representative has a representative of its own. */
  ghost predicate Flat(R: Rules) {
    forall k :: k in R ==> R[k] !in R
  }

  ghost predicate Tidy(R: Rules) {
    Flat(R) && |R| <= MAX_RULES
  }

  /** The class of `from` joins the class of `to`. */
  function Add(R: Rules, from: Id, to: Id): (r: (Rules, bool)) {
    var root := Root(R, to);
    if from == "" || to == "" || root == from || Root(R, from) == root || (from !in R && |R| >= MAX_RULES) then (R, false)
    else
      var S := R[from := root];
      (map k | k in S :: if S[k] == from then root else S[k], true)
  }

  /** Take `key` out of its class; or, where it is a representative, dissolve its class. */
  function Remove(R: Rules, key: Id): (r: (Rules, bool)) {
    if key in R then (R - {key}, true)
    else
      var S := map k | k in R && R[k] != key :: R[k];
      (S, S != R)
  }

  lemma AddedKeys(R: Rules, from: Id, to: Id)
    ensures Add(R, from, to).0.Keys == if Add(R, from, to).1 then R.Keys + {from} else R.Keys
  {
  }

  /** Flat rules make the shown key of a network the shown key of itself. */
  lemma RootIsFixed(R: Rules, k: Id)
    requires Flat(R)
    ensures Root(R, Root(R, k)) == Root(R, k)
  {
  }

  lemma AddTidy(R: Rules, from: Id, to: Id)
    requires Tidy(R)
    ensures Tidy(Add(R, from, to).0)
  {
    var S := Add(R, from, to).0;
    AddedKeys(R, from, to);
    if Add(R, from, to).1 {
      assert |S| == |S.Keys| && |R| == |R.Keys|;
    }
  }

  /** Exactly the networks shown under `from` move, and they move to what `to` is shown under. */
  lemma AddMovesClass(R: Rules, from: Id, to: Id, k: Id)
    requires Flat(R) && Add(R, from, to).1
    ensures Root(Add(R, from, to).0, k) == if k == from || Root(R, k) == from then Root(R, to) else Root(R, k)
  {
  }

  /** With room left, adding fails exactly when the two are one network already. */
  lemma AddFailsOnOneNetwork(R: Rules, from: Id, to: Id)
    requires Flat(R) && from != "" && to != "" && (from in R || |R| < MAX_RULES)
    ensures Add(R, from, to).1 <==> Root(R, from) != Root(R, to)
  {
  }

  lemma RemoveTidy(R: Rules, key: Id)
    requires Tidy(R)
    ensures Tidy(Remove(R, key).0)
  {
    var S := Remove(R, key).0;
    assert S.Keys <= R.Keys;
    FewerKeys(S.Keys, R.Keys);
    assert |S| == |S.Keys| && |R| == |R.Keys|;
  }

  lemma {:induction false} FewerKeys(s: set<Id>, t: set<Id>)
    requires s <= t
    ensures |s| <= |t|
  {
    assert t == s + (t - s);
  }

  /** Removing a merged network frees it alone; removing a target frees exactly the networks merged into it. */
  lemma RemoveFrees(R: Rules, key: Id, k: Id)
    requires Flat(R)
    ensures Root(Remove(R, key).0, k) ==
            if k == key || (key !in R && Root(R, k) == key) then k else Root(R, k)
    ensures Remove(R, key).1 <==> exists x :: Root(Remove(R, key).0, x) != Root(R, x)
  {
    var S := Remove(R, key).0;
    if key in R {
      assert Root(S, key) != Root(R, key);
    } else {
      if S != R {
        var x :| x in R && (x !in S || S[x] != R[x]);
        assert Root(S, x) != Root(R, x);
      }
    }
  }

  // ---- union ----

  /** Add the rules for keys ks of F, where R has no say on a key yet. */
  function UnionKeys(R: Rules, F: Rules, ks: seq<Id>): Rules
    requires forall k :: k in ks ==> k in F
    decreases |ks|
  {
    if ks == [] then R
    else UnionKeys(if ks[0] in R then R else Add(R, ks[0], F[ks[0]]).0, F, ks[1..])
  }

  function Union(R: Rules, F: Rules): Rules {
    UnionKeys(R, F, Sorted(F.Keys))
  }

  /** Networks shown as one stay one. */
  ghost predicate Coarser(R: Rules, S: Rules) {
    forall a, b :: Root(R, a) == Root(R, b) ==> Root(S, a) == Root(S, b)
  }

  lemma AddCoarsens(R: Rules, from: Id, to: Id)
    requires Flat(R) && from !in R
    ensures Coarser(R, Add(R, from, to).0)
  {
    var S := Add(R, from, to);
    if S.1 {
      forall a, b | Root(R, a) == Root(R, b) ensures Root(S.0, a) == Root(S.0, b) {
        AddMovesClass(R, from, to, a);
        AddMovesClass(R, from, to, b);
      }
    }
  }

  lemma {:induction false} UnionCoarsens(R: Rules, F: Rules, ks: seq<Id>)
    requires Tidy(R) && forall k :: k in ks ==> k in F
    ensures Tidy(UnionKeys(R, F, ks)) && Coarser(R, UnionKeys(R, F, ks))
    decreases |ks|
  {
    hide Add, Root, Flat;
    if ks != [] {
      var S := if ks[0] in R then R else Add(R, ks[0], F[ks[0]]).0;
      AddTidy(R, ks[0], F[ks[0]]);
      if ks[0] !in R { AddCoarsens(R, ks[0], F[ks[0]]); }
      UnionCoarsens(S, F, ks[1..]);
    }
  }

  // ---- loading a rule file ----

  /** The rules added one by one, in the order of ks. */
  function Replayed(R: Rules, F: Rules, ks: seq<Id>): Rules
    requires forall k :: k in ks ==> k in F
    decreases |ks|
  {
    if ks == [] then R else Add(Replayed(R, F, ks[..|ks| - 1]), ks[|ks| - 1], F[ks[|ks| - 1]]).0
  }

  lemma {:induction false} ReplayedSoFar(F: Rules, ks: seq<Id>)
    requires Tidy(F) && Distinct(ks) && (forall k :: k in ks ==> k in F)
    requires forall k :: k in F ==> k != "" && F[k] != ""
    ensures Replayed(map[], F, ks) == RulesAt(F, ks)
    decreases |ks|
  {
    hide Add, Tidy, Distinct;
    if ks == [] {
    } else {
      var before, last := ks[..|ks| - 1], ks[|ks| - 1];
      LastApart(ks);
      ReplayedSoFar(F, before);
      AddBack(F, RulesAt(F, before), last);
      OneRuleMore(F, ks);
    }
  }

  /** The rules of F under some keys. */
  function RulesAt(F: Rules, ks: seq<Id>): Rules
    requires forall k :: k in ks ==> k in F
  {
    map k | k in ks :: F[k]
  }

  lemma LastApart(ks: seq<Id>)
    requires ks != [] && Distinct(ks)
    ensures Distinct(ks[..|ks| - 1]) && ks[|ks| - 1] !in ks[..|ks| - 1]
  {
  }

  lemma OneRuleMore(F: Rules, ks: seq<Id>)
    requires ks != [] && forall k :: k in ks ==> k in F
    ensures RulesAt(F, ks) == RulesAt(F, ks[..|ks| - 1])[ks[|ks| - 1] := F[ks[|ks| - 1]]]
  {
    assert forall k :: k in ks <==> k in ks[..|ks| - 1] || k == ks[|ks| - 1];
  }

  /** Some of the rules of F, and one more. */
  lemma AddBack(F: Rules, R: Rules, k: Id)
    requires Tidy(F) && k in F && k != "" && F[k] != "" && k !in R
    requires forall x :: x in R ==> x in F && R[x] == F[x]
    ensures Add(R, k, F[k]) == (R[k := F[k]], true)
  {
    assert R.Keys < F.Keys by { assert k in F.Keys; }
    SmallerSet(R.Keys, F.Keys);
    assert |R| == |R.Keys| && |F| == |F.Keys|;
    var S := R[k := F[k]];
    assert Root(R, F[k]) == F[k];
    forall x | x in S ensures S[x] == F[x] && S[x] != k { }
    assert S == map x | x in S :: if S[x] == k then F[k] else S[x];
  }

  lemma SmallerSet(s: set<Id>, t: set<Id>)
    requires s < t
    ensures |s| < |t|
  {
    assert t == s + (t - s);
    assert t - s != {};
  }

  /** Flat rules survive being saved and added again one by one, in whatever order they are read. */
  lemma ReplayRebuilds(F: Rules, ks: seq<Id>)
    requires Tidy(F) && (forall k :: k in F ==> k != "" && F[k] != "")
    requires Distinct(ks) && forall k :: k in ks <==> k in F
    ensures Replayed(map[], F, ks) == F
  {
    ReplayedSoFar(F, ks);
  }

  // ---- the rule book ----

  function Put(m: Book, fam: Id, R: Rules): Book {
    if R == map[] then m - {fam} else m[fam := R]
  }

  ghost predicate TidyBook(m: Book) {
    forall f :: f in m ==> Tidy(m[f])
  }

  /** Retarget every rule that pointed at `from`. */
  method Retarget(S: Rules, from: Id, root: Id) returns (T: Rules)
    requires root != from
    ensures T == map k | k in S :: if S[k] == from then root else S[k]
  {
    T := S;
    var todo := S.Keys;
    while todo != {}
      invariant todo <= S.Keys && T.Keys == S.Keys
      invariant forall k :: k in S ==> T[k] == if k !in todo && S[k] == from then root else S[k]
      decreases |todo|
    {
      var k :| k in todo;
      if T[k] == from { T := T[k := root]; }
      todo := todo - {k};
    }
  }

  method AddRule(R: Rules, from: Id, to: Id) returns (S: Rules, ok: bool)
    ensures (S, ok) == Add(R, from, to)
  {
    if from == "" || to == "" { return R, false; }
    var r := Root(R, to);
    if r == from || Root(R, from) == r { return R, false; }
    if from !in R && |R| >= MAX_RULES { return R, false; }
    S := Retarget(R[from := r], from, r);
    ok := true;
  }

  /** Erase every rule that points at key, while walking them. */
  method EraseTargets(R: Rules, key: Id) returns (F: Rules, changed: bool)
    ensures F == (map k | k in R && R[k] != key :: R[k]) && changed == (F != R)
  {
    F, changed := R, false;
    var todo := R.Keys;
    while todo != {}
      invariant todo <= R.Keys && F.Keys <= R.Keys
      invariant forall k :: k in R ==> (k in F <==> k in todo || R[k] != key)
      invariant forall k :: k in F ==> F[k] == R[k]
      invariant changed <==> F.Keys != R.Keys
      decreases |todo|
    {
      var k :| k in todo;
      todo := todo - {k};
      if R[k] == key {
        F := F - {k};
        changed := true;
        assert k in R.Keys && k !in F.Keys;
      }
    }
  }

  method UnionRules(R: Rules, F: Rules) returns (S: Rules)
    ensures S == Union(R, F)
  {
    hide Add, Sorted;
    S := R;
    var ks := Sorted(F.Keys);
    var i := 0;
    assert ks[0..] == ks;
    while i < |ks|
      invariant i <= |ks| && forall k :: k in ks[i..] ==> k in F
      invariant UnionKeys(S, F, ks[i..]) == UnionKeys(R, F, ks)
    {
      assert ks[i..][0] == ks[i] && ks[i..][1..] == ks[i + 1..];
      if ks[i] !in S {
        var ok;
        S, ok := AddRule(S, ks[i], F[ks[i]]);
      }
      i := i + 1;
    }
  }

  method RemoveRule(R: Rules, key: Id) returns (S: Rules, changed: bool)
    ensures (S, changed) == Remove(R, key)
  {
    if key in R {
      S, changed := R - {key}, true;
    } else {
      S, changed := EraseTargets(R, key);
    }
  }

  /** One family's rules after another data set's joined. */
  function Joined(m: Book, from: Book, f: Id): Rules {
    if f in from && f != "" then Union(RulesOf(m, f), from[f]) else RulesOf(m, f)
  }

  /** Another data set's rules, family by family, where this book has no say yet. */
  function UnionBook(m: Book, from: Book): (b: Book)
    ensures forall f :: RulesOf(b, f) == Joined(m, from, f)
  {
    map f | f in m.Keys + from.Keys && (f in m || Joined(m, from, f) != map[]) :: Joined(m, from, f)
  }

  /** The joined book is tidy, and no two networks shown as one come apart. */
  lemma UnionBookTidy(m: Book, from: Book)
    requires TidyBook(m)
    ensures TidyBook(UnionBook(m, from))
    ensures forall f :: Coarser(RulesOf(m, f), RulesOf(UnionBook(m, from), f))
  {
    hide Tidy, Coarser, Union, UnionBook;
    NoRulesTidy();
    var b := UnionBook(m, from);
    forall f ensures Tidy(RulesOf(b, f)) && Coarser(RulesOf(m, f), RulesOf(b, f)) {
      CoarserSelf(RulesOf(m, f));
      if f in from { UnionTidy(RulesOf(m, f), from[f]); }
    }
    forall f | f in b ensures Tidy(b[f]) {
      assert Tidy(RulesOf(b, f));
    }
  }

  method JoinFamily(b: Book, from: Book, f: Id) returns (c: Book)
    requires f in from
    ensures c == if Joined(b, from, f) == RulesOf(b, f) then b else b[f := Joined(b, from, f)]
  {
    hide Union, RulesOf;
    c := b;
    if f != "" {
      var S := UnionRules(RulesOf(b, f), from[f]);
      if S != RulesOf(b, f) { c := b[f := S]; }
    }
  }

  /** The families of `from` outside todo have joined m. */
  ghost predicate PartlyJoined(b: Book, m: Book, from: Book, todo: set<Id>) {
    && (forall f :: RulesOf(b, f) == if f in todo then RulesOf(m, f) else Joined(m, from, f))
    && (forall f :: f in b <==> f in m || (f !in todo && Joined(m, from, f) != map[]))
  }

  lemma JoinOne(b: Book, m: Book, from: Book, todo: set<Id>, f: Id)
    requires PartlyJoined(b, m, from, todo) && f in todo
    ensures var c := if Joined(b, from, f) == RulesOf(b, f) then b else b[f := Joined(b, from, f)];
            PartlyJoined(c, m, from, todo - {f})
  {
    hide Union;
    assert Joined(b, from, f) == Joined(m, from, f);
  }

  method UnionBooks(m: Book, from: Book) returns (b: Book)
    ensures b == UnionBook(m, from)
  {
    hide Union, Joined;
    b := m;
    var todo := from.Keys;
    assert PartlyJoined(b, m, from, todo) by { NotJoined(m, from); }
    while todo != {}
      invariant todo <= from.Keys && PartlyJoined(b, m, from, todo)
      decreases |todo|
    {
      var f :| f in todo;
      JoinOne(b, m, from, todo, f);
      b := JoinFamily(b, from, f);
      todo := todo - {f};
    }
    AllJoined(b, m, from);
  }

  lemma NotJoined(m: Book, from: Book)
    ensures forall f :: f !in from ==> Joined(m, from, f) == RulesOf(m, f)
  {
  }

  lemma AllJoined(b: Book, m: Book, from: Book)
    requires PartlyJoined(b, m, from, {})
    ensures b == UnionBook(m, from)
  {
    hide Joined;
    NotJoined(m, from);
    var u := UnionBook(m, from);
    forall f ensures f in b <==> f in u { }
    forall f | f in b ensures b[f] == u[f] {
      assert RulesOf(b, f) == Joined(m, from, f);
    }
  }

  class RuleBook {
    var rules: Book

    ghost predicate Valid()
      reads this
    {
      TidyBook(rules)
    }

    constructor ()
      ensures Valid() && rules == map[]
    {
      rules := map[];
    }

    method MergesAdd(fam: Id, from: Id, to: Id) returns (ok: bool)
      requires Valid()
      modifies this
      ensures Valid()
      ensures fam == "" ==> !ok
      ensures fam != "" ==> ok == Add(RulesOf(old(rules), fam), from, to).1
      ensures rules == if ok then old(rules)[fam := Add(RulesOf(old(rules), fam), from, to).0] else old(rules)
    {
      hide Add, Tidy;
      if fam == "" { return false; }
      NoRulesTidy();
      AddTidy(RulesOf(rules, fam), from, to);
      var S;
      S, ok := AddRule(RulesOf(rules, fam), from, to);
      if ok { rules := rules[fam := S]; }
    }

    method MergesRemove(fam: Id, key: Id) returns (changed: bool)
      requires Valid()
      modifies this
      ensures Valid()
      ensures fam !in old(rules) ==> !changed && rules == old(rules)
      ensures fam in old(rules) ==>
                changed == Remove(old(rules)[fam], key).1 && rules == Put(old(rules), fam, Remove(old(rules)[fam], key).0)
      ensures forall f :: RulesOf(rules, f) == if f == fam && f in old(rules) then Remove(old(rules)[f], key).0 else RulesOf(old(rules), f)
      ensures forall f :: f in rules <==> f in old(rules) && (f != fam || RulesOf(rules, f) != map[])
    {
      hide Tidy, Remove;
      if fam !in rules { return false; }
      RemoveTidy(rules[fam], key);
      var F;
      F, changed := RemoveRule(rules[fam], key);
      rules := if F == map[] then rules - {fam} else rules[fam := F];
    }

    /** Another data set's rules join where this book has no say yet. */
    method MergesUnion(from: Book)
      requires Valid()
      modifies this
      ensures Valid() && rules == UnionBook(old(rules), from)
    {
      hide Tidy, Coarser, UnionBook;
      UnionBookTidy(rules, from);
      rules := UnionBooks(rules, from);
    }
  }

  lemma NoRulesTidy()
    ensures Tidy(map[])
  {
  }

  lemma CoarserSelf(R: Rules)
    ensures Coarser(R, R)
  {
  }

  lemma UnionTidy(R: Rules, F: Rules)
    requires Tidy(R)
    ensures Tidy(Union(R, F)) && Coarser(R, Union(R, F))
  {
    UnionCoarsens(R, F, Sorted(F.Keys));
  }
}
