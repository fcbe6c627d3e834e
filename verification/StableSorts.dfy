/** Stable sorting by an integer key: what std::stable_sort promises of its result, and that only one sequence
    keeps that promise. */
module StableSorts {

  ghost predicate InKeyOrder<T>(s: seq<T>, key: T -> int) {
    forall i, j :: 0 <= i < j < |s| ==> key(s[i]) <= key(s[j])
  }

  /** The elements of s with key k, in order. */
  function WithKey<T>(s: seq<T>, key: T -> int, k: int): seq<T> {
    if s == [] then []
    else if key(s[0]) == k then [s[0]] + WithKey(s[1..], key, k)
    else WithKey(s[1..], key, k)
  }

  /** The elements of equal keys kept their order, and none came or went. */
  ghost predicate SameByKey<T>(s: seq<T>, t: seq<T>, key: T -> int) {
    forall k :: WithKey(s, key, k) == WithKey(t, key, k)
  }

  ghost predicate StablySorted<T>(s: seq<T>, t: seq<T>, key: T -> int) {
    InKeyOrder(t, key) && SameByKey(s, t, key)
  }

  /** Insert x before every element of a larger or equal key. */
  function InsertFirst<T>(x: T, s: seq<T>, key: T -> int): (r: seq<T>)
    ensures |r| == |s| + 1
  {
    if s == [] || key(x) <= key(s[0]) then [x] + s else [s[0]] + InsertFirst(x, s[1..], key)
  }

  function Sort<T>(s: seq<T>, key: T -> int): (r: seq<T>)
    ensures |r| == |s|
  {
    if s == [] then [] else InsertFirst(s[0], Sort(s[1..], key), key)
  }

  /** Every element comes from s or is x. */
  lemma {:induction false} InsertFrom<T>(x: T, s: seq<T>, key: T -> int, i: nat)
    requires i <= |s|
    ensures InsertFirst(x, s, key)[i] == x || exists j :: 0 <= j < |s| && s[j] == InsertFirst(x, s, key)[i]
  {
    if s != [] && key(x) > key(s[0]) && i > 0 {
      InsertFrom(x, s[1..], key, i - 1);
      var y := InsertFirst(x, s[1..], key)[i - 1];
      if y != x {
        var j :| 0 <= j < |s[1..]| && s[1..][j] == y;
        assert s[j + 1] == y;
      }
    }
  }

  lemma {:induction false} InsertOrdered<T>(x: T, s: seq<T>, key: T -> int)
    requires InKeyOrder(s, key)
    ensures InKeyOrder(InsertFirst(x, s, key), key)
  {
    if s != [] && key(x) > key(s[0]) {
      InsertOrdered(x, s[1..], key);
      var r := InsertFirst(x, s[1..], key);
      forall i | 0 <= i < |r| ensures key(s[0]) <= key(r[i]) {
        InsertFrom(x, s[1..], key, i);
      }
    }
  }

  lemma {:induction false} InsertStable<T>(x: T, s: seq<T>, key: T -> int, k: int)
    requires InKeyOrder(s, key)
    ensures WithKey(InsertFirst(x, s, key), key, k) == WithKey([x] + s, key, k)
  {
    assert ([x] + s)[1..] == s;
    if s != [] && key(x) > key(s[0]) {
      var r := InsertFirst(x, s[1..], key);
      assert ([s[0]] + r)[1..] == r;
      InsertStable(x, s[1..], key, k);
      assert ([x] + s[1..])[1..] == s[1..];
    }
  }

  lemma {:induction false} SortIsStable<T>(s: seq<T>, key: T -> int)
    ensures StablySorted(s, Sort(s, key), key)
  {
    if s != [] {
      var r := Sort(s[1..], key);
      SortIsStable(s[1..], key);
      InsertOrdered(s[0], r, key);
      forall k ensures WithKey(s, key, k) == WithKey(Sort(s, key), key, k) {
        InsertStable(s[0], r, key, k);
        assert ([s[0]] + r)[1..] == r;
      }
    }
  }

  lemma {:induction false} WithKeyMembers<T>(s: seq<T>, key: T -> int, k: int)
    ensures forall x :: x in WithKey(s, key, k) <==> x in s && key(x) == k
  {
    if s != [] {
      WithKeyMembers(s[1..], key, k);
      assert forall x :: x in s <==> x == s[0] || x in s[1..];
    }
  }

  lemma SameMembers<T>(s: seq<T>, t: seq<T>, key: T -> int)
    requires SameByKey(s, t, key)
    ensures forall x :: x in s <==> x in t
  {
    forall x ensures x in s <==> x in t {
      assert WithKey(s, key, key(x)) == WithKey(t, key, key(x));
      WithKeyMembers(s, key, key(x));
      WithKeyMembers(t, key, key(x));
    }
  }

  /** Two ordered sequences with the same elements in the same order under each key are the same. */
  lemma {:induction false} OnlyOneSorted<T>(s: seq<T>, t: seq<T>, key: T -> int)
    requires InKeyOrder(s, key) && InKeyOrder(t, key) && SameByKey(s, t, key)
    ensures s == t
    decreases |s|
  {
    SameMembers(s, t, key);
    assert |s| > 0 ==> s[0] in t;
    assert |t| > 0 ==> t[0] in s;
    if s != [] {
      assert key(s[0]) == key(t[0]);
      assert WithKey(s, key, key(s[0])) == WithKey(t, key, key(s[0]));
      assert s[0] == WithKey(s, key, key(s[0]))[0];
      assert s[0] == t[0];
      forall k ensures WithKey(s[1..], key, k) == WithKey(t[1..], key, k) {
        assert WithKey(s, key, k) == WithKey(t, key, k);
        if k == key(s[0]) {
          assert WithKey(s, key, k)[1..] == WithKey(s[1..], key, k);
          assert WithKey(t, key, k)[1..] == WithKey(t[1..], key, k);
        }
      }
      OnlyOneSorted(s[1..], t[1..], key);
      assert s == [s[0]] + s[1..] && t == [t[0]] + t[1..];
    }
  }

  /** The sort is the one stable sort. */
  lemma SortUnique<T>(s: seq<T>, t: seq<T>, key: T -> int)
    requires StablySorted(s, t, key)
    ensures t == Sort(s, key)
  {
    SortIsStable(s, key);
    OnlyOneSorted(t, Sort(s, key), key);
  }
}
