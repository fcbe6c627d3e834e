/** Strings in the order of std::map keys, and the least and the sorted keys of a finite set. */
module Ordered {
  import opened Basics

  /** Lexicographic order by byte value. */
  predicate Less(a: string, b: string) {
    if a == [] then b != []
    else b != [] && (a[0] < b[0] || (a[0] == b[0] && Less(a[1..], b[1..])))
  }

  lemma {:induction false} Trichotomy(a: string, b: string)
    ensures a == b || Less(a, b) || Less(b, a)
  {
    if a != [] && b != [] && a[0] == b[0] {
      Trichotomy(a[1..], b[1..]);
      assert a == [a[0]] + a[1..] && b == [b[0]] + b[1..];
    }
  }

  lemma {:induction false} Asymmetric(a: string, b: string)
    requires Less(a, b)
    ensures !Less(b, a) && a != b
  {
    if a != [] && a[0] == b[0] {
      Asymmetric(a[1..], b[1..]);
    }
  }

  lemma {:induction false} Transitive(a: string, b: string, c: string)
    requires Less(a, b) && Less(b, c)
    ensures Less(a, c)
  {
    if a != [] && a[0] == b[0] == c[0] {
      Transitive(a[1..], b[1..], c[1..]);
    }
  }

  predicate IsLeast(s: set<string>, x: string) {
    x in s && forall y :: y in s ==> y == x || Less(x, y)
  }

  lemma {:induction false} LeastExists(s: set<string>)
    requires s != {}
    ensures exists x :: IsLeast(s, x)
  {
    var a :| a in s;
    if s == {a} {
      assert IsLeast(s, a);
    } else {
      LeastExists(s - {a});
      var b :| IsLeast(s - {a}, b);
      Trichotomy(a, b);
      if Less(a, b) {
        forall y | y in s && y != a ensures Less(a, y) {
          if y != b { Transitive(a, b, y); }
        }
        assert IsLeast(s, a);
      } else {
        assert IsLeast(s, b);
      }
    }
  }

  lemma LeastUnique(s: set<string>, x: string, y: string)
    requires IsLeast(s, x) && IsLeast(s, y)
    ensures x == y
  {
    if x != y { Asymmetric(x, y); }
  }

  function Least(s: set<string>): (x: string)
    requires s != {}
    ensures IsLeast(s, x)
  {
    LeastExists(s);
    assert forall x, y :: IsLeast(s, x) && IsLeast(s, y) ==> x == y by {
      forall x, y | IsLeast(s, x) && IsLeast(s, y) ensures x == y { LeastUnique(s, x, y); }
    }
    var x :| IsLeast(s, x); x
  }

  ghost predicate Ascending(r: seq<string>) {
    forall i, j :: 0 <= i < j < |r| ==> Less(r[i], r[j])
  }

  /** The members of s in ascending order: the order a std::map is walked in. */
  function Sorted(s: set<string>): (r: seq<string>)
    ensures Ascending(r)
    ensures forall x :: x in r <==> x in s
    decreases s
  {
    if s == {} then []
    else
      var x := Least(s);
      [x] + Sorted(s - {x})
  }

  lemma SortedDistinct(s: set<string>)
    ensures Distinct(Sorted(s))
  {
    hide Sorted, Less;
    var r := Sorted(s);
    forall i, j | 0 <= i < j < |r| ensures r[i] != r[j] { Asymmetric(r[i], r[j]); }
  }
}
