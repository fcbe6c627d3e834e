/** Texts laid out with spaces, as a person or a pretty printer writes them: whatever space stands between the tokens, the
    value is read back. */
module JsonSpacing {
  import opened Basics
  import opened Json

  /** Nothing but spaces, tabs and line ends. */
  predicate Blank(s: string) {
    forall i :: 0 <= i < |s| ==> IsSpace(s[i])
  }

  /** Which space stands where: each place between two tokens of a text has a path of its own. */
  type Layout = seq<nat> -> string

  ghost predicate Blanks(w: Layout) {
    forall p :: Blank(w(p))
  }

  /** The text of v laid out by w below the path p, with `rest` after it. */
  function Laid(v: V, w: Layout, p: seq<nat>, rest: string): string
    decreases v
  {
    w(p + [0]) +
    match v
    case Arr(a) => "[" + if a == [] then w(p + [1]) + ("]" + rest) else LaidElements(a, w, p + [1], rest)
    case Obj(o) => "{" + if o == [] then w(p + [1]) + ("}" + rest) else LaidMembers(o, w, p + [1], rest)
    case _ => Text(v) + rest
  }

  function LaidElements(a: seq<V>, w: Layout, p: seq<nat>, rest: string): string
    requires a != []
    decreases a
  {
    Laid(a[0], w, p + [0], w(p + [1]) + if |a| == 1 then "]" + rest else "," + LaidElements(a[1..], w, p + [2], rest))
  }

  function LaidMembers(o: seq<Member>, w: Layout, p: seq<nat>, rest: string): string
    requires o != []
    decreases o
  {
    var after := if |o| == 1 then "}" + rest else "," + LaidMembers(o[1..], w, p + [4], rest);
    w(p + [0]) + (Quoted(o[0].key) + (w(p + [1]) + (":" + Laid(o[0].value, w, p + [2], w(p + [3]) + after))))
  }

  lemma {:induction false} SkipBlank(b: string, s: string)
    requires Blank(b)
    ensures Skip(b + s) == Skip(s)
  {
    if b == [] {
      assert b + s == s;
    } else {
      assert (b + s)[0] == b[0] && (b + s)[1..] == b[1..] + s;
      SkipBlank(b[1..], s);
    }
  }

  lemma BlankEnds(b: string, s: string)
    requires Blank(b) && Ends(s)
    ensures Ends(b + s)
  {
    if b != [] {
      assert (b + s)[0] == b[0] && IsSpace(b[0]);
      SpacesEnd(b[0]);
    } else {
      assert b + s == s;
    }
  }

  lemma SpacesEnd(c: char)
    requires IsSpace(c)
    ensures !IsDigit(c) && c !in ".eExX"
  {
  }

  /** Space in front of a value is passed over. */
  lemma ValueSkips(b: string, s: string, d: nat, other: string -> (real, nat))
    requires Blank(b)
    ensures Value(b + s, d, other) == Value(s, d, other)
  {
    hide Members, Elements, ReadString, Strtod, Skip, Blank;
    SkipBlank(b, s);
  }

  /** A value's text begins with space and then no closing bracket. */
  lemma LaidBegins(v: V, w: Layout, p: seq<nat>, rest: string)
    requires Blanks(w)
    ensures var t := Skip(Laid(v, w, p, rest)); t != [] && t[0] != ']' && t[0] != '}'
  {
    hide Text, LaidElements, LaidMembers, Skip;
    var b := w(p + [0]);
    var t := match v
             case Arr(a) => "[" + (if a == [] then w(p + [1]) + ("]" + rest) else LaidElements(a, w, p + [1], rest))
             case Obj(o) => "{" + (if o == [] then w(p + [1]) + ("}" + rest) else LaidMembers(o, w, p + [1], rest))
             case _ => Text(v) + rest;
    assert Laid(v, w, p, rest) == b + t;
    SkipBlank(b, t);
    TextBegins(v);
    assert t[0] == '[' || t[0] == '{' || t[0] == Text(v)[0];
    Brackets(t[0], v);
    SkipNone(t);
  }

  lemma Brackets(c: char, v: V)
    requires c == '[' || c == '{' || c == Text(v)[0]
    ensures !IsSpace(c) && c != ']' && c != '}'
  {
    hide Text;
    TextBegins(v);
    assert ']' in "]}" && '}' in "]}";
  }

  /** The reader takes back a value however it is laid out, as long as it does not nest too deeply; otherwise it refuses
      it. */
  lemma {:induction false} LaidBack(v: V, w: Layout, p: seq<nat>, rest: string, d: nat, other: string -> (real, nat))
    requires Whole(v) && Ends(rest) && Blanks(w)
    ensures Value(Laid(v, w, p, rest), d, other) == if d + Depth(v) <= MAX_DEPTH then Some((v, rest)) else None
    decreases v
  {
    hide Blank;
    if d <= MAX_DEPTH {
      match v
      case Arr(a) =>
        if a != [] {
          ElementsLaid(a, w, p + [1], rest, d, other);
          ArrayLaid(a, w, p, rest, d, other);
        } else {
          EmptyLaid(w, p, rest, d, other);
        }
      case Obj(o) =>
        if o != [] {
          MembersLaid(o, w, p + [1], rest, d, other);
          ObjectLaid(o, w, p, rest, d, other);
        } else {
          EmptyLaid(w, p, rest, d, other);
        }
      case _ =>
        LeafLaid(v, w, p, rest, d, other);
    }
  }

  lemma LeafLaid(v: V, w: Layout, p: seq<nat>, rest: string, d: nat, other: string -> (real, nat))
    requires Whole(v) && Ends(rest) && Blanks(w) && d <= MAX_DEPTH && !v.Arr? && !v.Obj?
    ensures Value(Laid(v, w, p, rest), d, other) == Some((v, rest))
  {
    hide Value, Text, Blank, Ends;
    ValueSkips(w(p + [0]), Text(v) + rest, d, other);
    LeafBack(v, rest, d, other);
  }

  lemma EmptyLaid(w: Layout, p: seq<nat>, rest: string, d: nat, other: string -> (real, nat))
    requires Blanks(w) && d <= MAX_DEPTH
    ensures Value(Laid(Arr([]), w, p, rest), d, other) == Some((Arr([]), rest))
    ensures Value(Laid(Obj([]), w, p, rest), d, other) == Some((Obj([]), rest))
  {
    hide Members, Elements, Blank;
    var b := w(p + [1]);
    var x, y := "]" + rest, "}" + rest;
    var s, t := "[" + (b + x), "{" + (b + y);
    ValueSkips(w(p + [0]), s, d, other);
    ValueSkips(w(p + [0]), t, d, other);
    assert s[1..] == b + x && t[1..] == b + y;
    SkipBlank(b, x);
    SkipBlank(b, y);
    SkipNone(x);
    SkipNone(y);
    SkipNone(s);
    SkipNone(t);
    assert x[1..] == rest && y[1..] == rest;
  }

  lemma ArrayLaid(a: seq<V>, w: Layout, p: seq<nat>, rest: string, d: nat, other: string -> (real, nat))
    requires a != [] && d <= MAX_DEPTH && Blanks(w)
    requires Elements(LaidElements(a, w, p + [1], rest), d, other) ==
             if d + 1 + ElementsDepth(a) <= MAX_DEPTH then Some((a, rest)) else None
    ensures Value(Laid(Arr(a), w, p, rest), d, other) == if d + Depth(Arr(a)) <= MAX_DEPTH then Some((Arr(a), rest)) else None
  {
    hide Elements, LaidElements, Members, Strtod, ReadString, Blank, Skip;
    var e := LaidElements(a, w, p + [1], rest);
    var s := "[" + e;
    ValueSkips(w(p + [0]), s, d, other);
    assert s[1..] == e;
    ElementsLaidBegin(a, w, p + [1], rest);
    SkipNone(s);
  }

  lemma ElementsLaidBegin(a: seq<V>, w: Layout, p: seq<nat>, rest: string)
    requires a != [] && Blanks(w)
    ensures var t := Skip(LaidElements(a, w, p, rest)); t != [] && t[0] != ']'
  {
    hide Skip, Laid, Blank;
    var after := w(p + [1]) + if |a| == 1 then "]" + rest else "," + LaidElements(a[1..], w, p + [2], rest);
    LaidBegins(a[0], w, p + [0], after);
  }

  lemma ObjectLaid(o: seq<Member>, w: Layout, p: seq<nat>, rest: string, d: nat, other: string -> (real, nat))
    requires o != [] && d <= MAX_DEPTH && Blanks(w)
    requires Members(LaidMembers(o, w, p + [1], rest), d, other) ==
             if d + 1 + MembersDepth(o) <= MAX_DEPTH then Some((o, rest)) else None
    ensures Value(Laid(Obj(o), w, p, rest), d, other) == if d + Depth(Obj(o)) <= MAX_DEPTH then Some((Obj(o), rest)) else None
  {
    hide Elements, LaidMembers, Members, Strtod, ReadString, Blank, Skip;
    var e := LaidMembers(o, w, p + [1], rest);
    var s := "{" + e;
    ValueSkips(w(p + [0]), s, d, other);
    assert s[1..] == e;
    MembersLaidBegin(o, w, p + [1], rest);
    SkipNone(s);
  }

  lemma MembersLaidBegin(o: seq<Member>, w: Layout, p: seq<nat>, rest: string)
    requires o != [] && Blanks(w)
    ensures var t := Skip(LaidMembers(o, w, p, rest)); t != [] && t[0] != '}'
  {
    hide Skip, Laid, Blank, Quoted;
    var after := if |o| == 1 then "}" + rest else "," + LaidMembers(o[1..], w, p + [4], rest);
    var t := Quoted(o[0].key) + (w(p + [1]) + (":" + Laid(o[0].value, w, p + [2], w(p + [3]) + after)));
    SkipBlank(w(p + [0]), t);
    QuoteFirst(o[0].key);
    SkipNone(t);
  }

  /** What stands after an element or a member: space, then a bracket or a comma. */
  lemma AfterLaid(b: string, c: char, s: string)
    requires Blank(b) && c in ",]}"
    ensures var t := b + ([c] + s); Ends(t) && Skip(t) == [c] + s && ([c] + s)[1..] == s
  {
    hide Blank, Skip;
    var u := [c] + s;
    assert ',' !in ".eExX" && ']' !in ".eExX" && '}' !in ".eExX";
    BlankEnds(b, u);
    SkipBlank(b, u);
    SkipNone(u);
  }

  lemma {:induction false} ElementsLaid(a: seq<V>, w: Layout, p: seq<nat>, rest: string, d: nat, other: string -> (real, nat))
    requires a != [] && d <= MAX_DEPTH && Blanks(w) && forall i :: 0 <= i < |a| ==> Whole(a[i])
    ensures Elements(LaidElements(a, w, p, rest), d, other) ==
            if d + 1 + ElementsDepth(a) <= MAX_DEPTH then Some((a, rest)) else None
    decreases a
  {
    hide Value, Whole, Depth, Laid, Blank, Skip, Ends;
    var next := if |a| == 1 then rest else LaidElements(a[1..], w, p + [2], rest);
    var c := if |a| == 1 then ']' else ',';
    AfterLaid(w(p + [1]), c, next);
    LaidBack(a[0], w, p + [0], w(p + [1]) + ([c] + next), d + 1, other);
    if |a| == 1 {
      assert a == [a[0]] && a[1..] == [];
    } else {
      ElementsLaid(a[1..], w, p + [2], rest, d, other);
      assert a == [a[0]] + a[1..];
    }
  }

  lemma {:induction false} MembersLaid(o: seq<Member>, w: Layout, p: seq<nat>, rest: string, d: nat, other: string -> (real, nat))
    requires o != [] && d <= MAX_DEPTH && Blanks(w) && forall i :: 0 <= i < |o| ==> Whole(o[i].value)
    ensures Members(LaidMembers(o, w, p, rest), d, other) ==
            if d + 1 + MembersDepth(o) <= MAX_DEPTH then Some((o, rest)) else None
    decreases o
  {
    hide Value, Whole, Depth, Laid, Blank, Skip, Ends, MemberOf, Quoted;
    var next := if |o| == 1 then rest else LaidMembers(o[1..], w, p + [4], rest);
    var c := if |o| == 1 then '}' else ',';
    var after := w(p + [3]) + ([c] + next);
    AfterLaid(w(p + [3]), c, next);
    LaidBack(o[0].value, w, p + [2], after, d + 1, other);
    MemberLaid(o[0].key, o[0].value, w, p, after, d, other);
    if |o| == 1 {
      assert o == [o[0]] && o[1..] == [];
    } else {
      MembersLaid(o[1..], w, p + [4], rest, d, other);
      assert o == [o[0]] + o[1..];
    }
  }

  lemma MemberLaid(k: string, v: V, w: Layout, p: seq<nat>, after: string, d: nat, other: string -> (real, nat))
    requires Blanks(w)
    requires Value(Laid(v, w, p + [2], after), d + 1, other) == if d + 1 + Depth(v) <= MAX_DEPTH then Some((v, after)) else None
    ensures MemberOf(w(p + [0]) + (Quoted(k) + (w(p + [1]) + (":" + Laid(v, w, p + [2], after)))), d, other) ==
            if d + 1 + Depth(v) <= MAX_DEPTH then Some((Member(k, v), after)) else None
  {
    hide Value, Depth, Quoted, ReadString, Laid, Blank, Skip;
    var u := ":" + Laid(v, w, p + [2], after);
    var t := w(p + [1]) + u;
    var s := Quoted(k) + t;
    SkipBlank(w(p + [0]), s);
    QuoteFirst(k);
    SkipNone(s);
    QuotedBack(k, t);
    SkipBlank(w(p + [1]), u);
    SkipNone(u);
    assert u[1..] == Laid(v, w, p + [2], after);
  }

  /** A whole file: any value, laid out in any way, with any space after it. */
  lemma AnyLayoutRead(v: V, w: Layout, other: string -> (real, nat))
    requires Whole(v) && Blanks(w)
    ensures Parse(Laid(v, w, [], w([])), other) == if Depth(v) <= MAX_DEPTH then Some(v) else None
  {
    hide Value, Depth, Laid, Blank, Whole, Skip;
    var b := w([]);
    assert b + [] == b;
    BlankEnds(b, []);
    LaidBack(v, w, [], b, 0, other);
    SkipBlank(b, []);
    SkipNone([]);
  }
}
