/** Talk communities: union-find with path halving finds exactly the connected components of the listed radios and
    talkgroups. */
module Communities {
  import opened Basics
  import opened StableSorts

  type Id = string

  datatype Node = Tg(id: Id) | Rad(id: Id)

  /** A listed radio: the talkgroups it used and the radios it called. */
  datatype Radio = Radio(id: Id, tgs: seq<Id>, peers: seq<Id>)

  type Edge = (Node, Node)

  // ---- the graph ----

  function Listed(tgs: seq<Id>, radios: seq<Radio>): set<Node> {
    (set t | t in tgs :: Tg(t)) + (set r | r in radios :: Rad(r.id))
  }

  /** The links from a to the listed ones among its ends, in order. */
  function Links(a: Node, ends: seq<Node>, listed: set<Node>): seq<Edge> {
    if ends == [] then []
    else if ends[0] in listed then [(a, ends[0])] + Links(a, ends[1..], listed)
    else Links(a, ends[1..], listed)
  }

  function Ends(r: Radio): seq<Node> {
    seq(|r.tgs|, i requires 0 <= i < |r.tgs| => Tg(r.tgs[i])) + seq(|r.peers|, i requires 0 <= i < |r.peers| => Rad(r.peers[i]))
  }

  /** Talkgroup use and private calls among the listed, radio by radio. */
  function Edges(radios: seq<Radio>, listed: set<Node>): seq<Edge> {
    if radios == [] then []
    else Edges(radios[..|radios| - 1], listed) + Links(Rad(radios[|radios| - 1].id), Ends(radios[|radios| - 1]), listed)
  }

  predicate Adjacent(E: seq<Edge>, x: Node, y: Node) {
    (x, y) in E || (y, x) in E
  }

  ghost predicate Path(E: seq<Edge>, p: seq<Node>) {
    p != [] && forall i :: 0 < i < |p| ==> Adjacent(E, p[i - 1], p[i])
  }

  /** Some path of links joins x and y. */
  ghost predicate Linked(E: seq<Edge>, x: Node, y: Node) {
    exists p :: Path(E, p) && p[0] == x && p[|p| - 1] == y
  }

  lemma LinkedSelf(E: seq<Edge>, x: Node)
    ensures Linked(E, x, x)
  {
    assert Path(E, [x]) && [x][0] == x;
  }

  lemma LinkedTransitive(E: seq<Edge>, x: Node, y: Node, z: Node)
    requires Linked(E, x, y) && Linked(E, y, z)
    ensures Linked(E, x, z)
  {
    hide Adjacent;
    var p :| Path(E, p) && p[0] == x && p[|p| - 1] == y;
    var q :| Path(E, q) && q[0] == y && q[|q| - 1] == z;
    var r := p + q[1..];
    forall i | 0 < i < |r| ensures Adjacent(E, r[i - 1], r[i]) {
      if i < |p| { assert r[i - 1] == p[i - 1] && r[i] == p[i]; }
      else { assert r[i - 1] == q[i - |p|] && r[i] == q[i - |p| + 1]; }
    }
    assert Path(E, r) && r[0] == x && r[|r| - 1] == z;
  }

  lemma LinkedSymmetric(E: seq<Edge>, x: Node, y: Node)
    requires Linked(E, x, y)
    ensures Linked(E, y, x)
  {
    var p :| Path(E, p) && p[0] == x && p[|p| - 1] == y;
    var r := seq(|p|, i requires 0 <= i < |p| => p[|p| - 1 - i]);
    forall i | 0 < i < |r| ensures Adjacent(E, r[i - 1], r[i]) {
      assert Adjacent(E, p[|p| - 1 - i], p[|p| - i]);
    }
    assert Path(E, r) && r[0] == y && r[|r| - 1] == x;
  }

  lemma LinkedMore(E: seq<Edge>, F: seq<Edge>, x: Node, y: Node)
    requires Linked(E, x, y) && forall e :: e in E ==> e in F
    ensures Linked(F, x, y)
  {
    var p :| Path(E, p) && p[0] == x && p[|p| - 1] == y;
    assert Path(F, p);
  }

  lemma LinkedEdge(E: seq<Edge>, a: Node, b: Node)
    requires (a, b) in E
    ensures Linked(E, a, b)
  {
    var p := [a, b];
    assert Path(E, p) && p[0] == a && p[|p| - 1] == b;
  }

  // ---- the forest ----

  type Parents = map<Node, Node>

  ghost predicate StepsUp(par: Parents, level: map<Node, nat>, x: Node) {
    x in par && x in level && par[x] in par && par[x] in level && (par[x] != x ==> level[par[x]] < level[x])
  }

  /** Parents stay among the nodes, and every step up lowers the level: there are no cycles. */
  ghost predicate Forest(par: Parents, level: map<Node, nat>) {
    && level.Keys == par.Keys
    && forall x {:trigger StepsUp(par, level, x)} :: x in par ==> StepsUp(par, level, x)
  }

  ghost function Root(par: Parents, level: map<Node, nat>, x: Node): (r: Node)
    requires Forest(par, level) && x in par
    ensures r in par && par[r] == r
    decreases level[x]
  {
    assert StepsUp(par, level, x);
    if par[x] == x then x else Root(par, level, par[x])
  }

  /** x pointed at its grandparent. */
  function Halved(par: Parents, x: Node): (h: Parents)
    requires x in par && par[x] in par
    ensures h.Keys == par.Keys && h[x] == par[par[x]]
  {
    par[x := par[par[x]]]
  }

  lemma HalvingForest(par: Parents, level: map<Node, nat>, x: Node)
    requires Forest(par, level) && x in par
    ensures par[x] in par && Forest(Halved(par, x), level)
  {
    assert StepsUp(par, level, x) && StepsUp(par, level, par[x]);
    forall n | n in par ensures StepsUp(Halved(par, x), level, n) { assert StepsUp(par, level, n); }
  }

  lemma StepUp(par: Parents, level: map<Node, nat>, x: Node)
    requires Forest(par, level) && x in par
    ensures StepsUp(par, level, x) && Root(par, level, par[x]) == Root(par, level, x)
  {
    assert StepsUp(par, level, x);
  }

  lemma {:induction false} HalvingKeepsRoots(par: Parents, level: map<Node, nat>, x: Node, n: Node)
    requires Forest(par, level) && x in par && n in par && par[x] in par && Forest(Halved(par, x), level)
    ensures Root(Halved(par, x), level, n) == Root(par, level, n)
    decreases level[n]
  {
    hide Forest, Root;
    var h := Halved(par, x);
    StepUp(par, level, n);
    StepUp(h, level, n);
    if par[n] == n {
      AtRoot(par, level, n);
      AtRoot(h, level, n);
    } else if h[n] != n {
      StepUp(par, level, par[n]);
      HalvingKeepsRoots(par, level, x, h[n]);
    } else {
      StepUp(par, level, par[n]);
    }
  }

  /** The tree of a, lifted above root b. */
  ghost function Lifted(par: Parents, level: map<Node, nat>, a: Node, b: Node): (r: map<Node, nat>)
    requires Forest(par, level) && b in par
    ensures r.Keys == par.Keys && level.Keys == par.Keys
    ensures forall n :: n in par ==> r[n] == if Root(par, level, n) == a then level[n] + level[b] + 1 else level[n]
  {
    map n | n in par :: if Root(par, level, n) == a then level[n] + level[b] + 1 else level[n]
  }

  lemma HangStep(par: Parents, level: map<Node, nat>, a: Node, b: Node, n: Node)
    requires Forest(par, level) && a in par && b in par && par[a] == a && par[b] == b && a != b && n in par
    ensures StepsUp(par[a := b], Lifted(par, level, a, b), n)
  {
    hide Root, Forest, Lifted;
    AtRoot(par, level, a);
    AtRoot(par, level, b);
    StepUp(par, level, n);
    var h, lifted := par[a := b], Lifted(par, level, a, b);
    if n == a {
      assert h[n] == b && lifted[b] == level[b];
    } else {
      assert h[n] == par[n];
    }
  }

  lemma HangForest(par: Parents, level: map<Node, nat>, a: Node, b: Node)
    requires Forest(par, level) && a in par && b in par && par[a] == a && par[b] == b && a != b
    ensures Forest(par[a := b], Lifted(par, level, a, b))
  {
    hide Root, StepsUp, Lifted;
    forall n | n in par ensures StepsUp(par[a := b], Lifted(par, level, a, b), n) { HangStep(par, level, a, b, n); }
  }

  /** Hanging root a under root b joins their trees and moves no other node. */
  lemma {:induction false} HangJoins(par: Parents, level: map<Node, nat>, a: Node, b: Node, n: Node)
    requires Forest(par, level) && a in par && b in par && par[a] == a && par[b] == b && a != b && n in par
    requires Forest(par[a := b], Lifted(par, level, a, b))
    ensures Root(par[a := b], Lifted(par, level, a, b), n) == if Root(par, level, n) == a then b else Root(par, level, n)
    decreases level[n]
  {
    hide Forest, Root, Lifted;
    var h, lifted := par[a := b], Lifted(par, level, a, b);
    StepUp(par, level, n);
    StepUp(h, lifted, n);
    if par[n] != n {
      HangJoins(par, level, a, b, par[n]);
    } else {
      AtRoot(par, level, n);
      AtRoot(h, lifted, b);
      if n != a { AtRoot(h, lifted, n); }
    }
  }

  /** In one tree exactly when linked. */
  ghost predicate TreesAreComponents(par: Parents, level: map<Node, nat>, E: seq<Edge>)
    requires Forest(par, level)
  {
    forall x, y {:trigger Root(par, level, x), Root(par, level, y)} {:trigger Linked(E, x, y)} ::
      x in par && y in par ==> (Root(par, level, x) == Root(par, level, y) <==> Linked(E, x, y))
  }

  /** Every link stays within a tree. */
  ghost predicate LinksInTrees(par: Parents, level: map<Node, nat>, E: seq<Edge>)
    requires Forest(par, level)
  {
    forall a, b :: (a, b) in E ==> SameTree(par, level, a, b)
  }

  ghost predicate SameTree(par: Parents, level: map<Node, nat>, a: Node, b: Node)
    requires Forest(par, level)
  {
    a in par && b in par && Root(par, level, a) == Root(par, level, b)
  }

  lemma {:induction false} PathStaysInTree(par: Parents, level: map<Node, nat>, E: seq<Edge>, p: seq<Node>)
    requires Forest(par, level) && Path(E, p) && p[0] in par && LinksInTrees(par, level, E)
    ensures SameTree(par, level, p[0], p[|p| - 1])
    decreases |p|
  {
    hide Forest;
    if |p| > 1 {
      assert Adjacent(E, p[0], p[1]);
      assert SameTree(par, level, p[0], p[1]);
      assert Path(E, p[1..]) by {
        forall i | 0 < i < |p[1..]| ensures Adjacent(E, p[1..][i - 1], p[1..][i]) { assert Adjacent(E, p[i], p[i + 1]); }
      }
      PathStaysInTree(par, level, E, p[1..]);
    }
  }

  lemma LinkStaysInTree(par: Parents, level: map<Node, nat>, E: seq<Edge>, x: Node, y: Node)
    requires Forest(par, level) && LinksInTrees(par, level, E) && Linked(E, x, y) && x in par
    ensures SameTree(par, level, x, y)
  {
    hide Forest, SameTree, LinksInTrees;
    var p :| Path(E, p) && p[0] == x && p[|p| - 1] == y;
    PathStaysInTree(par, level, E, p);
  }

  /** One more link, and the forest after its ends were joined. */
  lemma JoinKeepsComponents(par: Parents, level: map<Node, nat>, par': Parents, level': map<Node, nat>,
                            E: seq<Edge>, a: Node, b: Node)
    requires Forest(par, level) && Forest(par', level') && par'.Keys == par.Keys && a in par && b in par
    requires TreesAreComponents(par, level, E) && EdgesIn(E, par.Keys)
    requires Moves(par, level, par', level', Root(par, level, a), Root(par, level, b))
    ensures TreesAreComponents(par', level', E + [(a, b)])
  {
    hide Forest, Linked, Root, SameTree, EdgesIn, Moves;
    var F := E + [(a, b)];
    forall x, y | (x, y) in F ensures SameTree(par', level', x, y) {
      assert (x, y) in E || (x, y) == (a, b);
      EdgeInTree(par, level, par', level', E, a, b, x, y);
    }
    forall x, y | x in par' && y in par' ensures Root(par', level', x) == Root(par', level', y) <==> Linked(F, x, y) {
      if Linked(F, x, y) { InOneTree(par', level', F, x, y); }
      if Root(par', level', x) == Root(par', level', y) {
        Moved(par, level, par', level', a, b, x, y);
        JoinLinks(par, level, E, a, b, x, y);
      }
    }
  }

  lemma InOneTree(par: Parents, level: map<Node, nat>, E: seq<Edge>, x: Node, y: Node)
    requires Forest(par, level) && LinksInTrees(par, level, E) && Linked(E, x, y) && x in par
    ensures y in par && Root(par, level, x) == Root(par, level, y)
  {
    hide Forest, Root, LinksInTrees, Linked;
    LinkStaysInTree(par, level, E, x, y);
  }

  lemma EdgeInTree(par: Parents, level: map<Node, nat>, par': Parents, level': map<Node, nat>,
                   E: seq<Edge>, a: Node, b: Node, x: Node, y: Node)
    requires Forest(par, level) && Forest(par', level') && par'.Keys == par.Keys && a in par && b in par
    requires TreesAreComponents(par, level, E) && EdgesIn(E, par.Keys)
    requires Moves(par, level, par', level', Root(par, level, a), Root(par, level, b))
    requires (x, y) in E || (x, y) == (a, b)
    ensures SameTree(par', level', x, y)
  {
    hide Forest, Root, Linked;
    if (x, y) in E { LinkedEdge(E, x, y); }
  }

  lemma Moved(par: Parents, level: map<Node, nat>, par': Parents, level': map<Node, nat>, a: Node, b: Node, x: Node, y: Node)
    requires Forest(par, level) && Forest(par', level') && par'.Keys == par.Keys
    requires a in par && b in par && x in par && y in par
    requires Moves(par, level, par', level', Root(par, level, a), Root(par, level, b))
    requires Root(par', level', x) == Root(par', level', y)
    ensures JoinedRoots(par, level, a, b, x, y)
  {
    hide Forest, Root;
  }

  /** x and y have one root once a's root hangs under b's. */
  ghost predicate JoinedRoots(par: Parents, level: map<Node, nat>, a: Node, b: Node, x: Node, y: Node)
    requires Forest(par, level) && a in par && b in par && x in par && y in par
  {
    var rx, ry := Root(par, level, x), Root(par, level, y);
    var ra, rb := Root(par, level, a), Root(par, level, b);
    (if rx == ra then rb else rx) == if ry == ra then rb else ry
  }

  lemma JoinLinks(par: Parents, level: map<Node, nat>, E: seq<Edge>, a: Node, b: Node, x: Node, y: Node)
    requires Forest(par, level) && TreesAreComponents(par, level, E)
    requires a in par && b in par && x in par && y in par
    requires JoinedRoots(par, level, a, b, x, y)
    ensures Linked(E + [(a, b)], x, y)
  {
    hide Forest, Linked, Root;
    var F := E + [(a, b)];
    assert (a, b) in F;
    LinkedEdge(F, a, b);
    LinkedSymmetric(F, a, b);
    if Root(par, level, x) == Root(par, level, y) {
      LinkedMore(E, F, x, y);
    } else if Root(par, level, x) == Root(par, level, a) {
      LinkedMore(E, F, x, a);
      LinkedMore(E, F, b, y);
      LinkedTransitive(F, x, a, b);
      LinkedTransitive(F, x, b, y);
    } else {
      LinkedMore(E, F, x, b);
      LinkedMore(E, F, a, y);
      LinkedTransitive(F, x, b, a);
      LinkedTransitive(F, x, a, y);
    }
  }

  /** The parent table of one call. */
  class Table {
    var par: Parents
    ghost var level: map<Node, nat>

    ghost predicate Valid()
      reads this
    {
      Forest(par, level)
    }

    constructor ()
      ensures Valid() && par == map[] && level == map[]
    {
      par, level := map[], map[];
    }

    /** A node on its own. */
    method Insert(n: Node)
      requires Valid() && forall x :: x in par ==> par[x] == x
      modifies this
      ensures Valid() && par == old(par)[n := n] && forall x :: x in par ==> par[x] == x
    {
      par, level := par[n := n], level[n := 0];
    }

    /** The root of x; halving the path there changes no root. */
    method Find(x0: Node) returns (x: Node)
      requires Valid() && x0 in par
      modifies this
      ensures Valid() && level == old(level) && SameRoots(old(par), par, level)
      ensures x0 in par && x == Root(par, level, x0) && par[x] == x
    {
      hide Root, Forest, SameRoots;
      par, x := Halve(par, level, x0);
    }

    /** The trees of both ends become one. */
    method Join(a0: Node, b0: Node, ghost E: seq<Edge>)
      requires Valid() && a0 in par && b0 in par
      requires TreesAreComponents(par, level, E) && EdgesIn(E, par.Keys)
      modifies this
      ensures Valid() && par.Keys == old(par.Keys) && TreesAreComponents(par, level, E + [(a0, b0)])
    {
      hide Root, Forest, TreesAreComponents, EdgesIn;
      ghost var lev;
      par, lev := JoinTrees(par, level, a0, b0, E);
      level := lev;
    }
  }

  ghost predicate SameRoots(par: Parents, par': Parents, level: map<Node, nat>)
    requires Forest(par, level)
  {
    && par'.Keys == par.Keys && Forest(par', level)
    && forall n {:trigger Root(par', level, n)} :: n in par ==> Root(par', level, n) == Root(par, level, n)
  }

  method Halve(par0: Parents, ghost level: map<Node, nat>, x0: Node) returns (par: Parents, x: Node)
    requires Forest(par0, level) && x0 in par0
    ensures par.Keys == par0.Keys && Forest(par, level) && SameRoots(par0, par, level)
    ensures x0 in par && x in par && x == Root(par, level, x0) && par[x] == x
  {
    hide Root, Forest, Halved;
    SameKeys(par0, level);
    par, x := par0, x0;
    while par[x] != x
      invariant SameRoots(par0, par, level) && x in par
      invariant Root(par, level, x) == Root(par0, level, x0)
      invariant x in level
      decreases level[x]
    {
      HalvingStep(par, level, x);
      par := Halved(par, x);
      x := par[x];
    }
    AtRoot(par, level, x);
  }

  lemma SameKeys(par: Parents, level: map<Node, nat>)
    requires Forest(par, level)
    ensures level.Keys == par.Keys
  {
  }

  /** The trees of both ends become one. */
  method JoinTrees(par0: Parents, ghost level0: map<Node, nat>, a0: Node, b0: Node, ghost E: seq<Edge>)
    returns (par: Parents, ghost level: map<Node, nat>)
    requires Forest(par0, level0) && a0 in par0 && b0 in par0
    requires TreesAreComponents(par0, level0, E) && EdgesIn(E, par0.Keys)
    ensures Forest(par, level) && par.Keys == par0.Keys && TreesAreComponents(par, level, E + [(a0, b0)])
  {
    hide Root, Forest, TreesAreComponents, EdgesIn, Lifted, Moves, SameRoots;
    var mid, a := Halve(par0, level0, a0);
    var b;
    par, b := Halve(mid, level0, b0);
    RootsFollow(par0, mid, par, level0);
    RootSame(par0, mid, level0, a0);
    RootSame(par0, par, level0, b0);
    RootStays(par0, mid, par, level0, a);
    if a != b {
      HungJoins(par0, level0, par, a, b, E, a0, b0);
      par, level := par[a := b], Lifted(par, level0, a, b);
    } else {
      level := level0;
      SameJoins(par0, level0, par, E, a0, b0);
    }
  }

  /** The roots of a link's ends, hung one under the other, join what the link joins. */
  lemma HungJoins(par: Parents, level: map<Node, nat>, mid: Parents, a: Node, b: Node, E: seq<Edge>, a0: Node, b0: Node)
    requires Forest(par, level) && SameRoots(par, mid, level) && a0 in par && b0 in par
    requires a == Root(par, level, a0) && b == Root(par, level, b0) && a != b
    requires a in mid && b in mid && mid[a] == a && mid[b] == b
    requires TreesAreComponents(par, level, E) && EdgesIn(E, par.Keys)
    ensures Forest(mid[a := b], Lifted(mid, level, a, b)) && mid[a := b].Keys == par.Keys
    ensures TreesAreComponents(mid[a := b], Lifted(mid, level, a, b), E + [(a0, b0)])
  {
    hide Root, Forest, TreesAreComponents, EdgesIn, Lifted, Moves;
    HangForest(mid, level, a, b);
    HangMoves(par, level, mid, a, b);
    JoinKeepsComponents(par, level, mid[a := b], Lifted(mid, level, a, b), E, a0, b0);
  }

  lemma SameJoins(par: Parents, level: map<Node, nat>, mid: Parents, E: seq<Edge>, a0: Node, b0: Node)
    requires Forest(par, level) && SameRoots(par, mid, level) && a0 in par && b0 in par
    requires Root(par, level, a0) == Root(par, level, b0)
    requires TreesAreComponents(par, level, E) && EdgesIn(E, par.Keys)
    ensures Forest(mid, level) && TreesAreComponents(mid, level, E + [(a0, b0)])
  {
    hide Root, Forest, TreesAreComponents, EdgesIn, Moves;
    StayMoves(par, level, mid, Root(par, level, a0));
    JoinKeepsComponents(par, level, mid, level, E, a0, b0);
  }

  lemma RootsFollow(par: Parents, mid: Parents, par': Parents, level: map<Node, nat>)
    requires Forest(par, level) && SameRoots(par, mid, level) && SameRoots(mid, par', level)
    ensures SameRoots(par, par', level)
  {
    hide Root, Forest;
    forall n | n in par ensures Root(par', level, n) == Root(par, level, n) {
      assert Root(mid, level, n) == Root(par, level, n);
    }
  }

  lemma RootSame(par: Parents, par': Parents, level: map<Node, nat>, n: Node)
    requires Forest(par, level) && Forest(par', level) && SameRoots(par, par', level) && n in par && n in par'
    ensures Root(par', level, n) == Root(par, level, n)
  {
    hide Root, Forest;
  }

  /** A root is still one after more halving. */
  lemma RootStays(par: Parents, mid: Parents, par': Parents, level: map<Node, nat>, a: Node)
    requires Forest(par, level) && SameRoots(par, mid, level) && SameRoots(mid, par', level)
    requires a in mid && mid[a] == a
    ensures a in par' && par'[a] == a
  {
    hide Root, Forest;
    AtRoot(mid, level, a);
    assert Root(par', level, a) == a;
  }

  /** One step of Find: x is pointed at its grandparent and the search goes on there. */
  lemma HalvingStep(par: Parents, level: map<Node, nat>, x: Node)
    requires Forest(par, level) && x in par && par[x] != x
    ensures par[x] in par && Forest(Halved(par, x), level)
    ensures forall n {:trigger Root(Halved(par, x), level, n)} :: n in par ==> Root(Halved(par, x), level, n) == Root(par, level, n)
    ensures var y := Halved(par, x)[x];
            && y in par && x in level && y in level && level[y] < level[x]
            && Root(Halved(par, x), level, y) == Root(Halved(par, x), level, x)
  {
    hide Root, Forest, Halved;
    HalvingForest(par, level, x);
    StepUp(par, level, x);
    StepUp(par, level, par[x]);
    StepUp(Halved(par, x), level, x);
    forall n | n in par ensures Root(Halved(par, x), level, n) == Root(par, level, n) {
      HalvingKeepsRoots(par, level, x, n);
    }
  }

  ghost predicate EdgesIn(E: seq<Edge>, nodes: set<Node>) {
    forall x, y :: (x, y) in E ==> x in nodes && y in nodes
  }

  /** Exactly the nodes under root a moved, and they moved under root b. */
  ghost predicate Moves(par: Parents, level: map<Node, nat>, par': Parents, level': map<Node, nat>, a: Node, b: Node)
    requires Forest(par, level) && Forest(par', level') && par'.Keys == par.Keys
  {
    forall n {:trigger Root(par', level', n)} ::
      n in par ==> Root(par', level', n) == if Root(par, level, n) == a then b else Root(par, level, n)
  }

  lemma HangMoves(was: Parents, level: map<Node, nat>, mid: Parents, a: Node, b: Node)
    requires Forest(was, level) && SameRoots(was, mid, level)
    requires a in mid && b in mid && mid[a] == a && mid[b] == b && a != b
    requires Forest(mid[a := b], Lifted(mid, level, a, b))
    ensures Moves(was, level, mid[a := b], Lifted(mid, level, a, b), a, b)
  {
    hide Root, Forest, Lifted;
    forall n | n in was
      ensures Root(mid[a := b], Lifted(mid, level, a, b), n) == if Root(was, level, n) == a then b else Root(was, level, n)
    {
      HangJoins(mid, level, a, b, n);
    }
  }

  lemma StayMoves(was: Parents, level: map<Node, nat>, mid: Parents, a: Node)
    requires Forest(was, level) && SameRoots(was, mid, level)
    ensures Moves(was, level, mid, level, a, a)
  {
    hide Root, Forest;
  }

  lemma AtRoot(par: Parents, level: map<Node, nat>, x: Node)
    requires Forest(par, level) && x in par && par[x] == x
    ensures Root(par, level, x) == x
  {
  }

  // ---- the nodes and their components ----

  function AddNode(nodes: seq<Node>, n: Node): seq<Node> {
    if n in nodes then nodes else nodes + [n]
  }

  function TgNodes(tgs: seq<Id>): seq<Node> {
    if tgs == [] then [] else AddNode(TgNodes(tgs[..|tgs| - 1]), Tg(tgs[|tgs| - 1]))
  }

  /** The listed nodes, each once, talkgroups first. */
  function Nodes(tgs: seq<Id>, radios: seq<Radio>): seq<Node> {
    if radios == [] then TgNodes(tgs) else AddNode(Nodes(tgs, radios[..|radios| - 1]), Rad(radios[|radios| - 1].id))
  }

  lemma {:induction false} TgNodesAre(tgs: seq<Id>)
    ensures Distinct(TgNodes(tgs)) && forall n :: n in TgNodes(tgs) <==> n.Tg? && n.id in tgs
  {
    if tgs != [] {
      TgNodesAre(tgs[..|tgs| - 1]);
      assert forall t :: t in tgs <==> t in tgs[..|tgs| - 1] || t == tgs[|tgs| - 1];
    }
  }

  lemma {:induction false} NodesAre(tgs: seq<Id>, radios: seq<Radio>)
    ensures Distinct(Nodes(tgs, radios)) && forall n :: n in Nodes(tgs, radios) <==> n in Listed(tgs, radios)
  {
    if radios == [] {
      TgNodesAre(tgs);
    } else {
      NodesAre(tgs, radios[..|radios| - 1]);
      assert forall r :: r in radios <==> r in radios[..|radios| - 1] || r == radios[|radios| - 1];
    }
  }

  datatype Group = Group(t: seq<Id>, r: seq<Id>)

  const EMPTY_GROUP := Group([], [])

  function AddMember(g: Group, n: Node): Group {
    match n case Tg(id) => g.(t := g.t + [id]) case Rad(id) => g.(r := g.r + [id])
  }

  predicate Holds(g: Group, n: Node) {
    match n case Tg(id) => id in g.t case Rad(id) => id in g.r
  }

  /** The nodes of s linked to x, in order. */
  ghost function Component(E: seq<Edge>, s: seq<Node>, x: Node): Group {
    if s == [] then EMPTY_GROUP
    else
      var g := Component(E, s[..|s| - 1], x);
      if Linked(E, x, s[|s| - 1]) then AddMember(g, s[|s| - 1]) else g
  }

  /** Worth showing: radios tied to radios, or a radio to a talkgroup. */
  predicate Worth(g: Group) {
    |g.r| >= 2 || (|g.r| >= 1 && |g.t| >= 1)
  }

  /** How many of the groups hold n. */
  function Holders(gs: seq<Group>, n: Node): nat {
    if gs == [] then 0 else (if Holds(gs[0], n) then 1 else 0) + Holders(gs[1..], n)
  }

  const LARGEST := (g: Group) => -(|g.r| + |g.t|)

  function WorthOnes(gs: seq<Group>): seq<Group> {
    if gs == [] then [] else if Worth(gs[0]) then [gs[0]] + WorthOnes(gs[1..]) else WorthOnes(gs[1..])
  }

  // ---- groups by root ----

  /** The nodes of s under root r, in order. */
  function Under(s: seq<Node>, root: map<Node, Node>, r: Node): Group
    requires forall n :: n in s ==> n in root
  {
    if s == [] then EMPTY_GROUP
    else
      var g := Under(s[..|s| - 1], root, r);
      if root[s[|s| - 1]] == r then AddMember(g, s[|s| - 1]) else g
  }

  lemma {:induction false} UnderHolds(s: seq<Node>, root: map<Node, Node>, r: Node, n: Node)
    requires forall m :: m in s ==> m in root
    ensures Holds(Under(s, root, r), n) <==> n in s && root[n] == r
  {
    if s != [] {
      UnderHolds(s[..|s| - 1], root, r, n);
      assert n in s <==> n in s[..|s| - 1] || n == s[|s| - 1];
    }
  }

  lemma {:induction false} UnderIsComponent(E: seq<Edge>, s: seq<Node>, root: map<Node, Node>, x: Node)
    requires x in root && (forall n :: n in s ==> n in root && (root[x] == root[n] <==> Linked(E, x, n)))
    ensures Under(s, root, root[x]) == Component(E, s, x)
  {
    if s != [] {
      hide Linked;
      UnderIsComponent(E, s[..|s| - 1], root, x);
    }
  }

  lemma {:induction false} ComponentHolds(E: seq<Edge>, s: seq<Node>, x: Node, n: Node)
    ensures Holds(Component(E, s, x), n) <==> n in s && Linked(E, x, n)
  {
    hide Linked;
    if s != [] {
      ComponentHolds(E, s[..|s| - 1], x, n);
      assert n in s <==> n in s[..|s| - 1] || n == s[|s| - 1];
    }
  }

  /** The groups of the roots of rs. */
  function GroupsUnder(s: seq<Node>, root: map<Node, Node>, rs: seq<Node>): seq<Group>
    requires forall n :: n in s ==> n in root
  {
    if rs == [] then [] else [Under(s, root, rs[0])] + GroupsUnder(s, root, rs[1..])
  }

  lemma {:induction false} GroupsUnderAt(s: seq<Node>, root: map<Node, Node>, rs: seq<Node>)
    requires forall n :: n in s ==> n in root
    ensures |GroupsUnder(s, root, rs)| == |rs|
    ensures forall i :: 0 <= i < |rs| ==> GroupsUnder(s, root, rs)[i] == Under(s, root, rs[i])
  {
    if rs != [] { GroupsUnderAt(s, root, rs[1..]); }
  }

  lemma {:induction false} HoldersUnder(s: seq<Node>, root: map<Node, Node>, rs: seq<Node>, n: Node)
    requires (forall m :: m in s ==> m in root) && n in s && Distinct(rs)
    ensures Holders(WorthOnes(GroupsUnder(s, root, rs)), n) ==
            if root[n] in rs && Worth(Under(s, root, root[n])) then 1 else 0
  {
    hide Worth, Holds, Under;
    if rs != [] {
      HoldersUnder(s, root, rs[1..], n);
      UnderHolds(s, root, rs[0], n);
      var g, rest := Under(s, root, rs[0]), WorthOnes(GroupsUnder(s, root, rs[1..]));
      assert GroupsUnder(s, root, rs)[1..] == GroupsUnder(s, root, rs[1..]);
      assert ([g] + rest)[1..] == rest;
      assert root[n] in rs <==> root[n] == rs[0] || root[n] in rs[1..];
    }
  }

  lemma {:induction false} HoldersInsert(g: Group, gs: seq<Group>, n: Node)
    ensures Holders(InsertFirst(g, gs, LARGEST), n) == (if Holds(g, n) then 1 else 0) + Holders(gs, n)
  {
    hide Holds;
    assert ([g] + gs)[1..] == gs;
    if gs != [] && LARGEST(g) > LARGEST(gs[0]) {
      HoldersInsert(g, gs[1..], n);
      var rest := InsertFirst(g, gs[1..], LARGEST);
      assert ([gs[0]] + rest)[1..] == rest;
    }
  }

  lemma {:induction false} HoldersSort(gs: seq<Group>, n: Node)
    ensures Holders(Sort(gs, LARGEST), n) == Holders(gs, n)
  {
    hide Holds;
    if gs != [] {
      HoldersSort(gs[1..], n);
      HoldersInsert(gs[0], Sort(gs[1..], LARGEST), n);
    }
  }

  lemma {:induction false} WorthOnesAre(gs: seq<Group>)
    ensures forall g :: g in WorthOnes(gs) <==> g in gs && Worth(g)
  {
    hide Worth;
    if gs != [] {
      WorthOnesAre(gs[1..]);
      assert forall g :: g in gs <==> g == gs[0] || g in gs[1..];
    }
  }

  // ---- the program ----

  lemma AloneAreComponents(par: Parents, level: map<Node, nat>)
    requires Forest(par, level) && forall x :: x in par ==> par[x] == x
    ensures TreesAreComponents(par, level, [])
  {
    forall x, y | x in par && y in par ensures Root(par, level, x) == Root(par, level, y) <==> Linked([], x, y) {
      AtRoot(par, level, x);
      AtRoot(par, level, y);
      if Linked([], x, y) {
        var p :| Path([], p) && p[0] == x && p[|p| - 1] == y;
        assert |p| > 1 ==> Adjacent([], p[0], p[1]);
      }
      LinkedSelf([], x);
    }
  }

  method InsertAll(t: Table, tgs: seq<Id>, radios: seq<Radio>) returns (nodes: seq<Node>)
    requires t.Valid() && t.par == map[]
    modifies t
    ensures t.Valid() && nodes == Nodes(tgs, radios) && t.par.Keys == Listed(tgs, radios)
    ensures TreesAreComponents(t.par, t.level, [])
  {
    hide Forest, TreesAreComponents;
    nodes := [];
    for i := 0 to |tgs|
      invariant t.Valid() && nodes == TgNodes(tgs[..i]) && t.par.Keys == (set n | n in nodes)
      invariant forall x :: x in t.par ==> t.par[x] == x
    {
      assert tgs[..i + 1][..i] == tgs[..i];
      t.Insert(Tg(tgs[i]));
      nodes := AddNode(nodes, Tg(tgs[i]));
    }
    assert tgs[..|tgs|] == tgs;
    for i := 0 to |radios|
      invariant t.Valid() && nodes == Nodes(tgs, radios[..i]) && t.par.Keys == (set n | n in nodes)
      invariant forall x :: x in t.par ==> t.par[x] == x
    {
      assert radios[..i + 1][..i] == radios[..i];
      t.Insert(Rad(radios[i].id));
      nodes := AddNode(nodes, Rad(radios[i].id));
    }
    assert radios[..|radios|] == radios;
    NodesAre(tgs, radios);
    AloneAreComponents(t.par, t.level);
  }

  method LinkAll(t: Table, a: Node, ends: seq<Node>, listed: set<Node>, ghost E: seq<Edge>)
    requires t.Valid() && t.par.Keys == listed && a in listed
    requires TreesAreComponents(t.par, t.level, E) && EdgesIn(E, listed)
    modifies t
    ensures t.Valid() && t.par.Keys == listed
    ensures TreesAreComponents(t.par, t.level, E + Links(a, ends, listed)) && EdgesIn(E + Links(a, ends, listed), listed)
  {
    hide Forest, TreesAreComponents, EdgesIn;
    ghost var F := E;
    var i := 0;
    assert ends[0..] == ends;
    while i < |ends|
      invariant i <= |ends| && t.Valid() && t.par.Keys == listed
      invariant F + Links(a, ends[i..], listed) == E + Links(a, ends, listed)
      invariant TreesAreComponents(t.par, t.level, F) && EdgesIn(F, listed)
    {
      assert ends[i..][0] == ends[i] && ends[i..][1..] == ends[i + 1..];
      if ends[i] in listed {
        t.Join(a, ends[i], F);
        EdgesInOne(F, a, ends[i], listed);
        assert F + ([(a, ends[i])] + Links(a, ends[i + 1..], listed)) == F + [(a, ends[i])] + Links(a, ends[i + 1..], listed);
        F := F + [(a, ends[i])];
      }
      i := i + 1;
    }
    assert F + [] == F;
  }

  lemma EdgesInOne(F: seq<Edge>, a: Node, b: Node, nodes: set<Node>)
    requires EdgesIn(F, nodes) && a in nodes && b in nodes
    ensures EdgesIn(F + [(a, b)], nodes)
  {
  }

  method LinkRadios(t: Table, radios: seq<Radio>, listed: set<Node>)
    requires t.Valid() && t.par.Keys == listed && forall r :: r in radios ==> Rad(r.id) in listed
    requires TreesAreComponents(t.par, t.level, [])
    modifies t
    ensures t.Valid() && t.par.Keys == listed && TreesAreComponents(t.par, t.level, Edges(radios, listed))
  {
    hide Forest, TreesAreComponents;
    for i := 0 to |radios|
      invariant t.Valid() && t.par.Keys == listed && TreesAreComponents(t.par, t.level, Edges(radios[..i], listed))
      invariant EdgesIn(Edges(radios[..i], listed), listed)
    {
      assert radios[..i + 1][..i] == radios[..i] && radios[..i + 1][i] == radios[i];
      LinkAll(t, Rad(radios[i].id), Ends(radios[i]), listed, Edges(radios[..i], listed));
    }
    assert radios[..|radios|] == radios;
  }

  /** The root of every node, and from it the groups in the order their first members come. */
  method GroupNodes(t: Table, nodes: seq<Node>, ghost root: map<Node, Node>) returns (gs: seq<Group>, ghost rs: seq<Node>)
    requires t.Valid() && (forall n :: n in nodes ==> n in t.par)
    requires root.Keys == t.par.Keys && forall n :: n in t.par ==> root[n] == Root(t.par, t.level, n)
    modifies t
    ensures gs == GroupsUnder(nodes, root, rs) && Distinct(rs)
    ensures forall r :: r in rs <==> exists n :: n in nodes && root[n] == r
  {
    hide Forest, Root, AddMember, Grouped, GroupsUnder;
    var g: map<Node, Group>, order: seq<Node> := map[], [];
    assert Grouped(g, order, nodes[..0], root) by { NoneGrouped(root); }
    for i := 0 to |nodes|
      invariant t.Valid() && t.par.Keys == root.Keys
      invariant forall n {:trigger Root(t.par, t.level, n)} :: n in t.par ==> Root(t.par, t.level, n) == root[n]
      invariant Grouped(g, order, nodes[..i], root)
    {
      var n := nodes[i];
      ghost var was, lev := t.par, t.level;
      var r := t.Find(n);
      RootSame(was, t.par, lev, n);
      GroupMore(g, order, nodes, i, root);
      g := g[r := AddMember(if r in g then g[r] else EMPTY_GROUP, n)];
      if r !in order { order := order + [r]; }
    }
    assert nodes[..|nodes|] == nodes;
    rs := order;
    gs := ListGroups(g, order, nodes, root);
  }

  method ListGroups(g: map<Node, Group>, order: seq<Node>, ghost nodes: seq<Node>, ghost root: map<Node, Node>)
    returns (gs: seq<Group>)
    requires Grouped(g, order, nodes, root)
    ensures (forall n :: n in nodes ==> n in root) && gs == GroupsUnder(nodes, root, order) && Distinct(order)
    ensures forall r :: r in order <==> exists n :: n in nodes && root[n] == r
  {
    hide Distinct, Under;
    gs := [];
    for i := 0 to |order|
      invariant |gs| == i && forall j :: 0 <= j < i ==> gs[j] == Under(nodes, root, order[j])
    {
      gs := gs + [g[order[i]]];
    }
    GroupsUnderAt(nodes, root, order);
  }

  lemma NoneGrouped(root: map<Node, Node>)
    ensures Grouped(map[], [], [], root)
  {
  }

  /** The groups of the nodes so far. */
  ghost predicate Grouped(g: map<Node, Group>, order: seq<Node>, s: seq<Node>, root: map<Node, Node>) {
    && (forall n :: n in s ==> n in root)
    && Distinct(order) && (forall r :: r in order <==> r in g)
    && (forall r :: r in g ==> g[r] == Under(s, root, r))
    && (forall r :: r in g <==> exists n :: n in s && root[n] == r)
  }

  lemma GroupMore(g: map<Node, Group>, order: seq<Node>, nodes: seq<Node>, i: nat, root: map<Node, Node>)
    requires i < |nodes| && Grouped(g, order, nodes[..i], root) && nodes[i] in root
    ensures var n, r := nodes[i], root[nodes[i]];
            Grouped(g[r := AddMember(if r in g then g[r] else EMPTY_GROUP, n)], if r in order then order else order + [r],
                    nodes[..i + 1], root)
  {
    hide AddMember;
    var s, t := nodes[..i], nodes[..i + 1];
    var n, r := nodes[i], root[nodes[i]];
    assert t[..|t| - 1] == s && t[|t| - 1] == n;
    assert forall m :: m in t <==> m in s || m == n;
    if r !in g { UnderNone(s, root, r); }
    var g' := g[r := AddMember(if r in g then g[r] else EMPTY_GROUP, n)];
    forall q | q in g' ensures g'[q] == Under(t, root, q) { }
    forall q ensures q in g' <==> exists m :: m in t && root[m] == q {
      if q == r { assert n in t && root[n] == q; }
    }
  }

  lemma {:induction false} UnderNone(s: seq<Node>, root: map<Node, Node>, r: Node)
    requires (forall n :: n in s ==> n in root) && forall n :: n in s ==> root[n] != r
    ensures Under(s, root, r) == EMPTY_GROUP
  {
    if s != [] { UnderNone(s[..|s| - 1], root, r); }
  }

  /** Every community shown is the component of a listed node and worth showing; every node of a component worth
      showing is in exactly one of them, and no other node in any; the largest come first. */
  ghost predicate AreCommunities(out: seq<Group>, E: seq<Edge>, nodes: seq<Node>) {
    && (forall g :: g in out ==> Worth(g) && exists x :: x in nodes && g == Component(E, nodes, x))
    && (forall n :: n in nodes ==> Holders(out, n) == if Worth(Component(E, nodes, n)) then 1 else 0)
    && (forall i, j :: 0 <= i < j < |out| ==> |out[j].r| + |out[j].t| <= |out[i].r| + |out[i].t|)
  }

  predicate Together(out: seq<Group>, x: Node, y: Node) {
    exists g :: g in out && Holds(g, x) && Holds(g, y)
  }

  lemma {:induction false} HeldBySome(out: seq<Group>, n: Node)
    ensures Holders(out, n) > 0 <==> exists g :: g in out && Holds(g, n)
  {
    hide Holds;
    if out != [] {
      HeldBySome(out[1..], n);
      assert forall g :: g in out <==> g == out[0] || g in out[1..];
    }
  }

  /** Two nodes are shown in one community exactly if both are listed, a path of links joins them, and their component
      is worth showing. */
  lemma TogetherIffLinked(out: seq<Group>, E: seq<Edge>, nodes: seq<Node>, x: Node, y: Node)
    requires AreCommunities(out, E, nodes)
    ensures Together(out, x, y) <==> x in nodes && y in nodes && Linked(E, x, y) && Worth(Component(E, nodes, x))
  {
    hide Linked, Component, Holds, Holders, Worth;
    HeldBySome(out, x);
    forall g | g in out && Holds(g, x) ensures x in nodes && (Holds(g, y) <==> y in nodes && Linked(E, x, y)) {
      var z :| z in nodes && g == Component(E, nodes, z);
      ComponentHolds(E, nodes, z, x);
      ComponentHolds(E, nodes, z, y);
      LinkedSymmetric(E, z, x);
      if Linked(E, x, y) { LinkedTransitive(E, z, x, y); }
      if Linked(E, z, y) { LinkedTransitive(E, x, z, y); }
    }
  }

  /** The table after every link, and the nodes in it. */
  method BuildTable(tgs: seq<Id>, radios: seq<Radio>) returns (t: Table, nodes: seq<Node>)
    ensures fresh(t) && t.Valid() && nodes == Nodes(tgs, radios) && t.par.Keys == Listed(tgs, radios)
    ensures TreesAreComponents(t.par, t.level, Edges(radios, Listed(tgs, radios)))
  {
    hide Forest, TreesAreComponents, Nodes, Edges;
    t := new Table();
    nodes := InsertAll(t, tgs, radios);
    LinkRadios(t, radios, Listed(tgs, radios));
  }

  // ---- the communities in terms of the radios' own records ----

  /** The radio used the talkgroup, or called the radio, that y is. */
  predicate Reaches(r: Radio, y: Node) {
    match y case Tg(t) => t in r.tgs case Rad(p) => p in r.peers
  }

  /** One of the two is a radio that used or called the other. */
  predicate Talked(radios: seq<Radio>, x: Node, y: Node) {
    exists r :: r in radios && ((x == Rad(r.id) && Reaches(r, y)) || (y == Rad(r.id) && Reaches(r, x)))
  }

  /** Listed nodes, each of which talked to the next. */
  ghost predicate Chain(tgs: seq<Id>, radios: seq<Radio>, p: seq<Node>) {
    && p != [] && (forall i :: 0 <= i < |p| ==> p[i] in Listed(tgs, radios))
    && forall i :: 0 < i < |p| ==> Talked(radios, p[i - 1], p[i])
  }

  ghost predicate Tied(tgs: seq<Id>, radios: seq<Radio>, x: Node, y: Node) {
    exists p :: Chain(tgs, radios, p) && p[0] == x && p[|p| - 1] == y
  }

  lemma {:induction false} LinksAre(a: Node, ends: seq<Node>, listed: set<Node>, x: Node, y: Node)
    ensures (x, y) in Links(a, ends, listed) <==> x == a && y in ends && y in listed
  {
    if ends != [] {
      LinksAre(a, ends[1..], listed, x, y);
      assert y in ends <==> y == ends[0] || y in ends[1..];
    }
  }

  lemma EndsAre(r: Radio, y: Node)
    ensures y in Ends(r) <==> Reaches(r, y)
  {
    var n := |r.tgs|;
    match y
    case Tg(t) =>
      if t in r.tgs {
        var i :| 0 <= i < n && r.tgs[i] == t;
        assert Ends(r)[i] == y;
      }
    case Rad(q) =>
      if q in r.peers {
        var i :| 0 <= i < |r.peers| && r.peers[i] == q;
        assert Ends(r)[n + i] == y;
      }
  }

  /** The links are what the radios' records say: who used and called whom, among the listed. */
  lemma {:induction false} EdgesAre(radios: seq<Radio>, listed: set<Node>, x: Node, y: Node)
    ensures (x, y) in Edges(radios, listed) <==> y in listed && exists r :: r in radios && x == Rad(r.id) && Reaches(r, y)
  {
    hide Ends, Links, Reaches;
    if radios != [] {
      var before, r := radios[..|radios| - 1], radios[|radios| - 1];
      EdgesAre(before, listed, x, y);
      LinksAre(Rad(r.id), Ends(r), listed, x, y);
      EndsAre(r, y);
      assert forall q :: q in radios <==> q in before || q == r;
    }
  }

  lemma AdjacentIffTalked(tgs: seq<Id>, radios: seq<Radio>, x: Node, y: Node)
    ensures Adjacent(Edges(radios, Listed(tgs, radios)), x, y) <==>
            x in Listed(tgs, radios) && y in Listed(tgs, radios) && Talked(radios, x, y)
  {
    hide Edges, Reaches;
    EdgesAre(radios, Listed(tgs, radios), x, y);
    EdgesAre(radios, Listed(tgs, radios), y, x);
  }

  lemma LinkedIffTied(tgs: seq<Id>, radios: seq<Radio>, x: Node, y: Node)
    requires x in Listed(tgs, radios)
    ensures Linked(Edges(radios, Listed(tgs, radios)), x, y) <==> Tied(tgs, radios, x, y)
  {
    hide Edges, Listed, Talked, Adjacent;
    var E := Edges(radios, Listed(tgs, radios));
    if p :| Path(E, p) && p[0] == x && p[|p| - 1] == y {
      forall i | 0 < i < |p| ensures p[i] in Listed(tgs, radios) && Talked(radios, p[i - 1], p[i]) {
        AdjacentIffTalked(tgs, radios, p[i - 1], p[i]);
      }
      assert Chain(tgs, radios, p);
    }
    if p :| Chain(tgs, radios, p) && p[0] == x && p[|p| - 1] == y {
      forall i | 0 < i < |p| ensures Adjacent(E, p[i - 1], p[i]) { AdjacentIffTalked(tgs, radios, p[i - 1], p[i]); }
      assert Path(E, p);
    }
  }

  lemma FirstStep(tgs: seq<Id>, radios: seq<Radio>, x: Node, y: Node)
    requires Tied(tgs, radios, x, y) && x != y
    ensures exists z :: z in Listed(tgs, radios) && z != x && Talked(radios, x, z)
  {
    hide Talked, Listed;
    var p :| Chain(tgs, radios, p) && p[0] == x && p[|p| - 1] == y;
    var k := 1;
    while p[k] == x
      invariant 0 < k < |p| && forall i :: 0 <= i < k ==> p[i] == x
      decreases |p| - k
    {
      k := k + 1;
    }
    assert p[k - 1] == x && Talked(radios, p[k - 1], p[k]);
  }

  /** Only radios make links: a component of two nodes or more is worth showing. */
  lemma TwoAreWorth(tgs: seq<Id>, radios: seq<Radio>, x: Node, y: Node)
    requires x in Listed(tgs, radios) && y in Listed(tgs, radios) && x != y && Talked(radios, x, y)
    ensures Worth(Component(Edges(radios, Listed(tgs, radios)), Nodes(tgs, radios), x))
  {
    hide Edges, Listed, Talked, Linked, Component, Nodes, Worth, Holds;
    var E, nodes := Edges(radios, Listed(tgs, radios)), Nodes(tgs, radios);
    NodesAre(tgs, radios);
    assert Chain(tgs, radios, [x, y]);
    LinkedIffTied(tgs, radios, x, y);
    LinkedSelf(E, x);
    ComponentHolds(E, nodes, x, x);
    ComponentHolds(E, nodes, x, y);
    TalkedRadio(radios, x, y);
    WorthPair(Component(E, nodes, x), x, y);
  }

  lemma TalkedRadio(radios: seq<Radio>, x: Node, y: Node)
    requires Talked(radios, x, y)
    ensures x.Rad? || y.Rad?
  {
  }

  lemma WorthPair(g: Group, x: Node, y: Node)
    requires Holds(g, x) && Holds(g, y) && x != y && (x.Rad? || y.Rad?)
    ensures Worth(g)
  {
    if x.Rad? && y.Rad? {
      var i :| 0 <= i < |g.r| && g.r[i] == x.id;
      var j :| 0 <= j < |g.r| && g.r[j] == y.id;
      assert i != j;
    }
  }

  /** A component worth showing holds a node besides x. */
  lemma {:induction false} WorthHoldsAnother(E: seq<Edge>, s: seq<Node>, x: Node)
    requires Distinct(s) && Worth(Component(E, s, x))
    ensures exists y :: y != x && Holds(Component(E, s, x), y)
  {
    hide Linked;
    var g := Component(E, s, x);
    ComponentDistinct(E, s, x);
    if |g.r| >= 2 {
      var y := if x == Rad(g.r[0]) then Rad(g.r[1]) else Rad(g.r[0]);
      assert Holds(g, y);
    } else {
      var y := if x == Rad(g.r[0]) then Tg(g.t[0]) else Rad(g.r[0]);
      assert Holds(g, y);
    }
  }

  /** No node is twice in a component. */
  lemma {:induction false} ComponentDistinct(E: seq<Edge>, s: seq<Node>, x: Node)
    requires Distinct(s)
    ensures Distinct(Component(E, s, x).t) && Distinct(Component(E, s, x).r)
  {
    hide Linked;
    if s != [] {
      ComponentDistinct(E, s[..|s| - 1], x);
      ComponentHolds(E, s[..|s| - 1], x, s[|s| - 1]);
    }
  }

  /** Two nodes are shown in one community exactly if a chain of talk joins them, whatever their number. */
  lemma TogetherIffTied(out: seq<Group>, tgs: seq<Id>, radios: seq<Radio>, x: Node, y: Node)
    requires AreCommunities(out, Edges(radios, Listed(tgs, radios)), Nodes(tgs, radios)) && x != y
    ensures Together(out, x, y) <==> Tied(tgs, radios, x, y)
  {
    hide Edges, Listed, Nodes, Linked, Together, AreCommunities, Worth, Talked;
    TogetherIffLinked(out, Edges(radios, Listed(tgs, radios)), Nodes(tgs, radios), x, y);
    NodesAre(tgs, radios);
    if x in Listed(tgs, radios) {
      LinkedIffTied(tgs, radios, x, y);
      if Tied(tgs, radios, x, y) {
        FirstStep(tgs, radios, x, y);
        var z :| z in Listed(tgs, radios) && z != x && Talked(radios, x, z);
        TwoAreWorth(tgs, radios, x, z);
      }
    }
  }

  /** A node is shown exactly if it talked to another listed node, then in one community and once in it. */
  lemma ShownIffTalked(out: seq<Group>, tgs: seq<Id>, radios: seq<Radio>, x: Node)
    requires AreCommunities(out, Edges(radios, Listed(tgs, radios)), Nodes(tgs, radios)) && x in Listed(tgs, radios)
    ensures Holders(out, x) <= 1
    ensures Holders(out, x) == 1 <==> exists y :: y in Listed(tgs, radios) && y != x && Talked(radios, x, y)
    ensures forall g :: g in out ==> Distinct(g.t) && Distinct(g.r)
  {
    hide Edges, Listed, Nodes, Linked, Worth, Talked, Component, Holds, Distinct;
    var E, nodes := Edges(radios, Listed(tgs, radios)), Nodes(tgs, radios);
    NodesAre(tgs, radios);
    forall g | g in out ensures Distinct(g.t) && Distinct(g.r) {
      var z :| z in nodes && g == Component(E, nodes, z);
      ComponentDistinct(E, nodes, z);
    }
    if y :| y in Listed(tgs, radios) && y != x && Talked(radios, x, y) {
      TwoAreWorth(tgs, radios, x, y);
    }
    if Worth(Component(E, nodes, x)) {
      WorthHoldsAnother(E, nodes, x);
      var z :| z != x && Holds(Component(E, nodes, x), z);
      ComponentHolds(E, nodes, x, z);
      LinkedIffTied(tgs, radios, x, z);
      FirstStep(tgs, radios, x, z);
    }
  }

  method FindCommunities(tgs: seq<Id>, radios: seq<Radio>) returns (out: seq<Group>)
    ensures AreCommunities(out, Edges(radios, Listed(tgs, radios)), Nodes(tgs, radios))
    ensures forall x, y :: x != y ==> (Together(out, x, y) <==> Tied(tgs, radios, x, y))
  {
    hide Forest, Root, TreesAreComponents, AreCommunities, WorthOnes, Sort, Nodes, Edges, Distinct, Listed, GroupsUnder,
      TellsComponents, Together, Tied;
    var t, nodes := BuildTable(tgs, radios);
    NodesAre(tgs, radios);
    ghost var E := Edges(radios, Listed(tgs, radios));
    ghost var root := map n | n in t.par :: Root(t.par, t.level, n);
    RootsTellComponents(t.par, t.level, E, root, nodes);
    var gs, rs := GroupNodes(t, nodes, root);
    out := Sort(WorthOnes(gs), LARGEST);
    GroupsAreCommunities(E, nodes, root, rs);
    forall x, y | x != y ensures Together(out, x, y) <==> Tied(tgs, radios, x, y) { TogetherIffTied(out, tgs, radios, x, y); }
  }

  ghost predicate TellsComponents(root: map<Node, Node>, E: seq<Edge>, nodes: seq<Node>) {
    && (forall n :: n in nodes ==> n in root)
    && forall x, y :: x in nodes && y in nodes ==> (root[x] == root[y] <==> Linked(E, x, y))
  }

  lemma RootsTellComponents(par: Parents, level: map<Node, nat>, E: seq<Edge>, root: map<Node, Node>, nodes: seq<Node>)
    requires Forest(par, level) && TreesAreComponents(par, level, E) && root.Keys == par.Keys
    requires forall n :: n in par ==> root[n] == Root(par, level, n)
    requires forall n :: n in nodes ==> n in par
    ensures TellsComponents(root, E, nodes)
  {
    hide Forest, Root, Linked;
  }

  lemma GroupsAreCommunities(E: seq<Edge>, nodes: seq<Node>, root: map<Node, Node>, rs: seq<Node>)
    requires TellsComponents(root, E, nodes) && Distinct(rs)
    requires forall r :: r in rs <==> exists n :: n in nodes && root[n] == r
    ensures AreCommunities(Sort(WorthOnes(GroupsUnder(nodes, root, rs)), LARGEST), E, nodes)
  {
    hide Linked, Worth, Under, Component, WorthOnes, Sort, Holders, Distinct, GroupsUnder, Holds;
    var gs := GroupsUnder(nodes, root, rs);
    var out := Sort(WorthOnes(gs), LARGEST);
    GroupsUnderAt(nodes, root, rs);
    WorthOnesAre(gs);
    SortIsStable(WorthOnes(gs), LARGEST);
    SameMembers(WorthOnes(gs), out, LARGEST);
    forall g | g in out ensures Worth(g) && exists x :: x in nodes && g == Component(E, nodes, x) {
      var i :| 0 <= i < |gs| && gs[i] == g;
      assert rs[i] in rs;
      var x :| x in nodes && root[x] == rs[i];
      UnderIsComponent(E, nodes, root, x);
    }
    forall n | n in nodes ensures Holders(out, n) == if Worth(Component(E, nodes, n)) then 1 else 0 {
      HoldersSort(WorthOnes(gs), n);
      HoldersUnder(nodes, root, rs, n);
      UnderIsComponent(E, nodes, root, n);
      assert root[n] in rs;
    }
    forall i, j | 0 <= i < j < |out| ensures |out[j].r| + |out[j].t| <= |out[i].r| + |out[i].t| {
      assert LARGEST(out[i]) <= LARGEST(out[j]);
    }
  }
}
