/**
 * The other direction of the enumeration in src/graphcrunch.cpp:242-528:
 * every walk of distinct nodes a-b-c (a-b-c-d, a-b-c-d-e) that follows the
 * neighbour lists is reached by the nested `foreach_adj` loops, and the
 * instance it forms is counted; so is every claw, X11, X10 and X14 that the
 * side loops over the neighbours of b look for.
 */
module Coverage {
  import opened Tables
  import opened Classify
  import opened Graphs
  import opened Census

  /** The walk without its last node: the loop one level further out. */
  function Back(w: Walk): (r: Walk)
    requires !w.From?
    ensures r.Length() + 1 == w.Length()
  {
    match w
    case Two(a, _) => From(a)
    case Three(a, b, _) => Two(a, b)
    case Four(a, b, c, _) => Three(a, b, c)
  }

  /**
   * The loops can be on walk `w`: its first node is a node of the graph, and
   * each further node is in the list of the one before and not yet on the walk.
   */
  ghost predicate Path(g: Graph, w: Walk)
    decreases w.Length()
  {
    if w.From? then w.a < |g.nbrs|
    else
      && Path(g, Back(w))
      && w.Last() in Nbrs(g, Back(w).Last())
      && !Back(w).Has(w.Last())
  }

  /** A neighbour `x` that the loop over `xs` reaches contributes everything it starts. */
  lemma {:induction false} ExtendHas(g: Graph, w: Walk, xs: seq<nat>, x: nat, h: Hit)
    requires x in xs && !w.Has(x) && h in Next(g, w, x)
    ensures h in Extend(g, w, xs)
    decreases |xs|
  {
    var init := xs[..|xs| - 1];
    assert xs == init + [xs[|xs| - 1]];
    if x != xs[|xs| - 1] {
      assert x in init;
      ExtendHas(g, w, init, x, h);
    }
  }

  /** The outer loop reaches every node below `count`. */
  lemma {:induction false} WalksHas(g: Graph, count: nat, a: nat, h: Hit)
    requires a < count && h in Explore(g, From(a))
    ensures h in Walks(g, count)
    decreases count
  {
    if a < count - 1 {
      WalksHas(g, count - 1, a, h);
    }
  }

  /** Whatever the loops count below a walk they can be on is counted. */
  lemma {:induction false} ExploreReached(g: Graph, w: Walk, h: Hit)
    requires Path(g, w) && h in Explore(g, w)
    ensures h in Enumerate(g)
    decreases w.Length()
  {
    if w.From? {
      WalksHas(g, |g.nbrs|, w.a, h);
    } else {
      var v := Back(w);
      assert Explore(g, w) == Next(g, v, w.Last());
      ExtendHas(g, v, Nbrs(g, v.Last()), w.Last(), h);
      assert h in Explore(g, v) by {
        match v
        case From(_) =>
        case Two(_, _) =>
        case Three(a, b, c) =>
          assert Explore(g, v) == Here3(g, a, b, c) + Extend(g, v, Nbrs(g, c));
      }
      ExploreReached(g, v, h);
    }
  }

  /**
   * Every walk a-b-c of distinct nodes along the neighbour lists is counted
   * as a 3-node instance, classified from its three `Connected` bits.
   */
  lemma EnumerateComplete3(g: Graph, a: nat, b: nat, c: nat)
    requires b in Nbrs(g, a) && c in Nbrs(g, b)
    requires a != b && b != c && a != c
    ensures Hit(Class3(g.Conn(a, b), g.Conn(a, c), g.Conn(b, c)), [a, b, c]) in Enumerate(g)
  {
    var w := Three(a, b, c);
    assert Path(g, From(a));
    assert Path(g, Two(a, b));
    assert Path(g, w);
    ExploreReached(g, w, Hit(Class3(g.Conn(a, b), g.Conn(a, c), g.Conn(b, c)), [a, b, c]));
  }

  /**
   * Every walk a-b-c-d of distinct nodes along the neighbour lists is counted
   * as a 4-node instance: the classifier gives it a type.
   */
  lemma EnumerateComplete4(g: Graph, a: nat, b: nat, c: nat, d: nat)
    requires b in Nbrs(g, a) && c in Nbrs(g, b) && d in Nbrs(g, c)
    requires a != b && b != c && a != c && d != a && d != b && d != c
    ensures var s := Class4(g.Conn(a, b), g.Conn(a, c), g.Conn(a, d), g.Conn(b, c), g.Conn(b, d), g.Conn(c, d));
      s.Some? && Hit(s.value, [a, b, c, d]) in Enumerate(g)
  {
    var w := Four(a, b, c, d);
    assert Path(g, From(a));
    assert Path(g, Two(a, b));
    assert Path(g, Three(a, b, c));
    assert Path(g, w);
    Class4Walk(g.Conn(a, b), g.Conn(a, c), g.Conn(a, d), g.Conn(b, c), g.Conn(b, d), g.Conn(c, d));
    var s := Class4(g.Conn(a, b), g.Conn(a, c), g.Conn(a, d), g.Conn(b, c), g.Conn(b, d), g.Conn(c, d)).value;
    assert Explore(g, w) == Here4(g, a, b, c, d) + Extend(g, w, Nbrs(g, d));
    ExploreReached(g, w, Hit(s, [a, b, c, d]));
  }

  /**
   * Every walk a-b-c-d-e of distinct nodes along the neighbour lists is
   * counted as a 5-node instance: the classifier gives it a type.
   */
  lemma EnumerateComplete5(g: Graph, a: nat, b: nat, c: nat, d: nat, e: nat)
    requires b in Nbrs(g, a) && c in Nbrs(g, b) && d in Nbrs(g, c) && e in Nbrs(g, d)
    requires a != b && b != c && a != c && d != a && d != b && d != c
    requires e != a && e != b && e != c && e != d
    ensures var s := Class5(PairsOf(g, a, b, c, d, e));
      s.Some? && Hit(s.value, [a, b, c, d, e]) in Enumerate(g)
  {
    var w := Four(a, b, c, d);
    assert Path(g, From(a));
    assert Path(g, Two(a, b));
    assert Path(g, Three(a, b, c));
    assert Path(g, w);
    Class5Walk(PairsOf(g, a, b, c, d, e));
    var h := Hit(Class5(PairsOf(g, a, b, c, d, e)).value, [a, b, c, d, e]);
    assert h in Next(g, w, e);
    ExtendHas(g, w, Nbrs(g, d), e, h);
    assert Explore(g, w) == Here4(g, a, b, c, d) + Extend(g, w, Nbrs(g, d));
    ExploreReached(g, w, h);
  }

  /**
   * A path a-b-c is counted from both ends, as a-b-c and as c-b-a: at least
   * twice, against the overcount 2 of the path type.
   */
  lemma PathBothWays(g: Graph, a: nat, b: nat, c: nat)
    requires g.Valid() && b in Nbrs(g, a) && c in Nbrs(g, b) && a != c && !g.Conn(a, c)
    ensures Hit(Sig(0, [P3_A, P3_B, P3_A]), [a, b, c]) in Enumerate(g)
    ensures Hit(Sig(0, [P3_A, P3_B, P3_A]), [c, b, a]) in Enumerate(g)
  {
    ValidEntry(g, a, b);
    ValidEntry(g, b, c);
    ConnSymmetric(g);
    EnumerateComplete3(g, a, b, c);
    EnumerateComplete3(g, c, b, a);
  }

  /**
   * A triangle is counted from every node in both directions: at least six
   * times, against the overcount 6 of the triangle type.
   */
  lemma TriangleSixWays(g: Graph, a: nat, b: nat, c: nat)
    requires g.Valid() && b in Nbrs(g, a) && c in Nbrs(g, b) && a in Nbrs(g, c)
    ensures var t := Sig(1, [C3_A, C3_A, C3_A]);
      && Hit(t, [a, b, c]) in Enumerate(g) && Hit(t, [a, c, b]) in Enumerate(g)
      && Hit(t, [b, a, c]) in Enumerate(g) && Hit(t, [b, c, a]) in Enumerate(g)
      && Hit(t, [c, a, b]) in Enumerate(g) && Hit(t, [c, b, a]) in Enumerate(g)
  {
    ValidEntry(g, a, b);
    ValidEntry(g, b, c);
    ValidEntry(g, c, a);
    ConnSymmetric(g);
    EnumerateComplete3(g, a, b, c);
    EnumerateComplete3(g, a, c, b);
    EnumerateComplete3(g, b, a, c);
    EnumerateComplete3(g, b, c, a);
    EnumerateComplete3(g, c, a, b);
    EnumerateComplete3(g, c, b, a);
  }

  // ------------------------------------------------------------ side branches

  /** A list holding three different nodes has more than two entries: `DEGREE(b) > 2`. */
  lemma ThreeIn(xs: seq<nat>, x: nat, y: nat, z: nat)
    requires x in xs && y in xs && z in xs && x != y && y != z && x != z
    ensures |xs| > 2
  {
    var i :| 0 <= i < |xs| && xs[i] == x;
    var rest := xs[..i] + xs[i + 1..];
    assert xs == xs[..i] + [x] + xs[i + 1..];
    assert y in rest && z in rest;
  }

  /** A list holding four different nodes has more than three entries: `DEGREE(b) > 3`. */
  lemma FourIn(xs: seq<nat>, w: nat, x: nat, y: nat, z: nat)
    requires w in xs && x in xs && y in xs && z in xs
    requires w != x && w != y && w != z && x != y && y != z && x != z
    ensures |xs| > 3
  {
    var i :| 0 <= i < |xs| && xs[i] == w;
    var rest := xs[..i] + xs[i + 1..];
    assert xs == xs[..i] + [w] + xs[i + 1..];
    assert x in rest && y in rest && z in rest;
    ThreeIn(rest, x, y, z);
  }

  /** The side loop over `es` takes every e of the list joined to none of a, c, d. */
  lemma {:induction false} PendantsHas(g: Graph, a: nat, b: nat, c: nat, d: nat, s: Sig, es: seq<nat>, e: nat)
    requires e in es && !g.Conn(a, e) && !g.Conn(c, e) && !g.Conn(d, e)
    ensures Hit(s, [a, b, c, d, e]) in Pendants(g, a, b, c, d, s, es)
    decreases |es|
  {
    var init := es[..|es| - 1];
    assert es == init + [es[|es| - 1]];
    if e != es[|es| - 1] {
      assert e in init;
      PendantsHas(g, a, b, c, d, s, init, e);
    }
  }

  /** The claw loop over `ds` counts everything that one d of the list contributes. */
  lemma {:induction false} ClawsHas(g: Graph, a: nat, b: nat, c: nat, ds: seq<nat>, d: nat, h: Hit)
    requires d in ds && h in Claw(g, a, b, c, d)
    ensures h in Claws(g, a, b, c, ds)
    decreases |ds|
  {
    var init := ds[..|ds| - 1];
    assert ds == init + [ds[|ds| - 1]];
    if d != ds[|ds| - 1] {
      assert d in init;
      ClawsHas(g, a, b, c, init, d, h);
    }
  }

  /** Whatever the 3-node block counts for a walk a-b-c of distinct nodes is counted. */
  lemma Here3Reached(g: Graph, a: nat, b: nat, c: nat, h: Hit)
    requires g.Valid() && b in Nbrs(g, a) && c in Nbrs(g, b) && a != c
    requires h in Here3(g, a, b, c)
    ensures h in Enumerate(g)
  {
    ValidEntry(g, a, b);
    ValidEntry(g, b, c);
    assert Path(g, From(a));
    assert Path(g, Two(a, b));
    assert Path(g, Three(a, b, c));
    ExploreReached(g, Three(a, b, c), h);
  }

  /** Whatever the 4-node block counts for a walk a-b-c-d of distinct nodes is counted. */
  lemma Here4Reached(g: Graph, a: nat, b: nat, c: nat, d: nat, h: Hit)
    requires g.Valid() && b in Nbrs(g, a) && c in Nbrs(g, b) && d in Nbrs(g, c)
    requires a != c && d != a && d != b
    requires h in Here4(g, a, b, c, d)
    ensures h in Enumerate(g)
  {
    ValidEntry(g, a, b);
    ValidEntry(g, b, c);
    ValidEntry(g, c, d);
    var w := Four(a, b, c, d);
    assert Path(g, From(a));
    assert Path(g, Two(a, b));
    assert Path(g, Three(a, b, c));
    assert Path(g, w);
    assert Explore(g, w) == Here4(g, a, b, c, d) + Extend(g, w, Nbrs(g, d));
    ExploreReached(g, w, h);
  }

  /**
   * Every claw is found: on a path a-b-c, a neighbour d of b joined to
   * neither a nor c is counted as the claw a-b-c-d.
   */
  lemma ClawComplete(g: Graph, a: nat, b: nat, c: nat, d: nat)
    requires g.Valid() && b in Nbrs(g, a) && c in Nbrs(g, b) && !g.Conn(a, c)
    requires d in Nbrs(g, b) && !g.Conn(a, d) && !g.Conn(c, d)
    ensures Hit(ClawSig, [a, b, c, d]) in Enumerate(g)
  {
    ValidEntry(g, a, b);
    ValidEntry(g, b, c);
    ValidEntry(g, b, d);
    ConnSymmetric(g);
    ThreeIn(Nbrs(g, b), a, c, d);
    var h := Hit(ClawSig, [a, b, c, d]);
    assert h in Claw(g, a, b, c, d);
    ClawsHas(g, a, b, c, Nbrs(g, b), d, h);
    Here3Reached(g, a, b, c, h);
  }

  /**
   * Every X11 is found: off a path a-b-c with a claw leaf d, a further
   * neighbour e of b joined to none of a, c, d is counted as a-b-c-d-e.
   */
  lemma X11Complete(g: Graph, a: nat, b: nat, c: nat, d: nat, e: nat)
    requires g.Valid() && b in Nbrs(g, a) && c in Nbrs(g, b) && !g.Conn(a, c)
    requires d in Nbrs(g, b) && !g.Conn(a, d) && !g.Conn(c, d)
    requires e in Nbrs(g, b) && !g.Conn(a, e) && !g.Conn(c, e) && !g.Conn(d, e)
    ensures Hit(X11Sig, [a, b, c, d, e]) in Enumerate(g)
  {
    ValidEntry(g, a, b);
    ValidEntry(g, b, c);
    ValidEntry(g, b, d);
    ValidEntry(g, b, e);
    ConnSymmetric(g);
    FourIn(Nbrs(g, b), a, c, d, e);
    var h := Hit(X11Sig, [a, b, c, d, e]);
    PendantsHas(g, a, b, c, d, X11Sig, Nbrs(g, b), e);
    assert h in Claw(g, a, b, c, d);
    ClawsHas(g, a, b, c, Nbrs(g, b), d, h);
    Here3Reached(g, a, b, c, h);
  }

  /**
   * Every X10 is found: off an induced path a-b-c-d, a neighbour e of b
   * joined to none of a, c, d is counted as a-b-c-d-e.
   */
  lemma X10Complete(g: Graph, a: nat, b: nat, c: nat, d: nat, e: nat)
    requires g.Valid() && b in Nbrs(g, a) && c in Nbrs(g, b) && d in Nbrs(g, c)
    requires !g.Conn(a, c) && !g.Conn(a, d) && !g.Conn(b, d)
    requires e in Nbrs(g, b) && !g.Conn(a, e) && !g.Conn(c, e) && !g.Conn(d, e)
    ensures Hit(X10Sig, [a, b, c, d, e]) in Enumerate(g)
  {
    ValidEntry(g, a, b);
    ValidEntry(g, b, c);
    ValidEntry(g, c, d);
    ConnSymmetric(g);
    PendantsHas(g, a, b, c, d, X10Sig, Nbrs(g, b), e);
    Here4Reached(g, a, b, c, d, Hit(X10Sig, [a, b, c, d, e]));
  }

  /**
   * Every X14 is found: off a walk a-b-c-d with the chord b-d and no other
   * (a flower whose b has degree 3), a neighbour e of b joined to none of
   * a, c, d is counted as a-b-c-d-e.
   */
  lemma X14Complete(g: Graph, a: nat, b: nat, c: nat, d: nat, e: nat)
    requires g.Valid() && b in Nbrs(g, a) && c in Nbrs(g, b) && d in Nbrs(g, c) && d != b
    requires !g.Conn(a, c) && !g.Conn(a, d) && g.Conn(b, d)
    requires e in Nbrs(g, b) && !g.Conn(a, e) && !g.Conn(c, e) && !g.Conn(d, e)
    ensures Hit(X14Sig, [a, b, c, d, e]) in Enumerate(g)
  {
    ValidEntry(g, a, b);
    ValidEntry(g, b, c);
    ValidEntry(g, c, d);
    ConnSymmetric(g);
    PendantsHas(g, a, b, c, d, X14Sig, Nbrs(g, b), e);
    Here4Reached(g, a, b, c, d, Hit(X14Sig, [a, b, c, d, e]));
  }
}
