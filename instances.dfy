/**
 * What every instance the counting loops of src/graphcrunch.cpp count looks
 * like: its nodes are pairwise distinct nodes of the graph, the first three
 * form a path a-b-c, and its classification names a graphlet type and, for
 * each node, an orbit of that type. For the main walks this comes from the
 * `continue` tests; for the claw, X11, X10 and X14 side branches from the
 * zero `Connected` sum against the path nodes, the forced diagonal and the
 * absence of self-loops.
 */
module Instances {
  import opened Tables
  import opened Classify
  import opened Graphs
  import opened Census

  /** No node occurs twice. */
  ghost predicate Distinct(s: seq<int>) {
    forall i, j :: 0 <= i < j < |s| ==> s[i] != s[j]
  }

  /** A well-formed counted instance of graph `g`. */
  ghost predicate Sound(g: Graph, h: Hit) {
    && 3 <= |h.nodes| <= 5
    && Proper(h.sig, |h.nodes|)
    && Distinct(h.nodes)
    && (forall i :: 0 <= i < |h.nodes| ==> 0 <= h.nodes[i] < |g.nbrs|)
    && g.Conn(h.nodes[0], h.nodes[1]) && g.Conn(h.nodes[1], h.nodes[2])
  }

  ghost predicate AllSound(g: Graph, hs: seq<Hit>) {
    forall i :: 0 <= i < |hs| ==> Sound(g, hs[i])
  }

  /** A walk the loops can be on: distinct nodes of the graph, each joined to the next. */
  ghost predicate OnWalk(g: Graph, w: Walk) {
    var n := |g.nbrs|;
    match w
    case From(a) => a < n
    case Two(a, b) => a < n && b < n && a != b && g.Conn(a, b)
    case Three(a, b, c) =>
      && a < n && b < n && c < n && Distinct([a, b, c])
      && g.Conn(a, b) && g.Conn(b, c)
    case Four(a, b, c, d) =>
      && a < n && b < n && c < n && d < n && Distinct([a, b, c, d])
      && g.Conn(a, b) && g.Conn(b, c) && g.Conn(c, d)
  }

  lemma Distinct5(a: int, b: int, c: int, d: int, e: int)
    requires Distinct([a, b, c, d]) && e != a && e != b && e != c && e != d
    ensures Distinct([a, b, c, d, e])
  {
    var s := [a, b, c, d];
    assert a == s[0] && b == s[1] && c == s[2] && d == s[3];
  }

  lemma AllSoundAppend(g: Graph, A: seq<Hit>, B: seq<Hit>)
    requires AllSound(g, A) && AllSound(g, B)
    ensures AllSound(g, A + B)
  {
    forall i | 0 <= i < |A + B|
      ensures Sound(g, (A + B)[i])
    {
      if i >= |A| {
        assert (A + B)[i] == B[i - |A|];
      }
    }
  }

  /** Off a side branch: `e`, a neighbour of b joined to none of a, c, d, is a fifth distinct node. */
  lemma {:induction false} PendantsSound(g: Graph, a: nat, b: nat, c: nat, d: nat, s: Sig, es: seq<nat>)
    requires g.Entries() && Proper(s, 5)
    requires Distinct([a, b, c, d]) && a < |g.nbrs| && b < |g.nbrs| && c < |g.nbrs| && d < |g.nbrs|
    requires g.Conn(a, b) && g.Conn(b, c)
    requires forall e :: e in es ==> e in g.nbrs[b]
    ensures AllSound(g, Pendants(g, a, b, c, d, s, es))
  {
    if es != [] {
      var e := es[|es| - 1];
      PendantsSound(g, a, b, c, d, s, es[..|es| - 1]);
      if !g.Conn(a, e) && !g.Conn(c, e) && !g.Conn(d, e) {
        assert e in g.nbrs[b];
        Distinct5(a, b, c, d, e);
        var h := Hit(s, [a, b, c, d, e]);
        assert Sound(g, h);
        AllSoundAppend(g, Pendants(g, a, b, c, d, s, es[..|es| - 1]), [h]);
      }
    }
  }

  /** The claw loop off the path a-b-c: every claw, and every X11 it starts, is sound. */
  lemma {:induction false} ClawsSound(g: Graph, a: nat, b: nat, c: nat, ds: seq<nat>)
    requires g.Entries() && OnWalk(g, Three(a, b, c))
    requires forall d :: d in ds ==> d in g.nbrs[b]
    ensures AllSound(g, Claws(g, a, b, c, ds))
  {
    if ds != [] {
      var d := ds[|ds| - 1];
      ClawsSound(g, a, b, c, ds[..|ds| - 1]);
      assert d in g.nbrs[b];
      if !g.Conn(a, d) && !g.Conn(c, d) {
        var x11: seq<Hit> := [];
        if |Nbrs(g, b)| > 3 {
          PendantsSound(g, a, b, c, d, X11Sig, Nbrs(g, b));
          x11 := Pendants(g, a, b, c, d, X11Sig, Nbrs(g, b));
        }
        var h := Hit(ClawSig, [a, b, c, d]);
        assert Distinct([a, b, c, d]) by {
          var t := [a, b, c];
          assert a == t[0] && b == t[1] && c == t[2];
        }
        assert Sound(g, h);
        AllSoundAppend(g, x11, [h]);
        assert Claw(g, a, b, c, d) == x11 + [h];
      }
      AllSoundAppend(g, Claws(g, a, b, c, ds[..|ds| - 1]), Claw(g, a, b, c, d));
    }
  }

  lemma Here3Sound(g: Graph, a: nat, b: nat, c: nat)
    requires g.Entries() && OnWalk(g, Three(a, b, c))
    ensures AllSound(g, Here3(g, a, b, c))
  {
    var s := Class3(g.Conn(a, b), g.Conn(a, c), g.Conn(b, c));
    Class3Walk(g.Conn(a, b), g.Conn(a, c), g.Conn(b, c));
    assert Sound(g, Hit(s, [a, b, c]));
    var claws: seq<Hit> := [];
    if s.gtype == 0 && |Nbrs(g, b)| > 2 {
      ClawsSound(g, a, b, c, Nbrs(g, b));
      claws := Claws(g, a, b, c, Nbrs(g, b));
    }
    AllSoundAppend(g, [Hit(s, [a, b, c])], claws);
  }

  lemma Here4Sound(g: Graph, a: nat, b: nat, c: nat, d: nat)
    requires g.Entries() && OnWalk(g, Four(a, b, c, d))
    ensures AllSound(g, Here4(g, a, b, c, d))
  {
    var ab, ac, ad := g.Conn(a, b), g.Conn(a, c), g.Conn(a, d);
    var bc, bd, cd := g.Conn(b, c), g.Conn(b, d), g.Conn(c, d);
    Class4Walk(ab, ac, ad, bc, bd, cd);
    var deg := Degrees4(ab, ac, ad, bc, bd, cd);
    var s := Class4(ab, ac, ad, bc, bd, cd).value;
    assert Sound(g, Hit(s, [a, b, c, d]));
    var side: seq<Hit> := [];
    if s.gtype == 2 {
      PendantsSound(g, a, b, c, d, X10Sig, Nbrs(g, b));
      side := Pendants(g, a, b, c, d, X10Sig, Nbrs(g, b));
    } else if s.gtype == 5 && deg[1] == 3 {
      PendantsSound(g, a, b, c, d, X14Sig, Nbrs(g, b));
      side := Pendants(g, a, b, c, d, X14Sig, Nbrs(g, b));
    }
    AllSoundAppend(g, [Hit(s, [a, b, c, d])], side);
  }

  lemma Here5Sound(g: Graph, a: nat, b: nat, c: nat, d: nat, e: nat)
    requires OnWalk(g, Four(a, b, c, d)) && e < |g.nbrs| && g.Conn(d, e)
    requires e != a && e != b && e != c && e != d
    ensures AllSound(g, Here5(g, a, b, c, d, e))
  {
    Distinct5(a, b, c, d, e);
    Class5Walk(PairsOf(g, a, b, c, d, e));
    var s := Class5(PairsOf(g, a, b, c, d, e)).value;
    assert Sound(g, Hit(s, [a, b, c, d, e]));
  }

  /** A side-branch instance off a-b-c: its last node is joined to b and to none of the other nodes. */
  ghost predicate Branch(g: Graph, a: nat, b: nat, c: nat, h: Hit) {
    && 4 <= |h.nodes| <= 5 && h.nodes[..3] == [a, b, c]
    && var x := h.nodes[|h.nodes| - 1];
    && x >= 0 && g.Conn(b, x) && !g.Conn(a, x) && !g.Conn(c, x)
    && (|h.nodes| == 5 ==> h.nodes[3] >= 0 && !g.Conn(h.nodes[3], x))
  }

  /** Every X11, X10 or X14 the side loop over `es` counts hangs its fifth node off b alone. */
  lemma {:induction false} PendantsBranch(g: Graph, a: nat, b: nat, c: nat, d: nat, s: Sig, es: seq<nat>)
    requires b < |g.nbrs| && forall e :: e in es ==> e in g.nbrs[b]
    ensures forall h :: h in Pendants(g, a, b, c, d, s, es) ==>
      Branch(g, a, b, c, h) && h.nodes[3] == d
  {
    if es != [] {
      var e := es[|es| - 1];
      PendantsBranch(g, a, b, c, d, s, es[..|es| - 1]);
      assert e in g.nbrs[b];
    }
  }

  /** Every claw the loop over `ds` counts, and every X11 it starts, hangs its last node off b alone. */
  lemma {:induction false} ClawsBranch(g: Graph, a: nat, b: nat, c: nat, ds: seq<nat>)
    requires b < |g.nbrs| && forall d :: d in ds ==> d in g.nbrs[b]
    ensures forall h :: h in Claws(g, a, b, c, ds) ==> Branch(g, a, b, c, h)
  {
    if ds != [] {
      var d := ds[|ds| - 1];
      ClawsBranch(g, a, b, c, ds[..|ds| - 1]);
      assert d in g.nbrs[b];
      if !g.Conn(a, d) && !g.Conn(c, d) && |Nbrs(g, b)| > 3 {
        PendantsBranch(g, a, b, c, d, X11Sig, Nbrs(g, b));
      }
    }
  }

  /** Everything counted below a walk the loops can be on is sound. */
  lemma {:induction false} ExploreSound(g: Graph, w: Walk)
    requires g.Entries() && OnWalk(g, w)
    ensures AllSound(g, Explore(g, w))
    decreases 4 - w.Length(), 2, 0
  {
    match w
    case From(_) =>
      ExtendSound(g, w, Nbrs(g, w.Last()));
    case Two(_, _) =>
      ExtendSound(g, w, Nbrs(g, w.Last()));
    case Three(a, b, c) =>
      Here3Sound(g, a, b, c);
      ExtendSound(g, w, Nbrs(g, c));
      AllSoundAppend(g, Here3(g, a, b, c), Extend(g, w, Nbrs(g, c)));
    case Four(a, b, c, d) =>
      Here4Sound(g, a, b, c, d);
      ExtendSound(g, w, Nbrs(g, d));
      AllSoundAppend(g, Here4(g, a, b, c, d), Extend(g, w, Nbrs(g, d)));
  }

  lemma {:induction false} ExtendSound(g: Graph, w: Walk, xs: seq<nat>)
    requires g.Entries() && OnWalk(g, w)
    requires forall x :: x in xs ==> x in Nbrs(g, w.Last())
    ensures AllSound(g, Extend(g, w, xs))
    decreases 4 - w.Length(), 1, |xs|
  {
    if xs != [] {
      var x := xs[|xs| - 1];
      ExtendSound(g, w, xs[..|xs| - 1]);
      if !w.Has(x) {
        NextSound(g, w, x);
        AllSoundAppend(g, Extend(g, w, xs[..|xs| - 1]), Next(g, w, x));
      } else {
        assert Extend(g, w, xs) == Extend(g, w, xs[..|xs| - 1]) + [];
      }
    }
  }

  /** One node further: a neighbour of the last node that is not on the walk keeps it a walk. */
  lemma {:induction false} NextSound(g: Graph, w: Walk, x: nat)
    requires g.Entries() && OnWalk(g, w)
    requires x in Nbrs(g, w.Last()) && !w.Has(x)
    ensures AllSound(g, Next(g, w, x))
    decreases 4 - w.Length(), 0, 0
  {
    assert x < |g.nbrs| && g.Conn(w.Last(), x);
    match w
    case From(a) =>
      ExploreSound(g, Two(a, x));
    case Two(a, b) =>
      ExploreSound(g, Three(a, b, x));
    case Three(a, b, c) =>
      assert Distinct([a, b, c, x]) by {
        var t := [a, b, c];
        assert a == t[0] && b == t[1] && c == t[2];
      }
      ExploreSound(g, Four(a, b, c, x));
    case Four(a, b, c, d) =>
      Here5Sound(g, a, b, c, d, x);
  }

  /** The outer loop over the first `count` nodes counts only sound instances. */
  lemma {:induction false} WalksSound(g: Graph, count: nat)
    requires g.Entries() && count <= |g.nbrs|
    ensures AllSound(g, Walks(g, count))
  {
    if count > 0 {
      WalksSound(g, count - 1);
      ExploreSound(g, From(count - 1));
      AllSoundAppend(g, Walks(g, count - 1), Explore(g, From(count - 1)));
    }
  }

  /**
   * Every instance the program counts has three to five distinct nodes of
   * the graph, starts with a path a-b-c, and is counted in one graphlet type
   * with an orbit of that type for each node.
   */
  lemma EnumerateSound(g: Graph)
    requires g.Entries()
    ensures AllSound(g, Enumerate(g))
  {
    WalksSound(g, |g.nbrs|);
  }
}
