/**
 * What the counting loops of `GraphCrunch::count` (src/graphcrunch.cpp:242-528)
 * record, as pure functions of the neighbour lists: the sequence of counted
 * instances, in the order the nested `foreach_adj` loops reach them, and the
 * tallies `gcount` and `ncount` that these instances add up to.
 */
module Census {
  import opened Tables
  import opened Classify
  import opened Graphs

  /** One counted instance: its classification and its nodes, in the order the orbits list them. */
  datatype Hit = Hit(sig: Sig, nodes: seq<int>)

  /** The claw found off the path a-b-c: centre b, leaves a, c and d. */
  const ClawSig := Sig(3, [CLAW_A, CLAW_B, CLAW_A, CLAW_A])
  /** X11 (the star with four leaves): centre b, leaves a, c, d, e. */
  const X11Sig := Sig(10, [X11_A, X11_B, X11_A, X11_A, X11_A])
  /** X10, the path a-b-c-d with the leaf e hanging off b. */
  const X10Sig := Sig(9, [X10_B, X10_D, X10_C, X10_A, X10_B])
  /** X14, the flower a-b-c-d (b of degree 3) with the leaf e hanging off b. */
  const X14Sig := Sig(13, [X14_A, X14_C, X14_B, X14_B, X14_A])

  /** The list that `foreach_adj(x, i)` walks; empty for a node the graph does not have. */
  function Nbrs(g: Graph, i: nat): seq<nat> {
    if i < |g.nbrs| then g.nbrs[i] else []
  }

  /** The adjacency bits of the five nodes of a walk a-b-c-d-e. */
  function PairsOf(g: Graph, a: nat, b: nat, c: nat, d: nat, e: nat): Pairs {
    Pairs(g.Conn(a, b), g.Conn(a, c), g.Conn(a, d), g.Conn(a, e), g.Conn(b, c),
          g.Conn(b, d), g.Conn(b, e), g.Conn(c, d), g.Conn(c, e), g.Conn(d, e))
  }

  // ------------------------------------------------------------ the loops

  /**
   * The loop over `es` (the neighbours of b) that hangs a fifth node e off b:
   * e is taken when `Connected(a, e) + Connected(c, e) + Connected(d, e)` is
   * 0, and the instance is counted with signature `s` (X11, X10 or X14).
   */
  function Pendants(g: Graph, a: nat, b: nat, c: nat, d: nat, s: Sig, es: seq<nat>): seq<Hit> {
    if es == [] then []
    else
      var e := es[|es| - 1];
      Pendants(g, a, b, c, d, s, es[..|es| - 1]) +
        (if !g.Conn(a, e) && !g.Conn(c, e) && !g.Conn(d, e) then [Hit(s, [a, b, c, d, e])] else [])
  }

  /**
   * The claw loop off the path a-b-c, over `ds` (the neighbours of b): a
   * node d connected to neither a nor c makes a claw, after the X11
   * instances it starts when b has more than three neighbours.
   */
  function Claws(g: Graph, a: nat, b: nat, c: nat, ds: seq<nat>): seq<Hit> {
    if ds == [] then []
    else
      Claws(g, a, b, c, ds[..|ds| - 1]) + Claw(g, a, b, c, ds[|ds| - 1])
  }

  /**
   * What one neighbour d of b contributes to the claw loop: when d is
   * connected to neither a nor c, the X11 instances it starts (b with more
   * than three neighbours), then the claw itself.
   */
  function Claw(g: Graph, a: nat, b: nat, c: nat, d: nat): seq<Hit> {
    if !g.Conn(a, d) && !g.Conn(c, d) then
      (if |Nbrs(g, b)| > 3 then Pendants(g, a, b, c, d, X11Sig, Nbrs(g, b)) else []) +
      [Hit(ClawSig, [a, b, c, d])]
    else []
  }

  /** The 3-node instance a-b-c, then the claw loop when it is a path and b has more than two neighbours. */
  function Here3(g: Graph, a: nat, b: nat, c: nat): seq<Hit> {
    var s := Class3(g.Conn(a, b), g.Conn(a, c), g.Conn(b, c));
    [Hit(s, [a, b, c])] + (if s.gtype == 0 && |Nbrs(g, b)| > 2 then Claws(g, a, b, c, Nbrs(g, b)) else [])
  }

  /**
   * The 4-node instance a-b-c-d, then the X10 instances off a P4 and the
   * X14 instances off a flower whose b has degree 3.
   */
  function Here4(g: Graph, a: nat, b: nat, c: nat, d: nat): seq<Hit> {
    var deg := Degrees4(g.Conn(a, b), g.Conn(a, c), g.Conn(a, d), g.Conn(b, c), g.Conn(b, d), g.Conn(c, d));
    match Class4(g.Conn(a, b), g.Conn(a, c), g.Conn(a, d), g.Conn(b, c), g.Conn(b, d), g.Conn(c, d))
    case Some(s) =>
      [Hit(s, [a, b, c, d])] +
        (if s.gtype == 2 then Pendants(g, a, b, c, d, X10Sig, Nbrs(g, b))
         else if s.gtype == 5 && deg[1] == 3 then Pendants(g, a, b, c, d, X14Sig, Nbrs(g, b))
         else [])
    case None => []
  }

  /** The 5-node instance a-b-c-d-e, when the classifier gives it a type. */
  function Here5(g: Graph, a: nat, b: nat, c: nat, d: nat, e: nat): seq<Hit> {
    match Class5(PairsOf(g, a, b, c, d, e))
    case Some(s) => [Hit(s, [a, b, c, d, e])]
    case None => []
  }

  /** The walk the nested loops have followed so far: a, a-b, a-b-c or a-b-c-d. */
  datatype Walk = From(a: nat) | Two(a: nat, b: nat) | Three(a: nat, b: nat, c: nat) | Four(a: nat, b: nat, c: nat, d: nat)
  {
    /** The node whose neighbours the next loop visits. */
    function Last(): nat {
      match this
      case From(a) => a
      case Two(_, b) => b
      case Three(_, _, c) => c
      case Four(_, _, _, d) => d
    }

    /** The number of nodes on the walk. */
    function Length(): nat {
      match this
      case From(_) => 1
      case Two(_, _) => 2
      case Three(_, _, _) => 3
      case Four(_, _, _, _) => 4
    }

    /** `x` is already on the walk: the `continue` tests of the loops. */
    predicate Has(x: nat) {
      match this
      case From(a) => x == a
      case Two(a, b) => x == a || x == b
      case Three(a, b, c) => x == a || x == b || x == c
      case Four(a, b, c, d) => x == a || x == b || x == c || x == d
    }
  }

  /**
   * Everything the nested loops count below the walk `w`: the instance the
   * walk itself forms (with its side branches), then the loop over the
   * neighbours of its last node.
   */
  function Explore(g: Graph, w: Walk): seq<Hit>
    decreases 4 - w.Length(), 2, 0
  {
    match w
    case From(_) => Extend(g, w, Nbrs(g, w.Last()))
    case Two(_, _) => Extend(g, w, Nbrs(g, w.Last()))
    case Three(a, b, c) => Here3(g, a, b, c) + Extend(g, w, Nbrs(g, c))
    case Four(a, b, c, d) => Here4(g, a, b, c, d) + Extend(g, w, Nbrs(g, d))
  }

  /** The loop over `xs`, neighbours of the last node of `w`, skipping the nodes already on the walk. */
  function Extend(g: Graph, w: Walk, xs: seq<nat>): seq<Hit>
    decreases 4 - w.Length(), 1, |xs|
  {
    if xs == [] then []
    else
      var x := xs[|xs| - 1];
      Extend(g, w, xs[..|xs| - 1]) + (if w.Has(x) then [] else Next(g, w, x))
  }

  /** What one neighbour `x` of the last node, not on the walk, contributes: the walk one node longer. */
  function Next(g: Graph, w: Walk, x: nat): seq<Hit>
    decreases 4 - w.Length(), 0, 0
  {
    match w
    case From(a) => Explore(g, Two(a, x))
    case Two(a, b) => Explore(g, Three(a, b, x))
    case Three(a, b, c) => Explore(g, Four(a, b, c, x))
    case Four(a, b, c, d) => Here5(g, a, b, c, d, x)
  }

  /** The outer loop over the nodes `0 .. count - 1`. */
  function Walks(g: Graph, count: nat): seq<Hit> {
    if count == 0 then [] else Walks(g, count - 1) + Explore(g, From(count - 1))
  }

  /** Every instance the program counts, in order. */
  function Enumerate(g: Graph): seq<Hit> {
    Walks(g, |g.nbrs|)
  }

  // ------------------------------------------------------------ one loop step

  /** Regrouping appended pieces of a log. */
  lemma Regroup(L: seq<Hit>, A: seq<Hit>, B: seq<Hit>)
    ensures L + A + B == L + (A + B)
  {
  }

  /** One more neighbour e for the side-branch loop. */
  lemma PendantsStep(L: seq<Hit>, g: Graph, a: nat, b: nat, c: nat, d: nat, s: Sig, es: seq<nat>, k: nat)
    requires k < |es|
    ensures L + Pendants(g, a, b, c, d, s, es[..k + 1]) == L + Pendants(g, a, b, c, d, s, es[..k]) +
      (if !g.Conn(a, es[k]) && !g.Conn(c, es[k]) && !g.Conn(d, es[k]) then [Hit(s, [a, b, c, d, es[k]])] else [])
  {
    assert es[..k + 1][..k] == es[..k];
  }

  /** One more neighbour d for the claw loop. */
  lemma ClawsStep(L: seq<Hit>, g: Graph, a: nat, b: nat, c: nat, ds: seq<nat>, k: nat)
    requires k < |ds|
    ensures L + Claws(g, a, b, c, ds[..k + 1]) == L + Claws(g, a, b, c, ds[..k]) + Claw(g, a, b, c, ds[k])
  {
    assert ds[..k + 1][..k] == ds[..k];
  }

  /** One more neighbour x of the last node of `w`. */
  lemma ExtendStep(L: seq<Hit>, g: Graph, w: Walk, xs: seq<nat>, k: nat)
    requires k < |xs|
    ensures L + Extend(g, w, xs[..k + 1]) == L + Extend(g, w, xs[..k]) +
      (if w.Has(xs[k]) then [] else Next(g, w, xs[k]))
  {
    assert xs[..k + 1][..k] == xs[..k];
  }

  // ------------------------------------------------------------ the tallies

  /** The number of instances of type `t`: `gcount[t]`. */
  function GTally(log: seq<Hit>, t: int): nat {
    if log == [] then 0
    else GTally(log[..|log| - 1], t) + (if log[|log| - 1].sig.gtype == t then 1 else 0)
  }

  /** How often the first `k` nodes of `h` count node `v` in orbit `o`. */
  function OccursUpTo(h: Hit, k: nat, o: int, v: int): nat
    requires k <= |h.nodes| && k <= |h.sig.orbits|
  {
    if k == 0 then 0
    else OccursUpTo(h, k - 1, o, v) + (if h.sig.orbits[k - 1] == o && h.nodes[k - 1] == v then 1 else 0)
  }

  /** How often instance `h` counts node `v` in orbit `o`. */
  function Occurs(h: Hit, o: int, v: int): nat {
    if |h.nodes| <= |h.sig.orbits| then OccursUpTo(h, |h.nodes|, o, v) else 0
  }

  /** The number of times node `v` was counted in orbit `o`: `ncount[o][v]`. */
  function NTally(log: seq<Hit>, o: int, v: int): nat {
    if log == [] then 0 else NTally(log[..|log| - 1], o, v) + Occurs(log[|log| - 1], o, v)
  }

  /** Counting one more instance adds one to the tally of its type and leaves the other types alone. */
  lemma GTallySnoc(log: seq<Hit>, h: Hit, t: int)
    ensures GTally(log + [h], t) == GTally(log, t) + (if h.sig.gtype == t then 1 else 0)
  {
    assert (log + [h])[..|log|] == log;
  }

  /** Counting one more instance adds, per orbit and node, how often that instance counts the node there. */
  lemma NTallySnoc(log: seq<Hit>, h: Hit, o: int, v: int)
    ensures NTally(log + [h], o, v) == NTally(log, o, v) + Occurs(h, o, v)
  {
    assert (log + [h])[..|log|] == log;
  }

  /** The counters only ever grow: counting more instances never lowers a tally. */
  lemma {:induction false} NTallyGrows(L: seq<Hit>, X: seq<Hit>, o: int, v: int)
    ensures NTally(L + X, o, v) >= NTally(L, o, v)
    decreases |X|
  {
    if X != [] {
      var Y := X[..|X| - 1];
      NTallyGrows(L, Y, o, v);
      assert L + X == (L + Y) + [X[|X| - 1]];
      NTallySnoc(L + Y, X[|X| - 1], o, v);
    } else {
      assert L + X == L;
    }
  }
}
