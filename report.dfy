/**
 * The output stage of `GraphCrunch::count` (src/graphcrunch.cpp:530-546):
 * one graphlet degree vector per node id 1 .. V, holding the node's degree
 * and then, for each of the 72 orbits, the node's orbit count cast to
 * `unsigned` and divided by the overcount factor of the orbit's graphlet type.
 */
module Report {
  import opened Tables
  import opened Graphs
  import opened Census

  /** 2^32: the range of the `unsigned` the program casts every count to. */
  const Word: nat := 0x1_0000_0000

  /** The cast `(unsigned)c` of a 64-bit count: the count modulo 2^32. */
  function Unsigned(c: int): (u: nat)
    ensures u < Word
    ensures 0 <= c < Word ==> u == c
    ensures exists q :: c == q * Word + u
  {
    var u := c % Word;
    assert c == (c / Word) * Word + u;
    u
  }

  /** The overcount factor of orbit `o`: `overcount[ntype2gtype[o]]`, never 0. */
  function OrbitOvercount(o: nat): (f: int)
    requires o < OrbitCount
    ensures f > 0
  {
    OrbitTypesSorted();
    OvercountPositive();
    Overcount(NType2GType(o))
  }

  /** One entry of a vector: `(unsigned)ncount[o][v] / overcount[ntype2gtype[o]]`. */
  function Scaled(c: int, o: nat): (r: nat)
    requires o < OrbitCount
    ensures r * OrbitOvercount(o) <= Unsigned(c) < (r + 1) * OrbitOvercount(o)
  {
    Unsigned(c) / OrbitOvercount(o)
  }

  /** The 72 orbit entries of node `v`, from the orbit counts the instances in `log` add up to. */
  function Orbits(log: seq<Hit>, v: int): seq<nat> {
    seq(OrbitCount, o requires 0 <= o < OrbitCount => Scaled(NTally(log, o, v), o))
  }

  /** The vector of node `v`: its degree `DEGREE(v)`, then its 72 orbit entries. */
  function Vector(g: Graph, log: seq<Hit>, v: nat): seq<int>
    requires v < |g.nbrs|
  {
    [|g.nbrs[v]|] + Orbits(log, v)
  }

  /** The vectors of node ids 1 .. |nbrs| - 1, in order; id 0 gets none. */
  function Vectors(g: Graph, log: seq<Hit>): seq<seq<int>> {
    if |g.nbrs| == 0 then []
    else seq(|g.nbrs| - 1, k requires 0 <= k < |g.nbrs| - 1 => Vector(g, log, k + 1))
  }

  /**
   * The layout of one vector: 73 entries, the degree of `v` and then, for
   * orbit o, the scaled count of `v` in o.
   */
  lemma VectorLayout(g: Graph, log: seq<Hit>, v: nat)
    requires v < |g.nbrs|
    ensures var r := Vector(g, log, v);
      && |r| == 1 + OrbitCount && r[0] == |g.nbrs[v]|
      && forall o :: 0 <= o < OrbitCount ==> r[o + 1] == Scaled(NTally(log, o, v), o)
  {
  }

  /** The output: one vector per node id 1 .. |nbrs| - 1, in order, and none for id 0. */
  lemma VectorsLayout(g: Graph, log: seq<Hit>)
    ensures var r := Vectors(g, log);
      && |r| == (if |g.nbrs| == 0 then 0 else |g.nbrs| - 1)
      && forall k :: 0 <= k < |r| ==> r[k] == Vector(g, log, k + 1)
  {
  }

  /** What `count` returns for a loaded graph: the vectors of the instances the loops enumerate. */
  function Output(g: Graph): seq<seq<int>> {
    Vectors(g, Enumerate(g))
  }
}
