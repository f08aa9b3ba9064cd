/**
 * What the graph builder of src/graphcrunch.cpp computes, as pure
 * functions: the `(src, dst)` pairs are read one by one, checked, and every
 * new edge is put at the front of both endpoints' neighbour lists.
 *
 * Nodes are the ids 0 .. V of a file whose header says V (the program
 * increments V before allocating, so `n == V + 1` lists exist).
 */
module Graphs {

  datatype Result<T, E> = Ok(value: T) | Err(error: E)

  /** Why the program stops while reading the edge list. */
  datatype BuildError =
    | NegativeEdgeCount        // `assert(E_undir >= 0)` fails
    | NegativeNodeCount        // `new temp_data *[V]` throws: `V` is negative after `V++`
    | IdOutOfRange(index: nat) // `assert(src < V && dst < V)` fails on pair `index`
    | NegativeId(index: nat)   // "node numbers must be greater than zero" on pair `index`

  /**
   * The pair the program reads as its `index`-th edge: a read past the end
   * of the input leaves `src` and `dst` at their initial value -1.
   */
  function PairAt(pairs: seq<(int, int)>, index: nat): (int, int) {
    if index < |pairs| then pairs[index] else (-1, -1)
  }

  /** A pair whose two ids name nodes of a graph with `n` nodes. */
  predicate Good(p: (int, int), n: nat) {
    0 <= p.0 < n && 0 <= p.1 < n
  }

  /** Pair `p` joins `x` and `y`, in either orientation. */
  predicate Joins(p: (int, int), x: int, y: int) {
    (p.0 == x && p.1 == y) || (p.0 == y && p.1 == x)
  }

  /** Neighbour lists, one per node id; `nbrs[i]` is the linked list `heads[i]`. */
  datatype Graph = Graph(nbrs: seq<seq<nat>>)
  {
    /** The bit `Connected(i, j)`: set on the diagonal and for every neighbour. */
    predicate Conn(i: nat, j: nat) {
      i < |nbrs| && (i == j || j in nbrs[i])
    }

    /** Every entry of a list is another node of the graph. */
    ghost predicate Entries() {
      forall i, j :: 0 <= i < |nbrs| && j in nbrs[i] ==> 0 <= j < |nbrs| && j != i
    }

    /**
     * Neighbour lists of a simple undirected graph: every entry is another
     * node, which lists the first one back, and no list repeats an entry.
     */
    ghost predicate Valid() {
      && Entries()
      && (forall i, j :: 0 <= i < |nbrs| && 0 <= j < |nbrs| && j in nbrs[i] ==> i in nbrs[j])
      && (forall i, k, l :: 0 <= i < |nbrs| && 0 <= k < l < |nbrs[i]| ==> nbrs[i][k] != nbrs[i][l])
    }
  }

  /** `n` empty lists: `heads[i] = NULL` for every node. */
  function EmptyGraph(n: nat): (g: Graph)
    ensures |g.nbrs| == n && g.Valid()
    ensures forall i :: 0 <= i < n ==> g.nbrs[i] == []
  {
    Graph(seq(n, _ => []))
  }

  /**
   * One edge read into the lists: skipped when it is a self-loop or `dst` is
   * already in the list of `src`, otherwise put at the front of both lists.
   */
  function Accept(g: Graph, src: nat, dst: nat): Graph
    requires src < |g.nbrs| && dst < |g.nbrs|
  {
    if src == dst || dst in g.nbrs[src] then g
    else Graph(g.nbrs[src := [dst] + g.nbrs[src]][dst := [src] + g.nbrs[dst]])
  }

  /**
   * The lists after reading the first `count` pairs into `n` lists, or the
   * error that stopped the program: the range assertion is checked before
   * the sign of the ids.
   */
  function Ingest(n: nat, pairs: seq<(int, int)>, count: nat): (r: Result<Graph, BuildError>)
    ensures r.Ok? ==> |r.value.nbrs| == n
  {
    if count == 0 then Ok(EmptyGraph(n))
    else
      match Ingest(n, pairs, count - 1)
      case Err(e) => Err(e)
      case Ok(g) =>
        var p := PairAt(pairs, count - 1);
        if !(p.0 < n && p.1 < n) then Err(IdOutOfRange(count - 1))
        else if p.0 < 0 || p.1 < 0 then Err(NegativeId(count - 1))
        else Ok(Accept(g, p.0, p.1))
  }

  /**
   * The builder on a file with header `V`, `E_undir` and the given pairs.
   * `V == -1` leaves no node at all; a smaller `V` makes the first allocation
   * fail, after the edge count has been checked.
   */
  function Load(v: int, edgeCount: int, pairs: seq<(int, int)>): (r: Result<Graph, BuildError>)
    ensures r.Ok? ==> |r.value.nbrs| == v + 1
  {
    if edgeCount < 0 then Err(NegativeEdgeCount)
    else if v + 1 < 0 then Err(NegativeNodeCount)
    else Ingest(v + 1, pairs, edgeCount)
  }

  /**
   * The header checks: a negative edge count stops the program first, then a
   * node count below -1; with no edges to read, a header `V >= -1` yields
   * `V + 1` isolated nodes, none at all for `V == -1`.
   */
  lemma LoadHeader(v: int, edgeCount: int, pairs: seq<(int, int)>)
    ensures edgeCount < 0 ==> Load(v, edgeCount, pairs) == Err(NegativeEdgeCount)
    ensures edgeCount >= 0 && v < -1 ==> Load(v, edgeCount, pairs) == Err(NegativeNodeCount)
    ensures edgeCount == 0 && v >= -1 ==> Load(v, edgeCount, pairs) == Ok(EmptyGraph(v + 1))
    ensures v == -1 && Load(v, edgeCount, pairs).Ok? ==> Load(v, edgeCount, pairs).value.nbrs == []
  {
  }

  // ------------------------------------------------------- reference lists

  /**
   * Pair `k` is kept: it is not a self-loop, and no earlier pair joins the
   * same two nodes in either orientation.
   */
  ghost predicate Fresh(pairs: seq<(int, int)>, k: nat) {
    var p := PairAt(pairs, k);
    p.0 != p.1 && forall j :: 0 <= j < k ==> !Joins(PairAt(pairs, j), p.0, p.1)
  }

  /** The other ends of the kept pairs among the first `count` that touch `i`, in input order. */
  ghost function Partners(pairs: seq<(int, int)>, count: nat, i: int): seq<int> {
    if count == 0 then []
    else
      var p := PairAt(pairs, count - 1);
      Partners(pairs, count - 1, i) +
        (if Fresh(pairs, count - 1) && p.0 == i then [p.1]
         else if Fresh(pairs, count - 1) && p.1 == i then [p.0]
         else [])
  }

  /** The number of kept pairs among the first `count`. */
  ghost function Kept(pairs: seq<(int, int)>, count: nat): nat {
    if count == 0 then 0 else Kept(pairs, count - 1) + (if Fresh(pairs, count - 1) then 1 else 0)
  }

  function Reverse<T>(s: seq<T>): (r: seq<T>)
    ensures |r| == |s|
    ensures forall k :: 0 <= k < |s| ==> r[k] == s[|s| - 1 - k]
  {
    if s == [] then [] else Reverse(s[1..]) + [s[0]]
  }

  /** The sum of the lengths of the lists: the sum of all `DEGREE` values. */
  function TotalDegree(nbrs: seq<seq<nat>>): nat {
    if nbrs == [] then 0 else TotalDegree(nbrs[..|nbrs| - 1]) + |nbrs[|nbrs| - 1]|
  }

  // ---------------------------------------------------------------- lemmas

  /**
   * `Connected` is reflexive on every node and symmetric, because the
   * diagonal is set and every edge is entered in both lists.
   */
  lemma ConnSymmetric(g: Graph)
    requires g.Valid()
    ensures forall i :: 0 <= i < |g.nbrs| ==> g.Conn(i, i)
    ensures forall i: nat, j: nat :: g.Conn(i, j) ==> g.Conn(j, i)
  {
    forall i: nat, j: nat | g.Conn(i, j)
      ensures g.Conn(j, i)
    {
      if i != j {
        ValidEntry(g, i, j);
      }
    }
  }

  lemma ValidEntry(g: Graph, i: int, j: int)
    requires g.Valid() && 0 <= i < |g.nbrs| && j in g.nbrs[i]
    ensures 0 <= j < |g.nbrs| && j != i && i in g.nbrs[j]
  {
  }

  /** The lists after a new edge: `dst` in front of the list of `src`, `src` in front of that of `dst`. */
  lemma AcceptFront(g: Graph, src: nat, dst: nat, i: nat)
    requires src < |g.nbrs| && dst < |g.nbrs| && i < |g.nbrs|
    requires src != dst && dst !in g.nbrs[src]
    ensures Accept(g, src, dst).nbrs[i] ==
      if i == src then [dst] + g.nbrs[i] else if i == dst then [src] + g.nbrs[i] else g.nbrs[i]
  {
  }

  /** Entering one edge keeps the lists those of a simple undirected graph. */
  lemma AcceptValid(g: Graph, src: nat, dst: nat)
    requires g.Valid() && src < |g.nbrs| && dst < |g.nbrs|
    ensures Accept(g, src, dst).Valid()
    ensures |Accept(g, src, dst).nbrs| == |g.nbrs|
  {
    if src != dst && dst !in g.nbrs[src] {
      var h := Accept(g, src, dst).nbrs;
      assert src !in g.nbrs[dst];
      forall i, j | 0 <= i < |h| && j in h[i]
        ensures j < |h| && j != i && i in h[j]
      {
        AcceptFront(g, src, dst, i);
        if i == src && j == dst {
          AcceptFront(g, src, dst, j);
        } else if i == dst && j == src {
          AcceptFront(g, src, dst, j);
        } else {
          assert j in g.nbrs[i];
          ValidEntry(g, i, j);
          AcceptFront(g, src, dst, j);
        }
      }
      forall i, k, l | 0 <= i < |h| && 0 <= k < l < |h[i]|
        ensures h[i][k] != h[i][l]
      {
        AcceptFront(g, src, dst, i);
        if i == src || i == dst {
          var other := if i == src then dst else src;
          assert h[i] == [other] + g.nbrs[i];
          assert h[i][l] == g.nbrs[i][l - 1];
          if k > 0 {
            assert h[i][k] == g.nbrs[i][k - 1];
          } else {
            assert other !in g.nbrs[i];
          }
        }
      }
    }
  }

  /** Whatever was read, the lists are those of a simple undirected graph on `n` nodes. */
  lemma {:induction false} IngestValid(n: nat, pairs: seq<(int, int)>, count: nat)
    requires Ingest(n, pairs, count).Ok?
    ensures Ingest(n, pairs, count).value.Valid()
  {
    if count > 0 {
      IngestValid(n, pairs, count - 1);
      var g := Ingest(n, pairs, count - 1).value;
      var p := PairAt(pairs, count - 1);
      AcceptValid(g, p.0, p.1);
    }
  }

  /**
   * The lists are complete once all pairs are good: reading fails exactly
   * when one of the pairs read names an id outside 0 .. n-1.
   */
  lemma {:induction false} IngestOk(n: nat, pairs: seq<(int, int)>, count: nat)
    ensures Ingest(n, pairs, count).Ok? <==> forall k :: 0 <= k < count ==> Good(PairAt(pairs, k), n)
  {
    if count > 0 {
      IngestOk(n, pairs, count - 1);
    }
  }

  /**
   * An error names the first bad pair: every pair before it is good, and it
   * is reported as out of range when an id is at least `n` (the assertion),
   * as negative otherwise.
   */
  lemma {:induction false} IngestError(n: nat, pairs: seq<(int, int)>, count: nat)
    requires Ingest(n, pairs, count).Err?
    ensures var e := Ingest(n, pairs, count).error;
      && (e.IdOutOfRange? || e.NegativeId?)
      && e.index < count
      && (forall k :: 0 <= k < e.index ==> Good(PairAt(pairs, k), n))
      && !Good(PairAt(pairs, e.index), n)
      && (e.IdOutOfRange? <==> !(PairAt(pairs, e.index).0 < n && PairAt(pairs, e.index).1 < n))
  {
    if Ingest(n, pairs, count - 1).Err? {
      IngestError(n, pairs, count - 1);
    } else {
      IngestOk(n, pairs, count - 1);
    }
  }

  /** Once reading has stopped with an error, the later pairs are never read. */
  lemma {:induction false} IngestStops(n: nat, pairs: seq<(int, int)>, stop: nat, count: nat)
    requires stop <= count && Ingest(n, pairs, stop).Err?
    ensures Ingest(n, pairs, count) == Ingest(n, pairs, stop)
    decreases count - stop
  {
    if stop < count {
      IngestStops(n, pairs, stop, count - 1);
    }
  }

  /** `x` is a partner of `i` exactly when some pair read joins `i` to a different node `x`. */
  lemma {:induction false} PartnersMembers(pairs: seq<(int, int)>, count: nat, i: int, x: int)
    ensures x in Partners(pairs, count, i) <==>
      i != x && exists k :: 0 <= k < count && Joins(PairAt(pairs, k), i, x)
  {
    if count > 0 {
      PartnersMembers(pairs, count - 1, i, x);
      var p := PairAt(pairs, count - 1);
      if i != x && Joins(p, i, x) && !Fresh(pairs, count - 1) {
        var j :| 0 <= j < count - 1 && Joins(PairAt(pairs, j), p.0, p.1);
        assert Joins(PairAt(pairs, j), i, x);
      }
      if x in Partners(pairs, count, i) && x !in Partners(pairs, count - 1, i) {
        assert Joins(p, i, x);
      }
    }
  }

  lemma {:induction false} ReverseMembers<T>(s: seq<T>, x: T)
    ensures x in Reverse(s) <==> x in s
  {
    if x in s {
      var k :| 0 <= k < |s| && s[k] == x;
      assert Reverse(s)[|s| - 1 - k] == x;
    }
  }

  lemma ReverseSnoc<T>(s: seq<T>, x: T)
    ensures Reverse(s + [x]) == [x] + Reverse(s)
  {
  }

  /**
   * Pair `count` is kept exactly when the program finds it new: not a
   * self-loop, and `dst` is not yet in the list of `src`.
   */
  lemma {:induction false} IngestFresh(n: nat, pairs: seq<(int, int)>, count: nat)
    requires Ingest(n, pairs, count + 1).Ok?
    ensures var p := PairAt(pairs, count);
      && Good(p, n)
      && (Fresh(pairs, count) <==> p.0 != p.1 && p.1 !in Ingest(n, pairs, count).value.nbrs[p.0])
    decreases count, 2
  {
    var g := Ingest(n, pairs, count).value;
    var p := PairAt(pairs, count);
    IngestOrder(n, pairs, count);
    ReverseMembers(Partners(pairs, count, p.0), p.1);
    PartnersMembers(pairs, count, p.0, p.1);
    if !Fresh(pairs, count) && p.0 != p.1 {
      var j :| 0 <= j < count && Joins(PairAt(pairs, j), p.0, p.1);
    }
  }

  /**
   * Each list holds the partners of its node in reverse input order: an
   * accepted edge is pushed to the front of both endpoints' lists, and
   * self-loops and repeated pairs, in either orientation, are skipped.
   */
  lemma {:induction false} IngestOrder(n: nat, pairs: seq<(int, int)>, count: nat)
    requires Ingest(n, pairs, count).Ok?
    ensures forall i :: 0 <= i < n ==>
      Ingest(n, pairs, count).value.nbrs[i] == Reverse(Partners(pairs, count, i))
    decreases count, 1
  {
    if count > 0 {
      IngestOrder(n, pairs, count - 1);
      IngestFresh(n, pairs, count - 1);
      var g := Ingest(n, pairs, count - 1).value;
      var p := PairAt(pairs, count - 1);
      var h := Ingest(n, pairs, count).value;
      assert h == Accept(g, p.0, p.1);
      forall i | 0 <= i < n
        ensures h.nbrs[i] == Reverse(Partners(pairs, count, i))
      {
        var before := Partners(pairs, count - 1, i);
        if Fresh(pairs, count - 1) && (i == p.0 || i == p.1) {
          var other := if i == p.0 then p.1 else p.0;
          AcceptFront(g, p.0, p.1, i);
          assert Partners(pairs, count, i) == before + [other];
          ReverseSnoc(before, other);
        } else if Fresh(pairs, count - 1) {
          AcceptFront(g, p.0, p.1, i);
          assert Partners(pairs, count, i) == before;
        } else {
          assert Partners(pairs, count, i) == before;
        }
      }
    }
  }
  /** Replacing one list changes the total by the difference in length. */
  lemma {:induction false} TotalDegreeUpdate(nbrs: seq<seq<nat>>, i: nat, l: seq<nat>)
    requires i < |nbrs|
    ensures TotalDegree(nbrs[i := l]) + |nbrs[i]| == TotalDegree(nbrs) + |l|
  {
    var m := |nbrs| - 1;
    if i < m {
      assert nbrs[i := l][..m] == nbrs[..m][i := l];
      TotalDegreeUpdate(nbrs[..m], i, l);
    } else {
      assert nbrs[i := l][..m] == nbrs[..m];
    }
  }

  /** Handshake: the degrees add up to twice the number of accepted edges. */
  lemma {:induction false} IngestDegreeSum(n: nat, pairs: seq<(int, int)>, count: nat)
    requires Ingest(n, pairs, count).Ok?
    ensures TotalDegree(Ingest(n, pairs, count).value.nbrs) == 2 * Kept(pairs, count)
  {
    if count == 0 {
      TotalDegreeEmpty(n);
    } else {
      IngestDegreeSum(n, pairs, count - 1);
      IngestFresh(n, pairs, count - 1);
      var g := Ingest(n, pairs, count - 1).value;
      var p := PairAt(pairs, count - 1);
      if Fresh(pairs, count - 1) {
        var mid := g.nbrs[p.0 := [p.1] + g.nbrs[p.0]];
        TotalDegreeUpdate(g.nbrs, p.0, [p.1] + g.nbrs[p.0]);
        TotalDegreeUpdate(mid, p.1, [p.0] + g.nbrs[p.1]);
      }
    }
  }

  lemma {:induction false} TotalDegreeEmpty(n: nat)
    ensures TotalDegree(EmptyGraph(n).nbrs) == 0
  {
    if n > 0 {
      assert EmptyGraph(n).nbrs[..n - 1] == EmptyGraph(n - 1).nbrs;
      TotalDegreeEmpty(n - 1);
    }
  }

  // ------------------------------------------------------------ CSR layout

  /** The lists laid end to end, node after node: the `edges` array. */
  function Flat(nbrs: seq<seq<nat>>): (r: seq<nat>)
    ensures |r| == TotalDegree(nbrs)
  {
    if nbrs == [] then [] else Flat(nbrs[..|nbrs| - 1]) + nbrs[|nbrs| - 1]
  }

  /** One more list: its length is added to the total, its entries to the end of the layout. */
  lemma FlatStep(nbrs: seq<seq<nat>>, i: nat)
    requires i < |nbrs|
    ensures TotalDegree(nbrs[..i + 1]) == TotalDegree(nbrs[..i]) + |nbrs[i]|
    ensures Flat(nbrs[..i + 1]) == Flat(nbrs[..i]) + nbrs[i]
  {
    assert nbrs[..i + 1][..i] == nbrs[..i];
  }

  /** The layout of the first lists is a prefix of the whole layout. */
  lemma {:induction false} FlatPrefix(nbrs: seq<seq<nat>>, i: nat)
    requires i <= |nbrs|
    ensures TotalDegree(nbrs[..i]) <= TotalDegree(nbrs)
    ensures Flat(nbrs)[..TotalDegree(nbrs[..i])] == Flat(nbrs[..i])
    decreases |nbrs| - i
  {
    if i < |nbrs| {
      FlatPrefix(nbrs, i + 1);
      FlatStep(nbrs, i);
      assert Flat(nbrs[..i + 1])[..TotalDegree(nbrs[..i])] == Flat(nbrs[..i]);
    } else {
      assert nbrs[..i] == nbrs;
    }
  }

  /**
   * CSR layout: with `edges_for[i]` the total length of the lists before
   * node i, the offsets never decrease and the slice from `edges_for[i]` to
   * `edges_for[i + 1]` is exactly the list of node i, so `DEGREE(i)` is its
   * length.
   */
  lemma CsrSlice(nbrs: seq<seq<nat>>, i: nat)
    requires i < |nbrs|
    ensures TotalDegree(nbrs[..i]) <= TotalDegree(nbrs[..i + 1]) <= TotalDegree(nbrs)
    ensures TotalDegree(nbrs[..i + 1]) - TotalDegree(nbrs[..i]) == |nbrs[i]|
    ensures Flat(nbrs)[TotalDegree(nbrs[..i])..TotalDegree(nbrs[..i + 1])] == nbrs[i]
  {
    FlatStep(nbrs, i);
    FlatPrefix(nbrs, i + 1);
    var f := Flat(nbrs);
    var lo, hi := TotalDegree(nbrs[..i]), TotalDegree(nbrs[..i + 1]);
    assert f[lo..hi] == f[..hi][lo..hi];
  }

  /** Entering a new edge sets the two bits of the edge and no other. */
  lemma AcceptConn(g: Graph, src: nat, dst: nat, x: nat, y: nat)
    requires src < |g.nbrs| && dst < |g.nbrs| && src != dst && dst !in g.nbrs[src]
    ensures Accept(g, src, dst).Conn(x, y) == (g.Conn(x, y) || (x == src && y == dst) || (x == dst && y == src))
  {
    if x < |g.nbrs| {
      AcceptFront(g, src, dst, x);
    }
  }

  /** At most one edge is kept per pair read. */
  lemma {:induction false} KeptAtMost(pairs: seq<(int, int)>, count: nat)
    ensures Kept(pairs, count) <= count
  {
    if count > 0 {
      KeptAtMost(pairs, count - 1);
    }
  }
}
