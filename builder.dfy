/**
 * The graph builder of `GraphCrunch::count` (src/graphcrunch.cpp:120-221),
 * step by step: the bit rows of the adjacency matrix with their diagonal
 * set, the per-node lists filled while the pairs are read, and their
 * flattening into the `edges` / `edges_for` arrays the counting loops walk.
 */
module Builder {
  import opened Graphs
  import opened BitRows

  /** The graph as the counting loops see it. */
  class Csr {
    /** The number of node ids, `V` after `V++`. */
    const n: nat
    /** The lists of all nodes, one after the other. */
    const edges: array<int>
    /** `edges_for[i]`: where the list of node `i` starts; `edges_for[n]` ends the last one. */
    const edgesFor: array<int>
    const adj: BitMatrix
    /** The lists the arrays were flattened from. */
    ghost const graph: Graph

    /**
     * The arrays and bits represent `graph`. Symmetry of `graph` is not part
     * of it: the counting loops only need every entry to be a node, and
     * `Build` separately promises `graph.Valid()` for the graph it returns.
     */
    ghost predicate Valid()
      reads this, edges, edgesFor, adj, adj.rows
    {
      && graph.Entries() && |graph.nbrs| == n
      && adj.Valid() && adj.n == n
      && edgesFor.Length == n + 1
      && (forall i :: 0 <= i <= n ==> edgesFor[i] == TotalDegree(graph.nbrs[..i]))
      && TotalDegree(graph.nbrs) <= edges.Length
      && edges[..TotalDegree(graph.nbrs)] == Flat(graph.nbrs)
      && (forall i, j :: 0 <= i < n && 0 <= j < n ==> adj.Connected(i, j) == graph.Conn(i, j))
    }

    constructor (n: nat, edges: array<int>, edgesFor: array<int>, adj: BitMatrix, ghost graph: Graph)
      requires graph.Valid() && |graph.nbrs| == n
      requires adj.Valid() && adj.n == n
      requires edgesFor.Length == n + 1
      requires forall i :: 0 <= i <= n ==> edgesFor[i] == TotalDegree(graph.nbrs[..i])
      requires TotalDegree(graph.nbrs) <= edges.Length
      requires edges[..TotalDegree(graph.nbrs)] == Flat(graph.nbrs)
      requires forall i, j :: 0 <= i < n && 0 <= j < n ==> adj.Connected(i, j) == graph.Conn(i, j)
      ensures Valid()
      ensures this.n == n && this.edges == edges && this.edgesFor == edgesFor && this.adj == adj
      ensures this.graph == graph
    {
      this.n := n;
      this.edges := edges;
      this.edgesFor := edgesFor;
      this.adj := adj;
      this.graph := graph;
    }

    /** `DEGREE(i)`: the length of the list of node `i`. */
    function Degree(i: nat): (d: int)
      requires Valid() && i < n
      reads this, edges, edgesFor, adj, adj.rows
      ensures d == |graph.nbrs[i]|
    {
      CsrSlice(graph.nbrs, i);
      edgesFor[i + 1] - edgesFor[i]
    }

    /** `foreach_adj(x, i)` visits the list of node `i`: its slice of `edges`. */
    lemma Slice(i: nat)
      requires Valid() && i < n
      ensures 0 <= edgesFor[i] <= edgesFor[i + 1] <= edges.Length
      ensures edges[edgesFor[i]..edgesFor[i + 1]] == graph.nbrs[i]
    {
      CsrSlice(graph.nbrs, i);
      var t := TotalDegree(graph.nbrs);
      assert edges[edgesFor[i]..edgesFor[i + 1]] == edges[..t][edgesFor[i]..edgesFor[i + 1]];
    }
  }

  /** The bit rows, zeroed by `calloc`, with the diagonal set (`Connect(i, i)`). */
  method NewMatrix(n: nat) returns (adj: BitMatrix)
    ensures fresh(adj) && fresh(adj.rows) && adj.Valid() && adj.n == n
    ensures forall x, y :: 0 <= x < n && 0 <= y < n ==> adj.Connected(x, y) == (x == y)
  {
    adj := new BitMatrix(n);
    for i := 0 to n
      invariant adj.Valid() && adj.n == n
      invariant forall x, y :: 0 <= x < n && 0 <= y < n ==> adj.Connected(x, y) == (x == y && x < i)
    {
      adj.Connect(i, i);
    }
  }

  /**
   * One pair read into the lists: a self-loop is skipped, the list of `src`
   * is scanned for `dst` (a parallel edge is skipped), and a new edge is put
   * at the front of both lists and into both bit rows.
   */
  method AddEdge(heads: array<seq<nat>>, adj: BitMatrix, src: nat, dst: nat)
    requires adj.Valid() && heads.Length == adj.n && src < adj.n && dst < adj.n
    requires forall x, y :: 0 <= x < adj.n && 0 <= y < adj.n ==> adj.Connected(x, y) == Graph(heads[..]).Conn(x, y)
    modifies heads, adj.rows
    ensures adj.Valid()
    ensures Graph(heads[..]) == Accept(Graph(old(heads[..])), src, dst)
    ensures forall x, y :: 0 <= x < adj.n && 0 <= y < adj.n ==> adj.Connected(x, y) == Graph(heads[..]).Conn(x, y)
  {
    ghost var g := Graph(heads[..]);
    if src != dst {
      var bad := false;
      var link := heads[src];
      while link != []
        invariant dst in heads[src] <==> dst in link
      {
        if link[0] == dst {
          bad := true;
          break;
        }
        link := link[1..];
      }
      assert bad <==> dst in g.nbrs[src];
      if !bad {
        heads[src] := [dst] + heads[src];
        heads[dst] := [src] + heads[dst];
        adj.Connect(src, dst);
        adj.Connect(dst, src);
        assert Graph(heads[..]) == Accept(g, src, dst);
        forall x, y | 0 <= x < adj.n && 0 <= y < adj.n
          ensures adj.Connected(x, y) == Graph(heads[..]).Conn(x, y)
        {
          AcceptConn(g, src, dst, x, y);
        }
      }
    }
  }

  /**
   * Reads the first `count` pairs into the lists `heads` and the bit rows:
   * stops with the error of the first bad pair, skips self-loops and pairs
   * whose `dst` is already in the list of `src`, and otherwise puts each
   * end at the front of the other's list and sets both bits.
   */
  method ReadEdges(n: nat, pairs: seq<(int, int)>, count: nat, heads: array<seq<nat>>, adj: BitMatrix)
      returns (err: Option<BuildError>)
    requires heads.Length == n && adj.Valid() && adj.n == n
    requires forall i :: 0 <= i < n ==> heads[i] == []
    requires forall x, y :: 0 <= x < n && 0 <= y < n ==> adj.Connected(x, y) == (x == y)
    modifies heads, adj.rows
    ensures adj.Valid()
    ensures err.Some? <==> Ingest(n, pairs, count).Err?
    ensures err.Some? ==> err.value == Ingest(n, pairs, count).error
    ensures err.None? ==> Ingest(n, pairs, count) == Ok(Graph(heads[..]))
    ensures err.None? ==>
      forall x, y :: 0 <= x < n && 0 <= y < n ==> adj.Connected(x, y) == Graph(heads[..]).Conn(x, y)
  {
    assert Graph(heads[..]) == EmptyGraph(n);
    var i := 0;
    while i < count
      invariant 0 <= i <= count
      invariant adj.Valid()
      invariant Ingest(n, pairs, i) == Ok(Graph(heads[..]))
      invariant forall x, y :: 0 <= x < n && 0 <= y < n ==> adj.Connected(x, y) == Graph(heads[..]).Conn(x, y)
    {
      var p := PairAt(pairs, i);
      var src, dst := p.0, p.1;
      if !(src < n && dst < n) {
        IngestStops(n, pairs, i + 1, count);
        return Some(IdOutOfRange(i));
      }
      if src < 0 || dst < 0 {
        IngestStops(n, pairs, i + 1, count);
        return Some(NegativeId(i));
      }
      AddEdge(heads, adj, src, dst);
      i := i + 1;
    }
    return None;
  }

  /**
   * Copies the lists one after the other into `edges` (sized `E * 2 + 1`
   * with `E = 2 * E_undir`), recording in `edges_for[i]` where the list of
   * node `i` starts and in `edges_for[n]` where the last one ends.
   */
  method Flatten(heads: array<seq<nat>>, room: nat) returns (edges: array<int>, edgesFor: array<int>)
    requires TotalDegree(heads[..]) <= room
    ensures fresh(edges) && fresh(edgesFor)
    ensures edges.Length == room && edgesFor.Length == heads.Length + 1
    ensures forall i :: 0 <= i <= heads.Length ==> edgesFor[i] == TotalDegree(heads[..][..i])
    ensures edges[..TotalDegree(heads[..])] == Flat(heads[..])
  {
    ghost var nbrs := heads[..];
    var n := heads.Length;
    edgesFor := new int[n + 1];
    edges := new int[room];
    var last := 0;
    for i := 0 to n
      invariant last == TotalDegree(nbrs[..i]) <= room
      invariant forall x :: 0 <= x < i ==> edgesFor[x] == TotalDegree(nbrs[..x])
      invariant edges[..last] == Flat(nbrs[..i])
    {
      edgesFor[i] := last;
      FlatStep(nbrs, i);
      FlatPrefix(nbrs, i + 1);
      var link := heads[i];
      while link != []
        invariant |link| <= |nbrs[i]|
        invariant link == nbrs[i][|nbrs[i]| - |link|..]
        invariant last == TotalDegree(nbrs[..i]) + |nbrs[i]| - |link|
        invariant forall x :: 0 <= x <= i ==> edgesFor[x] == TotalDegree(nbrs[..x])
        invariant edges[..last] == Flat(nbrs[..i]) + nbrs[i][..|nbrs[i]| - |link|]
      {
        edges[last] := link[0];
        last := last + 1;
        link := link[1..];
      }
      assert nbrs[i][..|nbrs[i]|] == nbrs[i];
    }
    edgesFor[n] := last;
    assert nbrs[..n] == nbrs;
  }

  datatype Option<T> = None | Some(value: T)

  /**
   * The builder: for a file with header `V`, `E_undir` and the given pairs,
   * either the error the program stops with or the graph arrays, holding
   * exactly the lists of `Load`.
   */
  method Build(v: int, edgeCount: int, pairs: seq<(int, int)>) returns (r: Result<Csr, BuildError>)
    ensures r.Err? <==> Load(v, edgeCount, pairs).Err?
    ensures r.Err? ==> r.error == Load(v, edgeCount, pairs).error
    ensures r.Ok? ==> r.value.Valid() && r.value.n == v + 1 && r.value.graph == Load(v, edgeCount, pairs).value
    ensures r.Ok? ==> r.value.graph.Valid()
    ensures r.Ok? ==> fresh(r.value) && fresh(r.value.edges) && fresh(r.value.edgesFor)
    ensures r.Ok? ==> fresh(r.value.adj) && fresh(r.value.adj.rows)
  {
    if edgeCount < 0 {
      return Err(NegativeEdgeCount);
    }
    if v + 1 < 0 {
      return Err(NegativeNodeCount);
    }
    var n: nat := v + 1;
    var heads := new seq<nat>[n](_ => []);
    var adj := NewMatrix(n);
    var err := ReadEdges(n, pairs, edgeCount, heads, adj);
    if err.Some? {
      return Err(err.value);
    }
    ghost var g := Graph(heads[..]);
    IngestValid(n, pairs, edgeCount);
    IngestDegreeSum(n, pairs, edgeCount);
    KeptAtMost(pairs, edgeCount);
    var e := 2 * edgeCount;
    var edges, edgesFor := Flatten(heads, e * 2 + 1);
    var csr := new Csr(n, edges, edgesFor, adj, g);
    return Ok(csr);
  }
}
