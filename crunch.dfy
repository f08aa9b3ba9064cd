/**
 * `GraphCrunch::count` (src/graphcrunch.cpp:112-547) end to end: build the
 * graph from the edge list, run the counting loops, and turn the orbit
 * counts into one graphlet degree vector per node.
 */
module Crunch {
  import opened Graphs
  import opened Builder
  import opened Census
  import opened Report
  import opened Counting

  /**
   * The counts for a graph of `v` nodes (ids 1 .. v) and the edge list
   * `pairs`, of which the program reads `edgeCount`: the error the builder
   * stops with, or the vectors of the instances the loops enumerate.
   */
  method Count(v: int, edgeCount: int, pairs: seq<(int, int)>) returns (r: Result<seq<seq<int>>, BuildError>)
    ensures r.Err? <==> Load(v, edgeCount, pairs).Err?
    ensures r.Err? ==> r.error == Load(v, edgeCount, pairs).error
    ensures r.Ok? ==> r.value == Output(Load(v, edgeCount, pairs).value)
  {
    var built := Build(v, edgeCount, pairs);
    if built.Err? {
      return Err(built.error);
    }
    var counter := new Counter(built.value);
    counter.CountAll();
    var gdvs := counter.Aggregate();
    return Ok(gdvs);
  }
}
