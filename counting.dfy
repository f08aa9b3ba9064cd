/**
 * The counting loops of `GraphCrunch::count` (src/graphcrunch.cpp:223-528):
 * five nested `foreach_adj` loops over the CSR arrays that classify every
 * instance reached and increment `gcount[type]` and `ncount[orbit][node]`.
 * Each loop level is a method; each is proved to record exactly the
 * instances its pure counterpart in `Census` lists.
 */
module Counting {
  import opened Tables
  import opened Classify
  import opened Graphs
  import opened BitRows
  import opened Builder
  import opened Census
  import opened Report

  /** A signature the counters can take for `size` nodes: a type 0..28 and an orbit 0..71 per node. */
  ghost predicate Sized(s: Sig, size: nat) {
    && |s.orbits| == size
    && 0 <= s.gtype < GraphletTypes
    && forall i :: 0 <= i < |s.orbits| ==> 0 <= s.orbits[i] < OrbitCount
  }

  /** An instance the counters can take: a signature that fits, over nodes of the graph. */
  ghost predicate Fits(h: Hit, n: nat) {
    && Sized(h.sig, |h.nodes|)
    && forall i :: 0 <= i < |h.nodes| ==> 0 <= h.nodes[i] < n
  }

  lemma FitsOf(s: Sig, nodes: seq<int>, n: nat)
    requires Sized(s, |nodes|)
    requires forall v :: v in nodes ==> 0 <= v < n
    ensures Fits(Hit(s, nodes), n)
  {
    forall i | 0 <= i < |nodes|
      ensures 0 <= nodes[i] < n
    {
      assert nodes[i] in nodes;
    }
  }

  /** The side-branch signatures are well formed. */
  lemma SideSigsProper()
    ensures Proper(ClawSig, 4) && Proper(X11Sig, 5) && Proper(X10Sig, 5) && Proper(X14Sig, 5)
  {
  }

  lemma SideSigsSized()
    ensures Sized(ClawSig, 4) && Sized(X11Sig, 5) && Sized(X10Sig, 5) && Sized(X14Sig, 5)
  {
    SideSigsProper();
  }

  lemma Class3Sized(ab: bool, ac: bool, bc: bool)
    requires ab && bc
    ensures Sized(Class3(ab, ac, bc), 3)
  {
    Class3Walk(ab, ac, bc);
  }

  lemma Class4Sized(ab: bool, ac: bool, ad: bool, bc: bool, bd: bool, cd: bool)
    requires ab && bc && cd
    ensures Class4(ab, ac, ad, bc, bd, cd).Some? && Sized(Class4(ab, ac, ad, bc, bd, cd).value, 4)
  {
    Class4Walk(ab, ac, ad, bc, bd, cd);
  }

  lemma Class5Sized(p: Pairs)
    requires p.IsWalk()
    ensures Class5(p).Some? && Sized(Class5(p).value, 5)
  {
    Class5Walk(p);
  }

  class Counter {
    const csr: Csr
    /** `gcount[29]`: instances per graphlet type. */
    const gcount: array<int>
    /** `ncount[72][V]`: per orbit, how often each node was counted in it. */
    const ncount: array2<int>
    /** The instances counted so far, in order. */
    ghost var log: seq<Hit>

    ghost predicate Valid()
      reads this, gcount, ncount, csr, csr.edges, csr.edgesFor, csr.adj, csr.adj.rows
    {
      && csr.Valid()
      && gcount != csr.edges && gcount != csr.edgesFor
      && gcount.Length == GraphletTypes
      && ncount.Length0 == OrbitCount && ncount.Length1 == csr.n
      && (forall t :: 0 <= t < GraphletTypes ==> gcount[t] == GTally(log, t))
      && (forall o, v :: 0 <= o < OrbitCount && 0 <= v < csr.n ==> ncount[o, v] == NTally(log, o, v))
    }

    /** Zeroed counters (`int64 gcount[29] = {}` and `calloc`) and nothing counted yet. */
    constructor (csr: Csr)
      requires csr.Valid()
      ensures Valid() && this.csr == csr && log == []
      ensures fresh(gcount) && fresh(ncount)
    {
      this.csr := csr;
      gcount := new int[GraphletTypes](_ => 0);
      ncount := new int[OrbitCount, csr.n]((_, _) => 0);
      log := [];
    }

    /** Counts one instance: `gcount[type]++` and `ncount[orbit][node]++` for each of its nodes. */
    method Record(h: Hit)
      requires Valid() && Fits(h, csr.n)
      modifies this, gcount, ncount
      ensures Valid() && log == old(log) + [h]
    {
      ghost var L := log;
      gcount[h.sig.gtype] := gcount[h.sig.gtype] + 1;
      for k := 0 to |h.nodes|
        modifies ncount
        invariant forall o, v :: 0 <= o < OrbitCount && 0 <= v < csr.n ==>
          ncount[o, v] == NTally(L, o, v) + OccursUpTo(h, k, o, v)
      {
        ncount[h.sig.orbits[k], h.nodes[k]] := ncount[h.sig.orbits[k], h.nodes[k]] + 1;
      }
      log := L + [h];
      forall t | 0 <= t < GraphletTypes
        ensures gcount[t] == GTally(log, t)
      {
        GTallySnoc(L, h, t);
      }
      forall o, v | 0 <= o < OrbitCount && 0 <= v < csr.n
        ensures ncount[o, v] == NTally(log, o, v)
      {
        NTallySnoc(L, h, o, v);
      }
    }

    /** The entry at position `pe` of the slice of node `x`: a neighbour of `x`. */
    lemma Neighbour(x: nat, pe: int)
      requires Valid() && x < csr.n
      requires csr.edgesFor[x] <= pe < csr.edgesFor[x + 1]
      ensures 0 <= csr.edgesFor[x] <= csr.edgesFor[x + 1] <= csr.edges.Length
      ensures csr.edgesFor[x + 1] - csr.edgesFor[x] == |csr.graph.nbrs[x]|
      ensures csr.edges[pe] == csr.graph.nbrs[x][pe - csr.edgesFor[x]]
      ensures 0 <= csr.edges[pe] < csr.n && csr.edges[pe] != x
      ensures csr.graph.Conn(x, csr.edges[pe])
    {
      csr.Slice(x);
      var lo, hi := csr.edgesFor[x], csr.edgesFor[x + 1];
      assert csr.edges[pe] == csr.edges[lo..hi][pe - lo];
      assert csr.edges[pe] in csr.graph.nbrs[x];
    }

    /**
     * The `Connected(i, j)` macro: the byte of row i holding bit j, masked
     * to that bit; non-zero exactly when the lists join i and j.
     */
    function Probe(i: nat, j: nat): (v: int)
      requires Valid() && i < csr.n && j < csr.n
      reads this, gcount, ncount, csr, csr.edges, csr.edgesFor, csr.adj, csr.adj.rows
      ensures 0 <= v < 256
      ensures v == 0 <==> !csr.graph.Conn(i, j)
    {
      csr.adj.Value(i, j)
    }

    /**
     * The ten `Connected` bits of the walk a-b-c-d-e, one read per pair.
     * The program reads e's row for e's degree (`Connected(e, a)` ..
     * `Connected(e, d)`) and the other rows against e for `ndeg`; on the
     * graph `Build` returns the bits are symmetric, so both give these bits.
     */
    method ReadPairs(a: nat, b: nat, c: nat, d: nat, e: nat) returns (p: Pairs)
      requires Valid() && a < csr.n && b < csr.n && c < csr.n && d < csr.n && e < csr.n
      ensures p == PairsOf(csr.graph, a, b, c, d, e)
    {
      var ab := Probe(a, b);
      var ac := Probe(a, c);
      var ad := Probe(a, d);
      var ae := Probe(a, e);
      var bc := Probe(b, c);
      var bd := Probe(b, d);
      var be := Probe(b, e);
      var cd := Probe(c, d);
      var ce := Probe(c, e);
      var de := Probe(d, e);
      p := Pairs(ab != 0, ac != 0, ad != 0, ae != 0, bc != 0, bd != 0, be != 0, cd != 0, ce != 0, de != 0);
    }

    /** The 5-node instance a-b-c-d-e: classified from the ten `Connected` bits and counted. */
    method AtFive(a: nat, b: nat, c: nat, d: nat, e: nat)
      requires Valid() && a < csr.n && b < csr.n && c < csr.n && d < csr.n && e < csr.n
      requires csr.graph.Conn(a, b) && csr.graph.Conn(b, c) && csr.graph.Conn(c, d) && csr.graph.Conn(d, e)
      modifies this, gcount, ncount
      ensures Valid() && log == old(log) + Here5(csr.graph, a, b, c, d, e)
    {
      var p := ReadPairs(a, b, c, d, e);
      Class5Sized(p);
      var s := Class5(p).value;
      FitsOf(s, [a, b, c, d, e], csr.n);
      Record(Hit(s, [a, b, c, d, e]));
    }

    /** The innermost loop: every 5-node walk a-b-c-d-e with e a neighbour of d. */
    method FromD(a: nat, b: nat, c: nat, d: nat)
      requires Valid() && a < csr.n && b < csr.n && c < csr.n && d < csr.n
      requires csr.graph.Conn(a, b) && csr.graph.Conn(b, c) && csr.graph.Conn(c, d)
      modifies this, gcount, ncount
      ensures Valid() && log == old(log) + Extend(csr.graph, Four(a, b, c, d), Nbrs(csr.graph, d))
    {
      ghost var g, L := csr.graph, log;
      ghost var xs := g.nbrs[d];
      csr.Slice(d);
      var lo := csr.edgesFor[d];
      var pe := lo;
      ghost var k := 0;
      while pe != csr.edgesFor[d + 1]
        invariant Valid() && lo <= pe <= csr.edgesFor[d + 1] && k == pe - lo
        invariant log == L + Extend(g, Four(a, b, c, d), xs[..k])
      {
        Neighbour(d, pe);
        var e: nat := csr.edges[pe];
        ExtendStep(L, g, Four(a, b, c, d), xs, k);
        if !(e == a || e == b || e == c || e == d) {
          AtFive(a, b, c, d, e);
        }
        pe, k := pe + 1, k + 1;
      }
      assert xs[..k] == Nbrs(g, d);
    }

    /**
     * A side-branch loop over the neighbours e of b: each e whose
     * `Connected` sum against a, c and d is 0 completes an instance of `s`.
     */
    method Pendant(a: nat, b: nat, c: nat, d: nat, s: Sig)
      requires Valid() && a < csr.n && b < csr.n && c < csr.n && d < csr.n
      requires Sized(s, 5)
      modifies this, gcount, ncount
      ensures Valid() && log == old(log) + Pendants(csr.graph, a, b, c, d, s, Nbrs(csr.graph, b))
    {
      ghost var g, L := csr.graph, log;
      ghost var xs := g.nbrs[b];
      csr.Slice(b);
      var lo := csr.edgesFor[b];
      var pe := lo;
      ghost var k := 0;
      while pe != csr.edgesFor[b + 1]
        invariant Valid() && lo <= pe <= csr.edgesFor[b + 1] && k == pe - lo
        invariant log == L + Pendants(g, a, b, c, d, s, xs[..k])
      {
        Neighbour(b, pe);
        var e: nat := csr.edges[pe];
        PendantsStep(L, g, a, b, c, d, s, xs, k);
        var ae := Probe(a, e);
        var ce := Probe(c, e);
        var de := Probe(d, e);
        if ae + ce + de == 0 {
          FitsOf(s, [a, b, c, d, e], csr.n);
          Record(Hit(s, [a, b, c, d, e]));
        }
        pe, k := pe + 1, k + 1;
      }
      assert xs[..k] == Nbrs(g, b);
    }

    /** One step of the claw loop: the neighbour d of b. */
    method ClawAt(a: nat, b: nat, c: nat, d: nat)
      requires Valid() && a < csr.n && b < csr.n && c < csr.n && d < csr.n
      modifies this, gcount, ncount
      ensures Valid() && log == old(log) + Claw(csr.graph, a, b, c, d)
    {
      ghost var g, L := csr.graph, log;
      if Probe(a, d) + Probe(c, d) == 0 {
        SideSigsSized();
        ghost var x11: seq<Hit> := [];
        if csr.Degree(b) > 3 {
          Pendant(a, b, c, d, X11Sig);
          x11 := Pendants(g, a, b, c, d, X11Sig, Nbrs(g, b));
        }
        FitsOf(ClawSig, [a, b, c, d], csr.n);
        Record(Hit(ClawSig, [a, b, c, d]));
        Regroup(L, x11, [Hit(ClawSig, [a, b, c, d])]);
      }
    }

    /** The claw loop off the path a-b-c, over the neighbours d of b. */
    method FindClaws(a: nat, b: nat, c: nat)
      requires Valid() && a < csr.n && b < csr.n && c < csr.n
      modifies this, gcount, ncount
      ensures Valid() && log == old(log) + Claws(csr.graph, a, b, c, Nbrs(csr.graph, b))
    {
      ghost var g, L := csr.graph, log;
      ghost var xs := g.nbrs[b];
      csr.Slice(b);
      var lo := csr.edgesFor[b];
      var pd := lo;
      ghost var k := 0;
      while pd != csr.edgesFor[b + 1]
        invariant Valid() && lo <= pd <= csr.edgesFor[b + 1] && k == pd - lo
        invariant log == L + Claws(g, a, b, c, xs[..k])
      {
        Neighbour(b, pd);
        var d: nat := csr.edges[pd];
        ClawsStep(L, g, a, b, c, xs, k);
        ClawAt(a, b, c, d);
        pd, k := pd + 1, k + 1;
      }
      assert xs[..k] == Nbrs(g, b);
    }

    /** The 4-node instance a-b-c-d, classified from its six `Connected` bits, and its side branches. */
    method CountFour(a: nat, b: nat, c: nat, d: nat)
      requires Valid() && a < csr.n && b < csr.n && c < csr.n && d < csr.n
      requires csr.graph.Conn(a, b) && csr.graph.Conn(b, c) && csr.graph.Conn(c, d)
      modifies this, gcount, ncount
      ensures Valid() && log == old(log) + Here4(csr.graph, a, b, c, d)
    {
      ghost var g, L := csr.graph, log;
      var vab := Probe(a, b);
      var vac := Probe(a, c);
      var vad := Probe(a, d);
      var vbc := Probe(b, c);
      var vbd := Probe(b, d);
      var vcd := Probe(c, d);
      var ab, ac, ad, bc, bd, cd := vab != 0, vac != 0, vad != 0, vbc != 0, vbd != 0, vcd != 0;
      Class4Sized(ab, ac, ad, bc, bd, cd);
      var deg := Degrees4(ab, ac, ad, bc, bd, cd);
      var s := Class4(ab, ac, ad, bc, bd, cd).value;
      FitsOf(s, [a, b, c, d], csr.n);
      Record(Hit(s, [a, b, c, d]));
      ghost var side: seq<Hit> := [];
      SideSigsSized();
      if s.gtype == 2 {
        Pendant(a, b, c, d, X10Sig);
        side := Pendants(g, a, b, c, d, X10Sig, Nbrs(g, b));
      } else if s.gtype == 5 && deg[1] == 3 {
        Pendant(a, b, c, d, X14Sig);
        side := Pendants(g, a, b, c, d, X14Sig, Nbrs(g, b));
      }
      Regroup(L, [Hit(s, [a, b, c, d])], side);
    }

    /** The 4-node instance a-b-c-d, its side branches, and the loop over the neighbours of d. */
    method AtFour(a: nat, b: nat, c: nat, d: nat)
      requires Valid() && a < csr.n && b < csr.n && c < csr.n && d < csr.n
      requires csr.graph.Conn(a, b) && csr.graph.Conn(b, c) && csr.graph.Conn(c, d)
      modifies this, gcount, ncount
      ensures Valid() && log == old(log) + Next(csr.graph, Three(a, b, c), d)
    {
      ghost var g, L := csr.graph, log;
      CountFour(a, b, c, d);
      FromD(a, b, c, d);
      Regroup(L, Here4(g, a, b, c, d), Extend(g, Four(a, b, c, d), Nbrs(g, d)));
      assert Next(g, Three(a, b, c), d) == Explore(g, Four(a, b, c, d));
    }

    /** The loop over the neighbours d of c, skipping a, b and c. */
    method FromC(a: nat, b: nat, c: nat)
      requires Valid() && a < csr.n && b < csr.n && c < csr.n
      requires csr.graph.Conn(a, b) && csr.graph.Conn(b, c)
      modifies this, gcount, ncount
      ensures Valid() && log == old(log) + Extend(csr.graph, Three(a, b, c), Nbrs(csr.graph, c))
    {
      ghost var g, L := csr.graph, log;
      ghost var xs := g.nbrs[c];
      csr.Slice(c);
      var lo := csr.edgesFor[c];
      var pd := lo;
      ghost var k := 0;
      while pd != csr.edgesFor[c + 1]
        invariant Valid() && lo <= pd <= csr.edgesFor[c + 1] && k == pd - lo
        invariant log == L + Extend(g, Three(a, b, c), xs[..k])
      {
        Neighbour(c, pd);
        var d: nat := csr.edges[pd];
        ExtendStep(L, g, Three(a, b, c), xs, k);
        if !(d == a || d == b || d == c) {
          AtFour(a, b, c, d);
        }
        pd, k := pd + 1, k + 1;
      }
      assert xs[..k] == Nbrs(g, c);
    }

    /** The 3-node instance a-b-c, classified from its three `Connected` bits, and the claw loop off a path. */
    method CountThree(a: nat, b: nat, c: nat)
      requires Valid() && a < csr.n && b < csr.n && c < csr.n
      requires csr.graph.Conn(a, b) && csr.graph.Conn(b, c)
      modifies this, gcount, ncount
      ensures Valid() && log == old(log) + Here3(csr.graph, a, b, c)
    {
      ghost var g, L := csr.graph, log;
      var ab := Probe(a, b);
      var ac := Probe(a, c);
      var bc := Probe(b, c);
      var s := Class3(ab != 0, ac != 0, bc != 0);
      Class3Sized(ab != 0, ac != 0, bc != 0);
      FitsOf(s, [a, b, c], csr.n);
      Record(Hit(s, [a, b, c]));
      ghost var claws: seq<Hit> := [];
      if s.gtype == 0 && csr.Degree(b) > 2 {
        FindClaws(a, b, c);
        claws := Claws(g, a, b, c, Nbrs(g, b));
      }
      Regroup(L, [Hit(s, [a, b, c])], claws);
    }

    /** The 3-node instance a-b-c, its claw loop, and the loop over the neighbours of c. */
    method AtThree(a: nat, b: nat, c: nat)
      requires Valid() && a < csr.n && b < csr.n && c < csr.n
      requires csr.graph.Conn(a, b) && csr.graph.Conn(b, c)
      modifies this, gcount, ncount
      ensures Valid() && log == old(log) + Next(csr.graph, Two(a, b), c)
    {
      ghost var g, L := csr.graph, log;
      CountThree(a, b, c);
      FromC(a, b, c);
      Regroup(L, Here3(g, a, b, c), Extend(g, Three(a, b, c), Nbrs(g, c)));
      assert Next(g, Two(a, b), c) == Explore(g, Three(a, b, c));
    }

    /** The loop over the neighbours c of b, skipping a and b. */
    method FromB(a: nat, b: nat)
      requires Valid() && a < csr.n && b < csr.n && csr.graph.Conn(a, b)
      modifies this, gcount, ncount
      ensures Valid() && log == old(log) + Explore(csr.graph, Two(a, b))
    {
      ghost var g, L := csr.graph, log;
      ghost var xs := g.nbrs[b];
      csr.Slice(b);
      var lo := csr.edgesFor[b];
      var pc := lo;
      ghost var k := 0;
      while pc != csr.edgesFor[b + 1]
        invariant Valid() && lo <= pc <= csr.edgesFor[b + 1] && k == pc - lo
        invariant log == L + Extend(g, Two(a, b), xs[..k])
      {
        Neighbour(b, pc);
        var c: nat := csr.edges[pc];
        ExtendStep(L, g, Two(a, b), xs, k);
        if !(c == a || c == b) {
          AtThree(a, b, c);
        }
        pc, k := pc + 1, k + 1;
      }
      assert xs[..k] == Nbrs(g, b);
    }

    /** The loop over the neighbours b of a, skipping a itself. */
    method FromA(a: nat)
      requires Valid() && a < csr.n
      modifies this, gcount, ncount
      ensures Valid() && log == old(log) + Explore(csr.graph, From(a))
    {
      ghost var g, L := csr.graph, log;
      ghost var xs := g.nbrs[a];
      csr.Slice(a);
      var lo := csr.edgesFor[a];
      var pb := lo;
      ghost var k := 0;
      while pb != csr.edgesFor[a + 1]
        invariant Valid() && lo <= pb <= csr.edgesFor[a + 1] && k == pb - lo
        invariant log == L + Extend(g, From(a), xs[..k])
      {
        Neighbour(a, pb);
        var b: nat := csr.edges[pb];
        ExtendStep(L, g, From(a), xs, k);
        if b != a {
          FromB(a, b);
        }
        pb, k := pb + 1, k + 1;
      }
      assert xs[..k] == Nbrs(g, a);
    }

    /** The outer loop over every node a. */
    method CountAll()
      requires Valid() && log == []
      modifies this, gcount, ncount
      ensures Valid() && log == Enumerate(csr.graph)
    {
      for a := 0 to csr.n
        invariant Valid() && log == Walks(csr.graph, a)
      {
        FromA(a);
      }
    }

    /**
     * The output loops: for every node id j from 1, `DEGREE(j)` and then
     * `(unsigned)ncount[o][j] / overcount[ntype2gtype[o]]` for the 72 orbits.
     */
    method Aggregate() returns (gdvs: seq<seq<int>>)
      requires Valid()
      ensures gdvs == Vectors(csr.graph, log)
    {
      ghost var g := csr.graph;
      assert |g.nbrs| == csr.n;
      gdvs := [];
      var j := 1;
      while j < csr.n
        invariant (1 <= j <= csr.n || (j == 1 && csr.n == 0)) && |gdvs| == j - 1
        invariant forall k :: 0 <= k < |gdvs| ==> gdvs[k] == Vector(g, log, k + 1)
      {
        var gdv := [csr.Degree(j)];
        for o := 0 to OrbitCount
          invariant |gdv| == o + 1 && gdv[0] == |csr.graph.nbrs[j]|
          invariant forall q :: 0 <= q < o ==> gdv[q + 1] == Scaled(NTally(log, q, j), q)
        {
          gdv := gdv + [Unsigned(ncount[o, j]) / OrbitOvercount(o)];
        }
        assert gdv == Vector(g, log, j);
        gdvs := gdvs + [gdv];
        j := j + 1;
      }
      assert |gdvs| == |Vectors(g, log)|;
    }
  }
}
