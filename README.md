# GraphCrunch graphlet counting, modelled in Dafny

This project models `GraphCrunch::count` from `src/graphcrunch.cpp`. That function computes a graphlet degree vector for every node of an undirected graph. It counts every connected induced subgraph of 3, 4 or 5 nodes (a graphlet) that the node is part of, broken down by which of the 72 orbits the node is in. The model follows the function's four stages, in the same imperative form:

- **Graph builder** (`graphs.dfy`, `bitrows.dfy`, `builder.dfy`). The header and the edge pairs are checked. The bit-packed adjacency matrix is set up with its diagonal set. Each accepted edge goes to the front of both endpoints' neighbour lists. Self-loops and repeated pairs, in either orientation, are skipped. The lists are then flattened into the `edges` / `edges_for` arrays.
  - `Graphs` states what the builder computes, as pure functions.
  - `BitRows.BitMatrix` is the `adjmat` bit rows, as an `array2<bv8>`.
  - `Builder` holds the methods that fill the arrays.
- **Enumerator** (`census.dfy`, `counting.dfy`). `Counting.Counter` holds the counters `gcount[29]` and `ncount[72][V]`. It runs the five nested `foreach_adj` loops, including the claw, X11, X10 and X14 side loops. Every method is proved to append exactly what `Census` says to a ghost log of counted instances. Each counter always equals the tally of that log.
- **Classifier** (`classify.dfy`, `tables.dfy`). The per-instance arithmetic is written as pure functions:
  - in-subgraph degrees and `num_edges`;
  - the second-order degrees `ndeg`;
  - the `hash`;
  - the `gtable` / `ntable` lookups, including the hard-coded tie-break for the key (14, 6).

  The constant tables keep C's zero padding of short rows.
- **Aggregator** (`report.dfy`). One vector for each node id 1 .. V. Each vector is the node's degree followed by 72 entries `(unsigned)ncount[o][v] / overcount[ntype2gtype[o]]`.

`Crunch.Count` puts the stages together. It stops with the same error as the builder, or it returns exactly the vectors of the instances that `Census.Enumerate` lists. `Instances` proves that every such instance is well formed:
- three to five distinct nodes of the graph;
- the first three form a path;
- one graphlet type, and for each node an orbit of that type.

`Coverage` proves the converse. Every walk of three, four or five distinct nodes that follows the neighbour lists is counted. So is every side-branch instance: a claw or X11 off a path a-b-c, and an X10 or X14 off a P4 or flower a-b-c-d, whenever b has the extra neighbours the branch looks for. A path is counted at least twice (from both ends) and a triangle at least six times (in all orders); `overcount` divides by exactly 2 and 6.

Input is given as the header `v` (any integer), the edge count and a sequence of `(src, dst)` pairs instead of a `FILE *`. A header V = -1 gives a graph with no nodes and no vectors; V ≤ -2, with a non-negative edge count, makes the allocation of V + 1 lists fail (`NegativeNodeCount`). A pair past the end of the sequence reads as `(-1, -1)`, which is what an `fscanf` that fails leaves in `src` and `dst`.

The code accepts node id 0: it tests `src < 0 || dst < 0`, although its message says ids must be greater than zero. The model follows the code. Node 0 is part of the graph and of other nodes' graphlets, but it gets no output vector, because the output loop starts at `j = 1`.

## Model

| member | source | states |
|---|---|---|
| Tables.GTable | src/graphcrunch.cpp:50-51 | definition: `gtable[r][c]`, with C's zero padding past the end of a short row |
| Tables.NTable | src/graphcrunch.cpp:54-55 | definition: `ntable[g][k]`, with C's zero padding past the end of a short row |
| Tables.Overcount | src/graphcrunch.cpp:58-59 | definition: how often each of the 29 graphlet types is counted |
| Tables.NType2GType | src/graphcrunch.cpp:62-65 | definition: the graphlet type of each of the 72 orbits |
| Tables.OrbitTypesSorted | src/graphcrunch.cpp:62-65 | `ntype2gtype` has 72 entries in 0..28, in non-decreasing order |
| Tables.OvercountPositive | src/graphcrunch.cpp:58-59 | every one of the 29 `overcount` entries is positive, so the output division is defined |
| Tables.NTableConsistent | src/graphcrunch.cpp:54-55 | every entry of `ntable[g]` that names an orbit (not -1, not a zero pad) names an orbit of graphlet type g |
| Graphs.Accept | src/graphcrunch.cpp:172-200 | definition: one in-range pair is skipped when it is a self-loop or already listed, and otherwise put at the front of both endpoints' lists |
| Graphs.Ingest | src/graphcrunch.cpp:159-201 | definition: the reading loop over `E_undir` pairs, stopping at the first pair with an id ≥ V (assertion) or < 0 (abort) |
| Graphs.Load | src/graphcrunch.cpp:120-130 | the header: a negative edge count is the assertion failure, a header V ≤ -2 fails the allocation of V + 1 lists, and otherwise the pairs are read into V + 1 lists |
| Graphs.LoadHeader | src/graphcrunch.cpp:120-130 | the edge-count check comes first, then the node-count check; with no edges a header V ≥ -1 gives V + 1 empty lists, none for V = -1 |
| Graphs.EmptyGraph | src/graphcrunch.cpp:127-130 | `heads[i] = NULL` for all i: `n` empty lists, a valid simple graph |
| Graphs.AcceptValid | src/graphcrunch.cpp:172-200 | reading one in-range pair keeps the lists a simple undirected graph: entries are other nodes, symmetric, no repeats |
| Graphs.AcceptConn | src/graphcrunch.cpp:188-200 | a new edge adds exactly the two entries src→dst and dst→src to the connection relation |
| Graphs.ConnSymmetric | src/graphcrunch.cpp:139-151 | on the built graph `Connected` is reflexive (the forced diagonal) and symmetric |
| Graphs.ValidEntry | src/graphcrunch.cpp:172-200 | an entry j of list i is a node other than i, and list j contains i |
| Graphs.IngestOk | src/graphcrunch.cpp:159-170 | reading succeeds iff every pair read has both ids in 0..V |
| Graphs.IngestError | src/graphcrunch.cpp:164-170 | the error names the first bad pair; it is the range assertion iff an id is ≥ V, and otherwise the negative-id abort |
| Graphs.IngestStops | src/graphcrunch.cpp:164-170 | after an error, reading more pairs does not change the result (the program exits) |
| Graphs.IngestFresh | src/graphcrunch.cpp:172-186 | the pair is kept iff it is not a self-loop and `dst` is not yet in `src`'s list, which holds iff no earlier pair joins the same two nodes in either orientation |
| Graphs.IngestOrder | src/graphcrunch.cpp:188-198 | each list holds its node's partners from kept pairs in reverse input order (front insertion) |
| Graphs.PartnersMembers | src/graphcrunch.cpp:172-198 | x is a partner of i iff x ≠ i and some pair read joins i and x |
| Graphs.IngestValid | src/graphcrunch.cpp:159-201 | a successful read yields a simple undirected graph |
| Graphs.IngestDegreeSum | src/graphcrunch.cpp:188-198 | the sum of all list lengths is twice the number of kept pairs |
| Graphs.KeptAtMost | src/graphcrunch.cpp:159-201 | no more edges are kept than pairs are read |
| Graphs.CsrSlice | src/graphcrunch.cpp:203-221 | in the flattened layout, node i's slice lies between the running totals and is exactly list i |
| Graphs.FlatPrefix | src/graphcrunch.cpp:212-221 | the flattened first i lists are a prefix of the whole flattened array |
| BitRows.SetBit | src/graphcrunch.cpp:139-140 | or-ing in bit k sets bit k and leaves every other bit of the byte unchanged |
| BitRows.BitMatrix.constructor | src/graphcrunch.cpp:141-149 | `calloc(V / 8 + 1)` rows: no bit set |
| BitRows.BitMatrix.Connect | src/graphcrunch.cpp:139 | sets bit (i, j) and changes no other bit |
| BitRows.BitMatrix.Connected | src/graphcrunch.cpp:140 | definition: bit j % 8 of byte j / 8 of row i is set |
| BitRows.BitMatrix.Value | src/graphcrunch.cpp:140 | the `Connected` value is a byte, zero iff the bit is clear |
| Builder.Csr.Degree | src/graphcrunch.cpp:102 | `DEGREE(i)` is the length of node i's list |
| Builder.Csr.Slice | src/graphcrunch.cpp:103 | `edges_for[i] <= edges_for[i + 1]`, and `foreach_adj` over i visits exactly list i, in order |
| Builder.NewMatrix | src/graphcrunch.cpp:141-152 | the fresh matrix has exactly its diagonal set |
| Builder.AddEdge | src/graphcrunch.cpp:172-200 | the lists become `Accept` of the old lists, and the bit rows still agree with them |
| Builder.ReadEdges | src/graphcrunch.cpp:159-201 | the reading loop fails iff `Ingest` fails, with the same error; otherwise the lists are `Ingest`'s graph and the bits agree with it |
| Builder.Flatten | src/graphcrunch.cpp:203-221 | `edges_for[i]` is the total length of lists 0..i-1, and `edges` starts with all lists one after the other |
| Builder.Build | src/graphcrunch.cpp:120-221 | for any header V (negative ones included) the builder fails iff `Load` fails, with the same error; otherwise it returns V+1 nodes whose arrays and bits represent `Load`'s graph, a valid simple graph |
| Classify.Class3 | src/graphcrunch.cpp:258-315 | definition: the triple is a path when `deg3_a == 1`, else a triangle, with the orbits the code increments |
| Classify.Class4 | src/graphcrunch.cpp:324-422 | definition: the `num_edges` cases 6, 10, 12 and 8 (flower or C4), with no type for any other sum |
| Classify.Signature5 | src/graphcrunch.cpp:433-504 | definition: the five `deg5` degrees and the five `ndeg` sums of neighbours' degrees |
| Classify.Hash | src/graphcrunch.cpp:507 | definition: the sum of the five `ndeg % 4` |
| Classify.GTypeOf | src/graphcrunch.cpp:508-513 | definition: the `gtable` lookup, overridden for key (14, 6) |
| Classify.Classify5 | src/graphcrunch.cpp:508-523 | definition: the type, the range assertion, and the five `ntable` lookups |
| Classify.Class5 | src/graphcrunch.cpp:433-523 | definition: `Classify5` of the instance's `Connected` bits |
| Classify.Degrees3 | src/graphcrunch.cpp:258-268 | the three in-triple degrees sum to twice the number of edges |
| Classify.Class3Walk | src/graphcrunch.cpp:258-315 | on a walk a-b-c the triple is a path iff a and c are not joined and a triangle iff they are; the path's middle node gets P3_B and the ends P3_A, and a triangle gives C3_A to all |
| Classify.Degrees4 | src/graphcrunch.cpp:324-339 | `num_edges` is twice the number of edges among a, b, c, d |
| Classify.Class4Walk | src/graphcrunch.cpp:324-422 | on a walk a-b-c-d, `num_edges` is in {6, 8, 10, 12}; the type follows the chords (P4, C4, flower, diamond, K4); each node's orbit follows its degree (diamond nodes get DIAM_B iff degree 3); in a flower `deg4_b` and `deg4_c` are not both 3 |
| Classify.DegreeTotal | src/graphcrunch.cpp:433-508 | `deg_total` is twice the number of edges of the 5-node instance |
| Classify.SignatureBounds | src/graphcrunch.cpp:433-509 | on a walk, `deg_total` is in 8..20 (a row of `gtable`) and every `ndeg` is in 0..20 (a column of `ntable`) |
| Classify.ListedOrbit | src/graphcrunch.cpp:54-65 | a listed `ntable[g]` entry (not -1, not a zero pad; the 0 at `ntable[0][3]` is P3_A and counts as listed) is an orbit whose type is g |
| Classify.Class5Proper | src/graphcrunch.cpp:509-523 | when the lookups give no padding cell, each of the five nodes is counted in an orbit of the instance's type |
| Classify.Class5Walk | src/graphcrunch.cpp:425-523 | on every walk a-b-c-d-e the classifier succeeds with a type in 8..28 (the assertion never fails), and every node gets an orbit of that type |
| Classify.TieBreak | src/graphcrunch.cpp:512-513 | for key (14, 6) the type is 22 when `ndeg_a > 12 or ndeg_a == 5`, else 24 |
| Classify.TieBreakX23 | src/graphcrunch.cpp:512-513 | a walk shape with key (14, 6) that the tie-break classifies as type 22 |
| Classify.TieBreakX25 | src/graphcrunch.cpp:512-513 | a walk shape with key (14, 6) that the tie-break classifies as type 24 |
| Census.Pendants | src/graphcrunch.cpp:287-299 | definition: the side loop over b's neighbours counts every e with a zero `Connected` sum against a, c and d |
| Census.Claw | src/graphcrunch.cpp:282-306 | definition: for one d not joined to a or c, the X11 instances when `DEGREE(b) > 3`, then the claw |
| Census.Claws | src/graphcrunch.cpp:280-307 | definition: `Claw` over b's list in order |
| Census.Here3 | src/graphcrunch.cpp:258-315 | definition: the triple's instance, followed for a path with `DEGREE(b) > 2` by its claws |
| Census.Here4 | src/graphcrunch.cpp:324-422 | definition: the 4-node instance, followed by the X10 side loop for a P4 and the X14 side loop for a flower whose b has degree 3 |
| Census.Here5 | src/graphcrunch.cpp:433-523 | definition: the 5-node instance with `Class5`'s type and orbits |
| Census.Explore | src/graphcrunch.cpp:245-528 | definition: what the loops count below a walk: the instance at its length, then every extension by the last node's list |
| Census.Extend | src/graphcrunch.cpp:245-527 | definition: one `foreach_adj` loop over a list, in order |
| Census.Next | src/graphcrunch.cpp:248-255 | definition: the `continue` tests: a node already on the walk adds nothing |
| Census.Walks | src/graphcrunch.cpp:242 | definition: the outer loop over a = 0 .. V - 1 |
| Census.Enumerate | src/graphcrunch.cpp:242-528 | definition: everything the loop nest counts, in order |
| Census.GTallySnoc | src/graphcrunch.cpp:517 | counting one instance adds one to the tally of its type and nothing to the other types |
| Census.NTallySnoc | src/graphcrunch.cpp:519-523 | counting one instance adds, per orbit and node, exactly how often the instance counts that node in that orbit |
| Census.NTallyGrows | src/graphcrunch.cpp:242-528 | counters only ever grow: counting more instances never lowers an orbit tally |
| Counting.SideSigsProper | src/graphcrunch.cpp:292-300 | the claw, X11, X10 and X14 signatures give every node an orbit of the graphlet type they increment |
| Counting.Counter.constructor | src/graphcrunch.cpp:223-235 | zeroed `gcount` and `ncount`: nothing counted yet |
| Counting.Counter.Record | src/graphcrunch.cpp:517-523 | one instance is counted: the log grows by it, and every `gcount[t]` and `ncount[o][v]` stays equal to the log's tallies |
| Counting.Counter.Neighbour | src/graphcrunch.cpp:103 | the entry at `pe` in node x's slice is list x's entry at `pe - edges_for[x]`: a node other than x, connected to x |
| Counting.Counter.Probe | src/graphcrunch.cpp:140 | `Connected(i, j)` is zero iff i and j are not connected in the built graph |
| Counting.Counter.ReadPairs | src/graphcrunch.cpp:436-505 | the ten `Connected` tests of a 5-node instance read the graph's adjacency |
| Counting.Counter.AtFive | src/graphcrunch.cpp:433-523 | the instance a-b-c-d-e is counted as `Census.Here5` says |
| Counting.Counter.FromD | src/graphcrunch.cpp:425-524 | the e loop over d's neighbours counts exactly `Extend` of the walk a-b-c-d |
| Counting.Counter.Pendant | src/graphcrunch.cpp:349-361 | the side loop over b's neighbours counts exactly the e with a zero `Connected` sum against a, c, d |
| Counting.Counter.ClawAt | src/graphcrunch.cpp:282-305 | one d of the claw loop: X11 instances first when `DEGREE(b) > 3`, then the claw, when d joins neither a nor c |
| Counting.Counter.FindClaws | src/graphcrunch.cpp:280-306 | the claw loop counts exactly `Census.Claws` over b's neighbours |
| Counting.Counter.CountFour | src/graphcrunch.cpp:324-422 | the 4-node instance and its X10 or X14 side loop are counted as `Census.Here4` says |
| Counting.Counter.AtFour | src/graphcrunch.cpp:317-525 | one d of the d loop: the 4-node instance, then the whole e loop |
| Counting.Counter.FromC | src/graphcrunch.cpp:317-526 | the d loop over c's neighbours skips a, b, c and counts exactly `Extend` of the walk a-b-c |
| Counting.Counter.CountThree | src/graphcrunch.cpp:258-315 | the triple and, for a path with `DEGREE(b) > 2`, its claw loop are counted as `Census.Here3` says |
| Counting.Counter.AtThree | src/graphcrunch.cpp:251-526 | one c of the c loop: the triple, then the whole d loop |
| Counting.Counter.FromB | src/graphcrunch.cpp:251-527 | the c loop over b's neighbours skips a and b and counts exactly `Explore` of the walk a-b |
| Counting.Counter.FromA | src/graphcrunch.cpp:245-528 | the b loop over a's neighbours counts exactly `Explore` of the walk from a |
| Counting.Counter.CountAll | src/graphcrunch.cpp:242-528 | the whole loop nest counts exactly `Census.Enumerate` of the graph, so the counters are that sequence's tallies |
| Counting.Counter.Aggregate | src/graphcrunch.cpp:531-544 | the output loop builds exactly `Report.Vectors` of the counted instances |
| Report.Unsigned | src/graphcrunch.cpp:541 | `(unsigned)` keeps a count in 0 .. 2^32 - 1 that differs from it by a multiple of 2^32, and leaves a count already in range unchanged |
| Report.OrbitOvercount | src/graphcrunch.cpp:541 | `overcount[ntype2gtype[o]]` is positive for every orbit |
| Report.Scaled | src/graphcrunch.cpp:541 | the output entry is the truncated quotient: r · f ≤ (unsigned)count < (r + 1) · f |
| Report.Vector | src/graphcrunch.cpp:535-543 | definition: `DEGREE(v)` followed by the node's 72 scaled orbit counts |
| Report.Vectors | src/graphcrunch.cpp:531-546 | definition: the vectors of node ids 1 .. V |
| Report.VectorLayout | src/graphcrunch.cpp:535-543 | a vector has 73 entries: `DEGREE(v)`, then the 72 scaled orbit counts in orbit order |
| Report.VectorsLayout | src/graphcrunch.cpp:531-546 | one vector per node id 1 .. V, in order, and none for id 0 (nor any for a header V = -1) |
| Crunch.Count | src/graphcrunch.cpp:112-547 | `count` fails iff the builder fails, with the same error; otherwise it returns the vectors of exactly the instances `Census.Enumerate` lists |
| Instances.PendantsSound | src/graphcrunch.cpp:287-299 | every X11, X10 or X14 counted has five distinct nodes of the graph, starts with the path a-b-c, and has a well-formed signature |
| Instances.PendantsBranch | src/graphcrunch.cpp:349-361 | the fifth node of a side-branch instance is joined to b and to none of a, c, d |
| Instances.ClawsBranch | src/graphcrunch.cpp:280-306 | the last node of every claw or X11 is joined to b and to neither a nor c |
| Instances.ClawsSound | src/graphcrunch.cpp:280-306 | every claw and X11 counted is sound: distinct nodes of the graph on the path a-b-c, with a well-formed signature |
| Instances.Here3Sound | src/graphcrunch.cpp:258-315 | what a triple contributes is sound |
| Instances.Here4Sound | src/graphcrunch.cpp:324-422 | what a 4-node walk contributes is sound |
| Instances.Here5Sound | src/graphcrunch.cpp:425-523 | the 5-node instance of a walk is sound |
| Instances.ExploreSound | src/graphcrunch.cpp:245-528 | everything counted below a walk of distinct connected nodes is sound |
| Instances.NextSound | src/graphcrunch.cpp:317-322 | a neighbour of the last node that is not on the walk (the `continue` tests) extends it to a walk of distinct nodes |
| Instances.EnumerateSound | src/graphcrunch.cpp:242-528 | every instance the program counts has 3 to 5 distinct nodes of the graph, starts with a path, and is counted in one graphlet type with an orbit of that type for each node |
| Coverage.ExtendHas | src/graphcrunch.cpp:245-527 | a `foreach_adj` loop that reaches a node not on the walk counts everything that node starts |
| Coverage.WalksHas | src/graphcrunch.cpp:242 | the outer loop reaches every node below V |
| Coverage.ExploreReached | src/graphcrunch.cpp:242-528 | whatever is counted below a walk of distinct nodes along the lists is counted by the whole loop nest |
| Coverage.EnumerateComplete3 | src/graphcrunch.cpp:242-315 | every walk a-b-c of distinct nodes along the lists is counted, classified from its `Connected` bits |
| Coverage.EnumerateComplete4 | src/graphcrunch.cpp:317-422 | every walk a-b-c-d of distinct nodes along the lists gets a 4-node type and is counted |
| Coverage.EnumerateComplete5 | src/graphcrunch.cpp:425-523 | every walk a-b-c-d-e of distinct nodes along the lists gets a 5-node type and is counted |
| Coverage.PathBothWays | src/graphcrunch.cpp:270-277 | a path a-b-c is counted at least twice: as a-b-c and as c-b-a (`overcount[0] = 2`) |
| Coverage.TriangleSixWays | src/graphcrunch.cpp:309-315 | a triangle is counted at least six times: in all six orders (`overcount[1] = 6`) |
| Coverage.PendantsHas | src/graphcrunch.cpp:287-299 | the side loop over b's list takes every e in it joined to none of a, c, d |
| Coverage.ClawsHas | src/graphcrunch.cpp:280-307 | the claw loop over b's list counts everything that any d of the list contributes |
| Coverage.Here3Reached | src/graphcrunch.cpp:251-315 | everything the 3-node block counts for a walk a-b-c of distinct nodes is counted by the loop nest |
| Coverage.Here4Reached | src/graphcrunch.cpp:317-422 | everything the 4-node block counts for a walk a-b-c-d of distinct nodes is counted by the loop nest |
| Coverage.ClawComplete | src/graphcrunch.cpp:279-306 | every claw is found: on a path a-b-c, each neighbour d of b joined to neither a nor c is counted as the claw a-b-c-d |
| Coverage.X11Complete | src/graphcrunch.cpp:285-299 | every X11 is found: with such a d, each further neighbour e of b joined to none of a, c, d is counted as a-b-c-d-e |
| Coverage.X10Complete | src/graphcrunch.cpp:341-361 | every X10 is found: off an induced path a-b-c-d, each neighbour e of b joined to none of a, c, d is counted |
| Coverage.X14Complete | src/graphcrunch.cpp:379-404 | every X14 is found: off a walk a-b-c-d whose only chord is b-d, each neighbour e of b joined to none of a, c, d is counted |

## Left out

- `src/minaa.cpp` and `GraphCrunch::graphcrunch`: file opening and the command-line driver are not part of this model.
- `die`: it is never called by `count`.
- File parsing: the `fscanf` reads become the parameters `v`, `edgeCount` and `pairs`.
- Allocation failures: the `calloc` failure paths (`perror` and `exit`) are not modelled; allocation always succeeds.
- The `temp_data` linked lists and the reuse of the `links[i * 2]` slots are modelled as per-node sequences, with the same front-insertion order. Pointer aliasing between list cells is not captured.
- The moving `edge_last` pointer is modelled as an index into `edges`. `Builder.Build` allocates `edges` with `E * 2 + 1` entries, as the program does.
- Builder.Build: the sizes are unbounded integers. `E = E_undir * 2` (src/graphcrunch.cpp:122) and the `links` array of `E` cells overflow a C `int` once `E_undir` reaches 2^30, and `E * 2 + 1` (src/graphcrunch.cpp:208) once it reaches 2^29; the model computes them exactly, so it is silent about the undefined behaviour of such headers.
- `cnames` and `klcount` are unused by `count`, so they are not modelled.
- The lookup tables are taken as given. Only their bounds and internal consistency are proved. Proving that they classify every non-isomorphic 5-node graph correctly needs isomorphism reasoning.
- Counting.Counter.Record: counters are unbounded integers; the `int64` wrap-around at 2^63 is not modelled. A graph small enough to store can reach it (a star with 60000 leaves has more than 2^63 X11 instances at its centre), but each count is one increment, so getting there takes centuries of running time. A two's-complement wrap would not change the output either: 2^32 divides 2^64, so the `(unsigned)` cast at src/graphcrunch.cpp:541 keeps the same low 32 bits, and `Report.Unsigned` models that cast exactly.
- Coverage.PathBothWays, Coverage.TriangleSixWays: they prove that a path is counted at least in its two orientations and a triangle at least in its six orders; that each walk is counted exactly once, which makes these the exact multiplicities, is not proved.
- Report.Scaled: states the truncated quotient. It does not prove that the raw counts are exact multiples of the overcount factor; that depends on the tables being correct.
- `gcount` is kept and proved equal to the per-type tallies, but `count` never returns it, so it does not appear in the output.
- C `assert`s are modelled as aborts (`BuildError`), as in a build without `NDEBUG`. The 5-node type assertion is proved never to fail on any walk.
