/**
 * The per-instance classifier of the graphlet counter, lifted out of the
 * enumeration loops of src/graphcrunch.cpp into pure functions over the
 * adjacency bits of the 3, 4 or 5 nodes of one walk.
 *
 * A walk visits its nodes in the order a, b, c, d, e; `ab` stands for
 * "a and b are connected", and so on. The classifiers return the graphlet
 * type of the instance and the orbit each node of the walk is counted in.
 */
module Classify {
  import opened Tables

  datatype Option<T> = None | Some(value: T)

  /** One classified instance: its graphlet type and the orbit of each node, in walk order. */
  datatype Sig = Sig(gtype: int, orbits: seq<int>)

  /**
   * A well-formed classification of `size` nodes: the type is one of the 29
   * graphlet types and every node is given an orbit of that type.
   */
  ghost predicate Proper(s: Sig, size: nat) {
    && |s.orbits| == size
    && 0 <= s.gtype < GraphletTypes
    && forall i :: 0 <= i < |s.orbits| ==>
         0 <= s.orbits[i] < OrbitCount && NType2GType(s.orbits[i]) == s.gtype
  }

  /** The value of `!!Connected(x, y)`: 1 for connected nodes, 0 otherwise. */
  function Bit(x: bool): nat {
    if x then 1 else 0
  }

  // ---------------------------------------------------------------- 3 nodes

  /** In-instance degrees `deg3_a`, `deg3_b`, `deg3_c`. */
  function Degrees3(ab: bool, ac: bool, bc: bool): (d: seq<nat>)
    ensures |d| == 3
    ensures d[0] + d[1] + d[2] == 2 * (Bit(ab) + Bit(ac) + Bit(bc))
  {
    [Bit(ab) + Bit(ac), Bit(ab) + Bit(bc), Bit(ac) + Bit(bc)]
  }

  /** The 3-node classifier: a path when `deg3_a == 1`, otherwise a triangle. */
  function Class3(ab: bool, ac: bool, bc: bool): Sig {
    if Degrees3(ab, ac, bc)[0] == 1 then Sig(0, [P3_A, P3_B, P3_A])
    else Sig(1, [C3_A, C3_A, C3_A])
  }

  /**
   * On a walk a-b-c the triple is a path exactly when a and c are not
   * connected, and a triangle exactly when they are; in the path the node of
   * degree 2 (the middle) is the only one counted in P3_B.
   */
  lemma Class3Walk(ab: bool, ac: bool, bc: bool)
    requires ab && bc
    ensures Proper(Class3(ab, ac, bc), 3)
    ensures Class3(ab, ac, bc).gtype == 0 <==> !ac
    ensures Class3(ab, ac, bc).gtype == 1 <==> ac
    ensures forall i :: 0 <= i < 3 ==>
      Class3(ab, ac, bc).orbits[i] ==
        (if ac then C3_A else if Degrees3(ab, ac, bc)[i] == 2 then P3_B else P3_A)
  {
  }

  // ---------------------------------------------------------------- 4 nodes

  /** In-instance degrees `deg4_a` .. `deg4_d`. */
  function Degrees4(ab: bool, ac: bool, ad: bool, bc: bool, bd: bool, cd: bool): (d: seq<nat>)
    ensures |d| == 4
    ensures d[0] + d[1] + d[2] + d[3] == 2 * (Bit(ab) + Bit(ac) + Bit(ad) + Bit(bc) + Bit(bd) + Bit(cd))
  {
    var d3 := Degrees3(ab, ac, bc);
    [d3[0] + Bit(ad), d3[1] + Bit(bd), d3[2] + Bit(cd), Bit(ad) + Bit(bd) + Bit(cd)]
  }

  /** The orbit a diamond gives to a node of in-instance degree `deg`. */
  function DiamondOrbit(deg: nat): nat {
    if deg == 3 then DIAM_B else DIAM_A
  }

  /**
   * The 4-node classifier, driven by `num_edges` (the sum of the four
   * degrees); no instance is recorded for any other value of `num_edges`.
   */
  function Class4(ab: bool, ac: bool, ad: bool, bc: bool, bd: bool, cd: bool): Option<Sig> {
    var d := Degrees4(ab, ac, ad, bc, bd, cd);
    var numEdges := d[0] + d[1] + d[2] + d[3];
    if numEdges == 6 then Some(Sig(2, [P4_A, P4_B, P4_B, P4_A]))
    else if numEdges == 10 then
      Some(Sig(6, [DiamondOrbit(d[0]), DiamondOrbit(d[1]), DiamondOrbit(d[2]), DiamondOrbit(d[3])]))
    else if numEdges == 12 then Some(Sig(7, [K4_A, K4_A, K4_A, K4_A]))
    else if numEdges == 8 then
      if d[1] == 3 || d[2] == 3 then
        if d[1] == 3 then Some(Sig(5, [FLOW_A, FLOW_C, FLOW_B, FLOW_B]))
        else Some(Sig(5, [FLOW_B, FLOW_B, FLOW_C, FLOW_A]))
      else Some(Sig(4, [C4_A, C4_A, C4_A, C4_A]))
    else None
  }

  /**
   * The orbit that a node of in-instance degree `deg` has in a 4-node
   * graphlet of type `g`: ends and middles of P4, the centre, petals and
   * stem of the flower, the two kinds of diamond node.
   */
  function Orbit4(g: int, deg: nat): nat {
    if g == 2 then (if deg == 1 then P4_A else P4_B)
    else if g == 4 then C4_A
    else if g == 5 then (if deg == 3 then FLOW_C else if deg == 1 then FLOW_A else FLOW_B)
    else if g == 6 then DiamondOrbit(deg)
    else K4_A
  }

  /**
   * On a walk a-b-c-d, `num_edges` is one of 6, 8, 10, 12; the chords ac,
   * ad, bd decide the graphlet: none gives P4, ad alone C4, ac or bd alone
   * the flower, two of them the diamond and all three K4. Every node is
   * counted in the orbit its degree gives it in that graphlet, and in a
   * flower `deg4_b` and `deg4_c` are never both 3.
   */
  lemma Class4Walk(ab: bool, ac: bool, ad: bool, bc: bool, bd: bool, cd: bool)
    requires ab && bc && cd
    ensures var d := Degrees4(ab, ac, ad, bc, bd, cd);
      d[0] + d[1] + d[2] + d[3] in {6, 8, 10, 12}
    ensures Class4(ab, ac, ad, bc, bd, cd).Some?
    ensures var s := Class4(ab, ac, ad, bc, bd, cd).value;
      var chords := Bit(ac) + Bit(ad) + Bit(bd);
      && Proper(s, 4)
      && s.gtype == (if chords == 0 then 2 else if chords == 1 && ad then 4
                     else if chords == 1 then 5 else if chords == 2 then 6 else 7)
    ensures var s := Class4(ab, ac, ad, bc, bd, cd).value;
      var d := Degrees4(ab, ac, ad, bc, bd, cd);
      forall i :: 0 <= i < 4 ==> s.orbits[i] == Orbit4(s.gtype, d[i])
    ensures var d := Degrees4(ab, ac, ad, bc, bd, cd);
      Class4(ab, ac, ad, bc, bd, cd).value.gtype == 5 ==> !(d[1] == 3 && d[2] == 3)
  {
  }

  // ---------------------------------------------------------------- 5 nodes

  /** The adjacency bits of the ten node pairs of a 5-node instance. */
  datatype Pairs = Pairs(ab: bool, ac: bool, ad: bool, ae: bool, bc: bool,
                         bd: bool, be: bool, cd: bool, ce: bool, de: bool)
  {
    /** The instance was reached by the walk a-b-c-d-e. */
    predicate IsWalk() {
      ab && bc && cd && de
    }

    /** Number of edges of the instance. */
    function EdgeCount(): nat {
      Bit(ab) + Bit(ac) + Bit(ad) + Bit(ae) + Bit(bc) + Bit(bd) + Bit(be) + Bit(cd) + Bit(ce) + Bit(de)
    }
  }

  /**
   * `deg_total` and the second-order degrees `ndeg_a` .. `ndeg_e` (a node's
   * degree plus those of its neighbours inside the instance).
   */
  datatype Signature = Signature(total: int, na: int, nb: int, nc: int, nd: int, ne: int)

  /** What a neighbour of degree `d` adds to `ndeg`: `d` when connected, nothing otherwise. */
  function Weighted(connected: bool, d: nat): (w: nat)
    ensures w <= d
  {
    if connected then d else 0
  }

  /** `deg5_a` .. `deg5_e` summed into `deg_total`, and the five `ndeg` values. */
  function Signature5(p: Pairs): Signature {
    var da := Bit(p.ab) + Bit(p.ac) + Bit(p.ad) + Bit(p.ae);
    var db := Bit(p.ab) + Bit(p.bc) + Bit(p.bd) + Bit(p.be);
    var dc := Bit(p.ac) + Bit(p.bc) + Bit(p.cd) + Bit(p.ce);
    var dd := Bit(p.ad) + Bit(p.bd) + Bit(p.cd) + Bit(p.de);
    var de := Bit(p.ae) + Bit(p.be) + Bit(p.ce) + Bit(p.de);
    Signature(
      da + db + dc + dd + de,
      da + Weighted(p.ab, db) + Weighted(p.ac, dc) + Weighted(p.ad, dd) + Weighted(p.ae, de),
      db + Weighted(p.ab, da) + Weighted(p.bc, dc) + Weighted(p.bd, dd) + Weighted(p.be, de),
      dc + Weighted(p.ac, da) + Weighted(p.bc, db) + Weighted(p.cd, dd) + Weighted(p.ce, de),
      dd + Weighted(p.ad, da) + Weighted(p.bd, db) + Weighted(p.cd, dc) + Weighted(p.de, de),
      de + Weighted(p.ae, da) + Weighted(p.be, db) + Weighted(p.ce, dc) + Weighted(p.de, dd))
  }

  /** The signature fits the tables: the row of `gtable` and every column of `ntable` exist. */
  predicate InRange(s: Signature) {
    && 8 <= s.total <= 20
    && 0 <= s.na <= 20 && 0 <= s.nb <= 20 && 0 <= s.nc <= 20 && 0 <= s.nd <= 20 && 0 <= s.ne <= 20
  }

  /** Handshake: `deg_total`, the sum of the five degrees, is twice the number of edges. */
  lemma DegreeTotal(p: Pairs)
    ensures Signature5(p).total == 2 * p.EdgeCount()
  {
  }

  /**
   * Signature arithmetic: on a walk `deg_total` lies in 8..20, so
   * `deg_total / 2 - 4` is a row of `gtable`, and every `ndeg` is at most
   * 20, a column of `ntable`. Proved shape by shape, below.
   */
  lemma SignatureBounds(p: Pairs)
    requires p.IsWalk()
    ensures InRange(Signature5(p))
  {
    WalkShapes(p);
  }

  /** The `hash`: the sum of every node's `ndeg % 4`, not the sum taken modulo 4. */
  function Hash(s: Signature): int {
    s.na % 4 + s.nb % 4 + s.nc % 4 + s.nd % 4 + s.ne % 4
  }

  /**
   * The `gtable` lookup for the key (`deg_total`, `hash`), with the
   * hard-coded decision between types 22 and 24 for the key (14, 6).
   */
  function GTypeOf(total: int, hash: int, na: int): int
    requires 8 <= total <= 20 && 0 <= hash <= 15
  {
    if total == 14 && hash == 6 then (if na > 12 || na == 5 then 22 else 24)
    else GTable(total / 2 - 4, hash / 2)
  }

  function GType5(s: Signature): int
    requires InRange(s)
  {
    GTypeOf(s.total, Hash(s), s.na)
  }

  /**
   * Type and orbits from a signature: `None` when the type is outside 8..28
   * (where the program stops on its assertion), otherwise the type and the
   * `ntable` orbit of each node.
   */
  function Classify5(s: Signature): Option<Sig>
    requires InRange(s)
  {
    var g := GType5(s);
    if 7 < g < 29 then
      Some(Sig(g, [NTable(g, s.na), NTable(g, s.nb), NTable(g, s.nc), NTable(g, s.nd), NTable(g, s.ne)]))
    else None
  }

  /**
   * The 5-node classifier applied to the walk a-b-c-d-e: `None` when the
   * signature falls outside the tables (the program would read past
   * `gtable` or `ntable`) or the type is outside 8..28.
   */
  function Class5(p: Pairs): Option<Sig> {
    var s := Signature5(p);
    if InRange(s) then Classify5(s) else None
  }

  /**
   * A cell of `ntable` that names an orbit names an orbit of the row's own
   * graphlet type. Every cell holding 0 is padding except `ntable[0][3]`,
   * which lists P3_A.
   */
  lemma ListedOrbit(g: nat, k: nat)
    requires g < GraphletTypes && k < 21
    requires NTable(g, k) != -1 && (NTable(g, k) != 0 || (g == 0 && k == 3))
    ensures 0 <= NTable(g, k) < OrbitCount && NType2GType(NTable(g, k)) == g
  {
    NTableConsistent();
    assert RowConsistent(g);
    assert k < |NRow(g)| && NRow(g)[k] == NTable(g, k);
  }

  /** Every node of a 5-node instance got a cell of `ntable` holding neither the padding 0 nor -1. */
  predicate NoPadding(s: Sig) {
    |s.orbits| == 5 && forall i :: 0 <= i < 5 ==> s.orbits[i] != 0 && s.orbits[i] != -1
  }

  /**
   * When every node of a classified walk lands on a listed cell of `ntable`,
   * the classification is proper: all five orbits belong to its type.
   */
  lemma ClassifyProper(s: Signature)
    requires InRange(s) && Classify5(s).Some? && NoPadding(Classify5(s).value)
    ensures Proper(Classify5(s).value, 5)
  {
    var g := GType5(s);
    var o := Classify5(s).value.orbits;
    assert o == [NTable(g, s.na), NTable(g, s.nb), NTable(g, s.nc), NTable(g, s.nd), NTable(g, s.ne)];
    assert o[0] != 0 && o[0] != -1 && o[1] != 0 && o[1] != -1 && o[2] != 0 && o[2] != -1;
    assert o[3] != 0 && o[3] != -1 && o[4] != 0 && o[4] != -1;
    ListedOrbit(g, s.na);
    ListedOrbit(g, s.nb);
    ListedOrbit(g, s.nc);
    ListedOrbit(g, s.nd);
    ListedOrbit(g, s.ne);
  }

  /** The same for the walk a-b-c-d-e. */
  lemma Class5Proper(p: Pairs)
    requires Class5(p).Some? && NoPadding(Class5(p).value)
    ensures Proper(Class5(p).value, 5)
  {
    var s := Signature5(p);
    assert InRange(s) && Class5(p) == Classify5(s);
    ClassifyProper(s);
  }

  // ------------------------------------------------ the 64 shapes of a walk
  //
  // A walk a-b-c-d-e has the edges ab, bc, cd, de; each of the six other
  // pairs (the chords ac, ad, ae, bd, be, ce) may or may not be connected.
  // For every one of the 64 shapes, named after the chords present, the
  // lemmas below compute the signature, the hash, the `gtable` entry and the
  // `ntable` orbits.

  lemma Key_8_10(na: int)
    ensures GTypeOf(8, 10, na) == 8
  {
    assert 8 / 2 - 4 == 0 && 10 / 2 == 5;
    assert GTable(0, 5) == 8;
  }

  lemma Key_10_2(na: int)
    ensures GTypeOf(10, 2, na) == 11
  {
    assert 10 / 2 - 4 == 1 && 2 / 2 == 1;
    assert GTable(1, 1) == 11;
  }

  lemma Key_10_8(na: int)
    ensures GTypeOf(10, 8, na) == 15
  {
    assert 10 / 2 - 4 == 1 && 8 / 2 == 4;
    assert GTable(1, 4) == 15;
  }

  lemma Key_10_10(na: int)
    ensures GTypeOf(10, 10, na) == 14
  {
    assert 10 / 2 - 4 == 1 && 10 / 2 == 5;
    assert GTable(1, 5) == 14;
  }

  lemma Key_10_12(na: int)
    ensures GTypeOf(10, 12, na) == 12
  {
    assert 10 / 2 - 4 == 1 && 12 / 2 == 6;
    assert GTable(1, 6) == 12;
  }

  lemma Key_12_0(na: int)
    ensures GTypeOf(12, 0, na) == 17
  {
    assert 12 / 2 - 4 == 2 && 0 / 2 == 0;
    assert GTable(2, 0) == 17;
  }

  lemma Key_12_2(na: int)
    ensures GTypeOf(12, 2, na) == 19
  {
    assert 12 / 2 - 4 == 2 && 2 / 2 == 1;
    assert GTable(2, 1) == 19;
  }

  lemma Key_12_6(na: int)
    ensures GTypeOf(12, 6, na) == 16
  {
    assert 12 / 2 - 4 == 2 && 6 / 2 == 3;
    assert GTable(2, 3) == 16;
  }

  lemma Key_12_8(na: int)
    ensures GTypeOf(12, 8, na) == 18
  {
    assert 12 / 2 - 4 == 2 && 8 / 2 == 4;
    assert GTable(2, 4) == 18;
  }

  lemma Key_12_10(na: int)
    ensures GTypeOf(12, 10, na) == 20
  {
    assert 12 / 2 - 4 == 2 && 10 / 2 == 5;
    assert GTable(2, 5) == 20;
  }

  lemma Key_14_4(na: int)
    ensures GTypeOf(14, 4, na) == 23
  {
    assert 14 / 2 - 4 == 3 && 4 / 2 == 2;
    assert GTable(3, 2) == 23;
  }

  lemma Key_14_10(na: int)
    ensures GTypeOf(14, 10, na) == 21
  {
    assert 14 / 2 - 4 == 3 && 10 / 2 == 5;
    assert GTable(3, 5) == 21;
  }

  lemma Key_16_4(na: int)
    ensures GTypeOf(16, 4, na) == 26
  {
    assert 16 / 2 - 4 == 4 && 4 / 2 == 2;
    assert GTable(4, 2) == 26;
  }

  lemma Key_16_6(na: int)
    ensures GTypeOf(16, 6, na) == 25
  {
    assert 16 / 2 - 4 == 4 && 6 / 2 == 3;
    assert GTable(4, 3) == 25;
  }

  lemma Key_18_12(na: int)
    ensures GTypeOf(18, 12, na) == 27
  {
    assert 18 / 2 - 4 == 5 && 12 / 2 == 6;
    assert GTable(5, 6) == 27;
  }

  lemma Key_20_0(na: int)
    ensures GTypeOf(20, 0, na) == 28
  {
    assert 20 / 2 - 4 == 6 && 0 / 2 == 0;
    assert GTable(6, 0) == 28;
  }

  /** The key (14, 6): X23 (type 22) when `ndeg_a` is 5 or above 12, X25 (type 24) otherwise. */
  lemma Key_14_6(na: int)
    ensures GTypeOf(14, 6, na) == (if na > 12 || na == 5 then 22 else 24)
  {
  }

  // chords: none (the path P5)
  lemma Sig_none(p: Pairs)
    requires p.IsWalk() && !p.ac && !p.ad && !p.ae && !p.bd && !p.be && !p.ce
    ensures Signature5(p) == Signature(8, 3, 5, 6, 5, 3)
  {
  }

  lemma Hash_none()
    ensures Hash(Signature(8, 3, 5, 6, 5, 3)) == 10
  {
  }

  lemma GType_none()
    ensures GType5(Signature(8, 3, 5, 6, 5, 3)) == 8
  {
    Hash_none();
    Key_8_10(3);
  }

  lemma Lookup_none()
    ensures Classify5(Signature(8, 3, 5, 6, 5, 3)) == Some(Sig(8, [P5_A, P5_B, P5_C, P5_B, P5_A]))
    ensures NoPadding(Sig(8, [P5_A, P5_B, P5_C, P5_B, P5_A]))
  {
    GType_none();
  }

  lemma Shape_none(p: Pairs)
    requires p.IsWalk() && !p.ac && !p.ad && !p.ae && !p.bd && !p.be && !p.ce
    ensures Class5(p) == Some(Sig(8, [P5_A, P5_B, P5_C, P5_B, P5_A]))
  {
    Sig_none(p);
    Lookup_none();
  }

  // chords: ce
  lemma Sig_ce(p: Pairs)
    requires p.IsWalk() && !p.ac && !p.ad && !p.ae && !p.bd && !p.be && p.ce
    ensures Signature5(p) == Signature(10, 3, 6, 9, 7, 7)
  {
  }

  lemma Hash_ce()
    ensures Hash(Signature(10, 3, 6, 9, 7, 7)) == 12
  {
  }

  lemma GType_ce()
    ensures GType5(Signature(10, 3, 6, 9, 7, 7)) == 12
  {
    Hash_ce();
    Key_10_12(3);
  }

  lemma Lookup_ce()
    ensures Classify5(Signature(10, 3, 6, 9, 7, 7)) == Some(Sig(12, [X13_A, X13_B, X13_D, X13_C, X13_C]))
    ensures NoPadding(Sig(12, [X13_A, X13_B, X13_D, X13_C, X13_C]))
  {
    GType_ce();
  }

  lemma Shape_ce(p: Pairs)
    requires p.IsWalk() && !p.ac && !p.ad && !p.ae && !p.bd && !p.be && p.ce
    ensures Class5(p) == Some(Sig(12, [X13_A, X13_B, X13_D, X13_C, X13_C]))
  {
    Sig_ce(p);
    Lookup_ce();
  }

  // chords: be
  lemma Sig_be(p: Pairs)
    requires p.IsWalk() && !p.ac && !p.ad && !p.ae && !p.bd && p.be && !p.ce
    ensures Signature5(p) == Signature(10, 4, 8, 7, 6, 7)
  {
  }

  lemma Hash_be()
    ensures Hash(Signature(10, 4, 8, 7, 6, 7)) == 8
  {
  }

  lemma GType_be()
    ensures GType5(Signature(10, 4, 8, 7, 6, 7)) == 15
  {
    Hash_be();
    Key_10_8(4);
  }

  lemma Lookup_be()
    ensures Classify5(Signature(10, 4, 8, 7, 6, 7)) == Some(Sig(15, [X16_A, X16_D, X16_C, X16_B, X16_C]))
    ensures NoPadding(Sig(15, [X16_A, X16_D, X16_C, X16_B, X16_C]))
  {
    GType_be();
  }

  lemma Shape_be(p: Pairs)
    requires p.IsWalk() && !p.ac && !p.ad && !p.ae && !p.bd && p.be && !p.ce
    ensures Class5(p) == Some(Sig(15, [X16_A, X16_D, X16_C, X16_B, X16_C]))
  {
    Sig_be(p);
    Lookup_be();
  }

  // chords: be, ce
  lemma Sig_be_ce(p: Pairs)
    requires p.IsWalk() && !p.ac && !p.ad && !p.ae && !p.bd && p.be && p.ce
    ensures Signature5(p) == Signature(12, 4, 10, 11, 8, 11)
  {
  }

  lemma Hash_be_ce()
    ensures Hash(Signature(12, 4, 10, 11, 8, 11)) == 8
  {
  }

  lemma GType_be_ce()
    ensures GType5(Signature(12, 4, 10, 11, 8, 11)) == 18
  {
    Hash_be_ce();
    Key_12_8(4);
  }

  lemma Lookup_be_ce()
    ensures Classify5(Signature(12, 4, 10, 11, 8, 11)) == Some(Sig(18, [X19_A, X19_C, X19_D, X19_B, X19_D]))
    ensures NoPadding(Sig(18, [X19_A, X19_C, X19_D, X19_B, X19_D]))
  {
    GType_be_ce();
  }

  lemma Shape_be_ce(p: Pairs)
    requires p.IsWalk() && !p.ac && !p.ad && !p.ae && !p.bd && p.be && p.ce
    ensures Class5(p) == Some(Sig(18, [X19_A, X19_C, X19_D, X19_B, X19_D]))
  {
    Sig_be_ce(p);
    Lookup_be_ce();
  }

  // chords: bd
  lemma Sig_bd(p: Pairs)
    requires p.IsWalk() && !p.ac && !p.ad && !p.ae && p.bd && !p.be && !p.ce
    ensures Signature5(p) == Signature(10, 4, 9, 8, 9, 4)
  {
  }

  lemma Hash_bd()
    ensures Hash(Signature(10, 4, 9, 8, 9, 4)) == 2
  {
  }

  lemma GType_bd()
    ensures GType5(Signature(10, 4, 9, 8, 9, 4)) == 11
  {
    Hash_bd();
    Key_10_2(4);
  }

  lemma Lookup_bd()
    ensures Classify5(Signature(10, 4, 9, 8, 9, 4)) == Some(Sig(11, [X12_A, X12_C, X12_B, X12_C, X12_A]))
    ensures NoPadding(Sig(11, [X12_A, X12_C, X12_B, X12_C, X12_A]))
  {
    GType_bd();
  }

  lemma Shape_bd(p: Pairs)
    requires p.IsWalk() && !p.ac && !p.ad && !p.ae && p.bd && !p.be && !p.ce
    ensures Class5(p) == Some(Sig(11, [X12_A, X12_C, X12_B, X12_C, X12_A]))
  {
    Sig_bd(p);
    Lookup_bd();
  }

  // chords: bd, ce
  lemma Sig_bd_ce(p: Pairs)
    requires p.IsWalk() && !p.ac && !p.ad && !p.ae && p.bd && !p.be && p.ce
    ensures Signature5(p) == Signature(12, 4, 10, 11, 11, 8)
  {
  }

  lemma Hash_bd_ce()
    ensures Hash(Signature(12, 4, 10, 11, 11, 8)) == 8
  {
  }

  lemma GType_bd_ce()
    ensures GType5(Signature(12, 4, 10, 11, 11, 8)) == 18
  {
    Hash_bd_ce();
    Key_12_8(4);
  }

  lemma Lookup_bd_ce()
    ensures Classify5(Signature(12, 4, 10, 11, 11, 8)) == Some(Sig(18, [X19_A, X19_C, X19_D, X19_D, X19_B]))
    ensures NoPadding(Sig(18, [X19_A, X19_C, X19_D, X19_D, X19_B]))
  {
    GType_bd_ce();
  }

  lemma Shape_bd_ce(p: Pairs)
    requires p.IsWalk() && !p.ac && !p.ad && !p.ae && p.bd && !p.be && p.ce
    ensures Class5(p) == Some(Sig(18, [X19_A, X19_C, X19_D, X19_D, X19_B]))
  {
    Sig_bd_ce(p);
    Lookup_bd_ce();
  }

  // chords: bd, be
  lemma Sig_bd_be(p: Pairs)
    requires p.IsWalk() && !p.ac && !p.ad && !p.ae && p.bd && p.be && !p.ce
    ensures Signature5(p) == Signature(12, 5, 12, 9, 11, 9)
  {
  }

  lemma Hash_bd_be()
    ensures Hash(Signature(12, 5, 12, 9, 11, 9)) == 6
  {
  }

  lemma GType_bd_be()
    ensures GType5(Signature(12, 5, 12, 9, 11, 9)) == 16
  {
    Hash_bd_be();
    Key_12_6(5);
  }

  lemma Lookup_bd_be()
    ensures Classify5(Signature(12, 5, 12, 9, 11, 9)) == Some(Sig(16, [X17_A, X17_D, X17_B, X17_C, X17_B]))
    ensures NoPadding(Sig(16, [X17_A, X17_D, X17_B, X17_C, X17_B]))
  {
    GType_bd_be();
  }

  lemma Shape_bd_be(p: Pairs)
    requires p.IsWalk() && !p.ac && !p.ad && !p.ae && p.bd && p.be && !p.ce
    ensures Class5(p) == Some(Sig(16, [X17_A, X17_D, X17_B, X17_C, X17_B]))
  {
    Sig_bd_be(p);
    Lookup_bd_be();
  }

  // chords: bd, be, ce
  lemma Sig_bd_be_ce(p: Pairs)
    requires p.IsWalk() && !p.ac && !p.ad && !p.ae && p.bd && p.be && p.ce
    ensures Signature5(p) == Signature(14, 5, 14, 13, 13, 13)
  {
  }

  lemma Hash_bd_be_ce()
    ensures Hash(Signature(14, 5, 14, 13, 13, 13)) == 6
  {
  }

  lemma GType_bd_be_ce()
    ensures GType5(Signature(14, 5, 14, 13, 13, 13)) == 22
  {
    Hash_bd_be_ce();
    Key_14_6(5);
  }

  lemma Lookup_bd_be_ce()
    ensures Classify5(Signature(14, 5, 14, 13, 13, 13)) == Some(Sig(22, [X23_A, X23_C, X23_B, X23_B, X23_B]))
    ensures NoPadding(Sig(22, [X23_A, X23_C, X23_B, X23_B, X23_B]))
  {
    GType_bd_be_ce();
  }

  lemma Shape_bd_be_ce(p: Pairs)
    requires p.IsWalk() && !p.ac && !p.ad && !p.ae && p.bd && p.be && p.ce
    ensures Class5(p) == Some(Sig(22, [X23_A, X23_C, X23_B, X23_B, X23_B]))
  {
    Sig_bd_be_ce(p);
    Lookup_bd_be_ce();
  }

  // chords: ae
  lemma Sig_ae(p: Pairs)
    requires p.IsWalk() && !p.ac && !p.ad && p.ae && !p.bd && !p.be && !p.ce
    ensures Signature5(p) == Signature(10, 6, 6, 6, 6, 6)
  {
  }

  lemma Hash_ae()
    ensures Hash(Signature(10, 6, 6, 6, 6, 6)) == 10
  {
  }

  lemma GType_ae()
    ensures GType5(Signature(10, 6, 6, 6, 6, 6)) == 14
  {
    Hash_ae();
    Key_10_10(6);
  }

  lemma Lookup_ae()
    ensures Classify5(Signature(10, 6, 6, 6, 6, 6)) == Some(Sig(14, [C5_A, C5_A, C5_A, C5_A, C5_A]))
    ensures NoPadding(Sig(14, [C5_A, C5_A, C5_A, C5_A, C5_A]))
  {
    GType_ae();
  }

  lemma Shape_ae(p: Pairs)
    requires p.IsWalk() && !p.ac && !p.ad && p.ae && !p.bd && !p.be && !p.ce
    ensures Class5(p) == Some(Sig(14, [C5_A, C5_A, C5_A, C5_A, C5_A]))
  {
    Sig_ae(p);
    Lookup_ae();
  }

  // chords: ae, ce
  lemma Sig_ae_ce(p: Pairs)
    requires p.IsWalk() && !p.ac && !p.ad && p.ae && !p.bd && !p.be && p.ce
    ensures Signature5(p) == Signature(12, 7, 7, 10, 8, 10)
  {
  }

  lemma Hash_ae_ce()
    ensures Hash(Signature(12, 7, 7, 10, 8, 10)) == 10
  {
  }

  lemma GType_ae_ce()
    ensures GType5(Signature(12, 7, 7, 10, 8, 10)) == 20
  {
    Hash_ae_ce();
    Key_12_10(7);
  }

  lemma Lookup_ae_ce()
    ensures Classify5(Signature(12, 7, 7, 10, 8, 10)) == Some(Sig(20, [X21_A, X21_A, X21_C, X21_B, X21_C]))
    ensures NoPadding(Sig(20, [X21_A, X21_A, X21_C, X21_B, X21_C]))
  {
    GType_ae_ce();
  }

  lemma Shape_ae_ce(p: Pairs)
    requires p.IsWalk() && !p.ac && !p.ad && p.ae && !p.bd && !p.be && p.ce
    ensures Class5(p) == Some(Sig(20, [X21_A, X21_A, X21_C, X21_B, X21_C]))
  {
    Sig_ae_ce(p);
    Lookup_ae_ce();
  }

  // chords: ae, be
  lemma Sig_ae_be(p: Pairs)
    requires p.IsWalk() && !p.ac && !p.ad && p.ae && !p.bd && p.be && !p.ce
    ensures Signature5(p) == Signature(12, 8, 10, 7, 7, 10)
  {
  }

  lemma Hash_ae_be()
    ensures Hash(Signature(12, 8, 10, 7, 7, 10)) == 10
  {
  }

  lemma GType_ae_be()
    ensures GType5(Signature(12, 8, 10, 7, 7, 10)) == 20
  {
    Hash_ae_be();
    Key_12_10(8);
  }

  lemma Lookup_ae_be()
    ensures Classify5(Signature(12, 8, 10, 7, 7, 10)) == Some(Sig(20, [X21_B, X21_C, X21_A, X21_A, X21_C]))
    ensures NoPadding(Sig(20, [X21_B, X21_C, X21_A, X21_A, X21_C]))
  {
    GType_ae_be();
  }

  lemma Shape_ae_be(p: Pairs)
    requires p.IsWalk() && !p.ac && !p.ad && p.ae && !p.bd && p.be && !p.ce
    ensures Class5(p) == Some(Sig(20, [X21_B, X21_C, X21_A, X21_A, X21_C]))
  {
    Sig_ae_be(p);
    Lookup_ae_be();
  }

  // chords: ae, be, ce
  lemma Sig_ae_be_ce(p: Pairs)
    requires p.IsWalk() && !p.ac && !p.ad && p.ae && !p.bd && p.be && p.ce
    ensures Signature5(p) == Signature(14, 9, 12, 12, 9, 14)
  {
  }

  lemma Hash_ae_be_ce()
    ensures Hash(Signature(14, 9, 12, 12, 9, 14)) == 4
  {
  }

  lemma GType_ae_be_ce()
    ensures GType5(Signature(14, 9, 12, 12, 9, 14)) == 23
  {
    Hash_ae_be_ce();
    Key_14_4(9);
  }

  lemma Lookup_ae_be_ce()
    ensures Classify5(Signature(14, 9, 12, 12, 9, 14)) == Some(Sig(23, [X24_A, X24_B, X24_B, X24_A, X24_C]))
    ensures NoPadding(Sig(23, [X24_A, X24_B, X24_B, X24_A, X24_C]))
  {
    GType_ae_be_ce();
  }

  lemma Shape_ae_be_ce(p: Pairs)
    requires p.IsWalk() && !p.ac && !p.ad && p.ae && !p.bd && p.be && p.ce
    ensures Class5(p) == Some(Sig(23, [X24_A, X24_B, X24_B, X24_A, X24_C]))
  {
    Sig_ae_be_ce(p);
    Lookup_ae_be_ce();
  }

  // chords: ae, bd
  lemma Sig_ae_bd(p: Pairs)
    requires p.IsWalk() && !p.ac && !p.ad && p.ae && p.bd && !p.be && !p.ce
    ensures Signature5(p) == Signature(12, 7, 10, 8, 10, 7)
  {
  }

  lemma Hash_ae_bd()
    ensures Hash(Signature(12, 7, 10, 8, 10, 7)) == 10
  {
  }

  lemma GType_ae_bd()
    ensures GType5(Signature(12, 7, 10, 8, 10, 7)) == 20
  {
    Hash_ae_bd();
    Key_12_10(7);
  }

  lemma Lookup_ae_bd()
    ensures Classify5(Signature(12, 7, 10, 8, 10, 7)) == Some(Sig(20, [X21_A, X21_C, X21_B, X21_C, X21_A]))
    ensures NoPadding(Sig(20, [X21_A, X21_C, X21_B, X21_C, X21_A]))
  {
    GType_ae_bd();
  }

  lemma Shape_ae_bd(p: Pairs)
    requires p.IsWalk() && !p.ac && !p.ad && p.ae && p.bd && !p.be && !p.ce
    ensures Class5(p) == Some(Sig(20, [X21_A, X21_C, X21_B, X21_C, X21_A]))
  {
    Sig_ae_bd(p);
    Lookup_ae_bd();
  }

  // chords: ae, bd, ce
  lemma Sig_ae_bd_ce(p: Pairs)
    requires p.IsWalk() && !p.ac && !p.ad && p.ae && p.bd && !p.be && p.ce
    ensures Signature5(p) == Signature(14, 8, 11, 12, 12, 11)
  {
  }

  lemma Hash_ae_bd_ce()
    ensures Hash(Signature(14, 8, 11, 12, 12, 11)) == 6
  {
  }

  lemma GType_ae_bd_ce()
    ensures GType5(Signature(14, 8, 11, 12, 12, 11)) == 24
  {
    Hash_ae_bd_ce();
    Key_14_6(8);
  }

  lemma Lookup_ae_bd_ce()
    ensures Classify5(Signature(14, 8, 11, 12, 12, 11)) == Some(Sig(24, [X25_A, X25_B, X25_C, X25_C, X25_B]))
    ensures NoPadding(Sig(24, [X25_A, X25_B, X25_C, X25_C, X25_B]))
  {
    GType_ae_bd_ce();
  }

  lemma Shape_ae_bd_ce(p: Pairs)
    requires p.IsWalk() && !p.ac && !p.ad && p.ae && p.bd && !p.be && p.ce
    ensures Class5(p) == Some(Sig(24, [X25_A, X25_B, X25_C, X25_C, X25_B]))
  {
    Sig_ae_bd_ce(p);
    Lookup_ae_bd_ce();
  }

  // chords: ae, bd, be
  lemma Sig_ae_bd_be(p: Pairs)
    requires p.IsWalk() && !p.ac && !p.ad && p.ae && p.bd && p.be && !p.ce
    ensures Signature5(p) == Signature(14, 9, 14, 9, 12, 12)
  {
  }

  lemma Hash_ae_bd_be()
    ensures Hash(Signature(14, 9, 14, 9, 12, 12)) == 4
  {
  }

  lemma GType_ae_bd_be()
    ensures GType5(Signature(14, 9, 14, 9, 12, 12)) == 23
  {
    Hash_ae_bd_be();
    Key_14_4(9);
  }

  lemma Lookup_ae_bd_be()
    ensures Classify5(Signature(14, 9, 14, 9, 12, 12)) == Some(Sig(23, [X24_A, X24_C, X24_A, X24_B, X24_B]))
    ensures NoPadding(Sig(23, [X24_A, X24_C, X24_A, X24_B, X24_B]))
  {
    GType_ae_bd_be();
  }

  lemma Shape_ae_bd_be(p: Pairs)
    requires p.IsWalk() && !p.ac && !p.ad && p.ae && p.bd && p.be && !p.ce
    ensures Class5(p) == Some(Sig(23, [X24_A, X24_C, X24_A, X24_B, X24_B]))
  {
    Sig_ae_bd_be(p);
    Lookup_ae_bd_be();
  }

  // chords: ae, bd, be, ce
  lemma Sig_ae_bd_be_ce(p: Pairs)
    requires p.IsWalk() && !p.ac && !p.ad && p.ae && p.bd && p.be && p.ce
    ensures Signature5(p) == Signature(16, 10, 16, 14, 14, 16)
  {
  }

  lemma Hash_ae_bd_be_ce()
    ensures Hash(Signature(16, 10, 16, 14, 14, 16)) == 6
  {
  }

  lemma GType_ae_bd_be_ce()
    ensures GType5(Signature(16, 10, 16, 14, 14, 16)) == 25
  {
    Hash_ae_bd_be_ce();
    Key_16_6(10);
  }

  lemma Lookup_ae_bd_be_ce()
    ensures Classify5(Signature(16, 10, 16, 14, 14, 16)) == Some(Sig(25, [X26_A, X26_C, X26_B, X26_B, X26_C]))
    ensures NoPadding(Sig(25, [X26_A, X26_C, X26_B, X26_B, X26_C]))
  {
    GType_ae_bd_be_ce();
  }

  lemma Shape_ae_bd_be_ce(p: Pairs)
    requires p.IsWalk() && !p.ac && !p.ad && p.ae && p.bd && p.be && p.ce
    ensures Class5(p) == Some(Sig(25, [X26_A, X26_C, X26_B, X26_B, X26_C]))
  {
    Sig_ae_bd_be_ce(p);
    Lookup_ae_bd_be_ce();
  }

  // chords: ad
  lemma Sig_ad(p: Pairs)
    requires p.IsWalk() && !p.ac && p.ad && !p.ae && !p.bd && !p.be && !p.ce
    ensures Signature5(p) == Signature(10, 7, 6, 7, 8, 4)
  {
  }

  lemma Hash_ad()
    ensures Hash(Signature(10, 7, 6, 7, 8, 4)) == 8
  {
  }

  lemma GType_ad()
    ensures GType5(Signature(10, 7, 6, 7, 8, 4)) == 15
  {
    Hash_ad();
    Key_10_8(7);
  }

  lemma Lookup_ad()
    ensures Classify5(Signature(10, 7, 6, 7, 8, 4)) == Some(Sig(15, [X16_C, X16_B, X16_C, X16_D, X16_A]))
    ensures NoPadding(Sig(15, [X16_C, X16_B, X16_C, X16_D, X16_A]))
  {
    GType_ad();
  }

  lemma Shape_ad(p: Pairs)
    requires p.IsWalk() && !p.ac && p.ad && !p.ae && !p.bd && !p.be && !p.ce
    ensures Class5(p) == Some(Sig(15, [X16_C, X16_B, X16_C, X16_D, X16_A]))
  {
    Sig_ad(p);
    Lookup_ad();
  }

  // chords: ad, ce
  lemma Sig_ad_ce(p: Pairs)
    requires p.IsWalk() && !p.ac && p.ad && !p.ae && !p.bd && !p.be && p.ce
    ensures Signature5(p) == Signature(12, 7, 7, 10, 10, 8)
  {
  }

  lemma Hash_ad_ce()
    ensures Hash(Signature(12, 7, 7, 10, 10, 8)) == 10
  {
  }

  lemma GType_ad_ce()
    ensures GType5(Signature(12, 7, 7, 10, 10, 8)) == 20
  {
    Hash_ad_ce();
    Key_12_10(7);
  }

  lemma Lookup_ad_ce()
    ensures Classify5(Signature(12, 7, 7, 10, 10, 8)) == Some(Sig(20, [X21_A, X21_A, X21_C, X21_C, X21_B]))
    ensures NoPadding(Sig(20, [X21_A, X21_A, X21_C, X21_C, X21_B]))
  {
    GType_ad_ce();
  }

  lemma Shape_ad_ce(p: Pairs)
    requires p.IsWalk() && !p.ac && p.ad && !p.ae && !p.bd && !p.be && p.ce
    ensures Class5(p) == Some(Sig(20, [X21_A, X21_A, X21_C, X21_C, X21_B]))
  {
    Sig_ad_ce(p);
    Lookup_ad_ce();
  }

  // chords: ad, be
  lemma Sig_ad_be(p: Pairs)
    requires p.IsWalk() && !p.ac && p.ad && !p.ae && !p.bd && p.be && !p.ce
    ensures Signature5(p) == Signature(12, 8, 9, 8, 9, 8)
  {
  }

  lemma Hash_ad_be()
    ensures Hash(Signature(12, 8, 9, 8, 9, 8)) == 2
  {
  }

  lemma GType_ad_be()
    ensures GType5(Signature(12, 8, 9, 8, 9, 8)) == 19
  {
    Hash_ad_be();
    Key_12_2(8);
  }

  lemma Lookup_ad_be()
    ensures Classify5(Signature(12, 8, 9, 8, 9, 8)) == Some(Sig(19, [X20_A, X20_B, X20_A, X20_B, X20_A]))
    ensures NoPadding(Sig(19, [X20_A, X20_B, X20_A, X20_B, X20_A]))
  {
    GType_ad_be();
  }

  lemma Shape_ad_be(p: Pairs)
    requires p.IsWalk() && !p.ac && p.ad && !p.ae && !p.bd && p.be && !p.ce
    ensures Class5(p) == Some(Sig(19, [X20_A, X20_B, X20_A, X20_B, X20_A]))
  {
    Sig_ad_be(p);
    Lookup_ad_be();
  }

  // chords: ad, be, ce
  lemma Sig_ad_be_ce(p: Pairs)
    requires p.IsWalk() && !p.ac && p.ad && !p.ae && !p.bd && p.be && p.ce
    ensures Signature5(p) == Signature(14, 8, 11, 12, 11, 12)
  {
  }

  lemma Hash_ad_be_ce()
    ensures Hash(Signature(14, 8, 11, 12, 11, 12)) == 6
  {
  }

  lemma GType_ad_be_ce()
    ensures GType5(Signature(14, 8, 11, 12, 11, 12)) == 24
  {
    Hash_ad_be_ce();
    Key_14_6(8);
  }

  lemma Lookup_ad_be_ce()
    ensures Classify5(Signature(14, 8, 11, 12, 11, 12)) == Some(Sig(24, [X25_A, X25_B, X25_C, X25_B, X25_C]))
    ensures NoPadding(Sig(24, [X25_A, X25_B, X25_C, X25_B, X25_C]))
  {
    GType_ad_be_ce();
  }

  lemma Shape_ad_be_ce(p: Pairs)
    requires p.IsWalk() && !p.ac && p.ad && !p.ae && !p.bd && p.be && p.ce
    ensures Class5(p) == Some(Sig(24, [X25_A, X25_B, X25_C, X25_B, X25_C]))
  {
    Sig_ad_be_ce(p);
    Lookup_ad_be_ce();
  }

  // chords: ad, bd
  lemma Sig_ad_bd(p: Pairs)
    requires p.IsWalk() && !p.ac && p.ad && !p.ae && p.bd && !p.be && !p.ce
    ensures Signature5(p) == Signature(12, 9, 11, 9, 12, 5)
  {
  }

  lemma Hash_ad_bd()
    ensures Hash(Signature(12, 9, 11, 9, 12, 5)) == 6
  {
  }

  lemma GType_ad_bd()
    ensures GType5(Signature(12, 9, 11, 9, 12, 5)) == 16
  {
    Hash_ad_bd();
    Key_12_6(9);
  }

  lemma Lookup_ad_bd()
    ensures Classify5(Signature(12, 9, 11, 9, 12, 5)) == Some(Sig(16, [X17_B, X17_C, X17_B, X17_D, X17_A]))
    ensures NoPadding(Sig(16, [X17_B, X17_C, X17_B, X17_D, X17_A]))
  {
    GType_ad_bd();
  }

  lemma Shape_ad_bd(p: Pairs)
    requires p.IsWalk() && !p.ac && p.ad && !p.ae && p.bd && !p.be && !p.ce
    ensures Class5(p) == Some(Sig(16, [X17_B, X17_C, X17_B, X17_D, X17_A]))
  {
    Sig_ad_bd(p);
    Lookup_ad_bd();
  }

  // chords: ad, bd, ce
  lemma Sig_ad_bd_ce(p: Pairs)
    requires p.IsWalk() && !p.ac && p.ad && !p.ae && p.bd && !p.be && p.ce
    ensures Signature5(p) == Signature(14, 9, 12, 12, 14, 9)
  {
  }

  lemma Hash_ad_bd_ce()
    ensures Hash(Signature(14, 9, 12, 12, 14, 9)) == 4
  {
  }

  lemma GType_ad_bd_ce()
    ensures GType5(Signature(14, 9, 12, 12, 14, 9)) == 23
  {
    Hash_ad_bd_ce();
    Key_14_4(9);
  }

  lemma Lookup_ad_bd_ce()
    ensures Classify5(Signature(14, 9, 12, 12, 14, 9)) == Some(Sig(23, [X24_A, X24_B, X24_B, X24_C, X24_A]))
    ensures NoPadding(Sig(23, [X24_A, X24_B, X24_B, X24_C, X24_A]))
  {
    GType_ad_bd_ce();
  }

  lemma Shape_ad_bd_ce(p: Pairs)
    requires p.IsWalk() && !p.ac && p.ad && !p.ae && p.bd && !p.be && p.ce
    ensures Class5(p) == Some(Sig(23, [X24_A, X24_B, X24_B, X24_C, X24_A]))
  {
    Sig_ad_bd_ce(p);
    Lookup_ad_bd_ce();
  }

  // chords: ad, bd, be
  lemma Sig_ad_bd_be(p: Pairs)
    requires p.IsWalk() && !p.ac && p.ad && !p.ae && p.bd && p.be && !p.ce
    ensures Signature5(p) == Signature(14, 10, 14, 10, 14, 10)
  {
  }

  lemma Hash_ad_bd_be()
    ensures Hash(Signature(14, 10, 14, 10, 14, 10)) == 10
  {
  }

  lemma GType_ad_bd_be()
    ensures GType5(Signature(14, 10, 14, 10, 14, 10)) == 21
  {
    Hash_ad_bd_be();
    Key_14_10(10);
  }

  lemma Lookup_ad_bd_be()
    ensures Classify5(Signature(14, 10, 14, 10, 14, 10)) == Some(Sig(21, [X22_A, X22_B, X22_A, X22_B, X22_A]))
    ensures NoPadding(Sig(21, [X22_A, X22_B, X22_A, X22_B, X22_A]))
  {
    GType_ad_bd_be();
  }

  lemma Shape_ad_bd_be(p: Pairs)
    requires p.IsWalk() && !p.ac && p.ad && !p.ae && p.bd && p.be && !p.ce
    ensures Class5(p) == Some(Sig(21, [X22_A, X22_B, X22_A, X22_B, X22_A]))
  {
    Sig_ad_bd_be(p);
    Lookup_ad_bd_be();
  }

  // chords: ad, bd, be, ce
  lemma Sig_ad_bd_be_ce(p: Pairs)
    requires p.IsWalk() && !p.ac && p.ad && !p.ae && p.bd && p.be && p.ce
    ensures Signature5(p) == Signature(16, 10, 16, 14, 16, 14)
  {
  }

  lemma Hash_ad_bd_be_ce()
    ensures Hash(Signature(16, 10, 16, 14, 16, 14)) == 6
  {
  }

  lemma GType_ad_bd_be_ce()
    ensures GType5(Signature(16, 10, 16, 14, 16, 14)) == 25
  {
    Hash_ad_bd_be_ce();
    Key_16_6(10);
  }

  lemma Lookup_ad_bd_be_ce()
    ensures Classify5(Signature(16, 10, 16, 14, 16, 14)) == Some(Sig(25, [X26_A, X26_C, X26_B, X26_C, X26_B]))
    ensures NoPadding(Sig(25, [X26_A, X26_C, X26_B, X26_C, X26_B]))
  {
    GType_ad_bd_be_ce();
  }

  lemma Shape_ad_bd_be_ce(p: Pairs)
    requires p.IsWalk() && !p.ac && p.ad && !p.ae && p.bd && p.be && p.ce
    ensures Class5(p) == Some(Sig(25, [X26_A, X26_C, X26_B, X26_C, X26_B]))
  {
    Sig_ad_bd_be_ce(p);
    Lookup_ad_bd_be_ce();
  }

  // chords: ad, ae
  lemma Sig_ad_ae(p: Pairs)
    requires p.IsWalk() && !p.ac && p.ad && p.ae && !p.bd && !p.be && !p.ce
    ensures Signature5(p) == Signature(12, 10, 7, 7, 10, 8)
  {
  }

  lemma Hash_ad_ae()
    ensures Hash(Signature(12, 10, 7, 7, 10, 8)) == 10
  {
  }

  lemma GType_ad_ae()
    ensures GType5(Signature(12, 10, 7, 7, 10, 8)) == 20
  {
    Hash_ad_ae();
    Key_12_10(10);
  }

  lemma Lookup_ad_ae()
    ensures Classify5(Signature(12, 10, 7, 7, 10, 8)) == Some(Sig(20, [X21_C, X21_A, X21_A, X21_C, X21_B]))
    ensures NoPadding(Sig(20, [X21_C, X21_A, X21_A, X21_C, X21_B]))
  {
    GType_ad_ae();
  }

  lemma Shape_ad_ae(p: Pairs)
    requires p.IsWalk() && !p.ac && p.ad && p.ae && !p.bd && !p.be && !p.ce
    ensures Class5(p) == Some(Sig(20, [X21_C, X21_A, X21_A, X21_C, X21_B]))
  {
    Sig_ad_ae(p);
    Lookup_ad_ae();
  }

  // chords: ad, ae, ce
  lemma Sig_ad_ae_ce(p: Pairs)
    requires p.IsWalk() && !p.ac && p.ad && p.ae && !p.bd && !p.be && p.ce
    ensures Signature5(p) == Signature(14, 11, 8, 11, 12, 12)
  {
  }

  lemma Hash_ad_ae_ce()
    ensures Hash(Signature(14, 11, 8, 11, 12, 12)) == 6
  {
  }

  lemma GType_ad_ae_ce()
    ensures GType5(Signature(14, 11, 8, 11, 12, 12)) == 24
  {
    Hash_ad_ae_ce();
    Key_14_6(11);
  }

  lemma Lookup_ad_ae_ce()
    ensures Classify5(Signature(14, 11, 8, 11, 12, 12)) == Some(Sig(24, [X25_B, X25_A, X25_B, X25_C, X25_C]))
    ensures NoPadding(Sig(24, [X25_B, X25_A, X25_B, X25_C, X25_C]))
  {
    GType_ad_ae_ce();
  }

  lemma Shape_ad_ae_ce(p: Pairs)
    requires p.IsWalk() && !p.ac && p.ad && p.ae && !p.bd && !p.be && p.ce
    ensures Class5(p) == Some(Sig(24, [X25_B, X25_A, X25_B, X25_C, X25_C]))
  {
    Sig_ad_ae_ce(p);
    Lookup_ad_ae_ce();
  }

  // chords: ad, ae, be
  lemma Sig_ad_ae_be(p: Pairs)
    requires p.IsWalk() && !p.ac && p.ad && p.ae && !p.bd && p.be && !p.ce
    ensures Signature5(p) == Signature(14, 12, 11, 8, 11, 12)
  {
  }

  lemma Hash_ad_ae_be()
    ensures Hash(Signature(14, 12, 11, 8, 11, 12)) == 6
  {
  }

  lemma GType_ad_ae_be()
    ensures GType5(Signature(14, 12, 11, 8, 11, 12)) == 24
  {
    Hash_ad_ae_be();
    Key_14_6(12);
  }

  lemma Lookup_ad_ae_be()
    ensures Classify5(Signature(14, 12, 11, 8, 11, 12)) == Some(Sig(24, [X25_C, X25_B, X25_A, X25_B, X25_C]))
    ensures NoPadding(Sig(24, [X25_C, X25_B, X25_A, X25_B, X25_C]))
  {
    GType_ad_ae_be();
  }

  lemma Shape_ad_ae_be(p: Pairs)
    requires p.IsWalk() && !p.ac && p.ad && p.ae && !p.bd && p.be && !p.ce
    ensures Class5(p) == Some(Sig(24, [X25_C, X25_B, X25_A, X25_B, X25_C]))
  {
    Sig_ad_ae_be(p);
    Lookup_ad_ae_be();
  }

  // chords: ad, ae, be, ce
  lemma Sig_ad_ae_be_ce(p: Pairs)
    requires p.IsWalk() && !p.ac && p.ad && p.ae && !p.bd && p.be && p.ce
    ensures Signature5(p) == Signature(16, 13, 13, 13, 13, 16)
  {
  }

  lemma Hash_ad_ae_be_ce()
    ensures Hash(Signature(16, 13, 13, 13, 13, 16)) == 4
  {
  }

  lemma GType_ad_ae_be_ce()
    ensures GType5(Signature(16, 13, 13, 13, 13, 16)) == 26
  {
    Hash_ad_ae_be_ce();
    Key_16_4(13);
  }

  lemma Lookup_ad_ae_be_ce()
    ensures Classify5(Signature(16, 13, 13, 13, 13, 16)) == Some(Sig(26, [X27_A, X27_A, X27_A, X27_A, X27_B]))
    ensures NoPadding(Sig(26, [X27_A, X27_A, X27_A, X27_A, X27_B]))
  {
    GType_ad_ae_be_ce();
  }

  lemma Shape_ad_ae_be_ce(p: Pairs)
    requires p.IsWalk() && !p.ac && p.ad && p.ae && !p.bd && p.be && p.ce
    ensures Class5(p) == Some(Sig(26, [X27_A, X27_A, X27_A, X27_A, X27_B]))
  {
    Sig_ad_ae_be_ce(p);
    Lookup_ad_ae_be_ce();
  }

  // chords: ad, ae, bd
  lemma Sig_ad_ae_bd(p: Pairs)
    requires p.IsWalk() && !p.ac && p.ad && p.ae && p.bd && !p.be && !p.ce
    ensures Signature5(p) == Signature(14, 12, 12, 9, 14, 9)
  {
  }

  lemma Hash_ad_ae_bd()
    ensures Hash(Signature(14, 12, 12, 9, 14, 9)) == 4
  {
  }

  lemma GType_ad_ae_bd()
    ensures GType5(Signature(14, 12, 12, 9, 14, 9)) == 23
  {
    Hash_ad_ae_bd();
    Key_14_4(12);
  }

  lemma Lookup_ad_ae_bd()
    ensures Classify5(Signature(14, 12, 12, 9, 14, 9)) == Some(Sig(23, [X24_B, X24_B, X24_A, X24_C, X24_A]))
    ensures NoPadding(Sig(23, [X24_B, X24_B, X24_A, X24_C, X24_A]))
  {
    GType_ad_ae_bd();
  }

  lemma Shape_ad_ae_bd(p: Pairs)
    requires p.IsWalk() && !p.ac && p.ad && p.ae && p.bd && !p.be && !p.ce
    ensures Class5(p) == Some(Sig(23, [X24_B, X24_B, X24_A, X24_C, X24_A]))
  {
    Sig_ad_ae_bd(p);
    Lookup_ad_ae_bd();
  }

  // chords: ad, ae, bd, ce
  lemma Sig_ad_ae_bd_ce(p: Pairs)
    requires p.IsWalk() && !p.ac && p.ad && p.ae && p.bd && !p.be && p.ce
    ensures Signature5(p) == Signature(16, 13, 13, 13, 16, 13)
  {
  }

  lemma Hash_ad_ae_bd_ce()
    ensures Hash(Signature(16, 13, 13, 13, 16, 13)) == 4
  {
  }

  lemma GType_ad_ae_bd_ce()
    ensures GType5(Signature(16, 13, 13, 13, 16, 13)) == 26
  {
    Hash_ad_ae_bd_ce();
    Key_16_4(13);
  }

  lemma Lookup_ad_ae_bd_ce()
    ensures Classify5(Signature(16, 13, 13, 13, 16, 13)) == Some(Sig(26, [X27_A, X27_A, X27_A, X27_B, X27_A]))
    ensures NoPadding(Sig(26, [X27_A, X27_A, X27_A, X27_B, X27_A]))
  {
    GType_ad_ae_bd_ce();
  }

  lemma Shape_ad_ae_bd_ce(p: Pairs)
    requires p.IsWalk() && !p.ac && p.ad && p.ae && p.bd && !p.be && p.ce
    ensures Class5(p) == Some(Sig(26, [X27_A, X27_A, X27_A, X27_B, X27_A]))
  {
    Sig_ad_ae_bd_ce(p);
    Lookup_ad_ae_bd_ce();
  }

  // chords: ad, ae, bd, be
  lemma Sig_ad_ae_bd_be(p: Pairs)
    requires p.IsWalk() && !p.ac && p.ad && p.ae && p.bd && p.be && !p.ce
    ensures Signature5(p) == Signature(16, 14, 16, 10, 16, 14)
  {
  }

  lemma Hash_ad_ae_bd_be()
    ensures Hash(Signature(16, 14, 16, 10, 16, 14)) == 6
  {
  }

  lemma GType_ad_ae_bd_be()
    ensures GType5(Signature(16, 14, 16, 10, 16, 14)) == 25
  {
    Hash_ad_ae_bd_be();
    Key_16_6(14);
  }

  lemma Lookup_ad_ae_bd_be()
    ensures Classify5(Signature(16, 14, 16, 10, 16, 14)) == Some(Sig(25, [X26_B, X26_C, X26_A, X26_C, X26_B]))
    ensures NoPadding(Sig(25, [X26_B, X26_C, X26_A, X26_C, X26_B]))
  {
    GType_ad_ae_bd_be();
  }

  lemma Shape_ad_ae_bd_be(p: Pairs)
    requires p.IsWalk() && !p.ac && p.ad && p.ae && p.bd && p.be && !p.ce
    ensures Class5(p) == Some(Sig(25, [X26_B, X26_C, X26_A, X26_C, X26_B]))
  {
    Sig_ad_ae_bd_be(p);
    Lookup_ad_ae_bd_be();
  }

  // chords: ad, ae, bd, be, ce
  lemma Sig_ad_ae_bd_be_ce(p: Pairs)
    requires p.IsWalk() && !p.ac && p.ad && p.ae && p.bd && p.be && p.ce
    ensures Signature5(p) == Signature(18, 15, 18, 15, 18, 18)
  {
  }

  lemma Hash_ad_ae_bd_be_ce()
    ensures Hash(Signature(18, 15, 18, 15, 18, 18)) == 12
  {
  }

  lemma GType_ad_ae_bd_be_ce()
    ensures GType5(Signature(18, 15, 18, 15, 18, 18)) == 27
  {
    Hash_ad_ae_bd_be_ce();
    Key_18_12(15);
  }

  lemma Lookup_ad_ae_bd_be_ce()
    ensures Classify5(Signature(18, 15, 18, 15, 18, 18)) == Some(Sig(27, [X28_A, X28_B, X28_A, X28_B, X28_B]))
    ensures NoPadding(Sig(27, [X28_A, X28_B, X28_A, X28_B, X28_B]))
  {
    GType_ad_ae_bd_be_ce();
  }

  lemma Shape_ad_ae_bd_be_ce(p: Pairs)
    requires p.IsWalk() && !p.ac && p.ad && p.ae && p.bd && p.be && p.ce
    ensures Class5(p) == Some(Sig(27, [X28_A, X28_B, X28_A, X28_B, X28_B]))
  {
    Sig_ad_ae_bd_be_ce(p);
    Lookup_ad_ae_bd_be_ce();
  }

  // chords: ac
  lemma Sig_ac(p: Pairs)
    requires p.IsWalk() && p.ac && !p.ad && !p.ae && !p.bd && !p.be && !p.ce
    ensures Signature5(p) == Signature(10, 7, 7, 9, 6, 3)
  {
  }

  lemma Hash_ac()
    ensures Hash(Signature(10, 7, 7, 9, 6, 3)) == 12
  {
  }

  lemma GType_ac()
    ensures GType5(Signature(10, 7, 7, 9, 6, 3)) == 12
  {
    Hash_ac();
    Key_10_12(7);
  }

  lemma Lookup_ac()
    ensures Classify5(Signature(10, 7, 7, 9, 6, 3)) == Some(Sig(12, [X13_C, X13_C, X13_D, X13_B, X13_A]))
    ensures NoPadding(Sig(12, [X13_C, X13_C, X13_D, X13_B, X13_A]))
  {
    GType_ac();
  }

  lemma Shape_ac(p: Pairs)
    requires p.IsWalk() && p.ac && !p.ad && !p.ae && !p.bd && !p.be && !p.ce
    ensures Class5(p) == Some(Sig(12, [X13_C, X13_C, X13_D, X13_B, X13_A]))
  {
    Sig_ac(p);
    Lookup_ac();
  }

  // chords: ac, ce
  lemma Sig_ac_ce(p: Pairs)
    requires p.IsWalk() && p.ac && !p.ad && !p.ae && !p.bd && !p.be && p.ce
    ensures Signature5(p) == Signature(12, 8, 8, 12, 8, 8)
  {
  }

  lemma Hash_ac_ce()
    ensures Hash(Signature(12, 8, 8, 12, 8, 8)) == 0
  {
  }

  lemma GType_ac_ce()
    ensures GType5(Signature(12, 8, 8, 12, 8, 8)) == 17
  {
    Hash_ac_ce();
    Key_12_0(8);
  }

  lemma Lookup_ac_ce()
    ensures Classify5(Signature(12, 8, 8, 12, 8, 8)) == Some(Sig(17, [X18_A, X18_A, X18_B, X18_A, X18_A]))
    ensures NoPadding(Sig(17, [X18_A, X18_A, X18_B, X18_A, X18_A]))
  {
    GType_ac_ce();
  }

  lemma Shape_ac_ce(p: Pairs)
    requires p.IsWalk() && p.ac && !p.ad && !p.ae && !p.bd && !p.be && p.ce
    ensures Class5(p) == Some(Sig(17, [X18_A, X18_A, X18_B, X18_A, X18_A]))
  {
    Sig_ac_ce(p);
    Lookup_ac_ce();
  }

  // chords: ac, be
  lemma Sig_ac_be(p: Pairs)
    requires p.IsWalk() && p.ac && !p.ad && !p.ae && !p.bd && p.be && !p.ce
    ensures Signature5(p) == Signature(12, 8, 10, 10, 7, 7)
  {
  }

  lemma Hash_ac_be()
    ensures Hash(Signature(12, 8, 10, 10, 7, 7)) == 10
  {
  }

  lemma GType_ac_be()
    ensures GType5(Signature(12, 8, 10, 10, 7, 7)) == 20
  {
    Hash_ac_be();
    Key_12_10(8);
  }

  lemma Lookup_ac_be()
    ensures Classify5(Signature(12, 8, 10, 10, 7, 7)) == Some(Sig(20, [X21_B, X21_C, X21_C, X21_A, X21_A]))
    ensures NoPadding(Sig(20, [X21_B, X21_C, X21_C, X21_A, X21_A]))
  {
    GType_ac_be();
  }

  lemma Shape_ac_be(p: Pairs)
    requires p.IsWalk() && p.ac && !p.ad && !p.ae && !p.bd && p.be && !p.ce
    ensures Class5(p) == Some(Sig(20, [X21_B, X21_C, X21_C, X21_A, X21_A]))
  {
    Sig_ac_be(p);
    Lookup_ac_be();
  }

  // chords: ac, be, ce
  lemma Sig_ac_be_ce(p: Pairs)
    requires p.IsWalk() && p.ac && !p.ad && !p.ae && !p.bd && p.be && p.ce
    ensures Signature5(p) == Signature(14, 9, 12, 14, 9, 12)
  {
  }

  lemma Hash_ac_be_ce()
    ensures Hash(Signature(14, 9, 12, 14, 9, 12)) == 4
  {
  }

  lemma GType_ac_be_ce()
    ensures GType5(Signature(14, 9, 12, 14, 9, 12)) == 23
  {
    Hash_ac_be_ce();
    Key_14_4(9);
  }

  lemma Lookup_ac_be_ce()
    ensures Classify5(Signature(14, 9, 12, 14, 9, 12)) == Some(Sig(23, [X24_A, X24_B, X24_C, X24_A, X24_B]))
    ensures NoPadding(Sig(23, [X24_A, X24_B, X24_C, X24_A, X24_B]))
  {
    GType_ac_be_ce();
  }

  lemma Shape_ac_be_ce(p: Pairs)
    requires p.IsWalk() && p.ac && !p.ad && !p.ae && !p.bd && p.be && p.ce
    ensures Class5(p) == Some(Sig(23, [X24_A, X24_B, X24_C, X24_A, X24_B]))
  {
    Sig_ac_be_ce(p);
    Lookup_ac_be_ce();
  }

  // chords: ac, bd
  lemma Sig_ac_bd(p: Pairs)
    requires p.IsWalk() && p.ac && !p.ad && !p.ae && p.bd && !p.be && !p.ce
    ensures Signature5(p) == Signature(12, 8, 11, 11, 10, 4)
  {
  }

  lemma Hash_ac_bd()
    ensures Hash(Signature(12, 8, 11, 11, 10, 4)) == 8
  {
  }

  lemma GType_ac_bd()
    ensures GType5(Signature(12, 8, 11, 11, 10, 4)) == 18
  {
    Hash_ac_bd();
    Key_12_8(8);
  }

  lemma Lookup_ac_bd()
    ensures Classify5(Signature(12, 8, 11, 11, 10, 4)) == Some(Sig(18, [X19_B, X19_D, X19_D, X19_C, X19_A]))
    ensures NoPadding(Sig(18, [X19_B, X19_D, X19_D, X19_C, X19_A]))
  {
    GType_ac_bd();
  }

  lemma Shape_ac_bd(p: Pairs)
    requires p.IsWalk() && p.ac && !p.ad && !p.ae && p.bd && !p.be && !p.ce
    ensures Class5(p) == Some(Sig(18, [X19_B, X19_D, X19_D, X19_C, X19_A]))
  {
    Sig_ac_bd(p);
    Lookup_ac_bd();
  }

  // chords: ac, bd, ce
  lemma Sig_ac_bd_ce(p: Pairs)
    requires p.IsWalk() && p.ac && !p.ad && !p.ae && p.bd && !p.be && p.ce
    ensures Signature5(p) == Signature(14, 9, 12, 14, 12, 9)
  {
  }

  lemma Hash_ac_bd_ce()
    ensures Hash(Signature(14, 9, 12, 14, 12, 9)) == 4
  {
  }

  lemma GType_ac_bd_ce()
    ensures GType5(Signature(14, 9, 12, 14, 12, 9)) == 23
  {
    Hash_ac_bd_ce();
    Key_14_4(9);
  }

  lemma Lookup_ac_bd_ce()
    ensures Classify5(Signature(14, 9, 12, 14, 12, 9)) == Some(Sig(23, [X24_A, X24_B, X24_C, X24_B, X24_A]))
    ensures NoPadding(Sig(23, [X24_A, X24_B, X24_C, X24_B, X24_A]))
  {
    GType_ac_bd_ce();
  }

  lemma Shape_ac_bd_ce(p: Pairs)
    requires p.IsWalk() && p.ac && !p.ad && !p.ae && p.bd && !p.be && p.ce
    ensures Class5(p) == Some(Sig(23, [X24_A, X24_B, X24_C, X24_B, X24_A]))
  {
    Sig_ac_bd_ce(p);
    Lookup_ac_bd_ce();
  }

  // chords: ac, bd, be
  lemma Sig_ac_bd_be(p: Pairs)
    requires p.IsWalk() && p.ac && !p.ad && !p.ae && p.bd && p.be && !p.ce
    ensures Signature5(p) == Signature(14, 9, 14, 12, 12, 9)
  {
  }

  lemma Hash_ac_bd_be()
    ensures Hash(Signature(14, 9, 14, 12, 12, 9)) == 4
  {
  }

  lemma GType_ac_bd_be()
    ensures GType5(Signature(14, 9, 14, 12, 12, 9)) == 23
  {
    Hash_ac_bd_be();
    Key_14_4(9);
  }

  lemma Lookup_ac_bd_be()
    ensures Classify5(Signature(14, 9, 14, 12, 12, 9)) == Some(Sig(23, [X24_A, X24_C, X24_B, X24_B, X24_A]))
    ensures NoPadding(Sig(23, [X24_A, X24_C, X24_B, X24_B, X24_A]))
  {
    GType_ac_bd_be();
  }

  lemma Shape_ac_bd_be(p: Pairs)
    requires p.IsWalk() && p.ac && !p.ad && !p.ae && p.bd && p.be && !p.ce
    ensures Class5(p) == Some(Sig(23, [X24_A, X24_C, X24_B, X24_B, X24_A]))
  {
    Sig_ac_bd_be(p);
    Lookup_ac_bd_be();
  }

  // chords: ac, bd, be, ce
  lemma Sig_ac_bd_be_ce(p: Pairs)
    requires p.IsWalk() && p.ac && !p.ad && !p.ae && p.bd && p.be && p.ce
    ensures Signature5(p) == Signature(16, 10, 16, 16, 14, 14)
  {
  }

  lemma Hash_ac_bd_be_ce()
    ensures Hash(Signature(16, 10, 16, 16, 14, 14)) == 6
  {
  }

  lemma GType_ac_bd_be_ce()
    ensures GType5(Signature(16, 10, 16, 16, 14, 14)) == 25
  {
    Hash_ac_bd_be_ce();
    Key_16_6(10);
  }

  lemma Lookup_ac_bd_be_ce()
    ensures Classify5(Signature(16, 10, 16, 16, 14, 14)) == Some(Sig(25, [X26_A, X26_C, X26_C, X26_B, X26_B]))
    ensures NoPadding(Sig(25, [X26_A, X26_C, X26_C, X26_B, X26_B]))
  {
    GType_ac_bd_be_ce();
  }

  lemma Shape_ac_bd_be_ce(p: Pairs)
    requires p.IsWalk() && p.ac && !p.ad && !p.ae && p.bd && p.be && p.ce
    ensures Class5(p) == Some(Sig(25, [X26_A, X26_C, X26_C, X26_B, X26_B]))
  {
    Sig_ac_bd_be_ce(p);
    Lookup_ac_bd_be_ce();
  }

  // chords: ac, ae
  lemma Sig_ac_ae(p: Pairs)
    requires p.IsWalk() && p.ac && !p.ad && p.ae && !p.bd && !p.be && !p.ce
    ensures Signature5(p) == Signature(12, 10, 8, 10, 7, 7)
  {
  }

  lemma Hash_ac_ae()
    ensures Hash(Signature(12, 10, 8, 10, 7, 7)) == 10
  {
  }

  lemma GType_ac_ae()
    ensures GType5(Signature(12, 10, 8, 10, 7, 7)) == 20
  {
    Hash_ac_ae();
    Key_12_10(10);
  }

  lemma Lookup_ac_ae()
    ensures Classify5(Signature(12, 10, 8, 10, 7, 7)) == Some(Sig(20, [X21_C, X21_B, X21_C, X21_A, X21_A]))
    ensures NoPadding(Sig(20, [X21_C, X21_B, X21_C, X21_A, X21_A]))
  {
    GType_ac_ae();
  }

  lemma Shape_ac_ae(p: Pairs)
    requires p.IsWalk() && p.ac && !p.ad && p.ae && !p.bd && !p.be && !p.ce
    ensures Class5(p) == Some(Sig(20, [X21_C, X21_B, X21_C, X21_A, X21_A]))
  {
    Sig_ac_ae(p);
    Lookup_ac_ae();
  }

  // chords: ac, ae, ce
  lemma Sig_ac_ae_ce(p: Pairs)
    requires p.IsWalk() && p.ac && !p.ad && p.ae && !p.bd && !p.be && p.ce
    ensures Signature5(p) == Signature(14, 12, 9, 14, 9, 12)
  {
  }

  lemma Hash_ac_ae_ce()
    ensures Hash(Signature(14, 12, 9, 14, 9, 12)) == 4
  {
  }

  lemma GType_ac_ae_ce()
    ensures GType5(Signature(14, 12, 9, 14, 9, 12)) == 23
  {
    Hash_ac_ae_ce();
    Key_14_4(12);
  }

  lemma Lookup_ac_ae_ce()
    ensures Classify5(Signature(14, 12, 9, 14, 9, 12)) == Some(Sig(23, [X24_B, X24_A, X24_C, X24_A, X24_B]))
    ensures NoPadding(Sig(23, [X24_B, X24_A, X24_C, X24_A, X24_B]))
  {
    GType_ac_ae_ce();
  }

  lemma Shape_ac_ae_ce(p: Pairs)
    requires p.IsWalk() && p.ac && !p.ad && p.ae && !p.bd && !p.be && p.ce
    ensures Class5(p) == Some(Sig(23, [X24_B, X24_A, X24_C, X24_A, X24_B]))
  {
    Sig_ac_ae_ce(p);
    Lookup_ac_ae_ce();
  }

  // chords: ac, ae, be
  lemma Sig_ac_ae_be(p: Pairs)
    requires p.IsWalk() && p.ac && !p.ad && p.ae && !p.bd && p.be && !p.ce
    ensures Signature5(p) == Signature(14, 12, 12, 11, 8, 11)
  {
  }

  lemma Hash_ac_ae_be()
    ensures Hash(Signature(14, 12, 12, 11, 8, 11)) == 6
  {
  }

  lemma GType_ac_ae_be()
    ensures GType5(Signature(14, 12, 12, 11, 8, 11)) == 24
  {
    Hash_ac_ae_be();
    Key_14_6(12);
  }

  lemma Lookup_ac_ae_be()
    ensures Classify5(Signature(14, 12, 12, 11, 8, 11)) == Some(Sig(24, [X25_C, X25_C, X25_B, X25_A, X25_B]))
    ensures NoPadding(Sig(24, [X25_C, X25_C, X25_B, X25_A, X25_B]))
  {
    GType_ac_ae_be();
  }

  lemma Shape_ac_ae_be(p: Pairs)
    requires p.IsWalk() && p.ac && !p.ad && p.ae && !p.bd && p.be && !p.ce
    ensures Class5(p) == Some(Sig(24, [X25_C, X25_C, X25_B, X25_A, X25_B]))
  {
    Sig_ac_ae_be(p);
    Lookup_ac_ae_be();
  }

  // chords: ac, ae, be, ce
  lemma Sig_ac_ae_be_ce(p: Pairs)
    requires p.IsWalk() && p.ac && !p.ad && p.ae && !p.bd && p.be && p.ce
    ensures Signature5(p) == Signature(16, 14, 14, 16, 10, 16)
  {
  }

  lemma Hash_ac_ae_be_ce()
    ensures Hash(Signature(16, 14, 14, 16, 10, 16)) == 6
  {
  }

  lemma GType_ac_ae_be_ce()
    ensures GType5(Signature(16, 14, 14, 16, 10, 16)) == 25
  {
    Hash_ac_ae_be_ce();
    Key_16_6(14);
  }

  lemma Lookup_ac_ae_be_ce()
    ensures Classify5(Signature(16, 14, 14, 16, 10, 16)) == Some(Sig(25, [X26_B, X26_B, X26_C, X26_A, X26_C]))
    ensures NoPadding(Sig(25, [X26_B, X26_B, X26_C, X26_A, X26_C]))
  {
    GType_ac_ae_be_ce();
  }

  lemma Shape_ac_ae_be_ce(p: Pairs)
    requires p.IsWalk() && p.ac && !p.ad && p.ae && !p.bd && p.be && p.ce
    ensures Class5(p) == Some(Sig(25, [X26_B, X26_B, X26_C, X26_A, X26_C]))
  {
    Sig_ac_ae_be_ce(p);
    Lookup_ac_ae_be_ce();
  }

  // chords: ac, ae, bd
  lemma Sig_ac_ae_bd(p: Pairs)
    requires p.IsWalk() && p.ac && !p.ad && p.ae && p.bd && !p.be && !p.ce
    ensures Signature5(p) == Signature(14, 11, 12, 12, 11, 8)
  {
  }

  lemma Hash_ac_ae_bd()
    ensures Hash(Signature(14, 11, 12, 12, 11, 8)) == 6
  {
  }

  lemma GType_ac_ae_bd()
    ensures GType5(Signature(14, 11, 12, 12, 11, 8)) == 24
  {
    Hash_ac_ae_bd();
    Key_14_6(11);
  }

  lemma Lookup_ac_ae_bd()
    ensures Classify5(Signature(14, 11, 12, 12, 11, 8)) == Some(Sig(24, [X25_B, X25_C, X25_C, X25_B, X25_A]))
    ensures NoPadding(Sig(24, [X25_B, X25_C, X25_C, X25_B, X25_A]))
  {
    GType_ac_ae_bd();
  }

  lemma Shape_ac_ae_bd(p: Pairs)
    requires p.IsWalk() && p.ac && !p.ad && p.ae && p.bd && !p.be && !p.ce
    ensures Class5(p) == Some(Sig(24, [X25_B, X25_C, X25_C, X25_B, X25_A]))
  {
    Sig_ac_ae_bd(p);
    Lookup_ac_ae_bd();
  }

  // chords: ac, ae, bd, ce
  lemma Sig_ac_ae_bd_ce(p: Pairs)
    requires p.IsWalk() && p.ac && !p.ad && p.ae && p.bd && !p.be && p.ce
    ensures Signature5(p) == Signature(16, 13, 13, 16, 13, 13)
  {
  }

  lemma Hash_ac_ae_bd_ce()
    ensures Hash(Signature(16, 13, 13, 16, 13, 13)) == 4
  {
  }

  lemma GType_ac_ae_bd_ce()
    ensures GType5(Signature(16, 13, 13, 16, 13, 13)) == 26
  {
    Hash_ac_ae_bd_ce();
    Key_16_4(13);
  }

  lemma Lookup_ac_ae_bd_ce()
    ensures Classify5(Signature(16, 13, 13, 16, 13, 13)) == Some(Sig(26, [X27_A, X27_A, X27_B, X27_A, X27_A]))
    ensures NoPadding(Sig(26, [X27_A, X27_A, X27_B, X27_A, X27_A]))
  {
    GType_ac_ae_bd_ce();
  }

  lemma Shape_ac_ae_bd_ce(p: Pairs)
    requires p.IsWalk() && p.ac && !p.ad && p.ae && p.bd && !p.be && p.ce
    ensures Class5(p) == Some(Sig(26, [X27_A, X27_A, X27_B, X27_A, X27_A]))
  {
    Sig_ac_ae_bd_ce(p);
    Lookup_ac_ae_bd_ce();
  }

  // chords: ac, ae, bd, be
  lemma Sig_ac_ae_bd_be(p: Pairs)
    requires p.IsWalk() && p.ac && !p.ad && p.ae && p.bd && p.be && !p.ce
    ensures Signature5(p) == Signature(16, 13, 16, 13, 13, 13)
  {
  }

  lemma Hash_ac_ae_bd_be()
    ensures Hash(Signature(16, 13, 16, 13, 13, 13)) == 4
  {
  }

  lemma GType_ac_ae_bd_be()
    ensures GType5(Signature(16, 13, 16, 13, 13, 13)) == 26
  {
    Hash_ac_ae_bd_be();
    Key_16_4(13);
  }

  lemma Lookup_ac_ae_bd_be()
    ensures Classify5(Signature(16, 13, 16, 13, 13, 13)) == Some(Sig(26, [X27_A, X27_B, X27_A, X27_A, X27_A]))
    ensures NoPadding(Sig(26, [X27_A, X27_B, X27_A, X27_A, X27_A]))
  {
    GType_ac_ae_bd_be();
  }

  lemma Shape_ac_ae_bd_be(p: Pairs)
    requires p.IsWalk() && p.ac && !p.ad && p.ae && p.bd && p.be && !p.ce
    ensures Class5(p) == Some(Sig(26, [X27_A, X27_B, X27_A, X27_A, X27_A]))
  {
    Sig_ac_ae_bd_be(p);
    Lookup_ac_ae_bd_be();
  }

  // chords: ac, ae, bd, be, ce
  lemma Sig_ac_ae_bd_be_ce(p: Pairs)
    requires p.IsWalk() && p.ac && !p.ad && p.ae && p.bd && p.be && p.ce
    ensures Signature5(p) == Signature(18, 15, 18, 18, 15, 18)
  {
  }

  lemma Hash_ac_ae_bd_be_ce()
    ensures Hash(Signature(18, 15, 18, 18, 15, 18)) == 12
  {
  }

  lemma GType_ac_ae_bd_be_ce()
    ensures GType5(Signature(18, 15, 18, 18, 15, 18)) == 27
  {
    Hash_ac_ae_bd_be_ce();
    Key_18_12(15);
  }

  lemma Lookup_ac_ae_bd_be_ce()
    ensures Classify5(Signature(18, 15, 18, 18, 15, 18)) == Some(Sig(27, [X28_A, X28_B, X28_B, X28_A, X28_B]))
    ensures NoPadding(Sig(27, [X28_A, X28_B, X28_B, X28_A, X28_B]))
  {
    GType_ac_ae_bd_be_ce();
  }

  lemma Shape_ac_ae_bd_be_ce(p: Pairs)
    requires p.IsWalk() && p.ac && !p.ad && p.ae && p.bd && p.be && p.ce
    ensures Class5(p) == Some(Sig(27, [X28_A, X28_B, X28_B, X28_A, X28_B]))
  {
    Sig_ac_ae_bd_be_ce(p);
    Lookup_ac_ae_bd_be_ce();
  }

  // chords: ac, ad
  lemma Sig_ac_ad(p: Pairs)
    requires p.IsWalk() && p.ac && p.ad && !p.ae && !p.bd && !p.be && !p.ce
    ensures Signature5(p) == Signature(12, 11, 8, 11, 10, 4)
  {
  }

  lemma Hash_ac_ad()
    ensures Hash(Signature(12, 11, 8, 11, 10, 4)) == 8
  {
  }

  lemma GType_ac_ad()
    ensures GType5(Signature(12, 11, 8, 11, 10, 4)) == 18
  {
    Hash_ac_ad();
    Key_12_8(11);
  }

  lemma Lookup_ac_ad()
    ensures Classify5(Signature(12, 11, 8, 11, 10, 4)) == Some(Sig(18, [X19_D, X19_B, X19_D, X19_C, X19_A]))
    ensures NoPadding(Sig(18, [X19_D, X19_B, X19_D, X19_C, X19_A]))
  {
    GType_ac_ad();
  }

  lemma Shape_ac_ad(p: Pairs)
    requires p.IsWalk() && p.ac && p.ad && !p.ae && !p.bd && !p.be && !p.ce
    ensures Class5(p) == Some(Sig(18, [X19_D, X19_B, X19_D, X19_C, X19_A]))
  {
    Sig_ac_ad(p);
    Lookup_ac_ad();
  }

  // chords: ac, ad, ce
  lemma Sig_ac_ad_ce(p: Pairs)
    requires p.IsWalk() && p.ac && p.ad && !p.ae && !p.bd && !p.be && p.ce
    ensures Signature5(p) == Signature(14, 12, 9, 14, 12, 9)
  {
  }

  lemma Hash_ac_ad_ce()
    ensures Hash(Signature(14, 12, 9, 14, 12, 9)) == 4
  {
  }

  lemma GType_ac_ad_ce()
    ensures GType5(Signature(14, 12, 9, 14, 12, 9)) == 23
  {
    Hash_ac_ad_ce();
    Key_14_4(12);
  }

  lemma Lookup_ac_ad_ce()
    ensures Classify5(Signature(14, 12, 9, 14, 12, 9)) == Some(Sig(23, [X24_B, X24_A, X24_C, X24_B, X24_A]))
    ensures NoPadding(Sig(23, [X24_B, X24_A, X24_C, X24_B, X24_A]))
  {
    GType_ac_ad_ce();
  }

  lemma Shape_ac_ad_ce(p: Pairs)
    requires p.IsWalk() && p.ac && p.ad && !p.ae && !p.bd && !p.be && p.ce
    ensures Class5(p) == Some(Sig(23, [X24_B, X24_A, X24_C, X24_B, X24_A]))
  {
    Sig_ac_ad_ce(p);
    Lookup_ac_ad_ce();
  }

  // chords: ac, ad, be
  lemma Sig_ac_ad_be(p: Pairs)
    requires p.IsWalk() && p.ac && p.ad && !p.ae && !p.bd && p.be && !p.ce
    ensures Signature5(p) == Signature(14, 12, 11, 12, 11, 8)
  {
  }

  lemma Hash_ac_ad_be()
    ensures Hash(Signature(14, 12, 11, 12, 11, 8)) == 6
  {
  }

  lemma GType_ac_ad_be()
    ensures GType5(Signature(14, 12, 11, 12, 11, 8)) == 24
  {
    Hash_ac_ad_be();
    Key_14_6(12);
  }

  lemma Lookup_ac_ad_be()
    ensures Classify5(Signature(14, 12, 11, 12, 11, 8)) == Some(Sig(24, [X25_C, X25_B, X25_C, X25_B, X25_A]))
    ensures NoPadding(Sig(24, [X25_C, X25_B, X25_C, X25_B, X25_A]))
  {
    GType_ac_ad_be();
  }

  lemma Shape_ac_ad_be(p: Pairs)
    requires p.IsWalk() && p.ac && p.ad && !p.ae && !p.bd && p.be && !p.ce
    ensures Class5(p) == Some(Sig(24, [X25_C, X25_B, X25_C, X25_B, X25_A]))
  {
    Sig_ac_ad_be(p);
    Lookup_ac_ad_be();
  }

  // chords: ac, ad, be, ce
  lemma Sig_ac_ad_be_ce(p: Pairs)
    requires p.IsWalk() && p.ac && p.ad && !p.ae && !p.bd && p.be && p.ce
    ensures Signature5(p) == Signature(16, 13, 13, 16, 13, 13)
  {
  }

  lemma Hash_ac_ad_be_ce()
    ensures Hash(Signature(16, 13, 13, 16, 13, 13)) == 4
  {
  }

  lemma GType_ac_ad_be_ce()
    ensures GType5(Signature(16, 13, 13, 16, 13, 13)) == 26
  {
    Hash_ac_ad_be_ce();
    Key_16_4(13);
  }

  lemma Lookup_ac_ad_be_ce()
    ensures Classify5(Signature(16, 13, 13, 16, 13, 13)) == Some(Sig(26, [X27_A, X27_A, X27_B, X27_A, X27_A]))
    ensures NoPadding(Sig(26, [X27_A, X27_A, X27_B, X27_A, X27_A]))
  {
    GType_ac_ad_be_ce();
  }

  lemma Shape_ac_ad_be_ce(p: Pairs)
    requires p.IsWalk() && p.ac && p.ad && !p.ae && !p.bd && p.be && p.ce
    ensures Class5(p) == Some(Sig(26, [X27_A, X27_A, X27_B, X27_A, X27_A]))
  {
    Sig_ac_ad_be_ce(p);
    Lookup_ac_ad_be_ce();
  }

  // chords: ac, ad, bd
  lemma Sig_ac_ad_bd(p: Pairs)
    requires p.IsWalk() && p.ac && p.ad && !p.ae && p.bd && !p.be && !p.ce
    ensures Signature5(p) == Signature(14, 13, 13, 13, 14, 5)
  {
  }

  lemma Hash_ac_ad_bd()
    ensures Hash(Signature(14, 13, 13, 13, 14, 5)) == 6
  {
  }

  lemma GType_ac_ad_bd()
    ensures GType5(Signature(14, 13, 13, 13, 14, 5)) == 22
  {
    Hash_ac_ad_bd();
    Key_14_6(13);
  }

  lemma Lookup_ac_ad_bd()
    ensures Classify5(Signature(14, 13, 13, 13, 14, 5)) == Some(Sig(22, [X23_B, X23_B, X23_B, X23_C, X23_A]))
    ensures NoPadding(Sig(22, [X23_B, X23_B, X23_B, X23_C, X23_A]))
  {
    GType_ac_ad_bd();
  }

  lemma Shape_ac_ad_bd(p: Pairs)
    requires p.IsWalk() && p.ac && p.ad && !p.ae && p.bd && !p.be && !p.ce
    ensures Class5(p) == Some(Sig(22, [X23_B, X23_B, X23_B, X23_C, X23_A]))
  {
    Sig_ac_ad_bd(p);
    Lookup_ac_ad_bd();
  }

  // chords: ac, ad, bd, ce
  lemma Sig_ac_ad_bd_ce(p: Pairs)
    requires p.IsWalk() && p.ac && p.ad && !p.ae && p.bd && !p.be && p.ce
    ensures Signature5(p) == Signature(16, 14, 14, 16, 16, 10)
  {
  }

  lemma Hash_ac_ad_bd_ce()
    ensures Hash(Signature(16, 14, 14, 16, 16, 10)) == 6
  {
  }

  lemma GType_ac_ad_bd_ce()
    ensures GType5(Signature(16, 14, 14, 16, 16, 10)) == 25
  {
    Hash_ac_ad_bd_ce();
    Key_16_6(14);
  }

  lemma Lookup_ac_ad_bd_ce()
    ensures Classify5(Signature(16, 14, 14, 16, 16, 10)) == Some(Sig(25, [X26_B, X26_B, X26_C, X26_C, X26_A]))
    ensures NoPadding(Sig(25, [X26_B, X26_B, X26_C, X26_C, X26_A]))
  {
    GType_ac_ad_bd_ce();
  }

  lemma Shape_ac_ad_bd_ce(p: Pairs)
    requires p.IsWalk() && p.ac && p.ad && !p.ae && p.bd && !p.be && p.ce
    ensures Class5(p) == Some(Sig(25, [X26_B, X26_B, X26_C, X26_C, X26_A]))
  {
    Sig_ac_ad_bd_ce(p);
    Lookup_ac_ad_bd_ce();
  }

  // chords: ac, ad, bd, be
  lemma Sig_ac_ad_bd_be(p: Pairs)
    requires p.IsWalk() && p.ac && p.ad && !p.ae && p.bd && p.be && !p.ce
    ensures Signature5(p) == Signature(16, 14, 16, 14, 16, 10)
  {
  }

  lemma Hash_ac_ad_bd_be()
    ensures Hash(Signature(16, 14, 16, 14, 16, 10)) == 6
  {
  }

  lemma GType_ac_ad_bd_be()
    ensures GType5(Signature(16, 14, 16, 14, 16, 10)) == 25
  {
    Hash_ac_ad_bd_be();
    Key_16_6(14);
  }

  lemma Lookup_ac_ad_bd_be()
    ensures Classify5(Signature(16, 14, 16, 14, 16, 10)) == Some(Sig(25, [X26_B, X26_C, X26_B, X26_C, X26_A]))
    ensures NoPadding(Sig(25, [X26_B, X26_C, X26_B, X26_C, X26_A]))
  {
    GType_ac_ad_bd_be();
  }

  lemma Shape_ac_ad_bd_be(p: Pairs)
    requires p.IsWalk() && p.ac && p.ad && !p.ae && p.bd && p.be && !p.ce
    ensures Class5(p) == Some(Sig(25, [X26_B, X26_C, X26_B, X26_C, X26_A]))
  {
    Sig_ac_ad_bd_be(p);
    Lookup_ac_ad_bd_be();
  }

  // chords: ac, ad, bd, be, ce
  lemma Sig_ac_ad_bd_be_ce(p: Pairs)
    requires p.IsWalk() && p.ac && p.ad && !p.ae && p.bd && p.be && p.ce
    ensures Signature5(p) == Signature(18, 15, 18, 18, 18, 15)
  {
  }

  lemma Hash_ac_ad_bd_be_ce()
    ensures Hash(Signature(18, 15, 18, 18, 18, 15)) == 12
  {
  }

  lemma GType_ac_ad_bd_be_ce()
    ensures GType5(Signature(18, 15, 18, 18, 18, 15)) == 27
  {
    Hash_ac_ad_bd_be_ce();
    Key_18_12(15);
  }

  lemma Lookup_ac_ad_bd_be_ce()
    ensures Classify5(Signature(18, 15, 18, 18, 18, 15)) == Some(Sig(27, [X28_A, X28_B, X28_B, X28_B, X28_A]))
    ensures NoPadding(Sig(27, [X28_A, X28_B, X28_B, X28_B, X28_A]))
  {
    GType_ac_ad_bd_be_ce();
  }

  lemma Shape_ac_ad_bd_be_ce(p: Pairs)
    requires p.IsWalk() && p.ac && p.ad && !p.ae && p.bd && p.be && p.ce
    ensures Class5(p) == Some(Sig(27, [X28_A, X28_B, X28_B, X28_B, X28_A]))
  {
    Sig_ac_ad_bd_be_ce(p);
    Lookup_ac_ad_bd_be_ce();
  }

  // chords: ac, ad, ae
  lemma Sig_ac_ad_ae(p: Pairs)
    requires p.IsWalk() && p.ac && p.ad && p.ae && !p.bd && !p.be && !p.ce
    ensures Signature5(p) == Signature(14, 14, 9, 12, 12, 9)
  {
  }

  lemma Hash_ac_ad_ae()
    ensures Hash(Signature(14, 14, 9, 12, 12, 9)) == 4
  {
  }

  lemma GType_ac_ad_ae()
    ensures GType5(Signature(14, 14, 9, 12, 12, 9)) == 23
  {
    Hash_ac_ad_ae();
    Key_14_4(14);
  }

  lemma Lookup_ac_ad_ae()
    ensures Classify5(Signature(14, 14, 9, 12, 12, 9)) == Some(Sig(23, [X24_C, X24_A, X24_B, X24_B, X24_A]))
    ensures NoPadding(Sig(23, [X24_C, X24_A, X24_B, X24_B, X24_A]))
  {
    GType_ac_ad_ae();
  }

  lemma Shape_ac_ad_ae(p: Pairs)
    requires p.IsWalk() && p.ac && p.ad && p.ae && !p.bd && !p.be && !p.ce
    ensures Class5(p) == Some(Sig(23, [X24_C, X24_A, X24_B, X24_B, X24_A]))
  {
    Sig_ac_ad_ae(p);
    Lookup_ac_ad_ae();
  }

  // chords: ac, ad, ae, ce
  lemma Sig_ac_ad_ae_ce(p: Pairs)
    requires p.IsWalk() && p.ac && p.ad && p.ae && !p.bd && !p.be && p.ce
    ensures Signature5(p) == Signature(16, 16, 10, 16, 14, 14)
  {
  }

  lemma Hash_ac_ad_ae_ce()
    ensures Hash(Signature(16, 16, 10, 16, 14, 14)) == 6
  {
  }

  lemma GType_ac_ad_ae_ce()
    ensures GType5(Signature(16, 16, 10, 16, 14, 14)) == 25
  {
    Hash_ac_ad_ae_ce();
    Key_16_6(16);
  }

  lemma Lookup_ac_ad_ae_ce()
    ensures Classify5(Signature(16, 16, 10, 16, 14, 14)) == Some(Sig(25, [X26_C, X26_A, X26_C, X26_B, X26_B]))
    ensures NoPadding(Sig(25, [X26_C, X26_A, X26_C, X26_B, X26_B]))
  {
    GType_ac_ad_ae_ce();
  }

  lemma Shape_ac_ad_ae_ce(p: Pairs)
    requires p.IsWalk() && p.ac && p.ad && p.ae && !p.bd && !p.be && p.ce
    ensures Class5(p) == Some(Sig(25, [X26_C, X26_A, X26_C, X26_B, X26_B]))
  {
    Sig_ac_ad_ae_ce(p);
    Lookup_ac_ad_ae_ce();
  }

  // chords: ac, ad, ae, be
  lemma Sig_ac_ad_ae_be(p: Pairs)
    requires p.IsWalk() && p.ac && p.ad && p.ae && !p.bd && p.be && !p.ce
    ensures Signature5(p) == Signature(16, 16, 13, 13, 13, 13)
  {
  }

  lemma Hash_ac_ad_ae_be()
    ensures Hash(Signature(16, 16, 13, 13, 13, 13)) == 4
  {
  }

  lemma GType_ac_ad_ae_be()
    ensures GType5(Signature(16, 16, 13, 13, 13, 13)) == 26
  {
    Hash_ac_ad_ae_be();
    Key_16_4(16);
  }

  lemma Lookup_ac_ad_ae_be()
    ensures Classify5(Signature(16, 16, 13, 13, 13, 13)) == Some(Sig(26, [X27_B, X27_A, X27_A, X27_A, X27_A]))
    ensures NoPadding(Sig(26, [X27_B, X27_A, X27_A, X27_A, X27_A]))
  {
    GType_ac_ad_ae_be();
  }

  lemma Shape_ac_ad_ae_be(p: Pairs)
    requires p.IsWalk() && p.ac && p.ad && p.ae && !p.bd && p.be && !p.ce
    ensures Class5(p) == Some(Sig(26, [X27_B, X27_A, X27_A, X27_A, X27_A]))
  {
    Sig_ac_ad_ae_be(p);
    Lookup_ac_ad_ae_be();
  }

  // chords: ac, ad, ae, be, ce
  lemma Sig_ac_ad_ae_be_ce(p: Pairs)
    requires p.IsWalk() && p.ac && p.ad && p.ae && !p.bd && p.be && p.ce
    ensures Signature5(p) == Signature(18, 18, 15, 18, 15, 18)
  {
  }

  lemma Hash_ac_ad_ae_be_ce()
    ensures Hash(Signature(18, 18, 15, 18, 15, 18)) == 12
  {
  }

  lemma GType_ac_ad_ae_be_ce()
    ensures GType5(Signature(18, 18, 15, 18, 15, 18)) == 27
  {
    Hash_ac_ad_ae_be_ce();
    Key_18_12(18);
  }

  lemma Lookup_ac_ad_ae_be_ce()
    ensures Classify5(Signature(18, 18, 15, 18, 15, 18)) == Some(Sig(27, [X28_B, X28_A, X28_B, X28_A, X28_B]))
    ensures NoPadding(Sig(27, [X28_B, X28_A, X28_B, X28_A, X28_B]))
  {
    GType_ac_ad_ae_be_ce();
  }

  lemma Shape_ac_ad_ae_be_ce(p: Pairs)
    requires p.IsWalk() && p.ac && p.ad && p.ae && !p.bd && p.be && p.ce
    ensures Class5(p) == Some(Sig(27, [X28_B, X28_A, X28_B, X28_A, X28_B]))
  {
    Sig_ac_ad_ae_be_ce(p);
    Lookup_ac_ad_ae_be_ce();
  }

  // chords: ac, ad, ae, bd
  lemma Sig_ac_ad_ae_bd(p: Pairs)
    requires p.IsWalk() && p.ac && p.ad && p.ae && p.bd && !p.be && !p.ce
    ensures Signature5(p) == Signature(16, 16, 14, 14, 16, 10)
  {
  }

  lemma Hash_ac_ad_ae_bd()
    ensures Hash(Signature(16, 16, 14, 14, 16, 10)) == 6
  {
  }

  lemma GType_ac_ad_ae_bd()
    ensures GType5(Signature(16, 16, 14, 14, 16, 10)) == 25
  {
    Hash_ac_ad_ae_bd();
    Key_16_6(16);
  }

  lemma Lookup_ac_ad_ae_bd()
    ensures Classify5(Signature(16, 16, 14, 14, 16, 10)) == Some(Sig(25, [X26_C, X26_B, X26_B, X26_C, X26_A]))
    ensures NoPadding(Sig(25, [X26_C, X26_B, X26_B, X26_C, X26_A]))
  {
    GType_ac_ad_ae_bd();
  }

  lemma Shape_ac_ad_ae_bd(p: Pairs)
    requires p.IsWalk() && p.ac && p.ad && p.ae && p.bd && !p.be && !p.ce
    ensures Class5(p) == Some(Sig(25, [X26_C, X26_B, X26_B, X26_C, X26_A]))
  {
    Sig_ac_ad_ae_bd(p);
    Lookup_ac_ad_ae_bd();
  }

  // chords: ac, ad, ae, bd, ce
  lemma Sig_ac_ad_ae_bd_ce(p: Pairs)
    requires p.IsWalk() && p.ac && p.ad && p.ae && p.bd && !p.be && p.ce
    ensures Signature5(p) == Signature(18, 18, 15, 18, 18, 15)
  {
  }

  lemma Hash_ac_ad_ae_bd_ce()
    ensures Hash(Signature(18, 18, 15, 18, 18, 15)) == 12
  {
  }

  lemma GType_ac_ad_ae_bd_ce()
    ensures GType5(Signature(18, 18, 15, 18, 18, 15)) == 27
  {
    Hash_ac_ad_ae_bd_ce();
    Key_18_12(18);
  }

  lemma Lookup_ac_ad_ae_bd_ce()
    ensures Classify5(Signature(18, 18, 15, 18, 18, 15)) == Some(Sig(27, [X28_B, X28_A, X28_B, X28_B, X28_A]))
    ensures NoPadding(Sig(27, [X28_B, X28_A, X28_B, X28_B, X28_A]))
  {
    GType_ac_ad_ae_bd_ce();
  }

  lemma Shape_ac_ad_ae_bd_ce(p: Pairs)
    requires p.IsWalk() && p.ac && p.ad && p.ae && p.bd && !p.be && p.ce
    ensures Class5(p) == Some(Sig(27, [X28_B, X28_A, X28_B, X28_B, X28_A]))
  {
    Sig_ac_ad_ae_bd_ce(p);
    Lookup_ac_ad_ae_bd_ce();
  }

  // chords: ac, ad, ae, bd, be
  lemma Sig_ac_ad_ae_bd_be(p: Pairs)
    requires p.IsWalk() && p.ac && p.ad && p.ae && p.bd && p.be && !p.ce
    ensures Signature5(p) == Signature(18, 18, 18, 15, 18, 15)
  {
  }

  lemma Hash_ac_ad_ae_bd_be()
    ensures Hash(Signature(18, 18, 18, 15, 18, 15)) == 12
  {
  }

  lemma GType_ac_ad_ae_bd_be()
    ensures GType5(Signature(18, 18, 18, 15, 18, 15)) == 27
  {
    Hash_ac_ad_ae_bd_be();
    Key_18_12(18);
  }

  lemma Lookup_ac_ad_ae_bd_be()
    ensures Classify5(Signature(18, 18, 18, 15, 18, 15)) == Some(Sig(27, [X28_B, X28_B, X28_A, X28_B, X28_A]))
    ensures NoPadding(Sig(27, [X28_B, X28_B, X28_A, X28_B, X28_A]))
  {
    GType_ac_ad_ae_bd_be();
  }

  lemma Shape_ac_ad_ae_bd_be(p: Pairs)
    requires p.IsWalk() && p.ac && p.ad && p.ae && p.bd && p.be && !p.ce
    ensures Class5(p) == Some(Sig(27, [X28_B, X28_B, X28_A, X28_B, X28_A]))
  {
    Sig_ac_ad_ae_bd_be(p);
    Lookup_ac_ad_ae_bd_be();
  }

  // chords: ac, ad, ae, bd, be, ce
  lemma Sig_ac_ad_ae_bd_be_ce(p: Pairs)
    requires p.IsWalk() && p.ac && p.ad && p.ae && p.bd && p.be && p.ce
    ensures Signature5(p) == Signature(20, 20, 20, 20, 20, 20)
  {
  }

  lemma Hash_ac_ad_ae_bd_be_ce()
    ensures Hash(Signature(20, 20, 20, 20, 20, 20)) == 0
  {
  }

  lemma GType_ac_ad_ae_bd_be_ce()
    ensures GType5(Signature(20, 20, 20, 20, 20, 20)) == 28
  {
    Hash_ac_ad_ae_bd_be_ce();
    Key_20_0(20);
  }

  lemma Lookup_ac_ad_ae_bd_be_ce()
    ensures Classify5(Signature(20, 20, 20, 20, 20, 20)) == Some(Sig(28, [K5_A, K5_A, K5_A, K5_A, K5_A]))
    ensures NoPadding(Sig(28, [K5_A, K5_A, K5_A, K5_A, K5_A]))
  {
    GType_ac_ad_ae_bd_be_ce();
  }

  lemma Shape_ac_ad_ae_bd_be_ce(p: Pairs)
    requires p.IsWalk() && p.ac && p.ad && p.ae && p.bd && p.be && p.ce
    ensures Class5(p) == Some(Sig(28, [K5_A, K5_A, K5_A, K5_A, K5_A]))
  {
    Sig_ac_ad_ae_bd_be_ce(p);
    Lookup_ac_ad_ae_bd_be_ce();
  }

  lemma WalkShapes_111(p: Pairs)
    requires p.IsWalk() && p.ac && p.ad && p.ae
    ensures Class5(p).Some? && NoPadding(Class5(p).value)
  {
    if p.bd {
      if p.be {
        if p.ce {
          Shape_ac_ad_ae_bd_be_ce(p);
          Lookup_ac_ad_ae_bd_be_ce();
        } else {
          Shape_ac_ad_ae_bd_be(p);
          Lookup_ac_ad_ae_bd_be();
        }
      } else {
        if p.ce {
          Shape_ac_ad_ae_bd_ce(p);
          Lookup_ac_ad_ae_bd_ce();
        } else {
          Shape_ac_ad_ae_bd(p);
          Lookup_ac_ad_ae_bd();
        }
      }
    } else {
      if p.be {
        if p.ce {
          Shape_ac_ad_ae_be_ce(p);
          Lookup_ac_ad_ae_be_ce();
        } else {
          Shape_ac_ad_ae_be(p);
          Lookup_ac_ad_ae_be();
        }
      } else {
        if p.ce {
          Shape_ac_ad_ae_ce(p);
          Lookup_ac_ad_ae_ce();
        } else {
          Shape_ac_ad_ae(p);
          Lookup_ac_ad_ae();
        }
      }
    }
  }

  lemma WalkShapes_110(p: Pairs)
    requires p.IsWalk() && p.ac && p.ad && !p.ae
    ensures Class5(p).Some? && NoPadding(Class5(p).value)
  {
    if p.bd {
      if p.be {
        if p.ce {
          Shape_ac_ad_bd_be_ce(p);
          Lookup_ac_ad_bd_be_ce();
        } else {
          Shape_ac_ad_bd_be(p);
          Lookup_ac_ad_bd_be();
        }
      } else {
        if p.ce {
          Shape_ac_ad_bd_ce(p);
          Lookup_ac_ad_bd_ce();
        } else {
          Shape_ac_ad_bd(p);
          Lookup_ac_ad_bd();
        }
      }
    } else {
      if p.be {
        if p.ce {
          Shape_ac_ad_be_ce(p);
          Lookup_ac_ad_be_ce();
        } else {
          Shape_ac_ad_be(p);
          Lookup_ac_ad_be();
        }
      } else {
        if p.ce {
          Shape_ac_ad_ce(p);
          Lookup_ac_ad_ce();
        } else {
          Shape_ac_ad(p);
          Lookup_ac_ad();
        }
      }
    }
  }

  lemma WalkShapes_101(p: Pairs)
    requires p.IsWalk() && p.ac && !p.ad && p.ae
    ensures Class5(p).Some? && NoPadding(Class5(p).value)
  {
    if p.bd {
      if p.be {
        if p.ce {
          Shape_ac_ae_bd_be_ce(p);
          Lookup_ac_ae_bd_be_ce();
        } else {
          Shape_ac_ae_bd_be(p);
          Lookup_ac_ae_bd_be();
        }
      } else {
        if p.ce {
          Shape_ac_ae_bd_ce(p);
          Lookup_ac_ae_bd_ce();
        } else {
          Shape_ac_ae_bd(p);
          Lookup_ac_ae_bd();
        }
      }
    } else {
      if p.be {
        if p.ce {
          Shape_ac_ae_be_ce(p);
          Lookup_ac_ae_be_ce();
        } else {
          Shape_ac_ae_be(p);
          Lookup_ac_ae_be();
        }
      } else {
        if p.ce {
          Shape_ac_ae_ce(p);
          Lookup_ac_ae_ce();
        } else {
          Shape_ac_ae(p);
          Lookup_ac_ae();
        }
      }
    }
  }

  lemma WalkShapes_100(p: Pairs)
    requires p.IsWalk() && p.ac && !p.ad && !p.ae
    ensures Class5(p).Some? && NoPadding(Class5(p).value)
  {
    if p.bd {
      if p.be {
        if p.ce {
          Shape_ac_bd_be_ce(p);
          Lookup_ac_bd_be_ce();
        } else {
          Shape_ac_bd_be(p);
          Lookup_ac_bd_be();
        }
      } else {
        if p.ce {
          Shape_ac_bd_ce(p);
          Lookup_ac_bd_ce();
        } else {
          Shape_ac_bd(p);
          Lookup_ac_bd();
        }
      }
    } else {
      if p.be {
        if p.ce {
          Shape_ac_be_ce(p);
          Lookup_ac_be_ce();
        } else {
          Shape_ac_be(p);
          Lookup_ac_be();
        }
      } else {
        if p.ce {
          Shape_ac_ce(p);
          Lookup_ac_ce();
        } else {
          Shape_ac(p);
          Lookup_ac();
        }
      }
    }
  }

  lemma WalkShapes_011(p: Pairs)
    requires p.IsWalk() && !p.ac && p.ad && p.ae
    ensures Class5(p).Some? && NoPadding(Class5(p).value)
  {
    if p.bd {
      if p.be {
        if p.ce {
          Shape_ad_ae_bd_be_ce(p);
          Lookup_ad_ae_bd_be_ce();
        } else {
          Shape_ad_ae_bd_be(p);
          Lookup_ad_ae_bd_be();
        }
      } else {
        if p.ce {
          Shape_ad_ae_bd_ce(p);
          Lookup_ad_ae_bd_ce();
        } else {
          Shape_ad_ae_bd(p);
          Lookup_ad_ae_bd();
        }
      }
    } else {
      if p.be {
        if p.ce {
          Shape_ad_ae_be_ce(p);
          Lookup_ad_ae_be_ce();
        } else {
          Shape_ad_ae_be(p);
          Lookup_ad_ae_be();
        }
      } else {
        if p.ce {
          Shape_ad_ae_ce(p);
          Lookup_ad_ae_ce();
        } else {
          Shape_ad_ae(p);
          Lookup_ad_ae();
        }
      }
    }
  }

  lemma WalkShapes_010(p: Pairs)
    requires p.IsWalk() && !p.ac && p.ad && !p.ae
    ensures Class5(p).Some? && NoPadding(Class5(p).value)
  {
    if p.bd {
      if p.be {
        if p.ce {
          Shape_ad_bd_be_ce(p);
          Lookup_ad_bd_be_ce();
        } else {
          Shape_ad_bd_be(p);
          Lookup_ad_bd_be();
        }
      } else {
        if p.ce {
          Shape_ad_bd_ce(p);
          Lookup_ad_bd_ce();
        } else {
          Shape_ad_bd(p);
          Lookup_ad_bd();
        }
      }
    } else {
      if p.be {
        if p.ce {
          Shape_ad_be_ce(p);
          Lookup_ad_be_ce();
        } else {
          Shape_ad_be(p);
          Lookup_ad_be();
        }
      } else {
        if p.ce {
          Shape_ad_ce(p);
          Lookup_ad_ce();
        } else {
          Shape_ad(p);
          Lookup_ad();
        }
      }
    }
  }

  lemma WalkShapes_001(p: Pairs)
    requires p.IsWalk() && !p.ac && !p.ad && p.ae
    ensures Class5(p).Some? && NoPadding(Class5(p).value)
  {
    if p.bd {
      if p.be {
        if p.ce {
          Shape_ae_bd_be_ce(p);
          Lookup_ae_bd_be_ce();
        } else {
          Shape_ae_bd_be(p);
          Lookup_ae_bd_be();
        }
      } else {
        if p.ce {
          Shape_ae_bd_ce(p);
          Lookup_ae_bd_ce();
        } else {
          Shape_ae_bd(p);
          Lookup_ae_bd();
        }
      }
    } else {
      if p.be {
        if p.ce {
          Shape_ae_be_ce(p);
          Lookup_ae_be_ce();
        } else {
          Shape_ae_be(p);
          Lookup_ae_be();
        }
      } else {
        if p.ce {
          Shape_ae_ce(p);
          Lookup_ae_ce();
        } else {
          Shape_ae(p);
          Lookup_ae();
        }
      }
    }
  }

  lemma WalkShapes_000(p: Pairs)
    requires p.IsWalk() && !p.ac && !p.ad && !p.ae
    ensures Class5(p).Some? && NoPadding(Class5(p).value)
  {
    if p.bd {
      if p.be {
        if p.ce {
          Shape_bd_be_ce(p);
          Lookup_bd_be_ce();
        } else {
          Shape_bd_be(p);
          Lookup_bd_be();
        }
      } else {
        if p.ce {
          Shape_bd_ce(p);
          Lookup_bd_ce();
        } else {
          Shape_bd(p);
          Lookup_bd();
        }
      }
    } else {
      if p.be {
        if p.ce {
          Shape_be_ce(p);
          Lookup_be_ce();
        } else {
          Shape_be(p);
          Lookup_be();
        }
      } else {
        if p.ce {
          Shape_ce(p);
          Lookup_ce();
        } else {
          Shape_none(p);
          Lookup_none();
        }
      }
    }
  }

  /**
   * Every walk is classified (the program never stops on its assertion) and
   * every node lands on a listed cell of `ntable`.
   */
  lemma WalkShapes(p: Pairs)
    requires p.IsWalk()
    ensures Class5(p).Some? && NoPadding(Class5(p).value)
  {
    if p.ac {
      if p.ad {
        if p.ae {
          WalkShapes_111(p);
        } else {
          WalkShapes_110(p);
        }
      } else {
        if p.ae {
          WalkShapes_101(p);
        } else {
          WalkShapes_100(p);
        }
      }
    } else {
      if p.ad {
        if p.ae {
          WalkShapes_011(p);
        } else {
          WalkShapes_010(p);
        }
      } else {
        if p.ae {
          WalkShapes_001(p);
        } else {
          WalkShapes_000(p);
        }
      }
    }
  }

  /**
   * The 5-node classifier never fails on a walk: the type is one of 8..28
   * and every node is counted in an orbit of that type.
   */
  lemma Class5Walk(p: Pairs)
    requires p.IsWalk()
    ensures Class5(p).Some?
    ensures 8 <= Class5(p).value.gtype <= 28
    ensures Proper(Class5(p).value, 5)
  {
    WalkShapes(p);
    Class5Proper(p);
  }

  /**
   * The key (14, 6) is shared by walks of two different graphlets; the
   * program tells them apart by `ndeg_a`: type 22 when it is 5 or above 12,
   * type 24 otherwise.
   */
  lemma TieBreak(p: Pairs)
    requires p.IsWalk() && Signature5(p).total == 14 && Hash(Signature5(p)) == 6
    ensures Class5(p).Some?
    ensures Class5(p).value.gtype == (if Signature5(p).na > 12 || Signature5(p).na == 5 then 22 else 24)
  {
    WalkShapes(p);
    var s := Signature5(p);
    assert InRange(s) && Class5(p) == Classify5(s);
    Key_14_6(s.na);
  }

  // Both outcomes of the `ndeg_a` test occur.

  /** A walk shape with key (14, 6) that is classified as type 22 (X23). */
  lemma TieBreakX23(p: Pairs)
    requires p.IsWalk() && !p.ac && !p.ad && !p.ae && p.bd && p.be && p.ce
    ensures Signature5(p).total == 14 && Hash(Signature5(p)) == 6
    ensures Class5(p).Some? && Class5(p).value.gtype == 22
  {
    Shape_bd_be_ce(p);
    Hash_bd_be_ce();
  }

  /** A walk shape with key (14, 6) that is classified as type 24 (X25). */
  lemma TieBreakX25(p: Pairs)
    requires p.IsWalk() && !p.ac && !p.ad && p.ae && p.bd && !p.be && p.ce
    ensures Signature5(p).total == 14 && Hash(Signature5(p)) == 6
    ensures Class5(p).Some? && Class5(p).value.gtype == 24
  {
    Shape_ae_bd_ce(p);
    Hash_ae_bd_ce();
  }

}
