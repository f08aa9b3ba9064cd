/**
 * The constant tables of the graphlet counter (src/graphcrunch.cpp:50-80):
 * the graphlet lookup table `gtable`, the orbit lookup table `ntable`, the
 * overcount factor of every graphlet type and the graphlet type of every
 * orbit, together with the orbit numbering.
 *
 * The C tables are `char` arrays whose short rows the compiler pads with
 * zeros: `gtable` has rows of 8 cells and `ntable` rows of 21 cells. Each row
 * below lists the cells exactly as the initializer writes them, and the
 * lookup functions `GTable` and `NTable` supply the zero padding.
 */
module Tables {

  /** Number of graphlet types (3, 4 and 5 nodes) and of orbits. */
  const GraphletTypes: nat := 29
  const OrbitCount: nat := 72

  // The orbit numbering of the anonymous enum, in declaration order.

  const P3_A: nat := 0
  const P3_B: nat := 1
  const C3_A: nat := 2
  const P4_A: nat := 3
  const P4_B: nat := 4
  const CLAW_A: nat := 5
  const CLAW_B: nat := 6
  const C4_A: nat := 7
  const FLOW_A: nat := 8
  const FLOW_B: nat := 9
  const FLOW_C: nat := 10
  const DIAM_A: nat := 11
  const DIAM_B: nat := 12
  const K4_A: nat := 13
  const P5_A: nat := 14
  const P5_B: nat := 15
  const P5_C: nat := 16
  const X10_A: nat := 17
  const X10_B: nat := 18
  const X10_C: nat := 19
  const X10_D: nat := 20
  const X11_A: nat := 21
  const X11_B: nat := 22
  const X12_A: nat := 23
  const X12_B: nat := 24
  const X12_C: nat := 25
  const X13_A: nat := 26
  const X13_B: nat := 27
  const X13_C: nat := 28
  const X13_D: nat := 29
  const X14_A: nat := 30
  const X14_B: nat := 31
  const X14_C: nat := 32
  const C5_A: nat := 33
  const X16_A: nat := 34
  const X16_B: nat := 35
  const X16_C: nat := 36
  const X16_D: nat := 37
  const X17_A: nat := 38
  const X17_B: nat := 39
  const X17_C: nat := 40
  const X17_D: nat := 41
  const X18_A: nat := 42
  const X18_B: nat := 43
  const X19_A: nat := 44
  const X19_B: nat := 45
  const X19_C: nat := 46
  const X19_D: nat := 47
  const X20_A: nat := 48
  const X20_B: nat := 49
  const X21_A: nat := 50
  const X21_B: nat := 51
  const X21_C: nat := 52
  const X22_A: nat := 53
  const X22_B: nat := 54
  const X23_A: nat := 55
  const X23_B: nat := 56
  const X23_C: nat := 57
  const X24_A: nat := 58
  const X24_B: nat := 59
  const X24_C: nat := 60
  const X25_A: nat := 61
  const X25_B: nat := 62
  const X25_C: nat := 63
  const X26_A: nat := 64
  const X26_B: nat := 65
  const X26_C: nat := 66
  const X27_A: nat := 67
  const X27_B: nat := 68
  const X28_A: nat := 69
  const X28_B: nat := 70
  const K5_A: nat := 71

  /** Row `r` of `gtable`, as initialized (7 rows). */
  function GRow(r: nat): (row: seq<int>)
    requires r < 7
    ensures |row| <= 8
  {
    match r
    case 0 => [-1, -1, 10, -1, -1, 8]
    case 1 => [-1, 11, -1, -1, 15, 14, 12]
    case 2 => [17, 19, -1, 16, 18, 20]
    case 3 => [-1, -1, 23, 24, -1, 21]
    case 4 => [-1, -1, 26, 25]
    case 5 => [-1, -1, -1, -1, -1, -1, 27]
    case 6 => [28]
  }

  /**
   * `gtable[r][c]`: the initialized cell, or the 0 the compiler pads a short
   * row with.
   */
  function GTable(r: nat, c: nat): int
    requires r < 7 && c < 8
  {
    var row := GRow(r);
    if c < |row| then row[c] else 0
  }

  /** Row `g` of `ntable`, as initialized (one row per graphlet type). */
  function NRow(g: nat): (row: seq<int>)
    requires g < GraphletTypes
    ensures |row| <= 21
  {
    match g
    case 0 => [-1, -1, -1, 0, 1]
    case 1 => [-1, -1, -1, -1, -1, -1, 2]
    case 2 => [-1, -1, -1, 3, -1, 4]
    case 3 => [-1, -1, -1, -1, 5, -1, 6]
    case 4 => [-1, -1, -1, -1, -1, -1, 7]
    case 5 => [-1, -1, -1, -1, 8, -1, -1, 9, 10]
    case 6 => [-1, -1, -1, -1, -1, -1, -1, -1, 11, -1, 12]
    case 7 => [-1, -1, -1, -1, -1, -1, -1, -1, -1, -1, -1, -1, 13]
    case 8 => [-1, -1, -1, 14, -1, 15, 16]
    case 9 => [-1, -1, -1, 17, 18, -1, 19, 20]
    case 10 => [-1, -1, -1, -1, -1, 21, -1, -1, 22]
    case 11 => [-1, -1, -1, -1, 23, -1, -1, -1, 24, 25]
    case 12 => [-1, -1, -1, 26, -1, -1, 27, 28, -1, 29]
    case 13 => [-1, -1, -1, -1, -1, 30, -1, -1, 31, -1, 32]
    case 14 => [-1, -1, -1, -1, -1, -1, 33]
    case 15 => [-1, -1, -1, -1, 34, -1, 35, 36, 37]
    case 16 => [-1, -1, -1, -1, -1, 38, -1, -1, -1, 39, -1, 40, 41]
    case 17 => [-1, -1, -1, -1, -1, -1, -1, -1, 42, -1, -1, -1, 43]
    case 18 => [-1, -1, -1, -1, 44, -1, -1, -1, 45, -1, 46, 47]
    case 19 => [-1, -1, -1, -1, -1, -1, -1, -1, 48, 49]
    case 20 => [-1, -1, -1, -1, -1, -1, -1, 50, 51, -1, 52]
    case 21 => [-1, -1, -1, -1, -1, -1, -1, -1, -1, -1, 53, -1, -1, -1, 54]
    case 22 => [-1, -1, -1, -1, -1, 55, -1, -1, -1, -1, -1, -1, -1, 56, 57]
    case 23 => [-1, -1, -1, -1, -1, -1, -1, -1, -1, 58, -1, -1, 59, -1, 60]
    case 24 => [-1, -1, -1, -1, -1, -1, -1, -1, 61, -1, -1, 62, 63]
    case 25 => [-1, -1, -1, -1, -1, -1, -1, -1, -1, -1, 64, -1, -1, -1, 65, -1, 66]
    case 26 => [-1, -1, -1, -1, -1, -1, -1, -1, -1, -1, -1, -1, -1, 67, -1, -1, 68]
    case 27 => [-1, -1, -1, -1, -1, -1, -1, -1, -1, -1, -1, -1, -1, -1, -1, 69, -1, -1, 70]
    case 28 => [-1, -1, -1, -1, -1, -1, -1, -1, -1, -1, -1, -1, -1, -1, -1, -1, -1, -1, -1, -1, 71]
  }

  /** `ntable[g][k]`: the initialized cell, or the padding 0. */
  function NTable(g: nat, k: nat): int
    requires g < GraphletTypes && k < 21
  {
    var row := NRow(g);
    if k < |row| then row[k] else 0
  }

  /** `overcount[g]`: how many times the walk finds one instance of graphlet type `g`. */
  function Overcount(g: nat): int
    requires g < GraphletTypes
  {
    match g
    case 0 => 2
    case 1 => 6
    case 2 => 2
    case 3 => 6
    case 4 => 8
    case 5 => 4
    case 6 => 12
    case 7 => 24
    case 8 => 2
    case 9 => 2
    case 10 => 24
    case 11 => 2
    case 12 => 4
    case 13 => 4
    case 14 => 10
    case 15 => 4
    case 16 => 4
    case 17 => 8
    case 18 => 8
    case 19 => 12
    case 20 => 14
    case 21 => 12
    case 22 => 12
    case 23 => 20
    case 24 => 28
    case 25 => 36
    case 26 => 48
    case 27 => 72
    case 28 => 120
  }

  /** `ntype2gtype[o]`: the graphlet type orbit `o` belongs to. */
  function NType2GType(o: nat): int
    requires o < OrbitCount
  {
    match o
    case 0 => 0
    case 1 => 0
    case 2 => 1
    case 3 => 2
    case 4 => 2
    case 5 => 3
    case 6 => 3
    case 7 => 4
    case 8 => 5
    case 9 => 5
    case 10 => 5
    case 11 => 6
    case 12 => 6
    case 13 => 7
    case 14 => 8
    case 15 => 8
    case 16 => 8
    case 17 => 9
    case 18 => 9
    case 19 => 9
    case 20 => 9
    case 21 => 10
    case 22 => 10
    case 23 => 11
    case 24 => 11
    case 25 => 11
    case 26 => 12
    case 27 => 12
    case 28 => 12
    case 29 => 12
    case 30 => 13
    case 31 => 13
    case 32 => 13
    case 33 => 14
    case 34 => 15
    case 35 => 15
    case 36 => 15
    case 37 => 15
    case 38 => 16
    case 39 => 16
    case 40 => 16
    case 41 => 16
    case 42 => 17
    case 43 => 17
    case 44 => 18
    case 45 => 18
    case 46 => 18
    case 47 => 18
    case 48 => 19
    case 49 => 19
    case 50 => 20
    case 51 => 20
    case 52 => 20
    case 53 => 21
    case 54 => 21
    case 55 => 22
    case 56 => 22
    case 57 => 22
    case 58 => 23
    case 59 => 23
    case 60 => 23
    case 61 => 24
    case 62 => 24
    case 63 => 24
    case 64 => 25
    case 65 => 25
    case 66 => 25
    case 67 => 26
    case 68 => 26
    case 69 => 27
    case 70 => 27
    case 71 => 28
  }

  /** Every orbit belongs to one of the 29 graphlet types, and the table lists the orbits type by type. */
  lemma OrbitTypesSorted()
    ensures forall o :: 0 <= o < OrbitCount ==> 0 <= NType2GType(o) < GraphletTypes
    ensures forall o :: 0 <= o < OrbitCount - 1 ==> NType2GType(o) <= NType2GType(o + 1)
  {
  }

  /** Every overcount factor is positive, so the final division is defined. */
  lemma OvercountPositive()
    ensures forall g :: 0 <= g < GraphletTypes ==> Overcount(g) > 0
  {
  }

  /** Every initialized cell of row `g` of `ntable` other than -1 is an orbit of graphlet type `g`. */
  ghost predicate RowConsistent(g: nat)
    requires g < GraphletTypes
  {
    forall k :: 0 <= k < |NRow(g)| && NRow(g)[k] != -1 ==>
      0 <= NRow(g)[k] < OrbitCount && NType2GType(NRow(g)[k]) == g
  }

  // Each row is checked on its own, to keep every proof small.

  lemma Row0Consistent()
    ensures RowConsistent(0)
  {
    forall k | 0 <= k < |NRow(0)| && NRow(0)[k] != -1
      ensures 0 <= NRow(0)[k] < OrbitCount && NType2GType(NRow(0)[k]) == 0
    {
      assert k == 3 || k == 4;
    }
  }

  lemma Row1Consistent()
    ensures RowConsistent(1)
  {
    forall k | 0 <= k < |NRow(1)| && NRow(1)[k] != -1
      ensures 0 <= NRow(1)[k] < OrbitCount && NType2GType(NRow(1)[k]) == 1
    {
      assert k == 6;
    }
  }

  lemma Row2Consistent()
    ensures RowConsistent(2)
  {
    forall k | 0 <= k < |NRow(2)| && NRow(2)[k] != -1
      ensures 0 <= NRow(2)[k] < OrbitCount && NType2GType(NRow(2)[k]) == 2
    {
      assert k == 3 || k == 5;
    }
  }

  lemma Row3Consistent()
    ensures RowConsistent(3)
  {
    forall k | 0 <= k < |NRow(3)| && NRow(3)[k] != -1
      ensures 0 <= NRow(3)[k] < OrbitCount && NType2GType(NRow(3)[k]) == 3
    {
      assert k == 4 || k == 6;
    }
  }

  lemma Row4Consistent()
    ensures RowConsistent(4)
  {
    forall k | 0 <= k < |NRow(4)| && NRow(4)[k] != -1
      ensures 0 <= NRow(4)[k] < OrbitCount && NType2GType(NRow(4)[k]) == 4
    {
      assert k == 6;
    }
  }

  lemma Row5Consistent()
    ensures RowConsistent(5)
  {
    forall k | 0 <= k < |NRow(5)| && NRow(5)[k] != -1
      ensures 0 <= NRow(5)[k] < OrbitCount && NType2GType(NRow(5)[k]) == 5
    {
      assert k == 4 || k == 7 || k == 8;
    }
  }

  lemma Row6Consistent()
    ensures RowConsistent(6)
  {
    forall k | 0 <= k < |NRow(6)| && NRow(6)[k] != -1
      ensures 0 <= NRow(6)[k] < OrbitCount && NType2GType(NRow(6)[k]) == 6
    {
      assert k == 8 || k == 10;
    }
  }

  lemma Row7Consistent()
    ensures RowConsistent(7)
  {
    forall k | 0 <= k < |NRow(7)| && NRow(7)[k] != -1
      ensures 0 <= NRow(7)[k] < OrbitCount && NType2GType(NRow(7)[k]) == 7
    {
      assert k == 12;
    }
  }

  lemma Row8Consistent()
    ensures RowConsistent(8)
  {
    forall k | 0 <= k < |NRow(8)| && NRow(8)[k] != -1
      ensures 0 <= NRow(8)[k] < OrbitCount && NType2GType(NRow(8)[k]) == 8
    {
      assert k == 3 || k == 5 || k == 6;
    }
  }

  lemma Row9Consistent()
    ensures RowConsistent(9)
  {
    forall k | 0 <= k < |NRow(9)| && NRow(9)[k] != -1
      ensures 0 <= NRow(9)[k] < OrbitCount && NType2GType(NRow(9)[k]) == 9
    {
      assert k == 3 || k == 4 || k == 6 || k == 7;
    }
  }

  lemma Row10Consistent()
    ensures RowConsistent(10)
  {
    forall k | 0 <= k < |NRow(10)| && NRow(10)[k] != -1
      ensures 0 <= NRow(10)[k] < OrbitCount && NType2GType(NRow(10)[k]) == 10
    {
      assert k == 5 || k == 8;
    }
  }

  lemma Row11Consistent()
    ensures RowConsistent(11)
  {
    forall k | 0 <= k < |NRow(11)| && NRow(11)[k] != -1
      ensures 0 <= NRow(11)[k] < OrbitCount && NType2GType(NRow(11)[k]) == 11
    {
      assert k == 4 || k == 8 || k == 9;
    }
  }

  lemma Row12Consistent()
    ensures RowConsistent(12)
  {
    forall k | 0 <= k < |NRow(12)| && NRow(12)[k] != -1
      ensures 0 <= NRow(12)[k] < OrbitCount && NType2GType(NRow(12)[k]) == 12
    {
      assert k == 3 || k == 6 || k == 7 || k == 9;
    }
  }

  lemma Row13Consistent()
    ensures RowConsistent(13)
  {
    forall k | 0 <= k < |NRow(13)| && NRow(13)[k] != -1
      ensures 0 <= NRow(13)[k] < OrbitCount && NType2GType(NRow(13)[k]) == 13
    {
      assert k == 5 || k == 8 || k == 10;
    }
  }

  lemma Row14Consistent()
    ensures RowConsistent(14)
  {
    forall k | 0 <= k < |NRow(14)| && NRow(14)[k] != -1
      ensures 0 <= NRow(14)[k] < OrbitCount && NType2GType(NRow(14)[k]) == 14
    {
      assert k == 6;
    }
  }

  lemma Row15Consistent()
    ensures RowConsistent(15)
  {
    forall k | 0 <= k < |NRow(15)| && NRow(15)[k] != -1
      ensures 0 <= NRow(15)[k] < OrbitCount && NType2GType(NRow(15)[k]) == 15
    {
      assert k == 4 || k == 6 || k == 7 || k == 8;
    }
  }

  lemma Row16Consistent()
    ensures RowConsistent(16)
  {
    forall k | 0 <= k < |NRow(16)| && NRow(16)[k] != -1
      ensures 0 <= NRow(16)[k] < OrbitCount && NType2GType(NRow(16)[k]) == 16
    {
      assert k == 5 || k == 9 || k == 11 || k == 12;
    }
  }

  lemma Row17Consistent()
    ensures RowConsistent(17)
  {
    forall k | 0 <= k < |NRow(17)| && NRow(17)[k] != -1
      ensures 0 <= NRow(17)[k] < OrbitCount && NType2GType(NRow(17)[k]) == 17
    {
      assert k == 8 || k == 12;
    }
  }

  lemma Row18Consistent()
    ensures RowConsistent(18)
  {
    forall k | 0 <= k < |NRow(18)| && NRow(18)[k] != -1
      ensures 0 <= NRow(18)[k] < OrbitCount && NType2GType(NRow(18)[k]) == 18
    {
      assert k == 4 || k == 8 || k == 10 || k == 11;
    }
  }

  lemma Row19Consistent()
    ensures RowConsistent(19)
  {
    forall k | 0 <= k < |NRow(19)| && NRow(19)[k] != -1
      ensures 0 <= NRow(19)[k] < OrbitCount && NType2GType(NRow(19)[k]) == 19
    {
      assert k == 8 || k == 9;
    }
  }

  lemma Row20Consistent()
    ensures RowConsistent(20)
  {
    forall k | 0 <= k < |NRow(20)| && NRow(20)[k] != -1
      ensures 0 <= NRow(20)[k] < OrbitCount && NType2GType(NRow(20)[k]) == 20
    {
      assert k == 7 || k == 8 || k == 10;
    }
  }

  lemma Row21Consistent()
    ensures RowConsistent(21)
  {
    forall k | 0 <= k < |NRow(21)| && NRow(21)[k] != -1
      ensures 0 <= NRow(21)[k] < OrbitCount && NType2GType(NRow(21)[k]) == 21
    {
      assert k == 10 || k == 14;
    }
  }

  lemma Row22Consistent()
    ensures RowConsistent(22)
  {
    forall k | 0 <= k < |NRow(22)| && NRow(22)[k] != -1
      ensures 0 <= NRow(22)[k] < OrbitCount && NType2GType(NRow(22)[k]) == 22
    {
      assert k == 5 || k == 13 || k == 14;
    }
  }

  lemma Row23Consistent()
    ensures RowConsistent(23)
  {
    forall k | 0 <= k < |NRow(23)| && NRow(23)[k] != -1
      ensures 0 <= NRow(23)[k] < OrbitCount && NType2GType(NRow(23)[k]) == 23
    {
      assert k == 9 || k == 12 || k == 14;
    }
  }

  lemma Row24Consistent()
    ensures RowConsistent(24)
  {
    forall k | 0 <= k < |NRow(24)| && NRow(24)[k] != -1
      ensures 0 <= NRow(24)[k] < OrbitCount && NType2GType(NRow(24)[k]) == 24
    {
      assert k == 8 || k == 11 || k == 12;
    }
  }

  lemma Row25Consistent()
    ensures RowConsistent(25)
  {
    forall k | 0 <= k < |NRow(25)| && NRow(25)[k] != -1
      ensures 0 <= NRow(25)[k] < OrbitCount && NType2GType(NRow(25)[k]) == 25
    {
      assert k == 10 || k == 14 || k == 16;
    }
  }

  lemma Row26Consistent()
    ensures RowConsistent(26)
  {
    forall k | 0 <= k < |NRow(26)| && NRow(26)[k] != -1
      ensures 0 <= NRow(26)[k] < OrbitCount && NType2GType(NRow(26)[k]) == 26
    {
      assert k == 13 || k == 16;
    }
  }

  lemma Row27Consistent()
    ensures RowConsistent(27)
  {
    forall k | 0 <= k < |NRow(27)| && NRow(27)[k] != -1
      ensures 0 <= NRow(27)[k] < OrbitCount && NType2GType(NRow(27)[k]) == 27
    {
      assert k == 15 || k == 18;
    }
  }

  lemma Row28Consistent()
    ensures RowConsistent(28)
  {
    forall k | 0 <= k < |NRow(28)| && NRow(28)[k] != -1
      ensures 0 <= NRow(28)[k] < OrbitCount && NType2GType(NRow(28)[k]) == 28
    {
      assert k == 20;
    }
  }

  /** Table consistency: the orbit that `ntable` gives inside row `g` always belongs to graphlet type `g`. */
  lemma NTableConsistent()
    ensures forall g :: 0 <= g < GraphletTypes ==> RowConsistent(g)
  {
    Row0Consistent();
    Row1Consistent();
    Row2Consistent();
    Row3Consistent();
    Row4Consistent();
    Row5Consistent();
    Row6Consistent();
    Row7Consistent();
    Row8Consistent();
    Row9Consistent();
    Row10Consistent();
    Row11Consistent();
    Row12Consistent();
    Row13Consistent();
    Row14Consistent();
    Row15Consistent();
    Row16Consistent();
    Row17Consistent();
    Row18Consistent();
    Row19Consistent();
    Row20Consistent();
    Row21Consistent();
    Row22Consistent();
    Row23Consistent();
    Row24Consistent();
    Row25Consistent();
    Row26Consistent();
    Row27Consistent();
    Row28Consistent();
    forall g | 0 <= g < GraphletTypes
      ensures RowConsistent(g)
    {
      assert g == 0 || g == 1 || g == 2 || g == 3 || g == 4 || g == 5 || g == 6 || g == 7
        || g == 8 || g == 9 || g == 10 || g == 11 || g == 12 || g == 13 || g == 14 || g == 15
        || g == 16 || g == 17 || g == 18 || g == 19 || g == 20 || g == 21 || g == 22 || g == 23
        || g == 24 || g == 25 || g == 26 || g == 27 || g == 28;
    }
  }
}
