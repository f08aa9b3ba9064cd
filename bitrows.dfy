/**
 * The adjacency matrix of src/graphcrunch.cpp: one row of `V / 8 + 1`
 * bytes per node, where column `j` is bit `j % 8` of byte `j / 8`
 * (the `Connect` and `Connected` macros).
 */
module BitRows {

  /** The byte with only bit `k` set. */
  function Mask(k: nat): bv8
    requires k < 8
  {
    match k
    case 0 => 0x01
    case 1 => 0x02
    case 2 => 0x04
    case 3 => 0x08
    case 4 => 0x10
    case 5 => 0x20
    case 6 => 0x40
    case 7 => 0x80
  }

  /** `Mask(k)` is the shift `1 << k` the `Connect` and `Connected` macros use. */
  lemma MaskIsShift(k: nat)
    requires k < 8
    ensures Mask(k) == (1 as bv8) << k
  {
  }

  /** Setting bit `k` of a byte leaves every other bit as it was. */
  lemma SetBit(b: bv8, k: nat, m: nat)
    requires k < 8 && m < 8
    ensures ((b | Mask(k)) & Mask(m) != 0) == ((b & Mask(m) != 0) || k == m)
  {
  }

  /** A zero byte has no bit set. */
  lemma ZeroByte(m: nat)
    requires m < 8
    ensures (0 as bv8) & Mask(m) == 0
  {
  }

  class BitMatrix {
    /** The number of rows and columns: the program's `V` after `V++`. */
    const n: nat
    const rows: array2<bv8>

    ghost predicate Valid()
      reads this
    {
      rows.Length0 == n && rows.Length1 == n / 8 + 1
    }

    /** The value of `Connected(i, j)` in the program: the bit, still in its place in the byte. */
    function Value(i: nat, j: nat): (v: int)
      requires Valid() && i < n && j < n
      reads this, rows
      ensures 0 <= v < 256
      ensures v == 0 <==> !Connected(i, j)
    {
      (rows[i, j / 8] & Mask(j % 8)) as int
    }

    /** Bit `j` of row `i` is set: `Connected(i, j)` is non-zero. */
    predicate Connected(i: nat, j: nat)
      requires Valid() && i < n && j < n
      reads this, rows
    {
      rows[i, j / 8] & Mask(j % 8) != 0
    }

    /** Every row zeroed, as `calloc` returns it. */
    constructor (n: nat)
      ensures Valid() && this.n == n && fresh(rows)
      ensures forall i, j :: 0 <= i < n && 0 <= j < n ==> !Connected(i, j)
    {
      this.n := n;
      rows := new bv8[n, n / 8 + 1]((_, _) => 0);
      new;
      forall i, j | 0 <= i < n && 0 <= j < n
        ensures !Connected(i, j)
      {
        ZeroByte(j % 8);
      }
    }

    /** `Connect(i, j)`: sets bit `j` of row `i` and no other. */
    method Connect(i: nat, j: nat)
      requires Valid() && i < n && j < n
      modifies rows
      ensures Valid()
      ensures Connected(i, j)
      ensures forall x, y :: 0 <= x < n && 0 <= y < n && !(x == i && y == j) ==>
        Connected(x, y) == old(Connected(x, y))
    {
      var before := rows[i, j / 8];
      rows[i, j / 8] := before | Mask(j % 8);
      SetBit(before, j % 8, j % 8);
      forall x, y | 0 <= x < n && 0 <= y < n && !(x == i && y == j)
        ensures Connected(x, y) == old(Connected(x, y))
      {
        if x == i && y / 8 == j / 8 {
          SetBit(before, j % 8, y % 8);
        }
      }
    }
  }
}
