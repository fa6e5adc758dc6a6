/** Cutting a matrix dimension into tiles, and the flattened offsets of the tiled layouts. */
module Tiling {
  import opened Arithmetic
  import opened Commands

  /** Number of tiles of size d that cover n. */
  function Tiles(n: int, d: int): int
    requires n >= 1 && d >= 1
  {
    (n - 1) / d + 1
  }

  /** A tile index is past the end exactly when its first element is. */
  lemma {:induction false} TilesCover(n: int, d: int, x: int)
    requires n >= 1 && d >= 1
    ensures x * d >= n <==> x >= Tiles(n, d)
    ensures Tiles(n, d) >= 1
  {
    var q := (n - 1) / d;
    assert n - 1 == q * d + (n - 1) % d;
    assert (q + 1) * d == q * d + d;
    if x >= q + 1 {
      MulLe(q + 1, x, d);
    } else {
      MulLe(x, q, d);
    }
    if q < 0 {
      MulLe(q, -1, d);
    }
  }

  /** Elements before tile m, and elements in tile m; the last tile may be partial. */
  function Before(n: int, d: int, m: int): int { Min(m * d, n) }

  function Size(n: int, d: int, m: int): int { Before(n, d, m + 1) - Before(n, d, m) }

  /** For a tile inside the range the code's own formula gives the size. */
  lemma {:induction false} SizeFormula(n: int, d: int, m: int)
    requires n >= 1 && d >= 1 && 0 <= m < Tiles(n, d)
    ensures Before(n, d, m) == m * d && 1 <= Size(n, d, m) <= d
    ensures Size(n, d, m) == if n < d * (m + 1) then n % d else d
    ensures m + 1 == Tiles(n, d) <==> m * d + Size(n, d, m) == n
  {
    TilesCover(n, d, m);
    TilesCover(n, d, m + 1);
    assert (m + 1) * d == m * d + d;
    if n < d * (m + 1) {
      DivUnique(n, d, m);
    }
  }

  /** Offset of element i of copy v of tile m, when every tile is stored as copies consecutive copies. */
  function Offset(n: int, d: int, copies: int, m: int, v: int, i: int): int {
    Before(n, d, m) * copies + (v * Size(n, d, m) + i)
  }

  ghost predicate InTile(n: int, d: int, copies: int, m: int, v: int, i: int)
    requires n >= 1 && d >= 1
  {
    0 <= m < Tiles(n, d) && 0 <= v < copies && 0 <= i < Size(n, d, m)
  }

  /** All of tile m lies between the starts of tile m and tile m + 1. */
  lemma {:induction false} OffsetInside(n: int, d: int, copies: int, m: int, v: int, i: int)
    requires n >= 1 && d >= 1 && InTile(n, d, copies, m, v, i)
    ensures Before(n, d, m) * copies <= Offset(n, d, copies, m, v, i) < Before(n, d, m + 1) * copies
    ensures 0 <= Offset(n, d, copies, m, v, i) < n * copies
  {
    var s := Size(n, d, m);
    SizeFormula(n, d, m);
    DigitsBound(v, i, copies, s);
    assert Before(n, d, m + 1) * copies == Before(n, d, m) * copies + copies * s;
    MulLe(0, Before(n, d, m), copies);
    MulLe(Before(n, d, m + 1), n, copies);
  }

  /** Different places have different offsets. */
  lemma {:induction false} OffsetInjective(n: int, d: int, copies: int, m: int, v: int, i: int, m': int, v': int,
                                          i': int)
    requires n >= 1 && d >= 1 && InTile(n, d, copies, m, v, i) && InTile(n, d, copies, m', v', i')
    requires Offset(n, d, copies, m, v, i) == Offset(n, d, copies, m', v', i')
    ensures m == m' && v == v' && i == i'
  {
    OffsetInside(n, d, copies, m, v, i);
    OffsetInside(n, d, copies, m', v', i');
    if m < m' {
      BeforeMonotone(n, d, m + 1, m');
      MulLe(Before(n, d, m + 1), Before(n, d, m'), copies);
    } else if m' < m {
      BeforeMonotone(n, d, m' + 1, m);
      MulLe(Before(n, d, m' + 1), Before(n, d, m), copies);
    } else {
      MixedRadix(v, i, Size(n, d, m));
      MixedRadix(v', i', Size(n, d, m));
    }
  }

  lemma {:induction false} BeforeMonotone(n: int, d: int, m: int, m': int)
    requires d >= 1 && m <= m'
    ensures Before(n, d, m) <= Before(n, d, m')
  {
    MulLe(m, m', d);
  }

  /** Every offset below n * copies belongs to some place: the layout has no holes. */
  lemma {:induction false} OffsetOnto(n: int, d: int, copies: int, r: int) returns (m: int, v: int, i: int)
    requires n >= 1 && d >= 1 && copies >= 1 && 0 <= r < n * copies
    ensures InTile(n, d, copies, m, v, i) && Offset(n, d, copies, m, v, i) == r
  {
    var x := r / copies;
    DivBounds(r, n, copies);
    m := TileOf(n, d, x);
    var lo, s := Before(n, d, m), Size(n, d, m);
    RowsBetween(lo, x, lo + s, r % copies, copies);
    v, i := (r - lo * copies) / s, (r - lo * copies) % s;
    DivBounds(r - lo * copies, copies, s);
  }

  /** Every element lies in a tile. */
  lemma {:induction false} TileOf(n: int, d: int, x: int) returns (m: int)
    requires d >= 1 && 0 <= x < n
    ensures 0 <= m < Tiles(n, d) && Before(n, d, m) <= x < Before(n, d, m + 1)
  {
    m := x / d;
    assert x == m * d + x % d && (m + 1) * d == m * d + d;
    assert m >= 0;
    TilesCover(n, d, m);
  }

  lemma {:induction false} RowsBetween(lo: int, x: int, hi: int, rest: int, copies: int)
    requires lo <= x < hi && 0 <= rest < copies
    ensures 0 <= x * copies + rest - lo * copies < copies * (hi - lo)
  {
    MulLe(lo, x, copies);
    MulLe(x + 1, hi, copies);
    assert (x + 1) * copies == x * copies + copies;
    assert copies * (hi - lo) == hi * copies - lo * copies;
  }

  /** Places follow each other without gaps: element by element, copy by copy, tile by tile. */
  lemma {:induction false} OffsetNext(n: int, d: int, copies: int, m: int, v: int)
    requires n >= 1 && d >= 1 && 0 <= m < Tiles(n, d) && 0 <= v < copies
    ensures Offset(n, d, copies, m, v, Size(n, d, m)) ==
      if v + 1 < copies then Offset(n, d, copies, m, v + 1, 0) else Before(n, d, m + 1) * copies
  {
    var s := Size(n, d, m);
    assert (v + 1) * s == v * s + s;
    assert Before(n, d, m + 1) * copies == Before(n, d, m) * copies + copies * s;
  }

  /** Splitting a pair index into its two digits, in order. */
  lemma {:induction false} PairNext(a: int, b: int, na: int, nb: int)
    requires 0 <= a < na && 0 <= b < nb
    ensures 0 <= a * nb + b < na * nb
    ensures b + 1 == nb ==> a * nb + b + 1 == (a + 1) * nb
    ensures a + 1 == na && b + 1 == nb <==> a * nb + b + 1 == na * nb
  {
    DigitsBound(a, b, na, nb);
    assert (a + 1) * nb == a * nb + nb;
    if a + 1 < na {
      MulLe(a + 2, na, nb);
      assert (a + 2) * nb == a * nb + nb + nb;
    }
  }
}
