/** One matrix multiplication as the PIM scheduler sees it: sizes, tiles, waits and step numbers. */
module PimPlans {
  import opened Arithmetic
  import opened Commands
  import opened Tiling

  /** M x K times K x N on one partition with stationary weights; mt is the accumulation depth. */
  datatype Plan = Plan(M: int, K: int, N: int, mt: int, channels: int, banks: int, mc: int,
                       tCCD_L: nat, tRCDRD: nat, tRCDWR: nat)
  {
    predicate Good() {
      && M >= 1 && K >= 1 && N >= 1 && mt > 128 && channels >= 1 && mc >= 1
      && banks / 8 >= 1 && 128 % (banks / 8) == 0
    }

    function Kt(): int { Min(channels * 16, K) }

    /** Weight vectors that one bank supplies to a tile. */
    function PerBank(): int
      requires banks / 8 != 0
    {
      Min(N, 127 / (banks / 8) + 1)
    }

    function NM(): int requires Good() { Tiles(M, mt) }
    function NN(): int requires Good() { Tiles(N, 128) }
    function NK(): int requires Good() { Tiles(K, Kt()) }

    /** Cycles the array needs before a new tile may be loaded, and before an output tile is ready. */
    function InWait(): int requires Good() { Max(1, tCCD_L * Max(128 / mc, 16) - tRCDRD) }
    function OutWait(): int { Max(1, tCCD_L * (3 + 16) - tRCDWR) }

    /** Cycles of one visit in row tile m that is never held up: loading, turning, streaming, waiting. */
    function PassTime(m: int): int requires Good() { Rows(m) + InWait() + PerBank() + 1 }

    /** The fewest cycles between the first rows of two output tiles in succession. */
    function Spacing(): int
      requires Good()
    {
      (if NN() >= 2 then Rows(NM() - 1) else mt) + (NK() - 1) * Rows(NM() - 1) + NK() * (InWait() + PerBank() + 1)
    }

    /** There is one output tile, or the output wait is over before the next tile can start. */
    predicate Paced() requires Good() { NM() * NN() == 1 || OutWait() < Spacing() }

    function Rows(m: int): int { Size(M, mt, m) }

    /** Place of a step in the whole run. */
    function LoadPos(m: int, n: int, k: int, i: int): int
      requires Good()
    {
      ((m * NN() + n) * NK() + k) * PerBank() + i
    }

    function StreamPos(m: int, n: int, k: int, i: int): int
      requires Good()
    {
      Offset(M, mt, NN() * NK(), m, n * NK() + k, i)
    }

    function OutPos(m: int, n: int, i: int): int
      requires Good()
    {
      Offset(M, mt, NN(), m, n, i)
    }

    /** Place of a vector in its bank. */
    function WeightOffset(n: int, k: int, i: int): int
      requires Good()
    {
      (n * NK() + k) * PerBank() + i
    }

    function InputOffset(m: int, k: int, i: int): int
      requires Good()
    {
      Offset(M, mt, NK(), m, k, i)
    }

    ghost predicate Visit(m: int, n: int, k: int)
      requires Good()
    {
      0 <= m < NM() && 0 <= n < NN() && 0 <= k < NK()
    }
  }

  lemma {:induction false} PerBankDivides(p: Plan)
    requires p.Good()
    ensures 1 <= p.PerBank() <= 128
    ensures p.PerBank() == p.N < 128 || 128 % p.PerBank() == 0
  {
    var w := p.banks / 8;
    var q := 128 / w;
    assert 128 == q * w;
    assert 127 == (q - 1) * w + (w - 1);
    DivUnique(127, w, q - 1);
    assert q >= 1;
    if p.PerBank() == q {
      DivUnique(128, q, w);
    }
  }

  /** Column offset of the next weight vector, and the loading loop's exit test, as functions of the
      iterators. */
  function LoadColumn(p: Plan, nIt: int, kIt: int): int
    requires p.Good()
  {
    (nIt / 128) * (p.PerBank() * Tiles(p.K, p.Kt())) + kIt * p.PerBank() + nIt % 128
  }

  predicate LoadDone(p: Plan, nIt: int)
    requires p.Good()
    ensures p.PerBank() != 0
  {
    PerBankDivides(p);
    nIt % p.PerBank() == 0 && (128 == p.PerBank() || nIt % 128 != 0)
  }

  /** The loading loop leaves exactly after PerBank vectors. */
  lemma {:induction false} LoadExit(p: Plan, n: int, i: int)
    requires p.Good() && 0 <= n < p.NN() && 0 <= i < p.PerBank()
    ensures (128 * n + i) / 128 == n && (128 * n + i) % 128 == i
    ensures LoadDone(p, 128 * n + i + 1) <==> i + 1 == p.PerBank()
  {
    PerBankDivides(p);
    MixedRadix(n, i, 128);
    if p.PerBank() == p.N && p.N < 128 {
      TilesCover(p.N, 128, 1);
      SmallMod(i + 1, p.N);
      SmallMod(i + 1, 128);
    } else {
      WholeTileExit(n, i, p.PerBank());
    }
  }

  lemma {:induction false} WholeTileExit(n: int, i: int, b: int)
    requires 0 <= i < b <= 128 && 128 % b == 0
    ensures (128 * n + i + 1) % b == 0 && (128 == b || (128 * n + i + 1) % 128 != 0) <==> i + 1 == b
  {
    var q := 128 / b;
    assert 128 == q * b;
    assert 128 * n + i + 1 == (q * n) * b + (i + 1) by {
      assert (q * n) * b == (q * b) * n;
    }
    ModShift(q * n, i + 1, b);
    SmallMod(i + 1, b);
    if i + 1 == b && b < 128 {
      MixedRadix(n, i + 1, 128);
    }
  }

  /** The code's column offset of a weight vector is its place in the layout. */
  lemma {:induction false} LoadPlace(p: Plan, n: int, k: int, i: int)
    requires p.Good() && 0 <= n < p.NN() && 0 <= i < p.PerBank()
    ensures LoadColumn(p, 128 * n + i, k) == p.WeightOffset(n, k, i)
  {
    var b, nk := p.PerBank(), p.NK();
    PerBankDivides(p);
    MixedRadix(n, i, 128);
    assert n * (b * nk) == (n * nk) * b;
    assert (n * nk + k) * b == (n * nk) * b + k * b;
  }

  lemma {:induction false} SmallMod(x: int, d: int)
    requires 1 <= x <= d
    ensures x % d == if x == d then 0 else x
  {
    if x == d {
      DivUnique(x, d, 1);
    } else {
      DivUnique(x, d, 0);
    }
  }

  lemma {:induction false} ModShift(q: int, x: int, d: int)
    requires d >= 1
    ensures (q * d + x) % d == x % d
  {
    var r := x / d;
    assert x == r * d + x % d;
    assert (q + r) * d == q * d + r * d;
    DivUnique(q * d + x, d, q + r);
  }

  /** Tile of a row iterator, rows of that tile, column offset of the row, and the exit test. */
  function RowTile(p: Plan, mIt: int): int requires p.Good() { mIt / p.mt }

  function RowColumn(p: Plan, copies: int, v: int, mIt: int): int
    requires p.Good()
  {
    var tile := mIt / p.mt;
    var rows := if p.M < p.mt * (tile + 1) then p.M % p.mt else p.mt;
    tile * (p.mt * copies) + v * rows + mIt % p.mt
  }

  predicate RowDone(p: Plan, mIt: int) requires p.Good() { mIt % p.mt == 0 || mIt == p.M }

  predicate RowFirst(p: Plan, mIt: int) requires p.Good() { mIt % p.mt == 0 }

  /** The streaming and writing loops leave a tile exactly after its last row. */
  lemma {:induction false} RowExit(p: Plan, m: int, i: int)
    requires p.Good() && 0 <= m < p.NM() && 0 <= i < p.Rows(m)
    ensures RowTile(p, p.mt * m + i) == m && (RowFirst(p, p.mt * m + i) <==> i == 0)
    ensures RowDone(p, p.mt * m + i + 1) <==> i + 1 == p.Rows(m)
  {
    SizeFormula(p.M, p.mt, m);
    MixedRadix(m, i, p.mt);
    ModShift(m, i + 1, p.mt);
    SmallMod(i + 1, p.mt);
  }

  lemma {:induction false} RowPlace(p: Plan, copies: int, m: int, v: int, i: int)
    requires p.Good() && 0 <= m < p.NM() && 0 <= i < p.Rows(m)
    ensures RowColumn(p, copies, v, p.mt * m + i) == Offset(p.M, p.mt, copies, m, v, i)
  {
    SizeFormula(p.M, p.mt, m);
    MixedRadix(m, i, p.mt);
    assert m * (p.mt * copies) == (m * p.mt) * copies;
  }

  lemma {:induction false} WaitsPositive(p: Plan)
    requires p.Good()
    ensures p.InWait() >= 1 && p.OutWait() >= 1
  {
  }

  /** The visit after (m, n, k), in the order of the nested iterators. */
  datatype Triple = Triple(m: int, n: int, k: int)

  function NextVisit(p: Plan, t: Triple): Triple
    requires p.Good()
  {
    if t.k + 1 < p.NK() then Triple(t.m, t.n, t.k + 1)
    else if t.n + 1 < p.NN() then Triple(t.m, t.n + 1, 0)
    else Triple(t.m + 1, 0, 0)
  }

  /** A finished visit ends where the next one starts, in both numberings. */
  lemma {:induction false} VisitsFollow(p: Plan, t: Triple)
    requires p.Good() && p.Visit(t.m, t.n, t.k)
    ensures var u := NextVisit(p, t); p.LoadPos(t.m, t.n, t.k, p.PerBank()) == p.LoadPos(u.m, u.n, u.k, 0)
    ensures var u := NextVisit(p, t); p.StreamPos(t.m, t.n, t.k, p.Rows(t.m)) == p.StreamPos(u.m, u.n, u.k, 0)
  {
    LoadsFollow(p, t);
    PairNext(t.n, t.k, p.NN(), p.NK());
    OffsetNext(p.M, p.mt, p.NN() * p.NK(), t.m, t.n * p.NK() + t.k);
    var u := NextVisit(p, t);
    if u.m != t.m {
      assert u.n * p.NK() + u.k == 0;
    } else {
      assert u.n * p.NK() + u.k == t.n * p.NK() + t.k + 1;
    }
  }

  lemma {:induction false} LoadsFollow(p: Plan, t: Triple)
    requires p.Good() && p.Visit(t.m, t.n, t.k)
    ensures var u := NextVisit(p, t); p.LoadPos(t.m, t.n, t.k, p.PerBank()) == p.LoadPos(u.m, u.n, u.k, 0)
  {
    var nn, nk, u := p.NN(), p.NK(), NextVisit(p, t);
    var a, b := (t.m * nn + t.n) * nk + t.k, (u.m * nn + u.n) * nk + u.k;
    assert b == a + 1 by {
      assert (t.m * nn + t.n + 1) * nk == (t.m * nn + t.n) * nk + nk;
      assert (t.m + 1) * nn == t.m * nn + nn;
    }
    assert (a + 1) * p.PerBank() == a * p.PerBank() + p.PerBank();
  }

  /** No row tile is smaller than the last one. */
  lemma {:induction false} LastRowsLeast(p: Plan, m: int)
    requires p.Good() && 0 <= m < p.NM()
    ensures 1 <= p.Rows(p.NM() - 1) <= p.Rows(m)
  {
    SizeFormula(p.M, p.mt, m);
    SizeFormula(p.M, p.mt, p.NM() - 1);
    if m < p.NM() - 1 {
      TilesCover(p.M, p.mt, m + 1);
      assert (m + 1) * p.mt < p.M;
    }
  }

  /** Cycles of the visits that stand between inner tile k and the last one, in row tile m. */
  function Ahead(p: Plan, m: int, k: int): int requires p.Good() { (p.NK() - 1 - k) * p.PassTime(m) }

  lemma {:induction false} AheadNext(p: Plan, m: int, k: int)
    requires p.Good()
    ensures k + 1 == p.NK() ==> Ahead(p, m, k) == 0
    ensures Ahead(p, m, k) == Ahead(p, m, k + 1) + p.PassTime(m)
  {
    var a, b := p.NK() - 2 - k, p.PassTime(m);
    assert (a + 1) * b == a * b + b;
  }

  /** From the first row of an output tile to the first row of the next one. */
  lemma {:induction false} SpacingLeast(p: Plan, m: int, n: int)
    requires p.Good() && 0 <= m < p.NM() && 0 <= n < p.NN() && (n + 1 < p.NN() || m + 1 < p.NM())
    ensures p.Spacing() <= p.PassTime(m) + Ahead(p, if n + 1 < p.NN() then m else m + 1, 0)
  {
    hide p.InWait, p.NN, p.NM, p.NK, p.PerBank, p.Rows, p.Kt;
    var m' := if n + 1 < p.NN() then m else m + 1;
    LastRowsLeast(p, m);
    LastRowsLeast(p, m');
    IteratorTests(p, m, n, 0);
    if p.NN() == 1 {
      FullRows(p, m);
    }
    var r, w := p.Rows(p.NM() - 1), p.InWait() + p.PerBank() + 1;
    SpacingSum(p.NK() - 1, w, if p.NN() >= 2 then r else p.mt, r, p.Rows(m), p.Rows(m'));
  }

  lemma {:induction false} SpacingSum(a: int, w: int, f: int, r: int, f': int, r': int)
    requires a >= 0 && f <= f' && r <= r'
    ensures f + a * r + (a + 1) * w <= f' + w + a * (r' + w)
  {
    MulLe(r, r', a);
    assert a * (r' + w) == r' * a + a * w;
    assert (a + 1) * w == a * w + w;
  }

  lemma {:induction false} FullRows(p: Plan, m: int)
    requires p.Good() && 0 <= m < p.NM() - 1
    ensures p.Rows(m) == p.mt
  {
    TilesCover(p.M, p.mt, m + 1);
    assert p.mt * (m + 1) == p.mt * m + p.mt;
  }

  /** Several output tiles have a second row tile or a second column tile. */
  lemma {:induction false} OneTileOnly(p: Plan)
    requires p.Good()
    ensures p.NM() >= 1 && p.NN() >= 1
    ensures p.NM() * p.NN() == 1 <==> p.NM() == 1 && p.NN() == 1
  {
    TilesCover(p.M, p.mt, 0);
    TilesCover(p.N, 128, 0);
    if p.NM() >= 2 {
      MulLe(2, p.NM(), p.NN());
    }
  }

  /** Where the sweep stands: its phase, the visit, vectors loaded or rows streamed in it, array wait. */
  datatype Spot = Spot(status: int, m: int, n: int, k: int, i: int, wait: int)

  /** The last pass of an output tile has begun. */
  predicate Begins(p: Plan, a: Spot) requires p.Good() { a.status == 2 && a.k + 1 == p.NK() && a.i > 0 }

  /** Another output tile is still to be started. */
  predicate MoreTiles(p: Plan, a: Spot)
    requires p.Good()
  {
    a.m < p.NM() && (Begins(p, a) ==> a.n + 1 < p.NN() || a.m + 1 < p.NM())
  }

  /** At least this many cycles pass up to and including the first row of the next output tile. */
  function Due(p: Plan, a: Spot): int
    requires p.Good()
  {
    if Begins(p, a) then p.PassTime(a.m) - a.i + 1 + Ahead(p, if a.n + 1 < p.NN() then a.m else a.m + 1, 0)
    else Ahead(p, a.m, a.k)
         + if a.status == 0 then p.PerBank() + 2 - a.i
           else if a.status == 1 then 2
           else if a.status == 2 then 1 - a.i
           else a.wait + p.PerBank() + 2
  }

  /** The output count runs out before the next output tile starts. */
  predicate RunsOut(p: Plan, a: Spot, out: int)
    requires p.Good()
  {
    MoreTiles(p, a) ==> out <= Max(-1, Due(p, a) - 2)
  }

  /** One count down, which stays at -1. */
  function Less(out: int): int { if out == -1 then -1 else out - 1 }

  /** Streaming a row keeps the output count ahead of the next output tile, and finds it run out when
      it starts one. */
  lemma {:induction false} RowPace(p: Plan, a: Spot, out: int)
    requires p.Good() && p.Paced() && p.Visit(a.m, a.n, a.k) && a.status == 2 && 0 <= a.i < p.Rows(a.m)
    requires out >= -1 && RunsOut(p, a, out)
    ensures a.k + 1 == p.NK() && a.i == 0 ==> out == -1
    ensures var now := Less(if a.k + 1 == p.NK() && a.i == 0 then p.OutWait() else out);
      if a.i + 1 < p.Rows(a.m) then RunsOut(p, a.(i := a.i + 1), now)
      else var u := NextVisit(p, Triple(a.m, a.n, a.k));
        RunsOut(p, Spot(3, u.m, u.n, u.k, 0, if u.m == p.NM() then -1 else p.InWait()), now)
  {
    hide p.InWait, p.OutWait, p.NN, p.NM, p.NK, p.PerBank, p.Rows, Ahead, p.Paced, p.Spacing;
    IteratorTests(p, a.m, a.n, a.k);
    WaitsPositive(p);
    AheadNext(p, a.m, a.k);
    if a.k + 1 == p.NK() && a.i == 0 && (a.n + 1 < p.NN() || a.m + 1 < p.NM()) {
      StartPace(p, a.m, a.n);
    }
  }

  lemma {:induction false} StartPace(p: Plan, m: int, n: int)
    requires p.Good() && p.Paced() && 0 <= m < p.NM() && 0 <= n < p.NN() && (n + 1 < p.NN() || m + 1 < p.NM())
    ensures p.OutWait() < p.PassTime(m) + Ahead(p, if n + 1 < p.NN() then m else m + 1, 0)
  {
    hide p.InWait, p.OutWait, p.NN, p.NM, p.NK, p.PerBank, p.Rows, Ahead, p.Spacing, p.PassTime;
    OneTileOnly(p);
    SpacingLeast(p, m, n);
  }

  /** Number of output tiles before tile (m, n). */
  function TileNo(p: Plan, m: int, n: int): int requires p.Good() { m * p.NN() + n }

  ghost predicate TileOrEnd(p: Plan, m: int, n: int)
    requires p.Good()
  {
    (0 <= m < p.NM() && 0 <= n < p.NN()) || (m == p.NM() && n == 0)
  }

  /** Tiles count up to NM * NN, which is reached exactly past the last tile. */
  lemma {:induction false} TileCount(p: Plan, m: int, n: int)
    requires p.Good() && TileOrEnd(p, m, n)
    ensures 0 <= TileNo(p, m, n) <= p.NM() * p.NN()
    ensures TileNo(p, m, n) == p.NM() * p.NN() <==> m == p.NM()
  {
    TilesCover(p.M, p.mt, 0);
    TilesCover(p.N, 128, 0);
    if m < p.NM() {
      DigitsBound(m, n, p.NM(), p.NN());
    }
    MulLe(0, p.NM(), p.NN());
  }

  lemma {:induction false} TileNext(p: Plan, m: int, n: int)
    requires p.Good()
    ensures TileNo(p, m, n + 1) == TileNo(p, m, n) + 1
    ensures n + 1 == p.NN() ==> TileNo(p, m + 1, 0) == TileNo(p, m, n) + 1
  {
    assert (m + 1) * p.NN() == m * p.NN() + p.NN();
  }

  lemma {:induction false} NextTileNo(p: Plan, t: Triple)
    requires p.Good() && p.Visit(t.m, t.n, t.k)
    ensures var u := NextVisit(p, t); TileNo(p, u.m, u.n) == TileNo(p, t.m, t.n) + if t.k + 1 == p.NK() then 1 else 0
  {
    TileNext(p, t.m, t.n);
  }

  /** Which way the nested iterators go, and where they may be. */
  lemma {:induction false} IteratorTests(p: Plan, m: int, n: int, k: int)
    requires p.Good()
    ensures p.NM() >= 1 && p.NN() >= 1 && p.NK() >= 1 && p.PerBank() >= 1
    ensures 0 <= m < p.NM() ==> p.Rows(m) >= 1
    ensures k * p.Kt() >= p.K <==> k >= p.NK()
    ensures 128 * n >= p.N <==> n >= p.NN()
    ensures p.mt * m >= p.M <==> m >= p.NM()
  {
    TilesCover(p.K, p.Kt(), k);
    TilesCover(p.N, 128, n);
    TilesCover(p.M, p.mt, m);
    PerBankDivides(p);
    if 0 <= m < p.NM() {
      SizeFormula(p.M, p.mt, m);
    }
  }

  /** Writing the last row of an output tile ends where the next tile starts. */
  lemma {:induction false} OutputsFollow(p: Plan, m: int, n: int)
    requires p.Good() && 0 <= m < p.NM() && 0 <= n < p.NN()
    ensures n + 1 < p.NN() ==> p.OutPos(m, n, p.Rows(m)) == p.OutPos(m, n + 1, 0)
    ensures n + 1 == p.NN() ==> p.OutPos(m, n, p.Rows(m)) == p.OutPos(m + 1, 0, 0)
  {
    OffsetNext(p.M, p.mt, p.NN(), m, n);
  }

  /** Once the sweep stands at a later output tile, every pass of an earlier one has been streamed. */
  lemma {:induction false} StreamsBehind(p: Plan, m: int, n: int, m': int, n': int, k: int)
    requires p.Good() && 0 <= m < p.NM() && 0 <= n < p.NN() && 0 <= k && TileOrEnd(p, m', n')
    requires TileNo(p, m, n) < TileNo(p, m', n')
    ensures p.StreamPos(m, n, p.NK() - 1, p.Rows(m)) <= p.StreamPos(m', n', k, 0)
  {
    hide p.NN, p.NK, p.NM, p.Kt, Size, Before, TileNo;
    IteratorTests(p, m, 0, 0);
    TilesInOrder(p, m, n, m', n');
    if m == m' {
      PassBehind(p.NK(), n, n', k, p.Rows(m));
    } else {
      RowsBefore(p, m, m');
      TileBehind(p.NK(), p.NN(), n, p.Rows(m), Before(p.M, p.mt, m), Before(p.M, p.mt, m'));
      MulLe(0, n', p.NK());
      MulLe(0, n' * p.NK() + k, p.Rows(m'));
    }
  }

  lemma {:induction false} PassBehind(nk: int, n: int, n': int, k: int, w: int)
    requires nk >= 1 && n < n' && 0 <= k && w >= 0
    ensures (n * nk + (nk - 1)) * w + w <= (n' * nk + k) * w
  {
    MulLe(n + 1, n', nk);
    assert (n + 1) * nk == n * nk + nk;
    MulLe(n * nk + nk, n' * nk + k, w);
    assert (n * nk + (nk - 1)) * w + w == (n * nk + nk) * w;
  }

  lemma {:induction false} TileBehind(nk: int, nn: int, n: int, w: int, b: int, b': int)
    requires nk >= 1 && n < nn && nn >= 1 && w >= 1 && b + w <= b'
    ensures b * (nn * nk) + ((n * nk + (nk - 1)) * w + w) <= b' * (nn * nk)
  {
    var c := nn * nk;
    PassBehind(nk, n, nn, 0, w);
    MulLe(0, nn, nk);
    MulLe(b + w, b', c);
    assert (b + w) * c == b * c + c * w;
  }

  lemma {:induction false} TilesInOrder(p: Plan, m: int, n: int, m': int, n': int)
    requires p.Good() && 0 <= n && TileOrEnd(p, m', n')
    requires TileNo(p, m, n) < TileNo(p, m', n')
    ensures m < m' || (m == m' && n < n')
  {
    TilesCover(p.N, 128, 0);
    assert (m' + 1) * p.NN() == m' * p.NN() + p.NN();
    if m' < m {
      MulLe(m' + 1, m, p.NN());
    }
  }

  lemma {:induction false} RowsBefore(p: Plan, m: int, m': int)
    requires p.Good() && 0 <= m < p.NM() && m < m' <= p.NM()
    ensures Before(p.M, p.mt, m) + p.Rows(m) <= Before(p.M, p.mt, m')
    ensures p.Rows(m') >= 0
  {
    MulLe(m + 1, m', p.mt);
    assert (m' + 1) * p.mt == m' * p.mt + p.mt;
  }

  /** The commands gathered from all channels: none, activations, accesses, closing accesses, or
      precharges. */
  datatype Group = Nothing | Activations | Accesses | ClosingAccesses | Precharges
  {
    /** Accesses move the iterators on, and so do precharges, although they access nothing. */
    predicate Advances() { !Nothing? && !Activations? }
  }

  /** One advancing step: tile coordinates, index inside the tile, the column offset addressed and the
      group that was sent. */
  datatype Step = Step(m: int, n: int, k: int, i: int, offset: int, group: Group)

  /** The r-th load is the one numbered r, and it reads the weight vector laid out for it. */
  ghost predicate LoadTrace(p: Plan, q: seq<Step>)
    requires p.Good()
  {
    forall r :: 0 <= r < |q| ==> var s := q[r];
      p.Visit(s.m, s.n, s.k) && 0 <= s.i < p.PerBank()
      && p.LoadPos(s.m, s.n, s.k, s.i) == r && s.offset == p.WeightOffset(s.n, s.k, s.i) && s.group.Advances()
  }

  ghost predicate StreamTrace(p: Plan, q: seq<Step>)
    requires p.Good()
  {
    forall r :: 0 <= r < |q| ==> var s := q[r];
      p.Visit(s.m, s.n, s.k) && 0 <= s.i < p.Rows(s.m)
      && p.StreamPos(s.m, s.n, s.k, s.i) == r && s.offset == p.InputOffset(s.m, s.k, s.i) && s.group.Advances()
  }

  /** The r-th output written goes to column offset r. */
  ghost predicate OutTrace(p: Plan, q: seq<Step>)
    requires p.Good()
  {
    forall r :: 0 <= r < |q| ==> var s := q[r];
      0 <= s.m < p.NM() && 0 <= s.n < p.NN() && 0 <= s.i < p.Rows(s.m)
      && p.OutPos(s.m, s.n, s.i) == r && s.offset == r && s.group.Advances()
  }

  lemma {:induction false} LoadGrows(p: Plan, q: seq<Step>, m: int, n: int, k: int, i: int, g: Group)
    requires p.Good() && LoadTrace(p, q) && |q| == p.LoadPos(m, n, k, i) && g.Advances()
    requires p.Visit(m, n, k) && 0 <= i < p.PerBank()
    ensures LoadTrace(p, q + [Step(m, n, k, i, LoadColumn(p, 128 * n + i, k), g)])
    ensures |q| + 1 == p.LoadPos(m, n, k, i + 1)
  {
    LoadPlace(p, n, k, i);
  }

  lemma {:induction false} StreamGrows(p: Plan, q: seq<Step>, m: int, n: int, k: int, i: int, g: Group)
    requires p.Good() && StreamTrace(p, q) && |q| == p.StreamPos(m, n, k, i) && g.Advances()
    requires p.Visit(m, n, k) && 0 <= i < p.Rows(m)
    ensures StreamTrace(p, q + [Step(m, n, k, i, RowColumn(p, p.NK(), k, p.mt * m + i), g)])
    ensures |q| + 1 == p.StreamPos(m, n, k, i + 1)
  {
    RowPlace(p, p.NK(), m, k, i);
  }

  lemma {:induction false} OutGrows(p: Plan, q: seq<Step>, m: int, n: int, i: int, g: Group)
    requires p.Good() && OutTrace(p, q) && |q| == p.OutPos(m, n, i) && g.Advances()
    requires 0 <= m < p.NM() && 0 <= n < p.NN() && 0 <= i < p.Rows(m)
    ensures OutTrace(p, q + [Step(m, n, 0, i, RowColumn(p, p.NN(), n, p.mt * m + i), g)])
    ensures |q| + 1 == p.OutPos(m, n, i + 1)
  {
    RowPlace(p, p.NN(), m, n, i);
  }
}
