/** What a trace with every step in its numbered place amounts to: each step of the multiplication
    happens exactly once, accesses its vector unless it was a precharge, and different data live in
    different cells. */
module PimCoverage {
  import opened Arithmetic
  import opened Commands
  import opened Tiling
  import opened PimPlans

  /** Numbers of steps in a whole run. */
  function AllLoads(p: Plan): int requires p.Good() { p.NM() * p.NN() * p.NK() * p.PerBank() }
  function AllStreams(p: Plan): int requires p.Good() { p.M * (p.NN() * p.NK()) }
  function AllOuts(p: Plan): int requires p.Good() { p.M * p.NN() }

  /** Past the last visit the numbering has reached the totals. */
  lemma {:induction false} Ends(p: Plan)
    requires p.Good()
    ensures p.LoadPos(p.NM(), 0, 0, 0) == AllLoads(p)
    ensures p.StreamPos(p.NM(), 0, 0, 0) == AllStreams(p)
    ensures p.OutPos(p.NM(), 0, 0) == AllOuts(p)
  {
    TilesCover(p.M, p.mt, p.NM());
    assert Before(p.M, p.mt, p.NM()) == p.M;
  }

  lemma {:induction false} LoadInside(p: Plan, m: int, n: int, k: int, i: int)
    requires p.Good() && p.Visit(m, n, k) && 0 <= i <= p.PerBank()
    ensures 0 <= p.LoadPos(m, n, k, i) <= AllLoads(p)
    ensures i < p.PerBank() ==> p.LoadPos(m, n, k, i) < AllLoads(p)
  {
    var nn, nk, b := p.NN(), p.NK(), p.PerBank();
    PerBankDivides(p);
    DigitsBound(m, n, p.NM(), nn);
    DigitsBound(m * nn + n, k, p.NM() * nn, nk);
    var v := (m * nn + n) * nk + k;
    MulLe(v + 1, p.NM() * nn * nk, b);
    MulLe(0, v, b);
    assert (v + 1) * b == v * b + b;
  }

  lemma {:induction false} StreamInside(p: Plan, m: int, n: int, k: int, i: int)
    requires p.Good() && p.Visit(m, n, k) && 0 <= i < p.Rows(m)
    ensures InTile(p.M, p.mt, p.NN() * p.NK(), m, n * p.NK() + k, i)
    ensures 0 <= p.StreamPos(m, n, k, i) < AllStreams(p)
  {
    DigitsBound(n, k, p.NN(), p.NK());
    OffsetInside(p.M, p.mt, p.NN() * p.NK(), m, n * p.NK() + k, i);
  }

  lemma {:induction false} OutInside(p: Plan, m: int, n: int, i: int)
    requires p.Good() && 0 <= m < p.NM() && 0 <= n < p.NN() && 0 <= i < p.Rows(m)
    ensures 0 <= p.OutPos(m, n, i) < AllOuts(p)
  {
    OffsetInside(p.M, p.mt, p.NN(), m, n, i);
  }

  /** Two steps with one number are one step. */
  lemma {:induction false} SameLoad(p: Plan, s: Step, t: Step)
    requires p.Good() && p.Visit(s.m, s.n, s.k) && 0 <= s.i < p.PerBank()
    requires p.Visit(t.m, t.n, t.k) && 0 <= t.i < p.PerBank()
    requires p.LoadPos(s.m, s.n, s.k, s.i) == p.LoadPos(t.m, t.n, t.k, t.i)
    ensures s.m == t.m && s.n == t.n && s.k == t.k && s.i == t.i
  {
    var nn, nk, b := p.NN(), p.NK(), p.PerBank();
    SameDigits((s.m * nn + s.n) * nk + s.k, s.i, (t.m * nn + t.n) * nk + t.k, t.i, b);
    SameDigits(s.m * nn + s.n, s.k, t.m * nn + t.n, t.k, nk);
    SameDigits(s.m, s.n, t.m, t.n, nn);
  }

  lemma {:induction false} SameStream(p: Plan, s: Step, t: Step)
    requires p.Good() && p.Visit(s.m, s.n, s.k) && 0 <= s.i < p.Rows(s.m)
    requires p.Visit(t.m, t.n, t.k) && 0 <= t.i < p.Rows(t.m)
    requires p.StreamPos(s.m, s.n, s.k, s.i) == p.StreamPos(t.m, t.n, t.k, t.i)
    ensures s.m == t.m && s.n == t.n && s.k == t.k && s.i == t.i
  {
    var nk := p.NK();
    StreamInside(p, s.m, s.n, s.k, s.i);
    StreamInside(p, t.m, t.n, t.k, t.i);
    OffsetInjective(p.M, p.mt, p.NN() * nk, s.m, s.n * nk + s.k, s.i, t.m, t.n * nk + t.k, t.i);
    SameDigits(s.n, s.k, t.n, t.k, nk);
  }

  /** A complete trace holds every load, stream or write at its own place. */
  lemma {:induction false} EveryLoad(p: Plan, q: seq<Step>, m: int, n: int, k: int, i: int)
    requires p.Good() && LoadTrace(p, q) && |q| == AllLoads(p)
    requires p.Visit(m, n, k) && 0 <= i < p.PerBank()
    ensures 0 <= p.LoadPos(m, n, k, i) < |q|
    ensures q[p.LoadPos(m, n, k, i)] == Step(m, n, k, i, p.WeightOffset(n, k, i), q[p.LoadPos(m, n, k, i)].group)
  {
    LoadInside(p, m, n, k, i);
    SameLoad(p, q[p.LoadPos(m, n, k, i)], Step(m, n, k, i, 0, Accesses));
  }

  /** No vector was stepped over by a precharge in its place. */
  ghost predicate NoPrecharges(q: seq<Step>) { forall r :: 0 <= r < |q| ==> !q[r].group.Precharges? }

  /** Some step of the trace is an access for what is asked. */
  ghost predicate LoadRead(q: seq<Step>, m: int, n: int, k: int, i: int) {
    exists r :: 0 <= r < |q| && Reads(q[r], m, n, k, i)
  }

  predicate Reads(s: Step, m: int, n: int, k: int, i: int) {
    s.m == m && s.n == n && s.k == k && s.i == i && !s.group.Precharges?
  }

  ghost predicate RowRead(p: Plan, q: seq<Step>, x: int, n: int, k: int) {
    exists r :: 0 <= r < |q| && RowOf(p, q[r]) == x && q[r].n == n && q[r].k == k && !q[r].group.Precharges?
  }

  ghost predicate RowWritten(p: Plan, q: seq<Step>, x: int, n: int) {
    exists r :: 0 <= r < |q| && RowOf(p, q[r]) == x && q[r].n == n && !q[r].group.Precharges?
  }

  /** A whole run accesses every weight vector exactly when no loading step was a precharge; so with
      the inputs, and with the outputs. */
  lemma {:induction false} LoadsAccessed(p: Plan, q: seq<Step>)
    requires p.Good() && LoadTrace(p, q) && |q| == AllLoads(p)
    ensures (forall m, n, k, i :: p.Visit(m, n, k) && 0 <= i < p.PerBank() ==> LoadRead(q, m, n, k, i)) <==>
      NoPrecharges(q)
  {
    if NoPrecharges(q) {
      forall m, n, k, i | p.Visit(m, n, k) && 0 <= i < p.PerBank()
        ensures LoadRead(q, m, n, k, i)
      {
        EveryLoad(p, q, m, n, k, i);
        assert Reads(q[p.LoadPos(m, n, k, i)], m, n, k, i);
      }
    } else {
      var r :| 0 <= r < |q| && q[r].group.Precharges?;
      var s := q[r];
      assert !LoadRead(q, s.m, s.n, s.k, s.i);
    }
  }

  lemma {:induction false} RowsAccessed(p: Plan, q: seq<Step>)
    requires p.Good() && StreamTrace(p, q) && |q| == AllStreams(p)
    ensures (forall x, n, k :: 0 <= x < p.M && 0 <= n < p.NN() && 0 <= k < p.NK() ==> RowRead(p, q, x, n, k)) <==>
      NoPrecharges(q)
  {
    if NoPrecharges(q) {
      forall x, n, k | 0 <= x < p.M && 0 <= n < p.NN() && 0 <= k < p.NK()
        ensures RowRead(p, q, x, n, k)
      {
        var r := EveryRowStreams(p, q, x, n, k);
      }
    } else {
      var r :| 0 <= r < |q| && q[r].group.Precharges?;
      RowInside(p, q[r].m, q[r].i);
      var _ := EveryRowStreams(p, q, RowOf(p, q[r]), q[r].n, q[r].k);
      assert !RowRead(p, q, RowOf(p, q[r]), q[r].n, q[r].k);
    }
  }

  lemma {:induction false} OutputsAccessed(p: Plan, q: seq<Step>)
    requires p.Good() && OutTrace(p, q) && |q| == AllOuts(p)
    ensures (forall x, n :: 0 <= x < p.M && 0 <= n < p.NN() ==> RowWritten(p, q, x, n)) <==> NoPrecharges(q)
  {
    if NoPrecharges(q) {
      forall x, n | 0 <= x < p.M && 0 <= n < p.NN()
        ensures RowWritten(p, q, x, n)
      {
        var r := EveryOutput(p, q, x, n);
      }
    } else {
      var r :| 0 <= r < |q| && q[r].group.Precharges?;
      RowInside(p, q[r].m, q[r].i);
      var _ := EveryOutput(p, q, RowOf(p, q[r]), q[r].n);
      assert !RowWritten(p, q, RowOf(p, q[r]), q[r].n);
    }
  }

  lemma {:induction false} RowInside(p: Plan, m: int, i: int)
    requires p.Good() && 0 <= m < p.NM() && 0 <= i < p.Rows(m)
    ensures 0 <= m * p.mt + i < p.M
  {
    MulLe(0, m, p.mt);
    SizeFormula(p.M, p.mt, m);
  }

  /** Every row x of the input meets every weight tile in exactly one step. */
  lemma {:induction false} EveryRowStreams(p: Plan, q: seq<Step>, x: int, n: int, k: int) returns (r: int)
    requires p.Good() && StreamTrace(p, q) && |q| == AllStreams(p)
    requires 0 <= x < p.M && 0 <= n < p.NN() && 0 <= k < p.NK()
    ensures 0 <= r < |q| && RowOf(p, q[r]) == x && q[r].n == n && q[r].k == k
    ensures forall r' :: 0 <= r' < |q| && RowOf(p, q[r']) == x && q[r'].n == n && q[r'].k == k ==> r' == r
  {
    var m := TileOf(p.M, p.mt, x);
    SizeFormula(p.M, p.mt, m);
    var i := x - m * p.mt;
    r := p.StreamPos(m, n, k, i);
    StreamInside(p, m, n, k, i);
    SameStream(p, q[r], Step(m, n, k, i, 0, Accesses));
    forall r' | 0 <= r' < |q| && RowOf(p, q[r']) == x && q[r'].n == n && q[r'].k == k
      ensures r' == r
    {
      OneTile(p, q[r'].m, q[r'].i, m, i);
    }
  }

  function RowOf(p: Plan, s: Step): int { s.m * p.mt + s.i }

  lemma {:induction false} OneTile(p: Plan, m: int, i: int, m': int, i': int)
    requires p.Good() && 0 <= m < p.NM() && 0 <= i < p.Rows(m) && 0 <= m' < p.NM() && 0 <= i' < p.Rows(m')
    requires m * p.mt + i == m' * p.mt + i'
    ensures m == m' && i == i'
  {
    SizeFormula(p.M, p.mt, m);
    SizeFormula(p.M, p.mt, m');
    SameDigits(m, i, m', i', p.mt);
  }

  /** Every element tile of the result, row x and column tile n, has exactly one writing step. */
  lemma {:induction false} EveryOutput(p: Plan, q: seq<Step>, x: int, n: int) returns (r: int)
    requires p.Good() && OutTrace(p, q) && |q| == AllOuts(p)
    requires 0 <= x < p.M && 0 <= n < p.NN()
    ensures 0 <= r < |q| && RowOf(p, q[r]) == x && q[r].n == n
    ensures forall r' :: 0 <= r' < |q| && RowOf(p, q[r']) == x && q[r'].n == n ==> r' == r
  {
    var m := TileOf(p.M, p.mt, x);
    SizeFormula(p.M, p.mt, m);
    var i := x - m * p.mt;
    r := p.OutPos(m, n, i);
    OutInside(p, m, n, i);
    OffsetInjective(p.M, p.mt, p.NN(), q[r].m, q[r].n, q[r].i, m, n, i);
    forall r' | 0 <= r' < |q| && RowOf(p, q[r']) == x && q[r'].n == n
      ensures r' == r
    {
      OneTile(p, q[r'].m, q[r'].i, m, i);
    }
  }

  /** A vector at column offset c sits in row c / perRow past the base row, at column c % perRow. */
  datatype Cell = Cell(row: int, column: int)

  function CellOf(base: int, perRow: int, c: int): Cell
    requires perRow >= 1
  {
    Cell(base + c / perRow, c % perRow)
  }

  /** Two writes of one run never meet in a cell; neither do two different weight vectors or inputs. */
  lemma {:induction false} WritesApart(p: Plan, q: seq<Step>, base: int, perRow: int, a: int, b: int)
    requires p.Good() && OutTrace(p, q) && perRow >= 1 && 0 <= a < b < |q|
    ensures CellOf(base, perRow, q[a].offset) != CellOf(base, perRow, q[b].offset)
  {
    CellsApart(base, perRow, q[a].offset, q[b].offset);
  }

  lemma {:induction false} CellsApart(base: int, perRow: int, c: int, d: int)
    requires perRow >= 1 && c != d
    ensures CellOf(base, perRow, c) != CellOf(base, perRow, d)
  {
    assert c == (c / perRow) * perRow + c % perRow;
    assert d == (d / perRow) * perRow + d % perRow;
  }

  /** A weight cell read by two loads is read for the same tile and the same vector of it. */
  lemma {:induction false} WeightsApart(p: Plan, base: int, perRow: int, n: int, k: int, i: int, n': int, k': int,
                                        i': int)
    requires p.Good() && perRow >= 1 && p.Visit(0, n, k) && 0 <= i < p.PerBank() && p.Visit(0, n', k')
    requires 0 <= i' < p.PerBank()
    ensures CellOf(base, perRow, p.WeightOffset(n, k, i)) == CellOf(base, perRow, p.WeightOffset(n', k', i'))
      <==> n == n' && k == k' && i == i'
  {
    if p.WeightOffset(n, k, i) == p.WeightOffset(n', k', i') {
      SameDigits(n * p.NK() + k, i, n' * p.NK() + k', i', p.PerBank());
      SameDigits(n, k, n', k', p.NK());
    } else {
      CellsApart(base, perRow, p.WeightOffset(n, k, i), p.WeightOffset(n', k', i'));
    }
  }

  /** The weight layout has no holes. */
  lemma {:induction false} WeightOnto(p: Plan, c: int) returns (n: int, k: int, i: int)
    requires p.Good() && 0 <= c < p.NN() * p.NK() * p.PerBank()
    ensures p.Visit(0, n, k) && 0 <= i < p.PerBank() && p.WeightOffset(n, k, i) == c
  {
    TilesCover(p.M, p.mt, 0);
    TilesCover(p.K, p.Kt(), 0);
    PerBankDivides(p);
    var v := c / p.PerBank();
    DivBounds(c, p.NN() * p.NK(), p.PerBank());
    DivBounds(v, p.NN(), p.NK());
    n, k, i := v / p.NK(), v % p.NK(), c % p.PerBank();
  }

  /** An input cell is read for one row and one inner tile only, whatever the output tile. */
  lemma {:induction false} InputsApart(p: Plan, q: seq<Step>, base: int, perRow: int, a: int, b: int)
    requires p.Good() && StreamTrace(p, q) && perRow >= 1 && 0 <= a < |q| && 0 <= b < |q|
    ensures CellOf(base, perRow, q[a].offset) == CellOf(base, perRow, q[b].offset)
      <==> RowOf(p, q[a]) == RowOf(p, q[b]) && q[a].k == q[b].k
  {
    var s, t := q[a], q[b];
    if RowOf(p, s) == RowOf(p, t) && s.k == t.k {
      OneTile(p, s.m, s.i, t.m, t.i);
    } else if s.offset == t.offset {
      OffsetInjective(p.M, p.mt, p.NK(), s.m, s.k, s.i, t.m, t.k, t.i);
      assert false;
    } else {
      CellsApart(base, perRow, s.offset, t.offset);
    }
  }
}
