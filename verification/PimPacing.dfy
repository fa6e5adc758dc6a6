/** The pacing condition is exact: with equal row tiles a run whose accesses are all granted ends if and
    only if the condition holds.  A run in which activations are needed fails in the same way. */
module PimPacing {
  import opened Arithmetic
  import opened Commands
  import opened Tiling
  import opened PimPlans
  import opened PimSchedulers

  /** All row tiles have as many rows. */
  predicate EqualRows(p: Plan)
    requires p.Good()
  {
    p.M <= p.mt || p.M % p.mt == 0
  }

  lemma {:induction false} RowsEqual(p: Plan, m: int)
    requires p.Good() && EqualRows(p) && 0 <= m < p.NM()
    ensures p.Rows(m) == Min(p.M, p.mt)
  {
    SizeFormula(p.M, p.mt, m);
    if m + 1 < p.NM() {
      FullRows(p, m);
      assert m * p.mt + p.mt < p.M;
      MulLe(0, m, p.mt);
    } else if p.M > p.mt {
      var q := p.M / p.mt;
      assert p.M == q * p.mt;
      LastIsWhole(p.M, p.mt, q, m, p.Rows(m));
    } else if m > 0 {
      MulLe(1, m, p.mt);
    }
  }

  lemma {:induction false} LastIsWhole(total: int, d: int, q: int, m: int, r: int)
    requires d >= 1 && total == q * d && total == m * d + r && 1 <= r <= d
    ensures r == d
  {
    assert (q - m) * d == r;
    if q - m <= 0 {
      MulLe(q - m, 0, d);
    } else if q - m >= 2 {
      MulLe(2, q - m, d);
    }
  }

  lemma {:induction false} SpacingExact(p: Plan)
    requires p.Good() && EqualRows(p)
    ensures p.PassTime(0) == Min(p.M, p.mt) + p.InWait() + p.PerBank() + 1
    ensures p.NM() * p.NN() > 1 ==> p.Spacing() == p.NK() * p.PassTime(0)
  {
    hide p.InWait, p.PerBank, p.NK, p.NN, p.NM, p.Rows, EqualRows;
    OneTileOnly(p);
    RowsEqual(p, 0);
    RowsEqual(p, p.NM() - 1);
    if p.NN() == 1 && p.NM() > 1 {
      FullRows(p, 0);
    }
    var a, r, w := p.NK() - 1, p.Rows(0), p.InWait() + p.PerBank() + 1;
    assert r + a * r + (a + 1) * w == (a + 1) * (r + w);
  }

  /** The channels when nothing else holds them up and a tile stays inside one row of its bank: an access
      needs the bank open, so the first answer after a closing access is an activation; the last access
      of a tile closes the bank. */
  function Opening(p: Plan, s: State): Signals
    requires p.Good()
  {
    Signals(false, false,
            Answer(s.wActPlaced, LoadDone(p, s.nIt + 1)),
            Answer(s.inActPlaced, s.mIt + 1 == p.M && (s.kIt + 1) * p.Kt() >= p.K),
            Answer(s.outActPlaced, s.mOut + 1 == p.M))
  }

  function Answer(open: bool, last: bool): Group {
    if !open then Activations else if last then ClosingAccesses else Accesses
  }

  /** An answer that is granted, or one as above. */
  predicate Fits(p: Plan, s: State, t: Signals, opening: bool)
    requires p.Good()
  {
    if opening then t == Opening(p, s) else t.Granted()
  }

  ghost predicate Plays(p: Plan, answers: Answers, opening: bool)
    requires p.Good()
  {
    forall c: nat, s: State :: Fits(p, s, answers(c, s), opening)
  }

  function One(opening: bool): int { if opening then 1 else 0 }

  /** Visit v in phase status, i steps in, with nothing announced and the output count at out. */
  predicate At(p: Plan, s: State, status: int, v: Triple, i: int, out: int) {
    && s.inPim && s.status == status && s.kIt == v.k && s.mOut == 0 && s.nOut == 0 && s.outputValid == 0 &&
      s.outCnt == out
    && s.nIt == 128 * v.n + (if status == 0 then i else 0)
    && s.mIt == p.mt * v.m + (if status == 2 then i else 0)
    && (status == 2 ==> s.vpuCnt <= 1)
    && (status == 3 ==> s.inCnt == i)
  }

  /** When banks are opened by activations, these are open. */
  predicate Open(s: State, opening: bool, weights: bool, inputs: bool) {
    opening ==> s.wActPlaced == weights && s.inActPlaced == inputs
  }

  /** The count after d cycles in which it does not run out. */
  function Down(out: int, d: int): int { if out == -1 then -1 else out - d }

  lemma {:induction false} LoadTick(p: Plan, s: State, t: Signals, opening: bool, v: Triple, i: int, inputs: bool,
                                    out: int)
    requires p.Good() && At(p, s, 0, v, i, out) && 0 <= v.n < p.NN() && 0 <= i < p.PerBank() && out != 0
    requires Fits(p, s, t, opening) && Open(s, opening, true, inputs)
    ensures var r := TickNext(p, s, t);
      Open(r, opening, i + 1 < p.PerBank(), inputs)
      && if i + 1 < p.PerBank() then At(p, r, 0, v, i + 1, Down(out, 1)) else At(p, r, 1, v, 0, Down(out, 1))
  {
    LoadExit(p, v.n, i);
  }

  /** An activation opens the bank and takes a cycle. */
  lemma {:induction false} OpenWeights(p: Plan, s: State, v: Triple, out: int, inputs: bool)
    requires p.Good() && At(p, s, 0, v, 0, out) && out != 0 && Open(s, true, false, inputs)
    ensures var r := TickNext(p, s, Opening(p, s)); At(p, r, 0, v, 0, Down(out, 1)) && Open(r, true, true, inputs)
  {
  }

  lemma {:induction false} OpenInputs(p: Plan, s: State, v: Triple, out: int)
    requires p.Good() && At(p, s, 2, v, 0, out) && out != 0 && Open(s, true, false, false)
    ensures var r := TickNext(p, s, Opening(p, s)); At(p, r, 2, v, 0, Down(out, 1)) && Open(r, true, false, true)
  {
  }

  lemma {:induction false} TurnTick(p: Plan, s: State, t: Signals, opening: bool, v: Triple, inputs: bool, out: int)
    requires p.Good() && At(p, s, 1, v, 0, out) && out != 0 && Fits(p, s, t, opening) && Open(s, opening, false, inputs)
    ensures var r := TickNext(p, s, t); At(p, r, 2, v, 0, Down(out, 1)) && Open(r, opening, false, inputs)
  {
  }

  lemma {:induction false} BusyTick(p: Plan, s: State, t: Signals, opening: bool, v: Triple, w: int, inputs: bool,
                                    out: int)
    requires p.Good() && At(p, s, 3, v, w, out) && w >= 1 && out != 0 && Fits(p, s, t, opening)
    requires Open(s, opening, false, inputs)
    ensures var r := TickNext(p, s, t);
      Open(r, opening, false, inputs) && if w > 1 then At(p, r, 3, v, w - 1, Down(out, 1))
        else At(p, r, 0, v, 0, Down(out, 1))
  {
  }

  /** The output count after a row: the first row of a last-K visit starts it. */
  function Counted(p: Plan, v: Triple, i: int, out: int): int
    requires p.Good()
  {
    Down(if v.k + 1 == p.NK() && i == 0 then p.OutWait() else out, 1)
  }

  lemma {:induction false} StreamTick(p: Plan, s: State, t: Signals, v: Triple, i: int, out: int)
    requires p.Good() && t.Useful(2) && At(p, s, 2, v, i, out) && p.Visit(v.m, v.n, v.k) && 0 <= i < p.Rows(v.m)
    requires NextVisit(p, v).m < p.NM() && ((v.k + 1 == p.NK() && i == 0) || out != 0)
    ensures var r := TickNext(p, s, t);
      if i + 1 < p.Rows(v.m) then At(p, r, 2, v, i + 1, Counted(p, v, i, out))
        else At(p, r, 3, NextVisit(p, v), p.InWait(), Counted(p, v, i, out))
  {
    hide RowNext, p.InWait, p.OutWait, p.Rows, p.NM, p.NN, p.NK, p.Kt, p.PerBank, NextVisit;
    WaitsPositive(p);
    var r := if t.waitRefresh then s.(wActPlaced := false, inActPlaced := false, outActPlaced := false) else s;
    var x := r.(vpuCnt := 0, inActPlaced := r.inActPlaced && !t.inputs.ClosingAccesses?);
    RowStep(p, x, v, i);
    assert StreamNext(p, r, t.inputs, t.waitRefresh) == RowNext(p, x);
  }

  lemma {:induction false} RowStep(p: Plan, s: State, v: Triple, i: int)
    requires p.Good() && p.Visit(v.m, v.n, v.k) && 0 <= i < p.Rows(v.m)
    requires s.mIt == p.mt * v.m + i && s.kIt == v.k && s.nIt == 128 * v.n
    ensures var r := if v.k + 1 == p.NK() && i == 0 then s.(outCnt := p.OutWait()) else s; var u := NextVisit(p, v);
      RowNext(p, s) == if i + 1 < p.Rows(v.m) then r.(mIt := s.mIt + 1)
                       else r.(status := s.status + 1, inCnt := if u.m < p.NM() then p.InWait() else -1,
                               mIt := p.mt * u.m, nIt := 128 * u.n, kIt := u.k)
  {
    hide p.InWait, p.OutWait, RowDone, RowFirst, RowTile, p.Rows, p.NM, p.NN, p.NK, p.Kt;
    RowExit(p, v.m, i);
    IteratorTests(p, v.m + 1, v.n + 1, v.k + 1);
  }

  /** The inputs' bank is closed by the last row of the last-K visit. */
  lemma {:induction false} StreamOpens(p: Plan, s: State, v: Triple, i: int, out: int)
    requires p.Good() && p.NM() == 1 && At(p, s, 2, v, i, out) && p.Visit(v.m, v.n, v.k) && 0 <= i < p.Rows(v.m)
    requires Open(s, true, false, true)
    ensures Opening(p, s).Useful(2)
    ensures Open(TickNext(p, s, Opening(p, s)), true, false, i + 1 < p.Rows(v.m) || v.k + 1 < p.NK())
  {
    hide RowDone, RowFirst, RowTile, p.InWait, p.OutWait, p.PerBank, LoadDone;
    SizeFormula(p.M, p.mt, 0);
    IteratorTests(p, 0, 0, v.k + 1);
  }

  /** The output count before row i of a visit that it entered at out. */
  function Upto(p: Plan, v: Triple, i: int, out: int): int
    requires p.Good()
  {
    if v.k + 1 == p.NK() && i > 0 then p.OutWait() - i else Down(out, i)
  }

  lemma {:induction false} RowTick(p: Plan, s: State, t: Signals, opening: bool, v: Triple, i: int, out: int)
    requires p.Good() && At(p, s, 2, v, i, out) && p.Visit(v.m, v.n, v.k) && 0 <= i < p.Rows(v.m)
    requires (opening ==> p.NM() == 1)
    requires NextVisit(p, v).m < p.NM() && ((v.k + 1 == p.NK() && i == 0) || out != 0)
    requires Fits(p, s, t, opening) && Open(s, opening, false, true)
    ensures var r := TickNext(p, s, t);
      if i + 1 < p.Rows(v.m) then At(p, r, 2, v, i + 1, Counted(p, v, i, out))
        else At(p, r, 3, NextVisit(p, v), p.InWait(), Counted(p, v, i, out))
    ensures Open(TickNext(p, s, t), opening, false, i + 1 < p.Rows(v.m) || v.k + 1 < p.NK())
  {
    hide p.InWait, p.OutWait, p.Rows, p.NM, p.NN, p.NK, p.Kt, p.PerBank, NextVisit, TickNext, Opening;
    if opening {
      StreamOpens(p, s, v, i, out);
    }
    StreamTick(p, s, t, v, i, out);
  }

  /** The scheduler has come this far on these answers. */
  ghost predicate Tracked(s: PimScheduler, answers: Answers, opening: bool, c: nat)
    reads s
  {
    s.Valid() && s.plan.Good() && Plays(s.plan, answers, opening) && s.View() == After(s.plan, START, answers, c)
  }

  lemma {:induction false} NextFits(s: PimScheduler, answers: Answers, opening: bool, c: nat)
    requires Tracked(s, answers, opening, c)
    ensures s.plan.Good() && Fits(s.plan, s.View(), answers(c, s.View()), opening)
    ensures opening ==> answers(c, s.View()) == Opening(s.plan, s.View())
  {
    hide s.Valid, Opening;
  }

  method Step(s: PimScheduler, answers: Answers, ghost opening: bool, c: nat) returns (d: nat)
    requires Tracked(s, answers, opening, c)
    modifies s
    ensures s.plan.Good() && d == c + 1
    ensures var t := answers(c, old(s.View()));
      s.View() == TickNext(s.plan, old(s.View()), t) && Fits(s.plan, old(s.View()), t, opening)
      && s.Lost() == old(s.Lost()) + if old(s.inPim) && t.Useful(2) && old(s.Overwrites()) then 1 else 0
    ensures Tracked(s, answers, opening, d)
  {
    hide s.Valid, s.Overwrites, s.Remaining, s.Waiting, TickNext, Fits, s.plan.Paced, s.plan.Good;
    var _ := s.Tick(answers(c, s.View()));
    d := c + 1;
  }

  /** Loading a tile. */
  method LoadTile(s: PimScheduler, answers: Answers, opening: bool, v: Triple, inputs: bool, out: int, c: nat)
    returns (d: nat)
    requires Tracked(s, answers, opening, c) && s.plan.Good() && 0 <= v.n < s.plan.NN()
    requires At(s.plan, s.View(), 0, v, 0, out) && Open(s.View(), opening, false, inputs)
    requires out == -1 || out >= s.plan.PerBank() + One(opening)
    modifies s
    ensures At(s.plan, s.View(), 1, v, 0, Down(out, s.plan.PerBank() + One(opening)))
    ensures Open(s.View(), opening, false, inputs)
    ensures s.plan.Good() && Tracked(s, answers, opening, d)
  {
    hide Tracked, s.Overwrites, TickNext, At, Opening, Fits, s.plan.PerBank, s.plan.NN;
    IteratorTests(s.plan, 0, 0, 0);
    d := c;
    if opening {
      NextFits(s, answers, opening, d);
      OpenWeights(s.plan, s.View(), v, out, inputs);
      d := Step(s, answers, opening, d);
    }
    ghost var o := Down(out, One(opening));
    for i := 0 to s.plan.PerBank()
      invariant Tracked(s, answers, opening, d) && s.plan.Good()
      invariant Open(s.View(), opening, i < s.plan.PerBank(), inputs)
      invariant At(s.plan, s.View(), if i < s.plan.PerBank() then 0 else 1, v, if i < s.plan.PerBank() then i
        else 0, Down(o, i))
    {
      NextFits(s, answers, opening, d);
      LoadTick(s.plan, s.View(), answers(d, s.View()), opening, v, i, inputs, Down(o, i));
      d := Step(s, answers, opening, d);
    }
  }

  method Turn(s: PimScheduler, answers: Answers, opening: bool, v: Triple, inputs: bool, out: int, c: nat)
    returns (d: nat)
    requires Tracked(s, answers, opening, c) && s.plan.Good() && out != 0
    requires At(s.plan, s.View(), 1, v, 0, out) && Open(s.View(), opening, false, inputs)
    modifies s
    ensures At(s.plan, s.View(), 2, v, 0, Down(out, 1)) && Open(s.View(), opening, false, inputs)
    ensures s.plan.Good() && Tracked(s, answers, opening, d)
  {
    hide Tracked, s.Overwrites, TickNext, At, Opening, Fits;
    NextFits(s, answers, opening, c);
    TurnTick(s.plan, s.View(), answers(c, s.View()), opening, v, inputs, out);
    d := Step(s, answers, opening, c);
  }

  /** Opening the inputs' bank, if it has to be. */
  method OpenRows(s: PimScheduler, answers: Answers, opening: bool, v: Triple, inputs: bool, out: int, c: nat)
    returns (d: nat)
    requires Tracked(s, answers, opening, c) && s.plan.Good() && (opening && !inputs ==> out != 0)
    requires At(s.plan, s.View(), 2, v, 0, out) && Open(s.View(), opening, false, inputs)
    modifies s
    ensures At(s.plan, s.View(), 2, v, 0, Down(out, One(opening && !inputs))) && Open(s.View(), opening, false, true)
    ensures s.plan.Good() && Tracked(s, answers, opening, d)
  {
    hide Tracked, s.Overwrites, TickNext, At, Opening, Fits;
    d := c;
    if opening && !inputs {
      NextFits(s, answers, opening, c);
      OpenInputs(s.plan, s.View(), v, out);
      d := Step(s, answers, opening, c);
    }
  }

  /** Streaming the rows of a visit. */
  method StreamTile(s: PimScheduler, answers: Answers, opening: bool, v: Triple, out: int, c: nat) returns (d: nat)
    requires Tracked(s, answers, opening, c) && s.plan.Good() && s.plan.Visit(v.m, v.n, v.k)
    requires NextVisit(s.plan, v).m < s.plan.NM()
    requires At(s.plan, s.View(), 2, v, 0, out) && Open(s.View(), opening, false, true)
    requires (opening ==> s.plan.NM() == 1)
    requires if v.k + 1 == s.plan.NK() then s.plan.OutWait() >= s.plan.Rows(v.m)
      else out == -1 || out >= s.plan.Rows(v.m)
    modifies s
    ensures At(s.plan, s.View(), 3, NextVisit(s.plan, v), s.plan.InWait(),
               if v.k + 1 == s.plan.NK() then s.plan.OutWait() - s.plan.Rows(v.m) else Down(out, s.plan.Rows(v.m)))
    ensures Open(s.View(), opening, false, v.k + 1 < s.plan.NK())
    ensures s.plan.Good() && Tracked(s, answers, opening, d)
  {
    hide Tracked, s.Overwrites, TickNext, At, Opening, Fits, s.plan.InWait, s.plan.OutWait, s.plan.NK, s.plan.NM,
      s.plan.Rows, NextVisit;
    d := c;
    IteratorTests(s.plan, v.m, 0, 0);
    WaitsPositive(s.plan);
    for i := 0 to s.plan.Rows(v.m)
      invariant Tracked(s, answers, opening, d) && s.plan.Good()
      invariant Open(s.View(), opening, false, i < s.plan.Rows(v.m) || v.k + 1 < s.plan.NK())
      invariant if i < s.plan.Rows(v.m) then At(s.plan, s.View(), 2, v, i, Upto(s.plan, v, i, out))
                else At(s.plan, s.View(), 3, NextVisit(s.plan, v), s.plan.InWait(), Upto(s.plan, v, i, out))
    {
      NextFits(s, answers, opening, d);
      RowTick(s.plan, s.View(), answers(d, s.View()), opening, v, i, Upto(s.plan, v, i, out));
      d := Step(s, answers, opening, d);
    }
  }

  /** Waiting for the array. */
  method AwaitArray(s: PimScheduler, answers: Answers, opening: bool, v: Triple, inputs: bool, out: int, c: nat)
    returns (d: nat)
    requires Tracked(s, answers, opening, c) && s.plan.Good() && (out == -1 || out >= s.plan.InWait())
    requires At(s.plan, s.View(), 3, v, s.plan.InWait(), out) && Open(s.View(), opening, false, inputs)
    modifies s
    ensures At(s.plan, s.View(), 0, v, 0, Down(out, s.plan.InWait())) && Open(s.View(), opening, false, inputs)
    ensures s.plan.Good() && Tracked(s, answers, opening, d)
  {
    hide Tracked, s.Overwrites, TickNext, At, Opening, Fits, s.plan.InWait;
    WaitsPositive(s.plan);
    d := c;
    for i := 0 to s.plan.InWait()
      invariant Tracked(s, answers, opening, d) && s.plan.Good() && Open(s.View(), opening, false, inputs)
      invariant if i < s.plan.InWait() then At(s.plan, s.View(), 3, v, s.plan.InWait() - i, Down(out, i))
                else At(s.plan, s.View(), 0, v, 0, Down(out, i))
    {
      NextFits(s, answers, opening, d);
      BusyTick(s.plan, s.View(), answers(d, s.View()), opening, v, s.plan.InWait() - i, inputs, Down(out, i));
      d := Step(s, answers, opening, d);
    }
  }

  /** Cycles of a visit: when banks have to be opened, one more for the weights, and one for the inputs. */
  function VisitTime(p: Plan, opening: bool, m: int, inputs: bool): int
    requires p.Good()
  {
    p.PassTime(m) + One(opening) + One(opening && !inputs)
  }

  /** Loading and turning, up to the first row. */
  method Prepare(s: PimScheduler, answers: Answers, opening: bool, v: Triple, inputs: bool, out: int, c: nat)
    returns (d: nat)
    requires Tracked(s, answers, opening, c) && s.plan.Good() && 0 <= v.n < s.plan.NN()
    requires At(s.plan, s.View(), 0, v, 0, out) && Open(s.View(), opening, false, inputs)
    requires out == -1 || out >= s.plan.PerBank() + One(opening) + 1 + One(opening && !inputs)
    modifies s
    ensures At(s.plan, s.View(), 2, v, 0, Down(out, s.plan.PerBank() + One(opening) + 1 + One(opening && !inputs)))
    ensures Open(s.View(), opening, false, true)
    ensures s.plan.Good() && Tracked(s, answers, opening, d)
  {
    hide Tracked, s.Overwrites, TickNext, At, s.plan.PerBank, s.plan.NN;
    IteratorTests(s.plan, 0, 0, 0);
    d := LoadTile(s, answers, opening, v, inputs, out, c);
    var o := Down(out, s.plan.PerBank() + One(opening));
    d := Turn(s, answers, opening, v, inputs, o, d);
    d := OpenRows(s, answers, opening, v, inputs, Down(o, 1), d);
  }

  /** A visit that is not the first row's of a count still running. */
  method Visit(s: PimScheduler, answers: Answers, opening: bool, v: Triple, inputs: bool, out: int, c: nat)
    returns (d: nat)
    requires Tracked(s, answers, opening, c) && s.plan.Good() && s.plan.Visit(v.m, v.n, v.k)
    requires NextVisit(s.plan, v).m < s.plan.NM()
    requires At(s.plan, s.View(), 0, v, 0, out) && Open(s.View(), opening, false, inputs)
    requires (opening ==> s.plan.NM() == 1)
    requires out == -1 || (out > VisitTime(s.plan, opening, v.m, inputs) && v.k + 1 < s.plan.NK())
    requires v.k + 1 == s.plan.NK() ==> s.plan.OutWait() >= s.plan.Rows(v.m) + s.plan.InWait()
    modifies s
    ensures At(s.plan, s.View(), 0, NextVisit(s.plan, v), 0,
               if v.k + 1 == s.plan.NK() then s.plan.OutWait() - s.plan.Rows(v.m) - s.plan.InWait()
               else Down(out, VisitTime(s.plan, opening, v.m, inputs)))
    ensures Open(s.View(), opening, false, v.k + 1 < s.plan.NK())
    ensures s.plan.Good() && Tracked(s, answers, opening, d)
  {
    hide Tracked, s.Overwrites, TickNext, At, s.plan.PerBank, s.plan.InWait, s.plan.OutWait, s.plan.NK, s.plan.NN,
      s.plan.NM, s.plan.Rows, NextVisit;
    IteratorTests(s.plan, v.m, v.n, v.k);
    WaitsPositive(s.plan);
    d := Prepare(s, answers, opening, v, inputs, out, c);
    var o := Down(out, s.plan.PerBank() + One(opening) + 1 + One(opening && !inputs));
    d := StreamTile(s, answers, opening, v, o, d);
    o := Upto(s.plan, v, s.plan.Rows(v.m), o);
    d := AwaitArray(s, answers, opening, NextVisit(s.plan, v), v.k + 1 < s.plan.NK(), o, d);
  }

  /** Cycles of the first k visits of an output tile in row tile m. */
  function Spent(p: Plan, opening: bool, m: int, k: int): int
    requires p.Good()
  {
    k * (p.PassTime(m) + One(opening)) + One(opening && k > 0)
  }

  lemma {:induction false} SpentNext(p: Plan, opening: bool, m: int, k: int)
    requires p.Good() && 0 <= k && 0 <= m < p.NM()
    ensures Spent(p, opening, m, k + 1) == Spent(p, opening, m, k) + VisitTime(p, opening, m, k > 0)
    ensures k < p.NK() ==> Spent(p, opening, m, k) + VisitTime(p, opening, m, k > 0) <= Spent(p, opening, m, p.NK())
  {
    hide p.PassTime;
    var d := p.PassTime(m) + One(opening);
    assert (k + 1) * d == k * d + d;
    if k < p.NK() {
      IteratorTests(p, 0, 0, 0);
      assert d >= 0 by { PassLong(p, m); }
      MulLe(k + 1, p.NK(), d);
    }
  }

  lemma {:induction false} PassLong(p: Plan, m: int)
    requires p.Good() && 0 <= m < p.NM()
    ensures p.PassTime(m) >= 3 + p.Rows(m) && p.Rows(m) >= 1
  {
    hide p.InWait, p.PerBank, p.Rows;
    IteratorTests(p, m, 0, 0);
    WaitsPositive(p);
  }

  /** The row tile of the second output tile, and cycles from the first row of the first output tile to
      that of the second, when nothing is in the way. */
  function SecondRow(p: Plan): int requires p.Good() { if p.NN() >= 2 then 0 else 1 }

  function FirstGap(p: Plan, opening: bool): int
    requires p.Good()
  {
    p.Rows(0) - p.Rows(SecondRow(p)) + Spent(p, opening, SecondRow(p), p.NK())
  }

  /** The output wait is so long that the second output tile starts before it is over. */
  predicate TooLong(p: Plan, opening: bool) requires p.Good() { p.OutWait() >= FirstGap(p, opening) }

  /** With equal row tiles, or two output tiles in one column, no time between output tiles is shorter. */
  lemma {:induction false} GapIsSpacing(p: Plan)
    requires p.Good() && p.NM() * p.NN() > 1 && (EqualRows(p) || (p.NM() == 2 && p.NN() == 1))
    ensures FirstGap(p, false) == p.Spacing()
  {
    hide p.InWait, p.PerBank, p.NK, p.NN, p.NM, p.Rows, EqualRows;
    OneTileOnly(p);
    if EqualRows(p) {
      SpacingExact(p);
      RowsEqual(p, 0);
      RowsEqual(p, SecondRow(p));
    } else {
      FullRows(p, 0);
      var a, r, w := p.NK() - 1, p.Rows(1), p.InWait() + p.PerBank() + 1;
      assert (a + 1) * (r + w) == r + a * r + (a + 1) * w;
    }
  }

  method FirstTile(s: PimScheduler, answers: Answers, opening: bool, c: nat) returns (d: nat)
    requires Tracked(s, answers, opening, c) && s.plan.Good() && s.plan.NM() * s.plan.NN() > 1
    requires (opening ==> s.plan.NM() == 1)
    requires At(s.plan, s.View(), 0, Triple(0, 0, 0), 0, -1) && Open(s.View(), opening, false, false)
    requires s.plan.OutWait() >= s.plan.Rows(0) + s.plan.InWait()
    modifies s
    ensures At(s.plan, s.View(), 0, NextVisit(s.plan, Triple(0, 0, s.plan.NK() - 1)), 0,
      s.plan.OutWait() - s.plan.Rows(0) - s.plan.InWait())
    ensures Open(s.View(), opening, false, false)
    ensures s.plan.Good() && Tracked(s, answers, opening, d)
  {
    hide Tracked, s.Overwrites, TickNext, At, s.plan.PerBank, s.plan.InWait, s.plan.OutWait, s.plan.NK, s.plan.NN,
      s.plan.NM, s.plan.Rows;
    IteratorTests(s.plan, 0, 0, 0);
    OneTileOnly(s.plan);
    d := c;
    for k := 0 to s.plan.NK() - 1
      invariant At(s.plan, s.View(), 0, Triple(0, 0, k), 0, -1) && Open(s.View(), opening, false, k > 0)
      invariant s.plan.Good() && Tracked(s, answers, opening, d)
    {
      d := Visit(s, answers, opening, Triple(0, 0, k), k > 0, -1, d);
    }
    d := Visit(s, answers, opening, Triple(0, 0, s.plan.NK() - 1), s.plan.NK() > 1, -1, d);
  }

  /** The second output tile up to its last-K visit, with the count of the first one still running. */
  method SecondTile(s: PimScheduler, answers: Answers, opening: bool, v: Triple, out: int, c: nat) returns (d: nat)
    requires Tracked(s, answers, opening, c) && s.plan.Good() && (opening ==> s.plan.NM() == 1)
    requires s.plan.Visit(v.m, v.n, v.k) && v.k == 0
    requires At(s.plan, s.View(), 0, v, 0, out) && Open(s.View(), opening, false, false)
    requires out + s.plan.Rows(v.m) + s.plan.InWait() >= Spent(s.plan, opening, v.m, s.plan.NK())
    modifies s
    ensures At(s.plan, s.View(), 2, v.(k := s.plan.NK() - 1), 0,
      out + s.plan.Rows(v.m) + s.plan.InWait() - Spent(s.plan, opening, v.m, s.plan.NK()))
    ensures Open(s.View(), opening, false, true)
    ensures s.plan.Good() && Tracked(s, answers, opening, d)
  {
    hide Tracked, s.Overwrites, TickNext, At, s.plan.PerBank, s.plan.InWait, s.plan.OutWait, s.plan.NK, s.plan.NN,
      s.plan.NM, s.plan.Rows, Spent;
    IteratorTests(s.plan, 0, 0, 0);
    WaitsPositive(s.plan);
    d := c;
    SpentNone(s.plan, opening, v.m);
    SpentNext(s.plan, opening, v.m, 0);
    for k := 0 to s.plan.NK() - 1
      invariant At(s.plan, s.View(), 0, v.(k := k), 0, out - Spent(s.plan, opening, v.m, k))
      invariant Open(s.View(), opening, false, k > 0)
      invariant out - Spent(s.plan, opening, v.m, k) >= 0
      invariant s.plan.Good() && Tracked(s, answers, opening, d)
    {
      SpentNext(s.plan, opening, v.m, k);
      SpentNext(s.plan, opening, v.m, k + 1);
      d := Visit(s, answers, opening, v.(k := k), k > 0, out - Spent(s.plan, opening, v.m, k), d);
    }
    SpentNext(s.plan, opening, v.m, s.plan.NK() - 1);
    d := Prepare(s, answers, opening, v.(k := s.plan.NK() - 1), s.plan.NK() > 1,
      out - Spent(s.plan, opening, v.m, s.plan.NK() - 1), d);
  }

  lemma {:induction false} SpentNone(p: Plan, opening: bool, m: int)
    requires p.Good()
    ensures Spent(p, opening, m, 0) == 0
  {
  }

  lemma {:induction false} AboutToOverwrite(s: PimScheduler, v: Triple, out: int)
    requires s.Valid() && s.plan.Good() && s.plan.Visit(v.m, v.n, v.k) && v.k + 1 == s.plan.NK()
    requires At(s.plan, s.View(), 2, v, 0, out) && out >= 0
    ensures s.inPim && s.Overwrites() && s.Lost() >= 0
  {
    hide s.Output, s.Timely, s.Loaded, s.Begun, LoadTrace, StreamTrace, s.plan.StreamPos, s.plan.NK, s.plan.NN,
      s.plan.NM, s.plan.PerBank;
    SizeFormula(s.plan.M, s.plan.mt, s.tm);
    SameDigits(s.tm, s.si, v.m, 0, s.plan.mt);
  }

  /** The first row of the second output tile restarts the count of the first one. */
  method Overrun(s: PimScheduler, answers: Answers, opening: bool, v: Triple, out: int, c: nat) returns (d: nat)
    requires Tracked(s, answers, opening, c) && s.plan.Good() && (opening ==> s.plan.NM() == 1)
    requires s.plan.Visit(v.m, v.n, v.k) && v.k + 1 == s.plan.NK() && At(s.plan, s.View(), 2, v, 0, out) && out >= 0
    requires Open(s.View(), opening, false, true)
    modifies s
    ensures s.Lost() > 0 && Tracked(s, answers, opening, d)
  {
    hide s.Valid, s.Overwrites, TickNext, At, Opening, s.plan.NM, s.plan.NK, s.plan.NN, s.plan.Rows;
    NextFits(s, answers, opening, c);
    AboutToOverwrite(s, v, out);
    IteratorTests(s.plan, v.m, 0, 0);
    if opening {
      StreamOpens(s.plan, s.View(), v, 0, out);
    }
    d := Step(s, answers, opening, c);
  }

  /** With such a wait every run loses an output tile and is still going after any number of cycles. */
  method LosesOutput(p: Plan, answers: Answers, opening: bool, n: nat) returns (s: PimScheduler, c: nat)
    requires p.Good() && p.NM() * p.NN() > 1 && Plays(p, answers, opening)
    requires (opening ==> p.NM() == 1) && TooLong(p, opening)
    ensures s.plan == p && c >= n && s.inPim && s.View() == After(p, START, answers, c) && s.Lost() > 0 && s.Valid()
  {
    hide s.Valid, s.Overwrites, TickNext, At, Opening, Spent, p.NM, p.NK, p.NN, p.Rows, p.InWait, p.OutWait, Plays;
    s := new PimScheduler(p);
    Starts(s.View(), p, opening);
    var out := p.OutWait() - p.Rows(0) - p.InWait();
    SecondVisit(p);
    SpentNone(p, opening, SecondRow(p));
    SpentNext(p, opening, SecondRow(p), 0);
    PassLong(p, 0);
    IteratorTests(p, 0, 0, 0);
    c := FirstTile(s, answers, opening, 0);
    var v := NextVisit(p, Triple(0, 0, p.NK() - 1));
    c := SecondTile(s, answers, opening, v, out, c);
    c := Overrun(s, answers, opening, v.(k := p.NK() - 1), p.OutWait() - FirstGap(p, opening), c);
    while c < n
      invariant Tracked(s, answers, opening, c) && s.Lost() > 0
    {
      c := Step(s, answers, opening, c);
    }
    s.NeverEnds();
  }

  lemma {:induction false} Starts(s: State, p: Plan, opening: bool)
    requires s == START
    ensures At(p, s, 0, Triple(0, 0, 0), 0, -1) && Open(s, opening, false, false)
  {
  }

  lemma {:induction false} SecondVisit(p: Plan)
    requires p.Good() && p.NM() * p.NN() > 1
    ensures var v := NextVisit(p, Triple(0, 0, p.NK() - 1)); p.Visit(v.m, v.n, v.k) && v.k == 0 && v.m == SecondRow(p)
  {
    hide p.NM, p.NN, p.NK;
    OneTileOnly(p);
    IteratorTests(p, 0, 0, 0);
  }

  ghost predicate AllGranted(signals: nat -> Signals) { forall c: nat :: signals(c).Granted() }

  lemma {:induction false} GrantedIsFair(p: Plan, signals: nat -> Signals)
    requires p.Good() && AllGranted(signals)
    ensures Fair(signals) && Plays(p, Listed(signals), false)
  {
    forall c: nat, status: int | 0 <= status <= 3
      ensures Again(signals, c, status)
    {
      assert signals(c).Useful(status);
    }
  }

  /** With every request granted the run ends if the waits are paced, and never does if the output wait
      reaches into the second output tile.  With equal row tiles, or two output tiles in one column, one
      of the two is the case, and the condition is OutWait < NK * (min(M, mt) + InWait + PerBank + 1) for
      equal row tiles. */
  method EndsExactlyWhenPaced(p: Plan, signals: nat -> Signals, n: nat) returns (s: PimScheduler, c: nat)
    requires p.Good() && AllGranted(signals) && (p.Paced() || TooLong(p, false))
    ensures s.plan == p && s.Valid() && s.View() == After(p, START, Listed(signals), c)
    ensures if p.Paced() then !s.inPim else c >= n && s.inPim && s.Lost() > 0
  {
    hide s.Valid, AllGranted, Fair, Plays, p.NM, p.NK, p.NN, p.OutWait, p.Spacing, TooLong;
    GrantedIsFair(p, signals);
    OneTileOnly(p);
    if p.Paced() {
      s := new PimScheduler(p);
      c := s.RunFair(signals);
    } else {
      assert p.NM() * p.NN() > 1 by { MulLe(1, p.NM(), p.NN()); }
      s, c := LosesOutput(p, Listed(signals), false, n);
    }
  }

  lemma {:induction false} PacedOrTooLong(p: Plan)
    requires p.Good() && (EqualRows(p) || (p.NM() == 2 && p.NN() == 1))
    ensures p.Paced() || TooLong(p, false)
    ensures EqualRows(p) ==> (p.Paced() <==>
      p.NM() * p.NN() == 1 || p.OutWait() < p.NK() * (Min(p.M, p.mt) + p.InWait() + p.PerBank() + 1))
  {
    hide p.InWait, p.OutWait, p.PerBank, p.NK, p.NN, p.NM, p.Rows, EqualRows, FirstGap, p.Spacing;
    OneTileOnly(p);
    if p.NM() * p.NN() != 1 {
      MulLe(1, p.NM(), p.NN());
      GapIsSpacing(p);
    }
    if EqualRows(p) {
      SpacingExact(p);
    }
  }

  /** A finished run stays finished, so one that is going after any number of cycles never ends. */
  lemma {:induction false} StaysFinished(p: Plan, answers: Answers, c: nat, d: nat)
    requires p.Good() && c <= d && !After(p, START, answers, c).inPim
    ensures !After(p, START, answers, d).inPim
  {
    if c < d {
      StaysFinished(p, answers, c, d - 1);
    }
  }

  /** When banks have to be opened first, one row tile and several column tiles, the same happens once
      the output wait covers the activations too. */
  method OpeningLosesOutput(p: Plan, n: nat) returns (s: PimScheduler, c: nat)
    requires p.Good() && p.NM() == 1 && p.NN() >= 2
    requires p.OutWait() >= p.NK() * (p.M + p.InWait() + p.PerBank() + 2) + 1
    ensures s.plan == p && s.Valid() && s.View() == After(p, START, Opened(p), c) && c >= n && s.inPim && s.Lost() > 0
  {
    hide s.Valid, p.NK, p.NN, p.Rows, p.InWait, p.OutWait, p.PerBank, Opening;
    OneRowTile(p);
    OneTileOnly(p);
    IteratorTests(p, 0, 0, 0);
    MulLe(2, p.NN(), 1);
    s, c := LosesOutput(p, Opened(p), true, n);
  }

  lemma {:induction false} OneRowTile(p: Plan)
    requires p.Good() && p.NM() == 1
    ensures EqualRows(p) && p.Rows(0) == p.M
  {
    SizeFormula(p.M, p.mt, 0);
  }

  function Opened(p: Plan): Answers
    requires p.Good()
  {
    (c: nat, s: State) => Opening(p, s)
  }

  /** Whether a phase's bank is marked open, what it is answered, and the registers after c cycles. */
  function Marked(s: State, inputs: bool): bool { if inputs then s.inActPlaced else s.wActPlaced }

  function Sent(p: Plan, s: State, inputs: bool): Group
    requires p.Good()
  {
    if !s.inPim || s.status != (if inputs then 2 else 0) then Nothing
    else if inputs then Opening(p, s).inputs else Opening(p, s).weights
  }

  function OpenedAt(p: Plan, c: nat): State requires p.Good() { After(p, START, Opened(p), c) }

  /** Only an activation marks a bank open, a closing access unmarks it, and only a marked bank is accessed. */
  lemma {:induction false} MarkStep(p: Plan, s: State, inputs: bool)
    requires p.Good()
    ensures var r := TickNext(p, s, Opening(p, s));
      && (!Marked(s, inputs) && Marked(r, inputs) ==> Sent(p, s, inputs).Activations?)
      && (Sent(p, s, inputs).ClosingAccesses? ==> !Marked(r, inputs))
      && (Sent(p, s, inputs).Advances() ==> Marked(s, inputs))
  {
    hide LoadDone, RowDone, RowFirst, RowTile, p.InWait, p.OutWait, p.Kt;
  }

  lemma {:induction false} ActivatedSince(p: Plan, inputs: bool, c: nat, d: nat) returns (e: nat)
    requires p.Good() && c <= d && !Marked(OpenedAt(p, c), inputs) && Marked(OpenedAt(p, d), inputs)
    ensures c <= e < d && Sent(p, OpenedAt(p, e), inputs).Activations?
  {
    hide Opening, TickNext, Marked, Sent;
    MarkStep(p, OpenedAt(p, d - 1), inputs);
    if Marked(OpenedAt(p, d - 1), inputs) {
      e := ActivatedSince(p, inputs, c, d - 1);
    } else {
      e := d - 1;
    }
  }

  /** Such a run is one that banks allow: between a closing access and the next access, and before the
      first access of all, an activation is sent. */
  lemma {:induction false} OpenedBetween(p: Plan, inputs: bool, c: nat, d: nat) returns (e: nat)
    requires p.Good() && c < d && Sent(p, OpenedAt(p, d), inputs).Advances()
    requires c == 0 || Sent(p, OpenedAt(p, c), inputs).ClosingAccesses?
    ensures c <= e < d && Sent(p, OpenedAt(p, e), inputs).Activations?
  {
    hide Opening, TickNext, Sent;
    MarkStep(p, OpenedAt(p, c), inputs);
    MarkStep(p, OpenedAt(p, d), inputs);
    e := ActivatedSince(p, inputs, if c == 0 then 0 else c + 1, d);
  }
}
