/** The rows of a bank that a PIM run goes through: every bank sees the accesses of its lane in the order
    of the sweep, and each row has to be closed before another one is asked for.  A request that finds
    another row open is answered with a precharge, which ends the simulation in the input queue. */
module PimRows {
  import opened Arithmetic
  import opened Commands
  import opened BankSpec
  import opened ChannelSpec
  import opened Tiling
  import opened PimPlans
  import opened PimCoverage
  import opened PimCycles

  /** An access as its bank sees it: the row, and whether it closes the row. */
  datatype Touch = Touch(row: int, closes: bool)

  function Access(lane: Lane, t: Touch): Command {
    var kind := if lane.Outputs? then (if t.closes then PimWritePrecharge else PimWrite)
                else (if t.closes then GhReadPrecharge else GhRead);
    Command(kind, Address(0, 0, 0, 0, t.row, 0), 0)
  }

  function Opener(t: Touch): Command { Command(PimActivate, Address(0, 0, 0, 0, t.row, 0), 0) }

  /** The bank after one access, opened first if it is closed; None if the bank asks for anything else. */
  function Serve(v: BankView, lane: Lane, t: Touch): Option<BankView> {
    match Required(v, Access(lane, t))
    case Abort => None
    case Needs(k) =>
      if k == Access(lane, t).kind then Advance(v, Access(lane, t))
      else if k.PimActivate? then
        match Advance(v, Opener(t)) case None => None case Some(w) => Advance(w, Access(lane, t))
      else None
  }

  function ServeAll(lane: Lane, q: seq<Touch>): Option<BankView> {
    if q == [] then Some(FRESH)
    else match ServeAll(lane, q[..|q| - 1]) case None => None case Some(v) => Serve(v, lane, q[|q| - 1])
  }

  /** The row of access r is the open one, or none is open. */
  predicate Follows(q: seq<Touch>, r: int)
    requires 0 <= r < |q|
  {
    r == 0 || q[r - 1].closes || q[r - 1].row == q[r].row
  }

  /** The bank after the accesses q. */
  predicate LeftBy(v: BankView, q: seq<Touch>) {
    if q == [] || q[|q| - 1].closes then v.state.Closed? else v.state.Open? && v.openRow == q[|q| - 1].row
  }

  /** All accesses are served exactly when each finds its row open or no row open; the first that does
      not is answered with a precharge. */
  lemma {:induction false} ServedExactly(lane: Lane, q: seq<Touch>)
    ensures ServeAll(lane, q).Some? <==> forall r :: 0 <= r < |q| ==> Follows(q, r)
    ensures ServeAll(lane, q).Some? ==> LeftBy(ServeAll(lane, q).value, q)
    decreases |q|
  {
    if q != [] {
      var n := |q| - 1;
      ServedExactly(lane, q[..n]);
      assert forall r :: 0 <= r < n ==> (Follows(q, r) <==> Follows(q[..n], r));
      if ServeAll(lane, q[..n]).Some? {
        ServeOne(ServeAll(lane, q[..n]).value, lane, q);
      }
    }
  }

  lemma {:induction false} ServeOne(v: BankView, lane: Lane, q: seq<Touch>)
    requires q != [] && LeftBy(v, q[..|q| - 1])
    ensures Serve(v, lane, q[|q| - 1]).Some? <==> Follows(q, |q| - 1)
    ensures Serve(v, lane, q[|q| - 1]).Some? ==> LeftBy(Serve(v, lane, q[|q| - 1]).value, q)
    ensures Serve(v, lane, q[|q| - 1]).None? ==> Required(v, Access(lane, q[|q| - 1])) == Needs(Precharge)
  {
    if |q| > 1 {
      assert q[..|q| - 1][|q| - 2] == q[|q| - 2];
    }
  }

  /** A precharge in the input queue ends the simulation. */
  lemma {:induction false} PrechargeEnds(cfg: Config, s: PimSide, c: Command)
    requires |s.releaseTime| == |s.rdIn| && Awake(cfg.geo, s.channel) && PimOnly(cfg.geo, s.rdW)
    requires PimOnly(cfg.geo, s.rdIn) && PimOnly(cfg.geo, s.wrQ)
    requires c.kind.Precharge? && cfg.geo.Has(c.Where())
    ensures PimPart(cfg, Deliver(s, Inputs, [c])).None?
  {
    hide PimPart, Drain;
    var t := Deliver(s, Inputs, [c]);
    assert t.rdIn[|s.rdIn|] == c;
    PimPartExactly(cfg, t);
  }

  /** Offsets that follow each other stay in the row or come to the column end. */
  predicate AtEnd(cols: int, x: int) requires cols >= 1 { x % cols == cols - 1 }

  lemma {:induction false} NextOffset(cols: int, x: int)
    requires cols >= 1
    ensures AtEnd(cols, x) || x / cols == (x + 1) / cols
    ensures AtEnd(cols, x) <==> (x + 1) % cols == 0
  {
    var q, r := x / cols, x % cols;
    assert x == q * cols + r;
    if r == cols - 1 {
      DivUnique(x + 1, cols, q + 1);
    } else {
      DivUnique(x + 1, cols, q);
    }
  }

  // Inputs

  /** An input row is left open, except at a column end and at the very last row of a column tile. */
  function InputTouch(p: Plan, base: int, cols: int, s: Step): Touch
    requires p.Good() && cols >= 1
  {
    Touch(base + s.offset / cols, AtEnd(cols, s.offset) || (RowOf(p, s) + 1 == p.M && s.k + 1 == p.NK()))
  }

  function InputTouches(p: Plan, base: int, cols: int, q: seq<Step>): (t: seq<Touch>)
    requires p.Good() && cols >= 1
    ensures |t| == |q| && forall r :: 0 <= r < |q| ==> t[r] == InputTouch(p, base, cols, q[r])
  {
    seq(|q|, r requires 0 <= r < |q| => InputTouch(p, base, cols, q[r]))
  }

  /** After a streaming step comes the next row of the visit, or the first row of the next visit. */
  lemma {:induction false} StreamsFollow(p: Plan, q: seq<Step>, r: int)
    requires p.Good() && StreamTrace(p, q) && |q| <= AllStreams(p) && 0 < r < |q|
    ensures var s, t := q[r - 1], q[r]; var u := NextVisit(p, Triple(s.m, s.n, s.k));
      if s.i + 1 < p.Rows(s.m) then t.m == s.m && t.n == s.n && t.k == s.k && t.i == s.i + 1
      else u == Triple(t.m, t.n, t.k) && t.i == 0
  {
    hide p.NK, p.NN, p.NM, p.Rows, p.PerBank, p.StreamPos;
    var s, t := q[r - 1], q[r];
    StreamNext(p, s.m, s.n, s.k, s.i);
    if s.i + 1 < p.Rows(s.m) {
      SameStream(p, t, Step(s.m, s.n, s.k, s.i + 1, 0, Accesses));
    } else {
      var u := NextVisit(p, Triple(s.m, s.n, s.k));
      VisitsFollow(p, Triple(s.m, s.n, s.k));
      Ends(p);
      NextInside(p, Triple(s.m, s.n, s.k));
      SameStream(p, t, Step(u.m, u.n, u.k, 0, 0, Accesses));
    }
  }

  lemma {:induction false} StreamNext(p: Plan, m: int, n: int, k: int, i: int)
    requires p.Good()
    ensures p.StreamPos(m, n, k, i + 1) == p.StreamPos(m, n, k, i) + 1
  {
  }

  lemma {:induction false} NextInside(p: Plan, v: Triple)
    requires p.Good() && p.Visit(v.m, v.n, v.k)
    ensures var u := NextVisit(p, v);
      if u.m < p.NM() then p.Visit(u.m, u.n, u.k) && p.Rows(u.m) >= 1 else u == Triple(p.NM(), 0, 0)
  {
    hide p.NK, p.NN, p.NM, p.Rows;
    IteratorTests(p, NextVisit(p, v).m, 0, 0);
  }

  /** First and last offset of the inputs of a row tile. */
  function FirstIn(p: Plan, m: int): int requires p.Good() { p.InputOffset(m, 0, 0) }
  function LastIn(p: Plan, m: int): int requires p.Good() { p.InputOffset(m, p.NK() - 1, p.Rows(m) - 1) }

  /** The inputs of the row tile lie in one row of the bank, or end at a column end. */
  predicate TileFits(p: Plan, cols: int, m: int)
    requires p.Good() && cols >= 1
  {
    AtEnd(cols, LastIn(p, m)) || FirstIn(p, m) / cols == LastIn(p, m) / cols
  }

  /** Where the next step of the sweep finds its input. */
  lemma {:induction false} InputsFollow(p: Plan, m: int, k: int, i: int)
    requires p.Good() && 0 <= m < p.NM() && 0 <= k < p.NK() && 0 <= i < p.Rows(m)
    ensures p.InputOffset(m, k, i + 1) == p.InputOffset(m, k, i) + 1
    ensures i + 1 == p.Rows(m) && k + 1 < p.NK() ==> p.InputOffset(m, k + 1, 0) == p.InputOffset(m, k, i) + 1
    ensures i + 1 == p.Rows(m) && k + 1 == p.NK() ==>
      p.InputOffset(m, k, i) == LastIn(p, m) && p.InputOffset(m + 1, 0, 0) == LastIn(p, m) + 1
  {
    OffsetNext(p.M, p.mt, p.NK(), m, k);
  }

  /** Only the step back to the first inner tile for another column tile can find another row open. */
  lemma {:induction false} InputStep(p: Plan, q: seq<Step>, base: int, cols: int, r: int)
    requires p.Good() && cols >= 1 && StreamTrace(p, q) && |q| <= AllStreams(p) && 0 <= r < |q|
    ensures Follows(InputTouches(p, base, cols, q), r) <==>
      r == 0 || !Returns(p, q[r - 1]) || q[r - 1].m == p.NM() - 1 || TileFits(p, cols, q[r - 1].m)
  {
    hide p.NK, p.NN, p.NM, p.Rows, p.PerBank, p.StreamPos, p.InputOffset;
    if r > 0 {
      var s, t := q[r - 1], q[r];
      StreamsFollow(p, q, r);
      InputsFollow(p, s.m, s.k, s.i);
      LastRow(p, s.m, s.i);
      NextOffset(cols, s.offset);
    }
  }

  /** The last row of the last inner tile, with another column tile to come. */
  predicate Returns(p: Plan,
                    s: Step) requires p.Good() { s.i + 1 == p.Rows(s.m) && s.k + 1 == p.NK() && s.n + 1 < p.NN() }

  lemma {:induction false} LastRow(p: Plan, m: int, i: int)
    requires p.Good() && 0 <= m < p.NM() && 0 <= i < p.Rows(m)
    ensures m * p.mt + i + 1 == p.M <==> m == p.NM() - 1 && i + 1 == p.Rows(m)
  {
    SizeFormula(p.M, p.mt, m);
    if m + 1 < p.NM() {
      TilesCover(p.M, p.mt, m + 1);
      assert (m + 1) * p.mt == m * p.mt + p.mt;
    }
  }

  /** A complete run finds every input in a row it may open if and only if there is one column tile or the
      inputs of every row tile but the last lie in one row of the bank or end at a column end; otherwise
      some request is answered with a precharge. */
  lemma {:induction false} InputsServed(p: Plan, q: seq<Step>, base: int, cols: int)
    requires p.Good() && cols >= 1 && StreamTrace(p, q) && |q| == AllStreams(p)
    ensures ServeAll(Inputs, InputTouches(p, base, cols, q)).Some? <==>
      p.NN() == 1 || forall m :: 0 <= m < p.NM() - 1 ==> TileFits(p, cols, m)
  {
    hide p.NK, p.NN, p.NM, p.Rows, p.PerBank, p.StreamPos, p.InputOffset, AllStreams, TileFits, Follows;
    var t := InputTouches(p, base, cols, q);
    ServedExactly(Inputs, t);
    forall r | 0 <= r < |q|
      ensures Follows(t, r) <==>
        r == 0 || !Returns(p, q[r - 1]) || q[r - 1].m == p.NM() - 1 || TileFits(p, cols, q[r - 1].m)
    {
      InputStep(p, q, base, cols, r);
    }
    IteratorTests(p, 0, 0, 0);
    if p.NN() > 1 && exists m :: 0 <= m < p.NM() - 1 && !TileFits(p, cols, m) {
      var m :| 0 <= m < p.NM() - 1 && !TileFits(p, cols, m);
      var r := ReturnAt(p, q, m);
      assert !Follows(t, r);
    }
  }

  lemma {:induction false} ReturnAt(p: Plan, q: seq<Step>, m: int) returns (r: int)
    requires p.Good() && StreamTrace(p, q) && |q| == AllStreams(p) && 0 <= m < p.NM() && p.NN() > 1
    ensures 0 < r < |q| && q[r - 1].m == m && Returns(p, q[r - 1])
  {
    hide p.NK, p.NN, p.NM, p.Rows, p.PerBank, p.StreamPos;
    IteratorTests(p, m, 0, 0);
    var k, i := p.NK() - 1, p.Rows(m) - 1;
    StreamInside(p, m, 0, k, i);
    StreamInside(p, m, 1, 0, 0);
    r := p.StreamPos(m, 0, k, i) + 1;
    StreamNext(p, m, 0, k, i);
    VisitsFollow(p, Triple(m, 0, k));
    SameStream(p, q[r - 1], Step(m, 0, k, i, 0, Accesses));
  }

  /** The condition in numbers: a row tile that is not the last takes mt * NK offsets. */
  lemma {:induction false} FitsInNumbers(p: Plan, cols: int, m: int)
    requires p.Good() && cols >= 1 && 0 <= m < p.NM() - 1
    ensures TileFits(p, cols, m) <==>
      ((m + 1) * (p.mt * p.NK())) % cols == 0 || m * (p.mt * p.NK()) / cols == ((m + 1) * (p.mt * p.NK()) - 1) / cols
  {
    hide p.NK, p.NN, p.NM, FirstIn, LastIn, p.Rows;
    TileEnds(p, m);
    NextOffset(cols, LastIn(p, m));
  }

  lemma {:induction false} TileEnds(p: Plan, m: int)
    requires p.Good() && 0 <= m < p.NM() - 1
    ensures FirstIn(p, m) == m * (p.mt * p.NK()) && LastIn(p, m) + 1 == (m + 1) * (p.mt * p.NK())
  {
    hide p.NK, p.NN;
    FullRows(p, m);
    IteratorTests(p, m, 0, 0);
    SizeFormula(p.M, p.mt, m);
    SizeFormula(p.M, p.mt, m + 1);
    InputsFollow(p, m, p.NK() - 1, p.Rows(m) - 1);
    Associate(m, p.mt, p.NK());
    Associate(m + 1, p.mt, p.NK());
  }

  lemma {:induction false} Associate(a: int, b: int, c: int)
    ensures (a * b) * c == a * (b * c)
  {
  }

  /** A tile of 256 rows and three inner tiles does not fit rows of 512 columns. */
  lemma {:induction false} Clashes(p: Plan)
    requires p.Good() && p.mt == 256 && p.NK() == 3 && p.NM() >= 2
    ensures !TileFits(p, 512, 0)
  {
    hide TileFits, p.NK, p.NM;
    FitsInNumbers(p, 512, 0);
  }

  // Weights and outputs

  /** A weight row is closed at a column end and at the end of a tile, and maybe elsewhere. */
  function WeightTouch(p: Plan, base: int, cols: int, also: int -> bool, s: Step): Touch
    requires p.Good() && cols >= 1
  {
    Touch(base + s.offset / cols, AtEnd(cols, s.offset) || s.i + 1 == p.PerBank() || also(s.offset))
  }

  function WeightTouches(p: Plan, base: int, cols: int, also: int -> bool, q: seq<Step>): (t: seq<Touch>)
    requires p.Good() && cols >= 1
    ensures |t| == |q| && forall r :: 0 <= r < |q| ==> t[r] == WeightTouch(p, base, cols, also, q[r])
  {
    seq(|q|, r requires 0 <= r < |q| => WeightTouch(p, base, cols, also, q[r]))
  }

  /** Loading weights never finds another row open. */
  lemma {:induction false} WeightsServed(p: Plan, q: seq<Step>, base: int, cols: int, also: int -> bool)
    requires p.Good() && cols >= 1 && LoadTrace(p, q) && |q| <= AllLoads(p)
    ensures ServeAll(Weights, WeightTouches(p, base, cols, also, q)).Some?
  {
    hide p.NK, p.NN, p.NM, p.PerBank, p.LoadPos, AllLoads;
    var t := WeightTouches(p, base, cols, also, q);
    forall r | 0 <= r < |q|
      ensures Follows(t, r)
    {
      if r > 0 && q[r - 1].i + 1 < p.PerBank() {
        var s := q[r - 1];
        LoadNumbers(p, s.m, s.n, s.k, s.i);
        SameLoad(p, q[r], Step(s.m, s.n, s.k, s.i + 1, 0, Accesses));
        NextOffset(cols, s.offset);
      }
    }
    ServedExactly(Weights, t);
  }

  lemma {:induction false} LoadNumbers(p: Plan, m: int, n: int, k: int, i: int)
    requires p.Good()
    ensures p.LoadPos(m, n, k, i + 1) == p.LoadPos(m, n, k, i) + 1
    ensures p.WeightOffset(n, k, i + 1) == p.WeightOffset(n, k, i) + 1
  {
  }

  /** An output row is closed at a column end and at the last row of a column tile. */
  function OutputTouch(p: Plan, base: int, cols: int, s: Step): Touch
    requires cols >= 1
  {
    Touch(base + s.offset / cols, AtEnd(cols, s.offset) || RowOf(p, s) + 1 == p.M)
  }

  function OutputTouches(p: Plan, base: int, cols: int, q: seq<Step>): (t: seq<Touch>)
    requires cols >= 1
    ensures |t| == |q| && forall r :: 0 <= r < |q| ==> t[r] == OutputTouch(p, base, cols, q[r])
  {
    seq(|q|, r requires 0 <= r < |q| => OutputTouch(p, base, cols, q[r]))
  }

  /** Neither does writing outputs. */
  lemma {:induction false} OutputsServed(p: Plan, q: seq<Step>, base: int, cols: int)
    requires p.Good() && cols >= 1 && OutTrace(p, q)
    ensures ServeAll(Outputs, OutputTouches(p, base, cols, q)).Some?
  {
    hide p.NN, p.NM, p.OutPos;
    var t := OutputTouches(p, base, cols, q);
    forall r | 0 <= r < |q|
      ensures Follows(t, r)
    {
      if r > 0 {
        NextOffset(cols, r - 1);
      }
    }
    ServedExactly(Outputs, t);
  }
}
