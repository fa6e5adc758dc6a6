/** The run in which banks have to be opened, with one row tile: it ends exactly when the output wait is
    shorter than the time between two output tiles, activations included. */
module PimOpening {
  import opened Arithmetic
  import opened Commands
  import opened Tiling
  import opened PimPlans
  import opened PimSchedulers
  import opened PimPacing

  /** The registers stand at this place of the sweep. */
  ghost predicate Stands(p: Plan, s: State, a: Spot)
    requires p.Good()
  {
    && s.status == a.status && s.kIt == a.k && s.inCnt == a.wait && 0 <= s.vpuCnt <= 1 && s.outCnt >= -1
    && s.nIt == 128 * a.n + (if a.status == 0 then a.i else 0)
    && s.mIt == p.mt * a.m + (if a.status == 2 then a.i else 0)
    && InRange(p, a)
  }

  ghost predicate InRange(p: Plan, a: Spot)
    requires p.Good()
  {
    && 0 <= a.status <= 3
    && (p.Visit(a.m, a.n, a.k) || (a.m == p.NM() && a.n == 0 && a.k == 0 && a.status == 3))
    && (if a.status == 0 then 0 <= a.i < p.PerBank() else if a.status == 2 then 0 <= a.i < p.Rows(a.m) else a.i == 0)
    && a.wait >= -1 && (a.wait == -1 <==> a.m == p.NM())
  }

  lemma {:induction false} HereStands(s: PimScheduler)
    requires s.Valid()
    ensures s.plan.Good() && Stands(s.plan, s.View(), s.Here())
  {
    hide s.Output, s.Timely, s.Loaded, s.Begun, LoadTrace, StreamTrace, s.plan.StreamPos, s.plan.NK, s.plan.NN,
      s.plan.NM,
      s.plan.PerBank, s.plan.Rows;
  }

  /** The registers tell the place. */
  lemma {:induction false} OneSpot(p: Plan, s: State, a: Spot, b: Spot)
    requires p.Good() && Stands(p, s, a) && Stands(p, s, b)
    ensures a == b
  {
    hide p.NK, p.NN, p.NM, p.PerBank, p.Rows;
    PerBankDivides(p);
    RowsFit(p, a);
    RowsFit(p, b);
    SameDigits(a.n, if a.status == 0 then a.i else 0, b.n, if a.status == 0 then b.i else 0, 128);
    SameDigits(a.m, if a.status == 2 then a.i else 0, b.m, if a.status == 2 then b.i else 0, p.mt);
  }

  lemma {:induction false} RowsFit(p: Plan, a: Spot)
    requires p.Good() && InRange(p, a)
    ensures a.status == 2 ==> 0 <= a.i < p.mt
  {
    if a.status == 2 {
      SizeFormula(p.M, p.mt, a.m);
    }
  }

  /** What is marked open where. */
  predicate Marks(s: State, a: Spot) {
    && (if a.status == 0 then a.i > 0 ==> s.wActPlaced else !s.wActPlaced)
    && (a.k > 0 ==> s.inActPlaced)
    && (a.k == 0 ==> if a.status == 2 then a.i > 0 ==> s.inActPlaced else !s.inActPlaced)
  }

  /** Cycles of a visit, one activation of the weights included, and between two output tiles. */
  function VisitLong(p: Plan): int requires p.Good() { p.PassTime(0) + 1 }

  function TileLong(p: Plan): int requires p.Good() { p.NK() * VisitLong(p) + 1 }

  function Beyond(p: Plan, k: int): int requires p.Good() { (p.NK() - 1 - k) * VisitLong(p) }

  lemma {:induction false} BeyondNext(p: Plan, k: int)
    requires p.Good()
    ensures k + 1 == p.NK() ==> Beyond(p, k) == 0
    ensures Beyond(p, k) == Beyond(p, k + 1) + VisitLong(p)
    ensures TileLong(p) == Beyond(p, 0) + VisitLong(p) + 1
  {
    hide VisitLong;
    var a, b := p.NK() - 2 - k, VisitLong(p);
    assert (a + 1) * b == a * b + b;
    assert p.NK() * b == (p.NK() - 1) * b + b;
  }

  /** Cycles up to and including the first row of the next output tile, activations included. */
  function Until(p: Plan, s: State, a: Spot): int
    requires p.Good()
  {
    if Begins(p, a) then TileLong(p) - a.i + 1
    else Beyond(p, a.k) + One(!s.inActPlaced)
         + if a.status == 0 then p.PerBank() + 2 - a.i + One(!s.wActPlaced)
           else if a.status == 1 then 2
           else if a.status == 2 then 1 - a.i
           else a.wait + p.PerBank() + 3
  }

  predicate OutBefore(p: Plan, s: State, a: Spot)
    requires p.Good()
  {
    MoreTiles(p, a) ==> s.outCnt <= Max(-1, Until(p, s, a) - 2)
  }

  /** Where the next cycle leads. */
  function Onward(p: Plan, s: State, a: Spot): Spot
    requires p.Good()
  {
    if a.status == 0 then
      if !s.wActPlaced then a else if a.i + 1 < p.PerBank() then a.(i := a.i + 1) else a.(status := 1, i := 0)
    else if a.status == 1 then a.(status := 2)
    else if a.status == 2 then
      if !s.inActPlaced then a
      else if a.i + 1 < p.Rows(a.m) then a.(i := a.i + 1)
      else var u := NextVisit(p, Triple(a.m, a.n, a.k));
        Spot(3, u.m, u.n, u.k, 0, if u.m < p.NM() then p.InWait() else -1)
    else if a.wait == -1 then a
    else var w := Max(0, a.wait - 1); a.(wait := w, status := if w == 0 && s.outputValid == 0 then 0 else 3)
  }

  /** What a cycle does to the registers that matter here. */
  predicate Phased(s: State, r: State, out: int) {
    r.wActPlaced == s.wActPlaced && r.inActPlaced == s.inActPlaced && r.outCnt == Less(out)
    && r.status == s.status && r.kIt == s.kIt && r.nIt == s.nIt && r.mIt == s.mIt && r.inCnt == s.inCnt &&
      r.vpuCnt == s.vpuCnt
  }

  lemma {:induction false} TickPhase(p: Plan, s: State)
    requires p.Good() && s.inPim
    ensures var x := PhaseNext(p, s, Opening(p, s)); Phased(x, TickNext(p, s, Opening(p, s)), x.outCnt)
  {
    hide LoadNext, StreamNext, AwaitNext, LoadDone, RowTile, RowDone, p.Kt;
  }

  lemma {:induction false} LoadPhase(p: Plan, s: State, a: Spot)
    requires p.Good() && s.inPim && Stands(p, s, a) && Marks(s, a) && a.status == 0
    ensures var b := Onward(p, s, a); var x := PhaseNext(p, s, Opening(p, s));
      Stands(p, x, b) && Marks(x, b) && x.outCnt == s.outCnt && x.inActPlaced == s.inActPlaced
      && (b == a ==> x.wActPlaced) && (b.status == 0 ==> x.wActPlaced) && InRange(p, b)
  {
    hide p.Rows, p.NM, p.NN, p.NK, p.PerBank, p.Kt;
    LoadExit(p, a.n, a.i);
  }

  lemma {:induction false} TurnPhase(p: Plan, s: State, a: Spot)
    requires p.Good() && s.inPim && Stands(p, s, a) && Marks(s, a) && a.status == 1
    ensures var b := Onward(p, s, a); var x := PhaseNext(p, s, Opening(p, s));
      Stands(p, x, b) && Marks(x, b) && x.outCnt == s.outCnt && x.inActPlaced == s.inActPlaced
  {
    hide p.NM, p.NN, p.NK, p.PerBank, p.Kt, p.Rows;
    IteratorTests(p, a.m, a.n, a.k);
  }

  lemma {:induction false} AwaitPhase(p: Plan, s: State, a: Spot)
    requires p.Good() && s.inPim && Stands(p, s, a) && Marks(s, a) && a.status == 3
    ensures var b := Onward(p, s, a); var x := PhaseNext(p, s, Opening(p, s));
      Stands(p, x, b) && Marks(x, b) && x.outCnt == s.outCnt && x.inActPlaced == s.inActPlaced && !x.wActPlaced
  {
    hide p.NM, p.NN, p.NK, p.PerBank, p.Kt, p.Rows;
    IteratorTests(p, a.m, a.n, a.k);
  }

  lemma {:induction false} StreamPhase(p: Plan, s: State, a: Spot)
    requires p.Good() && p.NM() == 1 && s.inPim && Stands(p, s, a) && Marks(s, a) && a.status == 2
    ensures var b := Onward(p, s, a); var x := PhaseNext(p, s, Opening(p, s));
      Stands(p, x, b) && Marks(x, b) && (b == a ==> x.inActPlaced)
      && x.outCnt == if s.inActPlaced && a.k + 1 == p.NK() && a.i == 0 then p.OutWait() else s.outCnt
  {
    hide p.NM, p.NN, p.NK, p.PerBank, p.Kt, p.Rows, p.InWait, p.OutWait, RowNext, RowDone, RowFirst, RowTile, LoadDone;
    WaitsPositive(p);
    if s.inActPlaced {
      StreamClosing(p, s, a);
      var x := s.(vpuCnt := 0, inActPlaced := !Opening(p, s).inputs.ClosingAccesses?);
      RowStep(p, x, Triple(a.m, a.n, a.k), a.i);
      assert PhaseNext(p, s, Opening(p, s)) == RowNext(p, x);
      OnwardStands(p, s, a);
    }
  }

  /** The last row of the last-K visit closes the inputs' bank. */
  lemma {:induction false} StreamClosing(p: Plan, s: State, a: Spot)
    requires p.Good() && p.NM() == 1 && Stands(p, s, a) && a.status == 2 && s.inActPlaced
    ensures Opening(p, s).inputs.Advances()
    ensures Opening(p, s).inputs.ClosingAccesses? <==> a.i + 1 == p.Rows(a.m) && a.k + 1 == p.NK()
  {
    hide LoadDone, p.PerBank;
    SizeFormula(p.M, p.mt, 0);
    IteratorTests(p, 0, 0, a.k + 1);
  }

  lemma {:induction false} OnwardStands(p: Plan, s: State, a: Spot)
    requires p.Good() && Stands(p, s, a) && a.status == 2 && s.inActPlaced
    ensures InRange(p, Onward(p, s, a))
  {
    hide p.NM, p.NN, p.NK, p.PerBank, p.Kt, p.Rows, p.InWait;
    IteratorTests(p, a.m, a.n, a.k);
    WaitsPositive(p);
  }

  /** The output wait is over before the next output tile starts, or there is none. */
  predicate ShortWait(p: Plan) requires p.Good() { p.NN() == 1 || p.OutWait() < TileLong(p) }

  /** Streaming keeps the output count ahead of the next output tile. */
  lemma {:induction false} RowTime(p: Plan, s: State, a: Spot, x: State)
    requires p.Good() && p.NM() == 1 && ShortWait(p) && Stands(p, s, a) && Marks(s, a) && a.status == 2
    requires s.inActPlaced && OutBefore(p, s, a)
    requires Marks(x, Onward(p, s, a))
    requires x.outCnt == Less(if a.k + 1 == p.NK() && a.i == 0 then p.OutWait() else s.outCnt)
    ensures OutBefore(p, x, Onward(p, s, a))
    ensures a.k + 1 == p.NK() && a.i == 0 ==> s.outCnt == -1
  {
    hide p.InWait, p.OutWait, p.NN, p.NM, p.NK, p.PerBank, p.Rows, Beyond, TileLong;
    IteratorTests(p, a.m, a.n, a.k);
    WaitsPositive(p);
    BeyondNext(p, a.k);
  }

  lemma {:induction false} OtherTime(p: Plan, s: State, a: Spot, x: State)
    requires p.Good() && Stands(p, s, a) && Marks(s, a) && OutBefore(p, s, a) && (a.status == 2 ==> !s.inActPlaced)
    requires Marks(x, Onward(p, s, a)) && x.outCnt == Less(s.outCnt)
    requires a.status != 2 ==> x.inActPlaced == s.inActPlaced
    requires a.status == 0 && Onward(p, s, a).status == 0 ==> x.wActPlaced
    requires a.status == 3 ==> !x.wActPlaced
    requires a.status == 2 ==> x.inActPlaced
    ensures OutBefore(p, x, Onward(p, s, a))
  {
    hide p.InWait, p.OutWait, p.NN, p.NM, p.NK, p.PerBank, p.Rows, Beyond, TileLong;
  }

  /** A cycle of the run keeps place, marks and output count in step. */
  lemma {:induction false} OpenTick(p: Plan, s: State, a: Spot)
    requires p.Good() && p.NM() == 1 && ShortWait(p) && s.inPim && Stands(p, s, a) && Marks(s, a) && OutBefore(p, s, a)
    ensures var b := Onward(p, s, a); var r := TickNext(p, s, Opening(p, s));
      Stands(p, r, b) && Marks(r, b) && OutBefore(p, r, b)
    ensures a.status == 2 && s.inActPlaced && a.k + 1 == p.NK() && a.i == 0 ==> s.outCnt == -1
  {
    hide p.InWait, p.OutWait, p.NN, p.NM, p.NK, p.PerBank, p.Rows, OutBefore, ShortWait, PhaseNext, TickNext, Opening,
      Onward;
    TickPhase(p, s);
    WaitsPositive(p);
    var r := TickNext(p, s, Opening(p, s));
    if a.status == 0 {
      LoadPhase(p, s, a);
      OtherTime(p, s, a, r);
    } else if a.status == 1 {
      TurnPhase(p, s, a);
      OtherTime(p, s, a, r);
    } else if a.status == 2 {
      StreamPhase(p, s, a);
      if s.inActPlaced {
        RowTime(p, s, a, r);
      } else {
        OnwardSame(p, s, a);
        OtherTime(p, s, a, r);
      }
    } else {
      AwaitPhase(p, s, a);
      OtherTime(p, s, a, r);
    }
  }

  lemma {:induction false} OnwardSame(p: Plan, s: State, a: Spot)
    requires p.Good() && a.status == 2 && !s.inActPlaced
    ensures Onward(p, s, a) == a
  {
  }

  /** The phase still has to open its bank. */
  function Unopened(s: State): nat {
    One(if s.status == 0 then !s.wActPlaced else if s.status == 2 then !s.inActPlaced
      else s.status == 3 && !s.outActPlaced)
  }

  /** A cycle that does not move its phase on opens the bank. */
  lemma {:induction false} OpensOrServes(p: Plan, s: State)
    requires p.Good() && s.inPim && 0 <= s.status <= 3 && s.outputValid >= 0 && !Opening(p, s).Serves(s)
    requires TickNext(p, s, Opening(p, s)).status == s.status
    ensures Unopened(TickNext(p, s, Opening(p, s))) < Unopened(s)
  {
    hide RowNext, RowTile, RowDone, RowFirst, LoadDone, OutputNext;
    var t := Opening(p, s);
    assert !t.inRefresh && !t.waitRefresh;
    if s.status == 3 {
      assert t.outputs.Activations? && !s.outActPlaced;
      assert CountNext(AwaitNext(s)).outputValid > 0;
      assert TickNext(p, s, t).outActPlaced;
    }
  }

  /** The scheduler after c cycles, with nothing lost and the output count in time. */
  ghost predicate InStep(s: PimScheduler, c: nat)
    reads s
  {
    && s.Valid() && s.plan.Good() && s.plan.NM() == 1 && ShortWait(s.plan) && s.Lost() == 0
    && s.View() == After(s.plan, START, Opened(s.plan), c) && Marks(s.View(), s.Here()) &&
      OutBefore(s.plan, s.View(), s.Here())
  }

  lemma {:induction false} NoOverwrite(s: PimScheduler, a: Spot)
    requires s.Valid() && s.inPim && a == s.Here()
    requires a.status == 2 && s.inActPlaced && s.plan.Good() && a.k + 1 == s.plan.NK() && a.i == 0 ==> s.outCnt == -1
    ensures Opening(s.plan, s.View()).Useful(2) ==> !s.Overwrites()
  {
    hide s.Output, s.Timely, s.Loaded, s.Begun, LoadTrace, StreamTrace, s.plan.StreamPos, s.plan.NK, s.plan.NN,
      s.plan.NM, s.plan.PerBank,
      s.plan.Rows, LoadDone;
  }

  lemma {:induction false} Announced(s: PimScheduler)
    requires s.Valid()
    ensures s.outputValid >= 0
  {
  }

  /** One cycle: the run stays in step and comes closer to its end, or opens a bank. */
  method StepOn(s: PimScheduler, c: nat)
    requires InStep(s, c) && s.inPim
    modifies s
    ensures s.plan.Good()
    ensures s.Remaining() < old(s.Remaining()) || (s.Remaining() == old(s.Remaining()) &&
      (s.Waiting() < old(s.Waiting()) ||
        (s.Waiting() == old(s.Waiting()) && Unopened(s.View()) < old(Unopened(s.View())))))
    ensures InStep(s, c + 1)
  {
    hide s.Valid, s.Remaining, s.Waiting, s.Overwrites, TickNext, Opening, Onward, OutBefore, Marks, ShortWait,
      Unopened, s.plan.NM;
    ghost var a := s.Here();
    HereStands(s);
    OpenTick(s.plan, s.View(), a);
    NoOverwrite(s, a);
    Announced(s);
    if !Opening(s.plan, s.View()).Serves(s.View()) &&
      TickNext(s.plan, s.View(), Opening(s.plan, s.View())).status == s.status {
      OpensOrServes(s.plan, s.View());
    }
    var _ := s.Tick(Opening(s.plan, s.View()));
    HereStands(s);
    OneSpot(s.plan, s.View(), s.Here(), old(Onward(s.plan, s.View(), a)));
  }

  lemma {:induction false} StartsInStep(s: PimScheduler)
    requires s.Valid() && s.plan.Good() && s.plan.NM() == 1 && ShortWait(s.plan) && s.Lost() == 0 && s.View() == START
    ensures InStep(s, 0)
  {
    hide ShortWait;
    HereStands(s);
    IteratorTests(s.plan, 0, 0, 0);
    OneSpot(s.plan, s.View(), s.Here(), Spot(0, 0, 0, 0, 0, 0));
  }

  /** With a short output wait the run ends. */
  method EndsOpening(p: Plan) returns (s: PimScheduler, c: nat)
    requires p.Good() && p.NM() == 1 && ShortWait(p)
    ensures s.plan == p && s.Valid() && !s.inPim && s.View() == After(p, START, Opened(p), c)
  {
    hide PimScheduler.Valid, PimScheduler.Remaining, PimScheduler.Waiting, ShortWait, Marks, OutBefore, Unopened,
      Opened, p.NM;
    s := new PimScheduler(p);
    StartsInStep(s);
    c := 0;
    s.Bounded();
    while s.inPim
      invariant s.plan == p && fresh(s) && InStep(s, c) && s.Remaining() >= 0 && s.Waiting() >= 0
      decreases s.Remaining(), s.Waiting(), Unopened(s.View())
    {
      StepOn(s, c);
      s.Bounded();
      c := c + 1;
    }
  }

  /** One row tile, banks opened as they have to be: the run ends if there is one column tile or
      OutWait < NK * (M + InWait + PerBank + 2) + 1, and otherwise it never does. */
  method OpeningEndsExactly(p: Plan, n: nat) returns (s: PimScheduler, c: nat)
    requires p.Good() && p.NM() == 1
    ensures s.plan == p && s.Valid() && s.View() == After(p, START, Opened(p), c)
    ensures if p.NN() == 1 || p.OutWait() < p.NK() * (p.M + p.InWait() + p.PerBank() + 2) + 1 then !s.inPim
            else c >= n && s.inPim && s.Lost() > 0
  {
    hide PimScheduler.Valid, p.NK, p.Rows, p.InWait, p.OutWait, p.PerBank, Opened;
    OneRowTile(p);
    OneTileOnly(p);
    if ShortWait(p) {
      s, c := EndsOpening(p);
    } else {
      s, c := OpeningLosesOutput(p, n);
    }
  }
}
