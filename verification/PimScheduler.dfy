/** The PIM command scheduler: a state machine that loads weights, streams inputs and writes outputs,
    tile by tile.  What the channels answer in a cycle is an input of the cycle. */
module PimSchedulers {
  import opened Arithmetic
  import opened Commands
  import opened Tiling
  import opened PimCoverage
  import opened PimPlans
  import opened PimMarks

  datatype Signals = Signals(inRefresh: bool, waitRefresh: bool, weights: Group, inputs: Group, outputs: Group)
  {
    /** In every phase the iterators move on. */
    predicate Granted() { !inRefresh && weights.Advances() && inputs.Advances() && outputs.Advances() }

    /** In this phase they do. */
    predicate Useful(status: int) {
      && !inRefresh
      && (status == 0 ==> weights.Advances())
      && (status == 2 ==> inputs.Advances())
      && (status == 3 ==> outputs.Advances())
    }

    /** With these registers they do: an output is asked for only when one is announced or about to be. */
    predicate Serves(s: State) {
      && !inRefresh
      && (s.status == 0 ==> weights.Advances())
      && (s.status == 2 ==> inputs.Advances())
      && (s.status == 3 && (s.outputValid > 0 || s.outCnt == 0) ==> outputs.Advances())
    }
  }

  /** Activations, stalls and refreshes may come in any order, but whatever the phase a cycle that moves
      it on is always still to come. */
  ghost predicate Fair(signals: nat -> Signals) {
    forall c: nat, status: int :: 0 <= status <= 3 ==> Again(signals, c, status)
  }

  ghost predicate Again(signals: nat -> Signals, c: nat,
                        status: int) { exists d: nat :: c <= d && signals(d).Useful(status) }

  /** The scheduler's registers. */
  datatype State = State(inPim: bool, status: int, mIt: int, nIt: int, kIt: int, mOut: int, nOut: int, inCnt: int,
    outCnt: int,
                         vpuCnt: int, outputValid: int, wActPlaced: bool, inActPlaced: bool, outActPlaced: bool)

  /** What each part of a cycle makes of the registers, given the group that the channels answered with.
      An activation goes out, and is marked, only if none is marked and no refresh is awaited. */
  function LoadNext(p: Plan, s: State, g: Group, wait: bool): State
    requires p.Good()
  {
    if g.Nothing? then s
    else if g.Activations? then s.(wActPlaced := s.wActPlaced || !wait)
    else
      var r := if g.ClosingAccesses? then s.(wActPlaced := false) else s;
      if LoadDone(p, s.nIt + 1) then r.(nIt := 128 * (s.nIt / 128), status := s.status + 1) else r.(nIt := s.nIt + 1)
  }

  function StreamNext(p: Plan, s: State, g: Group, wait: bool): State
    requires p.Good()
  {
    var v := s.(vpuCnt := Max(0, s.vpuCnt - 1));
    if g.Nothing? then v
    else if g.Activations? then v.(inActPlaced := s.inActPlaced || !wait)
    else
      var r := if g.ClosingAccesses? then v.(inActPlaced := false) else v;
      if v.vpuCnt != 0 then r else RowNext(p, r)
  }

  function RowNext(p: Plan, s: State): State
    requires p.Good()
  {
    var r := if (s.kIt + 1) * p.Kt() >= p.K && RowFirst(p, s.mIt) then s.(outCnt := p.OutWait()) else s;
    if RowDone(p, s.mIt + 1) then PassNext(p, r, RowTile(p, s.mIt)) else r.(mIt := s.mIt + 1)
  }

  function PassNext(p: Plan, s: State, tile: int): State
    requires p.Good()
  {
    var n := 128 * (s.nIt / 128 + 1);
    var r := s.(status := s.status + 1, inCnt := p.InWait(), mIt := p.mt * tile, kIt := s.kIt + 1);
    if (s.kIt + 1) * p.Kt() < p.K then r
    else if n < p.N then r.(kIt := 0, nIt := n)
    else if p.mt * (tile + 1) < p.M then r.(kIt := 0, nIt := 0, mIt := p.mt * (tile + 1))
    else r.(kIt := 0, nIt := 0, mIt := p.mt * (tile + 1), inCnt := -1)
  }

  lemma {:induction false} PassIgnoresRow(p: Plan, s: State, row: int, tile: int)
    requires p.Good()
    ensures PassNext(p, s.(mIt := row), tile) == PassNext(p, s, tile)
  {
  }

  function AwaitNext(s: State): State {
    if s.inCnt == -1 then s
    else
      var c := Max(0, s.inCnt - 1);
      s.(inCnt := c, status := if c == 0 && s.outputValid == 0 then 0 else s.status)
  }

  function CountNext(s: State): State {
    s.(outputValid := if s.outCnt == 0 then s.outputValid + 1 else s.outputValid,
       outCnt := if s.outCnt == -1 then -1 else s.outCnt - 1)
  }

  function WriteNext(p: Plan, s: State, g: Group, wait: bool): State
    requires p.Good()
  {
    if g.Nothing? then s
    else if g.Activations? then s.(outActPlaced := s.outActPlaced || !wait)
    else OutputNext(p, if g.ClosingAccesses? then s.(outActPlaced := false) else s)
  }

  function OutputNext(p: Plan, s: State): State
    requires p.Good()
  {
    var tile := RowTile(p, s.mOut);
    if !RowDone(p, s.mOut + 1) then s.(mOut := s.mOut + 1)
    else
      var r := s.(outputValid := s.outputValid - 1, mOut := p.mt * tile, nOut := s.nOut + 1);
      if (s.nOut + 1) * 128 < p.N then r
      else r.(nOut := 0, mOut := p.mt * (tile + 1), inPim := s.inPim && p.mt * (tile + 1) < p.M)
  }

  function PhaseNext(p: Plan, s: State, t: Signals): State
    requires p.Good()
  {
    if s.status == 0 then LoadNext(p, s, t.weights, t.waitRefresh)
    else if s.status == 1 then s.(status := 2, vpuCnt := 1)
    else if s.status == 2 then StreamNext(p, s, t.inputs, t.waitRefresh)
    else AwaitNext(s)
  }

  function CycleNext(p: Plan, s: State, t: Signals): State
    requires p.Good()
  {
    var r := CountNext(PhaseNext(p, s, t));
    if r.outputValid > 0 && s.status == 3 then WriteNext(p, r, t.outputs, t.waitRefresh) else r
  }

  function TickNext(p: Plan, s: State, t: Signals): State
    requires p.Good()
  {
    var r := if t.waitRefresh then s.(wActPlaced := false, inActPlaced := false, outActPlaced := false) else s;
    if !s.inPim || t.inRefresh then r else CycleNext(p, r, t)
  }

  /** At the launch all iterators and counts are at rest. */
  const START: State := State(true, 0, 0, 0, 0, 0, 0, 0, -1, 0, 0, false, false, false)

  /** Answers that may depend on the cycle and on the registers, and the registers after c cycles of them. */
  type Answers = (nat, State) -> Signals

  function Listed(signals: nat -> Signals): Answers { (c: nat, s: State) => signals(c) }

  function After(p: Plan, s: State, answers: Answers, c: nat): State
    requires p.Good()
  {
    if c == 0 then s else var r := After(p, s, answers, c - 1); TickNext(p, r, answers(c - 1, r))
  }

  /** What is sent of an answer: an activation goes out only if none is marked and no refresh is awaited. */
  function Passed(g: Group, marked: bool,
                  wait: bool): Group { if g.Activations? && (marked || wait) then Nothing else g }

  /** One step more, in which the group was sent. */
  ghost predicate Recorded(before: seq<Step>, after: seq<Step>, g: Group) {
    |after| == |before| + 1 && before <= after && after[|before|].group == g
  }

  /** What an active cycle sends: each phase its own group, and outputs when one is announced. */
  function SentBy(s: State, t: Signals): Beat {
    Beat(t.waitRefresh,
         if s.status == 0 then Passed(t.weights, s.wActPlaced, t.waitRefresh) else Nothing,
         if s.status == 2 then Passed(t.inputs, s.inActPlaced, t.waitRefresh) else Nothing,
         if s.status == 3 && (s.outputValid > 0 || s.outCnt == 0) then Passed(t.outputs, s.outActPlaced, t.waitRefresh)
         else Nothing)
  }

  /** What any cycle sends: nothing while idle or in a refresh. */
  function Sent(s: State, t: Signals): Beat {
    if s.inPim && !t.inRefresh then SentBy(s, t) else Beat(t.waitRefresh, Nothing, Nothing, Nothing)
  }

  lemma {:induction false} SentWaited(s: State, t: Signals)
    ensures Sent(s, t).waited == t.waitRefresh
  {
  }

  /** The marks follow what is sent, and a cycle that awaits a refresh takes them away. */
  lemma {:induction false} MarksFollow(p: Plan, s: State, t: Signals)
    requires p.Good() && Ranges(s)
    ensures var b, r := Sent(s, t), TickNext(p, s, t);
      && r.wActPlaced == Left(s.wActPlaced, b.waited, b.weights)
      && r.inActPlaced == Left(s.inActPlaced, b.waited, b.inputs)
      && r.outActPlaced == Left(s.outActPlaced, b.waited, b.outputs)
  {
    hide PhaseNext, WriteNext;
    var m := Unmarked(s, t.waitRefresh);
    var r := PhaseNext(p, m, t);
    PhaseMarks(p, m, t);
    WriteMarks(p, CountNext(r), t.outputs, t.waitRefresh);
  }

  predicate Ranges(s: State) { 0 <= s.status <= 3 && s.vpuCnt <= 1 && s.outputValid >= 0 }

  function Unmarked(s: State, wait: bool): State {
    if wait then s.(wActPlaced := false, inActPlaced := false, outActPlaced := false) else s
  }

  lemma {:induction false} PhaseMarks(p: Plan, s: State, t: Signals)
    requires p.Good() && Ranges(s)
    ensures var b, r := SentBy(s, t), PhaseNext(p, s, t);
      && r.wActPlaced == (b.weights.Activations? || (s.wActPlaced && !b.weights.ClosingAccesses?))
      && r.inActPlaced == (b.inputs.Activations? || (s.inActPlaced && !b.inputs.ClosingAccesses?))
      && r.outActPlaced == s.outActPlaced
      && (s.status == 3 ==> r.outputValid == s.outputValid && r.outCnt == s.outCnt)
  {
    hide p.Good, LoadDone, RowNext;
    RowMarks(p, s.(vpuCnt := 0));
    RowMarks(p, s.(vpuCnt := 0, inActPlaced := false));
  }

  lemma {:induction false} RowMarks(p: Plan, s: State)
    requires p.Good()
    ensures var r := RowNext(p, s);
      r.wActPlaced == s.wActPlaced && r.inActPlaced == s.inActPlaced && r.outActPlaced == s.outActPlaced
  {
    hide p.Good, p.InWait, p.OutWait, p.Kt, RowFirst, RowDone, RowTile;
  }

  lemma {:induction false} WriteMarks(p: Plan, s: State, g: Group, wait: bool)
    requires p.Good()
    ensures var r, sent := WriteNext(p, s, g, wait), Passed(g, s.outActPlaced, wait);
      && r.wActPlaced == s.wActPlaced && r.inActPlaced == s.inActPlaced
      && r.outActPlaced == (sent.Activations? || (s.outActPlaced && !sent.ClosingAccesses?))
  {
    hide p.Good, RowFirst, RowDone, RowTile;
  }

  predicate Left(marked: bool, waited: bool, g: Group) {
    g.Activations? || (marked && !waited && !g.ClosingAccesses?)
  }

  /** The marks say which lanes are open, as everything sent so far has left them, and all of it was proper. */
  ghost predicate Agrees(beats: seq<Beat>, s: State) {
    && Proper(beats)
    && s.wActPlaced == Opened(beats, Weights) && s.inActPlaced == Opened(beats, Inputs)
    && s.outActPlaced == Opened(beats, Outputs)
  }

  /** That stays so in every cycle, and an activation that is answered goes out exactly if its lane's phase is on,
      no refresh is awaited and the lane is not open. */
  lemma {:induction false} MarksAgree(p: Plan, s: State, t: Signals, beats: seq<Beat>)
    requires p.Good() && Ranges(s) && Agrees(beats, s)
    ensures Agrees(beats + [Sent(s, t)], TickNext(p, s, t))
    ensures s.inPim && !t.inRefresh && s.status == 0 && t.weights.Activations? ==>
      (Sent(s, t).weights.Activations? <==> !t.waitRefresh && !Opened(beats, Weights))
    ensures s.inPim && !t.inRefresh && s.status == 2 && t.inputs.Activations? ==>
      (Sent(s, t).inputs.Activations? <==> !t.waitRefresh && !Opened(beats, Inputs))
    ensures s.inPim && !t.inRefresh && s.status == 3 && s.outputValid > 0 && t.outputs.Activations? ==>
      (Sent(s, t).outputs.Activations? <==> !t.waitRefresh && !Opened(beats, Outputs))
  {
    hide Opened, Proper, TickNext;
    var b := Sent(s, t);
    MarksFollow(p, s, t);
    OpenedNext(beats, b, Weights);
    OpenedNext(beats, b, Inputs);
    OpenedNext(beats, b, Outputs);
    ProperNext(beats, b);
  }

  class PimScheduler {
    const plan: Plan
    var inPim: bool
    var status: int
    var mIt: int
    var nIt: int
    var kIt: int
    var mOut: int
    var nOut: int
    var inCnt: int
    var outCnt: int
    var vpuCnt: int
    var outputValid: int
    var wActPlaced: bool
    var inActPlaced: bool
    var outActPlaced: bool
    ghost var tm: int
    ghost var tn: int
    ghost var li: int
    ghost var si: int
    ghost var om: int
    ghost var oi: int
    ghost var loads: seq<Step>
    ghost var streams: seq<Step>
    ghost var outs: seq<Step>
    ghost var started: int
    ghost var ready: int
    ghost var completed: int

    function View(): State
      reads this`inPim, this`status, this`mIt, this`nIt, this`kIt, this`mOut, this`nOut, this`inCnt, this`outCnt,
            this`vpuCnt,
            this`outputValid, this`wActPlaced, this`inActPlaced, this`outActPlaced
    {
      State(inPim, status, mIt, nIt, kIt, mOut, nOut, inCnt, outCnt, vpuCnt, outputValid, wActPlaced, inActPlaced,
        outActPlaced)
    }

    /** The iterators stand at visit (tm, tn, kIt); past the last visit only waiting is left. */
    ghost predicate Placed()
      reads this`status, this`mIt, this`nIt, this`kIt, this`tm, this`tn, this`li, this`si, this`inCnt, this`vpuCnt
    {
      && plan.Good() && 0 <= status <= 3
      && (plan.Visit(tm, tn, kIt) || (tm == plan.NM() && tn == 0 && kIt == 0 && status == 3))
      && nIt == 128 * tn + li && (if status == 0 then 0 <= li < plan.PerBank() else li == 0)
      && mIt == plan.mt * tm + si && (if status == 2 then 0 <= si < plan.Rows(tm) else si == 0)
      && inCnt >= -1 && (inCnt == -1 <==> tm == plan.NM())
      && 0 <= vpuCnt <= 1
    }

    /** How many loads belong to the visits up to here. */
    ghost function Loaded(): int
      requires plan.Good()
      reads this`status, this`tm, this`tn, this`kIt, this`li
    {
      plan.LoadPos(tm, tn, kIt, if status == 0 then li else if status == 3 then 0 else plan.PerBank())
    }

    ghost predicate Sweep()
      reads this`status, this`mIt, this`nIt, this`kIt, this`tm, this`tn, this`li, this`si, this`inCnt, this`vpuCnt,
            this`loads, this`streams
    {
      && Placed() && LoadTrace(plan, loads) && StreamTrace(plan, streams)
      && |loads| == Loaded() && |streams| == plan.StreamPos(tm, tn, kIt, si)
    }

    ghost predicate Output()
      reads this`mOut, this`nOut, this`om, this`oi, this`outs, this`inPim, this`completed
    {
      && plan.Good() && OutTrace(plan, outs) && |outs| == plan.OutPos(om, nOut, oi)
      && mOut == plan.mt * om + oi && completed == TileNo(plan, om, nOut)
      && (if inPim then 0 <= om < plan.NM() && 0 <= nOut < plan.NN() && 0 <= oi < plan.Rows(om)
          else om == plan.NM() && nOut == 0 && oi == 0)
    }

    /** Last-K passes that have begun. */
    ghost function Begun(): int
      requires plan.Good()
      reads this`status, this`tm, this`tn, this`kIt, this`si
    {
      TileNo(plan, tm, tn) + if status == 2 && kIt + 1 == plan.NK() && si > 0 then 1 else 0
    }

    ghost function Pending(): int
      reads this`outCnt
    {
      if outCnt != -1 then 1 else 0
    }

    /** Output tiles are completed only after they were announced, and announced only after their last
        pass began. */
    ghost predicate Account()
      reads this`status, this`tm, this`tn, this`kIt, this`si, this`started, this`ready, this`completed, this`outCnt,
            this`outputValid
    {
      && plan.Good() && started == Begun()
      && outputValid == ready - completed && outputValid >= 0
      && outCnt >= -1 && ready + Pending() <= started
    }

    /** Output tiles whose announcement has been overwritten. */
    ghost function Lost(): int
      reads this`started, this`ready, this`outCnt
    {
      started - ready - Pending()
    }

    /** The next row streamed restarts a count that has not run out. */
    ghost predicate Overwrites()
      requires plan.Good()
      reads this`status, this`si, this`kIt, this`outCnt
    {
      status == 2 && si == 0 && kIt + 1 == plan.NK() && outCnt != -1
    }

    ghost function Here(): Spot
      reads this`status, this`tm, this`tn, this`kIt, this`si, this`li, this`inCnt
    {
      Spot(status, tm, tn, kIt, if status == 0 then li else si, inCnt)
    }

    /** When the output wait is shorter than the time between output tiles, no announcement is
        overwritten. */
    ghost predicate Timely(out: int)
      reads this`status, this`tm, this`tn, this`kIt, this`si, this`li, this`started, this`ready, this`outCnt, this`inCnt
    {
      plan.Good() && plan.Paced() ==> ready + Pending() == started && RunsOut(plan, Here(), out)
    }

    ghost predicate Valid()
      reads this
    {
      Sweep() && Output() && Account() && Timely(outCnt) && (inPim || tm == plan.NM())
    }

    /** The invariant between the tile step of a cycle and the countdown that follows it. */
    ghost predicate Mid()
      reads this
    {
      Sweep() && Output() && Account() && Timely(Less(outCnt))
      && (inPim || tm == plan.NM())
    }

    /** Launching a computation with all iterators at zero. */
    constructor (plan: Plan)
      requires plan.Good()
      ensures Valid() && inPim && this.plan == plan && loads == streams == outs == []
      ensures View() == START && Lost() == 0 && Agrees([], View())
    {
      this.plan := plan;
      inPim, status := true, 0;
      mIt, nIt, kIt, mOut, nOut := 0, 0, 0, 0, 0;
      inCnt, outCnt, vpuCnt, outputValid := 0, -1, 0, 0;
      wActPlaced, inActPlaced, outActPlaced := false, false, false;
      tm, tn, li, si, om, oi := 0, 0, 0, 0, 0, 0;
      loads, streams, outs := [], [], [];
      started, ready, completed := 0, 0, 0;
      new;
      TilesCover(plan.M, plan.mt, 0);
      TilesCover(plan.N, 128, 0);
      TilesCover(plan.K, plan.Kt(), 0);
      PerBankDivides(plan);
      SizeFormula(plan.M, plan.mt, 0);
    }

    /** Loading: a group of accesses is one load and moves on, an activation only sets its flag. */
    method Load(g: Group, waitRefresh: bool) returns (sent: Group)
      requires Valid() && status == 0
      modifies this`nIt, this`status, this`wActPlaced, this`li, this`loads
      ensures Mid()
      ensures View() == LoadNext(plan, old(View()), g, waitRefresh)
      ensures sent == Passed(g, old(wActPlaced), waitRefresh)
      ensures if g.Advances() then Recorded(old(loads), loads, g) else loads == old(loads) && status == 0
    {
      hide LoadTrace, StreamTrace, Output, Account, TileNo, plan.LoadPos, plan.StreamPos, plan.WeightOffset,
        plan.InWait,
        plan.OutWait, plan.Rows, plan.NM, plan.NN, plan.NK;
      sent := g;
      if g.Nothing? {
        return;
      }
      if g.Activations? {
        if wActPlaced || waitRefresh {
          sent := Nothing;
        } else {
          wActPlaced := true;
        }
        return;
      }
      if g.ClosingAccesses? {
        wActPlaced := false;
      }
      LoadVector(g);
    }

    /** One weight vector is loaded; the last one of a tile ends the phase. */
    method LoadVector(g: Group)
      requires Valid() && status == 0 && g.Advances()
      modifies this`nIt, this`status, this`li, this`loads
      ensures Mid()
      ensures View() == if LoadDone(plan, old(nIt) + 1) then old(View()).(nIt := 128 * (old(nIt) / 128), status := 1)
                        else old(View()).(nIt := old(nIt) + 1)
      ensures Recorded(old(loads), loads, g)
    {
      hide LoadTrace, StreamTrace, Output, LoadColumn, LoadDone, TileNo, plan.LoadPos, plan.StreamPos,
        plan.WeightOffset, plan.InWait,
        plan.OutWait, plan.Rows, plan.NM, plan.NN, plan.NK, plan.PerBank, plan.Paced, plan.Good, Ahead;
      LoadExit(plan, tn, li);
      LoadGrows(plan, loads, tm, tn, kIt, li, g);
      IteratorTests(plan, tm, tn, kIt);
      var nTile := nIt / 128;
      loads := loads + [Step(tm, tn, kIt, li, LoadColumn(plan, nIt, kIt), g)];
      nIt, li := nIt + 1, li + 1;
      if LoadDone(plan, nIt) {
        nIt, li := 128 * nTile, 0;
        status := status + 1;
      }
    }

    /** Loading is over and streaming begins. */
    method Turn()
      requires Valid() && status == 1
      modifies this`status, this`vpuCnt
      ensures Mid()
      ensures View() == old(View()).(status := 2, vpuCnt := 1)
    {
      hide LoadTrace, StreamTrace, Output, TileNo, plan.LoadPos, plan.StreamPos, plan.InWait, plan.OutWait, plan.Rows,
        plan.NM, plan.NN,
        plan.NK, plan.PerBank, plan.Paced, Ahead;
      IteratorTests(plan, tm, tn, kIt);
      status, vpuCnt := 2, 1;
    }

    /** Streaming one input row; by then exactly the weights up to this visit have been loaded. */
    method Stream(g: Group, waitRefresh: bool) returns (sent: Group)
      requires Valid() && status == 2
      modifies this`mIt, this`nIt, this`kIt, this`status, this`inCnt, this`outCnt, this`vpuCnt, this`inActPlaced,
               this`tm, this`tn, this`si, this`streams, this`started
      ensures Mid()
      ensures View() == StreamNext(plan, old(View()), g, waitRefresh)
      ensures sent == Passed(g, old(inActPlaced), waitRefresh)
      ensures Lost() == old(Lost()) + if g.Advances() && old(Overwrites()) then 1 else 0
      ensures if g.Advances() then Recorded(old(streams), streams, g) else streams == old(streams) && status == 2
      ensures |loads| == plan.LoadPos(old(tm), old(tn), old(kIt), plan.PerBank())
    {
      hide LoadTrace, StreamTrace, Output, RowColumn, RowDone, RowFirst, TileNo, plan.LoadPos, plan.StreamPos,
        plan.InputOffset, RowNext,
        plan.InWait, plan.OutWait, plan.PerBank, plan.Rows, plan.NM, plan.NN, plan.NK, plan.Kt;
      vpuCnt := Max(0, vpuCnt - 1);
      sent := g;
      if g.Nothing? {
        return;
      }
      if g.Activations? {
        if inActPlaced || waitRefresh {
          sent := Nothing;
        } else {
          inActPlaced := true;
        }
        return;
      }
      if g.ClosingAccesses? {
        inActPlaced := false;
      }
      if vpuCnt != 0 {
        sent := Nothing;
        return;
      }
      StreamRow(g);
    }

    /** One input row enters the array; the first row of a last-K pass starts the output countdown. */
    method StreamRow(g: Group)
      requires Valid() && status == 2 && vpuCnt == 0 && g.Advances()
      modifies this`mIt, this`nIt, this`kIt, this`status, this`inCnt, this`outCnt,
               this`tm, this`tn, this`si, this`streams, this`started
      ensures Mid()
      ensures View() == RowNext(plan, old(View()))
      ensures Lost() == old(Lost()) + if old(Overwrites()) then 1 else 0
      ensures Recorded(old(streams), streams, g)
    {
      hide LoadTrace, StreamTrace, Output, RowColumn, RowDone, RowFirst, TileNo, plan.LoadPos, plan.StreamPos,
        plan.InputOffset, plan.InWait, plan.OutWait, plan.PerBank, plan.Rows, plan.NM, plan.NN, plan.NK, plan.Kt,
          RowTile, plan.Paced, RowNext, Loaded, NextVisit, RunsOut, Recorded;
      IteratorTests(plan, tm, tn, kIt + 1);
      NextTileNo(plan, Triple(tm, tn, kIt));
      WaitsPositive(plan);
      if plan.Paced() {
        RowPace(plan, Here(), outCnt);
      }
      MoveRow(g);
    }

    /** The countdown starts if it is due, and the iterators move past the row. */
    method MoveRow(g: Group)
      requires Sweep() && status == 2 && g.Advances()
      modifies this`mIt, this`nIt, this`kIt, this`status, this`inCnt, this`outCnt,
               this`tm, this`tn, this`si, this`streams, this`started
      ensures Sweep()
      ensures View() == RowNext(plan, old(View()))
      ensures outCnt == if old(kIt) + 1 == plan.NK() && old(si) == 0 then plan.OutWait() else old(outCnt)
      ensures started == old(started) + if old(kIt) + 1 == plan.NK() && old(si) == 0 then 1 else 0
      ensures Recorded(old(streams), streams, g)
      ensures if old(si) + 1 < plan.Rows(old(tm))
              then status == 2 && si == old(si) + 1 && (tm, tn, kIt, inCnt) == old((tm, tn, kIt, inCnt))
              else status == 3 && Triple(tm, tn, kIt) == NextVisit(plan, old(Triple(tm, tn, kIt)))
                   && si == 0 && inCnt == if tm == plan.NM() then -1 else plan.InWait()
    {
      hide LoadTrace, StreamTrace, Output, RowColumn, RowDone, RowFirst, TileNo, plan.LoadPos, plan.StreamPos,
        plan.InputOffset, plan.InWait, plan.OutWait, plan.PerBank, plan.Rows, plan.NM, plan.NN, plan.NK, plan.Kt,
        RowTile, PassNext, Loaded, NextVisit, Recorded;
      StartCount();
      AdvanceRow(g);
    }

    /** The first row of a last-K pass restarts the output countdown. */
    method StartCount()
      requires Placed() && status == 2
      modifies this`outCnt, this`started
      ensures View() == if (kIt + 1) * plan.Kt() >= plan.K &&
        RowFirst(plan, mIt) then old(View()).(outCnt := plan.OutWait()) else old(View())
      ensures outCnt == if kIt + 1 == plan.NK() && si == 0 then plan.OutWait() else old(outCnt)
      ensures started == old(started) + if kIt + 1 == plan.NK() && si == 0 then 1 else 0
    {
      hide plan.OutWait, plan.NM, plan.NN, plan.NK, plan.Kt, plan.Rows, RowFirst, RowDone, RowTile;
      RowExit(plan, tm, si);
      IteratorTests(plan, tm, tn, kIt + 1);
      if (kIt + 1) * plan.Kt() >= plan.K && RowFirst(plan, mIt) {
        outCnt := plan.OutWait();
        started := started + 1;
      }
    }

    /** The iterators move past one row. */
    method AdvanceRow(g: Group)
      requires Sweep() && status == 2 && g.Advances()
      modifies this`mIt, this`nIt, this`kIt, this`status, this`inCnt, this`tm, this`tn, this`si, this`streams
      ensures Sweep()
      ensures View() == if RowDone(plan, old(mIt) + 1) then PassNext(plan, old(View()), RowTile(plan, old(mIt)))
                        else old(View()).(mIt := old(mIt) + 1)
      ensures Recorded(old(streams), streams, g)
      ensures if old(si) + 1 < plan.Rows(old(tm))
              then status == 2 && si == old(si) + 1 && (tm, tn, kIt, inCnt) == old((tm, tn, kIt, inCnt))
              else status == 3 && Triple(tm, tn, kIt) == NextVisit(plan, old(Triple(tm, tn, kIt)))
                   && inCnt == if tm == plan.NM() then -1 else plan.InWait()
    {
      hide LoadTrace, StreamTrace, RowColumn, RowDone, RowFirst, plan.LoadPos, plan.StreamPos,
        plan.InputOffset, plan.InWait, plan.PerBank, plan.Rows, plan.NM, plan.NN, plan.NK, plan.Kt, RowTile, PassNext;
      RowExit(plan, tm, si);
      StreamGrows(plan, streams, tm, tn, kIt, si, g);
      VisitsFollow(plan, Triple(tm, tn, kIt));
      IteratorTests(plan, tm, tn, kIt);
      WaitsPositive(plan);
      streams := streams + [Step(tm, tn, kIt, si, RowColumn(plan, plan.NK(), kIt, mIt), g)];
      var mTile := RowTile(plan, mIt);
      PassIgnoresRow(plan, View(), mIt + 1, mTile);
      mIt, si := mIt + 1, si + 1;
      if RowDone(plan, mIt) {
        FinishPass(mTile);
      }
    }

    /** The last row of a pass: on to the next inner tile, output tile or row tile. */
    method FinishPass(mTile: int)
      requires plan.Good() && status == 2 && plan.Visit(tm, tn, kIt) && mTile == tm
      requires nIt == 128 * tn && inCnt >= 0
      modifies this`mIt, this`nIt, this`kIt, this`status, this`inCnt, this`tm, this`tn, this`si
      ensures View() == PassNext(plan, old(View()), mTile)
      ensures Triple(tm, tn, kIt) == NextVisit(plan, old(Triple(tm, tn, kIt)))
      ensures status == 3 && si == 0 && nIt == 128 * tn && mIt == plan.mt * tm
      ensures inCnt == if tm == plan.NM() then -1 else plan.InWait()
    {
      hide plan.InWait, plan.NM, plan.NN, plan.NK;
      IteratorTests(plan, tm + 1, tn + 1, kIt + 1);
      ghost var next := NextVisit(plan, Triple(tm, tn, kIt));
      MoveIterators(mTile);
      tm, tn, si := next.m, next.n, 0;
    }

    method MoveIterators(mTile: int)
      requires plan.Good() && status == 2
      modifies this`mIt, this`nIt, this`kIt, this`status, this`inCnt
      ensures View() == PassNext(plan, old(View()), mTile)
    {
      hide plan.InWait, plan.Kt;
      var nTile := nIt / 128;
      inCnt := plan.InWait();
      status := status + 1;
      mIt := plan.mt * mTile;
      kIt := kIt + 1;
      if kIt * plan.Kt() >= plan.K {
        kIt := 0;
        nIt := 128 * (nTile + 1);
        if nIt >= plan.N {
          nIt := 0;
          mIt := plan.mt * (mTile + 1);
          if mIt >= plan.M {
            inCnt := -1;
          }
        }
      }
    }

    /** Waiting until the array is free and no announced output is left. */
    method AwaitArray()
      requires Valid() && status == 3 && inPim
      modifies this`inCnt, this`status
      ensures Mid()
      ensures View() == AwaitNext(old(View()))
      ensures inCnt == if old(inCnt) == -1 then -1 else Max(0, old(inCnt) - 1)
      ensures status == if inCnt == 0 && outputValid == 0 then 0 else 3
    {
      hide LoadTrace, StreamTrace, Output, TileNo, plan.LoadPos, plan.StreamPos, plan.InWait, plan.OutWait, plan.Rows,
        plan.NM, plan.NN, plan.NK;
      if inCnt == -1 {
        return;
      }
      IteratorTests(plan, tm, tn, kIt);
      inCnt := Max(0, inCnt - 1);
      if inCnt == 0 && outputValid == 0 {
        status := 0;
      }
    }

    /** The output countdown: reaching zero announces one finished output tile. */
    method CountDown()
      requires Mid()
      modifies this`outCnt, this`outputValid, this`ready
      ensures Valid()
      ensures View() == CountNext(old(View())) && Lost() == old(Lost())
      ensures outCnt == Max(-1, old(outCnt) - 1) && outputValid == old(outputValid) + if old(outCnt) == 0 then 1 else 0
    {
      hide LoadTrace, StreamTrace, Output, TileNo, plan.LoadPos, plan.StreamPos, plan.InWait, plan.OutWait, plan.Rows,
        plan.NM, plan.NN, plan.NK;
      if outCnt == 0 {
        outputValid := outputValid + 1;
        ready := ready + 1;
      }
      if outCnt != -1 {
        outCnt := outCnt - 1;
      }
    }

    /** Writing one output row; the last one turns PIM mode off, and by then all input has been consumed. */
    method Write(g: Group, waitRefresh: bool) returns (sent: Group)
      requires Valid() && inPim && outputValid > 0 && status != 2
      modifies this`mOut, this`nOut, this`outputValid, this`inPim, this`outActPlaced, this`om, this`oi, this`outs,
               this`completed
      ensures Valid()
      ensures View() == WriteNext(plan, old(View()), g, waitRefresh)
      ensures sent == Passed(g, old(outActPlaced), waitRefresh)
      ensures if g.Advances() then Recorded(old(outs), outs, g) && |outs| > old(|outs|) else outs == old(outs)
      ensures old(outs) <= outs
      ensures !inPim ==> inCnt == -1
      ensures plan.StreamPos(old(om), old(nOut), plan.NK() - 1, plan.Rows(old(om))) <= |streams|
    {
      hide Output, Sweep, Begun, Timely, OutputNext, plan.StreamPos, plan.Rows, plan.NM, plan.NN, plan.NK;
      Behind();
      sent := g;
      if g.Nothing? {
        return;
      }
      if g.Activations? {
        if outActPlaced || waitRefresh {
          sent := Nothing;
        } else {
          outActPlaced := true;
        }
        return;
      }
      if g.ClosingAccesses? {
        outActPlaced := false;
      }
      WriteRow(g);
    }

    /** While an output is being written, its passes are streamed, and the last output leaves no input. */
    lemma {:induction false} Behind()
      requires Valid() && inPim && outputValid > 0 && status != 2
      ensures plan.StreamPos(om, nOut, plan.NK() - 1, plan.Rows(om)) <= |streams|
      ensures (completed + 1 >= plan.NM() * plan.NN() ==> inCnt == -1) && (inCnt == -1 ==> tm == plan.NM())
    {
      hide LoadTrace, StreamTrace, OutTrace, TileNo, plan.LoadPos, plan.StreamPos, plan.OutPos, plan.InWait,
        plan.OutWait, plan.PerBank,
        plan.Rows, plan.NM, plan.NN, plan.NK, plan.Kt, Timely, Loaded;
      StreamsBehind(plan, om, nOut, tm, tn, kIt);
      TileCount(plan, tm, tn);
    }

    method WriteRow(g: Group)
      requires Output() && inPim && g.Advances() && (completed + 1 >= plan.NM() * plan.NN() ==> inCnt == -1)
      modifies this`mOut, this`nOut, this`outputValid, this`inPim, this`om, this`oi, this`outs, this`completed
      ensures Output()
      ensures View() == OutputNext(plan, old(View()))
      ensures Recorded(old(outs), outs, g)
      ensures old(completed) <= completed <= old(completed) + 1
      ensures completed + outputValid == old(completed + outputValid)
      ensures !inPim ==> inCnt == -1
    {
      hide OutTrace, TileNo, plan.OutPos, plan.Rows, plan.NM, plan.NN, plan.NK, plan.Kt, plan.PerBank, plan.Good,
        RowColumn, RowDone, RowFirst, RowTile, TileOrEnd;
      RowExit(plan, om, oi);
      OutGrows(plan, outs, om, nOut, oi, g);
      OutputsFollow(plan, om, nOut);
      TileNext(plan, om, nOut);
      IteratorTests(plan, om + 1, nOut + 1, 0);
      IteratorTests(plan, om, 0, 0);
      outs := outs + [Step(om, nOut, 0, oi, RowColumn(plan, plan.NN(), nOut, mOut), g)];
      ghost var tileDone, rowDone := oi + 1 == plan.Rows(om), nOut + 1 == plan.NN();
      MoveOutput();
      MovePast(tileDone, rowDone);
      if !inPim {
        TileCount(plan, om, nOut);
      }
    }

    ghost method MovePast(tileDone: bool, rowDone: bool)
      modifies this`om, this`oi, this`completed
      ensures oi == if tileDone then 0 else old(oi) + 1
      ensures om == if tileDone && rowDone then old(om) + 1 else old(om)
      ensures completed == if tileDone then old(completed) + 1 else old(completed)
    {
      if !tileDone {
        oi := oi + 1;
      } else {
        oi, completed := 0, completed + 1;
        om := if rowDone then om + 1 else om;
      }
    }

    method MoveOutput()
      requires plan.Good()
      modifies this`mOut, this`nOut, this`outputValid, this`inPim
      ensures View() == OutputNext(plan, old(View()))
    {
      hide RowDone, RowTile;
      var mTile := RowTile(plan, mOut);
      mOut := mOut + 1;
      if RowDone(plan, mOut) {
        mOut := plan.mt * mTile;
        nOut := nOut + 1;
        if nOut * 128 >= plan.N {
          nOut := 0;
          mOut := plan.mt * (mTile + 1);
          if mOut >= plan.M {
            inPim := false;
          }
        }
        outputValid := outputValid - 1;
      }
    }

    /** Steps still to be done, and ticks that may pass before the next one when everything is granted. */
    ghost function Remaining(): int
      requires plan.Good()
      reads this`loads, this`streams, this`outs
    {
      AllLoads(plan) - |loads| + (AllStreams(plan) - |streams|) + (AllOuts(plan) - |outs|)
    }

    ghost function Waiting(): int
      reads this`status, this`inCnt, this`outCnt
    {
      if status == 3 then 2 + Max(inCnt, 0) + outCnt + 1 else if status == 1 then 1 else 0
    }

    /** No trace runs past the end of the multiplication. */
    lemma {:induction false} Bounded()
      requires Valid()
      ensures |loads| <= AllLoads(plan) && |streams| <= AllStreams(plan) && |outs| <= AllOuts(plan)
      ensures plan.Good() && Remaining() >= 0 && Waiting() >= 0
    {
      Ends(plan);
      if tm < plan.NM() {
        IteratorTests(plan, tm, tn, kIt);
        StreamInside(plan, tm, tn, kIt, si);
        LoadInside(plan, tm, tn, kIt, if status == 0 then li else if status == 3 then 0 else plan.PerBank());
      }
      if inPim {
        OutInside(plan, om, nOut, oi);
      }
    }

    /** PIM mode is left only with every load, stream and write of the multiplication done. */
    lemma {:induction false} Finished()
      requires Valid() && !inPim
      ensures |loads| == AllLoads(plan) && |streams| == AllStreams(plan) && |outs| == AllOuts(plan)
      ensures LoadTrace(plan, loads) && StreamTrace(plan, streams) && OutTrace(plan, outs)
    {
      Ends(plan);
    }

    /** Once an announcement has been overwritten the run never ends. */
    lemma {:induction false} NeverEnds()
      requires Valid() && Lost() > 0
      ensures inPim
    {
      hide OutTrace, LoadTrace, StreamTrace, Loaded, Timely, TileNo;
      if !inPim {
        TileCount(plan, om, nOut);
        TileCount(plan, tm, tn);
      }
    }

    /** Nothing is lost while waiting for the last outputs: one is announced or still being counted down. */
    lemma {:induction false} OutputsComing()
      requires Valid() && inPim && Lost() == 0 && inCnt == -1
      ensures outputValid > 0 || outCnt >= 0
    {
      hide OutTrace, LoadTrace, StreamTrace, plan.OutWait, plan.InWait, Loaded, plan.OutPos, plan.StreamPos, TileNo;
      TileCount(plan, om, nOut);
      TileCount(plan, tm, tn);
    }

    /** A waiting cycle only counts down, and leaves for loading when the count is out. */
    twostate predicate Waited()
      reads this`inCnt, this`status, this`loads, this`streams, this`outCnt, this`outputValid
    {
      && loads == old(loads) && streams == old(streams) && outCnt == old(outCnt)
      && inCnt == (if old(inCnt) == -1 then -1 else Max(0, old(inCnt) - 1))
      && status == (if inCnt == 0 && outputValid == 0 then 0 else 3)
    }

    /** Fewer steps are left, or as many and less waiting. */
    twostate predicate Closer()
      reads this`loads, this`streams, this`outs, this`status, this`inCnt, this`outCnt
    {
      plan.Good() && (Remaining() < old(Remaining()) || (Remaining() == old(Remaining()) && Waiting() < old(Waiting())))
    }

    /** The phase step of one cycle. */
    method Phase(t: Signals) returns (weights: Group, inputs: Group)
      requires Valid() && inPim
      modifies this`mIt, this`nIt, this`kIt, this`status, this`inCnt, this`outCnt, this`vpuCnt, this`wActPlaced,
               this`inActPlaced,
               this`tm, this`tn, this`li, this`si, this`loads, this`streams, this`started
      ensures Mid()
      ensures View() == PhaseNext(plan, old(View()), t)
      ensures weights == if old(status) == 0 then Passed(t.weights, old(wActPlaced), t.waitRefresh) else Nothing
      ensures inputs == if old(status) == 2 then Passed(t.inputs, old(inActPlaced), t.waitRefresh) else Nothing
      ensures Lost() == old(Lost()) + if t.inputs.Advances() && old(Overwrites()) then 1 else 0
      ensures old(loads) <= loads && old(streams) <= streams
      ensures old(status) == 3 ==> Waited()
      ensures t.Useful(old(status)) && (old(status) == 0 || old(status) == 2) ==>
        |loads| + |streams| > old(|loads| + |streams|)
      ensures old(status) == 1 ==> status == 2
      ensures |loads| + |streams| == old(|loads| + |streams|) && (old(status) == 0 || old(status) == 2) ==>
        status == old(status)
    {
      hide LoadTrace, StreamTrace, Output, Account, Timely, LoadNext, StreamNext, AwaitNext, Begun, Loaded,
        plan.LoadPos, plan.StreamPos,
        plan.InWait, plan.Rows, plan.NM, plan.NN, plan.NK, plan.PerBank, plan.Good;
      weights, inputs := Nothing, Nothing;
      if status == 0 {
        weights := Load(t.weights, t.waitRefresh);
      } else if status == 1 {
        Turn();
      } else if status == 2 {
        inputs := Stream(t.inputs, t.waitRefresh);
      } else {
        AwaitArray();
      }
    }

    /** The rest of an active cycle: phase step, countdown, output. */
    method Cycle(t: Signals) returns (sent: Beat)
      requires Valid() && inPim && !t.inRefresh && (Lost() == 0 && inCnt == -1 ==> outputValid > 0 || outCnt >= 0)
      modifies this
      ensures Valid()
      ensures View() == CycleNext(plan, old(View()), t)
      ensures sent == SentBy(old(View()), t)
      ensures Lost() == old(Lost()) + if t.inputs.Advances() && old(Overwrites()) then 1 else 0
      ensures old(loads) <= loads && old(streams) <= streams && old(outs) <= outs
      ensures Closer() || (Remaining() == old(Remaining()) && Waiting() == old(Waiting()) && status == old(status))
      ensures t.Serves(old(View())) && old(Lost()) == 0 ==> Closer()
    {
      hide LoadTrace, StreamTrace, OutTrace, Loaded, Begun, TileNo, Output, Timely, AllLoads, AllStreams, AllOuts,
        plan.LoadPos,
        plan.StreamPos, plan.OutPos, plan.InWait, plan.OutWait, plan.Rows, plan.NM, plan.NN, plan.NK, plan.PerBank,
          plan.Paced, plan.Good,
        PhaseNext, WriteNext, Recorded;
      var outReady := status == 3;
      var weights, inputs := Phase(t);
      CountDown();
      var outputs := Nothing;
      if outputValid > 0 && outReady {
        outputs := Write(t.outputs, t.waitRefresh);
      }
      sent := Beat(t.waitRefresh, weights, inputs, outputs);
    }

    /** One clock cycle of the scheduler. */
    method Tick(t: Signals) returns (sent: Beat)
      requires Valid()
      modifies this
      ensures Valid()
      ensures View() == TickNext(plan, old(View()), t)
      ensures sent == Sent(old(View()), t)
      ensures Lost() == old(Lost()) + if old(inPim) && t.Useful(2) && old(Overwrites()) then 1 else 0
      ensures old(loads) <= loads && old(streams) <= streams && old(outs) <= outs
      ensures !old(inPim) || t.inRefresh ==>
        inPim == old(inPim) && loads == old(loads) && streams == old(streams) && outs == old(outs) &&
          Waiting() == old(Waiting())
      ensures Closer() || (Remaining() == old(Remaining()) && Waiting() == old(Waiting()) && status == old(status))
      ensures old(inPim) && t.Serves(old(View())) && old(Lost()) == 0 ==> Closer()
    {
      hide Sweep, Output, Timely, Begun, AllLoads, AllStreams, AllOuts, plan.Paced, plan.NM;
      if t.waitRefresh {
        wActPlaced, inActPlaced, outActPlaced := false, false, false;
      }
      if !inPim || t.inRefresh {
        return Beat(t.waitRefresh, Nothing, Nothing, Nothing);
      }
      if Lost() == 0 && inCnt == -1 {
        OutputsComing();
      }
      sent := Cycle(t);
    }

    /** In every run no activation is sent while a refresh is awaited or while its lane is still open. */
    method Run(signals: seq<Signals>, ghost beats: seq<Beat>) returns (sent: seq<Beat>)
      requires Valid() && Agrees(beats, View())
      modifies this
      ensures Valid() && Agrees(beats + sent, View())
      ensures |sent| == |signals| && forall c :: 0 <= c < |signals| ==> sent[c].waited == signals[c].waitRefresh
    {
      hide Valid, Agrees, Sent, TickNext, Proper, Opened, plan.Good, AllLoads, AllStreams, AllOuts;
      sent := [];
      assert beats + sent == beats;
      for c := 0 to |signals|
        invariant Valid() && Agrees(beats + sent, View()) && |sent| == c
        invariant forall d :: 0 <= d < c ==> sent[d].waited == signals[d].waitRefresh
      {
        Bounded();
        InRanges();
        MarksAgree(plan, View(), signals[c], beats + sent);
        SentWaited(View(), signals[c]);
        var b := Tick(signals[c]);
        assert beats + (sent + [b]) == beats + sent + [b];
        sent := sent + [b];
      }
    }

    /** A fair run comes to its end, with every step of the multiplication done. */
    method RunFair(signals: nat -> Signals) returns (c: nat)
      requires Valid() && plan.Paced() && Fair(signals)
      modifies this
      ensures Valid() && !inPim
      ensures View() == After(plan, old(View()), Listed(signals), c)
      ensures |loads| == AllLoads(plan) && |streams| == AllStreams(plan) && |outs| == AllOuts(plan)
    {
      hide Valid, Remaining, Waiting, Fair, AllLoads, AllStreams, AllOuts, plan.Paced, plan.Good, TickNext;
      Bounded();
      c := 0;
      ghost var next := NextUseful(signals, c);
      while inPim
        invariant Valid() && plan.Good() && Remaining() >= 0 && Waiting() >= 0
        invariant View() == After(plan, old(View()), Listed(signals), c)
        invariant c <= next && signals(next).Useful(status)
        decreases Remaining(), Waiting(), next - c
      {
        ghost var rem, wait := Remaining(), Waiting();
        NothingLost();
        var _ := Tick(signals(c));
        Bounded();
        c := c + 1;
        if Remaining() != rem || Waiting() != wait {
          next := NextUseful(signals, c);
        }
      }
      Finished();
    }

    /** With paced waits no announcement is ever overwritten. */
    lemma {:induction false} NothingLost()
      requires Valid() && plan.Paced()
      ensures Lost() == 0
    {
      hide Sweep, Output, Begun;
    }

    lemma {:induction false} InRanges()
      requires Valid()
      ensures Ranges(View())
    {
      hide Output, Begun, Timely, LoadTrace, StreamTrace, Loaded, plan.Visit, plan.StreamPos, plan.PerBank, plan.Rows,
        plan.NM, plan.Good;
    }

    lemma {:induction false} NextUseful(signals: nat -> Signals, c: nat) returns (d: nat)
      requires Valid() && Fair(signals)
      ensures c <= d && signals(d).Useful(status)
    {
      assert Again(signals, c, status);
      d :| c <= d && signals(d).Useful(status);
    }
  }
}
