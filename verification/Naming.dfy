/** The channel number inside an address, and the byte address, never influence a channel. */
module Naming {
  import opened Commands
  import opened TimingSpec
  import opened BankSpec
  import opened ActivationWindow
  import opened ChannelSpec
  import opened PimCycles

  /** The command without its channel number and byte address. */
  function Plain(c: Command): Command { c.(addr := c.addr.(channel := -1), hexAddr := -1) }

  function PlainQ(q: seq<Command>): (r: seq<Command>)
    ensures |r| == |q|
  {
    seq(|q|, i requires 0 <= i < |q| => Plain(q[i]))
  }

  function PlainH(h: seq<Issued>): (r: seq<Issued>)
    ensures |r| == |h|
  {
    seq(|h|, i requires 0 <= i < |h| => Issued(Plain(h[i].cmd), h[i].clk))
  }

  function PlainA(a: Answer): Answer { if a.Ready? then Ready(Plain(a.cmd)) else a }

  function PlainO(o: Option<Command>): Option<Command> { match o case None => None case Some(c) => Some(Plain(c)) }

  function PlainChannel(ch: Channel): Channel { ch.(history := PlainH(ch.history), refreshQ := PlainQ(ch.refreshQ)) }

  function PlainTurn(t: Turn): Turn { if t.Leaves? then Leaves(PlainChannel(t.channel)) else t }

  function PlainDrained(d: Option<Drained>): Option<Drained> {
    match d
    case None => None
    case Some(e) => Some(Drained(PlainChannel(e.channel), PlainQ(e.rest), e.times))
  }

  function PlainSide(s: PimSide): PimSide {
    s.(channel := PlainChannel(s.channel), rdW := PlainQ(s.rdW), rdIn := PlainQ(s.rdIn), wrQ := PlainQ(s.wrQ))
  }

  function PlainSides(s: Option<PimSide>): Option<PimSide> {
    match s case None => None case Some(t) => Some(PlainSide(t))
  }

  lemma {:induction false} PlainReplay(h: seq<Issued>, p: Place)
    ensures Replay(PlainH(h), p) == Replay(h, p)
    decreases |h|
  {
    if h != [] {
      var n := |h| - 1;
      assert PlainH(h)[..n] == PlainH(h[..n]);
      PlainReplay(h[..n], p);
    }
  }

  lemma {:induction false} PlainHorizon(t: Tables, h: seq<Issued>, p: Place, k: CommandType)
    ensures Horizon(t, PlainH(h), p, k) == Horizon(t, h, p, k)
    decreases |h|
  {
    if h != [] {
      var n := |h| - 1;
      assert PlainH(h)[..n] == PlainH(h[..n]);
      PlainHorizon(t, h[..n], p, k);
    }
  }

  lemma {:induction false} PlainBank(cfg: Config, ch: Channel, p: Place, cmd: Command, clk: nat)
    ensures BankAt(PlainChannel(ch), p) == BankAt(ch, p)
    ensures BankAnswer(cfg, PlainChannel(ch), p, Plain(cmd), clk) == PlainA(BankAnswer(cfg, ch, p, cmd, clk))
  {
    hide Replay, Horizon, PlainH;
    PlainReplay(ch.history, p);
    match Required(BankAt(ch, p), cmd) {
      case Abort =>
      case Needs(k) => PlainHorizon(cfg.tables, ch.history, p, k);
    }
  }

  lemma {:induction false} PlainAnswered(cfg: Config, ch: Channel, cmd: Command, clk: nat)
    ensures Answered(cfg, PlainChannel(ch), Plain(cmd), clk) == PlainA(Answered(cfg, ch, cmd, clk))
  {
    hide BankAnswer, PlainH, PlainQ;
    PlainBank(cfg, ch, cmd.Where(), cmd, clk);
  }

  lemma {:induction false} PlainToClose(cfg: Config, ch: Channel, cmd: Command, clk: nat, j: int, k: int)
    ensures ToClose(cfg, PlainChannel(ch), Plain(cmd), clk, j, k) == PlainO(ToClose(cfg, ch, cmd, clk, j, k))
    decreases cfg.geo.banks - k
  {
    hide BankAnswer, PlainChannel;
    if k < cfg.geo.banks {
      PlainBank(cfg, ch, Place(cmd.addr.rank, j, k), cmd, clk);
      PlainToClose(cfg, ch, cmd, clk, j, k + 1);
    }
  }

  lemma {:induction false} PlainFirst(cfg: Config, ch: Channel, cmd: Command, clk: nat, j: int)
    ensures FirstToClose(cfg, PlainChannel(ch), Plain(cmd), clk, j) == PlainO(FirstToClose(cfg, ch, cmd, clk, j))
    decreases cfg.geo.groups - j
  {
    hide ToClose, PlainChannel;
    if j < cfg.geo.groups {
      PlainToClose(cfg, ch, cmd, clk, j, 0);
      PlainFirst(cfg, ch, cmd, clk, j + 1);
    }
  }

  /** A bank that is ready for a request is ready with the request itself. */
  lemma {:induction false} PlainReady(cfg: Config, ch: Channel, cmd: Command, clk: nat)
    ensures AllReady(cfg, PlainChannel(ch), Plain(cmd), clk) <==> AllReady(cfg, ch, cmd, clk)
  {
    hide PlainChannel, Replay, Horizon, BankAt;
    forall j, k | 0 <= j < cfg.geo.groups && 0 <= k < cfg.geo.banks
      ensures BankAnswer(cfg, PlainChannel(ch), Place(cmd.addr.rank, j, k), Plain(cmd), clk) == Ready(Plain(cmd))
        <==> BankAnswer(cfg, ch, Place(cmd.addr.rank, j, k), cmd, clk) == Ready(cmd)
    {
      PlainBank(cfg, ch, Place(cmd.addr.rank, j, k), cmd, clk);
    }
  }

  lemma {:induction false} PlainAnswerTo(cfg: Config, ch: Channel, cmd: Command, clk: nat)
    ensures AnswerTo(cfg, PlainChannel(ch), Plain(cmd), clk) == PlainA(AnswerTo(cfg, ch, cmd, clk))
  {
    hide Answered, FirstToClose, AllReady, PlainChannel, BankAnswer;
    PlainBank(cfg, ch, Place(cmd.addr.rank, 0, 0), cmd, clk);
    PlainAnswered(cfg, ch, cmd, clk);
    PlainFirst(cfg, ch, cmd, clk, 0);
    PlainReady(cfg, ch, cmd, clk);
  }

  lemma {:induction false} PlainDrops(q: seq<Command>, cmd: Command)
    ensures AfterRefresh(PlainQ(q), Plain(cmd)) == PlainQ(AfterRefresh(q, cmd))
    decreases |q|
  {
    if q != [] {
      assert PlainQ(q)[1..] == PlainQ(q[1..]) && PlainQ(q)[0] == Plain(q[0]);
      PlainDrops(q[1..], cmd);
      assert forall r: seq<Command> :: PlainQ([q[0]] + r) == [Plain(q[0])] + PlainQ(r);
    }
  }

  lemma {:induction false} PlainIssue(cfg: Config, ch: Channel, cmd: Command, clk: nat)
    ensures AfterIssue(cfg, PlainChannel(ch), Plain(cmd), clk) == PlainChannel(AfterIssue(cfg, ch, cmd, clk))
  {
    hide AfterRefresh;
    PlainDrops(ch.refreshQ, cmd);
    assert PlainH(ch.history + [Issued(cmd, clk)]) == PlainH(ch.history) + [Issued(Plain(cmd), clk)];
  }

  lemma {:induction false} PlainTurnOf(cfg: Config, ch: Channel, lane: Lane, c: Command, time: int, clk: nat)
    ensures TurnOf(cfg, PlainChannel(ch), lane, Plain(c), time, clk) == PlainTurn(TurnOf(cfg, ch, lane, c, time, clk))
  {
    hide Answered, AfterIssue, BankAt, PlainH;
    PlainBank(cfg, ch, c.Where(), c, clk);
    PlainIssue(cfg, ch, c, clk);
    PlainAnswered(cfg, ch, if c.kind.PimActivate? then Command(Probe(lane), c.addr, c.hexAddr) else c, clk);
  }

  lemma {:induction false} PlainDrain(cfg: Config, ch: Channel, lane: Lane, q: seq<Command>, times: seq<int>, clk: nat)
    requires |times| == |q|
    ensures Drain(cfg, PlainChannel(ch), lane, PlainQ(q), times, clk) ==
      PlainDrained(Drain(cfg, ch, lane, q, times, clk))
    decreases |q|
  {
    hide TurnOf, PlainChannel;
    if q == [] {
      assert PlainQ(q) == [];
    } else {
      assert PlainQ(q)[0] == Plain(q[0]) && PlainQ(q)[1..] == PlainQ(q[1..]);
      PlainTurnOf(cfg, ch, lane, q[0], times[0], clk);
      match TurnOf(cfg, ch, lane, q[0], times[0], clk) {
        case Exits =>
        case Leaves(next) => PlainDrain(cfg, next, lane, q[1..], times[1..], clk);
        case Stays =>
          PlainDrain(cfg, ch, lane, q[1..], times[1..], clk);
          match Drain(cfg, ch, lane, q[1..], times[1..], clk) {
            case None =>
            case Some(d) => assert PlainQ([q[0]] + d.rest) == [Plain(q[0])] + PlainQ(d.rest);
          }
      }
    }
  }

  lemma {:induction false} PlainPimPart(cfg: Config, s: PimSide)
    ensures PimPart(cfg, PlainSide(s)) == PlainSides(PimPart(cfg, s))
  {
    hide Drain, PlainQ, PlainChannel, Times;
    PlainDrain(cfg, s.channel, Weights, s.rdW, Times(|s.rdW|, 0), s.clk);
    if WeightsPart(cfg, s).Some? {
      var w := WeightsPart(cfg, s).value;
      if |w.releaseTime| == |w.rdIn| {
        PlainDrain(cfg, w.channel, Inputs, w.rdIn, w.releaseTime, w.clk);
        if InputsPart(cfg, w).Some? {
          var i := InputsPart(cfg, w).value;
          PlainDrain(cfg, i.channel, Outputs, i.wrQ, Times(|i.wrQ|, 0), i.clk);
        }
      }
    }
  }

  lemma {:induction false} PlainRefreshWork(cfg: Config, ch: Channel, clk: nat)
    ensures RefreshWork(cfg, PlainChannel(ch), clk) == PlainO(RefreshWork(cfg, ch, clk))
  {
    hide AnswerTo, PlainH;
    if ch.refreshQ != [] {
      assert PlainChannel(ch).refreshQ[0] == Plain(ch.refreshQ[0]);
      PlainAnswerTo(cfg, ch, ch.refreshQ[0], clk);
    }
  }

  lemma {:induction false} PlainIssuing(cfg: Config, s: PimSide)
    ensures Issuing(cfg, PlainSide(s)) == PlainSides(Issuing(cfg, s))
  {
    hide RefreshWork, PimPart, AfterIssue, PlainH;
    var f := RefreshWork(cfg, s.channel, s.clk);
    PlainRefreshWork(cfg, s.channel, s.clk);
    var refreshes := f.Some? && f.value.IsRefresh();
    if f.Some? {
      PlainIssue(cfg, s.channel, f.value, s.clk);
    }
    PlainPimPart(cfg, s.(isInRef := if s.channel.refreshQ == [] then s.isInRef else !refreshes));
  }

  lemma {:induction false} PlainRequested(u: Setup, s: PimSide)
    ensures Requested(u, PlainSide(s)) == PlainSide(Requested(u, s))
  {
    hide PlainH;
    var q, r := s.channel.refreshQ, Requested(u, s).channel.refreshQ;
    if r != q {
      assert r == q + [r[|q|]] && Plain(r[|q|]) == r[|q|];
      assert PlainQ(r) == PlainQ(q) + [r[|q|]];
    }
  }

  /** A cycle does the same whatever the channel is called and wherever it lies in the address space. */
  lemma {:induction false} PlainCycle(u: Setup, s: PimSide)
    ensures Cycle(u, PlainSide(s)) == PlainSides(Cycle(u, s))
  {
    hide Issuing, Requested, PlainQ, PlainChannel;
    PlainRequested(u, s);
    PlainIssuing(u.cfg, Requested(u, s));
  }
}
