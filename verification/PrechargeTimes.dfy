/** The precharges that a weight queue sends unasked: exactly when they come before their time, and a run
    in which one does. */
module PrechargeTimes {
  import opened Commands
  import opened TimingSpec
  import opened TimingTables
  import opened BankSpec
  import opened ChannelSpec
  import opened Channels
  import opened CommandQueues
  import opened Refreshes
  import opened PimCycles
  import opened Controllers

  /** Precharges of one rank keep a distance. */
  predicate Separates(d: Device) { (d.isGddr || d.isLpddr4) && d.tPPD > 0 }

  /** What a PIM command does to the precharge time of another bank. */
  lemma {:induction false} LaterHorizon(d: Device, h: seq<Issued>, c: Command, clk: nat, p: Place)
    requires d.Sane() && IsPimCommand(c) && p != c.Where()
    ensures clk >= Horizon(Build(d), h + [Issued(c, clk)], p, Precharge) <==>
      clk >= Horizon(Build(d), h, p, Precharge) && !(Separates(d) && c.kind.Precharge? && p.rank == c.addr.rank)
  {
    HorizonExtend(Build(d), h, Issued(c, clk), p, Precharge);
  }

  /** No entry before a precharge is for its bank. */
  ghost predicate PrechargesFirst(q: seq<Command>) {
    forall i, k :: 0 <= i < k < |q| && q[k].kind.Precharge? ==> q[i].Where() != q[k].Where()
  }

  /** Every precharge has reached its time at the start of the cycle. */
  ghost predicate AllDue(t: Tables, ch: Channel, q: seq<Command>, clk: nat) {
    forall k :: 0 <= k < |q| && q[k].kind.Precharge? ==> clk >= Horizon(t, ch.history, q[k].Where(), Precharge)
  }

  /** No two precharges are for one rank. */
  ghost predicate OnePerRank(q: seq<Command>) {
    forall i, k :: 0 <= i < k < |q| && q[i].kind.Precharge? && q[k].kind.Precharge? ==> q[i].addr.rank != q[k].addr.rank
  }

  /** A weight queue in which each precharge is the first entry for its bank, and finds it open, sends all
      of them in time exactly when each is due at the start of the cycle and, on devices that separate
      precharges, no two are for one rank. */
  lemma {:induction false} TooSoonExactly(d: Device, cfg: Config, ch: Channel, q: seq<Command>, times: seq<int>,
                                          clk: nat)
    requires d.Sane() && cfg.tables == Build(d) && |times| == |q|
    requires Awake(cfg.geo, ch) && PimOnly(cfg.geo, q) && PrechargesFirst(q) && PrechargesOpen(ch, q)
    ensures TooSoon(cfg, ch, Weights, q, times, clk) == {} <==>
      AllDue(cfg.tables, ch, q, clk) && (Separates(d) ==> OnePerRank(q))
    decreases |q|
  {
    hide Awake, BankAt, Horizon, TurnOf, Build, Separates;
    if q != [] {
      var t := TurnOf(cfg, ch, Weights, q[0], times[0], clk);
      TurnExits(cfg, ch, Weights, q[0], times[0], clk);
      Split(cfg.tables, ch, q, clk);
      if t.Stays? {
        PrechargeGoes(cfg, ch, q[0], times[0], clk);
        TooSoonExactly(d, cfg, ch, q[1..], times[1..], clk);
      } else {
        StaysAwake(cfg, ch, Weights, q[0], times[0], clk);
        Later(d, cfg, ch, q, times[0], clk);
        TooSoonExactly(d, cfg, t.channel, q[1..], times[1..], clk);
      }
    }
  }

  lemma {:induction false} Split(t: Tables, ch: Channel, q: seq<Command>, clk: nat)
    requires q != []
    ensures AllDue(t, ch, q, clk) <==>
      (q[0].kind.Precharge? ==> clk >= Horizon(t, ch.history, q[0].Where(), Precharge)) && AllDue(t, ch, q[1..], clk)
    ensures OnePerRank(q) <==> OnePerRank(q[1..]) && FirstRankAlone(q)
    ensures PrechargesFirst(q) ==> PrechargesFirst(q[1..])
    ensures PrechargesOpen(ch, q) ==> PrechargesOpen(ch, q[1..])
  {
    hide Horizon, BankAt;
    assert forall k :: 1 <= k < |q| ==> q[k] == q[1..][k - 1];
  }

  ghost predicate FirstRankAlone(q: seq<Command>)
    requires q != []
  {
    forall k :: 1 <= k < |q| && q[0].kind.Precharge? && q[k].kind.Precharge? ==> q[0].addr.rank != q[k].addr.rank
  }

  lemma {:induction false} Later(d: Device, cfg: Config, ch: Channel, q: seq<Command>, time: int, clk: nat)
    requires d.Sane() && cfg.tables == Build(d) && q != [] && PimOnly(cfg.geo, q) && PrechargesFirst(q)
    requires PrechargesOpen(ch, q)
    requires TurnOf(cfg, ch, Weights, q[0], time, clk).Leaves?
    ensures var next := TurnOf(cfg, ch, Weights, q[0], time, clk).channel;
      PrechargesOpen(next, q[1..])
      && (AllDue(cfg.tables, next, q[1..], clk) <==>
        AllDue(cfg.tables, ch, q[1..], clk) && (Separates(d) ==> FirstRankAlone(q)))
  {
    hide Horizon, BankAt, Build, Answered, Separates;
    var next := TurnOf(cfg, ch, Weights, q[0], time, clk).channel;
    forall k | 1 <= k < |q| && q[k].kind.Precharge?
      ensures BankAt(next, q[k].Where()) == BankAt(ch, q[k].Where())
      ensures clk >= Horizon(cfg.tables, next.history, q[k].Where(), Precharge) <==>
        clk >= Horizon(cfg.tables, ch.history, q[k].Where(), Precharge)
        && !(Separates(d) && q[0].kind.Precharge? && q[k].addr.rank == q[0].addr.rank)
    {
      BankAfter(cfg, ch, q[0], clk, q[k].Where());
      LaterHorizon(d, ch.history, q[0], clk, q[k].Where());
    }
    assert forall k :: 1 <= k < |q| ==> q[k] == q[1..][k - 1];
    assert forall k :: 0 <= k < |q| - 1 ==> q[1..][k] == q[k + 1];
  }

  // The run

  function OpenBank(b: int): Command { Command(PimActivate, Address(0, 0, 0, b, 0, 0), 0) }
  function NextRow(b: int): Command { Command(GhRead, Address(0, 0, 0, b, 1, 0), 0) }
  function CloseBank(b: int): Command { Command(Precharge, Address(0, 0, 0, b, 1, 0), 0) }

  /** Two banks have been opened in the first cycle, and nothing waits. */
  ghost predicate BothOpen(s: PimSide) {
    && s.channel.history == [Issued(OpenBank(0), 0), Issued(OpenBank(1), 0)] && s.channel.refreshQ == []
    && s.rdIn == [] && s.releaseTime == [] && s.wrQ == []
  }

  /** A fresh bank that is free to open takes the activation at once. */
  lemma {:induction false} OpenTurn(cfg: Config, ch: Channel, b: int)
    requires ch.refreshQ == [] && BankAt(ch, Place(0, 0, b)) == FRESH && WindowsOpen(cfg, ch, 0, 0)
    requires Horizon(cfg.tables, ch.history, Place(0, 0, b), PimActivate) == 0
    ensures TurnOf(cfg, ch, Weights, OpenBank(b), 0, 0) == Leaves(AfterIssue(cfg, ch, OpenBank(b), 0))
  {
    hide Horizon, BankAt, WindowsOpen, AfterIssue;
  }

  lemma {:induction false} StillFresh(d: Device, cfg: Config, ch: Channel)
    requires d.Sane() && cfg.tables == Build(d) && ch == AfterIssue(cfg, Channel([], [], [[]], [[]]), OpenBank(0), 0)
    ensures BankAt(ch, Place(0, 0, 1)) == FRESH && Horizon(cfg.tables, ch.history, Place(0, 0, 1), PimActivate) == 0
    ensures WindowsOpen(cfg, ch, 0, 0) && ch.refreshQ == []
  {
    var p := Place(0, 0, 1);
    BankAfter(cfg, Channel([], [], [[]], [[]]), OpenBank(0), 0, p);
    HorizonExtend(cfg.tables, [], Issued(OpenBank(0), 0), p, PimActivate);
    assert Applied(cfg.tables, OpenBank(0), p) == [Constraint(RefreshBank, d.TRC())];
  }

  lemma {:induction false} OpensBoth(d: Device, u: Setup, s: PimSide)
    requires d.Sane() && u.cfg.tables == Build(d) && s.clk == 0 && s.channel == Channel([], [], [[]], [[]])
    requires s.rdW == [OpenBank(0), OpenBank(1)] && s.rdIn == [] && s.releaseTime == [] && s.wrQ == []
    ensures var r := Cycle(u, s); r.Some? && BothOpen(r.value) && r.value.rdW == [] && r.value.clk == 1
  {
    hide TurnOf, Build;
    var a := AfterIssue(u.cfg, s.channel, OpenBank(0), 0);
    var b := AfterIssue(u.cfg, a, OpenBank(1), 0);
    OpenTurn(u.cfg, s.channel, 0);
    StillFresh(d, u.cfg, a);
    OpenTurn(u.cfg, a, 1);
    assert Times(2, 0) == [0, 0] && [0, 0][1..] == [0] && [0][1..] == [];
    assert s.rdW[1..] == [OpenBank(1)] && [OpenBank(1)][1..] == [];
    assert Drain(u.cfg, b, Weights, [], [], 0) == Some(Drained(b, [], []));
    assert Drain(u.cfg, a, Weights, [OpenBank(1)], [0], 0) == Some(Drained(b, [], []));
    assert Drain(u.cfg, s.channel, Weights, s.rdW, [0, 0], 0) == Some(Drained(b, [], []));
    assert Requested(u, s) == s;
  }

  lemma {:induction false} OpenedAlone(h: seq<Issued>, b: int)
    requires h == [Issued(OpenBank(0), 0), Issued(OpenBank(1), 0)] && 0 <= b < 2
    ensures Replay(h, Place(0, 0, b)) == Some(BankView(Open, 0, 0))
  {
    var first := [Issued(OpenBank(0), 0)];
    assert h[..1] == first && first[..0] == [];
  }

  lemma {:induction false} MayClose(d: Device, h: seq<Issued>, b: int, clk: nat)
    requires d.Sane() && h == [Issued(OpenBank(0), 0), Issued(OpenBank(1), 0)] && 0 <= b < 2 && clk >= d.tRAS
    ensures clk >= Horizon(Build(d), h, Place(0, 0, b), Precharge)
  {
    HorizonMeaning(Build(d), h, Place(0, 0, b), Precharge, clk);
  }

  /** Once the rows may be closed, both banks answer a request for another row with a precharge. */
  lemma {:induction false} BothAnswer(d: Device, cfg: Config, s: PimSide, b: int)
    requires d.Sane() && cfg.tables == Build(d) && BothOpen(s) && 0 <= b < 2 && s.clk >= d.tRAS
    ensures Answered(cfg, s.channel, NextRow(b), s.clk) == Ready(CloseBank(b))
  {
    hide Build, Replay, Horizon;
    OpenedAlone(s.channel.history, b);
    MayClose(d, s.channel.history, b, s.clk);
  }

  /** Sent together, the second one is too soon. */
  lemma {:induction false} SecondSoon(d: Device, cfg: Config, s: PimSide)
    requires d.Sane() && cfg.tables == Build(d) && cfg.geo == Geometry(1, 1, 2) && Separates(d)
    requires BothOpen(s) && s.rdW == [CloseBank(0), CloseBank(1)]
    ensures TooSoonIn(cfg, s) != {} && PimPart(cfg, s).Some?
  {
    hide Build, Replay, Horizon, Drain, TooSoon;
    OpenedAlone(s.channel.history, 0);
    OpenedAlone(s.channel.history, 1);
    assert !OnePerRank(s.rdW) by {
      assert s.rdW[0].kind.Precharge? && s.rdW[1].kind.Precharge?;
    }
    TooSoonExactly(d, cfg, s.channel, s.rdW, Times(2, 0), s.clk);
    PimPartExactly(cfg, s);
  }

  lemma {:induction false} Waits(u: Setup, s: PimSide)
    requires BothOpen(s) && s.rdW == [] && 0 < s.clk < u.interval
    ensures Requested(u, s) == s && Cycle(u, s) == Some(s.(clk := s.clk + 1))
  {
  }

  lemma {:induction false} NoRequest(u: Setup, s: PimSide)
    requires 0 < s.clk < u.interval && s.channel.refreshQ == []
    ensures Requested(u, s) == s && RefreshWork(u.cfg, s.channel, s.clk).None?
  {
  }

  lemma {:induction false} TwoBanks(c: Controller, cmds: seq<Command>)
    requires c.channel.geo == Geometry(1, 1, 2)
    requires forall k :: 0 <= k < |cmds| ==>
      IsPimCommand(cmds[k]) && cmds[k].addr.rank == 0 && cmds[k].addr.bankgroup == 0 && 0 <= cmds[k].addr.bank < 2
    ensures c.PimShaped(cmds)
  {
  }

  method BuildTwo(d: Device, tFAW: nat, t32AW: nat, interval: int) returns (c: Controller)
    requires d.Sane() && interval > 0
    ensures c.Valid() && c.Hostless() && c.channel.geo == Geometry(1, 1, 2) && c.channel.tables == Build(d)
    ensures c.channel.early == {}
    ensures c.PimView() == PimSide(0, Channel([], [], [[]], [[]]), false, [], [], [], [])
    ensures c.Plan() == Setup(c.channel.Settings(), RankStaggered, interval)
    ensures fresh(c) && fresh(c.cmdQueue) && fresh(c.refresh) && fresh(c.channel) && fresh(c.channel.banks)
  {
    hide ChannelState.Valid, CommandQueue.Valid, Refresh.Valid, Controller.Valid;
    var channel := new ChannelState(Geometry(1, 1, 2), Build(d), tFAW, t32AW, d.isGddr);
    var queue := new CommandQueue(channel, false, 4);
    var refresh := new Refresh(channel, RankStaggered, interval);
    c := new Controller(channel, queue, refresh, _ => Address(0, 0, 0, 0, 0, 0), true, false, false, 8, 1);
    assert channel.View() == Channel([], [], [[]], [[]]);
  }

  /** On every device that separates precharges: two banks are opened, both answer with a precharge once
      they may be closed, and the two precharges sent together break the timing. */
  method BreaksTiming(d: Device, tFAW: nat, t32AW: nat) returns (c: Controller)
    requires d.Sane() && Separates(d)
    ensures c.Valid() && c.channel.tables == Build(d) && c.channel.early != {}
    ensures !MeetsEveryConstraint(Build(d), c.channel.geo, c.channel.history)
  {
    hide Controller.Valid, Controller.Hostless, Build, Cycle, Requested, TooSoonIn, PimPart, RefreshWork,
      Controller.Served,
      Controller.NextFetched, MeetsEveryConstraint, MemoryBooks.StuckStay;
    var t := Max(1, d.tRAS);
    c := BuildTwo(d, tFAW, t32AW, t + 2);
    TwoBanks(c, [OpenBank(0), OpenBank(1)]);
    c.DeliverPim(Weights, [OpenBank(0), OpenBank(1)]);
    assert [] + [OpenBank(0), OpenBank(1)] == [OpenBank(0), OpenBank(1)];
    OpensBoth(d, c.Plan(), c.PimView());
    var ok;
    ghost var fetched, ref;
    ok, fetched, ref := c.ClockTick();
    while c.clk < t
      invariant c.Valid() && c.Hostless() && BothOpen(c.PimView()) && c.rdW == [] && 0 < c.clk <= t
      invariant c.channel.geo == Geometry(1, 1, 2) && c.channel.tables == Build(d)
      invariant c.Plan() == Setup(c.channel.Settings(), RankStaggered, t + 2)
      invariant fresh(c) && fresh(c.cmdQueue) && fresh(c.refresh) && fresh(c.channel) && fresh(c.channel.banks)
      decreases t - c.clk
    {
      Waits(c.Plan(), c.PimView());
      ok, fetched, ref := c.ClockTick();
    }
    SendBoth(d, c, t);
  }

  method SendBoth(d: Device, c: Controller, ghost t: int)
    requires d.Sane() && Separates(d) && c.Valid() && c.Hostless() && BothOpen(c.PimView()) && c.rdW == []
    requires 0 < c.clk <= t && c.clk >= d.tRAS && c.refresh.interval == t + 2 && c.channel.geo == Geometry(1, 1, 2)
    requires c.channel.tables == Build(d)
    modifies c, c.cmdQueue, c.refresh, c.channel`refreshQ, c.channel`fourAw, c.channel`thirtyTwoAw, c.channel`history,
             c.channel`early, c.channel.banks
    ensures c.Valid() && c.channel.early != {} && !MeetsEveryConstraint(Build(d), c.channel.geo, c.channel.history)
  {
    hide Controller.Valid, Controller.Hostless, Build, Cycle, Requested, TooSoonIn, PimPart, RefreshWork,
      Controller.Served,
      Controller.NextFetched, MeetsEveryConstraint, MemoryBooks.StuckStay;
    BothAnswer(d, c.channel.Settings(), c.PimView(), 0);
    BothAnswer(d, c.channel.Settings(), c.PimView(), 1);
    TwoBanks(c, [CloseBank(0), CloseBank(1)]);
    c.DeliverPim(Weights, [CloseBank(0), CloseBank(1)]);
    assert [] + [CloseBank(0), CloseBank(1)] == [CloseBank(0), CloseBank(1)];
    NoRequest(c.Plan(), c.PimView());
    SecondSoon(d, c.channel.Settings(), c.PimView());
    var ok;
    ghost var fetched, ref;
    ok, fetched, ref := c.ClockTick();
    NotSound(c);
  }

  lemma {:induction false} NotSound(c: Controller)
    requires c.Valid() && c.channel.early != {}
    ensures !MeetsEveryConstraint(c.channel.tables, c.channel.geo, c.channel.history)
  {
    c.channel.SoundTiming();
  }
}
