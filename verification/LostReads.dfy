/** A run in which a host read is lost to waiting PIM commands, on every device. */
module LostReads {
  import opened Commands
  import opened Sequences
  import opened TimingSpec
  import opened TimingTables
  import opened BankSpec
  import opened ChannelSpec
  import opened QueueSpec
  import opened Channels
  import opened CommandQueues
  import opened Refreshes
  import opened MemoryBooks
  import opened PimCycles
  import opened HostCycles
  import opened Controllers

  /** One bank, and the host's cell 5 in the row that PIM work opens. */
  const ORIGIN := Address(0, 0, 0, 0, 0, 0)
  const HERE := Place(0, 0, 0)

  function OpenRow(): Command { Command(PimActivate, ORIGIN, 0) }
  function PimAccess(): Command { Command(GhRead, ORIGIN, 0) }
  function HostRead(): Command { Command(Read, ORIGIN, 5) }

  /** A controller as it is built, for any device: host transactions in one queue, rows left open. */
  method Construct(d: Device, tFAW: nat, t32AW: nat, interval: int) returns (c: Controller)
    requires d.Sane() && interval > 1
    ensures c.Valid() && c.PimIdle() && c.unified && !c.closePage && c.capacity == 8 && c.clk == 0
    ensures c.releaseTime == []
    ensures c.discarded == [] && c.log == [] && c.pendingRd == c.pendingWr == []
    ensures c.unifiedQ == c.readQ == c.writeBuf == []
    ensures c.cmdQueue.queues == [[]] && c.cmdQueue.queueSize == 4 && !c.cmdQueue.perBank && !c.cmdQueue.isInRef
    ensures c.channel.geo == Geometry(1, 1, 1) && c.channel.tables == Build(d) && c.refresh.interval == interval
    ensures c.channel.View() == Channel([], [], [[]], [[]])
    ensures forall a :: c.mapping(a) == ORIGIN
    ensures fresh(c) && fresh(c.cmdQueue) && fresh(c.refresh) && fresh(c.channel) && fresh(c.channel.banks)
  {
    hide ChannelState.Valid, CommandQueue.Valid, Refresh.Valid, Controller.Valid, Build;
    var channel := new ChannelState(Geometry(1, 1, 1), Build(d), tFAW, t32AW, d.isGddr);
    var queue := new CommandQueue(channel, false, 4);
    var refresh := new Refresh(channel, RankStaggered, interval);
    c := new Controller(channel, queue, refresh, _ => ORIGIN, true, false, false, 8, 1);
    assert channel.View() == Channel([], [], [[]], [[]]);
  }

  /** The PIM command ends the cycle with the row open. */
  lemma {:induction false} Opens(cfg: Config, s: PimSide, inRef: bool)
    requires s.channel == Channel([], [], [[]], [[]]) && s.rdW == [OpenRow()] && s.rdIn == [] && s.releaseTime == []
    requires s.wrQ == []
    ensures PimPart(cfg, s.(isInRef := inRef)).Some?
    ensures var t := PimPart(cfg, s.(isInRef := inRef)).value;
      t.channel.history == [Issued(OpenRow(), s.clk)] && t.channel.refreshQ == [] && t.rdW == t.rdIn == t.wrQ == [] &&
        t.releaseTime == []
  {
    var ask := Command(GhRead, ORIGIN, 0);
    assert BankAt(s.channel, HERE) == FRESH;
    assert Answered(cfg, s.channel, ask, s.clk) == Ready(OpenRow());
    var next := AfterIssue(cfg, s.channel, OpenRow(), s.clk);
    assert TurnOf(cfg, s.channel, Weights, OpenRow(), 0, s.clk) == Leaves(next);
    assert Times(1, 0) == [0] && [OpenRow()][1..] == [] && [0][1..] == [];
    assert Drain(cfg, next, Weights, [], [], s.clk) == Some(Drained(next, [], []));
    assert Drain(cfg, s.channel, Weights, [OpenRow()], [0], s.clk) == Some(Drained(next, [], []));
  }

  /** An activation for PIM work puts no delay on the host's reads, on any device. */
  lemma {:induction false} HostReady(d: Device, cfg: Config, ch: Channel, clk: nat, at: nat)
    requires d.Sane() && cfg.tables == Build(d) && ch.history == [Issued(OpenRow(), at)]
    ensures Answered(cfg, ch, HostRead(), clk) == Ready(HostRead())
  {
    assert ch.history[..0] == [];
    assert Replay(ch.history, HERE) == Advance(FRESH, OpenRow());
    HorizonMeaning(cfg.tables, ch.history, HERE, Read, 0);
    assert Horizon(cfg.tables, ch.history, HERE, Read) == 0;
  }

  lemma {:induction false} HostFetched(cfg: Config, ch: Channel, clk: nat, idx: int)
    requires Answered(cfg, ch, HostRead(), clk) == Ready(HostRead()) && idx == 0
    ensures RoundRobin(cfg, ch, clk, [[HostRead()]], {}, idx, 1) == Some(HostRead())
  {
    hide Answered;
    var q := [HostRead()];
    assert Eligible(cfg, ch, clk, q, 0);
    FirstReadyMeaning(cfg, ch, clk, q, 0, 0);
    RoundRobinMeaning(cfg, ch, clk, [q], {}, idx, 1, 1);
  }

  lemma {:induction false} NothingFetched(cfg: Config, ch: Channel, clk: nat, idx: int)
    ensures RoundRobin(cfg, ch, clk, [[]], {}, idx, 1) == None
  {
    assert FirstReady(cfg, ch, clk, [], 0) == None;
  }

  lemma {:induction false} NoRequest(u: Setup, s: PimSide)
    requires s.clk < u.interval && s.channel.refreshQ == []
    ensures Requested(u, s) == s && RefreshWork(u.cfg, s.channel, s.clk).None?
  {
  }

  lemma {:induction false} OneLane(c: Controller, cmd: Command)
    requires c.channel.geo == Geometry(1, 1, 1) && cmd.Where() == HERE && IsPimCommand(cmd)
    ensures c.PimShaped([cmd])
  {
  }

  lemma {:induction false} QueueSeen(c: Controller)
    requires c.Valid() && |c.cmdQueue.queues| == 1
    ensures c.cmdQueue.channel == c.channel && c.cmdQueue.clk == c.clk && c.cmdQueue.queueIdx == 0
  {
  }

  /** The first cycle: the transaction goes to the command queue while PIM work opens the row. */
  method OpenFirst(d: Device, c: Controller)
    requires d.Sane() && c.Valid() && c.clk == 0 && c.rdW == [OpenRow()] && c.rdIn == c.wrQ == []
    requires c.releaseTime == [] && c.discarded == []
    requires c.unified && !c.closePage && c.cmdQueue.queues == [[]] && c.cmdQueue.queueSize == 4 && !c.cmdQueue.perBank
    requires |c.unifiedQ| == 1 && c.unifiedQ[0].addr == 5 && !c.unifiedQ[0].isWrite
    requires c.channel.tables == Build(d) && c.channel.View() == Channel([], [], [[]], [[]]) && c.refresh.interval > 1
    requires forall a :: c.mapping(a) == ORIGIN
    modifies c, c.cmdQueue, c.refresh, c.channel`refreshQ, c.channel`fourAw, c.channel`thirtyTwoAw, c.channel`history,
             c.channel`early, c.channel.banks
    ensures c.Valid() && c.clk == 1 && c.cmdQueue.queues == [[HostRead()]] && c.discarded == []
    ensures c.rdW == c.rdIn == c.wrQ == [] && c.channel.refreshQ == [] && c.channel.history == [Issued(OpenRow(), 0)]
  {
    hide Controller.Valid, Requested, PimPart, StuckStay, Controller.Served, Cycle, Build, RefreshWork, RoundRobin,
      Controller.Hostless, Controller.Moves;
    ghost var b, s := c.View(), c.PimView();
    NoRequest(c.Plan(), s);
    NothingFetched(c.channel.Settings(), s.channel, 0, c.cmdQueue.queueIdx);
    Opens(c.channel.Settings(), s, s.isInRef);
    var ok;
    ghost var fetched, ref;
    ok, fetched, ref := c.ClockTick();
    Opens(c.channel.Settings(), s, c.cmdQueue.isInRef);
    MovesRead(c, b, old(c.writeDraining), c.View(), c.writeDraining);
  }

  lemma {:induction false} MovesRead(c: Controller, b: Books, w: int, after: Books, v: int)
    requires c.Moves(b, w, after, v) && b.unified && !c.closePage && b.queues == [[]] && c.cmdQueue.queueSize == 4
    requires !c.cmdQueue.perBank
    requires |b.unifiedQ| == 1 && b.unifiedQ[0].addr == 5 && !b.unifiedQ[0].isWrite
    requires forall a :: c.mapping(a) == ORIGIN
    ensures after.queues == [[HostRead()]]
  {
    var width := DrainWidth(b, w, c.capacity);
    var m :| c.MovesTo(b, width, m, after) && v == DrainLeft(b, c.HomeOf(), c.cmdQueue.queueSize, width, m);
    assert FirstRoomy(b, c.HomeOf(), c.cmdQueue.queueSize, b.unifiedQ, 0) && !Blocked(b, b.unifiedQ[0]);
    assert m == 0;
    assert [] + [HostRead()] == [HostRead()];
  }

  /** The second cycle: while more PIM work waits the read is fetched and lost. */
  method LoseNow(d: Device, c: Controller)
    requires d.Sane() && c.Valid() && c.clk == 1 && c.cmdQueue.queues == [[HostRead()]] && c.discarded == []
    requires c.refresh.interval > 1
    requires c.rdW == [PimAccess()] && c.rdIn == c.wrQ == [] && c.channel.tables == Build(d)
    requires c.channel.refreshQ == [] && c.channel.history == [Issued(OpenRow(), 0)]
    modifies c, c.cmdQueue, c.refresh, c.channel`refreshQ, c.channel`fourAw, c.channel`thirtyTwoAw, c.channel`history,
             c.channel`early, c.channel.banks
    ensures c.Valid() && c.clk == 2 && c.discarded == [HostRead()]
  {
    hide Controller.Valid, Requested, PimPart, StuckStay, Controller.Served, Cycle, Build, RefreshWork, RoundRobin,
      Controller.Hostless,
      Controller.Moves, Controller.View, Answered;
    NoRequest(c.Plan(), c.PimView());
    HostReady(d, c.channel.Settings(), c.channel.View(), c.clk, 0);
    QueueSeen(c);
    HostFetched(c.channel.Settings(), c.channel.View(), c.clk, c.cmdQueue.queueIdx);
    GoesOn(c);
    var ok;
    ghost var fetched, ref;
    ok, fetched, ref := c.ClockTick();
  }

  lemma {:induction false} GoesOn(c: Controller)
    requires c.Valid() && c.rdW == [PimAccess()] && c.rdIn == c.wrQ == []
    ensures PimPart(c.channel.Settings(), c.PimView()).Some?
  {
    c.PimGoesOn();
  }

  /** On every device: a read is accepted; in the first cycle it is queued while PIM work opens its row;
      in the second, while more PIM work waits, it is fetched and lost, and its address is stuck. */
  method LosesRead(d: Device, tFAW: nat, t32AW: nat, interval: int) returns (c: Controller)
    requires d.Sane() && interval > 1
    ensures c.Valid() && c.channel.tables == Build(d) && c.clk == 2 && c.discarded == [HostRead()] && Stuck(c.Loss(), 5)
  {
    hide Controller.Valid, Build;
    c := Construct(d, tFAW, t32AW, interval);
    c.AddTransaction(5, false, 0);
    OneLane(c, OpenRow());
    c.DeliverPim(Weights, [OpenRow()]);
    assert [] + [OpenRow()] == [OpenRow()];
    OpenFirst(d, c);
    OneLane(c, PimAccess());
    c.DeliverPim(Weights, [PimAccess()]);
    assert [] + [PimAccess()] == [PimAccess()];
    LoseNow(d, c);
    assert CmdIs(5, false)(HostRead());
  }
}
