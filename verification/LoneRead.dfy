/** A controller with nothing to do accepts one read: the cycle in which it is returned, for every state of
    the banks, every page policy and either kind of issue. */
module LoneReads {
  import opened Commands
  import opened Sequences
  import opened TimingSpec
  import opened TimingTables
  import opened BankSpec
  import opened Banks
  import opened ChannelSpec
  import opened Channels
  import opened QueueSpec
  import opened CommandQueues
  import opened MemoryBooks
  import opened Refreshes
  import opened PimCycles
  import opened HostCycles
  import opened LoneAccess
  import opened Controllers

  /** No transaction waits for a command queue. */
  ghost predicate NoneWaits(b: Books) { b.unifiedQ == b.readQ == b.writeBuf == [] }

  /** Nothing is pending anywhere. */
  ghost predicate Still(b: Books) {
    NoneWaits(b) && AllEmpty(b.queues) && b.pendingRd == b.pendingWr == []
  }

  /** The read waits for its command queue, and nothing else does. */
  ghost predicate Entering(b: Books, t: Transaction) {
    && (if b.unified then b.unifiedQ == [t] && b.readQ == [] else b.readQ == [t] && b.unifiedQ == [])
    && b.writeBuf == [] && AllEmpty(b.queues) && b.pendingRd == [t] && b.pendingWr == [] && !t.isWrite
  }

  /** The read waits in its command queue, and nothing else does. */
  ghost predicate Queuing(b: Books, home: Home, cmd: Command, t: Transaction) {
    NoneWaits(b) && OnlyAt(b.queues, home(t.addr), cmd) && b.pendingRd == [t] && b.pendingWr == [] && !t.isWrite
  }

  /** The books are otherwise the same. */
  ghost predicate Apart(b: Books, c: Books) {
    c.returnQ == b.returnQ && c.done == b.done && c.log == b.log && c.dram == b.dram && c.unified == b.unified
  }

  /** A refresh is requested in cycle x. */
  predicate Instant(interval: int, x: nat) { interval > 0 && x > 0 && x % interval == 0 }

  ghost predicate Calm(interval: int, from: nat, to: nat) { forall x: nat :: from <= x < to ==> !Instant(interval, x) }

  /** A read alone: it moves to its command queue in the second half of a cycle. */
  lemma {:induction false} MovesIn(c: Controller, b: Books, t: Transaction, after: Books, v: int)
    requires c.Moves(b, 0, after, v) && Entering(b, t) && RoomIn(b, c.HomeOf(), c.cmdQueue.queueSize, t.addr)
    ensures v == 0 && Queuing(after, c.HomeOf(), c.TransToCommand(t), t) && Apart(b, after)
    ensures |after.queues| == |b.queues|
  {
    var q := Source(b, false);
    assert DrainWidth(b, 0, c.capacity) == 0 && q == [t];
    var m :| c.MovesTo(b, 0, m, after) && v == DrainLeft(b, c.HomeOf(), c.cmdQueue.queueSize, 0, m);
    assert FirstRoomy(b, c.HomeOf(), c.cmdQueue.queueSize, q, 0);
    assert !Blocked(b, q[0]);
    assert m == 0;
    assert RemoveAt(q, 0) == [];
  }

  lemma {:induction false} MovesNothing(c: Controller, b: Books, after: Books, v: int)
    requires c.Moves(b, 0, after, v) && NoneWaits(b)
    ensures after == b && v == 0
  {
    assert DrainWidth(b, 0, c.capacity) == 0 && Source(b, false) == [];
    var m :| c.MovesTo(b, 0, m, after) && v == DrainLeft(b, c.HomeOf(), c.cmdQueue.queueSize, 0, m);
  }

  /** What the next cycle starts from when no refresh waits or is due. */
  lemma {:induction false} NoRefreshNow(c: Controller)
    requires c.Valid() && c.channel.refreshQ == [] && !Instant(c.refresh.interval, c.clk)
    ensures c.HostNow() == c.HostView() && c.NextFetched() == FetchAlone(c.HostRules(), c.HostView(), c.clk)
  {
    hide Controller.Working, RoundRobin;
  }

  lemma {:induction false} ChannelKnown(c: Controller)
    requires c.Valid()
    ensures c.channel.Valid() && c.cmdQueue.channel == c.channel && |c.cmdQueue.queues| == c.cmdQueue.NumQueues()
    ensures 0 <= c.cmdQueue.queueIdx < |c.cmdQueue.queues| && (forall a :: c.channel.geo.Has(Spot(c.mapping(a))))
    ensures 0 <= c.writeDraining <= |c.writeBuf|
  {
    hide Inv, Controller.HandOff, ChannelState.Valid, Refresh.Valid;
  }

  /** The bank of the read is known and awake. */
  lemma {:induction false} BankKnown(c: Controller, t: Transaction)
    requires c.Valid() && !t.isWrite
    ensures LoneAccess.Ready(c.channel.Settings(), c.channel.View(), c.TransToCommand(t))
    ensures 0 <= c.HomeOf()(t.addr) < |c.cmdQueue.queues|
    ensures c.HomeOf()(t.addr) == c.cmdQueue.QueueIndex(c.TransToCommand(t).Where())
  {
    hide Controller.Valid, ChannelState.Sound, Replay;
    ChannelKnown(c);
    c.channel.NeverSleeps();
    var p := Spot(c.mapping(t.addr));
    assert c.channel.Tracks(p);
    c.cmdQueue.QueueIndexRange(p);
  }

  lemma {:induction false} AloneNow(c: Controller, t: Transaction)
    requires c.Valid() && c.channel.refreshQ == [] && Queuing(c.View(), c.HomeOf(), c.TransToCommand(t), t)
    ensures Alone(c.HostRules(), c.HostView(), c.TransToCommand(t))
  {
    hide Controller.Valid, LoneAccess.Ready, CommandQueue.NumQueues;
    ChannelKnown(c);
    BankKnown(c, t);
  }

  /** The cycle after acceptance: the read has moved to its queue. */
  lemma {:induction false} EnterStep(c: Controller, h: Host, now: nat, t: Transaction)
    requires Entering(h.books, t) && RoomIn(h.books, c.HomeOf(), c.cmdQueue.queueSize, t.addr)
    requires c.Hosted(h, FetchAlone(c.HostRules(), h, now), now, 0)
    ensures Queuing(c.View(), c.HomeOf(), c.TransToCommand(t), t) && Apart(h.books, c.View())
    ensures c.channel.View() == h.channel && c.writeDraining == 0
  {
    hide RoundRobin, Controller.Moves, RoomIn, Controller.View;
    PickNothing(c.channel.Settings(), h.channel, now, h.books.queues, {}, h.idx);
    MovesIn(c, h.books, t, c.View(), c.writeDraining);
  }

  /** Every later cycle keeps the time of the read, until it has come: then the read is on its way back. */
  lemma {:induction false} QueueStep(c: Controller, h: Host, now: nat, t: Transaction)
    requires var cmd := c.TransToCommand(t);
      Queuing(h.books, c.HomeOf(), cmd, t) && Alone(c.HostRules(), h, cmd)
    requires c.Hosted(h, FetchAlone(c.HostRules(), h, now), now, 0)
    ensures var cmd, cfg := c.TransToCommand(t), c.channel.Settings();
      var at := ServiceAt(cfg, c.dualCmd, h.channel, cmd, now);
      if now < at then
        && Queuing(c.View(), c.HomeOf(), cmd, t) && Apart(h.books, c.View()) && c.channel.refreshQ == []
        && ServiceAt(cfg, c.dualCmd, c.channel.View(), cmd, now + 1) == at
      else
        && now == at && Still(c.View()) && c.View().log == h.books.log && c.View().done == h.books.done
        && c.View().returnQ == h.books.returnQ +
           [t.(value := Cell(h.books.dram, t.addr), completeCycle := at + c.readDelay)]
    ensures c.writeDraining == 0
  {
    hide RoundRobin, Controller.Moves, ServiceAt, Turned, Controller.View, Replay;
    var u, cmd := c.HostRules(), c.TransToCommand(t);
    LoneTurn(u, h, cmd, now);
    var r := Turned(u, h, FetchAlone(u, h, now), now);
    OneServed(h.books, u.home, cmd, t, now + u.readDelay);
    MovesNothing(c, r.books, c.View(), c.writeDraining);
  }

  lemma {:induction false} OneServed(b: Books, home: Home, cmd: Command, t: Transaction, cycle: nat)
    requires Queuing(b, home, cmd, t) && cmd.IsRead() && cmd.hexAddr == t.addr
    ensures var r := AfterAccess(Leave(b, home, cmd), cmd, cycle);
      && NoneWaits(r) && r.pendingRd == r.pendingWr == [] && r.log == b.log && r.done == b.done
      && r.returnQ == b.returnQ + [t.(value := Cell(b.dram, t.addr), completeCycle := cycle)]
  {
    OneTaken([t], t);
    var one := t.(value := Cell(b.dram, t.addr), completeCycle := cycle);
    assert Completed([t], Cell(b.dram, t.addr), cycle) == [one];
  }

  lemma {:induction false} OneTaken(q: seq<Transaction>, t: Transaction)
    requires q == [t]
    ensures OfAddr(q, t.addr) == [t] && Without(q, t.addr) == []
  {
    var rest: seq<Transaction> := q[1..];
    assert rest == [] && Without(rest, t.addr) == [] && OfAddr(rest, t.addr) == [];
  }

  /** With nothing waiting a cycle changes no book, whatever a refresh makes it do. */
  lemma {:induction false} StillStep(c: Controller, h: Host, fetched: Option<Command>, now: nat)
    requires NoneWaits(h.books) && AllEmpty(h.books.queues) && !IsAccessing(fetched) && c.Hosted(h, fetched, now, 0)
    ensures c.View() == h.books && c.writeDraining == 0
  {
    hide RoundRobin, Controller.Moves, Controller.View, RefreshWork, AfterIssue;
    var u, r := c.HostRules(), Turned(c.HostRules(), h, fetched, now);
    if fetched.Some? {
      var first := FirstOf(u, h, fetched.value, now);
      PickNothing(u.cfg, first.channel, now, first.books.queues, HeldNow(u, h.channel, fetched.value), first.idx);
    }
    MovesNothing(c, h.books, c.View(), c.writeDraining);
  }

  /** One cycle of a controller without PIM work. */
  method RunCycle(c: Controller)
    requires c.Valid() && c.PimIdle()
    modifies c`pendingRd, c`pendingWr, c`returnQ, c`dram, c`discarded, c`guardFrom, c`rdW, c`rdIn, c`releaseTime, c`wrQ,
             c`unifiedQ, c`readQ, c`writeBuf, c`writeDraining, c`clk, c.cmdQueue, c.refresh, c.channel`refreshQ,
             c.channel`fourAw, c.channel`thirtyTwoAw, c.channel`history, c.channel`early, c.channel.banks
    ensures c.Valid() && c.PimIdle() && c.clk == old(c.clk) + 1
    ensures c.Hosted(old(c.HostNow()), old(c.NextFetched()), old(c.clk), old(c.writeDraining))
    ensures old(c.Hostless()) ==> !IsAccessing(old(c.NextFetched()))
  {
    hide Controller.Valid, Controller.Hosted, Controller.NextFetched, Controller.HostNow, Controller.Served, StuckStay,
      PimPart, Requested, Controller.Moves, Controller.Hostless;
    var ok;
    ghost var fetched, ref;
    ok, fetched, ref := c.ClockTick();
  }

  /** The cycle in which a read of the address is issued if it is accepted now and nothing else happens. */
  ghost function LoneTime(c: Controller, addr: int): nat
    reads c`clk, c.channel`history, c.channel`refreshQ, c.channel`fourAw, c.channel`thirtyTwoAw
  {
    var cmd := c.TransToCommand(Transaction(addr, false, 0, 0, 0, 0));
    ServiceAt(c.channel.Settings(), c.dualCmd, c.channel.View(), cmd, c.clk + 1)
  }

  /** The cycle in which it is handed back. */
  function HandedBackAt(c: Controller, at: nat): nat { Max(at + 1, at + c.readDelay) }

  /** The read is accepted, and waits for its queue alone. */
  lemma {:induction false} AcceptAlone(b: Books, t: Transaction, cycle: nat)
    requires Still(b) && b.returnQ == [] && !t.isWrite
    ensures var r := AcceptRead(b, t, cycle); Entering(r, t) && r.returnQ == [] && r.done == b.done && r.dram == b.dram
    ensures AcceptRead(b, t, cycle).queues == b.queues
    ensures AcceptRead(b, t, cycle).log == b.log + [MemoryBooks.Request(t.addr, false, 0)]
  {
    assert CountT([], t.addr, true) == 0 && CountT([], t.addr, false) == 0;
    assert [] + [t] == [t];
  }

  /** The cycle of acceptance. */
  method EnterCycle(c: Controller, ghost t: Transaction)
    requires c.Valid() && c.PimIdle() && c.channel.refreshQ == [] && !Instant(c.refresh.interval, c.clk)
    requires Entering(c.View(), t) && c.cmdQueue.queueSize > 0
    modifies c`pendingRd, c`pendingWr, c`returnQ, c`dram, c`discarded, c`guardFrom, c`rdW, c`rdIn, c`releaseTime, c`wrQ,
             c`unifiedQ, c`readQ, c`writeBuf, c`writeDraining, c`clk, c.cmdQueue, c.refresh, c.channel`refreshQ,
             c.channel`fourAw, c.channel`thirtyTwoAw, c.channel`history, c.channel`early, c.channel.banks
    ensures c.Valid() && c.PimIdle() && c.clk == old(c.clk) + 1
    ensures Queuing(c.View(), c.HomeOf(), c.TransToCommand(t), t) && Apart(old(c.View()), c.View())
    ensures c.channel.View() == old(c.channel.View())
  {
    hide Controller.Valid, Controller.Hosted, Controller.NextFetched, Controller.HostNow, FetchAlone, Apart,
      Controller.HomeOf, Controller.TransToCommand;
    ChannelKnown(c);
    BankKnown(c, t);
    NoRefreshNow(c);
    RunCycle(c);
    EnterStep(c, old(c.HostView()), old(c.clk), t);
  }

  /** A cycle while the read waits in its queue. */
  method QueueCycle(c: Controller, ghost t: Transaction)
    requires c.Valid() && c.PimIdle() && c.channel.refreshQ == [] && !Instant(c.refresh.interval, c.clk)
    requires Queuing(c.View(), c.HomeOf(), c.TransToCommand(t), t)
    modifies c`pendingRd, c`pendingWr, c`returnQ, c`dram, c`discarded, c`guardFrom, c`rdW, c`rdIn, c`releaseTime, c`wrQ,
             c`unifiedQ, c`readQ, c`writeBuf, c`writeDraining, c`clk, c.cmdQueue, c.refresh, c.channel`refreshQ,
             c.channel`fourAw, c.channel`thirtyTwoAw, c.channel`history, c.channel`early, c.channel.banks
    ensures c.Valid() && c.PimIdle() && c.clk == old(c.clk) + 1
    ensures var cmd, cfg := c.TransToCommand(t), c.channel.Settings();
      var at := ServiceAt(cfg, c.dualCmd, old(c.channel.View()), cmd, old(c.clk));
      if old(c.clk) < at then
        && Queuing(c.View(), c.HomeOf(), cmd, t) && Apart(old(c.View()), c.View()) && c.channel.refreshQ == []
        && ServiceAt(cfg, c.dualCmd, c.channel.View(), cmd, c.clk) == at
      else
        && old(c.clk) == at && Still(c.View()) && c.View().log == old(c.View().log) &&
          c.View().done == old(c.View().done)
        && c.View().returnQ == old(c.View().returnQ) +
           [t.(value := Cell(old(c.View().dram), t.addr), completeCycle := at + c.readDelay)]
  {
    hide Controller.Valid, Controller.Hosted, Controller.NextFetched, Controller.HostNow, FetchAlone, Apart, Alone,
      ServiceAt, Still, Controller.HomeOf, Controller.TransToCommand;
    ChannelKnown(c);
    AloneNow(c, t);
    NoRefreshNow(c);
    RunCycle(c);
    QueueStep(c, old(c.HostView()), old(c.clk), t);
  }

  /** A cycle while nothing waits; refreshes may come. */
  method StillCycle(c: Controller)
    requires c.Valid() && c.PimIdle() && Still(c.View())
    modifies c`pendingRd, c`pendingWr, c`returnQ, c`dram, c`discarded, c`guardFrom, c`rdW, c`rdIn, c`releaseTime, c`wrQ,
             c`unifiedQ, c`readQ, c`writeBuf, c`writeDraining, c`clk, c.cmdQueue, c.refresh, c.channel`refreshQ,
             c.channel`fourAw, c.channel`thirtyTwoAw, c.channel`history, c.channel`early, c.channel.banks
    ensures c.Valid() && c.PimIdle() && c.clk == old(c.clk) + 1 && c.View() == old(c.View())
  {
    hide Controller.Valid, Controller.Hosted, Controller.NextFetched, Requested;
    ChannelKnown(c);
    RunCycle(c);
    StillStep(c, old(c.HostNow()), old(c.NextFetched()), old(c.clk));
  }

  /** The read is handed back as soon as its data is there. */
  method AwaitReturn(c: Controller, ghost t: Transaction) returns (r: Transaction)
    requires c.Valid() && c.PimIdle() && Still(c.View()) && c.returnQ == [t]
    modifies c`pendingRd, c`pendingWr, c`returnQ, c`dram, c`discarded, c`guardFrom, c`rdW, c`rdIn, c`releaseTime, c`wrQ,
             c`unifiedQ, c`readQ, c`writeBuf, c`writeDraining, c`clk, c.cmdQueue, c.refresh, c.channel`refreshQ,
             c.channel`fourAw, c.channel`thirtyTwoAw, c.channel`history, c.channel`early, c.channel.banks, c`done
    ensures c.Valid() && r == t && c.clk == Max(old(c.clk), t.completeCycle)
    ensures c.done == old(c.done) + [t] && c.returnQ == [] && Still(c.View()) && c.log == old(c.log)
    ensures !t.isWrite ==> t.tag < |c.log| && t.value == LatestWrite(c.log[..t.tag], t.addr)
  {
    hide Controller.Valid, LatestWrite;
    while true
      invariant c.Valid() && c.PimIdle() && Still(c.View()) && c.returnQ == [t]
      invariant c.clk <= Max(old(c.clk), t.completeCycle) && c.clk >= old(c.clk)
      invariant c.done == old(c.done) && c.log == old(c.log)
      decreases Max(old(c.clk), t.completeCycle) - c.clk
    {
      ghost var b := c.View();
      var o := c.ReturnDoneTrans(c.clk);
      match o {
        case Some(x) =>
          return x;
        case None =>
          assert c.returnQ[0].completeCycle > c.clk;
          StillCycle(c);
      }
    }
  }

  /** The read waits in its queue until its time, and is then on its way back. */
  ghost predicate Progress(c: Controller, t: Transaction, at: nat)
    reads c, c.cmdQueue, c.channel
  {
    if c.clk <= at then
      && Queuing(c.View(), c.HomeOf(), c.TransToCommand(t), t) && c.channel.refreshQ == [] && c.returnQ == []
      && ServiceAt(c.channel.Settings(), c.dualCmd, c.channel.View(), c.TransToCommand(t), c.clk) == at
    else
      && Still(c.View()) && |c.returnQ| == 1
      && c.returnQ[0] == t.(value := c.returnQ[0].value, completeCycle := at + c.readDelay)
  }

  /** The read is accepted, and the cycle passes in which it moves to its queue. */
  method AcceptLone(c: Controller, addr: int, ghost t: Transaction)
    requires c.Valid() && c.PimIdle() && Still(c.View()) && c.returnQ == [] && c.channel.refreshQ == []
    requires c.WillAcceptTransaction(false) && c.cmdQueue.queueSize > 0 && !Instant(c.refresh.interval, c.clk)
    requires t == Transaction(addr, false, c.clk, 0, |c.log|, 0)
    modifies c, c.cmdQueue, c.refresh, c.channel`refreshQ, c.channel`fourAw, c.channel`thirtyTwoAw, c.channel`history,
             c.channel`early, c.channel.banks
    ensures c.Valid() && c.PimIdle() && c.clk == old(c.clk) + 1 && Progress(c, t, old(LoneTime(c, addr)))
    ensures c.done == old(c.done) && c.log == old(c.log) + [MemoryBooks.Request(addr, false, 0)]
  {
    hide Controller.Valid, ServiceAt, LatestWrite, Entering, Instant, Still, AcceptRead;
    AcceptAlone(c.View(), t, c.clk + 1);
    LoneLater(c, addr);
    c.AddTransaction(addr, false, 0);
    EnterCycle(c, t);
  }

  /** The cycles up to the one in which the read is issued. */
  method AwaitIssue(c: Controller, ghost t: Transaction, ghost at: nat)
    requires c.Valid() && c.PimIdle() && c.clk <= at && Progress(c, t, at) && Calm(c.refresh.interval, c.clk, at + 1)
    modifies c`pendingRd, c`pendingWr, c`returnQ, c`dram, c`discarded, c`guardFrom, c`rdW, c`rdIn, c`releaseTime, c`wrQ,
             c`unifiedQ, c`readQ, c`writeBuf, c`writeDraining, c`clk, c.cmdQueue, c.refresh, c.channel`refreshQ,
             c.channel`fourAw, c.channel`thirtyTwoAw, c.channel`history, c.channel`early, c.channel.banks
    ensures c.Valid() && c.PimIdle() && c.clk == at + 1 && Progress(c, t, at)
  {
    hide Controller.Valid, ServiceAt, Instant;
    while c.pendingRd != []
      invariant c.Valid() && c.PimIdle() && old(c.clk) <= c.clk <= at + 1 && Progress(c, t, at)
      decreases at + 1 - c.clk
    {
      QueueCycle(c, t);
    }
  }

  /** A read that an idle controller accepts is issued in the cycle that the state of its bank determines, if no
      refresh is requested before, and is handed back with the right data readDelay cycles later; refreshes may
      come in between. */
  method ServeLone(c: Controller, addr: int) returns (r: Transaction)
    requires c.Valid() && c.PimIdle() && Still(c.View()) && c.returnQ == [] && c.channel.refreshQ == []
    requires c.WillAcceptTransaction(false) && c.cmdQueue.queueSize > 0
    requires Calm(c.refresh.interval, c.clk, LoneTime(c, addr) + 1)
    modifies c, c.cmdQueue, c.refresh, c.channel`refreshQ, c.channel`fourAw, c.channel`thirtyTwoAw, c.channel`history,
             c.channel`early, c.channel.banks
    ensures c.Valid() && c.clk == HandedBackAt(c, old(LoneTime(c, addr)))
    ensures r.addr == addr && !r.isWrite && r.tag == old(|c.log|) && r.value == LatestWrite(old(c.log), addr)
    ensures c.done == old(c.done) + [r] && c.returnQ == [] && Still(c.View())
  {
    hide Controller.Valid, ServiceAt, LatestWrite, Instant, Entering, Queuing, LoneTime,
      Controller.WillAcceptTransaction;
    ghost var at := LoneTime(c, addr);
    ghost var t := Transaction(addr, false, c.clk, 0, |c.log|, 0);
    LoneLater(c, addr);
    AcceptLone(c, addr, t);
    ghost var log := c.log;
    AwaitIssue(c, t, at);
    r := AwaitReturn(c, c.returnQ[0]);
    assert log[..|log| - 1] == old(c.log);
  }

  lemma {:induction false} LoneLater(c: Controller, addr: int)
    ensures LoneTime(c, addr) >= c.clk + 1
  {
    ServiceLater(c.channel.Settings(), c.dualCmd, c.channel.View(),
      c.TransToCommand(Transaction(addr, false, 0, 0, 0, 0)), c.clk + 1);
  }

  /** On a bank that has never been used the read follows its activation by the row-to-column delay of the device,
      and by one cycle at least unless both may share one. */
  lemma {:induction false} FirstTime(d: Device, cfg: Config, dual: bool, ch: Channel, cmd: Command, clk: nat)
    requires d.Sane() && cfg.tables == Build(d) && cmd.IsReadWrite()
    requires ch.history == []
    requires WindowTime(ch.fourAw, cmd.addr.rank, 4) == WindowTime(ch.thirtyTwoAw, cmd.addr.rank, 32) == 0
    ensures ServiceAt(cfg, dual, ch, cmd, clk) == clk + Max(RowToColumn(d, cmd.IsWrite()), if dual then 0 else 1)
  {
    hide Build, Horizon, RowToColumn;
    var act := Issued(Of(Activate, cmd), clk);
    assert ch.history + [act] == [act];
    var t := Horizon(Build(d), [act], cmd.Where(), cmd.kind);
    OpensFirst(d, cmd, clk, t);
    OpensFirst(d, cmd, clk, clk + RowToColumn(d, cmd.IsWrite()));
    assert Horizon(Build(d), [], cmd.Where(), Activate) == 0 by { NeverUsed(Build(d), cmd.Where(), Activate); }
  }

  lemma {:induction false} NeverUsed(t: Tables, p: Place, k: CommandType)
    ensures Horizon(t, [], p, k) == 0
  {
  }

  lemma {:induction false} OpensFirst(d: Device, cmd: Command, clk: nat, x: nat)
    requires d.Sane() && cmd.IsReadWrite()
    ensures RowToColumn(d, cmd.IsWrite()) >= 0
    ensures x >= Horizon(Build(d), [Issued(Of(Activate, cmd), clk)], cmd.Where(), cmd.kind) <==>
      x >= clk + RowToColumn(d, cmd.IsWrite())
  {
    hide Build, Applied, Needed, Horizon, Respects;
    var act := Issued(Of(Activate, cmd), clk);
    HorizonMeaning(Build(d), [act], cmd.Where(), cmd.kind, x);
    NeededExactly(d, act, cmd.Where(), cmd.kind, x);
    AfterActivation(d, cmd);
    assert [act][0] == act;
  }

  lemma {:induction false} AfterActivation(d: Device, cmd: Command)
    requires cmd.IsReadWrite()
    ensures Needed(d, Of(Activate, cmd), cmd.Where(), cmd.kind) == Some(RowToColumn(d, cmd.IsWrite()))
  {
  }
}
