/** A request that an idle cube accepts is handed back, in the logic cycle that the crossbar, the vault and the state of
    its bank determine. */
module HmcLone {
  import opened Arithmetic
  import opened Commands
  import opened ChannelSpec
  import opened MemoryBooks
  import opened LoneAccess
  import opened LoneReads
  import opened Controllers
  import opened Crossbars
  import opened HmcSystems
  import opened HmcCubes
  import opened HmcTrips
  import Packets

  /** The trip of a request accepted now on the given link. */
  ghost function TripFrom(h: HmcSystem, c: Controller, addr: int, isWrite: bool, block: int, link: int): Trip
    requires h.period > 0
    reads h`logicClk, h`called, c`log, c.channel`history, c.channel`refreshQ, c.channel`fourAw, c.channel`thirtyTwoAw
  {
    var vault := h.wiring.of(addr);
    var req := Packets.Packet(addr, link, vault % 4, vault, Flits(isWrite, block), isWrite, 0);
    var resp := req.(flits := Flits(!isWrite, block));
    var t := Trip(req, resp, h.logicClk, h.period, DRAM_PERIOD, |c.log|, c.channel.View(), 0, 0, h.called);
    var entry := if t.Entry() >= 0 then t.Entry() else 0;
    if isWrite then t.(leaves := entry + 1)
    else
      var at := ServiceAt(c.channel.Settings(), c.dualCmd, c.channel.View(),
                          c.TransToCommand(Transaction(addr, false, entry, 0, |c.log|, 0)), entry + 1);
      t.(issued := at, leaves := HandedBackAt(c, at))
  }

  /** Nothing is under way in the cube: no queue of the crossbar holds anything and none is busy, no vault has a read
      pending or anything to return, and the vault of the address is idle. */
  ghost predicate AllQuiet(h: HmcSystem, vs: seq<Controller>, v: int)
    reads h, vs, QueuesOf(vs)
  {
    && Nothing(h.linkReq) && Nothing(h.quadReq) && Nothing(h.linkResp) && Nothing(h.quadResp) && h.table == []
    && HmcTrips.Idle(h.linkBusy) && HmcTrips.Idle(h.quadBusy)
    && 0 <= v < |vs| && Still(vs[v].View()) && forall j :: 0 <= j < |vs| ==> Quiet(vs[j])
  }

  lemma {:induction false} TripSane(h: HmcSystem, c: Controller, addr: int, isWrite: bool, block: int, link: int)
    requires h.Clocked() && 1 <= h.period
    ensures TripFrom(h, c, addr, isWrite, block, link).Sane() && TripFrom(h, c, addr, isWrite, block, link).Entry() >= 0
  {
    hide ServiceAt;
    var t := TripFrom(h, c, addr, isWrite, block, link);
    DivNonNegative(t.Arrives() * t.period, t.dram);
    if !isWrite {
      ServiceLater(c.channel.Settings(), c.dualCmd, c.channel.View(),
        c.TransToCommand(Transaction(addr, false, t.Entry(), 0, |c.log|, 0)), t.Entry() + 1);
    }
  }

  lemma {:induction false} DivNonNegative(x: int, d: int)
    requires x >= 0 && d > 0
    ensures x / d >= 0
  {
  }

  /** The request is accepted on its link. */
  method Accept(h: HmcSystem, vs: seq<Controller>, addr: int, isWrite: bool, block: int, ghost t: Trip)
    requires Whole(h, vs) && h.Clocked() && h.depth > 0 && block in {0, 32, 64, 128, 256}
    requires var v := h.wiring.of(addr);
      && AllQuiet(h, vs, v) && 1 <= h.period && vs[v].clk == h.ticks
      && t == TripFrom(h, vs[v], addr, isWrite, block, h.nextLink) && t.Sane() && Times(t, vs[v], vs[v].clk)
      && (isWrite || vs[v].channel.refreshQ == [])
    modifies h`linkReq, h`linkAge, h`table, h`accepted, h`nextLink
    ensures Whole(h, vs) && h.Clocked() && InTime(h, vs, t)
  {
    hide Joined, HmcSystem.Tabled, HmcSystem.Conserved, ServiceAt, AllWithin, WithinLinks, AtMost, Ages, Times;
    ghost var v, link := h.wiring.of(addr), h.nextLink;
    RoomAt(h.linkReq, h.nextLink, h.depth);
    var r;
    ghost var gone;
    r, gone := h.AddTransaction(addr, isWrite, block);
    FirstLink(h, old(h.linkReq), link, gone);
    forall i | 0 <= i < |vs|
      ensures Joined(h, vs[i], i)
    {
      assert old(Joined(h, vs[i], i));
    }
    OnItsLink(h, t, old(h.linkReq), link);
  }

  /** With room on the first link tried none is passed over. */
  lemma {:induction false} FirstLink(h: HmcSystem, qs: seq<seq<Packets.Packet>>, link: int, gone: int)
    requires h.links == |qs| && 0 <= link < h.links && |qs[link]| < h.depth && 0 <= gone < h.links
    requires h.PassedOver(qs, link, gone)
    ensures RingAt(link, gone, h.links) == link
  {
    DivUnique(link, h.links, 0);
    assert RingAt(link, 0, h.links) == link;
  }

  /** The request stands alone on its link. */
  lemma {:induction false} OnItsLink(h: HmcSystem, t: Trip, qs: seq<seq<Packets.Packet>>, link: int)
    requires t.Sane() && Nothing(qs) && 0 <= link < |qs| && h.linkReq == Packets.Push(qs, link, t.req)
    requires t.req.link == link
    requires h.table == [] + [t.resp] && Nothing(h.quadReq) && Nothing(h.linkResp) && Nothing(h.quadResp)
    requires HmcTrips.Idle(h.linkBusy) && HmcTrips.Idle(h.quadBusy) && |h.quadReq| == |h.quadResp| == 4
    requires h.called == t.called && h.logicClk == t.start
    ensures BarAt(t, h.BarView(), h.logicClk, h.logicClk, h.logicClk, h.ticks)
  {
  }

  lemma {:induction false} TripTimes(h: HmcSystem, c: Controller, addr: int, isWrite: bool, block: int, link: int)
    requires h.Clocked() && 1 <= h.period && c.capacity > 0 && c.cmdQueue.queueSize > 0
    requires !isWrite ==> Calm(c.refresh.interval, c.clk, TripFrom(h, c, addr, isWrite, block, link).issued + 1)
    ensures Times(TripFrom(h, c, addr, isWrite, block, link), c, c.clk)
  {
    hide ServiceAt;
    var t := TripFrom(h, c, addr, isWrite, block, link);
    TripSane(h, c, addr, isWrite, block, link);
    if !isWrite {
      ServiceLater(c.channel.Settings(), c.dualCmd, c.channel.View(),
        c.TransToCommand(Transaction(addr, false, t.Entry(), 0, |c.log|, 0)), t.Entry() + 1);
    }
  }

  /** By then the trip is over. */
  lemma {:induction false} TripOver(h: HmcSystem, vs: seq<Controller>, t: Trip)
    requires h.Clocked() && InTime(h, vs, t) && h.ticks * DRAM_PERIOD > t.Ends() * t.period
    ensures h.called == t.called + [t.Answer()]
  {
    hide VaultAt, Times, Quiet;
    var c := vs[t.req.vault];
    Order(t.Ends(), h.logicClk, t.period);
    Quotient(t.leaves * t.dram, t.period);
    Quotient(t.Arrives() * t.period, t.dram);
    assert t.Back() * t.period > t.leaves * t.dram && t.Entry() * t.dram > t.Arrives() * t.period;
    Grows(t.Back(), t.Ends(), t.period);
    Grows(t.Entry(), t.leaves, t.dram);
    Order(t.leaves, h.ticks, t.dram);
    Order(t.Arrives(), h.logicClk, t.period);
  }

  lemma {:induction false} Order(x: int, y: int, d: int)
    requires d > 0 && x * d < y * d
    ensures x < y
  {
  }

  lemma {:induction false} Grows(x: int, y: int, d: int)
    requires d > 0 && x <= y
    ensures x * d <= y * d
  {
  }

  lemma {:induction false} Quotient(x: int, d: int)
    requires d > 0
    ensures (x / d + 1) * d > x
  {
    assert x == x / d * d + x % d;
  }

  /** In an otherwise idle cube a request is handed back, exactly once and as its own response, as soon as enough DRAM
      cycles have passed for the logic cycle in which its trip ends.  A read needs its vault to have no refresh
      requested until it has been issued. */
  method SendAlone(h: HmcSystem, vs: seq<Controller>, addr: int, isWrite: bool, block: int, data: int -> int, n: nat)
    requires Whole(h, vs) && h.Clocked() && h.depth > 0 && block in {0, 32, 64, 128, 256} && 1 <= h.period
    requires var v := h.wiring.of(addr);
      && AllQuiet(h, vs, v) && vs[v].clk == h.ticks && vs[v].capacity > 0 && vs[v].cmdQueue.queueSize > 0
      && var t := TripFrom(h, vs[v], addr, isWrite, block, h.nextLink);
         && (!isWrite ==> vs[v].channel.refreshQ == [] && Calm(vs[v].refresh.interval, vs[v].clk, t.issued + 1))
         && (h.ticks + n) * DRAM_PERIOD > t.Ends() * h.period
    modifies h, AllParts(vs)
    ensures Whole(h, vs) && h.Clocked() && h.ticks == old(h.ticks) + n
    ensures h.called == old(h.called) +
      [old(TripFrom(h, vs[h.wiring.of(addr)], addr, isWrite, block, h.nextLink)).Answer()]
  {
    hide Whole, Parts, AllParts, ServiceAt, Times, Riding, HmcSystem.Clocked;
    var v := h.wiring.of(addr);
    ghost var t := TripFrom(h, vs[v], addr, isWrite, block, h.nextLink);
    TripSane(h, vs[v], addr, isWrite, block, h.nextLink);
    TripTimes(h, vs[v], addr, isWrite, block, h.nextLink);
    Accept(h, vs, addr, isWrite, block, t);
    for k := 0 to n
      invariant Whole(h, vs) && h.Clocked() && InTime(h, vs, t) && h.ticks == old(h.ticks) + k
    {
      ghost var trace := ClockTick(h, vs, vs[v].clk, data, t);
    }
    TripOver(h, vs, t);
  }
}
