/** The way of one request through an otherwise idle cube: from its link to its quadrant, through the vault, and back,
    with the logic cycle or the vault cycle of every step. */
module HmcTrips {
  import opened Arithmetic
  import opened AgeQueues
  import opened Commands
  import opened Sequences
  import opened ChannelSpec
  import opened MemoryBooks
  import opened QueueSpec
  import opened PimCycles
  import opened HostCycles
  import opened LoneAccess
  import opened LoneReads
  import opened Controllers
  import opened Crossbars
  import opened HmcVaults
  import Packets

  /** The request, its awaited response, the logic cycle in which it is accepted, and the times that follow: in its
      vault from cycle enters on, issued there in cycle issued, handed back by it in cycle leaves. */
  datatype Trip = Trip(req: Packets.Packet, resp: Packets.Packet, start: int, period: int, dram: int, tag: nat,
                       channel: Channel, issued: nat, leaves: nat, called: seq<Packets.Packet>)
  {
    function Arrives(): int { start + Max(1, req.flits) }
    function Entry(): int
      requires dram > 0
    {
      Arrives() * period / dram + 1
    }
    function Back(): int
      requires period > 0
    {
      leaves * dram / period + 1
    }
    function Ends(): int
      requires period > 0
    {
      Back() + Max(1, resp.flits)
    }
    function Sent(): Packets.Packet { req.(exit := start + req.flits) }
    function Answer(): Packets.Packet
      requires period > 0
    {
      resp.(exit := Back() + resp.flits)
    }
    ghost predicate Sane() {
      && period > 0 && dram > 0 && start >= 0 && 0 <= req.quad < 4 && resp.quad == req.quad && resp.link == req.link
      && resp.id == req.id && Entry() < leaves
    }
  }

  ghost predicate Idle(busy: seq<int>) { forall i :: 0 <= i < |busy| ==> busy[i] <= 0 }

  lemma {:induction false} IdleEased(busy: seq<int>)
    requires Idle(busy)
    ensures Eased(busy) == busy
  {
  }

  /** Where the request is once req, ent and res logic cycles have sent requests, let them enter, and sent responses,
      and the vault has had clk cycles. */
  ghost predicate BarAt(t: Trip, a: Bar, req: int, ent: int, res: int, clk: int)
    requires t.Sane()
  {
    && |a.ins.dst| == 4 && |a.outs.src| == 4
    && if req <= t.start then
         OnlyIn(a.ins.src, t.req.link, t.req) && Nothing(a.ins.dst) && Idle(a.ins.busy) && Ahead(t, a) &&
           a.table == [t.resp]
       else if ent <= t.Arrives() then
         Nothing(a.ins.src) && OnlyIn(a.ins.dst, t.req.quad, t.Sent()) && Ahead(t, a) && a.table == [t.resp]
       else
         && Nothing(a.ins.src) && Nothing(a.ins.dst)
         && if clk <= t.leaves then Ahead(t, a) && a.table == [t.resp]
            else if res <= t.Back() then
              res == t.Back() && OnlyIn(a.outs.src, t.resp.quad, t.resp) && Nothing(a.outs.dst) && Idle(a.outs.busy)
              && a.called == t.called
            else if res <= t.Ends() then
              Nothing(a.outs.src) && OnlyIn(a.outs.dst, t.resp.link, t.Answer()) && a.called == t.called
            else Nothing(a.outs.src) && Nothing(a.outs.dst) && a.called == t.called + [t.Answer()]
  }

  /** Nothing is on its way back yet. */
  ghost predicate Ahead(t: Trip, a: Bar) {
    Nothing(a.outs.src) && Nothing(a.outs.dst) && Idle(a.outs.busy) && a.called == t.called
  }

  lemma {:induction false} NoneDueYet(qs: seq<seq<Packets.Packet>>, clk: int, n: nat)
    requires n <= |qs| && forall i :: 0 <= i < |qs| ==> !DueHead(qs[i], clk)
    ensures DueHeads(qs, clk, n) == [] && AfterHanding(qs, clk) == qs
    decreases n
  {
    if n > 0 {
      NoneDueYet(qs, clk, n - 1);
    }
  }

  lemma {:induction false} OneDueNow(qs: seq<seq<Packets.Packet>>, clk: int, x: int, p: Packets.Packet, n: nat)
    requires n <= |qs| && OnlyIn(qs, x, p) && p.exit <= clk
    ensures DueHeads(qs, clk, n) == (if x < n then [p] else []) && Nothing(AfterHanding(qs, clk))
    decreases n
  {
    if n > 0 {
      OneDueNow(qs, clk, x, p, n - 1);
    }
  }

  /** A cycle of responses in which nothing is sent and nothing handed back. */
  lemma {:induction false} RespondsNothing(depth: nat, res: int, a: Bar, b: Bar)
    requires Responds(depth, res, a, b) && Nothing(a.outs.src)
    requires forall i :: 0 <= i < |a.outs.dst| ==> !DueHead(a.outs.dst[i], res)
    ensures b == a.(outs := a.outs.(busy := Eased(a.outs.busy)))
  {
    hide Cycled, Waits;
    NoneDueYet(a.outs.dst, res, |a.outs.dst|);
    CrossesNothing(Out, depth, res, a.outs);
    assert a.called + [] == a.called;
  }

  /** A cycle in which the response leaves its quadrant. */
  lemma {:induction false} RespondsAlone(depth: nat, res: int, a: Bar, b: Bar, p: Packets.Packet)
    requires Responds(depth, res, a, b) && OnlyIn(a.outs.src, p.quad, p) && Nothing(a.outs.dst) && Idle(a.outs.busy)
    requires depth > 0
    ensures b.ins == a.ins && b.table == a.table && b.called == a.called && |b.outs.src| == |a.outs.src|
    ensures Nothing(b.outs.src) && OnlyIn(b.outs.dst, p.link, p.(exit := res + p.flits))
  {
    hide Cycled, Sized, Ages, Eased;
    NoneDueYet(a.outs.dst, res, |a.outs.dst|);
    GoalInside(Out, a.outs, p.quad, p);
    CrossesAlone(Out, depth, res, a.outs, p.quad, p);
    assert a.called + [] == a.called;
  }

  /** A cycle in which it is handed back. */
  lemma {:induction false} RespondsLast(depth: nat, res: int, a: Bar, b: Bar, x: int, p: Packets.Packet)
    requires Responds(depth, res, a, b) && OnlyIn(a.outs.dst, x, p) && p.exit <= res && Nothing(a.outs.src)
    ensures b.ins == a.ins && b.table == a.table && b.called == a.called + [p] && |b.outs.src| == |a.outs.src|
    ensures Nothing(b.outs.src) && Nothing(b.outs.dst)
  {
    hide Cycled, Waits, Eased;
    OneDueNow(a.outs.dst, res, x, p, |a.outs.dst|);
    CrossesNothing(Out, depth, res, a.outs.(dst := AfterHanding(a.outs.dst, res)));
  }

  /** Responses in logic cycle res. */
  lemma {:induction false} TripResponds(t: Trip, depth: nat, a: Bar, b: Bar, req: int, ent: int, res: int, clk: int)
    requires t.Sane() && depth > 0 && BarAt(t, a, req, ent, res, clk) && Responds(depth, res, a, b)
    ensures BarAt(t, b, req, ent, res + 1, clk)
  {
    hide Responds, OnlyIn, Eased;
    if req <= t.start || ent <= t.Arrives() || clk <= t.leaves {
      RespondsNothing(depth, res, a, b);
      IdleEased(a.outs.busy);
    } else if res > t.Ends() {
      RespondsNothing(depth, res, a, b);
    } else if res == t.Back() {
      RespondsAlone(depth, res, a, b, t.resp);
    } else if res < t.Ends() {
      NotYet(a.outs.dst, t.resp.link, t.Answer(), res);
      RespondsNothing(depth, res, a, b);
    } else {
      RespondsLast(depth, res, a, b, t.resp.link, t.Answer());
    }
  }

  lemma {:induction false} NotYet(qs: seq<seq<Packets.Packet>>, x: int, p: Packets.Packet, clk: int)
    requires OnlyIn(qs, x, p) && clk < p.exit
    ensures forall i :: 0 <= i < |qs| ==> !DueHead(qs[i], clk)
  {
  }

  /** Requests in logic cycle req. */
  lemma {:induction false} TripRequests(t: Trip, depth: nat, a: Bar, b: Bar, req: int, ent: int, res: int, clk: int)
    requires t.Sane() && depth > 0 && BarAt(t, a, req, ent, res, clk) && Requests(depth, req, a, b)
    requires req >= t.start && ent == req + 1
    ensures BarAt(t, b, req + 1, ent, res, clk)
  {
    if req == t.start {
      CrossesAlone(In, depth, req, a.ins, t.req.link, t.req);
    } else {
      CrossesNothing(In, depth, req, a.ins);
    }
  }

  // The vault

  /** What the vault makes of the request, if it is a read. */
  function ReadOf(t: Trip): Transaction
    requires t.dram > 0 && t.start >= 0 && t.period > 0
  {
    Transaction(t.req.id, false, if t.Entry() >= 0 then t.Entry() else 0, 0, t.tag, 0)
  }

  /** No read is pending, and nothing is about to be handed back. */
  ghost predicate Quiet(c: Controller)
    reads c`pendingRd, c`returnQ
  {
    c.pendingRd == [] && c.returnQ == []
  }

  /** The vault is idle; for a read no refresh waits either, and its channel stands as it did at the start. */
  ghost predicate Before(t: Trip, c: Controller)
    reads c, c.cmdQueue, c.channel
  {
    && Still(c.View()) && c.returnQ == [] && |c.log| == t.tag
    && (!t.req.isWrite ==> c.channel.refreshQ == [] && c.channel.View() == t.channel)
  }

  /** The request is inside the vault. */
  ghost predicate Inside(t: Trip, c: Controller)
    requires t.Sane()
    reads c, c.cmdQueue, c.channel
  {
    if t.req.isWrite then
      c.pendingRd == [] && |c.returnQ| == 1 && c.returnQ[0].addr == t.req.id && c.returnQ[0].completeCycle == t.leaves
    else if c.clk == t.Entry() then
      && Entering(c.View(), ReadOf(t)) && c.returnQ == []
      && c.channel.refreshQ == [] && c.channel.View() == t.channel
    else c.clk > t.Entry() && Progress(c, ReadOf(t), t.issued)
  }

  /** The vault, whether or not it has handed back the request in its present cycle. */
  ghost predicate VaultAt(t: Trip, c: Controller, ent: int, handed: bool)
    requires t.Sane()
    reads c, c.cmdQueue, c.channel
  {
    if ent <= t.Arrives() then Before(t, c)
    else if c.clk < t.leaves || (c.clk == t.leaves && !handed) then Inside(t, c)
    else Quiet(c)
  }

  /** The times that the vault's controller gives, and no refresh until the read has been issued. */
  ghost predicate Times(t: Trip, c: Controller, from: nat) {
    && t.Sane() && t.Entry() >= 0 && c.capacity > 0 && c.cmdQueue.queueSize > 0
    && if t.req.isWrite then t.leaves == t.Entry() + 1
       else
         && t.issued == ServiceAt(c.channel.Settings(), c.dualCmd, t.channel, c.TransToCommand(ReadOf(t)),
           t.Entry() + 1)
         && t.leaves == HandedBackAt(c, t.issued) && t.issued > t.Entry() &&
           Calm(c.refresh.interval, from, t.issued + 1)
  }

  /** Without pending reads a cycle returns nothing new. */
  lemma {:induction false} NoNewReturns(c: Controller, h: Host, fetched: Option<Command>, now: nat, w: int)
    requires c.Hosted(h, fetched, now, w) && h.books.pendingRd == []
    ensures c.pendingRd == [] && c.returnQ == h.books.returnQ
  {
    hide RoundRobin, RefreshWork, AfterIssue, DrainWidth, DrainLeft, FirstRoomy, Blocked;
    var u := c.HostRules();
    var r := Turned(u, h, fetched, now);
    assert r.books.pendingRd == [] && r.books.returnQ == h.books.returnQ by {
      TurnReturns(u, h, fetched, now);
    }
    var width := DrainWidth(r.books, w, c.capacity);
    var m :| c.MovesTo(r.books, width, m, c.View()) &&
      c.writeDraining == DrainLeft(r.books, c.HomeOf(), c.cmdQueue.queueSize, width, m);
  }

  lemma {:induction false} TurnReturns(u: Rules, h: Host, fetched: Option<Command>, now: nat)
    requires h.books.pendingRd == []
    ensures var r := Turned(u, h, fetched, now).books; r.pendingRd == [] && r.returnQ == h.books.returnQ
  {
    hide RoundRobin, RefreshWork, AfterIssue, Issue;
    if fetched.Some? {
      var first := FirstOf(u, h, fetched.value, now);
      IssueReturns(u, h, fetched.value, now,
        if RefreshWork(u.cfg, h.channel, now).Some? then h.idx else u.index(fetched.value.Where()));
      var second := SecondOf(u, first, HeldNow(u, h.channel, fetched.value), now);
      if second.Some? {
        IssueReturns(u, first, second.value, now, u.index(second.value.Where()));
      }
    }
  }

  lemma {:induction false} IssueReturns(u: Rules, h: Host, cmd: Command, now: nat, idx: int)
    requires h.books.pendingRd == []
    ensures var r := Issue(u, h, cmd, now, idx).books; r.pendingRd == [] && r.returnQ == h.books.returnQ
  {
    assert Without([], cmd.hexAddr) == [] && OfAddr([], cmd.hexAddr) == [];
    assert h.books.returnQ + [] == h.books.returnQ;
  }

  /** With nothing waiting and no refresh the channel stays as it is. */
  lemma {:induction false} StillChannel(c: Controller, h: Host, now: nat)
    requires NoneWaits(h.books) && AllEmpty(h.books.queues) && c.Hosted(h, FetchAlone(c.HostRules(), h, now), now, 0)
    ensures c.View() == h.books && c.channel.View() == h.channel
  {
    hide RoundRobin, Controller.Moves, Controller.View;
    PickNothing(c.channel.Settings(), h.channel, now, h.books.queues, {}, h.idx);
    MovesNothing(c, h.books, c.View(), c.writeDraining);
  }

  /** The vault follows the request: what has to hold before its cycle. */
  ghost predicate Rides(t: Trip, c: Controller, ent: int)
    reads c, c.cmdQueue, c.channel
  {
    Times(t, c, c.clk) && VaultAt(t, c, ent, true) && (ent <= t.Arrives() ==> c.clk < t.Entry())
  }

  /** The same, said of what its cycle works on. */
  ghost predicate Poised(t: Trip, c: Controller, ent: int, h: Host, f: Option<Command>, now: nat, w: int) {
    && t.Sane() && Times(t, c, now)
    && if ent <= t.Arrives() then PoisedBefore(t, c, h, f, now, w)
       else if now >= t.leaves then h.books.pendingRd == [] && h.books.returnQ == []
       else if t.req.isWrite then
         && h.books.pendingRd == [] && |h.books.returnQ| == 1
         && h.books.returnQ[0].addr == t.req.id && h.books.returnQ[0].completeCycle == t.leaves
       else w == 0 && PoisedInside(t, c, h, f, now)
  }

  ghost predicate PoisedBefore(t: Trip, c: Controller, h: Host, f: Option<Command>, now: nat, w: int)
    requires t.Sane()
  {
    && now < t.Entry() && w == 0 && Still(h.books) && h.books.returnQ == [] && |h.books.log| == t.tag
    && (!t.req.isWrite ==>
          h.channel.refreshQ == [] && h.channel == t.channel && f == FetchAlone(c.HostRules(), h, now))
  }

  ghost predicate PoisedInside(t: Trip, c: Controller, h: Host, f: Option<Command>, now: nat)
    requires t.Sane()
  {
    var cmd, u := c.TransToCommand(ReadOf(t)), c.HostRules();
    if now == t.Entry() then
      && Entering(h.books, ReadOf(t)) && h.books.returnQ == [] && h.channel == t.channel && h.channel.refreshQ == []
      && f == FetchAlone(u, h, now) && RoomIn(h.books, u.home, c.cmdQueue.queueSize, t.req.id)
    else if now <= t.issued then
      && Queuing(h.books, u.home, cmd, ReadOf(t)) && Alone(u, h, cmd) && h.books.returnQ == []
      && f == FetchAlone(u, h, now) && ServiceAt(u.cfg, u.dual, h.channel, cmd, now) == t.issued && t.Entry() < now
    else Still(h.books) && Returning(t, c, h.books) && t.Entry() < now
  }

  /** The read is on its way back, with its data. */
  ghost predicate Returning(t: Trip, c: Controller, b: Books)
    requires t.Sane()
  {
    |b.returnQ| == 1 && b.returnQ[0] == ReadOf(t).(value := b.returnQ[0].value, completeCycle := t.issued + c.readDelay)
  }

  lemma {:induction false} AtStart(t: Trip, c: Controller, ent: int)
    requires c.Valid() && Rides(t, c, ent)
    ensures Poised(t, c, ent, c.HostNow(), c.NextFetched(), c.clk, c.writeDraining)
  {
    hide Controller.Valid, ServiceAt, FetchAlone, Alone, Controller.NextFetched, Controller.Hosted, HostCycles.RoomIn;
    ChannelKnown(c);
    HostBooks(c);
    if !t.req.isWrite && (ent <= t.Arrives() || (c.clk < t.leaves && c.clk <= t.issued)) {
      assert !Instant(c.refresh.interval, c.clk);
      NoRefreshNow(c);
      BankKnown(c, ReadOf(t));
      if ent > t.Arrives() {
        if c.clk == t.Entry() {
          RoomNow(c, t.req.id);
        } else {
          AloneNow(c, ReadOf(t));
        }
      }
    }
  }

  lemma {:induction false} RoomNow(c: Controller, a: int)
    requires AllEmpty(c.cmdQueue.queues) && c.cmdQueue.queueSize > 0 && 0 <= c.HomeOf()(a) < |c.cmdQueue.queues|
    ensures HostCycles.RoomIn(c.View(), c.HomeOf(), c.cmdQueue.queueSize, a)
  {
  }

  lemma {:induction false} AtEnd(t: Trip, c: Controller, ent: int, h: Host, f: Option<Command>, now: nat, w: int)
    requires Poised(t, c, ent, h, f, now, w) && c.Hosted(h, f, now, w) && c.clk == now + 1
    requires NoneWaits(h.books) && AllEmpty(h.books.queues) ==> !IsAccessing(f)
    ensures VaultAt(t, c, ent, false)
  {
    hide Controller.Hosted, ServiceAt, FetchAlone, Alone, HostCycles.RoomIn, Times;
    if ent <= t.Arrives() {
      BeforeEnds(t, c, h, f, now, w);
    } else if now >= t.leaves || t.req.isWrite {
      NoNewReturns(c, h, f, now, w);
    } else {
      InsideEnds(t, c, h, f, now);
    }
  }

  lemma {:induction false} BeforeEnds(t: Trip, c: Controller, h: Host, f: Option<Command>, now: nat, w: int)
    requires t.Sane() && PoisedBefore(t, c, h, f, now, w) && c.Hosted(h, f, now, w) && !IsAccessing(f)
    ensures Before(t, c)
  {
    hide Controller.Hosted, FetchAlone;
    StillStep(c, h, f, now);
    if !t.req.isWrite {
      StillChannel(c, h, now);
    }
  }

  lemma {:induction false} InsideEnds(t: Trip, c: Controller, h: Host, f: Option<Command>, now: nat)
    requires t.Sane() && PoisedInside(t, c, h, f, now) && c.Hosted(h, f, now, 0) && c.clk == now + 1
    requires NoneWaits(h.books) && AllEmpty(h.books.queues) ==> !IsAccessing(f)
    requires !t.req.isWrite && Times(t, c, now)
    ensures Inside(t, c)
  {
    hide Controller.Hosted, FetchAlone, ServiceAt, Alone, HostCycles.RoomIn, Calm;
    if now == t.Entry() {
      EnterStep(c, h, now, ReadOf(t));
    } else if now <= t.issued {
      QueueStep(c, h, now, ReadOf(t));
    } else {
      StillStep(c, h, f, now);
    }
  }

  /** One cycle of a vault. */
  method VaultTick(c: Controller, ghost t: Trip, ghost ent: int)
    requires c.Valid() && c.PimIdle()
    modifies c`pendingRd, c`pendingWr, c`returnQ, c`dram, c`discarded, c`guardFrom, c`rdW, c`rdIn, c`releaseTime, c`wrQ,
             c`unifiedQ, c`readQ, c`writeBuf, c`writeDraining, c`clk, c.cmdQueue, c.refresh, c.channel`refreshQ,
             c.channel`fourAw, c.channel`thirtyTwoAw, c.channel`history, c.channel`early, c.channel.banks
    ensures c.Valid() && c.PimIdle() && c.clk == old(c.clk) + 1
    ensures c.Hosted(old(c.HostNow()), old(c.NextFetched()), old(c.clk), old(c.writeDraining))
    ensures old(Quiet(c)) ==> Quiet(c)
    ensures t.Sane() && old(Rides(t, c, ent)) ==> VaultAt(t, c, ent, false)
  {
    hide Controller.Valid, Controller.Hosted, Controller.NextFetched, Controller.HostNow, VaultAt, Times, Calm;
    ghost var h, f, now, w := c.HostNow(), c.NextFetched(), c.clk, c.writeDraining;
    ghost var rides := t.Sane() && Rides(t, c, ent);
    HostBooks(c);
    if rides {
      AtStart(t, c, ent);
    }
    RunCycle(c);
    if h.books.pendingRd == [] {
      NoNewReturns(c, h, f, now, w);
    }
    if rides {
      AtEnd(t, c, ent, h, f, now, w);
    }
  }

  lemma {:induction false} HostBooks(c: Controller)
    ensures c.HostNow().books == c.View()
  {
  }

  /** What is due: nothing, except in its last cycle there the request. */
  lemma {:induction false} DueInVault(t: Trip, c: Controller, ent: int)
    requires Times(t, c, c.clk) && VaultAt(t, c, ent, false)
    ensures if ent > t.Arrives() && c.clk == t.leaves
            then OneDue(c.returnQ, c.clk) && c.returnQ[0].addr == t.req.id && c.pendingRd == []
            else NoneDue(c.returnQ, c.clk) && VaultAt(t, c, ent, true)
  {
    hide ServiceAt, Queuing, Entering;
  }

  /** The request enters its vault in time. */
  lemma {:induction false} EntersVault(t: Trip, c: Controller, b: Books, value: int)
    requires Times(t, c, c.clk) && c.clk == t.Entry() && Still(b) && b.returnQ == [] && |b.log| == t.tag
    requires Accepted(c, b, t.Sent(), value)
    requires !t.req.isWrite ==> c.channel.refreshQ == [] && c.channel.View() == t.channel
    ensures Inside(t, c)
  {
    if t.req.isWrite {
      assert [] + [c.returnQ[0]] == c.returnQ;
    } else {
      AcceptAlone(b, ReadOf(t), c.clk + 1);
    }
  }

  /** The head that has arrived leaves its quadrant, and no other does. */
  lemma {:induction false} TripEnters(t: Trip, depth: nat, a: Bar, b: Bar, takes: set<int>, req: int, ent: int,
                                      res: int,
                                      clk: int)
    requires t.Sane() && depth > 0 && BarAt(t, a, req, ent, res, clk) && Enters(depth, ent, a, b, takes)
    requires ent == t.Arrives() && req > t.start ==> t.req.quad in takes && clk < t.leaves
    requires req >= t.start && ent == req
    ensures BarAt(t, b, req, ent + 1, res, clk)
    ensures takes == if ent == t.Arrives() && req > t.start then {t.req.quad} else {}
  {
    forall i | i in takes
      ensures i == t.req.quad && ent == t.Arrives() && req > t.start
    {
      assert Arrived(depth, ent, a, i);
    }
  }

  /** When it has arrived. */
  lemma {:induction false} ArrivesAt(t: Trip, depth: nat, a: Bar, req: int, ent: int, res: int, clk: int)
    requires t.Sane() && depth > 0 && BarAt(t, a, req, ent, res, clk) && req > t.start && ent == t.Arrives()
    ensures Arrived(depth, ent, a, t.req.quad) && a.ins.dst[t.req.quad][0] == t.Sent()
    ensures forall i :: 0 <= i < 4 && i != t.req.quad ==> a.ins.dst[i] == []
  {
  }

  /** A vault cycle that returns nothing leaves the request where it is. */
  lemma {:induction false} TripWaits(t: Trip, a: Bar, req: int, ent: int, res: int, clk: int)
    requires t.Sane() && BarAt(t, a, req, ent, res, clk) && !(ent > t.Arrives() && clk == t.leaves)
    ensures BarAt(t, a, req, ent, res, clk + 1)
  {
    hide OnlyIn, Nothing, Ahead, Idle;
  }

  /** In the last one its response goes to its quadrant. */
  lemma {:induction false} TripReturns(t: Trip, a: Bar, b: Bar, req: int, ent: int, res: int, clk: int, x: Transaction)
    requires t.Sane() && BarAt(t, a, req, ent, res, clk) && ent > t.Arrives() && req > t.start && clk == t.leaves
    requires res == t.Back() && Answers(a, b, x) && x.addr == t.req.id
    ensures BarAt(t, b, req, ent, res, clk + 1)
  {
    var i :| 0 <= i < |a.table| && a.table[i].id == x.addr && Delivers(a, b, i);
    assert i == 0 && a.table[0] == t.resp;
    assert [] + [t.resp] == [t.resp];
  }

  /** The vault's cycle comes when it should. */
  ghost predicate InTurn(t: Trip, ent: int, res: int, clk: int)
    requires t.Sane()
  {
    (ent <= t.Arrives() ==> clk < t.Entry()) && (ent > t.Arrives() && clk == t.leaves ==> res == t.Back())
  }

  /** Logic cycle n and the cycles of the vaults: with it comes vault cycle clk, or clk of them have been. */
  predicate OnBeat(t: Trip, n: int, clk: int, vaults: bool) {
    if vaults then clk * t.dram == n * t.period else (clk - 1) * t.dram < n * t.period < clk * t.dram
  }

  lemma {:induction false} BeatTimes(t: Trip, n: int, clk: int, vaults: bool)
    requires t.Sane() && n >= 0 && OnBeat(t, n, clk, vaults)
    ensures n * t.period / t.dram + 1 == if vaults then clk + 1 else clk
    ensures vaults ==> InTurn(t, n, n + 1, clk)
  {
    DivUnique(n * t.period, t.dram, if vaults then clk else clk - 1);
    if vaults {
      if n <= t.Arrives() {
        EntryAfter(t, n);
      }
      if clk == t.leaves {
        DivUnique(clk * t.dram, t.period, n);
      }
    }
  }

  /** A vault cycle of its own, between two logic cycles. */
  lemma {:induction false} BeatBetween(t: Trip, n: int, clk: int)
    requires t.Sane() && n >= 0 && (n - 1) * t.period < clk * t.dram < n * t.period
    ensures InTurn(t, n, n, clk)
  {
    if n <= t.Arrives() {
      EntryAfter(t, n);
      Below(clk, n * t.period, t.dram);
    }
    if clk == t.leaves {
      DivUnique(clk * t.dram, t.period, n - 1);
    }
  }

  lemma {:induction false} EntryAfter(t: Trip, n: int)
    requires t.Sane() && 0 <= n <= t.Arrives()
    ensures t.Entry() >= n * t.period / t.dram + 1
  {
    var a, m := n * t.period, t.Arrives() * t.period;
    assert a <= m;
    Below(a / t.dram, m, t.dram);
  }

  lemma {:induction false} Below(q: int, m: int, d: int)
    requires d > 0 && q * d <= m
    ensures q <= m / d
  {
    var r := m - q * d;
    assert r == r / d * d + r % d && r / d >= 0;
    assert (q + r / d) * d == q * d + r / d * d;
    DivUnique(m, d, q + r / d);
  }
}
