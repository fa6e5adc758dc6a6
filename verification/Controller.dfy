/** One channel's controller: transaction queues, refresh, command issue and PIM command queues. */
module Controllers {
  import opened Commands
  import opened Sequences
  import opened TimingSpec
  import opened BankSpec
  import opened Banks
  import opened Channels
  import opened ChannelSpec
  import opened QueueSpec
  import opened CommandQueues
  import opened Refreshes
  import opened MemoryBooks
  import opened PimCycles
  import opened HostCycles

  function Spot(a: Address): Place { Place(a.rank, a.bankgroup, a.bank) }

  /** The command would open a bank that the refresh is waiting for. */
  predicate Reopens(c: Command, ref: Command) { IsActivation(c.kind) && ref.Touches(c.Where()) }

  function Front(q: seq<Command>): Option<Command> { if q == [] then None else Some(q[0]) }

  /** The PIM part of a cycle runs: PIM commands wait, and the cycle is not given to a refresh. */
  predicate PimRuns(idle: bool, fetched: Option<Command>) {
    !idle && match fetched case None => true case Some(c) => !c.IsRefresh()
  }

  predicate IsAccessing(fetched: Option<Command>) { fetched.Some? && fetched.value.IsReadWrite() }

  predicate IsRefreshing(fetched: Option<Command>) { fetched.Some? && fetched.value.IsRefresh() }

  /** The refreshes still waiting after a cycle: one that is fetched is the front one, and leaves. */
  function RefreshLeft(q: seq<Command>, fetched: Option<Command>): seq<Command> {
    match fetched
    case None => q
    case Some(c) => if c.IsRefresh() && q != [] then q[1..] else q
  }

  /** The transactions lost so far, after a cycle in which the PIM part ran or not. */
  function AfterLoss(lost: seq<Command>, pimRan: bool, fetched: Option<Command>): seq<Command> {
    match fetched
    case None => lost
    case Some(c) => if pimRan && c.IsReadWrite() then lost + [c] else lost
  }

  /** The method's outcome is the one specified: it goes on exactly when it should, to the right state. */
  ghost predicate Follows(spec: Option<PimSide>, ok: bool, now: PimSide) {
    (ok <==> spec.Some?) && (ok ==> spec == Some(now))
  }

  /** The PIM part took the state s to the present one, refresh flag and clock apart. */
  ghost predicate PimWent(cfg: Config, s: PimSide, now: PimSide) {
    PimPart(cfg, s.(isInRef := now.isInRef)) == Some(now.(clk := s.clk))
  }

  lemma {:induction false} WentOn(cfg: Config, s: PimSide, now: PimSide)
    requires now.clk == s.clk && Follows(PimPart(cfg, s.(isInRef := now.isInRef)), true, now)
    requires PimOnly(cfg.geo, s.rdW) && PimOnly(cfg.geo, s.rdIn) && PimOnly(cfg.geo, s.wrQ)
    ensures PimWent(cfg, s, now.(clk := s.clk + 1)) && Sends(s, now.(clk := s.clk + 1))
  {
    hide PimPart;
    PimPartSends(cfg, s.(isInRef := now.isInRef));
  }

  lemma {:induction false} CycleFollows(u: Setup, s: PimSide, t: PimSide)
    ensures Follows(Issuing(u.cfg, Requested(u, s)), true, t) ==> Follows(Cycle(u, s), true, t.(clk := s.clk + 1))
    ensures Follows(Issuing(u.cfg, Requested(u, s)), false, t) ==> Follows(Cycle(u, s), false, t)
  {
  }

  class Controller {
    const channel: ChannelState
    const cmdQueue: CommandQueue
    const refresh: Refresh
    const mapping: int -> Address
    const unified: bool
    const closePage: bool
    const dualCmd: bool
    const capacity: nat
    const readDelay: nat
    var clk: nat
    var unifiedQ: seq<Transaction>
    var readQ: seq<Transaction>
    var writeBuf: seq<Transaction>
    var pendingRd: seq<Transaction>
    var pendingWr: seq<Transaction>
    var returnQ: seq<Transaction>
    var writeDraining: int
    var rdW: seq<Command>
    var rdIn: seq<Command>
    var releaseTime: seq<int>
    var wrQ: seq<Command>
    ghost var done: seq<Transaction>
    var log: seq<MemoryBooks.Request>
    var buffered: map<int, int>
    var dram: map<int, int>
    ghost var discarded: seq<Command>
    ghost var guardFrom: nat

    ghost function HomeOf(): Home { a => cmdQueue.QueueIndex(Spot(mapping(a))) }

    ghost function View(): Books
      reads this`unifiedQ, this`readQ, this`writeBuf, cmdQueue`queues, this`discarded, this`pendingRd, this`pendingWr,
            this`returnQ,
            this`done, this`log, this`buffered, this`dram
    {
      Books(unified, unifiedQ, readQ, writeBuf, cmdQueue.queues, discarded, pendingRd, pendingWr, returnQ, done, log,
        buffered, dram)
    }

    ghost function Loss(): Losses
      reads this`discarded, this`pendingRd
    {
      Losses(discarded, pendingRd)
    }

    /** The controller without its host traffic. */
    ghost function PimView(): PimSide
      reads this`clk, this`rdW, this`rdIn, this`releaseTime, this`wrQ, cmdQueue`isInRef,
            channel`history, channel`refreshQ, channel`fourAw, channel`thirtyTwoAw
    {
      PimSide(clk, channel.View(), cmdQueue.isInRef, rdW, rdIn, releaseTime, wrQ)
    }

    ghost function Plan(): Setup { Setup(channel.Settings(), refresh.policy, refresh.interval) }

    ghost function HostRules(): Rules {
      Rules(channel.Settings(), HomeOf(), p => cmdQueue.QueueIndex(p), c => cmdQueue.RefIndices(c), dualCmd, readDelay)
    }

    ghost function PimLanes(): (seq<Command>, seq<Command>, seq<int>, seq<Command>)
      reads this`rdW, this`rdIn, this`releaseTime, this`wrQ
    {
      (rdW, rdIn, releaseTime, wrQ)
    }

    /** What the issuing part of a cycle works on. */
    ghost function HostView(): Host
      reads this`unifiedQ, this`readQ, this`writeBuf, cmdQueue`queues, this`discarded, this`pendingRd, this`pendingWr,
            this`returnQ, this`done, this`log, this`buffered, this`dram, cmdQueue`queueIdx,
            channel`history, channel`refreshQ, channel`fourAw, channel`thirtyTwoAw
    {
      Host(channel.View(), View(), cmdQueue.queueIdx)
    }

    /** No host transaction waits in a queue. */
    ghost predicate Hostless()
      reads this`unifiedQ, this`readQ, this`writeBuf, cmdQueue`queues
    {
      unifiedQ == readQ == writeBuf == [] && forall i :: 0 <= i < |cmdQueue.queues| ==> cmdQueue.queues[i] == []
    }

    ghost predicate Mapped()
      reads cmdQueue`queues
    {
      forall i, k :: 0 <= i < |cmdQueue.queues| && 0 <= k < |cmdQueue.queues[i]| ==>
        cmdQueue.queues[i][k].addr == mapping(cmdQueue.queues[i][k].hexAddr)
    }

    ghost predicate PimShaped(q: seq<Command>) {
      forall k :: 0 <= k < |q| ==> IsPimCommand(q[k]) && channel.geo.Has(q[k].Where())
    }

    predicate PimIdle()
      reads this
    {
      rdW == [] && rdIn == [] && wrQ == []
    }

    /** The channel side: everything but the transaction and command queues. */
    ghost predicate Assembled()
      reads this`clk, cmdQueue`clk, refresh, channel, channel.banks
    {
      && cmdQueue.channel == channel && refresh.channel == channel
      && channel.Valid() && refresh.Valid()
      && (forall a :: channel.geo.Has(Spot(mapping(a))))
      && (dualCmd ==> SpacesReadWrites(channel.tables, channel.geo))
      && cmdQueue.clk == clk && channel.Upto(clk)
    }

    ghost predicate PimQueues()
      reads this`rdW, this`rdIn, this`releaseTime, this`wrQ
    {
      PimShaped(rdW) && PimShaped(rdIn) && PimShaped(wrQ) && |releaseTime| == |rdIn|
    }

    /** Once the refresh at the front has been taken up, nothing has opened its banks. */
    ghost predicate HandOff()
      reads this`guardFrom, cmdQueue`isInRef, cmdQueue`refQIndices, channel`refreshQ, channel`history
    {
      cmdQueue.isInRef ==>
        && channel.refreshQ != [] && cmdQueue.refQIndices == cmdQueue.RefIndices(channel.refreshQ[0])
        && guardFrom <= |channel.history|
        && forall i :: guardFrom <= i < |channel.history| ==> !Reopens(channel.history[i].cmd, channel.refreshQ[0])
    }

    ghost predicate Draining()
      reads this`writeDraining, this`writeBuf
    {
      0 <= writeDraining <= |writeBuf| && (unified ==> writeDraining == 0)
    }

    ghost predicate Valid()
      reads this, cmdQueue, refresh, channel, channel.banks
    {
      Working() && refresh.clk == clk
    }

    /** What holds in the middle of a cycle as well. */
    ghost predicate Working()
      reads this, cmdQueue, refresh, channel, channel.banks
    {
      Frame() && Inv(View(), HomeOf())
    }

    /** What holds even while a fetched access is neither queued nor issued. */
    ghost predicate Frame()
      reads this, cmdQueue, refresh, channel, channel.banks
    {
      Assembled() && HandOff() && cmdQueue.Valid() && Mapped() && Draining() && PimQueues()
    }

    constructor (channel: ChannelState, cmdQueue: CommandQueue, refresh: Refresh, mapping: int -> Address,
                 unified: bool, closePage: bool, dualCmd: bool, capacity: nat, readDelay: nat)
      requires channel.Valid() && cmdQueue.Valid() && refresh.Valid()
      requires cmdQueue.channel == channel && refresh.channel == channel
      requires channel.history == [] && cmdQueue.clk == 0 && refresh.clk == 0 && !cmdQueue.isInRef
      requires forall i :: 0 <= i < |cmdQueue.queues| ==> cmdQueue.queues[i] == []
      requires forall a :: channel.geo.Has(Spot(mapping(a)))
      requires dualCmd ==> SpacesReadWrites(channel.tables, channel.geo)
      ensures Valid() && log == [] && done == [] && discarded == [] && PimIdle()
      ensures this.channel == channel && this.cmdQueue == cmdQueue && this.refresh == refresh && this.mapping == mapping
      ensures this.unified == unified && this.closePage == closePage && this.dualCmd == dualCmd
      ensures this.capacity == capacity
      ensures clk == 0 && unifiedQ == readQ == writeBuf == pendingRd == pendingWr == [] && releaseTime == []
    {
      this.channel, this.cmdQueue, this.refresh, this.mapping := channel, cmdQueue, refresh, mapping;
      this.unified, this.closePage, this.dualCmd := unified, closePage, dualCmd;
      this.capacity, this.readDelay := capacity, readDelay;
      clk, writeDraining, guardFrom := 0, 0, 0;
      unifiedQ, readQ, writeBuf, pendingRd, pendingWr, returnQ := [], [], [], [], [], [];
      rdW, rdIn, releaseTime, wrQ := [], [], [], [];
      done, log, discarded := [], [], [];
      buffered, dram := map[], map[];
      new;
      hide Inv, channel.Valid, refresh.Valid, cmdQueue.Valid, SpacesReadWrites;
      StartsRight(View(), HomeOf());
    }

    predicate WillAcceptTransaction(isWrite: bool)
      reads this
    {
      if unified then |unifiedQ| < capacity
      else if !isWrite then |readQ| < capacity
      else |writeBuf| < capacity
    }

    /** A write is acknowledged at once; it is queued unless it merges into the pending one. */
    method AddWrite(addr: int, value: int)
      modifies this`pendingWr, this`unifiedQ, this`writeBuf, this`returnQ, this`buffered, this`log
      ensures View() == AcceptWrite(old(View()), Transaction(addr, true, clk, 0, old(|log|), value), clk + 1)
      ensures |writeBuf| >= old(|writeBuf|)
    {
      hide Count;
      var t := Transaction(addr, true, clk, 0, |log|, value);
      if CountT(pendingWr, addr, true) == 0 {
        pendingWr := pendingWr + [t];
        if unified {
          unifiedQ := unifiedQ + [t];
        } else {
          writeBuf := writeBuf + [t];
        }
      }
      buffered := buffered[addr := value];
      returnQ := returnQ + [t.(completeCycle := clk + 1)];
      log := log + [MemoryBooks.Request(addr, true, value)];
    }

    /** A read of buffered data is answered from the buffer; otherwise it waits, and is queued unless
        another read of its address already is. */
    method AddRead(addr: int)
      modifies this`pendingRd, this`unifiedQ, this`readQ, this`returnQ, this`log
      ensures View() == AcceptRead(old(View()), Transaction(addr, false, clk, 0, old(|log|), 0), clk + 1)
    {
      hide Count;
      var t := Transaction(addr, false, clk, 0, |log|, 0);
      log := log + [MemoryBooks.Request(addr, false, 0)];
      if CountT(pendingWr, addr, true) > 0 {
        returnQ := returnQ + [t.(completeCycle := clk + 1, value := Cell(buffered, addr))];
      } else {
        CountAppend(pendingRd, t, TransIs(addr, false));
        pendingRd := pendingRd + [t];
        if CountT(pendingRd, addr, false) == 1 {
          if unified {
            unifiedQ := unifiedQ + [t];
          } else {
            readQ := readQ + [t];
          }
        }
      }
    }

    /** Accepts a transaction that fits. */
    method AddTransaction(addr: int, isWrite: bool, value: int)
      requires Valid() && WillAcceptTransaction(isWrite)
      modifies this`pendingRd, this`pendingWr, this`unifiedQ, this`readQ, this`writeBuf, this`returnQ, this`buffered,
               this`log
      ensures Valid()
      ensures View() == if isWrite then AcceptWrite(old(View()), Transaction(addr, true, clk, 0, old(|log|), value),
        clk + 1)
                        else AcceptRead(old(View()), Transaction(addr, false, clk, 0, old(|log|), 0), clk + 1)
      ensures StuckStay(old(Loss()), Loss())
    {
      hide Inv, Assembled, HandOff, cmdQueue.Valid, Mapped, Count, AcceptWrite, AcceptRead, StuckStay;
      StuckAccept(View(), Transaction(addr, false, clk, 0, |log|, 0), clk + 1);
      StuckAccept(View(), Transaction(addr, true, clk, 0, |log|, value), clk + 1);
      if isWrite {
        AcceptWriteKeeps(View(), HomeOf(), Transaction(addr, true, clk, 0, |log|, value), clk + 1);
        AddWrite(addr, value);
      } else {
        AcceptReadKeeps(View(), HomeOf(), Transaction(addr, false, clk, 0, |log|, 0), clk + 1);
        AddRead(addr);
      }
    }

    /** Transaction k is the first whose time has come. */
    ghost predicate FirstDue(q: seq<Transaction>, now: nat, k: int) {
      0 <= k < |q| && q[k].completeCycle <= now && forall j :: 0 <= j < k ==> q[j].completeCycle > now
    }

    /** Hands back the first transaction whose time has come. */
    method ReturnDoneTrans(now: nat) returns (r: Option<Transaction>)
      requires Valid()
      modifies this`returnQ, this`done
      ensures Valid()
      ensures r.None? ==> View() == old(View()) && forall k :: 0 <= k < |returnQ| ==> returnQ[k].completeCycle > now
      ensures r.Some? ==>
        exists k :: FirstDue(old(returnQ), now, k) && r.value == old(returnQ)[k] && View() == HandBack(old(View()), k)
      ensures r.Some? ==> done == old(done) + [r.value] && |returnQ| == old(|returnQ|) - 1
      ensures r.Some? && !r.value.isWrite ==>
        r.value.tag < |log| && r.value.value == LatestWrite(log[..r.value.tag], r.value.addr)
    {
      hide Assembled, HandOff, cmdQueue.Valid, Mapped, Count, Sorted, Homed, Balanced, Ordered, Conserved;
      for k := 0 to |returnQ|
        invariant returnQ == old(returnQ) && done == old(done)
        invariant forall j :: 0 <= j < k ==> returnQ[j].completeCycle > now
      {
        if now >= returnQ[k].completeCycle {
          r := Some(returnQ[k]);
          assert FirstDue(returnQ, now, k);
          HandBackKeeps(View(), HomeOf(), k);
          assert Faithful(View(), returnQ[k]);
          returnQ, done := RemoveAt(returnQ, k), done + [r.value];
          assert View() == HandBack(old(View()), k);
          return;
        }
      }
      r := None;
    }

    function TransToCommand(t: Transaction): Command {
      Command(if closePage then (if t.isWrite then WritePrecharge else ReadPrecharge)
        else (if t.isWrite then Write else Read),
              mapping(t.addr), t.addr)
    }

    /** The command accesses the transaction's own address, as a write exactly for a write, and closes the row
        exactly under the close-page policy. */
    lemma {:induction false} CommandOf(t: Transaction)
      ensures var cmd := TransToCommand(t);
        && cmd.IsReadWrite() && cmd.IsWrite() == t.isWrite && IsClosing(cmd.kind) == closePage
        && cmd.hexAddr == t.addr && cmd.Where() == Spot(mapping(t.addr)) && cmd.addr.row == mapping(t.addr).row
    {
    }

    /** Transaction i of the queue being served leaves it. */
    method TakeTransaction(i: int)
      requires 0 <= i < |Source(View(), writeDraining > 0)|
      modifies this`unifiedQ, this`readQ, this`writeBuf, this`writeDraining
      ensures unifiedQ == if unified then RemoveAt(old(unifiedQ), i) else old(unifiedQ)
      ensures writeBuf == if !unified && old(writeDraining) > 0 then RemoveAt(old(writeBuf), i) else old(writeBuf)
      ensures readQ == if !unified && old(writeDraining) <= 0 then RemoveAt(old(readQ), i) else old(readQ)
      ensures writeDraining == if !unified && old(writeDraining) > 0 then old(writeDraining) - 1 else old(writeDraining)
    {
      if unified {
        unifiedQ := RemoveAt(unifiedQ, i);
      } else if writeDraining > 0 {
        writeBuf, writeDraining := RemoveAt(writeBuf, i), writeDraining - 1;
      } else {
        readQ := RemoveAt(readQ, i);
      }
    }

    /** An entry is where its queue drops it. */
    lemma {:induction false} OnlyOnce(q: seq<Command>, pos: int)
      requires NoRepeat(q) && 0 <= pos < |q|
      ensures Dropped(q, q[pos]) == RemoveAt(q, pos)
    {
      DroppedAt(q, q[pos], pos);
    }

    ghost predicate HasRoom(a: int)
      reads cmdQueue`queues
    {
      var h := cmdQueue.QueueIndex(Spot(mapping(a)));
      0 <= h < |cmdQueue.queues| && |cmdQueue.queues[h]| < cmdQueue.queueSize
    }

    /** The books after transaction m of the queue being served has moved on, the first one with room, or after
        none has: then none has room, or the first that has waits for a read of its address. */
    ghost predicate MovesTo(b: Books, width: int, m: int, after: Books) {
      var q := Source(b, width > 0);
      if m < 0 then after == b && forall i :: FirstRoomy(b, HomeOf(), cmdQueue.queueSize, q, i) ==> Blocked(b, q[i])
      else FirstRoomy(b, HomeOf(), cmdQueue.queueSize, q, m) && !Blocked(b, q[m])
           && after == Schedule(b, HomeOf(), width > 0, m, TransToCommand(q[m]))
    }

    /** The second half of a cycle: from the books b, with w writes to drain, to the books after, with v. */
    ghost predicate Moves(b: Books, w: int, after: Books, v: int) {
      var width := DrainWidth(b, w, capacity);
      exists m: int :: MovesTo(b, width, m, after) && v == DrainLeft(b, HomeOf(), cmdQueue.queueSize, width, m)
    }

    /** Transaction i of the queue being served becomes a command. */
    method Enqueue(i: int, cmd: Command)
      requires 0 <= i < |Source(View(), writeDraining > 0)| && cmdQueue.Valid() && Mapped()
      requires cmd == TransToCommand(Source(View(), writeDraining > 0)[i]) && HasRoom(cmd.hexAddr)
      requires cmdQueue.channel.geo.Has(cmd.Where())
      requires forall c :: c in cmdQueue.queues[HomeOf()(cmd.hexAddr)] ==>
        !(c.hexAddr == cmd.hexAddr && c.IsWrite() == cmd.IsWrite())
      modifies this`unifiedQ, this`readQ, this`writeBuf, this`writeDraining, cmdQueue`queues
      ensures cmdQueue.Valid() && Mapped()
      ensures View() == Schedule(old(View()), HomeOf(), old(writeDraining) > 0, i, cmd)
      ensures writeDraining == if !unified && old(writeDraining) > 0 then old(writeDraining) - 1 else old(writeDraining)
      ensures old(Draining()) ==> Draining()
    {
      hide cmdQueue.Placed, cmdQueue.InChannel, NoRepeat;
      TakeTransaction(i);
      var added := cmdQueue.AddCommand(cmd);
    }

    /** Moves the served transaction i into its command queue. */
    method MoveToQueue(i: int)
      requires Working() && 0 <= i < |Source(View(), writeDraining > 0)|
      requires HasRoom(Source(View(), writeDraining > 0)[i].addr)
      requires unified ==> forall j :: 0 <= j < i ==> unifiedQ[j].addr != unifiedQ[i].addr
      requires !unified && writeDraining > 0 ==>
        (writeBuf[i].isWrite ==> CountT(pendingRd, writeBuf[i].addr, false) == 0)
      modifies this`unifiedQ, this`readQ, this`writeBuf, this`writeDraining, cmdQueue`queues
      ensures Working()
      ensures View() == Schedule(old(View()), HomeOf(), old(writeDraining) > 0, i,
                                 TransToCommand(Source(old(View()), old(writeDraining) > 0)[i]))
      ensures writeDraining == if !unified && old(writeDraining) > 0 then old(writeDraining) - 1 else old(writeDraining)
    {
      hide Assembled, HandOff, Count, Ordered, DataRight, Conserved, Balanced, Homed, cmdQueue.Valid, Mapped,
        Draining, Schedule;
      var q := if unified then unifiedQ else if writeDraining > 0 then writeBuf else readQ;
      var cmd := TransToCommand(q[i]);
      assert Carries(cmd, q[i]) && cmd.Where() == Spot(mapping(q[i].addr));
      ScheduleKeeps(View(), HomeOf(), writeDraining > 0, i, cmd);
      NoTwinQueued(View(), HomeOf(), writeDraining > 0, i, cmd);
      AssembledParts(q[i].addr);
      Enqueue(i, cmd);
    }

    /** Draining starts when the write buffer is full, or nearly so with idle command queues. */
    method StartDraining()
      requires Working()
      modifies this`writeDraining
      ensures Working()
      ensures writeDraining == DrainWidth(View(), old(writeDraining), capacity)
    {
      hide Assembled, HandOff, Inv, cmdQueue.Valid, Mapped;
      if writeDraining == 0 && !unified {
        var idle := cmdQueue.QueueEmpty();
        if |writeBuf| >= capacity || (|writeBuf| > 8 && idle) {
          writeDraining := |writeBuf|;
        }
      }
    }

    /** The three ways the second half of a cycle can go. */
    lemma {:induction false} Goes(b: Books, w: int, m: int)
      requires var width := DrainWidth(b, w, capacity);
        FirstRoomy(b, HomeOf(), cmdQueue.queueSize, Source(b, width > 0), m) && !Blocked(b, Source(b, width > 0)[m])
      ensures var width := DrainWidth(b, w, capacity);
        Moves(b, w, Schedule(b, HomeOf(), width > 0, m, TransToCommand(Source(b, width > 0)[m])),
              if !b.unified && width > 0 then width - 1 else width)
    {
      hide Schedule, DrainWidth, Blocked;
      var width := DrainWidth(b, w, capacity);
      assert MovesTo(b, width, m, Schedule(b, HomeOf(), width > 0, m, TransToCommand(Source(b, width > 0)[m])));
    }

    lemma {:induction false} Stops(b: Books, w: int, m: int)
      requires var width := DrainWidth(b, w, capacity);
        FirstRoomy(b, HomeOf(), cmdQueue.queueSize, Source(b, width > 0), m) && Blocked(b, Source(b, width > 0)[m])
      ensures Moves(b, w, b, 0)
    {
      hide DrainWidth, Blocked, RoomIn;
      var width := DrainWidth(b, w, capacity);
      assert MovesTo(b, width, -1, b) && SomeRoomy(b, HomeOf(), cmdQueue.queueSize, Source(b, width > 0));
    }

    lemma {:induction false} Stays(b: Books, w: int)
      requires var q := Source(b, DrainWidth(b, w, capacity) > 0); NoneRoomy(b, HomeOf(), cmdQueue.queueSize, q, |q|)
      ensures Moves(b, w, b, DrainWidth(b, w, capacity))
    {
      hide DrainWidth, Blocked, RoomIn;
      var width := DrainWidth(b, w, capacity);
      assert MovesTo(b, width, -1, b) && !SomeRoomy(b, HomeOf(), cmdQueue.queueSize, Source(b, width > 0));
    }

    /** A buffered write that is first in turn but has reads of its address pending lets the reads go first: nothing
        moves in this cycle, and the next one serves the read queue unless the draining would start anew. */
    lemma {:induction false} ReadsGoFirst(b: Books, w: int, after: Books, v: int, m: int)
      requires !b.unified && DrainWidth(b, w, capacity) > 0 && Moves(b, w, after, v)
      requires FirstRoomy(b, HomeOf(), cmdQueue.queueSize, b.writeBuf, m) && b.writeBuf[m].isWrite
      requires CountT(b.pendingRd, b.writeBuf[m].addr, false) > 0
      ensures after == b && v == 0
      ensures |b.writeBuf| < capacity && (|b.writeBuf| <= 8 || !AllEmpty(b.queues)) ==>
        Source(after, DrainWidth(after, v, capacity) > 0) == b.readQ
    {
      hide RoomIn, HasRoom, Schedule;
      var width := DrainWidth(b, w, capacity);
      assert Source(b, width > 0) == b.writeBuf;
      var k :| MovesTo(b, width, k, after) && v == DrainLeft(b, HomeOf(), cmdQueue.queueSize, width, k);
      assert SomeRoomy(b, HomeOf(), cmdQueue.queueSize, b.writeBuf);
      OneFirst(b, HomeOf(), cmdQueue.queueSize, b.writeBuf, m, k);
    }

    /** The first transaction of the served queue that finds room moves on; a write of the split buffer that finds
        a read of its address still pending stops the draining instead. */
    method ScheduleTransaction()
      requires Working()
      modifies this`unifiedQ, this`readQ, this`writeBuf, this`writeDraining, cmdQueue`queues
      ensures Working()
      ensures Moves(old(View()), old(writeDraining), View(), writeDraining)
      ensures old(Hostless()) ==> Hostless()
    {
      hide Assembled, HandOff, Count, Sorted, Ordered, DataRight, Conserved, Balanced, Homed, cmdQueue.Valid, Mapped,
        Draining, Schedule, DrainWidth, Moves, NoneRoomy, FirstRoomy;
      StartDraining();
      ghost var b, width := View(), writeDraining;
      var q := if unified then unifiedQ else if writeDraining > 0 then writeBuf else readQ;
      RoomyNone(b, HomeOf(), cmdQueue.queueSize, q);
      for i := 0 to |q|
        invariant Working() && View() == b == old(View()) && writeDraining == width && q == Source(b, width > 0)
        invariant NoneRoomy(b, HomeOf(), cmdQueue.queueSize, q, i)
      {
        AssembledRange(q[i].addr);
        RoomyNext(b, HomeOf(), cmdQueue.queueSize, q, i);
        if cmdQueue.WillAcceptCommand(Spot(mapping(q[i].addr))) {
          if !unified && q[i].isWrite && CountT(pendingRd, q[i].addr, false) > 0 {
            Stops(b, old(writeDraining), i);
            StopDraining();
          } else {
            Goes(b, old(writeDraining), i);
            MoveToQueue(i);
          }
          return;
        }
      }
      Stays(b, old(writeDraining));
    }

    method StopDraining()
      requires Working()
      modifies this`writeDraining
      ensures Working() && writeDraining == 0
    {
      hide Assembled, HandOff, Inv, cmdQueue.Valid, Mapped;
      writeDraining := 0;
    }

    /** The queue of every address exists. */
    lemma {:induction false} AssembledRange(a: int)
      requires Assembled() && cmdQueue.Valid()
      ensures 0 <= cmdQueue.QueueIndex(Spot(mapping(a))) < |cmdQueue.queues|
    {
      AssembledParts(a);
      cmdQueue.QueueIndexRange(Spot(mapping(a)));
    }

    /** Every pending read of the address is completed with the value in the cell. */
    method TakeReads(a: int)
      modifies this`pendingRd, this`returnQ
      ensures pendingRd == Without(old(pendingRd), a)
      ensures returnQ == old(returnQ) + Completed(OfAddr(old(pendingRd), a), Cell(dram, a), clk + readDelay)
    {
      hide OfAddr, Without, Completed, RemoveAt, Splitting;
      var numReads := |OfAddr(pendingRd, a)|;
      ghost var taken: seq<Transaction> := [];
      StartSplit(pendingRd, a, Cell(dram, a), clk + readDelay);
      while numReads > 0
        invariant numReads == |OfAddr(pendingRd, a)|
        invariant Splitting(old(pendingRd), pendingRd, taken, a)
        invariant returnQ == old(returnQ) + Completed(taken, Cell(dram, a), clk + readDelay)
      {
        var k := FindAddr(pendingRd, a);
        var t := pendingRd[k];
        SplitStep(old(pendingRd), pendingRd, taken, a, k);
        CompletedAppend(taken, t, Cell(dram, a), clk + readDelay);
        returnQ := returnQ + [t.(value := Cell(dram, a), completeCycle := clk + readDelay)];
        pendingRd := RemoveAt(pendingRd, k);
        taken := taken + [t];
        numReads := numReads - 1;
      }
      SplitDone(old(pendingRd), pendingRd, taken, a);
    }

    static method FindAddr(q: seq<Transaction>, a: int) returns (k: int)
      requires OfAddr(q, a) != []
      ensures 0 <= k < |q| && q[k].addr == a && forall j :: 0 <= j < k ==> q[j].addr != a
    {
      k := 0;
      while q[k].addr != a
        invariant 0 <= k < |q| && forall j :: 0 <= j < k ==> q[j].addr != a
        invariant OfAddr(q, a) == OfAddr(q[k..], a)
        decreases |q| - k
      {
        assert q[k..][1..] == q[k + 1..];
        k := k + 1;
      }
    }

    /** Effects of issuing a command; false stands for the exits "not in read queue" and "not in write
        queue". */
    method IssueCommand(cmd: Command) returns (ok: bool)
      requires channel.Valid() && channel.Legal(cmd, clk) && channel.Upto(clk)
      requires cmd.IsWrite() ==> |OfAddr(pendingWr, cmd.hexAddr)| <= 1
      modifies this`pendingRd, this`pendingWr, this`returnQ, this`dram, channel`refreshQ, channel`fourAw,
               channel`thirtyTwoAw, channel`history, channel`early, channel.banks
      ensures channel.Valid() && channel.Upto(clk)
      ensures channel.View() == AfterIssue(channel.Settings(), old(channel.View()), cmd, clk)
      ensures channel.history == old(channel.history) + [Issued(cmd, clk)]
      ensures channel.refreshQ == AfterRefresh(old(channel.refreshQ), cmd)
      ensures channel.early == if old(channel.InTime(cmd, clk)) then old(channel.early)
        else old(channel.early) + {old(|channel.history|)}
      ensures ok <==>
        (cmd.IsReadWrite() ==> OfAddr(old(if cmd.IsRead() then pendingRd else pendingWr), cmd.hexAddr) != [])
      ensures View() == AfterAccess(old(View()), cmd, clk + readDelay)
    {
      hide channel.Valid, channel.Legal, channel.InTime, channel.Upto, AfterIssue;
      ok := true;
      if cmd.IsRead() {
        ok := OfAddr(pendingRd, cmd.hexAddr) != [];
        TakeReads(cmd.hexAddr);
      } else if cmd.IsWrite() {
        ok := OfAddr(pendingWr, cmd.hexAddr) != [];
        if ok {
          var k := FindAddr(pendingWr, cmd.hexAddr);
          TakeOne(pendingWr, cmd.hexAddr, k);
          NoneLeft(RemoveAt(pendingWr, k), cmd.hexAddr);
          pendingWr := RemoveAt(pendingWr, k);
        } else {
          NoneLeft(pendingWr, cmd.hexAddr);
        }
        dram := dram[cmd.hexAddr := Cell(buffered, cmd.hexAddr)];
      }
      channel.UpdateTimingAndStates(cmd, clk);
    }

    /** The refresh at the front is taken up: from here on its banks stay closed to activations. */
    method TakeUpRefresh() returns (r: Option<Command>)
      requires Frame() && channel.refreshQ != []
      modifies this`guardFrom, cmdQueue`refQIndices, cmdQueue`isInRef
      ensures Frame()
      ensures cmdQueue.isInRef <==> !(r.Some? && r.value.IsRefresh())
      ensures r.Some? ==> channel.Issuable(r.value, clk)
      ensures r.Some? ==> r.value.kind.Precharge? || (r.value.IsRefresh() && r.value == channel.refreshQ[0])
      ensures r == Usable(AnswerTo(channel.Settings(), channel.View(), channel.refreshQ[0], clk))
    {
      hide refresh.Valid, SpacesReadWrites, channel.Sound, channel.WindowValid, channel.Tracks, channel.Issuable;
      if !cmdQueue.isInRef {
        guardFrom := |channel.history|;
      }
      r := cmdQueue.FinishRefresh();
    }

    /** What is known of a command taken from the queues. */
    ghost predicate Taken(b: Books, cmd: Command, i: int, pos: int)
      reads this, cmdQueue`queues
    {
      if cmd.IsReadWrite() then
        && 0 <= i < |b.queues| && 0 <= pos < |b.queues[i]| && cmd == b.queues[i][pos]
        && (cmd.IsWrite() ==> FreeToWrite(b.queues[i], pos))
        && View() == Unqueue(b, i, pos)
      else View() == b
    }

    /** A command from a queue that no refresh holds back. */
    method FetchQueued() returns (r: Option<Command>, ghost i: int, ghost pos: int)
      requires Frame()
      modifies cmdQueue`queues, cmdQueue`queueIdx
      ensures Frame()
      ensures r.None? ==> View() == old(View())
      ensures r.Some? ==> channel.Issuable(r.value, clk) && !r.value.IsRefresh() && Taken(old(View()), r.value, i, pos)
      ensures r.Some? && cmdQueue.isInRef ==> !Reopens(r.value, channel.refreshQ[0])
      ensures old(Hostless()) ==> r.None? && Hostless()
      ensures r == old(cmdQueue.NextOf())
      ensures r.Some? ==> View() == Leave(old(View()), HomeOf(), r.value)
      ensures cmdQueue.queueIdx == if r.Some? then cmdQueue.QueueIndex(r.value.Where()) else old(cmdQueue.queueIdx)
    {
      hide refresh.Valid, SpacesReadWrites, channel.Sound, channel.WindowValid, channel.Tracks, channel.Issuable,
        Answered, channel.WindowsValid, cmdQueue.InChannel, NoRepeat, PimShaped, cmdQueue.NextOf, Dropped;
      ghost var b := View();
      ghost var steps;
      r, steps, pos := cmdQueue.GetCommandToIssue();
      i := cmdQueue.queueIdx;
      if r.Some? {
        assert old(cmdQueue.CanServe(cmdQueue.queues[Wrap(cmdQueue.queueIdx, steps, cmdQueue.NumQueues())], pos));
        WriteIsFree(b.queues[i], pos);
        assert cmdQueue.Placed(b.queues[i][pos], i);
        if r.value.IsReadWrite() {
          OnlyOnce(b.queues[i], pos);
        }
        if cmdQueue.isInRef && channel.refreshQ[0].Touches(r.value.Where()) {
          cmdQueue.TargetsHeldBack(channel.refreshQ[0], r.value.Where());
        }
      }
    }

    lemma {:induction false} IssueKeepsBooks(b: Books, cmd: Command, i: int, pos: int)
      requires Inv(b, HomeOf()) && Taken(b, cmd, i, pos)
      ensures Inv(AfterAccess(View(), cmd, clk + readDelay), HomeOf())
      ensures cmd.IsWrite() ==> |OfAddr(pendingWr, cmd.hexAddr)| == 1
      ensures cmd.IsRead() ==> OfAddr(pendingRd, cmd.hexAddr) != []
    {
      hide Inv, OfAddr, Without, Completed;
      if cmd.IsReadWrite() {
        PendingFound(b, HomeOf(), i, pos);
        if cmd.IsRead() {
          ServeReadKeeps(b, HomeOf(), i, pos, clk + readDelay);
        } else {
          ServeWriteKeeps(b, HomeOf(), i, pos);
        }
      }
    }

    lemma {:induction false} QueuesSeen()
      ensures View().queues == cmdQueue.queues
    {
    }

    lemma {:induction false} LossSeen()
      ensures LossesOf(View()) == Loss()
    {
    }

    lemma {:induction false} IssueKeepsStuck(b: Books, cmd: Command, i: int, pos: int)
      requires Inv(b, HomeOf()) && Taken(b, cmd, i, pos)
      ensures StuckStay(Loss(), LossesOf(AfterAccess(View(), cmd, clk + readDelay)))
    {
      hide OfAddr, Without, Completed, Sorted, Ordered, DataRight, Conserved, Homed, Balanced;
      if cmd.IsRead() {
        StuckServe(b, HomeOf(), i, pos, LossesOf(AfterAccess(View(), cmd, clk + readDelay)));
      }
    }

    /** Issues a command that was taken from the queues or from the refresh at the front: neither exit is
        reached and every invariant holds again. */
    method IssueFetched(cmd: Command, ghost b: Books, ghost i: int, ghost pos: int) returns (ok: bool)
      requires Frame() && Inv(b, HomeOf()) && Taken(b, cmd, i, pos) && channel.Legal(cmd, clk)
      requires cmdQueue.isInRef ==> !cmd.IsRefresh() && !Reopens(cmd, channel.refreshQ[0])
      requires cmd.IsRefresh() ==> channel.refreshQ != [] && cmd == channel.refreshQ[0]
      modifies this`pendingRd, this`pendingWr, this`returnQ, this`dram, channel`refreshQ, channel`fourAw,
               channel`thirtyTwoAw, channel`history, channel`early, channel.banks
      ensures ok && Working()
      ensures channel.View() == AfterIssue(channel.Settings(), old(channel.View()), cmd, clk)
      ensures channel.early == if old(channel.InTime(cmd, clk)) then old(channel.early)
        else old(channel.early) + {old(|channel.history|)}
      ensures channel.history == old(channel.history) + [Issued(cmd, clk)]
      ensures channel.refreshQ == if cmd.IsRefresh() then old(channel.refreshQ)[1..] else old(channel.refreshQ)
      ensures View() == AfterAccess(old(View()), cmd, clk + readDelay)
      ensures StuckStay(old(Loss()), Loss())
    {
      hide StuckStay, Inv, refresh.Valid, SpacesReadWrites, channel.Valid, channel.Legal, channel.InTime,
        channel.Upto, AfterIssue, PimQueues, Mapped, cmdQueue.Valid, OfAddr, ServeRead, ServeWrite, Draining, View,
        cmdQueue.RefIndices;
      IssueKeepsBooks(b, cmd, i, pos);
      IssueKeepsStuck(b, cmd, i, pos);
      ok := IssueCommand(cmd);
      LossSeen();
    }

    /** A second command in the same cycle is issued when exactly one of the two is a read or write; when
        it is not issued nothing has been taken from the queues. */
    method IssueSecond(first: Command) returns (ok: bool)
      requires Working() && dualCmd
      requires channel.history != [] && channel.history[|channel.history| - 1] == Issued(first, clk)
      requires first.IsReadWrite() ==> channel.geo.Has(first.Where())
      modifies this`pendingRd, this`pendingWr, this`returnQ, this`dram, channel`refreshQ, channel`fourAw,
               channel`thirtyTwoAw, channel`history, channel`early, channel.banks, cmdQueue`queues, cmdQueue`queueIdx
      ensures ok && Working()
      ensures old(channel.history) <= channel.history && channel.refreshQ == old(channel.refreshQ)
      ensures channel.early == old(channel.early) && StuckStay(old(Loss()), Loss())
      ensures old(Hostless()) ==> Hostless() && channel.View() == old(channel.View())
      ensures HostView() == WithSecond(HostRules(), old(HostView()), first, cmdQueue.Held(), clk)
    {
      hide Inv, refresh.Valid, SpacesReadWrites, channel.Sound, channel.WindowValid, channel.Tracks, channel.Issuable,
        channel.Legal, channel.InTime, channel.Upto, PimShaped, Mapped, cmdQueue.Valid, Unqueue, HandOff, RoundRobin,
        AfterIssue, Dropped, AfterAccess, View, Hostless, Taken, Draining, Reopens, PimQueues, StuckStay, Assembled;
      ghost var b := View();
      QueuesSeen();
      StuckSame(Loss());
      QueueIsOurs();
      ghost var i, pos;
      var second;
      second, i, pos := FetchQueued();
      ok := true;
      if second.Some? {
        if second.value.IsReadWrite() && first.IsReadWrite() {
          NotTwo(first, second.value);
        }
        if second.value.IsReadWrite() != first.IsReadWrite() {
          Ready(second.value);
          ok := IssueFetched(second.value, b, i, pos);
        }
      }
    }

    /** After an access the same cycle offers no second one. */
    lemma {:induction false} NotTwo(first: Command, second: Command)
      requires Assembled() && dualCmd && first.IsReadWrite() && second.IsReadWrite() && channel.geo.Has(first.Where())
      requires channel.history != [] && channel.history[|channel.history| - 1] == Issued(first, clk)
      ensures !channel.Issuable(second, clk)
    {
      hide refresh.Valid, SpacesReadWrites, channel.Sound, channel.WindowValid, channel.Tracks, channel.Legal,
        channel.InTime, channel.Upto;
      channel.OneAccessPerCycle(first, clk, second);
    }

    /** What a cycle fetches when its channel stands like this: work on the refresh at the front first,
        and otherwise the first eligible entry in round robin over the queues that no refresh holds back. */
    ghost function FetchFrom(ch: Channel): Option<Command>
      reads this`clk, cmdQueue`queues, cmdQueue`queueIdx
    {
      var work := RefreshWork(channel.Settings(), ch, clk);
      if work.Some? then work
      else RoundRobin(channel.Settings(), ch, clk, cmdQueue.queues,
                      if ch.refreshQ == [] then {} else cmdQueue.RefIndices(ch.refreshQ[0]), cmdQueue.queueIdx, 1)
    }

    /** What the next cycle will fetch. */
    ghost function NextFetched(): Option<Command>
      reads this, cmdQueue, channel
    {
      FetchFrom(Requested(Plan(), PimView()).channel)
    }

    /** The command has been fetched from the state h, and the rest of its turn is still to come. */
    ghost predicate TurnFrom(h: Host, cmd: Option<Command>)
      reads this, cmdQueue, channel
    {
      && channel.View() == h.channel
      && (cmd.None? ==> View() == h.books)
      && (cmd.Some? ==> View() == Leave(h.books, HomeOf(), cmd.value) && (cmd.value.IsRefresh() ==> !cmdQueue.isInRef))
      && (channel.refreshQ != [] ==> cmdQueue.isInRef || (cmd.Some? && cmd.value.IsRefresh()))
      && cmdQueue.queueIdx == if cmd.None? || RefreshWork(channel.Settings(), h.channel, clk).Some? then h.idx
                              else cmdQueue.QueueIndex(cmd.value.Where())
    }

    /** From the fetch on, the turn is the specified one. */
    lemma {:induction false} TurnStarts(cmd: Option<Command>, h: Host)
      requires HandOff() && TurnFrom(h, cmd)
      ensures Turned(HostRules(), h, cmd, clk) ==
        match cmd
        case None => HostView()
        case Some(c) =>
          WithSecond(HostRules(), Host(AfterIssue(channel.Settings(), channel.View(), c, clk),
            AfterAccess(View(), c, clk + readDelay), cmdQueue.queueIdx), c, cmdQueue.Held(), clk)
    {
      hide HandOff, Leave, AfterAccess, AfterIssue, WithSecond, RefreshWork, View;
      if cmd.Some? {
        HeldRight(cmd.value);
      }
    }

    /** The next command: work on a waiting refresh first, then the queues. */
    method Fetch() returns (r: Option<Command>, ghost i: int, ghost pos: int)
      requires Frame()
      modifies this`guardFrom, cmdQueue`refQIndices, cmdQueue`isInRef, cmdQueue`queues, cmdQueue`queueIdx
      ensures Frame()
      ensures r.None? ==> View() == old(View())
      ensures r.Some? ==> channel.Issuable(r.value, clk) && Taken(old(View()), r.value, i, pos)
      ensures r.Some? && r.value.IsRefresh() ==>
        channel.refreshQ != [] && r.value == channel.refreshQ[0] && !cmdQueue.isInRef
      ensures r.Some? && cmdQueue.isInRef ==> !Reopens(r.value, channel.refreshQ[0])
      ensures channel.refreshQ != [] ==> cmdQueue.isInRef || (r.Some? && r.value.IsRefresh())
      ensures PimView() == old(PimView()).(isInRef := if channel.refreshQ == [] then old(cmdQueue.isInRef)
                                                      else !(r.Some? && r.value.IsRefresh()))
      ensures old(Hostless()) ==> Hostless() && r == RefreshWork(channel.Settings(), channel.View(), clk)
      ensures old(Hostless()) ==> !IsAccessing(r)
      ensures r == old(FetchFrom(channel.View()))
      ensures TurnFrom(old(HostView()), r)
      ensures IsRefreshing(r) <==> IsRefreshing(RefreshWork(channel.Settings(), old(channel.View()), clk))
    {
      hide Assembled, Mapped, cmdQueue.Valid, channel.Issuable, Draining, RoundRobin;
      i, pos := 0, 0;
      r := None;
      QueueIsOurs();
      if channel.IsRefreshWaiting() {
        r := TakeUpRefresh();
      }
      if r.None? {
        r, i, pos := FetchQueued();
      }
    }

    /** What a PIM command's turn comes to. */
    ghost function TurnNow(lane: Lane, c: Command, time: int): Turn
      reads this`clk, channel`history, channel`refreshQ, channel`fourAw, channel`thirtyTwoAw
    {
      TurnOf(channel.Settings(), channel.View(), lane, c, time, clk)
    }

    /** Any PIM command but a precharge is asked for before it goes; none of these requests ends the
        simulation. */
    method PimReady(c: Command, lane: Lane) returns (fires: bool)
      requires Frame() && IsPimCommand(c) && !c.kind.Precharge? && channel.geo.Has(c.Where())
      ensures fires ==> channel.Issuable(c, clk)
      ensures var a := Answered(channel.Settings(), channel.View(),
                                if c.kind.PimActivate? then Command(Probe(lane), c.addr, c.hexAddr) else c, clk);
        !a.Aborts? && (fires <==> a.Ready? && a.cmd.kind == c.kind)
    {
      hide HandOff, Mapped, cmdQueue.Valid, channel.Issuable, Draining, refresh.Valid, SpacesReadWrites, PimShaped,
        Answered;
      var ask := if c.kind.PimActivate? then Command(Probe(lane), c.addr, c.hexAddr) else c;
      var a := channel.GetReadyCommand(ask, clk);
      fires := a.Ready? && a.cmd.kind == c.kind;
    }

    /** A PIM command's turn.  One that can go now is issued, unless it is an activation and a refresh
        waits; a precharge in the weight queue is issued unasked, early or not, and any other precharge
        ends the simulation. */
    method FirePim(c: Command, time: int, lane: Lane) returns (fired: bool, exits: bool)
      requires Working() && IsPimCommand(c) && channel.geo.Has(c.Where())
      modifies this`pendingRd, this`pendingWr, this`returnQ, this`dram, channel`refreshQ, channel`fourAw,
               channel`thirtyTwoAw, channel`history, channel`early, channel.banks
      ensures exits <==> old(TurnNow(lane, c, time)).Exits?
      ensures Working() && View() == old(View()) && channel.refreshQ == old(channel.refreshQ)
      ensures fired <==> old(TurnNow(lane, c, time)).Leaves?
      ensures channel.View() == if fired then old(TurnNow(lane, c, time)).channel else old(channel.View())
      ensures channel.early ==
        old(channel.early) + if fired then SoonAt(channel.Settings(), old(channel.View()), c, clk) else {}
      ensures channel.history == old(channel.history)
              || (channel.history == old(channel.history) + [Issued(c, clk)] &&
                (channel.refreshQ != [] ==> !IsActivation(c.kind)))
    {
      hide Inv, Assembled, Mapped, cmdQueue.Valid, channel.Issuable, channel.Legal, channel.InTime, Draining,
        PimQueues, View, AfterIssue, Answered;
      exits := false;
      if c.kind.Precharge? {
        fired, exits := ForcePrecharge(c, lane);
      } else {
        fired := PimReady(c, lane);
        fired := fired && clk >= time;
        if fired && !(channel.IsRefreshWaiting() && c.kind.PimActivate?) {
          Ready(c);
          var ok := IssueFetched(c, View(), 0, 0);
        }
      }
    }

    lemma {:induction false} InGeometry(c: Command)
      requires Assembled() && channel.Wired() && channel.Issuable(c, clk) && c.IsReadWrite()
      ensures channel.geo.Has(c.Where())
    {
    }

    lemma {:induction false} Ready(c: Command)
      requires Assembled() && channel.Issuable(c, clk)
      ensures channel.Wired() && channel.Legal(c, clk) && channel.InTime(c, clk)
    {
    }

    method ForcePrecharge(c: Command, lane: Lane) returns (fired: bool, exits: bool)
      requires Working() && c.kind.Precharge? && channel.geo.Has(c.Where())
      modifies this`pendingRd, this`pendingWr, this`returnQ, this`dram, channel`refreshQ, channel`fourAw,
               channel`thirtyTwoAw, channel`history, channel`early, channel.banks
      ensures exits <==> !fired
      ensures fired <==> lane.Weights? && old(BankAt(channel.View(), c.Where())).state.Open?
      ensures Working() && View() == old(View()) && channel.refreshQ == old(channel.refreshQ)
      ensures channel.View() == if fired then AfterIssue(channel.Settings(), old(channel.View()), c, clk)
        else old(channel.View())
      ensures channel.early ==
        old(channel.early) + if fired then SoonAt(channel.Settings(), old(channel.View()), c, clk) else {}
      ensures channel.history == if fired then old(channel.history) + [Issued(c, clk)] else old(channel.history)
    {
      hide Inv, Mapped, cmdQueue.Valid, Draining, PimQueues, View, AfterIssue, refresh.Valid, SpacesReadWrites;
      Precharging(c);
      fired := lane.Weights? && channel.At(c.Where()).state.Open?;
      exits := !fired;
      if fired {
        hide Assembled;
        var ok := IssueFetched(c, View(), 0, 0);
      }
    }

    /** A precharge is legal exactly on an open bank, and on time when the bank's history says so. */
    lemma {:induction false} Precharging(c: Command)
      requires Assembled() && c.kind.Precharge? && channel.geo.Has(c.Where())
      ensures channel.Wired() && channel.At(c.Where()).View() == BankAt(channel.View(), c.Where())
      ensures channel.Legal(c, clk) <==> channel.At(c.Where()).state.Open?
      ensures channel.InTime(c, clk) <==> clk >= Horizon(channel.tables, channel.history, c.Where(), Precharge)
    {
      assert channel.Tracks(c.Where()) && c.Touches(c.Where());
    }

    /** The scheduler's commands join a PIM queue. */
    method DeliverPim(lane: Lane, cmds: seq<Command>)
      requires Valid() && PimShaped(cmds)
      modifies this`rdW, this`rdIn, this`releaseTime, this`wrQ
      ensures PimView() == Deliver(old(PimView()), lane, cmds) && View() == old(View())
      ensures rdW == old(rdW) + (if lane.Weights? then cmds else [])
      ensures wrQ == old(wrQ) + (if lane.Outputs? then cmds else [])
      ensures rdIn == old(rdIn) + (if lane.Inputs? then cmds else [])
      ensures releaseTime == old(releaseTime) + (if lane.Inputs? then Times(|cmds|, clk) else [])
      ensures Valid()
    {
      hide Inv, Assembled, Mapped, cmdQueue.Valid, Draining, HandOff;
      match lane {
        case Weights => rdW := rdW + cmds;
        case Inputs => rdIn, releaseTime := rdIn + cmds, releaseTime + Times(|cmds|, clk);
        case Outputs => wrQ := wrQ + cmds;
      }
    }

    /** The history grew from length n without an activation. */
    ghost predicate NoActivation(h: seq<Issued>, n: nat) {
      forall k :: n <= k < |h| ==> !IsActivation(h[k].cmd.kind)
    }

    /** Every PIM command that can go now leaves its queue; ok is false when one ends the simulation. */
    method DrainPim(q: seq<Command>, times: seq<int>, lane: Lane)
      returns (rest: seq<Command>, restTimes: seq<int>, ok: bool)
      requires Working() && PimShaped(q) && |times| == |q|
      modifies this`pendingRd, this`pendingWr, this`returnQ, this`dram, channel`refreshQ, channel`fourAw,
               channel`thirtyTwoAw, channel`history, channel`early, channel.banks
      ensures ok <==> old(Drain(channel.Settings(), channel.View(), lane, q, times, clk)).Some?
      ensures Working() && PimShaped(rest) && |restTimes| == |rest| <= |q|
      ensures ok ==>
        old(Drain(channel.Settings(), channel.View(), lane, q, times, clk)) ==
          Some(Drained(channel.View(), rest, restTimes))
      ensures channel.refreshQ == old(channel.refreshQ) && View() == old(View())
      ensures channel.early == old(channel.early + TooSoon(channel.Settings(), channel.View(), lane, q, times, clk))
      ensures old(channel.history) <= channel.history
      ensures channel.refreshQ != [] ==> NoActivation(channel.history, |old(channel.history)|)
    {
      hide Working, View, TurnOf, SoonAt, TooSoon;
      rest, restTimes, ok := q, times, true;
      var i := 0;
      assert rest[0..] == q && restTimes[0..] == times;
      DrainStart(channel.Settings(), channel.View(), lane, q, times, clk);
      while i < |rest|
        invariant 0 <= i <= |rest| <= |q| && |restTimes| == |rest| && PimShaped(rest)
        invariant old(Drain(channel.Settings(), channel.View(), lane, q, times, clk))
               == Prefixed(rest[..i], restTimes[..i],
                 Drain(channel.Settings(), channel.View(), lane, rest[i..], restTimes[i..], clk))
        invariant Working() && channel.refreshQ == old(channel.refreshQ) && View() == old(View())
        invariant old(channel.early + TooSoon(channel.Settings(), channel.View(), lane, q, times, clk))
               == channel.early + TooSoon(channel.Settings(), channel.View(), lane, rest[i..], restTimes[i..], clk)
        invariant old(channel.history) <= channel.history
        invariant channel.refreshQ != [] ==> NoActivation(channel.history, |old(channel.history)|)
        decreases |rest| - i
      {
        DrainStep(channel.Settings(), channel.View(), lane, rest, restTimes, i, clk);
        TooSoonStep(channel.Settings(), channel.View(), lane, rest, restTimes, i, clk);
        var fired, exits := FirePim(rest[i], restTimes[i], lane);
        if exits {
          ok := false;
          return;
        }
        if fired {
          rest, restTimes := RemoveAt(rest, i), RemoveAt(restTimes, i);
        } else {
          i := i + 1;
        }
      }
      DrainEnd(channel.Settings(), channel.View(), lane, rest, restTimes, clk);
    }

    /** The PIM part ends the simulation exactly when a precharge stands in the input or output queue, or
        the weight queue does not go through; if nothing before a precharge of the weight queue opens or
        closes its bank otherwise, that is when one finds its bank closed or a bank is precharged twice. */
    lemma {:induction false} PimGoesOn()
      requires Working()
      ensures PimPart(channel.Settings(), PimView()).Some? <==>
        Drain(channel.Settings(), channel.View(), Weights, rdW, Times(|rdW|, 0), clk).Some? && NoPrecharge(rdIn) &&
          NoPrecharge(wrQ)
      ensures Undisturbed(rdW) ==>
        (PimPart(channel.Settings(), PimView()).Some? <==>
         PrechargesOpen(channel.View(), rdW) && NoneTwice(rdW) && NoPrecharge(rdIn) && NoPrecharge(wrQ))
    {
      hide Inv, Mapped, cmdQueue.Valid, Draining, HandOff, Drain, PimPart, NoPrecharge, Undisturbed, NoneTwice,
        PrechargesOpen, refresh.Valid, SpacesReadWrites;
      channel.NeverSleeps();
      PimPartExactly(channel.Settings(), PimView());
    }

    /** New entries of the history, up to the refresh of ref if that is among them, leave its banks shut. */
    ghost predicate ShutUntil(ref: Command, h: seq<Issued>, from: nat) {
      forall k :: from <= k < |h| && Reopens(h[k].cmd, ref) ==> exists j :: from <= j < k && h[j].cmd == ref
    }

    /** The PIM part of a cycle. */
    method IssuePim() returns (ok: bool)
      requires Working()
      modifies this`pendingRd, this`pendingWr, this`returnQ, this`dram, this`rdW, this`rdIn, this`releaseTime,
               this`wrQ, channel`refreshQ, channel`fourAw, channel`thirtyTwoAw, channel`history, channel`early,
               channel.banks
      ensures Working()
      ensures Follows(PimPart(channel.Settings(), old(PimView())), ok, PimView())
      ensures channel.refreshQ == old(channel.refreshQ) && View() == old(View())
      ensures channel.early == old(channel.early + TooSoonIn(channel.Settings(), PimView()))
      ensures old(channel.history) <= channel.history
      ensures channel.refreshQ != [] ==> NoActivation(channel.history, |old(channel.history)|)
    {
      hide Working, View, WeightsPart, InputsPart, OutputsPart, NoPrecharge, PimShaped, PimView;
      ok := DrainWeights();
      if ok {
        ok := DrainInputs();
        if ok {
          ok := DrainOutputs();
        }
      }
    }

    method DrainWeights() returns (ok: bool)
      requires Working()
      modifies this`pendingRd, this`pendingWr, this`returnQ, this`dram, this`rdW, channel`refreshQ, channel`fourAw,
               channel`thirtyTwoAw, channel`history, channel`early, channel.banks
      ensures Working() && channel.refreshQ == old(channel.refreshQ) && View() == old(View())
      ensures Follows(WeightsPart(channel.Settings(), old(PimView())), ok, PimView())
      ensures channel.early == old(channel.early + TooSoonIn(channel.Settings(), PimView()))
      ensures old(channel.history) <= channel.history
      ensures channel.refreshQ != [] ==> NoActivation(channel.history, |old(channel.history)|)
    {
      hide Inv, Assembled, Mapped, cmdQueue.Valid, Draining, HandOff, Drain, NoPrecharge, NoActivation, TooSoon, View;
      var q, times;
      q, times, ok := DrainPim(rdW, Times(|rdW|, 0), Weights);
      if ok {
        rdW := q;
      }
    }

    method DrainInputs() returns (ok: bool)
      requires Working()
      modifies this`pendingRd, this`pendingWr, this`returnQ, this`dram, this`rdIn, this`releaseTime, channel`refreshQ,
               channel`fourAw, channel`thirtyTwoAw, channel`history, channel`early, channel.banks
      ensures Working() && channel.refreshQ == old(channel.refreshQ) && View() == old(View())
      ensures Follows(InputsPart(channel.Settings(), old(PimView())), ok, PimView())
      ensures channel.early == old(channel.early)
      ensures old(channel.history) <= channel.history
      ensures channel.refreshQ != [] ==> NoActivation(channel.history, |old(channel.history)|)
    {
      hide Inv, Assembled, Mapped, cmdQueue.Valid, Draining, HandOff, Drain, NoPrecharge, NoActivation, TooSoon, View;
      var q, times;
      NeverTooSoon(channel.Settings(), channel.View(), Inputs, rdIn, releaseTime, clk);
      q, times, ok := DrainPim(rdIn, releaseTime, Inputs);
      if ok {
        rdIn, releaseTime := q, times;
      }
    }

    method DrainOutputs() returns (ok: bool)
      requires Working()
      modifies this`pendingRd, this`pendingWr, this`returnQ, this`dram, this`wrQ, channel`refreshQ, channel`fourAw,
               channel`thirtyTwoAw, channel`history, channel`early, channel.banks
      ensures Working() && channel.refreshQ == old(channel.refreshQ) && View() == old(View())
      ensures Follows(OutputsPart(channel.Settings(), old(PimView())), ok, PimView())
      ensures channel.early == old(channel.early)
      ensures old(channel.history) <= channel.history
      ensures channel.refreshQ != [] ==> NoActivation(channel.history, |old(channel.history)|)
    {
      hide Inv, Assembled, Mapped, cmdQueue.Valid, Draining, HandOff, Drain, NoPrecharge, NoActivation, TooSoon, View;
      var q, times;
      NeverTooSoon(channel.Settings(), channel.View(), Outputs, wrQ, Times(|wrQ|, 0), clk);
      q, times, ok := DrainPim(wrQ, Times(|wrQ|, 0), Outputs);
      if ok {
        wrQ := q;
      }
    }

    /** The ordinary part of a cycle: the fetched command, and with dual issue a second one. */
    method IssueOrdinary(cmd: Command, ghost b: Books, ghost i: int, ghost pos: int) returns (ok: bool)
      requires Frame() && Inv(b, HomeOf()) && Taken(b, cmd, i, pos) && channel.Issuable(cmd, clk)
      requires cmdQueue.isInRef ==> !cmd.IsRefresh() && !Reopens(cmd, channel.refreshQ[0])
      requires cmd.IsRefresh() ==> channel.refreshQ != [] && cmd == channel.refreshQ[0]
      modifies this`pendingRd, this`pendingWr, this`returnQ, this`dram, channel`refreshQ, channel`fourAw,
               channel`thirtyTwoAw, channel`history, channel`early, channel.banks, cmdQueue`queues, cmdQueue`queueIdx
      ensures ok && Working()
      ensures channel.early == old(channel.early) && StuckStay(old(Loss()), Loss())
      ensures old(Hostless()) ==>
        Hostless() && channel.View() == AfterIssue(channel.Settings(), old(channel.View()), cmd, clk)
      ensures old(channel.history) + [Issued(cmd, clk)] <= channel.history
      ensures channel.refreshQ == if cmd.IsRefresh() then old(channel.refreshQ)[1..] else old(channel.refreshQ)
      ensures HostView() == WithSecond(HostRules(), Host(AfterIssue(channel.Settings(), old(channel.View()), cmd, clk),
        AfterAccess(old(View()), cmd, clk + readDelay), old(cmdQueue.queueIdx)), cmd, cmdQueue.Held(), clk)
    {
      hide Inv, Assembled, Mapped, cmdQueue.Valid, Draining, HandOff, AfterIssue, channel.Legal, channel.InTime,
        StuckStay,
        AfterAccess, View;
      Ready(cmd);
      if cmd.IsReadWrite() {
        InGeometry(cmd);
      }
      ok := IssueFetched(cmd, b, i, pos);
      ghost var mid := Loss();
      if dualCmd {
        ok := IssueSecond(cmd);
        StuckChain(old(Loss()), mid, Loss());
      }
    }

    /** A fetched read or write that meets waiting PIM commands is lost. */
    method Lose(cmd: Command, ghost b: Books, ghost i: int, ghost pos: int)
      requires Frame() && Inv(b, HomeOf()) && Taken(b, cmd, i, pos)
      modifies this`discarded
      ensures Working()
      ensures discarded == if cmd.IsReadWrite() then old(discarded) + [cmd] else old(discarded)
    {
      hide Inv, Assembled, Mapped, cmdQueue.Valid, Draining, HandOff;
      if cmd.IsReadWrite() {
        DiscardKeeps(b, HomeOf(), i, pos);
        discarded := discarded + [cmd];
      }
    }

    /** The refresh clock of a cycle: at most one request joins the back of the queue. */
    method RefreshClock()
      requires Valid()
      modifies refresh, channel`refreshQ
      ensures Working() && refresh.clk == clk + 1
      ensures old(channel.refreshQ) <= channel.refreshQ
      ensures PimView() == Requested(Plan(), old(PimView()))
    {
      hide Inv, Mapped, cmdQueue.Valid, Draining, refresh.Valid, channel.Valid, channel.Upto, SpacesReadWrites;
      RefreshCount();
      refresh.ClockTick();
    }

    lemma {:induction false} RefreshCount()
      requires refresh.Valid()
      ensures refresh.interval > 0 && Turning(refresh.channel.geo)
      ensures |refresh.requests| == Due(refresh.interval, refresh.clk)
    {
    }

    method EndCycle()
      requires Working() && refresh.clk == clk + 1
      modifies this`clk, cmdQueue`clk
      ensures Valid() && clk == old(clk) + 1 && PimView() == old(PimView()).(clk := old(clk) + 1)
    {
      hide Inv, Mapped, Draining, refresh.Valid, channel.Valid, SpacesReadWrites;
      clk := clk + 1;
      cmdQueue.clk := cmdQueue.clk + 1;
    }

    /** The second half of a cycle: a transaction moves on, and time passes. */
    method FinishCycle()
      requires Working() && refresh.clk == clk + 1
      modifies this`unifiedQ, this`readQ, this`writeBuf, this`writeDraining, cmdQueue`queues, this`clk, cmdQueue`clk
      ensures old(Hostless()) ==> Hostless()
      ensures Moves(old(View()), old(writeDraining), View(), writeDraining)
      ensures clk == old(clk) + 1 && PimView() == old(PimView()).(clk := old(clk) + 1)
      ensures Valid()
    {
      hide Working, Hostless, Moves;
      ScheduleTransaction();
      EndCycle();
    }

    /** What the issuing part of a cycle does to the refresh that waits at the front. */
    ghost predicate Served(ref: Command, from: nat, now: nat)
      reads cmdQueue`isInRef, channel`refreshQ, channel`history
    {
      && ShutUntil(ref, channel.history, from)
      && ((cmdQueue.isInRef && channel.refreshQ != [] && channel.refreshQ[0] == ref)
          || (exists j :: from <= j < |channel.history| && channel.history[j] == Issued(ref, now)))
    }

    /** The issuing part of a cycle.  It ends the simulation exactly when the PIM part runs into a
        precharge that cannot go, and it loses a transaction exactly when the PIM part runs and a read or
        write had been fetched. */
    method IssueCycle() returns (ok: bool, ghost fetched: Option<Command>)
      requires Working()
      modifies this`pendingRd, this`pendingWr, this`returnQ, this`dram, this`discarded, this`guardFrom, this`rdW,
               this`rdIn, this`releaseTime, this`wrQ, cmdQueue`refQIndices, cmdQueue`isInRef, cmdQueue`queues,
               cmdQueue`queueIdx, channel`refreshQ, channel`fourAw, channel`thirtyTwoAw, channel`history,
               channel`early, channel.banks
      ensures ok <==> (PimRuns(old(PimIdle()), fetched) ==> PimPart(channel.Settings(), old(PimView())).Some?)
      ensures discarded == AfterLoss(old(discarded), PimRuns(old(PimIdle()), fetched), fetched)
      ensures StuckStay(old(Loss()), Loss())
      ensures old(Hostless()) ==> Hostless() && Follows(Issuing(channel.Settings(), old(PimView())), ok, PimView())
      ensures old(Hostless()) ==> !IsAccessing(fetched)
      ensures PimRuns(old(PimIdle()), fetched) ==>
        Follows(PimPart(channel.Settings(), old(PimView()).(isInRef := cmdQueue.isInRef)), ok, PimView())
      ensures PimRuns(old(PimIdle()), fetched) && !IsAccessing(fetched) ==> View() == old(View())
      ensures fetched == old(FetchFrom(channel.View()))
      ensures IsRefreshing(fetched) <==> IsRefreshing(RefreshWork(channel.Settings(), old(channel.View()), clk))
      ensures channel.refreshQ == RefreshLeft(old(channel.refreshQ), fetched)
      ensures !PimRuns(old(PimIdle()), fetched) ==>
        HostView() == Turned(HostRules(), old(HostView()), fetched, clk) && PimLanes() == old(PimLanes())
      ensures fetched.Some? && !PimRuns(old(PimIdle()), fetched) ==>
        old(channel.history) + [Issued(fetched.value, clk)] <= channel.history
      ensures old(PimIdle()) ==> PimIdle()
      ensures channel.early == old(channel.early) +
        if PimRuns(old(PimIdle()), fetched) then TooSoonIn(channel.Settings(), old(PimView())) else {}
      ensures old(channel.history) <= channel.history
      ensures old(channel.refreshQ) != [] ==> Served(old(channel.refreshQ[0]), old(|channel.history|), clk)
      ensures Working()
    {
      hide Inv, Assembled, Mapped, cmdQueue.Valid, Draining, channel.Issuable, View, Taken, AfterIssue, RefreshWork,
        Drain, PimPart, NoPrecharge, PimQueues, Issuing, Hostless, Served, FetchFrom, StuckStay, WithSecond, Leave,
        AfterAccess, Turned, HostRules, TurnFrom, HostView, HandOff, PimLanes;
      ghost var b := View();
      QueuesSeen();
      ghost var i, pos;
      var cmd;
      cmd, i, pos := Fetch();
      fetched := cmd;
      if (cmd.Some? && cmd.value.IsRefresh()) || PimIdle() {
        if old(Hostless()) {
          IssuingOrdinary(channel.Settings(), old(PimView()), cmd);
        }
        ok := OrdinaryTurn(cmd, b, i, pos, old(HostView()));
      } else {
        PimPartIgnoresRefresh(channel.Settings(), old(PimView()), cmdQueue.isInRef);
        if old(Hostless()) {
          IssuingPim(channel.Settings(), old(PimView()), cmd);
        }
        ok := PimInstead(cmd, b, i, pos);
      }
    }

    /** The queues that the second fetch of a cycle leaves out. */
    lemma {:induction false} HeldRight(c: Command)
      requires HandOff() && (c.IsRefresh() ==> !cmdQueue.isInRef)
      requires channel.refreshQ != [] ==> cmdQueue.isInRef || c.IsRefresh()
      ensures cmdQueue.Held() == HeldNow(HostRules(), channel.View(), c)
    {
    }

    /** The fetched command, if there is one, is issued. */
    method OrdinaryTurn(cmd: Option<Command>, ghost b: Books, ghost i: int, ghost pos: int, ghost h: Host)
      returns (ok: bool)
      requires Frame() && Inv(b, HomeOf()) && (cmd.None? ==> View() == b) && TurnFrom(h, cmd)
      requires cmd.Some? ==> Taken(b, cmd.value, i, pos) && channel.Issuable(cmd.value, clk)
      requires cmd.Some? && cmdQueue.isInRef ==> !cmd.value.IsRefresh() && !Reopens(cmd.value, channel.refreshQ[0])
      requires cmd.Some? && cmd.value.IsRefresh() ==> channel.refreshQ != [] && cmd.value == channel.refreshQ[0]
      requires channel.refreshQ != [] ==> cmdQueue.isInRef || (cmd.Some? && cmd.value.IsRefresh())
      modifies this`pendingRd, this`pendingWr, this`returnQ, this`dram, channel`refreshQ, channel`fourAw,
               channel`thirtyTwoAw, channel`history, channel`early, channel.banks, cmdQueue`queues, cmdQueue`queueIdx
      ensures ok && channel.early == old(channel.early) && old(channel.history) <= channel.history
      ensures StuckStay(old(Loss()), Loss()) && discarded == old(discarded)
      ensures old(Hostless()) ==> Hostless()
      ensures old(Hostless()) ==> PimView() == old(PimView()).(channel :=
        if cmd.Some? then AfterIssue(channel.Settings(), old(channel.View()), cmd.value, clk) else old(channel.View()))
      ensures channel.refreshQ == RefreshLeft(old(channel.refreshQ), cmd)
      ensures cmd.Some? ==> old(channel.history) + [Issued(cmd.value, clk)] <= channel.history
      ensures HostView() == Turned(HostRules(), h, cmd, clk)
      ensures old(channel.refreshQ) != [] ==> Served(old(channel.refreshQ[0]), old(|channel.history|), clk)
      ensures Working()
    {
      hide Inv, Assembled, Mapped, cmdQueue.Valid, Draining, channel.Issuable, View, Taken, AfterIssue, PimQueues,
        Hostless, WithSecond, AfterAccess, Turned, TurnFrom;
      TurnStarts(cmd, h);
      ok := true;
      if cmd.Some? {
        ok := IssueOrdinary(cmd.value, b, i, pos);
        if cmd.value.IsRefresh() {
          assert channel.history[old(|channel.history|)] == Issued(cmd.value, clk);
        }
      }
    }

    /** The PIM part takes the place of a fetched command, which is lost. */
    method PimInstead(cmd: Option<Command>, ghost b: Books, ghost i: int, ghost pos: int) returns (ok: bool)
      requires Frame() && Inv(b, HomeOf()) && (cmd.None? ==> View() == b) && (cmd.Some? ==> Taken(b, cmd.value, i, pos))
      requires channel.refreshQ != [] ==> cmdQueue.isInRef
      modifies this`pendingRd, this`pendingWr, this`returnQ, this`dram, this`discarded, this`rdW, this`rdIn,
               this`releaseTime, this`wrQ, channel`refreshQ, channel`fourAw, channel`thirtyTwoAw, channel`history,
               channel`early, channel.banks
      ensures Follows(PimPart(channel.Settings(), old(PimView())), ok, PimView())
      ensures discarded == AfterLoss(old(discarded), true, cmd)
      ensures StuckStay(old(Loss()), Loss())
      ensures !IsAccessing(cmd) ==> View() == b
      ensures channel.refreshQ == old(channel.refreshQ)
      ensures channel.early == old(channel.early + TooSoonIn(channel.Settings(), PimView()))
      ensures old(channel.history) <= channel.history
      ensures channel.refreshQ != [] ==> Served(channel.refreshQ[0], old(|channel.history|), clk)
      ensures old(Hostless()) ==> Hostless()
      ensures Working()
    {
      hide Inv, Frame, PimPart, NoPrecharge, Hostless, Unqueue;
      StuckGrows(Loss(), Losses(AfterLoss(discarded, true, cmd), pendingRd), AfterLoss([], true, cmd));
      hide StuckStay;
      if cmd.Some? {
        Lose(cmd.value, b, i, pos);
      } else {
        assert Working();
      }
      ok := IssuePim();
    }

    /** The first half of a cycle: the refresh clock, then the commands of the cycle. */
    method BeginCycle() returns (ok: bool, ghost fetched: Option<Command>, ghost ref: Option<Command>)
      requires Valid()
      modifies this`pendingRd, this`pendingWr, this`returnQ, this`dram, this`discarded, this`guardFrom, this`rdW,
               this`rdIn, this`releaseTime, this`wrQ, cmdQueue`refQIndices, cmdQueue`isInRef, cmdQueue`queues,
               cmdQueue`queueIdx, refresh, channel`refreshQ, channel`fourAw, channel`thirtyTwoAw, channel`history,
               channel`early, channel.banks
      ensures ok <==>
        (PimRuns(old(PimIdle()), fetched) ==> PimPart(channel.Settings(), Requested(Plan(), old(PimView()))).Some?)
      ensures discarded == AfterLoss(old(discarded), PimRuns(old(PimIdle()), fetched), fetched)
      ensures StuckStay(old(Loss()), Loss())
      ensures old(Hostless()) ==>
        Hostless() && Follows(Issuing(channel.Settings(), Requested(Plan(), old(PimView()))), ok, PimView())
      ensures old(Hostless()) ==> !IsAccessing(fetched)
      ensures PimRuns(old(PimIdle()), fetched) ==>
        Follows(PimPart(channel.Settings(), Requested(Plan(), old(PimView())).(isInRef := cmdQueue.isInRef)), ok,
          PimView())
      ensures PimRuns(old(PimIdle()), fetched) && !IsAccessing(fetched) ==> View() == old(View())
      ensures !PimRuns(old(PimIdle()), fetched) ==>
        HostView() == Turned(HostRules(), old(HostNow()), fetched, clk) && PimLanes() == old(PimLanes())
      ensures fetched.Some? && !PimRuns(old(PimIdle()), fetched) ==>
        old(channel.history) + [Issued(fetched.value, clk)] <= channel.history
      ensures fetched == old(NextFetched())
      ensures IsRefreshing(fetched) <==>
        IsRefreshing(RefreshWork(channel.Settings(), Requested(Plan(), old(PimView())).channel, old(clk)))
      ensures channel.refreshQ == RefreshLeft(Requested(Plan(), old(PimView())).channel.refreshQ, fetched)
      ensures old(PimIdle()) ==> PimIdle()
      ensures channel.early == old(channel.early) +
        if PimRuns(old(PimIdle()), fetched) then TooSoonIn(channel.Settings(), Requested(Plan(), old(PimView())))
          else {}
      ensures old(channel.history) <= channel.history
      ensures ref == Front(Requested(Plan(), old(PimView())).channel.refreshQ)
      ensures old(channel.refreshQ) != [] ==> ref == Some(old(channel.refreshQ)[0])
      ensures ref.None? ==> channel.refreshQ == []
      ensures ref.Some? ==> Served(ref.value, old(|channel.history|), clk)
      ensures Working() && refresh.clk == clk + 1
    {
      hide Served, View, Working, Issuing, PimPart, Hostless, NoPrecharge, Requested, StuckStay, FetchFrom, PimRuns,
        Turned,
        HostRules;
      RefreshClock();
      ref := Front(channel.refreshQ);
      ok, fetched := IssueCycle();
    }

    /** The state the commands of the next cycle meet: the channel after the refresh clock. */
    ghost function HostNow(): Host
      reads this, cmdQueue, channel
    {
      Host(Requested(Plan(), PimView()).channel, View(), cmdQueue.queueIdx)
    }

    /** The cycle issued from h on what it fetched, and then a transaction moved on. */
    ghost predicate Hosted(h: Host, fetched: Option<Command>, now: nat, w: int)
      reads this, cmdQueue, channel
    {
      var t := Turned(HostRules(), h, fetched, now);
      channel.View() == t.channel && cmdQueue.queueIdx == t.idx && Moves(t.books, w, View(), writeDraining)
    }

    /** One cycle.  It ends the simulation exactly when the PIM part runs into a precharge that cannot go;
        otherwise every invariant holds again.  A transaction is lost exactly when the PIM part runs and
        a read or write had been fetched.  A refresh that is waiting is taken up and stays at the front
        until it is issued; until then nothing opens its banks.  Without host traffic the cycle is a
        function of the channel's own PIM side. */
    method ClockTick() returns (ok: bool, ghost fetched: Option<Command>, ghost ref: Option<Command>)
      requires Valid()
      modifies this`pendingRd, this`pendingWr, this`returnQ, this`dram, this`discarded, this`guardFrom, this`rdW,
               this`rdIn, this`releaseTime, this`wrQ, this`unifiedQ, this`readQ, this`writeBuf, this`writeDraining,
               this`clk, cmdQueue, refresh, channel`refreshQ, channel`fourAw, channel`thirtyTwoAw, channel`history,
               channel`early, channel.banks
      ensures ok <==>
        (PimRuns(old(PimIdle()), fetched) ==> PimPart(channel.Settings(), Requested(Plan(), old(PimView()))).Some?)
      ensures log == old(log) && done == old(done)
      ensures discarded == AfterLoss(old(discarded), PimRuns(old(PimIdle()), fetched), fetched)
      ensures StuckStay(old(Loss()), Loss())
      ensures ok && PimRuns(old(PimIdle()), fetched) && !IsAccessing(fetched) ==>
        Moves(old(View()), old(writeDraining), View(), writeDraining)
      ensures ok && !PimRuns(old(PimIdle()), fetched) ==>
        Hosted(old(HostNow()), fetched, old(clk), old(writeDraining)) && PimLanes() == old(PimLanes())
      ensures fetched.Some? && !PimRuns(old(PimIdle()), fetched) ==>
        old(channel.history) + [Issued(fetched.value, old(clk))] <= channel.history
      ensures ok && PimRuns(old(PimIdle()), fetched) ==>
        PimWent(channel.Settings(), Requested(Plan(), old(PimView())), PimView())
      ensures ok && PimRuns(old(PimIdle()), fetched) ==> Sends(Requested(Plan(), old(PimView())), PimView())
      ensures old(Hostless()) ==> Hostless() && Follows(Cycle(Plan(), old(PimView())), ok, PimView())
      ensures old(Hostless()) ==> !IsAccessing(fetched)
      ensures fetched == old(NextFetched())
      ensures IsRefreshing(fetched) <==>
        IsRefreshing(RefreshWork(channel.Settings(), Requested(Plan(), old(PimView())).channel, old(clk)))
      ensures channel.refreshQ == RefreshLeft(Requested(Plan(), old(PimView())).channel.refreshQ, fetched)
      ensures old(PimIdle()) ==> PimIdle()
      ensures channel.early == old(channel.early) +
        if PimRuns(old(PimIdle()), fetched) then TooSoonIn(channel.Settings(), Requested(Plan(), old(PimView())))
          else {}
      ensures old(channel.history) <= channel.history
      ensures ref == Front(Requested(Plan(), old(PimView())).channel.refreshQ)
      ensures old(channel.refreshQ) != [] ==> ref == Some(old(channel.refreshQ)[0])
      ensures ref.None? ==> channel.refreshQ == []
      ensures ref.Some? ==> Served(ref.value, old(|channel.history|), old(clk))
      ensures ok ==> Valid() && clk == old(clk) + 1
    {
      hide Served, View, Working, Issuing, PimPart, Requested, Hostless, Follows, Cycle, AfterLoss, StuckStay,
        PimRuns, NextFetched,
        PimWent, Sends, Moves, TooSoonIn, RefreshWork, RefreshLeft, Turned, HostRules, HostNow;
      QueuesPim();
      ok, fetched, ref := BeginCycle();
      if !ok {
        CycleFollows(Plan(), old(PimView()), PimView());
        return;
      }
      CycleFollows(Plan(), old(PimView()), PimView());
      if PimRuns(old(PimIdle()), fetched) {
        RequestedRest(Plan(), old(PimView()));
        WentOn(channel.Settings(), Requested(Plan(), old(PimView())), PimView());
      }
      FinishCycle();
    }

    lemma {:induction false} WriteIsFree(q: seq<Command>, pos: int)
      requires forall k :: 0 <= k < |q| ==> q[k].addr == mapping(q[k].hexAddr)
      requires 0 <= pos < |q|
      ensures q[pos].IsWrite() && !ReadBefore(q, pos) ==> FreeToWrite(q, pos)
    {
    }

    lemma {:induction false} QueuesPim()
      requires Valid()
      ensures PimOnly(channel.geo, rdW) && PimOnly(channel.geo, rdIn) && PimOnly(channel.geo, wrQ)
    {
      hide Inv, Assembled, HandOff, cmdQueue.Valid, Mapped, Draining;
    }

    lemma {:induction false} QueueIsOurs()
      requires Assembled()
      ensures cmdQueue.channel == channel && cmdQueue.clk == clk
    {
    }

    lemma {:induction false} AssembledParts(a: int)
      requires Assembled()
      ensures cmdQueue.channel == channel && channel.geo.Has(Spot(mapping(a)))
    {
    }
  }
}
