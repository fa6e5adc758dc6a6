/** A vault of the memory cube is a memory controller: what the cube records as being inside the vault
    is what the controller has accepted and not yet returned. */
module HmcVaults {
  import opened Commands
  import opened Sequences
  import opened MemoryBooks
  import opened Controllers
  import Packets
  import opened HmcSystems
  import opened Crossbars

  function Asks(a: int): Request -> bool { (r: Request) => r.addr == a }
  function Names(a: int): Transaction -> bool { (t: Transaction) => t.addr == a }

  /** Accesses to a that a controller has accepted and not yet returned. */
  function Open(log: seq<Request>, done: seq<Transaction>, a: int): int { Count(log, Asks(a)) - Count(done, Names(a)) }

  ghost predicate TagsDiffer(q: seq<Transaction>) { forall i, j :: 0 <= i < j < |q| ==> q[i].tag != q[j].tag }

  ghost predicate TagsName(q: seq<Transaction>, log: seq<Request>) {
    forall i :: 0 <= i < |q| ==> q[i].tag < |log| && log[q[i].tag].addr == q[i].addr
  }

  /** Transactions with different tags are at most as many, for each address, as the log has. */
  lemma {:induction false} NoMoreThanLogged(q: seq<Transaction>, log: seq<Request>, a: int)
    requires TagsDiffer(q) && TagsName(q, log)
    ensures Count(q, Names(a)) <= Count(log, Asks(a))
    decreases |log|
  {
    if log == [] {
      assert q == [];
    } else {
      var n := |log| - 1;
      var front := log[..n];
      assert log == front + [log[n]];
      CountAppend(front, log[n], Asks(a));
      if i :| 0 <= i < |q| && q[i].tag == n {
        CountRemove(q, i, Names(a));
        NoMoreThanLogged(RemoveAt(q, i), front, a);
      } else {
        NoMoreThanLogged(q, front, a);
      }
    }
  }

  /** A controller never returns more than it accepted. */
  lemma {:induction false} OpenCount(b: Books, home: Home, a: int)
    requires Inv(b, home)
    ensures Open(b.log, b.done, a) >= 0
  {
    forall i, j | 0 <= i < j < |b.done|
      ensures b.done[i].tag != b.done[j].tag
    {
      ReturnedOnce(b, home, i, j);
    }
    assert TagsName(b.done, b.log) by {
      assert forall i :: 0 <= i < |b.done| ==> Faithful(b, b.done[i]);
    }
    NoMoreThanLogged(b.done, b.log, a);
  }

  /** For the addresses of this vault, the cube and the controller agree on what is inside. */
  ghost predicate Agrees(h: HmcSystem, c: Controller, mine: int -> bool)
    reads h`dram, c`log, c`done
  {
    forall a :: mine(a) ==> Packets.Number(h.dram, Packets.Address(a)) == Open(c.log, c.done, a)
  }

  /** The cube's record for the other vaults' addresses is not touched. */
  twostate predicate OthersKept(h: HmcSystem, mine: int -> bool)
    reads h`dram
  {
    forall a :: !mine(a) ==>
      Packets.Number(h.dram, Packets.Address(a)) == old(Packets.Number(h.dram, Packets.Address(a)))
  }

  ghost predicate OnlyMine(c: Controller, mine: int -> bool)
    reads c`log
  {
    forall i :: 0 <= i < |c.log| ==> mine(c.log[i].addr)
  }

  /** What the controller has just returned is what the cube has inside. */
  lemma {:induction false} ReturnedIsInside(c: Controller, before: seq<Transaction>, t: Transaction, mine: int -> bool)
    requires c.Valid() && OnlyMine(c, mine) && c.done == before + [t]
    ensures mine(t.addr) && Open(c.log, before, t.addr) >= 1
    ensures forall a :: Open(c.log, c.done, a) == Open(c.log, before, a) - if a == t.addr then 1 else 0
  {
    hide c.Frame, Sorted, Homed, Balanced, Ordered, Conserved;
    OpenCount(c.View(), c.HomeOf(), t.addr);
    assert c.done[|before|] == t && Faithful(c.View(), c.done[|before|]);
    forall a ensures Open(c.log, c.done, a) == Open(c.log, before, a) - if a == t.addr then 1 else 0 {
      CountAppend(before, t, Names(a));
    }
  }

  /** The vault hands back everything whose time has come; each is found in the response table. */
  method ReturnAll(h: HmcSystem, c: Controller, ghost mine: int -> bool, now: nat)
    requires h.Kept() && c.Valid() && Agrees(h, c, mine) && OnlyMine(c, mine)
    modifies h`table, h`quadResp, h`quadAge, h`dram, c`returnQ, c`done
    ensures h.Kept() && c.Valid() && Agrees(h, c, mine) && OthersKept(h, mine)
    ensures NoneDue(c.returnQ, now) && Returns(old(h.BarView()), h.BarView())
    ensures NoneDue(old(c.returnQ), now) ==>
      c.View() == old(c.View()) && c.returnQ == old(c.returnQ) && c.done == old(c.done) &&
        h.BarView() == old(h.BarView())
    ensures OneDue(old(c.returnQ), now) ==> c.returnQ == [] && Answers(old(h.BarView()), h.BarView(), old(c.returnQ)[0])
  {
    hide h.Kept, c.Valid, Open, Packets.Number, Returns, Delivers, Controller.View, HmcSystem.BarView;
    var more := true;
    ReturnsSame(h.BarView());
    while more
      invariant h.Kept() && c.Valid() && Agrees(h, c, mine) && OthersKept(h, mine)
      invariant !more ==> NoneDue(c.returnQ, now)
      invariant Returns(old(h.BarView()), h.BarView())
      invariant NoneDue(old(c.returnQ), now) ==>
        c.View() == old(c.View()) && h.BarView() == old(h.BarView()) && c.returnQ == old(c.returnQ) &&
          c.done == old(c.done)
      invariant OneDue(old(c.returnQ), now) ==>
        if c.returnQ == [] then Answers(old(h.BarView()), h.BarView(), old(c.returnQ)[0])
        else h.BarView() == old(h.BarView()) && c.returnQ == old(c.returnQ) && more
      decreases more, |c.returnQ|
    {
      ghost var mid := h.BarView();
      more := ReturnNext(h, c, mine, now);
      ReturnsChain(old(h.BarView()), mid, h.BarView());
    }
  }

  ghost predicate NoneDue(q: seq<Transaction>, now: nat) { forall k :: 0 <= k < |q| ==> q[k].completeCycle > now }

  ghost predicate OneDue(q: seq<Transaction>, now: nat) { |q| == 1 && q[0].completeCycle <= now }

  /** The response for the transaction has moved to the queue of its quadrant. */
  ghost predicate Answers(a: Bar, b: Bar, t: Transaction) {
    exists i :: 0 <= i < |a.table| && a.table[i].id == t.addr && Delivers(a, b, i)
  }

  lemma {:induction false} ReturnsSame(a: Bar)
    ensures Returns(a, a)
  {
  }

  /** The next transaction whose time has come, if there is one. */
  method ReturnNext(h: HmcSystem, c: Controller, ghost mine: int -> bool, now: nat) returns (more: bool)
    requires h.Kept() && c.Valid() && Agrees(h, c, mine) && OnlyMine(c, mine)
    modifies h`table, h`quadResp, h`quadAge, h`dram, c`returnQ, c`done
    ensures h.Kept() && c.Valid() && Agrees(h, c, mine)
    ensures forall a :: !mine(a) ==>
      Packets.Number(h.dram, Packets.Address(a)) == old(Packets.Number(h.dram, Packets.Address(a)))
    ensures !more ==>
      && NoneDue(c.returnQ, now) && c.View() == old(c.View()) && c.returnQ == old(c.returnQ) && c.done == old(c.done)
      && h.BarView() == old(h.BarView())
    ensures more ==> |c.returnQ| < old(|c.returnQ|)
    ensures more ==>
      exists k :: c.FirstDue(old(c.returnQ), now, k) && c.returnQ == RemoveAt(old(c.returnQ), k)
                  && Answers(old(h.BarView()), h.BarView(), old(c.returnQ)[k])
    ensures Returns(old(h.BarView()), h.BarView())
  {
    hide h.Kept, c.Valid, Open, Packets.Number, Delivers, Returns;
    ReturnsSame(h.BarView());
    ghost var before := c.done;
    var r := c.ReturnDoneTrans(now);
    match r {
      case None =>
        more := false;
      case Some(t) =>
        more := true;
        ReturnedIsInside(c, before, t, mine);
        h.VaultCallback(t.addr);
        ghost var i :| h.Answered(old(h.table), i, t.addr) && Delivers(old(h.BarView()), h.BarView(), i);
        DeliversReturns(old(h.BarView()), h.BarView(), i);
    }
  }

  /** The vault has accepted the request. */
  ghost predicate Accepted(c: Controller, b: Books, p: Packets.Packet, value: int)
    reads c`clk, c`unifiedQ, c`readQ, c`writeBuf, c.cmdQueue`queues, c`discarded, c`pendingRd, c`pendingWr, c`returnQ,
          c`done, c`log, c`buffered, c`dram
  {
    AcceptedAs(c.View(), c.clk, b, p, value)
  }

  ghost predicate AcceptedAs(after: Books, clk: nat, b: Books, p: Packets.Packet, value: int) {
    after == if p.isWrite then AcceptWrite(b, Transaction(p.id, true, clk, 0, |b.log|, value), clk + 1)
             else AcceptRead(b, Transaction(p.id, false, clk, 0, |b.log|, 0), clk + 1)
  }

  /** The books of vault j once the heads in takes have entered their vaults: the same if none was for it, and with
      the request accepted if a single one was. */
  ghost predicate Took(after: Books, clk: nat, b: Books, j: int, a: Bar, takes: set<int>, data: int -> int) {
    && (!Visited(a, takes, j) ==> after == b)
    && forall i :: OnlyVisitor(a, takes, i, j) ==>
         var p := a.ins.dst[i][0]; AcceptedAs(after, clk, b, p, data(p.id))
  }

  lemma {:induction false} TookNone(b: Books, clk: nat, j: int, a: Bar, data: int -> int)
    ensures Took(b, clk, b, j, a, {}, data)
  {
  }

  lemma {:induction false} TookNothing(after: Books, clk: nat, b: Books, j: int, a: Bar, takes: set<int>,
                                       data: int -> int)
    requires Took(after, clk, b, j, a, takes, data) && forall i :: i in takes ==> !HeadTo(a, i, j)
    ensures after == b
  {
  }

  lemma {:induction false} TookNext(b: Books, mid: Books, after: Books, clk: nat, j: int, a: Bar, takes: set<int>,
                                    i: int,
                                    goes: bool, data: int -> int)
    requires Took(mid, clk, b, j, a, takes, data) && i !in takes
    requires if goes && HeadTo(a, i, j)
             then var p := a.ins.dst[i][0]; AcceptedAs(after, clk, mid, p, data(p.id))
             else after == mid
    ensures Took(after, clk, b, j, a, takes + if goes then {i} else {}, data)
  {
    hide AcceptedAs;
    VisitedNext(a, takes, i, j);
    if !goes {
      assert takes + {} == takes;
    }
  }

  /** A vault that refuses goes on refusing when it accepts something else. */
  lemma {:induction false} StillRefuses(c: Controller, b: Books, p: Packets.Packet, value: int, w: bool)
    requires Accepted(c, b, p, value) && b.unified == c.unified
    requires !if b.unified then |b.unifiedQ| < c.capacity else if !w then |b.readQ| < c.capacity
      else |b.writeBuf| < c.capacity
    ensures !c.WillAcceptTransaction(w)
  {
  }

  /** The request at the head of a quadrant's queue enters a vault that has room for it. */
  method TakeIn(h: HmcSystem, c: Controller, ghost mine: int -> bool, i: int, value: int)
    requires h.Kept() && c.Valid() && Agrees(h, c, mine) && OnlyMine(c, mine)
    requires 0 <= i < 4 && h.quadReq[i] != [] && mine(h.quadReq[i][0].id)
    requires c.WillAcceptTransaction(h.quadReq[i][0].isWrite)
    modifies h`quadReq, h`dram, c`pendingRd, c`pendingWr, c`unifiedQ, c`readQ, c`writeBuf, c`returnQ, c`buffered, c`log
    ensures h.quadReq == Packets.Pop(old(h.quadReq), i) && h.dram == old(h.dram) + [old(h.quadReq[i][0])]
    ensures Accepted(c, old(c.View()), old(h.quadReq[i][0]), value)
    ensures h.Kept() && c.Valid() && Agrees(h, c, mine) && OnlyMine(c, mine) && OthersKept(h, mine)
  {
    hide c.Valid, h.Tabled, h.Conserved, Packets.Number, AtMost, Ages, AcceptRead, AcceptWrite, AllWithin;
    var p := h.quadReq[i][0];
    Packets.NumberPush(h.dram, p);
    ghost var log, b := c.log, c.View();
    h.EnterVault(i);
    c.AddTransaction(p.id, p.isWrite, value);
    OneLogged(c.View(), c.clk, b, p, value);
    LogGrows(log, c.log[|log|], p.id);
  }

  lemma {:induction false} OneLogged(after: Books, clk: nat, b: Books, p: Packets.Packet, value: int)
    requires AcceptedAs(after, clk, b, p, value)
    ensures |after.log| == |b.log| + 1 && after.log == b.log + [after.log[|b.log|]] && after.log[|b.log|].addr == p.id
    ensures after.done == b.done
  {
  }

  lemma {:induction false} LogGrows(log: seq<Request>, r: Request, a: int)
    requires r.addr == a
    ensures forall b :: Count(log + [r], Asks(b)) == Count(log, Asks(b)) + if a == b then 1 else 0
  {
    forall b ensures Count(log + [r], Asks(b)) == Count(log, Asks(b)) + if a == b then 1 else 0 {
      CountAppend(log, r, Asks(b));
    }
  }
}
