/** The whole cube: the crossbar together with the controllers of its vaults. */
module HmcCubes {
  import opened Commands
  import opened Controllers
  import opened HmcSystems
  import opened HmcVaults
  import opened Crossbars
  import Packets
  import opened MemoryBooks
  import PimCycles
  import opened HmcTrips
  import opened LoneAccess
  import opened LoneReads

  ghost function Parts(c: Controller): set<object> { {c, c.cmdQueue, c.refresh, c.channel} + c.channel.banks }

  ghost function AllParts(vs: seq<Controller>): set<object> { set i, o | 0 <= i < |vs| && o in Parts(vs[i]) :: o }

  ghost function QueuesOf(vs: seq<Controller>): set<object> { set i | 0 <= i < |vs| :: vs[i].cmdQueue }

  ghost function ChannelsOf(vs: seq<Controller>): set<object> { set i | 0 <= i < |vs| :: vs[i].channel }

  /** The vaults share nothing with each other or with the crossbar. */
  ghost predicate Separate(h: HmcSystem, vs: seq<Controller>) {
    && (forall i, j :: 0 <= i < |vs| && 0 <= j < |vs| && i != j ==> Parts(vs[i]) !! Parts(vs[j]))
    && forall i :: 0 <= i < |vs| ==> h !in Parts(vs[i])
  }

  ghost function Mine(w: Wiring, i: int): int -> bool { a => w.of(a) == i }

  /** A vault without PIM work that agrees with the crossbar about what is inside it. */
  ghost predicate Joined(h: HmcSystem, c: Controller, i: int)
    reads h`dram, Parts(c)
  {
    c.Valid() && c.PimIdle() && Agrees(h, c, Mine(h.wiring, i)) && OnlyMine(c, Mine(h.wiring, i))
  }

  ghost predicate Whole(h: HmcSystem, vs: seq<Controller>)
    reads h, AllParts(vs)
  {
    && h.Kept() && |vs| == h.wiring.vaults && Separate(h, vs)
    && forall i :: 0 <= i < |vs| ==> Joined(h, vs[i], i)
  }

  /** One vault hands back what is due. */
  method ReturnFrom(h: HmcSystem, vs: seq<Controller>, c: Controller, i: int, now: nat)
    requires Whole(h, vs) && 0 <= i < |vs| && c == vs[i]
    modifies h`table, h`quadResp, h`quadAge, h`dram, c`returnQ, c`done
    ensures NoneDue(c.returnQ, now) && Returns(old(h.BarView()), h.BarView())
    ensures NoneDue(old(c.returnQ), now) ==> c.View() == old(c.View()) && h.BarView() == old(h.BarView())
    ensures NoneDue(old(c.returnQ), now) ==> c.returnQ == old(c.returnQ) && c.done == old(c.done)
    ensures OneDue(old(c.returnQ), now) ==> c.returnQ == [] && Answers(old(h.BarView()), h.BarView(), old(c.returnQ)[0])
    ensures Whole(h, vs)
  {
    hide HmcSystem.Kept, Controller.Valid, Open, Packets.Number, Returns, Delivers, HmcSystem.BarView, Controller.View;
    assert Joined(h, vs[i], i);
    ReturnAll(h, c, Mine(h.wiring, i), now);
    forall j | 0 <= j < |vs| && j != i
      ensures Joined(h, vs[j], j)
    {
      assert old(Joined(h, vs[j], j));
      assert vs[j] in Parts(vs[j]) && c in Parts(vs[i]);
    }
  }

  /** Vault v alone has something to hand back, one access at most. */
  ghost predicate OnlyOneDue(vs: seq<Controller>, v: int, now: nat)
    reads vs
  {
    0 <= v < |vs| && forall j :: 0 <= j < |vs| ==>
      NoneDue(vs[j].returnQ, now) || (j == v && OneDue(vs[j].returnQ, now))
  }

  /** Every vault hands back what is due; those with nothing due stay as they are. */
  method ReturnFromAll(h: HmcSystem, vs: seq<Controller>, now: nat, ghost v: int)
    requires Whole(h, vs)
    modifies h`table, h`quadResp, h`quadAge, h`dram, vs`returnQ, vs`done
    ensures Returns(old(h.BarView()), h.BarView())
    ensures forall j :: 0 <= j < |vs| && NoneDue(old(vs[j].returnQ), now) ==> unchanged(vs[j])
    ensures old(OnlyOneDue(vs, v, now)) ==>
      if NoneDue(old(vs[v].returnQ), now) then h.BarView() == old(h.BarView())
      else vs[v].returnQ == [] && Answers(old(h.BarView()), h.BarView(), old(vs[v].returnQ)[0])
    ensures Whole(h, vs)
  {
    hide HmcSystem.Kept, Joined, Parts, Returns, Answers, HmcSystem.BarView, Controller.View;
    ReturnsSame(h.BarView());
    for i := 0 to |vs|
      invariant Whole(h, vs) && Returns(old(h.BarView()), h.BarView())
      invariant forall j :: 0 <= j < |vs| && (j >= i || NoneDue(old(vs[j].returnQ), now)) ==> unchanged(vs[j])
      invariant old(OnlyOneDue(vs, v, now)) ==>
        if v >= i || NoneDue(old(vs[v].returnQ), now) then h.BarView() == old(h.BarView())
        else vs[v].returnQ == [] && Answers(old(h.BarView()), h.BarView(), old(vs[v].returnQ)[0])
    {
      ApartFrom(h, vs, i);
      ghost var mid := h.BarView();
      ReturnFrom(h, vs, vs[i], i, now);
      ReturnsChain(old(h.BarView()), mid, h.BarView());
    }
  }

  /** The vaults are different controllers with different parts. */
  lemma {:induction false} ApartFrom(h: HmcSystem, vs: seq<Controller>, i: int)
    requires Whole(h, vs) && 0 <= i < |vs|
    ensures forall j :: 0 <= j < |vs| && j != i ==> vs[j] != vs[i] && Parts(vs[i]) !! Parts(vs[j])
    ensures h !in Parts(vs[i])
  {
    hide HmcSystem.Kept, Joined;
    forall j | 0 <= j < |vs| && j != i
      ensures vs[j] != vs[i]
    {
      assert vs[j] in Parts(vs[j]) && vs[i] in Parts(vs[i]);
    }
  }

  lemma {:induction false} ControllersIn(vs: seq<Controller>)
    ensures forall i :: 0 <= i < |vs| ==> vs[i] in AllParts(vs)
  {
    forall i | 0 <= i < |vs| ensures vs[i] in AllParts(vs) {
      PartOf(vs, i);
    }
  }

  lemma {:induction false} PartOf(vs: seq<Controller>, i: int)
    requires 0 <= i < |vs|
    ensures Parts(vs[i]) <= AllParts(vs) && vs[i] in AllParts(vs)
  {
    forall o | o in Parts(vs[i])
      ensures o in AllParts(vs)
    {
    }
    assert vs[i] in Parts(vs[i]);
  }

  twostate predicate Untouched(c: Controller)
    reads c, c.cmdQueue, c.channel
  {
    unchanged(c) && unchanged(c.cmdQueue) && unchanged(c.channel)
  }

  /** One vault has its cycle; without PIM work it reaches no exit. */
  method TickOne(h: HmcSystem, vs: seq<Controller>, c: Controller, i: int, ghost t: Trip, ghost ent: int)
    requires Whole(h, vs) && 0 <= i < |vs| && c == vs[i]
    modifies c, c.cmdQueue, c.refresh, c.channel`refreshQ, c.channel`fourAw, c.channel`thirtyTwoAw, c.channel`history,
             c.channel`early, c.channel.banks
    ensures c.clk == old(c.clk) + 1
    ensures c.Hosted(old(c.HostNow()), old(c.NextFetched()), old(c.clk), old(c.writeDraining))
    ensures old(Quiet(c)) ==> Quiet(c)
    ensures t.Sane() && old(Rides(t, c, ent)) ==> VaultAt(t, c, ent, false)
    ensures Whole(h, vs)
  {
    hide HmcSystem.Kept, Controller.Valid, Open, Packets.Number, Controller.NextFetched, Controller.HostNow,
      Controller.Hosted, Rides, VaultAt;
    assert Joined(h, vs[i], i);
    VaultTick(c, t, ent);
    forall j | 0 <= j < |vs| && j != i
      ensures Joined(h, vs[j], j)
    {
      assert old(Joined(h, vs[j], j));
      assert Parts(vs[j]) !! Parts(vs[i]);
    }
  }

  /** The vault has had the cycle that its queues and its channel called for. */
  twostate predicate Ticked(c: Controller)
    reads c, c.cmdQueue, c.channel
  {
    && c.clk == old(c.clk) + 1
    && c.Hosted(old(c.HostNow()), old(c.NextFetched()), old(c.clk), old(c.writeDraining))
  }

  twostate lemma {:induction false} OneCycle(c: Controller)
    requires Ticked(c)
    ensures c.clk == old(c.clk) + 1
  {
  }

  method TickAll(h: HmcSystem, vs: seq<Controller>, ghost t: Trip, ghost ent: int)
    requires Whole(h, vs)
    modifies AllParts(vs)
    ensures forall j :: 0 <= j < |vs| ==> Ticked(vs[j]) && (old(Quiet(vs[j])) ==> Quiet(vs[j]))
    ensures forall j :: 0 <= j < |vs| && t.Sane() && old(Rides(t, vs[j], ent)) ==> VaultAt(t, vs[j], ent, false)
    ensures Whole(h, vs)
  {
    hide Whole, AllParts, Controller.Hosted, Controller.HostNow, Controller.NextFetched, Rides, VaultAt, Quiet,
      Trip.Sane;
    for i := 0 to |vs|
      invariant Whole(h, vs)
      invariant forall j :: 0 <= j < i ==> Ticked(vs[j]) && (old(Quiet(vs[j])) ==> Quiet(vs[j]))
      invariant forall j :: 0 <= j < i && t.Sane() && old(Rides(t, vs[j], ent)) ==> VaultAt(t, vs[j], ent, false)
      invariant forall j :: i <= j < |vs| ==> Untouched(vs[j])
    {
      PartOf(vs, i);
      ApartFrom(h, vs, i);
      assert Untouched(vs[i]);
      TickOne(h, vs, vs[i], i, t, ent);
    }
  }

  /** The head of a quadrant's queue enters its vault. */
  method EnterOne(h: HmcSystem, vs: seq<Controller>, c: Controller, i: int, value: int)
    requires Whole(h, vs) && 0 <= i < 4 && |h.quadReq| == 4 && h.quadReq[i] != []
    requires 0 <= h.quadReq[i][0].vault < |vs| && c == vs[h.quadReq[i][0].vault]
    requires c.WillAcceptTransaction(h.quadReq[i][0].isWrite)
    requires h.quadReq[i][0].vault == h.wiring.of(h.quadReq[i][0].id)
    modifies h`quadReq, h`dram, c`pendingRd, c`pendingWr, c`unifiedQ, c`readQ, c`writeBuf, c`returnQ, c`buffered, c`log
    ensures h.quadReq == Packets.Pop(old(h.quadReq), i)
    ensures Accepted(c, old(c.View()), old(h.quadReq[i][0]), value)
    ensures forall w :: !old(c.WillAcceptTransaction(w)) ==> !c.WillAcceptTransaction(w)
    ensures Whole(h, vs)
  {
    hide HmcSystem.Kept, Controller.Valid, Open, Packets.Number, Accepted;
    ghost var v := h.quadReq[i][0].vault;
    assert Joined(h, vs[v], v);
    TakeIn(h, c, Mine(h.wiring, v), i, value);
    forall w | !old(c.WillAcceptTransaction(w)) ensures !c.WillAcceptTransaction(w) {
      StillRefuses(c, old(c.View()), old(h.quadReq[i][0]), value, w);
    }
    forall j | 0 <= j < |vs| && j != v
      ensures Joined(h, vs[j], j)
    {
      assert old(Joined(h, vs[j], j));
      assert vs[j] in Parts(vs[j]) && c in Parts(vs[v]);
    }
  }

  lemma {:induction false} HeadRouted(h: HmcSystem, vs: seq<Controller>, i: int)
    requires Whole(h, vs) && 0 <= i < 4
    ensures |h.quadReq| == |h.quadResp| == 4
    ensures h.quadReq[i] != [] ==>
      h.quadReq[i][0].vault == h.wiring.of(h.quadReq[i][0].id) && 0 <= h.quadReq[i][0].vault < |vs|
  {
    hide Joined, h.Tabled, h.Conserved, Ages, AtMost;
    assert WithinLinks(h.quadReq[i], h.wiring);
  }

  /** The head of the quadrant's queue has arrived, its response has room and its vault takes it. */
  ghost predicate MayEnter(h: HmcSystem, vs: seq<Controller>, i: int)
    reads h, vs
  {
    && Arrived(h.depth, h.logicClk, h.BarView(), i)
    && 0 <= h.quadReq[i][0].vault < |vs| && vs[h.quadReq[i][0].vault].WillAcceptTransaction(h.quadReq[i][0].isWrite)
  }

  ghost predicate Refuses(vs: seq<Controller>, p: Packets.Packet)
    reads vs
  {
    0 <= p.vault < |vs| && !vs[p.vault].WillAcceptTransaction(p.isWrite)
  }

  /** From a quadrant the head leaves exactly then; every other vault stays as it is. */
  method TryQuad(h: HmcSystem, vs: seq<Controller>, i: int, data: int -> int)
    requires Whole(h, vs) && 0 <= i < 4
    modifies h`quadReq, h`dram, vs`pendingRd, vs`pendingWr, vs`unifiedQ, vs`readQ, vs`writeBuf, vs`returnQ,
             vs`buffered, vs`log
    ensures Enters(h.depth, h.logicClk, old(h.BarView()), h.BarView(), if old(MayEnter(h, vs, i)) then {i} else {})
    ensures forall j :: 0 <= j < |vs| && !(old(MayEnter(h, vs, i)) && old(h.quadReq[i][0].vault) == j) ==>
      unchanged(vs[j])
    ensures old(MayEnter(h, vs, i)) ==>
      var p := old(h.quadReq[i][0]);
      0 <= p.vault < |vs| && Accepted(vs[p.vault], old(vs[p.vault].View()), p, data(p.id))
    ensures !old(MayEnter(h, vs, i)) && Arrived(h.depth, h.logicClk, old(h.BarView()), i) ==>
      Refuses(vs, old(h.quadReq[i][0]))
    ensures forall p: Packets.Packet :: old(Refuses(vs, p)) ==> Refuses(vs, p)
    ensures Whole(h, vs)
  {
    hide HmcSystem.Kept, Joined, Controller.WillAcceptTransaction, Accepted;
    HeadRouted(h, vs, i);
    EntersNone(h.depth, h.logicClk, h.BarView());
    if h.quadReq[i] != [] && |h.quadResp[i]| < h.depth {
      var req := h.quadReq[i][0];
      if req.exit <= h.logicClk && vs[req.vault].WillAcceptTransaction(req.isWrite) {
        ApartFrom(h, vs, req.vault);
        EnterOne(h, vs, vs[req.vault], i, data(req.id));
      }
    }
  }

  /** Of the first i quadrants the heads in takes have entered their vaults, from the state a of the crossbar and the
      books of the vaults. */
  ghost predicate EnteredFrom(h: HmcSystem, vs: seq<Controller>, a: Bar, books: seq<Books>, data: int -> int,
                              takes: set<int>,
                              i: int)
    reads h, vs, QueuesOf(vs)
  {
    && |a.ins.dst| == 4 && |books| == |vs| && Enters(h.depth, h.logicClk, a, h.BarView(), takes)
    && (forall k :: k in takes ==> 0 <= k < i)
    && (forall k :: 0 <= k < i && k !in takes ==> TurnedAway(vs, h.depth, h.logicClk, a, k))
    && forall j :: 0 <= j < |vs| ==> Took(vs[j].View(), vs[j].clk, books[j], j, a, takes, data)
  }

  lemma {:induction false} QuadsSeen(h: HmcSystem)
    ensures h.BarView().ins.dst == h.quadReq
  {
  }

  /** Quadrant i has its turn. */
  method EnterNext(h: HmcSystem, vs: seq<Controller>, i: int, data: int -> int, ghost a: Bar, ghost books: seq<Books>,
                   ghost takes: set<int>) returns (ghost more: set<int>)
    requires Whole(h, vs) && 0 <= i < 4 && EnteredFrom(h, vs, a, books, data, takes, i)
    modifies h`quadReq, h`dram, vs`pendingRd, vs`pendingWr, vs`unifiedQ, vs`readQ, vs`writeBuf, vs`returnQ,
             vs`buffered, vs`log
    ensures Whole(h, vs) && EnteredFrom(h, vs, a, books, data, takes + more, i + 1)
  {
    hide HmcSystem.Kept, Joined, Enters, Refuses, Whole, Took, AcceptedAs, Controller.View, HmcSystem.BarView;
    ghost var b := h.BarView();
    QuadsSeen(h);
    ghost var goes := MayEnter(h, vs, i);
    more := if goes then {i} else {};
    SameHead(h.depth, h.logicClk, a, b, takes, i);
    TryQuad(h, vs, i, data);
    forall k | 0 <= k < i && k !in takes
      ensures TurnedAway(vs, h.depth, h.logicClk, a, k)
    {
      assert old(TurnedAway(vs, h.depth, h.logicClk, a, k));
      if Arrived(h.depth, h.logicClk, a, k) {
        assert old(Refuses(vs, a.ins.dst[k][0]));
      }
    }
    forall j | 0 <= j < |vs|
      ensures Took(vs[j].View(), vs[j].clk, books[j], j, a, takes + more, data)
    {
      TookNext(books[j], old(vs[j].View()), vs[j].View(), vs[j].clk, j, a, takes, i, goes, data);
    }
    EntersNext(h.depth, h.logicClk, a, b, h.BarView(), takes, i, more);
  }

  /** The heads of some quadrants enter their vaults: exactly those that have arrived, whose response has room and
      whose vault takes them. */
  method QuadsToVaults(h: HmcSystem, vs: seq<Controller>, data: int -> int)
    returns (ghost takes: set<int>, ghost books: seq<Books>)
    requires Whole(h, vs)
    modifies h`quadReq, h`dram, vs`pendingRd, vs`pendingWr, vs`unifiedQ, vs`readQ, vs`writeBuf, vs`returnQ,
             vs`buffered, vs`log
    ensures |books| == |vs| && forall j :: 0 <= j < |vs| ==> books[j] == old(vs[j].View())
    ensures EnteredFrom(h, vs, old(h.BarView()), books, data, takes, 4)
    ensures Whole(h, vs)
  {
    hide HmcSystem.Kept, Joined, Whole, EnteredFrom;
    takes, books := {}, seq(|vs|, j requires 0 <= j < |vs| reads vs, QueuesOf(vs) => vs[j].View());
    NoneEntered(h, vs, books, data);
    ghost var a := h.BarView();
    for i := 0 to 4
      invariant Whole(h, vs) && EnteredFrom(h, vs, a, books, data, takes, i)
    {
      ghost var more := EnterNext(h, vs, i, data, a, books, takes);
      takes := takes + more;
    }
  }

  lemma {:induction false} NoneEntered(h: HmcSystem, vs: seq<Controller>, books: seq<Books>, data: int -> int)
    requires Whole(h, vs) && |books| == |vs| && forall j :: 0 <= j < |vs| ==> books[j] == vs[j].View()
    ensures EnteredFrom(h, vs, h.BarView(), books, data, {}, 0)
  {
    hide HmcSystem.Kept, Joined, Took, Controller.View;
    HeadRouted(h, vs, 0);
    forall j | 0 <= j < |vs| ensures Took(vs[j].View(), vs[j].clk, books[j], j, h.BarView(), {}, data) {
      TookNone(vs[j].View(), vs[j].clk, j, h.BarView(), data);
    }
  }

  /** The head of quadrant i has not arrived, its response has no room, or its vault refuses it. */
  ghost predicate TurnedAway(vs: seq<Controller>, depth: nat, clk: int, a: Bar, i: int)
    reads vs
  {
    Arrived(depth, clk, a, i) ==> Refuses(vs, a.ins.dst[i][0])
  }

  /** Responses and requests cross without touching the vaults. */
  method CrossResponses(h: HmcSystem, vs: seq<Controller>)
    requires Whole(h, vs) && h.logicClk >= 0
    modifies h`quadResp, h`linkResp, h`linkBusy, h`quadAge, h`called
    ensures Responds(h.depth, h.logicClk, old(h.BarView()), h.BarView()) && old(h.called) <= h.called
    ensures Whole(h, vs)
  {
    hide HmcSystem.Kept, Controller.Valid, Open, Cycled, Waits;
    h.DrainResponses();
    forall i | 0 <= i < |vs|
      ensures Joined(h, vs[i], i)
    {
      assert old(Joined(h, vs[i], i));
    }
  }

  method CrossRequests(h: HmcSystem, vs: seq<Controller>)
    requires Whole(h, vs) && h.logicClk >= 0
    modifies h`linkReq, h`quadReq, h`quadBusy, h`linkAge
    ensures Requests(h.depth, h.logicClk, old(h.BarView()), h.BarView())
    ensures Whole(h, vs)
  {
    hide HmcSystem.Kept, Controller.Valid, Open, Cycled, Waits;
    h.CrossRequests();
    forall i | 0 <= i < |vs|
      ensures Joined(h, vs[i], i)
    {
      assert old(Joined(h, vs[i], i));
    }
  }

  /** The cube's time passes by one logic cycle. */
  method Advance(h: HmcSystem, vs: seq<Controller>)
    requires Whole(h, vs) && h.InStep()
    modifies h`logicClk, h`logicPs
    ensures Whole(h, vs) && h.InStep() && h.logicPs == old(h.logicPs) + h.period && h.logicClk == old(h.logicClk) + 1
  {
    hide Controller.Valid, Open;
    h.Advance();
    forall i | 0 <= i < |vs|
      ensures Joined(h, vs[i], i)
    {
      assert old(Joined(h, vs[i], i));
    }
  }

  /** The request is on its way as it should be, once req, ent and res logic cycles have sent requests, let them
      enter, and sent responses; nothing else is under way in the cube. */
  ghost predicate Underway(h: HmcSystem, vs: seq<Controller>, t: Trip, req: int, ent: int, res: int)
    reads h, vs, QueuesOf(vs), ChannelsOf(vs)
  {
    && t.Sane() && t.period == h.period && t.dram == DRAM_PERIOD && h.depth > 0 && 0 <= t.req.vault < |vs|
    && req <= ent <= req + 1
    && Times(t, vs[t.req.vault], vs[t.req.vault].clk)
    && BarAt(t, h.BarView(), req, ent, res, vs[t.req.vault].clk) && VaultAt(t, vs[t.req.vault], ent, false)
    && forall j :: 0 <= j < |vs| && j != t.req.vault ==> Quiet(vs[j])
  }

  /** The vault has handed back what it had to, and is about to have its cycle. */
  ghost predicate Midway(h: HmcSystem, vs: seq<Controller>, t: Trip, req: int, ent: int, res: int, now: nat)
    reads h, vs, QueuesOf(vs), ChannelsOf(vs)
  {
    && t.Sane() && t.period == h.period && t.dram == DRAM_PERIOD && h.depth > 0 && 0 <= t.req.vault < |vs|
    && req <= ent <= req + 1 && vs[t.req.vault].clk == now && Rides(t, vs[t.req.vault], ent)
    && BarAt(t, h.BarView(), req, ent, res, now + 1)
    && forall j :: 0 <= j < |vs| && j != t.req.vault ==> Quiet(vs[j])
  }

  /** The first half of a DRAM cycle. */
  method ReturnPart(h: HmcSystem, vs: seq<Controller>, now: nat, ghost t: Trip, ghost req: int, ghost ent: int,
                    ghost res: int)
    requires Whole(h, vs)
    modifies h`table, h`quadResp, h`quadAge, h`dram, vs`returnQ, vs`done
    ensures Returns(old(h.BarView()), h.BarView())
    ensures old(Underway(h, vs, t, req, ent, res) && vs[t.req.vault].clk == now && InTurn(t, ent, res, now)) ==>
      Midway(h, vs, t, req, ent, res, now)
    ensures Whole(h, vs)
  {
    hide Whole, BarAt, VaultAt, Times, Returns, HmcSystem.BarView, Answers;
    ghost var v, a := t.req.vault, h.BarView();
    ghost var rides := Underway(h, vs, t, req, ent, res) && vs[v].clk == now && InTurn(t, ent, res, now);
    if rides {
      DueInCube(h, vs, t, ent);
    }
    ReturnFromAll(h, vs, now, v);
    if rides {
      if ent > t.Arrives() && now == t.leaves {
        QuietVault(t, vs[v], ent);
        TripReturns(t, a, h.BarView(), req, ent, res, now, old(vs[v].returnQ)[0]);
      } else {
        TripWaits(t, a, req, ent, res, now);
      }
    }
  }

  /** A DRAM cycle: the vaults return what is due, and have their own cycle. */
  method VaultCycle(h: HmcSystem, vs: seq<Controller>, now: nat, ghost t: Trip, ghost req: int, ghost ent: int,
                    ghost res: int)
    requires Whole(h, vs)
    modifies h`table, h`quadResp, h`quadAge, h`dram, AllParts(vs)
    ensures Returns(old(h.BarView()), h.BarView())
    ensures forall j :: 0 <= j < |vs| ==> vs[j].clk == old(vs[j].clk) + 1
    ensures old(Underway(h, vs, t, req, ent, res) && vs[t.req.vault].clk == now && InTurn(t, ent, res, now)) ==>
      Underway(h, vs, t, req, ent, res)
    ensures Whole(h, vs)
  {
    hide Whole, BarAt, VaultAt, Times, Returns, HmcSystem.BarView, Parts, AllParts, Rides, InTurn, Quiet, Ticked,
      Trip.Sane;
    ControllersIn(vs);
    PeriodFits(h, vs);
    ReturnPart(h, vs, now, t, req, ent, res);
    label Mid:
    TickAll(h, vs, t, ent);
    forall j | 0 <= j < |vs|
      ensures vs[j].clk == old@Mid(vs[j].clk) + 1
    {
      OneCycle@Mid(vs[j]);
    }
    if old(Underway(h, vs, t, req, ent, res) && vs[t.req.vault].clk == now && InTurn(t, ent, res, now)) {
      LaterTimes(t, vs[t.req.vault], now);
    }
  }

  lemma {:induction false} DueInCube(h: HmcSystem, vs: seq<Controller>, t: Trip, ent: int)
    requires t.Sane() && 0 <= t.req.vault < |vs| && Times(t, vs[t.req.vault], vs[t.req.vault].clk)
    requires VaultAt(t, vs[t.req.vault], ent, false) && forall j :: 0 <= j < |vs| && j != t.req.vault ==> Quiet(vs[j])
    ensures OnlyOneDue(vs, t.req.vault, vs[t.req.vault].clk)
    ensures var c := vs[t.req.vault];
      if ent > t.Arrives() && c.clk == t.leaves
      then OneDue(c.returnQ, c.clk) && c.returnQ[0].addr == t.req.id && c.pendingRd == []
      else NoneDue(c.returnQ, c.clk) && VaultAt(t, c, ent, true)
    ensures forall j :: 0 <= j < |vs| && j != t.req.vault ==> NoneDue(vs[j].returnQ, vs[t.req.vault].clk)
  {
    hide VaultAt, Times;
    DueInVault(t, vs[t.req.vault], ent);
  }

  lemma {:induction false} QuietVault(t: Trip, c: Controller, ent: int)
    requires t.Sane() && ent > t.Arrives() && c.clk == t.leaves && Quiet(c)
    ensures VaultAt(t, c, ent, true)
  {
  }

  lemma {:induction false} LaterTimes(t: Trip, c: Controller, now: nat)
    requires Times(t, c, now)
    ensures Times(t, c, now + 1)
  {
    hide ServiceAt;
  }

  /** An idle vault that nothing has entered refuses nothing. */
  lemma {:induction false} IdleAccepts(vs: seq<Controller>, v: int, p: Packets.Packet)
    requires 0 <= v < |vs| && p.vault == v && Still(vs[v].View()) && vs[v].capacity > 0
    ensures !Refuses(vs, p)
  {
  }

  /** The request that has arrived enters its idle vault, and nothing else enters any. */
  lemma {:induction false} EntersAlone(h: HmcSystem, vs: seq<Controller>, t: Trip, a: Bar, books: seq<Books>,
                                       data: int -> int,
                                       takes: set<int>, res: int, clk: int)
    requires EnteredFrom(h, vs, a, books, data, takes, 4) && t.Sane() && h.depth > 0 && 0 <= t.req.vault < |vs|
    requires h.logicClk == t.Arrives() && BarAt(t, a, h.logicClk, h.logicClk, res, clk)
    requires Still(books[t.req.vault]) && vs[t.req.vault].capacity > 0 && clk < t.leaves
    ensures takes == {t.req.quad}
    ensures AcceptedAs(vs[t.req.vault].View(), vs[t.req.vault].clk, books[t.req.vault], t.Sent(), data(t.req.id))
    ensures forall j :: 0 <= j < |vs| && j != t.req.vault ==> vs[j].View() == books[j]
  {
    hide BarAt, AcceptedAs, Refuses, Still, Controller.View;
    var q, v := t.req.quad, t.req.vault;
    ArrivesAt(t, h.depth, a, h.logicClk, h.logicClk, res, clk);
    assert forall i :: i in takes ==> Arrived(h.depth, h.logicClk, a, i) && i == q;
    assert HeadTo(a, q, v);
    if vs[v].View() == books[v] {
      IdleAccepts(vs, v, t.Sent());
    }
    assert q !in takes ==> !Visited(a, takes, v);
    assert TurnedAway(vs, h.depth, h.logicClk, a, q) || q in takes;
    assert q in takes;
    TripEnters(t, h.depth, a, h.BarView(), takes, h.logicClk, h.logicClk, res, clk);
    assert OnlyVisitor(a, takes, q, v);
  }

  /** Requests that have arrived enter their vaults. */
  method EnterPart(h: HmcSystem, vs: seq<Controller>, data: int -> int, ghost t: Trip, ghost req: int, ghost res: int)
    returns (ghost takes: set<int>)
    requires Whole(h, vs)
    modifies h`quadReq, h`dram, vs`pendingRd, vs`pendingWr, vs`unifiedQ, vs`readQ, vs`writeBuf, vs`returnQ,
             vs`buffered, vs`log
    ensures Enters(h.depth, h.logicClk, old(h.BarView()), h.BarView(), takes)
    ensures forall i :: 0 <= i < 4 && i !in takes ==> TurnedAway(vs, h.depth, h.logicClk, old(h.BarView()), i)
    ensures old(Underway(h, vs, t, req, req, res) && Punctual(vs, t, req)) && h.logicClk == req ==>
      Underway(h, vs, t, req, req + 1, res)
    ensures Whole(h, vs)
  {
    hide Whole, BarAt, Times, HmcSystem.BarView, Took, Enters, TurnedAway, Still, AcceptedAs, Inside, HeadTo;
    ghost var v, a := t.req.vault, h.BarView();
    ghost var books;
    takes, books := QuadsToVaults(h, vs, data);
    if old(Underway(h, vs, t, req, req, res) && Punctual(vs, t, req)) && h.logicClk == req {
      if req == t.Arrives() {
        RoomLater(t, vs[v], vs[v].clk);
        EntersAlone(h, vs, t, a, books, data, takes, res, vs[v].clk);
        EntersVault(t, vs[v], books[v], data(t.req.id));
      }
      TripEnters(t, h.depth, a, h.BarView(), takes, req, req, res, vs[v].clk);
      forall j | 0 <= j < |vs| && !(j == v && req == t.Arrives())
        ensures unchanged(vs[j])
      {
        if req != t.Arrives() {
          TookNothing(vs[j].View(), vs[j].clk, books[j], j, a, takes, data);
        }
      }
    }
  }

  lemma {:induction false} RoomLater(t: Trip, c: Controller, from: nat)
    requires Times(t, c, from)
    ensures c.capacity > 0 && t.Entry() < t.leaves
  {
    hide ServiceAt;
  }

  /** The logic cycle is not before the start, and the vault is in the right one when the request arrives. */
  ghost predicate Punctual(vs: seq<Controller>, t: Trip, n: int)
    requires 0 <= t.req.vault < |vs| && t.Sane()
    reads vs
  {
    n >= t.start && (n == t.Arrives() ==> vs[t.req.vault].clk == t.Entry())
  }

  /** The first half of a logic cycle: responses, and the vaults if it is their turn. */
  method BackPart(h: HmcSystem, vs: seq<Controller>, dram: bool, now: nat, ghost t: Trip) returns (ghost r: Bar)
    requires Whole(h, vs) && h.logicClk >= 0
    modifies h`dram, h`quadResp, h`linkResp, h`linkBusy, h`quadAge, h`called, h`table, AllParts(vs)
    ensures Responds(h.depth, h.logicClk, old(h.BarView()), r) && old(h.called) <= h.called
    ensures if dram then Returns(r, h.BarView()) else h.BarView() == r
    ensures forall j :: 0 <= j < |vs| ==> vs[j].clk == old(vs[j].clk) + if dram then 1 else 0
    ensures old(Riding(h, vs, t) && OnBeat(t, h.logicClk, vs[t.req.vault].clk, dram) &&
      (dram ==> now == vs[t.req.vault].clk)) ==>
      Underway(h, vs, t, h.logicClk, h.logicClk, h.logicClk + 1) && Punctual(vs, t, h.logicClk)
    ensures Whole(h, vs)
  {
    hide Whole, Responds, Returns, BarAt, VaultAt, Times, HmcSystem.BarView, Parts, AllParts;
    ghost var a, n := h.BarView(), h.logicClk;
    ghost var rides := Riding(h, vs, t) && OnBeat(t, n, vs[t.req.vault].clk, dram) &&
      (dram ==> now == vs[t.req.vault].clk);
    PeriodFits(h, vs);
    if rides {
      BeatTimes(t, n, vs[t.req.vault].clk, dram);
    }
    CrossResponses(h, vs);
    r := h.BarView();
    if rides {
      TripResponds(t, h.depth, a, r, n, n, n, vs[t.req.vault].clk);
    }
    if dram {
      VaultCycle(h, vs, now, t, n, n, n + 1);
    }
  }

  /** The second half: requests that have arrived enter their vaults, and others cross. */
  method ForthPart(h: HmcSystem, vs: seq<Controller>, data: int -> int, ghost t: Trip)
    returns (ghost e: Bar, ghost takes: set<int>)
    requires Whole(h, vs) && h.logicClk >= 0
    modifies h`linkReq, h`quadReq, h`quadBusy, h`linkAge, h`dram, vs`pendingRd, vs`pendingWr, vs`unifiedQ, vs`readQ,
             vs`writeBuf, vs`returnQ, vs`buffered, vs`log
    ensures Enters(h.depth, h.logicClk, old(h.BarView()), e, takes) && Requests(h.depth, h.logicClk, e, h.BarView())
    ensures forall i :: 0 <= i < 4 && i !in takes ==> TurnedAway(vs, h.depth, h.logicClk, old(h.BarView()), i)
    ensures var n := h.logicClk;
      old(Underway(h, vs, t, n, n, n + 1) && Punctual(vs, t, n)) ==> Underway(h, vs, t, n + 1, n + 1, n + 1)
    ensures Whole(h, vs)
  {
    hide Whole, Requests, Enters, BarAt, VaultAt, Times, TurnedAway, HmcSystem.BarView;
    ghost var n := h.logicClk;
    takes := EnterPart(h, vs, data, t, n, n + 1);
    e := h.BarView();
    CrossRequests(h, vs);
    if old(Underway(h, vs, t, n, n, n + 1) && Punctual(vs, t, n)) {
      TripRequests(t, h.depth, e, h.BarView(), n, n + 1, n + 1, vs[t.req.vault].clk);
    }
  }

  /** One logic cycle; when it coincides with a DRAM cycle the vaults come between responses and requests. */
  method LogicCycle(h: HmcSystem, vs: seq<Controller>, dram: bool, now: nat, data: int -> int, ghost t: Trip)
    returns (ghost r: Bar, ghost v: Bar, ghost e: Bar, ghost takes: set<int>)
    requires Whole(h, vs) && h.InStep()
    modifies h`linkReq, h`quadReq, h`quadBusy, h`linkAge, h`dram, h`quadResp, h`linkResp, h`linkBusy, h`quadAge,
             h`called, h`logicClk, h`logicPs, h`table, AllParts(vs)
    ensures h.InStep() && h.logicPs == old(h.logicPs) + h.period && h.logicClk == old(h.logicClk) + 1
    ensures LogicParts(h.depth, old(h.logicClk), dram, old(h.BarView()), h.BarView(), r, v, e, takes)
    ensures forall i :: 0 <= i < 4 && i !in takes ==> TurnedAway(vs, h.depth, old(h.logicClk), v, i)
    ensures old(h.called) <= h.called
    ensures forall j :: 0 <= j < |vs| ==> vs[j].clk == old(vs[j].clk) + if dram then 1 else 0
    ensures old(Riding(h, vs, t) && OnBeat(t, h.logicClk, vs[t.req.vault].clk, dram) &&
      (dram ==> now == vs[t.req.vault].clk)) ==>
      Riding(h, vs, t)
    ensures Whole(h, vs)
  {
    hide Whole, Responds, Requests, Returns, Enters, BarAt, VaultAt, Times, TurnedAway, HmcSystem.BarView, Parts,
      AllParts,
      OnBeat, Punctual, Quiet;
    PeriodFits(h, vs);
    ControllersIn(vs);
    r := BackPart(h, vs, dram, now, t);
    v := h.BarView();
    e, takes := ForthPart(h, vs, data, t);
    Advance(h, vs);
  }

  /** Between logic cycles. */
  ghost predicate Riding(h: HmcSystem, vs: seq<Controller>, t: Trip)
    reads h, vs, QueuesOf(vs), ChannelsOf(vs)
  {
    Underway(h, vs, t, h.logicClk, h.logicClk, h.logicClk) && h.logicClk >= t.start
  }

  /** At the beginning of a DRAM cycle the vault has had one cycle for each DRAM cycle before. */
  ghost predicate InTime(h: HmcSystem, vs: seq<Controller>, t: Trip)
    reads h, vs, QueuesOf(vs), ChannelsOf(vs)
  {
    Riding(h, vs, t) && vs[t.req.vault].clk == h.ticks
  }

  /** After the vaults' cycle. */
  ghost predicate Onward(h: HmcSystem, vs: seq<Controller>, t: Trip)
    reads h, vs, QueuesOf(vs), ChannelsOf(vs)
  {
    Riding(h, vs, t) && vs[t.req.vault].clk * DRAM_PERIOD == h.dramPs + DRAM_PERIOD
  }

  /** The logic cycles before the next DRAM cycle. */
  method CatchUp(h: HmcSystem, vs: seq<Controller>, now: nat, data: int -> int, ghost t: Trip)
    returns (ghost trace: seq<Bar>)
    requires Whole(h, vs) && h.InStep() && h.dramPs < h.logicPs < h.dramPs + DRAM_PERIOD + h.period
    modifies h`linkReq, h`quadReq, h`quadBusy, h`linkAge, h`dram, h`quadResp, h`linkResp, h`linkBusy, h`quadAge,
             h`called, h`logicClk, h`logicPs, h`table, AllParts(vs)
    ensures h.InStep() && h.dramPs + DRAM_PERIOD <= h.logicPs < h.dramPs + DRAM_PERIOD + h.period
    ensures old(h.called) <= h.called
    ensures trace != [] && Run(h.depth, old(h.logicClk), trace)
    ensures trace[0] == old(h.BarView()) && trace[|trace| - 1] == h.BarView()
    ensures h.logicClk == old(h.logicClk) + |trace| - 1
    ensures forall j :: 0 <= j < |vs| ==> vs[j].clk == old(vs[j].clk)
    ensures old(Onward(h, vs, t)) ==> Onward(h, vs, t)
    ensures Whole(h, vs)
  {
    hide Whole, Parts, AllParts, LogicStep, Underway, HmcSystem.BarView, OnBeat, Run, LogicParts, TurnedAway;
    PeriodFits(h, vs);
    trace := [h.BarView()];
    RunFrom(h.depth, h.logicClk, h.BarView());
    while h.logicPs < h.dramPs + DRAM_PERIOD
      invariant Whole(h, vs) && h.InStep() && h.dramPs < h.logicPs < h.dramPs + DRAM_PERIOD + h.period
      invariant old(h.called) <= h.called
      invariant trace != [] && Run(h.depth, old(h.logicClk), trace) && trace[0] == old(h.BarView())
      invariant trace[|trace| - 1] == h.BarView()
      invariant h.logicClk == old(h.logicClk) + |trace| - 1
      invariant forall j :: 0 <= j < |vs| ==> vs[j].clk == old(vs[j].clk)
      invariant old(Onward(h, vs, t)) ==> Onward(h, vs, t)
      decreases h.dramPs + DRAM_PERIOD - h.logicPs
    {
      Beating(h, vs, t);
      ghost var a, n := h.BarView(), h.logicClk;
      ghost var r, v, e, takes := LogicCycle(h, vs, false, now, data, t);
      StepOf(h.depth, n, false, a, h.BarView(), r, v, e, takes);
      RunOn(h.depth, old(h.logicClk), trace, h.BarView());
      trace := trace + [h.BarView()];
    }
  }

  /** The clocks of the trip are those of the cube. */
  lemma {:induction false} Beating(h: HmcSystem, vs: seq<Controller>, t: Trip)
    requires h.InStep()
    requires h.dramPs < h.logicPs < h.dramPs + DRAM_PERIOD
    ensures Onward(h, vs, t) ==> 0 <= t.req.vault < |vs| && OnBeat(t, h.logicClk, vs[t.req.vault].clk, false)
  {
    hide BarAt, VaultAt, Times, Quiet;
  }

  /** One DRAM cycle of the cube with the logic cycles that fall into it: one together with the vaults' cycle if they
      coincide, and then those before the next DRAM cycle. */
  method ClockTick(h: HmcSystem, vs: seq<Controller>, now: nat, data: int -> int, ghost t: Trip)
    returns (ghost trace: seq<Bar>)
    requires Whole(h, vs) && h.Clocked()
    modifies h`linkReq, h`quadReq, h`quadBusy, h`linkAge, h`dram, h`quadResp, h`linkResp, h`linkBusy, h`quadAge,
             h`called, h`logicClk, h`logicPs, h`table, h`dramPs, h`ticks, AllParts(vs)
    ensures h.Clocked() && h.ticks == old(h.ticks) + 1 && old(h.called) <= h.called
    ensures trace != [] && trace[|trace| - 1] == h.BarView()
    ensures old(h.dramPs == h.logicPs) ==>
      && LogicStep(h.depth, old(h.logicClk), true, old(h.BarView()), trace[0])
      && Run(h.depth, old(h.logicClk) + 1, trace) && h.logicClk == old(h.logicClk) + |trace|
    ensures old(h.dramPs != h.logicPs) ==>
      && Returns(old(h.BarView()), trace[0])
      && Run(h.depth, old(h.logicClk), trace) && h.logicClk == old(h.logicClk) + |trace| - 1
    ensures forall j :: 0 <= j < |vs| ==> vs[j].clk == old(vs[j].clk) + 1
    ensures old(InTime(h, vs, t) && now == vs[t.req.vault].clk) ==> InTime(h, vs, t)
    ensures Whole(h, vs)
  {
    hide Whole, Parts, AllParts, LogicStep, LogicParts, TurnedAway, Underway, HmcSystem.BarView, Run, Returns;
    PeriodFits(h, vs);
    Starting(h, vs, t);
    if h.dramPs == h.logicPs {
      ghost var a, n := h.BarView(), h.logicClk;
      ghost var r, v, e, takes := LogicCycle(h, vs, true, now, data, t);
      StepOf(h.depth, n, true, a, h.BarView(), r, v, e, takes);
    } else {
      VaultCycle(h, vs, now, t, h.logicClk, h.logicClk, h.logicClk);
    }
    trace := CatchUp(h, vs, now, data, t);
    PassTime(h, vs, t);
  }

  /** The first part of a DRAM cycle comes in turn. */
  lemma {:induction false} Starting(h: HmcSystem, vs: seq<Controller>, t: Trip)
    requires h.Clocked()
    ensures h.InStep()
    ensures InTime(h, vs, t) ==> 0 <= t.req.vault < |vs| && t.Sane() && t.period == h.period && t.dram == DRAM_PERIOD
    ensures InTime(h, vs, t) ==> if h.dramPs == h.logicPs then OnBeat(t, h.logicClk, vs[t.req.vault].clk, true)
      else InTurn(t, h.logicClk, h.logicClk, vs[t.req.vault].clk)
  {
    hide BarAt, VaultAt, Times, Quiet, InTurn;
    if InTime(h, vs, t) && h.dramPs != h.logicPs {
      assert (h.logicClk - 1) * h.period == h.logicPs - h.period;
      BeatBetween(t, h.logicClk, vs[t.req.vault].clk);
    }
  }

  method PassTime(h: HmcSystem, vs: seq<Controller>, ghost t: Trip)
    requires Whole(h, vs) && h.InStep() && h.ticks >= 0 && h.dramPs == h.ticks * DRAM_PERIOD
    requires h.dramPs + DRAM_PERIOD <= h.logicPs < h.dramPs + DRAM_PERIOD + h.period
    modifies h`dramPs, h`ticks
    ensures h.Clocked() && h.ticks == old(h.ticks) + 1
    ensures old(Riding(h, vs, t)) ==> Riding(h, vs, t)
    ensures Whole(h, vs)
  {
    hide Controller.Valid, Open, BarAt, VaultAt, Times, HmcSystem.Kept;
    h.dramPs := h.dramPs + DRAM_PERIOD;
    h.ticks := h.ticks + 1;
    forall i | 0 <= i < |vs|
      ensures Joined(h, vs[i], i)
    {
      assert old(Joined(h, vs[i], i));
    }
  }

  lemma {:induction false} PeriodFits(h: HmcSystem, vs: seq<Controller>)
    requires Whole(h, vs)
    ensures 1 <= h.period <= DRAM_PERIOD && h !in AllParts(vs)
  {
    hide Joined;
    h.PeriodInside();
  }

  /** A cube that has just been built: nothing is inside, and nothing has been accepted. */
  lemma {:induction false} StartsWhole(h: HmcSystem, vs: seq<Controller>)
    requires h.Kept() && h.dram == [] && |vs| == h.wiring.vaults && Separate(h, vs)
    requires forall i :: 0 <= i < |vs| ==> vs[i].Valid() && vs[i].PimIdle() && vs[i].log == [] && vs[i].done == []
    ensures Whole(h, vs)
  {
    hide HmcSystem.Kept, Controller.Valid;
  }
}
