/** The hybrid memory cube: links and quadrants joined by a crossbar, and two clock domains.  The vaults
    are controllers; the cycle of the whole cube is put together in `HmcCubes`. */
module HmcSystems {
  import opened AgeQueues
  import opened Arithmetic
  import opened Crossbars
  import opened Packets
  import opened Sequences
  import Commands

  const DRAM_PERIOD: int := 800

  /** The links and vaults of a cube, and the vault of each address. */
  datatype Wiring = Wiring(links: int, vaults: int, of: int -> int)
  {
    ghost predicate Good() { links >= 1 && forall a :: 0 <= of(a) < vaults }
  }

  /** A packet names a link, a quadrant and the vault of its address. */
  ghost predicate Routed(p: Packet, w: Wiring) {
    0 <= p.link < w.links && 0 <= p.quad < 4 && p.vault == w.of(p.id)
  }

  ghost predicate WithinLinks(q: seq<Packet>, w: Wiring) {
    forall i :: 0 <= i < |q| ==> Routed(q[i], w)
  }

  ghost predicate AllWithin(qs: seq<seq<Packet>>, w: Wiring) {
    forall i :: 0 <= i < |qs| ==> WithinLinks(qs[i], w)
  }

  ghost predicate AtMost(qs: seq<seq<Packet>>, depth: nat) {
    forall i :: 0 <= i < |qs| ==> |qs[i]| <= depth
  }

  ghost predicate Room(qs: seq<seq<Packet>>, depth: nat) {
    exists i :: 0 <= i < |qs| && |qs[i]| < depth
  }

  lemma {:induction false} RoomAt(qs: seq<seq<Packet>>, i: int, depth: nat)
    requires 0 <= i < |qs| && |qs[i]| < depth
    ensures Room(qs, depth)
  {
  }

  /** An age counter follows its queue: set on arrival, reset or cleared on departure, raised on a stall. */
  lemma {:induction false} AgesPush(qs: seq<seq<Packet>>, ages: seq<int>, i: int, p: Packet)
    requires Ages(qs, ages) && 0 <= i < |qs|
    ensures Ages(Push(qs, i, p), ages[i := 1])
  {
  }

  lemma {:induction false} AgesPop(qs: seq<seq<Packet>>, ages: seq<int>, i: int)
    requires Ages(qs, ages) && 0 <= i < |qs| && qs[i] != []
    ensures Ages(Pop(qs, i), ages[i := if Pop(qs, i)[i] == [] then 0 else 1])
  {
  }

  lemma {:induction false} AgesStall(qs: seq<seq<Packet>>, ages: seq<int>, i: int)
    requires Ages(qs, ages) && 0 <= i < |qs| && qs[i] != []
    ensures Ages(qs, ages[i := ages[i] + 1])
  {
  }

  lemma {:induction false} WithinPush(qs: seq<seq<Packet>>, i: int, p: Packet, w: Wiring)
    requires AllWithin(qs, w) && 0 <= i < |qs| && Routed(p, w)
    ensures AllWithin(Push(qs, i, p), w)
    ensures forall depth: nat :: AtMost(qs, depth) && |qs[i]| < depth ==> AtMost(Push(qs, i, p), depth)
  {
  }

  lemma {:induction false} WithinPop(qs: seq<seq<Packet>>, i: int, w: Wiring)
    requires AllWithin(qs, w) && 0 <= i < |qs| && qs[i] != []
    ensures AllWithin(Pop(qs, i), w) && Routed(qs[i][0], w)
    ensures forall depth: nat :: AtMost(qs, depth) ==> AtMost(Pop(qs, i), depth)
  {
    assert WithinLinks(qs[i], w);
  }

  lemma {:induction false} WithinAdd(q: seq<Packet>, p: Packet, w: Wiring)
    requires WithinLinks(q, w) && Routed(p, w)
    ensures WithinLinks(q + [p], w)
  {
  }

  /** One packet has been added, like p but on some link. */
  ghost predicate OneMore(before: seq<Packet>, after: seq<Packet>, p: Packet, links: int) {
    && |after| == |before| + 1 && after[..|before|] == before
    && 0 <= after[|before|].link < links && after[|before|] == p.(link := after[|before|].link)
  }

  function RingAt(start: int, d: int, n: int): int
    requires n >= 1
  {
    (start + d) % n
  }

  ghost predicate Full(qs: seq<seq<Packet>>, depth: nat, i: int) { 0 <= i < |qs| ==> |qs[i]| >= depth }

  class HmcSystem {
    const wiring: Wiring
    const links: int
    const depth: nat
    const period: int
    var nextLink: int
    var linkReq: seq<seq<Packet>>
    var quadReq: seq<seq<Packet>>
    var linkResp: seq<seq<Packet>>
    var quadResp: seq<seq<Packet>>
    var linkBusy: seq<int>
    var quadBusy: seq<int>
    var linkAge: seq<int>
    var quadAge: seq<int>
    var table: seq<Packet>
    var logicClk: int
    var logicPs: int
    var dramPs: int
    ghost var dram: seq<Packet>
    ghost var accepted: seq<Packet>
    ghost var called: seq<Packet>
    ghost var ticks: int

    ghost predicate Shaped()
      reads this`linkReq, this`quadReq, this`linkResp, this`quadResp, this`linkBusy, this`quadBusy, this`linkAge,
            this`quadAge, this`nextLink, this`table
    {
      && wiring.Good() && links == wiring.links && 1 <= period <= DRAM_PERIOD && 0 <= nextLink < links
      && |linkReq| == |linkResp| == |linkBusy| == |linkAge| == links &&
        |quadReq| == |quadResp| == |quadBusy| == |quadAge| == 4
      && Ages(linkReq, linkAge) && Ages(quadResp, quadAge)
      && AllWithin(linkReq, wiring) && AllWithin(quadReq, wiring) && AllWithin(linkResp, wiring) &&
        AllWithin(quadResp, wiring)
      && WithinLinks(table, wiring)
      && AtMost(linkReq, depth) && AtMost(quadReq, depth) && AtMost(linkResp, depth)
    }

    /** The response table holds exactly the requests on their way to and inside the vaults. */
    ghost predicate Tabled()
      reads this`table, this`linkReq, this`quadReq, this`dram
    {
      forall a :: Number(table, Address(a)) ==
        Total(linkReq, Address(a)) + Total(quadReq, Address(a)) + Number(dram, Address(a))
    }

    /** Every accepted request's response, told apart by address, link and kind, is in the table, in one
        of the response queues, or has been handed back. */
    ghost predicate Conserved()
      reads this`accepted, this`table, this`quadResp, this`linkResp, this`called
    {
      forall k :: Number(accepted, k) == Number(table, k) + Total(quadResp, k) + Total(linkResp, k) + Number(called, k)
    }

    /** The logic clock runs ahead of the DRAM clock by less than one of its own periods. */
    ghost predicate Clocked()
      reads this`logicClk, this`logicPs, this`dramPs, this`ticks
    {
      && ticks >= 0 && logicClk >= 0 && dramPs == ticks * DRAM_PERIOD && logicPs == logicClk * period
      && dramPs <= logicPs < dramPs + period
    }

    ghost predicate Kept()
      reads this`linkReq, this`quadReq, this`linkResp, this`quadResp, this`linkBusy, this`quadBusy, this`linkAge,
            this`quadAge, this`nextLink, this`table,
            this`dram, this`accepted, this`called
    {
      Shaped() && Tabled() && Conserved()
    }

    ghost predicate Valid()
      reads this
    {
      Kept() && Clocked()
    }

    /** The two directions of the crossbar. */
    ghost function InSide(): Side
      reads this`linkReq, this`linkAge, this`quadReq, this`quadBusy
    {
      Side(linkReq, linkAge, quadReq, quadBusy)
    }

    ghost function OutSide(): Side
      reads this`quadResp, this`quadAge, this`linkResp, this`linkBusy
    {
      Side(quadResp, quadAge, linkResp, linkBusy)
    }

    ghost function BarView(): Bar
      reads this`linkReq, this`linkAge, this`quadReq, this`quadBusy, this`quadResp, this`quadAge, this`linkResp,
            this`linkBusy, this`table, this`dram, this`called
    {
      Bar(InSide(), OutSide(), table, dram, called)
    }

    lemma {:induction false} BothWait()
      requires Shaped()
      ensures Waits(In, InSide()) && Waits(Out, OutSide())
    {
      hide AtMost;
      forall x, k | 0 <= x < |linkReq| && 0 <= k < |linkReq[x]|
        ensures 0 <= linkReq[x][k].quad < 4
      {
        assert WithinLinks(linkReq[x], wiring);
      }
      forall x, k | 0 <= x < |quadResp| && 0 <= k < |quadResp[x]|
        ensures 0 <= quadResp[x][k].link < links
      {
        assert WithinLinks(quadResp[x], wiring);
      }
    }

    constructor (wiring: Wiring, depth: nat, period: int)
      requires wiring.Good() && 1 <= period <= DRAM_PERIOD
      ensures Valid() && accepted == called == dram == [] && this.wiring == wiring && this.depth == depth
      ensures this.period == period
    {
      var links := wiring.links;
      this.wiring, this.links, this.depth, this.period := wiring, links, depth, period;
      nextLink, logicClk, logicPs, dramPs, ticks := 0, 0, 0, 0, 0;
      linkReq, linkResp := seq(links, _ => []), seq(links, _ => []);
      quadReq, quadResp := [[], [], [], []], [[], [], [], []];
      linkBusy, linkAge := seq(links, _ => 0), seq(links, _ => 0);
      quadBusy, quadAge := [0, 0, 0, 0], [0, 0, 0, 0];
      table, dram, accepted, called := [], [], [], [];
      new;
      forall k
        ensures Total(linkReq, k) == Total(quadReq, k) == Total(linkResp, k) == Total(quadResp, k) == 0
      {
        TotalEmpty(linkReq, k);
        TotalEmpty(quadReq, k);
        TotalEmpty(linkResp, k);
        TotalEmpty(quadResp, k);
      }
    }

    /** Accepted requests per address: handed back, on the way back, in the vaults, or on the way in. */
    lemma {:induction false} PerAddress(a: int)
      requires Valid()
      ensures var k := Address(a);
        Number(accepted, k) == Number(called, k) + Total(linkReq, k) + Total(quadReq, k) + Number(dram, k)
          + Total(quadResp, k) + Total(linkResp, k)
    {
    }

    /** The logic clock is the DRAM time in logic periods, rounded up. */
    lemma {:induction false} LogicClock()
      requires Valid()
      ensures logicClk == (ticks * DRAM_PERIOD + period - 1) / period
    {
      DivUnique(ticks * DRAM_PERIOD + period - 1, period, logicClk);
    }

    method WillAcceptTransaction() returns (insertable: bool)
      ensures insertable <==> Room(linkReq, depth)
    {
      insertable := false;
      for i := 0 to |linkReq|
        invariant !insertable && forall j :: 0 <= j < i ==> |linkReq[j]| >= depth
      {
        if |linkReq[i]| < depth {
          return true;
        }
      }
    }

    /** The request has joined the link, and its response the table. */
    ghost predicate Entered(qs: seq<seq<Packet>>, age: seq<int>, await: seq<Packet>, req: Packet, respFlits: int,
                            link: int)
      reads this`linkReq, this`linkAge, this`table
    {
      && Joins(qs, age, link, req.(link := link), linkReq, linkAge)
      && table == await + [req.(link := link, flits := respFlits)]
    }

    /** A request enters the queue of a link that has room, together with its awaited response. */
    method InsertReqToLink(req: Packet, respFlits: int, link: int) returns (ok: bool)
      requires Valid() && 0 <= link < links && 0 <= req.quad < 4 && req.vault == wiring.of(req.id)
      modifies this`linkReq, this`linkAge, this`table, this`accepted
      ensures Valid()
      ensures ok <==> old(|linkReq[link]|) < depth
      ensures accepted == if ok then old(accepted) + [req.(link := link, flits := respFlits)] else old(accepted)
      ensures ok ==> OneMore(old(accepted), accepted, req.(flits := respFlits), links)
      ensures !ok ==> linkReq == old(linkReq) && linkAge == old(linkAge) && table == old(table)
      ensures ok ==> Entered(old(linkReq), old(linkAge), old(table), req, respFlits, link)
    {
      hide Number, Total, Ages, AllWithin, WithinLinks, AtMost, Push, Match, One, Clocked;
      if |linkReq[link]| < depth {
        var r := req.(link := link);
        var resp := r.(flits := respFlits);
        TotalPush(linkReq, link, r);
        AgesPush(linkReq, linkAge, link, r);
        WithinPush(linkReq, link, r, wiring);
        WithinAdd(table, resp, wiring);
        SameAddress(r, resp);
        NumberPush(table, resp);
        NumberPush(accepted, resp);
        linkReq := Push(linkReq, link, r);
        table := table + [resp];
        linkAge := linkAge[link := 1];
        accepted := accepted + [resp];
        return true;
      }
      return false;
    }

    /** The links from start on, gone of them, have no room. */
    ghost predicate PassedOver(qs: seq<seq<Packet>>, start: int, gone: int) {
      forall d :: 0 <= d < gone ==> links >= 1 && Full(qs, depth, RingAt(start, d, links))
    }

    /** Starting from the next link in turn, the first link with room takes the request. */
    method InsertHMCReq(req: Packet, respFlits: int) returns (ok: bool, ghost gone: int)
      requires Valid() && 0 <= req.quad < 4 && req.vault == wiring.of(req.id)
      modifies this`linkReq, this`linkAge, this`table, this`accepted, this`nextLink
      ensures Valid()
      ensures ok <==> old(Room(linkReq, depth))
      ensures !ok ==> accepted == old(accepted) && linkReq == old(linkReq)
      ensures ok ==> 0 <= gone < links && PassedOver(old(linkReq), old(nextLink), gone)
      ensures ok ==>
        var at := RingAt(old(nextLink), gone, links);
        && 0 <= at < links && accepted == old(accepted) + [req.(link := at, flits := respFlits)]
        && Entered(old(linkReq), old(linkAge), old(table), req, respFlits, at) && nextLink == (at + 1) % links
    {
      hide Tabled, Conserved, Clocked, Ages, AllWithin, WithinLinks, AtMost, RingAt, Push, Packets.Number,
        Packets.Total, Entered, OneMore;
      FirstStep(nextLink, links);
      gone := 0;
      ok := InsertReqToLink(req, respFlits, nextLink);
      if ok {
        nextLink := (nextLink + 1) % links;
      } else {
        ok, gone := InsertElsewhere(req, respFlits);
      }
    }

    method InsertElsewhere(req: Packet, respFlits: int) returns (ok: bool, ghost gone: int)
      requires Valid() && 0 <= req.quad < 4 && req.vault == wiring.of(req.id) && |linkReq[nextLink]| >= depth
      modifies this`linkReq, this`linkAge, this`table, this`accepted, this`nextLink
      ensures Valid()
      ensures ok <==> old(Room(linkReq, depth))
      ensures !ok ==> accepted == old(accepted) && linkReq == old(linkReq)
      ensures ok ==> 0 <= gone < links && PassedOver(old(linkReq), old(nextLink), gone)
      ensures ok ==>
        var at := RingAt(old(nextLink), gone, links);
        && 0 <= at < links && accepted == old(accepted) + [req.(link := at, flits := respFlits)]
        && Entered(old(linkReq), old(linkAge), old(table), req, respFlits, at) && nextLink == (at + 1) % links
    {
      hide Tabled, Conserved, Clocked, Ages, AllWithin, WithinLinks, AtMost, RingAt, Push, Packets.Number,
        Packets.Total, Entered, OneMore, Room;
      FirstStep(nextLink, links);
      var start := nextLink;
      ok, gone := false, 1;
      nextLink := (nextLink + 1) % links;
      while start != nextLink
        invariant Valid() && linkReq == old(linkReq) && accepted == old(accepted) && !ok
        invariant linkAge == old(linkAge) && table == old(table)
        invariant 1 <= gone <= links && nextLink == RingAt(start, gone, links) && PassedOver(linkReq, start, gone)
        decreases links - gone
      {
        Turn(start, gone, links);
        ok := InsertReqToLink(req, respFlits, nextLink);
        if ok {
          RoomAt(old(linkReq), nextLink, depth);
        }
        nextLink := (nextLink + 1) % links;
        if ok {
          return;
        }
        gone := gone + 1;
      }
      Turn(start, gone, links);
      AllFull(start);
    }

    lemma {:induction false} AllFull(start: int)
      requires links == |linkReq| && 0 <= start < links && PassedOver(linkReq, start, links)
      ensures !Room(linkReq, depth)
    {
      hide RingAt;
      forall i | 0 <= i < links
        ensures |linkReq[i]| >= depth
      {
        Around(start, i, links);
        assert Full(linkReq, depth, RingAt(start, if i >= start then i - start else i - start + links, links));
      }
    }

    /** A host access becomes a packet of its block size; other block sizes are refused. */
    method AddTransaction(hexAddr: int, isWrite: bool, block: int) returns (r: Commands.Option<bool>, ghost gone: int)
      requires Valid()
      modifies this`linkReq, this`linkAge, this`table, this`accepted, this`nextLink
      ensures Valid()
      ensures r.None? <==> block !in {0, 32, 64, 128, 256}
      ensures r == Commands.Some(true) <==> block in {0, 32, 64, 128, 256} && old(Room(linkReq, depth))
      ensures r == Commands.Some(true) ==>
        var vault := wiring.of(hexAddr);
        OneMore(old(accepted), accepted, Packet(hexAddr, 0, vault % 4, vault, Flits(!isWrite, block), isWrite, 0),
          links)
      ensures r != Commands.Some(true) ==> accepted == old(accepted)
      ensures r == Commands.Some(true) ==> 0 <= gone < links && PassedOver(old(linkReq), old(nextLink), gone)
      ensures r == Commands.Some(true) ==>
        var vault := wiring.of(hexAddr);
        Entered(old(linkReq), old(linkAge), old(table),
                Packet(hexAddr, 0, vault % 4, vault, Flits(isWrite, block), isWrite, 0), Flits(!isWrite, block),
                RingAt(old(nextLink), gone, links))
    {
      hide Room, Kept, Clocked, RingAt, Entered, PassedOver;
      if block !in {0, 32, 64, 128, 256} {
        return Commands.None, 0;
      }
      LinksThere();
      var vault := wiring.of(hexAddr);
      var ok;
      ok, gone := InsertHMCReq(Packet(hexAddr, 0, vault % 4, vault, Flits(isWrite, block), isWrite, 0),
        Flits(!isWrite, block));
      r := Commands.Some(ok);
    }

    lemma {:induction false} LinksThere()
      requires Kept()
      ensures links >= 1
    {
    }

    /** The request at the head of a quadrant's queue enters its vault. */
    method EnterVault(i: int)
      requires Kept() && 0 <= i < 4 && quadReq[i] != []
      modifies this`quadReq, this`dram
      ensures Kept() && quadReq == Pop(old(quadReq), i) && dram == old(dram) + [old(quadReq[i][0])]
    {
      hide Number, Total, Ages, AllWithin, WithinLinks, AtMost, Pop, Match, One, Conserved;
      TotalPop(quadReq, i);
      WithinPop(quadReq, i, wiring);
      NumberPush(dram, quadReq[i][0]);
      dram := dram + [quadReq[i][0]];
      quadReq := Pop(quadReq, i);
    }

    /** Links are served by age; the head of each goes to its quadrant, or the link ages. */
    method LinksToQuads()
      requires Kept() && logicClk >= 0
      modifies this`linkReq, this`quadReq, this`quadBusy, this`linkAge
      ensures Kept()
      ensures var s := old(InSide());
        Waits(In, s) && Orderly(s, OrderOf(s, logicClk)) &&
        InSide() == ServeAll(In, depth, logicClk, s, OrderOf(s, logicClk))
    {
      hide Shaped, Tabled, Conserved, Served, Sized, Ages, ServeOne, NoDuplicates;
      BothWait();
      InOrder(In, InSide(), logicClk);
      AgesFit();
      var queue := BuildAgeQueue(linkAge, logicClk);
      while queue != []
        invariant Kept() && Waits(In, InSide()) && Orderly(InSide(), queue)
        invariant ServeAll(In, depth, logicClk, InSide(), queue) ==
          ServeAll(In, depth, logicClk, old(InSide()), OrderOf(old(InSide()), logicClk))
        decreases |queue|
      {
        StaysSized(In, depth, logicClk, InSide(), queue[0]);
        OrderlyRest(In, depth, logicClk, InSide(), queue);
        AgesFit();
        ServeLink(queue[0]);
        BothWait();
        queue := queue[1..];
      }
    }

    lemma {:induction false} AgesFit()
      requires Shaped()
      ensures |linkReq| == |linkAge| == links > 0 && |quadResp| == |quadAge| == 4
      ensures forall x :: 0 <= x < links && linkReq[x] != [] ==> linkAge[x] > 0
      ensures forall x :: 0 <= x < 4 && quadResp[x] != [] ==> quadAge[x] > 0
    {
    }

    method ServeLink(src: int)
      requires Kept() && 0 <= src < links && linkAge[src] > 0
      modifies this`linkReq, this`quadReq, this`quadBusy, this`linkAge
      ensures Kept()
      ensures old(Sized(In, InSide()) && linkReq[src] != []) &&
        InSide() == ServeOne(In, depth, logicClk, old(InSide()), src)
    {
      hide Number, Total, AllWithin, WithinLinks, AtMost, Match, One, Conserved;
      BothWait();
      WithinPop(linkReq, src, wiring);
      var dest := linkReq[src][0].quad;
      if |quadReq[dest]| < depth && quadBusy[dest] <= 0 {
        var req := linkReq[src][0].(exit := logicClk + linkReq[src][0].flits);
        TotalPop(linkReq, src);
        TotalPush(quadReq, dest, req);
        SameAddress(req, linkReq[src][0]);
        AgesPop(linkReq, linkAge, src);
        WithinPush(quadReq, dest, req, wiring);
        linkReq := Pop(linkReq, src);
        quadReq := Push(quadReq, dest, req);
        quadBusy := quadBusy[dest := req.flits];
        linkAge := linkAge[src := if linkReq[src] == [] then 0 else 1];
      } else {
        AgesStall(linkReq, linkAge, src);
        linkAge := linkAge[src := linkAge[src] + 1];
      }
    }

    /** The crossbar drains, and requests cross from links to quadrants. */
    method CrossRequests()
      requires Kept() && logicClk >= 0
      modifies this`linkReq, this`quadReq, this`quadBusy, this`linkAge
      ensures Kept()
      ensures old(Waits(In, InSide())) && InSide() == Cycled(In, depth, logicClk, old(InSide()))
    {
      hide Tabled, Conserved, ServeAll, Sized, Served;
      BothWait();
      quadBusy := DrainBusy(quadBusy);
      LinksToQuads();
    }

    /** Responses whose time has come are handed back. */
    method LinksToCpu()
      requires Kept()
      modifies this`linkResp, this`called
      ensures Kept() && linkResp == AfterHanding(old(linkResp), logicClk)
      ensures called == old(called) + DueHeads(old(linkResp), logicClk, old(|linkResp|))
    {
      for i := 0 to links
        invariant Kept() && called == old(called) + DueHeads(old(linkResp), logicClk, i)
        invariant forall j :: 0 <= j < links ==>
          linkResp[j] == var q := old(linkResp)[j]; if j < i && DueHead(q, logicClk) then q[1..] else q
      {
        if linkResp[i] != [] && linkResp[i][0].exit <= logicClk {
          HandBack(i);
        }
      }
    }

    method HandBack(i: int)
      requires Kept() && 0 <= i < links && linkResp[i] != []
      modifies this`linkResp, this`called
      ensures Kept() && linkResp == Pop(old(linkResp), i) && called == old(called) + [old(linkResp[i][0])]
    {
      hide Number, Total, Ages, AllWithin, WithinLinks, AtMost, Pop, Match, One, Tabled;
      TotalPop(linkResp, i);
      WithinPop(linkResp, i, wiring);
      NumberPush(called, linkResp[i][0]);
      called := called + [linkResp[i][0]];
      linkResp := Pop(linkResp, i);
    }

    method QuadsToLinks()
      requires Kept() && logicClk >= 0
      modifies this`quadResp, this`linkResp, this`linkBusy, this`quadAge
      ensures Kept()
      ensures var s := old(OutSide());
        Waits(Out, s) && Orderly(s, OrderOf(s, logicClk)) &&
        OutSide() == ServeAll(Out, depth, logicClk, s, OrderOf(s, logicClk))
    {
      hide Shaped, Tabled, Conserved, Served, Sized, Ages, ServeOne, NoDuplicates;
      BothWait();
      InOrder(Out, OutSide(), logicClk);
      AgesFit();
      var queue := BuildAgeQueue(quadAge, logicClk);
      while queue != []
        invariant Kept() && Waits(Out, OutSide()) && Orderly(OutSide(), queue)
        invariant ServeAll(Out, depth, logicClk, OutSide(), queue) ==
          ServeAll(Out, depth, logicClk, old(OutSide()), OrderOf(old(OutSide()), logicClk))
        decreases |queue|
      {
        StaysSized(Out, depth, logicClk, OutSide(), queue[0]);
        OrderlyRest(Out, depth, logicClk, OutSide(), queue);
        AgesFit();
        ServeQuad(queue[0]);
        BothWait();
        queue := queue[1..];
      }
    }

    method ServeQuad(src: int)
      requires Kept() && 0 <= src < 4 && quadAge[src] > 0
      modifies this`quadResp, this`linkResp, this`linkBusy, this`quadAge
      ensures Kept()
      ensures old(Sized(Out, OutSide()) && quadResp[src] != []) &&
        OutSide() == ServeOne(Out, depth, logicClk, old(OutSide()), src)
    {
      hide Number, Total, AllWithin, WithinLinks, AtMost, Match, One, Tabled;
      BothWait();
      WithinPop(quadResp, src, wiring);
      var dest := quadResp[src][0].link;
      if |linkResp[dest]| < depth && linkBusy[dest] <= 0 {
        var resp := quadResp[src][0].(exit := logicClk + quadResp[src][0].flits);
        TotalPop(quadResp, src);
        TotalPush(linkResp, dest, resp);
        SameKeys(resp, quadResp[src][0]);
        AgesPop(quadResp, quadAge, src);
        WithinPush(linkResp, dest, resp, wiring);
        quadResp := Pop(quadResp, src);
        linkResp := Push(linkResp, dest, resp);
        linkBusy := linkBusy[dest := resp.flits];
        quadAge := quadAge[src := if |quadResp[src]| == 0 then 0 else 1];
      } else {
        AgesStall(quadResp, quadAge, src);
        quadAge := quadAge[src := quadAge[src] + 1];
      }
    }

    method DrainResponses()
      requires Kept() && logicClk >= 0
      modifies this`quadResp, this`linkResp, this`linkBusy, this`quadAge, this`called
      ensures Kept() && called == old(called) + DueHeads(old(linkResp), logicClk, old(|linkResp|))
      ensures var s := old(OutSide()).(dst := AfterHanding(old(linkResp), logicClk));
        Waits(Out, s) && OutSide() == Cycled(Out, depth, logicClk, s)
    {
      hide Tabled, Conserved, ServeAll, Sized, Served;
      LinksToCpu();
      BothWait();
      linkBusy := DrainBusy(linkBusy);
      QuadsToLinks();
    }

    /** The packet has joined queue x, which has age 1 now. */
    static ghost predicate Joins(qs: seq<seq<Packet>>, age: seq<int>, x: int, p: Packet, rs: seq<seq<Packet>>,
                                 b: seq<int>)
    {
      |qs| == |age| && 0 <= x < |qs| && rs == Push(qs, x, p) && b == age[x := 1]
    }

    /** Response i of the table awaits the address. */
    ghost predicate Answered(table: seq<Packet>, i: int, id: int) { 0 <= i < |table| && table[i].id == id }

    /** A vault has finished an access it had taken: some awaited response for the address is found. */
    method VaultCallback(id: int)
      requires Kept() && Number(dram, Address(id)) > 0
      modifies this`table, this`quadResp, this`quadAge, this`dram
      ensures Kept()
      ensures forall a :: Number(dram, Address(a)) == old(Number(dram, Address(a))) - if a == id then 1 else 0
      ensures exists i :: Answered(old(table), i, id) && Delivers(old(BarView()), BarView(), i)
    {
      hide Number, Total, Ages, AllWithin, AtMost, Push;
      NumberFound(table, Address(id));
      NumberFound(dram, Address(id));
      var i :| 0 <= i < |table| && Match(table[i], Address(id));
      ghost var d :| 0 <= d < |dram| && Match(dram[d], Address(id));
      var resp := table[i];
      assert Answered(table, i, id);
      TotalPush(quadResp, resp.quad, resp);
      AgesPush(quadResp, quadAge, resp.quad, resp);
      WithinPush(quadResp, resp.quad, resp, wiring);
      NumberRemove(table, i);
      NumberRemove(dram, d);
      SameAddress(resp, dram[d]);
      dram := RemoveAt(dram, d);
      table := RemoveAt(table, i);
      quadResp := Push(quadResp, resp.quad, resp);
      quadAge := quadAge[resp.quad := 1];
      assert Delivers(old(BarView()), BarView(), i);
    }

    /** The logic time is the number of logic cycles times their period. */
    ghost predicate InStep()
      reads this`logicClk, this`logicPs
    {
      logicClk >= 0 && logicPs == logicClk * period
    }

    method Advance()
      requires InStep()
      modifies this`logicClk, this`logicPs
      ensures InStep() && logicPs == old(logicPs) + period && logicClk == old(logicClk) + 1
    {
      assert (logicClk + 1) * period == logicClk * period + period;
      logicPs := logicPs + period;
      logicClk := logicClk + 1;
    }

    lemma {:induction false} PeriodInside()
      requires Kept()
      ensures 1 <= period <= DRAM_PERIOD
    {
    }
  }

  /** Packet length: a header flit, and the data in 16-byte flits if the packet carries the block. */
  function Flits(carries: bool, block: int): int {
    if block == 0 then 0 else if carries then block / 16 + 1 else 1
  }

  /** The logic period in picoseconds that follows from the link's width and speed. */
  function ClockRatio(linkWidth: int, linkSpeed: int): (ps: int)
    requires 1 <= linkWidth <= 128 && linkSpeed / (128 / linkWidth) >= 1
    ensures ps == Commands.Min(DRAM_PERIOD, 1000000 / (linkSpeed / (128 / linkWidth)))
    ensures ps >= 1 <==> linkSpeed / (128 / linkWidth) <= 1000000
  {
    var logicSpeed := linkSpeed / (128 / linkWidth);
    var ps := 1000000 / logicSpeed;
    DivPositive(1000000, logicSpeed);
    if ps > DRAM_PERIOD then DRAM_PERIOD else ps
  }

  lemma {:induction false} SameKeys(p: Packet, q: Packet)
    requires p.id == q.id && p.link == q.link && p.isWrite == q.isWrite
    ensures forall k :: One(p, k) == One(q, k)
  {
  }

  lemma {:induction false} SameAddress(p: Packet, q: Packet)
    requires p.id == q.id
    ensures forall a :: One(p, Address(a)) == One(q, Address(a))
  {
  }

  lemma {:induction false} FirstStep(start: int, n: int)
    requires 0 <= start < n
    ensures RingAt(start, 0, n) == start && 0 <= (start + 1) % n < n && (start + 1) % n == RingAt(start, 1, n)
  {
    DivUnique(start, n, 0);
  }

  /** Walking round a ring of n from start, one comes back to start exactly after n steps. */
  lemma {:induction false} Turn(start: int, gone: int, n: int)
    requires 0 <= start < n && 1 <= gone <= n
    ensures RingAt(start, gone, n) == start <==> gone == n
    ensures 0 <= RingAt(start, gone, n) < n && (RingAt(start, gone, n) + 1) % n == RingAt(start, gone + 1, n)
  {
    var s := start + gone;
    if s < n {
      DivUnique(s, n, 0);
    } else {
      DivUnique(s, n, 1);
    }
    DivUnique(s + 1, n, if s + 1 < n then 0 else if s + 1 < n + n then 1 else 2);
    DivUnique(s % n + 1, n, if s % n + 1 < n then 0 else 1);
  }

  lemma {:induction false} Around(start: int, i: int, n: int)
    requires 0 <= start < n && 0 <= i < n
    ensures RingAt(start, if i >= start then i - start else i - start + n, n) == i
  {
    if i >= start {
      DivUnique(i, n, 0);
    } else {
      DivUnique(i + n, n, 1);
    }
  }
}
