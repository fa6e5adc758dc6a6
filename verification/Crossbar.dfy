/** The crossbar as a value: what one logic cycle moves from links to quadrants and back. */
module Crossbars {
  import opened AgeQueues
  import opened Packets
  import opened Sequences

  /** One direction: the queues served, their ages, the queues they lead to, and whether those are busy. */
  datatype Side = Side(src: seq<seq<Packet>>, age: seq<int>, dst: seq<seq<Packet>>, busy: seq<int>)

  ghost predicate Ages(qs: seq<seq<Packet>>, ages: seq<int>) {
    |qs| == |ages| && forall i :: 0 <= i < |qs| ==> ages[i] >= 0 && (ages[i] > 0 <==> qs[i] != [])
  }

  datatype Way = In | Out

  /** Requests go to the quadrant of the packet, responses to its link. */
  function Goal(way: Way, p: Packet): int { if way.In? then p.quad else p.link }

  /** Everything waits where it can be served. */
  ghost predicate Sized(way: Way, s: Side) {
    && |s.src| == |s.age| && |s.dst| == |s.busy|
    && forall x, k :: 0 <= x < |s.src| && 0 <= k < |s.src[x]| ==> 0 <= Goal(way, s.src[x][k]) < |s.dst|
  }

  /** The goal can take a packet. */
  predicate Free(s: Side, depth: nat, d: int)
    requires |s.dst| == |s.busy| && 0 <= d < |s.dst|
  {
    |s.dst[d]| < depth && s.busy[d] <= 0
  }

  /** Queue x is served: its head crosses, or it has to wait and ages. */
  function ServeOne(way: Way, depth: nat, clk: int, s: Side, x: int): Side
    requires Sized(way, s) && 0 <= x < |s.src| && s.src[x] != []
  {
    var p := s.src[x][0];
    var d := Goal(way, p);
    if Free(s, depth, d) then
      Side(Pop(s.src, x), s.age[x := if |s.src[x]| == 1 then 0 else 1],
           Push(s.dst, d, p.(exit := clk + p.flits)), s.busy[d := p.flits])
    else s.(age := s.age[x := s.age[x] + 1])
  }

  lemma {:induction false} StaysSized(way: Way, depth: nat, clk: int, s: Side, x: int)
    requires Sized(way, s) && 0 <= x < |s.src| && s.src[x] != []
    ensures var r := ServeOne(way, depth, clk, s, x);
      Sized(way, r) && |r.src| == |s.src| && |r.dst| == |s.dst| && forall y :: 0 <= y < |s.src| && y != x ==>
        r.src[y] == s.src[y] && r.age[y] == s.age[y]
  {
    var r := ServeOne(way, depth, clk, s, x);
    forall y, k | 0 <= y < |r.src| && 0 <= k < |r.src[y]|
      ensures 0 <= Goal(way, r.src[y][k]) < |r.dst|
    {
      assert r.src[y][k] == s.src[y][if y == x && r.src != s.src then k + 1 else k];
    }
  }

  /** The queues to be served are there, each once, and none is empty. */
  ghost predicate Orderly(s: Side, order: seq<int>) {
    NoDuplicates(order) && forall i :: 0 <= i < |order| ==> 0 <= order[i] < |s.src| && s.src[order[i]] != []
  }

  lemma {:induction false} OrderlyRest(way: Way, depth: nat, clk: int, s: Side, order: seq<int>)
    requires Sized(way, s) && Orderly(s, order) && order != []
    ensures Orderly(ServeOne(way, depth, clk, s, order[0]), order[1..])
  {
    StaysSized(way, depth, clk, s, order[0]);
    var r, rest := ServeOne(way, depth, clk, s, order[0]), order[1..];
    forall i | 0 <= i < |rest|
      ensures 0 <= rest[i] < |r.src| && r.src[rest[i]] != []
    {
      assert rest[i] == order[i + 1] && order[i + 1] != order[0];
    }
  }

  /** They are served one after the other. */
  ghost function ServeAll(way: Way, depth: nat, clk: int, s: Side, order: seq<int>): Side
    requires Sized(way, s) && Orderly(s, order)
    decreases |order|
  {
    if order == [] then s
    else
      StaysSized(way, depth, clk, s, order[0]);
      OrderlyRest(way, depth, clk, s, order);
      ServeAll(way, depth, clk, ServeOne(way, depth, clk, s, order[0]), order[1..])
  }

  /** The head of queue x is bound for d. */
  predicate HeadsFor(way: Way, s: Side, x: int, d: int) {
    0 <= x < |s.src| && s.src[x] != [] && Goal(way, s.src[x][0]) == d
  }

  /** The first of the queues whose head is bound for d. */
  ghost predicate FirstFor(way: Way, s: Side, order: seq<int>, d: int, i: int) {
    0 <= i < |order| && HeadsFor(way, s, order[i], d) && forall j :: 0 <= j < i ==> !HeadsFor(way, s, order[j], d)
  }

  ghost predicate NoneFor(way: Way, s: Side, order: seq<int>, d: int) {
    forall i :: 0 <= i < |order| ==> !HeadsFor(way, s, order[i], d)
  }

  /** Queue x has had its turn in vain. */
  ghost predicate Stalled(s: Side, r: Side, x: int)
    requires |s.src| == |s.age| == |r.src| == |r.age| && 0 <= x < |s.src|
  {
    r.src[x] == s.src[x] && r.age[x] == s.age[x] + 1
  }

  /** The head of queue x has crossed to d. */
  ghost predicate Crossed(s: Side, r: Side, x: int, d: int, clk: int)
    requires |s.src| == |s.age| == |r.src| == |r.age| && 0 <= x < |s.src| && s.src[x] != []
    requires |s.dst| == |s.busy| == |r.dst| == |r.busy| && 0 <= d < |s.dst|
  {
    var p := s.src[x][0];
    && r.src[x] == s.src[x][1..] && r.age[x] == (if |s.src[x]| == 1 then 0 else 1)
    && r.dst[d] == s.dst[d] + [p.(exit := clk + p.flits)] && r.busy[d] == p.flits
  }

  ghost predicate SameSize(s: Side, r: Side) {
    |s.src| == |s.age| == |r.src| == |r.age| && |s.dst| == |s.busy| == |r.dst| == |r.busy|
  }

  /** A free goal takes exactly one head, that of the first queue bound for it; all the others bound for it wait and
      age by one; a goal that is not free, or that nothing is bound for, takes none; and queues that are not served
      stay. */
  ghost predicate Outcome(way: Way, depth: nat, clk: int, s: Side, order: seq<int>, d: int, r: Side) {
    && SameSize(s, r) && 0 <= d < |s.dst|
    && (forall x :: 0 <= x < |s.src| && x !in order ==> r.src[x] == s.src[x] && r.age[x] == s.age[x])
    && (forall i :: 0 <= i < |order| ==> Fate(way, depth, clk, s, order, d, r, i))
    && (!Free(s, depth, d) || NoneFor(way, s, order, d) ==> r.dst[d] == s.dst[d] && r.busy[d] == s.busy[d])
  }

  /** What becomes of the i-th queue if it is bound for d. */
  ghost predicate Fate(way: Way, depth: nat, clk: int, s: Side, order: seq<int>, d: int, r: Side, i: int)
    requires SameSize(s, r) && 0 <= d < |s.dst| && 0 <= i < |order|
  {
    HeadsFor(way, s, order[i], d) ==>
      if Free(s, depth, d) && FirstFor(way, s, order, d, i) then Crossed(s, r, order[i], d, clk)
      else Stalled(s, r, order[i])
  }

  /** Every packet that is served is one flit long at least. */
  ghost predicate Heavy(s: Side, order: seq<int>) {
    forall i :: 0 <= i < |order| ==> 0 <= order[i] < |s.src| && s.src[order[i]] != [] && s.src[order[i]][0].flits >= 1
  }

  lemma {:induction false} HeavyRest(way: Way, depth: nat, clk: int, s: Side, order: seq<int>)
    requires Sized(way, s) && Orderly(s, order) && order != [] && Heavy(s, order)
    ensures Heavy(ServeOne(way, depth, clk, s, order[0]), order[1..])
  {
    StaysSized(way, depth, clk, s, order[0]);
    var r, rest := ServeOne(way, depth, clk, s, order[0]), order[1..];
    forall i | 0 <= i < |rest|
      ensures 0 <= rest[i] < |r.src| && r.src[rest[i]] != [] && r.src[rest[i]][0].flits >= 1
    {
      assert rest[i] == order[i + 1] && order[i + 1] != order[0];
    }
  }

  /** What the turns come to for each goal. */
  lemma {:induction false} ServedExactly(way: Way, depth: nat, clk: int, s: Side, order: seq<int>, d: int)
    requires Sized(way, s) && Orderly(s, order) && Heavy(s, order) && 0 <= d < |s.dst|
    ensures Outcome(way, depth, clk, s, order, d, ServeAll(way, depth, clk, s, order))
    decreases |order|
  {
    hide Outcome, Heavy;
    if order == [] {
      NoTurns(way, depth, clk, s, d);
    } else {
      StaysSized(way, depth, clk, s, order[0]);
      OrderlyRest(way, depth, clk, s, order);
      HeavyRest(way, depth, clk, s, order);
      var t := ServeOne(way, depth, clk, s, order[0]);
      ServedExactly(way, depth, clk, t, order[1..], d);
      FirstTurn(way, depth, clk, s, order, d, ServeAll(way, depth, clk, t, order[1..]));
    }
  }

  lemma {:induction false} NoTurns(way: Way, depth: nat, clk: int, s: Side, d: int)
    requires Sized(way, s) && 0 <= d < |s.dst|
    ensures Outcome(way, depth, clk, s, [], d, s)
  {
  }

  /** The queues after the first are bound for d, and first among those, as before its turn. */
  lemma {:induction false} RestFor(way: Way, depth: nat, clk: int, s: Side, order: seq<int>, d: int)
    requires Sized(way, s) && Orderly(s, order) && order != []
    ensures var t, rest := ServeOne(way, depth, clk, s, order[0]), order[1..];
      forall i :: 0 <= i < |rest| ==>
        && rest[i] == order[i + 1] && order[i + 1] != order[0]
        && (HeadsFor(way, t, rest[i], d) <==> HeadsFor(way, s, order[i + 1], d))
        && (!HeadsFor(way, s, order[0], d) ==> (FirstFor(way, t, rest, d, i) <==> FirstFor(way, s, order, d, i + 1)))
  {
    StaysSized(way, depth, clk, s, order[0]);
    var t, rest := ServeOne(way, depth, clk, s, order[0]), order[1..];
    forall i | 0 <= i < |rest|
      ensures rest[i] == order[i + 1] && order[i + 1] != order[0]
      ensures HeadsFor(way, t, rest[i], d) <==> HeadsFor(way, s, order[i + 1], d)
    {
    }
    forall i | 0 <= i < |rest| && !HeadsFor(way, s, order[0], d)
      ensures FirstFor(way, t, rest, d, i) <==> FirstFor(way, s, order, d, i + 1)
    {
      assert forall j :: 0 < j <= i ==> order[j] == rest[j - 1];
    }
  }

  lemma {:induction false} NotFirst(way: Way, s: Side, order: seq<int>, d: int, i: int)
    requires 0 < i < |order| && HeadsFor(way, s, order[0], d)
    ensures !FirstFor(way, s, order, d, i)
  {
  }

  /** The turn of the first queue, put before those of the rest. */
  lemma {:induction false} FirstTurn(way: Way, depth: nat, clk: int, s: Side, order: seq<int>, d: int, r: Side)
    requires Sized(way, s) && Orderly(s, order) && order != [] && Heavy(s, order)
    requires Outcome(way, depth, clk, ServeOne(way, depth, clk, s, order[0]), order[1..], d, r)
    ensures Outcome(way, depth, clk, s, order, d, r)
  {
    hide Fate, HeadsFor, Heavy, ServeOne, Crossed, Stalled, FirstFor;
    var x, t, rest := order[0], ServeOne(way, depth, clk, s, order[0]), order[1..];
    StaysSized(way, depth, clk, s, x);
    RestFor(way, depth, clk, s, order, d);
    assert forall y :: y in order <==> y == x || y in rest;
    GoalAfter(way, depth, clk, s, x, d);
    assert NoneFor(way, s, order, d) ==> NoneFor(way, t, rest, d) && !HeadsFor(way, s, order[0], d);
    OwnTurn(way, depth, clk, s, order, d, r);
    forall i | 0 < i < |order|
      ensures Fate(way, depth, clk, s, order, d, r, i)
    {
      LaterTurn(way, depth, clk, s, order, d, r, i);
    }
  }

  /** The goal after a queue's turn: it has taken the head and is busy, or is as before. */
  lemma {:induction false} GoalAfter(way: Way, depth: nat, clk: int, s: Side, x: int, d: int)
    requires Sized(way, s) && 0 <= x < |s.src| && s.src[x] != [] && 0 <= d < |s.dst|
    ensures var t := ServeOne(way, depth, clk, s, x);
      if HeadsFor(way, s, x, d) && Free(s, depth, d)
      then Crossed(s, t, x, d, clk)
      else t.dst[d] == s.dst[d] && t.busy[d] == s.busy[d] && (HeadsFor(way, s, x, d) ==> Stalled(s, t, x))
  {
  }

  lemma {:induction false} OwnTurn(way: Way, depth: nat, clk: int, s: Side, order: seq<int>, d: int, r: Side)
    requires Sized(way, s) && Orderly(s, order) && order != [] && Heavy(s, order)
    requires Outcome(way, depth, clk, ServeOne(way, depth, clk, s, order[0]), order[1..], d, r)
    ensures SameSize(s, r) && Fate(way, depth, clk, s, order, d, r, 0)
    ensures HeadsFor(way, s, order[0], d) ==> !Free(ServeOne(way, depth, clk, s, order[0]), depth, d)
  {
    var t, rest := ServeOne(way, depth, clk, s, order[0]), order[1..];
    GoalAfter(way, depth, clk, s, order[0], d);
    assert order[0] !in rest by {
      assert forall i :: 0 <= i < |rest| ==> rest[i] == order[i + 1];
    }
  }

  lemma {:induction false} LaterTurn(way: Way, depth: nat, clk: int, s: Side, order: seq<int>, d: int, r: Side, i: int)
    requires Sized(way, s) && Orderly(s, order) && 0 < i < |order| && Heavy(s, order)
    requires Outcome(way, depth, clk, ServeOne(way, depth, clk, s, order[0]), order[1..], d, r)
    ensures SameSize(s, r) && Fate(way, depth, clk, s, order, d, r, i)
  {
    hide ServeOne, Heavy, FirstFor, NoneFor, NoDuplicates;
    var t, rest := ServeOne(way, depth, clk, s, order[0]), order[1..];
    if HeadsFor(way, s, order[0], d) {
      NotFirst(way, s, order, d, i);
    }
    StaysSized(way, depth, clk, s, order[0]);
    RestFor(way, depth, clk, s, order, d);
    GoalAfter(way, depth, clk, s, order[0], d);
    OwnTurn(way, depth, clk, s, order, d, r);
    assert Fate(way, depth, clk, t, rest, d, r, i - 1) && rest[i - 1] == order[i];
  }

  /** Packets of no length leave their goal free: the next one for it crosses in the same cycle. */
  lemma {:induction false} LightBoth(way: Way, depth: nat, clk: int, s: Side, x: int, y: int, d: int)
    requires Sized(way, s) && Orderly(s, [x, y]) && HeadsFor(way, s, x, d) && HeadsFor(way, s, y, d)
    requires Free(s, depth, d) && |s.dst[d]| + 1 < depth && s.src[x][0].flits <= 0
    ensures var r := ServeAll(way, depth, clk, s, [x, y]).dst; d < |r| && |r[d]| == |s.dst[d]| + 2
  {
    StaysSized(way, depth, clk, s, x);
    OrderlyRest(way, depth, clk, s, [x, y]);
    var t := ServeOne(way, depth, clk, s, x);
    assert [x, y][0] == x && [x, y][1] == y && [x, y][1..] == [y];
    StaysSized(way, depth, clk, t, y);
    OrderlyRest(way, depth, clk, t, [y]);
    assert [y][1..] == [];
    assert ServeAll(way, depth, clk, t, [y]) == ServeOne(way, depth, clk, t, y);
  }

  /** One logic cycle of one direction: the indicators ease, and what waits is served in its order. */
  ghost predicate Waits(way: Way, s: Side) { Sized(way, s) && Ages(s.src, s.age) && |s.age| > 0 }

  ghost function OrderOf(s: Side, clk: int): seq<int>
    requires |s.age| > 0
  {
    Served(s.age, clk % |s.age|, |s.age|)
  }

  lemma {:induction false} InOrder(way: Way, s: Side, clk: int)
    requires Waits(way, s)
    ensures Orderly(s, OrderOf(s, clk)) && Orderly(s.(busy := Eased(s.busy)), OrderOf(s, clk))
    ensures forall x :: x in OrderOf(s, clk) <==> 0 <= x < |s.src| && s.src[x] != []
  {
    hide Served;
    ServedOnce(s.age, clk % |s.age|, |s.age|);
    forall x | 0 <= x < |s.age| ensures Dist(clk % |s.age|, x, |s.age|) < |s.age| {
    }
    var order := OrderOf(s, clk);
    forall i | 0 <= i < |order|
      ensures 0 <= order[i] < |s.src| && s.src[order[i]] != []
    {
      assert order[i] in order;
    }
  }

  ghost function Cycled(way: Way, depth: nat, clk: int, s: Side): Side
    requires Waits(way, s)
  {
    InOrder(way, s, clk);
    ServeAll(way, depth, clk, s.(busy := Eased(s.busy)), OrderOf(s, clk))
  }

  /** What the cycle does for each goal, in the order of service. */
  lemma {:induction false} CycledExactly(way: Way, depth: nat, clk: int, s: Side, d: int)
    requires Waits(way, s) && 0 <= d < |s.dst|
    requires forall x :: 0 <= x < |s.src| && s.src[x] != [] ==> s.src[x][0].flits >= 1
    ensures Outcome(way, depth, clk, s.(busy := Eased(s.busy)), OrderOf(s, clk), d, Cycled(way, depth, clk, s))
    ensures forall x :: x in OrderOf(s, clk) <==> 0 <= x < |s.src| && s.src[x] != []
  {
    hide Outcome, Served, Ages;
    InOrder(way, s, clk);
    var t, order := s.(busy := Eased(s.busy)), OrderOf(s, clk);
    assert Heavy(t, order) by {
      forall i | 0 <= i < |order| ensures t.src[order[i]][0].flits >= 1 {
        assert order[i] in order;
      }
    }
    ServedExactly(way, depth, clk, t, order, d);
  }

  /** A response whose time has come leaves the head of its link. */
  predicate DueHead(q: seq<Packet>, clk: int) { q != [] && q[0].exit <= clk }

  function AfterHanding(qs: seq<seq<Packet>>, clk: int): (r: seq<seq<Packet>>)
    ensures |r| == |qs|
  {
    seq(|qs|, i requires 0 <= i < |qs| => if DueHead(qs[i], clk) then qs[i][1..] else qs[i])
  }

  /** The heads handed back by the first n links, in their order. */
  function DueHeads(qs: seq<seq<Packet>>, clk: int, n: nat): seq<Packet>
    requires n <= |qs|
  {
    if n == 0 then []
    else DueHeads(qs, clk, n - 1) + if DueHead(qs[n - 1], clk) then [qs[n - 1][0]] else []
  }

  /** The whole crossbar: both directions, the awaited responses, what is inside the vaults, what was handed back. */
  datatype Bar = Bar(ins: Side, outs: Side, table: seq<Packet>, dram: seq<Packet>, called: seq<Packet>)

  /** Responses: due heads are handed back, and quadrants send to links. */
  ghost predicate Responds(depth: nat, clk: int, a: Bar, b: Bar) {
    var s := a.outs.(dst := AfterHanding(a.outs.dst, clk));
    && Waits(Out, s) && b == a.(outs := Cycled(Out, depth, clk, s), called := b.called)
    && b.called == a.called + DueHeads(a.outs.dst, clk, |a.outs.dst|)
  }

  /** Requests: links send to quadrants. */
  ghost predicate Requests(depth: nat, clk: int, a: Bar, b: Bar) {
    Waits(In, a.ins) && b == a.(ins := Cycled(In, depth, clk, a.ins))
  }

  /** Vaults have returned accesses: responses have moved from the table to the quadrants' queues. */
  ghost predicate Returns(a: Bar, b: Bar) {
    && b == a.(table := b.table, dram := b.dram, outs := a.outs.(src := b.outs.src, age := b.outs.age))
    && |b.outs.src| == |a.outs.src| && forall i :: 0 <= i < |a.outs.src| ==> a.outs.src[i] <= b.outs.src[i]
  }

  lemma {:induction false} ReturnsChain(a: Bar, b: Bar, c: Bar)
    requires Returns(a, b) && Returns(b, c)
    ensures Returns(a, c)
  {
  }

  /** Response i of the table has moved to the queue of its quadrant. */
  ghost predicate Delivers(a: Bar, b: Bar, i: int) {
    && 0 <= i < |a.table| && |a.outs.src| == |a.outs.age| && 0 <= a.table[i].quad < |a.outs.src|
    && b == a.(table := RemoveAt(a.table, i), dram := b.dram,
               outs := a.outs.(src := Push(a.outs.src, a.table[i].quad, a.table[i]),
                               age := a.outs.age[a.table[i].quad := 1]))
    && |b.dram| == |a.dram| - 1
  }

  lemma {:induction false} DeliversReturns(a: Bar, b: Bar, i: int)
    requires Delivers(a, b, i)
    ensures Returns(a, b)
  {
  }

  /** The head of quadrant i has arrived, and its response has room. */
  predicate Arrived(depth: nat, clk: int, a: Bar, i: int) {
    0 <= i < |a.ins.dst| && i < |a.outs.src| && a.ins.dst[i] != [] && a.ins.dst[i][0].exit <= clk &&
      |a.outs.src[i]| < depth
  }

  /** The heads of the quadrants in takes, all of them arrived, have entered their vaults. */
  ghost predicate Enters(depth: nat, clk: int, a: Bar, b: Bar, takes: set<int>) {
    && b == a.(ins := a.ins.(dst := b.ins.dst), dram := b.dram) && |b.ins.dst| == |a.ins.dst|
    && (forall i :: i in takes ==> Arrived(depth, clk, a, i))
    && forall i :: 0 <= i < |a.ins.dst| ==> b.ins.dst[i] == if i in takes then a.ins.dst[i][1..] else a.ins.dst[i]
  }

  /** The head of quadrant i is bound for vault j. */
  predicate HeadTo(a: Bar, i: int, j: int) { 0 <= i < |a.ins.dst| && a.ins.dst[i] != [] && a.ins.dst[i][0].vault == j }

  /** One of them enters vault j. */
  ghost predicate Visited(a: Bar, takes: set<int>, j: int) { exists i :: i in takes && HeadTo(a, i, j) }

  /** The head of quadrant i enters vault j, and is the only one to do so. */
  ghost predicate OnlyVisitor(a: Bar, takes: set<int>, i: int, j: int) {
    i in takes && HeadTo(a, i, j) && forall k :: k in takes && k != i ==> !HeadTo(a, k, j)
  }

  /** One more enters, or none. */
  lemma {:induction false} VisitedNext(a: Bar, takes: set<int>, i: int, j: int)
    requires i !in takes
    ensures Visited(a, takes + {i}, j) <==> Visited(a, takes, j) || HeadTo(a, i, j)
    ensures forall k :: OnlyVisitor(a, takes + {i}, k, j) ==>
      if HeadTo(a, i, j) then k == i && !Visited(a, takes, j) else OnlyVisitor(a, takes, k, j)
  {
    hide HeadTo;
    if Visited(a, takes, j) {
      var k :| k in takes && HeadTo(a, k, j);
      assert k in takes + {i};
    }
    if HeadTo(a, i, j) {
      assert i in takes + {i};
    }
    forall k | OnlyVisitor(a, takes + {i}, k, j)
      ensures if HeadTo(a, i, j) then k == i && !Visited(a, takes, j) else OnlyVisitor(a, takes, k, j)
    {
      assert forall m :: m in takes ==> m in takes + {i};
    }
  }

  /** Quadrants that nothing has entered from still have their heads. */
  lemma {:induction false} SameHead(depth: nat, clk: int, a: Bar, b: Bar, takes: set<int>, i: int)
    requires Enters(depth, clk, a, b, takes) && i !in takes && 0 <= i < |a.ins.dst|
    ensures |b.ins.dst| == |a.ins.dst| && b.ins.dst[i] == a.ins.dst[i]
    ensures Arrived(depth, clk, b, i) <==> Arrived(depth, clk, a, i)
  {
  }

  lemma {:induction false} EntersNone(depth: nat, clk: int, a: Bar)
    ensures Enters(depth, clk, a, a, {})
  {
  }

  lemma {:induction false} EntersNext(depth: nat, clk: int, a: Bar, b: Bar, c: Bar, takes: set<int>, i: int,
                                      more: set<int>)
    requires Enters(depth, clk, a, b, takes) && Enters(depth, clk, b, c, more) && i !in takes && more <= {i}
    ensures Enters(depth, clk, a, c, takes + more)
  {
    if i in more {
      assert Arrived(depth, clk, b, i);
    }
  }

  /** One logic cycle: responses, the vaults if it is their turn, entries, requests. */
  ghost predicate LogicStep(depth: nat, clk: int, vaults: bool, a: Bar, b: Bar) {
    exists r: Bar, v: Bar, e: Bar, takes: set<int> ::
      LogicParts(depth, clk, vaults, a, b, r, v, e, takes)
  }

  ghost predicate LogicParts(depth: nat, clk: int, vaults: bool, a: Bar, b: Bar, r: Bar, v: Bar, e: Bar,
                             takes: set<int>) {
    && Responds(depth, clk, a, r) && (if vaults then Returns(r, v) else v == r)
    && Enters(depth, clk, v, e, takes) && Requests(depth, clk, e, b)
  }

  lemma {:induction false} StepOf(depth: nat, clk: int, vaults: bool, a: Bar, b: Bar, r: Bar, v: Bar, e: Bar,
                                  takes: set<int>)
    requires LogicParts(depth, clk, vaults, a, b, r, v, e, takes)
    ensures LogicStep(depth, clk, vaults, a, b)
  {
    hide LogicParts;
  }

  /** The states of the crossbar from one logic cycle to the next, from cycle clk on, without vault cycles. */
  ghost predicate Run(depth: nat, clk: int, trace: seq<Bar>) {
    trace != [] && forall k :: 0 <= k < |trace| - 1 ==> LogicStep(depth, clk + k, false, trace[k], trace[k + 1])
  }

  lemma {:induction false} RunFrom(depth: nat, clk: int, a: Bar)
    ensures Run(depth, clk, [a])
  {
  }

  lemma {:induction false} RunOn(depth: nat, clk: int, trace: seq<Bar>, b: Bar)
    requires Run(depth, clk, trace) && LogicStep(depth, clk + |trace| - 1, false, trace[|trace| - 1], b)
    ensures Run(depth, clk, trace + [b])
  {
    hide LogicStep;
    var more := trace + [b];
    forall k | 0 <= k < |more| - 1
      ensures LogicStep(depth, clk + k, false, more[k], more[k + 1])
    {
      assert more[k] == trace[k] && more[k + 1] == if k + 1 < |trace| then trace[k + 1] else b;
    }
  }

  // A packet alone

  /** Queue x holds the packet, and the other queues nothing. */
  ghost predicate OnlyIn(qs: seq<seq<Packet>>, x: int, p: Packet) {
    0 <= x < |qs| && qs[x] == [p] && forall i :: 0 <= i < |qs| && i != x ==> qs[i] == []
  }

  lemma {:induction false} GoalInside(way: Way, s: Side, x: int, p: Packet)
    requires Sized(way, s) && OnlyIn(s.src, x, p)
    ensures 0 <= Goal(way, p) < |s.dst| == |s.busy|
  {
    assert s.src[x][0] == p;
  }

  ghost predicate Nothing(qs: seq<seq<Packet>>) { forall i :: 0 <= i < |qs| ==> qs[i] == [] }

  lemma {:induction false} OnlyOnce(q: seq<int>, x: int)
    requires NoDuplicates(q) && x in q && forall i :: 0 <= i < |q| ==> q[i] == x
    ensures q == [x]
  {
    var k :| 0 <= k < |q| && q[k] == x;
    assert forall i :: 0 <= i < |q| ==> q[i] == q[k] && i == k;
    assert q[|q| - 1] == x && q[0] == x;
  }

  lemma {:induction false} HeadIn(q: seq<int>)
    ensures q == [] || q[0] in q
  {
  }

  lemma {:induction false} OnlyServed(way: Way, s: Side, clk: int, x: int, p: Packet)
    requires Waits(way, s) && OnlyIn(s.src, x, p)
    ensures OrderOf(s, clk) == [x]
  {
    InOrder(way, s, clk);
    var order := OrderOf(s, clk);
    assert x in order;
    assert forall i :: 0 <= i < |order| ==> order[i] in order && order[i] == x;
    OnlyOnce(order, x);
  }

  /** A packet alone crosses at once if its goal is free. */
  lemma {:induction false} CrossesAlone(way: Way, depth: nat, clk: int, s: Side, x: int, p: Packet)
    requires Waits(way, s) && OnlyIn(s.src, x, p) && Nothing(s.dst) && depth > 0
    requires (forall d :: 0 <= d < |s.busy| ==> s.busy[d] <= 0) && 0 <= Goal(way, p) < |s.busy|
    ensures var r := Cycled(way, depth, clk, s);
      && Nothing(r.src) && OnlyIn(r.dst, Goal(way, p), p.(exit := clk + p.flits)) && SameSize(s, r)
      && r.age == s.age[x := 0] && r.busy == s.busy[Goal(way, p) := p.flits]
  {
    hide Served, OrderOf;
    OnlyServed(way, s, clk, x, p);
    InOrder(way, s, clk);
    assert Eased(s.busy) == s.busy;
    assert s.src[x][0] == p;
    StaysSized(way, depth, clk, s, x);
    OrderlyRest(way, depth, clk, s, [x]);
    ServesOne(way, depth, clk, s, x);
  }

  lemma {:induction false} ServesOne(way: Way, depth: nat, clk: int, s: Side, x: int)
    requires Sized(way, s) && Orderly(s, [x])
    ensures 0 <= x < |s.src| && s.src[x] != [] && ServeAll(way, depth, clk, s, [x]) == ServeOne(way, depth, clk, s, x)
  {
    var order := [x];
    assert order[0] == x && order[1..] == [];
    StaysSized(way, depth, clk, s, x);
    OrderlyRest(way, depth, clk, s, order);
    assert ServeAll(way, depth, clk, ServeOne(way, depth, clk, s, x), []) == ServeOne(way, depth, clk, s, x);
  }

  /** With nothing waiting only the indicators change. */
  lemma {:induction false} CrossesNothing(way: Way, depth: nat, clk: int, s: Side)
    requires Waits(way, s) && Nothing(s.src)
    ensures Cycled(way, depth, clk, s) == s.(busy := Eased(s.busy))
  {
    hide Served;
    InOrder(way, s, clk);
    var order := OrderOf(s, clk);
    HeadIn(order);
  }
}
