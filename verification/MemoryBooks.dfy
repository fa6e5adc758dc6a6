/** What the controller's queues know about memory, as a value: the accepted requests, where each one
    is, the data still buffered and the data already in the cells.  Transactions carry the number of
    their acceptance (tag) and the data they move (value); the original simulates timing only. */
module MemoryBooks {
  import opened Commands
  import opened Sequences

  datatype Request = Request(addr: int, isWrite: bool, value: int)

  datatype Transaction =
    Transaction(addr: int, isWrite: bool, addedCycle: nat, completeCycle: nat, tag: nat, value: int)

  /** The atomic memory: the value of the latest accepted write, or the initial zero. */
  function LatestWrite(log: seq<Request>, a: int): int
    decreases |log|
  {
    if log == [] then 0
    else
      var last := log[|log| - 1];
      if last.isWrite && last.addr == a then last.value else LatestWrite(log[..|log| - 1], a)
  }

  lemma {:induction false} LatestWriteAppend(log: seq<Request>, r: Request, a: int)
    ensures LatestWrite(log + [r], a) == if r.isWrite && r.addr == a then r.value else LatestWrite(log, a)
  {
    assert (log + [r])[..|log|] == log;
  }

  function Cell(m: map<int, int>, a: int): int { if a in m then m[a] else 0 }

  function TransIs(a: int, w: bool): Transaction -> bool {
    (t: Transaction) => t.addr == a && t.isWrite == w
  }

  function CmdIs(a: int, w: bool): Command -> bool {
    (c: Command) => c.hexAddr == a && c.IsWrite() == w
  }

  function CountT(q: seq<Transaction>, a: int, w: bool): nat { Count(q, TransIs(a, w)) }

  function CountC(q: seq<Command>, a: int, w: bool): nat { Count(q, CmdIs(a, w)) }

  function OfAddr(q: seq<Transaction>, a: int): seq<Transaction> {
    if q == [] then [] else if q[0].addr == a then [q[0]] + OfAddr(q[1..], a) else OfAddr(q[1..], a)
  }

  function Without(q: seq<Transaction>, a: int): seq<Transaction> {
    if q == [] then [] else if q[0].addr == a then Without(q[1..], a) else [q[0]] + Without(q[1..], a)
  }

  /** The transactions as they are returned: with the data read and the time it is there. */
  function Completed(q: seq<Transaction>, value: int, cycle: nat): seq<Transaction> {
    if q == [] then [] else [q[0].(value := value, completeCycle := cycle)] + Completed(q[1..], value, cycle)
  }

  function Tags(q: seq<Transaction>): multiset<nat> {
    if q == [] then multiset{} else multiset{q[0].tag} + Tags(q[1..])
  }

  function Range(n: nat): multiset<nat> {
    if n == 0 then multiset{} else Range(n - 1) + multiset{n - 1}
  }

  /** All the state the data properties speak about. */
  datatype Books = Books(
    unified: bool,
    unifiedQ: seq<Transaction>, readQ: seq<Transaction>, writeBuf: seq<Transaction>,
    queues: seq<seq<Command>>,
    discarded: seq<Command>,
    pendingRd: seq<Transaction>, pendingWr: seq<Transaction>,
    returnQ: seq<Transaction>, done: seq<Transaction>,
    log: seq<Request>, buffered: map<int, int>, dram: map<int, int>)
  {
    function Waiting(a: int, w: bool): nat {
      CountT(unifiedQ, a, w) + CountT(readQ, a, w) + CountT(writeBuf, a, w)
    }

    function Pending(a: int, w: bool): nat {
      if w then CountT(pendingWr, a, true) else CountT(pendingRd, a, false)
    }
  }

  /** Where the commands for an address wait. */
  type Home = int -> int

  function Queued(b: Books, home: Home, a: int, w: bool): nat {
    if 0 <= home(a) < |b.queues| then CountC(b.queues[home(a)], a, w) else 0
  }

  /** Accesses to a of one kind, wherever they are before issue; lost ones count too. */
  function InFlight(b: Books, home: Home, a: int, w: bool): nat {
    b.Waiting(a, w) + Queued(b, home, a, w) + CountC(b.discarded, a, w)
  }

  ghost predicate AllWrites(q: seq<Transaction>, w: bool) {
    forall i :: 0 <= i < |q| ==> q[i].isWrite == w
  }

  ghost predicate Sorted(b: Books) {
    && AllWrites(b.readQ, false) && AllWrites(b.writeBuf, true)
    && AllWrites(b.pendingRd, false) && AllWrites(b.pendingWr, true)
    && (if b.unified then b.readQ == [] && b.writeBuf == [] else b.unifiedQ == [])
  }

  ghost predicate Homed(b: Books, home: Home) {
    forall i, k :: 0 <= i < |b.queues| && 0 <= k < |b.queues[i]| ==>
      b.queues[i][k].IsReadWrite() && home(b.queues[i][k].hexAddr) == i
  }

  /** One access in flight for every address that has accesses pending, and none otherwise. */
  ghost predicate Balanced(b: Books, home: Home) {
    && (forall a :: b.Pending(a, true) <= 1)
    && (forall a, w :: InFlight(b, home, a, w) == if b.Pending(a, w) > 0 then 1 else 0)
  }

  /** No write overtakes a read of its address that was accepted before it. */
  ghost predicate Ordered(b: Books, home: Home) {
    && (forall i, j, k :: 0 <= i < |b.queues| && 0 <= j < k < |b.queues[i]| && b.queues[i][j].IsWrite() ==>
          !(b.queues[i][k].IsRead() && b.queues[i][j].hexAddr == b.queues[i][k].hexAddr))
    && (forall j, k :: 0 <= j < k < |b.unifiedQ| && b.unifiedQ[j].isWrite ==>
          b.unifiedQ[k].isWrite || b.unifiedQ[j].addr != b.unifiedQ[k].addr)
    && (forall a :: Queued(b, home, a, true) > 0 ==>
          b.Waiting(a, false) == 0 && (!b.unified ==> b.Pending(a, false) == 0))
  }

  ghost predicate Logged(b: Books, t: Transaction) {
    t.tag < |b.log| && b.log[t.tag].addr == t.addr && b.log[t.tag].isWrite == t.isWrite
  }

  /** The value an atomic memory would have returned. */
  ghost predicate Faithful(b: Books, t: Transaction) {
    Logged(b, t) && (!t.isWrite ==> t.value == LatestWrite(b.log[..t.tag], t.addr))
  }

  ghost predicate DataRight(b: Books) {
    && (forall k :: 0 <= k < |b.returnQ| ==> Faithful(b, b.returnQ[k]))
    && (forall k :: 0 <= k < |b.done| ==> Faithful(b, b.done[k]))
    && (forall k :: 0 <= k < |b.pendingRd| ==> Logged(b, b.pendingRd[k]) && WillRead(b, b.pendingRd[k]))
    && (forall a :: LatestWrite(b.log, a) == if b.Pending(a, true) > 0 then Cell(b.buffered, a) else Cell(b.dram, a))
  }

  /** A waiting read will find in the cell what an atomic memory would have returned. */
  ghost predicate WillRead(b: Books, t: Transaction)
    requires Logged(b, t)
  {
    CountC(b.discarded, t.addr, false) == 0 ==> LatestWrite(b.log[..t.tag], t.addr) == Cell(b.dram, t.addr)
  }

  /** Every accepted transaction is in exactly one of: returned, about to be returned, still reading. */
  ghost predicate Conserved(b: Books) {
    Tags(b.done) + Tags(b.returnQ) + Tags(b.pendingRd) == Range(|b.log|)
  }

  ghost predicate Inv(b: Books, home: Home) {
    Sorted(b) && Homed(b, home) && Balanced(b, home) && Ordered(b, home) && DataRight(b) && Conserved(b)
  }

  lemma {:induction false} StartsRight(b: Books, home: Home)
    requires b.unifiedQ == b.readQ == b.writeBuf == b.pendingRd == b.pendingWr == b.returnQ == b.done == []
    requires b.discarded == [] && b.log == [] && b.dram == b.buffered == map[]
    requires forall i :: 0 <= i < |b.queues| ==> b.queues[i] == []
    ensures Inv(b, home)
  {
  }

  // Transitions

  /** A write is accepted: merged into the pending one, or queued. */
  function AcceptWrite(b: Books, t: Transaction, cycle: nat): Books {
    var alone := b.Pending(t.addr, true) == 0;
    b.(pendingWr := if alone then b.pendingWr + [t] else b.pendingWr,
       unifiedQ := if alone && b.unified then b.unifiedQ + [t] else b.unifiedQ,
       writeBuf := if alone && !b.unified then b.writeBuf + [t] else b.writeBuf,
       returnQ := b.returnQ + [t.(completeCycle := cycle)],
       log := b.log + [Request(t.addr, true, t.value)],
       buffered := b.buffered[t.addr := t.value])
  }

  /** A read is accepted: served from the pending write, joined to a pending read, or queued. */
  function AcceptRead(b: Books, t: Transaction, cycle: nat): Books {
    var c := b.(log := b.log + [Request(t.addr, false, 0)]);
    if b.Pending(t.addr, true) > 0 then
      c.(returnQ := b.returnQ + [t.(completeCycle := cycle, value := Cell(b.buffered, t.addr))])
    else
      var alone := b.Pending(t.addr, false) == 0;
      c.(pendingRd := b.pendingRd + [t],
         unifiedQ := if alone && b.unified then b.unifiedQ + [t] else b.unifiedQ,
         readQ := if alone && !b.unified then b.readQ + [t] else b.readQ)
  }

  lemma {:induction false} TagsConcat(p: seq<Transaction>, q: seq<Transaction>)
    ensures Tags(p + q) == Tags(p) + Tags(q)
    decreases |p|
  {
    if p == [] {
      assert p + q == q;
    } else {
      var r, first := p[1..] + q, multiset{p[0].tag};
      assert (p + q)[1..] == r;
      TagsConcat(p[1..], q);
      calc {
        Tags(p + q);
        first + Tags(r);
        first + (Tags(p[1..]) + Tags(q));
        (first + Tags(p[1..])) + Tags(q);
      }
    }
  }

  /** The counts after an append, for every address and kind at once. */
  lemma {:induction false} AppendCounts(q: seq<Transaction>, t: Transaction)
    ensures forall a, w :: CountT(q + [t], a, w) == CountT(q, a, w) + if t.addr == a && t.isWrite == w then 1 else 0
  {
    forall a, w
      ensures CountT(q + [t], a, w) == CountT(q, a, w) + if t.addr == a && t.isWrite == w then 1 else 0
    {
      CountAppend(q, t, TransIs(a, w));
    }
  }

  lemma {:induction false} LogGrows(b: Books, r: Request)
    ensures forall a :: LatestWrite(b.log + [r], a) == if r.isWrite && r.addr == a then r.value
      else LatestWrite(b.log, a)
    ensures forall k :: 0 <= k <= |b.log| ==> (b.log + [r])[..k] == b.log[..k]
  {
    forall a ensures LatestWrite(b.log + [r], a) == if r.isWrite && r.addr == a then r.value
      else LatestWrite(b.log, a) {
      LatestWriteAppend(b.log, r, a);
    }
  }

  /** Appending one access keeps the balance when it becomes the only one pending. */
  ghost predicate Tracks(b: Books, home: Home, c: Books, a: int, w: bool) {
    && c.Pending(a, w) == b.Pending(a, w)
    && InFlight(c, home, a, w) == InFlight(b, home, a, w)
  }

  /** The balance survives when only the accesses (x, w) move and they still match their pending count. */
  lemma {:induction false} BalanceKept(b: Books, c: Books, home: Home, x: int, w: bool)
    requires Balanced(b, home)
    requires forall a, v :: a != x || v != w ==> Tracks(b, home, c, a, v)
    requires c.Pending(x, true) <= 1
    requires InFlight(c, home, x, w) == if c.Pending(x, w) > 0 then 1 else 0
    ensures Balanced(c, home)
  {
    hide Count, InFlight;
    forall a, v
      ensures InFlight(c, home, a, v) == if c.Pending(a, v) > 0 then 1 else 0
      ensures c.Pending(a, true) <= 1
    {
      assert b.Pending(a, true) <= 1;
      if a != x || v != w {
        assert Tracks(b, home, c, a, v);
      }
      if a != x {
        assert Tracks(b, home, c, a, true);
      }
    }
  }

  lemma {:induction false} AcceptWriteCounts(b: Books, home: Home, t: Transaction, cycle: nat)
    requires t.isWrite
    ensures var c := AcceptWrite(b, t, cycle);
      forall a, w :: if a == t.addr && w && b.Pending(a, true) == 0
                     then c.Pending(a, w) == 1 && InFlight(c, home, a, w) == InFlight(b, home, a, w) + 1
                     else Tracks(b, home, c, a, w)
    ensures var c := AcceptWrite(b, t, cycle); forall a :: c.Waiting(a, false) == b.Waiting(a, false)
  {
    hide Count;
    AppendCounts(b.pendingWr, t);
    AppendCounts(b.unifiedQ, t);
    AppendCounts(b.writeBuf, t);
  }

  lemma {:induction false} AcceptWriteBalance(b: Books, home: Home, t: Transaction, cycle: nat)
    requires Balanced(b, home) && t.isWrite
    ensures Balanced(AcceptWrite(b, t, cycle), home)
  {
    hide Count, InFlight;
    var c := AcceptWrite(b, t, cycle);
    AcceptWriteCounts(b, home, t, cycle);
    assert b.Pending(t.addr, true) <= 1 && (b.Pending(t.addr, true) > 0 ==> Tracks(b, home, c, t.addr, true));
    assert InFlight(b, home, t.addr, true) == if b.Pending(t.addr, true) > 0 then 1 else 0;
    BalanceKept(b, c, home, t.addr, true);
  }

  lemma {:induction false} AcceptWriteOrder(b: Books, home: Home, t: Transaction, cycle: nat)
    requires Ordered(b, home) && t.isWrite
    ensures Ordered(AcceptWrite(b, t, cycle), home)
  {
    hide Count;
    var c := AcceptWrite(b, t, cycle);
    AcceptWriteCounts(b, home, t, cycle);
    forall a | Queued(c, home, a, true) > 0
      ensures c.Waiting(a, false) == 0 && (!c.unified ==> c.Pending(a, false) == 0)
    {
      assert Queued(b, home, a, true) > 0 && Tracks(b, home, c, a, false);
    }
  }

  lemma {:induction false} AcceptWriteKeeps(b: Books, home: Home, t: Transaction, cycle: nat)
    requires Inv(b, home) && t.isWrite && t.tag == |b.log|
    ensures Inv(AcceptWrite(b, t, cycle), home)
  {
    hide Count, Tags, Range, Balanced, Ordered, DataRight;
    AcceptWriteBalance(b, home, t, cycle);
    AcceptWriteOrder(b, home, t, cycle);
    AcceptWriteData(b, home, t, cycle);
    AppendTags(b.returnQ, t.(completeCycle := cycle));
    RangeStep(|b.log|);
  }

  lemma {:induction false} AppendTags(q: seq<Transaction>, t: Transaction)
    ensures Tags(q + [t]) == Tags(q) + multiset{t.tag}
  {
    TagsConcat(q, [t]);
  }

  lemma {:induction false} RangeStep(n: nat)
    ensures Range(n + 1) == Range(n) + multiset{n}
  {
  }

  lemma {:induction false} AcceptWriteData(b: Books, home: Home, t: Transaction, cycle: nat)
    requires DataRight(b) && t.isWrite && t.tag == |b.log|
    ensures DataRight(AcceptWrite(b, t, cycle))
  {
    hide LatestWrite;
    var c := AcceptWrite(b, t, cycle);
    LogGrows(b, Request(t.addr, true, t.value));
    AcceptWriteCounts(b, home, t, cycle);
    forall k | 0 <= k < |b.pendingRd|
      ensures Logged(c, c.pendingRd[k]) && WillRead(c, c.pendingRd[k])
    {
      assert WillRead(b, b.pendingRd[k]);
    }
    forall a
      ensures LatestWrite(c.log, a) == if c.Pending(a, true) > 0 then Cell(c.buffered, a) else Cell(c.dram, a)
    {
      assert LatestWrite(b.log, a) == if b.Pending(a, true) > 0 then Cell(b.buffered, a) else Cell(b.dram, a);
      assert a != t.addr ==> Tracks(b, home, c, a, true);
    }
  }

  lemma {:induction false} AcceptReadCounts(b: Books, home: Home, t: Transaction, cycle: nat)
    requires !t.isWrite
    ensures var c := AcceptRead(b, t, cycle);
      forall a, w :: if a == t.addr && !w && b.Pending(a, true) == 0
                     then c.Pending(a, w) == b.Pending(a, w) + 1
                          && InFlight(c, home, a, w) == InFlight(b, home, a, w) + if b.Pending(a, w) == 0 then 1 else 0
                     else Tracks(b, home, c, a, w)
    ensures var c := AcceptRead(b, t, cycle);
      forall a :: a != t.addr || b.Pending(a, true) > 0 ==> c.Waiting(a, false) == b.Waiting(a, false)
  {
    hide Count;
    var c := AcceptRead(b, t, cycle);
    if b.Pending(t.addr, true) > 0 {
      assert c == b.(log := c.log, returnQ := c.returnQ);
    } else {
      AppendCounts(b.pendingRd, t);
      if b.Pending(t.addr, false) == 0 {
        AppendCounts(b.unifiedQ, t);
        AppendCounts(b.readQ, t);
      } else {
        assert c == b.(log := c.log, pendingRd := c.pendingRd);
      }
    }
  }

  lemma {:induction false} AcceptReadBalance(b: Books, home: Home, t: Transaction, cycle: nat)
    requires Balanced(b, home) && !t.isWrite
    ensures Balanced(AcceptRead(b, t, cycle), home)
  {
    hide Count, InFlight;
    var c := AcceptRead(b, t, cycle);
    AcceptReadCounts(b, home, t, cycle);
    assert b.Pending(t.addr, true) <= 1 && Tracks(b, home, c, t.addr, true);
    assert b.Pending(t.addr, true) > 0 ==> Tracks(b, home, c, t.addr, false);
    assert InFlight(b, home, t.addr, false) == if b.Pending(t.addr, false) > 0 then 1 else 0;
    BalanceKept(b, c, home, t.addr, false);
  }

  lemma {:induction false} AcceptReadKeeps(b: Books, home: Home, t: Transaction, cycle: nat)
    requires Inv(b, home) && !t.isWrite && t.tag == |b.log|
    ensures Inv(AcceptRead(b, t, cycle), home)
  {
    hide Count, Tags, Range, Balanced, Ordered, DataRight;
    AcceptReadBalance(b, home, t, cycle);
    AcceptReadOrder(b, home, t, cycle);
    AcceptReadData(b, home, t, cycle);
    AppendTags(b.returnQ, t.(completeCycle := cycle, value := Cell(b.buffered, t.addr)));
    AppendTags(b.pendingRd, t);
    RangeStep(|b.log|);
  }

  lemma {:induction false} AcceptReadOrder(b: Books, home: Home, t: Transaction, cycle: nat)
    requires Balanced(b, home) && Ordered(b, home) && !t.isWrite
    ensures Ordered(AcceptRead(b, t, cycle), home)
  {
    var c := AcceptRead(b, t, cycle);
    AcceptReadCounts(b, home, t, cycle);
    forall a | Queued(c, home, a, true) > 0
      ensures c.Waiting(a, false) == 0 && (!c.unified ==> c.Pending(a, false) == 0)
    {
      assert Queued(b, home, a, true) > 0;
      assert InFlight(b, home, a, true) > 0;
      assert Tracks(b, home, c, a, false);
    }
    assert b.Pending(t.addr, true) == 0 ==> InFlight(b, home, t.addr, true) == 0;
    CountZero(b.unifiedQ, TransIs(t.addr, true));
    assert b.Pending(t.addr, true) == 0 ==>
      forall j :: 0 <= j < |b.unifiedQ| && b.unifiedQ[j].isWrite ==>
        TransIs(t.addr, true)(b.unifiedQ[j]) == (b.unifiedQ[j].addr == t.addr);
  }

  lemma {:induction false} AcceptReadData(b: Books, home: Home, t: Transaction, cycle: nat)
    requires DataRight(b) && !t.isWrite && t.tag == |b.log|
    ensures DataRight(AcceptRead(b, t, cycle))
  {
    hide LatestWrite, Count;
    var c := AcceptRead(b, t, cycle);
    LogGrows(b, Request(t.addr, false, 0));
    AcceptReadCounts(b, home, t, cycle);
    assert c.log[..|b.log|] == b.log;
    assert LatestWrite(b.log, t.addr) == if b.Pending(t.addr, true) > 0 then Cell(b.buffered, t.addr)
      else Cell(b.dram, t.addr);
    forall k | 0 <= k < |c.pendingRd|
      ensures Logged(c, c.pendingRd[k]) && WillRead(c, c.pendingRd[k])
    {
      if k < |b.pendingRd| {
        assert Logged(b, b.pendingRd[k]) && WillRead(b, b.pendingRd[k]);
        assert c.log[..b.pendingRd[k].tag] == b.log[..b.pendingRd[k].tag];
      }
    }
    forall k | 0 <= k < |c.returnQ|
      ensures Faithful(c, c.returnQ[k])
    {
      if k < |b.returnQ| {
        assert Faithful(b, b.returnQ[k]);
      }
    }
    forall a
      ensures LatestWrite(c.log, a) == if c.Pending(a, true) > 0 then Cell(c.buffered, a) else Cell(c.dram, a)
    {
      assert Tracks(b, home, c, a, true);
    }
  }

  // Moving a transaction into a command queue

  function Source(b: Books, draining: bool): seq<Transaction> {
    if b.unified then b.unifiedQ else if draining then b.writeBuf else b.readQ
  }

  /** Entry i of the transaction queue being served becomes cmd at the end of its command queue. */
  function Schedule(b: Books, home: Home, draining: bool, i: int, cmd: Command): Books
    requires 0 <= i < |Source(b, draining)| && 0 <= home(cmd.hexAddr) < |b.queues|
  {
    var h := home(cmd.hexAddr);
    var rest := RemoveAt(Source(b, draining), i);
    b.(unifiedQ := if b.unified then rest else b.unifiedQ,
       writeBuf := if !b.unified && draining then rest else b.writeBuf,
       readQ := if !b.unified && !draining then rest else b.readQ,
       queues := b.queues[h := b.queues[h] + [cmd]])
  }

  /** The command stands for the transaction. */
  ghost predicate Carries(cmd: Command, t: Transaction) {
    cmd.IsReadWrite() && cmd.hexAddr == t.addr && cmd.IsWrite() == t.isWrite
  }

  lemma {:induction false} RemoveCounts(q: seq<Transaction>, i: int)
    requires 0 <= i < |q|
    ensures forall a, w :: CountT(q, a, w) == CountT(RemoveAt(q, i), a, w) + if q[i].addr == a &&
      q[i].isWrite == w then 1 else 0
  {
    forall a, w
      ensures CountT(q, a, w) == CountT(RemoveAt(q, i), a, w) + if q[i].addr == a && q[i].isWrite == w then 1 else 0
    {
      CountRemove(q, i, TransIs(a, w));
    }
  }

  /** The access leaves the waiting count and joins the queued one; nothing else moves. */
  lemma {:induction false} ScheduleCounts(b: Books, home: Home, draining: bool, i: int, cmd: Command)
    requires 0 <= i < |Source(b, draining)| && 0 <= home(cmd.hexAddr) < |b.queues|
    requires Carries(cmd, Source(b, draining)[i])
    ensures var c := Schedule(b, home, draining, i, cmd);
      forall a, w :: if a == cmd.hexAddr && w == cmd.IsWrite()
                     then c.Waiting(a, w) + 1 == b.Waiting(a, w) && Queued(c, home, a, w) == Queued(b, home, a, w) + 1
                     else c.Waiting(a, w) == b.Waiting(a, w) && Queued(c, home, a, w) == Queued(b, home, a, w)
  {
    var c := Schedule(b, home, draining, i, cmd);
    RemoveCounts(Source(b, draining), i);
    forall a, w
      ensures if a == cmd.hexAddr && w == cmd.IsWrite()
              then c.Waiting(a, w) + 1 == b.Waiting(a, w) && Queued(c, home, a, w) == Queued(b, home, a, w) + 1
              else c.Waiting(a, w) == b.Waiting(a, w) && Queued(c, home, a, w) == Queued(b, home, a, w)
    {
      CountAppend(b.queues[home(cmd.hexAddr)], cmd, CmdIs(a, w));
    }
  }

  /** Scheduling keeps the books when the transaction is the first of its address in a unified queue,
      and a write of a split queue has no read of its address still pending. */
  lemma {:induction false} ScheduleKeeps(b: Books, home: Home, draining: bool, i: int, cmd: Command)
    requires Inv(b, home)
    requires 0 <= i < |Source(b, draining)| && 0 <= home(cmd.hexAddr) < |b.queues|
    requires Carries(cmd, Source(b, draining)[i])
    requires b.unified ==> forall j :: 0 <= j < i ==> b.unifiedQ[j].addr != cmd.hexAddr
    requires !b.unified && cmd.IsWrite() ==> b.Pending(cmd.hexAddr, false) == 0
    ensures Inv(Schedule(b, home, draining, i, cmd), home)
  {
    hide Count, Tags, Range, LatestWrite;
    var c := Schedule(b, home, draining, i, cmd);
    ScheduleCounts(b, home, draining, i, cmd);
    assert Balanced(c, home) by {
      forall a, w
        ensures InFlight(c, home, a, w) == if c.Pending(a, w) > 0 then 1 else 0
        ensures c.Pending(a, true) <= 1
      {
        assert InFlight(b, home, a, w) == if b.Pending(a, w) > 0 then 1 else 0;
        assert b.Pending(a, true) <= 1;
      }
    }
    assert Ordered(c, home) by {
      ScheduleOrder(b, home, draining, i, cmd);
    }
    assert DataRight(c) by {
      forall k | 0 <= k < |c.pendingRd| ensures Logged(c, c.pendingRd[k]) && WillRead(c, c.pendingRd[k]) {
        assert WillRead(b, b.pendingRd[k]);
      }
      forall k | 0 <= k < |c.returnQ| ensures Faithful(c, c.returnQ[k]) {
        assert Faithful(b, b.returnQ[k]);
      }
      forall k | 0 <= k < |c.done| ensures Faithful(c, c.done[k]) {
        assert Faithful(b, b.done[k]);
      }
      forall a
        ensures LatestWrite(c.log, a) == if c.Pending(a, true) > 0 then Cell(c.buffered, a) else Cell(c.dram, a)
      {
        assert LatestWrite(b.log, a) == if b.Pending(a, true) > 0 then Cell(b.buffered, a) else Cell(b.dram, a);
      }
    }
  }

  lemma {:induction false} ScheduleOrder(b: Books, home: Home, draining: bool, i: int, cmd: Command)
    requires Sorted(b) && Homed(b, home) && Balanced(b, home) && Ordered(b, home)
    requires 0 <= i < |Source(b, draining)| && 0 <= home(cmd.hexAddr) < |b.queues|
    requires Carries(cmd, Source(b, draining)[i])
    requires b.unified ==> forall j :: 0 <= j < i ==> b.unifiedQ[j].addr != cmd.hexAddr
    requires !b.unified && cmd.IsWrite() ==> b.Pending(cmd.hexAddr, false) == 0
    ensures Ordered(Schedule(b, home, draining, i, cmd), home)
  {
    hide Count;
    var c := Schedule(b, home, draining, i, cmd);
    var x := cmd.hexAddr;
    ScheduleCounts(b, home, draining, i, cmd);
    NoWriteAhead(b, home, draining, i, cmd);
    assert cmd.IsWrite() ==> b.Waiting(x, false) == 0 by {
      NoReadLeft(b, home, draining, i, cmd);
    }
    forall a | Queued(c, home, a, true) > 0
      ensures c.Waiting(a, false) == 0 && (!c.unified ==> c.Pending(a, false) == 0)
    {
      if !(a == x && cmd.IsWrite()) {
        assert Queued(b, home, a, true) > 0;
      }
    }
  }

  /** A waiting read has no write of its address already queued. */
  lemma {:induction false} NoWriteAhead(b: Books, home: Home, draining: bool, i: int, cmd: Command)
    requires Ordered(b, home) && Sorted(b)
    requires 0 <= i < |Source(b, draining)| && 0 <= home(cmd.hexAddr) < |b.queues|
    requires Carries(cmd, Source(b, draining)[i])
    ensures !cmd.IsWrite() ==>
      forall k :: 0 <= k < |b.queues[home(cmd.hexAddr)]| && b.queues[home(cmd.hexAddr)][k].IsWrite() ==>
              b.queues[home(cmd.hexAddr)][k].hexAddr != cmd.hexAddr
  {
    var x := cmd.hexAddr;
    if !cmd.IsWrite() {
      CountWitness(Source(b, draining), i, TransIs(x, false));
      assert b.Waiting(x, false) > 0;
      assert Queued(b, home, x, true) == 0;
      CountZero(b.queues[home(x)], CmdIs(x, true));
      forall k | 0 <= k < |b.queues[home(x)]| && b.queues[home(x)][k].IsWrite()
        ensures b.queues[home(x)][k].hexAddr != x
      {
        assert !CmdIs(x, true)(b.queues[home(x)][k]);
      }
    }
  }

  /** A write that may be scheduled leaves no read of its address behind. */
  lemma {:induction false} NoReadLeft(b: Books, home: Home, draining: bool, i: int, cmd: Command)
    requires Sorted(b) && Balanced(b, home) && Ordered(b, home)
    requires 0 <= i < |Source(b, draining)| && Carries(cmd, Source(b, draining)[i])
    requires b.unified ==> forall j :: 0 <= j < i ==> b.unifiedQ[j].addr != cmd.hexAddr
    requires !b.unified && cmd.IsWrite() ==> b.Pending(cmd.hexAddr, false) == 0
    ensures cmd.IsWrite() ==> b.Waiting(cmd.hexAddr, false) == 0
  {
    var x := cmd.hexAddr;
    assert InFlight(b, home, x, false) == if b.Pending(x, false) > 0 then 1 else 0;
    if cmd.IsWrite() && b.unified {
      forall j | 0 <= j < |b.unifiedQ| ensures !TransIs(x, false)(b.unifiedQ[j]) {
        if j > i {
          assert b.unifiedQ[i].isWrite;
        }
      }
      CountZero(b.unifiedQ, TransIs(x, false));
    }
  }

  /** A waiting access has no twin in the command queues. */
  lemma {:induction false} NoTwinQueued(b: Books, home: Home, draining: bool, i: int, cmd: Command)
    requires Balanced(b, home) && 0 <= i < |Source(b, draining)| && Carries(cmd, Source(b, draining)[i])
    requires 0 <= home(cmd.hexAddr) < |b.queues|
    ensures forall c :: c in b.queues[home(cmd.hexAddr)] ==> !(c.hexAddr == cmd.hexAddr && c.IsWrite() == cmd.IsWrite())
  {
    var x, w := cmd.hexAddr, cmd.IsWrite();
    CountWitness(Source(b, draining), i, TransIs(x, w));
    assert b.Waiting(x, w) > 0 && InFlight(b, home, x, w) <= 1;
    CountZero(b.queues[home(x)], CmdIs(x, w));
    forall c | c in b.queues[home(x)] ensures !(c.hexAddr == x && c.IsWrite() == w) {
      var k :| 0 <= k < |b.queues[home(x)]| && b.queues[home(x)][k] == c;
      assert !CmdIs(x, w)(b.queues[home(x)][k]);
    }
  }

  // Issuing the access at the chosen place of a command queue

  function Unqueue(b: Books, i: int, pos: int): Books
    requires 0 <= i < |b.queues| && 0 <= pos < |b.queues[i]|
  {
    b.(queues := b.queues[i := RemoveAt(b.queues[i], pos)])
  }

  /** A read returns every pending read of its address with what the cell holds. */
  function ServeRead(b: Books, a: int, cycle: nat): Books {
    b.(pendingRd := Without(b.pendingRd, a),
       returnQ := b.returnQ + Completed(OfAddr(b.pendingRd, a), Cell(b.dram, a), cycle))
  }

  /** A write stores the buffered value. */
  function ServeWrite(b: Books, a: int): Books {
    b.(pendingWr := Without(b.pendingWr, a), dram := b.dram[a := Cell(b.buffered, a)])
  }

  function Discard(b: Books, cmd: Command): Books { b.(discarded := b.discarded + [cmd]) }

  /** Removing the first transaction of an address takes it from the front of that address's list. */
  lemma {:induction false} TakeOne(q: seq<Transaction>, a: int, k: int)
    requires 0 <= k < |q| && q[k].addr == a && forall j :: 0 <= j < k ==> q[j].addr != a
    ensures OfAddr(q, a) == [q[k]] + OfAddr(RemoveAt(q, k), a)
    ensures Without(q, a) == Without(RemoveAt(q, k), a)
    decreases k
  {
    if k > 0 {
      TakeOne(q[1..], a, k - 1);
      assert RemoveAt(q, k)[1..] == RemoveAt(q[1..], k - 1);
    } else {
      assert RemoveAt(q, 0) == q[1..];
    }
  }

  lemma {:induction false} CompletedAppend(q: seq<Transaction>, t: Transaction, value: int, cycle: nat)
    ensures Completed(q + [t], value, cycle) ==
      Completed(q, value, cycle) + [t.(value := value, completeCycle := cycle)]
    decreases |q|
  {
    if q != [] {
      CompletedAppend(q[1..], t, value, cycle);
      assert (q + [t])[1..] == q[1..] + [t];
    }
  }

  /** taken holds the transactions of the address already moved out of was, cur the rest. */
  ghost predicate Splitting(was: seq<Transaction>, cur: seq<Transaction>, taken: seq<Transaction>, a: int) {
    OfAddr(was, a) == taken + OfAddr(cur, a) && Without(cur, a) == Without(was, a)
  }

  lemma {:induction false} StartSplit(q: seq<Transaction>, a: int, value: int, cycle: nat)
    ensures Splitting(q, q, [], a) && Completed([], value, cycle) == []
  {
    assert [] + OfAddr(q, a) == OfAddr(q, a);
  }

  lemma {:induction false} SplitStep(was: seq<Transaction>, cur: seq<Transaction>, taken: seq<Transaction>, a: int,
                                     k: int)
    requires Splitting(was, cur, taken, a)
    requires 0 <= k < |cur| && cur[k].addr == a && forall j :: 0 <= j < k ==> cur[j].addr != a
    ensures Splitting(was, RemoveAt(cur, k), taken + [cur[k]], a)
    ensures |OfAddr(RemoveAt(cur, k), a)| == |OfAddr(cur, a)| - 1
  {
    hide OfAddr, Without, RemoveAt;
    TakeOne(cur, a, k);
    var rest := OfAddr(RemoveAt(cur, k), a);
    assert taken + ([cur[k]] + rest) == (taken + [cur[k]]) + rest;
  }

  lemma {:induction false} SplitDone(was: seq<Transaction>, cur: seq<Transaction>, taken: seq<Transaction>, a: int)
    requires Splitting(was, cur, taken, a) && |OfAddr(cur, a)| == 0
    ensures taken == OfAddr(was, a) && cur == Without(was, a)
  {
    NoneLeft(cur, a);
    assert taken + [] == taken;
  }

  lemma {:induction false} NoneLeft(q: seq<Transaction>, a: int)
    requires OfAddr(q, a) == []
    ensures Without(q, a) == q
    decreases |q|
  {
    if q != [] {
      NoneLeft(q[1..], a);
    }
  }

  /** The list of an address is as long as its count. */
  lemma {:induction false} ListedCount(q: seq<Transaction>, a: int, w: bool)
    requires AllWrites(q, w)
    ensures |OfAddr(q, a)| == CountT(q, a, w)
    decreases |q|
  {
    if q != [] {
      ListedCount(q[1..], a, w);
    }
  }

  lemma {:induction false} SplitTags(q: seq<Transaction>, a: int, value: int, cycle: nat)
    ensures Tags(Completed(OfAddr(q, a), value, cycle)) + Tags(Without(q, a)) == Tags(q)
    decreases |q|
  {
    if q != [] {
      SplitTags(q[1..], a, value, cycle);
      var of, wo := OfAddr(q[1..], a), Without(q[1..], a);
      if q[0].addr == a {
        assert OfAddr(q, a) == [q[0]] + of && Without(q, a) == wo;
        assert ([q[0]] + of)[1..] == of;
        var done := Completed(of, value, cycle);
        var x := q[0].(value := value, completeCycle := cycle);
        assert Completed(OfAddr(q, a), value, cycle) == [x] + done;
        assert ([x] + done)[1..] == done;
      } else {
        assert OfAddr(q, a) == of && Without(q, a) == [q[0]] + wo;
        assert ([q[0]] + wo)[1..] == wo;
      }
    }
  }

  lemma {:induction false} WithoutCounts(q: seq<Transaction>, x: int, a: int, w: bool)
    ensures CountT(Without(q, x), a, w) == if a == x then 0 else CountT(q, a, w)
    decreases |q|
  {
    if q != [] {
      WithoutCounts(q[1..], x, a, w);
      if q[0].addr != x {
        assert ([q[0]] + Without(q[1..], x))[1..] == Without(q[1..], x);
      }
    }
  }

  lemma {:induction false} WithoutFrom(q: seq<Transaction>, x: int)
    ensures forall k :: 0 <= k < |Without(q, x)| ==> Without(q, x)[k] in q && Without(q, x)[k].addr != x
    decreases |q|
  {
    if q != [] {
      WithoutFrom(q[1..], x);
      var r := Without(q[1..], x);
      forall k | 0 <= k < |Without(q, x)| ensures Without(q, x)[k] in q && Without(q, x)[k].addr != x {
        if q[0].addr == x {
          assert Without(q, x)[k] == r[k] && r[k] in q[1..];
        } else if k > 0 {
          assert Without(q, x)[k] == r[k - 1] && r[k - 1] in q[1..];
        }
      }
    }
  }

  /** The returned transaction is t with its data and its time filled in. */
  ghost predicate Fills(r: Transaction, t: Transaction, value: int) {
    r.addr == t.addr && r.isWrite == t.isWrite && r.tag == t.tag && r.value == value
  }

  ghost predicate ComesFrom(r: Transaction, q: seq<Transaction>, x: int, value: int) {
    exists j :: 0 <= j < |q| && q[j].addr == x && Fills(r, q[j], value)
  }

  lemma {:induction false} CompletedFrom(q: seq<Transaction>, x: int, value: int, cycle: nat)
    ensures forall r :: r in Completed(OfAddr(q, x), value, cycle) ==> ComesFrom(r, q, x, value)
    decreases |q|
  {
    if q != [] {
      CompletedFrom(q[1..], x, value, cycle);
      var s := Completed(OfAddr(q[1..], x), value, cycle);
      forall r | r in s ensures ComesFrom(r, q, x, value) {
        assert ComesFrom(r, q[1..], x, value);
        var j :| 0 <= j < |q[1..]| && q[1..][j].addr == x && Fills(r, q[1..][j], value);
        assert q[j + 1] == q[1..][j];
      }
      if q[0].addr == x {
        assert ([q[0]] + OfAddr(q[1..], x))[1..] == OfAddr(q[1..], x);
        var first := q[0].(value := value, completeCycle := cycle);
        assert Fills(first, q[0], value);
        assert Completed(OfAddr(q, x), value, cycle) == [first] + s;
      }
    }
  }

  /** Only the removed access leaves the queued count. */
  lemma {:induction false} UnqueueCounts(b: Books, home: Home, i: int, pos: int)
    requires Homed(b, home) && 0 <= i < |b.queues| && 0 <= pos < |b.queues[i]|
    ensures var c, cmd := Unqueue(b, i, pos), b.queues[i][pos];
      forall a, w :: Queued(b, home, a, w) == Queued(c, home, a, w) + if a == cmd.hexAddr && w == cmd.IsWrite() then 1
        else 0
  {
    var c, cmd := Unqueue(b, i, pos), b.queues[i][pos];
    forall a, w
      ensures Queued(b, home, a, w) == Queued(c, home, a, w) + if a == cmd.hexAddr && w == cmd.IsWrite() then 1 else 0
    {
      CountRemove(b.queues[i], pos, CmdIs(a, w));
    }
  }

  /** Taking a command out of its queue keeps the parts that speak of places and order. */
  lemma {:induction false} UnqueueKeepsOrder(b: Books, home: Home, i: int, pos: int)
    requires Homed(b, home) && Ordered(b, home) && 0 <= i < |b.queues| && 0 <= pos < |b.queues[i]|
    ensures Homed(Unqueue(b, i, pos), home) && Ordered(Unqueue(b, i, pos), home)
  {
    hide Count;
    var c := Unqueue(b, i, pos);
    UnqueueCounts(b, home, i, pos);
    assert forall k :: 0 <= k < |c.queues[i]| ==> c.queues[i][k] == b.queues[i][if k < pos then k else k + 1];
    forall a | Queued(c, home, a, true) > 0
      ensures c.Waiting(a, false) == 0 && (!c.unified ==> c.Pending(a, false) == 0)
    {
      assert Queued(b, home, a, true) > 0;
    }
  }

  /** A queued access is the only one in flight for its address and kind. */
  lemma {:induction false} OnlyOne(b: Books, home: Home, i: int, pos: int)
    requires Homed(b, home) && Balanced(b, home) && 0 <= i < |b.queues| && 0 <= pos < |b.queues[i]|
    ensures var cmd := b.queues[i][pos];
      && b.Pending(cmd.hexAddr, cmd.IsWrite()) > 0 && b.Waiting(cmd.hexAddr, cmd.IsWrite()) == 0
      && Queued(b, home, cmd.hexAddr, cmd.IsWrite()) == 1 && CountC(b.discarded, cmd.hexAddr, cmd.IsWrite()) == 0
  {
    var cmd := b.queues[i][pos];
    CountWitness(b.queues[i], pos, CmdIs(cmd.hexAddr, cmd.IsWrite()));
    assert InFlight(b, home, cmd.hexAddr, cmd.IsWrite()) >= 1;
  }

  /** A queued access always has its transactions pending, and a write exactly one. */
  lemma {:induction false} PendingFound(b: Books, home: Home, i: int, pos: int)
    requires Inv(b, home) && 0 <= i < |b.queues| && 0 <= pos < |b.queues[i]|
    ensures var cmd := b.queues[i][pos];
      if cmd.IsWrite() then |OfAddr(b.pendingWr, cmd.hexAddr)| == 1 else OfAddr(b.pendingRd, cmd.hexAddr) != []
  {
    hide Count, OfAddr;
    var cmd := b.queues[i][pos];
    OnlyOne(b, home, i, pos);
    ListedCount(b.pendingWr, cmd.hexAddr, true);
    ListedCount(b.pendingRd, cmd.hexAddr, false);
    assert b.Pending(cmd.hexAddr, true) <= 1;
  }

  lemma {:induction false} ServeReadKeeps(b: Books, home: Home, i: int, pos: int, cycle: nat)
    requires Inv(b, home) && 0 <= i < |b.queues| && 0 <= pos < |b.queues[i]| && b.queues[i][pos].IsRead()
    ensures Inv(ServeRead(Unqueue(b, i, pos), b.queues[i][pos].hexAddr, cycle), home)
  {
    hide Count, Tags, Range, LatestWrite, Without, OfAddr, Completed;
    var x := b.queues[i][pos].hexAddr;
    var u := Unqueue(b, i, pos);
    var c := ServeRead(u, x, cycle);
    UnqueueCounts(b, home, i, pos);
    UnqueueKeepsOrder(b, home, i, pos);
    OnlyOne(b, home, i, pos);
    forall a, w ensures CountT(c.pendingRd, a, w) == if a == x then 0 else CountT(b.pendingRd, a, w) {
      WithoutCounts(b.pendingRd, x, a, w);
    }
    WithoutFrom(b.pendingRd, x);
    assert Balanced(c, home) by {
      forall a, w
        ensures InFlight(c, home, a, w) == if c.Pending(a, w) > 0 then 1 else 0
        ensures c.Pending(a, true) <= 1
      {
        assert InFlight(b, home, a, w) == if b.Pending(a, w) > 0 then 1 else 0;
        assert b.Pending(a, true) <= 1;
      }
    }
    assert Ordered(c, home) by {
      forall a | Queued(c, home, a, true) > 0
        ensures c.Waiting(a, false) == 0 && (!c.unified ==> c.Pending(a, false) == 0)
      {
        assert Queued(u, home, a, true) > 0;
      }
    }
    assert DataRight(c) by {
      ServeReadData(b, home, i, pos, cycle);
    }
    assert Conserved(c) by {
      SplitTags(b.pendingRd, x, Cell(b.dram, x), cycle);
      TagsConcat(b.returnQ, Completed(OfAddr(b.pendingRd, x), Cell(b.dram, x), cycle));
    }
  }

  lemma {:induction false} ServeReadData(b: Books, home: Home, i: int, pos: int, cycle: nat)
    requires Inv(b, home) && 0 <= i < |b.queues| && 0 <= pos < |b.queues[i]| && b.queues[i][pos].IsRead()
    ensures DataRight(ServeRead(Unqueue(b, i, pos), b.queues[i][pos].hexAddr, cycle))
  {
    hide Count, Tags, Range, LatestWrite, Without, OfAddr, Completed;
    var x := b.queues[i][pos].hexAddr;
    var c := ServeRead(Unqueue(b, i, pos), x, cycle);
    OnlyOne(b, home, i, pos);
    WithoutFrom(b.pendingRd, x);
    CompletedFrom(b.pendingRd, x, Cell(b.dram, x), cycle);
    var r := Completed(OfAddr(b.pendingRd, x), Cell(b.dram, x), cycle);
    forall k | 0 <= k < |c.returnQ| ensures Faithful(c, c.returnQ[k]) {
      if k < |b.returnQ| {
        assert Faithful(b, b.returnQ[k]);
      } else {
        assert r[k - |b.returnQ|] in r;
        var j :| 0 <= j < |b.pendingRd| && b.pendingRd[j].addr == x &&
          Fills(r[k - |b.returnQ|], b.pendingRd[j], Cell(b.dram, x));
        assert Logged(b, b.pendingRd[j]) && WillRead(b, b.pendingRd[j]);
      }
    }
    forall k | 0 <= k < |c.done| ensures Faithful(c, c.done[k]) {
      assert Faithful(b, b.done[k]);
    }
    forall k | 0 <= k < |c.pendingRd| ensures Logged(c, c.pendingRd[k]) && WillRead(c, c.pendingRd[k]) {
      var j :| 0 <= j < |b.pendingRd| && b.pendingRd[j] == c.pendingRd[k];
      assert WillRead(b, b.pendingRd[j]);
    }
    forall a
      ensures LatestWrite(c.log, a) == if c.Pending(a, true) > 0 then Cell(c.buffered, a) else Cell(c.dram, a)
    {
      assert LatestWrite(b.log, a) == if b.Pending(a, true) > 0 then Cell(b.buffered, a) else Cell(b.dram, a);
    }
  }

  /** The write is not held back by a read of its address that waits ahead of it in its queue. */
  ghost predicate FreeToWrite(q: seq<Command>, pos: int) {
    && 0 <= pos < |q| && q[pos].IsWrite()
    && forall k :: 0 <= k < pos ==> !(q[k].IsRead() && q[k].hexAddr == q[pos].hexAddr)
  }

  /** When a write issues, every read of its address accepted before it has been served or was lost. */
  lemma {:induction false} NoReadOvertaken(b: Books, home: Home, i: int, pos: int)
    requires Homed(b, home) && Ordered(b, home) && 0 <= i < |b.queues| && FreeToWrite(b.queues[i], pos)
    ensures var x := b.queues[i][pos].hexAddr; InFlight(b, home, x, false) == CountC(b.discarded, x, false)
  {
    var x := b.queues[i][pos].hexAddr;
    CountWitness(b.queues[i], pos, CmdIs(x, true));
    assert Queued(b, home, x, true) > 0;
    forall k | 0 <= k < |b.queues[i]| ensures !CmdIs(x, false)(b.queues[i][k]) {
    }
    CountZero(b.queues[i], CmdIs(x, false));
  }

  lemma {:induction false} ServeWriteBalance(b: Books, home: Home, i: int, pos: int)
    requires Homed(b, home) && Balanced(b, home) && 0 <= i < |b.queues| && 0 <= pos < |b.queues[i]|
    requires b.queues[i][pos].IsWrite()
    ensures Balanced(ServeWrite(Unqueue(b, i, pos), b.queues[i][pos].hexAddr), home)
    ensures forall a :: ServeWrite(Unqueue(b, i, pos), b.queues[i][pos].hexAddr).Pending(a, true)
                        == if a == b.queues[i][pos].hexAddr then 0 else b.Pending(a, true)
  {
    hide Count, Without;
    var x := b.queues[i][pos].hexAddr;
    var c := ServeWrite(Unqueue(b, i, pos), x);
    UnqueueCounts(b, home, i, pos);
    OnlyOne(b, home, i, pos);
    forall a, w ensures CountT(c.pendingWr, a, w) == if a == x then 0 else CountT(b.pendingWr, a, w) {
      WithoutCounts(b.pendingWr, x, a, w);
    }
    BalanceKept(b, c, home, x, true);
  }

  lemma {:induction false} ServeWriteData(b: Books, home: Home, i: int, pos: int)
    requires Inv(b, home) && 0 <= i < |b.queues| && FreeToWrite(b.queues[i], pos)
    ensures DataRight(ServeWrite(Unqueue(b, i, pos), b.queues[i][pos].hexAddr))
  {
    hide Count, LatestWrite, Without, Tags, Range, Ordered;
    var x := b.queues[i][pos].hexAddr;
    var c := ServeWrite(Unqueue(b, i, pos), x);
    OnlyOne(b, home, i, pos);
    NoReadOvertaken(b, home, i, pos);
    ServeWriteBalance(b, home, i, pos);
    forall k | 0 <= k < |c.returnQ| ensures Faithful(c, c.returnQ[k]) {
      assert Faithful(b, b.returnQ[k]);
    }
    forall k | 0 <= k < |c.done| ensures Faithful(c, c.done[k]) {
      assert Faithful(b, b.done[k]);
    }
    forall k | 0 <= k < |c.pendingRd| ensures Logged(c, c.pendingRd[k]) && WillRead(c, c.pendingRd[k]) {
      PendingSeen(b, k);
      assert WillRead(b, b.pendingRd[k]);
      assert InFlight(b, home, b.pendingRd[k].addr, false) == 1;
    }
    forall a
      ensures LatestWrite(c.log, a) == if c.Pending(a, true) > 0 then Cell(c.buffered, a) else Cell(c.dram, a)
    {
      assert LatestWrite(b.log, a) == if b.Pending(a, true) > 0 then Cell(b.buffered, a) else Cell(b.dram, a);
    }
  }

  lemma {:induction false} ServeWriteKeeps(b: Books, home: Home, i: int, pos: int)
    requires Inv(b, home) && 0 <= i < |b.queues| && FreeToWrite(b.queues[i], pos)
    ensures Inv(ServeWrite(Unqueue(b, i, pos), b.queues[i][pos].hexAddr), home)
  {
    hide Count, Tags, Range, Without, Balanced, DataRight;
    var x := b.queues[i][pos].hexAddr;
    var u := Unqueue(b, i, pos);
    UnqueueKeepsOrder(b, home, i, pos);
    ServeWriteBalance(b, home, i, pos);
    ServeWriteData(b, home, i, pos);
    WithoutFrom(b.pendingWr, x);
    OrderSurvives(u, ServeWrite(u, x), home);
  }

  /** The order speaks only of the queues and of reads that are waiting or pending. */
  lemma {:induction false} OrderSurvives(u: Books, c: Books, home: Home)
    requires Ordered(u, home)
    requires c.queues == u.queues && c.unifiedQ == u.unifiedQ && c.readQ == u.readQ && c.writeBuf == u.writeBuf
    requires c.unified == u.unified
    requires forall a :: c.Pending(a, false) <= u.Pending(a, false)
    ensures Ordered(c, home)
  {
    hide Count;
    forall a | Queued(c, home, a, true) > 0
      ensures c.Waiting(a, false) == 0 && (!c.unified ==> c.Pending(a, false) == 0)
    {
      assert Queued(u, home, a, true) > 0;
      assert c.Pending(a, false) <= u.Pending(a, false);
    }
  }

  lemma {:induction false} PendingSeen(b: Books, k: int)
    requires 0 <= k < |b.pendingRd| && AllWrites(b.pendingRd, false)
    ensures b.Pending(b.pendingRd[k].addr, false) > 0
  {
    CountWitness(b.pendingRd, k, TransIs(b.pendingRd[k].addr, false));
  }

  lemma {:induction false} DiscardBalance(b: Books, home: Home, i: int, pos: int)
    requires Homed(b, home) && Balanced(b, home) && 0 <= i < |b.queues| && 0 <= pos < |b.queues[i]|
    ensures Balanced(Discard(Unqueue(b, i, pos), b.queues[i][pos]), home)
    ensures forall a, w ::
      CountC(Discard(Unqueue(b, i, pos), b.queues[i][pos]).discarded, a, w) >= CountC(b.discarded, a, w)
  {
    hide Count;
    var cmd := b.queues[i][pos];
    var c := Discard(Unqueue(b, i, pos), cmd);
    UnqueueCounts(b, home, i, pos);
    forall a, w
      ensures CountC(c.discarded, a, w) == CountC(b.discarded, a, w) + if a == cmd.hexAddr &&
        w == cmd.IsWrite() then 1 else 0
    {
      CountAppend(b.discarded, cmd, CmdIs(a, w));
    }
    assert InFlight(b, home, cmd.hexAddr, cmd.IsWrite()) == if b.Pending(cmd.hexAddr, cmd.IsWrite()) > 0 then 1 else 0;
    assert b.Pending(cmd.hexAddr, true) <= 1;
    BalanceKept(b, c, home, cmd.hexAddr, cmd.IsWrite());
  }

  lemma {:induction false} DiscardData(b: Books, home: Home, i: int, pos: int)
    requires Homed(b, home) && Balanced(b, home) && DataRight(b) && 0 <= i < |b.queues| && 0 <= pos < |b.queues[i]|
    ensures DataRight(Discard(Unqueue(b, i, pos), b.queues[i][pos]))
  {
    hide Count, LatestWrite, Balanced, Homed;
    var c := Discard(Unqueue(b, i, pos), b.queues[i][pos]);
    DiscardBalance(b, home, i, pos);
    forall k | 0 <= k < |c.returnQ| ensures Faithful(c, c.returnQ[k]) {
      assert Faithful(b, b.returnQ[k]);
    }
    forall k | 0 <= k < |c.done| ensures Faithful(c, c.done[k]) {
      assert Faithful(b, b.done[k]);
    }
    forall k | 0 <= k < |c.pendingRd| ensures Logged(c, c.pendingRd[k]) && WillRead(c, c.pendingRd[k]) {
      assert WillRead(b, b.pendingRd[k]);
      assert CountC(c.discarded, b.pendingRd[k].addr, false) >= CountC(b.discarded, b.pendingRd[k].addr, false);
    }
    forall a
      ensures LatestWrite(c.log, a) == if c.Pending(a, true) > 0 then Cell(c.buffered, a) else Cell(c.dram, a)
    {
      assert LatestWrite(b.log, a) == if b.Pending(a, true) > 0 then Cell(b.buffered, a) else Cell(b.dram, a);
    }
  }

  /** Losing a fetched access keeps the books: it stays on record as lost. */
  lemma {:induction false} DiscardKeeps(b: Books, home: Home, i: int, pos: int)
    requires Inv(b, home) && 0 <= i < |b.queues| && 0 <= pos < |b.queues[i]|
    ensures Inv(Discard(Unqueue(b, i, pos), b.queues[i][pos]), home)
  {
    hide Count, Tags, Range, Balanced, DataRight;
    var u := Unqueue(b, i, pos);
    UnqueueKeepsOrder(b, home, i, pos);
    DiscardBalance(b, home, i, pos);
    DiscardData(b, home, i, pos);
    OrderSurvives(u, Discard(u, b.queues[i][pos]), home);
  }

  /** What speaks of the way to issue does not change with the way back. */
  lemma {:induction false} SameFlow(b: Books, c: Books, home: Home)
    requires Sorted(b) && Homed(b, home) && Balanced(b, home) && Ordered(b, home)
    requires c == b.(returnQ := c.returnQ, done := c.done)
    ensures Sorted(c) && Homed(c, home) && Balanced(c, home) && Ordered(c, home)
  {
    hide Count;
    assert forall a, w :: c.Pending(a, w) == b.Pending(a, w) && c.Waiting(a, w) == b.Waiting(a, w);
    assert forall a, w :: Queued(c, home, a, w) == Queued(b, home, a, w);
    forall a, w
      ensures InFlight(c, home, a, w) == if c.Pending(a, w) > 0 then 1 else 0
      ensures c.Pending(a, true) <= 1
    {
      assert InFlight(b, home, a, w) == if b.Pending(a, w) > 0 then 1 else 0;
      assert b.Pending(a, true) <= 1;
    }
  }

  /** A completed transaction is handed back. */
  function HandBack(b: Books, k: int): Books
    requires 0 <= k < |b.returnQ|
  {
    b.(returnQ := RemoveAt(b.returnQ, k), done := b.done + [b.returnQ[k]])
  }

  lemma {:induction false} HandBackKeeps(b: Books, home: Home, k: int)
    requires Inv(b, home) && 0 <= k < |b.returnQ|
    ensures Inv(HandBack(b, k), home)
  {
    hide Count, Tags, Range, LatestWrite, Sorted, Homed, Balanced, Ordered;
    var c := HandBack(b, k);
    SameFlow(b, c, home);
    assert DataRight(c) by {
      forall j | 0 <= j < |c.pendingRd| ensures Logged(c, c.pendingRd[j]) && WillRead(c, c.pendingRd[j]) {
        assert WillRead(b, b.pendingRd[j]);
      }
      forall a
        ensures LatestWrite(c.log, a) == if c.Pending(a, true) > 0 then Cell(c.buffered, a) else Cell(c.dram, a)
      {
        assert LatestWrite(b.log, a) == if b.Pending(a, true) > 0 then Cell(b.buffered, a) else Cell(b.dram, a);
      }
    }
    assert Conserved(c) by {
      AppendTags(b.done, b.returnQ[k]);
      var p, q := b.returnQ[..k], b.returnQ[k + 1..];
      assert b.returnQ == (p + [b.returnQ[k]]) + q;
      TagsConcat(p + [b.returnQ[k]], q);
      AppendTags(p, b.returnQ[k]);
      TagsConcat(p, q);
    }
  }

  // What the books say about the whole run

  lemma {:induction false} RangeCounts(n: nat, k: nat)
    ensures Range(n)[k] == if k < n then 1 else 0
  {
    if n > 0 {
      RangeCounts(n - 1, k);
    }
  }

  function TagCount(q: seq<Transaction>, k: nat): nat { Tags(q)[k] }

  /** Every accepted transaction is in exactly one place, and a read that is neither returned nor about
      to be is backed by exactly one read command, which is waiting, queued or on record as lost. */
  lemma {:induction false} ExactlyOnce(b: Books, home: Home, k: nat)
    requires Inv(b, home) && k < |b.log|
    ensures TagCount(b.done, k) + TagCount(b.returnQ, k) + TagCount(b.pendingRd, k) == 1
    ensures forall j :: 0 <= j < |b.pendingRd| ==> InFlight(b, home, b.pendingRd[j].addr, false) == 1
  {
    RangeCounts(|b.log|, k);
    forall j | 0 <= j < |b.pendingRd| ensures InFlight(b, home, b.pendingRd[j].addr, false) == 1 {
      PendingSeen(b, j);
    }
  }

  lemma {:induction false} TagSeen(q: seq<Transaction>, i: int)
    requires 0 <= i < |q|
    ensures Tags(q)[q[i].tag] >= 1
    decreases |q|
  {
    if i > 0 {
      TagSeen(q[1..], i - 1);
    }
  }

  /** No transaction is returned twice. */
  lemma {:induction false} ReturnedOnce(b: Books, home: Home, i: int, j: int)
    requires Inv(b, home) && 0 <= i < j < |b.done|
    ensures b.done[i].tag != b.done[j].tag
  {
    var p, q := b.done[..j], b.done[j..];
    assert p + q == b.done;
    assert p[i] == b.done[i];
    assert q[0] == b.done[j];
    TagsConcat(p, q);
    TagSeen(p, i);
    TagSeen(q, 0);
    RangeCounts(|b.log|, b.done[j].tag);
  }

  // Lost reads

  /** The lost commands and the reads still waiting for data. */
  datatype Losses = Losses(discarded: seq<Command>, pendingRd: seq<Transaction>)

  function LossesOf(b: Books): Losses { Losses(b.discarded, b.pendingRd) }

  /** A read command of the address has been lost. */
  ghost predicate Stuck(b: Losses, a: int) { CountC(b.discarded, a, false) > 0 }

  /** Addresses once stuck stay stuck, and their pending reads stay pending, in order. */
  ghost predicate StuckStay(b: Losses, c: Losses) {
    forall a :: Stuck(b, a) ==> Stuck(c, a) && OfAddr(b.pendingRd, a) <= OfAddr(c.pendingRd, a)
  }

  lemma {:induction false} StuckSame(b: Losses)
    ensures StuckStay(b, b)
  {
    hide Stuck, OfAddr;
  }

  lemma {:induction false} StuckChain(b: Losses, c: Losses, d: Losses)
    requires StuckStay(b, c) && StuckStay(c, d)
    ensures StuckStay(b, d)
  {
    hide Stuck, OfAddr;
  }

  lemma {:induction false} OtherAddress(q: seq<Transaction>, x: int, a: int)
    requires a != x
    ensures OfAddr(Without(q, x), a) == OfAddr(q, a)
    decreases |q|
  {
    if q != [] {
      OtherAddress(q[1..], x, a);
      if q[0].addr != x {
        assert ([q[0]] + Without(q[1..], x))[1..] == Without(q[1..], x);
      }
    }
  }

  lemma {:induction false} OfAddrAppend(q: seq<Transaction>, t: Transaction, a: int)
    ensures OfAddr(q + [t], a) == OfAddr(q, a) + if t.addr == a then [t] else []
    decreases |q|
  {
    if q == [] {
      assert q + [t] == [t] && [t][1..] == [];
    } else {
      OfAddrAppend(q[1..], t, a);
      assert (q + [t])[1..] == q[1..] + [t] && (q + [t])[0] == q[0];
    }
  }

  /** Losing one more access un-sticks nothing. */
  lemma {:induction false} StuckGrows(b: Losses, c: Losses, more: seq<Command>)
    requires c.discarded == b.discarded + more && c.pendingRd == b.pendingRd
    ensures StuckStay(b, c)
  {
    forall a | Stuck(b, a)
      ensures Stuck(c, a)
    {
      CountConcat(b.discarded, more, CmdIs(a, false));
    }
  }

  /** A read command that issues is never for a stuck address. */
  lemma {:induction false} StuckServe(b: Books, home: Home, i: int, pos: int, c: Losses)
    requires Homed(b, home) && Balanced(b, home) && 0 <= i < |b.queues| && 0 <= pos < |b.queues[i]|
    requires b.queues[i][pos].IsRead()
    requires c.discarded == b.discarded && c.pendingRd == Without(b.pendingRd, b.queues[i][pos].hexAddr)
    ensures StuckStay(LossesOf(b), c)
  {
    hide OfAddr, Without;
    var x := b.queues[i][pos].hexAddr;
    OnlyOne(b, home, i, pos);
    forall a | Stuck(LossesOf(b), a)
      ensures OfAddr(b.pendingRd, a) <= OfAddr(c.pendingRd, a)
    {
      OtherAddress(b.pendingRd, x, a);
    }
  }

  lemma {:induction false} StuckAccept(b: Books, t: Transaction, cycle: nat)
    ensures StuckStay(LossesOf(b), LossesOf(AcceptRead(b, t, cycle)))
    ensures StuckStay(LossesOf(b), LossesOf(AcceptWrite(b, t, cycle)))
  {
    hide OfAddr;
    forall a
      ensures OfAddr(b.pendingRd, a) <= OfAddr(b.pendingRd + [t], a)
    {
      OfAddrAppend(b.pendingRd, t, a);
    }
  }

  /** A pending read of a stuck address has no command left that could serve it, and has not been
      returned; as it stays pending in every later state, it never will be. */
  lemma {:induction false} NeverReturned(b: Books, home: Home, j: int)
    requires Inv(b, home) && 0 <= j < |b.pendingRd| && Stuck(LossesOf(b), b.pendingRd[j].addr)
    ensures b.Waiting(b.pendingRd[j].addr, false) == 0 && Queued(b, home, b.pendingRd[j].addr, false) == 0
    ensures TagCount(b.done, b.pendingRd[j].tag) == TagCount(b.returnQ, b.pendingRd[j].tag) == 0
  {
    var t := b.pendingRd[j];
    assert InFlight(b, home, t.addr, false) <= 1;
    assert Logged(b, t);
    ExactlyOnce(b, home, t.tag);
    TagSeen(b.pendingRd, j);
  }
}
