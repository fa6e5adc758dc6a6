/** The host side of one channel as a value: which commands a cycle issues, one or two of them, and what
    that makes of the queues and the books. */
module HostCycles {
  import opened Commands
  import opened Sequences
  import opened TimingSpec
  import opened BankSpec
  import opened ChannelSpec
  import opened QueueSpec
  import opened MemoryBooks
  import opened PimCycles

  /** The fixed data of a controller: its channel, the queue of an address, of a bank, and the queues that a
      refresh holds back. */
  datatype Rules = Rules(cfg: Config, home: Home, index: Place -> int, holds: Command -> set<int>, dual: bool,
    readDelay: nat)

  /** What a cycle works on: the channel, the books, and the queue that was served last. */
  datatype Host = Host(channel: Channel, books: Books, idx: int)

  /** The queue without its first entry that equals the command. */
  function Dropped(q: seq<Command>, c: Command): seq<Command> {
    if q == [] then [] else if q[0] == c then q[1..] else [q[0]] + Dropped(q[1..], c)
  }

  lemma {:induction false} DroppedAt(q: seq<Command>, c: Command, pos: int)
    requires 0 <= pos < |q| && q[pos] == c && forall j :: 0 <= j < pos ==> q[j] != c
    ensures Dropped(q, c) == RemoveAt(q, pos)
    decreases |q|
  {
    if pos > 0 {
      DroppedAt(q[1..], c, pos - 1);
      assert RemoveAt(q, pos) == [q[0]] + RemoveAt(q[1..], pos - 1);
    }
  }

  /** A read or write leaves the queue of its address. */
  function Leave(b: Books, home: Home, c: Command): Books {
    var h := home(c.hexAddr);
    if c.IsReadWrite() && 0 <= h < |b.queues| then b.(queues := b.queues[h := Dropped(b.queues[h], c)]) else b
  }

  /** The books after the command has been issued; data read is there in the given cycle. */
  function AfterAccess(b: Books, c: Command, cycle: nat): Books {
    if c.IsRead() then ServeRead(b, c.hexAddr, cycle)
    else if c.IsWrite() then ServeWrite(b, c.hexAddr)
    else b
  }

  /** The command is issued, and queue idx was served last. */
  function Issue(u: Rules, h: Host, c: Command, clk: nat, idx: int): Host {
    Host(AfterIssue(u.cfg, h.channel, c, clk), AfterAccess(Leave(h.books, u.home, c), c, clk + u.readDelay), idx)
  }

  /** The queues held back once the command has been fetched. */
  function HeldNow(u: Rules, ch: Channel, fetched: Command): set<int> {
    if fetched.IsRefresh() || ch.refreshQ == [] then {} else u.holds(ch.refreshQ[0])
  }

  /** The second command of a cycle with dual issue: what the round robin comes to after the first. */
  function SecondOf(u: Rules, h: Host, held: set<int>, clk: nat): Option<Command> {
    RoundRobin(u.cfg, h.channel, clk, h.books.queues, held, h.idx, 1)
  }

  /** It is issued when exactly one of the two is a read or write. */
  function WithSecond(u: Rules, h: Host, first: Command, held: set<int>, clk: nat): Host {
    if !u.dual then h
    else
      match SecondOf(u, h, held, clk)
      case None => h
      case Some(c) =>
        if c.IsReadWrite() != first.IsReadWrite() then Issue(u, h, c, clk, u.index(c.Where()))
        else h.(idx := u.index(c.Where()))
  }

  /** After the first command. */
  function FirstOf(u: Rules, h: Host, c: Command, clk: nat): Host {
    Issue(u, h, c, clk, if RefreshWork(u.cfg, h.channel, clk).Some? then h.idx else u.index(c.Where()))
  }

  /** The issuing part of a cycle in which the PIM part does not run. */
  function Turned(u: Rules, h: Host, fetched: Option<Command>, clk: nat): Host {
    match fetched
    case None => h
    case Some(c) => WithSecond(u, FirstOf(u, h, c, clk), c, HeldNow(u, h.channel, c), clk)
  }

  /** A fetched command is issued in its cycle, and one more follows exactly with dual issue, when the round
      robin comes to a command and exactly one of the two is a read or write. */
  lemma {:induction false} TurnedSends(u: Rules, h: Host, c: Command, clk: nat)
    ensures var r, second := Turned(u, h, Some(c), clk).channel.history,
        SecondOf(u, FirstOf(u, h, c, clk), HeldNow(u, h.channel, c), clk);
      r == h.channel.history + [Issued(c, clk)] +
        if u.dual && second.Some? && second.value.IsReadWrite() != c.IsReadWrite() then [Issued(second.value, clk)]
        else []
  {
    hide RoundRobin;
  }

  // Transactions on their way to the command queues

  predicate AllEmpty(queues: seq<seq<Command>>) { forall i :: 0 <= i < |queues| ==> queues[i] == [] }

  /** How many buffered writes are to be drained, once it has been decided whether to start. */
  function DrainWidth(b: Books, w: int, capacity: nat): int {
    if w == 0 && !b.unified && (|b.writeBuf| >= capacity || (|b.writeBuf| > 8 && AllEmpty(b.queues)))
    then |b.writeBuf| else w
  }

  /** Draining starts with a full buffer, or with the ninth write while no command waits. */
  lemma {:induction false} DrainStarts(b: Books, capacity: nat)
    requires !b.unified && b.writeBuf != []
    ensures DrainWidth(b, 0, capacity) > 0 <==> |b.writeBuf| >= capacity || (|b.writeBuf| >= 9 && AllEmpty(b.queues))
    ensures DrainWidth(b, 0, capacity) in {0, |b.writeBuf|}
  {
  }

  /** The command queue of the address has room. */
  predicate RoomIn(b: Books, home: Home, size: nat, a: int) {
    0 <= home(a) < |b.queues| && |b.queues[home(a)]| < size
  }

  /** Transaction m is the first that has room. */
  ghost predicate FirstRoomy(b: Books, home: Home, size: nat, q: seq<Transaction>, m: int) {
    0 <= m < |q| && RoomIn(b, home, size, q[m].addr) && NoneRoomy(b, home, size, q, m)
  }

  ghost predicate NoneRoomy(b: Books, home: Home, size: nat, q: seq<Transaction>, n: int)
    requires n <= |q|
  {
    forall j :: 0 <= j < n ==> !RoomIn(b, home, size, q[j].addr)
  }

  lemma {:induction false} RoomyNone(b: Books, home: Home, size: nat, q: seq<Transaction>)
    ensures NoneRoomy(b, home, size, q, 0)
  {
  }

  /** The next one has room, and then its address is new, or has none either. */
  lemma {:induction false} RoomyNext(b: Books, home: Home, size: nat, q: seq<Transaction>, m: int)
    requires 0 <= m < |q| && NoneRoomy(b, home, size, q, m)
    ensures if RoomIn(b, home, size, q[m].addr)
            then FirstRoomy(b, home, size, q, m) && forall j :: 0 <= j < m ==> q[j].addr != q[m].addr
            else NoneRoomy(b, home, size, q, m + 1)
  {
  }

  ghost predicate SomeRoomy(b: Books, home: Home, size: nat, q: seq<Transaction>) {
    exists m :: FirstRoomy(b, home, size, q, m)
  }

  lemma {:induction false} OneFirst(b: Books, home: Home, size: nat, q: seq<Transaction>, m: int, k: int)
    requires FirstRoomy(b, home, size, q, m)
    ensures FirstRoomy(b, home, size, q, k) <==> k == m
  {
    hide RoomIn;
  }

  /** A write of the split buffer waits for the pending reads of its address. */
  ghost predicate Blocked(b: Books, t: Transaction) {
    !b.unified && t.isWrite && CountT(b.pendingRd, t.addr, false) > 0
  }

  /** What is left to drain after the cycle in which transaction m moved, or none did. */
  ghost function DrainLeft(b: Books, home: Home, size: nat, width: int, m: int): int {
    if m >= 0 then (if !b.unified && width > 0 then width - 1 else width)
    else if SomeRoomy(b, home, size, Source(b, width > 0)) then 0 else width
  }
}
