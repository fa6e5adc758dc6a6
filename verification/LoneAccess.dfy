/** One read alone in a channel: the cycle in which it is issued, and that every cycle works towards it. */
module LoneAccess {
  import opened Commands
  import opened Sequences
  import opened TimingSpec
  import opened BankSpec
  import opened ActivationWindow
  import opened ChannelSpec
  import opened QueueSpec
  import opened MemoryBooks
  import opened PimCycles
  import opened HostCycles

  /** From when on the window of the rank is open. */
  function WindowTime(aws: seq<seq<nat>>, rank: int, depth: nat): nat {
    if 0 <= rank < |aws| && |aws[rank]| > 0 && |aws[rank]| >= depth then aws[rank][0] else 0
  }

  /** From when on the channel lets a command of kind k go to the bank of cmd. */
  function DueAt(cfg: Config, ch: Channel, cmd: Command, k: CommandType): nat {
    var t := Horizon(cfg.tables, ch.history, cmd.Where(), k);
    if !IsActivation(k) then t
    else
      var u := Max(t, WindowTime(ch.fourAw, cmd.addr.rank, 4));
      if cfg.isGddr then Max(u, WindowTime(ch.thirtyTwoAw, cmd.addr.rank, 32)) else u
  }

  /** The channel has the windows of the command's rank. */
  predicate Ranked(cfg: Config, ch: Channel, cmd: Command) {
    0 <= cmd.addr.rank < |ch.fourAw| && |ch.fourAw| == |ch.thirtyTwoAw|
  }

  function Of(k: CommandType, cmd: Command): Command { Command(k, cmd.addr, cmd.hexAddr) }

  /** When the access goes: at once on its open row, after opening the row, or after closing another one first.
      With dual issue the access may share the cycle of the activation. */
  function AccessAt(cfg: Config, ch: Channel, cmd: Command, clk: nat): nat {
    Max(clk, DueAt(cfg, ch, cmd, cmd.kind))
  }

  function OpenAt(cfg: Config, dual: bool, ch: Channel, cmd: Command, clk: nat): nat {
    var t := Max(clk, DueAt(cfg, ch, cmd, Activate));
    AccessAt(cfg, AfterIssue(cfg, ch, Of(Activate, cmd), t), cmd, if dual then t else t + 1)
  }

  function CloseAt(cfg: Config, dual: bool, ch: Channel, cmd: Command, clk: nat): nat {
    var t := Max(clk, DueAt(cfg, ch, cmd, Precharge));
    OpenAt(cfg, dual, AfterIssue(cfg, ch, Of(Precharge, cmd), t), cmd, t + 1)
  }

  function ServiceAt(cfg: Config, dual: bool, ch: Channel, cmd: Command, clk: nat): nat {
    var v := BankAt(ch, cmd.Where());
    if !v.state.Open? then OpenAt(cfg, dual, ch, cmd, clk)
    else if v.openRow == cmd.addr.row then AccessAt(cfg, ch, cmd, clk)
    else CloseAt(cfg, dual, ch, cmd, clk)
  }

  /** The bank of the command is known and awake. */
  ghost predicate Ready(cfg: Config, ch: Channel, cmd: Command) {
    && Ranked(cfg, ch, cmd) && cmd.IsReadWrite() && !cmd.IsRankCmd()
    && Replay(ch.history, cmd.Where()).Some? && !BankAt(ch, cmd.Where()).state.Sref?
  }

  /** What the bank needs next. */
  function Next(ch: Channel, cmd: Command): CommandType {
    var v := BankAt(ch, cmd.Where());
    if !v.state.Open? then Activate else if v.openRow == cmd.addr.row then cmd.kind else Precharge
  }

  lemma {:induction false} AnsweredFrom(cfg: Config, ch: Channel, cmd: Command, clk: nat)
    requires Ready(cfg, ch, cmd)
    ensures Answered(cfg, ch, cmd, clk) ==
      if clk >= DueAt(cfg, ch, cmd, Next(ch, cmd)) then Answer.Ready(Of(Next(ch, cmd), cmd)) else NotReady
  {
    hide Horizon, Replay;
  }

  /** What a command on the way does to the bank. */
  lemma {:induction false} AfterStep(cfg: Config, ch: Channel, cmd: Command, clk: nat)
    requires Ready(cfg, ch, cmd) && Next(ch, cmd) != cmd.kind
    ensures var next := AfterIssue(cfg, ch, Of(Next(ch, cmd), cmd), clk);
      && Ready(cfg, next, cmd) && next.refreshQ == ch.refreshQ
      && (Next(ch, cmd).Activate? || Next(ch, cmd).Precharge?)
      && Next(next, cmd) == if Next(ch, cmd).Activate? then cmd.kind else Activate
  {
    hide Push;
    ReplayExtend(ch.history, Issued(Of(Next(ch, cmd), cmd), clk), cmd.Where());
  }

  /** Queue h holds the command, and nothing else waits. */
  ghost predicate OnlyAt(queues: seq<seq<Command>>, h: int, cmd: Command) {
    0 <= h < |queues| && queues[h] == [cmd] && forall i :: 0 <= i < |queues| && i != h ==> queues[i] == []
  }

  /** An entry that is alone in its queue is served as soon as its bank is. */
  lemma {:induction false} EligibleAlone(cfg: Config, ch: Channel, cmd: Command, clk: nat)
    requires Ready(cfg, ch, cmd) && cmd.IsRead()
    ensures FirstReady(cfg, ch, clk, [cmd], 0) ==
      if clk >= DueAt(cfg, ch, cmd, Next(ch, cmd)) then Some(Of(Next(ch, cmd), cmd)) else None
  {
    hide Answered, DueAt;
    AnsweredFrom(cfg, ch, cmd, clk);
    FirstReadyMeaning(cfg, ch, clk, [cmd], 0, if Eligible(cfg, ch, clk, [cmd], 0) then 0 else 1);
  }

  lemma {:induction false} Unwrap(i: int, h: int, n: int) returns (s: int)
    requires 0 <= i < n && 0 <= h < n
    ensures 1 <= s <= n && Wrap(i, s, n) == h && forall x :: 1 <= x < s ==> Wrap(i, x, n) != h
  {
    s := if h > i then h - i else h - i + n;
  }

  /** The round robin comes to the only entry. */
  lemma {:induction false} PickAlone(cfg: Config, ch: Channel, cmd: Command, clk: nat, queues: seq<seq<Command>>,
                                     h: int,
                                     idx: int)
    requires Ready(cfg, ch, cmd) && cmd.IsRead() && OnlyAt(queues, h, cmd) && 0 <= idx < |queues|
    ensures RoundRobin(cfg, ch, clk, queues, {}, idx, 1) ==
      if clk >= DueAt(cfg, ch, cmd, Next(ch, cmd)) then Some(Of(Next(ch, cmd), cmd)) else None
  {
    hide DueAt, Wrap, Eligible, RoundRobin;
    EligibleAlone(cfg, ch, cmd, clk);
    var s := Unwrap(idx, h, |queues|);
    var ready := FirstReady(cfg, ch, clk, queues[h], 0).Some?;
    forall x | 1 <= x <= |queues|
      ensures Passed(cfg, ch, clk, queues, {}, Wrap(idx, x, |queues|)) <==>
        !(Wrap(idx, x, |queues|) == h && ready)
    {
    }
    RoundRobinMeaning(cfg, ch, clk, queues, {}, idx, 1, if ready then s else |queues| + 1);
  }

  lemma {:induction false} PickNothing(cfg: Config, ch: Channel, clk: nat, queues: seq<seq<Command>>, held: set<int>,
                                       idx: int)
    requires AllEmpty(queues)
    ensures RoundRobin(cfg, ch, clk, queues, held, idx, 1) == None
  {
    hide Wrap, Eligible, RoundRobin;
    RoundRobinMeaning(cfg, ch, clk, queues, held, idx, 1, |queues| + 1);
  }

  /** Waiting longer does not move the time, as long as it has not come. */
  lemma {:induction false} WaitsOn(cfg: Config, dual: bool, ch: Channel, cmd: Command, clk: nat)
    requires Ready(cfg, ch, cmd) && clk < DueAt(cfg, ch, cmd, Next(ch, cmd))
    ensures clk < ServiceAt(cfg, dual, ch, cmd, clk) == ServiceAt(cfg, dual, ch, cmd, clk + 1)
  {
    hide DueAt, AfterIssue;
  }

  lemma {:induction false} ServiceNow(cfg: Config, dual: bool, ch: Channel, cmd: Command, clk: nat)
    requires Ready(cfg, ch, cmd) && clk >= DueAt(cfg, ch, cmd, Next(ch, cmd)) && Next(ch, cmd) != cmd.kind
    ensures var next := AfterIssue(cfg, ch, Of(Next(ch, cmd), cmd), clk);
      Ready(cfg, next, cmd) &&
      ServiceAt(cfg, dual, ch, cmd, clk) ==
        ServiceAt(cfg, dual, next, cmd, if dual && Next(next, cmd) == cmd.kind then clk else clk + 1)
  {
    hide DueAt, AfterIssue;
    AfterStep(cfg, ch, cmd, clk);
  }

  /** The state of a cycle in which only this read waits, in the queue of its address. */
  ghost predicate Alone(u: Rules, h: Host, cmd: Command) {
    && Ready(u.cfg, h.channel, cmd) && cmd.IsRead() && h.channel.refreshQ == []
    && u.home(cmd.hexAddr) == u.index(cmd.Where()) && OnlyAt(h.books.queues, u.home(cmd.hexAddr), cmd)
    && 0 <= h.idx < |h.books.queues|
  }

  /** What the cycle fetches then. */
  function FetchAlone(u: Rules, h: Host, clk: nat): Option<Command> {
    RoundRobin(u.cfg, h.channel, clk, h.books.queues, {}, h.idx, 1)
  }

  lemma {:induction false} DropOnly(cmd: Command)
    ensures Dropped([cmd], cmd) == []
  {
  }

  /** The read has been issued, and nothing waits any more. */
  lemma {:induction false} AccessTurn(u: Rules, h: Host, cmd: Command, clk: nat)
    requires Alone(u, h, cmd) && Next(h.channel, cmd) == cmd.kind && clk >= DueAt(u.cfg, h.channel, cmd, cmd.kind)
    ensures Turned(u, h, FetchAlone(u, h, clk), clk) == Issue(u, h, cmd, clk, u.home(cmd.hexAddr))
    ensures AllEmpty(Issue(u, h, cmd, clk, u.home(cmd.hexAddr)).books.queues)
  {
    hide DueAt, RoundRobin, AfterIssue, Answered;
    PickAlone(u.cfg, h.channel, cmd, clk, h.books.queues, u.home(cmd.hexAddr), h.idx);
    var r := Issue(u, h, cmd, clk, u.home(cmd.hexAddr));
    DropOnly(cmd);
    PickNothing(u.cfg, r.channel, clk, r.books.queues, {}, r.idx);
  }

  /** Every cycle keeps the time at which the read goes, until it does. */
  lemma {:induction false} LoneTurn(u: Rules, h: Host, cmd: Command, clk: nat)
    requires Alone(u, h, cmd)
    ensures var r, at := Turned(u, h, FetchAlone(u, h, clk), clk), ServiceAt(u.cfg, u.dual, h.channel, cmd, clk);
      if clk < at then
        Alone(u, r, cmd) && r.books == h.books && ServiceAt(u.cfg, u.dual, r.channel, cmd, clk + 1) == at
      else
        clk == at && AllEmpty(r.books.queues) && r.channel.refreshQ == [] &&
        r.books == AfterAccess(Leave(h.books, u.home, cmd), cmd, clk + u.readDelay)
  {
    hide DueAt, RoundRobin, AfterIssue, Answered, ServiceAt, Dropped;
    var home := u.home(cmd.hexAddr);
    PickAlone(u.cfg, h.channel, cmd, clk, h.books.queues, home, h.idx);
    if clk < DueAt(u.cfg, h.channel, cmd, Next(h.channel, cmd)) {
      WaitsOn(u.cfg, u.dual, h.channel, cmd, clk);
    } else if Next(h.channel, cmd) == cmd.kind {
      AccessTurn(u, h, cmd, clk);
      GoesNow(u.cfg, u.dual, h.channel, cmd, clk);
      RefreshKept(u.cfg, h.channel, cmd, clk);
    } else {
      StepTurn(u, h, cmd, clk);
    }
  }

  lemma {:induction false} RefreshKept(cfg: Config, ch: Channel, cmd: Command, clk: nat)
    requires cmd.IsReadWrite()
    ensures AfterIssue(cfg, ch, cmd, clk).refreshQ == ch.refreshQ
  {
  }

  lemma {:induction false} GoesNow(cfg: Config, dual: bool, ch: Channel, cmd: Command, clk: nat)
    requires Ready(cfg, ch, cmd) && Next(ch, cmd) == cmd.kind && clk >= DueAt(cfg, ch, cmd, cmd.kind)
    ensures ServiceAt(cfg, dual, ch, cmd, clk) == clk
  {
    hide DueAt;
  }

  /** A cycle that opens or closes a row, and with dual issue may go on to the read. */
  lemma {:induction false} StepTurn(u: Rules, h: Host, cmd: Command, clk: nat)
    requires Alone(u, h, cmd) && Next(h.channel, cmd) != cmd.kind
    requires clk >= DueAt(u.cfg, h.channel, cmd, Next(h.channel, cmd))
    ensures var r, at := Turned(u, h, FetchAlone(u, h, clk), clk), ServiceAt(u.cfg, u.dual, h.channel, cmd, clk);
      if clk < at then
        Alone(u, r, cmd) && r.books == h.books && ServiceAt(u.cfg, u.dual, r.channel, cmd, clk + 1) == at
      else
        clk == at && AllEmpty(r.books.queues) && r.channel.refreshQ == [] &&
        r.books == AfterAccess(Leave(h.books, u.home, cmd), cmd, clk + u.readDelay)
  {
    hide DueAt, RoundRobin, AfterIssue, Answered, ServiceAt, Dropped, Replay;
    var home, k := u.home(cmd.hexAddr), Next(h.channel, cmd);
    PickAlone(u.cfg, h.channel, cmd, clk, h.books.queues, home, h.idx);
    AfterStep(u.cfg, h.channel, cmd, clk);
    ServiceNow(u.cfg, u.dual, h.channel, cmd, clk);
    var mid := FirstOf(u, h, Of(k, cmd), clk);
    assert mid == Host(AfterIssue(u.cfg, h.channel, Of(k, cmd), clk), h.books, home);
    PickAlone(u.cfg, mid.channel, cmd, clk, h.books.queues, home, home);
    if clk < DueAt(u.cfg, mid.channel, cmd, Next(mid.channel, cmd)) {
      WaitsOn(u.cfg, u.dual, mid.channel, cmd, clk);
      ServiceLater(u.cfg, u.dual, mid.channel, cmd, clk + 1);
    } else if u.dual && Next(mid.channel, cmd) == cmd.kind {
      GoesNow(u.cfg, u.dual, mid.channel, cmd, clk);
      RefreshKept(u.cfg, mid.channel, cmd, clk);
      DropOnly(cmd);
    } else {
      ServiceLater(u.cfg, u.dual, mid.channel, cmd, clk + 1);
    }
  }

  lemma {:induction false} ServiceLater(cfg: Config, dual: bool, ch: Channel, cmd: Command, clk: nat)
    ensures ServiceAt(cfg, dual, ch, cmd, clk) >= clk
  {
    hide DueAt, AfterIssue;
  }
}
