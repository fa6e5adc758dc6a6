/** The choice of the next queued command as a function of the channel and of the queues. */
module QueueSpec {
  import opened Commands
  import opened BankSpec
  import opened ChannelSpec

  predicate SameBankBefore(q: seq<Command>, i: int)
    requires 0 <= i < |q|
  {
    exists j :: 0 <= j < i && q[j].Where() == q[i].Where()
  }

  predicate HitFrom(q: seq<Command>, i: int, row: int)
    requires 0 <= i < |q|
  {
    exists j :: i <= j < |q| && q[j].addr.row == row && q[j].Where() == q[i].Where()
  }

  predicate SameCell(a: Command, b: Command) {
    && a.addr.row == b.addr.row && a.addr.column == b.addr.column
    && a.addr.bank == b.addr.bank && a.addr.bankgroup == b.addr.bankgroup
  }

  /** An earlier read of the same cell is still waiting. */
  predicate ReadBefore(q: seq<Command>, i: int)
    requires 0 <= i < |q|
  {
    exists j :: 0 <= j < i && q[j].IsRead() && SameCell(q[j], q[i])
  }

  /** i + s, wrapped once around n. */
  function Wrap(i: int, s: int, n: int): int { if i + s < n then i + s else i + s - n }

  lemma {:induction false} WrapStart(i: int, n: int)
    requires 0 <= i < n
    ensures Wrap(i, 0, n) == Wrap(i, n, n) == i
  {
  }

  lemma {:induction false} WrapNext(i: int, s: int, n: int)
    requires 0 <= i < n && 0 <= s < n
    ensures Wrap(i, s + 1, n) == (if Wrap(i, s, n) + 1 == n then 0 else Wrap(i, s, n) + 1) && 0 <= Wrap(i, s + 1, n) < n
  {
  }

  /** A precharge on demand may go ahead: nobody earlier wants the bank, and either no waiting command
      hits the open row or the row has had its four hits. */
  predicate MayClose(bank: BankView, q: seq<Command>, i: int)
    requires 0 <= i < |q|
  {
    !SameBankBefore(q, i) && (!HitFrom(q, i, bank.openRow) || bank.rowHits >= 4)
  }

  /** While a waiting command hits the open row, it may be closed exactly after the fourth access since the
      activation that opened it. */
  lemma {:induction false} ClosesAfterFour(ch: Channel, q: seq<Command>, i: int, a: int)
    requires 0 <= i < |q| && Replay(ch.history, q[i].Where()).Some? && OpenSince(ch.history, q[i].Where(), a)
    requires !SameBankBefore(q, i) && HitFrom(q, i, ch.history[a].cmd.addr.row)
    ensures MayClose(BankAt(ch, q[i].Where()), q, i) <==> Accesses(ch.history, q[i].Where(), a + 1) >= 4
  {
    hide Replay, Accesses, OpenSince, SameBankBefore, HitFrom;
    ReplayMeaning(ch.history, q[i].Where());
  }

  /** Entry i of the queue could be served now. */
  predicate Eligible(cfg: Config, ch: Channel, clk: nat, q: seq<Command>, i: int)
    requires 0 <= i < |q|
  {
    var a := Answered(cfg, ch, q[i], clk);
    && a.Ready?
    && (a.cmd.kind.Precharge? ==> MayClose(BankAt(ch, q[i].Where()), q, i))
    && (a.cmd.IsWrite() ==> !ReadBefore(q, i))
  }

  /** What the first eligible entry from i on leads to. */
  function FirstReady(cfg: Config, ch: Channel, clk: nat, q: seq<Command>, i: nat): Option<Command>
    decreases |q| - i
  {
    if i >= |q| then None
    else if Eligible(cfg, ch, clk, q, i) then Some(Answered(cfg, ch, q[i], clk).cmd)
    else FirstReady(cfg, ch, clk, q, i + 1)
  }

  /** Round robin after queue idx, from step s on, over the queues that are not held back. */
  function RoundRobin(cfg: Config, ch: Channel, clk: nat, queues: seq<seq<Command>>, held: set<int>, idx: int,
                      s: nat): Option<Command>
    decreases |queues| + 1 - s
  {
    if s > |queues| then None
    else if Passed(cfg, ch, clk, queues, held, Wrap(idx, s, |queues|)) then RoundRobin(cfg, ch, clk, queues, held,
      idx, s + 1)
    else FirstReady(cfg, ch, clk, queues[Wrap(idx, s, |queues|)], 0)
  }

  /** The queue is passed over: held back, or with nothing to serve. */
  predicate Passed(cfg: Config, ch: Channel, clk: nat, queues: seq<seq<Command>>, held: set<int>, i: int) {
    !(0 <= i < |queues|) || i in held || FirstReady(cfg, ch, clk, queues[i], 0).None?
  }

  /** Nothing comes of a queue exactly when no entry is eligible; otherwise the first eligible one answers. */
  lemma {:induction false} FirstReadyMeaning(cfg: Config, ch: Channel, clk: nat, q: seq<Command>, i: nat, pos: nat)
    requires i <= pos <= |q| && (forall k :: i <= k < pos ==> !Eligible(cfg, ch, clk, q, k))
    requires pos < |q| ==> Eligible(cfg, ch, clk, q, pos)
    ensures FirstReady(cfg, ch, clk, q, i) == if pos < |q| then Some(Answered(cfg, ch, q[pos], clk).cmd) else None
    decreases pos - i
  {
    hide Eligible, Answered;
    if i < pos {
      FirstReadyMeaning(cfg, ch, clk, q, i + 1, pos);
    }
  }

  /** The first queue that is not passed over answers. */
  lemma {:induction false} RoundRobinMeaning(cfg: Config, ch: Channel, clk: nat, queues: seq<seq<Command>>,
                                          held: set<int>, idx: int,
                                             s: nat, steps: nat)
    requires s <= steps <= |queues| + 1
    requires forall x :: s <= x < steps ==> Passed(cfg, ch, clk, queues, held, Wrap(idx, x, |queues|))
    requires steps <= |queues| ==> !Passed(cfg, ch, clk, queues, held, Wrap(idx, steps, |queues|))
    ensures RoundRobin(cfg, ch, clk, queues, held, idx, s) ==
      if steps <= |queues| then FirstReady(cfg, ch, clk, queues[Wrap(idx, steps, |queues|)], 0) else None
    decreases steps - s
  {
    hide FirstReady, Wrap;
    if s < steps {
      RoundRobinMeaning(cfg, ch, clk, queues, held, idx, s + 1, steps);
    }
  }

  /** After how many steps from queue i on the round robin comes to queue k. */
  function StepsTo(i: int, k: int, n: int): int { if k > i then k - i else k - i + n }

  /** A queue that could be served but is not comes closer by as many steps as the turn takes, so it is served before
      any other queue is served twice. */
  lemma {:induction false} TurnComes(cfg: Config, ch: Channel, clk: nat, queues: seq<seq<Command>>, held: set<int>,
                                     idx: int,
                                     steps: int, k: int)
    requires 0 <= idx < |queues| && 1 <= steps <= |queues| && 0 <= k < |queues|
    requires forall x :: 1 <= x < steps ==> Passed(cfg, ch, clk, queues, held, Wrap(idx, x, |queues|))
    requires !Passed(cfg, ch, clk, queues, held, k) && k != Wrap(idx, steps, |queues|)
    ensures 1 <= StepsTo(Wrap(idx, steps, |queues|), k, |queues|) == StepsTo(idx, k, |queues|) - steps
  {
    hide Passed;
    var d := StepsTo(idx, k, |queues|);
    assert 1 <= d <= |queues| && Wrap(idx, d, |queues|) == k;
    assert d >= steps;
  }
}
