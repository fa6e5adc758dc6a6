/** Channels in lock-step: controllers without host traffic that start alike, up to the channel number and
    byte address in their commands, stay alike under the PIM scheduler. */
module PimLockstep {
  import opened Commands
  import opened BankSpec
  import opened ChannelSpec
  import opened PimCycles
  import opened Naming
  import opened Lockstep

  /** The request c as sent to channel j; hex gives the byte address of the coordinates. */
  function Named(c: Command, j: int, hex: Address -> int): Command {
    var a := c.addr.(channel := j);
    Command(c.kind, a, hex(a))
  }

  function KindOf(a: Answer): Option<CommandType> { if a.Ready? then Some(a.cmd.kind) else None }

  /** What channel j answers to the requests of a vector. */
  function AnswerRow(cfg: Config, s: PimSide, request: seq<Command>, j: int, hex: Address -> int): Row {
    seq(|request|, k requires 0 <= k < |request| => KindOf(Answered(cfg, s.channel, Named(request[k], j, hex), s.clk)))
  }

  /** One vector: its queue, its requests without channel, and whether the scheduler keeps the answer. */
  datatype Ask = Ask(lane: Lane, request: seq<Command>, keep: bool)

  function Rows(cfg: Config, states: seq<PimSide>, request: seq<Command>, hex: Address -> int): seq<Row> {
    seq(|states|, j requires 0 <= j < |states| => AnswerRow(cfg, states[j], request, j, hex))
  }

  ghost function Gathered(cfg: Config, states: seq<PimSide>, ask: Ask, hex: Address -> int): seq<Item> {
    Group(Rows(cfg, states, ask.request, hex), ask.lane.Inputs?, ask.keep)
  }

  /** The commands that channel j finds in its queue. */
  function Commanded(orders: seq<Order>, request: seq<Command>, j: int, hex: Address -> int): seq<Command> {
    seq(|orders|, i requires 0 <= i < |orders| =>
      var o := orders[i];
      if 0 <= o.slot < |request| then Named(request[o.slot], j, hex).(kind := o.kind)
        else Command(o.kind, Address(j, 0, 0, 0, 0, 0), 0))
  }

  /** Channel j after the first n vectors of a cycle have been sent. */
  ghost function Sent(cfg: Config, states: seq<PimSide>, asks: seq<Ask>, n: nat, j: int, hex: Address -> int): PimSide
    requires 0 <= j < |states| && n <= |asks|
  {
    if n == 0 then states[j]
    else
      var ask := asks[n - 1];
      Deliver(Sent(cfg, states, asks, n - 1, j, hex), ask.lane,
              Commanded(Orders(Gathered(cfg, states, ask, hex), j), ask.request, j, hex))
  }

  /** All channels after a cycle of the scheduler and one of each controller; None when a channel ends the
      simulation. */
  ghost function Step(u: Setup, states: seq<PimSide>, asks: seq<Ask>, hex: Address -> int): Option<seq<PimSide>> {
    if forall j :: 0 <= j < |states| ==> Cycle(u, Sent(u.cfg, states, asks, |asks|, j, hex)).Some?
    then Some(seq(|states|, j requires 0 <= j < |states| => Cycle(u, Sent(u.cfg, states, asks, |asks|, j, hex)).value))
    else None
  }

  /** The channels agree on histories, windows, refresh queue, refresh flag, clock and PIM queues, up to
      the naming of the channel. */
  ghost predicate Alike(states: seq<PimSide>) {
    forall i, j :: 0 <= i < |states| && 0 <= j < |states| ==> PlainSide(states[i]) == PlainSide(states[j])
  }

  /** Agreement covers what banks hold and when they are free. */
  lemma {:induction false} AlikeBanks(cfg: Config, s: PimSide, t: PimSide, p: Place, k: CommandType)
    requires PlainSide(s) == PlainSide(t)
    ensures BankAt(s.channel, p) == BankAt(t.channel, p)
    ensures TimingSpec.Horizon(cfg.tables, s.channel.history, p, k) ==
      TimingSpec.Horizon(cfg.tables, t.channel.history, p, k)
  {
    hide BankAt, TimingSpec.Horizon, PlainH, PlainQ;
    var c := Command(k, Address(0, 0, 0, 0, 0, 0), 0);
    PlainBank(cfg, s.channel, p, c, 0);
    PlainBank(cfg, t.channel, p, c, 0);
    PlainHorizon(cfg.tables, s.channel.history, p, k);
    PlainHorizon(cfg.tables, t.channel.history, p, k);
  }

  /** Alike channels answer alike. */
  lemma {:induction false} AlikeRows(cfg: Config, s: PimSide, t: PimSide, request: seq<Command>, i: int, j: int,
                                     hex: Address -> int)
    requires PlainSide(s) == PlainSide(t)
    ensures AnswerRow(cfg, s, request, i, hex) == AnswerRow(cfg, t, request, j, hex)
  {
    hide Answered, PlainH, PlainQ;
    forall k | 0 <= k < |request|
      ensures AnswerRow(cfg, s, request, i, hex)[k] == AnswerRow(cfg, t, request, j, hex)[k]
    {
      var c, d := Named(request[k], i, hex), Named(request[k], j, hex);
      assert Plain(c) == Plain(d);
      PlainAnswered(cfg, s.channel, c, s.clk);
      PlainAnswered(cfg, t.channel, d, t.clk);
    }
  }

  /** Every vector goes to alike channels in the same way: to all of them or to none. */
  lemma {:induction false} AllOrNone(cfg: Config, states: seq<PimSide>, ask: Ask, hex: Address -> int, i: int, j: int)
    requires Alike(states) && 0 <= i < |states| && 0 <= j < |states|
    ensures Orders(Gathered(cfg, states, ask, hex), i) == Orders(Gathered(cfg, states, ask, hex), j)
  {
    hide AnswerRow, Orders, Group;
    var rows := Rows(cfg, states, ask.request, hex);
    forall x | 0 <= x < |rows|
      ensures rows[x] == rows[i]
    {
      AlikeRows(cfg, states[x], states[i], ask.request, x, i, hex);
    }
    SameOrders(rows, ask.lane.Inputs?, ask.keep, i, j);
  }

  lemma {:induction false} PlainDeliver(s: PimSide, t: PimSide, lane: Lane, b: seq<Command>, c: seq<Command>)
    requires PlainSide(s) == PlainSide(t) && PlainQ(b) == PlainQ(c)
    ensures PlainSide(Deliver(s, lane, b)) == PlainSide(Deliver(t, lane, c))
  {
    hide PlainChannel;
    PlainConcat(s.rdW, b);
    PlainConcat(t.rdW, c);
    PlainConcat(s.rdIn, b);
    PlainConcat(t.rdIn, c);
    PlainConcat(s.wrQ, b);
    PlainConcat(t.wrQ, c);
    assert |b| == |PlainQ(b)| == |c|;
  }

  lemma {:induction false} PlainConcat(p: seq<Command>, q: seq<Command>)
    ensures PlainQ(p + q) == PlainQ(p) + PlainQ(q)
  {
  }

  lemma {:induction false} PlainCommanded(o: seq<Order>, request: seq<Command>, i: int, j: int, hex: Address -> int)
    ensures PlainQ(Commanded(o, request, i, hex)) == PlainQ(Commanded(o, request, j, hex))
  {
  }

  lemma {:induction false} SentAlike(cfg: Config, states: seq<PimSide>, asks: seq<Ask>, n: nat, i: int, j: int,
                                     hex: Address -> int)
    requires Alike(states) && 0 <= i < |states| && 0 <= j < |states| && n <= |asks|
    ensures PlainSide(Sent(cfg, states, asks, n, i, hex)) == PlainSide(Sent(cfg, states, asks, n, j, hex))
    decreases n
  {
    hide Commanded, Gathered, PlainSide, Orders, Deliver;
    if n > 0 {
      var ask := asks[n - 1];
      SentAlike(cfg, states, asks, n - 1, i, j, hex);
      AllOrNone(cfg, states, ask, hex, i, j);
      var o := Orders(Gathered(cfg, states, ask, hex), i);
      PlainCommanded(o, ask.request, i, j, hex);
      PlainDeliver(Sent(cfg, states, asks, n - 1, i, hex), Sent(cfg, states, asks, n - 1, j, hex), ask.lane,
                   Commanded(o, ask.request, i, hex), Commanded(o, ask.request, j, hex));
    }
  }

  /** Alike channels end the simulation together or go on together, and then they are alike again. */
  lemma {:induction false} StepAlike(u: Setup, states: seq<PimSide>, asks: seq<Ask>, hex: Address -> int)
    requires Alike(states)
    ensures forall i, j :: 0 <= i < |states| && 0 <= j < |states| ==>
      (Cycle(u, Sent(u.cfg, states, asks, |asks|, i, hex)).Some? <==>
        Cycle(u, Sent(u.cfg, states, asks, |asks|, j, hex)).Some?)
    ensures Step(u, states, asks, hex).Some? ==> Alike(Step(u, states, asks, hex).value)
  {
    hide Cycle, Sent, PlainSide;
    forall i, j | 0 <= i < |states| && 0 <= j < |states|
      ensures PlainSides(Cycle(u, Sent(u.cfg, states, asks, |asks|, i, hex))) ==
        PlainSides(Cycle(u, Sent(u.cfg, states, asks, |asks|, j, hex)))
    {
      SentAlike(u.cfg, states, asks, |asks|, i, j, hex);
      PlainCycle(u, Sent(u.cfg, states, asks, |asks|, i, hex));
      PlainCycle(u, Sent(u.cfg, states, asks, |asks|, j, hex));
    }
  }

  ghost function Run(u: Setup, states: seq<PimSide>, rounds: seq<seq<Ask>>, hex: Address -> int): Option<seq<PimSide>> {
    if rounds == [] then Some(states)
    else
      match Run(u, states, rounds[..|rounds| - 1], hex)
      case None => None
      case Some(now) => Step(u, now, rounds[|rounds| - 1], hex)
  }

  /** Channels that start alike are alike after every run. */
  lemma {:induction false} StayAlike(u: Setup, states: seq<PimSide>, rounds: seq<seq<Ask>>, hex: Address -> int)
    requires Alike(states)
    ensures Run(u, states, rounds, hex).Some? ==> Alike(Run(u, states, rounds, hex).value)
    decreases |rounds|
  {
    hide Step;
    if rounds != [] {
      StayAlike(u, states, rounds[..|rounds| - 1], hex);
      match Run(u, states, rounds[..|rounds| - 1], hex) {
        case None =>
        case Some(now) => StepAlike(u, now, rounds[|rounds| - 1], hex);
      }
    }
  }
}
