/** One channel as a value: what it answers and what issuing a command does, read off its history. */
module ChannelSpec {
  import opened Commands
  import opened TimingSpec
  import opened BankSpec
  import opened ActivationWindow

  datatype Config = Config(geo: Geometry, tables: Tables, tFAW: nat, t32AW: nat, isGddr: bool)

  datatype Channel = Channel(history: seq<Issued>, refreshQ: seq<Command>, fourAw: seq<seq<nat>>,
    thirtyTwoAw: seq<seq<nat>>)

  /** The refresh queue after removing the first request that names the rank. */
  function DropRank(q: seq<Command>, rank: int): seq<Command> {
    if q == [] then []
    else if q[0].addr.rank == rank then q[1..]
    else [q[0]] + DropRank(q[1..], rank)
  }

  /** The refresh queue after removing the first request that names the bank. */
  function DropBank(q: seq<Command>, p: Place): seq<Command> {
    if q == [] then []
    else if q[0].Where() == p then q[1..]
    else [q[0]] + DropBank(q[1..], p)
  }

  /** The refresh queue once cmd has been issued. */
  function AfterRefresh(q: seq<Command>, cmd: Command): seq<Command> {
    if cmd.kind.Refresh? then DropRank(q, cmd.addr.rank)
    else if cmd.kind.RefreshBank? then DropBank(q, cmd.Where())
    else q
  }

  /** The bank at p, as the history leaves it. */
  function BankAt(ch: Channel, p: Place): BankView {
    match Replay(ch.history, p)
    case None => FRESH
    case Some(v) => v
  }

  /** What the bank at p answers, activation windows apart. */
  function BankAnswer(cfg: Config, ch: Channel, p: Place, cmd: Command, clk: nat): Answer {
    match Required(BankAt(ch, p), cmd)
    case Abort => Aborts
    case Needs(k) => Reply(cmd, k, Horizon(cfg.tables, ch.history, p, k), clk)
  }

  predicate WindowsOpen(cfg: Config, ch: Channel, rank: int, clk: nat) {
    && 0 <= rank < |ch.fourAw| && WindowReady(ch.fourAw[rank], 4, clk)
    && (cfg.isGddr ==> rank < |ch.thirtyTwoAw| && WindowReady(ch.thirtyTwoAw[rank], 32, clk))
  }

  /** The answer to a request for one bank. */
  function Answered(cfg: Config, ch: Channel, cmd: Command, clk: nat): Answer {
    var a := BankAnswer(cfg, ch, cmd.Where(), cmd, clk);
    if a.Ready? && IsActivation(a.cmd.kind) && !WindowsOpen(cfg, ch, a.cmd.addr.rank, clk) then NotReady else a
  }

  /** The first bank of group j, from bank k on, that has to be closed and can be. */
  function ToClose(cfg: Config, ch: Channel, cmd: Command, clk: nat, j: int, k: int): Option<Command>
    decreases cfg.geo.banks - k
  {
    if k >= cfg.geo.banks then None
    else
      var a := BankAnswer(cfg, ch, Place(cmd.addr.rank, j, k), cmd, clk);
      if a.Ready? && a.cmd.kind != cmd.kind then Some(Command(a.cmd.kind, Address(-1, cmd.addr.rank, j, k, -1, -1),
        a.cmd.hexAddr))
      else ToClose(cfg, ch, cmd, clk, j, k + 1)
  }

  /** The first bank of the rank, from group j on, that has to be closed and can be. */
  function FirstToClose(cfg: Config, ch: Channel, cmd: Command, clk: nat, j: int): Option<Command>
    decreases cfg.geo.groups - j
  {
    if j >= cfg.geo.groups then None
    else if ToClose(cfg, ch, cmd, clk, j, 0).Some? then ToClose(cfg, ch, cmd, clk, j, 0)
    else FirstToClose(cfg, ch, cmd, clk, j + 1)
  }

  predicate AllReady(cfg: Config, ch: Channel, cmd: Command, clk: nat) {
    forall j, k :: 0 <= j < cfg.geo.groups && 0 <= k < cfg.geo.banks ==>
      BankAnswer(cfg, ch, Place(cmd.addr.rank, j, k), cmd, clk) == Ready(cmd)
  }

  /** The answer to a request for a whole rank. */
  function RankAnswered(cfg: Config, ch: Channel, cmd: Command, clk: nat): Answer {
    if BankAnswer(cfg, ch, Place(cmd.addr.rank, 0, 0), cmd, clk).Aborts? then Aborts
    else
      match FirstToClose(cfg, ch, cmd, clk, 0)
      case Some(c) => Ready(c)
      case None => if AllReady(cfg, ch, cmd, clk) then Ready(cmd) else NotReady
  }

  function AnswerTo(cfg: Config, ch: Channel, cmd: Command, clk: nat): Answer {
    if cmd.IsRankCmd() then RankAnswered(cfg, ch, cmd, clk) else Answered(cfg, ch, cmd, clk)
  }

  /** The command of a ready answer. */
  function Usable(a: Answer): Option<Command> { if a.Ready? then Some(a.cmd) else None }

  function PushRank(aw: seq<seq<nat>>, rank: int, span: nat, clk: nat): seq<seq<nat>> {
    if 0 <= rank < |aw| then aw[rank := Push(aw[rank], span, clk)] else aw
  }

  /** The channel after a command. */
  function AfterIssue(cfg: Config, ch: Channel, cmd: Command, clk: nat): Channel {
    Channel(ch.history + [Issued(cmd, clk)], AfterRefresh(ch.refreshQ, cmd),
            if IsActivation(cmd.kind) then PushRank(ch.fourAw, cmd.addr.rank, cfg.tFAW, clk) else ch.fourAw,
            if cfg.isGddr && IsActivation(cmd.kind) then PushRank(ch.thirtyTwoAw, cmd.addr.rank, cfg.t32AW, clk)
              else ch.thirtyTwoAw)
  }
}
