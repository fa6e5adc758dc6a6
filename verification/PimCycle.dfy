/** The PIM queues of one channel as values: which waiting commands leave in a cycle, when the cycle ends
    the simulation, and what a whole cycle without host traffic does. */
module PimCycles {
  import opened Commands
  import opened Sequences
  import opened BankSpec
  import opened TimingSpec
  import opened ChannelSpec
  import opened Refreshes

  /** The three PIM queues: weight reads, input reads, output writes. */
  datatype Lane = Weights | Inputs | Outputs

  /** The access that an activation in the queue leads to. */
  function Probe(lane: Lane): CommandType { if lane.Outputs? then PimWrite else GhRead }

  /** What may stand in a PIM queue: whatever a channel can answer to a PIM access. */
  predicate IsPimCommand(c: Command) { c.kind.PimActivate? || IsPimAccess(c.kind) || c.kind.Precharge? }

  datatype Turn = Exits | Stays | Leaves(channel: Channel)

  /** One entry's turn.  An activation that could go is dropped while a refresh waits.  A precharge in the
      weight queue goes out unasked; one in the other queues is a request no bank answers. */
  function TurnOf(cfg: Config, ch: Channel, lane: Lane, c: Command, time: int, clk: nat): Turn {
    if c.kind.Precharge? then
      if lane.Weights? && BankAt(ch, c.Where()).state.Open? then Leaves(AfterIssue(cfg, ch, c, clk)) else Exits
    else
      var a := Answered(cfg, ch, if c.kind.PimActivate? then Command(Probe(lane), c.addr, c.hexAddr) else c, clk);
      if a.Aborts? then Exits
      else if a.Ready? && a.cmd.kind == c.kind && clk >= time then
        Leaves(if ch.refreshQ != [] && c.kind.PimActivate? then ch else AfterIssue(cfg, ch, c, clk))
      else Stays
  }

  datatype Drained = Drained(channel: Channel, rest: seq<Command>, times: seq<int>)

  /** One queue in a cycle: every entry has its turn, in order. */
  function Drain(cfg: Config, ch: Channel, lane: Lane, q: seq<Command>, times: seq<int>, clk: nat): Option<Drained>
    requires |times| == |q|
    decreases |q|
  {
    if q == [] then Some(Drained(ch, [], []))
    else
      match TurnOf(cfg, ch, lane, q[0], times[0], clk)
      case Exits => None
      case Leaves(next) => Drain(cfg, next, lane, q[1..], times[1..], clk)
      case Stays =>
        match Drain(cfg, ch, lane, q[1..], times[1..], clk)
        case None => None
        case Some(d) => Some(Drained(d.channel, [q[0]] + d.rest, [times[0]] + d.times))
  }

  /** The places in the history of the precharges that a queue sends before their time. */
  function TooSoon(cfg: Config, ch: Channel, lane: Lane, q: seq<Command>, times: seq<int>, clk: nat): set<int>
    requires |times| == |q|
    decreases |q|
  {
    if q == [] then {}
    else
      match TurnOf(cfg, ch, lane, q[0], times[0], clk)
      case Exits => {}
      case Stays => TooSoon(cfg, ch, lane, q[1..], times[1..], clk)
      case Leaves(next) => SoonAt(cfg, ch, q[0], clk) + TooSoon(cfg, next, lane, q[1..], times[1..], clk)
  }

  function SoonAt(cfg: Config, ch: Channel, c: Command, clk: nat): set<int> {
    if c.kind.Precharge? && clk < Horizon(cfg.tables, ch.history, c.Where(), Precharge) then {|ch.history|} else {}
  }

  /** Entries that have already had their turn and stayed stand before the rest. */
  function Prefixed(p: seq<Command>, t: seq<int>, d: Option<Drained>): Option<Drained> {
    match d
    case None => None
    case Some(e) => Some(Drained(e.channel, p + e.rest, t + e.times))
  }

  lemma {:induction false} DrainStart(cfg: Config, ch: Channel, lane: Lane, q: seq<Command>, times: seq<int>, clk: nat)
    requires |times| == |q|
    ensures Drain(cfg, ch, lane, q, times, clk) ==
      Prefixed(q[..0], times[..0], Drain(cfg, ch, lane, q[0..], times[0..], clk))
  {
    hide Drain;
    assert q[0..] == q && times[0..] == times;
    match Drain(cfg, ch, lane, q, times, clk) {
      case None =>
      case Some(d) => assert q[..0] + d.rest == d.rest && times[..0] + d.times == d.times;
    }
  }

  /** One turn of the loop that walks a queue and takes out what leaves. */
  lemma {:induction false} DrainStep(cfg: Config, ch: Channel, lane: Lane, q: seq<Command>, times: seq<int>, i: int,
                                     clk: nat)
    requires |times| == |q| && 0 <= i < |q|
    ensures var d := Prefixed(q[..i], times[..i], Drain(cfg, ch, lane, q[i..], times[i..], clk));
      match TurnOf(cfg, ch, lane, q[i], times[i], clk)
      case Exits => d.None?
      case Stays => d == Prefixed(q[..i + 1], times[..i + 1], Drain(cfg, ch, lane, q[i + 1..], times[i + 1..], clk))
      case Leaves(next) =>
        var r, u := RemoveAt(q, i), RemoveAt(times, i);
        d == Prefixed(r[..i], u[..i], Drain(cfg, next, lane, r[i..], u[i..], clk))
  {
    hide TurnOf;
    assert q[i..][1..] == q[i + 1..] && times[i..][1..] == times[i + 1..];
    var r, u := RemoveAt(q, i), RemoveAt(times, i);
    assert r[..i] == q[..i] && r[i..] == q[i + 1..] && u[..i] == times[..i] && u[i..] == times[i + 1..];
    match TurnOf(cfg, ch, lane, q[i], times[i], clk) {
      case Exits =>
      case Leaves(_) =>
      case Stays =>
        match Drain(cfg, ch, lane, q[i + 1..], times[i + 1..], clk) {
          case None =>
          case Some(d) =>
            assert q[..i] + ([q[i]] + d.rest) == q[..i + 1] + d.rest;
            assert times[..i] + ([times[i]] + d.times) == times[..i + 1] + d.times;
        }
    }
  }

  lemma {:induction false} TooSoonStep(cfg: Config, ch: Channel, lane: Lane, q: seq<Command>, times: seq<int>, i: int,
                                       clk: nat)
    requires |times| == |q| && 0 <= i < |q|
    ensures TooSoon(cfg, ch, lane, q[i..], times[i..], clk) ==
      match TurnOf(cfg, ch, lane, q[i], times[i], clk)
      case Exits => {}
      case Stays => TooSoon(cfg, ch, lane, q[i + 1..], times[i + 1..], clk)
      case Leaves(next) =>
        SoonAt(cfg, ch, q[i], clk) + TooSoon(cfg, next, lane, RemoveAt(q, i)[i..], RemoveAt(times, i)[i..], clk)
  {
    hide TurnOf, SoonAt;
    assert q[i..][1..] == q[i + 1..] && times[i..][1..] == times[i + 1..];
    assert RemoveAt(q, i)[i..] == q[i + 1..] && RemoveAt(times, i)[i..] == times[i + 1..];
  }

  /** Only precharges of the weight queue can be too soon. */
  lemma {:induction false} NeverTooSoon(cfg: Config, ch: Channel, lane: Lane, q: seq<Command>, times: seq<int>,
                                        clk: nat)
    requires |times| == |q| && (!lane.Weights? || NoPrecharge(q))
    ensures TooSoon(cfg, ch, lane, q, times, clk) == {}
    decreases |q|
  {
    hide Horizon, Answered, AfterIssue;
    if q != [] {
      assert NoPrecharge(q) ==> NoPrecharge(q[1..]) && !q[0].kind.Precharge?;
      match TurnOf(cfg, ch, lane, q[0], times[0], clk) {
        case Exits =>
        case Stays => NeverTooSoon(cfg, ch, lane, q[1..], times[1..], clk);
        case Leaves(next) => NeverTooSoon(cfg, next, lane, q[1..], times[1..], clk);
      }
    }
  }

  lemma {:induction false} DrainEnd(cfg: Config, ch: Channel, lane: Lane, q: seq<Command>, times: seq<int>, clk: nat)
    requires |times| == |q|
    ensures Prefixed(q[..|q|], times[..|q|], Drain(cfg, ch, lane, q[|q|..], times[|q|..], clk)) ==
      Some(Drained(ch, q, times))
    ensures TooSoon(cfg, ch, lane, q[|q|..], times[|q|..], clk) == {}
  {
    assert q[|q|..] == [] && q[..|q|] + [] == q && times[..|q|] + [] == times;
  }

  function Times(n: nat, t: int): (z: seq<int>)
    ensures |z| == n
  {
    seq(n, _ => t)
  }

  /** The precharges that the PIM part of a cycle sends before their time. */
  function TooSoonIn(cfg: Config, s: PimSide): set<int> {
    TooSoon(cfg, s.channel, Weights, s.rdW, Times(|s.rdW|, 0), s.clk)
  }

  /** A controller without host traffic. */
  datatype PimSide = PimSide(clk: nat, channel: Channel, isInRef: bool,
                             rdW: seq<Command>, rdIn: seq<Command>, releaseTime: seq<int>, wrQ: seq<Command>)
  {
    predicate Idle() { rdW == [] && rdIn == [] && wrQ == [] }
  }

  /** The three queues have their turns one after the other. */
  function WeightsPart(cfg: Config, s: PimSide): Option<PimSide> {
    match Drain(cfg, s.channel, Weights, s.rdW, Times(|s.rdW|, 0), s.clk)
    case None => None
    case Some(d) => Some(s.(channel := d.channel, rdW := d.rest))
  }

  function InputsPart(cfg: Config, s: PimSide): Option<PimSide> {
    if |s.releaseTime| != |s.rdIn| then None
    else match Drain(cfg, s.channel, Inputs, s.rdIn, s.releaseTime, s.clk)
      case None => None
      case Some(d) => Some(s.(channel := d.channel, rdIn := d.rest, releaseTime := d.times))
  }

  function OutputsPart(cfg: Config, s: PimSide): Option<PimSide> {
    match Drain(cfg, s.channel, Outputs, s.wrQ, Times(|s.wrQ|, 0), s.clk)
    case None => None
    case Some(d) => Some(s.(channel := d.channel, wrQ := d.rest))
  }

  /** The PIM part of a cycle. */
  function PimPart(cfg: Config, s: PimSide): Option<PimSide> {
    match WeightsPart(cfg, s)
    case None => None
    case Some(w) => match InputsPart(cfg, w) case None => None case Some(i) => OutputsPart(cfg, i)
  }

  lemma {:induction false} PimPartIgnoresRefresh(cfg: Config, s: PimSide, inRef: bool)
    ensures PimPart(cfg, s.(isInRef := inRef)) ==
      match PimPart(cfg, s) case None => None case Some(t) => Some(t.(isInRef := inRef))
  {
    hide Drain;
  }

  /** The fixed data of a controller. */
  datatype Setup = Setup(cfg: Config, policy: Policy, interval: int)

  /** The refresh clock at the start of a cycle. */
  function Requested(u: Setup, s: PimSide): PimSide {
    if u.interval > 0 && Turning(u.cfg.geo) && s.clk > 0 && s.clk % u.interval == 0 then
      s.(channel := s.channel.(refreshQ := s.channel.refreshQ + [Asked(u.policy,
        Target(Wheel(u.policy, u.cfg.geo), Due(u.interval, s.clk)))]))
    else s
  }

  lemma {:induction false} RequestedRest(u: Setup, s: PimSide)
    ensures var r := Requested(u, s); r.clk == s.clk && r.rdW == s.rdW && r.rdIn == s.rdIn && r.wrQ == s.wrQ
  {
  }

  /** The command that a waiting refresh leads to. */
  function RefreshWork(cfg: Config, ch: Channel, clk: nat): Option<Command> {
    if ch.refreshQ == [] then None else Usable(AnswerTo(cfg, ch, ch.refreshQ[0], clk))
  }

  /** The issuing part of a cycle without host traffic. */
  function Issuing(cfg: Config, s: PimSide): Option<PimSide> {
    var f := RefreshWork(cfg, s.channel, s.clk);
    var refreshes := f.Some? && f.value.IsRefresh();
    var t := s.(isInRef := if s.channel.refreshQ == [] then s.isInRef else !refreshes);
    if refreshes || s.Idle() then
      Some(if f.Some? then t.(channel := AfterIssue(cfg, s.channel, f.value, s.clk)) else t)
    else PimPart(cfg, t)
  }

  /** A cycle given to a refresh, or with nothing in the PIM queues. */
  lemma {:induction false} IssuingOrdinary(cfg: Config, s: PimSide, f: Option<Command>)
    requires f == RefreshWork(cfg, s.channel, s.clk) && ((f.Some? && f.value.IsRefresh()) || s.Idle())
    ensures Issuing(cfg, s) ==
      Some(s.(isInRef := if s.channel.refreshQ == [] then s.isInRef else !(f.Some? && f.value.IsRefresh()),
                                       channel := if f.Some? then AfterIssue(cfg, s.channel, f.value, s.clk)
                                         else s.channel))
  {
  }

  lemma {:induction false} IssuingPim(cfg: Config, s: PimSide, f: Option<Command>)
    requires f == RefreshWork(cfg, s.channel, s.clk) && !((f.Some? && f.value.IsRefresh()) || s.Idle())
    ensures Issuing(cfg, s) == PimPart(cfg, s.(isInRef := if s.channel.refreshQ == [] then s.isInRef else true))
  {
  }

  /** A cycle without host traffic. */
  function Cycle(u: Setup, s: PimSide): Option<PimSide> {
    match Issuing(u.cfg, Requested(u, s))
    case None => None
    case Some(t) => Some(t.(clk := s.clk + 1))
  }

  /** Commands join a PIM queue; inputs carry the time from which they may go. */
  function Deliver(s: PimSide, lane: Lane, cmds: seq<Command>): PimSide {
    match lane
    case Weights => s.(rdW := s.rdW + cmds)
    case Inputs => s.(rdIn := s.rdIn + cmds, releaseTime := s.releaseTime + Times(|cmds|, s.clk))
    case Outputs => s.(wrQ := s.wrQ + cmds)
  }

  // When a cycle ends the simulation

  ghost predicate Awake(geo: Geometry, ch: Channel) { forall p :: geo.Has(p) ==> !BankAt(ch, p).state.Sref? }

  ghost predicate NoPrecharge(q: seq<Command>) { forall k :: 0 <= k < |q| ==> !q[k].kind.Precharge? }

  ghost predicate PimOnly(geo: Geometry,
                          q: seq<Command>) { forall k :: 0 <= k < |q| ==> IsPimCommand(q[k]) && geo.Has(q[k].Where()) }

  lemma {:induction false} BankAfter(cfg: Config, ch: Channel, c: Command, clk: nat, p: Place)
    requires !c.IsRankCmd()
    ensures p != c.Where() ==> BankAt(AfterIssue(cfg, ch, c, clk), p) == BankAt(ch, p)
    ensures !BankAt(ch, p).state.Sref? ==> !BankAt(AfterIssue(cfg, ch, c, clk), p).state.Sref?
  {
    assert (ch.history + [Issued(c, clk)])[..|ch.history|] == ch.history;
  }

  lemma {:induction false} StaysAwake(cfg: Config, ch: Channel, lane: Lane, c: Command, time: int, clk: nat)
    requires Awake(cfg.geo, ch) && IsPimCommand(c) && TurnOf(cfg, ch, lane, c, time, clk).Leaves?
    ensures Awake(cfg.geo, TurnOf(cfg, ch, lane, c, time, clk).channel)
    ensures forall p :: p != c.Where() ==> BankAt(TurnOf(cfg, ch, lane, c, time, clk).channel, p) == BankAt(ch, p)
  {
    hide Answered, AfterIssue, BankAt;
    forall p
      ensures cfg.geo.Has(p) ==> !BankAt(AfterIssue(cfg, ch, c, clk), p).state.Sref?
      ensures p != c.Where() ==> BankAt(AfterIssue(cfg, ch, c, clk), p) == BankAt(ch, p)
    {
      BankAfter(cfg, ch, c, clk, p);
    }
  }

  /** Only a precharge ends the simulation: in the weight queue on a closed bank, elsewhere always. */
  lemma {:induction false} TurnExits(cfg: Config, ch: Channel, lane: Lane, c: Command, time: int, clk: nat)
    requires Awake(cfg.geo, ch) && IsPimCommand(c) && cfg.geo.Has(c.Where())
    ensures TurnOf(cfg, ch, lane, c, time, clk).Exits? <==>
      c.kind.Precharge? && !(lane.Weights? && BankAt(ch, c.Where()).state.Open?)
  {
    if !c.kind.Precharge? {
      AbortsExactly(BankAt(ch, c.Where()), if c.kind.PimActivate? then Command(Probe(lane), c.addr, c.hexAddr) else c);
    }
  }

  /** The input and output queues go through exactly when no precharge stands in them. */
  lemma {:induction false} DrainsExactly(cfg: Config, ch: Channel, lane: Lane, q: seq<Command>, times: seq<int>,
                                         clk: nat)
    requires |times| == |q| && Awake(cfg.geo, ch) && PimOnly(cfg.geo, q) && !lane.Weights?
    ensures Drain(cfg, ch, lane, q, times, clk).Some? <==> NoPrecharge(q)
    ensures Drain(cfg, ch, lane, q, times, clk).Some? ==>
      Awake(cfg.geo, Drain(cfg, ch, lane, q, times, clk).value.channel)
    decreases |q|
  {
    hide TurnOf, Awake;
    if q != [] {
      TurnExits(cfg, ch, lane, q[0], times[0], clk);
      var t := TurnOf(cfg, ch, lane, q[0], times[0], clk);
      assert NoPrecharge(q) <==> !q[0].kind.Precharge? && NoPrecharge(q[1..]) by {
        assert forall k :: 1 <= k < |q| ==> q[k] == q[1..][k - 1];
      }
      if t.Leaves? {
        StaysAwake(cfg, ch, lane, q[0], times[0], clk);
        DrainsExactly(cfg, t.channel, lane, q[1..], times[1..], clk);
      } else if t.Stays? {
        DrainsExactly(cfg, ch, lane, q[1..], times[1..], clk);
      }
    }
  }

  /** Before a precharge the queue neither opens its bank nor closes it with an access. */
  ghost predicate Undisturbed(q: seq<Command>) {
    forall i, k :: 0 <= i < k < |q| && q[k].kind.Precharge? && q[i].Where() == q[k].Where() ==>
      q[i].kind.Precharge? || !(q[i].kind.PimActivate? || IsClosing(q[i].kind))
  }

  /** No bank is precharged twice. */
  ghost predicate NoneTwice(q: seq<Command>) {
    forall i, k :: 0 <= i < k < |q| && q[i].kind.Precharge? && q[k].kind.Precharge? ==> q[i].Where() != q[k].Where()
  }

  ghost predicate PrechargesOpen(ch: Channel, q: seq<Command>) {
    forall k :: 0 <= k < |q| && q[k].kind.Precharge? ==> BankAt(ch, q[k].Where()).state.Open?
  }

  /** What an entry that leaves does to the bank of a later precharge. */
  lemma {:induction false} BankLater(cfg: Config, ch: Channel, c: Command, time: int, clk: nat, p: Place)
    requires IsPimCommand(c) && TurnOf(cfg, ch, Weights, c, time, clk).Leaves?
    requires p == c.Where() ==> c.kind.Precharge? || !(c.kind.PimActivate? || IsClosing(c.kind))
    ensures BankAt(TurnOf(cfg, ch, Weights, c, time, clk).channel, p).state.Open? <==>
      BankAt(ch, p).state.Open? && !(c.kind.Precharge? && p == c.Where())
  {
    BankAfter(cfg, ch, c, clk, p);
    assert (ch.history + [Issued(c, clk)])[..|ch.history|] == ch.history;
  }

  /** With such queues the weight queue goes through exactly when every precharge in it finds its bank
      open and no bank is precharged twice. */
  lemma {:induction false} WeightsDrainExactly(cfg: Config, ch: Channel, q: seq<Command>, times: seq<int>, clk: nat)
    requires |times| == |q| && Awake(cfg.geo, ch) && PimOnly(cfg.geo, q) && Undisturbed(q)
    ensures Drain(cfg, ch, Weights, q, times, clk).Some? <==> PrechargesOpen(ch, q) && NoneTwice(q)
    decreases |q|
  {
    hide TurnOf, Awake, BankAt;
    if q != [] {
      TurnExits(cfg, ch, Weights, q[0], times[0], clk);
      var t := TurnOf(cfg, ch, Weights, q[0], times[0], clk);
      QueueSplit(ch, q);
      if t.Leaves? {
        StaysAwake(cfg, ch, Weights, q[0], times[0], clk);
        WeightsDrainExactly(cfg, t.channel, q[1..], times[1..], clk);
        LaterOpen(cfg, ch, q, times[0], clk);
      } else if t.Stays? {
        WeightsDrainExactly(cfg, ch, q[1..], times[1..], clk);
        PrechargeGoes(cfg, ch, q[0], times[0], clk);
      }
    }
  }

  lemma {:induction false} PrechargeGoes(cfg: Config, ch: Channel, c: Command, time: int, clk: nat)
    requires TurnOf(cfg, ch, Weights, c, time, clk).Stays?
    ensures !c.kind.Precharge?
  {
  }

  lemma {:induction false} LaterOpen(cfg: Config, ch: Channel, q: seq<Command>, time: int, clk: nat)
    requires q != [] && PimOnly(cfg.geo, q) && Undisturbed(q) && TurnOf(cfg, ch, Weights, q[0], time, clk).Leaves?
    ensures PrechargesOpen(TurnOf(cfg, ch, Weights, q[0], time, clk).channel, q[1..]) <==>
      PrechargesOpen(ch, q[1..]) && forall k :: 1 <= k < |q| && q[0].kind.Precharge? && q[k].kind.Precharge? ==>
        q[0].Where() != q[k].Where()
  {
    hide TurnOf, BankAt;
    var next := TurnOf(cfg, ch, Weights, q[0], time, clk).channel;
    forall k | 1 <= k < |q| && q[k].kind.Precharge?
      ensures BankAt(next, q[k].Where()).state.Open? <==>
        BankAt(ch, q[k].Where()).state.Open? && !(q[0].kind.Precharge? && q[0].Where() == q[k].Where())
    {
      BankLater(cfg, ch, q[0], time, clk, q[k].Where());
    }
    assert forall k :: 0 <= k < |q| - 1 ==> q[1..][k] == q[k + 1];
    assert forall k :: 1 <= k < |q| ==> q[k] == q[1..][k - 1];
  }

  lemma {:induction false} QueueSplit(ch: Channel, q: seq<Command>)
    requires q != []
    ensures PrechargesOpen(ch, q) <==>
      (q[0].kind.Precharge? ==> BankAt(ch, q[0].Where()).state.Open?) && PrechargesOpen(ch, q[1..])
    ensures NoneTwice(q) <==>
      NoneTwice(q[1..]) && forall k :: 1 <= k < |q| && q[0].kind.Precharge? && q[k].kind.Precharge? ==>
        q[0].Where() != q[k].Where()
    ensures Undisturbed(q) ==> Undisturbed(q[1..])
  {
    hide BankAt;
    assert forall k :: 1 <= k < |q| ==> q[k] == q[1..][k - 1];
  }

  /** Whatever else the weight queue holds: a precharge of a closed bank ends the simulation unless an
      activation of the bank stands before it. */
  lemma {:induction false} ClosedPrechargeExits(cfg: Config, ch: Channel, q: seq<Command>, times: seq<int>, clk: nat,
                                          j: int)
    requires |times| == |q| && PimOnly(cfg.geo, q) && 0 <= j < |q| && q[j].kind.Precharge?
    requires BankAt(ch, q[j].Where()).state.Closed?
    requires forall k :: 0 <= k < j ==> !(q[k].kind.PimActivate? && q[k].Where() == q[j].Where())
    ensures Drain(cfg, ch, Weights, q, times, clk).None?
    decreases |q|
  {
    hide BankAt, AfterIssue;
    var t := TurnOf(cfg, ch, Weights, q[0], times[0], clk);
    if j > 0 {
      ClosedStays(cfg, ch, q[0], times[0], clk, q[j].Where());
      ClosedPrechargeExits(cfg, if t.Leaves? then t.channel else ch, q[1..], times[1..], clk, j - 1);
    }
  }

  lemma {:induction false} ClosedStays(cfg: Config, ch: Channel, c: Command, time: int, clk: nat, p: Place)
    requires IsPimCommand(c) && BankAt(ch, p).state.Closed? && !(c.kind.PimActivate? && c.Where() == p)
    ensures TurnOf(cfg, ch, Weights, c, time, clk).Leaves? ==>
      BankAt(TurnOf(cfg, ch, Weights, c, time, clk).channel, p).state.Closed?
  {
    BankAfter(cfg, ch, c, clk, p);
  }

  /** A bank that is precharged twice ends it too, even when it is open at the start of the cycle. */
  lemma {:induction false} SecondPrechargeExits(cfg: Config, ch: Channel, q: seq<Command>, times: seq<int>, clk: nat,
                                          i: int, j: int)
    requires |times| == |q| && PimOnly(cfg.geo, q) && 0 <= i < j < |q|
    requires q[i].kind.Precharge? && q[j].kind.Precharge? && q[i].Where() == q[j].Where()
    requires forall k :: i < k < j ==> !(q[k].kind.PimActivate? && q[k].Where() == q[j].Where())
    ensures Drain(cfg, ch, Weights, q, times, clk).None?
    decreases |q|
  {
    hide BankAt, AfterIssue;
    var t := TurnOf(cfg, ch, Weights, q[0], times[0], clk);
    if i > 0 {
      SecondPrechargeExits(cfg, if t.Leaves? then t.channel else ch, q[1..], times[1..], clk, i - 1, j - 1);
    } else if t.Leaves? {
      PrechargeCloses(cfg, ch, q[0], clk);
      ClosedPrechargeExits(cfg, t.channel, q[1..], times[1..], clk, j - 1);
    }
  }

  lemma {:induction false} PrechargeCloses(cfg: Config, ch: Channel, c: Command, clk: nat)
    requires c.kind.Precharge? && BankAt(ch, c.Where()).state.Open?
    ensures BankAt(AfterIssue(cfg, ch, c, clk), c.Where()).state.Closed?
  {
    assert (ch.history + [Issued(c, clk)])[..|ch.history|] == ch.history;
  }

  lemma {:induction false} WeightsAwake(cfg: Config, ch: Channel, q: seq<Command>, times: seq<int>, clk: nat)
    requires |times| == |q| && Awake(cfg.geo, ch) && PimOnly(cfg.geo, q)
    ensures Drain(cfg, ch, Weights, q, times, clk).Some? ==>
      Awake(cfg.geo, Drain(cfg, ch, Weights, q, times, clk).value.channel)
    decreases |q|
  {
    hide TurnOf, Awake;
    if q != [] {
      var t := TurnOf(cfg, ch, Weights, q[0], times[0], clk);
      if t.Leaves? {
        StaysAwake(cfg, ch, Weights, q[0], times[0], clk);
        WeightsAwake(cfg, t.channel, q[1..], times[1..], clk);
      } else if t.Stays? {
        WeightsAwake(cfg, ch, q[1..], times[1..], clk);
      }
    }
  }

  /** The PIM part goes through exactly when no precharge stands in the input or output queue and the
      weight queue goes through. */
  lemma {:induction false} PimPartExactly(cfg: Config, s: PimSide)
    requires |s.releaseTime| == |s.rdIn| && Awake(cfg.geo, s.channel) && PimOnly(cfg.geo, s.rdW)
    requires PimOnly(cfg.geo, s.rdIn) && PimOnly(cfg.geo, s.wrQ)
    ensures PimPart(cfg, s).Some? <==>
      Drain(cfg, s.channel, Weights, s.rdW, Times(|s.rdW|, 0), s.clk).Some? && NoPrecharge(s.rdIn) && NoPrecharge(s.wrQ)
    ensures Undisturbed(s.rdW) ==>
      (PimPart(cfg, s).Some? <==>
        PrechargesOpen(s.channel, s.rdW) && NoneTwice(s.rdW) && NoPrecharge(s.rdIn) && NoPrecharge(s.wrQ))
  {
    hide Drain, Awake, Times;
    if Undisturbed(s.rdW) {
      WeightsDrainExactly(cfg, s.channel, s.rdW, Times(|s.rdW|, 0), s.clk);
    }
    if WeightsPart(cfg, s).Some? {
      WeightsAwake(cfg, s.channel, s.rdW, Times(|s.rdW|, 0), s.clk);
      var w := WeightsPart(cfg, s).value;
      DrainsExactly(cfg, w.channel, Inputs, s.rdIn, s.releaseTime, s.clk);
      if InputsPart(cfg, w).Some? {
        DrainsExactly(cfg, InputsPart(cfg, w).value.channel, Outputs, s.wrQ, Times(|s.wrQ|, 0), s.clk);
      }
    }
  }

  // What becomes of the entries of a queue

  /** When an entry other than a precharge can go: an access when its row is open and its time has come,
      an activation when its bank is closed, its time has come and the windows allow it. */
  predicate CanGo(cfg: Config, ch: Channel, c: Command, clk: nat) {
    var bank := BankAt(ch, c.Where());
    && clk >= Horizon(cfg.tables, ch.history, c.Where(), c.kind)
    && if c.kind.PimActivate? then bank.state.Closed? && WindowsOpen(cfg, ch, c.addr.rank, clk)
       else bank.state.Open? && bank.openRow == c.addr.row
  }

  /** An entry leaves exactly when it can go and has been released. */
  lemma {:induction false} LeavesExactly(cfg: Config, ch: Channel, lane: Lane, c: Command, time: int, clk: nat)
    requires Awake(cfg.geo, ch) && IsPimCommand(c) && cfg.geo.Has(c.Where()) && !c.kind.Precharge?
    ensures TurnOf(cfg, ch, lane, c, time, clk).Leaves? <==> clk >= time && CanGo(cfg, ch, c, clk)
    ensures !TurnOf(cfg, ch, lane, c, time, clk).Leaves? ==> TurnOf(cfg, ch, lane, c, time, clk).Stays?
  {
    hide Horizon, WindowsOpen, BankAt, AfterIssue;
  }

  /** q is rest and left, each in its own order. */
  ghost predicate Merges(q: seq<Command>, rest: seq<Command>, left: seq<Command>)
    decreases |q|
  {
    if q == [] then rest == [] && left == []
    else (rest != [] && q[0] == rest[0] && Merges(q[1..], rest[1..], left))
         || (left != [] && q[0] == left[0] && Merges(q[1..], rest, left[1..]))
  }

  /** Nothing is lost and nothing is made up. */
  lemma {:induction false} MergesCounts(q: seq<Command>, rest: seq<Command>, left: seq<Command>)
    requires Merges(q, rest, left)
    ensures multiset(q) == multiset(rest) + multiset(left)
    decreases |q|
  {
    if q != [] {
      assert q == [q[0]] + q[1..];
      if rest != [] && q[0] == rest[0] && Merges(q[1..], rest[1..], left) {
        assert rest == [rest[0]] + rest[1..];
        MergesCounts(q[1..], rest[1..], left);
      } else {
        assert left == [left[0]] + left[1..];
        MergesCounts(q[1..], rest, left[1..]);
      }
    }
  }

  /** The commands that an issue at clk adds to a history; while a refresh waits activations are dropped. */
  function Stamped(left: seq<Command>, waits: bool, clk: nat): seq<Issued> {
    if left == [] then []
    else (if waits && left[0].kind.PimActivate? then [] else [Issued(left[0], clk)]) + Stamped(left[1..], waits, clk)
  }

  lemma {:induction false} StampedStep(c: Command, left: seq<Command>, waits: bool, clk: nat)
    ensures Stamped([c] + left, waits, clk) ==
      (if waits && c.kind.PimActivate? then [] else [Issued(c, clk)]) + Stamped(left, waits, clk)
  {
    assert ([c] + left)[1..] == left;
  }

  lemma {:induction false} StampedBoth(a: seq<Command>, b: seq<Command>, waits: bool, clk: nat)
    ensures Stamped(a + b, waits, clk) == Stamped(a, waits, clk) + Stamped(b, waits, clk)
    decreases |a|
  {
    hide Stamped;
    if a == [] {
      assert a + b == b;
      NothingSent(waits, clk);
    } else {
      assert a + b == [a[0]] + (a[1..] + b) && a == [a[0]] + a[1..];
      StampedStep(a[0], a[1..] + b, waits, clk);
      StampedStep(a[0], a[1..], waits, clk);
      StampedBoth(a[1..], b, waits, clk);
    }
  }

  lemma {:induction false} TurnSends(cfg: Config, ch: Channel, lane: Lane, c: Command, time: int, clk: nat)
    requires IsPimCommand(c) && TurnOf(cfg, ch, lane, c, time, clk).Leaves?
    ensures var next := TurnOf(cfg, ch, lane, c, time, clk).channel;
      && next.refreshQ == ch.refreshQ
      && next.history == ch.history + if ch.refreshQ != [] && c.kind.PimActivate? then [] else [Issued(c, clk)]
  {
    hide Answered, BankAt;
  }

  lemma {:induction false} MergesStep(q: seq<Command>, rest: seq<Command>, left: seq<Command>)
    requires q != []
    ensures Merges(q[1..], rest, left) ==> Merges(q, [q[0]] + rest, left) && Merges(q, rest, [q[0]] + left)
  {
    assert ([q[0]] + rest)[1..] == rest && ([q[0]] + left)[1..] == left;
  }

  /** Whatever leaves a queue is issued in this very cycle, in order, activations while a refresh waits
      apart; whatever is not issued is still in the queue. */
  lemma {:induction false} DrainSends(cfg: Config, ch: Channel, lane: Lane, q: seq<Command>, times: seq<int>, clk: nat)
    returns (left: seq<Command>)
    requires |times| == |q| && PimOnly(cfg.geo, q) && Drain(cfg, ch, lane, q, times, clk).Some?
    ensures var d := Drain(cfg, ch, lane, q, times, clk).value;
      Merges(q, d.rest, left) && d.channel.history == ch.history + Stamped(left, ch.refreshQ != [], clk)
      && d.channel.refreshQ == ch.refreshQ
    decreases |q|
  {
    hide TurnOf, Merges, Stamped;
    left := [];
    if q == [] {
      NothingSent(ch.refreshQ != [], clk);
    } else {
      match TurnOf(cfg, ch, lane, q[0], times[0], clk) {
        case Exits =>
        case Leaves(next) =>
          TurnSends(cfg, ch, lane, q[0], times[0], clk);
          var more := DrainSends(cfg, next, lane, q[1..], times[1..], clk);
          left := [q[0]] + more;
          MergesStep(q, Drain(cfg, ch, lane, q, times, clk).value.rest, more);
          StampedStep(q[0], more, ch.refreshQ != [], clk);
        case Stays =>
          left := DrainSends(cfg, ch, lane, q[1..], times[1..], clk);
          MergesStep(q, Drain(cfg, ch, lane, q[1..], times[1..], clk).value.rest, left);
      }
    }
  }

  lemma {:induction false} NothingSent(waits: bool, clk: nat)
    ensures Merges([], [], []) && Stamped([], waits, clk) == []
  {
  }

  /** The channel as each entry finds it in its turn, and which entries leave. */
  ghost predicate Fates(cfg: Config, ch: Channel, q: seq<Command>, times: seq<int>, clk: nat, stages: seq<Channel>,
                        leaves: seq<bool>) {
    && |times| == |q| && |stages| == |q| + 1 && |leaves| == |q| && stages[0] == ch
    && forall k :: 0 <= k < |q| ==> Fate(cfg, stages[k], q[k], times[k], clk, stages[k + 1], leaves[k])
  }

  /** A precharge leaves, and any other entry exactly when it is released and can go; it is issued then,
      unless it is an activation and a refresh waits. */
  ghost predicate Fate(cfg: Config, ch: Channel, c: Command, time: int, clk: nat, next: Channel, leaves: bool) {
    && (leaves <==> c.kind.Precharge? || (clk >= time && CanGo(cfg, ch, c, clk)))
    && next == if leaves && !(ch.refreshQ != [] && c.kind.PimActivate?) then AfterIssue(cfg, ch, c, clk) else ch
  }

  function Staying(q: seq<Command>, leaves: seq<bool>): seq<Command>
    requires |leaves| == |q|
  {
    if q == [] then [] else (if leaves[0] then [] else [q[0]]) + Staying(q[1..], leaves[1..])
  }

  /** Every entry of a queue that goes through has its turn: what stays could not go. */
  lemma {:induction false} DrainFates(cfg: Config, ch: Channel, lane: Lane, q: seq<Command>, times: seq<int>, clk: nat)
    returns (stages: seq<Channel>, leaves: seq<bool>)
    requires |times| == |q| && Awake(cfg.geo, ch) && PimOnly(cfg.geo, q) && Drain(cfg, ch, lane, q, times, clk).Some?
    ensures Fates(cfg, ch, q, times, clk, stages, leaves)
    ensures var d := Drain(cfg, ch, lane, q, times, clk).value; d.channel == stages[|q|] && d.rest == Staying(q, leaves)
    decreases |q|
  {
    hide TurnOf, Awake, CanGo, AfterIssue;
    if q == [] {
      stages, leaves := [ch], [];
    } else {
      var t := TurnOf(cfg, ch, lane, q[0], times[0], clk);
      TurnExits(cfg, ch, lane, q[0], times[0], clk);
      FirstFate(cfg, ch, lane, q[0], times[0], clk);
      if t.Leaves? {
        StaysAwake(cfg, ch, lane, q[0], times[0], clk);
      }
      var next := if t.Leaves? then t.channel else ch;
      var s, l := DrainFates(cfg, next, lane, q[1..], times[1..], clk);
      stages, leaves := [ch] + s, [t.Leaves?] + l;
      assert leaves[1..] == l;
      forall k | 0 <= k < |q|
        ensures Fate(cfg, stages[k], q[k], times[k], clk, stages[k + 1], leaves[k])
      {
        if k > 0 {
          assert Fate(cfg, s[k - 1], q[1..][k - 1], times[1..][k - 1], clk, s[k], l[k - 1]);
        }
      }
    }
  }

  lemma {:induction false} FirstFate(cfg: Config, ch: Channel, lane: Lane, c: Command, time: int, clk: nat)
    requires Awake(cfg.geo, ch) && IsPimCommand(c) && cfg.geo.Has(c.Where())
    requires !TurnOf(cfg, ch, lane, c, time, clk).Exits?
    ensures var t := TurnOf(cfg, ch, lane, c, time, clk);
      Fate(cfg, ch, c, time, clk, if t.Leaves? then t.channel else ch, t.Leaves?)
  {
    if !c.kind.Precharge? {
      LeavesExactly(cfg, ch, lane, c, time, clk);
    }
  }

  /** What the PIM part of a cycle takes from its three queues is what it adds to the history. */
  ghost predicate Sends(s: PimSide, now: PimSide) {
    exists w: seq<Command>, i: seq<Command>, o: seq<Command> ::
      && Merges(s.rdW, now.rdW, w) && Merges(s.rdIn, now.rdIn, i) && Merges(s.wrQ, now.wrQ, o)
      && now.channel.history == s.channel.history + Stamped(w + i + o, s.channel.refreshQ != [], s.clk)
  }

  lemma {:induction false} PimPartSends(cfg: Config, s: PimSide)
    requires PimOnly(cfg.geo, s.rdW) && PimOnly(cfg.geo, s.rdIn) && PimOnly(cfg.geo, s.wrQ) && PimPart(cfg, s).Some?
    ensures Sends(s, PimPart(cfg, s).value)
  {
    hide Drain, Times, Merges, Stamped;
    var a := WeightsPart(cfg, s).value;
    var w := DrainSends(cfg, s.channel, Weights, s.rdW, Times(|s.rdW|, 0), s.clk);
    var b := InputsPart(cfg, a).value;
    var i := DrainSends(cfg, a.channel, Inputs, s.rdIn, s.releaseTime, s.clk);
    var o := DrainSends(cfg, b.channel, Outputs, s.wrQ, Times(|s.wrQ|, 0), s.clk);
    var waits := s.channel.refreshQ != [];
    StampedBoth(w, i, waits, s.clk);
    StampedBoth(w + i, o, waits, s.clk);
    ghost var x, y, z := Stamped(w, waits, s.clk), Stamped(i, waits, s.clk), Stamped(o, waits, s.clk);
    assert s.channel.history + x + y + z == s.channel.history + (x + y + z);
  }
}
