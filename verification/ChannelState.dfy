/** One channel: its banks, its activation windows and its refresh queue. */
module Channels {
  import opened Commands
  import opened TimingSpec
  import opened BankSpec
  import opened ActivationWindow
  import opened Banks
  import opened ChannelSpec

  lemma {:induction false} DropRankStep(q: seq<Command>, i: int, rank: int)
    requires 0 <= i < |q|
    ensures q[..i] + DropRank(q[i..], rank) ==
      if q[i].addr.rank == rank then q[..i] + q[i + 1..] else q[..i + 1] + DropRank(q[i + 1..], rank)
  {
    assert q[i..][1..] == q[i + 1..];
    assert q[..i] + [q[i]] == q[..i + 1];
  }

  lemma {:induction false} DropBankStep(q: seq<Command>, i: int, p: Place)
    requires 0 <= i < |q|
    ensures q[..i] + DropBank(q[i..], p) ==
      if q[i].Where() == p then q[..i] + q[i + 1..] else q[..i + 1] + DropBank(q[i + 1..], p)
  {
    assert q[i..][1..] == q[i + 1..];
    assert q[..i] + [q[i]] == q[..i + 1];
  }

  function RankRefresh(rank: int): Command { Command(Refresh, Address(-1, rank, -1, -1, -1, -1), -1) }

  function BankRefresh(p: Place): Command {
    Command(RefreshBank, Address(-1, p.rank, p.group, p.bank, -1, -1), -1)
  }

  lemma {:induction false} DropsOnly(q: seq<Command>, cmd: Command)
    ensures forall i :: 0 <= i < |AfterRefresh(q, cmd)| ==> AfterRefresh(q, cmd)[i] in q
    decreases |q|
  {
    if q != [] {
      DropsOnly(q[1..], cmd);
      var rest := AfterRefresh(q[1..], cmd);
      assert AfterRefresh(q, cmd) in {q, q[1..], [q[0]] + rest};
      forall i | 0 <= i < |[q[0]] + rest| ensures ([q[0]] + rest)[i] in q {
        assert i > 0 ==> rest[i - 1] in q[1..];
      }
    }
  }

  ghost predicate SoundHistory(t: Tables, geo: Geometry, h: seq<Issued>, early: set<int>) {
    && InOrder(h)
    && (forall i :: i in early <==> 0 <= i < |h| && !OnTime(t, geo, h, i))
    && HitsOpenRow(h)
    && RefreshesClosed(geo, h)
  }

  /** The record of early commands stays exact when one more command is entered. */
  lemma {:induction false} RecordExtends(t: Tables, geo: Geometry, h: seq<Issued>, early: set<int>, x: Issued)
    requires forall i :: i in early <==> 0 <= i < |h| && !OnTime(t, geo, h, i)
    ensures var timely := forall p :: geo.Has(p) && x.cmd.Touches(p) ==> x.clk >= Horizon(t, h, p, x.cmd.kind);
      var e := if timely then early else early + {|h|};
      forall i :: i in e <==> 0 <= i < |h + [x]| && !OnTime(t, geo, h + [x], i)
  {
    OnTimeExtend(t, geo, h, x);
    hide OnTime;
  }

  /** Requests that a bank answers. */
  predicate Askable(k: CommandType) { IsAccess(k) || k.Refresh? || k.RefreshBank? || k.SrefEnter? }

  ghost predicate FreshBank(b: BankState, p: Place)
    reads b
  {
    b.place == p && b.View() == FRESH && forall c: CommandType :: b.Earliest(c) == 0
  }

  class ChannelState {
    const geo: Geometry
    const tables: Tables
    const tFAW: nat
    const t32AW: nat
    const isGddr: bool
    const bankStates: seq<seq<seq<BankState>>>
    ghost const banks: set<BankState>
    var refreshQ: seq<Command>
    var fourAw: seq<seq<nat>>
    var thirtyTwoAw: seq<seq<nat>>
    ghost var history: seq<Issued>
    ghost var early: set<int>

    ghost function Settings(): Config { Config(geo, tables, tFAW, t32AW, isGddr) }

    ghost function View(): Channel
      reads this`history, this`refreshQ, this`fourAw, this`thirtyTwoAw
    {
      Channel(history, refreshQ, fourAw, thirtyTwoAw)
    }

    ghost predicate Shaped() {
      && geo.ranks > 0 && geo.groups > 0 && geo.banks > 0
      && |bankStates| == geo.ranks
      && (forall r :: 0 <= r < geo.ranks ==> |bankStates[r]| == geo.groups)
      && (forall r, g :: 0 <= r < geo.ranks && 0 <= g < geo.groups ==> |bankStates[r][g]| == geo.banks)
    }

    function At(p: Place): BankState
      requires Shaped() && geo.Has(p)
    {
      bankStates[p.rank][p.group][p.bank]
    }

    /** Each coordinate has its own bank object. */
    ghost predicate Wired() {
      && Shaped()
      && forall p :: geo.Has(p) ==> At(p).place == p && At(p) in banks
    }

    /** The bank at p holds exactly what the history implies. */
    ghost predicate Tracks(p: Place)
      requires Shaped() && geo.Has(p)
      reads this`history, At(p)
    {
      && Replay(history, p) == Some(At(p).View())
      && !At(p).state.Sref?
      && forall c: CommandType :: At(p).Earliest(c) == Horizon(tables, history, p, c)
    }

    /** The activations of the rank keep their distance, and the lists summarise them. */
    ghost predicate WindowValid(r: int)
      requires |fourAw| == |thirtyTwoAw| == geo.ranks && 0 <= r < geo.ranks
      reads this`history, this`fourAw, this`thirtyTwoAw
    {
      var acts := ActTimes(history, r);
      && Sorted(acts)
      && Summarises(fourAw[r], acts, 4, tFAW) && Spaced(acts, 4, tFAW)
      && (isGddr ==> Summarises(thirtyTwoAw[r], acts, 32, t32AW) && Spaced(acts, 32, t32AW))
    }

    ghost predicate WindowsValid()
      reads this`history, this`fourAw, this`thirtyTwoAw
    {
      && |fourAw| == |thirtyTwoAw| == geo.ranks
      && forall r :: 0 <= r < geo.ranks ==> WindowValid(r)
    }

    ghost predicate RefreshShape(c: Command) {
      && c.IsRefresh() && Addressed(c)
    }

    /** What every command issued so far has respected; those issued before their time are on record. */
    ghost predicate Sound()
      reads this`history, this`early
    {
      SoundHistory(tables, geo, history, early)
    }

    /** The history meets every constraint exactly when nothing was issued before its time. */
    lemma {:induction false} SoundTiming()
      requires Sound()
      ensures MeetsEveryConstraint(tables, geo, history) <==> early == {}
    {
      if MeetsEveryConstraint(tables, geo, history) {
        assert forall i :: i !in early;
      }
    }

    ghost predicate Valid()
      reads this, banks
    {
      && Wired()
      && (forall p :: geo.Has(p) ==> Tracks(p))
      && WindowsValid()
      && Sound()
      && (forall i :: 0 <= i < |refreshQ| ==> RefreshShape(refreshQ[i]))
    }

    lemma {:induction false} NeverSleeps()
      requires Valid()
      ensures forall p :: geo.Has(p) ==> !BankAt(View(), p).state.Sref?
    {
      forall p | geo.Has(p)
        ensures !BankAt(View(), p).state.Sref?
      {
        assert Tracks(p);
      }
    }

    /** No command of the history is later than clk. */
    ghost predicate Upto(clk: nat)
      reads this`history
    {
      forall i :: 0 <= i < |history| ==> history[i].clk <= clk
    }

    predicate ActivationWindowOk(rank: int, clk: nat)
      requires |fourAw| == |thirtyTwoAw| == geo.ranks && 0 <= rank < geo.ranks
      reads this`fourAw, this`thirtyTwoAw
    {
      WindowReady(fourAw[rank], 4, clk) && (isGddr ==> WindowReady(thirtyTwoAw[rank], 32, clk))
    }

    predicate IsRefreshWaiting()
      reads this
    {
      refreshQ != []
    }

    ghost predicate Addressed(cmd: Command) {
      0 <= cmd.addr.rank < geo.ranks && (cmd.IsRankCmd() || geo.Has(cmd.Where()))
    }

    /** Every bank the command touches can take it, in its own row and inside the windows. */
    ghost predicate Legal(cmd: Command, clk: nat)
      requires Wired() && |fourAw| == |thirtyTwoAw| == geo.ranks
      reads this`fourAw, this`thirtyTwoAw, banks
    {
      && Addressed(cmd)
      && !cmd.kind.SrefEnter? && !cmd.kind.SrefExit?
      && (forall p :: geo.Has(p) && cmd.Touches(p) ==> Advance(At(p).View(), cmd).Some?)
      && (IsActivation(cmd.kind) ==> ActivationWindowOk(cmd.addr.rank, clk))
      && (IsAccess(cmd.kind) ==> At(cmd.Where()).openRow == cmd.addr.row)
    }

    /** The time of the command has come on every bank it touches. */
    ghost predicate InTime(cmd: Command, clk: nat)
      requires Wired()
      reads banks
    {
      forall p :: geo.Has(p) && cmd.Touches(p) ==> clk >= At(p).Earliest(cmd.kind)
    }

    /** The command is legal and on time on every bank it touches. */
    ghost predicate Issuable(cmd: Command, clk: nat)
      requires Wired() && |fourAw| == |thirtyTwoAw| == geo.ranks
      reads this`fourAw, this`thirtyTwoAw, banks
    {
      Legal(cmd, clk) && InTime(cmd, clk)
    }

    static method AllocateGroup(geo: Geometry, r: int, g: int)
      returns (group: seq<BankState>, ghost made: set<BankState>)
      ensures |group| == geo.banks && fresh(made)
      ensures forall k :: 0 <= k < geo.banks ==> FreshBank(group[k], Place(r, g, k)) && group[k] in made
    {
      group, made := [], {};
      for k := 0 to geo.banks
        invariant |group| == k && fresh(made)
        invariant forall i :: 0 <= i < k ==> FreshBank(group[i], Place(r, g, i)) && group[i] in made
      {
        var b := new BankState(Place(r, g, k));
        group, made := group + [b], made + {b};
      }
    }

    static method AllocateRank(geo: Geometry, r: int) returns (rank: seq<seq<BankState>>, ghost made: set<BankState>)
      ensures |rank| == geo.groups && fresh(made)
      ensures forall g :: 0 <= g < geo.groups ==> |rank[g]| == geo.banks
      ensures forall g, k :: 0 <= g < geo.groups && 0 <= k < geo.banks ==>
                FreshBank(rank[g][k], Place(r, g, k)) && rank[g][k] in made
    {
      rank, made := [], {};
      for g := 0 to geo.groups
        invariant |rank| == g && fresh(made)
        invariant forall j :: 0 <= j < g ==> |rank[j]| == geo.banks
        invariant forall j, k :: 0 <= j < g && 0 <= k < geo.banks ==>
                    FreshBank(rank[j][k], Place(r, j, k)) && rank[j][k] in made
      {
        ghost var more;
        var group;
        group, more := AllocateGroup(geo, r, g);
        rank, made := rank + [group], made + more;
      }
    }

    constructor (geo: Geometry, tables: Tables, tFAW: nat, t32AW: nat, isGddr: bool)
      requires geo.ranks > 0 && geo.groups > 0 && geo.banks > 0
      ensures Valid() && fresh(banks) && history == [] && refreshQ == [] && early == {}
      ensures fourAw == thirtyTwoAw == seq(geo.ranks, _ => [])
      ensures this.geo == geo && this.tables == tables
      ensures this.tFAW == tFAW && this.t32AW == t32AW && this.isGddr == isGddr
    {
      var all: seq<seq<seq<BankState>>> := [];
      ghost var made: set<BankState> := {};
      for r := 0 to geo.ranks
        invariant |all| == r && fresh(made)
        invariant forall i :: 0 <= i < r ==> |all[i]| == geo.groups
        invariant forall i, g :: 0 <= i < r && 0 <= g < geo.groups ==> |all[i][g]| == geo.banks
        invariant forall i, g, k :: 0 <= i < r && 0 <= g < geo.groups && 0 <= k < geo.banks ==>
                    FreshBank(all[i][g][k], Place(i, g, k)) && all[i][g][k] in made
      {
        ghost var more;
        var rank;
        rank, more := AllocateRank(geo, r);
        all, made := all + [rank], made + more;
      }
      this.geo, this.tables := geo, tables;
      this.tFAW, this.t32AW, this.isGddr := tFAW, t32AW, isGddr;
      bankStates, banks := all, made;
      refreshQ, history, early := [], [], {};
      fourAw, thirtyTwoAw := seq(geo.ranks, _ => []), seq(geo.ranks, _ => []);
      new;
      forall p | this.geo.Has(p) ensures Tracks(p) && At(p).place == p && At(p) in banks {
        assert FreshBank(bankStates[p.rank][p.group][p.bank], Place(p.rank, p.group, p.bank));
      }
    }

    method RankNeedRefresh(rank: int, need: bool)
      modifies this`refreshQ
      ensures refreshQ == if need then old(refreshQ) + [RankRefresh(rank)] else DropRank(old(refreshQ), rank)
    {
      if need {
        refreshQ := refreshQ + [RankRefresh(rank)];
      } else {
        var q := refreshQ;
        var i := 0;
        while i < |q|
          invariant 0 <= i <= |q| && refreshQ == q == old(refreshQ)
          invariant DropRank(q, rank) == q[..i] + DropRank(q[i..], rank)
        {
          DropRankStep(q, i, rank);
          if q[i].addr.rank == rank {
            refreshQ := q[..i] + q[i + 1..];
            return;
          }
          i := i + 1;
        }
      }
    }

    method BankNeedRefresh(p: Place, need: bool)
      modifies this`refreshQ
      ensures refreshQ == if need then old(refreshQ) + [BankRefresh(p)] else DropBank(old(refreshQ), p)
    {
      if need {
        refreshQ := refreshQ + [BankRefresh(p)];
      } else {
        var q := refreshQ;
        var i := 0;
        while i < |q|
          invariant 0 <= i <= |q| && refreshQ == q == old(refreshQ)
          invariant DropBank(q, p) == q[..i] + DropBank(q[i..], p)
        {
          DropBankStep(q, i, p);
          if q[i].Where() == p {
            refreshQ := q[..i] + q[i + 1..];
            return;
          }
          i := i + 1;
        }
      }
    }

    /** The bank object at p answers as its history does. */
    lemma {:induction false} AnswersFromHistory(p: Place, cmd: Command, clk: nat)
      requires Wired() && geo.Has(p) && Tracks(p)
      ensures At(p).GetReadyCommand(cmd, clk) == BankAnswer(Settings(), View(), p, cmd, clk)
    {
    }

    /** A channel asked for anything but an access, a refresh or a self-refresh entry exits abruptly; any
        other request is answered.  A ready reply is issuable now, and is the request itself or the
        activation or precharge that has to come first. */
    method GetReadyCommand(cmd: Command, clk: nat) returns (a: Answer)
      requires Valid() && Addressed(cmd)
      ensures a == AnswerTo(Settings(), View(), cmd, clk)
      ensures a.Aborts? <==> !Askable(cmd.kind)
      ensures a.Ready? && !a.cmd.kind.SrefEnter? ==> Issuable(a.cmd, clk)
      ensures a.Ready? ==> a.cmd.addr.rank == cmd.addr.rank
      ensures a.Ready? && !cmd.IsRankCmd() ==> a.cmd.addr == cmd.addr && a.cmd.hexAddr == cmd.hexAddr
      ensures a.Ready? ==> a.cmd == cmd || a.cmd.kind.Precharge?
                           || (cmd.IsReadWrite() && a.cmd.kind.Activate?)
                           || (IsPimAccess(cmd.kind) && a.cmd.kind.PimActivate?)
      ensures a.NotReady? ==> !Issuable(cmd, clk)
    {
      if cmd.IsRankCmd() {
        a := RankReady(cmd, clk);
      } else {
        a := BankReady(cmd, clk);
      }
    }

    method BankReady(cmd: Command, clk: nat) returns (a: Answer)
      requires Valid() && Addressed(cmd) && !cmd.IsRankCmd()
      ensures a == Answered(Settings(), View(), cmd, clk)
      ensures a.Aborts? <==> !Askable(cmd.kind)
      ensures a.Ready? ==> Issuable(a.cmd, clk) && a.cmd.addr == cmd.addr && a.cmd.hexAddr == cmd.hexAddr
      ensures a.Ready? ==> a.cmd == cmd || a.cmd.kind.Precharge?
                           || (cmd.IsReadWrite() && a.cmd.kind.Activate?)
                           || (IsPimAccess(cmd.kind) && a.cmd.kind.PimActivate?)
      ensures a.NotReady? ==> !Issuable(cmd, clk)
    {
      hide WindowValid, Sound, BankAnswer;
      var p := cmd.Where();
      assert Tracks(p) && 0 <= p.rank < geo.ranks;
      a := At(p).GetReadyCommand(cmd, clk);
      AnswersFromHistory(p, cmd, clk);
      hide Tracks;
      if a.Ready? && IsActivation(a.cmd.kind) && !ActivationWindowOk(a.cmd.addr.rank, clk) {
        a := NotReady;
      }
    }

    /** The bank at p can take the rank command itself at clk. */
    ghost predicate ReadyAt(cmd: Command, clk: nat, p: Place)
      requires Shaped() && geo.Has(p)
      reads At(p)
    {
      At(p).GetReadyCommand(cmd, clk) == Ready(cmd)
    }

    lemma {:induction false} ReadyMeans(p: Place, cmd: Command, clk: nat)
      requires Shaped() && geo.Has(p)
      ensures ReadyAt(cmd, clk, p) <==>
        At(p).GetReadyCommand(cmd, clk).Ready? && At(p).GetReadyCommand(cmd, clk).cmd.kind == cmd.kind
    {
    }

    lemma {:induction false} ClosesBank(p: Place, cmd: Command, clk: nat, c: Command)
      requires Wired() && |fourAw| == |thirtyTwoAw| == geo.ranks && geo.Has(p) && Tracks(p) && cmd.IsRankCmd()
      requires !cmd.kind.SrefExit?
      requires At(p).GetReadyCommand(cmd, clk).Ready? && At(p).GetReadyCommand(cmd, clk).cmd.kind != cmd.kind
      requires c.kind == At(p).GetReadyCommand(cmd, clk).cmd.kind && c.Where() == p
      ensures c.kind.Precharge? && Issuable(c, clk)
    {
    }

    /** One bank group's share of a rank request: the first bank to close, or how many are ready. */
    method GroupReady(cmd: Command, clk: nat, j: int) returns (a: Answer, count: nat)
      requires Valid() && cmd.IsRankCmd() && !cmd.kind.SrefExit? && 0 <= cmd.addr.rank < geo.ranks
      requires 0 <= j < geo.groups
      ensures a == match ToClose(Settings(), View(), cmd, clk, j, 0) case Some(c) => Ready(c) case None => NotReady
      ensures a.Ready? ==> a.cmd.kind.Precharge? && a.cmd.addr.rank == cmd.addr.rank && Issuable(a.cmd, clk)
      ensures a.Ready? ==> !ReadyAt(cmd, clk, a.cmd.Where())
      ensures a.NotReady? ==> count <= geo.banks
      ensures a.NotReady? ==> (count == geo.banks <==>
        forall k :: 0 <= k < geo.banks ==> ReadyAt(cmd, clk, Place(cmd.addr.rank, j, k)))
    {
      hide WindowValid, Sound, Replay, Horizon, BankAnswer, Issuable, ReadyAt;
      count := 0;
      a := NotReady;
      for k := 0 to geo.banks
        invariant count <= k && a.NotReady?
        invariant ToClose(Settings(), View(), cmd, clk, j, 0) == ToClose(Settings(), View(), cmd, clk, j, k)
        invariant count == k <==> forall i :: 0 <= i < k ==> ReadyAt(cmd, clk, Place(cmd.addr.rank, j, i))
      {
        var p := Place(cmd.addr.rank, j, k);
        assert geo.Has(p) && Tracks(p);
        AnswersFromHistory(p, cmd, clk);
        var ready := At(p).GetReadyCommand(cmd, clk);
        ReadyMeans(p, cmd, clk);
        if ready.Ready? {
          if ready.cmd.kind != cmd.kind {
            a := Ready(Command(ready.cmd.kind, Address(-1, cmd.addr.rank, j, k, -1, -1), ready.cmd.hexAddr));
            ClosesBank(p, cmd, clk, a.cmd);
            return;
          }
          count := count + 1;
        }
      }
    }

    /** A rank command is ready when every bank of the rank is; the first open bank that can be
        closed is closed instead. */
    method RankReady(cmd: Command, clk: nat) returns (a: Answer)
      requires Valid() && cmd.IsRankCmd() && 0 <= cmd.addr.rank < geo.ranks
      ensures a == RankAnswered(Settings(), View(), cmd, clk)
      ensures a.Aborts? <==> cmd.kind.SrefExit?
      ensures a.Ready? && !a.cmd.kind.SrefEnter? ==> Issuable(a.cmd, clk)
      ensures a.Ready? ==> a.cmd.addr.rank == cmd.addr.rank && (a.cmd == cmd || a.cmd.kind.Precharge?)
      ensures a.NotReady? ==> !Issuable(cmd, clk)
    {
      hide Tracks, Sound, WindowValid, Issuable, ReadyAt, ToClose, ChannelSpec.AllReady;
      FirstBankAborts(cmd, clk);
      a := At(Place(cmd.addr.rank, 0, 0)).GetReadyCommand(cmd, clk);
      if a.Aborts? {
        return;
      }
      var numReady := 0;
      ghost var asked := 0;
      for j := 0 to geo.groups
        invariant 0 <= numReady <= asked && asked == j * geo.banks
        invariant FirstToClose(Settings(), View(), cmd, clk, 0) == FirstToClose(Settings(), View(), cmd, clk, j)
        invariant numReady == asked <==> forall g, k :: 0 <= g < j && 0 <= k < geo.banks
                                           ==> ReadyAt(cmd, clk, Place(cmd.addr.rank, g, k))
      {
        var count;
        a, count := GroupReady(cmd, clk, j);
        if a.Ready? {
          return;
        }
        numReady := numReady + count;
        asked := asked + geo.banks;
      }
      RankReadiness(cmd, clk);
      a := if numReady == geo.groups * geo.banks then Ready(cmd) else NotReady;
    }

    /** No bank sleeps, so the first one that is asked to wake up ends the simulation. */
    lemma {:induction false} FirstBankAborts(cmd: Command, clk: nat)
      requires Valid() && cmd.IsRankCmd() && 0 <= cmd.addr.rank < geo.ranks
      ensures geo.Has(Place(cmd.addr.rank, 0, 0))
      ensures BankAnswer(Settings(), View(), Place(cmd.addr.rank, 0, 0), cmd, clk) ==
        At(Place(cmd.addr.rank, 0, 0)).GetReadyCommand(cmd, clk)
      ensures At(Place(cmd.addr.rank, 0, 0)).GetReadyCommand(cmd, clk).Aborts? <==> cmd.kind.SrefExit?
    {
      hide Sound, WindowValid, Horizon, Replay, BankAnswer;
      var p := Place(cmd.addr.rank, 0, 0);
      assert geo.Has(p) && Tracks(p);
      AnswersFromHistory(p, cmd, clk);
    }

    lemma {:induction false} RankReadiness(cmd: Command, clk: nat)
      requires Valid() && cmd.IsRankCmd() && !cmd.kind.SrefExit? && 0 <= cmd.addr.rank < geo.ranks
      ensures ChannelSpec.AllReady(Settings(), View(), cmd, clk) <==>
        forall g, k :: 0 <= g < geo.groups && 0 <= k < geo.banks ==> ReadyAt(cmd, clk, Place(cmd.addr.rank, g, k))
      ensures !cmd.kind.SrefEnter? ==> (Issuable(cmd, clk) <==> ChannelSpec.AllReady(Settings(), View(), cmd, clk))
      ensures cmd.kind.SrefEnter? ==> !Issuable(cmd, clk)
    {
      hide WindowValid, Sound, Replay, Horizon, BankAnswer;
      forall g, k | 0 <= g < geo.groups && 0 <= k < geo.banks
        ensures ReadyAt(cmd, clk, Place(cmd.addr.rank, g, k)) <==>
          BankAnswer(Settings(), View(), Place(cmd.addr.rank, g, k), cmd, clk) == Ready(cmd)
      {
        assert Tracks(Place(cmd.addr.rank, g, k));
        AnswersFromHistory(Place(cmd.addr.rank, g, k), cmd, clk);
      }
      if !cmd.kind.SrefEnter? && forall g, k :: 0 <= g < geo.groups && 0 <= k < geo.banks ==>
        ReadyAt(cmd, clk, Place(cmd.addr.rank, g, k)) {
        forall p | geo.Has(p) && cmd.Touches(p)
          ensures Advance(At(p).View(), cmd).Some? && clk >= At(p).Earliest(cmd.kind)
        {
          assert ReadyAt(cmd, clk, Place(cmd.addr.rank, p.group, p.bank));
        }
      }
    }

    /** The bank took the whole list. */
    twostate predicate Bumped(b: BankState, list: seq<Constraint>, clk: nat)
      reads b
    {
      && b.View() == old(b.View())
      && forall c: CommandType :: b.Earliest(c) == Bump(old(b.Earliest(c)), list, clk, c)
    }

    /** Applies the list to the banks of one group, except the one numbered skip. */
    method BumpGroup(r: int, g: int, skip: int, list: seq<Constraint>, clk: nat)
      requires Wired() && 0 <= r < geo.ranks && 0 <= g < geo.groups
      modifies banks
      ensures forall p :: geo.Has(p) ==>
        if p.rank == r && p.group == g && p.bank != skip then Bumped(At(p), list, clk) else unchanged(At(p))
    {
      for k := 0 to geo.banks
        invariant forall p :: geo.Has(p) ==>
          if p.rank == r && p.group == g && p.bank != skip && p.bank < k then Bumped(At(p), list, clk)
          else unchanged(At(p))
      {
        if k != skip {
          var p := Place(r, g, k);
          assert At(p).place == p;
          At(p).ApplyList(list, clk);
        }
      }
    }

    method UpdateSameBankTiming(addr: Place, list: seq<Constraint>, clk: nat)
      requires Wired() && geo.Has(addr)
      modifies banks
      ensures forall p :: geo.Has(p) ==> if p == addr then Bumped(At(p), list, clk) else unchanged(At(p))
    {
      assert At(addr).place == addr;
      At(addr).ApplyList(list, clk);
    }

    method UpdateOtherBanksSameBankgroupTiming(addr: Place, list: seq<Constraint>, clk: nat)
      requires Wired() && geo.Has(addr)
      modifies banks
      ensures forall p :: geo.Has(p) ==>
        if p.rank == addr.rank && p.group == addr.group && p.bank != addr.bank then Bumped(At(p), list, clk)
        else unchanged(At(p))
    {
      BumpGroup(addr.rank, addr.group, addr.bank, list, clk);
    }

    method UpdateOtherBankgroupsSameRankTiming(addr: Place, list: seq<Constraint>, clk: nat)
      requires Wired() && geo.Has(addr)
      modifies banks
      ensures forall p :: geo.Has(p) ==>
        if p.rank == addr.rank && p.group != addr.group then Bumped(At(p), list, clk) else unchanged(At(p))
    {
      for j := 0 to geo.groups
        invariant forall p :: geo.Has(p) ==>
          if p.rank == addr.rank && p.group != addr.group && p.group < j then Bumped(At(p), list, clk)
          else unchanged(At(p))
      {
        if j != addr.group {
          BumpGroup(addr.rank, j, -1, list, clk);
        }
      }
    }

    method UpdateOtherRanksTiming(addr: Place, list: seq<Constraint>, clk: nat)
      requires Wired()
      modifies banks
      ensures forall p :: geo.Has(p) ==> if p.rank != addr.rank then Bumped(At(p), list, clk) else unchanged(At(p))
    {
      for i := 0 to geo.ranks
        invariant forall p :: geo.Has(p) ==>
          if p.rank != addr.rank && p.rank < i then Bumped(At(p), list, clk) else unchanged(At(p))
      {
        if i != addr.rank {
          UpdateSameRankTiming(i, list, clk);
        }
      }
    }

    method UpdateSameRankTiming(rank: int, list: seq<Constraint>, clk: nat)
      requires Wired() && 0 <= rank < geo.ranks
      modifies banks
      ensures forall p :: geo.Has(p) ==> if p.rank == rank then Bumped(At(p), list, clk) else unchanged(At(p))
    {
      for j := 0 to geo.groups
        invariant forall p :: geo.Has(p) ==>
          if p.rank == rank && p.group < j then Bumped(At(p), list, clk) else unchanged(At(p))
      {
        BumpGroup(rank, j, -1, list, clk);
      }
    }

    /** The four fan-outs together give every bank its own list. */
    method FanOut(cmd: Command, clk: nat)
      requires Wired() && geo.Has(cmd.Where()) && !cmd.IsRankCmd() && !IsPimAccess(cmd.kind)
      modifies banks
      ensures forall p :: geo.Has(p) ==> Bumped(At(p), Applied(tables, cmd, p), clk)
    {
      var addr := cmd.Where();
      UpdateSameBankTiming(addr, tables.sameBank(cmd.kind), clk);
      UpdateOtherBanksSameBankgroupTiming(addr, tables.otherBanksSameGroup(cmd.kind), clk);
      UpdateOtherBankgroupsSameRankTiming(addr, tables.otherGroupsSameRank(cmd.kind), clk);
      UpdateOtherRanksTiming(addr, tables.otherRanks(cmd.kind), clk);
    }

    /** Windows of the rank after an activation at clk. */
    method UpdateActivationTimes(rank: int, clk: nat)
      requires |fourAw| == |thirtyTwoAw| == geo.ranks && 0 <= rank < geo.ranks
      modifies this`fourAw, this`thirtyTwoAw
      ensures fourAw == old(fourAw)[rank := Push(old(fourAw[rank]), tFAW, clk)]
      ensures thirtyTwoAw == if isGddr then old(thirtyTwoAw)[rank := Push(old(thirtyTwoAw[rank]), t32AW, clk)]
                             else old(thirtyTwoAw)
    {
      var aw := fourAw[rank];
      if aw != [] && clk >= aw[0] {
        aw := aw[1..];
      }
      fourAw := fourAw[rank := aw + [clk + tFAW]];
      if isGddr {
        aw := thirtyTwoAw[rank];
        if aw != [] && clk >= aw[0] {
          aw := aw[1..];
        }
        thirtyTwoAw := thirtyTwoAw[rank := aw + [clk + t32AW]];
      }
    }

    method UpdateTiming(cmd: Command, clk: nat)
      requires Wired() && Addressed(cmd) && |fourAw| == |thirtyTwoAw| == geo.ranks
      modifies this`fourAw, this`thirtyTwoAw, banks
      ensures forall p :: geo.Has(p) ==> Bumped(At(p), Applied(tables, cmd, p), clk)
      ensures fourAw == if IsActivation(cmd.kind)
                        then old(fourAw)[cmd.addr.rank := Push(old(fourAw[cmd.addr.rank]), tFAW, clk)] else old(fourAw)
      ensures thirtyTwoAw == if isGddr && IsActivation(cmd.kind)
                             then old(thirtyTwoAw)[cmd.addr.rank := Push(old(thirtyTwoAw[cmd.addr.rank]), t32AW, clk)]
                             else old(thirtyTwoAw)
    {
      if IsActivation(cmd.kind) {
        UpdateActivationTimes(cmd.addr.rank, clk);
      }
      if cmd.IsRankCmd() {
        UpdateSameRankTiming(cmd.addr.rank, tables.sameRank(cmd.kind), clk);
      } else if IsPimAccess(cmd.kind) {
        UpdateSameBankTiming(cmd.Where(), tables.sameBank(cmd.kind), clk);
      } else {
        FanOut(cmd, clk);
      }
    }

    /** The bank moved by the command and kept its times. */
    twostate predicate Moved(b: BankState, cmd: Command)
      reads b
    {
      && Some(b.View()) == Advance(old(b.View()), cmd)
      && b.cmdTiming == old(b.cmdTiming)
    }

    method MoveGroup(cmd: Command, g: int)
      requires Wired() && 0 <= cmd.addr.rank < geo.ranks && 0 <= g < geo.groups
      requires forall p :: geo.Has(p) && p.rank == cmd.addr.rank && p.group == g ==> Advance(At(p).View(), cmd).Some?
      modifies banks
      ensures forall p :: geo.Has(p) ==>
        if p.rank == cmd.addr.rank && p.group == g then Moved(At(p), cmd) else unchanged(At(p))
    {
      for k := 0 to geo.banks
        invariant forall p :: geo.Has(p) ==>
          if p.rank == cmd.addr.rank && p.group == g && p.bank < k then Moved(At(p), cmd) else unchanged(At(p))
      {
        var p := Place(cmd.addr.rank, g, k);
        assert At(p).place == p;
        var ok := At(p).UpdateState(cmd);
      }
    }

    /** No bank reaches the abrupt exit, and a refresh leaves the queue. */
    method UpdateState(cmd: Command)
      requires Wired() && Addressed(cmd) && !cmd.kind.SrefEnter? && !cmd.kind.SrefExit?
      requires forall p :: geo.Has(p) && cmd.Touches(p) ==> Advance(At(p).View(), cmd).Some?
      modifies this`refreshQ, banks
      ensures forall p :: geo.Has(p) ==> if cmd.Touches(p) then Moved(At(p), cmd) else unchanged(At(p))
      ensures refreshQ == AfterRefresh(old(refreshQ), cmd)
    {
      if cmd.IsRankCmd() {
        for j := 0 to geo.groups
          invariant refreshQ == old(refreshQ)
          invariant forall p :: geo.Has(p) ==>
            if p.rank == cmd.addr.rank && p.group < j then Moved(At(p), cmd) else unchanged(At(p))
        {
          MoveGroup(cmd, j);
        }
        RankNeedRefresh(cmd.addr.rank, false);
      } else {
        var p := cmd.Where();
        assert At(p).place == p;
        var ok := At(p).UpdateState(cmd);
        if cmd.IsRefresh() {
          BankNeedRefresh(p, false);
        }
      }
    }

    /** State first, then times. */
    method Apply(cmd: Command, clk: nat)
      requires Wired() && Addressed(cmd) && !cmd.kind.SrefEnter? && !cmd.kind.SrefExit?
      requires |fourAw| == |thirtyTwoAw| == geo.ranks
      requires forall p :: geo.Has(p) && cmd.Touches(p) ==> Advance(At(p).View(), cmd).Some?
      modifies this`refreshQ, this`fourAw, this`thirtyTwoAw, banks
      ensures refreshQ == AfterRefresh(old(refreshQ), cmd)
      ensures fourAw == if IsActivation(cmd.kind)
                        then old(fourAw)[cmd.addr.rank := Push(old(fourAw[cmd.addr.rank]), tFAW, clk)] else old(fourAw)
      ensures thirtyTwoAw == if isGddr && IsActivation(cmd.kind)
                             then old(thirtyTwoAw)[cmd.addr.rank := Push(old(thirtyTwoAw[cmd.addr.rank]), t32AW, clk)]
                             else old(thirtyTwoAw)
      ensures forall p :: geo.Has(p) ==>
        Some(At(p).View()) == if cmd.Touches(p) then Advance(old(At(p).View()), cmd) else Some(old(At(p).View()))
      ensures forall p, c: CommandType :: geo.Has(p) ==>
        At(p).Earliest(c) == Bump(old(At(p).Earliest(c)), Applied(tables, cmd, p), clk, c)
    {
      UpdateState(cmd);
      UpdateTiming(cmd, clk);
    }

    lemma {:induction false} SoundExtends(x: Issued)
      requires Valid() && Legal(x.cmd, x.clk) && Upto(x.clk)
      ensures SoundHistory(tables, geo, history + [x], if InTime(x.cmd, x.clk) then early else early + {|history|})
    {
      forall p | geo.Has(p)
        ensures Replay(history, p) == Some(At(p).View())
        ensures At(p).Earliest(x.cmd.kind) == Horizon(tables, history, p, x.cmd.kind)
      {
        assert Tracks(p);
      }
      LegalityExtends(geo, history, x);
      RecordExtends(tables, geo, history, early, x);
      assert InTime(x.cmd, x.clk) <==> forall p :: geo.Has(p) && x.cmd.Touches(p) ==>
        x.clk >= Horizon(tables, history, p, x.cmd.kind);
    }

    ghost predicate WindowsKept(acts: seq<nat>, four: seq<nat>, thirtyTwo: seq<nat>) {
      && Sorted(acts)
      && Summarises(four, acts, 4, tFAW) && Spaced(acts, 4, tFAW)
      && (isGddr ==> Summarises(thirtyTwo, acts, 32, t32AW) && Spaced(acts, 32, t32AW))
    }

    /** The windows of rank r once x is part of the history. */
    ghost predicate WindowAfter(r: int, x: Issued)
      requires |fourAw| == |thirtyTwoAw| == geo.ranks && 0 <= r < geo.ranks
      reads this`history, this`fourAw, this`thirtyTwoAw
    {
      if IsActivation(x.cmd.kind) && x.cmd.addr.rank == r then
        WindowsKept(ActTimes(history + [x], r), Push(fourAw[r], tFAW, x.clk),
                    if isGddr then Push(thirtyTwoAw[r], t32AW, x.clk) else thirtyTwoAw[r])
      else WindowsKept(ActTimes(history + [x], r), fourAw[r], thirtyTwoAw[r])
    }

    lemma {:induction false} WindowExtends(r: int, x: Issued)
      requires |fourAw| == |thirtyTwoAw| == geo.ranks && 0 <= r < geo.ranks && WindowValid(r) && Upto(x.clk)
      requires IsActivation(x.cmd.kind) && x.cmd.addr.rank == r ==> ActivationWindowOk(r, x.clk)
      ensures WindowAfter(r, x)
    {
      hide Push, Summarises, Spaced, ActivationWindow.Sorted;
      ActTimesExtend(history, x, r);
      if IsActivation(x.cmd.kind) && x.cmd.addr.rank == r {
        ActTimesBound(history, r, x.clk);
        PushKeepsWindow(fourAw[r], ActTimes(history, r), 4, tFAW, x.clk);
        if isGddr {
          PushKeepsWindow(thirtyTwoAw[r], ActTimes(history, r), 32, t32AW, x.clk);
        }
      } else {
        assert ActTimes(history + [x], r) == ActTimes(history, r);
      }
    }

    lemma {:induction false} WindowsExtend(x: Issued)
      requires Valid() && Legal(x.cmd, x.clk) && Upto(x.clk)
      ensures forall r :: 0 <= r < geo.ranks ==> WindowAfter(r, x)
    {
      hide Tracks, Sound, WindowValid, WindowAfter;
      forall r | 0 <= r < geo.ranks ensures WindowAfter(r, x) {
        assert WindowValid(r);
        WindowExtends(r, x);
      }
    }

    lemma {:induction false} TracksExtend(h: seq<Issued>, p: Place, x: Issued)
      requires Shaped() && geo.Has(p) && history == h + [x] && !x.cmd.kind.SrefEnter?
      requires Replay(h, p).Some? && !Replay(h, p).value.state.Sref?
      requires Some(At(p).View()) == if x.cmd.Touches(p) then Advance(Replay(h, p).value, x.cmd) else Replay(h, p)
      requires forall c: CommandType ::
        At(p).Earliest(c) == Bump(Horizon(tables, h, p, c), Applied(tables, x.cmd, p), x.clk, c)
      ensures Tracks(p)
    {
      ReplayExtend(h, x, p);
      forall c: CommandType ensures At(p).Earliest(c) == Horizon(tables, history, p, c) {
        HorizonExtend(tables, h, x, p, c);
      }
    }

    /** Issues a legal command: everything the channel guarantees still holds of the longer history, and
        a command issued before its time is put on record. */
    method UpdateTimingAndStates(cmd: Command, clk: nat)
      requires Valid() && Legal(cmd, clk) && Upto(clk)
      modifies this`refreshQ, this`fourAw, this`thirtyTwoAw, this`history, this`early, banks
      ensures Valid() && Upto(clk)
      ensures View() == AfterIssue(Settings(), old(View()), cmd, clk)
      ensures history == old(history) + [Issued(cmd, clk)] && refreshQ == AfterRefresh(old(refreshQ), cmd)
      ensures early == if old(InTime(cmd, clk)) then old(early) else old(early) + {old(|history|)}
      ensures forall p :: geo.Has(p) ==>
        At(p).View() == if cmd.Touches(p) then Advance(old(At(p).View()), cmd).value else old(At(p).View())
    {
      hide SoundHistory, InTime;
      ghost var h, x, timely := history, Issued(cmd, clk), InTime(cmd, clk);
      SoundExtends(x);
      WindowsExtend(x);
      Apply(cmd, clk);
      history := history + [x];
      if !timely {
        early := early + {|h|};
      }
      assert Upto(clk);
      forall p | geo.Has(p) ensures Tracks(p) {
        assert old(Tracks(p));
        TracksExtend(h, p, x);
      }
      forall r | 0 <= r < geo.ranks ensures WindowValid(r) {
        assert old(WindowAfter(r, x));
        assert WindowsKept(ActTimes(history, r), fourAw[r], thirtyTwoAw[r]);
      }
      DropsOnly(old(refreshQ), cmd);
    }

    /** In the cycle of a read or write no second read or write is issuable. */
    lemma {:induction false} OneAccessPerCycle(first: Command, clk: nat, second: Command)
      requires Valid() && SpacesReadWrites(tables, geo)
      requires history != [] && history[|history| - 1] == Issued(first, clk)
      requires first.IsReadWrite() && geo.Has(first.Where()) && second.IsReadWrite()
      ensures !Issuable(second, clk)
    {
      var p := second.Where();
      var n := |history| - 1;
      if geo.Has(p) {
        assert Tracks(p) && second.Touches(p);
        if p == first.Where() && IsClosing(first.kind) {
          assert history[..n] + [history[n]] == history;
          assert Replay(history, p).value.state.Closed?;
        } else {
          HorizonMeaning(tables, history, p, second.kind, clk);
          assert IsReadWriteKind(second.kind) && Delays(Applied(tables, first, p), second.kind);
          assert !Respects(tables, history[n], p, second.kind, clk);
        }
      }
    }
  }
}
