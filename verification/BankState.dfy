/** One DRAM bank: its automaton state and the earliest time of each command. */
module Banks {
  import opened Commands
  import opened TimingSpec
  import opened BankSpec

  class BankState {
    const place: Place
    var state: State
    var cmdTiming: map<CommandType, nat>
    var openRow: int
    var rowHitCount: nat

    constructor (place: Place)
      ensures this.place == place && View() == FRESH
      ensures forall c: CommandType :: Earliest(c) == 0
    {
      this.place := place;
      state, openRow, rowHitCount := Closed, -1, 0;
      cmdTiming := map[];
    }

    function View(): BankView
      reads this
    {
      BankView(state, openRow, rowHitCount)
    }

    /** Slots never written hold the initial zero. */
    function Earliest(c: CommandType): nat
      reads this
    {
      if c in cmdTiming then cmdTiming[c] else 0
    }

    function GetReadyCommand(cmd: Command, clk: nat): Answer
      reads this
    {
      match Required(View(), cmd)
      case Abort => Aborts
      case Needs(k) => Reply(cmd, k, Earliest(k), clk)
    }

    /** False stands for the abrupt exit, which leaves the bank as it was. */
    method UpdateState(cmd: Command) returns (ok: bool)
      modifies this
      ensures cmdTiming == old(cmdTiming)
      ensures ok == Advance(old(View()), cmd).Some?
      ensures View() == if ok then Advance(old(View()), cmd).value else old(View())
    {
      ok := true;
      match state {
        case Open =>
          if IsClosing(cmd.kind) {
            state, openRow, rowHitCount := Closed, -1, 0;
          } else if IsAccess(cmd.kind) {
            rowHitCount := rowHitCount + 1;
          } else {
            ok := false;
          }
        case Closed =>
          if cmd.IsRefresh() {
          } else if IsActivation(cmd.kind) {
            state, openRow := Open, cmd.addr.row;
          } else if cmd.kind.SrefEnter? {
            state := Sref;
          } else {
            ok := false;
          }
        case Sref =>
          if cmd.kind.SrefExit? {
            state := Closed;
          } else {
            ok := false;
          }
      }
    }

    method UpdateTiming(kind: CommandType, time: nat)
      modifies this
      ensures View() == old(View())
      ensures forall c: CommandType ::
                Earliest(c) == if c == kind then Max(old(Earliest(c)), time) else old(Earliest(c))
    {
      cmdTiming := cmdTiming[kind := Max(Earliest(kind), time)];
    }

    method ApplyList(list: seq<Constraint>, clk: nat)
      modifies this
      ensures View() == old(View())
      ensures forall c: CommandType :: Earliest(c) == Bump(old(Earliest(c)), list, clk, c)
    {
      for i := 0 to |list|
        invariant View() == old(View())
        invariant forall c: CommandType :: Earliest(c) == Bump(old(Earliest(c)), list[..i], clk, c)
      {
        assert list[..i + 1][..i] == list[..i];
        UpdateTiming(list[i].kind, clk + list[i].delay);
      }
      assert list[..|list|] == list;
    }
  }
}
