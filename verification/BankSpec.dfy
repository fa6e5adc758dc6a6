/** The bank automaton, and what the command history says about it without replaying it. */
module BankSpec {
  import opened Commands
  import opened TimingSpec

  datatype State = Open | Closed | Sref

  datatype BankView = BankView(state: State, openRow: int, rowHits: nat)

  const FRESH := BankView(Closed, -1, 0)

  /** The command kind a bank must see next for the request, or the abrupt exit. */
  datatype Need = Abort | Needs(kind: CommandType)

  function Required(v: BankView, cmd: Command): Need {
    match v.state
    case Closed =>
      if cmd.IsReadWrite() then Needs(Activate)
      else if IsPimAccess(cmd.kind) then Needs(PimActivate)
      else if cmd.IsRefresh() || cmd.kind.SrefEnter? then Needs(cmd.kind)
      else Abort
    case Open =>
      if IsAccess(cmd.kind) then
        if cmd.addr.row == v.openRow then Needs(cmd.kind) else Needs(Precharge)
      else if cmd.IsRefresh() || cmd.kind.SrefEnter? then Needs(Precharge)
      else Abort
    case Sref =>
      if IsAccess(cmd.kind) then Needs(SrefExit) else Abort
  }

  /** The reply to a request: the abrupt exit, not yet, or the command to issue now. */
  datatype Answer = Aborts | NotReady | Ready(cmd: Command)

  /** The reply when the bank needs a command of kind k that may go at the given time. */
  function Reply(cmd: Command, k: CommandType, time: nat, clk: nat): Answer {
    if clk >= time then Ready(Command(k, cmd.addr, cmd.hexAddr)) else NotReady
  }

  /** Only accesses, refreshes and, on a closed bank, self-refresh entries may be requested; a bank asked
      for anything else ends the simulation. */
  lemma {:induction false} AbortsExactly(v: BankView, cmd: Command)
    ensures Required(v, cmd).Abort? <==>
      !(IsAccess(cmd.kind) || (!v.state.Sref? && (cmd.IsRefresh() || cmd.kind.SrefEnter?)))
  {
  }

  /** The state after the command; None is the abrupt exit. */
  function Advance(v: BankView, cmd: Command): Option<BankView> {
    match v.state
    case Open =>
      if IsClosing(cmd.kind) then Some(BankView(Closed, -1, 0))
      else if IsAccess(cmd.kind) then Some(v.(rowHits := v.rowHits + 1))
      else None
    case Closed =>
      if cmd.IsRefresh() then Some(v)
      else if IsActivation(cmd.kind) then Some(v.(state := Open, openRow := cmd.addr.row))
      else if cmd.kind.SrefEnter? then Some(v.(state := Sref))
      else None
    case Sref =>
      if cmd.kind.SrefExit? then Some(v.(state := Closed)) else None
  }

  /** Answering a request never leads the bank into an abrupt exit. */
  lemma {:induction false} RequiredIsLegal(v: BankView, cmd: Command)
    requires Required(v, cmd).Needs?
    ensures Advance(v, Command(Required(v, cmd).kind, cmd.addr, cmd.hexAddr)).Some?
  {
  }

  /** The bank at p after the whole history, starting closed. */
  function Replay(h: seq<Issued>, p: Place): Option<BankView>
    decreases |h|
  {
    if h == [] then Some(FRESH)
    else
      var n := |h| - 1;
      match Replay(h[..n], p)
      case None => None
      case Some(v) => if h[n].cmd.Touches(p) then Advance(v, h[n].cmd) else Some(v)
  }

  /** The i-th command activated the bank at p and nothing has activated or closed it since. */
  ghost predicate OpenSince(h: seq<Issued>, p: Place, i: int) {
    && 0 <= i < |h|
    && h[i].cmd.Touches(p)
    && IsActivation(h[i].cmd.kind)
    && forall j :: i < j < |h| && h[j].cmd.Touches(p) ==>
         !IsActivation(h[j].cmd.kind) && !IsClosing(h[j].cmd.kind)
  }

  /** Accesses to the bank at p from position first on. */
  function Accesses(h: seq<Issued>, p: Place, first: nat): nat
    decreases |h|
  {
    if |h| <= first then 0
    else
      var n := |h| - 1;
      Accesses(h[..n], p, first) + if h[n].cmd.Touches(p) && IsAccess(h[n].cmd.kind) then 1 else 0
  }

  /** A bank is open exactly when some activation is still in force; that activation names the open
      row, and the hit counter counts the accesses since it. */
  lemma {:induction false} ReplayMeaning(h: seq<Issued>, p: Place)
    requires Replay(h, p).Some?
    ensures Replay(h, p).value.state.Open? <==> exists i :: OpenSince(h, p, i)
    ensures forall i :: OpenSince(h, p, i) ==>
              Replay(h, p).value.openRow == h[i].cmd.addr.row
              && Replay(h, p).value.rowHits == Accesses(h, p, i + 1)
    ensures !Replay(h, p).value.state.Open? ==> Replay(h, p).value.rowHits == 0
    decreases |h|
  {
    if h != [] {
      var n := |h| - 1;
      var g := h[..n];
      ReplayMeaning(g, p);
      forall i | 0 <= i < n
        ensures OpenSince(h, p, i) <==>
          OpenSince(g, p, i) && (h[n].cmd.Touches(p) ==>
            !IsActivation(h[n].cmd.kind) && !IsClosing(h[n].cmd.kind))
      {
        SinceStep(h, p, i);
      }
      if OpenSince(h, p, n) {
        assert forall i :: OpenSince(h, p, i) ==> i == n;
      } else if exists i :: OpenSince(g, p, i) {
        var i :| OpenSince(g, p, i);
        assert OpenSince(h, p, i) || (h[n].cmd.Touches(p) && IsClosing(h[n].cmd.kind));
      }
    }
  }

  lemma {:induction false} SinceStep(h: seq<Issued>, p: Place, i: int)
    requires 0 <= i < |h| - 1
    ensures OpenSince(h, p, i) <==>
      OpenSince(h[..|h| - 1], p, i) && (h[|h| - 1].cmd.Touches(p) ==>
        !IsActivation(h[|h| - 1].cmd.kind) && !IsClosing(h[|h| - 1].cmd.kind))
  {
    var n := |h| - 1;
    assert forall j :: 0 <= j < n ==> h[..n][j] == h[j];
    if OpenSince(h[..n], p, i) && (h[n].cmd.Touches(p) ==> !IsActivation(h[n].cmd.kind) && !IsClosing(h[n].cmd.kind)) {
      forall j | i < j < |h| && h[j].cmd.Touches(p)
        ensures !IsActivation(h[j].cmd.kind) && !IsClosing(h[j].cmd.kind)
      {
        if j < n { assert h[..n][j] == h[j]; }
      }
    }
  }

  /** Every access of h goes to the row of the activation in force on its bank. */
  ghost predicate HitsOpenRow(h: seq<Issued>) {
    forall i :: 0 <= i < |h| && IsAccess(h[i].cmd.kind) ==> HitsAt(h[..i], h[i].cmd)
  }

  ghost predicate HitsAt(h: seq<Issued>, cmd: Command) {
    exists a :: OpenSince(h, cmd.Where(), a) && h[a].cmd.addr.row == cmd.addr.row
  }

  /** Every refresh of h finds each bank it refreshes with no activation in force. */
  ghost predicate RefreshesClosed(geo: Geometry, h: seq<Issued>) {
    forall i, p :: 0 <= i < |h| && h[i].cmd.IsRefresh() && geo.Has(p) && h[i].cmd.Touches(p)
      ==> ClosedAt(h[..i], p)
  }

  ghost predicate ClosedAt(h: seq<Issued>, p: Place) {
    forall a :: !OpenSince(h, p, a)
  }

  lemma {:induction false} ReplayExtend(h: seq<Issued>, x: Issued, p: Place)
    requires Replay(h, p).Some?
    ensures Replay(h + [x], p) ==
      if x.cmd.Touches(p) then Advance(Replay(h, p).value, x.cmd) else Replay(h, p)
  {
    assert (h + [x])[..|h|] == h;
  }

  /** A command that the replayed banks allow keeps both history properties. */
  lemma {:induction false} LegalityExtends(geo: Geometry, h: seq<Issued>, x: Issued)
    requires HitsOpenRow(h) && RefreshesClosed(geo, h)
    requires forall p :: geo.Has(p) ==> Replay(h, p).Some?
    requires forall p :: geo.Has(p) && x.cmd.Touches(p) ==> Advance(Replay(h, p).value, x.cmd).Some?
    requires IsAccess(x.cmd.kind) ==> geo.Has(x.cmd.Where()) && Replay(h, x.cmd.Where()).value.openRow == x.cmd.addr.row
    ensures HitsOpenRow(h + [x]) && RefreshesClosed(geo, h + [x])
  {
    var g := h + [x];
    assert g[..|h|] == h;
    assert forall i :: 0 <= i < |h| ==> g[..i] == h[..i] && g[i] == h[i];
    forall i | 0 <= i < |g| && IsAccess(g[i].cmd.kind)
      ensures HitsAt(g[..i], g[i].cmd)
    {
      if i == |h| {
        var p := x.cmd.Where();
        assert x.cmd.Touches(p);
        ReplayMeaning(h, p);
        var a :| OpenSince(h, p, a);
      } else {
        assert HitsAt(h[..i], h[i].cmd);
      }
    }
    forall i, p | 0 <= i < |g| && g[i].cmd.IsRefresh() && geo.Has(p) && g[i].cmd.Touches(p)
      ensures ClosedAt(g[..i], p)
    {
      if i == |h| {
        ReplayMeaning(h, p);
      } else {
        assert ClosedAt(h[..i], p);
      }
    }
  }
}
