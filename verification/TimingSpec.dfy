/** The command-to-command delay tables and what they demand of a whole command history. */
module TimingSpec {
  import opened Commands

  datatype Constraint = Constraint(kind: CommandType, delay: nat)

  /** The five tables of the timing object, each indexed by the command just issued. */
  datatype Tables = Tables(
    sameBank: CommandType -> seq<Constraint>,
    otherBanksSameGroup: CommandType -> seq<Constraint>,
    otherGroupsSameRank: CommandType -> seq<Constraint>,
    otherRanks: CommandType -> seq<Constraint>,
    sameRank: CommandType -> seq<Constraint>)

  datatype Issued = Issued(cmd: Command, clk: nat)

  /** The list that issuing cmd applies to the bank at p. */
  function Applied(t: Tables, cmd: Command, p: Place): seq<Constraint> {
    if cmd.IsRankCmd() then
      if p.rank == cmd.addr.rank then t.sameRank(cmd.kind) else []
    else if IsPimAccess(cmd.kind) then
      if p == cmd.Where() then t.sameBank(cmd.kind) else []
    else if p.rank != cmd.addr.rank then t.otherRanks(cmd.kind)
    else if p.group != cmd.addr.bankgroup then t.otherGroupsSameRank(cmd.kind)
    else if p.bank != cmd.addr.bank then t.otherBanksSameGroup(cmd.kind)
    else t.sameBank(cmd.kind)
  }

  /** The running maximum for kind c, starting at t, after a list of constraints counted from clk. */
  function Bump(t: nat, list: seq<Constraint>, clk: nat, c: CommandType): nat
    decreases |list|
  {
    if list == [] then t
    else
      var u := Bump(t, list[..|list| - 1], clk, c);
      var e := list[|list| - 1];
      if e.kind == c then Max(u, clk + e.delay) else u
  }

  /** The earliest time for kind c on the bank at p after the whole history h. */
  function Horizon(t: Tables, h: seq<Issued>, p: Place, c: CommandType): nat
    decreases |h|
  {
    if h == [] then 0
    else
      var last := h[|h| - 1];
      Bump(Horizon(t, h[..|h| - 1], p, c), Applied(t, last.cmd, p), last.clk, c)
  }

  lemma {:induction false} BumpMeaning(t: nat, list: seq<Constraint>, clk: nat, c: CommandType, x: int)
    ensures x >= Bump(t, list, clk, c)
       <==> x >= t && forall i :: 0 <= i < |list| && list[i].kind == c ==> x >= clk + list[i].delay
    decreases |list|
  {
    if list != [] {
      var n := |list| - 1;
      BumpMeaning(t, list[..n], clk, c, x);
      assert forall i :: 0 <= i < n ==> list[..n][i] == list[i];
    }
  }

  /** Issuing kind c on the bank at p at time x respects the command issued as i. */
  predicate Respects(t: Tables, i: Issued, p: Place, c: CommandType, x: int) {
    var list := Applied(t, i.cmd, p);
    forall k :: 0 <= k < |list| && list[k].kind == c ==> x >= i.clk + list[k].delay
  }

  /** The running maximum agrees with looking at every earlier command. */
  lemma {:induction false} HorizonMeaning(t: Tables, h: seq<Issued>, p: Place, c: CommandType, x: nat)
    ensures x >= Horizon(t, h, p, c)
       <==> forall j :: 0 <= j < |h| ==> Respects(t, h[j], p, c, x)
    decreases |h|
  {
    if h != [] {
      var n := |h| - 1;
      HorizonMeaning(t, h[..n], p, c, x);
      BumpMeaning(Horizon(t, h[..n], p, c), Applied(t, h[n].cmd, p), h[n].clk, c, x);
      assert forall j :: 0 <= j < n ==> h[..n][j] == h[j];
    }
  }

  ghost predicate InOrder(h: seq<Issued>) {
    forall i, j :: 0 <= i <= j < |h| ==> h[i].clk <= h[j].clk
  }

  /** The i-th command of h meets every constraint of every earlier command, on every bank it touches. */
  ghost predicate OnTime(t: Tables, geo: Geometry, h: seq<Issued>, i: int)
    requires 0 <= i < |h|
  {
    forall j, p :: 0 <= j < i && geo.Has(p) && h[i].cmd.Touches(p) ==> Respects(t, h[j], p, h[i].cmd.kind, h[i].clk)
  }

  ghost predicate MeetsEveryConstraint(t: Tables, geo: Geometry, h: seq<Issued>) {
    forall i :: 0 <= i < |h| ==> OnTime(t, geo, h, i)
  }

  /** One more command leaves the others as they were, and is on time exactly when every bank it touches
      has reached its time. */
  lemma {:induction false} OnTimeExtend(t: Tables, geo: Geometry, h: seq<Issued>, x: Issued)
    ensures forall i :: 0 <= i < |h| ==> (OnTime(t, geo, h + [x], i) <==> OnTime(t, geo, h, i))
    ensures OnTime(t, geo, h + [x], |h|) <==>
      forall p :: geo.Has(p) && x.cmd.Touches(p) ==> x.clk >= Horizon(t, h, p, x.cmd.kind)
  {
    var g := h + [x];
    forall i | 0 <= i < |h|
      ensures OnTime(t, geo, g, i) <==> OnTime(t, geo, h, i)
    {
      assert g[i] == h[i] && forall j :: 0 <= j < i ==> g[j] == h[j];
    }
    forall p
      ensures x.clk >= Horizon(t, h, p, x.cmd.kind) <==> forall j :: 0 <= j < |h| ==>
        Respects(t, h[j], p, x.cmd.kind, x.clk)
    {
      HorizonMeaning(t, h, p, x.cmd.kind, x.clk);
    }
    assert g[|h|] == x && forall j :: 0 <= j < |h| ==> g[j] == h[j];
  }

  lemma {:induction false} HorizonExtend(t: Tables, h: seq<Issued>, x: Issued, p: Place, c: CommandType)
    ensures Horizon(t, h + [x], p, c) == Bump(Horizon(t, h, p, c), Applied(t, x.cmd, p), x.clk, c)
  {
    assert (h + [x])[..|h|] == h;
  }

  /** Issuing a read or write at clk pushes every later read and write past clk, on every bank it does
      not itself close. */
  ghost predicate SpacesReadWrites(t: Tables, geo: Geometry) {
    forall cmd: Command, p, k: CommandType ::
      (&& cmd.IsReadWrite() && geo.Has(cmd.Where()) && geo.Has(p) && IsReadWriteKind(k)
       && !(p == cmd.Where() && IsClosing(cmd.kind)))
      ==> Delays(Applied(t, cmd, p), k)
  }

  predicate Delays(list: seq<Constraint>, k: CommandType) {
    exists i :: 0 <= i < |list| && list[i].kind == k && list[i].delay >= 1
  }
}
