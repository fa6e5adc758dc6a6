/** The delay tables as a function of the device parameters, and what they guarantee of every history
    that meets them. */
module TimingTables {
  import opened Commands
  import opened TimingSpec

  datatype Device = Device(
    burstCycle: nat, AL: nat, CL: nat, CWL: nat,
    tCCD_L: nat, tCCD_S: nat, tRTRS: nat, tRTP: nat, tWTR_L: nat, tWTR_S: nat, tWR: nat,
    tRP: nat, tPPD: nat, tRRD_L: nat, tRRD_S: nat, tRAS: nat, tRCD: nat, tRCDRD: nat, tRCDWR: nat,
    tREFI: nat, tRFC: nat, tRFCb: nat, tCKESR: nat, tXS: nat,
    bankgroups: nat, isGddr: bool, isHbm: bool, isLpddr4: bool)
  {
    function RL(): nat { AL + CL }
    function WL(): nat { AL + CWL }
    function ReadDelay(): nat { RL() + burstCycle }
    function WriteDelay(): nat { WL() + burstCycle }
    function TRC(): nat { tRAS + tRP }

    // With a single bank group the short parameters replace the long ones.
    function ReadToReadL(): nat { if bankgroups == 1 then ReadToReadS() else Max(burstCycle, tCCD_L) }
    function ReadToReadS(): nat { Max(burstCycle, tCCD_S) }
    function ReadToReadO(): nat { burstCycle + tRTRS }
    function ReadToWrite(): int { RL() + burstCycle - WL() + tRTRS }
    function ReadToWriteO(): int { ReadDelay() + burstCycle + tRTRS - WriteDelay() }
    function ReadToPrecharge(): nat { AL + tRTP }
    function ReadToActivate(): nat { ReadToPrecharge() + tRP }
    function WriteToReadL(): nat { if bankgroups == 1 then WriteToReadS() else WriteDelay() + tWTR_L }
    function WriteToReadS(): nat { WriteDelay() + tWTR_S }
    function WriteToReadO(): int { WriteDelay() + burstCycle + tRTRS - ReadDelay() }
    function WriteToWriteL(): nat { ReadToReadL() }
    function WriteToWriteS(): nat { ReadToReadS() }
    function WriteToWriteO(): nat { burstCycle }
    function WriteToPrecharge(): nat { WL() + burstCycle + tWR }
    function WriteToActivate(): nat { WriteToPrecharge() + tRP }
    function ActivateToActivateL(): nat { if bankgroups == 1 then tRRD_S else tRRD_L }
    function ActivateToRead(): int { if isGddr || isHbm then tRCDRD else tRCD - AL }
    function ActivateToWrite(): int { if isGddr || isHbm then tRCDWR else tRCD - AL }

    /** No delay is negative; the original adds the delay to an unsigned clock. */
    predicate Sane() {
      ReadToWrite() >= 0 && ReadToWriteO() >= 0 && WriteToReadO() >= 0 && ActivateToRead() >= 0 &&
        ActivateToWrite() >= 0
    }
  }

  /** The list shared by reads and by writes: delays to a later read and to a later write. */
  function ToAccess(toRead: nat, toWrite: nat): seq<Constraint> {
    [Constraint(Read, toRead), Constraint(Write, toWrite), Constraint(ReadPrecharge, toRead),
      Constraint(WritePrecharge, toWrite)]
  }

  function ToPimAccess(toRead: nat, toReadP: nat, toWrite: nat, toPre: nat): seq<Constraint> {
    [Constraint(LhRead, toRead), Constraint(GhRead, toRead), Constraint(PimWrite, toWrite),
     Constraint(LhReadPrecharge, toReadP), Constraint(GhReadPrecharge, toReadP), Constraint(PimWritePrecharge, toWrite),
     Constraint(Precharge, toPre)]
  }

  /** The list of commands that need the bank closed. */
  function ToClosed(d: nat): seq<Constraint> {
    [Constraint(Activate, d), Constraint(PimActivate, d), Constraint(Refresh, d), Constraint(RefreshBank, d),
      Constraint(SrefEnter, d)]
  }

  function SameBank(d: Device, k: CommandType): seq<Constraint>
    requires d.Sane()
  {
    match k
    case Read => ToAccess(d.ReadToReadL(), d.ReadToWrite()) + [Constraint(Precharge, d.ReadToPrecharge())]
    case Write => ToAccess(d.WriteToReadL(), d.WriteToWriteL()) + [Constraint(Precharge, d.WriteToPrecharge())]
    case ReadPrecharge => ToClosed(d.ReadToActivate())
    case WritePrecharge => ToClosed(d.WriteToActivate())
    case LhRead => ToPimAccess(d.ReadToReadS(), d.ReadToReadS(), d.ReadToWrite(), d.ReadToPrecharge())
    case GhRead => ToPimAccess(d.ReadToReadS(), d.ReadToReadS(), d.ReadToWrite(), d.ReadToPrecharge())
    case PimWrite => ToPimAccess(d.WriteToReadS(), d.WriteToReadL(), d.WriteToWriteS(), d.WriteToPrecharge())
    case LhReadPrecharge => ToClosed(d.ReadToActivate())
    case GhReadPrecharge => ToClosed(d.ReadToActivate())
    case PimWritePrecharge => ToClosed(d.WriteToActivate())
    case Activate =>
      [Constraint(Activate, d.TRC()), Constraint(PimActivate, d.TRC()), Constraint(Precharge, d.tRAS)]
      + ToAccess(d.ActivateToRead(), d.ActivateToWrite())
    case PimActivate =>
      [Constraint(Activate, d.TRC()), Constraint(PimActivate, d.TRC())]
      + ToPimAccess(d.ActivateToRead(), d.ActivateToRead(), d.ActivateToWrite(), d.tRAS)
    case Precharge => ToClosed(d.tRP)
    case _ => []
  }

  function OtherBanksSameGroup(d: Device, k: CommandType): seq<Constraint>
    requires d.Sane()
  {
    match k
    case Read => ToAccess(d.ReadToReadL(), d.ReadToWrite())
    case ReadPrecharge => ToAccess(d.ReadToReadL(), d.ReadToWrite())
    case Write => ToAccess(d.WriteToReadL(), d.WriteToWriteL())
    case WritePrecharge => ToAccess(d.WriteToReadL(), d.WriteToWriteL())
    case Activate => [Constraint(Activate, d.ActivateToActivateL()), Constraint(RefreshBank, d.TRC())]
    case PimActivate => [Constraint(RefreshBank, d.TRC())]
    case Precharge => if d.isGddr || d.isLpddr4 then [Constraint(Precharge, d.tPPD)] else []
    case RefreshBank => [Constraint(Activate, d.tRFC), Constraint(PimActivate, d.tRFC),
      Constraint(RefreshBank, d.tREFI)]
    case _ => []
  }

  function OtherGroupsSameRank(d: Device, k: CommandType): seq<Constraint>
    requires d.Sane()
  {
    match k
    case Read => ToAccess(d.ReadToReadS(), d.ReadToWrite())
    case ReadPrecharge => ToAccess(d.ReadToReadS(), d.ReadToWrite())
    case Write => ToAccess(d.WriteToReadS(), d.WriteToWriteS())
    case WritePrecharge => ToAccess(d.WriteToReadS(), d.WriteToWriteS())
    case Activate => [Constraint(Activate, d.tRRD_S), Constraint(RefreshBank, d.TRC())]
    case PimActivate => [Constraint(RefreshBank, d.TRC())]
    case Precharge => if d.isGddr || d.isLpddr4 then [Constraint(Precharge, d.tPPD)] else []
    case RefreshBank => [Constraint(Activate, d.tRFC), Constraint(PimActivate, d.tRFC),
      Constraint(RefreshBank, d.tREFI)]
    case _ => []
  }

  function OtherRanks(d: Device, k: CommandType): seq<Constraint>
    requires d.Sane()
  {
    match k
    case Read => ToAccess(d.ReadToReadO(), d.ReadToWriteO())
    case ReadPrecharge => ToAccess(d.ReadToReadO(), d.ReadToWriteO())
    case Write => ToAccess(d.WriteToReadO(), d.WriteToWriteO())
    case WritePrecharge => ToAccess(d.WriteToReadO(), d.WriteToWriteO())
    case _ => []
  }

  function SameRank(d: Device, k: CommandType): seq<Constraint> {
    match k
    case RefreshBank => ToClosed(d.tRFCb)
    case Refresh => [Constraint(Activate, d.tRFC), Constraint(PimActivate, d.tRFC), Constraint(Refresh, d.tRFC),
      Constraint(SrefEnter, d.tRFC)]
    case SrefEnter => [Constraint(SrefExit, d.tCKESR)]
    case SrefExit => ToClosed(d.tXS)
    case _ => []
  }

  function Build(d: Device): Tables
    requires d.Sane()
  {
    Tables(k => SameBank(d, k), k => OtherBanksSameGroup(d, k), k => OtherGroupsSameRank(d, k),
           k => OtherRanks(d, k), k => SameRank(d, k))
  }

  lemma {:induction false} AccessDelays(toRead: nat, toWrite: nat, rest: seq<Constraint>, k: CommandType)
    requires IsReadWriteKind(k) && forall i :: 0 <= i < |rest| ==> !IsReadWriteKind(rest[i].kind)
    ensures Delays(ToAccess(toRead, toWrite) + rest, k) <==>
      (if k.Read? || k.ReadPrecharge? then toRead else toWrite) >= 1
  {
    var list := ToAccess(toRead, toWrite) + rest;
    assert list[0] == Constraint(Read, toRead) && list[1] == Constraint(Write, toWrite)
        && list[2] == Constraint(ReadPrecharge, toRead) && list[3] == Constraint(WritePrecharge, toWrite);
    assert forall i :: 4 <= i < |list| ==> list[i] == rest[i - 4];
  }

  /** Two accesses can meet in one cycle exactly when one of these delays is zero. */
  predicate AccessesSpaced(d: Device, geo: Geometry) {
    && d.ReadToReadL() >= 1 && d.ReadToWrite() >= 1 && d.WriteToReadL() >= 1 && d.WriteToWriteL() >= 1
    && (geo.groups > 1 ==> d.ReadToReadS() >= 1 && d.WriteToReadS() >= 1 && d.WriteToWriteS() >= 1)
    && (geo.ranks > 1 ==>
      d.ReadToReadO() >= 1 && d.ReadToWriteO() >= 1 && d.WriteToReadO() >= 1 && d.WriteToWriteO() >= 1)
  }

  /** What an access demands of a later access on the bank at p, by the relation of the two banks. */
  function Gap(d: Device, first: Command, p: Place, k: CommandType): int {
    var toRead := k.Read? || k.ReadPrecharge?;
    if p.rank != first.addr.rank then
      if first.IsRead() then (if toRead then d.ReadToReadO() else d.ReadToWriteO())
      else (if toRead then d.WriteToReadO() else d.WriteToWriteO())
    else if p.group != first.addr.bankgroup then
      if first.IsRead() then (if toRead then d.ReadToReadS() else d.ReadToWrite())
      else (if toRead then d.WriteToReadS() else d.WriteToWriteS())
    else
      if first.IsRead() then (if toRead then d.ReadToReadL() else d.ReadToWrite())
      else (if toRead then d.WriteToReadL() else d.WriteToWriteL())
  }

  lemma {:induction false} GapApplied(d: Device, first: Command, p: Place, k: CommandType)
    requires d.Sane() && first.IsReadWrite() && IsReadWriteKind(k) && !(p == first.Where() && IsClosing(first.kind))
    ensures Delays(Applied(Build(d), first, p), k) <==> Gap(d, first, p, k) >= 1
  {
    var list := Applied(Build(d), first, p);
    var toRead, toWrite: nat := Gap(d, first, p, Read), Gap(d, first, p, Write);
    if p == first.Where() {
      var pre := Constraint(Precharge, if first.IsRead() then d.ReadToPrecharge() else d.WriteToPrecharge());
      assert list == ToAccess(toRead, toWrite) + [pre];
      AccessDelays(toRead, toWrite, [pre], k);
    } else {
      assert list == ToAccess(toRead, toWrite) + [];
      AccessDelays(toRead, toWrite, [], k);
    }
  }

  /** The device keeps any two accesses apart exactly when its access-to-access delays, for the bank
      relations that occur in the channel, are all positive. */
  lemma {:induction false} SpacedExactly(d: Device, geo: Geometry)
    requires d.Sane() && geo.ranks > 0 && geo.groups > 0 && geo.banks > 0
    ensures SpacesReadWrites(Build(d), geo) <==> AccessesSpaced(d, geo)
  {
    if AccessesSpaced(d, geo) {
      forall cmd: Command, p, k: CommandType
        | cmd.IsReadWrite() && geo.Has(cmd.Where()) && geo.Has(p) && IsReadWriteKind(k)
          && !(p == cmd.Where() && IsClosing(cmd.kind))
        ensures Delays(Applied(Build(d), cmd, p), k)
      {
        GapApplied(d, cmd, p, k);
      }
    }
    if SpacesReadWrites(Build(d), geo) {
      GapsForced(d, geo, Place(0, 0, 0));
      if geo.groups > 1 {
        GapsForced(d, geo, Place(0, 1, 0));
      }
      if geo.ranks > 1 {
        GapsForced(d, geo, Place(1, 0, 0));
      }
    }
  }

  lemma {:induction false} GapsForced(d: Device, geo: Geometry, p: Place)
    requires d.Sane() && SpacesReadWrites(Build(d), geo) && geo.Has(p) && geo.Has(Place(0, 0, 0))
    ensures Gap(d, Origin(false), p, Read) >= 1 && Gap(d, Origin(false), p, Write) >= 1
    ensures Gap(d, Origin(true), p, Read) >= 1 && Gap(d, Origin(true), p, Write) >= 1
  {
    forall w, k: CommandType | IsReadWriteKind(k)
      ensures Gap(d, Origin(w), p, k) >= 1
    {
      assert geo.Has(Origin(w).Where()) && Origin(w).IsReadWrite();
      assert Delays(Applied(Build(d), Origin(w), p), k);
      GapApplied(d, Origin(w), p, k);
    }
    assert IsReadWriteKind(Read) && IsReadWriteKind(Write);
  }

  function Origin(w: bool): Command { Command(if w then Write else Read, Address(0, 0, 0, 0, 0, 0), 0) }

  /** A REFRESH_BANK leaves no trace on the bank it refreshes, because its row sits in the rank table
      that the channel consults only for rank commands; the other banks of the rank wait tRFC. */
  lemma {:induction false} BankRefreshDelays(d: Device, cmd: Command, p: Place)
    requires d.Sane() && cmd.kind.RefreshBank? && p.rank == cmd.addr.rank
    ensures p == cmd.Where() ==> Applied(Build(d), cmd, p) == []
    ensures p != cmd.Where() ==>
      Applied(Build(d), cmd, p) ==
        [Constraint(Activate, d.tRFC), Constraint(PimActivate, d.tRFC), Constraint(RefreshBank, d.tREFI)]
  {
  }

  /** The times of two commands on one bank of a history that meets every constraint. */
  lemma {:induction false} Apart(d: Device, geo: Geometry, h: seq<Issued>, j: int, i: int, p: Place, k: int)
    requires d.Sane() && MeetsEveryConstraint(Build(d), geo, h) && 0 <= j < i < |h| && geo.Has(p) && h[i].cmd.Touches(p)
    requires 0 <= k < |Applied(Build(d), h[j].cmd, p)| && Applied(Build(d), h[j].cmd, p)[k].kind == h[i].cmd.kind
    ensures h[i].clk >= h[j].clk + Applied(Build(d), h[j].cmd, p)[k].delay
  {
    assert OnTime(Build(d), geo, h, i);
    assert Respects(Build(d), h[j], p, h[i].cmd.kind, h[i].clk);
  }

  predicate IsPimWrite(k: CommandType) { k.PimWrite? || k.PimWritePrecharge? }

  /** From an activation to a read or write of its row. */
  function RowToColumn(d: Device, write: bool): int {
    if !(d.isGddr || d.isHbm) then d.tRCD - d.AL else if write then d.tRCDWR else d.tRCDRD
  }

  /** Where an access stands in the list of a PIM activation. */
  function PimIndex(k: CommandType): int {
    match k
    case LhRead => 2
    case GhRead => 3
    case PimWrite => 4
    case LhReadPrecharge => 5
    case GhReadPrecharge => 6
    case _ => 7
  }

  /** The activate, precharge, read and write distances, between any two commands of a history
      that meets the tables, however far apart. */
  lemma {:induction false} CommandDistances(d: Device, geo: Geometry, h: seq<Issued>, j: int, i: int, p: Place)
    requires d.Sane() && MeetsEveryConstraint(Build(d), geo, h) && 0 <= j < i < |h|
    requires geo.Has(p) && h[i].cmd.Where() == p && !h[i].cmd.IsRankCmd()
    ensures h[j].cmd.Where() == p && IsActivation(h[j].cmd.kind) && IsActivation(h[i].cmd.kind) ==>
      h[i].clk - h[j].clk >= d.tRAS + d.tRP
    ensures h[j].cmd.Where() == p && IsActivation(h[j].cmd.kind) && h[i].cmd.kind.Precharge? ==>
      h[i].clk - h[j].clk >= d.tRAS
    ensures h[j].cmd.Where() == p && h[j].cmd.kind.Activate? && h[i].cmd.IsReadWrite() ==>
      h[i].clk - h[j].clk >= RowToColumn(d, h[i].cmd.IsWrite())
    ensures h[j].cmd.Where() == p && h[j].cmd.kind.Precharge? && IsActivation(h[i].cmd.kind) ==>
      h[i].clk - h[j].clk >= d.tRP
    ensures h[j].cmd.Where() == p && h[j].cmd.kind.PimActivate? && IsPimAccess(h[i].cmd.kind) ==>
      h[i].clk - h[j].clk >= RowToColumn(d, IsPimWrite(h[i].cmd.kind))
  {
    var a, k := h[j].cmd, h[i].cmd.kind;
    assert h[i].cmd.Touches(p);
    if a.Where() == p && IsActivation(a.kind) && IsActivation(k) {
      Apart(d, geo, h, j, i, p, if k.Activate? then 0 else 1);
    }
    if a.Where() == p && IsActivation(a.kind) && k.Precharge? {
      Apart(d, geo, h, j, i, p, if a.kind.Activate? then 2 else 8);
    }
    if a.Where() == p && a.kind.Activate? && IsReadWriteKind(k) {
      Apart(d, geo, h, j, i, p, if k.Read? then 3 else if k.Write? then 4 else if k.ReadPrecharge? then 5 else 6);
    }
    if a.Where() == p && a.kind.Precharge? && IsActivation(k) {
      Apart(d, geo, h, j, i, p, if k.Activate? then 0 else 1);
    }
    if a.Where() == p && a.kind.PimActivate? && IsPimAccess(k) {
      Apart(d, geo, h, j, i, p, PimIndex(k));
    }
  }

  /** The refresh distances; a bank refresh keeps the other banks of its rank waiting, not its own. */
  lemma {:induction false} RefreshDistances(d: Device, geo: Geometry, h: seq<Issued>, j: int, i: int, p: Place)
    requires d.Sane() && MeetsEveryConstraint(Build(d), geo, h) && 0 <= j < i < |h|
    requires geo.Has(p) && h[i].cmd.Where() == p && !h[i].cmd.IsRankCmd()
    ensures h[j].cmd.kind.Refresh? && h[j].cmd.addr.rank == p.rank && IsActivation(h[i].cmd.kind) ==>
      h[i].clk - h[j].clk >= d.tRFC
    ensures h[j].cmd.kind.RefreshBank? && h[j].cmd.addr.rank == p.rank && h[j].cmd.Where() != p ==>
      (IsActivation(h[i].cmd.kind) ==> h[i].clk - h[j].clk >= d.tRFC) &&
        (h[i].cmd.kind.RefreshBank? ==> h[i].clk - h[j].clk >= d.tREFI)
  {
    var a, k := h[j].cmd, h[i].cmd.kind;
    assert h[i].cmd.Touches(p);
    if a.kind.RefreshBank? && a.addr.rank == p.rank && a.Where() != p && (IsActivation(k) || k.RefreshBank?) {
      Apart(d, geo, h, j, i, p, if k.Activate? then 0 else if k.PimActivate? then 1 else 2);
    }
    if a.kind.Refresh? && a.addr.rank == p.rank && IsActivation(k) {
      Apart(d, geo, h, j, i, p, if k.Activate? then 0 else 1);
    }
  }

  /** Two refreshes of one rank are tRFC apart as well. */
  lemma {:induction false} RankRefreshDistance(d: Device, geo: Geometry, h: seq<Issued>, j: int, i: int)
    requires d.Sane() && MeetsEveryConstraint(Build(d), geo, h) && 0 <= j < i < |h| && geo.groups > 0 && geo.banks > 0
    requires h[j].cmd.kind.Refresh? && h[i].cmd.kind.Refresh? && h[i].cmd.addr.rank == h[j].cmd.addr.rank
    requires 0 <= h[j].cmd.addr.rank < geo.ranks
    ensures h[i].clk - h[j].clk >= d.tRFC
  {
    Apart(d, geo, h, j, i, Place(h[j].cmd.addr.rank, 0, 0), 2);
  }

  predicate NeedsClosed(k: CommandType) { IsActivation(k) || k.Refresh? || k.RefreshBank? || k.SrefEnter? }

  /** From the last access of a row to its precharge. */
  function Recovery(d: Device, k: CommandType): int {
    if k.Write? || k.WritePrecharge? || IsPimWrite(k) then d.AL + d.CWL + d.burstCycle + d.tWR else d.AL + d.tRTP
  }

  /** From one host access to another, by their kinds and the relation of their banks. */
  function ColumnGap(d: Device, read: bool, nextRead: bool, sameRank: bool, sameGroup: bool): int {
    var near := sameGroup && d.bankgroups != 1;
    if !sameRank then
      if read then (if nextRead then d.burstCycle + d.tRTRS else d.CL + d.burstCycle + d.tRTRS - d.CWL)
      else (if nextRead then d.CWL + d.burstCycle + d.tRTRS - d.CL else d.burstCycle)
    else if read == nextRead then Max(d.burstCycle, if near then d.tCCD_L else d.tCCD_S)
    else if read then d.CL + d.burstCycle + d.tRTRS - d.CWL
    else d.AL + d.CWL + d.burstCycle + if near then d.tWTR_L else d.tWTR_S
  }

  /** From one PIM access of a bank to another. */
  function PimGap(d: Device, a: CommandType, b: CommandType): int {
    if IsPimWrite(a) == IsPimWrite(b) then Max(d.burstCycle, d.tCCD_S)
    else if IsPimWrite(b) then d.CL + d.burstCycle + d.tRTRS - d.CWL
    else d.AL + d.CWL + d.burstCycle + if IsClosing(b) && d.bankgroups != 1 then d.tWTR_L else d.tWTR_S
  }

  /** Where a host access stands in the list of another one, a PIM access in that of another one, and an
      activation or bank refresh in the lists of what closes a bank. */
  function HostIndex(k: CommandType): int {
    if k.Read? then 0 else if k.Write? then 1 else if k.ReadPrecharge? then 2 else 3
  }
  function ClosedIndex(k: CommandType): int { if k.Activate? then 0 else if k.PimActivate? then 1 else 3 }

  /** Two host accesses, one bank closed in between apart: the column and turn-around times of the device,
      by the relation of the two banks. */
  lemma {:induction false} AccessDistances(d: Device, geo: Geometry, h: seq<Issued>, j: int, i: int)
    requires d.Sane() && MeetsEveryConstraint(Build(d), geo, h) && 0 <= j < i < |h| && geo.Has(h[i].cmd.Where())
    requires h[j].cmd.IsReadWrite() && h[i].cmd.IsReadWrite()
    requires !(h[j].cmd.Where() == h[i].cmd.Where() && IsClosing(h[j].cmd.kind))
    ensures var a, b := h[j].cmd, h[i].cmd;
      h[i].clk - h[j].clk >=
        ColumnGap(d, a.IsRead(), b.IsRead(), a.addr.rank == b.addr.rank, a.addr.bankgroup == b.addr.bankgroup)
  {
    assert h[i].cmd.Touches(h[i].cmd.Where());
    Apart(d, geo, h, j, i, h[i].cmd.Where(), HostIndex(h[i].cmd.kind));
  }

  /** From an access to the precharge of its bank, and from one that closes its bank to the next activation
      or refresh of that bank. */
  lemma {:induction false} AccessToClose(d: Device, geo: Geometry, h: seq<Issued>, j: int, i: int)
    requires d.Sane() && MeetsEveryConstraint(Build(d), geo, h) && 0 <= j < i < |h| && geo.Has(h[i].cmd.Where())
    requires IsAccess(h[j].cmd.kind) && !h[i].cmd.IsRankCmd() && h[j].cmd.Where() == h[i].cmd.Where()
    ensures var a, k, gap := h[j].cmd, h[i].cmd.kind, h[i].clk - h[j].clk;
      && (!IsClosing(a.kind) && k.Precharge? ==> gap >= Recovery(d, a.kind))
      && (IsClosing(a.kind) && (IsActivation(k) || k.RefreshBank?) ==> gap >= Recovery(d, a.kind) + d.tRP)
  {
    var a, k, p := h[j].cmd, h[i].cmd.kind, h[i].cmd.Where();
    assert h[i].cmd.Touches(p);
    if !IsClosing(a.kind) && k.Precharge? {
      Apart(d, geo, h, j, i, p, if IsPimAccess(a.kind) then 6 else 4);
    }
    if IsClosing(a.kind) && (IsActivation(k) || k.RefreshBank?) {
      Apart(d, geo, h, j, i, p, ClosedIndex(k));
    }
  }

  /** Two PIM accesses of one bank. */
  lemma {:induction false} PimDistances(d: Device, geo: Geometry, h: seq<Issued>, j: int, i: int)
    requires d.Sane() && MeetsEveryConstraint(Build(d), geo, h) && 0 <= j < i < |h| && geo.Has(h[i].cmd.Where())
    requires IsPimAccess(h[j].cmd.kind) && IsPimAccess(h[i].cmd.kind) && h[j].cmd.Where() == h[i].cmd.Where()
    requires !IsClosing(h[j].cmd.kind)
    ensures h[i].clk - h[j].clk >= PimGap(d, h[j].cmd.kind, h[i].cmd.kind)
  {
    assert h[i].cmd.Touches(h[i].cmd.Where());
    Apart(d, geo, h, j, i, h[i].cmd.Where(), PimIndex(h[i].cmd.kind) - 2);
  }

  /** A rank refresh waits for every bank of the rank: after a precharge, and after an access that closes. */
  lemma {:induction false} RefreshWaits(d: Device, geo: Geometry, h: seq<Issued>, j: int, i: int)
    requires d.Sane() && MeetsEveryConstraint(Build(d), geo, h) && 0 <= j < i < |h| && geo.Has(h[j].cmd.Where())
    requires h[i].cmd.kind.Refresh? && h[i].cmd.addr.rank == h[j].cmd.addr.rank && IsClosing(h[j].cmd.kind)
    ensures h[i].clk - h[j].clk >= d.tRP + if h[j].cmd.kind.Precharge? then 0 else Recovery(d, h[j].cmd.kind)
  {
    assert h[i].cmd.Touches(h[j].cmd.Where());
    Apart(d, geo, h, j, i, h[j].cmd.Where(), 2);
  }

  /** Activations and precharges of different banks of a rank. */
  lemma {:induction false} NeighbourDistances(d: Device, geo: Geometry, h: seq<Issued>, j: int, i: int)
    requires d.Sane() && MeetsEveryConstraint(Build(d), geo, h) && 0 <= j < i < |h| && geo.Has(h[i].cmd.Where())
    requires !h[i].cmd.IsRankCmd() && h[j].cmd.addr.rank == h[i].cmd.addr.rank && h[j].cmd.Where() != h[i].cmd.Where()
    ensures var a, b, gap := h[j].cmd, h[i].cmd, h[i].clk - h[j].clk;
      && (a.kind.Activate? && b.kind.Activate? ==>
            gap >= if a.addr.bankgroup == b.addr.bankgroup && d.bankgroups != 1 then d.tRRD_L else d.tRRD_S)
      && (IsActivation(a.kind) && b.kind.RefreshBank? ==> gap >= d.tRAS + d.tRP)
      && (a.kind.Precharge? && b.kind.Precharge? && (d.isGddr || d.isLpddr4) ==> gap >= d.tPPD)
  {
    var a, b, p := h[j].cmd, h[i].cmd, h[i].cmd.Where();
    assert b.Touches(p);
    if a.kind.Activate? && b.kind.Activate? {
      Apart(d, geo, h, j, i, p, 0);
    }
    if IsActivation(a.kind) && b.kind.RefreshBank? {
      Apart(d, geo, h, j, i, p, if a.kind.Activate? then 1 else 0);
    }
    if a.kind.Precharge? && b.kind.Precharge? && (d.isGddr || d.isLpddr4) {
      Apart(d, geo, h, j, i, p, 0);
    }
  }

  /** What a command demands of a later command of kind k on the bank at p, in the device's parameters; no
      demand at all for the pairs that are not listed. */
  function Needed(d: Device, a: Command, p: Place, k: CommandType): Option<int> {
    var sameRank, same := p.rank == a.addr.rank, p == a.Where();
    if a.IsRankCmd() then
      if !sameRank then None
      else if a.kind.Refresh? && (IsActivation(k) || k.Refresh? || k.SrefEnter?) then Some(d.tRFC)
      else if a.kind.SrefEnter? && k.SrefExit? then Some(d.tCKESR)
      else if a.kind.SrefExit? && NeedsClosed(k) then Some(d.tXS)
      else None
    else if IsAccess(a.kind) && same && (IsClosing(a.kind) || k.Precharge?) then
      if !IsClosing(a.kind) then Some(Recovery(d, a.kind))
      else if NeedsClosed(k) then Some(Recovery(d, a.kind) + d.tRP) else None
    else if IsPimAccess(a.kind) then
      if same && IsPimAccess(k) then Some(PimGap(d, a.kind, k)) else None
    else if a.IsReadWrite() then
      if IsReadWriteKind(k) then
        Some(ColumnGap(d, a.IsRead(), k.Read? || k.ReadPrecharge?, sameRank, p.group == a.addr.bankgroup))
      else None
    else if same then NeededHere(d, a.kind, k)
    else if sameRank then NeededBeside(d, a.kind, k, p.group == a.addr.bankgroup)
    else None
  }

  /** After an activation or precharge of the bank itself. */
  function NeededHere(d: Device, a: CommandType, k: CommandType): Option<int> {
    if IsActivation(a) then
      if IsActivation(k) then Some(d.tRAS + d.tRP)
      else if k.Precharge? then Some(d.tRAS)
      else if a.Activate? && IsReadWriteKind(k) then Some(RowToColumn(d, k.Write? || k.WritePrecharge?))
      else if a.PimActivate? && IsPimAccess(k) then Some(RowToColumn(d, IsPimWrite(k)))
      else None
    else if a.Precharge? && NeedsClosed(k) then Some(d.tRP)
    else None
  }

  /** After an activation, precharge or refresh of another bank of the rank. */
  function NeededBeside(d: Device, a: CommandType, k: CommandType, sameGroup: bool): Option<int> {
    if a.Activate? && k.Activate? then Some(if sameGroup && d.bankgroups != 1 then d.tRRD_L else d.tRRD_S)
    else if IsActivation(a) && k.RefreshBank? then Some(d.tRAS + d.tRP)
    else if a.Precharge? && k.Precharge? && (d.isGddr || d.isLpddr4) then Some(d.tPPD)
    else if a.RefreshBank? && IsActivation(k) then Some(d.tRFC)
    else if a.RefreshBank? && k.RefreshBank? then Some(d.tREFI)
    else None
  }

  /** The list lets a command of kind k go at x, counted from t. */
  predicate Lets(list: seq<Constraint>, t: int, k: CommandType, x: int) {
    forall n :: 0 <= n < |list| && list[n].kind == k ==> x >= t + list[n].delay
  }

  lemma {:induction false} LetsBoth(a: seq<Constraint>, b: seq<Constraint>, t: int, k: CommandType, x: int)
    ensures Lets(a + b, t, k, x) <==> Lets(a, t, k, x) && Lets(b, t, k, x)
  {
    assert forall n :: 0 <= n < |a| ==> (a + b)[n] == a[n];
    assert forall n :: 0 <= n < |b| ==> (a + b)[|a| + n] == b[n];
    if Lets(a + b, t, k, x) {
      forall n | 0 <= n < |b| && b[n].kind == k
        ensures x >= t + b[n].delay
      {
        assert (a + b)[|a| + n] == b[n];
      }
    }
  }

  lemma {:induction false} LetsAccess(toRead: nat, toWrite: nat, t: int, k: CommandType, x: int)
    ensures Lets(ToAccess(toRead, toWrite), t, k, x) <==>
      (IsReadWriteKind(k) ==> x >= t + if k.Read? || k.ReadPrecharge? then toRead else toWrite)
  {
    var list := ToAccess(toRead, toWrite);
    assert list[0].kind.Read? && list[1].kind.Write? && list[2].kind.ReadPrecharge? && list[3].kind.WritePrecharge?;
  }

  lemma {:induction false} LetsPim(toRead: nat, toReadP: nat, toWrite: nat, toPre: nat, t: int, k: CommandType, x: int)
    ensures Lets(ToPimAccess(toRead, toReadP, toWrite, toPre), t, k, x) <==>
      (k.LhRead? || k.GhRead? ==> x >= t + toRead) && (k.LhReadPrecharge? || k.GhReadPrecharge? ==> x >= t + toReadP)
      && (IsPimWrite(k) ==> x >= t + toWrite) && (k.Precharge? ==> x >= t + toPre)
  {
    var list := ToPimAccess(toRead, toReadP, toWrite, toPre);
    assert list[0].kind.LhRead? && list[1].kind.GhRead? && list[2].kind.PimWrite? && list[3].kind.LhReadPrecharge?;
    assert list[4].kind.GhReadPrecharge? && list[5].kind.PimWritePrecharge? && list[6].kind.Precharge?;
  }

  lemma {:induction false} LetsClosed(w: nat, t: int, k: CommandType, x: int)
    ensures Lets(ToClosed(w), t, k, x) <==> (NeedsClosed(k) ==> x >= t + w)
  {
    var list := ToClosed(w);
    assert list[0].kind.Activate? && list[1].kind.PimActivate? && list[2].kind.Refresh? && list[3].kind.RefreshBank?;
    assert list[4].kind.SrefEnter?;
  }

  /** A demand is met. */
  predicate Met(n: Option<int>, t: int, x: int) { n.None? || x >= t + n.value }

  lemma {:induction false} AccessExactly(d: Device, a: Command, p: Place, t: int, k: CommandType, x: int)
    requires d.Sane() && IsAccess(a.kind)
    ensures Lets(Applied(Build(d), a, p), t, k, x) <==> Met(Needed(d, a, p, k), t, x)
  {
    hide Lets;
    var list := Applied(Build(d), a, p);
    if IsClosing(a.kind) && p == a.Where() {
      LetsClosed(if a.IsWrite() || IsPimWrite(a.kind) then d.WriteToActivate() else d.ReadToActivate(), t, k, x);
    } else if IsPimAccess(a.kind) {
      if p == a.Where() {
        if IsPimWrite(a.kind) {
          LetsPim(d.WriteToReadS(), d.WriteToReadL(), d.WriteToWriteS(), d.WriteToPrecharge(), t, k, x);
        } else {
          LetsPim(d.ReadToReadS(), d.ReadToReadS(), d.ReadToWrite(), d.ReadToPrecharge(), t, k, x);
        }
      } else {
        LetsNothing(t, k, x);
      }
    } else {
      HostExactly(d, a, p, t, k, x);
    }
  }

  lemma {:induction false} LetsNothing(t: int, k: CommandType, x: int)
    ensures Lets([], t, k, x)
  {
  }

  lemma {:induction false} LetsOne(c: Constraint, t: int, k: CommandType, x: int)
    ensures Lets([c], t, k, x) <==> (c.kind == k ==> x >= t + c.delay)
  {
    assert [c][0] == c;
  }

  lemma {:induction false} HostExactly(d: Device, a: Command, p: Place, t: int, k: CommandType, x: int)
    requires d.Sane() && a.IsReadWrite() && !(IsClosing(a.kind) && p == a.Where())
    ensures Lets(Applied(Build(d), a, p), t, k, x) <==> Met(Needed(d, a, p, k), t, x)
  {
    hide Lets;
    var toRead, toWrite: nat := Gap(d, a, p, Read), Gap(d, a, p, Write);
    LetsAccess(toRead, toWrite, t, k, x);
    if p == a.Where() {
      var pre := Constraint(Precharge, if a.IsRead() then d.ReadToPrecharge() else d.WriteToPrecharge());
      LetsOne(pre, t, k, x);
      LetsBoth(ToAccess(toRead, toWrite), [pre], t, k, x);
      assert Applied(Build(d), a, p) == ToAccess(toRead, toWrite) + [pre];
    } else {
      assert Applied(Build(d), a, p) == ToAccess(toRead, toWrite);
    }
  }

  lemma {:induction false} LetsUpTo3(list: seq<Constraint>, t: int, k: CommandType, x: int)
    requires 1 <= |list| <= 3
    ensures Lets(list, t, k, x) <==>
      (list[0].kind == k ==> x >= t + list[0].delay)
      && (|list| > 1 && list[1].kind == k ==> x >= t + list[1].delay)
      && (|list| > 2 && list[2].kind == k ==> x >= t + list[2].delay)
  {
  }

  lemma {:induction false} PimActivateExactly(d: Device, a: Command, p: Place, t: int, k: CommandType, x: int)
    requires d.Sane() && a.kind.PimActivate? && p == a.Where()
    ensures Lets(Applied(Build(d), a, p), t, k, x) <==> Met(Needed(d, a, p, k), t, x)
  {
    hide Lets;
    var r, w: nat := d.ActivateToRead(), d.ActivateToWrite();
    var rows := [Constraint(Activate, d.TRC()), Constraint(PimActivate, d.TRC())];
    LetsPim(r, r, w, d.tRAS, t, k, x);
    LetsBoth(rows, ToPimAccess(r, r, w, d.tRAS), t, k, x);
    LetsUpTo3(rows, t, k, x);
  }

  lemma {:induction false} ActivateExactly(d: Device, a: Command, p: Place, t: int, k: CommandType, x: int)
    requires d.Sane() && a.kind.Activate? && p == a.Where()
    ensures Lets(Applied(Build(d), a, p), t, k, x) <==> Met(Needed(d, a, p, k), t, x)
  {
    hide Lets;
    var r, w: nat := d.ActivateToRead(), d.ActivateToWrite();
    var rows := [Constraint(Activate, d.TRC()), Constraint(PimActivate, d.TRC()), Constraint(Precharge, d.tRAS)];
    LetsAccess(r, w, t, k, x);
    LetsBoth(rows, ToAccess(r, w), t, k, x);
    LetsUpTo3(rows, t, k, x);
  }

  lemma {:induction false} RankExactly(d: Device, a: Command, p: Place, t: int, k: CommandType, x: int)
    requires d.Sane() && a.IsRankCmd()
    ensures Lets(Applied(Build(d), a, p), t, k, x) <==> Met(Needed(d, a, p, k), t, x)
  {
    hide Lets;
    var list := Applied(Build(d), a, p);
    if list == [] {
      LetsNothing(t, k, x);
    } else if a.kind.SrefExit? {
      LetsClosed(d.tXS, t, k, x);
    } else if a.kind.SrefEnter? {
      LetsUpTo3(list, t, k, x);
    } else {
      var first, last := list[..3], list[3..];
      LetsUpTo3(first, t, k, x);
      LetsUpTo3(last, t, k, x);
      LetsBoth(first, last, t, k, x);
      assert list == first + last;
    }
  }

  lemma {:induction false} BesideExactly(d: Device, a: Command, p: Place, t: int, k: CommandType, x: int)
    requires d.Sane() && !IsAccess(a.kind) && !a.IsRankCmd()
    requires (p == a.Where() ==> a.kind.Precharge? || a.kind.RefreshBank?)
    ensures Lets(Applied(Build(d), a, p), t, k, x) <==> Met(Needed(d, a, p, k), t, x)
  {
    hide Lets;
    var list := Applied(Build(d), a, p);
    if list == [] {
      LetsNothing(t, k, x);
    } else if p == a.Where() {
      LetsClosed(d.tRP, t, k, x);
    } else {
      LetsUpTo3(list, t, k, x);
    }
  }

  /** The tables demand exactly this, no less and no more. */
  lemma {:induction false} NeededExactly(d: Device, i: Issued, p: Place, k: CommandType, x: int)
    requires d.Sane()
    ensures Respects(Build(d), i, p, k, x) <==> Met(Needed(d, i.cmd, p, k), i.clk, x)
  {
    hide Needed, Applied, Build;
    if IsAccess(i.cmd.kind) {
      AccessExactly(d, i.cmd, p, i.clk, k, x);
    } else if i.cmd.IsRankCmd() {
      RankExactly(d, i.cmd, p, i.clk, k, x);
    } else if i.cmd.kind.PimActivate? && p == i.cmd.Where() {
      PimActivateExactly(d, i.cmd, p, i.clk, k, x);
    } else if i.cmd.kind.Activate? && p == i.cmd.Where() {
      ActivateExactly(d, i.cmd, p, i.clk, k, x);
    } else {
      BesideExactly(d, i.cmd, p, i.clk, k, x);
    }
  }

  /** Whenever two commands touch a bank, however far apart, the later one waits as long as needed. */
  ghost predicate AllWait(d: Device, geo: Geometry, h: seq<Issued>) {
    forall i, j, p :: 0 <= j < i < |h| && geo.Has(p) && h[i].cmd.Touches(p) ==>
      Met(Needed(d, h[j].cmd, p, h[i].cmd.kind), h[j].clk, h[i].clk)
  }

  /** A history meets the tables exactly when it does. */
  lemma {:induction false} TablesMeaning(d: Device, geo: Geometry, h: seq<Issued>)
    requires d.Sane()
    ensures MeetsEveryConstraint(Build(d), geo, h) <==> AllWait(d, geo, h)
  {
    hide Needed, Respects, Build;
    forall i, j, p | 0 <= j < i < |h| && geo.Has(p) && h[i].cmd.Touches(p)
      ensures Respects(Build(d), h[j], p, h[i].cmd.kind, h[i].clk) <==>
        Met(Needed(d, h[j].cmd, p, h[i].cmd.kind), h[j].clk, h[i].clk)
    {
      NeededExactly(d, h[j], p, h[i].cmd.kind, h[i].clk);
    }
    if AllWait(d, geo, h) {
      forall i | 0 <= i < |h|
        ensures OnTime(Build(d), geo, h, i)
      {
      }
    } else {
      var i, j, p :| 0 <= j < i < |h| && geo.Has(p) && h[i].cmd.Touches(p) &&
        !Met(Needed(d, h[j].cmd, p, h[i].cmd.kind), h[j].clk, h[i].clk);
      assert !OnTime(Build(d), geo, h, i);
    }
  }
}
