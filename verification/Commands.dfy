/** Commands, addresses and the small wrappers shared by the whole model. */
module Commands {

  datatype Option<+T> = None | Some(value: T)

  datatype CommandType =
    | Read | ReadPrecharge | Write | WritePrecharge
    | Activate | Precharge | RefreshBank | Refresh | SrefEnter | SrefExit
    | LhRead | LhReadPrecharge | GhRead | GhReadPrecharge
    | PimWrite | PimWritePrecharge | PimActivate

  datatype Address = Address(channel: int, rank: int, bankgroup: int, bank: int, row: int, column: int)

  /** The coordinates of one bank inside a channel. */
  datatype Place = Place(rank: int, group: int, bank: int)

  /** How many ranks, bank groups per rank and banks per group a channel has. */
  datatype Geometry = Geometry(ranks: nat, groups: nat, banks: nat) {
    predicate Has(p: Place) {
      0 <= p.rank < ranks && 0 <= p.group < groups && 0 <= p.bank < banks
    }
  }

  datatype Command = Command(kind: CommandType, addr: Address, hexAddr: int) {
    predicate IsRefresh() { kind.Refresh? || kind.RefreshBank? }
    predicate IsRead() { kind.Read? || kind.ReadPrecharge? }
    predicate IsWrite() { kind.Write? || kind.WritePrecharge? }
    predicate IsReadWrite() { IsRead() || IsWrite() }
    predicate IsRankCmd() { kind.Refresh? || kind.SrefEnter? || kind.SrefExit? }
    function Where(): Place { Place(addr.rank, addr.bankgroup, addr.bank) }

    /** True when the bank at p is one the command acts on. */
    predicate Touches(p: Place) {
      if IsRankCmd() then p.rank == addr.rank else p == Where()
    }
  }

  predicate IsReadWriteKind(k: CommandType) { k.Read? || k.ReadPrecharge? || k.Write? || k.WritePrecharge? }

  predicate IsActivation(k: CommandType) { k.Activate? || k.PimActivate? }

  /** Column accesses that use the PIM datapath. */
  predicate IsPimAccess(k: CommandType) {
    k.LhRead? || k.LhReadPrecharge? || k.GhRead? || k.GhReadPrecharge? || k.PimWrite? || k.PimWritePrecharge?
  }

  /** Column accesses, ordinary or PIM. */
  predicate IsAccess(k: CommandType) {
    k.Read? || k.ReadPrecharge? || k.Write? || k.WritePrecharge? || IsPimAccess(k)
  }

  /** Commands that leave the bank closed. */
  predicate IsClosing(k: CommandType) {
    k.ReadPrecharge? || k.WritePrecharge? || k.LhReadPrecharge? || k.GhReadPrecharge?
    || k.PimWritePrecharge? || k.Precharge?
  }

  function Max(a: int, b: int): int { if a < b then b else a }
  function Min(a: int, b: int): int { if a < b then a else b }
}
