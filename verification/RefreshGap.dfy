/** A bank refresh does not keep the refreshed bank from being activated in the very same cycle, whatever
    the refresh time of a bank is. */
module RefreshGaps {
  import opened Commands
  import opened TimingSpec
  import opened TimingTables
  import opened BankSpec
  import opened ChannelSpec
  import opened Channels

  lemma {:induction false} SameHorizon(d: Device, h: seq<Issued>, refresh: Command, clk: nat)
    requires d.Sane() && refresh.kind.RefreshBank?
    ensures Horizon(Build(d), h + [Issued(refresh, clk)], refresh.Where(), Activate) ==
      Horizon(Build(d), h, refresh.Where(), Activate)
  {
    BankRefreshDelays(d, refresh, refresh.Where());
    HorizonExtend(Build(d), h, Issued(refresh, clk), refresh.Where(), Activate);
  }

  lemma {:induction false} StillIssuable(c: ChannelState, d: Device, h: seq<Issued>, refresh: Command,
                                         activate: Command, clk: nat)
    requires c.Valid() && d.Sane() && c.tables == Build(d) && c.history == h + [Issued(refresh, clk)]
    requires refresh.kind.RefreshBank? && activate.kind.Activate? && activate.Where() == refresh.Where()
    requires c.geo.Has(activate.Where())
    requires c.At(activate.Where()).View().state.Closed? && c.ActivationWindowOk(activate.addr.rank, clk)
    requires clk >= Horizon(c.tables, h, activate.Where(), Activate)
    ensures c.Issuable(activate, clk)
  {
    hide c.WindowValid, c.Sound;
    assert c.Tracks(activate.Where());
    SameHorizon(d, h, refresh, clk);
  }

  /** When a refresh and an activation of one bank are both issuable, issuing the refresh leaves the
      activation issuable in the same cycle: neither is early, though the bank is being refreshed. */
  method RefreshThenActivate(c: ChannelState, ghost d: Device, refresh: Command, activate: Command, clk: nat)
    requires c.Valid() && c.Upto(clk) && d.Sane() && c.tables == Build(d)
    requires refresh.kind.RefreshBank? && activate.kind.Activate? && activate.Where() == refresh.Where()
    requires c.Issuable(refresh, clk) && c.Issuable(activate, clk)
    modifies c, c.banks
    ensures c.Valid() && c.early == old(c.early)
    ensures c.history == old(c.history) + [Issued(refresh, clk)] + [Issued(activate, clk)]
  {
    hide c.Valid, c.Upto;
    ghost var h := c.history;
    ClosedInTime(c, activate, clk);
    c.UpdateTimingAndStates(refresh, clk);
    StillIssuable(c, d, h, refresh, activate, clk);
    c.UpdateTimingAndStates(activate, clk);
  }

  lemma {:induction false} ClosedInTime(c: ChannelState, activate: Command, clk: nat)
    requires c.Valid() && activate.kind.Activate? && c.Issuable(activate, clk)
    ensures c.Wired() && c.geo.Has(activate.Where()) && c.At(activate.Where()).View().state.Closed?
    ensures c.ActivationWindowOk(activate.addr.rank, clk)
    ensures clk >= Horizon(c.tables, c.history, activate.Where(), Activate)
  {
    assert c.Tracks(activate.Where());
    assert activate.Touches(activate.Where());
  }
}
