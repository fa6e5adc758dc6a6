/** Two controllers side by side. */
module Twins {
  import opened Commands
  import opened ChannelSpec
  import opened Channels
  import opened PimCycles
  import opened Naming
  import opened PimLockstep
  import opened Controllers
  import opened MemoryBooks

  /** The two controllers share nothing. */
  ghost predicate Apart(a: Controller, b: Controller) {
    a != b && a.channel != b.channel && a.cmdQueue != b.cmdQueue && a.refresh != b.refresh &&
      a.channel.banks !! b.channel.banks
  }

  /** Both without host traffic, built alike, and in the same state up to the naming of the channel. */
  ghost predicate Twin(a: Controller, b: Controller)
    reads a, a.cmdQueue, a.channel, b, b.cmdQueue, b.channel
  {
    a.Hostless() && b.Hostless() && a.Plan() == b.Plan() && PlainSide(a.PimView()) == PlainSide(b.PimView())
  }

  /** The banks of twins hold the same and are free at the same times. */
  ghost predicate SameBanks(c: ChannelState, d: ChannelState)
    requires c.Wired() && d.Wired() && c.geo == d.geo
    reads c.banks, d.banks
  {
    forall p :: c.geo.Has(p) ==>
      c.At(p).View() == d.At(p).View() && forall k: CommandType :: c.At(p).Earliest(k) == d.At(p).Earliest(k)
  }

  lemma {:induction false} TwinBanks(a: Controller, b: Controller)
    requires a.Valid() && b.Valid() && Twin(a, b)
    ensures a.channel.Wired() && b.channel.Wired() && a.channel.geo == b.channel.geo && SameBanks(a.channel, b.channel)
  {
    hide MemoryBooks.Inv, a.HandOff, b.HandOff, a.Mapped, b.Mapped, PlainSide, a.cmdQueue.Valid, a.Draining,
      a.PimQueues;
    var c, d := a.channel, b.channel;
    assert c.Valid() && d.Valid();
    forall p | c.geo.Has(p)
      ensures c.At(p).View() == d.At(p).View() && forall k: CommandType :: c.At(p).Earliest(k) == d.At(p).Earliest(k)
    {
      assert c.Tracks(p) && d.Tracks(p);
      AlikeBanks(c.Settings(), a.PimView(), b.PimView(), p, Read);
      forall k: CommandType
        ensures c.At(p).Earliest(k) == d.At(p).Earliest(k)
      {
        AlikeBanks(c.Settings(), a.PimView(), b.PimView(), p, k);
      }
    }
  }

  /** Twins that are sent commands alike stay twins. */
  method DeliverBoth(a: Controller, b: Controller, lane: Lane, cmdsA: seq<Command>, cmdsB: seq<Command>)
    requires a.Valid() && b.Valid() && Apart(a, b) && Twin(a, b)
    requires PlainQ(cmdsA) == PlainQ(cmdsB) && a.PimShaped(cmdsA) && b.PimShaped(cmdsB)
    modifies a`rdW, a`rdIn, a`releaseTime, a`wrQ, b`rdW, b`rdIn, b`releaseTime, b`wrQ
    ensures Twin(a, b)
    ensures a.Valid() && b.Valid()
  {
    hide a.Valid, b.Valid, PlainSide, PlainQ, Deliver, a.PimShaped;
    PlainDeliver(a.PimView(), b.PimView(), lane, cmdsA, cmdsB);
    a.DeliverPim(lane, cmdsA);
    b.DeliverPim(lane, cmdsB);
  }

  /** A cycle of both: they end the simulation together, or are twins again with the same banks. */
  method TickBoth(a: Controller, b: Controller) returns (okA: bool, okB: bool)
    requires a.Valid() && b.Valid() && Apart(a, b) && Twin(a, b)
    modifies a, a.cmdQueue, a.refresh, a.channel`refreshQ, a.channel`fourAw, a.channel`thirtyTwoAw, a.channel`history,
             a.channel`early, a.channel.banks
    modifies b, b.cmdQueue, b.refresh, b.channel`refreshQ, b.channel`fourAw, b.channel`thirtyTwoAw, b.channel`history,
             b.channel`early, b.channel.banks
    ensures okA == okB
    ensures okA ==> Twin(a, b)
    ensures okA ==> a.Valid() && b.Valid()
  {
    hide Controller.Valid, PlainSide, Cycle, Controller.PimView, Controller.Hostless, Controller.Served,
      Controller.Hosted, Controller.HostNow, Controller.Moves, Controller.NextFetched, Sends, PimWent, StuckStay,
      RefreshWork, PimPart, Requested, TooSoonIn, Controller.PimLanes, Controller.View;
    PlainCycle(a.Plan(), a.PimView());
    PlainCycle(b.Plan(), b.PimView());
    ghost var x, y;
    okA, x, y := a.ClockTick();
    okB, x, y := b.ClockTick();
  }
}
