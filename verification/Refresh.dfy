/** The staggered refresh scheduler: when a refresh is requested, of which target, and the look-ahead
    that pauses PIM work. */
module Refreshes {
  import opened Arithmetic
  import opened Commands
  import opened Channels

  datatype Policy = RankStaggered | BankStaggered

  /** The digits that rotate: a rank refresh has only the rank digit. */
  function Wheel(policy: Policy, geo: Geometry): Geometry {
    if policy.RankStaggered? then Geometry(geo.ranks, 1, 1) else geo
  }

  predicate Turning(w: Geometry) { w.ranks > 0 && w.groups > 0 && w.banks > 0 }

  function Period(w: Geometry): nat { w.ranks * (w.banks * w.groups) }

  /** Target of the n-th request: group fastest, then bank, then rank. */
  function Target(w: Geometry, n: nat): Place
    requires Turning(w)
  {
    Place(n / w.groups / w.banks % w.ranks, n % w.groups, n / w.groups % w.banks)
  }

  function Slot(w: Geometry, p: Place): int { p.rank * (w.banks * w.groups) + (p.bank * w.groups + p.group) }

  lemma {:induction false} SlotBound(w: Geometry, p: Place)
    requires Turning(w) && w.Has(p)
    ensures 0 <= Slot(w, p) < Period(w)
  {
    DigitsBound(p.bank, p.group, w.banks, w.groups);
    DigitsBound(p.rank, p.bank * w.groups + p.group, w.ranks, w.banks * w.groups);
  }

  lemma {:induction false} SlotInjective(w: Geometry, p: Place, q: Place)
    requires Turning(w) && w.Has(p) && w.Has(q) && Slot(w, p) == Slot(w, q)
    ensures p == q
  {
    DigitsBound(p.bank, p.group, w.banks, w.groups);
    DigitsBound(q.bank, q.group, w.banks, w.groups);
    MixedRadix(p.rank, p.bank * w.groups + p.group, w.banks * w.groups);
    MixedRadix(q.rank, q.bank * w.groups + q.group, w.banks * w.groups);
    MixedRadix(p.bank, p.group, w.groups);
    MixedRadix(q.bank, q.group, w.groups);
  }

  /** The rotation is periodic: the target depends only on the position inside the period. */
  lemma {:induction false} TargetSlot(w: Geometry, n: nat)
    requires Turning(w)
    ensures w.Has(Target(w, n)) && n % Period(w) == Slot(w, Target(w, n))
  {
    var p := Target(w, n);
    var a, b := n / w.groups, n / w.groups / w.banks;
    var c := b / w.ranks;
    assert n == a * w.groups + p.group && a == b * w.banks + p.bank && b == c * w.ranks + p.rank;
    SlotBound(w, p);
    Regroup(w, c, p);
    assert n == c * Period(w) + Slot(w, p);
    DivUnique(n, Period(w), c);
  }

  lemma {:induction false} Regroup(w: Geometry, c: int, p: Place)
    ensures ((c * w.ranks + p.rank) * w.banks + p.bank) * w.groups + p.group == c * Period(w) + Slot(w, p)
  {
    var bg := w.banks * w.groups;
    assert ((c * w.ranks + p.rank) * w.banks + p.bank) * w.groups
        == (c * w.ranks + p.rank) * w.banks * w.groups + p.bank * w.groups;
    assert (c * w.ranks + p.rank) * w.banks * w.groups == (c * w.ranks + p.rank) * bg;
    assert (c * w.ranks + p.rank) * bg == c * w.ranks * bg + p.rank * bg;
    assert c * w.ranks * bg == c * Period(w);
  }

  /** The first number from s on with residue e modulo t. */
  function FirstFrom(s: nat, t: int, e: int): int
    requires t > 0
  {
    if s % t <= e then s / t * t + e else (s / t + 1) * t + e
  }

  lemma {:induction false} FirstFromMeaning(s: nat, t: int, e: int)
    requires 0 <= e < t
    ensures s <= FirstFrom(s, t, e) < s + t && FirstFrom(s, t, e) % t == e
  {
    var q := s / t;
    assert s == q * t + s % t && (q + 1) * t == q * t + t;
    DivUnique(FirstFrom(s, t, e), t, if s % t <= e then q else q + 1);
  }

  /** The request that names p among the next Period requests from s on. */
  function RequestOf(w: Geometry, s: nat, p: Place): int
    requires Period(w) > 0
  {
    FirstFrom(s, Period(w), Slot(w, p))
  }

  /** Within any Period consecutive requests every target is requested exactly once. */
  lemma {:induction false} OncePerPeriod(w: Geometry, s: nat, p: Place)
    requires Turning(w) && w.Has(p)
    ensures Period(w) > 0
    ensures s <= RequestOf(w, s, p) < s + Period(w) && Target(w, RequestOf(w, s, p)) == p
    ensures forall n :: s <= n < s + Period(w) && Target(w, n) == p ==> n == RequestOf(w, s, p)
  {
    SlotBound(w, p);
    var m := RequestOf(w, s, p);
    FirstFromMeaning(s, Period(w), Slot(w, p));
    TargetSlot(w, m);
    SlotInjective(w, p, Target(w, m));
    forall n | s <= n < s + Period(w) && Target(w, n) == p
      ensures n == m
    {
      TargetSlot(w, n);
      SameResidue(n, m, Period(w));
    }
  }

  lemma {:induction false} SameResidue(n: int, m: int, t: int)
    requires t > 0 && n % t == m % t && -t < n - m < t
    ensures n == m
  {
    var a, b := n / t, m / t;
    assert n == a * t + n % t && m == b * t + m % t;
    assert (a - b) * t == n - m;
    if a > b {
      MulLe(1, a - b, t);
    } else if a < b {
      MulLe(a - b, -1, t);
    }
  }

  /** Adding one carries into the next digit exactly when the low digit is full. */
  lemma {:induction false} Carry(n: nat, d: int)
    requires d > 0
    ensures (n + 1) % d == (n % d + 1) % d
    ensures (n + 1) / d == if (n % d + 1) % d == 0 then n / d + 1 else n / d
  {
    var q, r := n / d, n % d;
    assert n == q * d + r;
    if r + 1 == d {
      assert (q + 1) * d == q * d + d;
      DivUnique(n + 1, d, q + 1);
      DivUnique(d, d, 1);
    } else {
      DivUnique(n + 1, d, q);
      DivUnique(r + 1, d, 0);
    }
  }

  /** The target after p: the group turns first, a full turn moves the bank, then the rank. */
  function NextTarget(w: Geometry, p: Place): Place
    requires Turning(w)
  {
    var g := (p.group + 1) % w.groups;
    var b := if g == 0 then (p.bank + 1) % w.banks else p.bank;
    Place(if g == 0 && b == 0 then (p.rank + 1) % w.ranks else p.rank, g, b)
  }

  /** Turning the wheel step by step visits the targets in the order of their numbers. */
  lemma {:induction false} TargetStep(w: Geometry, n: nat)
    requires Turning(w)
    ensures Target(w, n + 1) == NextTarget(w, Target(w, n))
  {
    var a := n / w.groups;
    Carry(n, w.groups);
    if (n + 1) % w.groups == 0 {
      Carry(a, w.banks);
      if (a + 1) % w.banks == 0 {
        Carry(a / w.banks, w.ranks);
      }
    }
  }

  function Int32(x: nat): int {
    var y := x % 0x1_0000_0000;
    if y < 0x8000_0000 then y else y - 0x1_0000_0000
  }

  /** A refresh instant, a positive multiple of the interval, lies in [t, t + span). */
  ghost predicate InstantWithin(interval: int, t: int, span: int) {
    exists m :: m >= 1 && t <= m * interval < t + span
  }

  /** The look-ahead of the scheduler; the clock is first cut to a 32-bit integer. */
  predicate Coming(interval: int, clk: nat, margin: int)
    requires interval > 0
  {
    interval - Max(0, Int32(clk) - 1) % interval < margin
  }

  /** The look-ahead is exact for the clock value it looks at. */
  lemma {:induction false} ComingExact(interval: int, clk: nat, margin: int)
    requires interval > 0 && margin >= 1
    ensures Coming(interval, clk, margin) <==> InstantWithin(interval, Max(1, Int32(clk)), margin - 1)
  {
    var t := Max(1, Int32(clk));
    var q, r := (t - 1) / interval, (t - 1) % interval;
    assert t - 1 == q * interval + r;
    var next := (q + 1) * interval;
    assert next == q * interval + interval;
    forall m | m >= 1 && t <= m * interval
      ensures next <= m * interval
    {
      if m <= q {
        MulLe(m, q, interval);
      } else {
        MulLe(q + 1, m, interval);
      }
    }
    MulLe(0, q, interval);
    if Coming(interval, clk, margin) {
      assert q + 1 >= 1 && t <= (q + 1) * interval < t + (margin - 1);
    }
  }

  /** At this clock the look-ahead is right for every interval and margin. */
  ghost predicate Predicts(clk: nat) {
    forall interval: int, margin: int :: interval > 0 && margin >= 1 ==>
      (Coming(interval, clk, margin) <==> InstantWithin(interval, clk, margin - 1))
  }

  /** It is right exactly from the first cycle on and as long as the clock fits in 31 bits: at clock 0
      it counts from cycle 1, and later it misses a refresh that is due at this very cycle. */
  lemma {:induction false} PredictsExactly(clk: nat)
    ensures Predicts(clk) <==> 1 <= clk < 0x8000_0000
  {
    if 1 <= clk < 0x8000_0000 {
      forall interval: int, margin: int | interval > 0 && margin >= 1
        ensures Coming(interval, clk, margin) <==> InstantWithin(interval, clk, margin - 1)
      {
        ComingExact(interval, clk, margin);
      }
    } else if clk == 0 {
      assert Coming(2, clk, 3);
      assert !InstantWithin(2, clk, 3 - 1);
    } else {
      assert clk <= 1 * clk < clk + 1;
      assert InstantWithin(clk, clk, 2 - 1);
      var x := Max(0, Int32(clk) - 1);
      DivUnique(x, clk, 0);
      assert !Coming(clk, clk, 2);
    }
  }

  datatype Request = Request(clk: nat, cmd: Command)

  function Asked(policy: Policy, p: Place): Command {
    if policy.RankStaggered? then RankRefresh(p.rank) else BankRefresh(p)
  }

  /** The command of a request acts on its target: the whole rank, or the one bank. */
  lemma {:induction false} AskedActs(policy: Policy, p: Place, q: Place)
    ensures Asked(policy, p).IsRefresh()
    ensures Asked(policy, p).Touches(q) <==> if policy.RankStaggered? then q.rank == p.rank else q == p
  {
  }

  /** So within any Period consecutive requests exactly one command refreshes the bank. */
  lemma {:induction false} RefreshedOnce(policy: Policy, geo: Geometry, s: nat, q: Place) returns (m: nat)
    requires Turning(geo) && geo.Has(q)
    ensures var w := Wheel(policy, geo);
      && Turning(w) && Period(w) > 0 && s <= m < s + Period(w)
      && forall n: nat :: s <= n < s + Period(w) ==> (Asked(policy, Target(w, n)).Touches(q) <==> n == m)
  {
    hide Asked, Target;
    var w := Wheel(policy, geo);
    var p := if policy.RankStaggered? then Place(q.rank, 0, 0) else q;
    OncePerPeriod(w, s, p);
    m := RequestOf(w, s, p);
    forall n: nat | s <= n < s + Period(w)
      ensures Asked(policy, Target(w, n)).Touches(q) <==> n == m
    {
      TargetSlot(w, n);
      AskedActs(policy, Target(w, n), q);
    }
  }

  /** How many refresh instants lie strictly before clk. */
  function Due(interval: int, clk: nat): nat
    requires interval > 0
  {
    if clk == 0 then 0 else (clk - 1) / interval
  }

  /** A new instant is counted exactly when the clock is a positive multiple of the interval. */
  lemma {:induction false} DueStep(interval: int, clk: nat)
    requires interval > 0
    ensures Due(interval, clk + 1) == Due(interval, clk) + if clk > 0 && clk % interval == 0 then 1 else 0
    ensures clk > 0 && clk % interval == 0 ==> clk == (Due(interval, clk) + 1) * interval
  {
    if clk > 0 {
      Carry(clk - 1, interval);
      assert clk == clk / interval * interval + clk % interval;
    }
  }

  class Refresh {
    const channel: ChannelState
    const policy: Policy
    const interval: int
    var clk: nat
    var nextRank: int
    var nextBg: int
    var nextBank: int
    ghost var requests: seq<Request>

    ghost function Rotating(): Geometry { Wheel(policy, channel.geo) }

    /** Request n fell at (n + 1) * interval and named the n-th target of the rotation. */
    ghost predicate Valid()
      reads this
    {
      && interval > 0 && Turning(channel.geo)
      && |requests| == Due(interval, clk)
      && Place(nextRank, nextBg, nextBank) == Target(Rotating(), |requests|)
      && forall n :: 0 <= n < |requests| ==>
           requests[n] == Request((n + 1) * interval, Asked(policy, Target(Rotating(), n)))
    }

    constructor (channel: ChannelState, policy: Policy, interval: int)
      requires interval > 0 && Turning(channel.geo)
      ensures Valid() && clk == 0 && requests == []
      ensures this.channel == channel && this.policy == policy && this.interval == interval
    {
      this.channel, this.policy, this.interval := channel, policy, interval;
      clk, nextRank, nextBg, nextBank, requests := 0, 0, 0, 0, [];
    }

    method IterateNext()
      requires Turning(channel.geo)
      requires policy.RankStaggered? ==> nextBg == nextBank == 0
      modifies this`nextRank, this`nextBg, this`nextBank
      ensures Place(nextRank, nextBg, nextBank) == NextTarget(Rotating(), old(Place(nextRank, nextBg, nextBank)))
    {
      if policy.RankStaggered? {
        nextRank := (nextRank + 1) % channel.geo.ranks;
      } else {
        nextBg := (nextBg + 1) % channel.geo.groups;
        if nextBg == 0 {
          nextBank := (nextBank + 1) % channel.geo.banks;
          if nextBank == 0 {
            nextRank := (nextRank + 1) % channel.geo.ranks;
          }
        }
      }
    }

    /** The next target joins the channel's refresh queue. */
    method InsertRefresh()
      requires channel.Valid() && Turning(channel.geo) && Rotating().Has(Place(nextRank, nextBg, nextBank))
      modifies this`nextRank, this`nextBg, this`nextBank, channel`refreshQ
      ensures channel.Valid()
      ensures channel.refreshQ == old(channel.refreshQ) + [Asked(policy, old(Place(nextRank, nextBg, nextBank)))]
      ensures Place(nextRank, nextBg, nextBank) == NextTarget(Rotating(), old(Place(nextRank, nextBg, nextBank)))
    {
      hide channel.Sound, channel.WindowValid, channel.Tracks, NextTarget;
      if policy.RankStaggered? {
        channel.RankNeedRefresh(nextRank, true);
      } else {
        channel.BankNeedRefresh(Place(nextRank, nextBg, nextBank), true);
      }
      IterateNext();
    }

    /** One cycle: a request is made exactly at the positive multiples of the interval. */
    method ClockTick()
      requires Valid() && channel.Valid()
      modifies this, channel`refreshQ
      ensures Valid() && channel.Valid() && clk == old(clk) + 1
      ensures channel.refreshQ == old(channel.refreshQ) +
                if old(clk) > 0 && old(clk) % interval == 0 then [Asked(policy, Target(Rotating(), old(|requests|)))]
                  else []
    {
      hide channel.Valid, NextTarget, Target;
      TargetSlot(Rotating(), |requests|);
      TargetStep(Rotating(), |requests|);
      DueStep(interval, clk);
      if clk % interval == 0 && clk > 0 {
        ghost var p := Place(nextRank, nextBg, nextBank);
        InsertRefresh();
        requests := requests + [Request(clk, Asked(policy, p))];
      }
      clk := clk + 1;
    }
  }
}
