/** The per-bank or per-rank command queues of a channel and the choice of the next command. */
module CommandQueues {
  import opened Arithmetic
  import opened Commands
  import opened Sequences
  import opened TimingSpec
  import opened BankSpec
  import opened Banks
  import opened Channels
  import opened ChannelSpec
  import opened QueueSpec

  /** No two entries of a queue are the same access to the same address. */
  ghost predicate NoRepeat(q: seq<Command>) {
    forall i, j :: 0 <= i < j < |q| ==> !(q[i].kind == q[j].kind && q[i].hexAddr == q[j].hexAddr)
  }

  predicate Asks(c: Command, cmd: Command) { c.hexAddr == cmd.hexAddr && c.kind == cmd.kind }

  class CommandQueue {
    const channel: ChannelState
    const perBank: bool
    const queueSize: nat
    var queues: seq<seq<Command>>
    var refQIndices: set<int>
    var isInRef: bool
    var queueIdx: int
    var clk: nat

    function BanksPerRank(): nat { channel.geo.groups * channel.geo.banks }

    function NumQueues(): nat {
      if perBank then BanksPerRank() * channel.geo.ranks else channel.geo.ranks
    }

    function QueueIndex(p: Place): int {
      if perBank then p.rank * BanksPerRank() + p.group * channel.geo.banks + p.bank else p.rank
    }

    lemma {:induction false} QueueIndexRange(p: Place)
      requires channel.geo.Has(p)
      ensures 0 <= QueueIndex(p) < NumQueues()
      ensures perBank ==> QueueIndex(p) / BanksPerRank() == p.rank
    {
      if perBank {
        var g, b, r := channel.geo.groups, channel.geo.banks, channel.geo.ranks;
        var lo := p.group * b + p.bank;
        DigitsBound(p.group, p.bank, g, b);
        MixedRadix(p.rank, lo, BanksPerRank());
        DigitsBound(p.rank, lo, r, BanksPerRank());
      }
    }

    /** With a queue per bank, different banks have different queues. */
    lemma {:induction false} QueueIndexInjective(p: Place, q: Place)
      requires perBank && channel.geo.Has(p) && channel.geo.Has(q)
      ensures QueueIndex(p) == QueueIndex(q) <==> p == q
    {
      if QueueIndex(p) == QueueIndex(q) {
        var g, b := channel.geo.groups, channel.geo.banks;
        DigitsBound(p.group, p.bank, g, b);
        DigitsBound(q.group, q.bank, g, b);
        SameDigits(p.rank, p.group * b + p.bank, q.rank, q.group * b + q.bank, BanksPerRank());
        SameDigits(p.group, p.bank, q.group, q.bank, b);
      }
    }

    ghost predicate Placed(c: Command, i: int) {
      c.IsReadWrite() && channel.geo.Has(c.Where()) && QueueIndex(c.Where()) == i
    }

    /** The queues a refresh request holds back. */
    function RefIndices(ref: Command): set<int> {
      if ref.kind.Refresh? then
        if perBank then set i | 0 <= i < NumQueues() && BanksPerRank() != 0 && i / BanksPerRank() == ref.addr.rank
        else {ref.addr.rank}
      else {QueueIndex(ref.Where())}
    }

    /** Every command for a bank that the refresh targets sits in a held-back queue. */
    lemma {:induction false} TargetsHeldBack(ref: Command, p: Place)
      requires ref.IsRefresh() && channel.geo.Has(p) && ref.Touches(p)
      ensures QueueIndex(p) in RefIndices(ref)
    {
      QueueIndexRange(p);
    }

    ghost predicate Valid()
      reads this
    {
      && |queues| == NumQueues() && 0 <= queueIdx < NumQueues()
      && (forall i, k :: 0 <= i < |queues| && 0 <= k < |queues[i]| ==> Placed(queues[i][k], i))
      && (forall i :: 0 <= i < |queues| ==> InChannel(queues[i]) && NoRepeat(queues[i]))
      && (!isInRef ==> refQIndices == {})
    }

    constructor (channel: ChannelState, perBank: bool, queueSize: nat)
      requires channel.geo.ranks > 0 && channel.geo.groups > 0 && channel.geo.banks > 0
      ensures Valid() && !isInRef && clk == 0
      ensures this.channel == channel && this.perBank == perBank && this.queueSize == queueSize
      ensures |queues| == NumQueues() && forall i :: 0 <= i < |queues| ==> queues[i] == []
    {
      this.channel, this.perBank, this.queueSize := channel, perBank, queueSize;
      var n := if perBank then channel.geo.groups * channel.geo.banks * channel.geo.ranks else channel.geo.ranks;
      assert n > 0;
      queues := seq(n, _ => []);
      refQIndices, isInRef, queueIdx, clk := {}, false, 0, 0;
    }

    predicate WillAcceptCommand(p: Place)
      requires 0 <= QueueIndex(p) < |queues|
      reads this
    {
      |queues[QueueIndex(p)]| < queueSize
    }

    method QueueEmpty() returns (empty: bool)
      ensures empty <==> forall i :: 0 <= i < |queues| ==> queues[i] == []
    {
      for i := 0 to |queues|
        invariant forall j :: 0 <= j < i ==> queues[j] == []
      {
        if queues[i] != [] {
          return false;
        }
      }
      empty := true;
    }

    method AddCommand(cmd: Command) returns (added: bool)
      requires Valid() && cmd.IsReadWrite() && channel.geo.Has(cmd.Where())
      requires 0 <= QueueIndex(cmd.Where()) < |queues|
      requires forall c :: c in queues[QueueIndex(cmd.Where())] ==> !(c.kind == cmd.kind && c.hexAddr == cmd.hexAddr)
      modifies this`queues
      ensures Valid() && added == old(WillAcceptCommand(cmd.Where()))
      ensures var i := QueueIndex(cmd.Where());
        queues == if added then old(queues)[i := old(queues)[i] + [cmd]] else old(queues)
    {
      var i := QueueIndex(cmd.Where());
      added := |queues[i]| < queueSize;
      if added {
        queues := queues[i := queues[i] + [cmd]];
      }
    }

    ghost predicate MayPrecharge(q: seq<Command>, i: int)
      requires channel.Shaped() && 0 <= i < |q| && channel.geo.Has(q[i].Where())
      reads channel.At(q[i].Where())
    {
      MayClose(channel.At(q[i].Where()).View(), q, i)
    }

    method ArbitratePrecharge(q: seq<Command>, i: int) returns (ok: bool)
      requires channel.Shaped() && 0 <= i < |q| && channel.geo.Has(q[i].Where())
      ensures ok <==> MayPrecharge(q, i)
    {
      var bank := channel.At(q[i].Where());
      for j := 0 to i
        invariant forall k :: 0 <= k < j ==> q[k].Where() != q[i].Where()
      {
        if q[j].Where() == q[i].Where() {
          return false;
        }
      }
      var pendingHits := false;
      var j := i;
      while j < |q|
        invariant i <= j <= |q| && !pendingHits
        invariant forall k :: i <= k < j ==> !(q[k].addr.row == bank.openRow && q[k].Where() == q[i].Where())
      {
        if q[j].addr.row == bank.openRow && q[j].Where() == q[i].Where() {
          pendingHits := true;
          break;
        }
        j := j + 1;
      }
      ok := !pendingHits || bank.rowHitCount >= 4;
    }

    method HasRWDependency(q: seq<Command>, i: int) returns (found: bool)
      requires 0 <= i < |q|
      ensures found <==> ReadBefore(q, i)
    {
      for j := 0 to i
        invariant forall k :: 0 <= k < j ==> !(q[k].IsRead() && SameCell(q[k], q[i]))
      {
        if q[j].IsRead() && SameCell(q[j], q[i]) {
          return true;
        }
      }
      found := false;
    }

    /** Entry i of the queue could be served now. */
    ghost predicate CanServe(q: seq<Command>, i: int)
      requires 0 <= i < |q|
      reads this`clk, channel`history, channel`refreshQ, channel`fourAw, channel`thirtyTwoAw
    {
      Eligible(channel.Settings(), channel.View(), clk, q, i)
    }

    /** What the queue answers with. */
    ghost function FirstOf(q: seq<Command>): Option<Command>
      reads this`clk, channel`history, channel`refreshQ, channel`fourAw, channel`thirtyTwoAw
    {
      FirstReady(channel.Settings(), channel.View(), clk, q, 0)
    }

    /** Commands of a queue all name banks of the channel. */
    ghost predicate InChannel(q: seq<Command>) {
      forall k :: 0 <= k < |q| ==> q[k].IsReadWrite() && channel.geo.Has(q[k].Where())
    }

    /** The command answers entry pos of the queue, the first eligible one there. */
    ghost predicate Answers(cmd: Command, q: seq<Command>, pos: int)
      requires channel.Valid() && InChannel(q)
      reads this`clk, channel, channel.banks
    {
      && 0 <= pos < |q| && CanServe(q, pos)
      && (forall k :: 0 <= k < pos ==> !CanServe(q, k))
      && Ready(cmd) == Answered(channel.Settings(), channel.View(), q[pos], clk)
      && channel.Issuable(cmd, clk)
      && cmd.addr == q[pos].addr && cmd.hexAddr == q[pos].hexAddr
      && (cmd == q[pos] || cmd.kind.Precharge? || cmd.kind.Activate?)
    }

    /** The bank's own registers and its history say the same about a precharge. */
    lemma {:induction false} ClosesAlike(q: seq<Command>, i: int)
      requires channel.Valid() && 0 <= i < |q| && channel.geo.Has(q[i].Where())
      ensures MayPrecharge(q, i) <==> MayClose(BankAt(channel.View(), q[i].Where()), q, i)
    {
      hide channel.Sound, channel.WindowValid, MayClose;
      assert channel.Tracks(q[i].Where());
    }

    /** First ready, first served: the earliest eligible entry answers. */
    method GetFirstReadyInQueue(q: seq<Command>) returns (r: Option<Command>, pos: int)
      requires channel.Valid() && InChannel(q)
      ensures r.Some? ==> Answers(r.value, q, pos)
      ensures r == FirstOf(q)
    {
      hide channel.Sound, channel.WindowValid, channel.Tracks, channel.Issuable, Answered, MayPrecharge, MayClose,
        ReadBefore, FirstReady, BankAt;
      pos := 0;
      while pos < |q|
        invariant 0 <= pos <= |q|
        invariant forall k :: 0 <= k < pos ==> !Eligible(channel.Settings(), channel.View(), clk, q, k)
      {
        var a := channel.GetReadyCommand(q[pos], clk);
        ClosesAlike(q, pos);
        if a.Ready? {
          var skip := false;
          if a.cmd.kind.Precharge? {
            var ok := ArbitratePrecharge(q, pos);
            skip := !ok;
          } else if a.cmd.IsWrite() {
            skip := HasRWDependency(q, pos);
          }
          if !skip {
            FirstReadyMeaning(channel.Settings(), channel.View(), clk, q, 0, pos);
            return Some(a.cmd), pos;
          }
        }
        pos := pos + 1;
      }
      FirstReadyMeaning(channel.Settings(), channel.View(), clk, q, 0, |q|);
      r := None;
    }

    /** Removes the entry at k, the one that asked for exactly this access; it is always found. */
    method EraseRWCommand(cmd: Command, ghost k: int) returns (found: bool)
      requires Valid() && channel.geo.Has(cmd.Where()) && 0 <= QueueIndex(cmd.Where()) < |queues|
      requires 0 <= k < |queues[QueueIndex(cmd.Where())]| && Asks(queues[QueueIndex(cmd.Where())][k], cmd)
      modifies this`queues
      ensures Valid() && found
      ensures queues == old(queues)[QueueIndex(cmd.Where()) := RemoveAt(old(queues[QueueIndex(cmd.Where())]), k)]
    {
      var at := QueueIndex(cmd.Where());
      var q := queues[at];
      for j := 0 to |q|
        invariant queues == old(queues)
        invariant forall i :: 0 <= i < j ==> !Asks(q[i], cmd)
      {
        if Asks(q[j], cmd) {
          assert j == k;
          queues := queues[at := RemoveAt(q, j)];
          return true;
        }
      }
      found := false;
    }

    ghost predicate HeldBack(i: int)
      reads this
    {
      isInRef && i in refQIndices
    }

    /** The queues that wait for a refresh. */
    ghost function Held(): set<int>
      reads this`isInRef, this`refQIndices
    {
      if isInRef then refQIndices else {}
    }

    /** What the round robin comes to. */
    ghost function NextOf(): Option<Command>
      reads this, channel`history, channel`refreshQ, channel`fourAw, channel`thirtyTwoAw
    {
      RoundRobin(channel.Settings(), channel.View(), clk, queues, Held(), queueIdx, 1)
    }

    ghost predicate PassedOver(i: int)
      reads this, channel`history, channel`refreshQ, channel`fourAw, channel`thirtyTwoAw
    {
      Passed(channel.Settings(), channel.View(), clk, queues, Held(), i)
    }

    /** Serves one queue; a read or write leaves it. */
    method ServeQueue(i: int) returns (r: Option<Command>, ghost pos: int)
      requires Valid() && channel.Valid() && 0 <= i < |queues|
      modifies this`queues
      ensures Valid()
      ensures r == old(FirstOf(queues[i])) && (r.None? ==> queues == old(queues))
      ensures r.Some? ==> old(Answers(r.value, queues[i], pos))
      ensures r.Some? ==>
        queues == if r.value.IsReadWrite() then old(queues)[i := RemoveAt(old(queues)[i], pos)] else old(queues)
    {
      hide channel.Sound, channel.WindowValid, channel.Tracks;
      var at;
      r, at := GetFirstReadyInQueue(queues[i]);
      pos := at;
      if r.Some? && r.value.IsReadWrite() {
        assert Placed(queues[i][at], i);
        var found := EraseRWCommand(r.value, at);
      }
    }

    /** Round robin over the queues that are not held back; the answer is the first eligible entry of
        the first queue that has one, and a read or write leaves its queue. */
    method GetCommandToIssue() returns (r: Option<Command>, ghost steps: int, ghost pos: int)
      requires Valid() && channel.Valid()
      modifies this`queues, this`queueIdx
      ensures Valid()
      ensures r.None? ==> queues == old(queues) && queueIdx == old(queueIdx)
      ensures r.Some? ==> 1 <= steps <= NumQueues() && queueIdx == Wrap(old(queueIdx), steps, NumQueues())
      ensures r.Some? ==> forall s :: 1 <= s < steps ==> old(PassedOver(Wrap(queueIdx, s, NumQueues())))
      ensures r.Some? ==> !HeldBack(queueIdx) && old(Answers(r.value, queues[Wrap(queueIdx, steps, NumQueues())], pos))
      ensures r.Some? ==>
        queues == if r.value.IsReadWrite() then old(queues)[queueIdx := RemoveAt(old(queues)[queueIdx], pos)]
                                    else old(queues)
      ensures r == old(NextOf())
    {
      hide channel.Valid, Answers, FirstReady, RoundRobin, Placed, InChannel, NoRepeat, NumQueues, Wrap;
      var n := NumQueues();
      var i := 0;
      WrapStart(queueIdx, n);
      while i < n
        invariant 0 <= i <= n && Valid()
        invariant queues == old(queues) && queueIdx == Wrap(old(queueIdx), i, n)
        invariant forall s :: 1 <= s <= i ==> old(PassedOver(Wrap(queueIdx, s, n)))
      {
        WrapNext(old(queueIdx), i, n);
        queueIdx := queueIdx + 1;
        if queueIdx == n {
          queueIdx := 0;
        }
        i := i + 1;
        steps := i;
        if isInRef && queueIdx in refQIndices {
          continue;
        }
        r, pos := ServeQueue(queueIdx);
        if r.Some? {
          RoundRobinMeaning(channel.Settings(), channel.View(), clk, old(queues), Held(), old(queueIdx), 1, i);
          return;
        }
      }
      RoundRobinMeaning(channel.Settings(), channel.View(), clk, queues, Held(), old(queueIdx), 1, n + 1);
      r, steps, pos := None, n + 1, 0;
    }

    /** The queues to hold back while the refresh at the front waits. */
    method GetRefQIndices(ref: Command)
      requires ref.IsRefresh() && refQIndices == {}
      modifies this`refQIndices
      ensures refQIndices == RefIndices(ref)
    {
      if ref.kind.Refresh? {
        if perBank {
          var n := NumQueues();
          for i := 0 to n
            invariant refQIndices == set j | 0 <= j < i && BanksPerRank() != 0 && j / BanksPerRank() == ref.addr.rank
          {
            assert BanksPerRank() != 0;
            if i / BanksPerRank() == ref.addr.rank {
              refQIndices := refQIndices + {i};
            }
          }
        } else {
          refQIndices := refQIndices + {ref.addr.rank};
        }
      } else {
        refQIndices := refQIndices + {QueueIndex(ref.Where())};
      }
    }

    /** Works on the refresh at the front: precharge what is open, then the refresh itself. */
    method FinishRefresh() returns (r: Option<Command>)
      requires Valid() && channel.Valid() && channel.refreshQ != []
      requires isInRef ==> refQIndices == RefIndices(channel.refreshQ[0])
      modifies this`refQIndices, this`isInRef
      ensures Valid()
      ensures r.Some? ==> channel.Issuable(r.value, clk) && (r.value == channel.refreshQ[0] || r.value.kind.Precharge?)
      ensures isInRef <==> !(r.Some? && r.value.IsRefresh())
      ensures isInRef ==> refQIndices == RefIndices(channel.refreshQ[0])
      ensures r == Usable(AnswerTo(channel.Settings(), channel.View(), channel.refreshQ[0], clk))
    {
      hide channel.Sound, channel.WindowValid, channel.Tracks, channel.Issuable, channel.Wired, Placed, InChannel,
        NoRepeat, RefIndices;
      var ref := channel.refreshQ[0];
      if !isInRef {
        GetRefQIndices(ref);
        isInRef := true;
      }
      var a := channel.GetReadyCommand(ref, clk);
      r := Usable(a);
      if r.Some? && r.value.IsRefresh() {
        refQIndices, isInRef := {}, false;
      }
    }
  }
}
