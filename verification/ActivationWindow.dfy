/** The sliding window that limits how many activations a rank may see in a given time. */
module ActivationWindow {
  import opened Commands
  import opened TimingSpec

  /** Times of the activations, ordinary or PIM, that the rank has seen. */
  function ActTimes(h: seq<Issued>, rank: int): seq<nat>
    decreases |h|
  {
    if h == [] then []
    else
      var n := |h| - 1;
      ActTimes(h[..n], rank)
      + if IsActivation(h[n].cmd.kind) && h[n].cmd.addr.rank == rank then [h[n].clk] else []
  }

  /** The n-th activation comes at least span after the (n - depth)-th. */
  ghost predicate Spaced(acts: seq<nat>, depth: nat, span: nat) {
    forall n :: depth <= n < |acts| ==> acts[n] >= acts[n - depth] + span
  }

  ghost predicate Sorted(acts: seq<nat>) {
    forall i, j :: 0 <= i <= j < |acts| ==> acts[i] <= acts[j]
  }

  /** The window list holds the expiry times of the most recent activations; every activation it no
      longer holds had expired by the time of the latest one. */
  ghost predicate Summarises(aw: seq<nat>, acts: seq<nat>, depth: nat, span: nat) {
    && |aw| <= depth
    && |aw| <= |acts|
    && (forall i :: 0 <= i < |aw| ==> aw[i] == acts[|acts| - |aw| + i] + span)
    && (forall i :: 0 <= i < |acts| - |aw| ==> acts[i] + span <= acts[|acts| - 1])
  }

  predicate WindowReady(aw: seq<nat>, depth: nat, clk: nat) {
    !(|aw| > 0 && clk < aw[0] && |aw| >= depth)
  }

  /** At most one expired entry is dropped, then the new expiry is appended. */
  function Push(aw: seq<nat>, span: nat, clk: nat): seq<nat> {
    (if |aw| > 0 && clk >= aw[0] then aw[1..] else aw) + [clk + span]
  }

  lemma {:induction false} PushSpaces(aw: seq<nat>, acts: seq<nat>, depth: nat, span: nat, clk: nat)
    requires depth >= 1 && Summarises(aw, acts, depth, span) && Spaced(acts, depth, span)
    requires forall i :: 0 <= i < |acts| ==> acts[i] <= clk
    requires WindowReady(aw, depth, clk)
    ensures Spaced(acts + [clk], depth, span)
  {
    var n := |acts|;
    assert forall i :: 0 <= i < n ==> (acts + [clk])[i] == acts[i];
    if n >= depth && n - depth < n - |aw| {
      assert acts[n - depth] + span <= acts[n - 1];
    }
  }

  lemma {:induction false} PushSummarises(aw: seq<nat>, acts: seq<nat>, depth: nat, span: nat, clk: nat)
    requires depth >= 1 && Summarises(aw, acts, depth, span)
    requires forall i :: 0 <= i < |acts| ==> acts[i] <= clk
    requires WindowReady(aw, depth, clk)
    ensures Summarises(Push(aw, span, clk), acts + [clk], depth, span)
  {
    var acts', n := acts + [clk], |acts|;
    assert forall i :: 0 <= i < n ==> acts'[i] == acts[i];
    if |aw| > 0 && clk >= aw[0] {
      assert forall i :: 0 <= i < |aw| - 1 ==> Push(aw, span, clk)[i] == aw[i + 1];
    } else {
      assert forall i :: 0 <= i < |aw| ==> Push(aw, span, clk)[i] == aw[i];
    }
  }

  /** Dropping one expired entry per activation is enough: the list never outgrows its depth and every
      activation stays at its distance. */
  lemma {:induction false} PushKeepsWindow(aw: seq<nat>, acts: seq<nat>, depth: nat, span: nat, clk: nat)
    requires depth >= 1
    requires Summarises(aw, acts, depth, span) && Spaced(acts, depth, span) && Sorted(acts)
    requires forall i :: 0 <= i < |acts| ==> acts[i] <= clk
    requires WindowReady(aw, depth, clk)
    ensures Summarises(Push(aw, span, clk), acts + [clk], depth, span)
    ensures Spaced(acts + [clk], depth, span) && Sorted(acts + [clk])
  {
    PushSpaces(aw, acts, depth, span, clk);
    PushSummarises(aw, acts, depth, span, clk);
  }

  lemma {:induction false} ActTimesExtend(h: seq<Issued>, x: Issued, rank: int)
    ensures ActTimes(h + [x], rank) == ActTimes(h, rank)
      + if IsActivation(x.cmd.kind) && x.cmd.addr.rank == rank then [x.clk] else []
  {
    assert (h + [x])[..|h|] == h;
  }

  lemma {:induction false} ActTimesBound(h: seq<Issued>, rank: int, clk: nat)
    requires forall i :: 0 <= i < |h| ==> h[i].clk <= clk
    ensures forall i :: 0 <= i < |ActTimes(h, rank)| ==> ActTimes(h, rank)[i] <= clk
    decreases |h|
  {
    if h != [] {
      ActTimesBound(h[..|h| - 1], rank, clk);
    }
  }
}
