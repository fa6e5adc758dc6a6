/** What the scheduler has sent, cycle by cycle, and which banks that leaves open. */
module PimMarks {
  import opened PimPlans

  /** The three lanes, and one cycle: whether a refresh was awaited, and the group sent on each lane. */
  datatype Lane = Weights | Inputs | Outputs

  datatype Beat = Beat(waited: bool, weights: Group, inputs: Group, outputs: Group)
  {
    function On(lane: Lane): Group { match lane case Weights => weights case Inputs => inputs case Outputs => outputs }
  }

  /** Since the last closing access of the lane and the last cycle that awaited a refresh, an activation has
      been sent. */
  predicate Opened(beats: seq<Beat>, lane: Lane) {
    exists c :: 0 <= c < |beats| && beats[c].On(lane).Activations? && OpenSince(beats, lane, c)
  }

  predicate OpenSince(beats: seq<Beat>, lane: Lane, c: int)
    requires 0 <= c < |beats|
  {
    forall e :: c < e < |beats| ==> !beats[e].waited && !beats[e].On(lane).ClosingAccesses?
  }

  /** One more cycle. */
  lemma {:induction false} OpenedNext(beats: seq<Beat>, b: Beat, lane: Lane)
    ensures Opened(beats + [b], lane) <==>
      b.On(lane).Activations? || (!b.waited && !b.On(lane).ClosingAccesses? && Opened(beats, lane))
  {
    var more, n := beats + [b], |beats|;
    assert more[n] == b && forall c :: 0 <= c < n ==> more[c] == beats[c];
    if b.On(lane).Activations? {
      assert OpenSince(more, lane, n);
    }
    if !b.waited && !b.On(lane).ClosingAccesses? && Opened(beats, lane) {
      var c :| 0 <= c < n && beats[c].On(lane).Activations? && OpenSince(beats, lane, c);
      assert OpenSince(more, lane, c);
    }
    if Opened(more, lane) && !b.On(lane).Activations? {
      var c :| 0 <= c < |more| && more[c].On(lane).Activations? && OpenSince(more, lane, c);
      assert OpenSince(beats, lane, c);
    }
  }

  /** In every cycle of every run: no activation while a refresh is awaited, and none for a lane that is
      open already. */
  ghost predicate Proper(beats: seq<Beat>) {
    forall c: int, lane: Lane :: 0 <= c < |beats| && beats[c].On(lane).Activations? ==>
      !beats[c].waited && !Opened(beats[..c], lane)
  }

  lemma {:induction false} ProperNext(beats: seq<Beat>, b: Beat)
    requires Proper(beats)
    requires forall lane: Lane :: b.On(lane).Activations? ==> !b.waited && !Opened(beats, lane)
    ensures Proper(beats + [b])
  {
    var more := beats + [b];
    forall c: int, lane: Lane | 0 <= c < |more| && more[c].On(lane).Activations?
      ensures !more[c].waited && !Opened(more[..c], lane)
    {
      assert more[..c] == if c < |beats| then beats[..c] else beats;
    }
  }
}
