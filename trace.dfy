/**
 * The maximum altitude and apogee bookkeeping of the batch simulator, as
 * functions of the recorded position history.
 */
module Trace {
  import opened Vectors

  /**
   * max_altitude after the samples `ps` have been recorded: it starts at 0
   * and is replaced by every sample that is strictly higher.
   */
  function Peak(ps: seq<Vec2>): real
  {
    if ps == [] then 0.0
    else
      var m := Peak(ps[..|ps| - 1]);
      if ps[|ps| - 1].y > m then ps[|ps| - 1].y else m
  }

  /** The index of the sample that last raised max_altitude (0 when none did). */
  function ApogeeIndex(ps: seq<Vec2>): (i: nat)
    ensures ps != [] ==> i < |ps|
  {
    if ps == [] then 0
    else if ps[|ps| - 1].y > Peak(ps[..|ps| - 1]) then |ps| - 1
    else ApogeeIndex(ps[..|ps| - 1])
  }

  /**
   * max_altitude is max(0, highest sample), and the apogee sample is the
   * first one that reaches it.
   */
  lemma {:induction false} PeakIsMaximum(ps: seq<Vec2>)
    ensures Peak(ps) >= 0.0
    ensures forall i :: 0 <= i < |ps| ==> ps[i].y <= Peak(ps)
    ensures Peak(ps) > 0.0 ==> ps[ApogeeIndex(ps)].y == Peak(ps)
    ensures forall i :: 0 <= i < ApogeeIndex(ps) && i < |ps| ==> ps[i].y < Peak(ps)
    ensures Peak(ps) == 0.0 ==> ApogeeIndex(ps) == 0
  {
    if ps != [] {
      var init := ps[..|ps| - 1];
      PeakIsMaximum(init);
      assert forall i :: 0 <= i < |init| ==> ps[i] == init[i];
    }
  }

  /** Recording one more sample: how max_altitude and the apogee index move. */
  lemma PeakAppend(ps: seq<Vec2>, p: Vec2)
    ensures Peak(ps + [p]) == if p.y > Peak(ps) then p.y else Peak(ps)
    ensures ApogeeIndex(ps + [p]) == if p.y > Peak(ps) then |ps| else ApogeeIndex(ps)
  {
    assert (ps + [p])[..|ps|] == ps;
  }
}
