/**
 A detector of relative changes in a 2D camera's zoom (`ProjectionTracker`):
 it remembers the last view-projection it was given and compares the
 uniform scale read off a new one against it. The source file is not
 declared as a module of its crate, so nothing calls it; it is modelled on
 its own.
 */
module ProjectionTracker {
  import opened Common

  datatype Tracker = Tracker(previousViewProj: Option<Mat4>, scaleChangeThreshold: real, invalidationFrames: nat)

  /** `new`: nothing remembered, a 10% threshold, three invalidation frames. */
  function New(): (t: Tracker)
    ensures t.previousViewProj.None?
    ensures t.scaleChangeThreshold == 0.1 && t.invalidationFrames == 3
  {
    Tracker(None, 0.1, 3)
  }

  /** The uniform 2D scale of a matrix: the mean magnitude of its first two diagonal elements. */
  function UniformScale(m: Mat4): (s: real)
    ensures s >= 0.0
    ensures s == 0.0 <==> m[0] == 0.0 && m[5] == 0.0
  {
    (Abs(m[0]) + Abs(m[5])) / 2.0
  }

  datatype Detection = Detection(tracker: Tracker, significant: bool, change: real)

  /**
   `detect_projection_change`: with a remembered matrix of positive scale,
   the change is the scale difference relative to the remembered scale and
   is significant exactly when it exceeds the threshold; otherwise nothing
   is reported. The tracker itself is left as it was.
   */
  function DetectProjectionChange(tr: Tracker, current: Mat4): (r: Detection)
    ensures r.tracker == tr
    ensures r.change >= 0.0
    ensures r.significant ==> r.change > tr.scaleChangeThreshold
    ensures tr.previousViewProj.None? ==> !r.significant && r.change == 0.0
    ensures tr.previousViewProj.Some? && UniformScale(tr.previousViewProj.value) <= 0.0 ==>
              !r.significant && r.change == 0.0
    ensures tr.previousViewProj.Some? && UniformScale(tr.previousViewProj.value) > 0.0 ==>
              && r.change * UniformScale(tr.previousViewProj.value)
                   == Abs(UniformScale(current) - UniformScale(tr.previousViewProj.value))
              && (r.significant <==> r.change > tr.scaleChangeThreshold)
  {
    match tr.previousViewProj
    case None => Detection(tr, false, 0.0)
    case Some(previous) =>
      var previousScale := UniformScale(previous);
      var currentScale := UniformScale(current);
      if previousScale > 0.0 then
        var change := Abs(currentScale - previousScale) / previousScale;
        Detection(tr, change > tr.scaleChangeThreshold, change)
      else
        Detection(tr, false, 0.0)
  }

  /** `update_projection`: remember the matrix, keep the settings. */
  function UpdateProjection(tr: Tracker, viewProj: Mat4): (r: Tracker)
    ensures r.previousViewProj == Some(viewProj)
    ensures r.scaleChangeThreshold == tr.scaleChangeThreshold && r.invalidationFrames == tr.invalidationFrames
  {
    tr.(previousViewProj := Some(viewProj))
  }

  /** A matrix compared against itself, just remembered, shows no change under a non-negative threshold. */
  lemma UpdateThenDetectIsQuiet(tr: Tracker, m: Mat4)
    requires tr.scaleChangeThreshold >= 0.0
    ensures var d := DetectProjectionChange(UpdateProjection(tr, m), m);
            !d.significant && d.change == 0.0
  {
    var d := DetectProjectionChange(UpdateProjection(tr, m), m);
    if UniformScale(m) > 0.0 {
      assert d.change * UniformScale(m) == 0.0;
    }
  }

  /** Doubling the scale is a relative change of exactly 1, significant under the default threshold. */
  lemma DoublingIsSignificant(m: Mat4, current: Mat4)
    requires UniformScale(m) > 0.0
    requires UniformScale(current) == 2.0 * UniformScale(m)
    ensures var d := DetectProjectionChange(UpdateProjection(New(), m), current);
            d.change == 1.0 && d.significant
  {
    var s := UniformScale(m);
    var d := DetectProjectionChange(UpdateProjection(New(), m), current);
    assert Abs(UniformScale(current) - s) == s;
    assert (d.change - 1.0) * s == 0.0;
    ProductZero(d.change - 1.0, s);
  }

  lemma ProductZero(a: real, b: real)
    requires b > 0.0 && a * b == 0.0
    ensures a == 0.0
  {
  }
}
