/**
 Temporal-coherence tracking of the floor camera (src/gi/pipeline_assets.rs).
 The extraction system keeps the previous frame's view-projection, camera
 scale and camera translation, plus the rotating frame counter, in
 system-local state; this module makes that state an explicit record and
 decides the `temporal_reset` flag from it.
 */
module TemporalReset {
  import opened Common

  /** Squared camera translation above which accumulated history is discarded. */
  const MovementThreshold: real := 0.01
  /** Change of the projection's first diagonal element that counts as a zoom. */
  const ZoomThreshold: real := 0.001
  /** Largest element-wise view-projection change tolerated without a reset. */
  const ProjectionThreshold: real := 0.01

  /**
   The floor camera as the extraction reads it: its projection
   (`clip_from_view`) and global transform matrix, with their inverses as
   computed by the matrix library, the world translation, and whether the
   `f32` projection and view-projection are finite.
   */
  datatype CameraInput = CameraInput(
    projection: Mat4,
    inverseProjection: Mat4,
    transform: Mat4,
    inverseTransform: Mat4,
    translation: Vec3,
    projectionFinite: bool,
    viewProjFinite: bool)

  /** `projection * inverse(view)`. */
  function ViewProj(cam: CameraInput): Mat4
  {
    MatMul(cam.projection, cam.inverseTransform)
  }

  /** `view * inverse(projection)`. */
  function InverseViewProj(cam: CameraInput): Mat4
  {
    MatMul(cam.transform, cam.inverseProjection)
  }

  /** Orthographic zoom read from a projection: its first column's x. */
  function Scale(m: Mat4): real
  {
    m[0]
  }

  /**
   The system-local state carried from frame to frame: the frame counter
   (an `i32`), the previous view-projection with its finiteness, the previous
   scale and the previous camera translation.
   */
  datatype CameraHistory = CameraHistory(
    frameCounter: int,
    prevViewProj: Mat4,
    prevViewProjFinite: bool,
    prevScale: real,
    prevTranslation: Vec3)

  /**
   The state before the first frame: every local takes its type's default,
   and the default 4x4 matrix is the identity, which is finite.
   */
  const DefaultHistory: CameraHistory := CameraHistory(0, Identity, true, 0.0, ZeroVec3)

  /** True when the counter may index the probe ring. */
  predicate CounterInRange(h: CameraHistory)
  {
    0 <= h.frameCounter < FrameCycle
  }

  /**
   The first-frame initialisation: when the previous view-projection is not
   finite and the previous scale is exactly 0, a present camera seeds the
   history with its bare projection, translation and scale.
   */
  function Seed(h: CameraHistory, cam: Option<CameraInput>): (r: CameraHistory)
    ensures r.frameCounter == h.frameCounter
    ensures h.prevViewProjFinite || h.prevScale != 0.0 || cam.None? ==> r == h
    ensures !h.prevViewProjFinite && h.prevScale == 0.0 && cam.Some? ==>
              && r.prevViewProj == cam.value.projection
              && r.prevViewProjFinite == cam.value.projectionFinite
              && r.prevTranslation == cam.value.translation
              && r.prevScale == Scale(cam.value.projection)
  {
    if !h.prevViewProjFinite && h.prevScale == 0.0 && cam.Some? then
      h.(prevViewProj := cam.value.projection,
         prevViewProjFinite := cam.value.projectionFinite,
         prevTranslation := cam.value.translation,
         prevScale := Scale(cam.value.projection))
    else h
  }

  function Movement(h: CameraHistory, cam: CameraInput): real
  {
    LengthSquared(SubVec3(cam.translation, h.prevTranslation))
  }

  function ScaleDiff(h: CameraHistory, cam: CameraInput): real
  {
    Abs(Scale(cam.projection) - h.prevScale)
  }

  /**
   The reset condition as a plain disjunction: the camera moved, zoomed, or
   some element of its view-projection changed by more than the threshold.
   */
  predicate CameraChanged(h: CameraHistory, cam: CameraInput)
  {
    || Movement(h, cam) > MovementThreshold
    || ScaleDiff(h, cam) > ZoomThreshold
    || exists i :: 0 <= i < 16 && Abs(ViewProj(cam)[i] - h.prevViewProj[i]) > ProjectionThreshold
  }

  /**
   The `temporal_reset` value (an `f32` that is 0 or 1) computed from the
   history after seeding: a chain of threshold tests that is skipped
   altogether when the previous view-projection is not finite.
   */
  function ResetFlag(h: CameraHistory, cam: CameraInput): (r: real)
    ensures r == 0.0 || r == 1.0
    ensures r == 1.0 <==> h.prevViewProjFinite && CameraChanged(h, cam)
  {
    if h.prevViewProjFinite then
      var maxDiff := MaxAbsDiff(ViewProj(cam), h.prevViewProj);
      MaxAbsDiffExceeds(ViewProj(cam), h.prevViewProj, ProjectionThreshold);
      if Movement(h, cam) > MovementThreshold then 1.0
      else if ScaleDiff(h, cam) > ZoomThreshold then 1.0
      else if maxDiff > ProjectionThreshold then 1.0
      else 0.0
    else 0.0
  }

  /** A camera that stays within all three thresholds never resets. */
  lemma SmallMotionKeepsHistory(h: CameraHistory, cam: CameraInput)
    requires Movement(h, cam) <= MovementThreshold
    requires ScaleDiff(h, cam) <= ZoomThreshold
    requires forall i :: 0 <= i < 16 ==> Abs(ViewProj(cam)[i] - h.prevViewProj[i]) <= ProjectionThreshold
    ensures ResetFlag(h, cam) == 0.0
  {
  }

  /** A translation whose squared length exceeds the threshold resets a finite history. */
  lemma MovementResets(h: CameraHistory, cam: CameraInput)
    requires h.prevViewProjFinite
    requires Movement(h, cam) > MovementThreshold
    ensures ResetFlag(h, cam) == 1.0
  {
  }
}
