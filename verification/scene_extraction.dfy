/**
 The per-frame extraction system (`system_extract_pipeline_assets`): it
 copies the target sizes, rebuilds the light, occluder and skylight-mask
 buffers from the visible scene, derives the camera uniform and the
 temporal-reset flag, records the camera pose in the probe ring, publishes
 the light-pass parameters and advances the rotating frame counter.

 The random jitter is an input: one draw triple per light row, each in
 [-1, 1); rows that are not visible ignore theirs.
 */
module SceneExtraction {
  import opened Common
  import opened Selection
  import opened TemporalReset

  // ---------------------------------------------------------------- scene rows

  /** Light falloff coefficients and colour are carried through unchanged. */
  datatype OmniLight = OmniLight(
    color: Vec3,
    intensity: real,
    falloff: Vec3,
    jitterIntensity: real,
    jitterTranslation: real)

  /** One row of the light query: transform translation, light, and the two visibility flags. */
  datatype LightRow = LightRow(
    translation: Vec3,
    light: OmniLight,
    inheritedVisible: bool,
    viewVisible: bool)

  /** One row of the occluder query: half size, global translation, local rotation, visibility. */
  datatype OccluderRow = OccluderRow(
    halfSize: Vec2,
    globalTranslation: Vec3,
    rotation: Quat,
    inheritedVisible: bool,
    viewVisible: bool)

  datatype MaskRow = MaskRow(translation: Vec3, halfSize: Vec2)

  /** A skylight emitter; its colour is already in sRGB components. */
  datatype SkylightRow = SkylightRow(srgb: Vec3, intensity: real)

  /** One uniform draw per jittered quantity: intensity, x and y. */
  datatype JitterDraw = JitterDraw(intensity: real, x: real, y: real)

  predicate DrawInRange(d: JitterDraw)
  {
    -1.0 <= d.intensity < 1.0 && -1.0 <= d.x < 1.0 && -1.0 <= d.y < 1.0
  }

  datatype Scene = Scene(
    lights: seq<LightRow>,
    occluders: seq<OccluderRow>,
    cameras: seq<CameraInput>,
    masks: seq<MaskRow>,
    skylights: seq<SkylightRow>)

  /** The light-pass settings the user configures. */
  datatype LightPassConfig = LightPassConfig(
    reservoirSize: int,
    smoothKernelSize: (int, int),
    directLightContrib: real,
    indirectLightContrib: real,
    indirectRaysRadiusFactor: real,
    indirectRaysPerSample: int)

  // ---------------------------------------------------------------- GPU buffers

  /** What the GPU light constructor is given: the jittered light and its jittered centre. */
  datatype GpuLight = GpuLight(source: OmniLight, center: Vec2)

  datatype GpuOccluder = GpuOccluder(center: Vec2, rotation: Quat, halfExtent: Vec2)

  datatype GpuMask = GpuMask(center: Vec2, halfSize: Vec2)

  datatype LightBuffer = LightBuffer(count: nat, data: seq<GpuLight>)
  datatype OccluderBuffer = OccluderBuffer(count: nat, data: seq<GpuOccluder>)
  datatype MaskBuffer = MaskBuffer(count: nat, data: seq<GpuMask>)

  /** An `f32` reciprocal: finite, or infinite when dividing by zero. */
  datatype Reciprocal = Finite(v: real) | Infinite

  datatype CameraParams = CameraParams(
    viewProj: Mat4,
    inverseViewProj: Mat4,
    screenSize: Vec2,
    screenSizeInv: (Reciprocal, Reciprocal),
    sdfScale: Vec2,
    invSdfScale: Vec2,
    temporalReset: real)

  datatype LightPassParams = LightPassParams(
    frameCounter: int,
    probeSize: int,
    probeAtlasCols: int,
    probeAtlasRows: int,
    reservoirSize: int,
    smoothKernelSizeH: int,
    smoothKernelSizeW: int,
    directLightContrib: real,
    indirectLightContrib: real,
    indirectRaysRadiusFactor: real,
    indirectRaysPerSample: int,
    skylightColor: Vec3)

  /**
   The buffers the extraction owns (`LightPassPipelineAssets`). They persist
   between frames; `probes` is the ring of camera poses, one slot per frame
   index.
   */
  datatype PipelineAssets = PipelineAssets(
    cameraParams: CameraParams,
    lightPassParams: LightPassParams,
    lights: LightBuffer,
    occluders: OccluderBuffer,
    probes: seq<Vec2>,
    masks: MaskBuffer)

  /** Everything one run of the system leaves behind. */
  datatype FrameOutput = FrameOutput(
    targetSizes: TargetSizes,
    assets: PipelineAssets,
    history: CameraHistory)

  // ---------------------------------------------------------------- lights

  predicate LightVisible(row: LightRow)
  {
    row.inheritedVisible && row.viewVisible
  }

  /**
   A GPU light lies within its row's jitter amplitudes: intensity off by at
   most the intensity amplitude, each position axis by at most the
   translation amplitude.
   */
  predicate WithinJitter(g: GpuLight, row: LightRow)
  {
    && Abs(g.source.intensity - row.light.intensity) <= Abs(row.light.jitterIntensity)
    && Abs(g.center.x - row.translation.x) <= Abs(row.light.jitterTranslation)
    && Abs(g.center.y - row.translation.y) <= Abs(row.light.jitterTranslation)
  }

  /** The jittered copy of one light: intensity and both position axes move by draw times amplitude. */
  function JitterLight(row: LightRow, d: JitterDraw): (g: GpuLight)
    requires DrawInRange(d)
    ensures WithinJitter(g, row)
    ensures g.source.color == row.light.color && g.source.falloff == row.light.falloff
    ensures g.source.jitterIntensity == row.light.jitterIntensity
    ensures g.source.jitterTranslation == row.light.jitterTranslation
    ensures row.light.jitterIntensity == 0.0 ==> g.source == row.light
    ensures row.light.jitterTranslation == 0.0 ==> g.center == Truncate(row.translation)
  {
    GpuLight(
      row.light.(intensity := Jitter(row.light.intensity, d.intensity, row.light.jitterIntensity)),
      Vec2(Jitter(row.translation.x, d.x, row.light.jitterTranslation),
           Jitter(row.translation.y, d.y, row.light.jitterTranslation)))
  }

  /** One jittered value: the base moved by a draw times the amplitude. */
  function Jitter(base: real, t: real, amplitude: real): (r: real)
    requires -1.0 <= t < 1.0
    ensures Abs(r - base) <= Abs(amplitude)
    ensures amplitude == 0.0 ==> r == base
  {
    JitterBound(t, amplitude);
    base + t * amplitude
  }

  /** A draw in [-1, 1) scales an amplitude to at most its magnitude. */
  lemma JitterBound(t: real, amplitude: real)
    requires -1.0 <= t < 1.0
    ensures Abs(t * amplitude) <= Abs(amplitude)
  {
    if amplitude >= 0.0 {
      MulNonNegative(t + 1.0, amplitude);
      MulNonNegative(1.0 - t, amplitude);
    } else {
      MulNonNegative(t + 1.0, -amplitude);
      MulNonNegative(1.0 - t, -amplitude);
    }
  }

  /** The light buffer contents: one jittered record per visible row, in query order. */
  function ExtractLightData(rows: seq<LightRow>, draws: seq<JitterDraw>): (data: seq<GpuLight>)
    requires |draws| == |rows|
    requires forall i :: 0 <= i < |draws| ==> DrawInRange(draws[i])
    ensures |data| == |Indices(rows, LightVisible)|
    ensures forall k :: 0 <= k < |data| ==>
              var i := Indices(rows, LightVisible)[k];
              data[k] == JitterLight(rows[i], draws[i])
    decreases |rows|
  {
    if |rows| == 0 then []
    else
      var n := |rows| - 1;
      var front := ExtractLightData(rows[..n], draws[..n]);
      assert Indices(rows, LightVisible) ==
             Indices(rows[..n], LightVisible) + (if LightVisible(rows[n]) then [n] else []);
      front + (if LightVisible(rows[n]) then [JitterLight(rows[n], draws[n])] else [])
  }

  /** The rebuilt light buffer; its count always matches its data. */
  function ExtractLights(rows: seq<LightRow>, draws: seq<JitterDraw>): (b: LightBuffer)
    requires |draws| == |rows|
    requires forall i :: 0 <= i < |draws| ==> DrawInRange(draws[i])
    ensures b.count == |b.data| == Count(rows, LightVisible) == |Indices(rows, LightVisible)|
    ensures forall k :: 0 <= k < |b.data| ==>
              var i := Indices(rows, LightVisible)[k];
              b.data[k] == JitterLight(rows[i], draws[i])
  {
    var data := ExtractLightData(rows, draws);
    CountIsIndicesLength(rows, LightVisible);
    LightBuffer(|data|, data)
  }

  /**
   With every jitter amplitude zero the light buffer does not depend on the
   draws: two frames over the same scene produce identical buffers.
   */
  lemma {:induction false} ZeroJitterIsDeterministic(rows: seq<LightRow>, d1: seq<JitterDraw>, d2: seq<JitterDraw>)
    requires |d1| == |rows| && |d2| == |rows|
    requires forall i :: 0 <= i < |rows| ==> DrawInRange(d1[i]) && DrawInRange(d2[i])
    requires forall i :: 0 <= i < |rows| ==>
               rows[i].light.jitterIntensity == 0.0 && rows[i].light.jitterTranslation == 0.0
    ensures ExtractLights(rows, d1) == ExtractLights(rows, d2)
    ensures forall k :: 0 <= k < |ExtractLights(rows, d1).data| ==>
              var i := Indices(rows, LightVisible)[k];
              ExtractLights(rows, d1).data[k] == GpuLight(rows[i].light, Truncate(rows[i].translation))
  {
    var a := ExtractLightData(rows, d1);
    var b := ExtractLightData(rows, d2);
    var idx := Indices(rows, LightVisible);
    forall k | 0 <= k < |a|
      ensures a[k] == b[k] == GpuLight(rows[idx[k]].light, Truncate(rows[idx[k]].translation))
    {
      var i := idx[k];
      assert a[k] == JitterLight(rows[i], d1[i]);
      assert b[k] == JitterLight(rows[i], d2[i]);
    }
    assert a == b;
  }

  // ---------------------------------------------------------------- occluders

  predicate OccluderVisible(row: OccluderRow)
  {
    row.inheritedVisible && row.viewVisible
  }

  /** The inverse of a unit quaternion, its conjugate. */
  function InverseRotation(q: Quat): Quat
  {
    Quat(-q.x, -q.y, -q.z, q.w)
  }

  /** The GPU occluder: global centre, inverted local rotation, half extent. */
  function ToGpuOccluder(row: OccluderRow): GpuOccluder
  {
    GpuOccluder(Truncate(row.globalTranslation), InverseRotation(row.rotation), row.halfSize)
  }

  function ExtractOccluderData(rows: seq<OccluderRow>): (data: seq<GpuOccluder>)
    ensures |data| == |Indices(rows, OccluderVisible)|
    ensures forall k :: 0 <= k < |data| ==>
              data[k] == ToGpuOccluder(rows[Indices(rows, OccluderVisible)[k]])
    decreases |rows|
  {
    if |rows| == 0 then []
    else
      var n := |rows| - 1;
      var front := ExtractOccluderData(rows[..n]);
      assert Indices(rows, OccluderVisible) ==
             Indices(rows[..n], OccluderVisible) + (if OccluderVisible(rows[n]) then [n] else []);
      front + (if OccluderVisible(rows[n]) then [ToGpuOccluder(rows[n])] else [])
  }

  function ExtractOccluders(rows: seq<OccluderRow>): (b: OccluderBuffer)
    ensures b.count == |b.data| == Count(rows, OccluderVisible) == |Indices(rows, OccluderVisible)|
    ensures forall k :: 0 <= k < |b.data| ==>
              b.data[k] == ToGpuOccluder(rows[Indices(rows, OccluderVisible)[k]])
  {
    var data := ExtractOccluderData(rows);
    CountIsIndicesLength(rows, OccluderVisible);
    OccluderBuffer(|data|, data)
  }

  // ---------------------------------------------------------------- skylight

  /** Masks are not filtered: every row becomes one record, in order. */
  function ExtractMasks(rows: seq<MaskRow>): (b: MaskBuffer)
    ensures b.count == |b.data| == |rows|
    ensures forall i :: 0 <= i < |rows| ==>
              b.data[i] == GpuMask(Truncate(rows[i].translation), rows[i].halfSize)
  {
    var data := seq(|rows|, i requires 0 <= i < |rows| => GpuMask(Truncate(rows[i].translation), rows[i].halfSize));
    MaskBuffer(|rows|, data)
  }

  /** Accumulated skylight colour: each emitter's sRGB colour scaled by its intensity, summed from zero. */
  function SkylightColor(rows: seq<SkylightRow>): Vec3
    decreases |rows|
  {
    if |rows| == 0 then ZeroVec3
    else AddVec3(SkylightColor(rows[..|rows| - 1]), ScaleVec3(rows[|rows| - 1].srgb, rows[|rows| - 1].intensity))
  }

  /** Summing the emitters of two queries is summing their separate colours. */
  lemma {:induction false} SkylightColorAppend(a: seq<SkylightRow>, b: seq<SkylightRow>)
    ensures SkylightColor(a + b) == AddVec3(SkylightColor(a), SkylightColor(b))
    decreases |b|
  {
    if |b| == 0 {
      assert a + b == a;
    } else {
      var n := |b| - 1;
      assert (a + b)[..|a + b| - 1] == a + b[..n];
      assert (a + b)[|a + b| - 1] == b[n];
      SkylightColorAppend(a, b[..n]);
    }
  }

  // ---------------------------------------------------------------- camera

  /** `Query::single`: a camera only when there is exactly one. */
  function SingleCamera(cams: seq<CameraInput>): (r: Option<CameraInput>)
    ensures r.Some? <==> |cams| == 1
    ensures r.Some? ==> r.value == cams[0]
  {
    if |cams| == 1 then Some(cams[0]) else None
  }

  function RecipOf(x: real): (r: Reciprocal)
    ensures r.Finite? <==> x != 0.0
    ensures r.Finite? ==> r.v * x == 1.0
  {
    if x == 0.0 then Infinite else Finite(1.0 / x)
  }

  /** The SDF grid is twice as coarse as the screen. */
  const SdfScale: real := 2.0

  // ---------------------------------------------------------------- the system

  /** Preconditions of a frame: draws match the light rows, the counter indexes the probe ring. */
  predicate FrameReady(scene: Scene, draws: seq<JitterDraw>, h: CameraHistory, assets: PipelineAssets)
  {
    && |draws| == |scene.lights|
    && (forall i :: 0 <= i < |draws| ==> DrawInRange(draws[i]))
    && CounterInRange(h)
    && |assets.probes| >= FrameCycle
  }

  /** What the camera block of the system produces. */
  datatype CameraStepResult = CameraStepResult(
    params: CameraParams,
    probes: seq<Vec2>,
    snapshot: CameraHistory,
    published: int)

  /**
   The camera block. With a camera: derive the uniform and the reset flag,
   write the pose at the current counter, clear the counter on a reset, and
   take the current camera as the new snapshot. Without one: clear only the
   reset flag and write a zero pose.
   */
  function CameraStep(
    seeded: CameraHistory,
    cam: Option<CameraInput>,
    sizes: TargetSizes,
    prev: CameraParams,
    probes: seq<Vec2>): (r: CameraStepResult)
    requires CounterInRange(seeded) && |probes| >= FrameCycle
    ensures |r.probes| == |probes|
    ensures r.probes[seeded.frameCounter] == (if cam.Some? then Truncate(cam.value.translation) else ZeroVec2)
    ensures forall j :: 0 <= j < |probes| && j != seeded.frameCounter ==> r.probes[j] == probes[j]
    ensures r.params.temporalReset == 0.0 || r.params.temporalReset == 1.0
    ensures cam.Some? ==>
              (r.params.temporalReset == 1.0 <==> seeded.prevViewProjFinite && CameraChanged(seeded, cam.value))
    ensures r.published == (if r.params.temporalReset == 1.0 then 0 else seeded.frameCounter)
    ensures cam.Some? ==>
              && r.params.viewProj == ViewProj(cam.value)
              && r.params.inverseViewProj == InverseViewProj(cam.value)
              && r.params.screenSize == sizes.primarySize
              && r.params.screenSizeInv == (RecipOf(sizes.primarySize.x), RecipOf(sizes.primarySize.y))
              && r.params.sdfScale == Vec2(2.0, 2.0)
              && r.params.invSdfScale == Vec2(0.5, 0.5)
    ensures cam.Some? ==>
              && r.snapshot.prevViewProj == ViewProj(cam.value)
              && r.snapshot.prevViewProjFinite == cam.value.viewProjFinite
              && r.snapshot.prevScale == Scale(cam.value.projection)
              && r.snapshot.prevTranslation == cam.value.translation
    ensures cam.None? ==> r.params == prev.(temporalReset := 0.0) && r.snapshot == seeded
  {
    var counter := seeded.frameCounter;
    match cam
    case Some(c) =>
      var reset := ResetFlag(seeded, c);
      var params := CameraParams(
        ViewProj(c),
        InverseViewProj(c),
        sizes.primarySize,
        (RecipOf(sizes.primarySize.x), RecipOf(sizes.primarySize.y)),
        Vec2(SdfScale, SdfScale),
        Vec2(1.0 / SdfScale, 1.0 / SdfScale),
        reset);
      var published := if reset > 0.5 then 0 else counter;
      CameraStepResult(
        params,
        probes[counter := Truncate(c.translation)],
        CameraHistory(published, ViewProj(c), c.viewProjFinite, Scale(c.projection), c.translation),
        published)
    case None =>
      CameraStepResult(prev.(temporalReset := 0.0), probes[counter := ZeroVec2], seeded, counter)
  }

  /** The light-pass uniform: fixed probe size, probe-grid atlas, copied settings, summed skylight. */
  function PublishLightPassParams(
    counter: int, sizes: TargetSizes, config: LightPassConfig, skylights: seq<SkylightRow>): (p: LightPassParams)
    ensures p.frameCounter == counter
    ensures p.probeSize == 8
    ensures p.probeAtlasCols == sizes.probeGridISize.x && p.probeAtlasRows == sizes.probeGridISize.y
    ensures p.reservoirSize == config.reservoirSize
    ensures p.smoothKernelSizeH == config.smoothKernelSize.0
    ensures p.smoothKernelSizeW == config.smoothKernelSize.1
    ensures p.directLightContrib == config.directLightContrib
    ensures p.indirectLightContrib == config.indirectLightContrib
    ensures p.indirectRaysRadiusFactor == config.indirectRaysRadiusFactor
    ensures p.indirectRaysPerSample == config.indirectRaysPerSample
    ensures p.skylightColor == SkylightColor(skylights)
  {
    LightPassParams(
      counter,
      ProbeSize,
      sizes.probeGridISize.x,
      sizes.probeGridISize.y,
      config.reservoirSize,
      config.smoothKernelSize.0,
      config.smoothKernelSize.1,
      config.directLightContrib,
      config.indirectLightContrib,
      config.indirectRaysRadiusFactor,
      config.indirectRaysPerSample,
      SkylightColor(skylights))
  }

  /** The counter stored for the next frame: the published one advanced, wrapping at the cycle. */
  function NextCounter(published: int): (n: int)
    requires 0 <= published < FrameCycle
    ensures 0 <= n < FrameCycle
    ensures published < FrameCycle - 1 ==> n == published + 1
    ensures published == FrameCycle - 1 ==> n == 0
  {
    (published + 1) % FrameCycle
  }

  /**
   One run of the extraction system. The effects on the frame counter come
   in this order: the pose is written at the old counter, the counter is
   cleared on a reset, the (possibly cleared) counter is published, and the
   stored counter advances modulo the cycle.
   */
  function ExtractFrame(
    config: LightPassConfig,
    sizes: TargetSizes,
    scene: Scene,
    draws: seq<JitterDraw>,
    h: CameraHistory,
    assets: PipelineAssets): (out: FrameOutput)
    requires FrameReady(scene, draws, h, assets)
    ensures out.targetSizes == sizes
    ensures |out.assets.probes| == |assets.probes|
    ensures CounterInRange(out.history)
    ensures out.assets.cameraParams.temporalReset == 1.0 ==>
              out.assets.lightPassParams.frameCounter == 0 && out.history.frameCounter == 1
    ensures out.assets.cameraParams.temporalReset != 1.0 ==>
              && out.assets.lightPassParams.frameCounter == h.frameCounter
              && out.history.frameCounter == NextCounter(h.frameCounter)
  {
    var cam := SingleCamera(scene.cameras);
    var seeded := Seed(h, cam);
    assert CounterInRange(seeded);
    var step := CameraStep(seeded, cam, sizes, assets.cameraParams, assets.probes);
    assert step.published == if step.params.temporalReset == 1.0 then 0 else h.frameCounter;
    var lights := ExtractLights(scene.lights, draws);
    FrameOutput(
      sizes,
      PipelineAssets(
        step.params,
        PublishLightPassParams(step.published, sizes, config, scene.skylights),
        lights,
        ExtractOccluders(scene.occluders),
        step.probes,
        ExtractMasks(scene.masks)),
      step.snapshot.(frameCounter := NextCounter(step.published)))
  }

  // ---------------------------------------------------------------- properties of a frame

  /**
   The frame counter's effects, in order: the camera pose lands in the probe
   slot at the old counter; on a reset frame the published value is 0 and
   the stored one 1; otherwise the published value is the old counter and
   the stored one its successor modulo the cycle. The flag itself is always
   0 or 1.
   */
  lemma FrameCounterUpdate(
    config: LightPassConfig, sizes: TargetSizes, scene: Scene, draws: seq<JitterDraw>,
    h: CameraHistory, assets: PipelineAssets)
    requires FrameReady(scene, draws, h, assets)
    ensures var out := ExtractFrame(config, sizes, scene, draws, h, assets);
            var reset := out.assets.cameraParams.temporalReset;
            var cam := SingleCamera(scene.cameras);
            && out.assets.probes[h.frameCounter] ==
                 (if cam.Some? then Truncate(cam.value.translation) else ZeroVec2)
            && (reset == 0.0 || reset == 1.0)
            && (reset == 1.0 ==>
                  out.assets.lightPassParams.frameCounter == 0 && out.history.frameCounter == 1)
            && (reset == 0.0 ==>
                  out.assets.lightPassParams.frameCounter == h.frameCounter
                  && out.history.frameCounter == NextCounter(h.frameCounter))
  {
    ProbePoseRecorded(config, sizes, scene, draws, h, assets);
  }

  /**
   The scene buffers are rebuilt from this frame's scene, whatever the
   previous frame left: the lights, occluders and masks published are the
   ones extracted from the current rows, so the light count is the number of
   visible lights and every light lies within its jitter amplitudes.
   */
  lemma BuffersRebuilt(
    config: LightPassConfig, sizes: TargetSizes, scene: Scene, draws: seq<JitterDraw>,
    h: CameraHistory, assets: PipelineAssets)
    requires FrameReady(scene, draws, h, assets)
    ensures var out := ExtractFrame(config, sizes, scene, draws, h, assets);
            && out.assets.lights == ExtractLights(scene.lights, draws)
            && out.assets.occluders == ExtractOccluders(scene.occluders)
            && out.assets.masks == ExtractMasks(scene.masks)
            && out.assets.lights.count == Count(scene.lights, LightVisible)
            && out.assets.occluders.count == Count(scene.occluders, OccluderVisible)
            && out.assets.masks.count == |scene.masks|
            && forall k :: 0 <= k < |out.assets.lights.data| ==>
                 WithinJitter(out.assets.lights.data[k], scene.lights[Indices(scene.lights, LightVisible)[k]])
  {
  }

  /**
   The reset rule: with a camera the flag is 1 exactly when the (seeded)
   previous view-projection is finite and the camera moved, zoomed or changed
   its view-projection beyond the thresholds; without a camera it is 0.
   */
  lemma TemporalResetRule(
    config: LightPassConfig, sizes: TargetSizes, scene: Scene, draws: seq<JitterDraw>,
    h: CameraHistory, assets: PipelineAssets)
    requires FrameReady(scene, draws, h, assets)
    ensures var out := ExtractFrame(config, sizes, scene, draws, h, assets);
            var cam := SingleCamera(scene.cameras);
            var seeded := Seed(h, cam);
            && (cam.Some? ==>
                  (out.assets.cameraParams.temporalReset == 1.0 <==>
                     seeded.prevViewProjFinite && CameraChanged(seeded, cam.value)))
            && (cam.None? ==> out.assets.cameraParams.temporalReset == 0.0)
  {
  }

  /**
   The carried camera snapshot: with a camera it becomes the current
   view-projection, scale and translation; without one it is left as it was.
   */
  lemma CameraHistoryUpdate(
    config: LightPassConfig, sizes: TargetSizes, scene: Scene, draws: seq<JitterDraw>,
    h: CameraHistory, assets: PipelineAssets)
    requires FrameReady(scene, draws, h, assets)
    ensures var out := ExtractFrame(config, sizes, scene, draws, h, assets);
            var cam := SingleCamera(scene.cameras);
            && (cam.Some? ==>
                  && out.history.prevViewProj == ViewProj(cam.value)
                  && out.history.prevViewProjFinite == cam.value.viewProjFinite
                  && out.history.prevScale == Scale(cam.value.projection)
                  && out.history.prevTranslation == cam.value.translation)
            && (cam.None? ==>
                  && out.history.prevViewProj == h.prevViewProj
                  && out.history.prevViewProjFinite == h.prevViewProjFinite
                  && out.history.prevScale == h.prevScale
                  && out.history.prevTranslation == h.prevTranslation)
  {
  }

  /**
   The probe ring: the slot at the old counter receives the camera's 2D
   position (zero without a camera); every other slot is untouched.
   */
  lemma ProbePoseRecorded(
    config: LightPassConfig, sizes: TargetSizes, scene: Scene, draws: seq<JitterDraw>,
    h: CameraHistory, assets: PipelineAssets)
    requires FrameReady(scene, draws, h, assets)
    ensures var out := ExtractFrame(config, sizes, scene, draws, h, assets);
            var cam := SingleCamera(scene.cameras);
            && out.assets.probes[h.frameCounter] ==
                 (if cam.Some? then Truncate(cam.value.translation) else ZeroVec2)
            && forall j :: 0 <= j < |assets.probes| && j != h.frameCounter ==>
                 out.assets.probes[j] == assets.probes[j]
  {
  }

  /**
   The camera uniform. With a camera: view-projection and its inverse from
   the camera, screen size and reciprocal from the primary target, SDF scale
   2 and inverse 1/2. Without one: only the reset flag changes.
   */
  lemma CameraParamsContents(
    config: LightPassConfig, sizes: TargetSizes, scene: Scene, draws: seq<JitterDraw>,
    h: CameraHistory, assets: PipelineAssets)
    requires FrameReady(scene, draws, h, assets)
    ensures var out := ExtractFrame(config, sizes, scene, draws, h, assets);
            var p := out.assets.cameraParams;
            var cam := SingleCamera(scene.cameras);
            && (cam.Some? ==>
                  && p.viewProj == ViewProj(cam.value)
                  && p.inverseViewProj == InverseViewProj(cam.value)
                  && p.screenSize == sizes.primarySize
                  && p.screenSizeInv == (RecipOf(sizes.primarySize.x), RecipOf(sizes.primarySize.y))
                  && p.sdfScale == Vec2(2.0, 2.0)
                  && p.invSdfScale == Vec2(0.5, 0.5))
            && (cam.None? ==> p == assets.cameraParams.(temporalReset := 0.0))
  {
  }

  /**
   The light-pass uniform: probe size 8, the atlas from the probe grid, the
   tunables copied from the settings (kernel `.0` to `_h`, `.1` to `_w`) and
   the skylight colour summed from the emitters.
   */
  lemma LightPassParamsContents(
    config: LightPassConfig, sizes: TargetSizes, scene: Scene, draws: seq<JitterDraw>,
    h: CameraHistory, assets: PipelineAssets)
    requires FrameReady(scene, draws, h, assets)
    ensures var p := ExtractFrame(config, sizes, scene, draws, h, assets).assets.lightPassParams;
            && p.probeSize == 8
            && p.probeAtlasCols == sizes.probeGridISize.x
            && p.probeAtlasRows == sizes.probeGridISize.y
            && p.reservoirSize == config.reservoirSize
            && p.smoothKernelSizeH == config.smoothKernelSize.0
            && p.smoothKernelSizeW == config.smoothKernelSize.1
            && p.directLightContrib == config.directLightContrib
            && p.indirectLightContrib == config.indirectLightContrib
            && p.indirectRaysRadiusFactor == config.indirectRaysRadiusFactor
            && p.indirectRaysPerSample == config.indirectRaysPerSample
            && p.skylightColor == SkylightColor(scene.skylights)
            && (scene.skylights == [] ==> p.skylightColor == ZeroVec3)
  {
  }

  /** Every record of the light buffer lies within its source row's jitter amplitudes. */
  lemma JitteredLightsWithinBounds(rows: seq<LightRow>, draws: seq<JitterDraw>)
    requires |draws| == |rows|
    requires forall i :: 0 <= i < |draws| ==> DrawInRange(draws[i])
    ensures var b := ExtractLights(rows, draws);
            forall k :: 0 <= k < |b.data| ==> WithinJitter(b.data[k], rows[Indices(rows, LightVisible)[k]])
  {
    var data := ExtractLights(rows, draws).data;
    var idx := Indices(rows, LightVisible);
    forall k | 0 <= k < |data|
      ensures WithinJitter(data[k], rows[idx[k]])
    {
      var g := JitterLight(rows[idx[k]], draws[idx[k]]);
      assert data[k] == g;
    }
  }

  /**
   From the default locals (identity view-projection, which is finite, and
   scale 0) the seeding branch never fires, so the very first frame compares
   against scale 0 and resets whenever the camera's zoom exceeds 0.001.
   */
  lemma FirstFrameResetsFromDefaults(cam: CameraInput)
    requires Abs(Scale(cam.projection)) > ZoomThreshold
    ensures Seed(DefaultHistory, Some(cam)) == DefaultHistory
    ensures ResetFlag(DefaultHistory, cam) == 1.0
  {
    if Movement(DefaultHistory, cam) <= MovementThreshold {
      assert ScaleDiff(DefaultHistory, cam) > ZoomThreshold;
    }
  }
}
