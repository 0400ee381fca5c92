# bevy-magic-light-2d: the CPU side of the 2D global-illumination pass

This project is a Dafny model of the decision logic that drives the crate's
screen-space global-illumination pipeline. The GPU work itself, five compute
shaders, is not modelled. What is modelled is everything the CPU decides
around it:

- **Per-frame extraction** (`SceneExtraction`, `TemporalReset`, `Selection`).
  Visible lights and occluders are filtered into GPU buffers in query order.
  Light intensity and position are jittered within their amplitudes. Skylight
  masks are copied and skylight emitters summed. The camera and light-pass
  uniforms are filled in. The `temporal_reset` flag is decided from the
  previous camera snapshot using three thresholds. The rotating frame counter
  (period 8 × 8 = 64) records the camera pose in the probe ring and is
  cleared on a reset. The system's `Local`s become an explicit
  `CameraHistory` record.
- **Light-pass targets** (`PipelineTargets`). `GiTargets::create` makes six
  textures with fresh handles. Each has its role's size, format and filter.
- **Bind-group topology** (`BindGroupTable`). The five bind-group layouts and
  bind groups form one declarative table. It yields each stage's read and
  write sets.
- **Readiness gate and bind-group queueing** (`Readiness`).
- **The render-graph node** (`LightPassNode`). It makes all five dispatches or
  none, with floor-divided workgroup grids.
- **The window-resize handler** (`WindowResize`).
- **The projection tracker** (`ProjectionTracker`). This is a relative zoom
  detector. Its file is not declared as a module of the crate, so nothing
  calls it. It is modelled on its own.

## Modelling choices

- `real` stands in for `f32`. Where finiteness matters, a flag carries it.
  There are three such flags: the camera's projection, its view-projection, and
  the previous view-projection in `CameraHistory`. `1.0 / 0.0` becomes the
  `Infinite` case of `Reciprocal`.
- A 4×4 matrix is a column-major `seq<real>` of length 16. Camera matrices and
  their inverses are inputs; matrix inversion is not modelled.
- The random jitter is a sequence of draws, each in `[-1, 1)`. There is one
  draw per light row, in query order. Rows that are not visible ignore their
  draw.
- `ComputedTargetSizes::from_window`, `ComputedTargetSizes::is_valid` and
  `util::align_to_work_group_grid` are not part of this model. They become
  function or boolean parameters.
- The image store is a map from handles to images, plus the next free handle.
  `reserve_handle` and `Assets::add` hand out that next handle.
- `CameraTargets::create` is called by the resize handler, and its
  definition is not part of this model. It is modelled as `CameraTargets::update_handles`
  (src/gi/compositing.rs:91-180) applied to targets that do not exist yet:
  three fresh images of the primary size.
- Panics (`expect`) become `Err(Panic(message))`.

### Behaviour worth noting

- **First frame.** glam's default `Mat4` is the identity, which is finite.
  So the first-frame seeding block (src/gi/pipeline_assets.rs:109-115) never
  fires from the default locals. The first frame compares the camera with the
  identity and scale 0, and it resets whenever the zoom magnitude exceeds
  0.001. `SceneExtraction.FirstFrameResetsFromDefaults` states this.
- **Workgroup grids.** Grids use floor division by 8 (src/gi/mod.rs:41,
  257-258). They do not round up, so a size that is not a multiple of 8
  leaves its last partial workgroup undispatched.
- **No camera.** Without exactly one floor camera, the camera uniform keeps
  its previous contents and only `temporal_reset` is set to 0. It is not
  reset to identity matrices.

## Model

| member | source | states |
|---|---|---|
| Common.MaxAbsDiffExceeds | src/gi/pipeline_assets.rs:185-189 | the folded maximum of element-wise differences exceeds a bound exactly when some single element differs by more |
| Common.AsU32 | src/gi/mod.rs:294 | the signed-to-unsigned cast keeps non-negative 32-bit values and adds 2^32 to negative ones |
| Selection.Indices | src/gi/pipeline_assets.rs:122-124 | the kept positions are in range, satisfy the filter, are strictly increasing, and include every position that satisfies it |
| Selection.CountIsIndicesLength | src/gi/pipeline_assets.rs:120-124 | the running count equals the number of kept positions |
| TemporalReset.Seed | src/gi/pipeline_assets.rs:108-115 | a present camera seeds the remembered view-projection (with the projection and its finiteness), translation and scale only when the previous view-projection is not finite and the previous scale is exactly 0; the counter is never touched |
| TemporalReset.ResetFlag | src/gi/pipeline_assets.rs:183-214 | the flag is 0 or 1, and it is 1 exactly when the previous view-projection is finite and the camera moved, zoomed or changed its view-projection beyond the thresholds |
| TemporalReset.SmallMotionKeepsHistory | src/gi/pipeline_assets.rs:199-211 | a camera within all three thresholds does not reset |
| TemporalReset.MovementResets | src/gi/pipeline_assets.rs:200-202 | movement above the threshold resets a finite history |
| SceneExtraction.JitterLight | src/gi/pipeline_assets.rs:125-136 | intensity and each position axis differ from the source by at most the jitter amplitudes; colour and falloff are copied; zero amplitudes copy exactly |
| SceneExtraction.ExtractLights | src/gi/pipeline_assets.rs:117-140 | count equals data length equals the number of lights with both visibility flags set, and record k is the jittered copy of the k-th visible light in query order |
| SceneExtraction.ZeroJitterIsDeterministic | src/gi/pipeline_assets.rs:126-136 | with zero amplitudes the light buffer ignores the draws and holds the unmodified lights at their 2D positions |
| SceneExtraction.JitteredLightsWithinBounds | src/gi/pipeline_assets.rs:122-139 | every record of the light buffer lies within its source light's jitter amplitudes |
| SceneExtraction.ExtractOccluders | src/gi/pipeline_assets.rs:142-156 | count equals data length equals the number of occluders with both visibility flags set; each record has the 2D centre, the inverse local rotation and the half size of the k-th visible occluder |
| SceneExtraction.ExtractMasks | src/gi/pipeline_assets.rs:158-169 | masks are not filtered: count equals the number of masks and record i is mask i's 2D position and half size |
| SceneExtraction.SkylightColorAppend | src/gi/pipeline_assets.rs:271-280 | the skylight colour of concatenated emitters is the sum of their separate colours |
| SceneExtraction.SingleCamera | src/gi/pipeline_assets.rs:172 | a camera is used exactly when the query holds exactly one |
| SceneExtraction.RecipOf | src/gi/pipeline_assets.rs:227-230 | the reciprocal is finite exactly for a non-zero size, and then multiplies back to 1 |
| SceneExtraction.CameraStep | src/gi/pipeline_assets.rs:171-254 | the pose is written at the current counter and no other probe slot changes; the reset rule; the published counter is 0 on a reset and the old counter otherwise; the uniform's contents, including the screen-size reciprocals, which are infinite for a zero size; the new snapshot; without a camera only the reset flag changes |
| SceneExtraction.PublishLightPassParams | src/gi/pipeline_assets.rs:256-269 | probe size 8, atlas from the probe grid, each tunable copied with kernel .0 to _h and .1 to _w, skylight colour summed |
| SceneExtraction.ExtractFrame | src/gi/pipeline_assets.rs:87-283 | the counter stays in [0, 64); on a reset 0 is published and 1 stored, otherwise the old counter is published and its successor modulo 64 stored |
| SceneExtraction.BuffersRebuilt | src/gi/pipeline_assets.rs:117-170 | every frame the light, occluder and mask buffers are rebuilt from the current scene, whatever the previous frame left: light count is the number of visible lights, each within its jitter amplitudes; occluder count the number of visible occluders; mask count the number of masks |
| SceneExtraction.FrameCounterUpdate | src/gi/pipeline_assets.rs:237-282 | the counter effects in order: pose at the old counter, cleared on reset, published, then advanced modulo 64 |
| SceneExtraction.TemporalResetRule | src/gi/pipeline_assets.rs:183-214 | with a camera the published flag is 1 exactly when the seeded history is finite and the camera changed; without one it is 0 |
| SceneExtraction.CameraHistoryUpdate | src/gi/pipeline_assets.rs:216-219 | with a camera the snapshot becomes the current view-projection, scale and translation; without one it is unchanged |
| SceneExtraction.ProbePoseRecorded | src/gi/pipeline_assets.rs:237-253 | the probe slot at the old counter receives the camera's 2D position, or zero without a camera; other slots are untouched |
| SceneExtraction.CameraParamsContents | src/gi/pipeline_assets.rs:221-235 | view-projection and inverse from the camera, screen size and its reciprocals from the primary target (infinite for a zero size), SDF scale 2 and inverse 1/2; without a camera only the reset flag changes |
| SceneExtraction.LightPassParamsContents | src/gi/pipeline_assets.rs:256-280 | the light-pass uniform of a whole frame: fixed probe size, copied settings, summed skylight, zero without emitters |
| SceneExtraction.FirstFrameResetsFromDefaults | src/gi/pipeline_assets.rs:99-115 | from the default locals seeding does not fire, and a camera whose zoom magnitude exceeds 0.001 resets |
| PipelineTargets.CreateTargets | src/gi/pipeline.rs:54-109 | six fresh, pairwise distinct handles; SDF at the SDF size with linear filtering, blend at the probe grid, the rest at the primary size, each with its format constant; existing images untouched |
| BindGroupTable.Layout | src/gi/pipeline.rs:485-849 | each stage declares 3, 8, 6, 7 or 8 slots numbered from 0 in order, the camera uniform in slot 0 and a writable storage texture in the last slot |
| BindGroupTable.GroupEntries | src/gi/pipeline.rs:306-467 | one entry per layout slot at the same binding: the camera buffer first, a target the stage itself writes last, and every sampler on the SDF texture |
| BindGroupTable.StageAccess | src/gi/pipeline.rs:485-849 | the targets each stage writes and reads, read off its layout and bind group, are the intended ones |
| BindGroupTable.BindingIndicesContiguous | src/gi/pipeline.rs:306-849 | layout and bind group of each stage list bindings 0..n-1 in order, n = 3, 8, 6, 7, 8 |
| BindGroupTable.CameraAtBindingZero | src/gi/pipeline.rs:306-849 | binding 0 of every layout is the camera uniform, and every bind group binds the camera buffer there |
| BindGroupTable.EntriesMatchLayouts | src/gi/pipeline.rs:306-849 | every bound resource fits its slot: buffers where buffers are declared, uniform exactly for the camera and light-pass parameters, storage textures with their target's format constant |
| BindGroupTable.UniqueWriters | src/gi/pipeline.rs:485-849 | a stage writes a target if and only if it is that target's single writer |
| BindGroupTable.StageChain | src/gi/pipeline.rs:485-849 | each stage writes its output and the next stage reads it; from the probe stage on, through a read-only storage texture of the right format |
| BindGroupTable.ReadsFollowWrites | src/gi/pipeline.rs:485-849 | every read target is written by an earlier stage, except the SDF stage's read-write SDF texture; the filter and pose targets are not read inside the pipeline |
| BindGroupTable.DistinctPipelines | src/gi/pipeline.rs:852-912 | each stage compiles its own shader, all at entry point main |
| BindGroupTable.Pipeline | src/gi/pipeline.rs:852-912 | every pipeline compiles a .wgsl shader at entry point main under a label ending in _pipeline; the filter pipeline's label is spelled gi_filer_pipeline |
| Readiness.Message | src/gi/pipeline.rs:214-236 | a buffer diagnostic opens with "GPU buffer '" and a target diagnostic with "Texture target '", each quoting the missing item's name right after |
| Readiness.MessageIdentifiesCause | src/gi/pipeline.rs:214-236 | different causes give different diagnostics: the quoted name fixes which buffer or target is missing |
| Readiness.FirstMissing | src/gi/pipeline.rs:215-219 | the reported index is the first item that is not present; when none is reported, every item is present |
| Readiness.AreBuffersReady | src/gi/pipeline.rs:200-239 | Ok exactly when all six buffers are bound and all six targets loaded; otherwise the first unbound buffer in order, or, only when every buffer is bound, the first unloaded target |
| Readiness.BuffersCheckedFirst | src/gi/pipeline.rs:206-236 | any unbound buffer makes the gate report a buffer no later in order, never a texture |
| Readiness.CreateBindGroups | src/gi/pipeline.rs:287-467 | each stage's bind group follows its table binding for binding, with views and samplers taken from the images of the named targets |
| Readiness.QueueBindGroups | src/gi/pipeline.rs:261-477 | with no targets or a shut gate the existing bind groups stay; otherwise all five are rebuilt |
| Readiness.QueuedResourcesAvailable | src/gi/pipeline.rs:285-301 | every buffer, view and sampler of the rebuilt bind groups is one the gate found available |
| LightPassNode.GridCount | src/gi/mod.rs:255-262 | the workgroup count times 8 is the largest multiple of 8 not above the size |
| LightPassNode.Run | src/gi/mod.rs:198-303 | never an error; zero or five dispatches, five exactly with bind groups, valid sizes and all pipelines compiled; SDF, probe, bounce, blend, filter in order with their own bind group and pipeline; floor grids over the SDF size, the probe grid and the aligned primary size; depth 1 |
| LightPassNode.FloorLeavesRemainder | src/gi/mod.rs:257-262 | rounding down leaves size mod 8 texels per axis outside the grid; 12 texels get one group |
| WindowResize.CreateCameraTargets | src/gi/compositing.rs:91-180 | three fresh, distinct handles, each storing a camera image of the primary size in the default colour format; existing images untouched |
| WindowResize.CreateMaterial | src/gi/compositing.rs:50-78 | succeeds exactly when the three camera layers and the light-pass targets exist, pointing at them and at the filter target; panics on the first missing one in field order (floor, walls, objects, then the light-pass targets), each with its own message |
| WindowResize.Recreate | src/gi/mod.rs:148-162 | after a valid resize the rectangle has the primary size, every light-pass target is a fresh image of its role's size, the three camera layers are stored camera images of the new size, and old images are kept |
| WindowResize.HandleWindowResize | src/gi/mod.rs:120-164 | no events: nothing changes; not exactly one window: panic; invalid sizes: sizes overwritten and nothing else; valid sizes: light-pass and camera targets recreated at the new sizes; with the material built first, as the handler does, it panics exactly when the material's inputs are missing before the first recreation, with that `expect`'s message |
| WindowResize.MaterialIrradianceIsStale | src/gi/mod.rs:156-161 | the material built during a resize points at the replaced filter target, which the new filter bind group never writes |
| WindowResize.CorrectedMaterialTracksTargets | src/gi/mod.rs:156-162 | with the material built after recreation it shows the new filter target and the new camera layers, without panicking (the camera-layer half assumes the cameras render into the recreated camera targets) |
| ProjectionTracker.New | src/gi/projection_tracker.rs:17-22 | nothing remembered, threshold 0.1, three invalidation frames |
| ProjectionTracker.UniformScale | src/gi/projection_tracker.rs:29-30 | the scale is non-negative and zero only when both diagonal elements are zero |
| ProjectionTracker.DetectProjectionChange | src/gi/projection_tracker.rs:26-50 | tracker unchanged; no previous matrix or a non-positive previous scale gives (false, 0); otherwise change times previous scale is the absolute scale difference, and significant exactly when change exceeds the threshold |
| ProjectionTracker.UpdateProjection | src/gi/projection_tracker.rs:53-55 | remembers the matrix and keeps the settings |
| ProjectionTracker.UpdateThenDetectIsQuiet | src/gi/projection_tracker.rs:26-55 | a matrix just remembered, compared against itself, shows no change |
| ProjectionTracker.DoublingIsSignificant | src/gi/projection_tracker.rs:29-45 | doubling the scale is a relative change of exactly 1, significant at the default threshold |

## Left out

- The WGSL shaders: SDF generation, probe ray-marching, bounce, blend and filter numerics.
- GPU and engine calls are reduced to what the CPU logic needs. This covers
  `create_bind_group`, `queue_compute_pipeline`, buffer uploads, asset
  insertion and ECS scheduling. Bind groups become resolved entry lists,
  buffers a "bound" set, GPU images a "loaded" handle set, and the pipeline
  cache a set of compiled stages.
- IEEE `f32` rounding, NaN propagation and the sRGB conversion of skylight colours are left out. Colours arrive already in sRGB.
- The random number generator. Draws are inputs in `[-1, 1)`.
- `ComputedTargetSizes::from_window`, `ComputedTargetSizes::is_valid` and `util::align_to_work_group_grid` are not part of this model. They are parameters.
- `CameraTargets::create` has no definition in src/gi/compositing.rs, which defines only `update_handles`. This model assumes it behaves like `update_handles` applied to empty targets.
- The probe buffer's layout and size are set outside the extraction system.
- SceneExtraction.ExtractFrame: requires the probe ring to hold at least 64 slots and the stored counter to be in [0, 64). The source indexes the ring with the counter and would panic otherwise. The buffer's size is set where it is created, outside this model.
- The mesh built for the full-screen rectangle is reduced to its size.
- Log messages, except the readiness gate's diagnostics (`Readiness.Message`).
- `invalidation_frames` of the projection tracker is stored but never read by the tracker.
- `detect_target_sizes`, the egui camera viewer, the alternative compositing files, the render-layer constants and the examples.

## Findings

| source | as written | input that shows it | evidently intended | confidence | as-written member | corrected member |
|---|---|---|---|---|---|---|
| src/gi/mod.rs:156-161 | the post-processing material is built from the camera and light-pass targets that the next two lines replace with freshly created ones | one resize event to a valid size after startup: the material's irradiance handle is the old filter target, while the rebuilt filter bind group writes the new one | build the material after the targets are recreated, so it samples the texture the light pass writes | medium, not executed | WindowResize.MaterialIrradianceIsStale | WindowResize.CorrectedMaterialTracksTargets |

The irradiance handle is the evident part of this fix. The corrected order
also points the material's floor, walls and objects layers at the freshly
created camera targets. The crate's example programs, however, set their
cameras to render into the camera targets captured at startup. That half of
`WindowResize.CorrectedMaterialTracksTargets` therefore assumes the cameras
are re-targeted along with the material, which is outside this model.
