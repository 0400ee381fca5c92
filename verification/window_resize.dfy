/**
 The main-world reaction to window resizes (`handle_window_resize`): for
 each pending resize event it recomputes the target sizes from the primary
 window and, when they are valid, resizes the full-screen rectangle, rebuilds
 the post-processing material and recreates the light-pass and camera
 targets. How sizes are computed from a window and when they are valid are
 decided by helpers outside this model; they are parameters.
 */
module WindowResize {
  import opened Common
  import opened PipelineTargets
  import opened BindGroupTable
  import opened Readiness

  /** A panic with its message: the `expect`s on the window query and the material's handles. */
  datatype Panic = Panic(message: string)

  /** The three camera render targets, each created lazily. */
  datatype CameraTargets = CameraTargets(floor: Option<Handle>, walls: Option<Handle>, objects: Option<Handle>)

  /** The full-screen material: the three camera layers and the light pass's filtered irradiance. */
  datatype Material = Material(floor: Handle, walls: Handle, objects: Handle, irradiance: Handle)

  /** `Assets::add`: store an image under a fresh handle. */
  function Add(a: ImageAssets, img: Image): (r: (Handle, ImageAssets))
    requires WellFormedAssets(a)
    ensures WellFormedAssets(r.1)
    ensures r.0 !in a.images && r.0 in r.1.images && r.1.images[r.0] == img
    ensures forall h :: h in a.images ==> h in r.1.images && r.1.images[h] == a.images[h]
    ensures a.next <= r.0 < r.1.next
  {
    (a.next, ImageAssets(a.images[a.next := img], a.next + 1))
  }

  /** A camera layer: a zero-filled image of the primary size in the default colour format. */
  function CameraImage(sizes: TargetSizes): Image
  {
    Image(sizes.primaryUSize.x, sizes.primaryUSize.y, Rgba8UnormSrgb, DefaultSampler)
  }

  /** All three camera layers exist and each names a stored camera image of the given sizes. */
  predicate CameraLayersStored(camera: CameraTargets, a: ImageAssets, sizes: TargetSizes)
  {
    && camera.floor.Some? && camera.walls.Some? && camera.objects.Some?
    && forall h :: h in {camera.floor.value, camera.walls.value, camera.objects.value} ==>
         h in a.images && a.images[h] == CameraImage(sizes)
  }

  datatype CameraCreated = CameraCreated(targets: CameraTargets, assets: ImageAssets)

  /**
   Camera-target creation, taken as the handle update applied to targets
   that do not exist yet: three fresh handles, distinct from each other and
   from every stored image, each holding a camera layer of the primary size.
   */
  function CreateCameraTargets(a: ImageAssets, sizes: TargetSizes): (r: CameraCreated)
    requires WellFormedAssets(a)
    ensures WellFormedAssets(r.assets)
    ensures r.targets.floor.Some? && r.targets.walls.Some? && r.targets.objects.Some?
    ensures r.targets.floor.value !in a.images && r.targets.walls.value !in a.images && r.targets.objects.value !in a.images
    ensures r.targets.floor.value != r.targets.walls.value && r.targets.walls.value != r.targets.objects.value
    ensures r.targets.objects.value != r.targets.floor.value
    ensures CameraLayersStored(r.targets, r.assets, sizes)
    ensures forall h :: h in a.images ==> h in r.assets.images && r.assets.images[h] == a.images[h]
  {
    var (floor, a1) := Add(a, CameraImage(sizes));
    var (walls, a2) := Add(a1, CameraImage(sizes));
    var (objects, a3) := Add(a2, CameraImage(sizes));
    CameraCreated(CameraTargets(Some(floor), Some(walls), Some(objects)), a3)
  }

  /**
   `PostProcessingMaterial::create`: the camera layers and the filtered
   irradiance target, panicking on the first one that does not exist, in
   field order.
   */
  function CreateMaterial(camera: CameraTargets, gi: Option<GiTargets>): (r: Result<Material, Panic>)
    ensures r.Ok? <==> camera.floor.Some? && camera.walls.Some? && camera.objects.Some? && gi.Some?
    ensures r.Ok? ==> r.value == Material(camera.floor.value, camera.walls.value, camera.objects.value,
                                          HandleOf(gi.value, FilterTarget))
    ensures camera.floor.None? ==> r == Err(Panic("Floor target must be initialized"))
    ensures camera.floor.Some? && camera.walls.None? ==> r == Err(Panic("Walls target must be initialized"))
    ensures camera.floor.Some? && camera.walls.Some? && camera.objects.None? ==>
              r == Err(Panic("Objects target must be initialized"))
    ensures camera.floor.Some? && camera.walls.Some? && camera.objects.Some? && gi.None? ==>
              r == Err(Panic("GI targets must be initialized"))
  {
    if camera.floor.None? then Err(Panic("Floor target must be initialized"))
    else if camera.walls.None? then Err(Panic("Walls target must be initialized"))
    else if camera.objects.None? then Err(Panic("Objects target must be initialized"))
    else if gi.None? then Err(Panic("GI targets must be initialized"))
    else Ok(Material(camera.floor.value, camera.walls.value, camera.objects.value, gi.value.filter))
  }

  /**
   The main-world state the handler touches: the computed sizes, the size of
   the full-screen rectangle, the material, the light-pass and camera
   targets, and the image store.
   */
  datatype ResizeState = ResizeState(
    sizes: TargetSizes,
    rect: Option<Vec2>,
    material: Option<Material>,
    gi: Option<GiTargets>,
    camera: CameraTargets,
    images: ImageAssets)

  /** When the material is built relative to the recreation of the targets. */
  datatype MaterialOrder =
    | BeforeRecreation   // as the handler is written: from the targets about to be replaced
    | AfterRecreation    // from the targets just created

  /** Every light-pass target handle names a stored image of the size its role demands. */
  predicate TargetsMatch(st: ResizeState)
  {
    && st.gi.Some?
    && forall t :: HandleOf(st.gi.value, t) in st.images.images
         && st.images.images[HandleOf(st.gi.value, t)].width == TargetSize(st.sizes, t).x
         && st.images.images[HandleOf(st.gi.value, t)].height == TargetSize(st.sizes, t).y
  }

  /** One valid resize: rectangle, material, light-pass targets and camera targets. */
  function Recreate(st: ResizeState, sizes: TargetSizes, order: MaterialOrder): (r: Result<ResizeState, Panic>)
    requires WellFormedAssets(st.images)
    ensures r.Ok? ==> WellFormedAssets(r.value.images)
    ensures r.Ok? ==> r.value.sizes == sizes && r.value.rect == Some(sizes.primarySize)
    ensures r.Ok? ==> TargetsMatch(r.value) && r.value.material.Some?
    ensures r.Ok? ==> CameraLayersStored(r.value.camera, r.value.images, sizes)
    ensures r.Ok? ==> forall t :: HandleOf(r.value.gi.value, t) !in st.images.images
    ensures r.Ok? ==>
              && r.value.camera.floor.value !in st.images.images
              && r.value.camera.walls.value !in st.images.images
              && r.value.camera.objects.value !in st.images.images
    ensures r.Ok? ==> forall h :: h in st.images.images ==> h in r.value.images.images && r.value.images.images[h] == st.images.images[h]
    ensures order == AfterRecreation ==> r.Ok?
    ensures order == BeforeRecreation ==> (r.Ok? <==> CreateMaterial(st.camera, st.gi).Ok?)
  {
    var created := CreateTargets(st.images, sizes);
    var camera := CreateCameraTargets(created.assets, sizes);
    var material := match order
      case BeforeRecreation => CreateMaterial(st.camera, st.gi)
      case AfterRecreation => CreateMaterial(camera.targets, Some(created.targets));
    match material
    case Err(p) => Err(p)
    case Ok(m) => Ok(ResizeState(sizes, Some(sizes.primarySize), Some(m), Some(created.targets), camera.targets, camera.assets))
  }

  /**
   `handle_window_resize` over `events` pending resize events: each one
   panics unless there is exactly one primary window, overwrites the sizes,
   and either stops (sizes not valid, later events left unread) or recreates
   everything and goes on with the next event.
   */
  function HandleWindowResize<W>(st: ResizeState, events: nat, windows: seq<W>,
                                 fromWindow: W -> TargetSizes, isValid: TargetSizes -> bool,
                                 order: MaterialOrder): (r: Result<ResizeState, Panic>)
    requires WellFormedAssets(st.images)
    decreases events
    ensures events == 0 ==> r == Ok(st)
    ensures events > 0 && |windows| != 1 ==> r == Err(Panic("Expected exactly one primary window"))
    ensures events > 0 && |windows| == 1 && !isValid(fromWindow(windows[0])) ==>
              r == Ok(st.(sizes := fromWindow(windows[0])))
    ensures events > 0 && |windows| == 1 && isValid(fromWindow(windows[0])) && r.Ok? ==>
              r.value.sizes == fromWindow(windows[0]) && r.value.rect == Some(fromWindow(windows[0]).primarySize)
              && TargetsMatch(r.value) && r.value.material.Some?
              && CameraLayersStored(r.value.camera, r.value.images, r.value.sizes)
              && (forall t :: HandleOf(r.value.gi.value, t) !in st.images.images)
              && r.value.camera.floor.value !in st.images.images
              && r.value.camera.walls.value !in st.images.images
              && r.value.camera.objects.value !in st.images.images
    ensures r.Ok? ==> WellFormedAssets(r.value.images)
    ensures r.Ok? ==> forall h :: h in st.images.images ==> h in r.value.images.images && r.value.images.images[h] == st.images.images[h]
    ensures order == AfterRecreation ==> (r.Err? <==> events > 0 && |windows| != 1)
    ensures order == BeforeRecreation && events > 0 && |windows| == 1 && isValid(fromWindow(windows[0])) ==>
              && (r.Err? <==> CreateMaterial(st.camera, st.gi).Err?)
              && (r.Err? ==> r.error == CreateMaterial(st.camera, st.gi).error)
  {
    if events == 0 then Ok(st)
    else if |windows| != 1 then Err(Panic("Expected exactly one primary window"))
    else
      var sizes := fromWindow(windows[0]);
      if !isValid(sizes) then Ok(st.(sizes := sizes))
      else
        match Recreate(st, sizes, order)
        case Err(p) => Err(p)
        case Ok(next) => HandleWindowResize(next, events - 1, windows, fromWindow, isValid, order)
  }

  /**
   The material the handler builds points at the irradiance image of the
   light-pass targets it is about to replace: after one valid resize the
   material's irradiance handle is the old filter target, which is not the
   new filter target the filter stage's bind group now writes.
   */
  lemma MaterialIrradianceIsStale<W>(st: ResizeState, window: W, fromWindow: W -> TargetSizes,
                                     isValid: TargetSizes -> bool)
    requires WellFormedAssets(st.images) && TargetsMatch(st)
    requires st.camera.floor.Some? && st.camera.walls.Some? && st.camera.objects.Some?
    requires isValid(fromWindow(window))
    ensures var r := HandleWindowResize(st, 1, [window], fromWindow, isValid, BeforeRecreation);
            && r.Ok?
            && r.value.material.value.irradiance == HandleOf(st.gi.value, FilterTarget)
            && r.value.material.value.irradiance != HandleOf(r.value.gi.value, FilterTarget)
            && var filterGroup := CreateBindGroups(r.value.gi.value).filter;
               forall i :: 0 <= i < |filterGroup| ==> filterGroup[i].resource != TextureView(r.value.material.value.irradiance)
  {
    var sizes := fromWindow(window);
    var r1 := Recreate(st, sizes, BeforeRecreation);
    assert r1.Ok?;
    var next := r1.value;
    assert HandleWindowResize(next, 0, [window], fromWindow, isValid, BeforeRecreation) == Ok(next);
    var stale := HandleOf(st.gi.value, FilterTarget);
    assert stale in st.images.images;
    assert next.material.value.irradiance == stale;
    assert forall t :: HandleOf(next.gi.value, t) != stale;
    FilterGroupAvoids(next.gi.value, stale);
  }

  /** The filter stage's bind group views only the given targets, so no handle outside them. */
  lemma FilterGroupAvoids(targets: GiTargets, h: Handle)
    requires forall t :: HandleOf(targets, t) != h
    ensures var filterGroup := CreateBindGroups(targets).filter;
            forall i :: 0 <= i < |filterGroup| ==> filterGroup[i].resource != TextureView(h)
  {
    var bg := CreateBindGroups(targets);
    assert GroupOf(bg, FilterStage) == bg.filter;
    forall i | 0 <= i < |bg.filter|
      ensures bg.filter[i].resource != TextureView(h)
    {
      if GroupEntries(FilterStage)[i].resource.View? {
        assert HandleOf(targets, GroupEntries(FilterStage)[i].resource.target) != h;
      }
    }
  }

  /**
   Building the material after the targets are recreated makes it follow
   them: after a valid resize it shows exactly the new camera layers and the
   new filtered irradiance, and it never panics. The irradiance half is the
   evident fix; the camera-layer half assumes the cameras render into the
   recreated camera targets.
   */
  lemma CorrectedMaterialTracksTargets<W>(st: ResizeState, window: W, fromWindow: W -> TargetSizes,
                                          isValid: TargetSizes -> bool)
    requires WellFormedAssets(st.images)
    requires isValid(fromWindow(window))
    ensures var r := HandleWindowResize(st, 1, [window], fromWindow, isValid, AfterRecreation);
            && r.Ok?
            && r.value.material.value.irradiance == HandleOf(r.value.gi.value, FilterTarget)
            && Some(r.value.material.value.floor) == r.value.camera.floor
            && Some(r.value.material.value.walls) == r.value.camera.walls
            && Some(r.value.material.value.objects) == r.value.camera.objects
  {
    var r1 := Recreate(st, fromWindow(window), AfterRecreation);
    assert HandleWindowResize(r1.value, 0, [window], fromWindow, isValid, AfterRecreation) == Ok(r1.value);
  }
}
