/**
 The six GPU textures the light pass owns (`GiTargets`) and how they are
 created (`GiTargets::create`): each gets a freshly reserved image handle and
 a zero-filled 2D image of the size and format its role demands.
 */
module PipelineTargets {
  import opened Common

  datatype TextureFormat = R16Float | Rgba16Float | Rgba32Float | Rg32Float | Rgba8UnormSrgb

  /** Sampler filtering: linear, nearest, or the image library's default sampler. */
  datatype FilterMode = Linear | Nearest | DefaultSampler

  /** The roles of the six light-pass textures. */
  datatype Target = SdfTarget | ProbeTarget | BounceTarget | BlendTarget | FilterTarget | PoseTarget

  /** All targets, in the order the structure declares them. */
  const AllTargets: seq<Target> :=
    [SdfTarget, ProbeTarget, BounceTarget, BlendTarget, FilterTarget, PoseTarget]

  const SdfTargetFormat: TextureFormat := R16Float
  const ProbeTargetFormat: TextureFormat := Rgba16Float
  const BounceTargetFormat: TextureFormat := Rgba32Float
  const BlendTargetFormat: TextureFormat := Rgba32Float
  const FilterTargetFormat: TextureFormat := Rgba32Float
  const PoseTargetFormat: TextureFormat := Rg32Float

  /** The format constant of each target. */
  function TargetFormat(t: Target): TextureFormat
  {
    match t
    case SdfTarget => SdfTargetFormat
    case ProbeTarget => ProbeTargetFormat
    case BounceTarget => BounceTargetFormat
    case BlendTarget => BlendTargetFormat
    case FilterTarget => FilterTargetFormat
    case PoseTarget => PoseTargetFormat
  }

  /** The SDF target is sampled linearly, every other target with nearest filtering. */
  function TargetFilter(t: Target): FilterMode
  {
    if t == SdfTarget then Linear else Nearest
  }

  /** The size each target is created at: SDF size, probe grid for the blend target, primary size otherwise. */
  function TargetSize(sizes: TargetSizes, t: Target): UVec2
  {
    match t
    case SdfTarget => sizes.sdfUSize
    case BlendTarget => sizes.probeGridUSize
    case _ => sizes.primaryUSize
  }

  type Handle = nat

  /** A zero-filled 2D image. */
  datatype Image = Image(width: nat, height: nat, format: TextureFormat, filter: FilterMode)

  /**
   The image asset store: images by handle, and the next handle
   `reserve_handle` gives out. Every stored handle is below it.
   */
  datatype ImageAssets = ImageAssets(images: map<Handle, Image>, next: Handle)

  predicate WellFormedAssets(a: ImageAssets)
  {
    forall h :: h in a.images ==> h < a.next
  }

  datatype GiTargets = GiTargets(
    sdf: Handle,
    probe: Handle,
    bounce: Handle,
    blend: Handle,
    filter: Handle,
    pose: Handle)

  function HandleOf(g: GiTargets, t: Target): Handle
  {
    match t
    case SdfTarget => g.sdf
    case ProbeTarget => g.probe
    case BounceTarget => g.bounce
    case BlendTarget => g.blend
    case FilterTarget => g.filter
    case PoseTarget => g.pose
  }

  /** `create_texture_2d`. */
  function CreateTexture(size: UVec2, format: TextureFormat, filter: FilterMode): Image
  {
    Image(size.x, size.y, format, filter)
  }

  /** `reserve_handle`: hand out the next handle without storing anything under it yet. */
  function Reserve(a: ImageAssets): (r: (Handle, ImageAssets))
    ensures r.0 == a.next && r.1.images == a.images && r.1.next == a.next + 1
  {
    (a.next, a.(next := a.next + 1))
  }

  /** `insert`: store an image under a handle, replacing whatever was there. */
  function Insert(a: ImageAssets, h: Handle, img: Image): ImageAssets
  {
    a.(images := a.images[h := img])
  }

  datatype Created = Created(targets: GiTargets, assets: ImageAssets)

  /**
   `GiTargets::create`: six new handles, pairwise distinct and unused
   before, each holding an image of its role's size, format and filter; the
   images already stored are left as they were.
   */
  function CreateTargets(a: ImageAssets, sizes: TargetSizes): (r: Created)
    requires WellFormedAssets(a)
    ensures WellFormedAssets(r.assets)
    ensures forall t :: HandleOf(r.targets, t) !in a.images && HandleOf(r.targets, t) >= a.next
    ensures forall t, u :: t != u ==> HandleOf(r.targets, t) != HandleOf(r.targets, u)
    ensures forall t :: HandleOf(r.targets, t) in r.assets.images
    ensures forall t :: r.assets.images[HandleOf(r.targets, t)] ==
              Image(TargetSize(sizes, t).x, TargetSize(sizes, t).y, TargetFormat(t), TargetFilter(t))
    ensures forall h :: h in a.images ==> h in r.assets.images && r.assets.images[h] == a.images[h]
  {
    var sdf := CreateTexture(sizes.sdfUSize, SdfTargetFormat, Linear);
    var probe := CreateTexture(sizes.primaryUSize, ProbeTargetFormat, Nearest);
    var bounce := CreateTexture(sizes.primaryUSize, BounceTargetFormat, Nearest);
    var blend := CreateTexture(sizes.probeGridUSize, BlendTargetFormat, Nearest);
    var filter := CreateTexture(sizes.primaryUSize, FilterTargetFormat, Nearest);
    var pose := CreateTexture(sizes.primaryUSize, PoseTargetFormat, Nearest);
    var (h0, a0) := Reserve(a);
    var (h1, a1) := Reserve(a0);
    var (h2, a2) := Reserve(a1);
    var (h3, a3) := Reserve(a2);
    var (h4, a4) := Reserve(a3);
    var (h5, a5) := Reserve(a4);
    var stored := Insert(Insert(Insert(Insert(Insert(Insert(a5, h0, sdf), h1, probe), h2, bounce), h3, blend), h4, filter), h5, pose);
    Created(GiTargets(h0, h1, h2, h3, h4, h5), stored)
  }
}
