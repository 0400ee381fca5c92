/**
 The render-world gate in front of the light pass (`are_buffers_ready`) and
 the bind groups built once it opens (`system_queue_bind_groups`). A GPU
 buffer is either bound or not; a target is loaded when its image handle has
 a GPU image.
 */
module Readiness {
  import opened Common
  import opened PipelineTargets
  import opened BindGroupTable

  /** The order in which the gate inspects the six buffers. */
  const BufferOrder: seq<BufferRes> :=
    [LightSources, LightOccluders, CameraParamsBuffer, LightPassParamsBuffer, Probes, SkylightMasks]

  function BufferRank(b: BufferRes): (k: nat)
    ensures k < |BufferOrder| && BufferOrder[k] == b
  {
    match b
    case LightSources => 0
    case LightOccluders => 1
    case CameraParamsBuffer => 2
    case LightPassParamsBuffer => 3
    case Probes => 4
    case SkylightMasks => 5
  }

  /** Targets are inspected in declaration order. */
  function TargetRank(t: Target): (k: nat)
    ensures k < |AllTargets| && AllTargets[k] == t
  {
    match t
    case SdfTarget => 0
    case ProbeTarget => 1
    case BounceTarget => 2
    case BlendTarget => 3
    case FilterTarget => 4
    case PoseTarget => 5
  }

  function BufferName(b: BufferRes): string
  {
    match b
    case LightSources => "light_sources"
    case LightOccluders => "light_occluders"
    case CameraParamsBuffer => "camera_params"
    case LightPassParamsBuffer => "light_pass_params"
    case Probes => "probes"
    case SkylightMasks => "skylight_masks"
  }

  function TargetName(t: Target): string
  {
    match t
    case SdfTarget => "sdf_target"
    case ProbeTarget => "ss_probe_target"
    case BounceTarget => "ss_bounce_target"
    case BlendTarget => "ss_blend_target"
    case FilterTarget => "ss_filter_target"
    case PoseTarget => "ss_pose_target"
  }

  /** Why the gate stays shut: the first missing buffer, or else the first missing target. */
  datatype NotReady = BufferNotBound(buffer: BufferRes) | TargetNotLoaded(target: Target)

  /** `msg` opens with `prefix` and then quotes `name`, closing the quote right after it. */
  predicate Quotes(msg: string, prefix: string, name: string)
  {
    && |prefix| + |name| < |msg|
    && msg[..|prefix|] == prefix
    && msg[|prefix|..|prefix| + |name|] == name
    && msg[|prefix| + |name|] == '\''
  }

  predicate Unquoted(s: string)
  {
    forall i :: 0 <= i < |s| ==> s[i] != '\''
  }

  /**
   The diagnostic the gate reports: a missing buffer or a missing target,
   named between single quotes.
   */
  function Message(e: NotReady): (m: string)
    ensures e.BufferNotBound? ==> Quotes(m, "GPU buffer '", BufferName(e.buffer))
    ensures e.TargetNotLoaded? ==> Quotes(m, "Texture target '", TargetName(e.target))
  {
    match e
    case BufferNotBound(b) => "GPU buffer '" + BufferName(b) + "' not bound yet"
    case TargetNotLoaded(t) => "Texture target '" + TargetName(t) + "' not loaded in GPU"
  }

  /** A name without quotes is determined by the text its quote encloses. */
  lemma QuotedNameDetermined(msg: string, prefix: string, n1: string, n2: string)
    requires Quotes(msg, prefix, n1) && Quotes(msg, prefix, n2)
    requires Unquoted(n1) && Unquoted(n2)
    ensures n1 == n2
  {
  }

  lemma BufferNameUnquoted(b: BufferRes)
    ensures Unquoted(BufferName(b))
  {
  }

  lemma TargetNameUnquoted(t: Target)
    ensures Unquoted(TargetName(t))
  {
  }

  lemma NamesDistinct(b1: BufferRes, b2: BufferRes, t1: Target, t2: Target)
    ensures BufferName(b1) == BufferName(b2) ==> b1 == b2
    ensures TargetName(t1) == TargetName(t2) ==> t1 == t2
  {
  }

  /** Buffer diagnostics open with 'G', target diagnostics with 'T'. */
  lemma MessageOpening(e: NotReady)
    ensures |Message(e)| > 0 && Message(e)[0] == if e.BufferNotBound? then 'G' else 'T'
  {
    var m := Message(e);
    if e.BufferNotBound? {
      assert m[..12][0] == 'G';
    } else {
      assert m[..16][0] == 'T';
    }
  }

  /** The message identifies its cause: different causes give different diagnostics. */
  lemma MessageIdentifiesCause(e1: NotReady, e2: NotReady)
    ensures Message(e1) == Message(e2) ==> e1 == e2
  {
    var m := Message(e1);
    if m == Message(e2) {
      MessageOpening(e1);
      MessageOpening(e2);
      if e1.BufferNotBound? {
        BufferNameUnquoted(e1.buffer);
        BufferNameUnquoted(e2.buffer);
        QuotedNameDetermined(m, "GPU buffer '", BufferName(e1.buffer), BufferName(e2.buffer));
        NamesDistinct(e1.buffer, e2.buffer, SdfTarget, SdfTarget);
      } else {
        TargetNameUnquoted(e1.target);
        TargetNameUnquoted(e2.target);
        QuotedNameDetermined(m, "Texture target '", TargetName(e1.target), TargetName(e2.target));
        NamesDistinct(LightSources, LightSources, e1.target, e2.target);
      }
    }
  }

  /** Index of the first item from `i` on that is not present, if any. */
  function FirstMissing<T>(items: seq<T>, present: T -> bool, i: nat): (r: Option<nat>)
    decreases |items| - i
    ensures r.None? ==> forall j :: i <= j < |items| ==> present(items[j])
    ensures r.Some? ==> i <= r.value < |items| && !present(items[r.value])
    ensures r.Some? ==> forall j :: i <= j < r.value ==> present(items[j])
  {
    if i >= |items| then None
    else if !present(items[i]) then Some(i)
    else FirstMissing(items, present, i + 1)
  }

  /** Every buffer is bound and every target's image is on the GPU. */
  predicate AllReady(bound: set<BufferRes>, loaded: set<Handle>, targets: GiTargets)
  {
    (forall b: BufferRes :: b in bound) && (forall t :: HandleOf(targets, t) in loaded)
  }

  /**
   `are_buffers_ready`: succeeds exactly when everything is available;
   otherwise names the first missing buffer in inspection order, and only
   when all buffers are bound, the first target whose image is not loaded.
   */
  function AreBuffersReady(bound: set<BufferRes>, loaded: set<Handle>, targets: GiTargets): (r: Result<(), NotReady>)
    ensures r.Ok? <==> AllReady(bound, loaded, targets)
    ensures r.Err? && r.error.BufferNotBound? ==>
              r.error.buffer !in bound
              && forall b :: BufferRank(b) < BufferRank(r.error.buffer) ==> b in bound
    ensures r.Err? && r.error.TargetNotLoaded? ==>
              (forall b: BufferRes :: b in bound)
              && HandleOf(targets, r.error.target) !in loaded
              && forall t :: TargetRank(t) < TargetRank(r.error.target) ==> HandleOf(targets, t) in loaded
  {
    match FirstMissing(BufferOrder, b => b in bound, 0)
    case Some(i) => Err(BufferNotBound(BufferOrder[i]))
    case None =>
      assert forall b: BufferRes :: b in bound by {
        forall b: BufferRes ensures b in bound {
          assert BufferOrder[BufferRank(b)] == b;
        }
      }
      match FirstMissing(AllTargets, t => HandleOf(targets, t) in loaded, 0)
      case Some(i) => Err(TargetNotLoaded(AllTargets[i]))
      case None =>
        assert forall t :: HandleOf(targets, t) in loaded by {
          forall t ensures HandleOf(targets, t) in loaded {
            assert AllTargets[TargetRank(t)] == t;
          }
        }
        Ok(())
  }

  /** A bound resource resolved to a concrete buffer or image handle. */
  datatype BoundResource = BufferBinding(buffer: BufferRes) | TextureView(image: Handle) | Sampler(image: Handle)

  datatype BoundEntry = BoundEntry(binding: nat, resource: BoundResource)

  /** The five bind groups the light pass dispatches with. */
  datatype BindGroups = BindGroups(
    sdf: seq<BoundEntry>,
    probe: seq<BoundEntry>,
    bounce: seq<BoundEntry>,
    blend: seq<BoundEntry>,
    filter: seq<BoundEntry>)

  function GroupOf(bg: BindGroups, s: Stage): seq<BoundEntry>
  {
    match s
    case SdfStage => bg.sdf
    case ProbeStage => bg.probe
    case BounceStage => bg.bounce
    case BlendStage => bg.blend
    case FilterStage => bg.filter
  }

  function Resolve(targets: GiTargets, e: GroupEntry): BoundEntry
  {
    match e.resource
    case Buffer(b) => BoundEntry(e.binding, BufferBinding(b))
    case View(t) => BoundEntry(e.binding, TextureView(HandleOf(targets, t)))
    case SamplerOf(t) => BoundEntry(e.binding, Sampler(HandleOf(targets, t)))
  }

  /** Stage `s`'s group: its table's entries in order, each resolved against `targets`. */
  function BuildGroup(targets: GiTargets, s: Stage): (g: seq<BoundEntry>)
    ensures |g| == |GroupEntries(s)|
    ensures forall i :: 0 <= i < |g| ==> g[i] == Resolve(targets, GroupEntries(s)[i])
  {
    seq(|GroupEntries(s)|, i requires 0 <= i < |GroupEntries(s)| => Resolve(targets, GroupEntries(s)[i]))
  }

  /** A resolved resource that the gate has seen to be available. */
  predicate Available(r: BoundResource, bound: set<BufferRes>, loaded: set<Handle>)
  {
    match r
    case BufferBinding(b) => b in bound
    case TextureView(h) => h in loaded
    case Sampler(h) => h in loaded
  }

  /**
   The bind groups for a set of targets: each stage's group follows its
   table, binding for binding, with every texture and sampler taken from the
   image of the target the table names.
   */
  function CreateBindGroups(targets: GiTargets): (bg: BindGroups)
    ensures forall s :: |GroupOf(bg, s)| == |Layout(s)| == |GroupEntries(s)|
    ensures forall s, i :: 0 <= i < |GroupOf(bg, s)| ==> GroupOf(bg, s)[i].binding == Layout(s)[i].binding
    ensures forall s, i :: 0 <= i < |GroupOf(bg, s)| && GroupEntries(s)[i].resource.Buffer? ==>
              GroupOf(bg, s)[i].resource == BufferBinding(GroupEntries(s)[i].resource.buffer)
    ensures forall s, i :: 0 <= i < |GroupOf(bg, s)| && GroupEntries(s)[i].resource.View? ==>
              GroupOf(bg, s)[i].resource == TextureView(HandleOf(targets, GroupEntries(s)[i].resource.target))
    ensures forall s, i :: 0 <= i < |GroupOf(bg, s)| && GroupEntries(s)[i].resource.SamplerOf? ==>
              GroupOf(bg, s)[i].resource == Sampler(HandleOf(targets, GroupEntries(s)[i].resource.of))
  {
    var bg := BindGroups(
      BuildGroup(targets, SdfStage),
      BuildGroup(targets, ProbeStage),
      BuildGroup(targets, BounceStage),
      BuildGroup(targets, BlendStage),
      BuildGroup(targets, FilterStage));
    assert forall s :: GroupOf(bg, s) == BuildGroup(targets, s);
    bg
  }

  /**
   `system_queue_bind_groups`: with no targets yet, or while the gate is
   shut, the bind groups already in place are kept; otherwise all five are
   rebuilt, and every buffer, texture and sampler they reference is one the
   gate found available.
   */
  function QueueBindGroups(current: Option<BindGroups>, targets: Option<GiTargets>,
                           bound: set<BufferRes>, loaded: set<Handle>): (r: Option<BindGroups>)
    ensures targets.None? ==> r == current
    ensures targets.Some? && !AllReady(bound, loaded, targets.value) ==> r == current
    ensures targets.Some? && AllReady(bound, loaded, targets.value) ==>
              r == Some(CreateBindGroups(targets.value))
  {
    if targets.None? then current
    else match AreBuffersReady(bound, loaded, targets.value)
      case Err(_) => current
      case Ok(_) => Some(CreateBindGroups(targets.value))
  }

  /**
   Once the gate has opened, every buffer, texture and sampler the new bind
   groups reference is one the gate found available, so resolving them
   cannot fail.
   */
  lemma QueuedResourcesAvailable(current: Option<BindGroups>, targets: GiTargets,
                                 bound: set<BufferRes>, loaded: set<Handle>)
    requires AllReady(bound, loaded, targets)
    ensures QueueBindGroups(current, Some(targets), bound, loaded).Some?
    ensures var bg := QueueBindGroups(current, Some(targets), bound, loaded).value;
            forall s, i :: 0 <= i < |GroupOf(bg, s)| ==> Available(GroupOf(bg, s)[i].resource, bound, loaded)
  {
    var bg := CreateBindGroups(targets);
    forall s, i | 0 <= i < |GroupOf(bg, s)|
      ensures Available(GroupOf(bg, s)[i].resource, bound, loaded)
    {
      match GroupEntries(s)[i].resource
      case Buffer(b) =>
      case View(t) =>
      case SamplerOf(t) =>
    }
  }

  /** The gate never reports a target while some buffer is still unbound. */
  lemma BuffersCheckedFirst(bound: set<BufferRes>, loaded: set<Handle>, targets: GiTargets, b: BufferRes)
    requires b !in bound
    ensures AreBuffersReady(bound, loaded, targets).Err?
    ensures AreBuffersReady(bound, loaded, targets).error.BufferNotBound?
    ensures BufferRank(AreBuffersReady(bound, loaded, targets).error.buffer) <= BufferRank(b)
  {
  }
}
