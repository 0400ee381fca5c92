/**
 The fixed topology of the five compute stages (`LightPassPipeline::from_world`
 and the bind groups of `system_queue_bind_groups`) as a declarative table:
 for every stage, its bind-group layout (binding index and binding type) and
 the resource its bind group puts at each index.
 */
module BindGroupTable {
  import opened PipelineTargets

  /** The five compute stages. */
  datatype Stage = SdfStage | ProbeStage | BounceStage | BlendStage | FilterStage

  /** The stages in dispatch order. */
  const Stages: seq<Stage> := [SdfStage, ProbeStage, BounceStage, BlendStage, FilterStage]

  function StageIndex(s: Stage): (k: nat)
    ensures k < |Stages| && Stages[k] == s
  {
    match s
    case SdfStage => 0
    case ProbeStage => 1
    case BounceStage => 2
    case BlendStage => 3
    case FilterStage => 4
  }

  /** The six CPU-written buffers of the pipeline assets. */
  datatype BufferRes = LightSources | LightOccluders | CameraParamsBuffer | LightPassParamsBuffer | Probes | SkylightMasks

  /** The camera and light-pass parameters are uniform buffers; the other four are storage buffers. */
  predicate IsUniform(b: BufferRes)
  {
    b == CameraParamsBuffer || b == LightPassParamsBuffer
  }

  datatype Access = ReadOnly | WriteOnly | ReadWrite

  /**
   A layout entry's binding type. Buffers carry the resource whose GPU type
   sets their minimum binding size; sampled textures are filterable 2D
   floats; samplers are filtering; storage textures carry access and format.
   */
  datatype BindingType =
    | UniformBuffer(sizedBy: BufferRes)
    | ReadOnlyStorageBuffer(sizedBy: BufferRes)
    | FilterableTexture
    | FilteringSampler
    | StorageTexture(access: Access, format: TextureFormat)

  datatype LayoutEntry = LayoutEntry(binding: nat, ty: BindingType)

  /** What a bind group puts at a binding: a buffer, a target's texture view, or a target's sampler. */
  datatype Resource = Buffer(buffer: BufferRes) | View(target: Target) | SamplerOf(of: Target)

  datatype GroupEntry = GroupEntry(binding: nat, resource: Resource)

  /**
   The bind-group layout of each stage: bindings numbered from 0 in order,
   the camera uniform first, and the stage's written texture last.
   */
  function Layout(s: Stage): (l: seq<LayoutEntry>)
    ensures |l| == BindingCount(s)
    ensures forall i :: 0 <= i < |l| ==> l[i].binding == i
    ensures l[0] == LayoutEntry(0, UniformBuffer(CameraParamsBuffer))
    ensures IsWriteAccess(l[|l| - 1].ty)
  {
    match s
    case SdfStage => [
      LayoutEntry(0, UniformBuffer(CameraParamsBuffer)),
      LayoutEntry(1, ReadOnlyStorageBuffer(LightOccluders)),
      LayoutEntry(2, StorageTexture(ReadWrite, SdfTargetFormat))]
    case ProbeStage => [
      LayoutEntry(0, UniformBuffer(CameraParamsBuffer)),
      LayoutEntry(1, UniformBuffer(LightPassParamsBuffer)),
      LayoutEntry(2, ReadOnlyStorageBuffer(Probes)),
      LayoutEntry(3, ReadOnlyStorageBuffer(SkylightMasks)),
      LayoutEntry(4, ReadOnlyStorageBuffer(LightSources)),
      LayoutEntry(5, FilterableTexture),
      LayoutEntry(6, FilteringSampler),
      LayoutEntry(7, StorageTexture(WriteOnly, ProbeTargetFormat))]
    case BounceStage => [
      LayoutEntry(0, UniformBuffer(CameraParamsBuffer)),
      LayoutEntry(1, UniformBuffer(LightPassParamsBuffer)),
      LayoutEntry(2, FilterableTexture),
      LayoutEntry(3, FilteringSampler),
      LayoutEntry(4, StorageTexture(ReadOnly, ProbeTargetFormat)),
      LayoutEntry(5, StorageTexture(WriteOnly, BounceTargetFormat))]
    case BlendStage => [
      LayoutEntry(0, UniformBuffer(CameraParamsBuffer)),
      LayoutEntry(1, UniformBuffer(LightPassParamsBuffer)),
      LayoutEntry(2, ReadOnlyStorageBuffer(Probes)),
      LayoutEntry(3, FilterableTexture),
      LayoutEntry(4, FilteringSampler),
      LayoutEntry(5, StorageTexture(ReadOnly, BounceTargetFormat)),
      LayoutEntry(6, StorageTexture(WriteOnly, BlendTargetFormat))]
    case FilterStage => [
      LayoutEntry(0, UniformBuffer(CameraParamsBuffer)),
      LayoutEntry(1, UniformBuffer(LightPassParamsBuffer)),
      LayoutEntry(2, ReadOnlyStorageBuffer(Probes)),
      LayoutEntry(3, FilterableTexture),
      LayoutEntry(4, FilteringSampler),
      LayoutEntry(5, StorageTexture(ReadOnly, BlendTargetFormat)),
      LayoutEntry(6, StorageTexture(WriteOnly, FilterTargetFormat)),
      LayoutEntry(7, StorageTexture(WriteOnly, PoseTargetFormat))]
  }

  /**
   The entries of each stage's bind group: one per layout slot, at the same
   binding; the camera buffer first, a target the stage itself writes last,
   and every sampler sampling the SDF texture.
   */
  function GroupEntries(s: Stage): (g: seq<GroupEntry>)
    ensures |g| == |Layout(s)|
    ensures forall i :: 0 <= i < |g| ==> g[i].binding == i
    ensures g[0].resource == Buffer(CameraParamsBuffer)
    ensures g[|g| - 1].resource.View? && Writer(g[|g| - 1].resource.target) == s
    ensures forall i :: 0 <= i < |g| && g[i].resource.SamplerOf? ==> g[i].resource.of == SdfTarget
  {
    match s
    case SdfStage => [
      GroupEntry(0, Buffer(CameraParamsBuffer)),
      GroupEntry(1, Buffer(LightOccluders)),
      GroupEntry(2, View(SdfTarget))]
    case ProbeStage => [
      GroupEntry(0, Buffer(CameraParamsBuffer)),
      GroupEntry(1, Buffer(LightPassParamsBuffer)),
      GroupEntry(2, Buffer(Probes)),
      GroupEntry(3, Buffer(SkylightMasks)),
      GroupEntry(4, Buffer(LightSources)),
      GroupEntry(5, View(SdfTarget)),
      GroupEntry(6, SamplerOf(SdfTarget)),
      GroupEntry(7, View(ProbeTarget))]
    case BounceStage => [
      GroupEntry(0, Buffer(CameraParamsBuffer)),
      GroupEntry(1, Buffer(LightPassParamsBuffer)),
      GroupEntry(2, View(SdfTarget)),
      GroupEntry(3, SamplerOf(SdfTarget)),
      GroupEntry(4, View(ProbeTarget)),
      GroupEntry(5, View(BounceTarget))]
    case BlendStage => [
      GroupEntry(0, Buffer(CameraParamsBuffer)),
      GroupEntry(1, Buffer(LightPassParamsBuffer)),
      GroupEntry(2, Buffer(Probes)),
      GroupEntry(3, View(SdfTarget)),
      GroupEntry(4, SamplerOf(SdfTarget)),
      GroupEntry(5, View(BounceTarget)),
      GroupEntry(6, View(BlendTarget))]
    case FilterStage => [
      GroupEntry(0, Buffer(CameraParamsBuffer)),
      GroupEntry(1, Buffer(LightPassParamsBuffer)),
      GroupEntry(2, Buffer(Probes)),
      GroupEntry(3, View(SdfTarget)),
      GroupEntry(4, SamplerOf(SdfTarget)),
      GroupEntry(5, View(BlendTarget)),
      GroupEntry(6, View(FilterTarget)),
      GroupEntry(7, View(PoseTarget))]
  }

  /** Number of bindings each stage declares. */
  function BindingCount(s: Stage): nat
  {
    match s
    case SdfStage => 3
    case ProbeStage => 8
    case BounceStage => 6
    case BlendStage => 7
    case FilterStage => 8
  }

  /** The compute pipeline each stage is compiled into: name, shader file and entry point. */
  datatype PipelineDescriptor = PipelineDescriptor(name: string, shader: string, entryPoint: string)

  /** Whether `s` ends with `suffix`. */
  predicate EndsWith(s: string, suffix: string)
  {
    |suffix| <= |s| && s[|s| - |suffix|..] == suffix
  }

  /**
   The pipeline of each stage: a WGSL shader compiled at entry point "main",
   under a label ending in "_pipeline". The filter stage's label is spelled
   "gi_filer_pipeline".
   */
  function Pipeline(s: Stage): (p: PipelineDescriptor)
    ensures p.entryPoint == "main"
    ensures EndsWith(p.shader, ".wgsl") && EndsWith(p.name, "_pipeline")
    ensures s == FilterStage ==> p.name == "gi_filer_pipeline"
  {
    match s
    case SdfStage => Described("gi_sdf", "gi_sdf")
    case ProbeStage => Described("gi_ss_probe", "gi_ss_probe")
    case BounceStage => Described("gi_ss_bounce", "gi_ss_bounce")
    case BlendStage => Described("gi_blend", "gi_ss_blend")
    case FilterStage => Described("gi_filer", "gi_ss_filter")
  }

  /** The descriptor labelled `name + "_pipeline"` compiling `file + ".wgsl"` at "main". */
  function Described(name: string, file: string): (p: PipelineDescriptor)
    ensures p.name == name + "_pipeline" && p.shader == file + ".wgsl" && p.entryPoint == "main"
    ensures EndsWith(p.shader, ".wgsl") && EndsWith(p.name, "_pipeline")
  {
    var p := PipelineDescriptor(name + "_pipeline", file + ".wgsl", "main");
    assert p.shader[|p.shader| - 5..] == ".wgsl";
    assert p.name[|p.name| - 9..] == "_pipeline";
    p
  }

  // ---------------------------------------------------------------- reading the table

  /** A layout slot and the resource bound there agree in kind, buffer type and texture format. */
  predicate Compatible(ty: BindingType, res: Resource)
  {
    match ty
    case UniformBuffer(b) => res == Buffer(b) && IsUniform(b)
    case ReadOnlyStorageBuffer(b) => res == Buffer(b) && !IsUniform(b)
    case FilterableTexture => res.View?
    case FilteringSampler => res.SamplerOf?
    case StorageTexture(_, f) => res.View? && f == TargetFormat(res.target)
  }

  predicate IsWriteAccess(ty: BindingType)
  {
    ty.StorageTexture? && (ty.access == WriteOnly || ty.access == ReadWrite)
  }

  predicate IsReadAccess(ty: BindingType)
  {
    ty.FilterableTexture? || (ty.StorageTexture? && (ty.access == ReadOnly || ty.access == ReadWrite))
  }

  /** Targets written through the slots `i` and later of a layout and its bind group. */
  function WrittenFrom(layout: seq<LayoutEntry>, group: seq<GroupEntry>, i: nat): set<Target>
    decreases |layout| - i
  {
    if i >= |layout| || i >= |group| then {}
    else
      (if IsWriteAccess(layout[i].ty) && group[i].resource.View? then {group[i].resource.target} else {})
      + WrittenFrom(layout, group, i + 1)
  }

  /** Targets read through the slots `i` and later of a layout and its bind group. */
  function ReadFrom(layout: seq<LayoutEntry>, group: seq<GroupEntry>, i: nat): set<Target>
    decreases |layout| - i
  {
    if i >= |layout| || i >= |group| then {}
    else
      (if IsReadAccess(layout[i].ty) && group[i].resource.View? then {group[i].resource.target} else {})
      + ReadFrom(layout, group, i + 1)
  }

  /** The targets stage `s` writes. */
  function Writes(s: Stage): set<Target>
  {
    WrittenFrom(Layout(s), GroupEntries(s), 0)
  }

  /** The targets stage `s` reads, sampled or through a readable storage texture. */
  function Reads(s: Stage): set<Target>
  {
    ReadFrom(Layout(s), GroupEntries(s), 0)
  }

  /** Stage `s` binds target `t` as a read-only storage texture of `t`'s format. */
  predicate ReadsAsStorage(s: Stage, t: Target)
  {
    exists i :: 0 <= i < |Layout(s)| && i < |GroupEntries(s)|
      && Layout(s)[i].ty == StorageTexture(ReadOnly, TargetFormat(t))
      && GroupEntries(s)[i].resource == View(t)
  }

  /** The single stage that writes each target; the filter stage writes two. */
  function Writer(t: Target): Stage
  {
    match t
    case SdfTarget => SdfStage
    case ProbeTarget => ProbeStage
    case BounceTarget => BounceStage
    case BlendTarget => BlendStage
    case FilterTarget => FilterStage
    case PoseTarget => FilterStage
  }

  /** The target each stage hands on to the next: one of the targets it is the writer of. */
  function Output(s: Stage): (t: Target)
    ensures Writer(t) == s
  {
    match s
    case SdfStage => SdfTarget
    case ProbeStage => ProbeTarget
    case BounceStage => BounceTarget
    case BlendStage => BlendTarget
    case FilterStage => FilterTarget
  }

  // ---------------------------------------------------------------- properties of the table

  /** The targets a stage is meant to write: those it is the writer of. */
  function ExpectedWrites(s: Stage): set<Target>
  {
    set t | t in AllTargets && Writer(t) == s
  }

  function ExpectedReads(s: Stage): set<Target>
  {
    match s
    case SdfStage => {SdfTarget}
    case ProbeStage => {SdfTarget}
    case BounceStage => {SdfTarget, ProbeTarget}
    case BlendStage => {SdfTarget, BounceTarget}
    case FilterStage => {SdfTarget, BlendTarget}
  }

  lemma SdfStageAccess()
    ensures Writes(SdfStage) == {SdfTarget} && Reads(SdfStage) == {SdfTarget}
  {
    var l, g := Layout(SdfStage), GroupEntries(SdfStage);
    assert WrittenFrom(l, g, 3) == {} && ReadFrom(l, g, 3) == {};
  }

  lemma ProbeStageAccess()
    ensures Writes(ProbeStage) == {ProbeTarget} && Reads(ProbeStage) == {SdfTarget}
  {
    var l, g := Layout(ProbeStage), GroupEntries(ProbeStage);
    assert WrittenFrom(l, g, 8) == {} && ReadFrom(l, g, 8) == {};
  }

  lemma BounceStageAccess()
    ensures Writes(BounceStage) == {BounceTarget} && Reads(BounceStage) == {SdfTarget, ProbeTarget}
  {
    var l, g := Layout(BounceStage), GroupEntries(BounceStage);
    assert WrittenFrom(l, g, 6) == {} && ReadFrom(l, g, 6) == {};
  }

  lemma BlendStageAccess()
    ensures Writes(BlendStage) == {BlendTarget} && Reads(BlendStage) == {SdfTarget, BounceTarget}
  {
    var l, g := Layout(BlendStage), GroupEntries(BlendStage);
    assert WrittenFrom(l, g, 7) == {} && ReadFrom(l, g, 7) == {};
  }

  lemma FilterStageAccess()
    ensures Writes(FilterStage) == {FilterTarget, PoseTarget} && Reads(FilterStage) == {SdfTarget, BlendTarget}
  {
    FilterStageWrites();
    FilterStageReads();
  }

  lemma FilterStageWrites()
    ensures Writes(FilterStage) == {FilterTarget, PoseTarget}
  {
    var l, g := Layout(FilterStage), GroupEntries(FilterStage);
    assert WrittenFrom(l, g, 8) == {};
  }

  lemma FilterStageReads()
    ensures Reads(FilterStage) == {SdfTarget, BlendTarget}
  {
    var l, g := Layout(FilterStage), GroupEntries(FilterStage);
    assert ReadFrom(l, g, 8) == {};
  }

  /** Every target is listed in `AllTargets`. */
  lemma InAllTargets(t: Target)
    ensures t in AllTargets
  {
    match t
    case SdfTarget => assert AllTargets[0] == t;
    case ProbeTarget => assert AllTargets[1] == t;
    case BounceTarget => assert AllTargets[2] == t;
    case BlendTarget => assert AllTargets[3] == t;
    case FilterTarget => assert AllTargets[4] == t;
    case PoseTarget => assert AllTargets[5] == t;
  }

  /** Each stage is meant to write its output alone, except the filter stage, which also writes the pose target. */
  lemma ExpectedWritesListed(s: Stage)
    ensures ExpectedWrites(s) == if s == FilterStage then {FilterTarget, PoseTarget} else {Output(s)}
  {
    var listed := if s == FilterStage then {FilterTarget, PoseTarget} else {Output(s)};
    forall t
      ensures t in ExpectedWrites(s) <==> t in listed
    {
      InAllTargets(t);
    }
  }

  /** What stage `s` writes and reads, read off its table. */
  lemma StageAccess(s: Stage)
    ensures Writes(s) == ExpectedWrites(s) && Reads(s) == ExpectedReads(s)
  {
    ExpectedWritesListed(s);
    match s
    case SdfStage => SdfStageAccess();
    case ProbeStage => ProbeStageAccess();
    case BounceStage => BounceStageAccess();
    case BlendStage => BlendStageAccess();
    case FilterStage => FilterStageAccess();
  }

  /**
   Binding indices are contiguous: each layout and each bind group of a
   stage lists bindings 0 .. n-1 in order, with n = 3, 8, 6, 7, 8 for the
   SDF, probe, bounce, blend and filter stages.
   */
  lemma BindingIndicesContiguous()
    ensures forall s :: |Layout(s)| == |GroupEntries(s)| == BindingCount(s)
    ensures forall s, i :: 0 <= i < |Layout(s)| ==> Layout(s)[i].binding == i
    ensures forall s, i :: 0 <= i < |GroupEntries(s)| ==> GroupEntries(s)[i].binding == i
    ensures BindingCount(SdfStage) == 3 && BindingCount(ProbeStage) == 8 && BindingCount(BounceStage) == 6
    ensures BindingCount(BlendStage) == 7 && BindingCount(FilterStage) == 8
  {
  }

  /** The camera uniform sits at binding 0 of every layout and every bind group. */
  lemma CameraAtBindingZero()
    ensures forall s :: Layout(s)[0] == LayoutEntry(0, UniformBuffer(CameraParamsBuffer))
    ensures forall s :: GroupEntries(s)[0] == GroupEntry(0, Buffer(CameraParamsBuffer))
  {
  }

  /**
   Every bind-group entry fits its layout slot: buffers where buffers are
   declared (uniform exactly for the two uniform resources), texture views
   where textures are declared with the target's own format for storage
   textures, samplers where samplers are declared.
   */
  lemma EntriesMatchLayouts()
    ensures forall s, i :: 0 <= i < |Layout(s)| && i < |GroupEntries(s)| ==>
              Compatible(Layout(s)[i].ty, GroupEntries(s)[i].resource)
  {
  }

  /** The intended writes name each target's writer and no other stage. */
  lemma ExpectedWritesMatchWriter(s: Stage, t: Target)
    ensures t in ExpectedWrites(s) <==> s == Writer(t)
  {
    InAllTargets(t);
  }

  /** The writes of one stage, read off its table, against `Writer`. */
  lemma WritersOf(s: Stage)
    ensures forall t :: t in Writes(s) <==> s == Writer(t)
  {
    StageAccess(s);
    forall t
      ensures t in Writes(s) <==> s == Writer(t)
    {
      ExpectedWritesMatchWriter(s, t);
    }
  }

  /** Every target is written by exactly one stage, the one `Writer` names. */
  lemma UniqueWriters()
    ensures forall s, t :: t in Writes(s) <==> s == Writer(t)
  {
    forall s
      ensures forall t :: t in Writes(s) <==> s == Writer(t)
    {
      WritersOf(s);
    }
  }

  /** Binding `i` of stage `s` is a read-only storage texture bound to `t`, of `t`'s format. */
  lemma ReadsAsStorageAt(s: Stage, t: Target, i: nat)
    requires i < |Layout(s)| && i < |GroupEntries(s)|
    requires Layout(s)[i].ty == StorageTexture(ReadOnly, TargetFormat(t))
    requires GroupEntries(s)[i].resource == View(t)
    ensures ReadsAsStorage(s, t)
  {
  }

  lemma SdfFeedsProbe()
    ensures SdfTarget in Writes(SdfStage) && SdfTarget in Reads(ProbeStage)
  {
    SdfStageAccess();
    ProbeStageAccess();
  }

  lemma ProbeFeedsBounce()
    ensures ProbeTarget in Writes(ProbeStage) && ProbeTarget in Reads(BounceStage)
    ensures ReadsAsStorage(BounceStage, ProbeTarget)
  {
    ProbeStageAccess();
    BounceStageAccess();
    ReadsAsStorageAt(BounceStage, ProbeTarget, 4);
  }

  lemma BounceFeedsBlend()
    ensures BounceTarget in Writes(BounceStage) && BounceTarget in Reads(BlendStage)
    ensures ReadsAsStorage(BlendStage, BounceTarget)
  {
    BounceStageAccess();
    BlendStageAccess();
    ReadsAsStorageAt(BlendStage, BounceTarget, 5);
  }

  lemma BlendFeedsFilter()
    ensures BlendTarget in Writes(BlendStage) && BlendTarget in Reads(FilterStage)
    ensures ReadsAsStorage(FilterStage, BlendTarget)
  {
    BlendWritten();
    FilterReadsBlend();
    ReadsAsStorageAt(FilterStage, BlendTarget, 5);
  }

  lemma BlendWritten()
    ensures BlendTarget in Writes(BlendStage)
  {
    BlendStageAccess();
  }

  lemma FilterReadsBlend()
    ensures BlendTarget in Reads(FilterStage)
  {
    FilterStageAccess();
  }

  /** Link `k` of the chain: stage `k` writes its output and stage `k + 1` reads it. */
  lemma ChainLink(k: nat)
    requires k < |Stages| - 1
    ensures Output(Stages[k]) in Writes(Stages[k])
    ensures Output(Stages[k]) in Reads(Stages[k + 1])
    ensures k >= 1 ==> ReadsAsStorage(Stages[k + 1], Output(Stages[k]))
  {
    // the two stages of link k, spelled out
    assert Stages[k] == [SdfStage, ProbeStage, BounceStage, BlendStage][k];
    assert Stages[k + 1] == [ProbeStage, BounceStage, BlendStage, FilterStage][k];
    if k == 0 {
      SdfFeedsProbe();
    } else if k == 1 {
      ProbeFeedsBounce();
    } else if k == 2 {
      BounceFeedsBlend();
    } else {
      BlendFeedsFilter();
    }
  }

  /**
   The stages form a write-to-read chain: each stage writes its output, and
   the next stage in dispatch order reads it; from the probe stage on the
   hand-off is a read-only storage texture.
   */
  lemma StageChain()
    ensures forall k :: 0 <= k < |Stages| ==> Output(Stages[k]) in Writes(Stages[k])
    ensures forall k :: 0 <= k < |Stages| - 1 ==> Output(Stages[k]) in Reads(Stages[k + 1])
    ensures forall k :: 1 <= k < |Stages| - 1 ==> ReadsAsStorage(Stages[k + 1], Output(Stages[k]))
  {
    forall k | 0 <= k < |Stages| - 1
      ensures Output(Stages[k]) in Writes(Stages[k])
      ensures Output(Stages[k]) in Reads(Stages[k + 1])
      ensures k >= 1 ==> ReadsAsStorage(Stages[k + 1], Output(Stages[k]))
    {
      ChainLink(k);
    }
    FilterStageAccess();
  }

  /**
   Reads respect dispatch order: every target a stage reads is written by an
   earlier stage, or by the stage itself only for the SDF stage's
   read-write SDF texture. The filter and pose targets are never read
   inside the pipeline; they are its outputs.
   */
  lemma ReadsFollowWrites()
    ensures forall s, t :: t in Reads(s) ==>
              StageIndex(Writer(t)) < StageIndex(s) || (s == SdfStage && t == SdfTarget)
    ensures forall s :: FilterTarget !in Reads(s) && PoseTarget !in Reads(s)
  {
    forall s
      ensures forall t :: t in Reads(s) ==>
                StageIndex(Writer(t)) < StageIndex(s) || (s == SdfStage && t == SdfTarget)
      ensures FilterTarget !in Reads(s) && PoseTarget !in Reads(s)
    {
      StageAccess(s);
      ExpectedReadsFollowWrites(s);
    }
  }

  /** The reads of one stage, as listed, all come from earlier writers or the SDF self-read. */
  lemma ExpectedReadsFollowWrites(s: Stage)
    ensures forall t :: t in ExpectedReads(s) ==>
              StageIndex(Writer(t)) < StageIndex(s) || (s == SdfStage && t == SdfTarget)
    ensures FilterTarget !in ExpectedReads(s) && PoseTarget !in ExpectedReads(s)
  {
  }

  /** Each stage compiles its own shader at entry point "main". */
  lemma DistinctPipelines()
    ensures forall s, u :: s != u ==> Pipeline(s).shader != Pipeline(u).shader
    ensures forall s :: Pipeline(s).entryPoint == "main"
  {
  }
}
