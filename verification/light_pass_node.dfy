/**
 The render-graph node that records the light pass (`LightPass2DNode::run`):
 all five compute dispatches, or none. Whether the computed sizes are valid
 and how the primary size is aligned to the workgroup grid are decided by
 helpers outside this model; they are parameters.
 */
module LightPassNode {
  import opened Common
  import opened BindGroupTable
  import opened Readiness

  /** One `dispatch_workgroups` call with the bind group and pipeline set just before it. */
  datatype Dispatch = Dispatch(
    stage: Stage,
    bindGroup: seq<BoundEntry>,
    pipeline: PipelineDescriptor,
    x: nat,
    y: nat,
    z: nat)

  /** The node never fails; this error type has no inhabitant the node produces. */
  datatype NodeRunError = NodeRunError

  /** Workgroups along one axis: unsigned division by the workgroup edge, rounding down. */
  function GridCount(texels: nat): (n: nat)
    ensures n * WorkgroupSize <= texels < (n + 1) * WorkgroupSize
  {
    texels / WorkgroupSize
  }

  /** The size each stage's dispatch covers, before dividing by the workgroup edge. */
  function DispatchSize(s: Stage, sizes: TargetSizes, align: IVec2 -> IVec2): UVec2
  {
    match s
    case SdfStage => sizes.sdfUSize
    case FilterStage =>
      var aligned := align(sizes.primaryISize);
      UVec2(AsU32(aligned.x), AsU32(aligned.y))
    case _ => sizes.probeGridUSize
  }

  function StageDispatch(s: Stage, groups: BindGroups, sizes: TargetSizes, align: IVec2 -> IVec2): Dispatch
  {
    var size := DispatchSize(s, sizes, align);
    Dispatch(s, GroupOf(groups, s), Pipeline(s), GridCount(size.x), GridCount(size.y), 1)
  }

  /**
   `LightPass2DNode::run`: returns the dispatches recorded, in order. It
   stops with none when the bind groups are missing, then when the sizes are
   not valid, then when any of the five pipelines is not compiled yet;
   otherwise it records the five stages in dispatch order, each with its own
   bind group and pipeline and a floor-divided grid of depth 1.
   */
  function Run(groups: Option<BindGroups>, sizes: TargetSizes, sizesValid: bool,
               compiled: set<Stage>, align: IVec2 -> IVec2): (r: Result<seq<Dispatch>, NodeRunError>)
    ensures r.Ok?
    ensures |r.value| == 0 || |r.value| == |Stages|
    ensures |r.value| == |Stages| <==> groups.Some? && sizesValid && forall s :: s in compiled
    ensures forall k :: 0 <= k < |r.value| ==>
              && r.value[k].stage == Stages[k]
              && r.value[k].bindGroup == GroupOf(groups.value, Stages[k])
              && r.value[k].pipeline == Pipeline(Stages[k])
              && r.value[k].z == 1
    ensures |r.value| == |Stages| ==>
              && r.value[0].x * WorkgroupSize <= sizes.sdfUSize.x < (r.value[0].x + 1) * WorkgroupSize
              && r.value[0].y * WorkgroupSize <= sizes.sdfUSize.y < (r.value[0].y + 1) * WorkgroupSize
    ensures |r.value| == |Stages| ==> forall k :: 1 <= k <= 3 ==>
              && r.value[k].x * WorkgroupSize <= sizes.probeGridUSize.x < (r.value[k].x + 1) * WorkgroupSize
              && r.value[k].y * WorkgroupSize <= sizes.probeGridUSize.y < (r.value[k].y + 1) * WorkgroupSize
    ensures |r.value| == |Stages| ==>
              && r.value[4].x == AsU32(align(sizes.primaryISize).x) / WorkgroupSize
              && r.value[4].y == AsU32(align(sizes.primaryISize).y) / WorkgroupSize
  {
    if groups.None? then Ok([])
    else if !sizesValid then Ok([])
    else if !(forall k :: 0 <= k < |Stages| ==> Stages[k] in compiled) then
      assert !(forall s :: s in compiled);
      Ok([])
    else
      assert forall s :: s in compiled by {
        forall s ensures s in compiled {
          assert Stages[StageIndex(s)] == s;
        }
      }
      Ok(seq(|Stages|, k requires 0 <= k < |Stages| => StageDispatch(Stages[k], groups.value, sizes, align)))
  }

  /**
   Rounding down: a size that is not a multiple of the workgroup edge leaves
   its last partial workgroup undispatched; twelve texels get one group of
   eight.
   */
  lemma FloorLeavesRemainder(texels: nat)
    ensures GridCount(texels) * WorkgroupSize + texels % WorkgroupSize == texels
    ensures texels % WorkgroupSize != 0 ==> GridCount(texels) * WorkgroupSize < texels
    ensures GridCount(12) == 1
  {
  }
}
