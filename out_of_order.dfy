// Whether the hardware may rasterise primitives out of submission order for a
// draw with the currently bound depth/stencil view, depth/stencil state and
// colour-blend state (GraphicsPipeline::CanDrawPrimsOutOfOrder).
module OutOfOrder {
  import opened Common
  import opened Device

  const MaxColorTargets: nat := 8

  /** The two flags of a bound depth/stencil view the decision reads. */
  datatype DepthStencilView = DepthStencilView(readOnlyDepth: bool, readOnlyStencil: bool)

  /** The flags of a bound depth/stencil state the decision reads. */
  datatype DepthStencilState = DepthStencilState(
    depthWriteEnabled: bool,
    stencilWriteEnabled: bool,
    canDepthRunOutOfOrder: bool,
    canStencilRunOutOfOrder: bool,
    depthForcesOrdering: bool)

  /** Per-target flags of a bound colour-blend state. */
  type TargetFlags = s: seq<bool> | |s| == MaxColorTargets
    witness [false, false, false, false, false, false, false, false]

  datatype ColorBlendState = ColorBlendState(blendEnabled: TargetFlags, blendCommutative: TargetFlags)

  /** Per-target channel write masks of the pipeline. */
  type TargetMasks = s: seq<nat> | |s| == MaxColorTargets
    witness [0, 0, 0, 0, 0, 0, 0, 0]

  /** Everything the decision depends on. */
  datatype DrawState = DrawState(
    dsView: Option<DepthStencilView>,
    dsState: Option<DepthStencilState>,
    blend: Option<ColorBlendState>,
    hasActiveQueries: u32,
    mode: OutOfOrderPrimMode,
    psWritesUavs: bool,
    targetMask: TargetMasks)

  /** Depth or stencil writes happen: a view is bound that is not read-only and the state writes. */
  predicate DepthStencilWriteEnabled(view: Option<DepthStencilView>, st: DepthStencilState)
  {
    view.Some? &&
    ((!view.value.readOnlyDepth && st.depthWriteEnabled) ||
     (!view.value.readOnlyStencil && st.stencilWriteEnabled))
  }

  /**
   * Depth/stencil results do not depend on primitive order.  Under the safe
   * policy with queries active only the absence of writes is accepted.
   */
  predicate DepthStencilOrderFree(d: DrawState)
    requires d.dsState.Some?
  {
    var writes := DepthStencilWriteEnabled(d.dsView, d.dsState.value);
    if d.mode == OutOfOrderPrimSafe && d.hasActiveQueries != 0 then !writes
    else !writes || (d.dsState.value.canDepthRunOutOfOrder && d.dsState.value.canStencilRunOutOfOrder)
  }

  /** The colour target results do not depend on primitive order (blending left aside). */
  predicate RenderTargetOrderFree(d: DrawState)
    requires d.dsState.Some?
  {
    d.mode == OutOfOrderPrimAggressive && d.dsState.value.depthForcesOrdering
  }

  /** Target `i` is written and its blending forbids out-of-order primitives. */
  predicate TargetForbids(d: DrawState, i: nat)
    requires d.dsState.Some? && d.blend.Some? && i < MaxColorTargets
  {
    var canBlend := d.blend.value.blendCommutative[i] && d.mode == OutOfOrderPrimAggressive;
    d.targetMask[i] > 0 &&
    (d.blend.value.blendEnabled[i] || !RenderTargetOrderFree(d)) &&
    (!canBlend || DepthStencilWriteEnabled(d.dsView, d.dsState.value))
  }

  /** The declarative statement of when out-of-order primitives are allowed. */
  predicate OutOfOrderAllowed(d: DrawState)
  {
    match d.mode
    case OutOfOrderPrimDisable => false
    case OutOfOrderPrimAlways => true
    case _ =>
      !d.psWritesUavs && d.dsState.Some? && d.dsView.Some? && DepthStencilOrderFree(d) &&
      (if d.blend.Some? then (forall i :: 0 <= i < MaxColorTargets ==> !TargetForbids(d, i))
       else RenderTargetOrderFree(d))
  }

  /**
   * The decision as the source computes it: the safe/aggressive checks in
   * order, then a scan of the colour targets that stops at the first one whose
   * blending forbids reordering.
   */
  method CanDrawPrimsOutOfOrder(d: DrawState) returns (enable: bool)
    ensures enable == OutOfOrderAllowed(d)
  {
    enable := true;
    if d.mode == OutOfOrderPrimSafe || d.mode == OutOfOrderPrimAggressive {
      if d.psWritesUavs || d.dsState.None? {
        enable := false;
      } else {
        var st := d.dsState.value;
        var dsWrite := false;
        if d.dsView.Some? {
          var depthWrite := !d.dsView.value.readOnlyDepth && st.depthWriteEnabled;
          var stencilWrite := !d.dsView.value.readOnlyStencil && st.stencilWriteEnabled;
          dsWrite := depthWrite || stencilWrite;
        }
        var canDs := false;
        if d.mode == OutOfOrderPrimSafe && d.hasActiveQueries != 0 {
          canDs := !dsWrite;
        } else {
          canDs := !dsWrite || (st.canDepthRunOutOfOrder && st.canStencilRunOutOfOrder);
        }
        if !canDs || d.dsView.None? {
          enable := false;
        } else {
          var canRt := d.mode == OutOfOrderPrimAggressive && st.depthForcesOrdering;
          if d.blend.Some? {
            var i := 0;
            while i < MaxColorTargets
              invariant 0 <= i <= MaxColorTargets
              invariant enable
              invariant forall j :: 0 <= j < i ==> !TargetForbids(d, j)
            {
              if d.targetMask[i] > 0 {
                var canBlend := d.blend.value.blendCommutative[i] && d.mode == OutOfOrderPrimAggressive;
                if (d.blend.value.blendEnabled[i] || !canRt) && (!canBlend || dsWrite) {
                  assert TargetForbids(d, i);
                  enable := false;
                  break;
                }
              }
              i := i + 1;
            }
          } else {
            enable := canRt;
          }
        }
      }
    } else if d.mode != OutOfOrderPrimAlways {
      enable := false;
    }
  }

  // ---- Properties of the policy ----

  /** The Disable policy never allows reordering. */
  lemma DisableNeverAllows(d: DrawState)
    requires d.mode == OutOfOrderPrimDisable
    ensures !OutOfOrderAllowed(d)
  {
  }

  /** The Always policy allows reordering whatever is bound, even when the pixel shader writes UAVs. */
  lemma AlwaysAllows(d: DrawState)
    requires d.mode == OutOfOrderPrimAlways
    ensures OutOfOrderAllowed(d)
  {
  }

  /**
   * Under Safe or Aggressive, UAV writes, a missing depth/stencil state or
   * view, or depth/stencil writes that cannot run out of order each rule
   * reordering out.
   */
  lemma SafeOrAggressiveRequirements(d: DrawState)
    requires d.mode == OutOfOrderPrimSafe || d.mode == OutOfOrderPrimAggressive
    requires OutOfOrderAllowed(d)
    ensures !d.psWritesUavs
    ensures d.dsState.Some? && d.dsView.Some?
    ensures DepthStencilWriteEnabled(d.dsView, d.dsState.value) ==>
              d.dsState.value.canDepthRunOutOfOrder && d.dsState.value.canStencilRunOutOfOrder
    ensures d.mode == OutOfOrderPrimSafe && d.hasActiveQueries != 0 ==>
              !DepthStencilWriteEnabled(d.dsView, d.dsState.value)
  {
  }

  /**
   * The safe policy never reorders a draw whose colour output could change:
   * without a blend state it never allows reordering, and with one it allows
   * it only when no colour target is written.
   */
  lemma SafeAllowsOnlyWithoutColorWrites(d: DrawState)
    requires d.mode == OutOfOrderPrimSafe && OutOfOrderAllowed(d)
    ensures d.blend.Some?
    ensures forall i :: 0 <= i < MaxColorTargets ==> d.targetMask[i] == 0
  {
    forall i | 0 <= i < MaxColorTargets
      ensures d.targetMask[i] == 0
    {
      assert !TargetForbids(d, i);
    }
  }

  /** Whatever the safe policy allows, the aggressive policy allows too. */
  lemma SafeImpliesAggressive(d: DrawState)
    requires d.mode == OutOfOrderPrimSafe && OutOfOrderAllowed(d)
    ensures OutOfOrderAllowed(d.(mode := OutOfOrderPrimAggressive))
  {
    SafeAllowsOnlyWithoutColorWrites(d);
    var a := d.(mode := OutOfOrderPrimAggressive);
    forall i | 0 <= i < MaxColorTargets
      ensures !TargetForbids(a, i)
    {
    }
  }
}
