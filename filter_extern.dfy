/**
  The two callbacks the binding registers with the engine for every filter
  type (`FilterExtern` in node.rs): the activation callback, which runs the
  user's `get_frame` and translates its outcome, and the teardown callback,
  which reclaims the boxed instance and runs the user's `free`.
 */
module FilterExtern {
  import opened Vs
  import opened Wrappers
  import opened Filters
  import opened Engine

  /**
    `filter_get_frame`.  `getFrame` stands for the user's `get_frame`, run on
    the instance with the same frame number, activation reason and
    `frame_data` slot (given by its current value); what it did through the
    slot and the frame context it was handed is applied first.  Then a frame
    that was produced is returned as it is, without a release: its reference
    passes to the engine.  Otherwise an error or panic text is recorded on the
    context, after any error the user set there.
   */
  method FilterGetFrame(
    n: i32,
    reason: VSActivationReason,
    instance: FilterInstance,
    frameData: FrameDataSlot,
    ctx: FrameContext,
    getFrame: (FilterInstance, i32, VSActivationReason, nat) -> UserActivation)
    returns (frame: Option<Frame>)
    requires getFrame(instance, n, reason, frameData.data).outcome.Panicked? ==>
      getFrame(instance, n, reason, frameData.data).outcome.payload.StrPayload?
    modifies frameData, ctx
    ensures frame == ActivationReplyOf(getFrame(instance, n, reason, old(frameData.data)).outcome).frame
    ensures frameData.data == getFrame(instance, n, reason, old(frameData.data)).storedData.GetOr(old(frameData.data))
    ensures ctx.filterError ==
      (if ActivationReplyOf(getFrame(instance, n, reason, old(frameData.data)).outcome).error.Some?
       then ActivationReplyOf(getFrame(instance, n, reason, old(frameData.data)).outcome).error
       else if getFrame(instance, n, reason, old(frameData.data)).contextError.Some?
       then getFrame(instance, n, reason, old(frameData.data)).contextError
       else old(ctx.filterError))
  {
    var user := getFrame(instance, n, reason, frameData.data);
    if user.storedData.Some? {
      frameData.data := user.storedData.value;
    }
    if user.contextError.Some? {
      ctx.SetFilterError(user.contextError.value);
    }
    match user.outcome {
      case Returned(Ok(Some(f))) =>
        return Some(f);
      case Returned(Err(e)) =>
        ctx.SetFilterError(e);
      case Panicked(p) =>
        ctx.SetFilterError(p.text);
      case Returned(Ok(None)) =>
    }
    frame := None;
  }

  /**
    `filter_free`: reclaims the instance of the filter at `node` and passes
    it to the user's `free`.  The instance must not have been reclaimed
    before; afterwards it is no longer live, so it cannot be reclaimed twice.
   */
  method FilterFree(node: nat, core: VsCore)
    requires node < |core.filters| && core.filters[node].live
    requires core.Valid()
    modifies core
    ensures core.Valid()
    ensures core.filters == old(core.filters)[node := old(core.filters)[node].(live := false)]
    ensures core.freed == old(core.freed) + [old(core.filters)[node].instance]
    ensures core.info == old(core.info) && core.calls == old(core.calls)
  {
    var f := core.filters[node];
    core.filters := core.filters[node := f.(live := false)];
    core.freed := core.freed + [f.instance];
  }
}
