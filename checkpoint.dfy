/**
  The inference-checkpoint conversion of MaxText/convert_checkpoint.py: build a train state
  with step 0, no optimizer and an empty optimizer state (narrowing the parameters on
  request), save it through the checkpoint manager, and on preemption drain the manager's
  outstanding writes before exiting.
*/
module CheckpointConversion {
  import opened Wrappers
  import opened PyTree

  /**
    A flax `TrainState`: the step, the model's apply function `F`, the parameters, the
    optimizer `O` (None for inference) and the optimizer state, itself a pytree.
  */
  datatype TrainState<P, F, O> = TrainState(step: int, applyFn: F, params: Tree<P>, tx: Option<O>, optState: Tree<P>)

  /** The inference state built from a trained state (lines 111-128). */
  function InferenceState<P, F, O>(state: TrainState<P, F, O>, convertInt8: bool, cast: P -> P): TrainState<P, F, O>
  {
    TrainState(0, state.applyFn, if convertInt8 then ToInt8(state.params, cast) else state.params, None, Node([]))
  }

  /**
    Step 0, no optimizer, empty optimizer state, the same apply function; the parameters
    are the original ones, or their narrowing with the same structure, the same parameter
    count and no float32 leaf left.
  */
  lemma InferenceStateProperties<P, F, O>(state: TrainState<P, F, O>, convertInt8: bool, cast: P -> P)
    ensures var r := InferenceState(state, convertInt8, cast);
      && r.step == 0 && r.tx.None? && r.optState == Node([]) && Leaves(r.optState) == []
      && r.applyFn == state.applyFn
      && (!convertInt8 ==> r.params == state.params)
      && (convertInt8 ==> r.params == ToInt8(state.params, cast) && NoFloat32(r.params))
      && SameStructure(state.params, r.params)
      && NumParams(r.params) == NumParams(state.params)
  {
    var r := InferenceState(state, convertInt8, cast);
    assert Concat<(Path, Tensor<P>)>([]) == [];
    if convertInt8 {
      ToInt8NoFloat32(state.params, cast);
      ToInt8PreservesStructure(state.params, cast);
      NumParamsUnchangedByToInt8(state.params, cast);
    } else {
      SameStructureReflexive(state.params);
    }
  }

  lemma {:induction false} SameStructureReflexive<P>(t: Tree<P>)
    ensures SameStructure(t, t)
  {
    match t
    case Leaf(_) =>
    case Node(cs) =>
      forall i | 0 <= i < |cs| ensures SameStructure(cs[i].1, cs[i].1) {
        SameStructureReflexive(cs[i].1);
      }
  }

  /** The calls a caller makes on a checkpoint manager, as recorded in its trace. */
  datatype Call = SaveCall(step: int) | PreemptionQuery(step: int) | WaitCall

  /**
    An Orbax checkpoint manager seen through its three-call interface. `save` writes a state
    when the backend's policy accepts the step, durably at once when the manager was made
    synchronous and as an outstanding write when it was made asynchronous;
    `reached_preemption` reports the host's termination signal; `wait_until_finished` makes
    every outstanding write durable.
  */
  class CheckpointManager<S> {
    /** The backend's save policy: whether a save at this step is written. */
    const acceptsStep: int -> bool
    /** `async_checkpointing`: whether an accepted save returns before it is durable. */
    const asyncWrites: bool
    /** Whether the host environment has signalled imminent termination. */
    var preemptionSignaled: bool
    /** Saves dispatched but not yet durable, by step. */
    var inFlight: map<int, S>
    /** Durable checkpoints, by step. */
    var committed: map<int, S>
    /** Every call made on this manager, in order. */
    ghost var calls: seq<Call>

    /**
      `create_orbax_checkpoint_manager(dir, enable, async, period)` with checkpointing
      enabled: `existing` are the checkpoints already durable in the directory.
    */
    constructor (acceptsStep: int -> bool, asyncWrites: bool, existing: map<int, S>, preemptionSignaled: bool)
      ensures this.acceptsStep == acceptsStep && this.asyncWrites == asyncWrites
      ensures this.preemptionSignaled == preemptionSignaled
      ensures committed == existing && inFlight == map[] && calls == []
      ensures Valid()
    {
      this.acceptsStep := acceptsStep;
      this.asyncWrites := asyncWrites;
      this.preemptionSignaled := preemptionSignaled;
      inFlight := map[];
      committed := existing;
      calls := [];
    }

    /** A synchronous manager never has an outstanding write. */
    predicate Valid()
      reads this
    {
      asyncWrites || inFlight == map[]
    }

    /** Everything saved so far, durable or not: a later in-flight write supersedes. */
    function Saved(): map<int, S>
      reads this
    {
      committed + inFlight
    }

    /** `save(step, state)`: true iff a new checkpoint write was started at this step. */
    method Save(step: int, state: S) returns (saved: bool)
      requires Valid()
      modifies this
      ensures Valid()
      ensures saved == acceptsStep(step)
      ensures inFlight == if saved && asyncWrites then old(inFlight)[step := state] else old(inFlight)
      ensures committed == if saved && !asyncWrites then old(committed)[step := state] else old(committed)
      ensures Saved() == if saved then old(Saved())[step := state] else old(Saved())
      ensures preemptionSignaled == old(preemptionSignaled)
      ensures calls == old(calls) + [SaveCall(step)]
    {
      saved := acceptsStep(step);
      if saved {
        if asyncWrites {
          inFlight := inFlight[step := state];
        } else {
          committed := committed[step := state];
        }
      }
      calls := calls + [SaveCall(step)];
    }

    /** `reached_preemption(step)`: the host's termination signal. */
    method ReachedPreemption(step: int) returns (reached: bool)
      modifies this
      ensures reached == preemptionSignaled
      ensures inFlight == old(inFlight) && committed == old(committed) && preemptionSignaled == old(preemptionSignaled)
      ensures Valid() == old(Valid())
      ensures calls == old(calls) + [PreemptionQuery(step)]
    {
      reached := preemptionSignaled;
      calls := calls + [PreemptionQuery(step)];
    }

    /** `wait_until_finished()`: every outstanding write becomes durable. */
    method WaitUntilFinished()
      modifies this
      ensures inFlight == map[] && committed == old(committed) + old(inFlight)
      ensures Saved() == old(Saved()) && Valid()
      ensures preemptionSignaled == old(preemptionSignaled)
      ensures calls == old(calls) + [WaitCall]
    {
      committed := committed + inFlight;
      inFlight := map[];
      calls := calls + [WaitCall];
    }
  }

  /** How a run of `convert_checkpoint` ends. */
  datatype ConversionOutcome<S> =
    | Returned(state: S)   // the function returns the inference state
    | Exited               // `sys.exit()` after draining, on preemption
    | ParamCountFailed     // the parameter count raised: the tree has no leaves

  /**
    One run of `convert_checkpoint` on an already set-up `state` (lines 108-139); a null
    manager stands for checkpointing being disabled.
  */
  method ConvertCheckpoint<P, F, O>(
    manager: CheckpointManager?<TrainState<P, F, O>>, state: TrainState<P, F, O>, convertInt8: bool, cast: P -> P)
    returns (outcome: ConversionOutcome<TrainState<P, F, O>>)
    requires manager != null ==> manager.Valid()
    modifies manager
    ensures manager != null ==> manager.Valid()
    ensures Leaves(state.params) == [] ==> outcome == ParamCountFailed
    ensures Leaves(state.params) != [] && manager == null ==>
      outcome == Returned(InferenceState(state, convertInt8, cast))
    ensures manager != null ==> manager.preemptionSignaled == old(manager.preemptionSignaled)
    ensures manager != null && Leaves(state.params) == [] ==>
      && manager.calls == old(manager.calls) && manager.Saved() == old(manager.Saved())
      && manager.committed == old(manager.committed) && manager.inFlight == old(manager.inFlight)
    ensures manager != null && Leaves(state.params) != [] ==>
      manager.calls == old(manager.calls) + [SaveCall(0), PreemptionQuery(0)]
                       + (if manager.preemptionSignaled then [WaitCall] else [])
    ensures manager != null ==> DrainsAfterPreemption(manager.calls[|old(manager.calls)|..], manager.preemptionSignaled)
    ensures manager != null && Leaves(state.params) != [] ==>
      manager.Saved() == (if manager.acceptsStep(0) then old(manager.Saved())[0 := InferenceState(state, convertInt8, cast)]
                          else old(manager.Saved()))
    ensures manager != null && Leaves(state.params) != [] ==>
      && (outcome == Exited <==> manager.preemptionSignaled)
      && (outcome == Exited ==> manager.inFlight == map[])
      && (outcome != Exited ==> outcome == Returned(InferenceState(state, convertInt8, cast)))
    ensures manager != null && outcome.Returned? ==>
      && manager.committed == (if manager.acceptsStep(0) && !manager.asyncWrites
                               then old(manager.committed)[0 := InferenceState(state, convertInt8, cast)]
                               else old(manager.committed))
      && manager.inFlight == (if manager.acceptsStep(0) && manager.asyncWrites
                              then old(manager.inFlight)[0 := InferenceState(state, convertInt8, cast)]
                              else old(manager.inFlight))
    ensures manager != null && outcome == Exited ==>
      manager.committed == (if manager.acceptsStep(0) then old(manager.Saved())[0 := InferenceState(state, convertInt8, cast)]
                            else old(manager.Saved()))
  {
    var numModelParameters := NumParams(state.params);
    NumParamsIsTotalSize(state.params);
    if numModelParameters.None? {
      return ParamCountFailed;
    }
    var step := 0;
    var inferenceState;
    if convertInt8 {
      inferenceState := TrainState(step, state.applyFn, ToInt8(state.params, cast), None, Node([]));
    } else {
      inferenceState := TrainState(step, state.applyFn, state.params, None, Node([]));
    }
    if manager != null {
      var saved := manager.Save(step, inferenceState);
      var preempted := manager.ReachedPreemption(step);
      if preempted {
        manager.WaitUntilFinished();
        return Exited;
      }
    }
    return Returned(inferenceState);
  }

  /** A call trace in which every preemption report is followed directly by a drain. */
  ghost predicate DrainsAfterPreemption(calls: seq<Call>, signaled: bool)
  {
    forall i :: 0 <= i < |calls| && calls[i].PreemptionQuery? && signaled ==>
      i + 1 < |calls| && calls[i + 1] == WaitCall
  }
}
