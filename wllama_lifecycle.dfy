/**
 * The server-side holder of the single inference-runtime instance: a
 * module-level nullable handle that `InitializeWllama` sets, that
 * `RunCompletion` and `ExitWllama` refuse to use while it is null, and that a
 * successful `ExitWllama` clears. Each asynchronous operation is modelled by
 * the way its promise settles.
 */
module WllamaLifecycle {
  import opened Wrappers
  import opened WllamaTypes

  /** Why an operation's promise is rejected. */
  datatype Error =
    | NotInitialized  // thrown by the holder itself
    | RuntimeFailure  // a rejection passed on from the runtime
  {
    /** The message the holder throws; the runtime's own messages are not modelled. */
    function Message(): (m: Option<string>)
      ensures m.Some? <==> this == NotInitialized
      ensures m.Some? ==> m.value == "Wllama is not initialized."
    {
      if NotInitialized? then Some("Wllama is not initialized.") else None
    }
  }

  /** Identifies the caller's token callback, which is passed on and never called here. */
  datatype TokenCallback = TokenCallback(id: nat)

  /** The options object handed to the runtime's completion call. */
  datatype CompletionOptions = CompletionOptions(nPredict: Option<int>, sampling: Option<SamplingConfig>, onNewToken: TokenCallback)

  /** A call made on a runtime instance, with how its promise settled. */
  datatype RuntimeCall =
    | LoadCall(url: string, config: LoadModelConfig, succeeded: bool)
    | CompletionCall(prompt: string, options: CompletionOptions, result: Result<string, Error>)
    | ExitCall(succeeded: bool)

  /**
   * A runtime instance. Its behaviour is foreign: each method settles in a
   * way the model leaves open and records the call together with that
   * settlement.
   */
  class Wllama {
    ghost var calls: seq<RuntimeCall>

    constructor ()
      ensures calls == []
    {
      calls := [];
    }

    method LoadModelFromUrl(url: string, config: LoadModelConfig) returns (ok: bool)
      modifies this
      ensures calls == old(calls) + [LoadCall(url, config, ok)]
    {
      ok :| true;
      calls := calls + [LoadCall(url, config, ok)];
    }

    method CreateCompletion(prompt: string, options: CompletionOptions) returns (r: Result<string, Error>)
      modifies this
      ensures calls == old(calls) + [CompletionCall(prompt, options, r)]
      ensures r.Failure? ==> r.error == RuntimeFailure
    {
      var ok: bool :| true;
      var text: string :| true;
      r := if ok then Success(text) else Failure(RuntimeFailure);
      calls := calls + [CompletionCall(prompt, options, r)];
    }

    method Exit() returns (ok: bool)
      modifies this
      ensures calls == old(calls) + [ExitCall(ok)]
    {
      ok :| true;
      calls := calls + [ExitCall(ok)];
    }
  }

  /** Whether the handle holds an instance. */
  datatype Phase = NoInstance | HasInstance

  /** One operation on the holder, with the way the runtime call it makes settles. */
  datatype Operation =
    | Initialize(constructed: bool, loadSucceeds: bool)
    | Complete(runtimeSucceeds: bool)
    | ExitRuntime(exitSucceeds: bool)

  /** The phase after an operation and how the operation's promise settles. */
  datatype Transition = Transition(next: Phase, outcome: Outcome<Error>)

  /**
   * The holder as a two-state machine. Initialisation first imports and
   * constructs the runtime; if that fails the handle is left as it was.
   * Otherwise it installs the instance before loading, so it ends with an
   * instance even when the load fails.
   */
  function Next(phase: Phase, op: Operation): (t: Transition)
    ensures t.outcome == Fail(NotInitialized) <==> phase == NoInstance && !op.Initialize?
    ensures op.Initialize? ==> t.next == (if op.constructed then HasInstance else phase)
    ensures !op.Initialize? ==> (t.next == NoInstance <==> phase == NoInstance || op == ExitRuntime(true))
    ensures t.outcome.Fail? <==>
      match op
      case Initialize(made, ok) => !made || !ok
      case Complete(ok) => phase == NoInstance || !ok
      case ExitRuntime(ok) => phase == NoInstance || !ok
  {
    match op
    case Initialize(made, ok) =>
      if !made then Transition(phase, Fail(RuntimeFailure))
      else Transition(HasInstance, if ok then Pass else Fail(RuntimeFailure))
    case Complete(ok) =>
      if phase == NoInstance then Transition(NoInstance, Fail(NotInitialized))
      else Transition(HasInstance, if ok then Pass else Fail(RuntimeFailure))
    case ExitRuntime(ok) =>
      if phase == NoInstance then Transition(NoInstance, Fail(NotInitialized))
      else if ok then Transition(NoInstance, Pass)
      else Transition(HasInstance, Fail(RuntimeFailure))
  }

  /** The final phase and the outcome of each operation of a run. */
  datatype Trace = Trace(final: Phase, outcomes: seq<Outcome<Error>>)

  /** Applies the operations in order, one outcome per operation. */
  function Run(phase: Phase, ops: seq<Operation>): (t: Trace)
    ensures |t.outcomes| == |ops|
    ensures ops != [] ==> t.outcomes[0] == Next(phase, ops[0]).outcome
    decreases |ops|
  {
    if ops == [] then Trace(phase, [])
    else
      var first := Next(phase, ops[0]);
      var rest := Run(first.next, ops[1..]);
      Trace(rest.final, [first.outcome] + rest.outcomes)
  }

  /** An operation that leaves no instance behind when started without one. */
  predicate InstallsNothing(op: Operation) {
    !(op.Initialize? && op.constructed)
  }

  /**
   * Until an initialisation constructs an instance, there is no instance, and
   * every completion and every exit fails as "not initialized".
   */
  lemma {:induction false} FailsUntilInitialized(ops: seq<Operation>)
    requires forall i :: 0 <= i < |ops| ==> InstallsNothing(ops[i])
    ensures Run(NoInstance, ops).final == NoInstance
    ensures forall i :: 0 <= i < |ops| && !ops[i].Initialize? ==> Run(NoInstance, ops).outcomes[i] == Fail(NotInitialized)
    decreases |ops|
  {
    if ops != [] {
      var rest := ops[1..];
      assert forall i :: 0 <= i < |rest| ==> rest[i] == ops[i + 1];
      FailsUntilInitialized(rest);
      var t := Run(NoInstance, ops);
      assert t.outcomes == [Next(NoInstance, ops[0]).outcome] + Run(NoInstance, rest).outcomes;
    }
  }

  /** After a successful exit, nothing but a new initialisation gets past the guard. */
  lemma {:induction false} ExitedStaysUninitialized(ops: seq<Operation>)
    requires forall i :: 0 <= i < |ops| ==> InstallsNothing(ops[i])
    ensures var t := Run(HasInstance, [ExitRuntime(true)] + ops);
      t.outcomes[0] == Pass && t.final == NoInstance &&
      forall i :: 0 <= i < |ops| && !ops[i].Initialize? ==> t.outcomes[i + 1] == Fail(NotInitialized)
  {
    var all := [ExitRuntime(true)] + ops;
    assert all[1..] == ops;
    FailsUntilInitialized(ops);
    var t := Run(HasInstance, all);
    assert t.outcomes == [Pass] + Run(NoInstance, ops).outcomes;
  }

  /** An initialisation that constructs an instance, whether or not its load succeeds, re-enables both guarded operations. */
  lemma InitializeReopensGuards(phase: Phase, loadSucceeds: bool, op: Operation)
    requires !op.Initialize?
    ensures Next(Next(phase, Initialize(true, loadSucceeds)).next, op).outcome != Fail(NotInitialized)
  {
  }

  /**
   * The module's state: the handle `wllama`, and a log of the import-and-construct
   * steps taken so far, each recorded as whether it yielded an instance.
   */
  class WllamaModule {
    var wllama: Wllama?
    ghost var constructions: seq<bool>

    /** The phase the handle is in. */
    function CurrentPhase(): Phase
      reads this
    {
      if wllama == null then NoInstance else HasInstance
    }

    /** When the module is first loaded no instance exists. */
    constructor ()
      ensures wllama == null && CurrentPhase() == NoInstance
      ensures constructions == []
    {
      wllama := null;
      constructions := [];
    }

    /**
     * The dynamic import of the runtime's module followed by `new Wllama(...)`:
     * foreign steps that either yield a new instance with no calls made on
     * it or reject (`null`).
     */
    method ImportAndConstruct() returns (instance: Wllama?)
      modifies this`constructions
      ensures instance != null ==> fresh(instance) && instance.calls == []
      ensures constructions == old(constructions) + [instance != null]
    {
      var ok: bool :| true;
      if ok {
        instance := new Wllama();
      } else {
        instance := null;
      }
      constructions := constructions + [instance != null];
    }

    /**
     * Imports and constructs the runtime once; if that rejects, the handle
     * is left as it was. Otherwise installs the new instance, replacing any
     * previous one without exiting it, and then loads the model into it,
     * settling as the load does; a missing model configuration is the empty
     * record.
     */
    method InitializeWllama(modelUrl: string, modelConfig: Option<LoadModelConfig>) returns (r: Outcome<Error>)
      modifies this
      ensures wllama == old(wllama) ==> r == Fail(RuntimeFailure)
      ensures wllama != old(wllama) ==>
        wllama != null && fresh(wllama) &&
        wllama.calls == [LoadCall(modelUrl, modelConfig.GetOr(EmptyLoadModelConfig), r.Pass?)]
      ensures r.Fail? ==> r.error == RuntimeFailure
      ensures old(wllama) != null ==> old(wllama).calls == old(wllama.calls)
      ensures constructions == old(constructions) + [wllama != old(wllama)]
      ensures Transition(CurrentPhase(), r) == Next(old(CurrentPhase()), Initialize(constructions[|constructions| - 1], r.Pass?))
    {
      var instance := ImportAndConstruct();
      if instance == null {
        return Fail(RuntimeFailure);
      }
      wllama := instance;
      var ok := instance.LoadModelFromUrl(modelUrl, modelConfig.GetOr(EmptyLoadModelConfig));
      r := if ok then Pass else Fail(RuntimeFailure);
    }

    /**
     * Fails as "not initialized" without an instance; otherwise hands the
     * prompt and the options on unchanged and settles as the runtime does.
     */
    method RunCompletion(prompt: string, nPredict: Option<int>, sampling: Option<SamplingConfig>, onNewToken: TokenCallback)
      returns (r: Result<string, Error>)
      modifies wllama
      ensures wllama == old(wllama) && constructions == old(constructions)
      ensures old(wllama) == null ==> r == Failure(NotInitialized)
      ensures wllama != null ==>
        wllama.calls == old(wllama.calls) + [CompletionCall(prompt, CompletionOptions(nPredict, sampling, onNewToken), r)] &&
        (r.Failure? ==> r.error == RuntimeFailure)
      ensures Next(old(CurrentPhase()), Complete(r.Success?))
           == Transition(CurrentPhase(), if r.Success? then Pass else Fail(r.error))
    {
      if wllama == null {
        return Failure(NotInitialized);
      }
      r := wllama.CreateCompletion(prompt, CompletionOptions(nPredict, sampling, onNewToken));
    }

    /**
     * Fails as "not initialized" without an instance; otherwise exits the
     * runtime and clears the handle only once the exit has succeeded.
     */
    method ExitWllama() returns (r: Outcome<Error>)
      modifies this, wllama
      ensures constructions == old(constructions)
      ensures old(wllama) == null ==> r == Fail(NotInitialized)
      ensures old(wllama) != null ==> old(wllama).calls == old(wllama.calls) + [ExitCall(r.Pass?)]
      ensures old(wllama) != null && r.Fail? ==> r.error == RuntimeFailure
      ensures wllama == (if r.Pass? then null else old(wllama))
      ensures Transition(CurrentPhase(), r) == Next(old(CurrentPhase()), ExitRuntime(r.Pass?))
    {
      if wllama == null {
        return Fail(NotInitialized);
      }
      var ok := wllama.Exit();
      if ok {
        wllama := null;
        r := Pass;
      } else {
        r := Fail(RuntimeFailure);
      }
    }

    /**
     * An exit, a completion and another exit in a row: once the first exit
     * has succeeded, both later calls fail as "not initialized".
     */
    method ExitThenUse(prompt: string, onNewToken: TokenCallback)
      returns (exited: Outcome<Error>, completion: Result<string, Error>, exitedAgain: Outcome<Error>)
      modifies this, wllama
      ensures exited.Pass? ==> completion == Failure(NotInitialized) && exitedAgain == Fail(NotInitialized)
      ensures exited.Pass? ==> wllama == null && old(wllama) != null && old(wllama).calls == old(wllama.calls) + [ExitCall(true)]
    {
      exited := ExitWllama();
      completion := RunCompletion(prompt, None, None, onNewToken);
      exitedAgain := ExitWllama();
    }
  }
}
