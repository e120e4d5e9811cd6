/**
 The retry bounds inside the protocol: in an orderly run, the executions that the history records for one
 flow, from its creation for as long as its resource keeps it, are those that `RetryBound` counts.
 */
module RetryRuns {
  import opened Common
  import opened TaskManagement
  import opened TaskFlow
  import opened Protocol
  import opened RetryBound
  import OrderlyRuns

  ghost function Attempts(w: World, key: ResourceKey): set<TaskId> {
    set id | id in w.history && w.history[id].owner == key
  }

  predicate HasContext(w: World, key: ResourceKey) {
    key in w.objects && w.objects[key] != [] && Current(w, key).tracked.Some?
  }

  function ContextOf(w: World, key: ResourceKey): ContextView
    requires HasContext(w, key)
  {
    Current(w, key).tracked.value.context
  }

  /** The resource keeps its context all along. */
  ghost predicate Retained(w: World, steps: seq<Step>, key: ResourceKey)
    decreases |steps|
  {
    HasContext(w, key) && (steps == [] || (Enabled(w, steps[0]) && Retained(Apply(w, steps[0]), steps[1..], key)))
  }

  /** All reconciles of the resource run under one manager; only its deletion may set in between. */
  predicate OneManager(g: Config, key: ResourceKey, step: Step) {
    step.Reconcile? && step.key == key ==> step.config.(deleting := g.deleting) == g
  }

  ghost predicate AllOneManager(g: Config, key: ResourceKey, steps: seq<Step>) {
    forall i :: 0 <= i < |steps| ==> OneManager(g, key, steps[i])
  }

  /** What the reconcile of flow `c` meets, in the terms of `RetryBound`. */
  function InputOf(w: World, v: Version, c: ContextView, step: Step): Input
    requires step.Reconcile?
  {
    Input(v.status, step.config.deleting, step.request.resolves, step.request.newId, PollOf(w.manager, c.taskId))
  }

  /** A reconcile of flow `c` that stores a context advances the flow, and records what it submitted. */
  lemma {:induction false} ReconcileAdvances(g: Config, w: World, step: Step, c: ContextView, s: Run)
    requires ManagerHonest(w) && step.Reconcile? && Enabled(w, step) && OneManager(g, step.key, step)
    requires OrderlyRuns.Orderly(w, step) && s.live && s.context == c && !step.request.paused
    requires FlowOf(StoredOf(Current(w, step.key)), step.request) == Some(c) && Current(w, step.key).status != ""
    requires HasContext(Apply(w, step), step.key)
    ensures var s' := Advance(g, s, InputOf(w, Current(w, step.key), c, step));
      && Plausible(InputOf(w, Current(w, step.key), c, step))
      && s'.live && s'.context == ContextOf(Apply(w, step), step.key)
      && |Attempts(Apply(w, step), step.key)| == |Attempts(w, step.key)| + (s'.submitted - s.submitted)
  {
    PollHonest(w, c.taskId);
    SameConfig(g, step);
    StoresItsExecution(w, step, c);
    RecordsItsSubmission(w, step, c);
  }

  lemma {:induction false} SameConfig(g: Config, step: Step)
    requires step.Reconcile? && OneManager(g, step.key, step)
    ensures g.(deleting := step.config.deleting) == step.config
  {
  }

  function ExecutionOf(w: World, step: Step, c: ContextView): Execution
    requires step.Reconcile? && step.key in w.objects && w.objects[step.key] != []
  {
    Execute(step.config, Current(w, step.key).status, c, step.request.resolves, step.request.newId,
      PollOf(w.manager, c.taskId))
  }

  lemma {:induction false} StoresItsExecution(w: World, step: Step, c: ContextView)
    requires step.Reconcile? && Enabled(w, step) && OrderlyRuns.Orderly(w, step) && !step.request.paused
    requires FlowOf(StoredOf(Current(w, step.key)), step.request) == Some(c) && Current(w, step.key).status != ""
    requires HasContext(Apply(w, step), step.key)
    ensures ExecutionOf(w, step, c).retained && ContextOf(Apply(w, step), step.key) == ExecutionOf(w, step, c).flow
  {
  }

  lemma {:induction false} RecordsItsSubmission(w: World, step: Step, c: ContextView)
    requires step.Reconcile? && Enabled(w, step) && OrderlyRuns.Orderly(w, step) && !step.request.paused
    requires FlowOf(StoredOf(Current(w, step.key)), step.request) == Some(c) && Current(w, step.key).status != ""
    ensures |Attempts(Apply(w, step), step.key)| ==
      |Attempts(w, step.key)| + (if ExecutionOf(w, step, c).effect.Submitting? then 1 else 0)
  {
    HistoryAfter(w, step, c);
    AttemptsGrow(w, Apply(w, step), step.key, step.request.newId, ExecutionOf(w, step, c).effect.Submitting?);
  }

  lemma {:induction false} HistoryAfter(w: World, step: Step, c: ContextView)
    requires step.Reconcile? && Enabled(w, step) && OrderlyRuns.Orderly(w, step) && !step.request.paused
    requires FlowOf(StoredOf(Current(w, step.key)), step.request) == Some(c) && Current(w, step.key).status != ""
    ensures var w', id := Apply(w, step), step.request.newId;
      if ExecutionOf(w, step, c).effect.Submitting? then
        id in w'.history && w'.history[id].owner == step.key && w'.history == w.history[id := w'.history[id]]
      else w'.history == w.history
  {
  }

  lemma {:induction false} AttemptsGrow(w: World, w': World, key: ResourceKey, id: TaskId, submits: bool)
    requires id !in w.history
    requires if submits then id in w'.history && w'.history[id].owner == key
      && w'.history == w.history[id := w'.history[id]]
             else w'.history == w.history
    ensures |Attempts(w', key)| == |Attempts(w, key)| + (if submits then 1 else 0)
  {
    assert Attempts(w', key) == Attempts(w, key) + (if submits then {id} else {});
  }

  /** Every other step leaves the flow and the executions of the resource alone. */
  lemma {:induction false} OtherStepsKeep(w: World, step: Step, key: ResourceKey)
    requires Enabled(w, step) && OrderlyRuns.Orderly(w, step) && HasContext(w, key)
    requires step.Reconcile? && step.key == key ==> step.request.paused && Current(w, key).status != ""
    requires HasContext(Apply(w, step), key)
    ensures ContextOf(Apply(w, step), key) == ContextOf(w, key)
    ensures Attempts(Apply(w, step), key) == Attempts(w, key)
  {
  }

  /** The flow of `key` stands where the run `s` stands. */
  ghost predicate Tracks(w: World, o: set<TaskId>, key: ResourceKey, s: Run) {
    OrderlyRuns.Tidy(w, o) && HasContext(w, key) && s.live && s.context == ContextOf(w, key)
  }

  /** A reconcile of the resource that finds the task's function and, while its task runs, the result. */
  predicate Prompts(w: World, key: ResourceKey, step: Step) {
    && HasContext(w, key) && step.Reconcile? && step.key == key && !step.request.paused
    && step.request.resolves && PollOf(w.manager, ContextOf(w, key).taskId) != NotReady
  }

  ghost function CountPrompts(w: World, steps: seq<Step>, key: ResourceKey): nat
    decreases |steps|
  {
    if steps == [] || !Enabled(w, steps[0]) then 0
    else (if Prompts(w, key, steps[0]) then 1 else 0) + CountPrompts(Apply(w, steps[0]), steps[1..], key)
  }

  /** One step advances the run by at most one input. */
  lemma {:induction false} StepAdvances(g: Config, w: World, o: set<TaskId>, step: Step, key: ResourceKey, s: Run)
    returns (i: Option<Input>)
    requires Tracks(w, o, key, s) && Enabled(w, step) && OrderlyRuns.Orderly(w, step) && OneManager(g, key, step)
    requires HasContext(Apply(w, step), key)
    ensures i.Some? ==> Plausible(i.value)
    ensures Prompts(w, key, step) ==> i.Some? && Prompt(i.value)
    ensures var s' := if i.Some? then Advance(g, s, i.value) else s;
      && s'.live && s'.context == ContextOf(Apply(w, step), key)
      && |Attempts(Apply(w, step), key)| == |Attempts(w, key)| + (s'.submitted - s.submitted)
  {
    assert OrderlyRuns.KeyTidy(w, o, key, Current(w, key));
    if step.Reconcile? && step.key == key && !step.request.paused {
      ReconcileAdvances(g, w, step, s.context, s);
      i := Some(InputOf(w, Current(w, key), s.context, step));
    } else {
      OtherStepsKeep(w, step, key);
      i := None;
    }
  }

  /** The inputs take the run from `w` to `end`: the same executions, at least as many prompt inputs, still live. */
  ghost predicate Carries(g: Config, made: int, prompts: nat, s: Run, inputs: seq<Input>) {
    && (forall i :: i in inputs ==> Plausible(i))
    && made == AdvanceAll(g, s, inputs).submitted - s.submitted
    && prompts <= CountPrompt(inputs) && AdvanceAll(g, s, inputs).live
  }

  lemma {:induction false} CarriesNext(
    g: Config, made: int, prompts: nat, s: Run, i: Input, inputs: seq<Input>, first: bool)
    requires Carries(g, made, prompts, Advance(g, s, i), inputs) && Plausible(i) && (first ==> Prompt(i))
    ensures Carries(g, made + (Advance(g, s, i).submitted - s.submitted), prompts + (if first then 1 else 0), s,
                    [i] + inputs)
  {
    assert ([i] + inputs)[1..] == inputs;
  }

  ghost function Made(w: World, end: World, key: ResourceKey): int {
    |Attempts(end, key)| - |Attempts(w, key)|
  }

  lemma {:induction false} RetainedAdvances(
    g: Config, w: World, o: set<TaskId>, steps: seq<Step>, end: World, key: ResourceKey, s: Run)
    returns (inputs: seq<Input>)
    requires Tracks(w, o, key, s) && Runs(w, steps, end) && OrderlyRuns.AllOrderly(w, steps)
    requires AllOneManager(g, key, steps) && Retained(w, steps, key)
    ensures Carries(g, Made(w, end, key), CountPrompts(w, steps, key), s, inputs)
    decreases |steps|
  {
    if steps == [] {
      return [];
    }
    var step, w' := steps[0], Apply(w, steps[0]);
    assert OneManager(g, key, step);
    OrderlyRuns.StepStaysTidy(w, o, step);
    var i := StepAdvances(g, w, o, step, key, s);
    var s' := if i.Some? then Advance(g, s, i.value) else s;
    inputs := RetainedAdvances(g, w', o + OrderlyRuns.Orphaned(w, step), steps[1..], end, key, s');
    if i.Some? {
      CarriesNext(g, Made(w', end, key), CountPrompts(w', steps[1..], key), s, i.value, inputs, Prompts(w, key, step));
      inputs := [i.value] + inputs;
    }
  }

  /** An orderly run whose first step creates a flow for its resource. */
  ghost predicate Creates(g: Config, w: World, steps: seq<Step>, end: World) {
    && steps != [] && Runs(w, steps, end) && OrderlyRuns.AllOrderly(w, steps)
    && steps[0].Reconcile? && steps[0].request.choice.NewFlow? && !steps[0].request.paused
    && w.objects[steps[0].key] != []
    && Current(w, steps[0].key).tracked.None? && Current(w, steps[0].key).status != ""
    && AllOneManager(g, steps[0].key, steps)
  }

  /** The resource has kept the flow ever since. */
  ghost predicate KeepsFlow(w: World, steps: seq<Step>)
    requires steps != [] && steps[0].Reconcile? && Enabled(w, steps[0])
  {
    Retained(Apply(w, steps[0]), steps[1..], steps[0].key)
  }

  /** The flow created by the first step, and the prompt reconciles of it after that step. */
  ghost function Prompted(w: World, steps: seq<Step>): nat
    requires steps != [] && steps[0].Reconcile? && Enabled(w, steps[0])
  {
    CountPrompts(Apply(w, steps[0]), steps[1..], steps[0].key)
  }

  lemma {:induction false} CreatedAdvances(g: Config, w: World, o: set<TaskId>, steps: seq<Step>, end: World)
    returns (inputs: seq<Input>)
    requires OrderlyRuns.Tidy(w, o) && Creates(g, w, steps, end) && KeepsFlow(w, steps)
    ensures FreshFlow(steps[0].request.choice.context)
    ensures Carries(g, Made(w, end, steps[0].key), Prompted(w, steps), Begin(steps[0].request.choice.context), inputs)
  {
    var step, c := steps[0], steps[0].request.choice.context;
    OrderlyRuns.StepStaysTidy(w, o, step);
    var i := CreationAdvances(g, w, step);
    var w', s' := Apply(w, step), Advance(g, Begin(c), i);
    inputs := RetainedAdvances(g, w', o + OrderlyRuns.Orphaned(w, step), steps[1..], end, step.key, s');
    CarriesNext(g, Made(w', end, step.key), Prompted(w, steps), Begin(c), i, inputs, false);
    inputs := [i] + inputs;
  }

  lemma {:induction false} CreationAdvances(g: Config, w: World, step: Step) returns (i: Input)
    requires Inv(w) && step.Reconcile? && Enabled(w, step) && OrderlyRuns.Orderly(w, step)
    requires OneManager(g, step.key, step)
    requires step.request.choice.NewFlow? && !step.request.paused && HasContext(Apply(w, step), step.key)
    requires Current(w, step.key).tracked.None? && Current(w, step.key).status != ""
    ensures Plausible(i)
    ensures var s, w' := Begin(step.request.choice.context), Apply(w, step);
      && Advance(g, s, i).live && Advance(g, s, i).context == ContextOf(w', step.key)
      && Made(w, w', step.key) == Advance(g, s, i).submitted
  {
    var c := step.request.choice.context;
    ReconcileAdvances(g, w, step, c, Begin(c));
    i := InputOf(w, Current(w, step.key), c, step);
  }

  // ---------------------------------------------------------------- main results

  /**
   From the reconcile that creates a flow of n tasks with retry limit m, for as long as the resource keeps it,
   an orderly run puts at most n + m + 1 executions of the resource into the history when retrying from the
   current task, and at most n * (m + 2), over all passes, when starting over in place.
   */
  lemma {:induction false} AttemptsAreBounded(
    g: Config, poolSize: nat, before: seq<Step>, w: World, steps: seq<Step>, end: World)
    requires Runs(Start(poolSize), before, w) && OrderlyRuns.AllOrderly(Start(poolSize), before)
    requires Creates(g, w, steps, end) && KeepsFlow(w, steps) && Limited(steps[0].request.choice.context.onFailure)
    ensures var key, c := steps[0].key, steps[0].request.choice.context;
      var n, m1 := |c.tasks|, Retries(g, c.onFailure);
      && (c.onFailure.strategy.RetryFromCurrent? ==> Made(w, end, key) <= n + m1)
      && (c.onFailure.strategy.StartOver? ==> Made(w, end, key) <= n * (m1 + 1))
  {
    OrderlyRuns.OrderlyRunIsTidy(poolSize, before, w);
    var inputs := CreatedAdvances(g, w, OrderlyRuns.Orphans(Start(poolSize), before), steps, end);
    RetriesAreBounded(g, steps[0].request.choice.context, inputs);
  }

  /**
   Every flow ends: after (m + 2) * (3n + 2) prompt reconciles of its resource in an orderly run, whatever the
   results are, the resource has not kept it.
   */
  lemma {:induction false} ContextIsLetGo(
    g: Config, poolSize: nat, before: seq<Step>, w: World, steps: seq<Step>, end: World)
    requires Runs(Start(poolSize), before, w) && OrderlyRuns.AllOrderly(Start(poolSize), before)
    requires Creates(g, w, steps, end) && Limited(steps[0].request.choice.context.onFailure)
    requires var c := steps[0].request.choice.context;
      Prompted(w, steps) >= (Retries(g, c.onFailure) + 1) * (3 * |c.tasks| + 2)
    ensures !KeepsFlow(w, steps)
  {
    if KeepsFlow(w, steps) {
      OrderlyRuns.OrderlyRunIsTidy(poolSize, before, w);
      PromptsAreFew(g, w, OrderlyRuns.Orphans(Start(poolSize), before), steps, end);
      assert false;
    }
  }

  lemma {:induction false} PromptsAreFew(g: Config, w: World, o: set<TaskId>, steps: seq<Step>, end: World)
    requires OrderlyRuns.Tidy(w, o) && Creates(g, w, steps, end) && KeepsFlow(w, steps)
    requires Limited(steps[0].request.choice.context.onFailure)
    ensures var c := steps[0].request.choice.context;
      Prompted(w, steps) < (Retries(g, c.onFailure) + 1) * (3 * |c.tasks| + 2)
  {
    var c := steps[0].request.choice.context;
    var inputs := CreatedAdvances(g, w, o, steps, end);
    RetriesAreBounded(g, c, inputs);
    PromptsChange(g, c, inputs);
  }
}
