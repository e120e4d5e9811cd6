/**
 Bounds on retries: how often one operation context can be submitted, handled and reconciled
 before its resource is finished or archived, whatever its tasks return.
 */
module RetryBound {
  import opened Common
  import opened TaskManagement
  import opened TaskFlow
  import opened Protocol

  /** What one reconcile meets; the object may come under deletion at any time. */
  datatype Input = Input(status: string, deleting: bool, resolves: bool, newId: TaskId, poll: Poll)

  predicate Plausible(i: Input) {
    i.poll.Ready? ==> i.poll.result.status.Successful? || i.poll.result.status.Failed?
  }

  /**
   A context with the numbers of tasks submitted for it, of calls of `HandleFailure` and of reconciles
   that changed it. `live` ends when the resource lets go of the context, by its `last` effect, which leaves the
   resource in `status`.
   */
  datatype Run = Run(
    context: ContextView, submitted: nat, handled: nat, changes: nat, live: bool, last: Effect, status: string)

  function Advance(g: Config, s: Run, i: Input): Run {
    if !s.live then s
    else
      var ex := Execute(g.(deleting := i.deleting), i.status, s.context, i.resolves, i.newId, i.poll);
      Run(ex.flow,
          s.submitted + (if ex.effect.Submitting? then 1 else 0),
          s.handled + (if ex.effect.Retried? then 1 else 0),
          s.changes + (if ex.effect.Waited? || ex.effect.Unresolved? then 0 else 1),
          ex.retained, ex.effect, ex.status)
  }

  function AdvanceAll(g: Config, s: Run, inputs: seq<Input>): Run
    decreases |inputs|
  {
    if inputs == [] then s else AdvanceAll(g, Advance(g, s, inputs[0]), inputs[1..])
  }

  function Begin(c: ContextView): Run {
    Run(c, 0, 0, 0, true, Waited, "")
  }

  /** The largest number of failures that are handled under a limit. */
  function Retries(g: Config, rule: FailureRule): nat {
    Max(0, RetryLimit(g, rule) + 1)
  }

  // ---------------------------------------------------------------- the measure

  /** Reconciles that one pass over a flow of `n` tasks can still change the context. */
  function Left(c: ContextView): int {
    match c.taskStatus
    case Empty => 3 * |c.tasks| + 1
    case Pending => 3 * (|c.tasks| - c.idx) + 3
    case Running => 3 * (|c.tasks| - c.idx) + 2
    case _ => 3 * (|c.tasks| - c.idx) + 1
  }

  function Rank(g: Config, c: ContextView): int {
    (Retries(g, c.onFailure) - c.onFailure.retryCount) * (3 * |c.tasks| + 2) + Left(c)
  }

  /** Tasks submitted in the pass the context is in. */
  function InPass(c: ContextView): int {
    if c.taskStatus.Pending? then c.idx - 1 else c.idx
  }

  predicate Placed(c: ContextView) {
    Shaped(c) && (!c.taskStatus.Empty? ==> c.idx > 0)
  }

  ghost predicate Counted(g: Config, c0: ContextView, s: Run) {
    var c := s.context;
    && Placed(c) && Limited(c.onFailure)
    && c.tasks == c0.tasks && RetryLimit(g, c.onFailure) == RetryLimit(g, c0.onFailure)
    && c.onFailure.strategy == c0.onFailure.strategy && c.targetStatus == c0.targetStatus
    && s.handled == c.onFailure.retryCount <= Retries(g, c0.onFailure)
  }

  /** `k` passes over `n` tasks. */
  ghost function Passes(k: nat, n: nat): nat {
    if k == 0 then 0 else n + Passes(k - 1, n)
  }

  ghost predicate CurrentCounted(s: Run) {
    var c := s.context;
    var open := if c.taskStatus.Running? || c.taskStatus.Failed? then 1 else 0;
    && s.submitted <= Passed(c) + c.onFailure.retryCount + open
    && (s.live ==> s.submitted == Passed(c) + c.onFailure.retryCount + open)
  }

  ghost predicate OverCounted(s: Run) {
    s.submitted <= if s.live then Passes(s.handled, |s.context.tasks|) + InPass(s.context)
                   else Passes(s.handled + 1, |s.context.tasks|)
  }

  ghost predicate SubmissionsCounted(s: Run) {
    if s.context.onFailure.strategy.RetryFromCurrent? then CurrentCounted(s) else OverCounted(s)
  }

  ghost predicate ChangesCounted(g: Config, c0: ContextView, s: Run) {
    if s.live then s.changes + Rank(g, s.context) <= Rank(g, c0) else s.changes <= Rank(g, c0) + 1
  }

  lemma {:induction false} AdvanceCounts(g: Config, c0: ContextView, s: Run, i: Input)
    requires Counted(g, c0, s) && s.live && Plausible(i)
    ensures Counted(g, c0, Advance(g, s, i))
  {
    if s.context.taskStatus.Failed? {
      FailureCounts(g, c0, s, i);
    } else {
      ProgressCounts(g, c0, s, i);
    }
  }

  lemma {:induction false} FailureCounts(g: Config, c0: ContextView, s: Run, i: Input)
    requires Counted(g, c0, s) && s.live && s.context.taskStatus.Failed?
    ensures Counted(g, c0, Advance(g, s, i))
  {
  }

  lemma {:induction false} ProgressCounts(g: Config, c0: ContextView, s: Run, i: Input)
    requires Counted(g, c0, s) && s.live && Plausible(i) && !s.context.taskStatus.Failed?
    ensures Counted(g, c0, Advance(g, s, i))
  {
  }

  lemma {:induction false} AdvanceCountsCurrent(g: Config, c0: ContextView, s: Run, i: Input)
    requires Counted(g, c0, s) && CurrentCounted(s) && s.live && Plausible(i)
    requires s.context.onFailure.strategy.RetryFromCurrent?
    ensures CurrentCounted(Advance(g, s, i))
  {
  }

  lemma {:induction false} AdvanceCountsOver(g: Config, c0: ContextView, s: Run, i: Input)
    requires Counted(g, c0, s) && OverCounted(s) && s.live && Plausible(i)
    requires s.context.onFailure.strategy.StartOver?
    ensures OverCounted(Advance(g, s, i))
  {
  }

  lemma {:induction false} RankDrops(g: Config, c: ContextView, after: ContextView)
    requires after.tasks == c.tasks && Retries(g, after.onFailure) == Retries(g, c.onFailure)
    requires if after.onFailure.retryCount == c.onFailure.retryCount then Left(after) < Left(c)
             else
               && after.onFailure.retryCount == c.onFailure.retryCount + 1
               && Left(after) <= 3 * |c.tasks| + 1 && Left(c) >= 1
    ensures Rank(g, after) < Rank(g, c)
  {
    var unit, gap := 3 * |c.tasks| + 2, Retries(g, c.onFailure) - c.onFailure.retryCount;
    assert (gap - 1) * unit == gap * unit - unit;
  }

  lemma {:induction false} RankPositive(g: Config, c: ContextView)
    requires Placed(c) && c.onFailure.retryCount <= Retries(g, c.onFailure)
    ensures Rank(g, c) >= 1
  {
  }

  lemma {:induction false} AdvanceCountsChanges(g: Config, c0: ContextView, s: Run, i: Input)
    requires Counted(g, c0, s) && ChangesCounted(g, c0, s) && s.live && Plausible(i)
    ensures ChangesCounted(g, c0, Advance(g, s, i))
  {
    var ex := Execute(g.(deleting := i.deleting), i.status, s.context, i.resolves, i.newId, i.poll);
    AdvanceCounts(g, c0, s, i);
    RankPositive(g, s.context);
    if ex.retained && !ex.effect.Waited? && !ex.effect.Unresolved? {
      RankDrops(g, s.context, ex.flow);
    }
  }

  lemma {:induction false} AdvanceAllCounts(g: Config, c0: ContextView, s: Run, inputs: seq<Input>)
    requires Counted(g, c0, s) && SubmissionsCounted(s) && ChangesCounted(g, c0, s)
    requires (forall i :: i in inputs ==> Plausible(i))
    ensures var e := AdvanceAll(g, s, inputs);
      Counted(g, c0, e) && SubmissionsCounted(e) && ChangesCounted(g, c0, e)
    decreases |inputs|
  {
    if inputs != [] {
      if s.live {
        AdvanceCounts(g, c0, s, inputs[0]);
        if s.context.onFailure.strategy.RetryFromCurrent? {
          AdvanceCountsCurrent(g, c0, s, inputs[0]);
        } else {
          AdvanceCountsOver(g, c0, s, inputs[0]);
        }
        AdvanceCountsChanges(g, c0, s, inputs[0]);
      }
      AdvanceAllCounts(g, c0, Advance(g, s, inputs[0]), inputs[1..]);
    }
  }

  // ---------------------------------------------------------------- main result

  /**
   For a flow of n tasks with retry limit m, over any reconciles: `HandleFailure` is called at most m + 1
   times; retrying from the current task submits at most n + m + 1 tasks, starting over in place at most
   n * (m + 2); and after (m + 2) * (3n + 2) reconciles that changed the context it is gone, so that it can
   neither retry for ever nor loop. A negative m + 1 counts as zero.
   */
  lemma {:induction false} RetriesAreBounded(g: Config, c: ContextView, inputs: seq<Input>)
    requires FreshFlow(c) && Limited(c.onFailure)
    requires forall i :: i in inputs ==> Plausible(i)
    ensures var e := AdvanceAll(g, Begin(c), inputs);
      var n, m1 := |c.tasks|, Retries(g, c.onFailure);
      && e.handled <= m1
      && (c.onFailure.strategy.RetryFromCurrent? ==> e.submitted <= n + m1)
      && (c.onFailure.strategy.StartOver? ==> e.submitted <= n * (m1 + 1))
      && e.changes <= (m1 + 1) * (3 * n + 2)
      && (e.changes == (m1 + 1) * (3 * n + 2) ==> !e.live)
  {
    AdvanceAllCounts(g, c, Begin(c), inputs);
    var e := AdvanceAll(g, Begin(c), inputs);
    RankPositive(g, e.context);
    FreshRank(g, c);
    if c.onFailure.strategy.StartOver? {
      OverBound(e, |c.tasks|, Retries(g, c.onFailure) + 1);
    }
  }

  lemma {:induction false} FreshRank(g: Config, c: ContextView)
    requires FreshFlow(c)
    ensures Rank(g, c) + 1 == (Retries(g, c.onFailure) + 1) * (3 * |c.tasks| + 2)
  {
    var m1, unit := Retries(g, c.onFailure), 3 * |c.tasks| + 2;
    assert (m1 + 1) * unit == m1 * unit + unit;
  }

  lemma {:induction false} OverBound(e: Run, n: nat, passes: nat)
    requires OverCounted(e) && |e.context.tasks| == n && e.handled < passes && InPass(e.context) <= n
    ensures e.submitted <= n * passes
  {
    PassesMultiply(e.handled, passes, n);
    PassesMultiply(e.handled + 1, passes, n);
  }

  // ---------------------------------------------------------------- every flow ends

  /** A reconcile that finds the task's function, and the result of a task that is running. */
  predicate Prompt(i: Input) {
    i.resolves && i.poll != NotReady
  }

  /** The manager keeps the failed context: not dropped on deletion, and started over in place if at all. */
  predicate Keeps(g: Config, c: ContextView, i: Input) {
    && (i.deleting ==> g.onDeletion.KeepOnDeletion?)
    && (c.onFailure.strategy.StartOver? ==> i.status == c.onFailure.nextTryStatus)
  }

  /**
   How a kept context ends, and in which status: finished after its last task, in its target status; archived after
   every allowed retry; or never begun, in the normal status.
   */
  ghost predicate EndsProperly(g: Config, c0: ContextView, s: Run) {
    !s.live ==>
      || (&& s.last.Finished? && s.context.taskStatus.Successful? && s.context.idx == |c0.tasks|
          && s.status == c0.targetStatus)
      || (&& s.last.Archived? && s.context.taskStatus.Failed? && s.handled == Retries(g, c0.onFailure)
          && s.status == g.archivedStatus)
      || (s.last.Cleared? && c0.tasks == [] && s.status == g.idleStatus)
  }

  lemma {:induction false} PromptAdvance(g: Config, c0: ContextView, s: Run, i: Input)
    requires Counted(g, c0, s) && s.live && Plausible(i) && Prompt(i)
    ensures Advance(g, s, i).changes == s.changes + 1
    ensures c0.onFailure.nextTryStatus == s.context.onFailure.nextTryStatus && Keeps(g, c0, i) ==>
      EndsProperly(g, c0, Advance(g, s, i)) &&
      Advance(g, s, i).context.onFailure.nextTryStatus == c0.onFailure.nextTryStatus
  {
  }

  lemma {:induction false} PromptAdvances(g: Config, c0: ContextView, s: Run, inputs: seq<Input>)
    requires Counted(g, c0, s) && forall i :: i in inputs ==> Plausible(i) && Prompt(i)
    requires EndsProperly(g, c0, s) && c0.onFailure.nextTryStatus == s.context.onFailure.nextTryStatus
    ensures var e := AdvanceAll(g, s, inputs);
      && (e.live ==> e.changes == s.changes + |inputs|)
      && ((forall i :: i in inputs ==> Keeps(g, c0, i)) ==> EndsProperly(g, c0, e))
    decreases |inputs|
  {
    if inputs != [] && s.live {
      var next := Advance(g, s, inputs[0]);
      AdvanceCounts(g, c0, s, inputs[0]);
      PromptAdvance(g, c0, s, inputs[0]);
      if Keeps(g, c0, inputs[0]) {
        PromptAdvances(g, c0, next, inputs[1..]);
      } else {
        PromptAdvancesOnly(g, c0, next, inputs[1..]);
      }
    } else if inputs != [] {
      StaysEnded(g, s, inputs);
    }
  }

  lemma {:induction false} PromptAdvancesOnly(g: Config, c0: ContextView, s: Run, inputs: seq<Input>)
    requires Counted(g, c0, s) && forall i :: i in inputs ==> Plausible(i) && Prompt(i)
    ensures var e := AdvanceAll(g, s, inputs); e.live ==> e.changes == s.changes + |inputs|
    decreases |inputs|
  {
    if inputs != [] && s.live {
      AdvanceCounts(g, c0, s, inputs[0]);
      PromptAdvance(g, c0, s, inputs[0]);
      PromptAdvancesOnly(g, c0, Advance(g, s, inputs[0]), inputs[1..]);
    } else if inputs != [] {
      StaysEnded(g, s, inputs);
    }
  }

  lemma {:induction false} StaysEnded(g: Config, s: Run, inputs: seq<Input>)
    requires !s.live
    ensures AdvanceAll(g, s, inputs) == s
    decreases |inputs|
  {
    if inputs != [] {
      StaysEnded(g, s, inputs[1..]);
    }
  }

  function CountPrompt(inputs: seq<Input>): nat {
    if inputs == [] then 0 else (if Prompt(inputs[0]) then 1 else 0) + CountPrompt(inputs[1..])
  }

  /** As long as a flow is live, every prompt input has changed its context. */
  lemma {:induction false} PromptsChangeFrom(g: Config, c0: ContextView, s: Run, inputs: seq<Input>)
    requires Counted(g, c0, s) && (forall i :: i in inputs ==> Plausible(i)) && AdvanceAll(g, s, inputs).live
    ensures s.live && s.changes + CountPrompt(inputs) <= AdvanceAll(g, s, inputs).changes
    decreases |inputs|
  {
    if inputs != [] {
      if s.live {
        AdvanceCounts(g, c0, s, inputs[0]);
        if Prompt(inputs[0]) {
          PromptAdvance(g, c0, s, inputs[0]);
        }
        PromptsChangeFrom(g, c0, Advance(g, s, inputs[0]), inputs[1..]);
      } else {
        StaysEnded(g, s, inputs);
      }
    }
  }

  lemma {:induction false} PromptsChange(g: Config, c: ContextView, inputs: seq<Input>)
    requires FreshFlow(c) && Limited(c.onFailure) && forall i :: i in inputs ==> Plausible(i)
    requires AdvanceAll(g, Begin(c), inputs).live
    ensures CountPrompt(inputs) <= AdvanceAll(g, Begin(c), inputs).changes
  {
    PromptsChangeFrom(g, c, Begin(c), inputs);
  }

  /**
   Every flow ends: after (m + 2) * (3n + 2) reconciles that find functions and results, whatever the
   results are, the resource has let go of the context; and a context that the manager keeps was then
   finished after its last task, in its target status, or archived after exactly m + 1 handled failures and
   never earlier, in the archived status.
   */
  lemma {:induction false} EveryFlowEnds(g: Config, c: ContextView, inputs: seq<Input>)
    requires FreshFlow(c) && Limited(c.onFailure)
    requires forall i :: i in inputs ==> Plausible(i) && Prompt(i)
    requires |inputs| >= (Retries(g, c.onFailure) + 1) * (3 * |c.tasks| + 2)
    ensures var e := AdvanceAll(g, Begin(c), inputs);
      !e.live && ((forall i :: i in inputs ==> Keeps(g, c, i)) ==> EndsProperly(g, c, e))
  {
    RetriesAreBounded(g, c, inputs);
    PromptAdvances(g, c, Begin(c), inputs);
  }

  lemma {:induction false} PassesMultiply(k: nat, l: nat, n: nat)
    requires k <= l
    ensures Passes(k, n) <= n * l && (k < l ==> Passes(k, n) + n <= n * l)
  {
    if k > 0 {
      PassesMultiply(k - 1, l - 1, n);
      assert n * l == n * (l - 1) + n;
    } else if l > 0 {
      assert n * l == n * (l - 1) + n;
      assert n * (l - 1) >= 0;
    }
  }
}
