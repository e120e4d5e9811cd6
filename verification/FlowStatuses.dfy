/**
 What a reconcile stores, case by case and in every world: the status and the context of the new version,
 told from the version it reads alone; and when it comes again. Nothing here refers to how the coordinator
 computes it.
 */
module FlowStatuses {
  import opened Common
  import opened TaskManagement
  import opened TaskFlow
  import opened Protocol
  import opened ReconcileFaults

  function ReadBy(w: World, step: Step): Version
    requires step.Reconcile? && Enabled(w, step)
  {
    w.objects[step.key][step.read]
  }

  /** A reconcile gets to its status write unless it is paused, finds no flow by an error, or stops at finalizers. */
  predicate Stores(w: World, step: Step)
    requires step.Reconcile? && Enabled(w, step)
  {
    var v, q := ReadBy(w, step), step.request;
    && step.commits && !StopsAtFinalizers(step.config, q)
    && (v.status == "" || (!q.paused && (v.tracked.Some? || !q.choice.FlowError?)))
  }

  /** The new version has this status and context, but for what `UpdateStatus` observes and drops. */
  ghost predicate StoresAs(w: World, step: Step, status: string, context: Option<ContextView>)
    requires step.Reconcile? && Enabled(w, step)
  {
    var w', q := Apply(w, step), step.request;
    && step.key in w'.objects && |w'.objects[step.key]| == |w.objects[step.key]| + 1
    && w.objects[step.key] <= w'.objects[step.key]
    && StoredOf(Current(w', step.key)) ==
       Stored(if q.observed.Some? then q.observed.value else status, if q.drops then None else context)
  }

  /** The reconcile works on context `c`, stored or newly made. */
  predicate WorksOn(w: World, step: Step, c: ContextView)
    requires step.Reconcile? && Enabled(w, step)
  {
    var v := ReadBy(w, step);
    && v.status != ""
    && if v.tracked.Some? then c == v.tracked.value.context else step.request.choice == NewFlow(c)
  }

  predicate IsDone(c: ContextView) {
    c.idx >= |c.tasks|
  }

  predicate RetriesByCount(rule: FailureRule) {
    rule.strategy == RetryFromCurrent || rule.strategy == StartOver
  }

  /** The retries are used up: the rule's own limit counts, or the general one when it has none. */
  predicate UsedUp(g: Config, rule: FailureRule) {
    RetriesByCount(rule) && if rule.maxRetry == 0 then rule.retryCount > g.taskMaxRetryTimes
                            else rule.retryCount > rule.maxRetry
  }

  // ---------------------------------------------------------------- storing or not

  /** Otherwise nothing is stored, of any resource. */
  lemma {:induction false} StoresOrNothing(w: World, step: Step)
    requires step.Reconcile? && Enabled(w, step)
    ensures var w' := Apply(w, step);
      && (!Stores(w, step) ==> w'.objects == w.objects)
      && (Stores(w, step) ==> |w'.objects[step.key]| == |w.objects[step.key]| + 1)
      && w'.objects.Keys == w.objects.Keys
      && forall k :: k in w.objects && k != step.key ==> w'.objects[k] == w.objects[k]
  {
  }

  /** A resource without status gets its initial one, paused or not. */
  lemma {:induction false} InitialIsStored(w: World, step: Step)
    requires step.Reconcile? && Enabled(w, step) && Stores(w, step) && ReadBy(w, step).status == ""
    ensures StoresAs(w, step, step.config.initialStatus, None)
  {
  }

  /** Without context and flow the status stays. */
  lemma {:induction false} IdleIsStored(w: World, step: Step)
    requires step.Reconcile? && Enabled(w, step) && Stores(w, step) && ReadBy(w, step).status != ""
    requires ReadBy(w, step).tracked.None? && step.request.choice.NoFlow?
    ensures StoresAs(w, step, ReadBy(w, step).status, None)
  {
  }

  // ---------------------------------------------------------------- how a context ends

  /** A flow that is done stores its target status and no context. */
  lemma {:induction false} FinishedIsStored(w: World, step: Step, c: ContextView)
    requires step.Reconcile? && Enabled(w, step) && Stores(w, step) && WorksOn(w, step, c)
    requires c.taskStatus == Successful && IsDone(c)
    ensures StoresAs(w, step, c.targetStatus, None)
  {
  }

  /** A flow without tasks stores the normal status. */
  lemma {:induction false} ClearedIsStored(w: World, step: Step, c: ContextView)
    requires step.Reconcile? && Enabled(w, step) && Stores(w, step) && WorksOn(w, step, c)
    requires c.taskStatus == Empty && IsDone(c)
    ensures StoresAs(w, step, step.config.idleStatus, None)
  {
  }

  /** A failed task whose retries are used up archives its resource. */
  lemma {:induction false} ArchivedIsStored(w: World, step: Step, c: ContextView)
    requires step.Reconcile? && Enabled(w, step) && Stores(w, step) && WorksOn(w, step, c)
    requires c.taskStatus == Failed && UsedUp(step.config, c.onFailure)
    ensures StoresAs(w, step, step.config.archivedStatus, None)
  {
  }

  /** The failure of a task is handled, and the manager does not give the context up for a deletion. */
  predicate Handles(w: World, step: Step, c: ContextView)
    requires step.Reconcile? && Enabled(w, step)
  {
    && Stores(w, step) && WorksOn(w, step, c) && c.taskStatus == Failed && !UsedUp(step.config, c.onFailure)
    && (step.config.deleting ==> step.config.onDeletion == KeepOnDeletion)
  }

  function OneMoreRetry(rule: FailureRule): FailureRule {
    rule.(retryCount := rule.retryCount + 1)
  }

  /**
   After a failure that starts over, the status is the next-try status; the context begins anew if that was the
   status before, and is given up if not.
   */
  lemma {:induction false} StartOverIsStored(w: World, step: Step, c: ContextView)
    requires step.Reconcile? && Enabled(w, step) && Handles(w, step, c)
    requires c.onFailure.strategy == StartOver || (c.onFailure.strategy == Unset && step.config.unsetStartsOver)
    ensures var next, anew := c.onFailure.nextTryStatus,
        c.(idx := 0, taskStatus := Empty, taskId := NoId, task := "",
           onFailure := if c.onFailure.strategy == StartOver then OneMoreRetry(c.onFailure) else c.onFailure);
      StoresAs(w, step, next, if ReadBy(w, step).status == next then Some(anew) else None)
  {
  }

  /** After a failure that retries, the same task is pending again, one retry later. */
  lemma {:induction false} RetryIsStored(w: World, step: Step, c: ContextView)
    requires step.Reconcile? && Enabled(w, step) && Handles(w, step, c) && c.onFailure.strategy == RetryFromCurrent
    ensures StoresAs(w, step, ReadBy(w, step).status,
                     Some(c.(taskStatus := Pending, onFailure := OneMoreRetry(c.onFailure))))
  {
  }

  /** A paused failure stays as it is; so does one of no known strategy, unless the manager gives up on it. */
  lemma {:induction false} PauseIsStored(w: World, step: Step, c: ContextView)
    requires step.Reconcile? && Enabled(w, step) && Handles(w, step, c)
    requires c.onFailure.strategy == Pause || c.onFailure.strategy == Unknown || c.onFailure.strategy == Unset
    ensures c.onFailure.strategy == Pause ==> StoresAs(w, step, ReadBy(w, step).status, Some(c))
    ensures c.onFailure.strategy == Unknown || (c.onFailure.strategy == Unset && !step.config.unsetStartsOver) ==>
      if step.config.discards.None? then StoresAs(w, step, ReadBy(w, step).status, Some(c))
      else if c.onFailure.nextTryStatus != "" then StoresAs(w, step, c.onFailure.nextTryStatus, None)
      else StoresAs(w, step, step.config.discards.value, None)
  {
  }

  /** Under deletion the other managers give a failed context up, in the status of deletion or the one they have. */
  lemma {:induction false} FailureUnderDeletionIsStored(w: World, step: Step, c: ContextView)
    requires step.Reconcile? && Enabled(w, step) && Stores(w, step) && WorksOn(w, step, c)
    requires c.taskStatus == Failed && !UsedUp(step.config, c.onFailure)
    requires step.config.deleting && step.config.onDeletion != KeepOnDeletion
    ensures match step.config.onDeletion
      case DropTo(status) => StoresAs(w, step, status, None)
      case _ => StoresAs(w, step, ReadBy(w, step).status, None)
  {
  }

  // ---------------------------------------------------------------- how a context goes on

  /** A flow that begins, or whose task succeeded, goes on to its next task. */
  lemma {:induction false} AdvanceIsStored(w: World, step: Step, c: ContextView)
    requires step.Reconcile? && Enabled(w, step) && Stores(w, step) && WorksOn(w, step, c)
    requires (c.taskStatus == Empty || c.taskStatus == Successful) && !IsDone(c)
    ensures StoresAs(w, step, ReadBy(w, step).status,
                     Some(c.(taskStatus := Pending, task := c.tasks[c.idx], idx := c.idx + 1, taskId := NoId)))
  {
  }

  /** A pending task is submitted under the new id, if its function is found. */
  lemma {:induction false} SubmissionIsStored(w: World, step: Step, c: ContextView)
    requires step.Reconcile? && Enabled(w, step) && Stores(w, step) && WorksOn(w, step, c) && c.taskStatus == Pending
    ensures var q := step.request;
      && StoresAs(w, step, ReadBy(w, step).status,
                  Some(if q.resolves then c.(taskStatus := Running, taskId := q.newId) else c))
      && (q.resolves ==> Apply(w, step).manager == Submitted(w.manager, q.newId))
      && (!q.resolves ==> Apply(w, step).manager == w.manager)
  {
  }

  /** A running task stays so until there is a result, takes the result's status, and fails when that is lost. */
  lemma {:induction false} ResultIsStored(w: World, step: Step, c: ContextView)
    requires step.Reconcile? && Enabled(w, step) && Stores(w, step) && WorksOn(w, step, c) && c.taskStatus == Running
    ensures match PollOf(w.manager, c.taskId)
      case NotReady => StoresAs(w, step, ReadBy(w, step).status, Some(c))
      case Ready(result) => StoresAs(w, step, ReadBy(w, step).status, Some(c.(taskStatus := result.status)))
      case _ => StoresAs(w, step, ReadBy(w, step).status, Some(c.(taskStatus := Failed)))
  {
  }

  /** The stored version has no context, although nothing dropped it. */
  predicate LetsGo(w: World, step: Step)
    requires step.Reconcile? && Enabled(w, step)
  {
    Stores(w, step) && !step.request.drops && Current(Apply(w, step), step.key).tracked.None?
  }

  /**
   So a reconcile lets go of a context only in these ways: the flow is done, it has no tasks, or a task failed.
   In particular a context that has not failed leaves for its target status exactly when its flow is done.
   */
  lemma {:induction false} LetsGoOnlySo(w: World, step: Step, c: ContextView)
    requires step.Reconcile? && Enabled(w, step) && WorksOn(w, step, c) && LetsGo(w, step)
    ensures (c.taskStatus == Successful && IsDone(c)) || (c.taskStatus == Empty && IsDone(c)) || c.taskStatus == Failed
    ensures c.taskStatus == Successful ==> StoresAs(w, step, c.targetStatus, None)
    ensures c.taskStatus == Failed && !UsedUp(step.config, c.onFailure) && !step.config.deleting ==>
      c.onFailure.strategy != RetryFromCurrent && c.onFailure.strategy != Pause
  {
    if c.taskStatus != Failed && !((c.taskStatus == Empty || c.taskStatus == Successful) && IsDone(c)) {
      if c.taskStatus == Pending {
        SubmissionIsStored(w, step, c);
      } else if c.taskStatus == Running {
        ResultIsStored(w, step, c);
      } else {
        AdvanceIsStored(w, step, c);
      }
    } else if c.taskStatus == Successful {
      FinishedIsStored(w, step, c);
    } else if c.taskStatus == Failed && !UsedUp(step.config, c.onFailure) && !step.config.deleting {
      if c.onFailure.strategy == RetryFromCurrent {
        RetryIsStored(w, step, c);
      } else if c.onFailure.strategy == Pause {
        PauseIsStored(w, step, c);
      }
    }
  }

  /**
   In every run: whenever a reconcile stores the target status for a context that was successful and done, every
   task of its flow has been executed with success or skipped by a rescue, in that pass of that resource.
   */
  lemma {:induction false} TargetStatusMeansAllDone(
    poolSize: nat, steps: seq<Step>, end: World, step: Step, c: ContextView)
    requires Runs(Start(poolSize), steps, end) && step.Reconcile? && Enabled(end, step) && Stores(end, step)
    requires WorksOn(end, step, c) && c.taskStatus == Successful && IsDone(c)
    ensures StoresAs(end, step, c.targetStatus, None)
    ensures ReadBy(end, step).tracked.Some?
    ensures AllJustified(end, step.key, ReadBy(end, step).tracked.value.epoch, c.tasks, |c.tasks|)
  {
    FinishedIsStored(end, step, c);
    StartIsGood(poolSize);
    RunKeepsInv(Start(poolSize), steps, end);
    if ReadBy(end, step).tracked.Some? {
      assert Good(end, step.key, ReadBy(end, step).tracked.value);
    }
  }

  // ---------------------------------------------------------------- when a reconcile comes again

  /** The flow is failed after this execution, with retries behind it. */
  predicate StaysFailed(ex: Option<Execution>) {
    ex.Some? && ex.value.flow.taskStatus == Failed && ex.value.flow.onFailure.retryCount > 0
  }

  /**
   Seconds until the next reconcile: 5 when paused; 1 when deletion is under way or the status changes; else 30
   when there is nothing to do, 2 to the number of retries, up to the threshold, while a retried task stays failed,
   and 1 otherwise.
   */
  lemma {:induction false} RequeueDelays(g: Config, stored: Stored, m: ManagerState, q: Request)
    ensures var r := Coordinate(g, stored, m, q);
      var hurried := r.write.Some? && ((g.deleting && !q.ignoreDeletion) || r.write.value.status != stored.status);
      if stored.status != "" && q.paused then r.requeueAfter == 5
      else if hurried then r.requeueAfter == 1
      else if stored.status != "" && stored.context.None? && q.choice.NoFlow? then r.requeueAfter == 30
      else if StaysFailed(r.execution) then
        r.requeueAfter == Pow2(Min(r.execution.value.flow.onFailure.retryCount, g.backoffThreshold))
      else r.requeueAfter == 1
  {
  }
}
