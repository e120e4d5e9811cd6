/**
 The rescue controller, internal/controller/obresourcerescue_controller.go: it edits a target's
 finalizers, annotations or operation context, writes the target back and marks the rescue successful.

 Each API call either succeeds or fails; a target that changed since it was read makes the write
 fail (a version conflict), so a successful write is applied to the target that was read.
 */
module Rescue {
  import opened Common
  import opened TaskFlow
  import opened TaskManagement
  import Protocol
  import ReconcileFaults

  const SUCCESSFUL := "Successful"
  const IGNORE_DELETION := "oceanbase.oceanbase.com/ignore-deletion"
  const TARGET_KINDS := ["OBCluster", "OBParameter", "OBServer", "OBZone", "OBTenant",
                         "OBTenantBackupPolicy", "OBTenantBackup", "OBTenantRestore", "OBTenantOperation"]

  /** The stored target; `gone` once the API server removed it. */
  datatype TargetView = TargetView(
    stored: Stored, finalizers: seq<string>, annotations: map<string, string>, deleting: bool, gone: bool)

  /** A target under deletion without finalizers is removed by the API server. */
  predicate Consistent(t: TargetView) {
    t.deleting && t.finalizers == [] ==> t.gone
  }

  /** How the API calls of one reconcile end; `rescueExists` is the answer of the last read of the rescue. */
  datatype Calls = Calls(mapped: bool, written: bool, deleted: bool, rescueExists: bool, marked: bool)

  datatype Job = Job(action: string, kind: string, targetStatus: string)

  // ---------------------------------------------------------------- what a rescue promises

  /** The fields that an action is meant to change, in the target that was read. */
  function Goal(job: Job, t: TargetView): TargetView {
    match job.action
    case "delete" => t.(finalizers := [], deleting := true, gone := true)
    case "reset" => t.(stored := Stored(job.targetStatus, None))
    case "retry" =>
      if t.stored.context.None? then t
      else
        var c := t.stored.context.value;
        t.(stored := t.stored.(context := Some(c.(taskStatus := Pending, onFailure := c.onFailure.(retryCount := 0)))))
    case "skip" =>
      if t.stored.context.None? then t
      else t.(stored := t.stored.(context := Some(t.stored.context.value.(taskStatus := Successful))))
    case "ignore-deletion" => t.(annotations := t.annotations[IGNORE_DELETION := "true"])
    case _ => t
  }

  predicate NeedsContext(job: Job) {
    job.action == "retry" || job.action == "skip"
  }

  predicate Acts(job: Job) {
    job.action in {"delete", "reset", "retry", "skip", "ignore-deletion"}
  }

  /** The rescue goes past its early returns and finds its target. */
  predicate Attempts(job: Job, status: string, t: TargetView, calls: Calls) {
    && status != SUCCESSFUL && job.kind in TARGET_KINDS && calls.mapped && !t.gone
    && (NeedsContext(job) ==> t.stored.context.Some?)
  }

  /** Deleting makes two calls when the target is not under deletion yet, and both have to succeed. */
  predicate Reaches(job: Job, t: TargetView, calls: Calls) {
    && (Acts(job) ==> calls.written)
    && (job.action == "delete" && !t.deleting ==> calls.deleted)
  }

  /** The target after one reconcile of the rescue. */
  function TargetAfter(job: Job, status: string, t: TargetView, calls: Calls): TargetView {
    if !Attempts(job, status, t, calls) || !calls.written then t
    else if Reaches(job, t, calls) then Goal(job, t)
    else t.(finalizers := [])
  }

  function StatusAfter(job: Job, status: string, t: TargetView, calls: Calls): string {
    if Attempts(job, status, t, calls) && Reaches(job, t, calls) && calls.rescueExists && calls.marked then SUCCESSFUL
    else status
  }

  // ---------------------------------------------------------------- the controller

  /** The unstructured object that the controller reads and edits. */
  class Unstructured {
    var status: string
    var context: Option<ContextView>
    var finalizers: seq<string>
    var annotations: map<string, string>
    var deleting: bool

    constructor (t: TargetView)
      ensures status == t.stored.status && context == t.stored.context && finalizers == t.finalizers
      ensures annotations == t.annotations && deleting == t.deleting
    {
      status, context, finalizers := t.stored.status, t.stored.context, t.finalizers;
      annotations, deleting := t.annotations, t.deleting;
    }
  }

  /** The API server as the controller sees it. */
  class RescueController {
    var target: TargetView
    var status: string

    constructor (target: TargetView, status: string)
      ensures this.target == target && this.status == status
    {
      this.target, this.status := target, status;
    }

    /** `Update`: the main resource; a target under deletion goes away with its last finalizer. */
    method Update(uns: Unstructured, ok: bool)
      modifies this`target
      ensures target == if !ok then old(target) else old(target).(
        finalizers := uns.finalizers, annotations := uns.annotations,
        gone := old(target).gone || (old(target).deleting && uns.finalizers == []))
    {
      if ok {
        target := target.(finalizers := uns.finalizers, annotations := uns.annotations,
                          gone := target.gone || (target.deleting && uns.finalizers == []));
      }
    }

    /** `UpdateStatus`: the status subresource only. */
    method UpdateStatus(uns: Unstructured, ok: bool)
      modifies this`target
      ensures target == if ok then old(target).(stored := Stored(uns.status, uns.context)) else old(target)
    {
      if ok {
        target := target.(stored := Stored(uns.status, uns.context));
      }
    }

    method Delete(ok: bool)
      modifies this`target
      ensures target == if ok then old(target).(deleting := true, gone := old(target).gone
        || old(target).finalizers == []) else old(target)
    {
      if ok {
        target := target.(deleting := true, gone := target.gone || target.finalizers == []);
      }
    }

    /** The switch over the rescue type; `true` when it falls through to marking the rescue. */
    method Act(job: Job, calls: Calls) returns (done: bool)
      requires Consistent(target)
      requires Attempts(job, status, target, calls)
        || (NeedsContext(job) && !target.gone && target.stored.context.None?)
      modifies this`target
      ensures target == if NeedsContext(job) && old(target).stored.context.None? then old(target)
        else TargetAfter(job, status, old(target), calls)
      ensures done <==> !(NeedsContext(job) && old(target).stored.context.None?) && Reaches(job, old(target), calls)
    {
      var uns := new Unstructured(target);
      match job.action {
        case "delete" =>
          uns.finalizers := [];
          Update(uns, calls.written);
          if !calls.written { return false; }
          if !uns.deleting {
            Delete(calls.deleted);
            if !calls.deleted { return false; }
          }
          return true;
        case "reset" =>
          uns.context := None;
          uns.status := job.targetStatus;
        case "retry" =>
          if uns.context.None? { return false; }
          var c := uns.context.value;
          uns.context := Some(c.(taskStatus := Pending, onFailure := c.onFailure.(retryCount := 0)));
        case "skip" =>
          if uns.context.None? { return false; }
          uns.context := Some(uns.context.value.(taskStatus := Successful));
        case "ignore-deletion" =>
          uns.annotations := uns.annotations[IGNORE_DELETION := "true"];
          Update(uns, calls.written);
          return calls.written;
        case _ =>
          return true;
      }
      UpdateStatus(uns, calls.written);
      done := calls.written;
    }

    /** One reconcile of the rescue resource. */
    method Reconcile(job: Job, calls: Calls)
      requires Consistent(target)
      modifies this
      ensures Consistent(target)
      ensures target == TargetAfter(job, old(status), old(target), calls)
      ensures status == StatusAfter(job, old(status), old(target), calls)
    {
      if status == SUCCESSFUL || job.kind !in TARGET_KINDS {
        return;
      }
      if !calls.mapped || target.gone {
        return;
      }
      var done := Act(job, calls);
      if done && calls.rescueExists && calls.marked {
        status := SUCCESSFUL;
      }
    }
  }

  // ---------------------------------------------------------------- what each rescue achieves

  /** All calls succeed, and the rescue was not marked before. */
  predicate Unhindered(status: string, t: TargetView, calls: Calls) {
    && status != "Successful" && !t.gone
    && calls.mapped && calls.written && calls.deleted && calls.rescueExists && calls.marked
  }

  /**
   Unhindered, a rescue is marked and has done what its type says: a delete removes the target although it had
   finalizers; protecting from deletion adds the one annotation; a reset leaves the wanted status and no context; a
   retry leaves the failed task pending with all retries before it; a skip leaves it successful. Nothing else changes.
   */
  lemma {:induction false} RescueAchieves(job: Job, status: string, t: TargetView, calls: Calls)
    requires Unhindered(status, t, calls)
    requires job.kind in {"OBCluster", "OBParameter", "OBServer", "OBZone", "OBTenant", "OBTenantBackupPolicy",
                          "OBTenantBackup", "OBTenantRestore", "OBTenantOperation"}
    ensures var t' := TargetAfter(job, status, t, calls);
      && (job.action == "delete" ==>
            t'.gone && t'.finalizers == [] && t'.stored == t.stored && t'.annotations == t.annotations)
      && (job.action == "ignore-deletion" ==>
            && "oceanbase.oceanbase.com/ignore-deletion" in t'.annotations
            && t'.annotations["oceanbase.oceanbase.com/ignore-deletion"] == "true"
            && t'.annotations - {"oceanbase.oceanbase.com/ignore-deletion"} ==
               t.annotations - {"oceanbase.oceanbase.com/ignore-deletion"}
            && t' == t.(annotations := t'.annotations))
      && (job.action == "reset" ==> t' == t.(stored := Stored(job.targetStatus, None)))
      && (job.action == "retry" && t.stored.context.Some? ==>
            var c := t.stored.context.value;
            t' == t.(stored := t.stored.(context := Some(
              c.(taskStatus := Pending, onFailure := c.onFailure.(retryCount := 0))))))
      && (job.action == "skip" && t.stored.context.Some? ==>
            t' == t.(stored := t.stored.(context := Some(t.stored.context.value.(taskStatus := Successful)))))
    ensures StatusAfter(job, status, t, calls) == "Successful" <==>
      (job.action == "retry" || job.action == "skip" ==> t.stored.context.Some?)
  {
  }

  /** A rescue of any other kind of resource, of a missing target, or of a context that is not there does nothing. */
  lemma {:induction false} RescueOfNothing(job: Job, status: string, t: TargetView, calls: Calls)
    requires
      || job.kind !in {"OBCluster", "OBParameter", "OBServer", "OBZone", "OBTenant", "OBTenantBackupPolicy",
                       "OBTenantBackup", "OBTenantRestore", "OBTenantOperation"}
      || t.gone || !calls.mapped
      || ((job.action == "retry" || job.action == "skip") && t.stored.context.None?)
    ensures TargetAfter(job, status, t, calls) == t && StatusAfter(job, status, t, calls) == status
  {
  }

  /** When a call fails, the rescue is not marked; only a delete may have taken the finalizers already. */
  lemma {:induction false} HinderedRescue(job: Job, status: string, t: TargetView, calls: Calls)
    requires job.action in {"delete", "reset", "retry", "skip", "ignore-deletion"}
    requires !calls.written || (job.action == "delete" && !t.deleting && !calls.deleted)
    ensures StatusAfter(job, status, t, calls) == status
    ensures TargetAfter(job, status, t, calls) == t ||
      (job.action == "delete" && calls.written && TargetAfter(job, status, t, calls) == t.(finalizers := []))
  {
  }

  // ---------------------------------------------------------------- rescues inside the protocol

  function StepFor(job: Job, key: Protocol.ResourceKey): Protocol.Step
    requires job.action in {"reset", "retry", "skip"}
  {
    match job.action
    case "reset" => Protocol.RescueReset(key, job.targetStatus)
    case "retry" => Protocol.RescueRetry(key)
    case _ => Protocol.RescueSkip(key)
  }

  /**
   Every reconcile of a reset, retry or skip rescue is either no step of the protocol at all or exactly
   its rescue step, so the results about all runs of the protocol hold with this controller running.
   */
  lemma {:induction false} RescueIsProtocolStep(
    w: Protocol.World, key: Protocol.ResourceKey, job: Job, status: string, t: TargetView, calls: Calls)
    requires key in w.objects && w.objects[key] != [] && t.stored == Protocol.StoredOf(Protocol.Current(w, key))
    requires job.action in {"reset", "retry", "skip"}
    ensures var t' := TargetAfter(job, status, t, calls);
      if Attempts(job, status, t, calls) && calls.written then
        && Protocol.Enabled(w, StepFor(job, key))
        && var w' := Protocol.Apply(w, StepFor(job, key));
           && w'.objects[key] == w.objects[key] + [Protocol.Current(w', key)]
           && t' == t.(stored := Protocol.StoredOf(Protocol.Current(w', key)))
           && w'.manager == w.manager && w'.history == w.history
      else t' == t
  {
    var v := Protocol.Current(w, key);
    if Attempts(job, status, t, calls) && calls.written {
      var w' := Protocol.Apply(w, StepFor(job, key));
      assert NeedsContext(job) ==> v.tracked.Some? && t.stored.context == Some(v.tracked.value.context);
      assert w'.objects[key] == w.objects[key] + [Protocol.Current(w', key)];
    }
  }

  /** One reconcile of a rescue, on whatever the target has become by then. */
  datatype Round = Round(target: TargetView, calls: Calls)

  predicate Writes(job: Job, status: string, r: Round) {
    Acts(job) && Attempts(job, status, r.target, r.calls) && r.calls.written
  }

  predicate LosesMark(job: Job, status: string, r: Round) {
    Writes(job, status, r) && StatusAfter(job, status, r.target, r.calls) != SUCCESSFUL
  }

  function CountWrites(job: Job, status: string, rounds: seq<Round>): nat
    decreases |rounds|
  {
    if rounds == [] then 0
    else (if Writes(job, status, rounds[0]) then 1 else 0)
         + CountWrites(job, StatusAfter(job, status, rounds[0].target, rounds[0].calls), rounds[1..])
  }

  function CountLostMarks(job: Job, status: string, rounds: seq<Round>): nat
    decreases |rounds|
  {
    if rounds == [] then 0
    else (if LosesMark(job, status, rounds[0]) then 1 else 0)
         + CountLostMarks(job, StatusAfter(job, status, rounds[0].target, rounds[0].calls), rounds[1..])
  }

  function FinalStatus(job: Job, status: string, rounds: seq<Round>): string
    decreases |rounds|
  {
    if rounds == [] then status
    else FinalStatus(job, StatusAfter(job, status, rounds[0].target, rounds[0].calls), rounds[1..])
  }

  /** A rescue that is marked successful never writes again. */
  lemma {:induction false} SuccessfulRescueIsInert(job: Job, rounds: seq<Round>)
    ensures CountWrites(job, SUCCESSFUL, rounds) == 0 && CountLostMarks(job, SUCCESSFUL, rounds) == 0
    ensures FinalStatus(job, SUCCESSFUL, rounds) == SUCCESSFUL
  {
    if rounds != [] {
      SuccessfulRescueIsInert(job, rounds[1..]);
    }
  }

  /**
   Over all reconciles of one rescue, whatever happens to the target in between, the target is written
   once if the rescue ends up successful, and once more for every mark that was lost.
   */
  lemma {:induction false} WritesAreLostMarksAndOne(job: Job, status: string, rounds: seq<Round>)
    requires status != SUCCESSFUL && Acts(job)
    ensures CountWrites(job, status, rounds) ==
      CountLostMarks(job, status, rounds) + (if FinalStatus(job, status, rounds) == SUCCESSFUL then 1 else 0)
    decreases |rounds|
  {
    if rounds != [] {
      var next := StatusAfter(job, status, rounds[0].target, rounds[0].calls);
      if next == SUCCESSFUL {
        SuccessfulRescueIsInert(job, rounds[1..]);
      } else {
        WritesAreLostMarksAndOne(job, next, rounds[1..]);
      }
    }
  }

  /** The target after a skip whose mark is lost, one reconcile, and the repeated skip. */
  datatype SkippedTwice = SkippedTwice(first: Protocol.World, between: Protocol.World, again: Option<Protocol.World>)

  /** `again` is `None` when the repeated rescue finds no context any more. */
  function SkipTwice(w: Protocol.World, key: Protocol.ResourceKey, g: Config, q: Request, commits: bool): SkippedTwice
    requires Protocol.Enabled(w, Protocol.RescueSkip(key))
  {
    var w1 := Protocol.Apply(w, Protocol.RescueSkip(key));
    var w2 := ReconcileFaults.Now(w1, key, g, q, commits);
    var skip := Protocol.RescueSkip(key);
    SkippedTwice(w1, w2, if Protocol.Enabled(w2, skip) then Some(Protocol.Apply(w2, skip)) else None)
  }

  /**
   A lost mark is not harmless for a skip: with one reconcile of the target between the two writes, the second
   write skips the following task too, without any execution of it, exactly when that reconcile was written and
   kept the context. Otherwise it skips nothing new: it hits the same task again, or finds no context.
   */
  lemma {:induction false} LostMarkSkipsTwoTasksIff(
    w: Protocol.World, key: Protocol.ResourceKey, g: Config, q: Request, commits: bool)
    requires Protocol.Enabled(w, Protocol.RescueSkip(key)) && Protocol.Current(w, key).status != ""
    requires HasNext(Protocol.Current(w, key).tracked.value.context)
    ensures var t, s := Protocol.Current(w, key).tracked.value, SkipTwice(w, key, g, q, commits);
      var written := commits && !q.paused && !ReconcileFaults.StopsAtFinalizers(g, q);
      && (s.again.None? <==> written && q.drops)
      && (s.again.Some? ==>
            && s.again.value.history == w.history
            && s.again.value.skips == w.skips + {(t.epoch, t.context.idx)}
                 + (if written then {(t.epoch, t.context.idx + 1)} else {})
            && s.again.value.objects[key] != []
            && Protocol.Current(s.again.value, key).tracked ==
                 Some(Protocol.Skipped(if written then t.(context := NextTask(t.context)) else t)))
  {
    var t, s := Protocol.Current(w, key).tracked.value, SkipTwice(w, key, g, q, commits);
    var c := Protocol.Skipped(t).context;
    assert Protocol.Current(s.first, key).tracked == Some(Protocol.Skipped(t));
    BetweenSkips(s.first, key, g, q, commits);
    assert NextTask(c) == NextTask(t.context);
  }

  /** What a reconcile makes of a successful context that has a next task. */
  lemma {:induction false} BetweenSkips(
    w: Protocol.World, key: Protocol.ResourceKey, g: Config, q: Request, commits: bool)
    requires ReconcileFaults.Holds(w, key, Successful)
    requires HasNext(Protocol.Current(w, key).tracked.value.context)
    ensures var w' := ReconcileFaults.Now(w, key, g, q, commits);
      var t := Protocol.Current(w, key).tracked.value;
      && w'.objects[key] != [] && w'.history == w.history && w'.skips == w.skips
      && Protocol.Current(w', key).tracked ==
           if commits && !q.paused && !ReconcileFaults.StopsAtFinalizers(g, q)
           then (if q.drops then None else Some(t.(context := NextTask(t.context)))) else Some(t)
  {
  }

  /** The executions that the operator process runs for a resource. */
  ghost function Executing(w: Protocol.World, key: Protocol.ResourceKey): set<TaskId> {
    set id | id in w.manager.workers && id in w.history && w.history[id].owner == key && w.history[id].outcome.None?
  }

  /** A reconcile of a pending context puts exactly its new execution in progress. */
  lemma {:induction false} PendingStartsOneExecution(
    w: Protocol.World, key: Protocol.ResourceKey, g: Config, q: Request, commits: bool)
    requires ReconcileFaults.Holds(w, key, Pending) && !q.paused && q.resolves && q.newId !in w.history
    ensures Executing(ReconcileFaults.Now(w, key, g, q, commits), key) == Executing(w, key) + {q.newId}
  {
    var w' := ReconcileFaults.Now(w, key, g, q, commits);
    assert w'.manager == Submitted(w.manager, q.newId);
    assert w'.history - {q.newId} == w.history;
    assert w'.history[q.newId].owner == key && w'.history[q.newId].outcome.None?;
  }

  /**
   A retry rescue adds one execution to those in progress: the task runs twice at the same time
   exactly when it was applied while an execution of the resource had not returned.
   */
  lemma {:induction false} RetryAddsAnExecution(
    w: Protocol.World, key: Protocol.ResourceKey, g: Config, q: Request, commits: bool)
    requires key in w.objects && w.objects[key] != []
    requires Protocol.Current(w, key).status != "" && Protocol.Current(w, key).tracked.Some?
    requires !q.paused && q.resolves && q.newId !in w.history
    ensures var w1 := Protocol.Apply(w, Protocol.RescueRetry(key));
      && w1.objects[key] != []
      && var w2 := ReconcileFaults.Now(w1, key, g, q, commits);
         && Executing(w2, key) == Executing(w, key) + {q.newId}
         && (|Executing(w2, key)| <= 1 <==> Executing(w, key) == {})
  {
    var w1 := Protocol.Apply(w, Protocol.RescueRetry(key));
    assert Protocol.Current(w1, key).tracked == Some(Protocol.Retried(Protocol.Current(w, key).tracked.value));
    PendingStartsOneExecution(w1, key, g, q, commits);
    assert Executing(w1, key) == Executing(w, key);
    assert |Executing(w, key) + {q.newId}| == |Executing(w, key)| + 1;
  }
}
