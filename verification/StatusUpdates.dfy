/**
 The two managers whose `UpdateStatus` also drops the operation context, after the results were cleaned:
 tenants (internal/resource/obtenant/obtenant_manager.go) when a restore is canceled, and backup policies
 (internal/resource/obtenantbackuppolicy/obtenantbackuppolicy_manager.go) when one is suspended or deleted.
 With a running task both orphan its execution, in a run without any fault.
 */
module StatusUpdates {
  import opened Common
  import opened TaskManagement
  import opened TaskFlow
  import opened Protocol
  import opened OrderlyRuns
  import ReconcileFaults

  const TENANT_FINISHED := "finalizer finished"
  const TENANT_DELETING := "deleting"
  const TENANT_RESTORING := "restoring"
  const TENANT_CANCELING := "canceling restore"
  const TENANT_RUNNING := "running"

  const POLICY_PREPARED := "PREPARED"
  const POLICY_RUNNING := "RUNNING"
  const POLICY_PAUSING := "PAUSING"
  const POLICY_PAUSED := "PAUSED"
  const POLICY_STOPPED := "STOPPED"
  const POLICY_RESUMING := "RESUMING"
  const POLICY_DELETING := "DELETING"
  const POLICY_MAINTAINING := "MAINTAINING"

  /** The status that is written, and whether the context is dropped. */
  datatype Update = Update(status: string, drops: bool)

  /** `None` when nothing is written; `next` is the status that the database calls for. */
  function TenantUpdate(status: string, deleting: bool, cancels: bool, next: string): Option<Update> {
    if status == TENANT_FINISHED then None
    else if deleting then Some(Update(TENANT_DELETING, false))
    else if status == TENANT_RESTORING && cancels then Some(Update(TENANT_CANCELING, true))
    else Some(Update(if status == TENANT_RUNNING then next else status, false))
  }

  function PolicyUpdate(status: string, deleting: bool, suspend: bool, next: string): Update {
    if suspend && status == POLICY_RUNNING then Update(POLICY_PAUSING, true)
    else if !suspend && status == POLICY_PAUSED then Update(POLICY_RESUMING, false)
    else if deleting then
      if status in {POLICY_PAUSED, POLICY_RUNNING, POLICY_MAINTAINING, POLICY_PAUSING, POLICY_PREPARED, POLICY_RESUMING}
      then Update(POLICY_DELETING, true)
      else if status == POLICY_DELETING then Update(status, false)
      else Update(POLICY_STOPPED, true)
    else Update(if status == POLICY_RUNNING then next else status, false)
  }

  // ---------------------------------------------------------------- the managers' methods

  /** `cancels`: the spec asks to cancel the restore. `written` is false where the source returns early. */
  method UpdateTenantStatus(m: ResourceManager, cancels: bool, next: string) returns (written: bool)
    modifies m
    ensures var u := TenantUpdate(old(m.status), m.config.deleting, cancels, next);
      && written == u.Some?
      && m.status == (if u.Some? then u.value.status else old(m.status))
      && m.context == (if u.Some? && u.value.drops then null else old(m.context))
  {
    if m.status == TENANT_FINISHED {
      return false;
    } else if m.config.deleting {
      m.status := TENANT_DELETING;
    } else if m.status == TENANT_RESTORING && cancels {
      m.context := null;
      m.status := TENANT_CANCELING;
    } else if m.status == TENANT_RUNNING {
      m.status := next;
    }
    return true;
  }

  method UpdatePolicyStatus(m: ResourceManager, suspend: bool, next: string)
    modifies m
    ensures var u := PolicyUpdate(old(m.status), m.config.deleting, suspend, next);
      m.status == u.status && m.context == (if u.drops then null else old(m.context))
  {
    if suspend && m.status == POLICY_RUNNING {
      m.status := POLICY_PAUSING;
      m.context := null;
    } else if !suspend && m.status == POLICY_PAUSED {
      m.status := POLICY_RESUMING;
    } else if m.config.deleting {
      if m.status in {POLICY_PAUSED, POLICY_RUNNING, POLICY_MAINTAINING, POLICY_PAUSING, POLICY_PREPARED,
                      POLICY_RESUMING} {
        m.status := POLICY_DELETING;
        m.context := null;
      } else if m.status != POLICY_DELETING {
        m.status := POLICY_STOPPED;
        m.context := null;
      }
    } else if m.status == POLICY_RUNNING {
      m.status := next;
    }
  }

  /** Exactly when a context is dropped; a paused policy that is not suspended resumes even when deleted. */
  lemma {:induction false} DropsIff(status: string, deleting: bool, flag: bool, next: string)
    ensures var u := TenantUpdate(status, deleting, flag, next);
      u.Some? && u.value.drops <==> !deleting && flag && status == TENANT_RESTORING
    ensures PolicyUpdate(status, deleting, flag, next).drops <==>
      || (flag && status == POLICY_RUNNING)
      || (deleting && status != POLICY_DELETING && (flag || status != POLICY_PAUSED))
  {
  }

  /** A deleted tenant says so until its finalizer finished; a canceled restore is left once and for all. */
  lemma {:induction false} TenantStatuses(status: string, deleting: bool, cancels: bool, next: string)
    ensures TenantUpdate("finalizer finished", deleting, cancels, next).None?
    ensures status != "finalizer finished" ==>
      TenantUpdate(status, true, cancels, next) == Some(Update("deleting", false))
    ensures TenantUpdate("restoring", false, true, next) == Some(Update("canceling restore", true))
    ensures TenantUpdate("restoring", false, false, next) == Some(Update("restoring", false))
    ensures TenantUpdate("running", false, cancels, next) == Some(Update(next, false))
    ensures status !in {"finalizer finished", "restoring", "running"} ==>
      TenantUpdate(status, false, cancels, next) == Some(Update(status, false))
  {
  }

  /**
   Once a policy is deleted, two updates take it from any status to the deleting or the stopped one: a pause that
   is not suspended is resumed first, and a suspended running policy paused first. The deleting status then stays,
   with its context, until a flow finishes it.
   */
  lemma {:induction false} DeletedPolicyEnds(status: string, suspend: bool, next: string, next': string)
    ensures var once := PolicyUpdate(status, true, suspend, next);
      var twice := PolicyUpdate(once.status, true, suspend, next');
      && twice.status in {"DELETING", "STOPPED"}
      && (once.status !in {"DELETING", "STOPPED"} <==>
            (suspend && status == "RUNNING") || (!suspend && status == "PAUSED"))
      && (status in {"PAUSED", "RUNNING", "MAINTAINING", "PAUSING", "PREPARED", "RESUMING", "DELETING"} <==>
            twice.status == "DELETING")
    ensures PolicyUpdate("DELETING", true, suspend, next) == Update("DELETING", false)
  {
  }

  /** A policy that is not deleted pauses and resumes as its spec says, and moves on only when it is running. */
  lemma {:induction false} KeptPolicyStatuses(status: string, suspend: bool, next: string)
    ensures PolicyUpdate("RUNNING", false, true, next) == Update("PAUSING", true)
    ensures PolicyUpdate("PAUSED", false, false, next) == Update("RESUMING", false)
    ensures PolicyUpdate("RUNNING", false, false, next) == Update(next, false)
    ensures PolicyUpdate("PAUSED", false, true, next) == Update("PAUSED", false)
    ensures status !in {"RUNNING", "PAUSED"} ==> PolicyUpdate(status, false, suspend, next) == Update(status, false)
  {
  }

  // ---------------------------------------------------------------- what a drop leaves behind

  /** A reconcile of the current version of `key`, which is written. */
  function Reconciling(w: World, key: ResourceKey, g: Config, q: Request): Step
    requires key in w.objects && w.objects[key] != []
  {
    Reconcile(key, |w.objects[key]| - 1, g, q, true)
  }

  /** The update is what the reconcile meets. */
  predicate Meets(q: Request, u: Update) {
    q.observed == Some(u.status) && q.drops == u.drops
  }

  /** The current version of `key` awaits execution `id`, which has no result yet. */
  ghost predicate RunsAlone(w: World, key: ResourceKey, id: TaskId) {
    && Inv(w) && ReconcileFaults.Holds(w, key, Running)
    && Current(w, key).tracked.value.context.taskId == id && PollOf(w.manager, id) == NotReady
  }

  /** The step leaves `key` without context, while `id` goes on and its result is kept. */
  ghost predicate LeavesOrphan(w: World, step: Step, key: ResourceKey, id: TaskId, status: string)
    requires Enabled(w, step)
  {
    var w' := Apply(w, step);
    && Orderly(w, step) && Orphaned(w, step) == {id}
    && key in w'.objects && w'.objects[key] != [] && Current(w', key) == Version(status, None)
    && id in KeptResults(w', key) && id in w.history && (id in InFlight(w', key) <==> w.history[id].outcome.None?)
  }

  lemma {:induction false} DroppingOrphans(
    w: World, key: ResourceKey, g: Config, q: Request, id: TaskId, status: string)
    requires RunsAlone(w, key, id) && Enabled(w, Reconciling(w, key, g, q)) && !q.paused
    requires q.drops && q.observed == Some(status) && status != "" && !ReconcileFaults.StopsAtFinalizers(g, q)
    ensures LeavesOrphan(w, Reconciling(w, key, g, q), key, id, status)
  {
    var v := Current(w, key);
    assert Good(w, key, v.tracked.value);
    PollHonest(w, id);
  }

  /** Canceling a restore while one of its tasks runs. */
  lemma {:induction false} CanceledRestoreOrphans(
    w: World, key: ResourceKey, g: Config, q: Request, id: TaskId, next: string)
    requires RunsAlone(w, key, id) && Enabled(w, Reconciling(w, key, g, q)) && !q.paused
    requires Current(w, key).status == TENANT_RESTORING && !g.deleting
    requires Meets(q, TenantUpdate(Current(w, key).status, g.deleting, true, next).value)
    ensures LeavesOrphan(w, Reconciling(w, key, g, q), key, id, TENANT_CANCELING)
  {
    DroppingOrphans(w, key, g, q, id, TENANT_CANCELING);
  }

  /** Deleting a backup policy while one of its tasks runs, in any status but the deleting one. */
  lemma {:induction false} DeletedPolicyOrphans(
    w: World, key: ResourceKey, g: Config, q: Request, id: TaskId, suspend: bool, next: string)
    requires RunsAlone(w, key, id) && Enabled(w, Reconciling(w, key, g, q)) && !q.paused
    requires g.deleting && (q.ignoreDeletion || q.finalizersOk)
    requires Current(w, key).status != POLICY_DELETING && (suspend || Current(w, key).status != POLICY_PAUSED)
    requires Meets(q, PolicyUpdate(Current(w, key).status, g.deleting, suspend, next))
    ensures LeavesOrphan(w, Reconciling(w, key, g, q), key, id,
                     PolicyUpdate(Current(w, key).status, g.deleting, suspend, next).status)
  {
    var u := PolicyUpdate(Current(w, key).status, g.deleting, suspend, next);
    DropsIff(Current(w, key).status, g.deleting, suspend, next);
    DroppingOrphans(w, key, g, q, id, u.status);
  }

  /** A reset rescue does the same to any resource. */
  lemma {:induction false} ResetOrphans(w: World, key: ResourceKey, id: TaskId, status: string)
    requires RunsAlone(w, key, id)
    ensures Enabled(w, RescueReset(key, status)) && LeavesOrphan(w, RescueReset(key, status), key, id, status)
  {
    assert Good(w, key, Current(w, key).tracked.value);
    PollHonest(w, id);
  }

  /**
   Two more reconciles, one that starts the next flow (canceling the restore, stopping the policy) and one
   that submits its first task, put a second execution of the resource in flight beside the orphan.
   */
  lemma {:induction false} NextFlowRunsBesideOrphan(
    w: World, key: ResourceKey, id: TaskId, g: Config, q: Request, g': Config, q': Request)
    requires key in w.objects && w.objects[key] != [] && Current(w, key).tracked.None? && Current(w, key).status != ""
    requires id in InFlight(w, key)
    requires Enabled(w, Reconciling(w, key, g, q)) && Orderly(w, Reconciling(w, key, g, q))
    requires q.choice.NewFlow? && q.choice.context.tasks != [] && !q.paused && !q.drops
    requires !q'.paused && q'.resolves && q'.newId != NoId && q'.newId !in w.history
    requires q'.choice.NewFlow? ==> FreshFlow(q'.choice.context)
    ensures var w1 := Apply(w, Reconciling(w, key, g, q));
      && w1.objects[key] != []
      && var w2 := Apply(w1, Reconciling(w1, key, g', q'));
         {id, q'.newId} <= InFlight(w2, key)
  {
    var w1 := Apply(w, Reconciling(w, key, g, q));
    assert ReconcileFaults.Holds(w1, key, Pending);
  }
}
