/**
 Task flows and the coordinator: pkg/task/types/flow.go, pkg/coordinator/coordinator.go and the
 failure handling shared by the managers under internal/resource.

 The first half gives each operation as a function on snapshots of the objects; the second half
 is the source's objects, whose methods are proved against those functions.
 */
module TaskFlow {
  import opened Common
  import opened TaskManagement

  type TaskName = string

  datatype Strategy = RetryFromCurrent | StartOver | Pause | Unset | Unknown

  datatype FailureRule = FailureRule(strategy: Strategy, nextTryStatus: string, retryCount: int, maxRetry: int)

  /** A snapshot of an operation context. */
  datatype ContextView = ContextView(
    name: string, tasks: seq<TaskName>, task: TaskName, idx: nat,
    taskStatus: TaskStatus, taskId: TaskId, targetStatus: string, onFailure: FailureRule)

  /** What a resource manager does with the context of a failed task when its object is being deleted. */
  datatype DeletionRule = KeepOnDeletion | DropOnDeletion | DropTo(status: string)

  /**
   The points in which the resource managers differ, and the coordinator's configuration.
   `discards` is the status of managers that give up on any strategy they do not know.
   */
  datatype Config = Config(
    deleting: bool, onDeletion: DeletionRule, unsetStartsOver: bool, discards: Option<string>,
    initialStatus: string, idleStatus: string, archivedStatus: string,
    taskMaxRetryTimes: int, backoffThreshold: nat)

  // ---------------------------------------------------------------- flow and failure handling

  predicate HasNext(c: ContextView) {
    c.idx < |c.tasks|
  }

  function NextTask(c: ContextView): ContextView {
    if !HasNext(c) then c.(task := "")
    else c.(taskStatus := Pending, task := c.tasks[c.idx], idx := c.idx + 1, taskId := NoId)
  }

  /** The resource after a manager's operation: its status, and whether it still has the context. */
  datatype Handling = Handling(status: string, retained: bool, context: ContextView)

  function StartedOver(status: string, c: ContextView): Handling {
    if status != c.onFailure.nextTryStatus then Handling(c.onFailure.nextTryStatus, false, c)
    else Handling(status, true, c.(idx := 0, taskStatus := Empty, taskId := NoId, task := ""))
  }

  function FailureHandled(g: Config, status: string, c: ContextView): Handling {
    if g.deleting && g.onDeletion.DropOnDeletion? then Handling(status, false, c)
    else if g.deleting && g.onDeletion.DropTo? then Handling(g.onDeletion.status, false, c)
    else
      match c.onFailure.strategy
      case StartOver => StartedOver(status, c)
      case RetryFromCurrent => Handling(status, true, c.(taskStatus := Pending))
      case Pause => Handling(status, true, c)
      case _ =>
        if c.onFailure.strategy.Unset? && g.unsetStartsOver then StartedOver(status, c)
        else if g.discards.Some? then
          Handling(if c.onFailure.nextTryStatus == "" then g.discards.value else c.onFailure.nextTryStatus, false, c)
        else Handling(status, true, c)
  }

  function RetryLimit(g: Config, rule: FailureRule): int {
    if rule.maxRetry != 0 then rule.maxRetry else g.taskMaxRetryTimes
  }

  predicate Limited(rule: FailureRule) {
    rule.strategy.RetryFromCurrent? || rule.strategy.StartOver?
  }

  // ---------------------------------------------------------------- executeTaskFlow

  datatype Effect =
    | Cleared | Advanced | Submitting | Unresolved | Waited | Observed | Finished | Retried | Archived

  /** The flow's own context is `flow`; the resource holds it too when `retained`. */
  datatype Execution = Execution(status: string, retained: bool, flow: ContextView, effect: Effect)

  function Execute(g: Config, status: string, c: ContextView, resolves: bool, newId: TaskId, poll: Poll): Execution {
    match c.taskStatus
    case Empty =>
      if HasNext(c) then Execution(status, true, NextTask(c), Advanced)
      else Execution(g.idleStatus, false, c, Cleared)
    case Pending =>
      if resolves then Execution(status, true, c.(taskId := newId, taskStatus := Running), Submitting)
      else Execution(status, true, c, Unresolved)
    case Running =>
      (match poll
       case NotReady => Execution(status, true, c, Waited)
       case Ready(result) => Execution(status, true, c.(taskStatus := result.status), Observed)
       case _ => Execution(status, true, c.(taskStatus := Failed), Observed))
    case Successful =>
      if HasNext(c) then Execution(status, true, NextTask(c), Advanced)
      else Execution(c.targetStatus, false, c, Finished)
    case Failed =>
      if Limited(c.onFailure) && c.onFailure.retryCount > RetryLimit(g, c.onFailure) then
        Execution(g.archivedStatus, false, c, Archived)
      else
        var h := FailureHandled(g, status, c);
        var counted := h.context.onFailure.(retryCount := h.context.onFailure.retryCount + 1);
        Execution(h.status, h.retained, if Limited(c.onFailure) then h.context.(onFailure := counted)
          else h.context, Retried)
  }

  function ObservedStatus(poll: Poll): TaskStatus {
    match poll
    case NotReady => Running
    case Ready(result) => result.status
    case _ => Failed
  }

  /** The moves a context can make while its resource retains it. */
  predicate Moved(c: ContextView, after: ContextView, newId: TaskId, poll: Poll) {
    match c.taskStatus
    case Empty => HasNext(c) && after == NextTask(c)
    case Pending => after == c || after == c.(taskId := newId, taskStatus := Running)
    case Running => after == c.(taskStatus := ObservedStatus(poll))
    case Successful => HasNext(c) && after == NextTask(c)
    case Failed =>
      || after == c
      || after == c.(taskStatus := Pending, onFailure := c.onFailure.(retryCount := c.onFailure.retryCount + 1))
      || after.(onFailure := c.onFailure) == c.(idx := 0, taskStatus := Empty, taskId := NoId, task := "")
  }

  lemma {:induction false} ExecuteMoves(
    g: Config, status: string, c: ContextView, resolves: bool, newId: TaskId, poll: Poll)
    ensures var ex := Execute(g, status, c, resolves, newId, poll);
      && (ex.retained ==> Moved(c, ex.flow, newId, poll))
      && (ex.effect.Submitting? <==> c.taskStatus.Pending? && resolves)
      && (!ex.retained ==>
            && ex.flow.taskStatus == c.taskStatus && ex.flow.taskId == c.taskId
            && !c.taskStatus.Pending? && !c.taskStatus.Running?)
      && (ex.effect.Finished? ==> c.taskStatus.Successful? && !HasNext(c))
  {
  }

  /** What `executeTaskFlow` does to the task manager. */
  function ManagerAfter(s: ManagerState, c: ContextView, resolves: bool, newId: TaskId): ManagerState {
    match c.taskStatus
    case Pending => if resolves then Submitted(s, newId) else s
    case Running => Polled(s, c.taskId)
    case _ => s
  }

  function CleanedAfter(s: ManagerState, flow: ContextView): ManagerState {
    if flow.taskStatus.Successful? || flow.taskStatus.Failed? then Cleaned(s, flow.taskId) else s
  }

  // ---------------------------------------------------------------- Coordinate

  datatype FlowChoice = FlowError | NoFlow | NewFlow(context: ContextView)

  /**
   What one reconcile meets: annotations, lookups, the fresh task id, and what `UpdateStatus` does before it
   writes: the status it puts in, if any, and whether it drops the context.
   */
  datatype Request = Request(
    paused: bool, choice: FlowChoice, resolves: bool, newId: TaskId,
    ignoreDeletion: bool, finalizersOk: bool, observed: Option<string>, drops: bool)

  datatype Stored = Stored(status: string, context: Option<ContextView>)

  /** `write` is what `UpdateStatus` sends to the API server, `None` when it is not reached. */
  datatype Reconciled = Reconciled(manager: ManagerState, write: Option<Stored>, requeueAfter: nat,
    execution: Option<Execution>)

  const NORMAL_REQUEUE := 30
  const EXECUTION_REQUEUE := 1
  const PAUSED_REQUEUE := 5

  function Pow2(n: nat): (p: nat)
    ensures p >= 1
  {
    if n == 0 then 1 else 2 * Pow2(n - 1)
  }

  function Backoff(g: Config, retryCount: int): nat
    requires retryCount > 0
  {
    EXECUTION_REQUEUE * Pow2(Min(retryCount, g.backoffThreshold))
  }

  function FlowOf(stored: Stored, q: Request): Option<ContextView> {
    if stored.context.Some? then stored.context
    else if q.choice.NewFlow? then Some(q.choice.context)
    else None
  }

  /** The part of `Coordinate` after the task flow: finalizers, cleaning, the status write. */
  function Concluded(
    g: Config, before: string, after: Stored, m: ManagerState, ex: Option<Execution>, requeue: nat,
    q: Request): Reconciled {
    var finalizing := g.deleting && !q.ignoreDeletion;
    if finalizing && !q.finalizersOk then Reconciled(m, None, requeue, ex)
    else
      var cleaned := if ex.Some? then CleanedAfter(m, ex.value.flow) else m;
      var status := if q.observed.Some? then q.observed.value else after.status;
      var soon := finalizing || status != before;
      var context := if q.drops then None else after.context;
      Reconciled(cleaned, Some(Stored(status, context)), if soon then EXECUTION_REQUEUE else requeue, ex)
  }

  function Coordinate(g: Config, stored: Stored, m: ManagerState, q: Request): Reconciled {
    if stored.status == "" then
      Concluded(g, "", Stored(g.initialStatus, None), m, None, EXECUTION_REQUEUE, q)
    else if q.paused then Reconciled(m, None, PAUSED_REQUEUE, None)
    else if stored.context.None? && q.choice.FlowError? then Reconciled(m, None, EXECUTION_REQUEUE, None)
    else
      var flow := FlowOf(stored, q);
      if flow.None? then Concluded(g, stored.status, stored, m, None, NORMAL_REQUEUE, q)
      else
        var c := flow.value;
        var ex := Execute(g, stored.status, c, q.resolves, q.newId, PollOf(m, c.taskId));
        var after := Stored(ex.status, if ex.retained then Some(ex.flow) else None);
        var rule := ex.flow.onFailure;
        var requeue := if rule.retryCount > 0
          && ex.flow.taskStatus.Failed? then Backoff(g, rule.retryCount) else EXECUTION_REQUEUE;
        Concluded(g, stored.status, after, ManagerAfter(m, c, q.resolves, q.newId), Some(ex), requeue, q)
  }

  /** The shapes in which a reconcile can leave the task manager. */
  predicate ManagerMoved(m: ManagerState, m': ManagerState, c: ContextView, q: Request) {
    match c.taskStatus
    case Pending => m' == if q.resolves then Submitted(m, q.newId) else m
    case Running => m' == Polled(m, c.taskId) || m' == Cleaned(Polled(m, c.taskId), c.taskId)
    case _ => m' == m || m' == Cleaned(m, c.taskId)
  }

  /** One reconcile of a resource with flow `c`, in terms of the moves above. */
  predicate ReconcileMoved(m: ManagerState, c: ContextView, q: Request, r: Reconciled) {
    && (r.execution.None? ==> r.manager == m && (r.write.Some? ==> r.write.value.context.None?))
    && (r.execution.Some? ==>
          && ManagerMoved(m, r.manager, c, q)
          && (r.execution.value.effect.Submitting? <==> c.taskStatus.Pending? && q.resolves)
          && (r.write.Some? && r.write.value.context.Some? ==>
                && Moved(c, r.write.value.context.value, q.newId, PollOf(m, c.taskId))
                && (c.taskStatus.Pending? ==> r.write.value.context.value.taskStatus.Running? == q.resolves)))
  }

  lemma {:induction false} CoordinateMoves(g: Config, stored: Stored, m: ManagerState, q: Request)
    requires FlowOf(stored, q).Some?
    ensures ReconcileMoved(m, FlowOf(stored, q).value, q, Coordinate(g, stored, m, q))
  {
    var c := FlowOf(stored, q).value;
    ExecuteMoves(g, stored.status, c, q.resolves, q.newId, PollOf(m, c.taskId));
  }

  /** Without a flow a reconcile leaves the task manager alone and stores no context. */
  lemma {:induction false} CoordinateWithoutFlow(g: Config, stored: Stored, m: ManagerState, q: Request)
    requires FlowOf(stored, q).None?
    ensures var r := Coordinate(g, stored, m, q);
      r.manager == m && r.execution.None? && (r.write.Some? ==> r.write.value.context.None?)
  {
  }

  /** The backoff doubles with every retry up to the threshold and is constant from there on. */
  lemma {:induction false} BackoffDoublesUpToThreshold(g: Config, retryCount: int)
    requires retryCount > 0
    ensures retryCount < g.backoffThreshold ==> Backoff(g, retryCount + 1) == 2 * Backoff(g, retryCount)
    ensures retryCount >= g.backoffThreshold ==> Backoff(g, retryCount) == Pow2(g.backoffThreshold)
    ensures EXECUTION_REQUEUE <= Backoff(g, retryCount) <= Pow2(g.backoffThreshold)
  {
    Pow2Grows(Min(retryCount, g.backoffThreshold), g.backoffThreshold);
  }

  lemma {:induction false} Pow2Grows(a: nat, b: nat)
    requires a <= b
    ensures Pow2(a) <= Pow2(b)
  {
    if a < b {
      Pow2Grows(a, b - 1);
    }
  }

  // ---------------------------------------------------------------- the objects of the source

  class OperationContext {
    var name: string
    var tasks: seq<TaskName>
    var task: TaskName
    var idx: nat
    var taskStatus: TaskStatus
    var taskId: TaskId
    var targetStatus: string
    var onFailure: FailureRule

    function View(): ContextView
      reads this
    {
      ContextView(name, tasks, task, idx, taskStatus, taskId, targetStatus, onFailure)
    }

    constructor (v: ContextView)
      ensures View() == v
    {
      name, tasks, task, idx := v.name, v.tasks, v.task, v.idx;
      taskStatus, taskId, targetStatus, onFailure := v.taskStatus, v.taskId, v.targetStatus, v.onFailure;
    }

    method Next()
      modifies this
      ensures View() == NextTask(old(View()))
    {
      if idx >= |tasks| {
        task := "";
      } else {
        taskStatus := Pending;
        task := tasks[idx];
        idx := idx + 1;
        taskId := NoId;
      }
    }
  }

  /** A resource manager: the object's status and its possibly absent operation context. */
  class ResourceManager {
    const config: Config
    var status: string
    var context: OperationContext?

    constructor (g: Config, status: string, context: OperationContext?)
      ensures config == g && this.status == status && this.context == context
    {
      config := g;
      this.status := status;
      this.context := context;
    }

    ghost function Object(): Stored
      reads this, context
    {
      Stored(status, if context == null then None else Some(context.View()))
    }

    method ClearTaskInfo()
      modifies this
      ensures status == config.idleStatus && context == null
    {
      status := config.idleStatus;
      context := null;
    }

    method FinishTask()
      requires context != null
      modifies this
      ensures status == old(context.targetStatus) && context == null
    {
      status := context.targetStatus;
      context := null;
    }

    method ArchiveResource()
      modifies this
      ensures status == config.archivedStatus && context == null
    {
      status := config.archivedStatus;
      context := null;
    }

    /** The caller keeps its own reference to the context, also when the resource drops it. */
    method HandleFailure()
      requires context != null
      modifies this, context
      ensures var h := FailureHandled(config, old(status), old(context.View()));
        && status == h.status
        && old(context).View() == h.context
        && context == (if h.retained then old(context) else null)
    {
      if config.deleting && !config.onDeletion.KeepOnDeletion? {
        if config.onDeletion.DropTo? {
          status := config.onDeletion.status;
        }
        context := null;
        return;
      }
      var rule := context.onFailure;
      match rule.strategy {
        case StartOver => StartOverContext();
        case RetryFromCurrent => context.taskStatus := Pending;
        case Pause =>
        case Unset =>
          if config.unsetStartsOver { StartOverContext(); } else { DiscardContext(); }
        case Unknown => DiscardContext();
      }
    }

    method DiscardContext()
      requires context != null
      modifies this
      ensures old(context).View() == old(context.View())
      ensures context == (if config.discards.Some? then null else old(context))
      ensures status == (if config.discards.None? then old(status)
                         else if old(context.onFailure).nextTryStatus == "" then config.discards.value
                         else old(context.onFailure).nextTryStatus)
    {
      if config.discards.Some? {
        status := if context.onFailure.nextTryStatus == "" then config.discards.value
          else context.onFailure.nextTryStatus;
        context := null;
      }
    }

    method StartOverContext()
      requires context != null
      modifies this, context
      ensures var h := StartedOver(old(status), old(context.View()));
        && status == h.status
        && old(context).View() == h.context
        && context == (if h.retained then old(context) else null)
    {
      if status != context.onFailure.nextTryStatus {
        status := context.onFailure.nextTryStatus;
        context := null;
      } else {
        context.idx := 0;
        context.taskStatus := Empty;
        context.taskId := NoId;
        context.task := "";
      }
    }
  }

  class Coordinator {
    const manager: ResourceManager
    const tasks: TaskManager

    constructor (manager: ResourceManager, tasks: TaskManager)
      ensures this.manager == manager && this.tasks == tasks
    {
      this.manager := manager;
      this.tasks := tasks;
    }

    /** `resolves` says whether `GetTaskFunc` finds the task's function, `newId` is the UUID drawn. */
    method ExecuteTaskFlow(f: OperationContext, resolves: bool, newId: TaskId)
      requires manager.context == f && Sound(tasks.State()) && newId !in tasks.workers
      modifies manager, f, tasks
      ensures var c := old(f.View());
        var ex := Execute(manager.config, old(manager.status), c, resolves, newId,
          PollOf(old(tasks.State()), c.taskId));
        && manager.status == ex.status
        && manager.context == (if ex.retained then f else null)
        && f.View() == ex.flow
        && tasks.State() == ManagerAfter(old(tasks.State()), c, resolves, newId)
        && Sound(tasks.State())
    {
      match f.taskStatus {
        case Empty =>
          if f.idx >= |f.tasks| { manager.ClearTaskInfo(); } else { f.Next(); }
        case Pending =>
          if resolves {
            tasks.Submit(newId);
            f.taskId := newId;
            f.taskStatus := Running;
          }
        case Running =>
          var poll := tasks.GetTaskResult(f.taskId);
          match poll {
            case NotReady =>
            case Ready(result) => f.taskStatus := result.status;
            case _ => f.taskStatus := Failed;
          }
        case Successful =>
          if f.idx >= |f.tasks| { manager.FinishTask(); } else { f.Next(); }
        case Failed =>
          ExecuteFailed(f);
      }
    }

    method ExecuteFailed(f: OperationContext)
      requires manager.context == f && f.taskStatus.Failed?
      modifies manager, f
      ensures var c := old(f.View());
        var ex := Execute(manager.config, old(manager.status), c, false, NoId, NotReady);
        && manager.status == ex.status
        && manager.context == (if ex.retained then f else null)
        && f.View() == ex.flow
    {
      match f.onFailure.strategy {
        case RetryFromCurrent | StartOver =>
          var maxRetry := manager.config.taskMaxRetryTimes;
          if f.onFailure.maxRetry != 0 {
            maxRetry := f.onFailure.maxRetry;
          }
          if f.onFailure.retryCount > maxRetry {
            manager.ArchiveResource();
          } else {
            manager.HandleFailure();
            f.onFailure := f.onFailure.(retryCount := f.onFailure.retryCount + 1);
          }
        case _ =>
          manager.HandleFailure();
      }
    }

    method CleanTaskResultMap(f: OperationContext?)
      requires Sound(tasks.State())
      modifies tasks
      ensures tasks.State() == (if f == null then old(tasks.State()) else CleanedAfter(old(tasks.State()), f.View()))
      ensures Sound(tasks.State())
    {
      if f == null {
        return;
      }
      if f.taskStatus.Successful? || f.taskStatus.Failed? {
        tasks.CleanTaskResult(f.taskId);
      }
    }

    /** Finalizers, cleaning and the status write, at the end of a reconcile. */
    method Conclude(f: OperationContext?, before: string, requeue: nat, ghost ex: Option<Execution>, q: Request)
      returns (requeueAfter: nat, write: Option<Stored>)
      requires Sound(tasks.State())
      requires if f == null then ex.None? else ex.Some? && ex.value.flow == f.View()
      modifies manager, tasks
      ensures var r := Concluded(manager.config, before, old(manager.Object()), old(tasks.State()), ex, requeue, q);
        && tasks.State() == r.manager && Sound(tasks.State())
        && write == r.write && requeueAfter == r.requeueAfter
    {
      requeueAfter := requeue;
      write := None;
      if manager.config.deleting && !q.ignoreDeletion {
        if !q.finalizersOk {
          return;
        }
        requeueAfter := EXECUTION_REQUEUE;
      }
      CleanTaskResultMap(f);
      if q.observed.Some? {
        manager.status := q.observed.value;
      }
      if q.drops {
        manager.context := null;
      }
      write := Some(Stored(manager.status, if manager.context == null then None else Some(manager.context.View())));
      if manager.status != before {
        requeueAfter := EXECUTION_REQUEUE;
      }
    }

    /** One reconcile. `write` is the status that the final `UpdateStatus` sends, if it is reached. */
    method Run(q: Request) returns (requeueAfter: nat, write: Option<Stored>)
      requires Sound(tasks.State()) && q.newId !in tasks.workers
      modifies manager, manager.context, tasks
      ensures var r := Coordinate(manager.config, old(manager.Object()), old(tasks.State()), q);
        && tasks.State() == r.manager && Sound(tasks.State())
        && write == r.write && requeueAfter == r.requeueAfter
    {
      var before := manager.status;
      if manager.status == "" {
        manager.status := manager.config.initialStatus;
        manager.context := null;
        requeueAfter, write := Conclude(null, before, EXECUTION_REQUEUE, None, q);
      } else if q.paused {
        return PAUSED_REQUEUE, None;
      } else if manager.context == null && q.choice.FlowError? {
        return EXECUTION_REQUEUE, None;
      } else if manager.context == null && q.choice.NoFlow? {
        requeueAfter, write := Conclude(null, before, NORMAL_REQUEUE, None, q);
      } else {
        if manager.context == null {
          manager.context := new OperationContext(q.choice.context);
        }
        requeueAfter, write := RunFlow(manager.context, q);
      }
    }

    method RunFlow(f: OperationContext, q: Request) returns (requeueAfter: nat, write: Option<Stored>)
      requires manager.context == f && Sound(tasks.State()) && q.newId !in tasks.workers
      requires manager.status != "" && !q.paused
      modifies manager, f, tasks
      ensures var r := Coordinate(manager.config, old(manager.Object()), old(tasks.State()), q);
        && tasks.State() == r.manager && Sound(tasks.State())
        && write == r.write && requeueAfter == r.requeueAfter
    {
      var before := manager.status;
      ghost var ex := Execute(manager.config, before, f.View(), q.resolves, q.newId, PollOf(tasks.State(), f.taskId));
      ExecuteTaskFlow(f, q.resolves, q.newId);
      var requeue := EXECUTION_REQUEUE;
      if f.onFailure.retryCount > 0 && f.taskStatus.Failed? {
        requeue := Backoff(manager.config, f.onFailure.retryCount);
      }
      requeueAfter, write := Conclude(f, before, requeue, Some(ex), q);
    }
  }
}
