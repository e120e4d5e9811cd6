/**
 The whole reconcile protocol as a step system: many resources whose statuses live in the API
 server, one task manager process, and an environment that may serve stale reads, lose status
 writes, abort on finalizers, restart the operator and apply rescues at any moment.
 */
module Protocol {
  import opened Common
  import opened TaskManagement
  import opened TaskFlow

  datatype ResourceKey = ResourceKey(uid: nat)

  /** A context together with the number of the pass through the flow it belongs to. */
  datatype Tracked = Tracked(context: ContextView, epoch: nat)

  /** One stored version of a resource's status. */
  datatype Version = Version(status: string, tracked: Option<Tracked>)

  /** The history of one submitted task; `position` counts the flow's tasks from one. */
  datatype Attempt = Attempt(
    owner: ResourceKey, epoch: nat, position: nat, serial: int, task: TaskName, outcome: Option<Outcome>)

  /**
   `objects` keeps every version ever stored, the last one being current. `history` and `skips`
   record what happened and `nextEpoch` numbers the passes; no code reads these three.
   */
  datatype World = World(
    manager: ManagerState,
    objects: map<ResourceKey, seq<Version>>,
    history: map<TaskId, Attempt>,
    skips: set<(nat, nat)>,
    nextEpoch: nat)

  datatype Step =
    | Create(key: ResourceKey)
    | Reconcile(key: ResourceKey, read: nat, config: Config, request: Request, commits: bool)
    | Work(id: TaskId, work: WorkerStep)
    | Restart
    | RescueReset(key: ResourceKey, status: string)
    | RescueRetry(key: ResourceKey)
    | RescueSkip(key: ResourceKey)

  // ---------------------------------------------------------------- steps

  function Current(w: World, key: ResourceKey): Version
    requires key in w.objects && w.objects[key] != []
  {
    w.objects[key][|w.objects[key]| - 1]
  }

  /** A flow as the managers build it. */
  predicate FreshFlow(c: ContextView) {
    c.idx == 0 && c.task == "" && c.taskStatus.Empty? && c.taskId == NoId && c.onFailure.retryCount == 0
  }

  predicate Enabled(w: World, step: Step) {
    match step
    case Create(key) => key !in w.objects
    case Reconcile(key, read, _, q, _) =>
      && key in w.objects && read < |w.objects[key]|
      && q.newId != NoId && q.newId !in w.history
      && (q.choice.NewFlow? ==> FreshFlow(q.choice.context))
    case Work(id, work) => CanWork(w.manager, id, work) && id in w.history
    case Restart => true
    case RescueReset(key, _) => key in w.objects && w.objects[key] != []
    case RescueRetry(key) => key in w.objects && w.objects[key] != [] && Current(w, key).tracked.Some?
    case RescueSkip(key) => key in w.objects && w.objects[key] != [] && Current(w, key).tracked.Some?
  }

  function StoredOf(v: Version): Stored {
    Stored(v.status, if v.tracked.Some? then Some(v.tracked.value.context) else None)
  }

  function EpochOf(w: World, v: Version): nat {
    if v.tracked.Some? then v.tracked.value.epoch else w.nextEpoch
  }

  /** Starting a flow over in place opens a new pass. */
  predicate StartsOver(c: ContextView, after: ContextView) {
    c.taskStatus.Failed? && after.taskStatus.Empty?
  }

  function Serial(c: ContextView): int {
    c.onFailure.retryCount + c.idx
  }

  function Append(w: World, key: ResourceKey, v: Version): World
    requires key in w.objects
  {
    w.(objects := w.objects[key := w.objects[key] + [v]])
  }

  /** The world after a reconcile of flow `flow` that computed `r`. */
  function Recorded(
    w: World, key: ResourceKey, flow: Option<ContextView>, epoch: nat, r: Reconciled, newId: TaskId,
    commits: bool): World
    requires key in w.objects
  {
    var submits := r.execution.Some? && r.execution.value.effect.Submitting? && flow.Some?;
    var history :=
      if submits then
        w.history[newId := Attempt(key, epoch, flow.value.idx, Serial(flow.value), flow.value.task, None)]
      else w.history;
    var after := World(r.manager, w.objects, history, w.skips, w.nextEpoch + 1);
    if !commits || r.write.None? then after
    else
      var epoch' := if r.write.value.context.Some? && flow.Some? && StartsOver(flow.value, r.write.value.context.value)
                    then w.nextEpoch else epoch;
      var tracked := if r.write.value.context.Some? then Some(Tracked(r.write.value.context.value, epoch')) else None;
      Append(after, key, Version(r.write.value.status, tracked))
  }

  function AfterReconcile(w: World, key: ResourceKey, v: Version, g: Config, q: Request, commits: bool): World
    requires key in w.objects
  {
    Recorded(w, key, FlowOf(StoredOf(v), q), EpochOf(w, v), Coordinate(g, StoredOf(v), w.manager, q), q.newId, commits)
  }

  function Retried(t: Tracked): Tracked {
    t.(context := t.context.(taskStatus := Pending, onFailure := t.context.onFailure.(retryCount := 0)))
  }

  function Skipped(t: Tracked): Tracked {
    t.(context := t.context.(taskStatus := Successful))
  }

  function Apply(w: World, step: Step): World
    requires Enabled(w, step)
  {
    match step
    case Create(key) => w.(objects := w.objects[key := [Version("", None)]])
    case Reconcile(key, read, g, q, commits) => AfterReconcile(w, key, w.objects[key][read], g, q, commits)
    case Work(id, work) =>
      w.(manager := Worked(w.manager, id, work),
         history := if work.Return? then w.history[id := w.history[id].(outcome := Some(work.outcome))] else w.history)
    case Restart => w.(manager := EmptyManager(w.manager.poolSize))
    case RescueReset(key, status) => Append(w, key, Version(status, None))
    case RescueRetry(key) =>
      var v := Current(w, key);
      Append(w, key, v.(tracked := Some(Retried(v.tracked.value))))
    case RescueSkip(key) =>
      var v := Current(w, key);
      var t := v.tracked.value;
      Append(w.(skips := w.skips + {(t.epoch, t.context.idx)}), key, v.(tracked := Some(Skipped(t))))
  }

  function Start(poolSize: nat): World {
    World(EmptyManager(poolSize), map[], map[], {}, 0)
  }

  ghost predicate Runs(w: World, steps: seq<Step>, end: World)
    decreases |steps|
  {
    if steps == [] then end == w
    else Enabled(w, steps[0]) && Runs(Apply(w, steps[0]), steps[1..], end)
  }

  // ---------------------------------------------------------------- the invariant of every run

  /** How many of the flow's tasks the context counts as done. */
  function Passed(c: ContextView): nat {
    if c.taskStatus.Successful? then c.idx else if c.idx == 0 then 0 else c.idx - 1
  }

  predicate Shaped(c: ContextView) {
    && c.idx <= |c.tasks|
    && c.task == (if c.idx == 0 then "" else c.tasks[c.idx - 1])
    && (c.taskStatus.Empty? ==> c.idx == 0)
  }

  ghost predicate Ran(w: World, id: TaskId, key: ResourceKey, epoch: nat, position: nat, task: TaskName) {
    && id in w.history
    && w.history[id].owner == key && w.history[id].epoch == epoch
    && w.history[id].position == position && w.history[id].task == task
  }

  /** Task `i` of the flow: an execution of it, in this pass of this resource, returned nil; or it was skipped. */
  ghost predicate Justified(w: World, key: ResourceKey, epoch: nat, tasks: seq<TaskName>, i: nat) {
    && i < |tasks|
    && ( || (epoch, i + 1) in w.skips
         || exists id :: Ran(w, id, key, epoch, i + 1, tasks[i]) && w.history[id].outcome == Some(ReturnedNil))
  }

  ghost predicate AllJustified(w: World, key: ResourceKey, epoch: nat, tasks: seq<TaskName>, n: nat) {
    forall i :: 0 <= i < n ==> Justified(w, key, epoch, tasks, i)
  }

  ghost predicate Good(w: World, key: ResourceKey, t: Tracked) {
    && Shaped(t.context)
    && t.epoch < w.nextEpoch
    && AllJustified(w, key, t.epoch, t.context.tasks, Passed(t.context))
    && (t.context.taskStatus.Running? ==> Ran(w, t.context.taskId, key, t.epoch, t.context.idx, t.context.task))
  }

  ghost predicate ObjectsGood(w: World) {
    && (forall key :: key in w.objects ==> w.objects[key] != [])
    && (forall key, k :: key in w.objects && 0 <= k < |w.objects[key]| && w.objects[key][k].tracked.Some? ==>
          Good(w, key, w.objects[key][k].tracked.value))
  }

  ghost predicate WorkerHonest(w: World, id: TaskId)
    requires id in w.manager.workers
  {
    && id in w.history
    && w.history[id].outcome ==
         match w.manager.workers[id]
         case Waiting => None
         case Holding => None
         case Returned(o) => Some(o)
         case Sent(o) => Some(o)
         case Released(o) => Some(o)
         case Closed(o) => Some(o)
  }

  ghost predicate ManagerHonest(w: World) {
    && Sound(w.manager) && NothingLost(w.manager)
    && forall id :: id in w.manager.workers ==> WorkerHonest(w, id)
  }

  ghost predicate Inv(w: World) {
    ManagerHonest(w) && ObjectsGood(w)
  }

  /** The history only grows and never rewrites what it recorded. */
  ghost predicate Extends(w: World, w': World) {
    && w.skips <= w'.skips && w.nextEpoch <= w'.nextEpoch
    && forall id :: id in w.history ==>
         && id in w'.history
         && w'.history[id].(outcome := w.history[id].outcome) == w.history[id]
         && (w.history[id].outcome.Some? ==> w'.history[id].outcome == w.history[id].outcome)
  }

  lemma {:induction false} GoodExtends(w: World, w': World, key: ResourceKey, t: Tracked)
    requires Good(w, key, t) && Extends(w, w')
    ensures Good(w', key, t)
  {
    forall i | 0 <= i < Passed(t.context) ensures Justified(w', key, t.epoch, t.context.tasks, i) {
      JustifiedExtends(w, w', key, t.epoch, t.context.tasks, i);
    }
  }

  lemma {:induction false} JustifiedExtends(
    w: World, w': World, key: ResourceKey, epoch: nat, tasks: seq<TaskName>, i: nat)
    requires Justified(w, key, epoch, tasks, i) && Extends(w, w')
    ensures Justified(w', key, epoch, tasks, i)
  {
    if (epoch, i + 1) !in w.skips {
      var id :| Ran(w, id, key, epoch, i + 1, tasks[i]) && w.history[id].outcome == Some(ReturnedNil);
      assert Ran(w', id, key, epoch, i + 1, tasks[i]);
    }
  }

  /** A result that a read can see is the result of an execution in the history. */
  lemma {:induction false} PollHonest(w: World, id: TaskId)
    requires ManagerHonest(w)
    ensures PollOf(w.manager, id) != ChannelClosed
    ensures PollOf(w.manager, id).Ready? ==>
        && id in w.history && w.history[id].outcome.Some?
        && PollOf(w.manager, id).result == ResultOf(w.history[id].outcome.value)
  {
    if id in w.manager.workers {
      assert ChannelFollows(w.manager, id) && WorkerHonest(w, id);
    }
  }

  /** A context that becomes successful does so on an execution that returned nil. */
  lemma {:induction false} ObservedKeepsGood(w: World, w': World, key: ResourceKey, t: Tracked, status: TaskStatus)
    requires ManagerHonest(w) && Good(w, key, t) && Extends(w, w') && t.context.taskStatus.Running?
    requires match PollOf(w.manager, t.context.taskId)
      case NotReady => status.Running?
      case Ready(result) => status == result.status
      case _ => status.Failed?
    ensures Good(w', key, t.(context := t.context.(taskStatus := status)))
  {
    var c := t.context;
    GoodExtends(w, w', key, t);
    PollHonest(w, c.taskId);
    if status.Successful? {
      forall i | 0 <= i < c.idx ensures Justified(w', key, t.epoch, c.tasks, i) {
        if i == c.idx - 1 {
          assert Ran(w', c.taskId, key, t.epoch, i + 1, c.tasks[i]);
        }
      }
    }
  }

  /** A move of a good context gives a good context, in the same pass unless it starts over. */
  lemma {:induction false} MoveKeepsGood(
    w: World, w': World, key: ResourceKey, t: Tracked, after: ContextView, newId: TaskId, epoch': nat)
    requires ManagerHonest(w) && Good(w, key, t) && Extends(w, w')
    requires Moved(t.context, after, newId, PollOf(w.manager, t.context.taskId))
    requires t.context.taskStatus.Pending? && after.taskStatus.Running? ==>
      Ran(w', newId, key, t.epoch, t.context.idx, t.context.task)
    requires if StartsOver(t.context, after) then epoch' < w'.nextEpoch else epoch' == t.epoch
    ensures Good(w', key, Tracked(after, epoch'))
  {
    var c := t.context;
    GoodExtends(w, w', key, t);
    if c.taskStatus.Running? {
      PollHonest(w, c.taskId);
      ObservedKeepsGood(w, w', key, t, after.taskStatus);
    } else {
      MoveKeepsShape(c, after, newId, PollOf(w.manager, c.taskId));
    }
  }

  lemma {:induction false} MoveKeepsShape(c: ContextView, after: ContextView, newId: TaskId, poll: Poll)
    requires Shaped(c) && Moved(c, after, newId, poll) && !c.taskStatus.Running?
    ensures Shaped(after) && after.tasks == c.tasks && Passed(after) <= Passed(c)
    ensures after.taskStatus.Running? ==> c.taskStatus.Pending? && after == c.(taskId := newId, taskStatus := Running)
  {
  }

  lemma {:induction false} FreshIsGood(w: World, key: ResourceKey, c: ContextView)
    requires FreshFlow(c)
    ensures Good(w.(nextEpoch := w.nextEpoch + 1), key, Tracked(c, w.nextEpoch))
  {
  }

  lemma {:induction false} AppendKeepsObjects(w: World, w': World, key: ResourceKey, v: Version)
    requires ObjectsGood(w) && Extends(w, w') && key in w.objects
    requires w'.objects == w.objects || w'.objects == w.objects[key := w.objects[key] + [v]]
    requires v.tracked.Some? ==> Good(w', key, v.tracked.value)
    ensures ObjectsGood(w')
  {
    forall r, k | r in w'.objects && 0 <= k < |w'.objects[r]| && w'.objects[r][k].tracked.Some?
      ensures Good(w', r, w'.objects[r][k].tracked.value)
    {
      if r in w.objects && k < |w.objects[r]| {
        assert w'.objects[r][k] == w.objects[r][k];
        GoodExtends(w, w', r, w.objects[r][k].tracked.value);
      }
    }
  }

  /** A manager move keeps the manager honest about a history that records a submission. */
  lemma {:induction false} ManagerMoveHonest(w: World, w': World, c: ContextView, q: Request)
    requires ManagerHonest(w) && q.newId !in w.history
    requires ManagerMoved(w.manager, w'.manager, c, q)
    requires if c.taskStatus.Pending? && q.resolves
      then q.newId in w'.history && w'.history[q.newId].outcome.None? && w'.history - {q.newId} == w.history
      else w'.history == w.history
    ensures ManagerHonest(w')
  {
    assert q.newId !in w.manager.workers;
    SubmittedKeepsSound(w.manager, q.newId);
    PolledKeepsSound(w.manager, c.taskId);
    CleanedKeepsSound(w.manager, c.taskId);
    CleanedKeepsSound(Polled(w.manager, c.taskId), c.taskId);
    forall id | id in w'.manager.workers ensures WorkerHonest(w', id) {
      if id != q.newId {
        assert WorkerHonest(w, id);
        assert id in w.history - {q.newId};
      }
    }
  }

  lemma {:induction false} ReconcileKeepsInv(w: World, step: Step)
    requires Inv(w) && step.Reconcile? && Enabled(w, step)
    ensures Inv(Apply(w, step)) && Extends(w, Apply(w, step))
  {
    var Reconcile(key, read, g, q, commits) := step;
    var v := w.objects[key][read];
    var r := Coordinate(g, StoredOf(v), w.manager, q);
    var flow := FlowOf(StoredOf(v), q);
    if flow.None? {
      CoordinateWithoutFlow(g, StoredOf(v), w.manager, q);
      RecordedWithoutFlow(w, key, EpochOf(w, v), r, q.newId, commits);
    } else {
      CoordinateMoves(g, StoredOf(v), w.manager, q);
      FlowIsGood(w, key, read, q);
      RecordedKeepsInv(w, key, Tracked(flow.value, EpochOf(w, v)), r, q, commits);
    }
  }

  /** The flow that a reconcile works on is good, be it read or newly made. */
  lemma {:induction false} FlowIsGood(w: World, key: ResourceKey, read: nat, q: Request)
    requires ObjectsGood(w) && key in w.objects && read < |w.objects[key]|
    requires q.choice.NewFlow? ==> FreshFlow(q.choice.context)
    requires FlowOf(StoredOf(w.objects[key][read]), q).Some?
    ensures var v := w.objects[key][read];
      Good(w.(nextEpoch := w.nextEpoch + 1), key, Tracked(FlowOf(StoredOf(v), q).value, EpochOf(w, v)))
  {
    var v := w.objects[key][read];
    if v.tracked.Some? {
      GoodExtends(w, w.(nextEpoch := w.nextEpoch + 1), key, v.tracked.value);
    } else {
      FreshIsGood(w, key, q.choice.context);
    }
  }

  lemma {:induction false} RecordedWithoutFlow(
    w: World, key: ResourceKey, epoch: nat, r: Reconciled, newId: TaskId, commits: bool)
    requires Inv(w) && key in w.objects
    requires r.manager == w.manager && r.execution.None? && (r.write.Some? ==> r.write.value.context.None?)
    ensures var w' := Recorded(w, key, None, epoch, r, newId, commits);
      Inv(w') && Extends(w, w')
  {
    var w' := Recorded(w, key, None, epoch, r, newId, commits);
    HonestSame(w, w');
    AppendKeepsObjects(w, w', key, Version(if r.write.Some? then r.write.value.status else "", None));
  }

  lemma {:induction false} RecordedKeepsInv(
    w: World, key: ResourceKey, t: Tracked, r: Reconciled, q: Request, commits: bool)
    requires Inv(w) && key in w.objects && q.newId !in w.history
    requires Good(w.(nextEpoch := w.nextEpoch + 1), key, t)
    requires ReconcileMoved(w.manager, t.context, q, r)
    ensures var w' := Recorded(w, key, Some(t.context), t.epoch, r, q.newId, commits);
      Inv(w') && Extends(w, w')
  {
    var w' := Recorded(w, key, Some(t.context), t.epoch, r, q.newId, commits);
    RecordedHonest(w, w', key, t, r, q, commits);
    if commits && r.write.Some? && r.write.value.context.Some? {
      var last := Current(w', key).tracked.value;
      HonestCounted(w);
      MoveKeepsGood(w.(nextEpoch := w.nextEpoch + 1), w', key, t, last.context, q.newId, last.epoch);
      AppendKeepsObjects(w, w', key, Current(w', key));
    } else {
      AppendKeepsObjects(w, w', key, Version(if r.write.Some? then r.write.value.status else "", None));
    }
  }

  lemma {:induction false} RecordedHonest(
    w: World, w': World, key: ResourceKey, t: Tracked, r: Reconciled, q: Request, commits: bool)
    requires ManagerHonest(w) && key in w.objects && q.newId !in w.history
    requires ReconcileMoved(w.manager, t.context, q, r)
    requires w' == Recorded(w, key, Some(t.context), t.epoch, r, q.newId, commits)
    ensures ManagerHonest(w')
    ensures Extends(w, w') && Extends(w.(nextEpoch := w.nextEpoch + 1), w')
  {
    if r.execution.Some? {
      assert w'.history - {q.newId} == w.history;
      ManagerMoveHonest(w, w', t.context, q);
    } else {
      HonestSame(w, w');
    }
  }

  lemma {:induction false} HonestCounted(w: World)
    requires ManagerHonest(w)
    ensures ManagerHonest(w.(nextEpoch := w.nextEpoch + 1))
  {
    HonestSame(w, w.(nextEpoch := w.nextEpoch + 1));
  }

  lemma {:induction false} HonestSame(w: World, w': World)
    requires ManagerHonest(w) && w'.manager == w.manager && w'.history == w.history
    ensures ManagerHonest(w')
  {
    forall id | id in w'.manager.workers ensures WorkerHonest(w', id) {
      assert WorkerHonest(w, id);
    }
  }

  lemma {:induction false} WorkKeepsInv(w: World, step: Step)
    requires Inv(w) && step.Work? && Enabled(w, step)
    ensures Inv(Apply(w, step)) && Extends(w, Apply(w, step))
  {
    WorkKeepsHonest(w, step.id, step.work, Apply(w, step));
    SameObjects(w, Apply(w, step));
  }

  lemma {:induction false} WorkKeepsHonest(w: World, id: TaskId, work: WorkerStep, w': World)
    requires ManagerHonest(w) && CanWork(w.manager, id, work) && id in w.history && w' == Apply(w, Work(id, work))
    ensures ManagerHonest(w') && Extends(w, w')
  {
    WorkedKeepsSound(w.manager, id, work);
    WorkedFrame(w.manager, id, work);
    assert WorkerHonest(w, id);
    WorkerStaysHonest(w, id, work, w');
    forall i | i in w'.manager.workers ensures WorkerHonest(w', i) {
      assert WorkerHonest(w, i);
    }
  }

  lemma {:induction false} WorkerStaysHonest(w: World, id: TaskId, work: WorkerStep, w': World)
    requires CanWork(w.manager, id, work) && WorkerHonest(w, id) && w' == Apply(w, Work(id, work))
    ensures id in w'.manager.workers && WorkerHonest(w', id)
    ensures Extends(w, w')
  {
  }

  lemma {:induction false} SameObjects(w: World, w': World)
    requires ObjectsGood(w) && Extends(w, w') && w'.objects == w.objects
    ensures ObjectsGood(w')
  {
    forall r, k | r in w'.objects && 0 <= k < |w'.objects[r]| && w'.objects[r][k].tracked.Some?
      ensures Good(w', r, w'.objects[r][k].tracked.value)
    {
      GoodExtends(w, w', r, w.objects[r][k].tracked.value);
    }
  }

  lemma {:induction false} RescueKeepsInv(w: World, step: Step)
    requires Inv(w) && (step.RescueReset? || step.RescueRetry? || step.RescueSkip?) && Enabled(w, step)
    ensures Inv(Apply(w, step)) && Extends(w, Apply(w, step))
  {
    var w' := Apply(w, step);
    HonestSame(w, w');
    var v := Current(w, step.key);
    if !step.RescueReset? {
      var t := v.tracked.value;
      assert Good(w, step.key, t);
      GoodExtends(w, w', step.key, t);
      forall i | 0 <= i < Passed(Skipped(t).context) && step.RescueSkip?
        ensures Justified(w', step.key, t.epoch, t.context.tasks, i)
      {
        if i < Passed(t.context) {
        } else {
          assert i + 1 == t.context.idx && (t.epoch, i + 1) in w'.skips;
        }
      }
    }
    AppendKeepsObjects(w, w', step.key, Current(w', step.key));
  }

  lemma {:induction false} StepKeepsInv(w: World, step: Step)
    requires Inv(w) && Enabled(w, step)
    ensures Inv(Apply(w, step)) && Extends(w, Apply(w, step))
  {
    match step {
      case Create(key) =>
        var w' := Apply(w, step);
        HonestSame(w, w');
        forall r, k | r in w'.objects && 0 <= k < |w'.objects[r]| && w'.objects[r][k].tracked.Some?
          ensures Good(w', r, w'.objects[r][k].tracked.value)
        {
          GoodExtends(w, w', r, w.objects[r][k].tracked.value);
        }
      case Reconcile(_, _, _, _, _) => ReconcileKeepsInv(w, step);
      case Work(_, _) => WorkKeepsInv(w, step);
      case Restart =>
        var w' := Apply(w, step);
        assert Holders(w'.manager) == {};
        SameObjects(w, w');
      case _ => RescueKeepsInv(w, step);
    }
  }

  lemma {:induction false} RunKeepsInv(w: World, steps: seq<Step>, end: World)
    requires Inv(w) && Runs(w, steps, end)
    ensures Inv(end)
    decreases |steps|
  {
    if steps != [] {
      StepKeepsInv(w, steps[0]);
      RunKeepsInv(Apply(w, steps[0]), steps[1..], end);
    }
  }

  lemma {:induction false} StartIsGood(poolSize: nat)
    ensures Inv(Start(poolSize))
  {
    assert Holders(Start(poolSize).manager) == {};
  }

  // ---------------------------------------------------------------- main results

  /**
   No task is skipped: in every run, with stale reads, lost writes, finalizer aborts, restarts and
   rescues in any order, every context ever stored counts a task as done only if an execution of that
   very task, in that pass of that resource, returned nil, or a rescue skipped it.
   */
  lemma {:induction false} NoTaskIsSkipped(poolSize: nat, steps: seq<Step>, end: World, key: ResourceKey, k: nat)
    requires Runs(Start(poolSize), steps, end)
    requires key in end.objects && k < |end.objects[key]| && end.objects[key][k].tracked.Some?
    ensures var t := end.objects[key][k].tracked.value;
      Passed(t.context) <= |t.context.tasks| && AllJustified(end, key, t.epoch, t.context.tasks, Passed(t.context))
  {
    StartIsGood(poolSize);
    RunKeepsInv(Start(poolSize), steps, end);
    assert Good(end, key, end.objects[key][k].tracked.value);
  }

  /**
   A flow reports its target status only when all of its tasks are done: whenever a reconcile, on
   whatever version it reads, calls `FinishTask`, every task of the flow is justified in that pass.
   */
  lemma {:induction false} FinishMeansAllDone(poolSize: nat, steps: seq<Step>, end: World, step: Step)
    requires Runs(Start(poolSize), steps, end) && step.Reconcile? && Enabled(end, step)
    requires var r := Coordinate(step.config, StoredOf(end.objects[step.key][step.read]), end.manager, step.request);
      r.execution.Some? && r.execution.value.effect.Finished?
    ensures var v := end.objects[step.key][step.read];
      && v.tracked.Some?
      && AllJustified(end, step.key, v.tracked.value.epoch, v.tracked.value.context.tasks,
        |v.tracked.value.context.tasks|)
  {
    StartIsGood(poolSize);
    RunKeepsInv(Start(poolSize), steps, end);
    var v := end.objects[step.key][step.read];
    var c := FlowOf(StoredOf(v), step.request).value;
    ExecuteMoves(step.config, v.status, c, step.request.resolves, step.request.newId, PollOf(end.manager, c.taskId));
    assert Good(end, step.key, v.tracked.value);
  }
}
