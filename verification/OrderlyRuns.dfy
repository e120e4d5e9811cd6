/**
 Runs of the protocol in which every reconcile reads the current version and gets its status written,
 the operator is not restarted, and no rescue other than a reset is applied. What can still go wrong in
 them is that a context is dropped, by a reset or by `UpdateStatus`, while its task is running: the
 execution and its result are then orphans, which nobody will ever read or clean.
 */
module OrderlyRuns {
  import opened Common
  import opened TaskManagement
  import opened TaskFlow
  import opened Protocol

  /** `UpdateStatus` is reached, reads are current, and no status is ever reset to the empty string. */
  predicate Orderly(w: World, step: Step) {
    match step
    case Create(_) => true
    case Work(_, _) => true
    case Reconcile(key, read, g, q, commits) =>
      && commits && q.observed != Some("")
      && key in w.objects && read + 1 == |w.objects[key]|
      && (g.deleting && !q.ignoreDeletion ==> q.finalizersOk)
    case RescueReset(_, _) => true
    case _ => false
  }

  ghost predicate AllOrderly(w: World, steps: seq<Step>)
    decreases |steps|
  {
    steps == [] ||
    (Enabled(w, steps[0]) && Orderly(w, steps[0]) && AllOrderly(Apply(w, steps[0]), steps[1..]))
  }

  // ---------------------------------------------------------------- orphans

  ghost function RunningTask(v: Version): set<TaskId> {
    if v.tracked.Some? && v.tracked.value.context.taskStatus.Running? then {v.tracked.value.context.taskId} else {}
  }

  /** The execution whose context a reconcile drops where it would otherwise have stored it as running. */
  ghost function DroppedRunning(r: Reconciled, commits: bool): set<TaskId> {
    if commits && r.write.Some? && r.write.value.context.None? && r.execution.Some? && r.execution.value.retained
       && r.execution.value.flow.taskStatus.Running?
    then {r.execution.value.flow.taskId} else {}
  }

  /** The executions that a step orphans. */
  ghost function Orphaned(w: World, step: Step): set<TaskId>
    requires Enabled(w, step)
  {
    match step
    case Reconcile(key, read, g, q, commits) =>
      DroppedRunning(Coordinate(g, StoredOf(w.objects[key][read]), w.manager, q), commits)
    case RescueReset(key, _) => RunningTask(Current(w, key))
    case _ => {}
  }

  /** The executions that a run orphans. */
  ghost function Orphans(w: World, steps: seq<Step>): set<TaskId>
    decreases |steps|
  {
    if steps == [] || !Enabled(w, steps[0]) then {}
    else Orphaned(w, steps[0]) + Orphans(Apply(w, steps[0]), steps[1..])
  }

  // ---------------------------------------------------------------- the invariant

  predicate Busy(v: Version, id: TaskId) {
    v.tracked.Some? && v.tracked.value.context.taskStatus.Running? && v.tracked.value.context.taskId == id
  }

  predicate HasBeenSubmitted(c: ContextView) {
    c.taskStatus.Running? || c.taskStatus.Successful? || c.taskStatus.Failed?
  }

  /** An attempt of the resource, seen from the resource's current version; `o` are the orphans so far. */
  ghost predicate AttemptTidy(w: World, o: set<TaskId>, v: Version, id: TaskId)
    requires id in w.history
  {
    && (w.history[id].outcome.None? || id in w.manager.results ==> Busy(v, id) || id in o)
    && (v.tracked.Some? && w.history[id].epoch == v.tracked.value.epoch ==>
          || w.history[id].serial < Serial(v.tracked.value.context)
          || (w.history[id].serial == Serial(v.tracked.value.context) && HasBeenSubmitted(v.tracked.value.context)))
  }

  ghost predicate ContextTidy(w: World, o: set<TaskId>, key: ResourceKey, v: Version) {
    v.tracked.Some? ==>
      var c := v.tracked.value.context;
      && v.status != "" && c.taskId !in o
      && (c.taskId == NoId || (c.taskId in w.history && w.history[c.taskId].owner == key))
      && (c.taskStatus.Running? ==> c.taskId in w.manager.results)
      && (c.taskStatus.Failed? ==>
            && c.taskId in w.history && w.history[c.taskId].outcome.Some?
            && w.history[c.taskId].outcome.value != ReturnedNil)
  }

  /** The flow that a reconcile works on as a version not stored yet, under some status that is not empty. */
  function InWork(t: Tracked): Version {
    Version("reconciling", Some(t))
  }

  ghost predicate KeyTidy(w: World, o: set<TaskId>, key: ResourceKey, v: Version) {
    && ContextTidy(w, o, key, v)
    && forall id :: id in w.history && w.history[id].owner == key ==> AttemptTidy(w, o, v, id)
  }

  /** Within a pass the serial, retries plus position, names the attempt. */
  predicate SameAttempt(a: Attempt, b: Attempt) {
    a.owner == b.owner && a.epoch == b.epoch && a.serial == b.serial
  }

  ghost predicate HistoryTidy(w: World) {
    && NoId !in w.history
    && (forall id :: id in w.history ==> w.history[id].epoch < w.nextEpoch && w.history[id].owner in w.objects)
    && (forall i, j :: i in w.history && j in w.history && SameAttempt(w.history[i], w.history[j]) ==> i == j)
  }

  /** Orphans are executions of the history whose results are kept for good. */
  ghost predicate OrphansKept(w: World, o: set<TaskId>) {
    o <= w.manager.results && o <= w.history.Keys
  }

  ghost predicate Tidy(w: World, o: set<TaskId>) {
    && Inv(w) && HistoryTidy(w) && OrphansKept(w, o)
    && forall key :: key in w.objects ==> KeyTidy(w, o, key, Current(w, key))
  }

  // ---------------------------------------------------------------- one reconcile

  /** What an orderly reconcile of flow `c` computes. */
  predicate OrderlyMoved(m: ManagerState, c: ContextView, q: Request, r: Reconciled) {
    && ReconcileMoved(m, c, q, r)
    && (r.execution.Some? ==>
          var ex := r.execution.value;
          && r.write.Some? && (r.write.value.context.Some? ==> r.write.value.status != "")
          && r.write.value.context == (if ex.retained && !q.drops then Some(ex.flow) else None)
          && (ex.retained && ex.flow.taskStatus.Running? ==> c.taskStatus.Running? || c.taskStatus.Pending?)
          && (c.taskStatus.Running? ==>
                && ex.retained && ex.flow == c.(taskStatus := ObservedStatus(PollOf(m, c.taskId)))
                && r.manager == (if ex.flow.taskStatus.Running? then Polled(m, c.taskId)
                                 else Cleaned(Polled(m, c.taskId), c.taskId)))
          && (c.taskStatus.Pending? ==>
                ex.retained && ex.flow == if q.resolves then c.(taskId := q.newId, taskStatus := Running) else c))
  }

  lemma {:induction false} CoordinateOrderly(g: Config, stored: Stored, m: ManagerState, q: Request)
    requires FlowOf(stored, q).Some? && (stored.context.Some? ==> stored.status != "")
    requires q.observed != Some("") && (g.deleting && !q.ignoreDeletion ==> q.finalizersOk)
    requires PollOf(m, FlowOf(stored, q).value.taskId).Ready? ==>
      var s := PollOf(m, FlowOf(stored, q).value.taskId).result.status; s.Successful? || s.Failed?
    ensures OrderlyMoved(m, FlowOf(stored, q).value, q, Coordinate(g, stored, m, q))
    ensures Coordinate(g, stored, m, q).execution.None? && stored.context.Some? ==>
      Coordinate(g, stored, m, q).write.None?
  {
    CoordinateMoves(g, stored, m, q);
    ExecutedOrderly(g, stored.status, FlowOf(stored, q).value, m, q);
  }

  /** What executing the flow comes to, before anything is dropped. */
  lemma {:induction false} ExecutedOrderly(g: Config, status: string, c: ContextView, m: ManagerState, q: Request)
    requires PollOf(m, c.taskId).Ready? ==>
      PollOf(m, c.taskId).result.status.Successful? || PollOf(m, c.taskId).result.status.Failed?
    ensures var ex := Execute(g, status, c, q.resolves, q.newId, PollOf(m, c.taskId));
      var m' := CleanedAfter(ManagerAfter(m, c, q.resolves, q.newId), ex.flow);
      && (ex.retained && ex.flow.taskStatus.Running? ==> c.taskStatus.Running? || c.taskStatus.Pending?)
      && (c.taskStatus.Running? ==>
            && ex.retained && ex.flow == c.(taskStatus := ObservedStatus(PollOf(m, c.taskId)))
            && m' == (if ex.flow.taskStatus.Running? then Polled(m, c.taskId)
                      else Cleaned(Polled(m, c.taskId), c.taskId)))
      && (c.taskStatus.Pending? ==>
            ex.retained && ex.flow == if q.resolves then c.(taskId := q.newId, taskStatus := Running) else c)
  {
  }

  /** The world after an orderly reconcile, seen as a change of one resource. */
  ghost predicate ReconcileStep(
    w: World, w': World, o: set<TaskId>, key: ResourceKey, t: Tracked, q: Request, r: Reconciled) {
    && key in w.objects && q.newId !in w.history && q.newId != NoId
    && w' == Recorded(w, key, Some(t.context), t.epoch, r, q.newId, true)
    && OrderlyMoved(w.manager, t.context, q, r)
    && Inv(w) && Inv(w') && HistoryTidy(w) && OrphansKept(w, o)
    && KeyTidy(w.(nextEpoch := w.nextEpoch + 1), o, key, InWork(t))
    && r.execution.Some?
  }

  /** A submission, whose new context may be stored or dropped. */
  lemma {:induction false} SubmittedIsTidy(
    w: World, w': World, o: set<TaskId>, key: ResourceKey, t: Tracked, v': Version, newId: TaskId)
    requires KeyTidy(w, o, key, InWork(t)) && t.context.taskStatus.Pending? && OrphansKept(w, o)
    requires newId !in w.history && newId in w'.history && newId in w'.manager.results
    requires w'.history == w.history[newId := Attempt(
      key, t.epoch, t.context.idx, Serial(t.context), t.context.task, None)]
    requires w'.manager.results == w.manager.results + {newId}
    requires v'.tracked.Some? ==>
      && v'.status != ""
      && v'.tracked.value == t.(context := t.context.(taskId := newId, taskStatus := Running))
    ensures KeyTidy(w', if v'.tracked.Some? then o else o + {newId}, key, v')
  {
    var o' := if v'.tracked.Some? then o else o + {newId};
    forall id | id in w'.history && w'.history[id].owner == key ensures AttemptTidy(w', o', v', id) {
      if id != newId {
        assert AttemptTidy(w, o, InWork(t), id);
      }
    }
  }

  /** A pending context that finds no task function. */
  lemma {:induction false} UnresolvedIsTidy(
    w: World, w': World, o: set<TaskId>, key: ResourceKey, t: Tracked, v': Version)
    requires KeyTidy(w, o, key, InWork(t)) && t.context.taskStatus.Pending?
    requires w'.history == w.history && w'.manager.results == w.manager.results
    requires v'.tracked.Some? ==> v'.status != "" && v'.tracked.value == t
    ensures KeyTidy(w', o, key, v')
  {
    forall id | id in w'.history && w'.history[id].owner == key ensures AttemptTidy(w', o, v', id) {
      assert AttemptTidy(w, o, InWork(t), id);
    }
  }

  lemma {:induction false} PendingStaysTidy(
    w: World, w': World, o: set<TaskId>, key: ResourceKey, t: Tracked, q: Request, r: Reconciled)
    requires ReconcileStep(w, w', o, key, t, q, r) && t.context.taskStatus.Pending?
    ensures KeyTidy(w', o + DroppedRunning(r, true), key, Current(w', key))
  {
    var before := w.(nextEpoch := w.nextEpoch + 1);
    if q.resolves {
      SubmittedIsTidy(before, w', o, key, t, Current(w', key), q.newId);
    } else {
      UnresolvedIsTidy(before, w', o, key, t, Current(w', key));
    }
    assert o + DroppedRunning(r, true) == if q.resolves && q.drops then o + {q.newId} else o;
  }

  /** The status of a running task is replaced by what the poll showed, and the context stored or dropped. */
  lemma {:induction false} ObservedIsTidy(
    w: World, w': World, o: set<TaskId>, key: ResourceKey, t: Tracked, v': Version, status: TaskStatus)
    requires KeyTidy(w, o, key, InWork(t)) && t.context.taskStatus.Running?
    requires v'.tracked.Some? ==>
      v'.status != "" && v'.tracked == Some(t.(context := t.context.(taskStatus := status)))
    requires w'.history == w.history
    requires w'.manager.results ==
      (if status.Running? then w.manager.results else w.manager.results - {t.context.taskId})
    requires status.Running? || status.Successful? || status.Failed?
    requires !status.Running? ==>
      && t.context.taskId in w.history && w.history[t.context.taskId].outcome.Some?
      && (status.Failed? ==> w.history[t.context.taskId].outcome.value != ReturnedNil)
    ensures KeyTidy(w', o + (if v'.tracked.None? && status.Running? then {t.context.taskId} else {}), key, v')
  {
    var o' := o + (if v'.tracked.None? && status.Running? then {t.context.taskId} else {});
    forall id | id in w'.history && w'.history[id].owner == key ensures AttemptTidy(w', o', v', id) {
      assert AttemptTidy(w, o, InWork(t), id);
    }
  }

  lemma {:induction false} RunningStaysTidy(
    w: World, w': World, o: set<TaskId>, key: ResourceKey, t: Tracked, q: Request, r: Reconciled)
    requires ReconcileStep(w, w', o, key, t, q, r) && t.context.taskStatus.Running?
    ensures KeyTidy(w', o + DroppedRunning(r, true), key, Current(w', key))
  {
    PollHonest(w, t.context.taskId);
    RunningIsRecorded(w, w', key, t, q, r);
    var status := ObservedStatus(PollOf(w.manager, t.context.taskId));
    ObservedIsTidy(w.(nextEpoch := w.nextEpoch + 1), w', o, key, t, Current(w', key), status);
  }

  lemma {:induction false} RunningIsRecorded(
    w: World, w': World, key: ResourceKey, t: Tracked, q: Request, r: Reconciled)
    requires OrderlyMoved(w.manager, t.context, q, r) && r.execution.Some? && t.context.taskStatus.Running?
    requires key in w.objects && Sound(w.manager)
    requires w' == Recorded(w, key, Some(t.context), t.epoch, r, q.newId, true)
    ensures w'.history == w.history && w'.objects[key] != []
    ensures var status := ObservedStatus(PollOf(w.manager, t.context.taskId));
      && (if q.drops then Current(w', key).tracked.None?
          else Current(w', key).status != "" &&
               Current(w', key).tracked == Some(t.(context := t.context.(taskStatus := status))))
      && w'.manager.results == (if status.Running? then w.manager.results else w.manager.results - {t.context.taskId})
      && DroppedRunning(r, true) == if q.drops && status.Running? then {t.context.taskId} else {}
  {
  }

  lemma {:induction false} OthersStayTidy(
    w: World, w': World, o: set<TaskId>, key: ResourceKey, t: Tracked, q: Request, r: Reconciled)
    requires ReconcileStep(w, w', o, key, t, q, r)
    requires !t.context.taskStatus.Pending? && !t.context.taskStatus.Running?
    ensures KeyTidy(w', o, key, Current(w', key)) && DroppedRunning(r, true) == {}
  {
    var before := w.(nextEpoch := w.nextEpoch + 1);
    if r.write.value.context.Some? {
      MovedIsTidy(before, w', o, key, t, Current(w', key), q.newId);
    } else {
      DroppedIsTidy(before, w', o, key, t, Current(w', key));
    }
  }

  /** A context between two executions that moves on, in its pass or into a new one. */
  lemma {:induction false} MovedIsTidy(
    w: World, w': World, o: set<TaskId>, key: ResourceKey, t: Tracked, v': Version, newId: TaskId)
    requires KeyTidy(w, o, key, InWork(t)) && !t.context.taskStatus.Pending? && !t.context.taskStatus.Running?
    requires w'.history == w.history && w'.manager.results <= w.manager.results && OrphansKept(w, o)
    requires NoId !in w.history
    requires v'.status != "" && v'.tracked.Some? && Moved(t.context, v'.tracked.value.context, newId, NotReady)
    requires forall id :: id in w.history ==> w.history[id].epoch < w.nextEpoch - 1
    requires if StartsOver(t.context, v'.tracked.value.context) then v'.tracked.value.epoch == w.nextEpoch - 1
             else v'.tracked.value.epoch == t.epoch
    ensures KeyTidy(w', o, key, v')
  {
    forall id | id in w'.history && w'.history[id].owner == key ensures AttemptTidy(w', o, v', id) {
      assert AttemptTidy(w, o, InWork(t), id);
    }
  }

  lemma {:induction false} DroppedIsTidy(
    w: World, w': World, o: set<TaskId>, key: ResourceKey, t: Tracked, v': Version)
    requires KeyTidy(w, o, key, InWork(t)) && !t.context.taskStatus.Running?
    requires w'.history == w.history && w'.manager.results <= w.manager.results && v'.tracked.None?
    ensures KeyTidy(w', o, key, v')
  {
    forall id | id in w'.history && w'.history[id].owner == key ensures AttemptTidy(w', o, v', id) {
      assert AttemptTidy(w, o, InWork(t), id);
    }
  }

  /** A reconcile of one resource leaves every other resource tidy. */
  lemma {:induction false} OtherKeyStaysTidy(
    w: World, w': World, o: set<TaskId>, o': set<TaskId>, key: ResourceKey, other: ResourceKey, v: Version,
    taskId: TaskId, newId: TaskId)
    requires KeyTidy(w, o, other, v) && other != key && NoId !in w.history && newId != NoId
    requires forall id :: id in w'.history ==>
      if id in w.history then w'.history[id] == w.history[id] else w'.history[id].owner == key
    requires forall id :: id in w.history ==> id in w'.history
    requires w.manager.results - {taskId} <= w'.manager.results <= w.manager.results + {newId} && newId !in w.history
    requires taskId == NoId || (taskId in w.history && w.history[taskId].owner == key)
    requires o <= o' <= o + {taskId, newId} && NoId !in o'
    requires w.manager.results <= w.history.Keys
    ensures KeyTidy(w', o', other, v)
  {
    forall id | id in w'.history && w'.history[id].owner == other ensures AttemptTidy(w', o', v, id) {
      assert AttemptTidy(w, o, v, id);
    }
  }

  /** The attempt that a pending context submits is a new one. */
  lemma {:induction false} SubmissionIsNew(
    w: World, w': World, o: set<TaskId>, key: ResourceKey, t: Tracked, q: Request, r: Reconciled)
    requires ReconcileStep(w, w', o, key, t, q, r) && t.epoch <= w.nextEpoch
    ensures HistoryTidy(w')
  {
    var before := w.(nextEpoch := w.nextEpoch + 1);
    forall i, j | i in w'.history && j in w'.history && SameAttempt(w'.history[i], w'.history[j]) ensures i == j {
      if i != q.newId && w.history[i].owner == key {
        assert AttemptTidy(before, o, InWork(t), i);
      }
      if j != q.newId && w.history[j].owner == key {
        assert AttemptTidy(before, o, InWork(t), j);
      }
    }
  }

  lemma {:induction false} ResultsInHistory(w: World)
    requires ManagerHonest(w)
    ensures w.manager.results <= w.history.Keys
  {
    forall id | id in w.manager.results ensures id in w.history {
      assert WorkerHonest(w, id);
    }
  }

  lemma {:induction false} OwnKeyStaysTidy(
    w: World, w': World, o: set<TaskId>, key: ResourceKey, t: Tracked, q: Request, r: Reconciled)
    requires ReconcileStep(w, w', o, key, t, q, r)
    ensures KeyTidy(w', o + DroppedRunning(r, true), key, Current(w', key))
  {
    if t.context.taskStatus.Pending? {
      PendingStaysTidy(w, w', o, key, t, q, r);
    } else if t.context.taskStatus.Running? {
      RunningStaysTidy(w, w', o, key, t, q, r);
    } else {
      OthersStayTidy(w, w', o, key, t, q, r);
      assert o + DroppedRunning(r, true) == o;
    }
  }

  lemma {:induction false} ResultsFrame(m: ManagerState, m': ManagerState, c: ContextView, q: Request)
    requires ManagerMoved(m, m', c, q)
    ensures m.results - {c.taskId} <= m'.results <= m.results + {q.newId}
  {
  }

  /** What a reconcile orphans is the task it observed or the one it submitted, and its result is kept. */
  lemma {:induction false} DroppedIsKept(
    w: World, w': World, o: set<TaskId>, key: ResourceKey, t: Tracked, q: Request, r: Reconciled)
    requires ReconcileStep(w, w', o, key, t, q, r)
    ensures DroppedRunning(r, true) <= {t.context.taskId, q.newId}
    ensures OrphansKept(w', o + DroppedRunning(r, true))
  {
    assert ContextTidy(w.(nextEpoch := w.nextEpoch + 1), o, key, InWork(t));
    ResultsFrame(w.manager, w'.manager, t.context, q);
    if DroppedRunning(r, true) != {} && t.context.taskStatus.Running? {
      RunningIsRecorded(w, w', key, t, q, r);
    }
  }

  lemma {:induction false} OtherKeysStayTidy(
    w: World, w': World, o: set<TaskId>, key: ResourceKey, t: Tracked, q: Request, r: Reconciled, other: ResourceKey)
    requires ReconcileStep(w, w', o, key, t, q, r) && other in w.objects && other != key
    requires w.objects[other] != [] && KeyTidy(w, o, other, Current(w, other)) && NoId !in w'.history
    ensures KeyTidy(w', o + DroppedRunning(r, true), other, Current(w', other))
  {
    ResultsInHistory(w);
    ResultsFrame(w.manager, w'.manager, t.context, q);
    DroppedIsKept(w, w', o, key, t, q, r);
    OtherKeyStaysTidy(w, w', o, o + DroppedRunning(r, true), key, other, Current(w, other), t.context.taskId, q.newId);
  }

  lemma {:induction false} ReconcileStepStaysTidy(
    w: World, w': World, o: set<TaskId>, key: ResourceKey, t: Tracked, q: Request, r: Reconciled)
    requires ReconcileStep(w, w', o, key, t, q, r) && Tidy(w, o) && t.epoch <= w.nextEpoch
    ensures Tidy(w', o + DroppedRunning(r, true))
  {
    SubmissionIsNew(w, w', o, key, t, q, r);
    OwnKeyStaysTidy(w, w', o, key, t, q, r);
    DroppedIsKept(w, w', o, key, t, q, r);
    forall k | k in w'.objects ensures KeyTidy(w', o + DroppedRunning(r, true), k, Current(w', k)) {
      if k != key {
        OtherKeysStayTidy(w, w', o, key, t, q, r, k);
      }
    }
  }

  /** A reconcile that executes nothing changes nothing but the version of a resource without context. */
  lemma {:induction false} IdleStaysTidy(w: World, w': World, o: set<TaskId>, key: ResourceKey)
    requires Tidy(w, o) && Inv(w') && key in w.objects
    requires w'.history == w.history && w'.manager == w.manager && w'.nextEpoch >= w.nextEpoch
    requires w'.objects.Keys == w.objects.Keys
    requires forall k :: k in w.objects && k != key ==> w'.objects[k] == w.objects[k]
    requires w'.objects[key] == w.objects[key] ||
      (w'.objects[key] != [] && Current(w, key).tracked.None? && Current(w', key).tracked.None?)
    ensures Tidy(w', o)
  {
    forall k | k in w'.objects ensures KeyTidy(w', o, k, Current(w', k)) {
      assert KeyTidy(w, o, k, Current(w, k));
      IdleVersionIsTidy(w, w', o, k, Current(w, k), Current(w', k));
    }
  }

  lemma {:induction false} IdleVersionIsTidy(
    w: World, w': World, o: set<TaskId>, key: ResourceKey, v: Version, v': Version)
    requires KeyTidy(w, o, key, v) && (v' == v || (v.tracked.None? && v'.tracked.None?))
    requires w'.history == w.history && w'.manager == w.manager
    ensures KeyTidy(w', o, key, v')
  {
    forall id | id in w'.history && w'.history[id].owner == key ensures AttemptTidy(w', o, v', id) {
      assert AttemptTidy(w, o, v, id);
    }
  }

  lemma {:induction false} FlowIsTidy(w: World, o: set<TaskId>, key: ResourceKey, q: Request)
    requires Tidy(w, o) && key in w.objects
    requires q.choice.NewFlow? ==> FreshFlow(q.choice.context)
    requires FlowOf(StoredOf(Current(w, key)), q).Some?
    ensures var v := Current(w, key);
      KeyTidy(w.(nextEpoch := w.nextEpoch + 1), o, key, InWork(Tracked(FlowOf(StoredOf(v), q).value, EpochOf(w, v))))
  {
    var v := Current(w, key);
    var t := Tracked(FlowOf(StoredOf(v), q).value, EpochOf(w, v));
    assert KeyTidy(w, o, key, v);
    forall id | id in w.history && w.history[id].owner == key
      ensures AttemptTidy(w.(nextEpoch := w.nextEpoch + 1), o, InWork(t), id)
    {
      assert AttemptTidy(w, o, v, id);
    }
  }

  lemma {:induction false} ReconcileStaysTidy(w: World, o: set<TaskId>, step: Step)
    requires Tidy(w, o) && step.Reconcile? && Enabled(w, step) && Orderly(w, step)
    ensures Tidy(Apply(w, step), o + Orphaned(w, step))
  {
    ReconcileKeepsInv(w, step);
    var v, q := Current(w, step.key), step.request;
    if FlowOf(StoredOf(v), q).None? {
      CoordinateWithoutFlow(step.config, StoredOf(v), w.manager, q);
      IdleStaysTidy(w, Apply(w, step), o, step.key);
      assert o + Orphaned(w, step) == o;
    } else {
      ReconcileFlowStaysTidy(w, Apply(w, step), o, step.key, v, step.config, q);
    }
  }

  lemma {:induction false} CurrentMovesOrderly(w: World, key: ResourceKey, v: Version, g: Config, q: Request)
    requires ManagerHonest(w) && (v.tracked.Some? ==> v.status != "") && FlowOf(StoredOf(v), q).Some?
    requires q.observed != Some("") && (g.deleting && !q.ignoreDeletion ==> q.finalizersOk)
    ensures var r := Coordinate(g, StoredOf(v), w.manager, q);
      && OrderlyMoved(w.manager, FlowOf(StoredOf(v), q).value, q, r)
      && (r.execution.None? && v.tracked.Some? ==> r.write.None?)
  {
    PollHonest(w, FlowOf(StoredOf(v), q).value.taskId);
    CoordinateOrderly(g, StoredOf(v), w.manager, q);
  }

  lemma {:induction false} ReconcileFlowStaysTidy(
    w: World, w': World, o: set<TaskId>, key: ResourceKey, v: Version, g: Config, q: Request)
    requires Tidy(w, o) && Inv(w') && key in w.objects && v == Current(w, key)
    requires q.newId !in w.history && q.newId != NoId && (q.choice.NewFlow? ==> FreshFlow(q.choice.context))
    requires q.observed != Some("") && (g.deleting && !q.ignoreDeletion ==> q.finalizersOk)
    requires FlowOf(StoredOf(v), q).Some? && w' == AfterReconcile(w, key, v, g, q, true)
    ensures Tidy(w', o + DroppedRunning(Coordinate(g, StoredOf(v), w.manager, q), true))
  {
    var r := Coordinate(g, StoredOf(v), w.manager, q);
    var t := Tracked(FlowOf(StoredOf(v), q).value, EpochOf(w, v));
    assert ContextTidy(w, o, key, v);
    CurrentMovesOrderly(w, key, v, g, q);
    FlowIsTidy(w, o, key, q);
    FinishReconcile(w, w', o, key, t, q, r);
  }

  lemma {:induction false} FinishReconcile(
    w: World, w': World, o: set<TaskId>, key: ResourceKey, t: Tracked, q: Request, r: Reconciled)
    requires Tidy(w, o) && Inv(w') && key in w.objects && q.newId !in w.history && q.newId != NoId
    requires w' == Recorded(w, key, Some(t.context), t.epoch, r, q.newId, true)
    requires OrderlyMoved(w.manager, t.context, q, r) && t.epoch == EpochOf(w, Current(w, key))
    requires r.execution.None? && Current(w, key).tracked.Some? ==> r.write.None?
    requires KeyTidy(w.(nextEpoch := w.nextEpoch + 1), o, key, InWork(t))
    ensures Tidy(w', o + DroppedRunning(r, true))
  {
    if r.execution.None? {
      IdleRecorded(w, w', key, t, q, r);
      IdleStaysTidy(w, w', o, key);
      assert o + DroppedRunning(r, true) == o;
    } else {
      if Current(w, key).tracked.Some? {
        assert Good(w, key, Current(w, key).tracked.value);
      }
      ReconcileStepStaysTidy(w, w', o, key, t, q, r);
    }
  }

  lemma {:induction false} IdleRecorded(w: World, w': World, key: ResourceKey, t: Tracked, q: Request, r: Reconciled)
    requires key in w.objects && w.objects[key] != [] && r.execution.None?
    requires w' == Recorded(w, key, Some(t.context), t.epoch, r, q.newId, true)
    requires ReconcileMoved(w.manager, t.context, q, r) && (Current(w, key).tracked.Some? ==> r.write.None?)
    ensures w'.history == w.history && w'.manager == w.manager && w'.nextEpoch >= w.nextEpoch
    ensures w'.objects.Keys == w.objects.Keys
    ensures forall k :: k in w.objects && k != key ==> w'.objects[k] == w.objects[k]
    ensures w'.objects[key] == w.objects[key] ||
      (w'.objects[key] != [] && Current(w, key).tracked.None? && Current(w', key).tracked.None?)
  {
  }

  /** Ending executions never untidies a resource. */
  lemma {:induction false} EndingStaysTidy(w: World, w': World, o: set<TaskId>, key: ResourceKey, v: Version)
    requires KeyTidy(w, o, key, v) && Extends(w, w') && w'.history.Keys == w.history.Keys
    requires w'.manager.results == w.manager.results
    ensures KeyTidy(w', o, key, v)
  {
    forall id | id in w'.history && w'.history[id].owner == key ensures AttemptTidy(w', o, v, id) {
      assert AttemptTidy(w, o, v, id);
    }
  }

  lemma {:induction false} EndedWorldStaysTidy(w: World, w': World, o: set<TaskId>)
    requires Tidy(w, o) && Inv(w') && Extends(w, w') && w'.history.Keys == w.history.Keys
    requires w'.manager.results == w.manager.results && w'.objects == w.objects
    ensures Tidy(w', o)
  {
    forall k | k in w'.objects ensures KeyTidy(w', o, k, Current(w', k)) {
      EndingStaysTidy(w, w', o, k, Current(w, k));
    }
    forall i, j | i in w'.history && j in w'.history && SameAttempt(w'.history[i], w'.history[j]) ensures i == j {
      assert SameAttempt(w.history[i], w.history[j]);
    }
  }

  lemma {:induction false} WorkStaysTidy(w: World, o: set<TaskId>, step: Step)
    requires Tidy(w, o) && step.Work? && Enabled(w, step)
    ensures Tidy(Apply(w, step), o)
  {
    Protocol.WorkKeepsInv(w, step);
    WorkedFrame(w.manager, step.id, step.work);
    EndedWorldStaysTidy(w, Apply(w, step), o);
  }

  lemma {:induction false} CreateStaysTidy(w: World, o: set<TaskId>, step: Step)
    requires Tidy(w, o) && step.Create? && Enabled(w, step)
    ensures Tidy(Apply(w, step), o)
  {
    var w' := Apply(w, step);
    Protocol.StepKeepsInv(w, step);
    forall k | k in w'.objects ensures KeyTidy(w', o, k, Current(w', k)) {
      if k != step.key {
        assert KeyTidy(w, o, k, Current(w, k));
        IdleVersionIsTidy(w, w', o, k, Current(w, k), Current(w', k));
      }
    }
  }

  /** A reset orphans the task that the context was running. */
  lemma {:induction false} ResetIsTidy(w: World, w': World, o: set<TaskId>, key: ResourceKey, v: Version, v': Version)
    requires KeyTidy(w, o, key, v) && v'.tracked.None? && w'.history == w.history && w'.manager == w.manager
    ensures KeyTidy(w', o + RunningTask(v), key, v')
  {
    forall id | id in w'.history && w'.history[id].owner == key ensures AttemptTidy(w', o + RunningTask(v), v', id) {
      assert AttemptTidy(w, o, v, id);
    }
  }

  lemma {:induction false} OthersResetIsTidy(
    w: World, w': World, o: set<TaskId>, key: ResourceKey, v: Version, other: ResourceKey, u: Version)
    requires KeyTidy(w, o, key, v) && KeyTidy(w, o, other, u) && other != key && NoId !in w.history
    requires w'.history == w.history && w'.manager == w.manager && w.manager.results <= w.history.Keys
    ensures KeyTidy(w', o + RunningTask(v), other, u)
  {
    forall id | id in w'.history && w'.history[id].owner == other
      ensures AttemptTidy(w', o + RunningTask(v), u, id)
    {
      assert AttemptTidy(w, o, u, id);
    }
  }

  lemma {:induction false} ResetStaysTidy(w: World, o: set<TaskId>, step: Step)
    requires Tidy(w, o) && step.RescueReset? && Enabled(w, step)
    ensures Tidy(Apply(w, step), o + Orphaned(w, step))
  {
    var w', v := Apply(w, step), Current(w, step.key);
    Protocol.StepKeepsInv(w, step);
    ResultsInHistory(w);
    assert KeyTidy(w, o, step.key, v);
    forall k | k in w'.objects ensures KeyTidy(w', o + RunningTask(v), k, Current(w', k)) {
      if k == step.key {
        ResetIsTidy(w, w', o, k, v, Current(w', k));
      } else {
        assert KeyTidy(w, o, k, Current(w, k));
        OthersResetIsTidy(w, w', o, step.key, v, k, Current(w, k));
      }
    }
  }

  lemma {:induction false} RunStaysTidy(w: World, o: set<TaskId>, steps: seq<Step>, end: World)
    requires Tidy(w, o) && Runs(w, steps, end) && AllOrderly(w, steps)
    ensures Tidy(end, o + Orphans(w, steps))
    decreases |steps|
  {
    if steps == [] {
      assert o + Orphans(w, steps) == o;
    } else {
      StepStaysTidy(w, o, steps[0]);
      var o' := o + Orphaned(w, steps[0]);
      RunStaysTidy(Apply(w, steps[0]), o', steps[1..], end);
      assert o + Orphans(w, steps) == o' + Orphans(Apply(w, steps[0]), steps[1..]);
    }
  }

  lemma {:induction false} StepStaysTidy(w: World, o: set<TaskId>, step: Step)
    requires Tidy(w, o) && Enabled(w, step) && Orderly(w, step)
    ensures Tidy(Apply(w, step), o + Orphaned(w, step))
  {
    match step {
      case Create(_) =>
        CreateStaysTidy(w, o, step);
        assert o + Orphaned(w, step) == o;
      case Reconcile(_, _, _, _, _) => ReconcileStaysTidy(w, o, step);
      case Work(_, _) =>
        WorkStaysTidy(w, o, step);
        assert o + Orphaned(w, step) == o;
      case RescueReset(_, _) => ResetStaysTidy(w, o, step);
    }
  }

  lemma {:induction false} OrderlyRunIsTidy(poolSize: nat, steps: seq<Step>, end: World)
    requires Runs(Start(poolSize), steps, end) && AllOrderly(Start(poolSize), steps)
    ensures Tidy(end, Orphans(Start(poolSize), steps))
  {
    StartIsGood(poolSize);
    RunStaysTidy(Start(poolSize), {}, steps, end);
    assert {} + Orphans(Start(poolSize), steps) == Orphans(Start(poolSize), steps);
  }

  // ---------------------------------------------------------------- main results

  /** The executions of a resource that are still running. */
  ghost function InFlight(w: World, key: ResourceKey): set<TaskId> {
    set id | id in w.history && w.history[id].owner == key && w.history[id].outcome.None?
  }

  /** The results the manager keeps for a resource. */
  ghost function KeptResults(w: World, key: ResourceKey): set<TaskId> {
    set id | id in w.manager.results && id in w.history && w.history[id].owner == key
  }

  ghost function Of(w: World, key: ResourceKey, ids: set<TaskId>): set<TaskId> {
    set id | id in ids && id in w.history && w.history[id].owner == key
  }

  /** The results kept are those of the running context and of the orphans, and what is in flight is among them. */
  ghost predicate Accounted(w: World, key: ResourceKey, orphans: set<TaskId>)
    requires key in w.objects && w.objects[key] != []
  {
    && KeptResults(w, key) == RunningTask(Current(w, key)) + orphans
    && RunningTask(Current(w, key)) !! orphans
    && InFlight(w, key) <= RunningTask(Current(w, key)) + orphans
  }

  /** A failed context stands for an execution that failed. */
  ghost predicate FailsTruly(w: World, key: ResourceKey)
    requires key in w.objects && w.objects[key] != []
  {
    Current(w, key).tracked.Some? && Current(w, key).tracked.value.context.taskStatus.Failed? ==>
      var id := Current(w, key).tracked.value.context.taskId;
      id in w.history && w.history[id].outcome.Some? && w.history[id].outcome.value != ReturnedNil
  }

  /**
   Without lost writes, stale reads, restarts and rescues other than resets: the result map holds exactly
   the result of the running context and one for each context that was dropped while its task ran, and
   every execution in flight is one of these; no attempt is submitted twice; and a context fails only when
   its execution did.
   */
  lemma {:induction false} OrderlyRunsSubmitOnce(poolSize: nat, steps: seq<Step>, end: World, key: ResourceKey)
    requires Runs(Start(poolSize), steps, end) && AllOrderly(Start(poolSize), steps) && key in end.objects
    ensures end.objects[key] != [] && Accounted(end, key, Of(end, key, Orphans(Start(poolSize), steps)))
    ensures forall i, j :: i in end.history && j in end.history && SameAttempt(end.history[i], end.history[j]) ==>
      i == j
    ensures FailsTruly(end, key)
  {
    OrderlyRunIsTidy(poolSize, steps, end);
    TidyAccounts(end, Orphans(Start(poolSize), steps), key);
    TidyFailures(end, Orphans(Start(poolSize), steps), key);
  }

  lemma {:induction false} TidyAccounts(w: World, o: set<TaskId>, key: ResourceKey)
    requires Tidy(w, o) && key in w.objects
    ensures w.objects[key] != [] && Accounted(w, key, Of(w, key, o))
  {
    assert KeyTidy(w, o, key, Current(w, key));
    RunningIsKept(w, o, key);
    AttemptsAccounted(w, o, key, Current(w, key));
    assert Of(w, key, o) <= KeptResults(w, key);
  }

  lemma {:induction false} RunningIsKept(w: World, o: set<TaskId>, key: ResourceKey)
    requires Inv(w) && key in w.objects && w.objects[key] != [] && ContextTidy(w, o, key, Current(w, key))
    ensures RunningTask(Current(w, key)) <= KeptResults(w, key) && RunningTask(Current(w, key)) !! o
  {
    var v := Current(w, key);
    if v.tracked.Some? && v.tracked.value.context.taskStatus.Running? {
      assert Good(w, key, v.tracked.value);
    }
  }

  lemma {:induction false} AttemptsAccounted(w: World, o: set<TaskId>, key: ResourceKey, v: Version)
    requires KeyTidy(w, o, key, v)
    ensures InFlight(w, key) + KeptResults(w, key) <= RunningTask(v) + Of(w, key, o)
  {
    forall id | id in InFlight(w, key) + KeptResults(w, key) ensures id in RunningTask(v) + Of(w, key, o) {
      assert AttemptTidy(w, o, v, id);
    }
  }

  lemma {:induction false} TidyFailures(w: World, o: set<TaskId>, key: ResourceKey)
    requires Tidy(w, o) && key in w.objects
    ensures w.objects[key] != [] && FailsTruly(w, key)
  {
    assert KeyTidy(w, o, key, Current(w, key));
  }

  /**
   So the result map holds nothing but the running context's result exactly when no context of the resource
   was dropped while its task ran; and then at most that one execution is in flight, and nothing is kept once
   the flow is finished or archived. Otherwise executions stay in flight for as long as the orphans run.
   */
  lemma {:induction false} NothingLeaksIffNoneDropped(poolSize: nat, steps: seq<Step>, end: World, key: ResourceKey)
    requires Runs(Start(poolSize), steps, end) && AllOrderly(Start(poolSize), steps) && key in end.objects
    ensures end.objects[key] != []
    ensures var orphans := Of(end, key, Orphans(Start(poolSize), steps));
      && (KeptResults(end, key) == RunningTask(Current(end, key)) <==> orphans == {})
      && (InFlight(end, key) <= RunningTask(Current(end, key)) <==>
            forall id :: id in orphans ==> end.history[id].outcome.Some?)
  {
    OrderlyRunsSubmitOnce(poolSize, steps, end, key);
    var orphans := Of(end, key, Orphans(Start(poolSize), steps));
    forall id | id in orphans && end.history[id].outcome.None? ensures id in InFlight(end, key) {
    }
  }
}
