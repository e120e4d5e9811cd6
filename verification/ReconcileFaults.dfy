/**
 What a fault breaks, and exactly when: a status write that is lost, a reconcile that stops at the
 finalizers, and a reconcile that reads an older version of its resource. The last is possible because
 managers write their status over whatever version is current (internal/resource/obcluster/utils.go:65-73).
 */
module ReconcileFaults {
  import opened Common
  import opened TaskManagement
  import opened TaskFlow
  import opened Protocol
  import OrderlyRuns

  /** The reconcile stops at `CheckAndUpdateFinalizers`, before cleaning and writing. */
  predicate StopsAtFinalizers(g: Config, q: Request) {
    g.deleting && !q.ignoreDeletion && !q.finalizersOk
  }

  /** The current version of `key` holds a context in status `s`, and a reconcile will work on it. */
  predicate Holds(w: World, key: ResourceKey, s: TaskStatus) {
    && key in w.objects && w.objects[key] != []
    && Current(w, key).status != ""
    && Current(w, key).tracked.Some? && Current(w, key).tracked.value.context.taskStatus == s
  }

  function Now(w: World, key: ResourceKey, g: Config, q: Request, commits: bool): World
    requires key in w.objects && w.objects[key] != []
  {
    AfterReconcile(w, key, Current(w, key), g, q, commits)
  }

  /**
   A reconcile of a pending context submits the task; the current version stays pending exactly when
   the reconcile was not committed, by a lost write or by stopping at the finalizers; otherwise it is
   running, or gone when `UpdateStatus` dropped it. What the next reconcile makes of it depends on the
   version that one reads: `SubmissionRepeatsIff`.
   */
  lemma {:induction false} SubmittedAgainIffNotCommitted(
    w: World, key: ResourceKey, g: Config, q: Request, commits: bool)
    requires Holds(w, key, Pending) && !q.paused && q.resolves
    ensures var w' := Now(w, key, g, q, commits);
      && w'.objects[key] != []
      && q.newId in w'.history && w'.history[q.newId].outcome.None?
      && (Holds(w', key, Pending) <==> !commits || StopsAtFinalizers(g, q))
      && (Current(w', key).tracked.None? <==> commits && !StopsAtFinalizers(g, q) && q.drops)
      && (Current(w', key).tracked.Some? && Current(w', key).tracked.value.context.taskStatus.Running? <==>
            commits && !StopsAtFinalizers(g, q) && !q.drops)
  {
  }

  /** After such a reconcile, the next one puts a second execution of the same attempt in flight. */
  lemma {:induction false} UncommittedSubmissionRepeats(
    w: World, key: ResourceKey, g: Config, q: Request, commits: bool, g': Config, q': Request, commits': bool)
    requires Holds(w, key, Pending) && !q.paused && q.resolves && !q'.paused && q'.resolves
    requires !commits || StopsAtFinalizers(g, q)
    requires q.newId != q'.newId
    ensures var w' := Now(w, key, g, q, commits);
      && w'.objects[key] != []
      && var w'' := Now(w', key, g', q', commits');
         && {q.newId, q'.newId} <= OrderlyRuns.InFlight(w'', key)
         && OrderlyRuns.SameAttempt(w''.history[q.newId], w''.history[q'.newId])
  {
    SubmittedAgainIffNotCommitted(w, key, g, q, commits);
    var w' := Now(w, key, g, q, commits);
    assert Current(w', key) == Current(w, key);
    SubmittedAgainIffNotCommitted(w', key, g', q', commits');
  }

  /** The version holds attempt `a` of its resource, still to be submitted. */
  predicate Offers(v: Version, a: Attempt) {
    && v.status != "" && v.tracked.Some? && v.tracked.value.context.taskStatus.Pending?
    && v.tracked.value.epoch == a.epoch && Serial(v.tracked.value.context) == a.serial
  }

  /** The step submits, under its new id, an attempt that the history has already. */
  predicate Repeats(w: World, step: Step, id: TaskId)
    requires step.Reconcile? && Enabled(w, step) && id in w.history
  {
    var w' := Apply(w, step);
    step.request.newId in w'.history && OrderlyRuns.SameAttempt(w'.history[step.request.newId], w.history[id])
  }

  /** In every world a reconcile repeats an attempt exactly when the version it reads still offers it. */
  lemma {:induction false} RepeatsIffOffered(w: World, step: Step, id: TaskId)
    requires step.Reconcile? && Enabled(w, step) && id in w.history && w.history[id].owner == step.key
    ensures Repeats(w, step, id) <==>
      !step.request.paused && step.request.resolves && Offers(w.objects[step.key][step.read], w.history[id])
  {
    var v := w.objects[step.key][step.read];
    var flow := FlowOf(StoredOf(v), step.request);
    if v.status != "" && flow.Some? {
      var c := flow.value;
      ExecuteMoves(step.config, v.status, c, step.request.resolves, step.request.newId, PollOf(w.manager, c.taskId));
    }
  }

  /**
   A submission, committed or not, is repeated by a following reconcile exactly when that one reads a
   version from before the commit in which the attempt is pending. So the version the submitting reconcile
   has read always repeats it, the version it committed never does, and an uncommitted submission is
   repeated by every reconcile of the current version.
   */
  lemma {:induction false} SubmissionRepeatsIff(
    w: World, key: ResourceKey, g: Config, q: Request, commits: bool, read: nat, g': Config, q': Request,
    commits': bool)
    requires Holds(w, key, Pending) && !q.paused && q.resolves && !q'.paused && q'.resolves
    requires q'.newId != NoId && q'.newId != q.newId && q'.newId !in w.history
    requires q'.choice.NewFlow? ==> FreshFlow(q'.choice.context)
    requires var w' := Now(w, key, g, q, commits); read < |w'.objects[key]|
    ensures var w', n := Now(w, key, g, q, commits), |w.objects[key]|;
      && (|w'.objects[key]| == n + 1 <==> commits && !StopsAtFinalizers(g, q))
      && q.newId in w'.history
      && var step := Reconcile(key, read, g', q', commits');
         && Enabled(w', step)
         && (Repeats(w', step, q.newId) <==> read < n && Offers(w.objects[key][read], w'.history[q.newId]))
         && (read == n - 1 ==> Repeats(w', step, q.newId))
         && (read == n ==> !Repeats(w', step, q.newId))
         && (Repeats(w', step, q.newId) ==> {q.newId, q'.newId} <= OrderlyRuns.InFlight(Apply(w', step), key))
  {
    SubmittedAgainIffNotCommitted(w, key, g, q, commits);
    var w' := Now(w, key, g, q, commits);
    var step := Reconcile(key, read, g', q', commits');
    SubmissionKeepsVersions(w, key, g, q, commits);
    RepeatsIffOffered(w', step, q.newId);
    if Repeats(w', step, q.newId) {
      RepeatedIsInFlight(w', step, q.newId);
    }
  }

  lemma {:induction false} SubmissionKeepsVersions(w: World, key: ResourceKey, g: Config, q: Request, commits: bool)
    requires Holds(w, key, Pending) && !q.paused && q.resolves
    ensures var w', n := Now(w, key, g, q, commits), |w.objects[key]|;
      && |w'.objects[key]| == (if commits && !StopsAtFinalizers(g, q) then n + 1 else n)
      && (forall k :: 0 <= k < n ==> w'.objects[key][k] == w.objects[key][k])
      && w'.history == w.history[q.newId := w'.history[q.newId]] && w'.history[q.newId].owner == key
      && Offers(Current(w, key), w'.history[q.newId])
      && (commits && !StopsAtFinalizers(g, q) ==> !Offers(Current(w', key), w'.history[q.newId]))
  {
  }

  lemma {:induction false} RepeatedIsInFlight(w: World, step: Step, id: TaskId)
    requires step.Reconcile? && Enabled(w, step) && id in w.history && w.history[id].owner == step.key
    requires Repeats(w, step, id) && w.history[id].outcome.None?
    ensures {id, step.request.newId} <= OrderlyRuns.InFlight(Apply(w, step), step.key)
  {
  }

  /**
   After any orderly run, the next reconcile repeats an attempt exactly when it reads an older version
   that still offers it: stale reads are the only way from an orderly run to a repeated submission.
   */
  lemma {:induction false} OnlyStaleReadsRepeat(poolSize: nat, steps: seq<Step>, w: World, step: Step, id: TaskId)
    requires Runs(Start(poolSize), steps, w) && OrderlyRuns.AllOrderly(Start(poolSize), steps)
    requires step.Reconcile? && Enabled(w, step) && id in w.history && w.history[id].owner == step.key
    ensures Repeats(w, step, id) <==>
      && !step.request.paused && step.request.resolves
      && step.read + 1 < |w.objects[step.key]| && Offers(w.objects[step.key][step.read], w.history[id])
  {
    RepeatsIffOffered(w, step, id);
    OrderlyRuns.OrderlyRunIsTidy(poolSize, steps, w);
    var o := OrderlyRuns.Orphans(Start(poolSize), steps);
    assert OrderlyRuns.KeyTidy(w, o, step.key, Current(w, step.key));
    assert OrderlyRuns.AttemptTidy(w, o, Current(w, step.key), id);
  }

  /**
   A result that a reconcile has read is there for the next one exactly when this reconcile stopped
   at the finalizers; once it has cleaned, the task does not exist any more.
   */
  lemma {:induction false} ResultSurvivesIffStopped(w: World, key: ResourceKey, g: Config, q: Request, commits: bool)
    requires Inv(w) && Holds(w, key, Running) && !q.paused
    requires PollOf(w.manager, Current(w, key).tracked.value.context.taskId).Ready?
    ensures var id := Current(w, key).tracked.value.context.taskId;
      var w' := Now(w, key, g, q, commits);
      if StopsAtFinalizers(g, q) then PollOf(w'.manager, id) == PollOf(w.manager, id)
      else PollOf(w'.manager, id) == NotExists
  {
    var id := Current(w, key).tracked.value.context.taskId;
    PollHonest(w, id);
    assert Sound(w.manager);
  }

  /**
   So a lost write turns success into failure: the result was cleaned, the stored context still says
   running, and the next committed reconcile marks the task failed although its execution returned nil,
   unless it drops the context altogether.
   */
  lemma {:induction false} LostWriteFailsSuccess(
    w: World, key: ResourceKey, g: Config, q: Request, g': Config, q': Request)
    requires Inv(w) && Holds(w, key, Running) && !q.paused && !q'.paused
    requires PollOf(w.manager, Current(w, key).tracked.value.context.taskId) == Ready(ResultOf(ReturnedNil))
    requires !StopsAtFinalizers(g, q) && !StopsAtFinalizers(g', q')
    ensures var w' := Now(w, key, g, q, false);
      && w'.objects[key] != []
      && var w'' := Now(w', key, g', q', true);
         && w''.objects[key] != []
         && (Current(w'', key).tracked.Some? <==> !q'.drops)
         && (!q'.drops ==>
               && Current(w'', key).tracked.value.context.taskStatus.Failed?
               && var id := Current(w'', key).tracked.value.context.taskId;
                  id in w''.history && w''.history[id].outcome == Some(ReturnedNil))
  {
    var id := Current(w, key).tracked.value.context.taskId;
    PollHonest(w, id);
    CleaningKeepsVersions(w, key, g, q, false);
    var w' := Now(w, key, g, q, false);
    assert Current(w', key) == Current(w, key);
    MissingResultFails(w', key, g', q');
  }

  /** A running context whose result is gone fails, whatever its execution did, unless it is dropped. */
  lemma {:induction false} MissingResultFails(w: World, key: ResourceKey, g: Config, q: Request)
    requires Holds(w, key, Running) && !q.paused && !StopsAtFinalizers(g, q)
    requires PollOf(w.manager, Current(w, key).tracked.value.context.taskId) == NotExists
    ensures var w' := Now(w, key, g, q, true);
      && w'.objects[key] != [] && w'.history == w.history
      && (Current(w', key).tracked.Some? <==> !q.drops)
      && (!q.drops ==> Current(w', key).tracked.value.context ==
                       Current(w, key).tracked.value.context.(taskStatus := Failed))
  {
  }

  /** The version holds a context that waits for the result of execution `id`. */
  predicate Awaits(v: Version, id: TaskId) {
    v.status != "" && OrderlyRuns.Busy(v, id)
  }

  /** The step stores a version in which the task that ran as `id` has failed. */
  predicate StoresFailure(w: World, step: Step, id: TaskId)
    requires step.Reconcile? && Enabled(w, step)
  {
    var w', key := Apply(w, step), step.key;
    && key in w'.objects && |w'.objects[key]| == |w.objects[key]| + 1
    && Current(w', key).tracked.Some? && Current(w', key).tracked.value.context.taskStatus.Failed?
    && Current(w', key).tracked.value.context.taskId == id
  }

  /** The step gets as far as storing what became of the context, and does not drop it. */
  predicate Writes(step: Step)
    requires step.Reconcile?
  {
    step.commits && !step.request.paused && !StopsAtFinalizers(step.config, step.request) && !step.request.drops
  }

  /** In every run a task whose execution returned nil is marked failed exactly when its result is gone. */
  lemma {:induction false} SuccessFailsIffResultGone(w: World, step: Step, id: TaskId)
    requires Inv(w) && step.Reconcile? && Enabled(w, step) && Awaits(w.objects[step.key][step.read], id)
    requires id in w.history && w.history[id].outcome == Some(ReturnedNil)
    ensures StoresFailure(w, step, id) <==> Writes(step) && id !in w.manager.results
  {
    PollHonest(w, id);
    assert Sound(w.manager);
    if id in w.manager.results {
      assert ChannelFollows(w.manager, id);
    }
  }

  /** The step turns a context awaiting `id` into a failed one exactly when it writes and reads one of `older`. */
  predicate FailsExactlyOlder(w: World, step: Step, id: TaskId, older: seq<Version>)
    requires step.Reconcile? && Enabled(w, step)
  {
    Awaits(w.objects[step.key][step.read], id) && StoresFailure(w, step, id) <==>
      Writes(step) && step.read < |older| && Awaits(older[step.read], id)
  }

  /**
   So once a reconcile has read the result and cleaned it, with its write committed or lost, a following
   reconcile fails the successful task exactly when it writes and reads a version from before that still
   awaits the result: the current one after a lost write, an older one after a committed write.
   */
  lemma {:induction false} SuccessFailsIff(
    w: World, key: ResourceKey, g: Config, q: Request, commits: bool, step: Step)
    requires Inv(w) && Holds(w, key, Running) && !q.paused && !StopsAtFinalizers(g, q)
    requires PollOf(w.manager, Current(w, key).tracked.value.context.taskId) == Ready(ResultOf(ReturnedNil))
    requires Enabled(w, Reconcile(key, |w.objects[key]| - 1, g, q, commits))
    requires step.Reconcile? && step.key == key && Enabled(Now(w, key, g, q, commits), step)
    ensures var id, w', n := Current(w, key).tracked.value.context.taskId, Now(w, key, g, q, commits), |w.objects[key]|;
      |w'.objects[key]| == (if commits then n + 1 else n) && FailsExactlyOlder(w', step, id, w.objects[key])
  {
    var id := Current(w, key).tracked.value.context.taskId;
    var w' := Now(w, key, g, q, commits);
    NowKeepsInv(w, key, g, q, commits);
    CleaningKeepsVersions(w, key, g, q, commits);
    PollHonest(w, id);
    OlderVersionsFail(w', key, step, id, w.objects[key]);
  }

  /** With the result gone, of the versions `older` and at most one that does not await it. */
  lemma {:induction false} OlderVersionsFail(w: World, key: ResourceKey, step: Step, id: TaskId, older: seq<Version>)
    requires Inv(w) && step.Reconcile? && step.key == key && Enabled(w, step) && id !in w.manager.results
    requires id in w.history && w.history[id].outcome == Some(ReturnedNil)
    requires |older| <= |w.objects[key]| <= |older| + 1
    requires forall k :: 0 <= k < |older| ==> w.objects[key][k] == older[k]
    requires |w.objects[key]| == |older| + 1 ==> !Awaits(w.objects[key][|older|], id)
    ensures FailsExactlyOlder(w, step, id, older)
  {
    if Awaits(w.objects[key][step.read], id) {
      SuccessFailsIffResultGone(w, step, id);
    }
  }

  lemma {:induction false} NowKeepsInv(w: World, key: ResourceKey, g: Config, q: Request, commits: bool)
    requires Inv(w) && key in w.objects && w.objects[key] != []
    requires Enabled(w, Reconcile(key, |w.objects[key]| - 1, g, q, commits))
    ensures Inv(Now(w, key, g, q, commits))
  {
    NowIsApply(w, key, g, q, commits);
    ReconcileKeepsInv(w, Reconcile(key, |w.objects[key]| - 1, g, q, commits));
  }

  lemma {:induction false} NowIsApply(w: World, key: ResourceKey, g: Config, q: Request, commits: bool)
    requires key in w.objects && w.objects[key] != []
    requires Enabled(w, Reconcile(key, |w.objects[key]| - 1, g, q, commits))
    ensures Now(w, key, g, q, commits) == Apply(w, Reconcile(key, |w.objects[key]| - 1, g, q, commits))
  {
  }

  lemma {:induction false} CleaningKeepsVersions(w: World, key: ResourceKey, g: Config, q: Request, commits: bool)
    requires Inv(w) && Holds(w, key, Running) && !q.paused && !StopsAtFinalizers(g, q)
    requires PollOf(w.manager, Current(w, key).tracked.value.context.taskId) == Ready(ResultOf(ReturnedNil))
    ensures var w', n := Now(w, key, g, q, commits), |w.objects[key]|;
      var id := Current(w, key).tracked.value.context.taskId;
      && |w'.objects[key]| == (if commits then n + 1 else n)
      && (forall k :: 0 <= k < n ==> w'.objects[key][k] == w.objects[key][k])
      && w'.history == w.history && id !in w'.manager.results && PollOf(w'.manager, id) == NotExists
      && (commits ==> !Awaits(Current(w', key), id))
  {
  }

  /** Every stored version, also an older one, states a failure only of an execution that failed. */
  ghost predicate FailuresTrue(w: World) {
    forall key, k :: key in w.objects && 0 <= k < |w.objects[key]| && w.objects[key][k].tracked.Some? ==>
      FailureTrue(w, w.objects[key][k])
  }

  ghost predicate FailureTrue(w: World, v: Version)
    requires v.tracked.Some?
  {
    var c := v.tracked.value.context;
    && v.status != ""
    && (c.taskStatus.Failed? ==>
          c.taskId in w.history && w.history[c.taskId].outcome.Some?
            && w.history[c.taskId].outcome.value != ReturnedNil)
  }

  lemma {:induction false} OrderlyStepKeepsFailuresTrue(w: World, o: set<TaskId>, step: Step)
    requires OrderlyRuns.Tidy(w, o) && FailuresTrue(w) && Enabled(w, step) && OrderlyRuns.Orderly(w, step)
    ensures OrderlyRuns.Tidy(Apply(w, step), o + OrderlyRuns.Orphaned(w, step)) && FailuresTrue(Apply(w, step))
  {
    var w', o' := Apply(w, step), o + OrderlyRuns.Orphaned(w, step);
    OrderlyRuns.StepStaysTidy(w, o, step);
    StepKeepsInv(w, step);
    forall key, k | key in w'.objects && 0 <= k < |w'.objects[key]| && w'.objects[key][k].tracked.Some?
      ensures FailureTrue(w', w'.objects[key][k])
    {
      StepKeepsVersions(w, step, key);
      assert OrderlyRuns.KeyTidy(w', o', key, Current(w', key));
      VersionFailureTrue(w, w', o', key, k);
    }
  }

  lemma {:induction false} VersionFailureTrue(w: World, w': World, o: set<TaskId>, key: ResourceKey, k: nat)
    requires FailuresTrue(w) && Extends(w, w') && key in w'.objects && k < |w'.objects[key]|
    requires w'.objects[key][k].tracked.Some? && OrderlyRuns.ContextTidy(w', o, key, Current(w', key))
    requires if key in w.objects then |w'.objects[key]| <= |w.objects[key]| + 1 && w.objects[key] <= w'.objects[key]
             else |w'.objects[key]| == 1
    ensures FailureTrue(w', w'.objects[key][k])
  {
    if key in w.objects && k < |w.objects[key]| {
      assert FailureTrue(w, w.objects[key][k]);
    } else {
      assert w'.objects[key][k] == Current(w', key);
    }
  }

  lemma {:induction false} StepKeepsVersions(w: World, step: Step, key: ResourceKey)
    requires Enabled(w, step) && key in Apply(w, step).objects
    ensures var w' := Apply(w, step);
      if key in w.objects then
        |w'.objects[key]| <= |w.objects[key]| + 1 && w.objects[key] <= w'.objects[key]
      else |w'.objects[key]| == 1
  {
  }

  lemma {:induction false} OrderlyRunKeepsFailuresTrue(w: World, o: set<TaskId>, steps: seq<Step>, end: World)
    requires OrderlyRuns.Tidy(w, o) && FailuresTrue(w) && Runs(w, steps, end) && OrderlyRuns.AllOrderly(w, steps)
    ensures FailuresTrue(end)
    decreases |steps|
  {
    if steps != [] {
      OrderlyStepKeepsFailuresTrue(w, o, steps[0]);
      OrderlyRunKeepsFailuresTrue(Apply(w, steps[0]), o + OrderlyRuns.Orphaned(w, steps[0]), steps[1..], end);
    }
  }

  /**
   After any orderly run, the next reconcile fails a task whose execution returned nil exactly when it
   writes and reads an older version that awaits the result while the current one does not any more, and
   the execution is not an orphan, whose result would still be there.
   */
  lemma {:induction false} OnlyStaleReadsFailSuccess(poolSize: nat, steps: seq<Step>, w: World, step: Step, id: TaskId)
    requires Runs(Start(poolSize), steps, w) && OrderlyRuns.AllOrderly(Start(poolSize), steps)
    requires step.Reconcile? && Enabled(w, step) && id in w.history && w.history[id].outcome == Some(ReturnedNil)
    ensures StoresFailure(w, step, id) <==>
      && Writes(step)
      && Awaits(w.objects[step.key][step.read], id) && !Awaits(Current(w, step.key), id)
      && id !in OrderlyRuns.Orphans(Start(poolSize), steps)
  {
    StartIsGood(poolSize);
    OrderlyRunKeepsFailuresTrue(Start(poolSize), {}, steps, w);
    OrderlyRuns.OrderlyRunIsTidy(poolSize, steps, w);
    var key, v := step.key, w.objects[step.key][step.read];
    if Awaits(v, id) {
      assert Good(w, key, v.tracked.value);
      ResultsFollowCurrent(w, OrderlyRuns.Orphans(Start(poolSize), steps), key, id);
      SuccessFailsIffResultGone(w, step, id);
    } else {
      NotAwaitedNotFailed(w, step, id);
    }
  }

  lemma {:induction false} ResultsFollowCurrent(w: World, o: set<TaskId>, key: ResourceKey, id: TaskId)
    requires OrderlyRuns.Tidy(w, o) && key in w.objects && id in w.history && w.history[id].owner == key
    ensures w.objects[key] != [] && (id in w.manager.results <==> Awaits(Current(w, key), id) || id in o)
  {
    var v := Current(w, key);
    assert OrderlyRuns.KeyTidy(w, o, key, v);
    assert OrderlyRuns.AttemptTidy(w, o, v, id);
  }

  lemma {:induction false} NotAwaitedNotFailed(w: World, step: Step, id: TaskId)
    requires Inv(w) && FailuresTrue(w) && step.Reconcile? && Enabled(w, step)
    requires id in w.history && w.history[id].outcome == Some(ReturnedNil)
    requires !Awaits(w.objects[step.key][step.read], id)
    ensures !StoresFailure(w, step, id)
  {
    var v, q := w.objects[step.key][step.read], step.request;
    if FlowOf(StoredOf(v), q).Some? {
      CoordinateMoves(step.config, StoredOf(v), w.manager, q);
    } else {
      CoordinateWithoutFlow(step.config, StoredOf(v), w.manager, q);
    }
    if v.tracked.Some? {
      assert FailureTrue(w, v);
    }
  }
}
