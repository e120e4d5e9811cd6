/**
 `GetTaskResult` at the grain of its shared accesses: a read first loads the cache, then the
 result map, then receives from the channel, and only then stores the cache. Goroutine steps,
 submissions and other callers run between any two of these.
 */
module ResultReads {
  import opened Common
  import opened TaskManagement

  /** A read in progress; a caller that is not in the map is idle. */
  datatype ReadPoint =
    | Missed(id: TaskId)                        // not in the cache
    | HasChannel(id: TaskId)                    // the result map gave the channel
    | Received(id: TaskId, result: TaskResult)  // received, not in the cache yet

  datatype Answer = Answer(id: TaskId, poll: Poll)

  datatype System = System(manager: ManagerState, readers: map<nat, ReadPoint>, log: seq<Answer>)

  datatype Step =
    | Submit(id: TaskId)
    | Work(id: TaskId, step: WorkerStep)
    | LoadCache(caller: nat, id: TaskId)
    | LoadMap(caller: nat)
    | Receive(caller: nat)
    | StoreCache(caller: nat)
    | Clean(id: TaskId)

  predicate Enabled(y: System, step: Step) {
    match step
    case Submit(id) => id !in y.manager.workers
    case Work(id, w) => CanWork(y.manager, id, w)
    case LoadCache(caller, _) => caller !in y.readers
    case LoadMap(caller) => caller in y.readers && y.readers[caller].Missed?
    case Receive(caller) =>
      caller in y.readers && y.readers[caller].HasChannel? && y.readers[caller].id in y.manager.channels
    case StoreCache(caller) => caller in y.readers && y.readers[caller].Received?
    case Clean(_) => true
  }

  function Answered(y: System, caller: nat, id: TaskId, poll: Poll): System {
    y.(readers := y.readers - {caller}, log := y.log + [Answer(id, poll)])
  }

  function Apply(y: System, step: Step): System
    requires Enabled(y, step)
  {
    match step
    case Submit(id) => y.(manager := Submitted(y.manager, id))
    case Work(id, w) => y.(manager := Worked(y.manager, id, w))
    case LoadCache(caller, id) =>
      if id in y.manager.cache then Answered(y, caller, id, Ready(y.manager.cache[id]))
      else y.(readers := y.readers[caller := Missed(id)])
    case LoadMap(caller) =>
      var id := y.readers[caller].id;
      if id in y.manager.results then y.(readers := y.readers[caller := HasChannel(id)])
      else Answered(y, caller, id, NotExists)
    case Receive(caller) =>
      var id := y.readers[caller].id;
      var channel := y.manager.channels[id];
      if channel.buffer != [] then
        y.(manager := y.manager.(channels := y.manager.channels[id := channel.(buffer := channel.buffer[1..])]),
           readers := y.readers[caller := Received(id, channel.buffer[0])])
      else if channel.closed then Answered(y, caller, id, ChannelClosed)
      else Answered(y, caller, id, NotReady)
    case StoreCache(caller) =>
      var Received(id, result) := y.readers[caller];
      Answered(y.(manager := y.manager.(cache := y.manager.cache[id := result])), caller, id, Ready(result))
    case Clean(id) => y.(manager := Cleaned(y.manager, id))
  }

  predicate BeingRead(y: System, id: TaskId) {
    exists caller :: caller in y.readers && y.readers[caller].id == id
  }

  /** Callers take turns per task id, as reconciles of one resource do. */
  predicate Serialized(y: System, step: Step) {
    match step
    case LoadCache(_, id) => !BeingRead(y, id)
    case Clean(id) => !BeingRead(y, id)
    case _ => true
  }

  function Start(poolSize: nat): System {
    System(EmptyManager(poolSize), map[], [])
  }

  /** The system after running `steps`, all of them enabled. */
  ghost predicate Runs(y: System, steps: seq<Step>, end: System)
    decreases |steps|
  {
    if steps == [] then end == y
    else Enabled(y, steps[0]) && Runs(Apply(y, steps[0]), steps[1..], end)
  }

  ghost predicate AllSerialized(y: System, steps: seq<Step>)
    decreases |steps|
  {
    steps == [] ||
    (Enabled(y, steps[0]) && Serialized(y, steps[0]) && AllSerialized(Apply(y, steps[0]), steps[1..]))
  }

  // ---------------------------------------------------------------- the invariant

  ghost predicate ReaderConsistent(m: ManagerState, r: ReadPoint) {
    && r.id !in m.cache
    && (r.HasChannel? ==> r.id in m.results)
    && (r.Received? ==>
          && r.id in m.results && r.id in m.workers && r.id in m.channels
          && m.workers[r.id].HasSent() && m.channels[r.id].buffer == []
          && r.result == ResultOf(m.workers[r.id].outcome))
  }

  ghost predicate InHand(y: System, id: TaskId) {
    exists caller :: caller in y.readers && y.readers[caller].Received? && y.readers[caller].id == id
  }

  /** A result that was sent is in the channel, in the cache, or in the hand of its one reader. */
  ghost predicate ResultKept(y: System, id: TaskId)
    requires id in y.manager.workers && id in y.manager.channels
  {
    id in y.manager.results && y.manager.workers[id].HasSent() ==>
      id in y.manager.cache || y.manager.channels[id].buffer != [] || InHand(y, id)
  }

  ghost predicate AnswerHonest(m: ManagerState, a: Answer) {
    && a.poll != ChannelClosed
    && (a.poll.Ready? ==>
          && a.id in m.workers && m.workers[a.id].HasSent()
          && a.poll.result == ResultOf(m.workers[a.id].outcome)
          && (a.id in m.results ==> a.id in m.cache))
  }

  ghost predicate ReadersConsistent(y: System) {
    && (forall c :: c in y.readers ==> ReaderConsistent(y.manager, y.readers[c]))
    && (forall c, d :: c in y.readers && d in y.readers && y.readers[c].id == y.readers[d].id ==> c == d)
  }

  ghost predicate Inv(y: System) {
    && Sound(y.manager)
    && ReadersConsistent(y)
    && (forall id :: id in y.manager.workers ==> ResultKept(y, id))
    && (forall a :: a in y.log ==> AnswerHonest(y.manager, a))
  }

  lemma {:induction false} WorkKeepsInv(y: System, id: TaskId, w: WorkerStep)
    requires Inv(y) && CanWork(y.manager, id, w)
    ensures Inv(Apply(y, Work(id, w)))
  {
    var z := Apply(y, Work(id, w));
    WorkedKeepsSound(y.manager, id, w);
    assert ChannelFollows(y.manager, id);
    WorkKeepsReaders(y, id, w);
    forall i | i in z.manager.workers ensures ResultKept(z, i) {
      WorkKeepsResult(y, id, w, i);
    }
    forall a | a in z.log ensures AnswerHonest(z.manager, a) {
      WorkKeepsAnswer(y.manager, id, w, a);
    }
  }

  lemma {:induction false} WorkKeepsReaders(y: System, id: TaskId, w: WorkerStep)
    requires ReadersConsistent(y) && CanWork(y.manager, id, w)
    ensures ReadersConsistent(Apply(y, Work(id, w)))
  {
    var z := Apply(y, Work(id, w));
    WorkedFrame(y.manager, id, w);
    forall c | c in z.readers ensures ReaderConsistent(z.manager, z.readers[c]) {
      assert ReaderConsistent(y.manager, y.readers[c]);
    }
  }

  lemma {:induction false} WorkKeepsResult(y: System, id: TaskId, w: WorkerStep, i: TaskId)
    requires CanWork(y.manager, id, w) && i in y.manager.workers && i in y.manager.channels && ResultKept(y, i)
    ensures i in Apply(y, Work(id, w)).manager.workers && i in Apply(y, Work(id, w)).manager.channels
    ensures ResultKept(Apply(y, Work(id, w)), i)
  {
    WorkedFrame(y.manager, id, w);
  }

  lemma {:induction false} WorkKeepsAnswer(m: ManagerState, id: TaskId, w: WorkerStep, a: Answer)
    requires CanWork(m, id, w) && AnswerHonest(m, a)
    ensures AnswerHonest(Worked(m, id, w), a)
  {
    WorkedFrame(m, id, w);
  }

  lemma {:induction false} SubmitKeepsInv(y: System, id: TaskId)
    requires Inv(y) && id !in y.manager.workers
    ensures Inv(Apply(y, Submit(id)))
  {
    var z := Apply(y, Submit(id));
    SubmittedKeepsSound(y.manager, id);
    forall c | c in z.readers ensures ReaderConsistent(z.manager, z.readers[c]) {
      assert ReaderConsistent(y.manager, y.readers[c]);
    }
    forall i | i in z.manager.workers ensures ResultKept(z, i) {
      if i != id {
        assert ResultKept(y, i);
      }
    }
    forall a | a in z.log ensures AnswerHonest(z.manager, a) {
      assert AnswerHonest(y.manager, a);
    }
  }

  lemma {:induction false} LoadsKeepInv(y: System, step: Step)
    requires Inv(y) && Enabled(y, step) && Serialized(y, step)
    requires step.LoadCache? || step.LoadMap?
    ensures Inv(Apply(y, step))
  {
    var z := Apply(y, step);
    forall i | i in z.manager.workers ensures ResultKept(z, i) {
      assert ResultKept(y, i);
      if InHand(y, i) {
        var c :| c in y.readers && y.readers[c].Received? && y.readers[c].id == i;
        assert c in z.readers && z.readers[c] == y.readers[c];
      }
    }
    if step.LoadCache? && step.id in y.manager.cache {
      assert ChannelFollows(y.manager, step.id);
    }
    forall a | a in z.log ensures AnswerHonest(z.manager, a) {
      if a in y.log {
        assert AnswerHonest(y.manager, a);
      }
    }
    forall c | c in z.readers ensures ReaderConsistent(z.manager, z.readers[c]) {
      if c in y.readers {
        assert ReaderConsistent(y.manager, y.readers[c]);
      }
    }
  }

  lemma {:induction false} ReceiveKeepsInv(y: System, caller: nat)
    requires Inv(y) && Enabled(y, Receive(caller))
    ensures Inv(Apply(y, Receive(caller)))
  {
    var z := Apply(y, Receive(caller));
    var id := y.readers[caller].id;
    assert ReaderConsistent(y.manager, y.readers[caller]);
    assert ChannelFollows(y.manager, id);
    assert ResultKept(y, id);
    ReceiveKeepsSound(y, caller);
    forall c | c in z.readers ensures ReaderConsistent(z.manager, z.readers[c]) {
      assert ReaderConsistent(y.manager, y.readers[c]);
    }
    forall i | i in z.manager.workers ensures ResultKept(z, i) {
      assert ResultKept(y, i);
      ReceiveKeepsResult(y, caller, i);
    }
    forall a | a in z.log ensures AnswerHonest(z.manager, a) {
      if a in y.log {
        assert AnswerHonest(y.manager, a);
      }
    }
  }

  lemma {:induction false} ReceiveKeepsSound(y: System, caller: nat)
    requires Sound(y.manager) && Enabled(y, Receive(caller)) && y.readers[caller].id !in y.manager.cache
    ensures Sound(Apply(y, Receive(caller)).manager)
  {
    var z := Apply(y, Receive(caller));
    assert Holders(z.manager) == Holders(y.manager);
    forall i | i in z.manager.workers ensures ChannelFollows(z.manager, i) {
      assert ChannelFollows(y.manager, i);
    }
  }

  lemma {:induction false} ReceiveKeepsResult(y: System, caller: nat, i: TaskId)
    requires Enabled(y, Receive(caller)) && i in y.manager.workers && i in y.manager.channels && ResultKept(y, i)
    requires forall c :: c in y.readers && y.readers[c].id == y.readers[caller].id ==> c == caller
    ensures ResultKept(Apply(y, Receive(caller)), i)
  {
    var z := Apply(y, Receive(caller));
    if i == y.readers[caller].id {
      assert caller in z.readers ==> z.readers[caller].Received? && z.readers[caller].id == i;
    } else if InHand(y, i) {
      var c :| c in y.readers && y.readers[c].Received? && y.readers[c].id == i;
      assert c in z.readers && z.readers[c] == y.readers[c];
    }
  }

  lemma {:induction false} StoreKeepsInv(y: System, caller: nat)
    requires Inv(y) && Enabled(y, StoreCache(caller))
    ensures Inv(Apply(y, StoreCache(caller)))
  {
    var z := Apply(y, StoreCache(caller));
    var id := y.readers[caller].id;
    assert ReaderConsistent(y.manager, y.readers[caller]);
    assert Holders(z.manager) == Holders(y.manager);
    forall i | i in z.manager.workers ensures ChannelFollows(z.manager, i) {
      assert ChannelFollows(y.manager, i);
    }
    forall c | c in z.readers ensures ReaderConsistent(z.manager, z.readers[c]) {
      assert ReaderConsistent(y.manager, y.readers[c]);
    }
    forall i | i in z.manager.workers ensures ResultKept(z, i) {
      assert ResultKept(y, i);
      if i != id && InHand(y, i) {
        var c :| c in y.readers && y.readers[c].Received? && y.readers[c].id == i;
        assert c in z.readers && z.readers[c] == y.readers[c];
      }
    }
    forall a | a in z.log ensures AnswerHonest(z.manager, a) {
      if a in y.log {
        assert AnswerHonest(y.manager, a);
      }
    }
  }

  lemma {:induction false} CleanKeepsInv(y: System, id: TaskId)
    requires Inv(y) && Serialized(y, Clean(id))
    ensures Inv(Apply(y, Clean(id)))
  {
    var z := Apply(y, Clean(id));
    CleanedKeepsSound(y.manager, id);
    forall c | c in z.readers ensures ReaderConsistent(z.manager, z.readers[c]) {
      assert ReaderConsistent(y.manager, y.readers[c]);
    }
    forall i | i in z.manager.workers ensures ResultKept(z, i) {
      assert ResultKept(y, i);
    }
    forall a | a in z.log ensures AnswerHonest(z.manager, a) {
      assert AnswerHonest(y.manager, a);
    }
  }

  lemma {:induction false} StepKeepsInv(y: System, step: Step)
    requires Inv(y) && Enabled(y, step) && Serialized(y, step)
    ensures Inv(Apply(y, step))
  {
    match step {
      case Submit(id) => SubmitKeepsInv(y, id);
      case Work(id, w) => WorkKeepsInv(y, id, w);
      case LoadCache(_, _) => LoadsKeepInv(y, step);
      case LoadMap(_) => LoadsKeepInv(y, step);
      case Receive(caller) => ReceiveKeepsInv(y, caller);
      case StoreCache(caller) => StoreKeepsInv(y, caller);
      case Clean(id) => CleanKeepsInv(y, id);
    }
  }

  lemma {:induction false} RunKeepsInv(y: System, steps: seq<Step>, end: System)
    requires Inv(y) && Runs(y, steps, end) && AllSerialized(y, steps)
    ensures Inv(end)
    decreases |steps|
  {
    if steps != [] {
      StepKeepsInv(y, steps[0]);
      RunKeepsInv(Apply(y, steps[0]), steps[1..], end);
    }
  }

  // ---------------------------------------------------------------- every interleaving

  lemma {:induction false} StepKeepsDisciplined(y: System, step: Step)
    requires Disciplined(y.manager) && Enabled(y, step)
    ensures Disciplined(Apply(y, step).manager)
  {
    match step {
      case Submit(id) => SubmittedKeepsDisciplined(y.manager, id);
      case Work(id, w) => WorkedKeepsDisciplined(y.manager, id, w);
      case _ => ReadingKeepsDisciplined(y.manager, Apply(y, step).manager);
    }
  }

  lemma {:induction false} RunKeepsDisciplined(y: System, steps: seq<Step>, end: System)
    requires Disciplined(y.manager) && Runs(y, steps, end)
    ensures Disciplined(end.manager)
    decreases |steps|
  {
    if steps != [] {
      StepKeepsDisciplined(y, steps[0]);
      RunKeepsDisciplined(Apply(y, steps[0]), steps[1..], end);
    }
  }

  /**
   In every interleaving of submissions, goroutines and readers, overlapping ones included: the tokens
   held are those of the goroutines between acquire and release and never exceed the pool; every
   goroutine, panicking or not, sends once, before its channel is closed; and none ever blocks on
   sending, releasing or closing.
   */
  lemma {:induction false} EveryRunConservesTokens(poolSize: nat, steps: seq<Step>, end: System)
    requires Runs(Start(poolSize), steps, end)
    ensures end.manager.poolSize == poolSize
    ensures end.manager.tokens == |Holders(end.manager)| <= poolSize
    ensures forall id :: id in end.manager.workers ==>
      && id in end.manager.channels && SendsOnce(end.manager, id) && Unblocked(end.manager, id)
  {
    assert Holders(Start(poolSize).manager) == {};
    RunKeepsDisciplined(Start(poolSize), steps, end);
    PoolSizeIsFixed(Start(poolSize), steps, end);
    forall id | id in end.manager.workers
      ensures id in end.manager.channels && SendsOnce(end.manager, id) && Unblocked(end.manager, id)
    {
      NeverBlocksAfterReturn(end.manager, id);
    }
  }

  lemma {:induction false} PoolSizeIsFixed(y: System, steps: seq<Step>, end: System)
    requires Runs(y, steps, end)
    ensures end.manager.poolSize == y.manager.poolSize
    decreases |steps|
  {
    if steps != [] {
      PoolSizeIsFixed(Apply(y, steps[0]), steps[1..], end);
    }
  }

  /** The tasks whose one result some receive of the run has taken. */
  ghost function Taken(y: System, steps: seq<Step>): set<TaskId>
    decreases |steps|
  {
    if steps == [] || !Enabled(y, steps[0]) then {}
    else TakenBy(y, steps[0]) + Taken(Apply(y, steps[0]), steps[1..])
  }

  ghost function TakenBy(y: System, step: Step): set<TaskId>
    requires Enabled(y, step)
  {
    if step.Receive? && y.manager.channels[y.readers[step.caller].id].buffer != []
    then {y.readers[step.caller].id} else {}
  }

  /** A result that was sent is in its channel exactly as long as nobody has taken it. */
  ghost predicate TakenOnce(m: ManagerState, taken: set<TaskId>, id: TaskId)
    requires id in m.workers && id in m.channels
  {
    && |m.channels[id].buffer| <= 1
    && (id in taken ==> m.workers[id].HasSent())
    && (m.workers[id].HasSent() ==> (m.channels[id].buffer == [] <==> id in taken))
  }

  ghost predicate AllTakenOnce(m: ManagerState, taken: set<TaskId>) {
    && Disciplined(m) && taken <= m.workers.Keys
    && forall id :: id in m.workers ==> TakenOnce(m, taken, id)
  }

  lemma {:induction false} WorkKeepsTaken(m: ManagerState, taken: set<TaskId>, id: TaskId, w: WorkerStep)
    requires AllTakenOnce(m, taken) && CanWork(m, id, w)
    ensures AllTakenOnce(Worked(m, id, w), taken)
  {
    var m' := Worked(m, id, w);
    WorkedKeepsDisciplined(m, id, w);
    WorkedFrame(m, id, w);
    assert SendsOnce(m, id);
    forall i | i in m'.workers ensures TakenOnce(m', taken, i) {
      assert TakenOnce(m, taken, i);
    }
  }

  lemma {:induction false} ReceiveKeepsTaken(y: System, taken: set<TaskId>, caller: nat)
    requires AllTakenOnce(y.manager, taken) && Enabled(y, Receive(caller))
    ensures AllTakenOnce(Apply(y, Receive(caller)).manager, taken + TakenBy(y, Receive(caller)))
  {
    var m, m', id := y.manager, Apply(y, Receive(caller)).manager, y.readers[caller].id;
    StepKeepsDisciplined(y, Receive(caller));
    assert SendsOnce(m, id);
    forall i | i in m'.workers ensures TakenOnce(m', taken + TakenBy(y, Receive(caller)), i) {
      assert TakenOnce(m, taken, i);
    }
  }

  lemma {:induction false} StepKeepsTaken(y: System, taken: set<TaskId>, step: Step)
    requires AllTakenOnce(y.manager, taken) && Enabled(y, step)
    ensures AllTakenOnce(Apply(y, step).manager, taken + TakenBy(y, step))
  {
    if step.Receive? {
      ReceiveKeepsTaken(y, taken, step.caller);
    } else {
      assert taken + TakenBy(y, step) == taken;
      if step.Work? {
        WorkKeepsTaken(y.manager, taken, step.id, step.step);
      } else {
        StepKeepsDisciplined(y, step);
        forall i | i in Apply(y, step).manager.workers ensures TakenOnce(Apply(y, step).manager, taken, i) {
          if i in y.manager.workers {
            assert TakenOnce(y.manager, taken, i);
          }
        }
      }
    }
  }

  lemma {:induction false} RunKeepsTaken(y: System, taken: set<TaskId>, steps: seq<Step>, end: System)
    requires AllTakenOnce(y.manager, taken) && Runs(y, steps, end)
    ensures AllTakenOnce(end.manager, taken + Taken(y, steps))
    decreases |steps|
  {
    if steps == [] {
      assert taken + Taken(y, steps) == taken;
    } else {
      StepKeepsTaken(y, taken, steps[0]);
      var taken' := taken + TakenBy(y, steps[0]);
      RunKeepsTaken(Apply(y, steps[0]), taken', steps[1..], end);
      assert taken + Taken(y, steps) == taken' + Taken(Apply(y, steps[0]), steps[1..]);
    }
  }

  /**
   In every run, overlapping reads included, a receive is told that the channel is closed exactly when the
   goroutine is over and another receive has taken its one result before.
   */
  lemma {:induction false} ClosedIsAnsweredIff(poolSize: nat, steps: seq<Step>, end: System, caller: nat)
    requires Runs(Start(poolSize), steps, end) && Enabled(end, Receive(caller))
    ensures var id := end.readers[caller].id;
      && id in end.manager.workers
      && (Apply(end, Receive(caller)).log == end.log + [Answer(id, ChannelClosed)] <==>
            end.manager.workers[id].Closed? && id in Taken(Start(poolSize), steps))
  {
    assert Holders(Start(poolSize).manager) == {};
    RunKeepsTaken(Start(poolSize), {}, steps, end);
    var id, log := end.readers[caller].id, Apply(end, Receive(caller)).log;
    assert {} + Taken(Start(poolSize), steps) == Taken(Start(poolSize), steps);
    assert SendsOnce(end.manager, id) && TakenOnce(end.manager, Taken(Start(poolSize), steps), id);
    var poll := if end.manager.channels[id].closed then ChannelClosed else NotReady;
    assert log != end.log ==> log[|end.log|] == Answer(id, poll);
  }

  // ---------------------------------------------------------------- main results of serialized runs

  /**
   Over every serialized run from an empty manager: the closed-channel error is never answered, a
   result is answered only after its task ended and then it is that task's own result, so any two
   answered results of one task are equal; tokens are conserved, as in every run.
   */
  lemma {:induction false} SerializedReadsAreStable(poolSize: nat, steps: seq<Step>, end: System)
    requires Runs(Start(poolSize), steps, end) && AllSerialized(Start(poolSize), steps)
    ensures TokensConserved(end.manager)
    ensures forall a :: a in end.log ==> a.poll != ChannelClosed
    ensures forall a, b :: a in end.log && b in end.log && a.id == b.id && a.poll.Ready? && b.poll.Ready? ==>
        a.poll == b.poll
    ensures forall a :: a in end.log && a.poll.Ready? ==>
        a.id in end.manager.workers && end.manager.workers[a.id].HasSent() &&
        a.poll.result == ResultOf(end.manager.workers[a.id].outcome)
  {
    assert Holders(Start(poolSize).manager) == {};
    RunKeepsInv(Start(poolSize), steps, end);
    forall a | a in end.log ensures AnswerHonest(end.manager, a) {
    }
  }

  /**
   After a result was answered and until the task is cleaned, the next read answers the same result
   at once: it never falls back to "not ready" or "not exists".
   */
  lemma {:induction false} AnsweredStaysAnswered(poolSize: nat, steps: seq<Step>, end: System, a: Answer, caller: nat)
    requires Runs(Start(poolSize), steps, end) && AllSerialized(Start(poolSize), steps)
    requires a in end.log && a.poll.Ready? && a.id in end.manager.results
    requires caller !in end.readers
    ensures Apply(end, LoadCache(caller, a.id)) == Answered(end, caller, a.id, a.poll)
  {
    assert Holders(Start(poolSize).manager) == {};
    RunKeepsInv(Start(poolSize), steps, end);
    assert AnswerHonest(end.manager, a);
    assert ChannelFollows(end.manager, a.id);
  }

  lemma {:induction false} RunOne(y: System, step: Step)
    requires Enabled(y, step)
    ensures Runs(y, [step], Apply(y, step))
  {
    assert [step][1..] == [];
    assert Runs(Apply(y, step), [], Apply(y, step));
  }

  lemma {:induction false} RunMore(y: System, step: Step, rest: seq<Step>, end: System)
    requires Enabled(y, step) && Runs(Apply(y, step), rest, end)
    ensures Runs(y, [step] + rest, end)
  {
    assert ([step] + rest)[1..] == rest;
  }

  /** The accesses that one call of `GetTaskResult` makes when nothing runs between them. */
  function ReadSteps(m: ManagerState, caller: nat, id: TaskId): seq<Step> {
    if id in m.cache then [LoadCache(caller, id)]
    else if id !in m.results then [LoadCache(caller, id)] + [LoadMap(caller)]
    else if id !in m.channels || m.channels[id].buffer == [] then
      [LoadCache(caller, id)] + ([LoadMap(caller)] + [Receive(caller)])
    else [LoadCache(caller, id)] + ([LoadMap(caller)] + ([Receive(caller)] + [StoreCache(caller)]))
  }

  /** Undisturbed, the accesses of one read amount to the atomic `PollOf` and `Polled`. */
  lemma {:induction false} UndisturbedReadIsAtomic(y: System, caller: nat, id: TaskId)
    requires Sound(y.manager) && caller !in y.readers
    ensures Runs(y, ReadSteps(y.manager, caller, id),
                 System(Polled(y.manager, id), y.readers, y.log + [Answer(id, PollOf(y.manager, id))]))
  {
    var load := LoadCache(caller, id);
    var y1 := Apply(y, load);
    if id in y.manager.cache {
      assert y1.readers == y.readers;
      RunOne(y, load);
    } else if id !in y.manager.results {
      assert Apply(y1, LoadMap(caller)).readers == y.readers;
      RunOne(y1, LoadMap(caller));
      RunMore(y, load, [LoadMap(caller)], Apply(y1, LoadMap(caller)));
    } else {
      var y2 := Apply(y1, LoadMap(caller));
      ReceivePart(y, y2, caller, id);
      var end := System(Polled(y.manager, id), y.readers, y.log + [Answer(id, PollOf(y.manager, id))]);
      var rest := if y.manager.channels[id].buffer == [] then [Receive(caller)]
        else [Receive(caller)] + [StoreCache(caller)];
      RunMore(y1, LoadMap(caller), rest, end);
      RunMore(y, load, [LoadMap(caller)] + rest, end);
    }
  }

  lemma {:induction false} ReceivePart(y: System, y2: System, caller: nat, id: TaskId)
    requires Sound(y.manager) && caller !in y.readers && id in y.manager.results && id !in y.manager.cache
    requires y2 == y.(readers := y.readers[caller := Missed(id)][caller := HasChannel(id)])
    ensures var end := System(Polled(y.manager, id), y.readers, y.log + [Answer(id, PollOf(y.manager, id))]);
      Runs(y2, if y.manager.channels[id].buffer == [] then [Receive(caller)]
        else [Receive(caller)] + [StoreCache(caller)], end)
  {
    var y3 := Apply(y2, Receive(caller));
    RunOne(y2, Receive(caller));
    if y.manager.channels[id].buffer == [] {
      assert y3.readers == y.readers;
    } else {
      assert y3.readers - {caller} == y.readers;
      RunOne(y3, StoreCache(caller));
      RunMore(y2, Receive(caller), [StoreCache(caller)], Apply(y3, StoreCache(caller)));
    }
  }

  /**
   Taking turns is needed: once the task has closed its channel, a second caller that passed the
   cache before the first one stored it is told that the channel is closed.
   */
  lemma {:induction false} OverlappingReadsFail(m: ManagerState, id: TaskId, first: nat, second: nat)
    requires Sound(m) && id in m.results && m.workers[id].Closed? && m.channels[id].buffer != [] && first != second
    ensures var y := System(m, map[], []);
      exists steps, end :: Runs(y, steps, end) && end.log == [Answer(id, ChannelClosed)]
  {
    var y := System(m, map[], []);
    assert ChannelFollows(m, id);
    var a1, a2, b1, b2 := LoadCache(first, id), LoadMap(first), LoadCache(second, id), LoadMap(second);
    var y1 := Apply(y, a1);
    var y2 := Apply(y1, a2);
    var y3 := Apply(y2, b1);
    var y4 := Apply(y3, b2);
    var y5 := Apply(y4, Receive(first));
    var y6 := Apply(y5, Receive(second));
    assert y6.log == [Answer(id, ChannelClosed)];
    RunOne(y5, Receive(second));
    RunMore(y4, Receive(first), [Receive(second)], y6);
    RunMore(y3, b2, [Receive(first)] + [Receive(second)], y6);
    RunMore(y2, b1, [b2] + ([Receive(first)] + [Receive(second)]), y6);
    RunMore(y1, a2, [b1] + ([b2] + ([Receive(first)] + [Receive(second)])), y6);
    RunMore(y, a1, [a2] + ([b1] + ([b2] + ([Receive(first)] + [Receive(second)]))), y6);
  }
}
