/**
 The task manager of pkg/task/task_manager.go: goroutines that run submitted tasks under a
 pool of tokens, one-slot result channels, the result map and the result cache.

 `ManagerState` is the state as a value; the functions below it are the atomic effects of the
 manager's code. The class `TaskManager` is the source's object, each method proved against one
 of those functions.
 */
module TaskManagement {
  import opened Common

  datatype TaskStatus = Empty | Pending | Running | Successful | Failed

  /** The identifier of a submitted task; `NoId` is the empty string of the source. */
  datatype TaskId = NoId | Uuid(n: nat)

  /** How a task function ended. */
  datatype Outcome = ReturnedNil | ReturnedError(message: string) | Panicked(message: string)

  datatype TaskResult = TaskResult(status: TaskStatus, error: Option<string>)

  /** Where the goroutine of a task stands in `runTask`. */
  datatype Phase =
    | Waiting                     // started, blocked on the token pool
    | Holding                     // has a token, the task function is running
    | Returned(outcome: Outcome)  // the task function returned or panicked, nothing sent yet
    | Sent(outcome: Outcome)      // result sent, token still held
    | Released(outcome: Outcome)  // token given back, channel still open
    | Closed(outcome: Outcome)    // the goroutine is over
  {
    predicate HoldsToken() {
      Holding? || Returned? || Sent?
    }

    predicate HasSent() {
      Sent? || Released? || Closed?
    }
  }

  /** A result channel of capacity one; `sends` counts the sends made to it. */
  datatype Channel = Channel(buffer: seq<TaskResult>, closed: bool, sends: nat)

  const CHANNEL_CAPACITY := 1

  /**
   `channels` keeps every channel that a goroutine may still use, also after the result map
   forgot it; `results` is the key set of the result map, whose value for a key is that channel.
   */
  datatype ManagerState = ManagerState(
    poolSize: nat,
    tokens: nat,
    workers: map<TaskId, Phase>,
    channels: map<TaskId, Channel>,
    results: set<TaskId>,
    cache: map<TaskId, TaskResult>)

  function ResultOf(outcome: Outcome): TaskResult {
    match outcome
    case ReturnedNil => TaskResult(Successful, None)
    case ReturnedError(message) => TaskResult(Failed, Some(message))
    case Panicked(message) => TaskResult(Failed, Some("Observed a panic: " + message))
  }

  /** A result is successful, and free of error, exactly when the task function returned nil. */
  lemma {:induction false} ResultTellsOutcome(outcome: Outcome)
    ensures ResultOf(outcome).status == (if outcome == ReturnedNil then Successful else Failed)
    ensures ResultOf(outcome).error.None? <==> outcome == ReturnedNil
    ensures outcome.ReturnedError? ==> ResultOf(outcome).error == Some(outcome.message)
  {
  }

  function EmptyManager(poolSize: nat): ManagerState {
    ManagerState(poolSize, 0, map[], map[], {}, map[])
  }

  // ---------------------------------------------------------------- atomic effects

  function Submitted(s: ManagerState, id: TaskId): ManagerState {
    s.(workers := s.workers[id := Waiting],
       channels := s.channels[id := Channel([], false, 0)],
       results := s.results + {id},
       cache := s.cache - {id})
  }

  datatype WorkerStep = Acquire | Return(outcome: Outcome) | Send | Release | Close

  /** Whether the goroutine of `id` can take the step without blocking. */
  predicate CanWork(s: ManagerState, id: TaskId, step: WorkerStep) {
    id in s.workers && id in s.channels &&
    match step
    case Acquire => s.workers[id].Waiting? && s.tokens < s.poolSize
    case Return(_) => s.workers[id].Holding?
    case Send =>
      s.workers[id].Returned? && |s.channels[id].buffer| < CHANNEL_CAPACITY && !s.channels[id].closed
    case Release => s.workers[id].Sent? && s.tokens > 0
    case Close => s.workers[id].Released? && !s.channels[id].closed
  }

  function Worked(s: ManagerState, id: TaskId, step: WorkerStep): ManagerState
    requires CanWork(s, id, step)
  {
    var channel := s.channels[id];
    match step
    case Acquire => s.(workers := s.workers[id := Holding], tokens := s.tokens + 1)
    case Return(outcome) => s.(workers := s.workers[id := Returned(outcome)])
    case Send =>
      var outcome := s.workers[id].outcome;
      s.(workers := s.workers[id := Sent(outcome)],
         channels := s.channels[id := Channel(channel.buffer + [ResultOf(outcome)], false, channel.sends + 1)])
    case Release =>
      s.(workers := s.workers[id := Released(s.workers[id].outcome)], tokens := s.tokens - 1)
    case Close =>
      s.(workers := s.workers[id := Closed(s.workers[id].outcome)],
         channels := s.channels[id := channel.(closed := true)])
  }

  datatype Poll = NotReady | Ready(result: TaskResult) | NotExists | ChannelClosed

  /** The answer of `GetTaskResult` for a caller that nobody interrupts. */
  function PollOf(s: ManagerState, id: TaskId): Poll {
    if id in s.cache then Ready(s.cache[id])
    else if id !in s.results || id !in s.channels then NotExists
    else if s.channels[id].buffer != [] then Ready(s.channels[id].buffer[0])
    else if s.channels[id].closed then ChannelClosed
    else NotReady
  }

  function Polled(s: ManagerState, id: TaskId): ManagerState {
    if id !in s.cache && id in s.results && id in s.channels && s.channels[id].buffer != [] then
      s.(cache := s.cache[id := s.channels[id].buffer[0]],
         channels := s.channels[id := s.channels[id].(buffer := s.channels[id].buffer[1..])])
    else
      s
  }

  function Cleaned(s: ManagerState, id: TaskId): ManagerState {
    if id in s.results then s.(results := s.results - {id}, cache := s.cache - {id}) else s
  }

  // ---------------------------------------------------------------- what every effect keeps

  ghost function Holders(s: ManagerState): set<TaskId> {
    set id | id in s.workers && s.workers[id].HoldsToken()
  }

  /** The token channel holds one token for every goroutine between acquire and release. */
  ghost predicate TokensConserved(s: ManagerState) {
    s.tokens == |Holders(s)| && s.tokens <= s.poolSize
  }

  /** A channel follows its goroutine: one send in all, made before the channel is closed. */
  ghost predicate ChannelFollows(s: ManagerState, id: TaskId)
    requires id in s.workers && id in s.channels
  {
    var phase, channel := s.workers[id], s.channels[id];
    && channel.closed == phase.Closed?
    && channel.sends == (if phase.HasSent() then 1 else 0)
    && (channel.buffer == [] || (phase.HasSent() && channel.buffer == [ResultOf(phase.outcome)]))
    && (id in s.cache ==> phase.HasSent() && channel.buffer == [] && s.cache[id] == ResultOf(phase.outcome))
  }

  /** Every result that was sent and not cleaned can still be read. */
  ghost predicate NothingLost(s: ManagerState) {
    forall id :: id in s.results && id in s.workers && s.workers[id].HasSent() ==>
      id in s.cache || (id in s.channels && s.channels[id].buffer != [])
  }

  ghost predicate Sound(s: ManagerState) {
    && TokensConserved(s)
    && s.channels.Keys == s.workers.Keys
    && s.results <= s.workers.Keys
    && s.cache.Keys <= s.results
    && forall id :: id in s.workers ==> ChannelFollows(s, id)
  }

  lemma {:induction false} SubmittedKeepsSound(s: ManagerState, id: TaskId)
    requires Sound(s) && id !in s.workers
    ensures Sound(Submitted(s, id))
    ensures NothingLost(s) ==> NothingLost(Submitted(s, id))
  {
    var t := Submitted(s, id);
    assert Holders(t) == Holders(s);
    forall i | i in t.workers ensures ChannelFollows(t, i) {
      if i != id {
        assert ChannelFollows(s, i);
      }
    }
  }

  lemma {:induction false} WorkedConservesTokens(s: ManagerState, id: TaskId, step: WorkerStep)
    requires TokensConserved(s) && CanWork(s, id, step)
    ensures TokensConserved(Worked(s, id, step))
  {
    var t := Worked(s, id, step);
    match step {
      case Acquire => assert Holders(t) == Holders(s) + {id};
      case Return(_) => assert Holders(t) == Holders(s);
      case Send => assert Holders(t) == Holders(s);
      case Release => assert Holders(t) == Holders(s) - {id};
      case Close => assert Holders(t) == Holders(s);
    }
  }

  lemma {:induction false} WorkedKeepsOwnChannel(s: ManagerState, id: TaskId, step: WorkerStep)
    requires CanWork(s, id, step) && ChannelFollows(s, id)
    ensures ChannelFollows(Worked(s, id, step), id)
  {
  }

  /** Token conservation and the channel discipline survive every step of every goroutine. */
  lemma {:induction false} WorkedKeepsSound(s: ManagerState, id: TaskId, step: WorkerStep)
    requires Sound(s) && CanWork(s, id, step)
    ensures Sound(Worked(s, id, step))
    ensures NothingLost(s) ==> NothingLost(Worked(s, id, step))
  {
    var t := Worked(s, id, step);
    WorkedConservesTokens(s, id, step);
    WorkedKeepsOwnChannel(s, id, step);
    WorkedFrame(s, id, step);
    forall i | i in t.workers ensures ChannelFollows(t, i) {
      assert ChannelFollows(s, i);
    }
  }

  /** A step of one goroutine leaves every other task, the result map and the cache alone. */
  lemma {:induction false} WorkedFrame(s: ManagerState, id: TaskId, step: WorkerStep)
    requires CanWork(s, id, step)
    ensures var t := Worked(s, id, step);
      && t.workers.Keys == s.workers.Keys && t.channels.Keys == s.channels.Keys
      && t.results == s.results && t.cache == s.cache
      && (forall i :: i in s.workers && i != id ==> t.workers[i] == s.workers[i])
      && (forall i :: i in s.channels && i != id ==> t.channels[i] == s.channels[i])
  {
  }

  lemma {:induction false} PolledKeepsSound(s: ManagerState, id: TaskId)
    requires Sound(s)
    ensures Sound(Polled(s, id))
    ensures NothingLost(s) ==> NothingLost(Polled(s, id)) && PollOf(s, id) != ChannelClosed
  {
    var t := Polled(s, id);
    assert Holders(t) == Holders(s);
    forall i | i in t.workers ensures ChannelFollows(t, i) {
      assert ChannelFollows(s, i);
    }
  }

  lemma {:induction false} CleanedKeepsSound(s: ManagerState, id: TaskId)
    requires Sound(s)
    ensures Sound(Cleaned(s, id))
    ensures NothingLost(s) ==> NothingLost(Cleaned(s, id))
  {
    var t := Cleaned(s, id);
    assert Holders(t) == Holders(s);
    forall i | i in t.workers ensures ChannelFollows(t, i) {
      assert ChannelFollows(s, i);
    }
  }

  /** What the goroutine of `id` alone guarantees of its channel, however its result is read. */
  ghost predicate SendsOnce(s: ManagerState, id: TaskId)
    requires id in s.workers && id in s.channels
  {
    var phase, channel := s.workers[id], s.channels[id];
    && channel.closed == phase.Closed?
    && channel.sends == (if phase.HasSent() then 1 else 0)
    && (phase.HasSent() || channel.buffer == [])
  }

  /** The part of soundness that no reader can disturb. */
  ghost predicate Disciplined(s: ManagerState) {
    && TokensConserved(s)
    && s.channels.Keys == s.workers.Keys
    && forall id :: id in s.workers ==> SendsOnce(s, id)
  }

  lemma {:induction false} WorkedKeepsDisciplined(s: ManagerState, id: TaskId, step: WorkerStep)
    requires Disciplined(s) && CanWork(s, id, step)
    ensures Disciplined(Worked(s, id, step))
  {
    var t := Worked(s, id, step);
    WorkedConservesTokens(s, id, step);
    WorkedFrame(s, id, step);
    assert SendsOnce(s, id);
    forall i | i in t.workers ensures SendsOnce(t, i) {
      if i != id {
        assert SendsOnce(s, i);
      }
    }
  }

  lemma {:induction false} SubmittedKeepsDisciplined(s: ManagerState, id: TaskId)
    requires Disciplined(s) && id !in s.workers
    ensures Disciplined(Submitted(s, id))
  {
    var t := Submitted(s, id);
    assert Holders(t) == Holders(s);
    forall i | i in t.workers ensures SendsOnce(t, i) {
      if i != id {
        assert SendsOnce(s, i);
      }
    }
  }

  /** Whatever happens to results, map and cache: as long as only buffers shrink, the discipline stays. */
  lemma {:induction false} ReadingKeepsDisciplined(s: ManagerState, t: ManagerState)
    requires Disciplined(s)
    requires t.poolSize == s.poolSize && t.tokens == s.tokens && t.workers == s.workers
    requires t.channels.Keys == s.channels.Keys
    requires forall i :: i in s.channels ==>
      && t.channels[i].closed == s.channels[i].closed && t.channels[i].sends == s.channels[i].sends
      && (s.channels[i].buffer == [] ==> t.channels[i].buffer == [])
    ensures Disciplined(t)
  {
    assert Holders(t) == Holders(s);
    forall i | i in t.workers ensures SendsOnce(t, i) {
      assert SendsOnce(s, i);
    }
  }

  /** The goroutine of `id` has its next step open, unless its task function runs or it waits for a token. */
  ghost predicate Unblocked(s: ManagerState, id: TaskId)
    requires id in s.workers && id in s.channels
  {
    match s.workers[id]
    case Waiting => s.tokens < s.poolSize ==> CanWork(s, id, Acquire)
    case Holding => forall outcome :: CanWork(s, id, Return(outcome))
    case Returned(_) => CanWork(s, id, Send)
    case Sent(_) => CanWork(s, id, Release)
    case Released(_) => CanWork(s, id, Close)
    case Closed(_) => s.channels[id].closed && s.channels[id].sends == 1
  }

  /**
   No goroutine is ever stuck after its task function ended: the send finds room in an open channel,
   the release finds its own token and the close finds the channel open.
   */
  lemma {:induction false} NeverBlocksAfterReturn(s: ManagerState, id: TaskId)
    requires Disciplined(s) && id in s.workers
    ensures Unblocked(s, id)
  {
    assert SendsOnce(s, id);
    if s.workers[id].Sent? {
      assert id in Holders(s);
    }
  }

  // ---------------------------------------------------------------- the object of the source

  class TaskManager {
    const poolSize: nat
    var tokens: nat
    var workers: map<TaskId, Phase>
    var channels: map<TaskId, Channel>
    var resultMap: set<TaskId>
    var resultCache: map<TaskId, TaskResult>

    ghost function State(): ManagerState
      reads this
    {
      ManagerState(poolSize, tokens, workers, channels, resultMap, resultCache)
    }

    constructor (size: nat)
      ensures State() == EmptyManager(size)
    {
      poolSize := size;
      tokens, workers, channels, resultMap, resultCache := 0, map[], map[], {}, map[];
    }

    /** `id` is the fresh UUID the source draws. */
    method Submit(id: TaskId)
      requires Sound(State()) && id !in workers
      modifies this
      ensures State() == Submitted(old(State()), id) && Sound(State())
    {
      SubmittedKeepsSound(State(), id);
      channels := channels[id := Channel([], false, 0)];
      resultMap := resultMap + {id};
      resultCache := resultCache - {id};
      workers := workers[id := Waiting];
    }

    method GetTaskResult(id: TaskId) returns (poll: Poll)
      requires Sound(State())
      modifies this
      ensures poll == PollOf(old(State()), id)
      ensures State() == Polled(old(State()), id) && Sound(State())
    {
      PolledKeepsSound(State(), id);
      if id in resultCache {
        return Ready(resultCache[id]);
      }
      if id !in resultMap {
        return NotExists;
      }
      var channel := channels[id];
      if channel.buffer != [] {
        var result := channel.buffer[0];
        channels := channels[id := channel.(buffer := channel.buffer[1..])];
        resultCache := resultCache[id := result];
        return Ready(result);
      }
      return if channel.closed then ChannelClosed else NotReady;
    }

    method CleanTaskResult(id: TaskId)
      requires Sound(State())
      modifies this
      ensures State() == Cleaned(old(State()), id) && Sound(State())
    {
      CleanedKeepsSound(State(), id);
      if id !in resultMap {
        return;
      }
      resultMap := resultMap - {id};
      resultCache := resultCache - {id};
    }

    /** One step of the goroutine that `Submit` started for `id`. */
    method Work(id: TaskId, step: WorkerStep)
      requires Sound(State()) && CanWork(State(), id, step)
      modifies this
      ensures State() == Worked(old(State()), id, step) && Sound(State())
    {
      WorkedKeepsSound(State(), id, step);
      var channel := channels[id];
      match step {
        case Acquire =>
          tokens := tokens + 1;
          workers := workers[id := Holding];
        case Return(outcome) =>
          workers := workers[id := Returned(outcome)];
        case Send =>
          var outcome := workers[id].outcome;
          channels := channels[id := Channel(channel.buffer + [ResultOf(outcome)], false, channel.sends + 1)];
          workers := workers[id := Sent(outcome)];
        case Release =>
          tokens := tokens - 1;
          workers := workers[id := Released(workers[id].outcome)];
        case Close =>
          channels := channels[id := channel.(closed := true)];
          workers := workers[id := Closed(workers[id].outcome)];
      }
    }
  }
}
