/**
 The generation-keyed client caches of internal/clientcache (ctrl_runtime.go and client_set.go run the
 same protocol): many callers fetch a cluster object, load the cache, build a client and store it, with
 updates of the objects in between.
 */
module ClientCache {
  import opened Common

  /** A K8sCluster object: which incarnation of its name it is, and its generation. */
  datatype Object = Object(uid: nat, generation: nat)

  /** A client is known by the object its kubeconfig was taken from. */
  datatype Client = Client(name: string, source: Object)

  datatype Entry = Entry(latestGeneration: nat, client: Client)

  datatype Caller =
    | Fetched(name: string, fetched: Object)                 // has the object
    | Missed(name: string, fetched: Object)                  // found no entry that is new enough
    | Built(name: string, fetched: Object, client: Client)   // has a new client, not stored yet
    | Returned(name: string, fetched: Object, client: Client)

  datatype State = State(objects: map<string, Object>, cache: map<string, Entry>, callers: map<nat, Caller>)

  datatype Step =
    | Create(name: string)
    | Update(name: string)
    | Recreate(name: string)
    | Fetch(caller: nat, name: string)
    | Load(caller: nat)
    | Build(caller: nat)
    | Store(caller: nat)
    | GiveUp(caller: nat)  // the fetch, the decoding or the building failed

  predicate Enabled(s: State, step: Step) {
    match step
    case Create(name) => name !in s.objects
    case Update(name) => name in s.objects
    case Recreate(name) => name in s.objects
    case Fetch(caller, name) => name in s.objects && (caller in s.callers ==> s.callers[caller].Returned?)
    case Load(caller) => caller in s.callers && s.callers[caller].Fetched?
    case Build(caller) => caller in s.callers && s.callers[caller].Missed?
    case Store(caller) => caller in s.callers && s.callers[caller].Built?
    case GiveUp(caller) => caller in s.callers
  }

  function Loaded(cache: map<string, Entry>, c: Caller): Caller
    requires c.Fetched?
  {
    if c.name in cache && cache[c.name].latestGeneration >= c.fetched.generation
    then Returned(c.name, c.fetched, cache[c.name].client)
    else Missed(c.name, c.fetched)
  }

  function Apply(s: State, step: Step): State
    requires Enabled(s, step)
  {
    match step
    case Create(name) => s.(objects := s.objects[name := Object(0, 1)])
    case Update(name) =>
      s.(objects := s.objects[name := s.objects[name].(generation := s.objects[name].generation + 1)])
    case Recreate(name) => s.(objects := s.objects[name := Object(s.objects[name].uid + 1, 1)])
    case Fetch(caller, name) => s.(callers := s.callers[caller := Fetched(name, s.objects[name])])
    case Load(caller) => s.(callers := s.callers[caller := Loaded(s.cache, s.callers[caller])])
    case Build(caller) =>
      var c := s.callers[caller];
      s.(callers := s.callers[caller := Built(c.name, c.fetched, Client(c.name, c.fetched))])
    case Store(caller) =>
      var c := s.callers[caller];
      s.(cache := s.cache[c.name := Entry(c.fetched.generation, c.client)],
         callers := s.callers[caller := Returned(c.name, c.fetched, c.client)])
    case GiveUp(caller) => s.(callers := s.callers - {caller})
  }

  ghost predicate Runs(s: State, steps: seq<Step>, end: State)
    decreases |steps|
  {
    if steps == [] then end == s
    else Enabled(s, steps[0]) && Runs(Apply(s, steps[0]), steps[1..], end)
  }

  const EMPTY := State(map[], map[], map[])

  // ---------------------------------------------------------------- without re-creation

  ghost predicate EntryGood(s: State, name: string, e: Entry) {
    && name in s.objects
    && e.client == Client(name, Object(s.objects[name].uid, e.latestGeneration))
    && 1 <= e.latestGeneration <= s.objects[name].generation
  }

  ghost predicate CallerGood(s: State, c: Caller) {
    && c.name in s.objects && c.fetched.uid == s.objects[c.name].uid
    && 1 <= c.fetched.generation <= s.objects[c.name].generation
    && (c.Built? ==> c.client == Client(c.name, c.fetched))
    && (c.Returned? ==>
          && c.client.name == c.name && c.client.source.uid == c.fetched.uid
          && c.fetched.generation <= c.client.source.generation <= s.objects[c.name].generation)
  }

  /** All there is of one name: names do not disturb each other. */
  ghost predicate Inv(s: State, name: string) {
    && (name in s.objects ==> s.objects[name].generation >= 1)
    && (name in s.cache ==> EntryGood(s, name, s.cache[name]))
    && (forall c :: c in s.callers && s.callers[c].name == name ==> CallerGood(s, s.callers[c]))
  }

  /** The object `name` is not deleted and created again; other objects may be. */
  predicate NoRecreationOf(name: string, steps: seq<Step>) {
    forall i :: 0 <= i < |steps| ==> steps[i] != Recreate(name)
  }

  lemma {:induction false} StepKeepsInv(s: State, step: Step, name: string)
    requires Inv(s, name) && Enabled(s, step) && step != Recreate(name)
    ensures Inv(Apply(s, step), name)
  {
    var t := Apply(s, step);
    if step.Store? && s.callers[step.caller].name == name {
      assert CallerGood(s, s.callers[step.caller]);
    }
    forall c | c in t.callers && t.callers[c].name == name ensures CallerGood(t, t.callers[c]) {
      if c in s.callers && s.callers[c].name == name {
        assert CallerGood(s, s.callers[c]);
      }
    }
  }

  lemma {:induction false} RunKeepsInv(s: State, steps: seq<Step>, end: State, name: string)
    requires Inv(s, name) && Runs(s, steps, end) && NoRecreationOf(name, steps)
    ensures Inv(end, name)
    decreases |steps|
  {
    if steps != [] {
      assert steps[0] != Recreate(name);
      StepKeepsInv(s, steps[0], name);
      RunKeepsInv(Apply(s, steps[0]), steps[1..], end, name);
    }
  }

  /**
   In every interleaving without re-creation of the caller's own object, also where a slow caller overwrites
   a newer entry with an older one, a caller gets a client of its own cluster, built from a generation at
   least the one it fetched and at most the current one.
   */
  lemma {:induction false} NeverStale(steps: seq<Step>, end: State, caller: nat)
    requires Runs(EMPTY, steps, end) && caller in end.callers && end.callers[caller].Returned?
    requires NoRecreationOf(end.callers[caller].name, steps)
    ensures var c := end.callers[caller];
      && c.name in end.objects
      && c.client == Client(c.name, Object(end.objects[c.name].uid, c.client.source.generation))
      && c.fetched.generation <= c.client.source.generation <= end.objects[c.name].generation
  {
    RunKeepsInv(EMPTY, steps, end, end.callers[caller].name);
    assert CallerGood(end, end.callers[caller]);
  }

  /** The cache itself can go back: the entry that a slow caller stores replaces a newer one. */
  lemma {:induction false} EntriesCanGoBack(s: State, caller: nat)
    requires Enabled(s, Store(caller)) && Inv(s, s.callers[caller].name)
    ensures var c := s.callers[caller];
      c.name in s.cache && s.cache[c.name].latestGeneration > c.fetched.generation ==>
        var t := Apply(s, Store(caller));
        t.cache[c.name].latestGeneration < s.cache[c.name].latestGeneration && Inv(t, c.name)
  {
    StepKeepsInv(s, Store(caller), s.callers[caller].name);
  }

  // ---------------------------------------------------------------- with re-creation

  /** What holds of all names in all runs: entries and new clients are what their generations say they are. */
  ghost predicate Matched(s: State) {
    && (forall n :: n in s.cache ==>
          s.cache[n].client.name == n && s.cache[n].client.source.generation == s.cache[n].latestGeneration)
    && (forall c :: c in s.callers ==> CallerMatched(s.callers[c]))
  }

  ghost predicate CallerMatched(c: Caller) {
    && (c.Built? ==> c.client == Client(c.name, c.fetched))
    && (c.Returned? ==> c.client.name == c.name && c.client.source.generation >= c.fetched.generation)
  }

  lemma {:induction false} StepKeepsMatched(s: State, step: Step)
    requires Matched(s) && Enabled(s, step)
    ensures Matched(Apply(s, step))
  {
    var t := Apply(s, step);
    if step.Store? {
      assert CallerMatched(s.callers[step.caller]);
    }
    forall c | c in t.callers ensures CallerMatched(t.callers[c]) {
      if c in s.callers {
        assert CallerMatched(s.callers[c]);
      }
    }
  }

  lemma {:induction false} RunKeepsMatched(s: State, steps: seq<Step>, end: State)
    requires Matched(s) && Runs(s, steps, end)
    ensures Matched(end)
    decreases |steps|
  {
    if steps != [] {
      StepKeepsMatched(s, steps[0]);
      RunKeepsMatched(Apply(s, steps[0]), steps[1..], end);
    }
  }

  /** The caller was answered with a client of another incarnation of its object. */
  predicate Stale(c: Caller) {
    c.Returned? && c.client.source.uid != c.fetched.uid
  }

  /**
   In every run, with any re-creations: the next load answers a client of another incarnation exactly when the
   cache holds one for the name whose generation is at least the fetched one. So re-creating a name that is not
   cached is harmless, and so is one whose new generation has passed the cached one.
   */
  lemma {:induction false} LoadIsStaleIff(steps: seq<Step>, s: State, caller: nat)
    requires Runs(EMPTY, steps, s) && Enabled(s, Load(caller))
    ensures var c := s.callers[caller];
      && (Stale(Apply(s, Load(caller)).callers[caller]) <==>
            && c.name in s.cache && s.cache[c.name].client.source.uid != c.fetched.uid
            && s.cache[c.name].client.source.generation >= c.fetched.generation)
      && (Apply(s, Load(caller)).callers[caller].Returned? ==>
            var client := Apply(s, Load(caller)).callers[caller].client;
            client.name == c.name && client.source.generation >= c.fetched.generation)
  {
    RunKeepsMatched(EMPTY, steps, s);
  }

  /** A client that a caller has built itself is never one of another incarnation. */
  lemma {:induction false} BuiltIsNotStale(steps: seq<Step>, s: State, caller: nat)
    requires Runs(EMPTY, steps, s) && Enabled(s, Store(caller))
    ensures Apply(s, Store(caller)).callers[caller].Returned? && !Stale(Apply(s, Store(caller)).callers[caller])
  {
    RunKeepsMatched(EMPTY, steps, s);
    assert CallerMatched(s.callers[caller]);
  }

  /**
   Generations start anew when an object is deleted and created again, so then the promise breaks: any name
   that is cached gives the first caller after the re-creation a client of the deleted object.
   */
  lemma {:induction false} StaleAfterRecreation(steps: seq<Step>, s: State, name: string, caller: nat)
    requires Runs(EMPTY, steps, s) && NoRecreationOf(name, steps) && name in s.cache && caller !in s.callers
    ensures name in s.objects
    ensures var t := Apply(Apply(Apply(s, Recreate(name)), Fetch(caller, name)), Load(caller));
      && t.callers[caller].Returned?
      && t.callers[caller].client.source.uid != t.objects[name].uid
  {
    RunKeepsInv(EMPTY, steps, s, name);
    assert EntryGood(s, name, s.cache[name]);
  }

  // ---------------------------------------------------------------- one call

  datatype Failure = NotFound | BadKubeConfig

  class Cache {
    var entries: map<string, Entry>

    constructor ()
      ensures entries == map[]
    {
      entries := map[];
    }

    /** One call that nobody interrupts. `fetched` and `builds` are what the API server and the client library give. */
    method GetClient(name: string, fetched: Option<Object>, builds: bool) returns (r: Result<Client, Failure>)
      modifies this
      ensures fetched.None? ==> r == Err(NotFound) && entries == old(entries)
      ensures fetched.Some? ==>
        match Loaded(old(entries), Fetched(name, fetched.value))
        case Returned(_, _, client) => r == Ok(client) && entries == old(entries)
        case _ =>
          if builds then r == Ok(Client(name, fetched.value)) &&
                         entries == old(entries)[name := Entry(fetched.value.generation, Client(name, fetched.value))]
          else r == Err(BadKubeConfig) && entries == old(entries)
    {
      if fetched.None? {
        return Err(NotFound);
      }
      if name in entries {
        var entry := entries[name];
        if entry.latestGeneration >= fetched.value.generation {
          return Ok(entry.client);
        }
      }
      if !builds {
        return Err(BadKubeConfig);
      }
      var client := Client(name, fetched.value);
      entries := entries[name := Entry(fetched.value.generation, client)];
      return Ok(client);
    }
  }
}
