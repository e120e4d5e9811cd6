/**
 The validating half of the OBCluster webhook, api/v1alpha1/obcluster_webhook.go, with every lookup
 in the cluster as a parameter, and what holds along whole histories of accepted updates.
 */
module ClusterAdmission {
  import opened Common
  import opened Decimal
  import opened ClusterDefaults

  datatype Storage = Storage(size: Quantity, storageClass: string)

  datatype Zone = Zone(name: string, replica: int, k8sCluster: string)

  datatype Annotations = Annotations(mode: Option<string>, staticIP: bool, singlePVC: bool, migrates: bool)

  datatype Cluster = Cluster(
    annotations: Annotations, deleting: bool, status: string,
    cpu: Quantity, memory: Quantity, data: Storage, log: Storage, redoLog: Storage,
    parameters: seq<Parameter>, topology: seq<Zone>, secrets: Option<UserSecrets>, serviceAccount: string,
    hasBackupVolume: bool, hasMonitor: bool)

  /** A row of the running cluster's server view, GV$OB_SERVERS. */
  datatype ObServer = ObServer(memAssigned: int, memoryLimit: int, cpuAssigned: int)

  /** What the webhook finds outside the object; `servers` is `None` when the database cannot be asked. */
  datatype Lookups = Lookups(
    rootSecretOk: string -> bool, secretOk: string -> bool, k8sClusterOk: string -> bool,
    classExists: string -> bool, classExpands: string -> bool, accountExists: string -> bool,
    parse: string -> Option<real>, servers: Option<seq<ObServer>>)

  datatype Limits = Limits(minData: real, minRedoLog: real, minLog: real, minMemory: real)

  datatype Problem =
    | StandaloneZones | StandaloneReplica | StandaloneMigration
    | RootSecret | OperatorSecret | MonitorSecret | ProxySecret
    | EmptyTopology | UnknownK8sCluster(zone: nat) | MissingStorageClass
    | UnknownStorageClass(name: string) | SeveralStorageClasses
    | DataTooSmall | RedoLogTooSmall | LogTooSmall | MemoryTooSmall
    | BadMemoryLimit | MemoryLimitTooLarge | DataBelowLimit | RedoLogBelowLimit
    | BadDatafileMax | DatafileMaxTooLarge | UnknownAccount

  const STANDALONE := "standalone"
  const SERVICE := "service"
  const RUNNING := "running"

  // ---------------------------------------------------------------- validateMutation

  predicate StandaloneOk(c: Cluster) {
    c.annotations.mode == Some(STANDALONE) ==>
      |c.topology| == 1 && c.topology[0].replica == 1 && !c.annotations.migrates
  }

  predicate SecretsOk(c: Cluster, k: Lookups) {
    c.secrets.Some? ==>
      var s := c.secrets.value;
      s.root != "" && k.rootSecretOk(s.root) && k.secretOk(s.operator) && k.secretOk(s.monitor) && k.secretOk(s.proxyRO)
  }

  predicate TopologyOk(c: Cluster, k: Lookups) {
    c.topology != [] && forall i :: 0 <= i < |c.topology| ==>
      c.topology[i].k8sCluster == "" || k.k8sClusterOk(c.topology[i].k8sCluster)
  }

  function StorageClasses(c: Cluster): set<string> {
    {c.data.storageClass, c.log.storageClass, c.redoLog.storageClass}
  }

  predicate StorageOk(c: Cluster, k: Lookups, l: Limits) {
    && "" !in StorageClasses(c)
    && (forall s :: s in StorageClasses(c) ==> k.classExists(s))
    && (c.annotations.singlePVC ==> |StorageClasses(c)| <= 1)
    && c.data.size.value >= l.minData && c.redoLog.size.value >= l.minRedoLog && c.log.size.value >= l.minLog
  }

  predicate MemoryLimitOk(c: Cluster, k: Lookups) {
    var m := ParameterMap(c.parameters);
    "memory_limit" in m ==>
      var limit := k.parse(m["memory_limit"].value);
      && limit.Some? && limit.value <= c.memory.value
      && c.data.size.value >= 3.0 * limit.value && c.redoLog.size.value >= 3.0 * limit.value
  }

  predicate DatafileOk(c: Cluster, k: Lookups) {
    var m := ParameterMap(c.parameters);
    "datafile_maxsize" in m ==>
      var max := k.parse(m["datafile_maxsize"].value);
      max.Some? && max.value <= c.data.size.value
  }

  /** What an object must satisfy to be created, or to be the outcome of an update, unless it is being deleted. */
  predicate MutationOk(c: Cluster, k: Lookups, l: Limits) {
    || c.deleting
    || (&& StandaloneOk(c) && SecretsOk(c, k) && TopologyOk(c, k) && StorageOk(c, k, l)
        && c.memory.value >= l.minMemory && MemoryLimitOk(c, k) && DatafileOk(c, k)
        && (c.serviceAccount == "" || k.accountExists(c.serviceAccount)))
  }

  /** The first group of checks, after which the source stops when there is a problem. */
  method FirstProblems(c: Cluster, k: Lookups) returns (errs: seq<Problem>)
    ensures errs == [] <==> StandaloneOk(c) && SecretsOk(c, k) && TopologyOk(c, k) && "" !in StorageClasses(c)
  {
    errs := [];
    if c.annotations.mode == Some(STANDALONE) {
      if |c.topology| != 1 {
        errs := errs + [StandaloneZones];
      } else if c.topology[0].replica != 1 {
        errs := errs + [StandaloneReplica];
      }
      if c.annotations.migrates { errs := errs + [StandaloneMigration]; }
    }
    assert errs == [] <==> StandaloneOk(c);
    if c.secrets.Some? {
      var s := c.secrets.value;
      if s.root == "" || !k.rootSecretOk(s.root) { errs := errs + [RootSecret]; }
      if !k.secretOk(s.operator) { errs := errs + [OperatorSecret]; }
      if !k.secretOk(s.monitor) { errs := errs + [MonitorSecret]; }
      if !k.secretOk(s.proxyRO) { errs := errs + [ProxySecret]; }
    }
    assert errs == [] <==> StandaloneOk(c) && SecretsOk(c, k);
    if c.topology == [] { errs := errs + [EmptyTopology]; }
    ghost var before := errs;
    for i := 0 to |c.topology|
      invariant errs == [] <==> (&& before == []
        && forall j :: 0 <= j < i ==> c.topology[j].k8sCluster == "" || k.k8sClusterOk(c.topology[j].k8sCluster))
    {
      if c.topology[i].k8sCluster != "" && !k.k8sClusterOk(c.topology[i].k8sCluster) {
        errs := errs + [UnknownK8sCluster(i)];
      }
    }
    if c.data.storageClass == "" { errs := errs + [MissingStorageClass]; }
    if c.log.storageClass == "" { errs := errs + [MissingStorageClass]; }
    if c.redoLog.storageClass == "" { errs := errs + [MissingStorageClass]; }
  }

  method StorageProblems(c: Cluster, k: Lookups, l: Limits) returns (errs: seq<Problem>)
    requires "" !in StorageClasses(c)
    ensures errs == [] <==> StorageOk(c, k, l)
  {
    errs := [];
    var left := StorageClasses(c);
    while left != {}
      invariant left <= StorageClasses(c)
      invariant errs == [] <==> forall s :: s in StorageClasses(c) - left ==> k.classExists(s)
      decreases left
    {
      var key :| key in left;
      left := left - {key};
      assert forall s :: s in StorageClasses(c) - left <==> s == key || s in StorageClasses(c) - (left + {key});
      if !k.classExists(key) { errs := errs + [UnknownStorageClass(key)]; }
    }
    if c.annotations.singlePVC && |StorageClasses(c)| > 1 { errs := errs + [SeveralStorageClasses]; }
    if c.data.size.value < l.minData { errs := errs + [DataTooSmall]; }
    if c.redoLog.size.value < l.minRedoLog { errs := errs + [RedoLogTooSmall]; }
    if c.log.size.value < l.minLog { errs := errs + [LogTooSmall]; }
  }

  /** A limit that cannot be parsed counts as zero in the comparisons that follow. */
  method ParameterProblems(c: Cluster, k: Lookups) returns (errs: seq<Problem>)
    ensures errs == [] <==> MemoryLimitOk(c, k) && DatafileOk(c, k)
  {
    errs := [];
    var parameterMap := Overlay(map[], c.parameters);
    assert parameterMap == ParameterMap(c.parameters);
    if "memory_limit" in parameterMap {
      var parsed := k.parse(parameterMap["memory_limit"].value);
      var limit := if parsed.Some? then parsed.value else 0.0;
      if parsed.None? {
        errs := errs + [BadMemoryLimit];
      } else if limit > c.memory.value {
        errs := errs + [MemoryLimitTooLarge];
      }
      if c.data.size.value < 3.0 * limit { errs := errs + [DataBelowLimit]; }
      if c.redoLog.size.value < 3.0 * limit { errs := errs + [RedoLogBelowLimit]; }
    }
    if "datafile_maxsize" in parameterMap {
      var parsed := k.parse(parameterMap["datafile_maxsize"].value);
      if parsed.None? {
        errs := errs + [BadDatafileMax];
      } else if parsed.value > c.data.size.value {
        errs := errs + [DatafileMaxTooLarge];
      }
    }
  }

  method ValidateMutation(c: Cluster, k: Lookups, l: Limits) returns (errs: seq<Problem>)
    ensures errs == [] <==> MutationOk(c, k, l)
  {
    if c.deleting {
      return [];
    }
    errs := FirstProblems(c, k);
    if errs != [] {
      return;
    }
    errs := StorageProblems(c, k, l);
    if c.memory.value < l.minMemory { errs := errs + [MemoryTooSmall]; }
    var more := ParameterProblems(c, k);
    errs := errs + more;
    if c.serviceAccount != "" && !k.accountExists(c.serviceAccount) { errs := errs + [UnknownAccount]; }
  }

  // ---------------------------------------------------------------- ValidateUpdate

  datatype Refusal =
    | ModeChanged | ResourceChanged | ShrinkNotRunning | ServersUnknown | AssignedMemory | AssignedCpu
    | Unsupported | StorageShrinks | Invalid(problems: seq<Problem>)

  predicate SupportsStaticIP(c: Cluster) {
    c.annotations.staticIP || c.annotations.mode == Some(SERVICE) || c.annotations.mode == Some(STANDALONE)
  }

  predicate ModeKept(before: Cluster, after: Cluster) {
    before.annotations.mode.Some? && after.annotations.mode.Some? ==> before.annotations.mode == after.annotations.mode
  }

  /** Of the first `n` servers the one with the most memory assigned; of several the first. */
  predicate FirstMax(servers: seq<ObServer>, n: nat, k: nat) {
    && k < n <= |servers| && servers[k].memAssigned > 0
    && (forall i :: 0 <= i < k ==> servers[i].memAssigned < servers[k].memAssigned)
    && (forall i :: k < i < n ==> servers[i].memAssigned <= servers[k].memAssigned)
  }

  /** The share of an observer's memory that its tenants may use; rounding the memory up never reaches the limit. */
  function UsableShare(before: Cluster, server: ObServer): real {
    if before.memory.value <= (server.memoryLimit - 1) as real then 0.9
    else if before.memory.value == 0.0 then 0.0
    else server.memoryLimit as real / before.memory.value
  }

  predicate Fits(before: Cluster, after: Cluster, server: ObServer) {
    after.memory.value * UsableShare(before, server) >= server.memAssigned as real
  }

  predicate MemoryOk(before: Cluster, after: Cluster, servers: seq<ObServer>) {
    forall k :: 0 <= k < |servers| && FirstMax(servers, |servers|, k) ==> Fits(before, after, servers[k])
  }

  predicate CpuOk(before: Cluster, after: Cluster, servers: seq<ObServer>) {
    before.cpu.value > 16.0 ==>
      after.cpu.value >= 0.0 && forall i :: 0 <= i < |servers| ==> servers[i].cpuAssigned as real <= after.cpu.value
  }

  /** For a whole quota: nine tenths where the server's limit exceeds it, else the limit's share of it. */
  lemma {:induction false} ShareOfWholeQuota(before: Cluster, server: ObServer, quota: int)
    requires before.memory.value == quota as real && quota != 0
    ensures quota < server.memoryLimit ==> UsableShare(before, server) == 0.9
    ensures quota >= server.memoryLimit ==>
      UsableShare(before, server) * quota as real == server.memoryLimit as real
  {
  }

  /** Assigned cpu is looked at only on clusters of more than 16 cpus. */
  lemma {:induction false} CpuIsCheckedAbove16(before: Cluster, after: Cluster, servers: seq<ObServer>)
    ensures before.cpu.value <= 16.0 ==> CpuOk(before, after, servers)
    ensures before.cpu.value > 16.0 && (exists s :: s in servers && s.cpuAssigned as real > after.cpu.value) ==>
      !CpuOk(before, after, servers)
  {
  }

  /** The running maxima over the servers, the memory's with the share of the server that set it. */
  ghost predicate Maxima(before: Cluster, servers: seq<ObServer>, n: nat, maxMemory: int, share: real, maxCpu: int) {
    && n <= |servers| && maxMemory >= 0 && maxCpu >= 0
    && (maxMemory == 0 ==> share == 0.0 && forall j :: 0 <= j < n ==> servers[j].memAssigned <= 0)
    && (maxMemory > 0 ==>
          exists k: nat ::
            FirstMax(servers, n, k) && servers[k].memAssigned == maxMemory && share == UsableShare(before, servers[k]))
    && (forall j :: 0 <= j < n ==> servers[j].cpuAssigned <= maxCpu)
    && (maxCpu == 0 || exists j :: 0 <= j < n && servers[j].cpuAssigned == maxCpu)
  }

  lemma {:induction false} NextMaxima(
    before: Cluster, servers: seq<ObServer>, n: nat, maxMemory: int, share: real, maxCpu: int)
    requires n < |servers| && Maxima(before, servers, n, maxMemory, share, maxCpu)
    ensures var s := servers[n];
      Maxima(before, servers, n + 1, Max(maxMemory, s.memAssigned),
             if s.memAssigned > maxMemory then UsableShare(before, s) else share, Max(maxCpu, s.cpuAssigned))
  {
    if servers[n].memAssigned > maxMemory {
      assert FirstMax(servers, n + 1, n);
    } else if maxMemory > 0 {
      var k: nat :| FirstMax(servers, n, k) && servers[k].memAssigned == maxMemory
        && share == UsableShare(before, servers[k]);
      assert FirstMax(servers, n + 1, k);
    }
  }

  /** Compares the new resources with the running maxima over the servers. */
  method CheckAssigned(before: Cluster, after: Cluster, servers: seq<ObServer>) returns (r: Option<Refusal>)
    ensures r.None? <==> MemoryOk(before, after, servers) && CpuOk(before, after, servers)
    ensures r.Some? ==> r.value.AssignedMemory? || r.value.AssignedCpu?
  {
    var maxMemory, maxCpu, share := 0, 0, 0.0;
    for i := 0 to |servers|
      invariant Maxima(before, servers, i, maxMemory, share, maxCpu)
    {
      NextMaxima(before, servers, i, maxMemory, share, maxCpu);
      if servers[i].memAssigned > maxMemory {
        share := UsableShare(before, servers[i]);
        maxMemory := servers[i].memAssigned;
      }
      if servers[i].cpuAssigned > maxCpu {
        maxCpu := servers[i].cpuAssigned;
      }
    }
    MaximaDecideMemory(before, after, servers, maxMemory, share, maxCpu);
    MaximaDecideCpu(before, after, servers, maxMemory, share, maxCpu);
    if after.memory.value * share < maxMemory as real {
      return Some(AssignedMemory);
    }
    if before.cpu.value > 16.0 && after.cpu.value < maxCpu as real {
      return Some(AssignedCpu);
    }
    return None;
  }

  lemma {:induction false} MaximaDecideMemory(
    before: Cluster, after: Cluster, servers: seq<ObServer>, maxMemory: int, share: real, maxCpu: int)
    requires Maxima(before, servers, |servers|, maxMemory, share, maxCpu)
    ensures MemoryOk(before, after, servers) <==> after.memory.value * share >= maxMemory as real
  {
    if maxMemory > 0 {
      var k: nat :| FirstMax(servers, |servers|, k) && servers[k].memAssigned == maxMemory
        && share == UsableShare(before, servers[k]);
      OnlyFirstMax(before, after, servers, k);
      FitsMeans(before, after, servers[k], maxMemory, share);
    } else {
      NothingAssigned(before, after, servers);
    }
  }

  lemma {:induction false} FitsMeans(before: Cluster, after: Cluster, server: ObServer, taken: int, share: real)
    requires server.memAssigned == taken && share == UsableShare(before, server)
    ensures Fits(before, after, server) <==> after.memory.value * share >= taken as real
  {
  }

  lemma {:induction false} NothingAssigned(before: Cluster, after: Cluster, servers: seq<ObServer>)
    requires forall j :: 0 <= j < |servers| ==> servers[j].memAssigned <= 0
    ensures MemoryOk(before, after, servers)
  {
  }

  lemma {:induction false} MaximaDecideCpu(
    before: Cluster, after: Cluster, servers: seq<ObServer>, maxMemory: int, share: real, maxCpu: int)
    requires Maxima(before, servers, |servers|, maxMemory, share, maxCpu)
    ensures CpuOk(before, after, servers) <==> (before.cpu.value > 16.0 ==> after.cpu.value >= maxCpu as real)
  {
    assert maxCpu > 0 ==> exists j :: 0 <= j < |servers| && servers[j].cpuAssigned == maxCpu;
  }

  lemma {:induction false} OnlyFirstMax(before: Cluster, after: Cluster, servers: seq<ObServer>, top: nat)
    requires FirstMax(servers, |servers|, top)
    ensures MemoryOk(before, after, servers) <==> Fits(before, after, servers[top])
  {
    forall k | 0 <= k < |servers| && FirstMax(servers, |servers|, k) ensures k == top {
    }
  }

  ghost predicate AllFit(before: Cluster, after: Cluster, servers: seq<ObServer>) {
    forall i :: 0 <= i < |servers| && servers[i].memAssigned > 0 ==> Fits(before, after, servers[i])
  }

  /** No server has more memory assigned, in proportion to its usable share, than server `k`. */
  predicate MostLoaded(before: Cluster, servers: seq<ObServer>, k: nat)
    requires k < |servers|
  {
    forall i :: 0 <= i < |servers| && servers[i].memAssigned > 0 ==> NotAbove(before, servers[i], servers[k])
  }

  predicate NotAbove(before: Cluster, server: ObServer, top: ObServer) {
    server.memAssigned as real * UsableShare(before, top) <= top.memAssigned as real * UsableShare(before, server)
  }

  /**
   The check is right for every new size, that is what it lets pass fits every server, exactly when the first
   server with most memory assigned is also the most loaded one in proportion to its usable share.
   */
  lemma {:induction false} CheckIsRightIff(before: Cluster, servers: seq<ObServer>, k: nat)
    requires FirstMax(servers, |servers|, k) && UsableShare(before, servers[k]) > 0.0
    ensures (forall after :: MemoryOk(before, after, servers) ==> AllFit(before, after, servers)) <==>
      MostLoaded(before, servers, k)
  {
    if MostLoaded(before, servers, k) {
      forall after | MemoryOk(before, after, servers) ensures AllFit(before, after, servers) {
        PassedFitsAll(before, after, servers, k);
      }
    }
    if forall after :: MemoryOk(before, after, servers) ==> AllFit(before, after, servers) {
      TightSizePasses(before, before, servers, k);
      assert AllFit(before, TightSize(before, before, servers, k), servers);
      forall i | 0 <= i < |servers| && servers[i].memAssigned > 0 ensures NotAbove(before, servers[i], servers[k]) {
        TightFitsIff(before, before, servers, k, i);
      }
    }
  }

  lemma {:induction false} PassedFitsAll(before: Cluster, after: Cluster, servers: seq<ObServer>, k: nat)
    requires FirstMax(servers, |servers|, k) && UsableShare(before, servers[k]) > 0.0
    requires MostLoaded(before, servers, k) && MemoryOk(before, after, servers)
    ensures AllFit(before, after, servers)
  {
    OnlyFirstMax(before, after, servers, k);
    forall i | 0 <= i < |servers| && servers[i].memAssigned > 0 ensures Fits(before, after, servers[i]) {
      NotAboveFits(before, after, servers[i], servers[k]);
    }
  }

  lemma {:induction false} NotAboveFits(before: Cluster, after: Cluster, server: ObServer, top: ObServer)
    requires server.memAssigned > 0 && top.memAssigned > 0 && UsableShare(before, top) > 0.0
    requires NotAbove(before, server, top) && Fits(before, after, top)
    ensures Fits(before, after, server)
  {
    ProportionFits(after.memory.value, server.memAssigned as real, UsableShare(before, server),
                   top.memAssigned as real, UsableShare(before, top));
  }

  lemma {:induction false} ProportionFits(x: real, m: real, share: real, top: real, topShare: real)
    requires m > 0.0 && top > 0.0 && topShare > 0.0 && m * topShare <= top * share && x * topShare >= top
    ensures x * share >= m
  {
    assert x > 0.0 by {
      if x <= 0.0 {
        NotPositiveProduct(x, topShare);
        assert false;
      }
    }
    ScaledOrder(x, m * topShare, top * share);
    ScaledOrder(m, top, x * topShare);
    assert x * (m * topShare) == m * (x * topShare) && x * (top * share) == top * (x * share) && m * top == top * m;
    CancelFactor(top, m, x * share);
  }

  lemma {:induction false} NotPositiveProduct(x: real, y: real)
    requires x <= 0.0 && y > 0.0
    ensures x * y <= 0.0
  {
  }

  lemma {:induction false} ScaledOrder(x: real, y: real, z: real)
    requires x > 0.0 && y <= z
    ensures x * y <= x * z
  {
    assert x * (z - y) >= 0.0;
  }

  lemma {:induction false} CancelFactor(x: real, y: real, z: real)
    requires x > 0.0 && x * y <= x * z
    ensures y <= z
  {
    assert z < y ==> x * (y - z) > 0.0;
  }

  /** `c` with the least memory that lets server `k` pass. */
  function TightSize(before: Cluster, c: Cluster, servers: seq<ObServer>, k: nat): Cluster
    requires k < |servers| && UsableShare(before, servers[k]) > 0.0
  {
    var size := servers[k].memAssigned as real / UsableShare(before, servers[k]);
    c.(memory := c.memory.(value := size))
  }

  lemma {:induction false} TightSizePasses(before: Cluster, c: Cluster, servers: seq<ObServer>, k: nat)
    requires FirstMax(servers, |servers|, k) && UsableShare(before, servers[k]) > 0.0
    ensures MemoryOk(before, TightSize(before, c, servers, k), servers)
  {
    var tight := TightSize(before, c, servers, k);
    QuotientTimes(servers[k].memAssigned as real, UsableShare(before, servers[k]));
    OnlyFirstMax(before, tight, servers, k);
  }

  lemma {:induction false} QuotientTimes(x: real, y: real)
    requires y > 0.0
    ensures x / y * y == x
  {
  }

  /** At the least passing size a server fits exactly when it is not loaded above the first one. */
  lemma {:induction false} TightFitsIff(before: Cluster, c: Cluster, servers: seq<ObServer>, k: nat, i: nat)
    requires FirstMax(servers, |servers|, k) && UsableShare(before, servers[k]) > 0.0 && i < |servers|
    ensures Fits(before, TightSize(before, c, servers, k), servers[i]) <==> NotAbove(before, servers[i], servers[k])
  {
    FitsMeans(before, TightSize(before, c, servers, k), servers[i], servers[i].memAssigned,
              UsableShare(before, servers[i]));
    TightProduct(servers[k].memAssigned as real, UsableShare(before, servers[k]), UsableShare(before, servers[i]),
                 servers[i].memAssigned as real);
  }

  lemma {:induction false} TightProduct(top: real, topShare: real, share: real, m: real)
    requires topShare > 0.0
    ensures top / topShare * share >= m <==> m * topShare <= top * share
  {
    var x := top / topShare;
    QuotientTimes(top, topShare);
    assert topShare * (x * share) == top * share && topShare * m == m * topShare;
    if x * share >= m {
      ScaledOrder(topShare, m, x * share);
    }
    if m * topShare <= top * share {
      CancelFactor(topShare, m, x * share);
    }
  }

  /** With one memory limit on all servers the first server with most memory assigned is the most loaded one. */
  lemma {:induction false} EqualLimitsAreMostLoaded(before: Cluster, servers: seq<ObServer>, k: nat)
    requires FirstMax(servers, |servers|, k) && UsableShare(before, servers[k]) > 0.0
    requires forall j :: 0 <= j < |servers| ==> servers[j].memoryLimit == servers[k].memoryLimit
    ensures MostLoaded(before, servers, k)
    ensures forall after :: MemoryOk(before, after, servers) ==> AllFit(before, after, servers)
  {
    forall i | 0 <= i < |servers| && servers[i].memAssigned > 0 ensures NotAbove(before, servers[i], servers[k]) {
      var share := UsableShare(before, servers[k]);
      assert UsableShare(before, servers[i]) == share;
      ScaledOrder(share, servers[i].memAssigned as real, servers[k].memAssigned as real);
    }
    CheckIsRightIff(before, servers, k);
  }

  /** So an accepted shrink then fits every server, whatever the shares are. */
  lemma {:induction false} EqualLimitsFitEveryServer(before: Cluster, after: Cluster, servers: seq<ObServer>, i: nat)
    requires MemoryOk(before, after, servers) && i < |servers| && servers[i].memAssigned > 0
    requires forall j :: 0 <= j < |servers| ==> servers[j].memoryLimit == servers[i].memoryLimit
    ensures Fits(before, after, servers[i])
  {
    var k := SomeFirstMax(servers, |servers|, i);
    LessFits(before, after, servers[k], servers[i]);
  }

  lemma {:induction false} LessFits(before: Cluster, after: Cluster, more: ObServer, less: ObServer)
    requires Fits(before, after, more) && less.memAssigned <= more.memAssigned && less.memoryLimit == more.memoryLimit
    ensures Fits(before, after, less)
  {
    assert UsableShare(before, less) == UsableShare(before, more);
  }

  lemma {:induction false} SomeFirstMax(servers: seq<ObServer>, n: nat, i: nat) returns (k: nat)
    requires i < n <= |servers| && servers[i].memAssigned > 0
    ensures FirstMax(servers, n, k) && servers[i].memAssigned <= servers[k].memAssigned
    decreases n
  {
    if forall j :: 0 <= j < n - 1 ==> servers[j].memAssigned < servers[n - 1].memAssigned {
      k := n - 1;
    } else {
      var j: nat :| j < n - 1 && servers[j].memAssigned >= servers[n - 1].memAssigned;
      k := SomeFirstMax(servers, n - 1, if i < n - 1 then i else j);
      if servers[k].memAssigned < servers[n - 1].memAssigned {
        k := SomeFirstMax(servers, n - 1, j);
      }
    }
  }

  predicate ResourceOk(before: Cluster, after: Cluster, k: Lookups) {
    && (SupportsStaticIP(before) || (before.cpu == after.cpu && before.memory == after.memory))
    && (after.memory.value < before.memory.value || after.cpu.value < before.cpu.value ==>
          after.status == RUNNING && k.servers.Some? && MemoryOk(before, after, k.servers.value)
            && CpuOk(before, after, k.servers.value))
  }

  predicate TemplateOk(before: Cluster, after: Cluster) {
    SupportsStaticIP(before) || (after.hasBackupVolume == before.hasBackupVolume
      && after.hasMonitor == before.hasMonitor)
  }

  predicate MayGrow(before: Storage, after: Storage, k: Lookups) {
    after.size.value > before.size.value ==> k.classExpands(after.storageClass)
  }

  predicate StorageKept(before: Cluster, after: Cluster) {
    && before.data.size.value <= after.data.size.value
    && before.log.size.value <= after.log.size.value
    && before.redoLog.size.value <= after.redoLog.size.value
  }

  predicate Accepts(before: Cluster, after: Cluster, k: Lookups, l: Limits) {
    && ModeKept(before, after) && ResourceOk(before, after, k) && TemplateOk(before, after)
    && MayGrow(before.data, after.data, k) && MayGrow(before.log, after.log, k)
      && MayGrow(before.redoLog, after.redoLog, k)
    && StorageKept(before, after) && MutationOk(after, k, l)
  }

  /** The checks of mode, cpu and memory. */
  method CheckResources(before: Cluster, after: Cluster, k: Lookups) returns (r: Option<Refusal>)
    ensures r.None? <==> ModeKept(before, after) && ResourceOk(before, after, k)
    ensures r != Some(StorageShrinks)
  {
    if before.annotations.mode.Some? && after.annotations.mode.Some?
      && before.annotations.mode != after.annotations.mode {
      return Some(ModeChanged);
    } else if !SupportsStaticIP(before) && (before.cpu != after.cpu || before.memory != after.memory) {
      return Some(ResourceChanged);
    }
    if after.memory.value < before.memory.value || after.cpu.value < before.cpu.value {
      if after.status != RUNNING {
        return Some(ShrinkNotRunning);
      }
      if k.servers.None? {
        return Some(ServersUnknown);
      }
      r := CheckAssigned(before, after, k.servers.value);
      return;
    }
    return None;
  }

  /** The checks in the order of the source; an update goes through exactly when `Accepts` holds. */
  method ValidateUpdate(before: Cluster, after: Cluster, k: Lookups, l: Limits) returns (r: Option<Refusal>)
    ensures r.None? <==> Accepts(before, after, k, l)
    ensures r == Some(StorageShrinks) ==> !StorageKept(before, after)
  {
    r := CheckResources(before, after, k);
    if r.Some? {
      return;
    }
    var bad := false;
    if after.hasBackupVolume != before.hasBackupVolume && !SupportsStaticIP(before) { bad := true; }
    if after.hasMonitor != before.hasMonitor && !SupportsStaticIP(before) { bad := true; }
    if after.data.size.value > before.data.size.value && !k.classExpands(after.data.storageClass) { bad := true; }
    if after.log.size.value > before.log.size.value && !k.classExpands(after.log.storageClass) { bad := true; }
    if after.redoLog.size.value > before.redoLog.size.value
      && !k.classExpands(after.redoLog.storageClass) { bad := true; }
    if bad {
      return Some(Unsupported);
    }
    if after.data.size.value < before.data.size.value || after.log.size.value < before.log.size.value
       || after.redoLog.size.value < before.redoLog.size.value {
      return Some(StorageShrinks);
    }
    var problems := ValidateMutation(after, k, l);
    r := if problems == [] then None else Some(Invalid(problems));
  }

  // ---------------------------------------------------------------- shrinks that miss a server

  /**
   Whenever the condition of `CheckIsRightIff` fails, with server `i` loaded above the first server with most
   memory assigned, the shrink to the least passing size is an accepted update that does not fit server `i`.
   */
  lemma {:induction false} OverloadedServerIsMissed(
    before: Cluster, after: Cluster, k: Lookups, l: Limits, servers: seq<ObServer>, top: nat, i: nat)
    requires FirstMax(servers, |servers|, top) && UsableShare(before, servers[top]) > 0.0
    requires i < |servers| && !NotAbove(before, servers[i], servers[top])
    requires after == TightSize(before, before, servers, top) && after.memory.value < before.memory.value
    requires SupportsStaticIP(before) && before.status == RUNNING && k.servers == Some(servers)
    requires CpuOk(before, after, servers) && MutationOk(after, k, l)
    ensures Accepts(before, after, k, l) && !Fits(before, after, servers[i])
  {
    TightSizePasses(before, before, servers, top);
    TightFitsIff(before, before, servers, top, i);
  }

  const GIB := 0x4000_0000

  function WithMemory(c: Cluster, size: int): Cluster {
    c.(memory := c.memory.(value := size as real))
  }

  /**
   For instance, with 100 GiB per observer and memory limits of 90 and 50 GiB: a shrink to 60 GiB is accepted
   although the second server has 49 GiB assigned and would keep a usable 30.
   */
  lemma {:induction false} UnequalLimitsMissAServer(before: Cluster, k: Lookups, l: Limits)
    requires before.memory.value == (100 * GIB) as real && before.cpu.value <= 16.0
    requires SupportsStaticIP(before) && before.status == RUNNING
    requires k.servers == Some([ObServer(50 * GIB, 90 * GIB, 8), ObServer(49 * GIB, 50 * GIB, 8)])
    requires MutationOk(WithMemory(before, 60 * GIB), k, l)
    ensures Accepts(before, WithMemory(before, 60 * GIB), k, l)
    ensures !Fits(before, WithMemory(before, 60 * GIB), k.servers.value[1])
  {
    var servers, after := k.servers.value, WithMemory(before, 60 * GIB);
    assert FirstMax(servers, 2, 0);
    OnlyFirstMax(before, after, servers, 0);
    assert UsableShare(before, servers[0]) == 0.9 && UsableShare(before, servers[1]) == 0.5;
  }

  // ---------------------------------------------------------------- histories

  /** Versions of one object in which each was accepted as an update of the one before; lookups change freely. */
  ghost predicate History(h: seq<Cluster>, ks: seq<Lookups>, l: Limits) {
    |ks| + 1 == |h| && forall i :: 0 <= i < |ks| ==> Accepts(h[i], h[i + 1], ks[i], l)
  }

  /** Storage never shrinks between any two versions of a history, those under deletion included. */
  lemma {:induction false} StorageNeverShrinks(h: seq<Cluster>, ks: seq<Lookups>, l: Limits, i: nat, j: nat)
    requires History(h, ks, l) && i <= j < |h|
    ensures StorageKept(h[i], h[j])
    decreases j
  {
    if i < j {
      StorageNeverShrinks(h, ks, l, i, j - 1);
      assert Accepts(h[j - 1], h[j], ks[j - 1], l);
    }
  }

  /** The mode stays the same between two versions as long as every version in between states one. */
  lemma {:induction false} StatedModeNeverChanges(h: seq<Cluster>, ks: seq<Lookups>, l: Limits, i: nat, j: nat)
    requires History(h, ks, l) && i <= j < |h|
    requires forall m :: i <= m <= j ==> h[m].annotations.mode.Some?
    ensures h[i].annotations.mode == h[j].annotations.mode
    decreases j
  {
    if i < j {
      StatedModeNeverChanges(h, ks, l, i, j - 1);
      assert Accepts(h[j - 1], h[j], ks[j - 1], l);
    }
  }

  function WithMode(c: Cluster, mode: Option<string>): Cluster {
    c.(annotations := c.annotations.(mode := mode))
  }

  /**
   Without that condition the mode can change: dropping the annotation and adding another one are two
   accepted updates, for every cluster on which each of the modes is otherwise valid.
   */
  lemma {:induction false} ModeCanChangeInTwoUpdates(c: Cluster, other: string, k: Lookups, l: Limits)
    requires c.annotations.mode.Some? && c.annotations.mode != Some(other)
    requires MutationOk(WithMode(c, None), k, l) && MutationOk(WithMode(c, Some(other)), k, l)
    ensures History([c, WithMode(c, None), WithMode(c, Some(other))], [k, k], l)
    ensures !Accepts(c, WithMode(c, Some(other)), k, l)
  {
    var h := [c, WithMode(c, None), WithMode(c, Some(other))];
    assert Accepts(h[0], h[1], k, l) && Accepts(h[1], h[2], k, l);
  }

  /** Between versions that never supported static IPs the observers' resources stay identical. */
  lemma {:induction false} ResourcesFixedWithoutStaticIP(h: seq<Cluster>, ks: seq<Lookups>, l: Limits, i: nat, j: nat)
    requires History(h, ks, l) && i <= j < |h|
    requires forall m :: i <= m < j ==> !SupportsStaticIP(h[m])
    ensures h[i].cpu == h[j].cpu && h[i].memory == h[j].memory
    ensures h[i].hasBackupVolume == h[j].hasBackupVolume && h[i].hasMonitor == h[j].hasMonitor
    decreases j
  {
    if i < j {
      ResourcesFixedWithoutStaticIP(h, ks, l, i, j - 1);
      assert Accepts(h[j - 1], h[j], ks[j - 1], l);
    }
  }

  /** The volumes of a cluster. */
  function Volumes(c: Cluster): seq<Storage> {
    [c.data, c.log, c.redoLog]
  }

  /** A volume that has grown between two versions did so in an update to a storage class that allows it. */
  lemma {:induction false} GrowthNeedsExpansion(
    h: seq<Cluster>, ks: seq<Lookups>, l: Limits, i: nat, j: nat, volume: nat) returns (m: nat)
    requires History(h, ks, l) && i <= j < |h| && volume < 3
    requires Volumes(h[i])[volume].size.value < Volumes(h[j])[volume].size.value
    ensures i <= m < j && ks[m].classExpands(Volumes(h[m + 1])[volume].storageClass)
    ensures Volumes(h[m])[volume].size.value < Volumes(h[m + 1])[volume].size.value
    decreases j
  {
    assert Accepts(h[j - 1], h[j], ks[j - 1], l);
    if Volumes(h[j - 1])[volume].size.value < Volumes(h[j])[volume].size.value {
      m := j - 1;
    } else {
      m := GrowthNeedsExpansion(h, ks, l, i, j - 1, volume);
    }
  }

  /** Memory or cpu that has shrunk did so while the cluster was running, with room for what its servers use. */
  lemma {:induction false} ShrinkNeedsRunning(h: seq<Cluster>, ks: seq<Lookups>, l: Limits, i: nat, j: nat)
    returns (m: nat)
    requires History(h, ks, l) && i <= j < |h|
    requires h[j].memory.value < h[i].memory.value || h[j].cpu.value < h[i].cpu.value
    ensures i <= m < j && h[m + 1].status == "running" && ks[m].servers.Some?
    ensures MemoryOk(h[m], h[m + 1], ks[m].servers.value) && CpuOk(h[m], h[m + 1], ks[m].servers.value)
    decreases j
  {
    assert Accepts(h[j - 1], h[j], ks[j - 1], l);
    if h[j].memory.value < h[j - 1].memory.value || h[j].cpu.value < h[j - 1].cpu.value {
      m := j - 1;
    } else {
      m := ShrinkNeedsRunning(h, ks, l, i, j - 1);
    }
  }

  /** An update that changes nothing is accepted exactly when the object itself is in order. */
  lemma {:induction false} UnchangedAcceptedIff(c: Cluster, k: Lookups, l: Limits)
    ensures Accepts(c, c, k, l) <==> MutationOk(c, k, l)
  {
  }

  /** Static IPs come with the annotation, and with the service and the standalone mode. */
  predicate SaysStaticIP(a: Annotations) {
    a.staticIP || a.mode == Some("service") || a.mode == Some("standalone")
  }

  /** Without static IPs no update of cpu, memory, backup volume or monitor goes through. */
  lemma {:induction false} ChangeNeedsStaticIP(before: Cluster, after: Cluster, k: Lookups, l: Limits)
    requires !SaysStaticIP(before.annotations)
    requires after.cpu != before.cpu || after.memory != before.memory
      || after.hasBackupVolume != before.hasBackupVolume || after.hasMonitor != before.hasMonitor
    ensures !Accepts(before, after, k, l)
  {
  }

  /** With them every update of these that takes no cpu and no memory away does, if the object stays in order. */
  lemma {:induction false} StaticIPAllowsChange(
    before: Cluster, cpu: Quantity, memory: Quantity, backup: bool, monitor: bool, k: Lookups, l: Limits)
    requires SaysStaticIP(before.annotations)
    requires cpu.value >= before.cpu.value && memory.value >= before.memory.value
    ensures var after := before.(cpu := cpu, memory := memory, hasBackupVolume := backup, hasMonitor := monitor);
      Accepts(before, after, k, l) <==> MutationOk(after, k, l)
  {
  }

  // ---------------------------------------------------------------- what an object in order is

  /** Parameter `i` is the last one of its name, which is `name`. */
  predicate LastOf(parameters: seq<Parameter>, name: string, i: nat) {
    && i < |parameters| && parameters[i].name == name
    && forall j :: i < j < |parameters| ==> parameters[j].name != name
  }

  lemma {:induction false} LastExists(parameters: seq<Parameter>, name: string) returns (i: nat)
    requires name in ParameterMap(parameters)
    ensures LastOf(parameters, name, i) && ParameterMap(parameters)[name] == parameters[i]
    decreases |parameters|
  {
    var n := |parameters| - 1;
    if parameters[n].name == name {
      i := n;
    } else {
      i := LastExists(parameters[..n], name);
    }
    LastEntryCounts(parameters, i);
  }

  /** The last `memory_limit` given, if any, is a quantity within the memory, and three of it fit both disks. */
  ghost predicate LimitFits(c: Cluster, k: Lookups) {
    forall i: nat :: LastOf(c.parameters, "memory_limit", i) ==>
      var limit := k.parse(c.parameters[i].value);
      && limit.Some? && limit.value <= c.memory.value
      && 3.0 * limit.value <= c.data.size.value && 3.0 * limit.value <= c.redoLog.size.value
  }

  ghost predicate DatafileFits(c: Cluster, k: Lookups) {
    forall i: nat :: LastOf(c.parameters, "datafile_maxsize", i) ==>
      var max := k.parse(c.parameters[i].value);
      max.Some? && max.value <= c.data.size.value
  }

  lemma {:induction false} LastValuesDecide(c: Cluster, k: Lookups)
    ensures LimitFits(c, k) <==> MemoryLimitOk(c, k)
    ensures DatafileFits(c, k) <==> DatafileOk(c, k)
  {
    forall name, i: nat | LastOf(c.parameters, name, i)
      ensures name in ParameterMap(c.parameters) && ParameterMap(c.parameters)[name] == c.parameters[i]
    {
      LastEntryCounts(c.parameters, i);
    }
    if "memory_limit" in ParameterMap(c.parameters) {
      var i := LastExists(c.parameters, "memory_limit");
    }
    if "datafile_maxsize" in ParameterMap(c.parameters) {
      var i := LastExists(c.parameters, "datafile_maxsize");
    }
  }

  /** Every volume names a storage class that exists; with a single volume claim they all name the same. */
  predicate ClassesFit(c: Cluster, k: Lookups) {
    && (forall i :: 0 <= i < 3 ==> Volumes(c)[i].storageClass != "" && k.classExists(Volumes(c)[i].storageClass))
    && (c.annotations.singlePVC ==> c.data.storageClass == c.log.storageClass == c.redoLog.storageClass)
  }

  lemma {:induction false} ClassesDecide(c: Cluster, k: Lookups, l: Limits)
    ensures StorageOk(c, k, l) <==>
      && ClassesFit(c, k)
      && c.data.size.value >= l.minData && c.log.size.value >= l.minLog && c.redoLog.size.value >= l.minRedoLog
  {
    var a, b, d := c.data.storageClass, c.log.storageClass, c.redoLog.storageClass;
    assert Volumes(c)[0] == c.data && Volumes(c)[1] == c.log && Volumes(c)[2] == c.redoLog;
    assert a in StorageClasses(c) && b in StorageClasses(c) && d in StorageClasses(c);
    if a == b == d {
      assert StorageClasses(c) == {a};
    } else if a != b {
      assert {a, b} <= StorageClasses(c);
      SubsetSize({a, b}, StorageClasses(c));
    } else {
      assert {a, d} <= StorageClasses(c);
      SubsetSize({a, d}, StorageClasses(c));
    }
  }

  lemma {:induction false} SubsetSize(a: set<string>, b: set<string>)
    requires a <= b
    ensures |a| <= |b|
  {
    assert b == a + (b - a);
  }

  /**
   An object that is not being deleted is accepted exactly when: a standalone cluster is one zone of one replica and
   no migration; the secrets exist, the root's being named; there are zones, each in a known Kubernetes cluster if
   it names one; storage classes and sizes are in order; the memory is enough; the last limits given fit; and the
   service account exists if one is named.
   */
  lemma {:induction false} ObjectAcceptedIff(c: Cluster, k: Lookups, l: Limits)
    requires !c.deleting
    ensures MutationOk(c, k, l) <==>
      && (c.annotations.mode == Some("standalone") ==>
            |c.topology| == 1 && c.topology[0].replica == 1 && !c.annotations.migrates)
      && (c.secrets.Some? ==>
            && c.secrets.value.root != "" && k.rootSecretOk(c.secrets.value.root)
            && k.secretOk(c.secrets.value.operator) && k.secretOk(c.secrets.value.monitor)
            && k.secretOk(c.secrets.value.proxyRO))
      && |c.topology| > 0
      && (forall z :: z in c.topology && z.k8sCluster != "" ==> k.k8sClusterOk(z.k8sCluster))
      && ClassesFit(c, k)
      && c.data.size.value >= l.minData && c.log.size.value >= l.minLog && c.redoLog.size.value >= l.minRedoLog
      && c.memory.value >= l.minMemory && LimitFits(c, k) && DatafileFits(c, k)
      && (c.serviceAccount != "" ==> k.accountExists(c.serviceAccount))
  {
    LastValuesDecide(c, k);
    ClassesDecide(c, k, l);
  }

  // ---------------------------------------------------------------- defaults pass their own checks

  /**
   An object whose sizes are non-negative 64-bit integers, defaulted without user values for the two size
   parameters, passes the comparisons of `memory_limit` with the memory and of `datafile_maxsize` with the
   data storage; it passes all checks of `memory_limit` exactly when the data and the redo-log storage are at
   least three times the default limit, which defaulting does not see to.
   */
  lemma {:induction false} DefaultsPassTheirChecks(c: Cluster, before: seq<Parameter>, g: Percents, k: Lookups)
    requires ValidQuantity(c.memory) && c.memory.asInt64.Some? && c.memory.value >= 0.0
    requires ValidQuantity(c.data.size) && c.data.size.asInt64.Some? && c.data.size.value >= 0.0
    requires 0 <= g.memoryLimit <= 100 && 0 <= g.diskUse <= 100
    requires "memory_limit" !in ParameterMap(before) && "datafile_maxsize" !in ParameterMap(before)
    requires Defaulted(g, c.memory, c.data.size, c.log.size, before, c.parameters)
    requires ReadsSuffixes(k.parse)
    ensures DatafileOk(c, k)
    ensures var m := ParameterMap(c.parameters);
      && "memory_limit" in m
      && var limit := k.parse(m["memory_limit"].value); limit.Some? && limit.value <= c.memory.value
    ensures var limit := (MemoryLimit(c.memory.asInt64.value, g.memoryLimit) * 1_000_000) as real;
      MemoryLimitOk(c, k) <==> c.data.size.value >= 3.0 * limit && c.redoLog.size.value >= 3.0 * limit
  {
    var memory, data := c.memory.asInt64.value, c.data.size.asInt64.value;
    var limit, max := MemoryLimit(memory, g.memoryLimit), DatafileSize(data, g.diskUse);
    MemoryLimitWithinMemory(memory, g.memoryLimit);
    DatafileWithinStorage(data, g.diskUse);
    var m := Defaults(g, c.memory, c.data.size, c.log.size);
    assert m["memory_limit"].value == PrintInt(limit) + "M";
    assert m["datafile_maxsize"].value == PrintInt(max) + "G";
    assert k.parse(PrintInt(limit) + "M") == Some((limit * 1_000_000) as real);
    assert k.parse(PrintInt(max) + "G") == Some((max * 1_000_000_000) as real);
  }
}
