/**
 The defaulting half of the OBCluster webhook, api/v1alpha1/obcluster_webhook.go: sizes computed
 with 64-bit integers and binary divisors but printed with decimal suffixes, and the merge of
 default and user parameters.
 */
module ClusterDefaults {
  import opened Common
  import opened Decimal

  /**
   A resource quantity: its exact value, the answer of `AsInt64` when there is one, and its textual
   form, which takes part in Go's structural comparison.
   */
  datatype Quantity = Quantity(value: real, asInt64: Option<int>, text: string)

  predicate ValidQuantity(q: Quantity) {
    q.asInt64.Some? ==> FitsInt64(q.asInt64.value) && q.value == q.asInt64.value as real
  }

  datatype Parameter = Parameter(name: string, value: string)

  datatype Percents = Percents(memoryLimit: int, diskUse: int, diskExpand: int, logUse: int)

  const MEGA := 0x10_0000
  const GIGA := 0x4000_0000

  // ---------------------------------------------------------------- sizes

  /** Megabytes of `memory_limit`: product, then division by 100, then by 2^20. */
  function MemoryLimit(size: int, percent: int): int {
    Quotient(Quotient(Wrap64(size * percent), 100), MEGA)
  }

  /** Gigabytes of `datafile_maxsize` and `datafile_next`: product, then division by 2^30, then by 100. */
  function DatafileSize(size: int, percent: int): int {
    Quotient(Quotient(Wrap64(size * percent), GIGA), 100)
  }

  function SyslogFileCount(size: int, percent: int): int {
    Quotient(Quotient(Quotient(Wrap64(size * percent), GIGA), 100), 2)
  }

  /** A percentage of a quantity, after wrapping, lies between the quantity and zero or is far smaller. */
  lemma {:induction false} WrappedPercentage(size: int, percent: int)
    requires FitsInt64(size) && 0 <= percent <= 100
    ensures var w := Wrap64(size * percent);
      if FitsInt64(size * percent) then (if size >= 0 then 0 <= w <= 100 * size else 100 * size <= w <= 0)
      else (if size >= 0 then 100 * size > MAX_INT64 else 100 * size < -MAX_INT64 - 1)
  {
    if size >= 0 {
      PercentageOf(size, percent);
    } else {
      PercentageOf(-size, percent);
    }
  }

  lemma {:induction false} PercentageOf(size: nat, percent: nat)
    requires percent <= 100
    ensures 0 <= size * percent <= 100 * size
    ensures (0 - size) * percent == 0 - size * percent
  {
    assert size * percent + size * (100 - percent) == 100 * size;
  }

  /** The largest multiple of `unit` hundredths that the percentage of `size` holds. */
  ghost predicate IsPercentage(limit: int, size: int, percent: int, unit: int) {
    limit * 100 * unit <= size * percent < (limit + 1) * 100 * unit
  }

  /** Dividing a product twice, in either order, rounds it down once. */
  lemma {:induction false} MegabytesOf(product: nat)
    ensures var limit := Quotient(Quotient(product, 100), 0x10_0000);
      limit * 100 * 0x10_0000 <= product < (limit + 1) * 100 * 0x10_0000
  {
  }

  lemma {:induction false} GigabytesOf(product: nat)
    ensures var limit := Quotient(Quotient(product, 0x4000_0000), 100);
      limit * 100 * 0x4000_0000 <= product < (limit + 1) * 100 * 0x4000_0000
  {
  }

  /**
   The sizes are the percentages they claim to be, to the megabyte of 2^20 and the gigabyte of 2^30, while the
   product fits 64 bits; and one log file is allowed for every two gigabytes of the log's percentage.
   */
  lemma {:induction false} SizesArePercentages(size: nat, percent: nat)
    requires size * percent <= MAX_INT64
    ensures IsPercentage(MemoryLimit(size, percent), size, percent, 0x10_0000)
    ensures IsPercentage(DatafileSize(size, percent), size, percent, 0x4000_0000)
    ensures var count := SyslogFileCount(size, percent);
      count * 2 <= DatafileSize(size, percent) <= count * 2 + 1
  {
    MegabytesOf(size * percent);
    GigabytesOf(size * percent);
  }

  /** For instance 10 GiB with 90 percent gives 9216 megabytes. */
  lemma {:induction false} TenGibibytes()
    ensures MemoryLimit(10 * 0x4000_0000, 90) == 9216 && DatafileSize(100 * 0x4000_0000, 95) == 95
    ensures SyslogFileCount(50 * 0x4000_0000, 80) == 20
  {
  }

  /**
   The default `memory_limit`, read back with its decimal suffix, stays within the memory exactly when
   the memory is not negative, for every 64-bit size, also when the product wraps around.
   */
  lemma {:induction false} MemoryLimitWithinMemory(size: int, percent: int)
    requires FitsInt64(size) && 0 <= percent <= 100
    ensures MemoryLimit(size, percent) * 1_000_000 <= size <==> size >= 0
  {
    WrappedPercentage(size, percent);
  }

  /** Likewise the default `datafile_maxsize` within the data storage. */
  lemma {:induction false} DatafileWithinStorage(size: int, percent: int)
    requires FitsInt64(size) && 0 <= percent <= 100
    ensures DatafileSize(size, percent) * 1_000_000_000 <= size <==> size >= 0
  {
    WrappedPercentage(size, percent);
  }

  lemma {:induction false} ProductsInOrder(size: nat, next: nat, max: nat)
    requires next <= max
    ensures 0 <= size * next <= size * max
  {
    assert size * next + size * (max - next) == size * max;
  }

  /** `datafile_next` never exceeds `datafile_maxsize` while the larger product does not overflow. */
  lemma {:induction false} NextWithinMax(size: int, next: int, max: int)
    requires size >= 0 && 0 <= next <= max && size * max <= MAX_INT64
    ensures DatafileSize(size, next) <= DatafileSize(size, max)
  {
    ProductsInOrder(size, next, max);
  }

  /**
   As long as the larger product stays below 2^64 this is exact: the order holds when that product fits 64 bits,
   when the smaller one overflows as well, or when both sizes come out as zero, the products being within 100 GiB
   of zero and of 2^64.
   */
  lemma {:induction false} NextWithinMaxIff(size: int, next: int, max: int)
    requires size >= 0 && 0 <= next <= max && size * max < TWO_64
    ensures DatafileSize(size, next) <= DatafileSize(size, max) <==>
      || size * max <= MAX_INT64 || size * next > MAX_INT64
      || (size * next < 100 * GIGA && size * max > TWO_64 - 100 * GIGA)
  {
    ProductsInOrder(size, next, max);
    QuotientsInOrderIff(size * next, size * max);
  }

  lemma {:induction false} QuotientsInOrderIff(a: nat, b: nat)
    requires a <= b < TWO_64
    ensures Quotient(Quotient(Wrap64(a), GIGA), 100) <= Quotient(Quotient(Wrap64(b), GIGA), 100) <==>
      b <= MAX_INT64 || a > MAX_INT64 || (a < 100 * GIGA && b > TWO_64 - 100 * GIGA)
  {
  }

  /**
   For all sizes and percentages, however often the products wrap around: the order holds exactly when the
   wrapped products are in order, or are not but lie within the same 100 GiB.
   */
  lemma {:induction false} NextWithinMaxWrapped(size: int, next: int, max: int)
    ensures DatafileSize(size, next) <= DatafileSize(size, max) <==>
      || Wrap64(size * next) <= Wrap64(size * max)
      || Quotient(Wrap64(size * next), 100 * GIGA) == Quotient(Wrap64(size * max), 100 * GIGA)
  {
    QuotientsInOrder(Wrap64(size * next), Wrap64(size * max));
  }

  lemma {:induction false} QuotientsInOrder(a: int, b: int)
    ensures Quotient(Quotient(a, GIGA), 100) <= Quotient(Quotient(b, GIGA), 100) <==>
      a <= b || Quotient(a, 100 * GIGA) == Quotient(b, 100 * GIGA)
  {
    NestedQuotient(a);
    NestedQuotient(b);
  }

  lemma {:induction false} NestedQuotient(a: int)
    ensures Quotient(Quotient(a, GIGA), 100) == Quotient(a, 100 * GIGA)
  {
    if a >= 0 {
      NestedDivision(a);
    } else {
      NestedDivision(-a);
    }
  }

  lemma {:induction false} NestedDivision(a: nat)
    ensures a / GIGA / 100 == a / (100 * GIGA)
  {
  }

  /** When it does overflow this fails: a 100 PB volume with the built-in percentages. */
  lemma {:induction false} NextMayExceedMaxOnOverflow()
    ensures var size := 100_000_000_000_000_000; FitsInt64(size) && DatafileSize(size, 10) > DatafileSize(size, 95)
  {
  }

  // ---------------------------------------------------------------- reading sizes back

  /**
   A parser of quantities, of which only the two forms that defaulting prints are fixed: an integer
   with the suffix M counts millions, with the suffix G thousand millions, as long as that is a 64-bit
   number; a parser may cap larger ones.
   */
  ghost predicate ReadsSuffixes(parse: string -> Option<real>) {
    forall n {:trigger PrintInt(n)} ::
      && (FitsInt64(n * 1_000_000) ==> parse(PrintInt(n) + "M") == Some((n * 1_000_000) as real))
      && (FitsInt64(n * 1_000_000_000) ==> parse(PrintInt(n) + "G") == Some((n * 1_000_000_000) as real))
  }

  // ---------------------------------------------------------------- the parameter merge

  /** The parameters by name; of two entries with one name the last one counts. */
  function ParameterMap(parameters: seq<Parameter>): map<string, Parameter> {
    if parameters == [] then map[]
    else
      var last := parameters[|parameters| - 1];
      ParameterMap(parameters[..|parameters| - 1])[last.name := last]
  }

  /** The map holds entries of the list under their own names, and every name of the list. */
  lemma {:induction false} MapHoldsEntries(parameters: seq<Parameter>)
    ensures var m := ParameterMap(parameters);
      && (forall n :: n in m ==> m[n].name == n && m[n] in parameters)
      && (forall p :: p in parameters ==> p.name in m)
  {
    if parameters != [] {
      MapHoldsEntries(parameters[..|parameters| - 1]);
      assert parameters == parameters[..|parameters| - 1] + [parameters[|parameters| - 1]];
    }
  }

  predicate UniqueNames(parameters: seq<Parameter>) {
    forall i, j :: 0 <= i < j < |parameters| ==> parameters[i].name != parameters[j].name
  }

  /** The essential parameters that a spec of these sizes gets by default. */
  function Defaults(g: Percents, memory: Quantity, data: Quantity, log: Quantity): (m: map<string, Parameter>)
    ensures forall n :: n in m ==> m[n].name == n
  {
    var sizes :=
      (if memory.asInt64.Some? then
         map["memory_limit" := Parameter("memory_limit", PrintInt(MemoryLimit(memory.asInt64.value, g.memoryLimit)) +
           "M")]
       else map[])
      + (if data.asInt64.Some? then
           map["datafile_maxsize" := Parameter("datafile_maxsize",
             PrintInt(DatafileSize(data.asInt64.value, g.diskUse)) + "G"),
               "datafile_next" := Parameter("datafile_next",
                 PrintInt(DatafileSize(data.asInt64.value, g.diskExpand)) + "G")]
         else map[]);
    var count := if log.asInt64.Some? then SyslogFileCount(log.asInt64.value, g.logUse) else 4;
    sizes["enable_syslog_recycle" := Parameter("enable_syslog_recycle", "true")]
         ["max_syslog_file_count" := Parameter("max_syslog_file_count", PrintInt(count))]
  }

  /** The default entries, by name: sizes printed with their suffixes, and two settings for the log. */
  lemma {:induction false} DefaultEntries(g: Percents, memory: Quantity, data: Quantity, log: Quantity)
    ensures var m := Defaults(g, memory, data, log);
      && ("memory_limit" in m <==> memory.asInt64.Some?)
      && ("datafile_maxsize" in m <==> data.asInt64.Some?) && ("datafile_next" in m <==> data.asInt64.Some?)
      && (memory.asInt64.Some? ==>
            m["memory_limit"].value == PrintInt(MemoryLimit(memory.asInt64.value, g.memoryLimit)) + "M")
      && (data.asInt64.Some? ==>
            && m["datafile_maxsize"].value == PrintInt(DatafileSize(data.asInt64.value, g.diskUse)) + "G"
            && m["datafile_next"].value == PrintInt(DatafileSize(data.asInt64.value, g.diskExpand)) + "G")
      && "enable_syslog_recycle" in m && m["enable_syslog_recycle"].value == "true"
      && "max_syslog_file_count" in m
      && (log.asInt64.Some? ==>
            m["max_syslog_file_count"].value == PrintInt(SyslogFileCount(log.asInt64.value, g.logUse)))
      && (log.asInt64.None? ==> m["max_syslog_file_count"].value == PrintInt(4))
      && m.Keys <= {"memory_limit", "datafile_maxsize", "datafile_next", "enable_syslog_recycle",
                    "max_syslog_file_count"}
  {
  }

  /** The last entry of a name, and no other, is what the map holds. */
  lemma {:induction false} LastEntryCounts(parameters: seq<Parameter>, k: nat)
    requires k < |parameters| && forall i :: k < i < |parameters| ==> parameters[i].name != parameters[k].name
    ensures parameters[k].name in ParameterMap(parameters)
      && ParameterMap(parameters)[parameters[k].name] == parameters[k]
    decreases |parameters|
  {
    var init := parameters[..|parameters| - 1];
    if k < |init| {
      LastEntryCounts(init, k);
      assert init[k] == parameters[k];
    }
  }

  lemma {:induction false} ParameterMapAppend(parameters: seq<Parameter>, p: Parameter)
    ensures ParameterMap(parameters + [p]) == ParameterMap(parameters)[p.name := p]
  {
    assert (parameters + [p])[..|parameters|] == parameters;
  }

  /** A list without repeated names is determined by its map up to order. */
  lemma {:induction false} UniqueIsPermutation(a: seq<Parameter>, b: seq<Parameter>)
    requires UniqueNames(a) && UniqueNames(b) && ParameterMap(a) == ParameterMap(b)
    ensures multiset(a) == multiset(b)
  {
    forall p: Parameter ensures multiset(a)[p] == multiset(b)[p] {
      CountedOnce(a, p);
      CountedOnce(b, p);
    }
  }

  lemma {:induction false} CountedOnce(a: seq<Parameter>, p: Parameter)
    requires UniqueNames(a)
    ensures multiset(a)[p] == if p.name in ParameterMap(a) && ParameterMap(a)[p.name] == p then 1 else 0
    decreases |a|
  {
    if a != [] {
      var init, last := a[..|a| - 1], a[|a| - 1];
      assert a == init + [last];
      CountedOnce(init, p);
      MapHoldsEntries(init);
      assert last.name !in ParameterMap(init);
    }
  }

  /** What one application of defaulting leaves of the parameters `before`. */
  ghost predicate Defaulted(
    g: Percents, memory: Quantity, data: Quantity, log: Quantity, before: seq<Parameter>, after: seq<Parameter>) {
    UniqueNames(after) && ParameterMap(after) == Defaults(g, memory, data, log) + ParameterMap(before)
  }

  /**
   Defaulting is an idempotent merge: whatever order the parameters come out in, a second application
   only reorders them.
   */
  lemma {:induction false} DefaultingIsIdempotent(
    g: Percents, memory: Quantity, data: Quantity, log: Quantity, before: seq<Parameter>, once: seq<Parameter>,
    twice: seq<Parameter>)
    requires Defaulted(g, memory, data, log, before, once) && Defaulted(g, memory, data, log, once, twice)
    ensures ParameterMap(twice) == ParameterMap(once) && multiset(twice) == multiset(once)
  {
    UniqueIsPermutation(twice, once);
  }

  /** Every entry the user gave last for its name survives defaulting; every other name has its default. */
  lemma {:induction false} UserEntriesWin(
    g: Percents, memory: Quantity, data: Quantity, log: Quantity, before: seq<Parameter>, after: seq<Parameter>,
    name: string)
    requires Defaulted(g, memory, data, log, before, after)
    ensures (exists p :: p in before && p.name == name) ==>
      name in ParameterMap(before) && ParameterMap(before)[name] in after
    ensures !(exists p :: p in before && p.name == name) && name in Defaults(g, memory, data, log) ==>
      Defaults(g, memory, data, log)[name] in after
  {
    MapHoldsEntries(before);
    MapHoldsEntries(after);
  }

  // ---------------------------------------------------------------- secrets, account and storage classes

  datatype UserSecrets = UserSecrets(root: string, operator: string, monitor: string, proxyRO: string)

  /** The names in a spec that defaulting fills in. */
  datatype References = References(
    secrets: UserSecrets, serviceAccount: string, dataClass: string, logClass: string, redoLogClass: string)

  datatype Drawn = Drawn(monitor: string, operator: string, proxyRO: string)

  datatype StorageClass = StorageClass(name: string, isDefault: bool)

  function Or(name: string, other: string): string {
    if name == "" then other else name
  }

  function Filled(r: References, drawn: Drawn, chosen: Option<string>): References {
    var s := r.secrets;
    var users := UserSecrets(s.root, Or(s.operator, "operator-user-" + drawn.operator),
                             Or(s.monitor, "monitor-user-" + drawn.monitor),
                               Or(s.proxyRO, "proxyro-user-" + drawn.proxyRO));
    var class' := if chosen.Some? then chosen.value else "";
    References(users, Or(r.serviceAccount, "default"), Or(r.dataClass, class'), Or(r.logClass, class'),
      Or(r.redoLogClass, class'))
  }

  /** The first default class in the order of names, if the classes can be listed and one is a default. */
  ghost predicate IsFirstDefault(classes: Option<seq<StorageClass>>, chosen: Option<string>) {
    && (chosen.None? <==> classes.None? || forall i :: 0 <= i < |classes.value| ==> !classes.value[i].isDefault)
    && (chosen.Some? ==>
          && StorageClass(chosen.value, true) in classes.value
          && forall i :: 0 <= i < |classes.value| && classes.value[i].isDefault ==>
               CompareStrings(chosen.value, classes.value[i].name) <= 0)
  }

  method FirstDefault(classes: Option<seq<StorageClass>>) returns (chosen: Option<string>)
    ensures IsFirstDefault(classes, chosen)
  {
    chosen := None;
    if classes.None? {
      return;
    }
    var all := classes.value;
    for i := 0 to |all|
      invariant chosen.None? <==> forall j :: 0 <= j < i ==> !all[j].isDefault
      invariant chosen.Some? ==> StorageClass(chosen.value, true) in all
      invariant chosen.Some? ==>
        forall j :: 0 <= j < i && all[j].isDefault ==> CompareStrings(chosen.value, all[j].name) <= 0
    {
      if all[i].isDefault && (chosen.None? || CompareStrings(all[i].name, chosen.value) < 0) {
        LesserIsFirst(all, i, chosen);
        CompareFlips(all[i].name, all[i].name);
        chosen := Some(all[i].name);
        assert all[i] == StorageClass(all[i].name, true);
      } else if all[i].isDefault {
        CompareFlips(all[i].name, chosen.value);
      }
    }
  }

  lemma {:induction false} LesserIsFirst(all: seq<StorageClass>, i: nat, chosen: Option<string>)
    requires i < |all| && (chosen.Some? ==> CompareStrings(all[i].name, chosen.value) < 0)
    requires chosen.Some? ==> forall j :: 0 <= j < i && all[j].isDefault ==>
      CompareStrings(chosen.value, all[j].name) <= 0
    ensures chosen.Some? ==> forall j :: 0 <= j < i && all[j].isDefault ==>
      CompareStrings(all[i].name, all[j].name) <= 0
  {
    if chosen.Some? {
      forall j | 0 <= j < i && all[j].isDefault ensures CompareStrings(all[i].name, all[j].name) <= 0 {
        CompareChains(all[i].name, chosen.value, all[j].name);
      }
    }
  }

  /** There is one such class, whatever the order in which the classes are listed. */
  lemma {:induction false} FirstDefaultIsUnique(
    classes: Option<seq<StorageClass>>, a: Option<string>, b: Option<string>)
    requires IsFirstDefault(classes, a) && IsFirstDefault(classes, b)
    ensures a == b
  {
    if a.Some? {
      var i :| 0 <= i < |classes.value| && classes.value[i] == StorageClass(a.value, true);
      var j :| 0 <= j < |classes.value| && classes.value[j] == StorageClass(b.value, true);
      CompareFlips(a.value, b.value);
    }
  }

  /** Names that are given are kept; the others get their prefix and what was drawn, or the default account. */
  lemma {:induction false} NamesAreFilled(r: References, drawn: Drawn, chosen: Option<string>)
    ensures var f := Filled(r, drawn, chosen);
      && f.secrets.root == r.secrets.root
      && (r.secrets.monitor != "" ==> f.secrets.monitor == r.secrets.monitor)
      && (r.secrets.monitor == "" ==> f.secrets.monitor == "monitor-user-" + drawn.monitor)
      && (r.secrets.operator != "" ==> f.secrets.operator == r.secrets.operator)
      && (r.secrets.operator == "" ==> f.secrets.operator == "operator-user-" + drawn.operator)
      && (r.secrets.proxyRO != "" ==> f.secrets.proxyRO == r.secrets.proxyRO)
      && (r.secrets.proxyRO == "" ==> f.secrets.proxyRO == "proxyro-user-" + drawn.proxyRO)
      && (r.serviceAccount != "" ==> f.serviceAccount == r.serviceAccount)
      && (r.serviceAccount == "" ==> f.serviceAccount == "default")
  {
  }

  /** So are the storage classes: given ones are kept, empty ones get the chosen default if there is one. */
  lemma {:induction false} ClassesAreFilled(r: References, drawn: Drawn, chosen: Option<string>)
    ensures var f := Filled(r, drawn, chosen);
      && (r.dataClass != "" || chosen.None? ==> f.dataClass == r.dataClass)
      && (r.logClass != "" || chosen.None? ==> f.logClass == r.logClass)
      && (r.redoLogClass != "" || chosen.None? ==> f.redoLogClass == r.redoLogClass)
      && (r.dataClass == "" && chosen.Some? ==> f.dataClass == chosen.value)
      && (r.logClass == "" && chosen.Some? ==> f.logClass == chosen.value)
      && (r.redoLogClass == "" && chosen.Some? ==> f.redoLogClass == chosen.value)
  {
  }

  /** Once a default class was found, defaulting leaves no name empty and a second one changes none. */
  lemma {:induction false} FillingIsIdempotent(
    r: References, drawn: Drawn, chosen: Option<string>, drawn': Drawn, chosen': Option<string>)
    requires chosen.Some? && chosen.value != ""
    ensures Filled(Filled(r, drawn, chosen), drawn', chosen') == Filled(r, drawn, chosen)
    ensures var f := Filled(r, drawn, chosen); "" !in {f.secrets.operator, f.secrets.monitor, f.secrets.proxyRO,
      f.serviceAccount, f.dataClass, f.logClass, f.redoLogClass}
  {
  }

  // ---------------------------------------------------------------- the object of the source

  class ClusterSpec {
    var memory: Quantity
    var dataSize: Quantity
    var logSize: Quantity
    var parameters: seq<Parameter>
    var secrets: Option<UserSecrets>
    var serviceAccount: string
    var dataClass: string
    var logClass: string
    var redoLogClass: string

    function Names(): Option<References>
      reads this
    {
      if secrets.None? then None
      else Some(References(secrets.value, serviceAccount, dataClass, logClass, redoLogClass))
    }

    /**
     `drawn` are the random suffixes and `classes` the storage classes of the cluster, `None` when they cannot
     be listed. `ok` is false where the source dereferences the missing secrets.
     */
    method Default(g: Percents, drawn: Drawn, classes: Option<seq<StorageClass>>) returns (ok: bool)
      modifies `parameters, `secrets, `serviceAccount, `dataClass, `logClass, `redoLogClass
      ensures Defaulted(g, memory, dataSize, logSize, old(parameters), parameters)
      ensures ok <==> old(secrets).Some?
      ensures ok ==>
        exists chosen :: IsFirstDefault(classes, chosen) && Names() == Some(Filled(old(Names()).value, drawn, chosen))
      ensures !ok ==> Names() == old(Names())
    {
      DefaultParameters(g);
      ok := secrets.Some?;
      if ok {
        DefaultNames(drawn, classes);
      }
    }

    method DefaultParameters(g: Percents)
      modifies `parameters
      ensures Defaulted(g, memory, dataSize, logSize, old(parameters), parameters)
    {
      var parameterMap := EssentialParameters(g, memory, dataSize, logSize);
      parameterMap := Overlay(parameterMap, parameters);
      MapHoldsEntries(parameters);
      parameters := Listing(parameterMap);
    }

    method DefaultNames(drawn: Drawn, classes: Option<seq<StorageClass>>)
      requires secrets.Some?
      modifies `secrets, `serviceAccount, `dataClass, `logClass, `redoLogClass
      ensures
        exists chosen :: IsFirstDefault(classes, chosen) && Names() == Some(Filled(old(Names()).value, drawn, chosen))
    {
      var users := secrets.value;
      if users.monitor == "" { users := users.(monitor := "monitor-user-" + drawn.monitor); }
      if users.operator == "" { users := users.(operator := "operator-user-" + drawn.operator); }
      if users.proxyRO == "" { users := users.(proxyRO := "proxyro-user-" + drawn.proxyRO); }
      secrets := Some(users);
      if serviceAccount == "" { serviceAccount := "default"; }
      var chosen := FirstDefault(classes);
      if chosen.Some? {
        if dataClass == "" { dataClass := chosen.value; }
        if logClass == "" { logClass := chosen.value; }
        if redoLogClass == "" { redoLogClass := chosen.value; }
      }
    }
  }

  method EssentialParameters(g: Percents, memory: Quantity, dataSize: Quantity, logSize: Quantity)
    returns (parameterMap: map<string, Parameter>)
    ensures parameterMap == Defaults(g, memory, dataSize, logSize)
  {
    parameterMap := map[];
    if memory.asInt64.Some? {
      var limit := PrintInt(MemoryLimit(memory.asInt64.value, g.memoryLimit)) + "M";
      parameterMap := parameterMap["memory_limit" := Parameter("memory_limit", limit)];
    }
    if dataSize.asInt64.Some? {
      var max := PrintInt(DatafileSize(dataSize.asInt64.value, g.diskUse)) + "G";
      parameterMap := parameterMap["datafile_maxsize" := Parameter("datafile_maxsize", max)];
      var next := PrintInt(DatafileSize(dataSize.asInt64.value, g.diskExpand)) + "G";
      parameterMap := parameterMap["datafile_next" := Parameter("datafile_next", next)];
    }
    parameterMap := parameterMap["enable_syslog_recycle" := Parameter("enable_syslog_recycle", "true")];
    var maxSysLogFileCount := 4;
    if logSize.asInt64.Some? {
      maxSysLogFileCount := SyslogFileCount(logSize.asInt64.value, g.logUse);
    }
    parameterMap := parameterMap["max_syslog_file_count" := Parameter("max_syslog_file_count",
      PrintInt(maxSysLogFileCount))];
  }

  /** Overrides the map with each entry in turn. */
  method Overlay(defaults: map<string, Parameter>, parameters: seq<Parameter>) returns (m: map<string, Parameter>)
    ensures m == defaults + ParameterMap(parameters)
  {
    m := defaults;
    ghost var users: map<string, Parameter> := map[];
    for i := 0 to |parameters|
      invariant users == ParameterMap(parameters[..i]) && m == defaults + users
    {
      assert parameters[..i + 1] == parameters[..i] + [parameters[i]];
      ParameterMapAppend(parameters[..i], parameters[i]);
      m := m[parameters[i].name := parameters[i]];
      users := users[parameters[i].name := parameters[i]];
    }
    assert parameters[..|parameters|] == parameters;
  }

  /** The entries of the map, in an arbitrary order as Go iterates maps. */
  method Listing(m: map<string, Parameter>) returns (parameters: seq<Parameter>)
    requires forall n :: n in m ==> m[n].name == n
    ensures UniqueNames(parameters) && ParameterMap(parameters) == m
  {
    parameters := [];
    var left := m.Keys;
    ghost var taken: map<string, Parameter> := map[];
    while left != {}
      invariant left <= m.Keys && UniqueNames(parameters)
      invariant taken == m - left && ParameterMap(parameters) == taken
      invariant forall i :: 0 <= i < |parameters| ==> parameters[i].name !in left
      decreases left
    {
      var n :| n in left;
      ParameterMapAppend(parameters, m[n]);
      parameters := parameters + [m[n]];
      taken := taken[n := m[n]];
      left := left - {n};
    }
  }
}
