/**
 Scaling a cluster from the command line: parsing the requested zones, classifying them and emitting
 one operation (internal/cli/utils/parser.go, internal/cli/cluster/scale.go), against the zone checks
 of the operation's own webhook (api/v1alpha1/obclusteroperation_webhook.go).
 */
module ScalePlan {
  import opened Common
  import opened Decimal

  datatype Zone = Zone(name: string, replicas: int)

  datatype AlterReplicas = AlterReplicas(zones: seq<string>, to: int)

  datatype ScaleType = Unset | DeleteZones | AdjustReplicas | AddZones

  /** The zone part of an operation; `None` is a nil slice. */
  datatype Operation = Operation(
    kind: ScaleType, addZones: Option<seq<Zone>>, deleteZones: Option<seq<string>>,
      adjustReplicas: Option<seq<AlterReplicas>>)

  datatype Refusal = TooManyDeletes | SeveralTypes | NoType

  predicate HasZone(topology: seq<Zone>, name: string) {
    exists i :: 0 <= i < |topology| && topology[i].name == name
  }

  predicate UniqueZones(topology: seq<Zone>) {
    forall i, j :: 0 <= i < j < |topology| ==> topology[i].name != topology[j].name
  }

  // ---------------------------------------------------------------- parsing the request

  /** The topology is the request: one zone per key, with the number its text denotes, in any order. */
  ghost predicate Denotes(zones: map<string, string>, topology: seq<Zone>) {
    && UniqueZones(topology)
    && (forall n :: n in zones <==> HasZone(topology, n))
    && (forall i :: 0 <= i < |topology| && topology[i].name in zones ==>
      Atoi(zones[topology[i].name]) == Some(topology[i].replicas))
  }

  method MapZonesToTopology(zones: Option<map<string, string>>) returns (r: Result<seq<Zone>, string>)
    ensures r.Ok? <==> zones.Some? && forall n :: n in zones.value ==> Atoi(zones.value[n]).Some?
    ensures r.Ok? ==> Denotes(zones.value, r.value)
  {
    if zones.None? {
      return Err("zone replica is required");
    }
    var topology: seq<Zone> := [];
    var left := zones.value.Keys;
    while left != {}
      invariant left <= zones.value.Keys
      invariant UniqueZones(topology)
      invariant forall i :: 0 <= i < |topology| ==>
        topology[i].name in zones.value.Keys - left && Atoi(zones.value[topology[i].name]) == Some(topology[i].replicas)
      invariant forall n :: n in zones.value.Keys - left ==> HasZone(topology, n)
      decreases left
    {
      var name :| name in left;
      var replica := Atoi(zones.value[name]);
      if replica.None? {
        return Err("invalid value for zone " + name);
      }
      ghost var before, leftBefore := topology, left;
      topology := topology + [Zone(name, replica.value)];
      left := left - {name};
      forall n | n in zones.value.Keys - left ensures HasZone(topology, n) {
        if n == name {
          assert topology[|before|].name == n;
        } else {
          assert HasZone(before, n);
          var i :| 0 <= i < |before| && before[i].name == n;
          assert topology[i].name == n;
        }
      }
    }
    forall n | n in zones.value ensures Atoi(zones.value[n]).Some? {
      assert HasZone(topology, n);
    }
    return Ok(topology);
  }

  // ---------------------------------------------------------------- classes of a requested zone

  /** Every requested zone falls into exactly one class. */
  function ClassOf(existing: seq<Zone>, z: Zone): ScaleType {
    if !HasZone(existing, z.name) then AddZones else if z.replicas == 0 then DeleteZones else AdjustReplicas
  }

  function Deletes(existing: seq<Zone>, topology: seq<Zone>): nat {
    if topology == [] then 0
    else
      var last := topology[|topology| - 1];
      Deletes(existing, topology[..|topology| - 1]) + (if ClassOf(existing, last) == DeleteZones then 1 else 0)
  }

  predicate OneClass(existing: seq<Zone>, topology: seq<Zone>, kind: ScaleType) {
    forall i :: 0 <= i < |topology| ==> ClassOf(existing, topology[i]) == kind
  }

  function MaxDeletes(existing: seq<Zone>): nat {
    |existing| - |existing| / 2
  }

  /** A request that can be planned: of one class, not empty, and deleting at most the allowed number. */
  predicate Plannable(existing: seq<Zone>, topology: seq<Zone>, kind: ScaleType) {
    topology != [] && OneClass(existing, topology, kind) && Deletes(existing, topology) <= MaxDeletes(existing)
  }

  ghost predicate NeverPlannable(existing: seq<Zone>, topology: seq<Zone>) {
    forall kind :: !Plannable(existing, topology, kind)
  }

  predicate SomeOf(existing: seq<Zone>, topology: seq<Zone>, kind: ScaleType) {
    exists i :: 0 <= i < |topology| && ClassOf(existing, topology[i]) == kind
  }

  lemma {:induction false} DeletesGrow(existing: seq<Zone>, topology: seq<Zone>, i: nat)
    requires i <= |topology|
    ensures Deletes(existing, topology[..i]) <= Deletes(existing, topology)
    decreases |topology|
  {
    if i < |topology| {
      DeletesGrow(existing, topology[..|topology| - 1], i);
      assert topology[..|topology| - 1][..i] == topology[..i];
    } else {
      assert topology[..i] == topology;
    }
  }

  lemma {:induction false} AllDeletesCount(existing: seq<Zone>, topology: seq<Zone>)
    requires OneClass(existing, topology, DeleteZones)
    ensures Deletes(existing, topology) == |topology|
    decreases |topology|
  {
    if topology != [] {
      AllDeletesCount(existing, topology[..|topology| - 1]);
    }
  }

  lemma {:induction false} NoDeletesCount(existing: seq<Zone>, topology: seq<Zone>, kind: ScaleType)
    requires OneClass(existing, topology, kind) && kind != DeleteZones
    ensures Deletes(existing, topology) == 0
    decreases |topology|
  {
    if topology != [] {
      NoDeletesCount(existing, topology[..|topology| - 1], kind);
    }
  }

  /**
   The requests that can be planned, in terms of zones and numbers alone: some zones that the cluster does not
   have; some it has, each with a number other than zero; or some it has, all with zero, which are no more than the
   cluster's zones less half of them rounded down.
   */
  lemma {:induction false} PlannableIff(existing: seq<Zone>, topology: seq<Zone>)
    ensures Plannable(existing, topology, AddZones) <==>
      topology != [] && forall i :: 0 <= i < |topology| ==> !HasZone(existing, topology[i].name)
    ensures Plannable(existing, topology, AdjustReplicas) <==>
      topology != [] &&
      forall i :: 0 <= i < |topology| ==> HasZone(existing, topology[i].name) && topology[i].replicas != 0
    ensures Plannable(existing, topology, DeleteZones) <==>
      topology != [] && |topology| + |existing| / 2 <= |existing| &&
      forall i :: 0 <= i < |topology| ==> HasZone(existing, topology[i].name) && topology[i].replicas == 0
    ensures !Plannable(existing, topology, Unset)
  {
    if OneClass(existing, topology, AddZones) {
      NoDeletesCount(existing, topology, AddZones);
    }
    if OneClass(existing, topology, AdjustReplicas) {
      NoDeletesCount(existing, topology, AdjustReplicas);
    }
    if OneClass(existing, topology, DeleteZones) {
      AllDeletesCount(existing, topology);
    }
    if topology != [] {
      assert ClassOf(existing, topology[0]) != Unset;
    }
  }

  // ---------------------------------------------------------------- the emitted operation

  function Names(topology: seq<Zone>): (r: seq<string>)
    ensures |r| == |topology| && forall i :: 0 <= i < |topology| ==> r[i] == topology[i].name
  {
    seq(|topology|, i requires 0 <= i < |topology| => topology[i].name)
  }

  function Alterations(topology: seq<Zone>): (r: seq<AlterReplicas>)
    ensures |r| == |topology| && forall i :: 0 <= i < |topology| ==>
      r[i] == AlterReplicas([topology[i].name], topology[i].replicas)
  {
    seq(|topology|, i requires 0 <= i < |topology| => AlterReplicas([topology[i].name], topology[i].replicas))
  }

  /** One entry per requested zone, in the one list that the kind of the operation names. */
  function Plan(kind: ScaleType, topology: seq<Zone>): Operation {
    match kind
    case DeleteZones => Operation(kind, None, Some(Names(topology)), None)
    case AddZones => Operation(kind, Some(topology), None, None)
    case AdjustReplicas => Operation(kind, None, None, Some(Alterations(topology)))
    case Unset => Operation(kind, None, None, None)
  }

  /** The operation has one entry for each requested zone, in order, in the list of its kind, and no other list. */
  lemma {:induction false} PlanIsTheRequest(kind: ScaleType, topology: seq<Zone>)
    requires kind != Unset
    ensures var op := Plan(kind, topology);
      && op.kind == kind
      && (op.addZones.Some? <==> kind == AddZones) && (op.addZones.Some? ==> op.addZones.value == topology)
      && (op.deleteZones.Some? <==> kind == DeleteZones)
      && (op.deleteZones.Some? ==>
            && |op.deleteZones.value| == |topology|
            && forall i :: 0 <= i < |topology| ==> op.deleteZones.value[i] == topology[i].name)
      && (op.adjustReplicas.Some? <==> kind == AdjustReplicas)
      && (op.adjustReplicas.Some? ==>
            && |op.adjustReplicas.value| == |topology|
            && forall i :: 0 <= i < |topology| ==>
                 op.adjustReplicas.value[i] == AlterReplicas([topology[i].name], topology[i].replicas))
  {
  }

  // ---------------------------------------------------------------- the command's own object

  class ScaleOptions {
    var topology: seq<Zone>
    var oldTopology: seq<Zone>
    var scaleType: ScaleType
    var deleteZonesConfig: Option<seq<string>>
    var adjustZonesConfig: seq<AlterReplicas>
    var addZonesConfig: seq<Zone>

    constructor (topology: seq<Zone>, oldTopology: seq<Zone>)
      ensures this.topology == topology && this.oldTopology == oldTopology && scaleType == Unset
      ensures deleteZonesConfig == None && adjustZonesConfig == [] && addZonesConfig == []
    {
      this.topology, this.oldTopology, scaleType := topology, oldTopology, Unset;
      deleteZonesConfig, adjustZonesConfig, addZonesConfig := None, [], [];
    }

    /** The position of a zone in the old topology, or its length. */
    method Find(name: string) returns (k: nat)
      ensures k <= |oldTopology| && (k < |oldTopology| <==> HasZone(oldTopology, name))
      ensures k < |oldTopology| ==> oldTopology[k].name == name
    {
      k := 0;
      while k < |oldTopology|
        invariant k <= |oldTopology| && forall i :: 0 <= i < k ==> oldTopology[i].name != name
      {
        if oldTopology[k].name == name {
          return;
        }
        k := k + 1;
      }
    }

    /** Accepts exactly the plannable requests, and then records their class. */
    method Validate() returns (r: Option<Refusal>)
      modifies `scaleType
      ensures r.None? ==> Plannable(oldTopology, topology, scaleType)
      ensures r.Some? ==> NeverPlannable(oldTopology, topology)
    {
      var deleteNum, maxDeleteNum := 0, |oldTopology| - |oldTopology| / 2;
      var typeDelete, typeAdjust, typeAdd := false, false, false;
      for i := 0 to |topology|
        invariant deleteNum <= maxDeleteNum
        invariant Flagged(oldTopology, topology[..i], deleteNum, typeDelete, typeAdjust, typeAdd)
      {
        FlaggedNext(oldTopology, topology, i, deleteNum, typeDelete, typeAdjust, typeAdd);
        var k := Find(topology[i].name);
        if k < |oldTopology| {
          if topology[i].replicas == 0 {
            typeDelete := true;
            deleteNum := deleteNum + 1;
          } else {
            typeAdjust := true;
          }
        } else {
          typeAdd := true;
        }
        if typeDelete && deleteNum > maxDeleteNum {
          DeletesGrow(oldTopology, topology, i + 1);
          return Some(TooManyDeletes);
        }
      }
      assert topology[..|topology|] == topology;
      var trueCount := 0;
      if typeDelete {
        trueCount := trueCount + 1;
        scaleType := DeleteZones;
      }
      if typeAdjust {
        trueCount := trueCount + 1;
        scaleType := AdjustReplicas;
      }
      if typeAdd {
        trueCount := trueCount + 1;
        scaleType := AddZones;
      }
      FlagsDecide(oldTopology, topology);
      if trueCount > 1 {
        return Some(SeveralTypes);
      }
      if trueCount == 0 {
        return Some(NoType);
      }
      return None;
    }

    /** Fills the list of the recorded class. */
    method Complete()
      requires Plannable(oldTopology, topology, scaleType)
      requires deleteZonesConfig == None && adjustZonesConfig == [] && addZonesConfig == []
      modifies `deleteZonesConfig, `adjustZonesConfig, `addZonesConfig
      ensures scaleType == DeleteZones ==> deleteZonesConfig == Some(Names(topology))
      ensures scaleType == AddZones ==> addZonesConfig == topology
      ensures scaleType == AdjustReplicas ==> adjustZonesConfig == Alterations(topology)
    {
      match scaleType {
        case DeleteZones =>
          var names: seq<string> := [];
          for i := 0 to |topology|
            invariant names == Names(topology[..i])
          {
            names := names + [topology[i].name];
          }
          assert topology[..|topology|] == topology;
          deleteZonesConfig := Some(names);
        case AddZones =>
          for i := 0 to |topology|
            invariant addZonesConfig == topology[..i]
          {
            addZonesConfig := addZonesConfig + [Zone(topology[i].name, topology[i].replicas)];
          }
        case AdjustReplicas =>
          for i := 0 to |topology|
            invariant adjustZonesConfig == Alterations(topology[..i])
          {
            assert ClassOf(oldTopology, topology[i]) == AdjustReplicas;
            var k := Find(topology[i].name);
            if k < |oldTopology| {
              adjustZonesConfig := adjustZonesConfig + [AlterReplicas([topology[i].name], topology[i].replicas)];
            }
          }
          assert topology[..|topology|] == topology;
        case Unset =>
      }
    }

    method GetScaleOperation() returns (op: Operation)
      ensures op.kind == scaleType
      ensures scaleType == DeleteZones ==> op == Operation(DeleteZones, None, deleteZonesConfig, None)
      ensures scaleType == AddZones ==> op == Operation(AddZones, Some(addZonesConfig), None, None)
      ensures scaleType == AdjustReplicas ==> op == Operation(AdjustReplicas, None, None, Some(adjustZonesConfig))
    {
      op := Operation(scaleType, None, None, None);
      match scaleType {
        case DeleteZones => op := op.(deleteZones := deleteZonesConfig);
        case AddZones => op := op.(addZones := Some(addZonesConfig));
        case AdjustReplicas => op := op.(adjustReplicas := Some(adjustZonesConfig));
        case Unset =>
      }
    }
  }

  lemma {:induction false} SomeOfNext(existing: seq<Zone>, topology: seq<Zone>, i: nat)
    requires i < |topology|
    ensures forall kind :: SomeOf(existing, topology[..i + 1], kind) <==>
      SomeOf(existing, topology[..i], kind) || ClassOf(existing, topology[i]) == kind
  {
    forall kind ensures SomeOf(existing, topology[..i + 1], kind) <==>
        SomeOf(existing, topology[..i], kind) || ClassOf(existing, topology[i]) == kind
    {
      assert topology[..i + 1] == topology[..i] + [topology[i]];
      if SomeOf(existing, topology[..i], kind) {
        var j :| 0 <= j < i && ClassOf(existing, topology[..i][j]) == kind;
        assert topology[..i + 1][j] == topology[..i][j];
      }
      assert topology[..i + 1][i] == topology[i];
    }
  }

  /** The counter and the flags say what the zones seen so far are. */
  ghost predicate Flagged(existing: seq<Zone>, seen: seq<Zone>, deletes: nat, del: bool, adjust: bool, add: bool) {
    && deletes == Deletes(existing, seen)
    && del == SomeOf(existing, seen, DeleteZones)
    && adjust == SomeOf(existing, seen, AdjustReplicas)
    && add == SomeOf(existing, seen, AddZones)
  }

  lemma {:induction false} FlaggedNext(
    existing: seq<Zone>, topology: seq<Zone>, i: nat, deletes: nat, del: bool, adjust: bool, add: bool)
    requires i < |topology| && Flagged(existing, topology[..i], deletes, del, adjust, add)
    ensures var c := ClassOf(existing, topology[i]);
      Flagged(existing, topology[..i + 1], if c.DeleteZones? then deletes + 1 else deletes,
              del || c.DeleteZones?, adjust || c.AdjustReplicas?, add || c.AddZones?)
  {
    SomeOfNext(existing, topology, i);
    assert topology[..i + 1][..i] == topology[..i];
  }

  /** A request is of one class when exactly one of the three flags is up. */
  lemma {:induction false} FlagsDecide(existing: seq<Zone>, topology: seq<Zone>)
    ensures var (del, adjust, add) := (SomeOf(existing, topology, DeleteZones),
        SomeOf(existing, topology, AdjustReplicas), SomeOf(existing, topology, AddZones));
      && ((del && adjust) || (del && add) || (adjust && add) ==> NeverPlannable(existing, topology))
      && (!del && !adjust && !add ==> topology == [])
      && (del && !adjust && !add ==> topology != [] && OneClass(existing, topology, DeleteZones))
      && (!del && adjust && !add ==> topology != [] && OneClass(existing, topology, AdjustReplicas))
      && (!del && !adjust && add ==> topology != [] && OneClass(existing, topology, AddZones))
  {
    forall i | 0 <= i < |topology| ensures SomeOf(existing, topology, ClassOf(existing, topology[i])) {
    }
    if topology != [] {
      assert SomeOf(existing, topology, ClassOf(existing, topology[0]));
    }
  }

  // ---------------------------------------------------------------- the whole command

  datatype Failure = BadRequest | Refused(reason: Refusal)

  /** From the requested zones to the operation, or the reason why there is none. */
  method Scale(zones: Option<map<string, string>>, existing: seq<Zone>)
    returns (r: Result<Operation, Failure>, ghost topology: seq<Zone>)
    ensures r == Err(BadRequest) <==> zones.None? || exists n :: n in zones.value && Atoi(zones.value[n]).None?
    ensures r != Err(BadRequest) ==> zones.Some? && Denotes(zones.value, topology)
    ensures r.Ok? ==> Plannable(existing, topology, r.value.kind) && r.value == Plan(r.value.kind, topology)
    ensures r.Err? && r.error.Refused? ==> NeverPlannable(existing, topology)
  {
    var parsed := MapZonesToTopology(zones);
    if parsed.Err? {
      return Err(BadRequest), [];
    }
    topology := parsed.value;
    var o := new ScaleOptions(parsed.value, existing);
    var refusal := o.Validate();
    if refusal.Some? {
      return Err(Refused(refusal.value)), topology;
    }
    KindIsKnown(existing, topology, o.scaleType);
    o.Complete();
    var op := o.GetScaleOperation();
    r := Ok(op);
  }

  lemma {:induction false} KindIsKnown(existing: seq<Zone>, topology: seq<Zone>, kind: ScaleType)
    requires Plannable(existing, topology, kind)
    ensures kind != Unset
  {
    assert ClassOf(existing, topology[0]) == kind;
  }

  // ---------------------------------------------------------------- the operation's webhook

  /** The zone checks of the webhook, on the zones the cluster has when the operation is created. */
  predicate WebhookAccepts(op: Operation, existing: seq<Zone>, available: bool) {
    && op.kind != Unset
    && (op.kind == AddZones ==> op.addZones.Some?)
    && (op.kind == DeleteZones ==> op.deleteZones.Some?)
    && (op.kind == AdjustReplicas ==> op.adjustReplicas.Some?)
    && available
    && (op.addZones.Some? ==> forall i :: 0 <= i < |op.addZones.value| ==>
          op.addZones.value[i].replicas > 0 && !HasZone(existing, op.addZones.value[i].name))
    && (op.deleteZones.Some? ==> forall i :: 0 <= i < |op.deleteZones.value| ==>
      HasZone(existing, op.deleteZones.value[i]))
    && (op.adjustReplicas.Some? ==> forall i :: 0 <= i < |op.adjustReplicas.value| ==>
      op.adjustReplicas.value[i].to > 0)
  }

  method ZoneReplicaMap(existing: seq<Zone>) returns (m: map<string, int>)
    ensures forall n :: n in m <==> HasZone(existing, n)
  {
    m := map[];
    for i := 0 to |existing|
      invariant forall n :: n in m <==> HasZone(existing[..i], n)
    {
      forall n ensures HasZone(existing[..i + 1], n) <==> HasZone(existing[..i], n) || n == existing[i].name {
        HasZoneNext(existing, i, n);
      }
      m := m[existing[i].name := existing[i].replicas];
    }
    assert existing[..|existing|] == existing;
  }

  lemma {:induction false} HasZoneNext(topology: seq<Zone>, i: nat, n: string)
    requires i < |topology|
    ensures HasZone(topology[..i + 1], n) <==> HasZone(topology[..i], n) || n == topology[i].name
  {
    if HasZone(topology[..i], n) {
      var j :| 0 <= j < i && topology[..i][j].name == n;
      assert topology[..i + 1][j].name == n;
    }
    assert topology[..i + 1][i] == topology[i];
    if HasZone(topology[..i + 1], n) && n != topology[i].name {
      var j :| 0 <= j < i + 1 && topology[..i + 1][j].name == n;
      assert topology[..i][j].name == n;
    }
  }

  /** `available`: the cluster is found, and runs or the operation is forced. */
  method ValidateCreate(op: Operation, existing: seq<Zone>, available: bool) returns (ok: bool)
    ensures ok <==> WebhookAccepts(op, existing, available)
  {
    if op.kind == Unset || (op.kind == AddZones && op.addZones.None?)
      || (op.kind == DeleteZones && op.deleteZones.None?)
       || (op.kind == AdjustReplicas && op.adjustReplicas.None?) || !available {
      return false;
    }
    var zoneReplicaMap := ZoneReplicaMap(existing);
    if op.addZones.Some? {
      for i := 0 to |op.addZones.value|
        invariant forall j :: 0 <= j < i ==>
          op.addZones.value[j].replicas > 0 && !HasZone(existing, op.addZones.value[j].name)
      {
        if op.addZones.value[i].replicas <= 0 || op.addZones.value[i].name in zoneReplicaMap {
          return false;
        }
      }
    }
    if op.deleteZones.Some? {
      for i := 0 to |op.deleteZones.value|
        invariant forall j :: 0 <= j < i ==> HasZone(existing, op.deleteZones.value[j])
      {
        if op.deleteZones.value[i] !in zoneReplicaMap {
          return false;
        }
      }
    }
    if op.adjustReplicas.Some? {
      for i := 0 to |op.adjustReplicas.value|
        invariant forall j :: 0 <= j < i ==> op.adjustReplicas.value[j].to > 0
      {
        if op.adjustReplicas.value[i].to <= 0 {
          return false;
        }
      }
    }
    return true;
  }

  /**
   The webhook refuses exactly: an unknown type, a missing list of the type, a cluster that is not available, zones to
   add that exist or have no replica, zones to delete that do not exist, and an adjustment to no replica.
   */
  lemma {:induction false} WebhookRefusesIff(op: Operation, existing: seq<Zone>, available: bool)
    ensures !WebhookAccepts(op, existing, available) <==>
      || op.kind == Unset || !available
      || (op.kind == AddZones && op.addZones.None?)
      || (op.kind == DeleteZones && op.deleteZones.None?)
      || (op.kind == AdjustReplicas && op.adjustReplicas.None?)
      || (op.addZones.Some? && exists z :: z in op.addZones.value && (z.replicas < 1 || HasZone(existing, z.name)))
      || (op.deleteZones.Some? && exists n :: n in op.deleteZones.value && !HasZone(existing, n))
      || (op.adjustReplicas.Some? && exists a :: a in op.adjustReplicas.value && a.to < 1)
  {
  }

  /** So whatever an accepted operation sets, no zone is left without a replica by it. */
  lemma {:induction false} AcceptedReplicasArePositive(op: Operation, existing: seq<Zone>, available: bool)
    requires WebhookAccepts(op, existing, available)
    ensures op.addZones.Some? ==> forall z :: z in op.addZones.value ==> z.replicas >= 1
    ensures op.adjustReplicas.Some? ==> forall a :: a in op.adjustReplicas.value ==> a.to >= 1
  {
    WebhookRefusesIff(op, existing, available);
  }

  // ---------------------------------------------------------------- planner against webhook

  /**
   The operation planned for an accepted request passes the webhook exactly when it deletes zones or
   every requested number of replicas is positive, the cluster being available and unchanged.
   */
  lemma {:induction false} PlanPassesWebhookIff(existing: seq<Zone>, topology: seq<Zone>, kind: ScaleType)
    requires Plannable(existing, topology, kind)
    ensures WebhookAccepts(Plan(kind, topology), existing, true) <==>
      kind == DeleteZones || forall i :: 0 <= i < |topology| ==> topology[i].replicas > 0
  {
    assert ClassOf(existing, topology[0]) == kind;
    forall i | 0 <= i < |topology| ensures ClassOf(existing, topology[i]) == kind {
    }
    if kind == AdjustReplicas {
      forall i | 0 <= i < |topology| ensures topology[i].replicas == Alterations(topology)[i].to {
      }
    }
    if kind == DeleteZones {
      forall i | 0 <= i < |topology| ensures HasZone(existing, Names(topology)[i]) {
        assert ClassOf(existing, topology[i]) == kind;
      }
    }
  }

  // ---------------------------------------------------------------- what a delete leaves

  ghost function NameSet(topology: seq<Zone>): set<string> {
    set i | 0 <= i < |topology| :: topology[i].name
  }

  lemma {:induction false} NameSetSize(topology: seq<Zone>)
    requires UniqueZones(topology)
    ensures |NameSet(topology)| == |topology|
    decreases |topology|
  {
    if topology != [] {
      var init, last := topology[..|topology| - 1], topology[|topology| - 1];
      NameSetSize(init);
      assert NameSet(topology) == NameSet(init) + {last.name} by {
        forall n | n in NameSet(topology) ensures n in NameSet(init) + {last.name} {
          var i :| 0 <= i < |topology| && topology[i].name == n;
          assert i < |init| ==> init[i].name == n;
        }
        forall n | n in NameSet(init) ensures n in NameSet(topology) {
          var i :| 0 <= i < |init| && init[i].name == n;
          assert topology[i].name == n;
        }
        assert topology[|topology| - 1].name in NameSet(topology);
      }
      assert last.name !in NameSet(init);
    }
  }

  lemma {:induction false} DeleteLeavesNames(existing: seq<Zone>, topology: seq<Zone>)
    requires OneClass(existing, topology, DeleteZones) && UniqueZones(topology)
    ensures |NameSet(existing) - NameSet(topology)| == |NameSet(existing)| - |topology|
  {
    NameSetSize(topology);
    assert NameSet(topology) <= NameSet(existing) by {
      forall n | n in NameSet(topology) ensures n in NameSet(existing) {
        var i :| 0 <= i < |topology| && topology[i].name == n;
        assert ClassOf(existing, topology[i]) == DeleteZones;
      }
    }
    var kept := NameSet(existing) - NameSet(topology);
    assert NameSet(existing) == kept + NameSet(topology) && kept !! NameSet(topology);
  }

  /** Exactly what a delete of distinct zones leaves: all distinct names of the cluster but the requested ones. */
  lemma {:induction false} DeleteLeavesExactly(existing: seq<Zone>, topology: seq<Zone>)
    requires Plannable(existing, topology, DeleteZones) && UniqueZones(topology)
    ensures |NameSet(existing) - NameSet(topology)| == |NameSet(existing)| - |topology|
    ensures |NameSet(existing) - NameSet(topology)| >= |existing| / 2 <==>
      |topology| <= |NameSet(existing)| - |existing| / 2
  {
    DeleteLeavesNames(existing, topology);
  }

  /**
   An accepted delete of distinct zones from n distinct zones leaves at least n / 2 of them, rounded down;
   so only a cluster of a single zone can lose them all.
   */
  lemma {:induction false} DeleteLeavesHalf(existing: seq<Zone>, topology: seq<Zone>)
    requires Plannable(existing, topology, DeleteZones) && UniqueZones(existing) && UniqueZones(topology)
    ensures |NameSet(existing) - NameSet(topology)| >= |existing| / 2
    ensures NameSet(existing) <= NameSet(topology) ==> |existing| == 1
  {
    AllDeletesCount(existing, topology);
    NameSetSize(existing);
    DeleteLeavesExactly(existing, topology);
    assert NameSet(existing) <= NameSet(topology) ==> NameSet(existing) - NameSet(topology) == {};
    assert ClassOf(existing, topology[0]) == DeleteZones;
  }

  /** A delete of distinct existing zones is accepted exactly when it leaves half of n distinct zones, rounded down. */
  lemma {:induction false} DeleteAcceptedIffHalfIsLeft(existing: seq<Zone>, topology: seq<Zone>)
    requires UniqueZones(existing) && UniqueZones(topology) && topology != []
    requires OneClass(existing, topology, DeleteZones)
    ensures Plannable(existing, topology, DeleteZones) <==>
      |NameSet(existing) - NameSet(topology)| >= |existing| / 2
  {
    AllDeletesCount(existing, topology);
    NameSetSize(existing);
    DeleteLeavesNames(existing, topology);
  }

  /** With a zone listed twice the promise breaks: deleting it is accepted and leaves nothing of two zones. */
  lemma {:induction false} DuplicateZoneBreaksHalf(name: string, a: int, b: int)
    ensures var existing := [Zone(name, a), Zone(name, b)];
      var topology := [Zone(name, 0)];
      && Plannable(existing, topology, DeleteZones)
      && |NameSet(existing) - NameSet(topology)| < |existing| / 2
  {
    var existing, topology := [Zone(name, a), Zone(name, b)], [Zone(name, 0)];
    assert existing[0].name == name;
    assert ClassOf(existing, topology[0]) == DeleteZones;
    AllDeletesCount(existing, topology);
    assert topology[0].name in NameSet(topology);
    assert NameSet(existing) - NameSet(topology) == {};
  }
}
