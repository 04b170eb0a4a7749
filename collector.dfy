/** The snapshot collector: one collection run turns the current Home
    Assistant states of the monitored entities into snapshot records and
    stores them, keeping a flag that refuses a run while another is in
    progress, the time of the last completed run and the errors of the
    latest run. The state fetch is a parameter (its outcome), and so are the
    clock readings. */
module Collector {
  import opened Wrappers
  import opened Json
  import opened JsNumber
  import opened Collections
  import opened HomeAssistant
  import MonitoredEntities
  import Snapshots

  /** `attrMap[domain] || []`: the attributes kept for each domain. */
  function KeysToExtract(domain: Option<string>): seq<string> {
    if domain.None? then []
    else
      match domain.value
      case "climate" => ["current_temperature", "target_temperature", "hvac_action", "preset_mode"]
      case "sensor" => ["device_class", "unit_of_measurement"]
      case "binary_sensor" => ["device_class"]
      case "light" => ["brightness", "color_temp", "rgb_color"]
      case "switch" => []
      case "cover" => ["current_position"]
      case "media_player" => ["media_title", "media_artist", "volume_level"]
      case "weather" => ["temperature", "humidity", "pressure", "wind_speed"]
      case _ => []
  }

  /** The allow-listed keys, in list order, that the attributes define
      (a key holding `null` is defined), each with its value. */
  function RelevantAttributes(keys: seq<string>, attributes: seq<(string, Json)>): seq<(string, Json)>
    decreases |keys|
  {
    if keys == [] then []
    else
      var init := RelevantAttributes(keys[..|keys| - 1], attributes);
      var k := keys[|keys| - 1];
      match Lookup(attributes, k)
      case Some(v) => init + [(k, v)]
      case None => init
  }

  /** A member is kept exactly when its key is allow-listed and the
      attributes give it that value. */
  lemma {:induction false} RelevantExactly(keys: seq<string>, attributes: seq<(string, Json)>, k: string, v: Json)
    ensures (k, v) in RelevantAttributes(keys, attributes) <==> k in keys && Lookup(attributes, k) == Some(v)
    decreases |keys|
  {
    if keys != [] {
      var init := keys[..|keys| - 1];
      RelevantExactly(init, attributes, k, v);
      assert k in keys <==> k in init || k == keys[|keys| - 1] by {
        assert keys == init + [keys[|keys| - 1]];
      }
    }
  }

  /** An unknown domain keeps nothing. */
  lemma UnknownDomainKeepsNothing(domain: Option<string>, attributes: seq<(string, Json)>)
    requires KeysToExtract(domain) == []
    ensures RelevantAttributes(KeysToExtract(domain), attributes) == []
  {
  }

  /** `extractRelevantAttributes(domain, attributes)` */
  method ExtractRelevantAttributes(domain: Option<string>, attributes: seq<(string, Json)>)
    returns (relevant: seq<(string, Json)>)
    ensures relevant == RelevantAttributes(KeysToExtract(domain), attributes)
  {
    var keys := KeysToExtract(domain);
    relevant := [];
    for i := 0 to |keys|
      invariant relevant == RelevantAttributes(keys[..i], attributes)
    {
      assert keys[..i + 1][..i] == keys[..i];
      var v := Lookup(attributes, keys[i]);
      if v.Some? {
        relevant := relevant + [(keys[i], v.value)];
      }
    }
    assert keys[..|keys|] == keys;
  }

  /** `new Map(allStates.map(s => [s.entity_id, s])).get(id)`: a later state
      with the same id replaces an earlier one. */
  function StateFor(states: seq<HaState>, id: string): (r: Option<HaState>)
    ensures r.Some? ==> r.value in states && r.value.entityId == id
    ensures r.None? <==> forall i :: 0 <= i < |states| ==> states[i].entityId != id
    decreases |states|
  {
    if states == [] then None
    else if states[|states| - 1].entityId == id then Some(states[|states| - 1])
    else StateFor(states[..|states| - 1], id)
  }

  predicate Unavailable(st: HaState) {
    st.state == "unavailable" || st.state == "unknown"
  }

  /** The record for one entity: a finite number is stored as a number and
      anything else as text; the kept attributes, or null when none are. */
  function SnapshotOf(e: MonitoredEntities.EntityRow, st: HaState, timestamp: int): (s: Snapshots.Snapshot)
    ensures s.entityId == e.entityId && s.timestamp == timestamp
    ensures s.valueType == "number" <==> IsFiniteNumber(st.state)
    ensures s.valueType == "number" ==> s.valueNum == Some(ParseFloat(st.state).value) && s.valueStr == None
    ensures s.valueType != "number" ==> s.valueType == "state" && s.valueNum == None && s.valueStr == Some(st.state)
  {
    var relevant := RelevantAttributes(KeysToExtract(e.domain), st.attributes);
    var attrs := if |relevant| > 0 then Some(JObj(relevant)) else None;
    var n := ParseFloat(st.state);
    if n.Finite? then Snapshots.Snapshot(e.entityId, timestamp, "number", Some(n.value), None, attrs)
    else Snapshots.Snapshot(e.entityId, timestamp, "state", None, Some(st.state), attrs)
  }

  datatype CollectionError = NotFound(entityId: string) | Failed(message: string)

  /** The entity has a state, and the state is neither `unavailable` nor
      `unknown`. */
  predicate Collectable(e: MonitoredEntities.EntityRow, states: seq<HaState>) {
    StateFor(states, e.entityId).Some? && !Unavailable(StateFor(states, e.entityId).value)
  }

  function RecordFor(e: MonitoredEntities.EntityRow, states: seq<HaState>, timestamp: int): Snapshots.Snapshot
    requires Collectable(e, states)
  {
    SnapshotOf(e, StateFor(states, e.entityId).value, timestamp)
  }

  /** The records and errors the loop produces for the entities in order:
      a missing state is an error, an unavailable one is passed over. */
  function Built(entities: seq<MonitoredEntities.EntityRow>, states: seq<HaState>, timestamp: int)
    : (r: (seq<Snapshots.Snapshot>, seq<CollectionError>))
    ensures |r.0| + |r.1| <= |entities|
    decreases |entities|
  {
    if entities == [] then ([], [])
    else
      var prev := Built(entities[..|entities| - 1], states, timestamp);
      var e := entities[|entities| - 1];
      if StateFor(states, e.entityId).None? then (prev.0, prev.1 + [NotFound(e.entityId)])
      else if Collectable(e, states) then (prev.0 + [RecordFor(e, states, timestamp)], prev.1)
      else prev
  }

  /** The entity is collectable and gives this record. */
  predicate Gives(e: MonitoredEntities.EntityRow, states: seq<HaState>, timestamp: int, s: Snapshots.Snapshot) {
    Collectable(e, states) && s == RecordFor(e, states, timestamp)
  }

  /** Some entity of the list gives this record. */
  predicate RecordOfSome(entities: seq<MonitoredEntities.EntityRow>, states: seq<HaState>, timestamp: int, s: Snapshots.Snapshot) {
    Any(entities, (e: MonitoredEntities.EntityRow) => Gives(e, states, timestamp, s))
  }

  /** A record is built exactly when some entity of the list gives it. */
  lemma {:induction false} BuiltRecord(entities: seq<MonitoredEntities.EntityRow>, states: seq<HaState>, timestamp: int, s: Snapshots.Snapshot)
    ensures s in Built(entities, states, timestamp).0 <==> RecordOfSome(entities, states, timestamp, s)
    decreases |entities|
  {
    if entities != [] {
      var n := |entities| - 1;
      var init, last := entities[..n], entities[n];
      BuiltRecord(init, states, timestamp, s);
      AnySnoc(entities, (e: MonitoredEntities.EntityRow) => Gives(e, states, timestamp, s));
      var prev := Built(init, states, timestamp).0;
      assert Built(entities, states, timestamp).0 ==
        if Collectable(last, states) then prev + [RecordFor(last, states, timestamp)] else prev;
    }
  }

  /** Every record comes from an entity of the list whose state was found
      and available, and every such entity gives its record. */
  lemma BuiltRecords(entities: seq<MonitoredEntities.EntityRow>, states: seq<HaState>, timestamp: int)
    ensures forall s :: s in Built(entities, states, timestamp).0 <==>
      (exists i :: 0 <= i < |entities| && Collectable(entities[i], states) && s == RecordFor(entities[i], states, timestamp))
  {
    forall s ensures s in Built(entities, states, timestamp).0 <==> RecordOfSome(entities, states, timestamp, s) {
      BuiltRecord(entities, states, timestamp, s);
    }
  }

  /** The entity has no state, and this is its error. */
  predicate Missing(e: MonitoredEntities.EntityRow, states: seq<HaState>, x: CollectionError) {
    StateFor(states, e.entityId).None? && x == NotFound(e.entityId)
  }

  /** An error is reported exactly when some entity of the list has no state. */
  lemma {:induction false} BuiltError(entities: seq<MonitoredEntities.EntityRow>, states: seq<HaState>, timestamp: int, x: CollectionError)
    ensures x in Built(entities, states, timestamp).1 <==> Any(entities, (e: MonitoredEntities.EntityRow) => Missing(e, states, x))
    decreases |entities|
  {
    if entities != [] {
      var n := |entities| - 1;
      var init, last := entities[..n], entities[n];
      BuiltError(init, states, timestamp, x);
      AnySnoc(entities, (e: MonitoredEntities.EntityRow) => Missing(e, states, x));
      var prev := Built(init, states, timestamp).1;
      assert Built(entities, states, timestamp).1 ==
        if StateFor(states, last.entityId).None? then prev + [NotFound(last.entityId)] else prev;
    }
  }

  /** The errors are exactly the entities of the list without a state. */
  lemma BuiltErrors(entities: seq<MonitoredEntities.EntityRow>, states: seq<HaState>, timestamp: int)
    ensures forall x :: x in Built(entities, states, timestamp).1 <==>
      (exists i :: 0 <= i < |entities| && StateFor(states, entities[i].entityId).None? && x == NotFound(entities[i].entityId))
  {
    forall x ensures x in Built(entities, states, timestamp).1 <==> Any(entities, (e: MonitoredEntities.EntityRow) => Missing(e, states, x)) {
      BuiltError(entities, states, timestamp, x);
    }
  }

  /** One run shares one timestamp. */
  lemma {:induction false} BuiltShareTimestamp(entities: seq<MonitoredEntities.EntityRow>, states: seq<HaState>, timestamp: int)
    ensures forall s :: s in Built(entities, states, timestamp).0 ==> s.timestamp == timestamp
  {
    BuiltRecords(entities, states, timestamp);
  }

  /** `getMonitoredEntities().filter(e => e.priority !== 'ignore')`: a NULL
      priority is kept. */
  function ToCollect(rows: seq<MonitoredEntities.EntityRow>): (r: seq<MonitoredEntities.EntityRow>)
    ensures forall e :: e in r <==> e in rows && e.priority != Some("ignore")
  {
    Filter(MonitoredEntities.GetMonitoredEntities(rows, MonitoredEntities.NoFilters),
      (e: MonitoredEntities.EntityRow) => e.priority != Some("ignore"))
  }

  /** No record of a run is for an entity whose priority is `ignore`, as long
      as entity ids are unique. */
  lemma {:induction false} IgnoredNeverCollected(rows: seq<MonitoredEntities.EntityRow>, states: seq<HaState>,
                                                  timestamp: int, s: Snapshots.Snapshot, e: MonitoredEntities.EntityRow)
    requires MonitoredEntities.UniqueIds(rows)
    requires s in Built(ToCollect(rows), states, timestamp).0
    requires e in rows && e.entityId == s.entityId
    ensures e.priority != Some("ignore")
  {
    var list := ToCollect(rows);
    BuiltRecords(list, states, timestamp);
    var i :| 0 <= i < |list| && Collectable(list[i], states) && s == RecordFor(list[i], states, timestamp);
    assert list[i] in list;
    var a :| 0 <= a < |rows| && rows[a] == e;
    var b :| 0 <= b < |rows| && rows[b] == list[i];
    assert a == b;
  }

  /** What `collectSnapshots()` returns. */
  datatype CollectResult =
    | Skipped
    | NothingToCollect
    | Collected(collected: nat, errors: nat, duration: int)
    | Threw(message: string)

  /** What `getCollectorStatus()` returns, apart from the table statistics. */
  datatype CollectorStatus = CollectorStatus(isCollecting: bool, lastCollectionTime: Option<int>,
                                             recentErrors: seq<CollectionError>)

  const RecentErrorCount := 10

  /** `errors.slice(-10)` */
  function RecentErrors(errors: seq<CollectionError>): (r: seq<CollectionError>)
    ensures |r| <= RecentErrorCount
    ensures |errors| <= RecentErrorCount ==> r == errors
    ensures |errors| > RecentErrorCount ==> |r| == RecentErrorCount && errors == errors[..|errors| - RecentErrorCount] + r
  {
    if |errors| <= RecentErrorCount then errors
    else
      var r := errors[|errors| - RecentErrorCount..];
      assert errors == errors[..|errors| - RecentErrorCount] + r;
      r
  }

  class CollectorState {
    var isCollecting: bool
    var lastCollectionTime: Option<int>
    var errors: seq<CollectionError>

    constructor()
      ensures !isCollecting && lastCollectionTime == None && errors == []
    {
      isCollecting := false;
      lastCollectionTime := None;
      errors := [];
    }

    /** `getCollectorStatus()`: the flag, the last run's time and the last
        ten errors. */
    function GetCollectorStatus(): (s: CollectorStatus)
      reads this
      ensures s.isCollecting == isCollecting && s.lastCollectionTime == lastCollectionTime
      ensures s.recentErrors == RecentErrors(errors)
    {
      CollectorStatus(isCollecting, lastCollectionTime, RecentErrors(errors))
    }

    /** The loop of `collectSnapshots` over the entities to collect. */
    method BuildSnapshots(entities: seq<MonitoredEntities.EntityRow>, states: seq<HaState>, timestamp: int)
      returns (snapshots: seq<Snapshots.Snapshot>)
      modifies this
      ensures snapshots == Built(entities, states, timestamp).0
      ensures errors == old(errors) + Built(entities, states, timestamp).1
      ensures isCollecting == old(isCollecting) && lastCollectionTime == old(lastCollectionTime)
    {
      snapshots := [];
      ghost var before := errors;
      for i := 0 to |entities|
        invariant snapshots == Built(entities[..i], states, timestamp).0
        invariant errors == before + Built(entities[..i], states, timestamp).1
        invariant isCollecting == old(isCollecting) && lastCollectionTime == old(lastCollectionTime)
      {
        assert entities[..i + 1][..i] == entities[..i];
        var entity := entities[i];
        var state := StateFor(states, entity.entityId);
        if state.None? {
          errors := errors + [NotFound(entity.entityId)];
          continue;
        }
        if Unavailable(state.value) {
          continue;
        }
        var numValue := ParseFloat(state.value.state);
        var relevantAttrs := ExtractRelevantAttributes(entity.domain, state.value.attributes);
        var isNumeric := numValue.Finite?;
        snapshots := snapshots + [Snapshots.Snapshot(
          entity.entityId, timestamp,
          if isNumeric then "number" else "state",
          if isNumeric then Some(numValue.value) else None,
          if isNumeric then None else Some(state.value.state),
          if |relevantAttrs| > 0 then Some(JObj(relevantAttrs)) else None)];
      }
      assert entities[..|entities|] == entities;
    }

    /** `collectSnapshots()`, given the entity rows, the outcome of fetching
        the states, and the clock at the start, at the timestamp and at the
        end of the run. */
    method CollectSnapshots(rows: seq<MonitoredEntities.EntityRow>, fetch: Result<seq<HaState>, string>,
                            startTime: int, timestamp: int, endTime: int, table: Snapshots.SnapshotTable)
      returns (r: CollectResult)
      requires table.Valid()
      modifies this, table
      ensures table.Valid()
      // A run already in progress: nothing changes.
      ensures old(isCollecting) ==>
        && r == Skipped && isCollecting
        && errors == old(errors) && lastCollectionTime == old(lastCollectionTime)
        && table.rows == old(table.rows) && table.nextId == old(table.nextId)
      // Otherwise the flag is cleared on every exit.
      ensures !old(isCollecting) ==> !isCollecting
      ensures !old(isCollecting) && ToCollect(rows) == [] ==>
        && r == NothingToCollect && errors == [] && lastCollectionTime == old(lastCollectionTime)
        && table.rows == old(table.rows) && table.nextId == old(table.nextId)
      ensures !old(isCollecting) && ToCollect(rows) != [] && fetch.Err? ==>
        && r == Threw(fetch.error) && errors == [Failed(fetch.error)]
        && lastCollectionTime == old(lastCollectionTime)
        && table.rows == old(table.rows) && table.nextId == old(table.nextId)
      ensures !old(isCollecting) && ToCollect(rows) != [] && fetch.Ok? ==>
        var (snaps, errs) := Built(ToCollect(rows), fetch.value, timestamp);
        && r == Collected(|snaps|, |errs|, endTime - startTime) && errors == errs
        && lastCollectionTime == Some(endTime)
        && table.rows == old(table.rows) + Snapshots.BatchRows(old(table.nextId), snaps)
        && table.nextId == old(table.nextId) + |snaps|
    {
      if isCollecting {
        return Skipped;
      }
      isCollecting := true;
      errors := [];
      var monitored := ToCollect(rows);
      if monitored == [] {
        isCollecting := false;
        return NothingToCollect;
      }
      if fetch.Err? {
        errors := errors + [Failed(fetch.error)];
        isCollecting := false;
        return Threw(fetch.error);
      }
      var snapshots := BuildSnapshots(monitored, fetch.value, timestamp);
      if |snapshots| > 0 {
        table.AddSnapshots(snapshots);
      }
      lastCollectionTime := Some(endTime);
      r := Collected(|snapshots|, |errors|, endTime - startTime);
      isCollecting := false;
    }
  }
}
