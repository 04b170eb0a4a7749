/** The entity routes: discovery of the Home Assistant entities worth
    monitoring (internal and privacy-sensitive domains and unavailable
    entities left out), their grouping by category, the one-click
    auto-configuration that replaces the monitored set, the save route and
    the priority update with its validation. The state fetch is a parameter
    (its outcome); a thrown error becomes a 500 reply. */
module Discovery {
  import opened Wrappers
  import opened Strings
  import opened Json
  import opened Collections
  import opened HomeAssistant
  import MonitoredEntities

  const ExcludedDomains: seq<string> := [
    "zone", "automation", "script", "scene", "group",
    "input_boolean", "input_number", "input_text", "input_select", "input_datetime",
    "input_button", "timer", "counter", "schedule",
    "persistent_notification", "conversation", "tts", "stt",
    "update", "button", "number", "select", "text", "datetime"]

  const PrivacyExcludedDomains: seq<string> := ["person", "device_tracker"]

  /** The discovery filter. */
  predicate Discoverable(e: HaState) {
    var d := Domain(e.entityId);
    d !in ExcludedDomains && d !in PrivacyExcludedDomains && e.state != "unavailable"
  }

  /** An entity as discovery describes it. */
  datatype Discovered = Discovered(
    entityId: string, friendlyName: string, domain: string, category: string,
    priority: string, storageStrategy: string, state: string, attributes: seq<(string, Json)>)

  /** `entity.attributes?.friendly_name || entity.entity_id` */
  function FriendlyName(e: HaState): (name: string)
    ensures name == e.entityId || StringAttr(e.attributes, "friendly_name") == Some(name)
    ensures name == "" ==> e.entityId == ""
    ensures StringAttr(e.attributes, "friendly_name").Some? && StringAttr(e.attributes, "friendly_name").value != "" ==>
      name == StringAttr(e.attributes, "friendly_name").value
  {
    var n := StringAttr(e.attributes, "friendly_name");
    if n.Some? && n.value != "" then n.value else e.entityId
  }

  function Describe(e: HaState): (x: Discovered)
    ensures x.entityId == e.entityId && x.domain == Domain(e.entityId)
    ensures x.category in Categories && x.priority in Priorities
  {
    var category := CategorizeEntity(e);
    Discovered(e.entityId, FriendlyName(e), Domain(e.entityId), category,
      DeterminePriority(e, category), StorageStrategy(e), e.state, e.attributes)
  }

  /** `states.filter(...).map(...)` */
  function Discover(states: seq<HaState>): seq<Discovered> {
    Map(Filter(states, Discoverable), Describe)
  }

  /** Discovery describes exactly the states that pass the filter. */
  lemma DiscoverExactly(states: seq<HaState>, x: Discovered)
    ensures x in Discover(states) <==> exists e :: e in states && Discoverable(e) && x == Describe(e)
  {
    FilterMapMember(states, Discoverable, Describe, x);
  }

  /** No excluded domain and no unavailable entity is ever discovered. */
  lemma {:induction false} ExcludedNeverDiscovered(states: seq<HaState>, x: Discovered)
    requires x in Discover(states)
    ensures x.domain !in ExcludedDomains && x.domain !in PrivacyExcludedDomains && x.state != "unavailable"
  {
    DiscoverExactly(states, x);
  }

  /** The `byCategory` object the grouping loop builds. */
  function Grouped(entities: seq<Discovered>): map<string, seq<Discovered>>
    decreases |entities|
  {
    if entities == [] then map[]
    else
      var g := Grouped(entities[..|entities| - 1]);
      var last := entities[|entities| - 1];
      var c := last.category;
      g[c := (if c in g then g[c] else []) + [last]]
  }

  predicate InCategory(c: string, x: Discovered) {
    x.category == c
  }

  /** A category has a list exactly when some entity is in it, and its list
      holds exactly the entities of that category, in their order. */
  lemma {:induction false} GroupedIsFilter(entities: seq<Discovered>, c: string)
    ensures c in Grouped(entities) <==> exists i :: 0 <= i < |entities| && entities[i].category == c
    ensures c in Grouped(entities) ==> Grouped(entities)[c] == Filter(entities, x => InCategory(c, x))
    decreases |entities|
  {
    if entities != [] {
      var init := entities[..|entities| - 1];
      GroupedIsFilter(init, c);
      assert forall i :: 0 <= i < |init| ==> init[i] == entities[i];
      var last := entities[|entities| - 1];
      if c !in Grouped(init) && last.category == c {
        FilterNone(init, x => InCategory(c, x));
      }
    }
  }

  /** The grouping loop of `/discover`. */
  method GroupByCategory(entities: seq<Discovered>) returns (byCategory: map<string, seq<Discovered>>)
    ensures byCategory == Grouped(entities)
  {
    byCategory := map[];
    for i := 0 to |entities|
      invariant byCategory == Grouped(entities[..i])
    {
      assert entities[..i + 1][..i] == entities[..i];
      var entity := entities[i];
      if entity.category !in byCategory {
        byCategory := byCategory[entity.category := []];
      }
      byCategory := byCategory[entity.category := byCategory[entity.category] + [entity]];
    }
    assert entities[..|entities|] == entities;
  }

  /** A reply: the body of a success, or an error status and message. */
  datatype Reply<T> = Done(body: T) | ErrorReply(status: nat, error: string)

  datatype DiscoverBody = DiscoverBody(total: nat, byCategory: map<string, seq<Discovered>>, entities: seq<Discovered>)

  /** `GET /api/entities/discover` */
  method DiscoverRoute(fetch: Result<seq<HaState>, string>) returns (r: Reply<DiscoverBody>)
    ensures fetch.Err? ==> r == ErrorReply(500, fetch.error)
    ensures fetch.Ok? ==>
      && r.Done?
      && r.body.entities == Discover(fetch.value)
      && r.body.total == |r.body.entities|
      && r.body.byCategory == Grouped(r.body.entities)
  {
    if fetch.Err? {
      return ErrorReply(500, fetch.error);
    }
    var entities := Discover(fetch.value);
    var byCategory := GroupByCategory(entities);
    r := Done(DiscoverBody(|entities|, byCategory, entities));
  }

  /** The row auto-configuration saves for a discovered entity. */
  function RowOf(x: Discovered): MonitoredEntities.EntityRow {
    MonitoredEntities.EntityRow(x.entityId, Some(x.friendlyName), Some(x.domain), Some(x.category),
      Some(x.priority), Some(x.storageStrategy))
  }

  datatype SaveBody = SaveBody(saved: nat, monitored: nat)

  /** `POST /api/entities/auto-configure`: the monitored set is replaced by
      the discovered entities. */
  method AutoConfigure(fetch: Result<seq<HaState>, string>, table: MonitoredEntities.EntityTable)
    returns (r: Reply<SaveBody>)
    requires table.Valid()
    modifies table
    ensures table.Valid()
    ensures fetch.Err? ==> r == ErrorReply(500, fetch.error) && table.rows == old(table.rows)
    ensures fetch.Ok? ==>
      && table.rows == MonitoredEntities.UpsertAll([], Map(Discover(fetch.value), RowOf))
      && r == Done(SaveBody(|Discover(fetch.value)|, MonitoredEntities.GetTotalCounts(table.rows).monitored))
  {
    if fetch.Err? {
      return ErrorReply(500, fetch.error);
    }
    var entities := Discover(fetch.value);
    table.ClearMonitoredEntities();
    table.SetMonitoredEntities(Map(entities, RowOf));
    var stats := MonitoredEntities.GetTotalCounts(table.rows);
    r := Done(SaveBody(|entities|, stats.monitored));
  }

  /** After auto-configuration every discovered entity has its row, and no
      other entity has one. */
  lemma {:induction false} AutoConfiguredRows(states: seq<HaState>, id: string)
    ensures MonitoredEntities.RowFor(MonitoredEntities.UpsertAll([], Map(Discover(states), RowOf)), id).Some?
      <==> exists e :: e in states && Discoverable(e) && e.entityId == id
  {
    var discovered := Discover(states);
    SavedRows(discovered, id);
    if exists i :: 0 <= i < |discovered| && discovered[i].entityId == id {
      var i :| 0 <= i < |discovered| && discovered[i].entityId == id;
      assert discovered[i] in discovered;
      DiscoverExactly(states, discovered[i]);
    }
    if exists e :: e in states && Discoverable(e) && e.entityId == id {
      var e :| e in states && Discoverable(e) && e.entityId == id;
      DiscoverExactly(states, Describe(e));
      var i :| 0 <= i < |discovered| && discovered[i] == Describe(e);
      assert discovered[i].entityId == id;
    }
  }

  /** Saving the rows of a list of entities gives a row to exactly the ids
      in the list. */
  lemma SavedRows(xs: seq<Discovered>, id: string)
    ensures MonitoredEntities.RowFor(MonitoredEntities.UpsertAll([], Map(xs, RowOf)), id).Some?
      <==> exists i :: 0 <= i < |xs| && xs[i].entityId == id
  {
    var batch := Map(xs, RowOf);
    MonitoredEntities.UpsertAllRowFor([], batch, id);
    var last := MonitoredEntities.LastWith(batch, id);
    if last.Some? {
      var i :| 0 <= i < |batch| && batch[i] == last.value;
      assert xs[i].entityId == id;
    }
  }

  /** `POST /api/entities/save`: the body's `entities` must be an array
      (`None` stands for anything else); the monitored set is replaced. */
  method SaveEntities(entities: Option<seq<MonitoredEntities.EntityRow>>, table: MonitoredEntities.EntityTable)
    returns (r: Reply<SaveBody>)
    requires table.Valid()
    modifies table
    ensures table.Valid()
    ensures entities.None? ==> r == ErrorReply(400, "entities must be an array") && table.rows == old(table.rows)
    ensures entities.Some? ==>
      && table.rows == MonitoredEntities.UpsertAll([], entities.value)
      && r == Done(SaveBody(|entities.value|, MonitoredEntities.GetTotalCounts(table.rows).monitored))
  {
    if entities.None? {
      return ErrorReply(400, "entities must be an array");
    }
    table.ClearMonitoredEntities();
    table.SetMonitoredEntities(entities.value);
    var stats := MonitoredEntities.GetTotalCounts(table.rows);
    r := Done(SaveBody(|entities.value|, stats.monitored));
  }

  const ValidPriorities: seq<string> := ["critical", "normal", "low", "ignore"]

  const InvalidPriorityMessage := "Invalid priority. Must be one of: " + Join(ValidPriorities, ", ")

  /** `PATCH /api/entities/:entityId/priority`: only the four priorities are
      accepted; anything else (`None` for a missing or non-string value) is
      refused and changes nothing. */
  method UpdatePriority(entityId: string, priority: Option<string>, table: MonitoredEntities.EntityTable)
    returns (r: Reply<()>)
    requires table.Valid()
    modifies table
    ensures table.Valid()
    ensures r.Done? <==> priority.Some? && priority.value in ValidPriorities
    ensures r.Done? ==> table.rows == MonitoredEntities.WithPriority(old(table.rows), entityId, priority.value)
    ensures !r.Done? ==> r == ErrorReply(400, InvalidPriorityMessage) && table.rows == old(table.rows)
  {
    if priority.None? || priority.value !in ValidPriorities {
      return ErrorReply(400, InvalidPriorityMessage);
    }
    table.UpdateEntityPriority(entityId, priority.value);
    r := Done(());
  }
}
