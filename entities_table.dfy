/** The `monitored_entities` table, keyed by `entity_id`. The nullable text
    columns are `Option`s; rows are kept in row-id order, which is the order
    SQLite falls back on when `ORDER BY` leaves a tie. */
module MonitoredEntities {
  import opened Wrappers
  import opened Collections
  import opened Sorting

  datatype EntityRow = EntityRow(
    entityId: string,
    friendlyName: Option<string>,
    domain: Option<string>,
    category: Option<string>,
    priority: Option<string>,
    storageStrategy: Option<string>)

  /** `entity_id` is the primary key. */
  predicate UniqueIds(rows: seq<EntityRow>) {
    forall i, j :: 0 <= i < j < |rows| ==> rows[i].entityId != rows[j].entityId
  }

  /** The position of the row with that id, or -1. */
  function IndexOfId(rows: seq<EntityRow>, id: string): (k: int)
    ensures -1 <= k < |rows|
    ensures k >= 0 ==> rows[k].entityId == id
    ensures k < 0 ==> forall i :: 0 <= i < |rows| ==> rows[i].entityId != id
    decreases |rows|
  {
    if rows == [] then -1
    else if rows[|rows| - 1].entityId == id then |rows| - 1
    else IndexOfId(rows[..|rows| - 1], id)
  }

  /** `getMonitoredEntity(id)`: the row with that id, if any. */
  function RowFor(rows: seq<EntityRow>, id: string): (r: Option<EntityRow>)
    ensures r.Some? ==> r.value in rows && r.value.entityId == id
    ensures r.None? ==> forall i :: 0 <= i < |rows| ==> rows[i].entityId != id
  {
    var k := IndexOfId(rows, id);
    if k < 0 then None else Some(rows[k])
  }

  /** With distinct ids, the row found for an id is the one that has it. */
  lemma RowForUnique(rows: seq<EntityRow>, i: int)
    requires UniqueIds(rows) && 0 <= i < |rows|
    ensures RowFor(rows, rows[i].entityId) == Some(rows[i])
  {
  }

  /** `INSERT ... ON CONFLICT(entity_id) DO UPDATE`: a row with the same id is
      overwritten where it stands, otherwise the entity is appended. */
  function Upserted(rows: seq<EntityRow>, e: EntityRow): seq<EntityRow> {
    var k := IndexOfId(rows, e.entityId);
    if k < 0 then rows + [e] else rows[k := e]
  }

  /** After an upsert the id has the new row and every other id keeps its row. */
  lemma {:induction false} UpsertedRowFor(rows: seq<EntityRow>, e: EntityRow, id: string)
    requires UniqueIds(rows)
    ensures UniqueIds(Upserted(rows, e))
    ensures RowFor(Upserted(rows, e), id) == if id == e.entityId then Some(e) else RowFor(rows, id)
  {
    var r := Upserted(rows, e);
    var k := IndexOfId(rows, e.entityId);
    assert forall i :: 0 <= i < |r| ==> r[i] == (if i < |rows| && i != k then rows[i] else e);
    assert UniqueIds(r);
    var found := RowFor(rows, id);
    if id == e.entityId {
      var p := if k < 0 then |rows| else k;
      RowForUnique(r, p);
    } else if found.Some? {
      var i := IndexOfId(rows, id);
      RowForUnique(r, i);
    }
  }

  /** `setMonitoredEntities(entities)`: one upsert per entity, in order. */
  function UpsertAll(rows: seq<EntityRow>, batch: seq<EntityRow>): seq<EntityRow>
    decreases |batch|
  {
    if batch == [] then rows
    else Upserted(UpsertAll(rows, batch[..|batch| - 1]), batch[|batch| - 1])
  }

  /** The last entity of a batch with that id, if any. */
  function LastWith(batch: seq<EntityRow>, id: string): (r: Option<EntityRow>)
    ensures r.Some? ==> r.value in batch && r.value.entityId == id
    ensures r.None? ==> forall i :: 0 <= i < |batch| ==> batch[i].entityId != id
    decreases |batch|
  {
    if batch == [] then None
    else if batch[|batch| - 1].entityId == id then Some(batch[|batch| - 1])
    else LastWith(batch[..|batch| - 1], id)
  }

  /** A batch upsert: the last entry of the batch for an id wins, and an id
      the batch does not mention keeps its row. */
  lemma {:induction false} UpsertAllRowFor(rows: seq<EntityRow>, batch: seq<EntityRow>, id: string)
    requires UniqueIds(rows)
    ensures UniqueIds(UpsertAll(rows, batch))
    ensures RowFor(UpsertAll(rows, batch), id) == if LastWith(batch, id).Some? then LastWith(batch, id) else RowFor(rows, id)
    decreases |batch|
  {
    if batch != [] {
      var init := batch[..|batch| - 1];
      UpsertAllRowFor(rows, init, id);
      UpsertedRowFor(UpsertAll(rows, init), batch[|batch| - 1], id);
    }
  }

  /** `UPDATE ... SET priority = ? WHERE entity_id = ?` */
  function WithPriority(rows: seq<EntityRow>, id: string, priority: string): (r: seq<EntityRow>)
    ensures |r| == |rows|
  {
    seq(|rows|, i requires 0 <= i < |rows| =>
      if rows[i].entityId == id then rows[i].(priority := Some(priority)) else rows[i])
  }

  /** A priority update changes that entity's priority and nothing else; for
      an unknown id it changes nothing. */
  lemma {:induction false} PriorityUpdateOnly(rows: seq<EntityRow>, id: string, priority: string, other: string)
    requires UniqueIds(rows)
    ensures UniqueIds(WithPriority(rows, id, priority))
    ensures RowFor(WithPriority(rows, id, priority), id) ==
      if RowFor(rows, id).Some? then Some(RowFor(rows, id).value.(priority := Some(priority))) else None
    ensures other != id ==> RowFor(WithPriority(rows, id, priority), other) == RowFor(rows, other)
    ensures RowFor(rows, id).None? ==> WithPriority(rows, id, priority) == rows
  {
    var r := WithPriority(rows, id, priority);
    assert forall i :: 0 <= i < |r| ==> r[i].entityId == rows[i].entityId;
    if RowFor(rows, id).Some? {
      RowForUnique(r, IndexOfId(rows, id));
    }
    if RowFor(rows, other).Some? && other != id {
      RowForUnique(r, IndexOfId(rows, other));
    }
  }

  /** `DELETE ... WHERE entity_id = ?` */
  function Removed(rows: seq<EntityRow>, id: string): seq<EntityRow> {
    Filter(rows, (e: EntityRow) => e.entityId != id)
  }

  /** Removing an entity deletes only its row. */
  lemma {:induction false} RemovedOnly(rows: seq<EntityRow>, id: string, other: string)
    requires UniqueIds(rows)
    ensures UniqueIds(Removed(rows, id))
    ensures RowFor(Removed(rows, id), id).None?
    ensures other != id ==> RowFor(Removed(rows, id), other) == RowFor(rows, other)
  {
    var r := Removed(rows, id);
    forall i, j | 0 <= i < j < |r| ensures r[i].entityId != r[j].entityId {
      FilterOrder(rows, (e: EntityRow) => e.entityId != id, i, j);
    }
    assert forall i :: 0 <= i < |r| ==> r[i] in r;
    if other != id {
      var found := RowFor(rows, other);
      if found.Some? {
        assert found.value in r;
        var i :| 0 <= i < |r| && r[i] == found.value;
        RowForUnique(r, i);
      }
    }
  }

  /** The filters of `getMonitoredEntities`; a filter applies when it is a
      non-empty string. */
  datatype Filters = Filters(category: Option<string>, priority: Option<string>, domain: Option<string>)

  const NoFilters := Filters(None, None, None)

  predicate Active(f: Option<string>) {
    f.Some? && f.value != ""
  }

  /** The `WHERE` clause: every active filter, joined by `AND`. */
  predicate Matches(f: Filters, e: EntityRow) {
    && (Active(f.category) ==> e.category == f.category)
    && (Active(f.priority) ==> e.priority == f.priority)
    && (Active(f.domain) ==> e.domain == f.domain)
  }

  /** `ORDER BY category, friendly_name` */
  predicate EntityLe(a: EntityRow, b: EntityRow) {
    OptPairLe((a.category, a.friendlyName), (b.category, b.friendlyName))
  }

  lemma EntityLeIsPreorder()
    ensures TotalPreorder(EntityLe)
  {
    forall a: EntityRow, b: EntityRow ensures EntityLe(a, b) || EntityLe(b, a) {
      OptPairLeTotal((a.category, a.friendlyName), (b.category, b.friendlyName));
    }
    forall a: EntityRow, b: EntityRow, c: EntityRow | EntityLe(a, b) && EntityLe(b, c) ensures EntityLe(a, c) {
      OptPairLeTrans((a.category, a.friendlyName), (b.category, b.friendlyName), (c.category, c.friendlyName));
    }
  }

  /** `getMonitoredEntities(filters)`: the rows that pass every active
      filter, each once, ordered by category and then name. */
  function GetMonitoredEntities(rows: seq<EntityRow>, f: Filters): (r: seq<EntityRow>)
    ensures multiset(r) == multiset(Filter(rows, (e: EntityRow) => Matches(f, e)))
    ensures forall e :: e in r <==> e in rows && Matches(f, e)
    ensures SortedBy(r, EntityLe)
  {
    EntityLeIsPreorder();
    var kept := Filter(rows, (e: EntityRow) => Matches(f, e));
    var r := SortBy(kept, EntityLe);
    assert forall e :: e in r <==> e in kept by {
      forall e ensures e in r <==> e in kept {
        assert e in r <==> e in multiset(r);
        assert e in kept <==> e in multiset(kept);
      }
    }
    r
  }

  /** With no filter supplied every row is returned. */
  lemma {:induction false} NoFiltersKeepAll(rows: seq<EntityRow>)
    ensures multiset(GetMonitoredEntities(rows, NoFilters)) == multiset(rows)
  {
    FilterAll(rows, (e: EntityRow) => Matches(NoFilters, e));
  }

  predicate IsMonitored(e: EntityRow) {
    e.priority.Some? && e.priority.value != "ignore"
  }

  predicate IsIgnored(e: EntityRow) {
    e.priority == Some("ignore")
  }

  datatype TotalCounts = TotalCounts(total: nat, monitored: nat, ignored: nat)

  /** `getTotalCounts()`: all rows; those whose priority is not `ignore` (SQL
      `!=` is not true of NULL); those whose priority is `ignore`. */
  function GetTotalCounts(rows: seq<EntityRow>): (c: TotalCounts)
    ensures c.total == |rows|
    ensures c.monitored <= c.total && c.ignored <= c.total
    ensures rows == [] ==> c == TotalCounts(0, 0, 0)
  {
    TotalCounts(|rows|, |Filter(rows, IsMonitored)|, |Filter(rows, IsIgnored)|)
  }

  /** When every row has a priority, each row is either monitored or
      ignored. */
  lemma {:induction false} TotalsAddUp(rows: seq<EntityRow>)
    requires forall i :: 0 <= i < |rows| ==> rows[i].priority.Some?
    ensures GetTotalCounts(rows).total == GetTotalCounts(rows).monitored + GetTotalCounts(rows).ignored
  {
    FilterComplement(rows, IsMonitored, IsIgnored);
  }

  datatype CategoryStat = CategoryStat(
    category: Option<string>, count: nat,
    criticalCount: nat, normalCount: nat, lowCount: nat, ignoredCount: nat)

  function PriorityCount(rows: seq<EntityRow>, c: Option<string>, p: string): nat {
    |Filter(rows, (e: EntityRow) => e.category == c && e.priority == Some(p))|
  }

  /** One group of `GROUP BY category`. */
  function StatFor(rows: seq<EntityRow>, c: Option<string>): CategoryStat {
    CategoryStat(c, |Filter(rows, (e: EntityRow) => e.category == c)|,
      PriorityCount(rows, c, "critical"), PriorityCount(rows, c, "normal"),
      PriorityCount(rows, c, "low"), PriorityCount(rows, c, "ignore"))
  }

  function CategoriesOf(rows: seq<EntityRow>): (r: seq<Option<string>>)
    ensures |r| == |rows|
    ensures forall i :: 0 <= i < |rows| ==> r[i] == rows[i].category
  {
    seq(|rows|, i requires 0 <= i < |rows| => rows[i].category)
  }

  lemma OptStrLeIsPreorder()
    ensures TotalPreorder(OptStrLe)
  {
    forall a: Option<string>, b: Option<string> ensures OptStrLe(a, b) || OptStrLe(b, a) {
      OptStrLeTotal(a, b);
    }
    forall a: Option<string>, b: Option<string>, c: Option<string> | OptStrLe(a, b) && OptStrLe(b, c)
      ensures OptStrLe(a, c)
    {
      OptStrLeTrans(a, b, c);
    }
  }

  /** The distinct categories, in category order. */
  function StatCategories(rows: seq<EntityRow>): (cats: seq<Option<string>>)
    ensures NoDup(cats)
    ensures SortedBy(cats, OptStrLe)
    ensures forall c :: c in cats <==> c in CategoriesOf(rows)
  {
    OptStrLeIsPreorder();
    var distinct := Dedup(CategoriesOf(rows));
    var cats := SortBy(distinct, OptStrLe);
    forall i, j | 0 <= i < j < |cats| ensures cats[i] != cats[j] {
      SortedNoDup(distinct, cats, i, j);
    }
    assert forall c :: c in cats <==> c in distinct by {
      forall c ensures c in cats <==> c in distinct {
        assert c in cats <==> c in multiset(cats);
        assert c in distinct <==> c in multiset(distinct);
      }
    }
    cats
  }

  /** `getEntityStats()`: one entry per distinct category, in category order,
      with the number of rows in it and in each priority bucket. */
  function GetEntityStats(rows: seq<EntityRow>): (r: seq<CategoryStat>)
    ensures |r| == |StatCategories(rows)|
    ensures forall i :: 0 <= i < |r| ==> r[i] == StatFor(rows, StatCategories(rows)[i])
    ensures forall i :: 0 <= i < |r| ==> r[i] == StatFor(rows, r[i].category)
    ensures forall i, j :: 0 <= i < j < |r| ==> r[i].category != r[j].category && OptStrLe(r[i].category, r[j].category)
  {
    var cats := StatCategories(rows);
    seq(|cats|, j requires 0 <= j < |cats| => StatFor(rows, cats[j]))
  }

  /** Every category that occurs in the table has an entry, and only those. */
  lemma {:induction false} StatsCoverCategories(rows: seq<EntityRow>, c: Option<string>)
    ensures c in CategoriesOf(rows) <==> exists j :: 0 <= j < |GetEntityStats(rows)| && GetEntityStats(rows)[j].category == c
  {
    var cats := StatCategories(rows);
    var r := GetEntityStats(rows);
    if c in cats {
      var j :| 0 <= j < |cats| && cats[j] == c;
      assert r[j].category == c;
    }
  }

  /** A permutation of a list without repeats has none either. */
  lemma SortedNoDup(distinct: seq<Option<string>>, cats: seq<Option<string>>, i: int, j: int)
    requires NoDup(distinct) && multiset(cats) == multiset(distinct)
    requires 0 <= i < j < |cats|
    ensures cats[i] != cats[j]
  {
    if cats[i] == cats[j] {
      var c := cats[i];
      assert multiset(cats)[c] >= 2 by {
        assert cats == cats[..i] + [c] + cats[i + 1..j] + [c] + cats[j + 1..];
      }
      MultiplicityOfNoDup(distinct, c);
      assert false;
    }
  }

  lemma {:induction false} MultiplicityOfNoDup(s: seq<Option<string>>, c: Option<string>)
    requires NoDup(s)
    ensures multiset(s)[c] <= 1
    decreases |s|
  {
    if s != [] {
      var init := s[..|s| - 1];
      assert NoDup(init);
      MultiplicityOfNoDup(init, c);
      assert s == init + [s[|s| - 1]];
      if s[|s| - 1] == c {
        assert c !in init;
      }
    }
  }

  /** Within a category the four priority buckets never count more than the
      category has, and they count all of it when every priority is one of
      the four values. */
  lemma {:induction false} BucketsWithinCount(rows: seq<EntityRow>, c: Option<string>)
    ensures var s := StatFor(rows, c);
      s.criticalCount + s.normalCount + s.lowCount + s.ignoredCount <= s.count
    ensures (forall i :: 0 <= i < |rows| ==> rows[i].priority in {Some("critical"), Some("normal"), Some("low"), Some("ignore")})
      ==> var s := StatFor(rows, c); s.criticalCount + s.normalCount + s.lowCount + s.ignoredCount == s.count
    decreases |rows|
  {
    if rows != [] {
      BucketsWithinCount(rows[..|rows| - 1], c);
    }
  }

  class EntityTable {
    var rows: seq<EntityRow>

    ghost predicate Valid()
      reads this
    {
      UniqueIds(rows)
    }

    constructor()
      ensures Valid() && rows == []
    {
      rows := [];
    }

    /** `setMonitoredEntity(entity)` */
    method SetMonitoredEntity(entity: EntityRow)
      requires Valid()
      modifies this
      ensures Valid()
      ensures rows == Upserted(old(rows), entity)
    {
      UpsertedRowFor(rows, entity, entity.entityId);
      rows := Upserted(rows, entity);
    }

    /** `setMonitoredEntities(entities)` */
    method SetMonitoredEntities(entities: seq<EntityRow>)
      requires Valid()
      modifies this
      ensures Valid()
      ensures rows == UpsertAll(old(rows), entities)
    {
      var i := 0;
      while i < |entities|
        invariant 0 <= i <= |entities|
        invariant Valid()
        invariant rows == UpsertAll(old(rows), entities[..i])
      {
        UpsertedRowFor(rows, entities[i], entities[i].entityId);
        rows := Upserted(rows, entities[i]);
        assert entities[..i + 1][..i] == entities[..i];
        i := i + 1;
      }
      assert entities[..i] == entities;
    }

    /** `updateEntityPriority(entityId, priority)` */
    method UpdateEntityPriority(entityId: string, priority: string)
      requires Valid()
      modifies this
      ensures Valid()
      ensures rows == WithPriority(old(rows), entityId, priority)
    {
      PriorityUpdateOnly(rows, entityId, priority, entityId);
      rows := WithPriority(rows, entityId, priority);
    }

    /** `removeMonitoredEntity(entityId)` */
    method RemoveMonitoredEntity(entityId: string)
      requires Valid()
      modifies this
      ensures Valid()
      ensures rows == Removed(old(rows), entityId)
    {
      RemovedOnly(rows, entityId, entityId);
      rows := Removed(rows, entityId);
    }

    /** `clearMonitoredEntities()` */
    method ClearMonitoredEntities()
      modifies this
      ensures Valid()
      ensures rows == []
    {
      rows := [];
    }
  }
}
