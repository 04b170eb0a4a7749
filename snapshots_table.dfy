/** The `snapshots` table: one row per recorded entity state. Timestamps
    are instants in milliseconds (the stored ISO-8601 texts compare in the
    same order); `value_num` is a nullable real, `value_str` and
    `attributes` nullable texts. */
module Snapshots {
  import opened Wrappers
  import opened Collections
  import opened Sorting
  import opened Json
  import MonitoredEntities

  datatype SnapshotRow = SnapshotRow(
    id: nat,
    entityId: string,
    timestamp: int,
    valueType: string,
    valueNum: Option<real>,
    valueStr: Option<string>,
    attributes: Option<string>)

  /** A record handed to `addSnapshots`, as the collector builds it. */
  datatype Snapshot = Snapshot(
    entityId: string,
    timestamp: int,
    valueType: string,
    valueNum: Option<real>,
    valueStr: Option<string>,
    attributes: Option<Json>)

  /** Row ids grow with insertion and stay below the next id. */
  predicate IdsIncreasing(rows: seq<SnapshotRow>, nextId: nat) {
    && (forall i, j :: 0 <= i < j < |rows| ==> rows[i].id < rows[j].id)
    && (forall i :: 0 <= i < |rows| ==> rows[i].id < nextId)
  }

  /** `attributes ? JSON.stringify(attributes) : null` */
  function StoredAttributes(attributes: Option<Json>): (r: Option<string>)
    ensures r.Some? <==> attributes.Some? && Truthy(attributes.value)
  {
    if attributes.Some? && Truthy(attributes.value) then Some(Serialize(attributes.value)) else None
  }

  /** `x || null` for a nullable number. */
  function NumOrNull(x: Option<real>): (r: Option<real>)
    ensures r.Some? <==> x.Some? && x.value != 0.0
    ensures r.Some? ==> r == x
  {
    if x.Some? && x.value != 0.0 then x else None
  }

  /** `x || null` for a nullable text. */
  function StrOrNull(x: Option<string>): (r: Option<string>)
    ensures r.Some? <==> x.Some? && x.value != ""
    ensures r.Some? ==> r == x
  {
    if x.Some? && x.value != "" then x else None
  }

  /** The row `addSnapshots` writes for a record, as the code is written: the
      number goes through `|| null`, so a reading of 0 is stored as NULL. */
  function RowOfAsWritten(id: nat, s: Snapshot): (r: SnapshotRow)
    ensures r.valueNum == NumOrNull(s.valueNum)
    ensures r.valueStr == StrOrNull(s.valueStr)
    ensures r.id == id && r.entityId == s.entityId && r.timestamp == s.timestamp && r.valueType == s.valueType
  {
    SnapshotRow(id, s.entityId, s.timestamp, s.valueType, NumOrNull(s.valueNum), StrOrNull(s.valueStr),
      StoredAttributes(s.attributes))
  }

  /** A numeric reading of 0 loses its value in the row written as above. */
  lemma ZeroReadingDropped(id: nat, entityId: string, timestamp: int)
    ensures var s := Snapshot(entityId, timestamp, "number", Some(0.0), None, None);
      RowOfAsWritten(id, s).valueType == "number" && RowOfAsWritten(id, s).valueNum.None?
      && RowOfAsWritten(id, s).valueStr.None?
  {
  }

  /** The row `addSnapshots` evidently means to write: the number as given
      (as `addSnapshot` stores it), the empty text as NULL. */
  function RowOf(id: nat, s: Snapshot): (r: SnapshotRow)
    ensures r.valueNum == s.valueNum
    ensures r.valueStr == StrOrNull(s.valueStr)
    ensures r.id == id && r.entityId == s.entityId && r.timestamp == s.timestamp && r.valueType == s.valueType
  {
    SnapshotRow(id, s.entityId, s.timestamp, s.valueType, s.valueNum, StrOrNull(s.valueStr),
      StoredAttributes(s.attributes))
  }

  /** Every reading, 0 included, survives into its row. */
  lemma {:induction false} ReadingKept(id: nat, s: Snapshot)
    requires s.valueNum.Some?
    ensures RowOf(id, s).valueNum == Some(s.valueNum.value)
  {
  }

  /** The row as written and the row as intended differ exactly for a
      numeric reading of 0. */
  lemma AsWrittenDiffersOnlyAtZero(id: nat, s: Snapshot)
    ensures RowOfAsWritten(id, s) != RowOf(id, s) <==> s.valueNum == Some(0.0)
  {
    if s.valueNum == Some(0.0) {
      assert RowOfAsWritten(id, s).valueNum != RowOf(id, s).valueNum;
    }
  }

  /** The rows `addSnapshots` appends for a batch, with consecutive ids,
      each written as the code writes it (`RowOfAsWritten`). */
  function BatchRows(firstId: nat, batch: seq<Snapshot>): (r: seq<SnapshotRow>)
    ensures |r| == |batch|
    ensures forall i :: 0 <= i < |batch| ==> r[i] == RowOfAsWritten(firstId + i, batch[i])
    decreases |batch|
  {
    if batch == [] then []
    else BatchRows(firstId, batch[..|batch| - 1]) + [RowOfAsWritten(firstId + |batch| - 1, batch[|batch| - 1])]
  }

  predicate EntityInRange(r: SnapshotRow, entityId: string, startTime: int, endTime: int) {
    r.entityId == entityId && startTime <= r.timestamp <= endTime
  }

  predicate NewerOrSame(a: SnapshotRow, b: SnapshotRow) {
    a.timestamp >= b.timestamp
  }

  lemma NewerOrSameIsPreorder()
    ensures TotalPreorder(NewerOrSame)
  {
  }

  const DefaultLimit := 1000

  /** `getSnapshots(entityId, startTime, endTime, limit)`: that entity's rows
      in the inclusive range, newest first, at most `limit` of them, each
      matching row at most as often as it is stored; no row left out is
      newer than a row returned. */
  function GetSnapshots(rows: seq<SnapshotRow>, entityId: string, startTime: int, endTime: int, limit: int)
    : (r: seq<SnapshotRow>)
    ensures forall x :: x in r ==> x in rows && EntityInRange(x, entityId, startTime, endTime)
    ensures SortedBy(r, NewerOrSame)
    ensures limit >= 0 ==> |r| <= limit
    ensures var n := |Filter(rows, (x: SnapshotRow) => EntityInRange(x, entityId, startTime, endTime))|;
      |r| == if 0 <= limit < n then limit else n
    ensures forall x, y :: (x in rows && EntityInRange(x, entityId, startTime, endTime) && x !in r && y in r)
                           ==> y.timestamp >= x.timestamp
    ensures multiset(r) <= multiset(Filter(rows, (x: SnapshotRow) => EntityInRange(x, entityId, startTime, endTime)))
  {
    NewerOrSameIsPreorder();
    var matching := Filter(rows, (x: SnapshotRow) => EntityInRange(x, entityId, startTime, endTime));
    var sorted := SortBy(matching, NewerOrSame);
    var r := Limit(sorted, limit);
    TopOfSorted(matching, sorted, r, limit);
    r
  }

  /** Without a limit that cuts, the query returns every matching row, as
      often as it is stored: a reordering of the matches. */
  lemma GetSnapshotsUncut(rows: seq<SnapshotRow>, entityId: string, startTime: int, endTime: int, limit: int)
    requires limit < 0 || limit >= |Filter(rows, (x: SnapshotRow) => EntityInRange(x, entityId, startTime, endTime))|
    ensures multiset(GetSnapshots(rows, entityId, startTime, endTime, limit))
         == multiset(Filter(rows, (x: SnapshotRow) => EntityInRange(x, entityId, startTime, endTime)))
  {
    var a := multiset(GetSnapshots(rows, entityId, startTime, endTime, limit));
    var b := multiset(Filter(rows, (x: SnapshotRow) => EntityInRange(x, entityId, startTime, endTime)));
    assert |b - a| == |b| - |a| == 0;
    assert b - a == multiset{};
  }

  /** The first `limit` rows of a list sorted newest first are rows of the
      list, at least as new as every row left out. */
  lemma TopOfSorted(matching: seq<SnapshotRow>, sorted: seq<SnapshotRow>, r: seq<SnapshotRow>, limit: int)
    requires SortedBy(sorted, NewerOrSame) && multiset(sorted) == multiset(matching)
    requires r == Limit(sorted, limit)
    ensures forall x :: x in r ==> x in matching
    ensures SortedBy(r, NewerOrSame)
    ensures |r| == if 0 <= limit < |matching| then limit else |matching|
    ensures forall x, y :: x in matching && x !in r && y in r ==> y.timestamp >= x.timestamp
    ensures multiset(r) <= multiset(matching)
  {
    assert sorted == r + sorted[|r|..];
    assert multiset(sorted) == multiset(r) + multiset(sorted[|r|..]);
    assert |sorted| == |matching| by {
      assert |multiset(sorted)| == |multiset(matching)|;
    }
    assert forall x :: x in sorted <==> x in matching by {
      forall x ensures x in sorted <==> x in matching {
        assert x in sorted <==> x in multiset(sorted);
        assert x in matching <==> x in multiset(matching);
      }
    }
    forall x, y | x in sorted && x !in r && y in r ensures y.timestamp >= x.timestamp {
      var m :| 0 <= m < |sorted| && sorted[m] == x;
      var j :| 0 <= j < |r| && r[j] == y;
      assert forall k :: 0 <= k < |r| ==> r[k] == sorted[k];
    }
  }

  /** The newest timestamp among an entity's rows, if it has any. */
  function MaxTimestamp(rows: seq<SnapshotRow>, entityId: string): (m: Option<int>)
    ensures m.None? <==> forall i :: 0 <= i < |rows| ==> rows[i].entityId != entityId
    ensures m.Some? ==> (exists i :: 0 <= i < |rows| && rows[i].entityId == entityId && rows[i].timestamp == m.value)
    ensures m.Some? ==> forall i :: 0 <= i < |rows| && rows[i].entityId == entityId ==> rows[i].timestamp <= m.value
    decreases |rows|
  {
    if rows == [] then None
    else
      var init, last := rows[..|rows| - 1], rows[|rows| - 1];
      var m := MaxTimestamp(init, entityId);
      assert forall i :: 0 <= i < |init| ==> init[i] == rows[i];
      if last.entityId != entityId then m
      else if m.Some? && m.value >= last.timestamp then m
      else Some(last.timestamp)
  }

  predicate IsLatest(rows: seq<SnapshotRow>, r: SnapshotRow) {
    MaxTimestamp(rows, r.entityId) == Some(r.timestamp)
  }

  /** A row is the latest of its entity exactly when none of the entity's
      rows is newer. */
  lemma LatestIff(rows: seq<SnapshotRow>, x: SnapshotRow)
    requires x in rows
    ensures IsLatest(rows, x) <==>
      forall i :: 0 <= i < |rows| && rows[i].entityId == x.entityId ==> rows[i].timestamp <= x.timestamp
  {
    var k :| 0 <= k < |rows| && rows[k] == x;
    assert MaxTimestamp(rows, x.entityId).Some?;
  }

  /** `getLatestSnapshots()`: for each entity, exactly its rows with that
      entity's greatest timestamp (all of them when several share it), each
      as often as it is stored. */
  function GetLatestSnapshots(rows: seq<SnapshotRow>): (r: seq<SnapshotRow>)
    ensures forall x :: x in r <==> (x in rows &&
                                     forall i :: 0 <= i < |rows| && rows[i].entityId == x.entityId ==> rows[i].timestamp <= x.timestamp)
    ensures forall x :: x in rows ==>
      multiset(r)[x] == if forall i :: 0 <= i < |rows| && rows[i].entityId == x.entityId ==> rows[i].timestamp <= x.timestamp
                        then multiset(rows)[x] else 0
  {
    var r := Filter(rows, (x: SnapshotRow) => IsLatest(rows, x));
    FilterMultiset(rows, (x: SnapshotRow) => IsLatest(rows, x));
    forall x | x in rows
      ensures IsLatest(rows, x) <==>
        forall i :: 0 <= i < |rows| && rows[i].entityId == x.entityId ==> rows[i].timestamp <= x.timestamp
    {
      LatestIff(rows, x);
    }
    r
  }

  predicate Older(r: SnapshotRow, cutoff: int) {
    r.timestamp < cutoff
  }

  /** The rows `deleteOldSnapshots(cutoff)` keeps. */
  function KeptAfter(rows: seq<SnapshotRow>, cutoff: int): seq<SnapshotRow> {
    Filter(rows, (x: SnapshotRow) => !Older(x, cutoff))
  }

  /** The count `deleteOldSnapshots(cutoff)` reports. */
  function OlderCount(rows: seq<SnapshotRow>, cutoff: int): nat {
    |Filter(rows, (x: SnapshotRow) => Older(x, cutoff))|
  }

  /** The reported count is exactly the number of rows that went: the rows
      kept and the rows counted make up the table. */
  lemma {:induction false} DeleteCountExact(rows: seq<SnapshotRow>, cutoff: int)
    ensures OlderCount(rows, cutoff) + |KeptAfter(rows, cutoff)| == |rows|
    ensures forall x :: x in KeptAfter(rows, cutoff) <==> x in rows && x.timestamp >= cutoff
  {
    FilterComplement(rows, (x: SnapshotRow) => Older(x, cutoff), (x: SnapshotRow) => !Older(x, cutoff));
  }

  datatype SnapshotStats = SnapshotStats(totalSnapshots: nat, entitiesWithData: nat,
                                         oldestSnapshot: Option<int>, newestSnapshot: Option<int>)

  function EntityIds(rows: seq<SnapshotRow>): (r: seq<string>)
    ensures |r| == |rows| && forall i :: 0 <= i < |rows| ==> r[i] == rows[i].entityId
  {
    seq(|rows|, i requires 0 <= i < |rows| => rows[i].entityId)
  }

  /** The oldest and newest timestamps of the table, if it has rows. */
  function TimeRange(rows: seq<SnapshotRow>): (m: Option<(int, int)>)
    ensures m.None? <==> rows == []
    ensures m.Some? ==> forall i :: 0 <= i < |rows| ==> m.value.0 <= rows[i].timestamp <= m.value.1
    ensures m.Some? ==> (exists i :: 0 <= i < |rows| && rows[i].timestamp == m.value.0)
    ensures m.Some? ==> (exists i :: 0 <= i < |rows| && rows[i].timestamp == m.value.1)
    decreases |rows|
  {
    if rows == [] then None
    else
      var init, t := rows[..|rows| - 1], rows[|rows| - 1].timestamp;
      var m := TimeRange(init);
      assert forall i :: 0 <= i < |init| ==> init[i] == rows[i];
      if m.None? then Some((t, t))
      else Some((if t < m.value.0 then t else m.value.0, if t > m.value.1 then t else m.value.1))
  }

  /** `getSnapshotStats()`: the number of rows, of distinct entities, and the
      oldest and newest timestamps; an empty table gives 0, 0, NULL, NULL. */
  function GetSnapshotStats(rows: seq<SnapshotRow>): (s: SnapshotStats)
    ensures s.totalSnapshots == |rows|
    ensures s.entitiesWithData == |Dedup(EntityIds(rows))| <= |rows|
    ensures rows == [] ==> s == SnapshotStats(0, 0, None, None)
    ensures rows != [] ==> s.oldestSnapshot.Some? && s.newestSnapshot.Some?
    ensures s.oldestSnapshot.Some? ==> forall i :: 0 <= i < |rows| ==> s.oldestSnapshot.value <= rows[i].timestamp
    ensures s.newestSnapshot.Some? ==> forall i :: 0 <= i < |rows| ==> rows[i].timestamp <= s.newestSnapshot.value
    ensures s.oldestSnapshot.Some? ==> exists i :: 0 <= i < |rows| && rows[i].timestamp == s.oldestSnapshot.value
    ensures s.newestSnapshot.Some? ==> exists i :: 0 <= i < |rows| && rows[i].timestamp == s.newestSnapshot.value
  {
    var m := TimeRange(rows);
    if m.None? then SnapshotStats(0, 0, None, None)
    else SnapshotStats(|rows|, |Dedup(EntityIds(rows))|, Some(m.value.0), Some(m.value.1))
  }

  /** Each entity with rows is counted once. */
  lemma {:induction false} DistinctEntitiesCounted(rows: seq<SnapshotRow>, e: string)
    ensures e in Dedup(EntityIds(rows)) <==> exists i :: 0 <= i < |rows| && rows[i].entityId == e
    ensures NoDup(Dedup(EntityIds(rows)))
  {
    var ids := EntityIds(rows);
    if e in ids {
      var i :| 0 <= i < |ids| && ids[i] == e;
    }
  }

  /** One row of `getAllSnapshotsForAnalysis`: the snapshot joined with its
      monitored entity. */
  datatype AnalysisRow = AnalysisRow(
    entityId: string, timestamp: int, valueType: string, valueNum: Option<real>, valueStr: Option<string>,
    friendlyName: Option<string>, category: Option<string>, priority: Option<string>)

  function JoinRow(s: SnapshotRow, e: MonitoredEntities.EntityRow): AnalysisRow {
    AnalysisRow(s.entityId, s.timestamp, s.valueType, s.valueNum, s.valueStr, e.friendlyName, e.category, e.priority)
  }

  /** The rows of one snapshot in the join: one per matching monitored
      entity that passes the range and priority conditions. */
  function JoinOne(s: SnapshotRow, entities: seq<MonitoredEntities.EntityRow>, startTime: int, endTime: int)
    : (r: seq<AnalysisRow>)
    ensures forall x :: x in r <==> (startTime <= s.timestamp <= endTime &&
                                     exists e :: e in entities && e.entityId == s.entityId && MonitoredEntities.IsMonitored(e) && x == JoinRow(s, e))
    decreases |entities|
  {
    if entities == [] then []
    else
      var init, e := entities[..|entities| - 1], entities[|entities| - 1];
      var rest := JoinOne(s, init, startTime, endTime);
      assert forall e' :: e' in entities <==> e' in init || e' == e by {
        assert entities == init + [e];
      }
      if startTime <= s.timestamp <= endTime && e.entityId == s.entityId && MonitoredEntities.IsMonitored(e)
      then rest + [JoinRow(s, e)] else rest
  }

  /** The `JOIN ... WHERE` part, in table order. */
  function Joined(rows: seq<SnapshotRow>, entities: seq<MonitoredEntities.EntityRow>, startTime: int, endTime: int)
    : (r: seq<AnalysisRow>)
    ensures forall x :: x in r <==> exists s :: s in rows && x in JoinOne(s, entities, startTime, endTime)
    decreases |rows|
  {
    if rows == [] then []
    else
      var init, s := rows[..|rows| - 1], rows[|rows| - 1];
      assert forall s' :: s' in rows <==> s' in init || s' == s by {
        assert rows == init + [s];
      }
      var a, b := Joined(init, entities, startTime, endTime), JoinOne(s, entities, startTime, endTime);
      assert forall x :: x in a + b <==> exists s' :: s' in rows && x in JoinOne(s', entities, startTime, endTime) by {
        forall x ensures x in a + b <==> exists s' :: s' in rows && x in JoinOne(s', entities, startTime, endTime) {
          if x in a {
            var s' :| s' in init && x in JoinOne(s', entities, startTime, endTime);
            assert s' in rows;
          }
          if x in b { assert s in rows; }
        }
      }
      a + b
  }

  /** `ORDER BY s.entity_id, s.timestamp` */
  predicate AnalysisLe(a: AnalysisRow, b: AnalysisRow) {
    StrLt(a.entityId, b.entityId) || (a.entityId == b.entityId && a.timestamp <= b.timestamp)
  }

  lemma AnalysisLeIsPreorder()
    ensures TotalPreorder(AnalysisLe)
  {
    forall a: AnalysisRow, b: AnalysisRow ensures AnalysisLe(a, b) || AnalysisLe(b, a) {
      StrLeTotal(a.entityId, b.entityId);
    }
    forall a: AnalysisRow, b: AnalysisRow, c: AnalysisRow | AnalysisLe(a, b) && AnalysisLe(b, c)
      ensures AnalysisLe(a, c)
    {
      if a.entityId != b.entityId && b.entityId != c.entityId {
        StrLeTrans(a.entityId, b.entityId, c.entityId);
        if a.entityId == c.entityId { StrLeAntisym(a.entityId, b.entityId); }
      }
    }
  }

  /** `getAllSnapshotsForAnalysis(startTime, endTime)`: the snapshots in the
      inclusive range whose entity is monitored with a priority other than
      `ignore`, joined with that entity, ordered by entity and then time. */
  function GetAllSnapshotsForAnalysis(rows: seq<SnapshotRow>, entities: seq<MonitoredEntities.EntityRow>,
                                      startTime: int, endTime: int): (r: seq<AnalysisRow>)
    ensures multiset(r) == multiset(Joined(rows, entities, startTime, endTime))
    ensures SortedBy(r, AnalysisLe)
  {
    AnalysisLeIsPreorder();
    SortBy(Joined(rows, entities, startTime, endTime), AnalysisLe)
  }

  /** A row of the analysis set comes from a snapshot in the range and a
      monitored, non-ignored entity with the same id, and every such pair
      gives a row. */
  lemma {:induction false} AnalysisRowsExactly(rows: seq<SnapshotRow>, entities: seq<MonitoredEntities.EntityRow>,
                                              startTime: int, endTime: int, x: AnalysisRow)
    ensures x in GetAllSnapshotsForAnalysis(rows, entities, startTime, endTime) <==>
      exists s, e :: s in rows && e in entities && startTime <= s.timestamp <= endTime &&
        e.entityId == s.entityId && MonitoredEntities.IsMonitored(e) && x == JoinRow(s, e)
  {
    var r := GetAllSnapshotsForAnalysis(rows, entities, startTime, endTime);
    var j := Joined(rows, entities, startTime, endTime);
    assert x in r <==> x in multiset(r);
    assert x in j <==> x in multiset(j);
  }

  /** One more record in a batch adds one row, numbered after the others. */
  lemma BatchRowsSnoc(firstId: nat, batch: seq<Snapshot>, i: nat)
    requires i < |batch|
    ensures BatchRows(firstId, batch[..i + 1]) == BatchRows(firstId, batch[..i]) + [RowOfAsWritten(firstId + i, batch[i])]
  {
    assert batch[..i + 1][..i] == batch[..i];
  }

  /** A row numbered with the next id keeps the ids increasing. */
  lemma AppendKeepsIds(rows: seq<SnapshotRow>, nextId: nat, r: SnapshotRow)
    requires IdsIncreasing(rows, nextId) && r.id == nextId
    ensures IdsIncreasing(rows + [r], nextId + 1)
  {
  }

  class SnapshotTable {
    var rows: seq<SnapshotRow>
    var nextId: nat

    ghost predicate Valid()
      reads this
    {
      IdsIncreasing(rows, nextId)
    }

    constructor()
      ensures Valid() && rows == [] && nextId == 1
    {
      rows := [];
      nextId := 1;
    }

    /** `addSnapshot(...)`: one row, every value as given. */
    method AddSnapshot(entityId: string, timestamp: int, valueType: string, valueNum: Option<real>,
                       valueStr: Option<string>, attributes: Option<Json>)
      requires Valid()
      modifies this
      ensures Valid()
      ensures rows == old(rows) + [SnapshotRow(old(nextId), entityId, timestamp, valueType, valueNum, valueStr,
                                               StoredAttributes(attributes))]
      ensures nextId == old(nextId) + 1
    {
      rows := rows + [SnapshotRow(nextId, entityId, timestamp, valueType, valueNum, valueStr,
                                  StoredAttributes(attributes))];
      nextId := nextId + 1;
    }

    /** `addSnapshots(snapshots)`: one row per record, in order, with the
        number and the text each passed through `|| null`. */
    method AddSnapshots(snapshots: seq<Snapshot>)
      requires Valid()
      modifies this
      ensures Valid()
      ensures rows == old(rows) + BatchRows(old(nextId), snapshots)
      ensures nextId == old(nextId) + |snapshots|
    {
      var added, id := rows, nextId;
      var i := 0;
      while i < |snapshots|
        invariant 0 <= i <= |snapshots|
        invariant IdsIncreasing(added, id)
        invariant id == old(nextId) + i
        invariant added == old(rows) + BatchRows(old(nextId), snapshots[..i])
      {
        BatchRowsSnoc(old(nextId), snapshots, i);
        AppendKeepsIds(added, id, RowOfAsWritten(id, snapshots[i]));
        added := added + [RowOfAsWritten(id, snapshots[i])];
        id := id + 1;
        i := i + 1;
      }
      assert snapshots[..i] == snapshots;
      rows, nextId := added, id;
    }

    /** `deleteOldSnapshots(beforeDate)`: removes the rows older than the
      cutoff and returns how many there were. */
    method DeleteOldSnapshots(beforeDate: int) returns (count: nat)
      requires Valid()
      modifies this
      ensures Valid()
      ensures rows == KeptAfter(old(rows), beforeDate)
      ensures count == OlderCount(old(rows), beforeDate)
      ensures count + |rows| == |old(rows)|
    {
      DeleteCountExact(rows, beforeDate);
      count := OlderCount(rows, beforeDate);
      ghost var before := rows;
      rows := KeptAfter(rows, beforeDate);
      forall i, j | 0 <= i < j < |rows| ensures rows[i].id < rows[j].id {
        FilterOrder(before, (x: SnapshotRow) => !Older(x, beforeDate), i, j);
      }
      assert forall i :: 0 <= i < |rows| ==> rows[i] in before;
    }
  }
}
