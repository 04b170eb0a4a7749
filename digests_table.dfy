/** The `digests` table: one row per generated digest. The insertion time
    (`datetime('now')`) is an input in milliseconds; `notification_sent` is
    the 0/1 flag. Rows are kept in insertion order, and ids grow with it. */
module Digests {
  import opened Wrappers
  import opened Collections
  import opened Sorting

  datatype DigestRow = DigestRow(
    id: nat, timestamp: int, kind: string, content: string, summary: string,
    attentionCount: int, notificationSent: nat)

  /** A row of `getDigests`: every column but `content`. */
  datatype DigestListing = DigestListing(
    id: nat, timestamp: int, kind: string, summary: string, attentionCount: int, notificationSent: nat)

  predicate IdsIncreasing(rows: seq<DigestRow>, nextId: nat) {
    && (forall i, j :: 0 <= i < j < |rows| ==> rows[i].id < rows[j].id)
    && (forall i :: 0 <= i < |rows| ==> rows[i].id < nextId)
  }

  predicate NewerOrSame(a: DigestRow, b: DigestRow) {
    a.timestamp >= b.timestamp
  }

  lemma NewerOrSameIsPreorder()
    ensures TotalPreorder(NewerOrSame)
  {
  }

  /** `ORDER BY timestamp DESC`; rows with equal timestamps keep their table
      order. */
  function NewestFirst(rows: seq<DigestRow>): (r: seq<DigestRow>)
    ensures SortedBy(r, NewerOrSame) && multiset(r) == multiset(rows) && |r| == |rows|
  {
    NewerOrSameIsPreorder();
    SortBy(rows, NewerOrSame)
  }

  /** `getLatestDigest()`: NULL for an empty table, otherwise a row no other
      row is newer than. */
  function GetLatestDigest(rows: seq<DigestRow>): (r: Option<DigestRow>)
    ensures r.None? <==> rows == []
    ensures r.Some? ==> r.value in rows && forall i :: 0 <= i < |rows| ==> rows[i].timestamp <= r.value.timestamp
  {
    var sorted := NewestFirst(rows);
    if sorted == [] then None
    else
      assert sorted[0] in multiset(rows);
      forall i | 0 <= i < |rows| ensures rows[i].timestamp <= sorted[0].timestamp {
        assert rows[i] in multiset(sorted);
        var k :| 0 <= k < |sorted| && sorted[k] == rows[i];
        assert k == 0 || NewerOrSame(sorted[0], sorted[k]);
      }
      Some(sorted[0])
  }

  /** `getDigest(id)` */
  function GetDigest(rows: seq<DigestRow>, id: nat): (r: Option<DigestRow>)
    ensures r.Some? ==> r.value in rows && r.value.id == id
    ensures r.None? <==> forall i :: 0 <= i < |rows| ==> rows[i].id != id
    decreases |rows|
  {
    if rows == [] then None
    else if rows[0].id == id then Some(rows[0])
    else
      var r := GetDigest(rows[1..], id);
      assert forall i :: 1 <= i < |rows| ==> rows[i] == rows[1..][i - 1];
      r
  }

  function Listing(d: DigestRow): DigestListing {
    DigestListing(d.id, d.timestamp, d.kind, d.summary, d.attentionCount, d.notificationSent)
  }

  const DefaultLimit := 10
  const DefaultOffset := 0

  /** `getDigests(limit, offset)`: newest first, the first `offset` rows
      skipped, at most `limit` returned, without the content. */
  function GetDigests(rows: seq<DigestRow>, limit: int, offset: int): (r: seq<DigestListing>)
  {
    Map(Limit(Offset(NewestFirst(rows), offset), limit), Listing)
  }

  /** The page holds the listings of the sorted rows from `offset` on, as many
      as the limit allows, and what it shows is newest first. */
  lemma {:induction false} PageOfNewestFirst(rows: seq<DigestRow>, limit: int, offset: int)
    requires 0 <= offset && 0 <= limit
    ensures var r := GetDigests(rows, limit, offset);
      var n := if offset < |rows| then |rows| - offset else 0;
      && |r| == (if limit < n then limit else n)
      && (forall i :: 0 <= i < |r| ==> r[i] == Listing(NewestFirst(rows)[offset + i]))
      && (forall i, j :: 0 <= i < j < |r| ==> r[i].timestamp >= r[j].timestamp)
  {
    var sorted := NewestFirst(rows);
    var skipped := Offset(sorted, offset);
    assert forall i :: 0 <= i < |skipped| ==> skipped[i] == sorted[offset + i];
    var page := Limit(skipped, limit);
    assert forall i :: 0 <= i < |page| ==> page[i] == skipped[i];
  }

  /** The table after `markNotificationSent(id)`. */
  function MarkedSent(rows: seq<DigestRow>, id: nat): (r: seq<DigestRow>)
    ensures |r| == |rows|
    ensures forall i :: 0 <= i < |rows| && rows[i].id == id ==> r[i] == rows[i].(notificationSent := 1)
    ensures forall i :: 0 <= i < |rows| && rows[i].id != id ==> r[i] == rows[i]
  {
    seq(|rows|, i requires 0 <= i < |rows| => if rows[i].id == id then rows[i].(notificationSent := 1) else rows[i])
  }

  predicate Older(d: DigestRow, cutoff: int) {
    d.timestamp < cutoff
  }

  /** The rows `deleteOldDigests(cutoff)` keeps. */
  function KeptAfter(rows: seq<DigestRow>, cutoff: int): seq<DigestRow> {
    Filter(rows, (d: DigestRow) => !Older(d, cutoff))
  }

  /** Exactly the rows older than the cutoff go, and the others keep their
      order. */
  lemma {:induction false} DeleteOldExactly(rows: seq<DigestRow>, cutoff: int)
    ensures forall d :: d in KeptAfter(rows, cutoff) <==> d in rows && d.timestamp >= cutoff
    ensures |KeptAfter(rows, cutoff)| + |Filter(rows, (d: DigestRow) => Older(d, cutoff))| == |rows|
  {
    FilterComplement(rows, (d: DigestRow) => !Older(d, cutoff), (d: DigestRow) => Older(d, cutoff));
  }

  datatype DigestStats = DigestStats(totalDigests: nat, totalAttentionItems: int, lastDigestTime: Option<int>)

  function SumAttention(rows: seq<DigestRow>): int
    decreases |rows|
  {
    if rows == [] then 0 else SumAttention(rows[..|rows| - 1]) + rows[|rows| - 1].attentionCount
  }

  /** `MAX(timestamp)`, NULL for no rows. */
  function LastTime(rows: seq<DigestRow>): (m: Option<int>)
    ensures m.None? <==> rows == []
    ensures m.Some? ==> forall i :: 0 <= i < |rows| ==> rows[i].timestamp <= m.value
    ensures m.Some? ==> exists i :: 0 <= i < |rows| && rows[i].timestamp == m.value
    decreases |rows|
  {
    if rows == [] then None
    else
      var init, t := rows[..|rows| - 1], rows[|rows| - 1].timestamp;
      var m := LastTime(init);
      assert forall i :: 0 <= i < |init| ==> init[i] == rows[i];
      if m.Some? && m.value >= t then m else Some(t)
  }

  /** `getDigestStats()`, without the average: the number of digests, the sum
      of their attention counts (`SUM` of no rows is NULL, read as 0) and the
      newest timestamp. */
  function GetDigestStats(rows: seq<DigestRow>): (s: DigestStats)
    ensures rows == [] ==> s == DigestStats(0, 0, None)
    ensures s.totalDigests == |rows|
    ensures s.lastDigestTime == LastTime(rows)
  {
    DigestStats(|rows|, SumAttention(rows), LastTime(rows))
  }

  /** A new digest adds one to the count and its attention items to the
      total, and becomes the last time when nothing is newer. */
  lemma StatsAfterAdd(rows: seq<DigestRow>, d: DigestRow)
    ensures var before, after := GetDigestStats(rows), GetDigestStats(rows + [d]);
      && after.totalDigests == before.totalDigests + 1
      && after.totalAttentionItems == before.totalAttentionItems + d.attentionCount
      && after.lastDigestTime.Some?
      && ((forall i :: 0 <= i < |rows| ==> rows[i].timestamp <= d.timestamp) ==> after.lastDigestTime == Some(d.timestamp))
  {
    assert (rows + [d])[..|rows|] == rows;
  }

  /** With no negative counts the total is at least each digest's count. */
  lemma {:induction false} TotalAttentionCovers(rows: seq<DigestRow>, i: int)
    requires forall k :: 0 <= k < |rows| ==> rows[k].attentionCount >= 0
    requires 0 <= i < |rows|
    ensures GetDigestStats(rows).totalAttentionItems >= rows[i].attentionCount
    decreases |rows|
  {
    var init := rows[..|rows| - 1];
    if i < |rows| - 1 {
      TotalAttentionCovers(init, i);
    }
    SumAttentionNonNegative(init);
  }

  lemma {:induction false} SumAttentionNonNegative(rows: seq<DigestRow>)
    requires forall k :: 0 <= k < |rows| ==> rows[k].attentionCount >= 0
    ensures SumAttention(rows) >= 0
    decreases |rows|
  {
    if rows != [] {
      SumAttentionNonNegative(rows[..|rows| - 1]);
    }
  }

  class DigestTable {
    var rows: seq<DigestRow>
    var nextId: nat

    ghost predicate Valid()
      reads this
    {
      IdsIncreasing(rows, nextId)
    }

    constructor()
      ensures Valid() && rows == [] && nextId == 1
    {
      rows := [];
      nextId := 1;
    }

    /** `addDigest(type, content, summary, attentionCount)`: one new row, not
        yet notified; its id is returned. */
    method AddDigest(kind: string, content: string, summary: string, attentionCount: int, now: int)
      returns (id: nat)
      requires Valid()
      modifies this
      ensures Valid()
      ensures id == old(nextId) && nextId == id + 1
      ensures rows == old(rows) + [DigestRow(id, now, kind, content, summary, attentionCount, 0)]
    {
      id := nextId;
      rows := rows + [DigestRow(id, now, kind, content, summary, attentionCount, 0)];
      nextId := nextId + 1;
    }

    /** `markNotificationSent(id)` */
    method MarkNotificationSent(id: nat)
      requires Valid()
      modifies this
      ensures Valid()
      ensures rows == MarkedSent(old(rows), id) && nextId == old(nextId)
    {
      rows := MarkedSent(rows, id);
    }

    /** `deleteOldDigests(beforeDate)` */
    method DeleteOldDigests(beforeDate: int)
      requires Valid()
      modifies this
      ensures Valid()
      ensures rows == KeptAfter(old(rows), beforeDate) && nextId == old(nextId)
    {
      ghost var before := rows;
      rows := KeptAfter(rows, beforeDate);
      forall i, j | 0 <= i < j < |rows| ensures rows[i].id < rows[j].id {
        FilterOrder(before, (d: DigestRow) => !Older(d, beforeDate), i, j);
      }
      assert forall i :: 0 <= i < |rows| ==> rows[i] in before;
    }
  }

  /** A new digest is the latest one when no earlier digest is newer, and it
      is not yet notified. */
  lemma AddedIsLatest(rows: seq<DigestRow>, d: DigestRow)
    requires forall i :: 0 <= i < |rows| ==> rows[i].timestamp < d.timestamp
    ensures GetLatestDigest(rows + [d]) == Some(d)
  {
    var r := GetLatestDigest(rows + [d]);
    assert (rows + [d])[|rows|] == d;
    assert r.value in rows + [d];
  }

  /** Marking a digest notified changes no row's flag but its own and keeps
      every other column. */
  lemma MarkOnlyThat(rows: seq<DigestRow>, id: nat, i: int)
    requires 0 <= i < |rows|
    ensures var r := MarkedSent(rows, id);
      && r[i].id == rows[i].id && r[i].timestamp == rows[i].timestamp && r[i].content == rows[i].content
      && (r[i].notificationSent == 1 <==> rows[i].id == id || rows[i].notificationSent == 1)
  {
  }
}
