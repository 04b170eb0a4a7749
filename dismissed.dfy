/** The `dismissed_warnings` table: one row per warning key, recording the
    title and the time at which the warning was dismissed. Rows are kept in
    row-id order; the time is a parameter standing in for `datetime('now')`. */
module DismissedWarnings {
  import opened Wrappers
  import opened Collections
  import opened Sorting

  datatype Dismissal = Dismissal(warningKey: string, title: Option<string>, dismissedAt: int)

  /** `warning_key` is declared `UNIQUE`. */
  predicate UniqueKeys(rows: seq<Dismissal>) {
    forall i, j :: 0 <= i < j < |rows| ==> rows[i].warningKey != rows[j].warningKey
  }

  predicate HasKey(rows: seq<Dismissal>, key: string) {
    exists i :: 0 <= i < |rows| && rows[i].warningKey == key
  }

  /** The rows under other keys. */
  function WithoutKey(rows: seq<Dismissal>, key: string): (r: seq<Dismissal>)
    ensures forall d :: d in r <==> d in rows && d.warningKey != key
  {
    Filter(rows, (d: Dismissal) => d.warningKey != key)
  }

  /** `INSERT OR REPLACE`: a row with the same key is deleted and the new row
      is appended with a fresh row id. */
  function Dismissed(rows: seq<Dismissal>, key: string, title: Option<string>, now: int): seq<Dismissal> {
    WithoutKey(rows, key) + [Dismissal(key, title, now)]
  }

  /** `DELETE ... WHERE warning_key = ?` */
  function Restored(rows: seq<Dismissal>, key: string): seq<Dismissal> {
    WithoutKey(rows, key)
  }

  predicate NewerOrSame(a: Dismissal, b: Dismissal) {
    a.dismissedAt >= b.dismissedAt
  }

  lemma NewerOrSameIsPreorder()
    ensures TotalPreorder(NewerOrSame)
  {
  }

  /** `getDismissedWarnings()`: every row, newest dismissal first
      (`ORDER BY dismissed_at DESC`, ties in row-id order). */
  function GetDismissedWarnings(rows: seq<Dismissal>): (r: seq<Dismissal>)
    ensures SortedBy(r, NewerOrSame)
    ensures multiset(r) == multiset(rows)
  {
    NewerOrSameIsPreorder();
    SortBy(rows, NewerOrSame)
  }

  /** Dropping rows keeps the keys distinct. */
  lemma {:induction false} WithoutKeyUnique(rows: seq<Dismissal>, key: string)
    requires UniqueKeys(rows)
    ensures UniqueKeys(WithoutKey(rows, key))
  {
    var r := WithoutKey(rows, key);
    forall i, j | 0 <= i < j < |r| ensures r[i].warningKey != r[j].warningKey {
      FilterOrder(rows, (d: Dismissal) => d.warningKey != key, i, j);
    }
  }

  /** After a dismissal the key is dismissed, it has exactly one row, and
      that row holds the new title and time. */
  lemma {:induction false} DismissMarks(rows: seq<Dismissal>, key: string, title: Option<string>, now: int)
    requires UniqueKeys(rows)
    ensures var r := Dismissed(rows, key, title, now);
      && UniqueKeys(r)
      && HasKey(r, key)
      && forall i :: 0 <= i < |r| && r[i].warningKey == key ==> r[i] == Dismissal(key, title, now)
  {
    var w := WithoutKey(rows, key);
    var r := Dismissed(rows, key, title, now);
    WithoutKeyUnique(rows, key);
    assert forall i :: 0 <= i < |w| ==> w[i] in w && w[i].warningKey != key;
    assert r[|r| - 1].warningKey == key;
  }

  /** A dismissal leaves every row under another key as it was. */
  lemma DismissKeepsOthers(rows: seq<Dismissal>, key: string, title: Option<string>, now: int, d: Dismissal)
    requires d.warningKey != key
    ensures d in Dismissed(rows, key, title, now) <==> d in rows
  {
  }

  /** After a restore the key is no longer dismissed, and the rows under
      other keys are exactly those there were. */
  lemma RestoreClears(rows: seq<Dismissal>, key: string)
    requires UniqueKeys(rows)
    ensures UniqueKeys(Restored(rows, key))
    ensures !HasKey(Restored(rows, key), key)
    ensures forall d: Dismissal :: d.warningKey != key ==> (d in Restored(rows, key) <==> d in rows)
  {
    WithoutKeyUnique(rows, key);
    var r := Restored(rows, key);
    assert forall i :: 0 <= i < |r| ==> r[i] in r;
  }

  class DismissedTable {
    var rows: seq<Dismissal>

    ghost predicate Valid()
      reads this
    {
      UniqueKeys(rows)
    }

    constructor()
      ensures Valid() && rows == []
    {
      rows := [];
    }

    /** `dismissWarning(warningKey, title)` */
    method DismissWarning(warningKey: string, title: Option<string>, now: int)
      requires Valid()
      modifies this
      ensures Valid()
      ensures rows == Dismissed(old(rows), warningKey, title, now)
      ensures IsWarningDismissed(warningKey)
    {
      DismissMarks(rows, warningKey, title, now);
      rows := Dismissed(rows, warningKey, title, now);
    }

    /** `isWarningDismissed(warningKey)` */
    predicate IsWarningDismissed(warningKey: string)
      reads this
    {
      HasKey(rows, warningKey)
    }

    /** `restoreWarning(warningKey)` */
    method RestoreWarning(warningKey: string)
      requires Valid()
      modifies this
      ensures Valid()
      ensures rows == Restored(old(rows), warningKey)
      ensures !IsWarningDismissed(warningKey)
      ensures forall k :: k != warningKey ==> (IsWarningDismissed(k) <==> old(IsWarningDismissed(k)))
    {
      RestoreClears(rows, warningKey);
      ghost var before := rows;
      rows := Restored(rows, warningKey);
      forall k | k != warningKey
        ensures HasKey(rows, k) <==> HasKey(before, k)
      {
        if HasKey(before, k) {
          var i :| 0 <= i < |before| && before[i].warningKey == k;
          assert before[i] in rows;
          var j :| 0 <= j < |rows| && rows[j] == before[i];
        }
        if HasKey(rows, k) {
          var j :| 0 <= j < |rows| && rows[j].warningKey == k;
          assert rows[j] in before;
        }
      }
    }
  }
}
