/** The `user_notes` table: notes a user attaches to a warning, keyed by the
    warning's key. `created_at` is an input in milliseconds. */
module Notes {
  import opened Wrappers
  import opened Strings
  import opened Collections
  import opened Sorting
  import opened WarningKey

  datatype NoteRow = NoteRow(id: nat, warningKey: string, title: string, note: string, createdAt: int)

  /** What `addNote` returns. */
  datatype AddedNote = AddedNote(warningKey: string, title: string, note: string)

  predicate IdsIncreasing(rows: seq<NoteRow>, nextId: nat) {
    && (forall i, j :: 0 <= i < j < |rows| ==> rows[i].id < rows[j].id)
    && (forall i :: 0 <= i < |rows| ==> rows[i].id < nextId)
  }

  predicate NewerOrSame(a: NoteRow, b: NoteRow) {
    a.createdAt >= b.createdAt
  }

  /** `getNotes()`: every note, newest first; notes created at the same time
      keep their table order. */
  function GetNotes(rows: seq<NoteRow>): (r: seq<NoteRow>)
    ensures SortedBy(r, NewerOrSame) && multiset(r) == multiset(rows) && |r| == |rows|
  {
    assert TotalPreorder(NewerOrSame);
    SortBy(rows, NewerOrSame)
  }

  /** `getNote(id)` */
  function GetNote(rows: seq<NoteRow>, id: nat): (r: Option<NoteRow>)
    ensures r.Some? ==> r.value in rows && r.value.id == id
    ensures r.None? <==> forall i :: 0 <= i < |rows| ==> rows[i].id != id
    decreases |rows|
  {
    if rows == [] then None
    else if rows[0].id == id then Some(rows[0])
    else
      var r := GetNote(rows[1..], id);
      assert forall i :: 1 <= i < |rows| ==> rows[i] == rows[1..][i - 1];
      r
  }

  /** `getNoteForWarning(key)`: the first of the notes with that key. */
  function GetNoteForWarning(rows: seq<NoteRow>, warningKey: string): (r: Option<NoteRow>)
    ensures r.Some? ==> r.value in rows && r.value.warningKey == warningKey
    ensures r.None? <==> forall i :: 0 <= i < |rows| ==> rows[i].warningKey != warningKey
    decreases |rows|
  {
    if rows == [] then None
    else if rows[0].warningKey == warningKey then Some(rows[0])
    else
      var r := GetNoteForWarning(rows[1..], warningKey);
      assert forall i :: 1 <= i < |rows| ==> rows[i] == rows[1..][i - 1];
      r
  }

  /** The table after `updateNote(id, note)`. */
  function WithNote(rows: seq<NoteRow>, id: nat, note: string): (r: seq<NoteRow>)
    ensures |r| == |rows|
    ensures forall i :: 0 <= i < |rows| && rows[i].id == id ==> r[i] == rows[i].(note := note)
    ensures forall i :: 0 <= i < |rows| && rows[i].id != id ==> r[i] == rows[i]
  {
    seq(|rows|, i requires 0 <= i < |rows| => if rows[i].id == id then rows[i].(note := note) else rows[i])
  }

  predicate HasId(r: NoteRow, id: nat) {
    r.id == id
  }

  /** The table after `deleteNote(id)`. */
  function WithoutNote(rows: seq<NoteRow>, id: nat): seq<NoteRow> {
    Filter(rows, (r: NoteRow) => !HasId(r, id))
  }

  /** Deleting a note removes that note and no other. */
  lemma DeleteOnlyThat(rows: seq<NoteRow>, id: nat, x: NoteRow)
    ensures x in WithoutNote(rows, id) <==> x in rows && x.id != id
  {
  }

  /** One line of `getNotesForPrompt`. */
  function NoteLine(n: NoteRow): string {
    "- \"" + n.title + "\": " + n.note
  }

  /** `getNotesForPrompt()`: NULL when there are no notes, otherwise one line
      per note, newest first, joined by newlines. */
  function GetNotesForPrompt(rows: seq<NoteRow>): (r: Option<string>)
    ensures r.None? <==> rows == []
  {
    var notes := GetNotes(rows);
    if |notes| == 0 then None else Some(Join(Map(notes, NoteLine), "\n"))
  }

  /** The prompt text splits back into the notes' lines, one per note in
      `getNotes` order, when no title or note holds a newline. */
  lemma {:induction false} PromptLinesAreNotes(rows: seq<NoteRow>)
    requires rows != []
    requires forall i :: 0 <= i < |rows| ==> '\n' !in rows[i].title && '\n' !in rows[i].note
    ensures var lines := Split(GetNotesForPrompt(rows).value, "\n");
      && |lines| == |rows|
      && forall i :: 0 <= i < |lines| ==> lines[i] == NoteLine(GetNotes(rows)[i])
  {
    var notes := GetNotes(rows);
    var lines := Map(notes, NoteLine);
    forall i | 0 <= i < |lines| ensures '\n' !in lines[i] {
      assert notes[i] in multiset(rows);
      var k :| 0 <= k < |rows| && rows[k] == notes[i];
      assert lines[i] == "- \"" + rows[k].title + "\": " + rows[k].note;
    }
    SplitJoin(lines, '\n');
  }

  /** Two notes for warnings with the same title share a key; `addNote` is a
      plain insert, so both are kept. */
  lemma SameTitleBothKept(rows: seq<NoteRow>, a: NoteRow, b: NoteRow)
    requires a.warningKey == GenerateWarningKey(a.title) && b.warningKey == GenerateWarningKey(b.title)
    requires a.title == b.title
    ensures a.warningKey == b.warningKey
    ensures a in rows + [a] + [b] && b in rows + [a] + [b]
    ensures |Filter(rows + [a] + [b], (r: NoteRow) => r.warningKey == a.warningKey)| ==
            |Filter(rows, (r: NoteRow) => r.warningKey == a.warningKey)| + 2
  {
    assert (rows + [a] + [b])[..|rows| + 1] == rows + [a];
    assert (rows + [a])[..|rows|] == rows;
  }

  class NoteTable {
    var rows: seq<NoteRow>
    var nextId: nat

    ghost predicate Valid()
      reads this
    {
      IdsIncreasing(rows, nextId)
    }

    constructor()
      ensures Valid() && rows == [] && nextId == 1
    {
      rows := [];
      nextId := 1;
    }

    /** `addNote(title, note)`: a new row under the title's warning key. */
    method AddNote(title: string, note: string, now: int) returns (added: AddedNote)
      requires Valid()
      modifies this
      ensures Valid()
      ensures added == AddedNote(GenerateWarningKey(title), title, note)
      ensures rows == old(rows) + [NoteRow(old(nextId), added.warningKey, title, note, now)]
      ensures nextId == old(nextId) + 1
    {
      var warningKey := GenerateWarningKey(title);
      rows := rows + [NoteRow(nextId, warningKey, title, note, now)];
      nextId := nextId + 1;
      added := AddedNote(warningKey, title, note);
    }

    /** `updateNote(id, note)` */
    method UpdateNote(id: nat, note: string)
      requires Valid()
      modifies this
      ensures Valid()
      ensures rows == WithNote(old(rows), id, note) && nextId == old(nextId)
    {
      rows := WithNote(rows, id, note);
    }

    /** `deleteNote(id)` */
    method DeleteNote(id: nat)
      requires Valid()
      modifies this
      ensures Valid()
      ensures rows == WithoutNote(old(rows), id) && nextId == old(nextId)
    {
      ghost var before := rows;
      rows := WithoutNote(rows, id);
      forall i, j | 0 <= i < j < |rows| ensures rows[i].id < rows[j].id {
        FilterOrder(before, (r: NoteRow) => !HasId(r, id), i, j);
      }
      assert forall i :: 0 <= i < |rows| ==> rows[i] in before;
    }
  }

  /** Updating a note changes that note's text and leaves every other note
      as it was. */
  lemma {:induction false} UpdateOnlyThat(rows: seq<NoteRow>, id: nat, note: string, other: nat)
    ensures other != id ==> GetNote(WithNote(rows, id, note), other) == GetNote(rows, other)
    ensures GetNote(rows, id).Some? ==> GetNote(WithNote(rows, id, note), id) == Some(GetNote(rows, id).value.(note := note))
    ensures GetNote(rows, id).None? ==> WithNote(rows, id, note) == rows
    decreases |rows|
  {
    if rows != [] {
      var r := WithNote(rows, id, note);
      assert r[1..] == WithNote(rows[1..], id, note);
      UpdateOnlyThat(rows[1..], id, note, other);
    }
  }
}
