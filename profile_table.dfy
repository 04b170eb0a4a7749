/** The `profile` table: one text value per key (the key is the primary
    key). Strings are stored as they are and every other value as its
    `JSON.stringify` text; reading parses the text back and keeps the raw
    text when it does not parse. `JSON.parse` is a parameter. */
module Profile {
  import opened Wrappers
  import opened Json

  /** The text stored for a value. */
  function Stored(value: Json): (t: string)
    ensures value.JStr? ==> t == value.s
    ensures !value.JStr? ==> t == Serialize(value)
  {
    if value.JStr? then value.s else Serialize(value)
  }

  /** A stored text as `getProfile` and `getProfileValue` read it. */
  function ReadBack(text: string, parse: Parser): (v: Json)
    ensures parse(text).Ok? ==> v == parse(text).value
    ensures parse(text).Err? ==> v == JStr(text)
  {
    match parse(text)
    case Ok(parsed) => parsed
    case Err(_) => JStr(text)
  }

  /** `getProfile()` */
  function GetProfile(table: map<string, string>, parse: Parser): (p: map<string, Json>)
    ensures p.Keys == table.Keys
    ensures forall k :: k in p ==> p[k] == ReadBack(table[k], parse)
  {
    map k | k in table :: ReadBack(table[k], parse)
  }

  /** `getProfileValue(key)`; `None` stands for NULL. */
  function GetProfileValue(table: map<string, string>, key: string, parse: Parser): (v: Option<Json>)
    ensures v.None? <==> key !in table
    ensures v.Some? ==> v.value == GetProfile(table, parse)[key]
  {
    if key in table then Some(ReadBack(table[key], parse)) else None
  }

  /** The table after the writes of `setProfile(data)`, in order. */
  function SetAll(table: map<string, string>, data: seq<(string, Json)>): map<string, string>
    decreases |data|
  {
    if data == [] then table
    else
      var last := data[|data| - 1];
      SetAll(table, data[..|data| - 1])[last.0 := Stored(last.1)]
  }

  /** The value of the last write of `key` in `data`, if any. */
  function LastWrite(data: seq<(string, Json)>, key: string): (r: Option<Json>)
    ensures r.None? <==> forall i :: 0 <= i < |data| ==> data[i].0 != key
    ensures r.Some? ==> exists i :: 0 <= i < |data| && data[i] == (key, r.value)
    decreases |data|
  {
    if data == [] then None
    else if data[|data| - 1].0 == key then Some(data[|data| - 1].1)
    else
      var r := LastWrite(data[..|data| - 1], key);
      assert forall i :: 0 <= i < |data| - 1 ==> data[..|data| - 1][i] == data[i];
      r
  }

  /** The last write of a key wins, and a key not written keeps what it had. */
  lemma {:induction false} LastWriteWins(table: map<string, string>, data: seq<(string, Json)>, key: string)
    ensures LastWrite(data, key).Some? ==> key in SetAll(table, data) && SetAll(table, data)[key] == Stored(LastWrite(data, key).value)
    ensures LastWrite(data, key).None? ==> (key in SetAll(table, data) <==> key in table)
    ensures LastWrite(data, key).None? && key in table ==> SetAll(table, data)[key] == table[key]
    decreases |data|
  {
    if data != [] {
      LastWriteWins(table, data[..|data| - 1], key);
    }
  }

  const RequiredKeys: seq<string> := ["occupants", "schedule", "priorities"]

  /** `isProfileComplete()`: every required key has a value. */
  predicate IsProfileComplete(table: map<string, string>, parse: Parser) {
    forall i :: 0 <= i < |RequiredKeys| ==> RequiredKeys[i] in GetProfile(table, parse)
  }

  /** The profile is complete exactly when the occupants, the schedule and
      the priorities are stored; the concerns are not needed. */
  lemma CompleteIff(table: map<string, string>, parse: Parser)
    ensures IsProfileComplete(table, parse) <==>
      "occupants" in table && "schedule" in table && "priorities" in table
  {
    if "occupants" in table && "schedule" in table && "priorities" in table {
      forall i | 0 <= i < |RequiredKeys| ensures RequiredKeys[i] in GetProfile(table, parse) {
        assert RequiredKeys[i] in table by {
          if i == 0 {} else if i == 1 {} else {}
        }
      }
    }
    if IsProfileComplete(table, parse) {
      assert RequiredKeys[0] in GetProfile(table, parse);
      assert RequiredKeys[1] in GetProfile(table, parse);
      assert RequiredKeys[2] in GetProfile(table, parse);
    }
  }

  /** A string written with `setProfileValue` reads back as itself unless it
      is itself JSON text; any other value reads back as itself when the
      parser inverts `JSON.stringify` on it. */
  lemma WriteReadBack(table: map<string, string>, key: string, value: Json, parse: Parser)
    requires value.JStr? ==> parse(value.s).Err?
    requires !value.JStr? ==> parse(Serialize(value)) == Ok(value)
    ensures GetProfileValue(table[key := Stored(value)], key, parse) == Some(value)
  {
  }

  class ProfileTable {
    var values: map<string, string>

    constructor()
      ensures values == map[]
    {
      values := map[];
    }

    /** `setProfileValue(key, value)`: an upsert of one key. */
    method SetProfileValue(key: string, value: Json)
      modifies this
      ensures values == old(values)[key := Stored(value)]
    {
      values := values[key := Stored(value)];
    }

    /** `setProfile(data)`: one upsert per entry of `data`, in order. */
    method SetProfile(data: seq<(string, Json)>)
      modifies this
      ensures values == SetAll(old(values), data)
    {
      for i := 0 to |data|
        invariant values == SetAll(old(values), data[..i])
      {
        assert data[..i + 1][..i] == data[..i];
        values := values[data[i].0 := Stored(data[i].1)];
      }
      assert data[..|data|] == data;
    }

    /** `clearProfile()` */
    method ClearProfile()
      modifies this
      ensures values == map[]
    {
      values := map[];
    }
  }

  /** After `clearProfile()` the profile is incomplete, and setting the three
      required keys completes it whatever else is set. */
  lemma {:induction false} CompletedBySetup(data: seq<(string, Json)>, parse: Parser)
    requires LastWrite(data, "occupants").Some? && LastWrite(data, "schedule").Some?
    requires LastWrite(data, "priorities").Some?
    ensures !IsProfileComplete(map[], parse)
    ensures IsProfileComplete(SetAll(map[], data), parse)
  {
    CompleteIff(map[], parse);
    LastWriteWins(map[], data, "occupants");
    LastWriteWins(map[], data, "schedule");
    LastWriteWins(map[], data, "priorities");
    CompleteIff(SetAll(map[], data), parse);
  }
}
