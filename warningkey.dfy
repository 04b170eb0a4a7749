/** The key under which a warning is dismissed or annotated: the title in
    lower case, with every character other than `a-z`, `0-9` and whitespace
    deleted, each run of whitespace turned into one `_`, cut to 50
    characters. Case and whitespace are ASCII here. */
module WarningKey {
  import opened Strings

  const MaxKeyLength := 50

  /** The characters the second step keeps. */
  predicate Kept(c: char) {
    IsLower(c) || IsDigit(c) || IsSpace(c)
  }

  /** The characters a key is made of. */
  predicate KeyChar(c: char) {
    IsLower(c) || IsDigit(c) || c == '_'
  }

  /** Deleting every character outside `[a-z0-9\s]`. */
  function StripDisallowed(s: string): (r: string)
    ensures |r| <= |s|
    ensures forall i :: 0 <= i < |r| ==> Kept(r[i])
    decreases |s|
  {
    if s == [] then []
    else if Kept(s[0]) then [s[0]] + StripDisallowed(s[1..])
    else StripDisallowed(s[1..])
  }

  /** Turning each maximal run of whitespace into one `_`; `inRun` says that
      the character before `s` was whitespace already replaced. */
  function CollapseSpaces(s: string, inRun: bool): string
    decreases |s|
  {
    if s == [] then []
    else if IsSpace(s[0]) then
      if inRun then CollapseSpaces(s[1..], true) else "_" + CollapseSpaces(s[1..], true)
    else [s[0]] + CollapseSpaces(s[1..], false)
  }

  /** `generateWarningKey(title)` */
  function GenerateWarningKey(title: string): (key: string)
    ensures |key| <= MaxKeyLength
  {
    KeyOfStripped(StripDisallowed(Lower(title)))
  }

  /** The last two steps, applied to the lower-cased, stripped title. */
  function KeyOfStripped(s: string): (key: string)
    ensures |key| <= MaxKeyLength
  {
    var collapsed := CollapseSpaces(s, false);
    if |collapsed| <= MaxKeyLength then collapsed else collapsed[..MaxKeyLength]
  }

  /** No two underscores stand next to each other. */
  predicate NoDoubleUnderscore(s: string) {
    forall i :: 0 <= i < |s| - 1 ==> !(s[i] == '_' && s[i + 1] == '_')
  }

  /** What collapsing whitespace makes out of a stripped, lower-cased text:
      key characters only, never two underscores in a row, and no
      underscore at the front when the text follows a replaced run. */
  lemma {:induction false} CollapseShape(s: string, inRun: bool)
    requires forall i :: 0 <= i < |s| ==> Kept(s[i])
    ensures var r := CollapseSpaces(s, inRun);
      && (forall i :: 0 <= i < |r| ==> KeyChar(r[i]))
      && NoDoubleUnderscore(r)
      && (inRun && r != [] ==> r[0] != '_')
    decreases |s|
  {
    if s != [] {
      CollapseShape(s[1..], IsSpace(s[0]));
      var rest := CollapseSpaces(s[1..], IsSpace(s[0]));
      assert IsSpace(s[0]) ==> rest == [] || rest[0] != '_';
      assert !IsSpace(s[0]) ==> s[0] != '_' && KeyChar(s[0]);
    }
  }

  /** A key consists of `a-z`, `0-9` and `_` only, never holds `__`, and is at
      most 50 characters long. */
  lemma {:induction false} KeyShape(title: string)
    ensures var key := GenerateWarningKey(title);
      && |key| <= MaxKeyLength
      && (forall i :: 0 <= i < |key| ==> KeyChar(key[i]))
      && NoDoubleUnderscore(key)
  {
    var collapsed := CollapseSpaces(StripDisallowed(Lower(title)), false);
    CollapseShape(StripDisallowed(Lower(title)), false);
    var key := GenerateWarningKey(title);
    assert forall i :: 0 <= i < |key| ==> key[i] == collapsed[i];
  }

  /** A title that is already a short run of lower-case letters and digits is
      its own key. */
  lemma {:induction false} PlainWordIsItsKey(title: string)
    requires |title| <= MaxKeyLength
    requires forall i :: 0 <= i < |title| ==> IsLower(title[i]) || IsDigit(title[i])
    ensures GenerateWarningKey(title) == title
  {
    assert Lower(title) == title;
    StripKeepsKept(title);
    CollapseWithoutSpaces(title, false);
  }

  lemma {:induction false} StripKeepsKept(s: string)
    requires forall i :: 0 <= i < |s| ==> Kept(s[i])
    ensures StripDisallowed(s) == s
    decreases |s|
  {
    if s != [] {
      StripKeepsKept(s[1..]);
    }
  }

  lemma {:induction false} CollapseWithoutSpaces(s: string, inRun: bool)
    requires forall i :: 0 <= i < |s| ==> !IsSpace(s[i])
    ensures CollapseSpaces(s, inRun) == s
    decreases |s|
  {
    if s != [] {
      CollapseWithoutSpaces(s[1..], false);
    }
  }

  lemma {:induction false} StripAppend(a: string, b: string)
    ensures StripDisallowed(a + b) == StripDisallowed(a) + StripDisallowed(b)
    decreases |a|
  {
    if a == [] {
      assert a + b == b;
    } else {
      var head := if Kept(a[0]) then [a[0]] else [];
      assert (a + b)[0] == a[0] && (a + b)[1..] == a[1..] + b;
      assert StripDisallowed(a + b) == head + StripDisallowed(a[1..] + b);
      assert StripDisallowed(a) == head + StripDisallowed(a[1..]);
      StripAppend(a[1..], b);
    }
  }

  /** Whether the text after `a` follows a replaced whitespace run. */
  function RunAfter(a: string, inRun: bool): bool {
    if a == [] then inRun else IsSpace(a[|a| - 1])
  }

  lemma {:induction false} CollapseAppend(a: string, b: string, inRun: bool)
    ensures CollapseSpaces(a + b, inRun) == CollapseSpaces(a, inRun) + CollapseSpaces(b, RunAfter(a, inRun))
    decreases |a|
  {
    if a == [] {
      assert a + b == b;
    } else {
      var sp := IsSpace(a[0]);
      assert (a + b)[0] == a[0] && (a + b)[1..] == a[1..] + b;
      CollapseStep(a + b, inRun);
      CollapseStep(a, inRun);
      CollapseAppend(a[1..], b, sp);
      assert RunAfter(a[1..], sp) == RunAfter(a, inRun) by {
        if |a| > 1 { assert a[1..][|a| - 2] == a[|a| - 1]; }
      }
      assert CollapseSpaces(a + b, inRun) == CollapsedHead(a[0], inRun) + (CollapseSpaces(a[1..], sp) + CollapseSpaces(b, RunAfter(a, inRun)));
    }
  }

  /** What the first character of a non-empty text contributes. */
  function CollapsedHead(c: char, inRun: bool): string {
    if !IsSpace(c) then [c] else if inRun then [] else "_"
  }

  lemma CollapseStep(s: string, inRun: bool)
    requires s != []
    ensures CollapseSpaces(s, inRun) == CollapsedHead(s[0], inRun) + CollapseSpaces(s[1..], IsSpace(s[0]))
  {
  }

  lemma LowerAppend(a: string, b: string)
    ensures Lower(a + b) == Lower(a) + Lower(b)
  {
  }

  /** The key of a lower-cased, stripped text is its collapsed form cut to
      50 characters; the first two steps distribute over concatenation. */
  lemma {:induction false} KeyOfParts(a: string, b: string)
    ensures StripDisallowed(Lower(a + b)) == StripDisallowed(Lower(a)) + StripDisallowed(Lower(b))
  {
    LowerAppend(a, b);
    StripAppend(Lower(a), Lower(b));
  }

  /** A character outside `[A-Za-z0-9\s]` is deleted rather than replaced:
      the key is as if it had not been there (`"Add-on"` gives `"addon"`). */
  lemma {:induction false} PunctuationDeleted(a: string, c: char, b: string)
    requires !Kept(LowerChar(c))
    ensures GenerateWarningKey(a + [c] + b) == GenerateWarningKey(a + b)
  {
    var sa, sb := StripDisallowed(Lower(a)), StripDisallowed(Lower(b));
    assert StripDisallowed(Lower([c])) == [] by {
      assert Lower([c]) == [LowerChar(c)];
    }
    assert StripDisallowed(Lower(a + [c])) == sa by {
      KeyOfParts(a, [c]);
    }
    assert StripDisallowed(Lower(a + [c] + b)) == sa + sb by {
      KeyOfParts(a + [c], b);
    }
    assert StripDisallowed(Lower(a + b)) == sa + sb by {
      KeyOfParts(a, b);
    }
  }

  /** A run of whitespace between two words becomes a single `_`. */
  lemma {:induction false} WhitespaceRunCollapsed(a: string, ws: string, b: string)
    requires a != [] && forall i :: 0 <= i < |a| ==> IsLower(a[i]) || IsDigit(a[i])
    requires ws != [] && forall i :: 0 <= i < |ws| ==> IsSpace(ws[i])
    requires b != [] && forall i :: 0 <= i < |b| ==> IsLower(b[i]) || IsDigit(b[i])
    requires |a| + 1 + |b| <= MaxKeyLength
    ensures GenerateWarningKey(a + ws + b) == a + "_" + b
  {
    var t := a + ws + b;
    assert forall i :: 0 <= i < |t| ==> Kept(t[i]) && !IsUpper(t[i]) by {
      forall i | 0 <= i < |t| ensures Kept(t[i]) && !IsUpper(t[i]) {
        if i < |a| { assert t[i] == a[i]; }
        else if i < |a| + |ws| { assert t[i] == ws[i - |a|]; }
        else { assert t[i] == b[i - |a| - |ws|]; }
      }
    }
    assert Lower(t) == t;
    StripKeepsKept(t);
    assert CollapseSpaces(a + ws, false) == a + "_" by {
      CollapseAppend(a, ws, false);
      CollapseWithoutSpaces(a, false);
      CollapseRun(ws);
    }
    assert CollapseSpaces(t, false) == a + "_" + b by {
      CollapseAppend(a + ws, b, false);
      CollapseWithoutSpaces(b, true);
      assert (a + ws)[|a + ws| - 1] == ws[|ws| - 1];
    }
  }

  /** A non-empty run of whitespace outside a run collapses to one `_`. */
  lemma {:induction false} CollapseRun(ws: string)
    requires ws != [] && forall i :: 0 <= i < |ws| ==> IsSpace(ws[i])
    ensures CollapseSpaces(ws, false) == "_"
  {
    CollapseInRun(ws[1..]);
  }

  lemma {:induction false} CollapseInRun(ws: string)
    requires forall i :: 0 <= i < |ws| ==> IsSpace(ws[i])
    ensures CollapseSpaces(ws, true) == []
    decreases |ws|
  {
    if ws != [] {
      CollapseInRun(ws[1..]);
    }
  }

  /** The underscore is itself deleted by the second step, so applying the
      key function to a key can change it. */
  lemma NotIdempotent()
    ensures GenerateWarningKey("a b") == "a_b"
    ensures GenerateWarningKey(GenerateWarningKey("a b")) == "ab"
  {
    WhitespaceRunCollapsed("a", " ", "b");
    assert "a" + " " + "b" == "a b";
    PunctuationDeleted("a", '_', "b");
    assert "a" + ['_'] + "b" == "a_b";
    PlainWordIsItsKey("ab");
  }
}
