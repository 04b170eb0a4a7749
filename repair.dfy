/** `repairTruncatedJson`: the best-effort mending of a JSON object that the
    language model cut off mid-way. The text is scanned once for open
    strings and open brackets, then an open string is closed, dangling keys
    and trailing commas are dropped, and the missing closers are appended.

    `Repaired` is the specification, one function per stage; the method
    `RepairTruncatedJson` is the source's loop-by-loop procedure, proved
    equal to it. */
module JsonRepair {
  import opened Strings
  import opened Json

  /** What the scan has seen so far: inside a string literal or not, whether
      the previous character was an unconsumed backslash, and the closers
      still owed, innermost last. */
  datatype ScanState = ScanState(inString: bool, escape: bool, closers: seq<char>)

  const Initial := ScanState(false, false, [])

  /** One character of the scan. A backslash escapes the next character
      inside and outside strings alike; brackets count only outside strings;
      a closer that does not match the innermost open bracket is ignored. */
  function Step(st: ScanState, c: char): ScanState {
    if st.escape then st.(escape := false)
    else if c == '\\' then st.(escape := true)
    else if c == '"' then st.(inString := !st.inString)
    else if st.inString then st
    else if c == '{' then st.(closers := st.closers + ['}'])
    else if c == '[' then st.(closers := st.closers + [']'])
    else if (c == '}' || c == ']') && |st.closers| > 0 && st.closers[|st.closers| - 1] == c then
      st.(closers := st.closers[..|st.closers| - 1])
    else st
  }

  /** The scan of a whole string, character by character from the left. */
  function Run(st: ScanState, s: string): ScanState
    decreases |s|
  {
    if s == [] then st else Step(Run(st, s[..|s| - 1]), s[|s| - 1])
  }

  /** Scanning one more character of `s`. */
  lemma {:induction false} RunPrefix(st: ScanState, s: string, i: int)
    requires 0 <= i < |s|
    ensures Run(st, s[..i + 1]) == Step(Run(st, s[..i]), s[i])
  {
    assert s[..i + 1][..i] == s[..i];
  }

  /** Scanning is a left fold: scanning `a + b` is scanning `b` from where `a` left off. */
  lemma {:induction false} RunAppend(st: ScanState, a: string, b: string)
    ensures Run(st, a + b) == Run(Run(st, a), b)
    decreases |b|
  {
    if b == [] {
      assert a + b == a;
    } else {
      var ab := a + b;
      assert ab[..|ab| - 1] == a + b[..|b| - 1];
      assert ab[|ab| - 1] == b[|b| - 1];
      RunAppend(st, a, b[..|b| - 1]);
    }
  }

  predicate AllClosers(cl: seq<char>) {
    forall i :: 0 <= i < |cl| ==> cl[i] == '}' || cl[i] == ']'
  }

  /** The stack only ever holds `}` and `]`. */
  lemma {:induction false} ClosersAreBrackets(st: ScanState, s: string)
    requires AllClosers(st.closers)
    ensures AllClosers(Run(st, s).closers)
    decreases |s|
  {
    if s != [] {
      ClosersAreBrackets(st, s[..|s| - 1]);
    }
  }

  /** A character that the scan ignores outside string literals. */
  predicate Inert(c: char) {
    c != '"' && c != '\\' && c != '{' && c != '[' && c != '}' && c != ']'
  }

  /** Outside strings, text without quotes, backslashes or brackets leaves the scan unchanged. */
  lemma {:induction false} ScanInert(st: ScanState, s: string)
    requires !st.inString && !st.escape
    requires forall i :: 0 <= i < |s| ==> Inert(s[i])
    ensures Run(st, s) == st
    decreases |s|
  {
    if s != [] {
      ScanInert(st, s[..|s| - 1]);
    }
  }

  /** Inside a string, text without quotes or backslashes leaves the scan
      unchanged: brackets in string values are not counted. */
  lemma {:induction false} ScanStringText(st: ScanState, s: string)
    requires st.inString && !st.escape
    requires forall i :: 0 <= i < |s| ==> s[i] != '"' && s[i] != '\\'
    ensures Run(st, s) == st
    decreases |s|
  {
    if s != [] {
      ScanStringText(st, s[..|s| - 1]);
    }
  }

  lemma {:induction false} RunOne(st: ScanState, a: char)
    ensures Run(st, [a]) == Step(st, a)
  {
    assert [a][..0] == [];
  }

  lemma {:induction false} RunTwo(st: ScanState, a: char, b: char)
    ensures Run(st, [a, b]) == Step(Step(st, a), b)
  {
    assert [a, b][..1] == [a];
    RunOne(st, a);
  }

  /** An escape sequence as `JSON.stringify` writes it is consumed inside the
      string: an escaped quote does not end the string. */
  lemma {:induction false} ScanEscapedChar(st: ScanState, c: char)
    requires st.inString && !st.escape
    ensures Run(st, EscapeChar(c)) == st
  {
    var r := EscapeChar(c);
    if r[0] == '\\' {
      RunAppend(st, r[..2], r[2..]);
      assert r[..2] == [r[0], r[1]];
      RunTwo(st, r[0], r[1]);
      ScanStringText(st, r[2..]);
      assert r[..2] + r[2..] == r;
    } else {
      ScanStringText(st, r);
    }
  }

  lemma {:induction false} ScanEscapeBody(st: ScanState, s: string)
    requires st.inString && !st.escape
    ensures Run(st, EscapeBody(s)) == st
    decreases |s|
  {
    if s != [] {
      RunAppend(st, EscapeChar(s[0]), EscapeBody(s[1..]));
      ScanEscapedChar(st, s[0]);
      ScanEscapeBody(st, s[1..]);
    }
  }

  /** A serialized string leaves the scan where it was. */
  lemma {:induction false} ScanQuote(st: ScanState, s: string)
    requires !st.inString && !st.escape
    ensures Run(st, Quote(s)) == st
  {
    var open := st.(inString := true);
    assert Run(st, "\"") == open;
    RunAppend(st, "\"", EscapeBody(s));
    ScanEscapeBody(open, s);
    RunAppend(st, "\"" + EscapeBody(s), "\"");
    assert Run(open, "\"") == st;
  }

  /** Joining pieces that each leave the scan unchanged leaves it unchanged. */
  lemma {:induction false} ScanJoin(st: ScanState, parts: seq<string>, sep: string)
    requires forall i :: 0 <= i < |parts| ==> Run(st, parts[i]) == st
    requires Run(st, sep) == st
    ensures Run(st, Join(parts, sep)) == st
    decreases |parts|
  {
    if |parts| > 1 {
      ScanJoin(st, parts[1..], sep);
      assert Join(parts, sep) == parts[0] + sep + Join(parts[1..], sep);
      RunAppend(st, parts[0], sep);
      RunAppend(st, parts[0] + sep, Join(parts[1..], sep));
    }
  }

  lemma {:induction false} IntTextInert(i: int)
    ensures forall k :: 0 <= k < |IntText(i)| ==> Inert(IntText(i)[k])
  {
    NatTextInert(if i < 0 then -i else i);
  }

  lemma {:induction false} NatTextInert(n: nat)
    ensures forall k :: 0 <= k < |NatText(n)| ==> IsDigit(NatText(n)[k])
    decreases n
  {
    if n >= 10 {
      NatTextInert(n / 10);
    }
  }

  /** Every serialized value is balanced: scanning it from outside any string
      ends in the state it started from. */
  lemma {:induction false} ScanSerialized(st: ScanState, v: Json)
    requires !st.inString && !st.escape
    ensures Run(st, Serialize(v)) == st
    decreases v
  {
    match v
    case JNull => ScanInert(st, "null");
    case JBool(b) => ScanInert(st, "true"); ScanInert(st, "false");
    case JInt(i) => IntTextInert(i); ScanInert(st, IntText(i));
    case JStr(s) => ScanQuote(st, s);
    case JArr(items) =>
      var inner := st.(closers := st.closers + [']']);
      var parts := seq(|items|, i requires 0 <= i < |items| => Serialize(items[i]));
      forall i | 0 <= i < |parts| ensures Run(inner, parts[i]) == inner {
        ScanSerialized(inner, items[i]);
      }
      ScanInert(inner, ",");
      ScanJoin(inner, parts, ",");
      BracketedScan(st, '[', ']', Join(parts, ","));
    case JObj(members) =>
      var inner := st.(closers := st.closers + ['}']);
      var parts := seq(|members|, i requires 0 <= i < |members| =>
                         Quote(members[i].0) + ":" + Serialize(members[i].1));
      forall i | 0 <= i < |parts| ensures Run(inner, parts[i]) == inner {
        ScanQuote(inner, members[i].0);
        ScanInert(inner, ":");
        ScanSerialized(inner, members[i].1);
        RunAppend(inner, Quote(members[i].0), ":");
        RunAppend(inner, Quote(members[i].0) + ":", Serialize(members[i].1));
      }
      ScanInert(inner, ",");
      ScanJoin(inner, parts, ",");
      BracketedScan(st, '{', '}', Join(parts, ","));
  }

  /** An opener, text balanced one level in, and the matching closer leave the scan unchanged. */
  lemma {:induction false} BracketedScan(st: ScanState, open: char, close: char, s: string)
    requires !st.inString && !st.escape
    requires (open == '[' && close == ']') || (open == '{' && close == '}')
    requires Run(st.(closers := st.closers + [close]), s) == st.(closers := st.closers + [close])
    ensures Run(st, [open] + s + [close]) == st
  {
    var inner := st.(closers := st.closers + [close]);
    RunOne(st, open);
    assert Run(st, [open]) == inner;
    RunAppend(st, [open], s);
    assert Run(st, [open] + s) == inner;
    RunAppend(st, [open] + s, [close]);
    RunOne(inner, close);
    StepCloses(st, close);
  }

  lemma {:induction false} StepCloses(st: ScanState, close: char)
    requires !st.inString && !st.escape
    requires close == ']' || close == '}'
    ensures Step(st.(closers := st.closers + [close]), close) == st
  {
    var inner := st.(closers := st.closers + [close]);
    assert inner.closers[..|inner.closers| - 1] == st.closers;
  }

  /** A closer outside strings that does not match the innermost open
      bracket, or that comes with nothing open, leaves the scan as it was. */
  lemma {:induction false} MismatchedCloserIgnored(st: ScanState, s: string, c: char)
    requires !Run(st, s).escape && !Run(st, s).inString && (c == '}' || c == ']')
    requires Run(st, s).closers == [] || Run(st, s).closers[|Run(st, s).closers| - 1] != c
    ensures Step(Run(st, s), c) == Run(st, s)
    ensures Run(st, s + [c]) == Run(st, s)
  {
    assert (s + [c])[..|s|] == s;
  }

  // ---- The stages after the scan ----

  /** `s` with its first `{` at the front: text before the first brace is
      dropped, and text without a brace is kept whole. */
  function CutToBrace(s: string): (r: string)
    ensures |r| <= |s|
    ensures '{' in s ==> |r| > 0 && r[0] == '{' && r == s[|s| - |r|..] && '{' !in s[..|s| - |r|]
    ensures '{' !in s ==> r == s
    ensures Trimmed(s) ==> Trimmed(r)
  {
    if StartsWith(s, "{") then s
    else
      var k := IndexOf(s, '{');
      if k != -1 then s[k..] else s
  }

  /** An unescaped quote at position `i`: a quote not preceded by a backslash
      (the character before position 0 counts as no backslash). */
  predicate QuoteAt(s: string, i: int)
    requires 0 <= i < |s|
  {
    s[i] == '"' && (i == 0 || s[i - 1] != '\\')
  }

  /** The last unescaped quote at or before position `j`, or -1. */
  function KeyStart(s: string, j: int): (k: int)
    requires -1 <= j < |s|
    ensures -1 <= k <= j
    ensures k >= 0 ==> QuoteAt(s, k)
    ensures forall i :: k < i <= j ==> !QuoteAt(s, i)
    decreases j + 1
  {
    if j < 0 then -1
    else if QuoteAt(s, j) then j
    else KeyStart(s, j - 1)
  }

  /** One round of dangling-key removal: drop the colon and, when a quoted
      key precedes it, the key from its opening quote on. */
  function DropColon(s: string): (r: string)
    requires EndsWith(s, ":")
    ensures |r| < |s| && Trimmed(r)
  {
    DropKey(Trim(s[..|s| - 1]))
  }

  /** The key removal proper, on the text before the colon. */
  function DropKey(t: string): (r: string)
    ensures |r| <= |t| && Trimmed(r)
  {
    var u := if EndsWith(t, "\"") then
               var j := KeyStart(t, |t| - 2);
               if j >= 0 then Trim(t[..j]) else t
             else t;
    Trim(u)
  }

  /** Removes dangling keys until the text no longer ends with a colon. */
  function DropDanglingKeys(s: string): (r: string)
    ensures !EndsWith(r, ":")
    ensures |r| <= |s|
    ensures Trimmed(s) ==> Trimmed(r)
    decreases |s|
  {
    if EndsWith(s, ":") then DropDanglingKeys(DropColon(s)) else s
  }

  /** Removes trailing commas, with the white space between them. */
  function DropTrailingCommas(s: string): (r: string)
    ensures !EndsWith(r, ",")
    ensures |r| <= |s|
    ensures Trimmed(s) ==> Trimmed(r)
    decreases |s|
  {
    if EndsWith(s, ",") then DropTrailingCommas(Trim(s[..|s| - 1])) else s
  }

  /** On trimmed text, dropping trailing commas removes only commas and white
      space, and only from the end. */
  lemma {:induction false} DropTrailingCommasSuffix(s: string)
    requires Trimmed(s)
    ensures var r := DropTrailingCommas(s);
      r == s[..|r|] && forall i :: |r| <= i < |s| ==> s[i] == ',' || IsSpace(s[i])
    decreases |s|
  {
    if EndsWith(s, ",") {
      var u := s[..|s| - 1];
      TrimOfLeftTrimmed(u);
      var t := Trim(u);
      assert t == u[..|t|] && t == s[..|t|];
      TrimIsTrimmed(u);
      DropTrailingCommasSuffix(t);
      var r := DropTrailingCommas(t);
      assert r == t[..|r|] == s[..|r|];
      forall i | |r| <= i < |s| ensures s[i] == ',' || IsSpace(s[i]) {
        if i < |t| {
          assert s[i] == t[i];
        } else if i < |u| {
          assert s[i] == u[i];
        }
      }
    }
  }

  /** Appends one closer, dropping a single comma right before it. */
  function CloseOne(s: string, c: char): string {
    var t := Trim(s);
    (if EndsWith(t, ",") then Trim(t[..|t| - 1]) else t) + [c]
  }

  /** Appends the owed closers, innermost first. */
  function CloseAll(s: string, closers: seq<char>): string
    decreases |closers|
  {
    if closers == [] then s
    else CloseAll(CloseOne(s, closers[|closers| - 1]), closers[..|closers| - 1])
  }

  function Reverse(s: seq<char>): (r: seq<char>)
    ensures |r| == |s|
    ensures forall i :: 0 <= i < |s| ==> r[i] == s[|s| - 1 - i]
    decreases |s|
  {
    if s == [] then [] else [s[|s| - 1]] + Reverse(s[..|s| - 1])
  }

  /** The text the repair works on: trimmed, from the first brace on. */
  function Cut(json: string): (r: string)
    ensures Trimmed(r)
  {
    TrimIsTrimmed(json);
    CutToBrace(Trim(json))
  }

  /** The scan of that text. */
  function Scan(json: string): ScanState {
    Run(Initial, Cut(json))
  }

  /** That text with an open string closed. */
  function ClosedText(json: string): (r: string)
    ensures Trimmed(r)
  {
    if Scan(json).inString then
      TrimmedAppend(Cut(json), '"');
      Cut(json) + "\""
    else Cut(json)
  }

  /** The mended text before the closers are appended. */
  function Body(json: string): string {
    DropTrailingCommas(Trim(DropDanglingKeys(Trim(ClosedText(json)))))
  }

  /** What `repairTruncatedJson(json)` returns. */
  function Repaired(json: string): string {
    if Cut(json) == [] then "{}"
    else CloseAll(Body(json), Scan(json).closers)
  }

  /** The source's procedure: one scanning loop, then a loop per stage. */
  method RepairTruncatedJson(json: string) returns (repaired: string)
    ensures repaired == Repaired(json)
  {
    repaired := Trim(json);
    if !StartsWith(repaired, "{") {
      var firstBrace := IndexOf(repaired, '{');
      if firstBrace != -1 {
        repaired := repaired[firstBrace..];
      }
    }
    if repaired == [] {
      return "{}";
    }
    assert repaired == Cut(json);
    var openQuote, stack := ScanText(repaired);
    ghost var closers := stack;
    // 1. close an open string
    if openQuote {
      repaired := repaired + "\"";
    }
    assert repaired == ClosedText(json);
    // 2. dangling keys
    repaired := Trim(repaired);
    repaired := StripDanglingKeys(repaired);
    // 3. trailing commas
    repaired := Trim(repaired);
    repaired := StripTrailingCommas(repaired);
    assert repaired == Body(json);
    // 4. the owed closers, innermost first
    repaired := AppendClosers(repaired, stack);
  }

  /** The scanning loop: whether the text ends inside a string, and the closers still owed. */
  method ScanText(text: string) returns (openQuote: bool, stack: seq<char>)
    ensures openQuote == Run(Initial, text).inString
    ensures stack == Run(Initial, text).closers
  {
    openQuote := false;
    var escape := false;
    stack := [];
    for i := 0 to |text|
      invariant ScanState(openQuote, escape, stack) == Run(Initial, text[..i])
    {
      var c := text[i];
      RunPrefix(Initial, text, i);
      if escape {
        escape := false;
      } else if c == '\\' {
        escape := true;
      } else if c == '"' {
        openQuote := !openQuote;
      } else if !openQuote {
        if c == '{' || c == '[' {
          stack := stack + [if c == '{' then '}' else ']'];
        } else if c == '}' || c == ']' {
          if |stack| > 0 && stack[|stack| - 1] == c {
            stack := stack[..|stack| - 1];
          }
        }
      }
    }
    assert text[..|text|] == text;
  }

  /** The dangling-key loop. */
  method StripDanglingKeys(text: string) returns (repaired: string)
    ensures repaired == DropDanglingKeys(text)
  {
    repaired := text;
    while EndsWith(repaired, ":")
      invariant DropDanglingKeys(repaired) == DropDanglingKeys(text)
      decreases |repaired|
    {
      ghost var before := repaired;
      repaired := Trim(repaired[..|repaired| - 1]);
      ghost var t := repaired;
      if EndsWith(repaired, "\"") {
        var j := FindKeyStart(repaired);
        if j >= 0 {
          repaired := Trim(repaired[..j]);
        }
      }
      repaired := Trim(repaired);
      assert repaired == DropColon(before);
    }
  }

  /** The backward search for the quote that opens the key ending the text. */
  method FindKeyStart(text: string) returns (j: int)
    requires |text| >= 1
    ensures j == KeyStart(text, |text| - 2)
  {
    j := |text| - 2;
    while j >= 0 && !QuoteAt(text, j)
      invariant -1 <= j <= |text| - 2
      invariant KeyStart(text, j) == KeyStart(text, |text| - 2)
    {
      j := j - 1;
    }
  }

  /** The trailing-comma loop. */
  method StripTrailingCommas(text: string) returns (repaired: string)
    ensures repaired == DropTrailingCommas(text)
  {
    repaired := text;
    while EndsWith(repaired, ",")
      invariant DropTrailingCommas(repaired) == DropTrailingCommas(text)
      decreases |repaired|
    {
      repaired := Trim(repaired[..|repaired| - 1]);
    }
  }

  /** The closing loop: pops the stack, appending each closer. */
  method AppendClosers(text: string, closers: seq<char>) returns (repaired: string)
    ensures repaired == CloseAll(text, closers)
  {
    repaired := text;
    var stack := closers;
    while |stack| > 0
      invariant CloseAll(repaired, stack) == CloseAll(text, closers)
      decreases |stack|
    {
      var needed := stack[|stack| - 1];
      ghost var before := repaired;
      assert CloseAll(before, stack) == CloseAll(CloseOne(before, needed), stack[..|stack| - 1]);
      stack := stack[..|stack| - 1];
      repaired := Trim(repaired);
      if EndsWith(repaired, ",") {
        repaired := Trim(repaired[..|repaired| - 1]);
      }
      repaired := repaired + [needed];
      assert repaired == CloseOne(before, needed);
    }
  }

  // ---- Properties of the repair ----

  /** Blank input repairs to the empty object. */
  lemma {:induction false} BlankRepairsToEmptyObject(json: string)
    requires forall i :: 0 <= i < |json| ==> IsSpace(json[i])
    ensures Repaired(json) == "{}"
  {
    TrimEmptyIffBlank(json);
  }

  /** Appending closers to text that is trimmed and does not end with a comma
      appends exactly those closers, innermost first. */
  lemma {:induction false} CloseAllAppends(s: string, closers: seq<char>)
    requires Trimmed(s) && !EndsWith(s, ",")
    requires AllClosers(closers)
    ensures CloseAll(s, closers) == s + Reverse(closers)
    decreases |closers|
  {
    if closers != [] {
      var n := |closers| - 1;
      var c := closers[n];
      var rest := closers[..n];
      var t := s + [c];
      assert AllClosers(rest) by { assert forall i :: 0 <= i < n ==> rest[i] == closers[i]; }
      assert CloseAll(s, closers) == CloseAll(t, rest) by { CloseOneAppends(s, c); }
      assert CloseAll(t, rest) == t + Reverse(rest) by {
        CloseOneAppends(s, c);
        CloseAllAppends(t, rest);
      }
      ReverseLast(s, closers);
    }
  }

  lemma {:induction false} ReverseLast(s: string, closers: seq<char>)
    requires closers != []
    ensures s + [closers[|closers| - 1]] + Reverse(closers[..|closers| - 1]) == s + Reverse(closers)
  {
    var c := closers[|closers| - 1];
    var r := Reverse(closers[..|closers| - 1]);
    assert Reverse(closers) == [c] + r;
    assert s + [c] + r == s + ([c] + r);
  }

  /** One closer after trimmed text that does not end with a comma is simply appended. */
  lemma {:induction false} CloseOneAppends(s: string, c: char)
    requires Trimmed(s) && !EndsWith(s, ",")
    requires c == '}' || c == ']'
    ensures CloseOne(s, c) == s + [c]
    ensures Trimmed(s + [c]) && !EndsWith(s + [c], ",")
  {
    TrimOfTrimmed(s);
    TrimmedAppend(s, c);
    assert (s + [c])[|s + [c]| - 1] == c;
  }

  /** The shape of every repair of non-blank text: a trimmed body that does not
      end with a comma, followed by exactly the closers the scan found still
      open, innermost first, and nothing else. */
  lemma {:induction false} RepairShape(json: string)
    requires Cut(json) != []
    ensures Repaired(json) == Body(json) + Reverse(Scan(json).closers)
    ensures Trimmed(Body(json)) && !EndsWith(Body(json), ",")
    ensures AllClosers(Scan(json).closers)
  {
    TrimIsTrimmed(DropDanglingKeys(Trim(ClosedText(json))));
    ClosersAreBrackets(Initial, Cut(json));
    CloseAllAppends(Body(json), Scan(json).closers);
  }

  /** When the text, with any open string closed, ends in neither a colon nor
      a comma, the mending stages leave it as it is. */
  lemma {:induction false} BodyOfCompleteText(json: string)
    requires !EndsWith(ClosedText(json), ":") && !EndsWith(ClosedText(json), ",")
    ensures Body(json) == ClosedText(json)
  {
    TrimOfTrimmed(ClosedText(json));
  }

  /** Text cut right after a complete value (outside any string, not after a
      colon or comma) keeps everything and gets the open brackets closed. */
  lemma {:induction false} CutAfterValueClosed(json: string)
    requires Cut(json) != []
    requires !Scan(json).inString
    requires !EndsWith(Cut(json), ":") && !EndsWith(Cut(json), ",")
    ensures Repaired(json) == Cut(json) + Reverse(Scan(json).closers)
  {
    BodyOfCompleteText(json);
    RepairShape(json);
  }

  /** Text that is already complete (after the first brace: no open string,
      no open bracket, no trailing colon or comma) is returned as it is. */
  lemma {:induction false} CompleteTextUnchanged(json: string)
    requires Cut(json) != []
    requires !Scan(json).inString && Scan(json).closers == []
    requires !EndsWith(Cut(json), ":") && !EndsWith(Cut(json), ",")
    ensures Repaired(json) == Cut(json)
  {
    CutAfterValueClosed(json);
    assert Reverse(Scan(json).closers) == [];
  }

  /** A well-formed object, as `JSON.stringify` writes it and with any white
      space around it, is left untouched by the repair. */
  lemma {:induction false} SerializedObjectUnchanged(pre: string, members: seq<(string, Json)>, post: string)
    requires forall i :: 0 <= i < |pre| ==> IsSpace(pre[i])
    requires forall i :: 0 <= i < |post| ==> IsSpace(post[i])
    ensures Repaired(pre + Serialize(JObj(members)) + post) == Serialize(JObj(members))
  {
    var t := Serialize(JObj(members));
    SerializedObjectShape(members);
    TrimPadded(pre, t, post);
    var json := pre + t + post;
    assert StartsWith(t, "{");
    assert Cut(json) == t;
    ScanSerialized(Initial, JObj(members));
    CompleteTextUnchanged(json);
  }

  /** Text cut inside a string literal gets the string closed, then every open bracket closed. */
  lemma {:induction false} OpenStringClosed(json: string)
    requires Cut(json) != []
    requires Scan(json).inString
    ensures Repaired(json) == Cut(json) + "\"" + Reverse(Scan(json).closers)
  {
    assert ClosedText(json) == Cut(json) + "\"";
    BodyOfCompleteText(json);
    RepairShape(json);
  }

  /** A dangling key is text `"key":` whose key has no quotes or backslashes;
      `DanglingKeyAt(s, k)` says `s` ends with one that opens at position `k`. */
  predicate DanglingKeyAt(s: string, k: int) {
    && 0 <= k < |s| - 2
    && s[k] == '"' && s[|s| - 2] == '"' && s[|s| - 1] == ':'
    && forall i :: k < i < |s| - 2 ==> s[i] != '"' && s[i] != '\\'
  }

  /** Inside the key, the scan stays inside a string. */
  lemma {:induction false} ScanKeyPrefix(st: ScanState, s: string, k: int, i: int)
    requires !st.inString && !st.escape
    requires DanglingKeyAt(s, k) && k < i <= |s| - 2
    ensures Run(st, s[k..i]) == st.(inString := true)
    decreases i
  {
    if i == k + 1 {
      assert s[k..i] == [s[k]];
      RunOne(st, s[k]);
    } else {
      ScanKeyPrefix(st, s, k, i - 1);
      RunPrefix(st, s[k..], i - 1 - k);
      assert s[k..][..i - 1 - k] == s[k..i - 1] && s[k..][..i - k] == s[k..i];
    }
  }

  /** The scan passes over a dangling key and its colon without a change. */
  lemma {:induction false} ScanDanglingKey(st: ScanState, s: string, k: int)
    requires !st.inString && !st.escape
    requires DanglingKeyAt(s, k)
    ensures Run(st, s[k..]) == st
  {
    var n := |s|;
    ScanKeyPrefix(st, s, k, n - 2);
    RunPrefix(st, s[k..], n - 2 - k);
    assert s[k..][..n - 2 - k] == s[k..n - 2] && s[k..][..n - 1 - k] == s[k..n - 1];
    RunPrefix(st, s[k..], n - 1 - k);
    assert s[k..][..n - k] == s[k..];
  }

  /** The backward search from the end of a dangling key finds its opening quote. */
  lemma {:induction false} KeyStartOfDanglingKey(s: string, k: int)
    requires DanglingKeyAt(s, k) && (k == 0 || s[k - 1] != '\\')
    ensures var t := s[..|s| - 1]; KeyStart(t, |t| - 2) == k
  {
    var t := s[..|s| - 1];
    KeyStartSkips(t, |t| - 2, k);
    assert QuoteAt(t, k);
  }

  /** Key removal on trimmed text ending with a quoted key opened at position `k`. */
  lemma {:induction false} DropKeyAt(t: string, k: int)
    requires Trimmed(t) && EndsWith(t, "\"")
    requires k >= 0 && KeyStart(t, |t| - 2) == k
    ensures DropKey(t) == Trim(Trim(t[..k]))
  {
  }

  lemma {:induction false} EndsWithQuoteTrimmed(t: string)
    requires |t| > 0 && !IsSpace(t[0]) && t[|t| - 1] == '"'
    ensures Trimmed(t) && Trim(t) == t && EndsWith(t, "\"")
  {
    TrimOfTrimmed(t);
  }

  lemma {:induction false} DropColonBeforeKey(s: string, k: int)
    requires DanglingKeyAt(s, k) && !IsSpace(s[0])
    ensures DropColon(s) == DropKey(s[..|s| - 1])
  {
    EndsWithQuoteTrimmed(s[..|s| - 1]);
  }

  lemma {:induction false} DropKeyOfDanglingKey(s: string, k: int)
    requires DanglingKeyAt(s, k) && !IsSpace(s[0]) && (k == 0 || s[k - 1] != '\\')
    ensures DropKey(s[..|s| - 1]) == Trim(Trim(s[..k]))
  {
    var t := s[..|s| - 1];
    EndsWithQuoteTrimmed(t);
    KeyStartOfDanglingKey(s, k);
    DropKeyAt(t, k);
    assert t[..k] == s[..k];
  }

  /** One round of removal on a dangling key at position `k`: what remains is
      the trimmed text before the key. */
  lemma {:induction false} DropColonOfDanglingKey(s: string, k: int)
    requires DanglingKeyAt(s, k) && !IsSpace(s[0]) && (k == 0 || s[k - 1] != '\\')
    ensures DropColon(s) == Trim(s[..k])
  {
    DropColonBeforeKey(s, k);
    DropKeyOfDanglingKey(s, k);
    TrimIdempotent(s[..k]);
  }

  /** Positions without an unescaped quote are skipped by the backward search. */
  lemma {:induction false} KeyStartSkips(s: string, j: int, k: int)
    requires -1 <= k <= j < |s|
    requires forall i :: k < i <= j ==> !QuoteAt(s, i)
    ensures KeyStart(s, j) == KeyStart(s, k)
    decreases j - k
  {
    if j > k {
      KeyStartSkips(s, j - 1, k);
    }
  }

  /** Text that starts with a brace and ends with a non-space is its own cut. */
  lemma {:induction false} CutOfBraceText(json: string)
    requires |json| > 0 && json[0] == '{' && !IsSpace(json[|json| - 1])
    ensures Cut(json) == json
  {
    TrimOfTrimmed(json);
    CutToBraceOfBrace(json);
  }

  lemma {:induction false} CutToBraceOfBrace(s: string)
    requires |s| > 0 && s[0] == '{'
    ensures CutToBrace(s) == s
  {
    assert s[..1] == "{";
  }

  lemma {:induction false} ScanOfDanglingKeyText(json: string, k: int)
    requires DanglingKeyAt(json, k) && json[0] == '{'
    requires !Run(Initial, json[..k]).inString && !Run(Initial, json[..k]).escape
    ensures Scan(json) == Run(Initial, json[..k])
  {
    CutOfBraceText(json);
    ScanSplit(json, k);
    ScanDanglingKey(Run(Initial, json[..k]), json, k);
  }

  lemma {:induction false} ScanSplit(s: string, k: int)
    requires 0 <= k <= |s|
    ensures Run(Initial, s) == Run(Run(Initial, s[..k]), s[k..])
  {
    RunAppend(Initial, s[..k], s[k..]);
    assert s[..k] + s[k..] == s;
  }

  lemma {:induction false} BodyOfDanglingKeyText(json: string, k: int)
    requires DanglingKeyAt(json, k) && json[0] == '{' && (k == 0 || json[k - 1] != '\\')
    requires !Scan(json).inString
    requires !EndsWith(Trim(json[..k]), ":")
    ensures Body(json) == DropTrailingCommas(Trim(json[..k]))
  {
    assert ClosedText(json) == json by {
      CutOfBraceText(json);
    }
    assert Trim(json) == json by {
      TrimOfTrimmed(json);
    }
    DanglingKeysOfKeyText(json, k);
    TrimIdempotent(json[..k]);
  }

  lemma {:induction false} DanglingKeysOfKeyText(json: string, k: int)
    requires DanglingKeyAt(json, k) && !IsSpace(json[0]) && (k == 0 || json[k - 1] != '\\')
    requires !EndsWith(Trim(json[..k]), ":")
    ensures DropDanglingKeys(json) == Trim(json[..k])
  {
    DropColonOfDanglingKey(json, k);
  }

  /** Text cut right after a key's colon loses that key and the comma before
      it, and gets the open brackets closed: the text `p"key":`, where `p` is
      `json[..k]`, starts with a brace, ends outside any string and does not
      end with a backslash, repairs to `p` without its trailing commas,
      followed by the closers `p` leaves open. */
  lemma {:induction false} DanglingKeyDropped(json: string, k: int)
    requires DanglingKeyAt(json, k) && json[0] == '{' && (k == 0 || json[k - 1] != '\\')
    requires !Run(Initial, json[..k]).inString && !Run(Initial, json[..k]).escape
    requires !EndsWith(Trim(json[..k]), ":")
    ensures Repaired(json)
         == DropTrailingCommas(Trim(json[..k])) + Reverse(Run(Initial, json[..k]).closers)
  {
    ScanOfDanglingKeyText(json, k);
    BodyOfDanglingKeyText(json, k);
    CutOfBraceText(json);
    RepairShape(json);
  }
}
