/** The tail of digest generation: choosing the JSON object in the model's
    reply, parsing it (with one repair attempt for truncated replies) and
    reading the summary and attention count that head the digest it
    computes.
    `JSON.parse` is a parameter (a `Parser`). */
module DigestResponse {
  import opened Wrappers
  import opened Strings
  import opened Json
  import JsonRepair

  const Fence := "```"
  const DefaultSummary := "Daily Digest generated"
  const NoContentError := "No content generated by Gemini"
  const NoKeyError := "GEMINI_API_KEY not configured"

  /** Hours of history a digest of this type looks back over. */
  function WindowHours(kind: string): (h: nat)
    ensures kind == "weekly" ==> h == 168
    ensures kind != "weekly" ==> h == 24
  {
    if kind == "weekly" then 168 else 24
  }

  /** The start of the window, in milliseconds, for a digest made at `now`. */
  function WindowStart(now: int, kind: string): (start: int)
    ensures now - start == WindowHours(kind) * 3600000
    ensures start < now
  {
    now - WindowHours(kind) * 60 * 60 * 1000
  }

  // ---- Choosing the fenced segment ----

  /** A trimmed fence segment the extraction takes: it opens an object, or
      carries a `json` tag in any letter case. */
  predicate Accepts(part: string) {
    StartsWith(part, "{") || StartsWith(Lower(part), "json")
  }

  /** A taken segment without its `json` tag. */
  function Untag(part: string): string {
    if StartsWith(Lower(part), "json") then Trim(part[4..]) else part
  }

  /** The index of the first segment at or after `from` that is taken, if any. */
  function FirstAccepted(parts: seq<string>, from: nat): (r: Option<nat>)
    requires from <= |parts|
    ensures r.Some? ==> from <= r.value < |parts| && Accepts(Trim(parts[r.value]))
    ensures r.Some? ==> forall j :: from <= j < r.value ==> !Accepts(Trim(parts[j]))
    ensures r.None? ==> forall j :: from <= j < |parts| ==> !Accepts(Trim(parts[j]))
    decreases |parts| - from
  {
    if from == |parts| then None
    else if Accepts(Trim(parts[from])) then Some(from)
    else FirstAccepted(parts, from + 1)
  }

  /** The text after the fence step, for trimmed reply text `text`. */
  function Unfenced(text: string): string {
    if !Contains(text, Fence) then text
    else
      var parts := Split(text, Fence);
      match FirstAccepted(parts, 0)
      case None => text
      case Some(i) => Untag(Trim(parts[i]))
  }

  // ---- Cutting to the braces ----

  /** From the first `{` on; then, if the text up to the last `}` parses on
      its own, only that much. */
  function BraceCut(text: string, parse: Parser): (r: string)
    ensures '{' !in text ==> r == text
    ensures '{' in text ==> r != [] && r[0] == '{' && StartsWith(text[IndexOf(text, '{')..], r)
    ensures '{' in text && r != text[IndexOf(text, '{')..] ==>
              parse(r).Ok? && r[|r| - 1] == '}' && '}' !in text[IndexOf(text, '{') + |r|..]
    ensures var tail := text[if '{' in text then IndexOf(text, '{') else 0..];
      '{' in text && LastIndexOf(tail, '}') != -1 && parse(tail[..LastIndexOf(tail, '}') + 1]).Ok? ==>
        r == tail[..LastIndexOf(tail, '}') + 1]
  {
    var first := IndexOf(text, '{');
    if first == -1 then text
    else
      var tail := text[first..];
      var last := LastIndexOf(tail, '}');
      if last == -1 then tail
      else
        var candidate := tail[..last + 1];
        if parse(candidate).Ok? then candidate else tail
  }

  /** An object with prose before and after it, the prose holding no `{`
      before and no `}` after, is cut out exactly when it parses. */
  lemma {:induction false} ProseAroundObjectCut(p: string, t: string, q: string, parse: Parser)
    requires '{' !in p && '}' !in q
    requires |t| >= 2 && t[0] == '{' && t[|t| - 1] == '}'
    requires parse(t).Ok?
    ensures BraceCut(p + t + q, parse) == t
  {
    var text := p + t + q;
    assert text[|p|] == '{';
    assert text[..|p|] == p;
    var first := IndexOf(text, '{');
    assert first == |p|;
    var tail := text[first..];
    assert tail == t + q;
    var last := LastIndexOf(tail, '}');
    assert tail[|t| - 1] == '}';
    assert last == |t| - 1;
    assert tail[..last + 1] == t;
  }

  /** The text handed to the final parse. */
  function Extracted(content: string, parse: Parser): string {
    BraceCut(Unfenced(Trim(content)), parse)
  }

  // ---- Parsing, with one repair attempt ----

  /** A parse error message that reads like input cut short. */
  predicate LooksTruncated(message: string) {
    Contains(Lower(message), "unexpected end") || Contains(Lower(message), "expected ',' or ']'")
  }

  /** The first 300 characters, as `substring(0, 300)`. */
  function Preview(content: string): (r: string)
    ensures |r| == if |content| < 300 then |content| else 300
    ensures StartsWith(content, r)
  {
    if |content| <= 300 then content else content[..300]
  }

  function InvalidJsonError(message: string, content: string): string {
    "Gemini returned invalid JSON. Error: " + message + ". Preview: " + Preview(content) + "..."
  }

  function TruncatedJsonError(message: string): string {
    "Gemini returned malformed/truncated JSON. Original error: " + message
  }

  /** The parsed reply, or the error the generation fails with. */
  function Parsed(text: string, content: string, parse: Parser): Result<Json, string> {
    match parse(text)
    case Ok(v) => Ok(v)
    case Err(m) =>
      if !LooksTruncated(m) then Err(InvalidJsonError(m, content))
      else
        match parse(JsonRepair.Repaired(text))
        case Ok(v) => Ok(v)
        case Err(_) => Err(TruncatedJsonError(m))
  }

  // ---- The digest header ----

  /** `v.length` in JavaScript, `None` standing for `undefined`. */
  function LengthOf(v: Json): (r: Option<Json>)
    ensures v.JArr? ==> r == Some(JInt(|v.items|))
    ensures v.JStr? ==> r == Some(JInt(|v.s|))
    ensures v.JNull? || v.JBool? || v.JInt? ==> r.None?
  {
    match v
    case JArr(items) => Some(JInt(|items|))
    case JStr(s) => Some(JInt(|s|))
    case JObj(_) => Get(v, "length")
    case _ => None
  }

  /** The digest header generation computes: the type, the content text,
      the summary and the attention count; `attentionCount` is `None` where
      JavaScript would leave it `undefined`. */
  datatype Digest = Digest(kind: string, content: string, summary: Json, attentionCount: Option<Json>)

  /** `v.summary || 'Daily Digest generated'`: always truthy, and either the
      reply's own summary or the default. */
  function Summary(v: Json): (r: Json)
    ensures Truthy(r)
    ensures r == JStr(DefaultSummary) || Get(v, "summary") == Some(r)
    ensures (match Get(v, "summary") case Some(x) => Truthy(x) case None => false) ==> Get(v, "summary") == Some(r)
  {
    match Get(v, "summary")
    case Some(s) => if Truthy(s) then s else JStr(DefaultSummary)
    case None => JStr(DefaultSummary)
  }

  /** `v.attention_items ? v.attention_items.length : 0`: a list gives its
      length, a missing or falsy value gives 0. */
  function AttentionCount(v: Json): (r: Option<Json>)
    ensures (match Get(v, "attention_items") case Some(x) => !Truthy(x) case None => true) ==> r == Some(JInt(0))
    ensures (match Get(v, "attention_items") case Some(x) => x.JArr? case None => false) ==>
              r == Some(JInt(|Get(v, "attention_items").value.items|))
  {
    match Get(v, "attention_items")
    case Some(items) => if Truthy(items) then LengthOf(items) else Some(JInt(0))
    case None => Some(JInt(0))
  }

  /** The digest made from the parsed reply; reading a property of `null`
      throws. */
  function DigestOf(kind: string, v: Json): Result<Digest, string> {
    if v.JNull? then Err("Cannot read properties of null (reading 'summary')")
    else Ok(Digest(kind, Serialize(v), Summary(v), AttentionCount(v)))
  }

  /** The whole tail of `generateDigest`, from the API key check and the
      model's reply text (`None` when the reply has none) to the digest. */
  function Generated(apiKey: Option<string>, kind: string, reply: Option<string>, parse: Parser): Result<Digest, string> {
    if apiKey.None? || apiKey.value == "" then Err(NoKeyError)
    else if reply.None? || reply.value == "" then Err(NoContentError)
    else
      match Parsed(Extracted(reply.value, parse), reply.value, parse)
      case Err(e) => Err(e)
      case Ok(v) => DigestOf(kind, v)
  }

  // ---- The procedure ----

  /** The extraction as the source writes it: the fence loop with its early
      exit, then the brace cut. */
  method Extract(content: string, parse: Parser) returns (jsonContent: string)
    ensures jsonContent == Extracted(content, parse)
  {
    jsonContent := Trim(content);
    jsonContent := ChooseSegment(jsonContent);
    jsonContent := CutBraces(jsonContent, parse);
  }

  /** The fence loop: the first taken segment, untagged, or the text itself. */
  method ChooseSegment(text: string) returns (jsonContent: string)
    ensures jsonContent == Unfenced(text)
  {
    jsonContent := text;
    if Contains(text, Fence) {
      var parts := Split(text, Fence);
      var i := 0;
      var taken := false;
      while i < |parts| && !taken
        invariant 0 <= i <= |parts|
        invariant !taken ==> FirstAccepted(parts, 0) == FirstAccepted(parts, i)
        invariant !taken ==> jsonContent == text
        invariant taken ==> 0 < i && FirstAccepted(parts, 0) == Some(i - 1)
        invariant taken ==> jsonContent == Untag(Trim(parts[i - 1]))
        decreases |parts| - i
      {
        var part := Trim(parts[i]);
        if StartsWith(part, "{") || StartsWith(Lower(part), "json") {
          jsonContent := part;
          if StartsWith(Lower(jsonContent), "json") {
            jsonContent := Trim(jsonContent[4..]);
          }
          taken := true;
        }
        i := i + 1;
      }
    }
  }

  /** The brace cut: from the first `{`, and up to the last `}` if that parses. */
  method CutBraces(text: string, parse: Parser) returns (jsonContent: string)
    ensures jsonContent == BraceCut(text, parse)
  {
    jsonContent := text;
    var firstBrace := IndexOf(jsonContent, '{');
    if firstBrace != -1 {
      jsonContent := jsonContent[firstBrace..];
      var lastBrace := LastIndexOf(jsonContent, '}');
      if lastBrace != -1 {
        var candidate := jsonContent[..lastBrace + 1];
        if parse(candidate).Ok? {
          jsonContent := candidate;
        }
      }
    }
  }

  /** Parsing with the repair attempt, calling the repair procedure. */
  method ParseReply(jsonContent: string, content: string, parse: Parser) returns (r: Result<Json, string>)
    ensures r == Parsed(jsonContent, content, parse)
  {
    var first := parse(jsonContent);
    if first.Ok? {
      return Ok(first.value);
    }
    var m := first.error;
    if LooksTruncated(m) {
      var repairedJson := JsonRepair.RepairTruncatedJson(jsonContent);
      var second := parse(repairedJson);
      if second.Ok? {
        r := Ok(second.value);
      } else {
        r := Err(TruncatedJsonError(m));
      }
    } else {
      r := Err(InvalidJsonError(m, content));
    }
  }

  /** The tail of `generateDigest`. */
  method GenerateDigest(apiKey: Option<string>, kind: string, reply: Option<string>, parse: Parser)
    returns (r: Result<Digest, string>)
    ensures r == Generated(apiKey, kind, reply, parse)
  {
    if apiKey.None? || apiKey.value == "" {
      return Err(NoKeyError);
    }
    if reply.None? || reply.value == "" {
      return Err(NoContentError);
    }
    var content := reply.value;
    var jsonContent := Extract(content, parse);
    var parsed := ParseReply(jsonContent, content, parse);
    if parsed.Err? {
      return Err(parsed.error);
    }
    r := DigestOf(kind, parsed.value);
  }

  // ---- Properties ----

  /** Repair is attempted only for errors that look like truncation: the
      reply parses in the end exactly when it parses at once, or its error
      looks like truncation and the repaired text parses. */
  lemma {:induction false} ParsedIff(text: string, content: string, parse: Parser)
    ensures Parsed(text, content, parse).Ok? <==>
              parse(text).Ok? || (LooksTruncated(parse(text).error) && parse(JsonRepair.Repaired(text)).Ok?)
    ensures parse(text).Ok? ==> Parsed(text, content, parse) == parse(text)
    ensures parse(text).Err? && !LooksTruncated(parse(text).error) ==>
              Parsed(text, content, parse) == Err(InvalidJsonError(parse(text).error, content))
    ensures parse(text).Err? && LooksTruncated(parse(text).error) && parse(JsonRepair.Repaired(text)).Err? ==>
              Parsed(text, content, parse) == Err(TruncatedJsonError(parse(text).error))
  {
  }

  /** Every successful generation computes the reply's value as
      `JSON.stringify` writes it, with a truthy summary. */
  lemma {:induction false} GeneratedDigestShape(apiKey: Option<string>, kind: string, reply: Option<string>, parse: Parser)
    requires Generated(apiKey, kind, reply, parse).Ok?
    ensures var d := Generated(apiKey, kind, reply, parse).value;
            && d.kind == kind
            && Truthy(d.summary)
            && exists v: Json :: !v.JNull? && Parsed(Extracted(reply.value, parse), reply.value, parse) == Ok(v)
                           && d.content == Serialize(v)
  {
    var v := Parsed(Extracted(reply.value, parse), reply.value, parse).value;
    assert !v.JNull?;
  }

  /** Text that opens and closes with braces and parses is taken whole by the brace cut. */
  lemma {:induction false} ObjectTextKept(text: string, parse: Parser)
    requires text != [] && text[0] == '{' && text[|text| - 1] == '}'
    requires parse(text).Ok?
    ensures BraceCut(text, parse) == text
  {
    assert IndexOf(text, '{') == 0;
    assert text[0..] == text;
    assert LastIndexOf(text, '}') == |text| - 1;
    assert text[..|text|] == text;
  }

  /** Text without a fence passes the fence step unchanged. */
  lemma {:induction false} UnfencedWithoutFence(text: string)
    requires !Contains(text, Fence)
    ensures Unfenced(text) == text
  {
  }

  /** A bare object reply, as `JSON.stringify` writes it and with any white
      space around it, becomes the digest's content as it is, given a parser
      that reads it back. */
  lemma {:induction false} PlainObjectReplyContent(key: string, kind: string, pre: string, members: seq<(string, Json)>,
                                                  post: string, parse: Parser)
    requires key != ""
    requires forall i :: 0 <= i < |pre| ==> IsSpace(pre[i])
    requires forall i :: 0 <= i < |post| ==> IsSpace(post[i])
    requires !Contains(Serialize(JObj(members)), Fence)
    requires parse(Serialize(JObj(members))) == Ok(JObj(members))
    ensures Generated(Some(key), kind, Some(pre + Serialize(JObj(members)) + post), parse)
         == Ok(Digest(kind, Serialize(JObj(members)), Summary(JObj(members)), AttentionCount(JObj(members))))
  {
    var t := Serialize(JObj(members));
    var reply := pre + t + post;
    SerializedObjectShape(members);
    TrimPadded(pre, t, post);
    assert reply != "";
    PlainObjectExtracted(reply, t, parse);
  }

  /** A reply that trims to an object text without a fence, which parses, is
      extracted as that text. */
  lemma {:induction false} PlainObjectExtracted(reply: string, t: string, parse: Parser)
    requires Trim(reply) == t && !Contains(t, Fence)
    requires t != [] && t[0] == '{' && t[|t| - 1] == '}'
    requires parse(t).Ok?
    ensures Extracted(reply, parse) == t
  {
    UnfencedWithoutFence(t);
    ObjectTextKept(t, parse);
  }

  /** No backtick in a string. */
  predicate NoBacktick(s: string) {
    forall i :: 0 <= i < |s| ==> s[i] != '`'
  }

  /** Every occurrence of the fence is three backticks. */
  lemma FenceAt(s: string, j: int)
    requires OccursAt(s, Fence, j)
    ensures s[j] == '`' && s[j + 1] == '`' && s[j + 2] == '`'
  {
    var w := s[j..j + 3];
    assert w == Fence;
    assert w[0] == s[j] && w[1] == s[j + 1] && w[2] == s[j + 2];
  }

  lemma {:induction false} NoFenceAround(a: string, t: string, b: string)
    requires NoBacktick(a) && NoBacktick(b) && !Contains(t, Fence)
    ensures !Contains(a + t + b, Fence)
  {
    var s := a + t + b;
    if Contains(s, Fence) {
      var j := Find(s, Fence);
      FenceAt(s, j);
      assert |a| <= j && j + 3 <= |a| + |t|;
      assert OccursAt(t, Fence, j - |a|) by { assert t[j - |a|..j - |a| + 3] == s[j..j + 3]; }
      assert false;
    }
  }

  /** After text without backticks, the first fence is the one that follows it. */
  lemma {:induction false} FindAfterPlainText(p: string, r: string)
    requires NoBacktick(p) && StartsWith(r, Fence)
    ensures Find(p + r, Fence) == |p|
  {
    var s := p + r;
    assert OccursAt(s, Fence, |p|) by { assert s[|p|..|p| + 3] == r[..3]; }
    forall j | 0 <= j < |p| ensures !OccursAt(s, Fence, j) {
      if OccursAt(s, Fence, j) {
        FenceAt(s, j);
      }
    }
    FindIs(s, Fence, |p|);
  }

  /** In fence-free text not ending with a backtick, followed by a fence,
      the first fence is that one. */
  lemma {:induction false} FindClosingFence(x: string)
    requires !Contains(x, Fence) && x != [] && x[|x| - 1] != '`'
    ensures Find(x + Fence, Fence) == |x|
  {
    var u := x + Fence;
    assert OccursAt(u, Fence, |x|) by { assert u[|x|..|x| + 3] == Fence; }
    forall j | 0 <= j < |x| ensures !OccursAt(u, Fence, j) {
      if OccursAt(u, Fence, j) {
        FenceAt(u, j);
        if j + 3 <= |x| {
          assert OccursAt(x, Fence, j) by { assert x[j..j + 3] == u[j..j + 3]; }
        }
      }
    }
    FindIs(u, Fence, |x|);
  }

  /** One step of `split`: the text before the first fence, then the split of the rest. */
  lemma SplitAtFence(s: string, k: int)
    requires k >= 0 && Find(s, Fence) == k
    ensures Split(s, Fence) == [s[..k]] + Split(s[k + 3..], Fence)
  {
  }

  /** Text without backticks, then a fence: the text is the first piece. */
  lemma {:induction false} SplitAfterPlainText(p: string, r: string)
    requires NoBacktick(p) && StartsWith(r, Fence)
    ensures Split(p + r, Fence) == [p] + Split(r[3..], Fence)
  {
    var s := p + r;
    FindAfterPlainText(p, r);
    SplitAtFence(s, |p|);
    assert s[..|p|] == p;
    assert s[|p| + 3..] == r[3..];
  }

  /** Fence-free text closed by a fence: the text, then nothing. */
  lemma {:induction false} SplitClosed(x: string)
    requires !Contains(x, Fence) && x != [] && x[|x| - 1] != '`'
    ensures Split(x + Fence, Fence) == [x, ""]
  {
    var u := x + Fence;
    FindClosingFence(x);
    SplitAtFence(u, |x|);
    assert u[..|x|] == x;
    assert u[|x| + 3..] == "";
    assert Split("", Fence) == [""];
  }

  /** Splitting `p`, a fence, `x`, a fence: the three pieces `p`, `x` and the
      empty text after the closing fence. */
  lemma {:induction false} SplitFenced(p: string, x: string)
    requires NoBacktick(p) && !Contains(x, Fence) && x != [] && x[|x| - 1] != '`'
    ensures Split(p + Fence + x + Fence, Fence) == [p, x, ""]
  {
    var r := Fence + (x + Fence);
    assert p + Fence + x + Fence == p + r;
    assert StartsWith(r, Fence) by { assert r[..3] == Fence; }
    SplitAfterPlainText(p, r);
    assert r[3..] == x + Fence;
    SplitClosed(x);
  }

  /** A text that starts with `json` is taken, and loses those four letters. */
  lemma {:induction false} JsonTagTaken(t: string)
    requires StartsWith(t, "json")
    ensures Accepts(t) && Untag(t) == Trim(t[4..])
  {
    LowerPrefix(t, 4);
    assert Lower(t[..4]) == "json";
  }

  /** The segment after a `json` fence, when it is the tag, a line break, object text and a line break. */
  lemma {:induction false} TagSegment(x: string, t: string)
    requires t != [] && t[0] == '{' && t[|t| - 1] == '}'
    requires x == "json\n" + t + "\n"
    ensures Accepts(Trim(x)) && Untag(Trim(x)) == t
  {
    var seg := x[..|x| - 1];
    assert Trimmed(seg) by { assert seg[0] == 'j' && seg[|seg| - 1] == t[|t| - 1]; }
    assert Trim(x) == seg by { SpaceAfter(seg, x); }
    assert StartsWith(seg, "json") by { assert seg[..4] == "json"; }
    JsonTagTaken(seg);
    assert Trim(seg[4..]) == t by { SpaceBefore(seg[4..], t); }
  }

  /** Trimming removes one white-space character after trimmed text. */
  lemma SpaceAfter(a: string, s: string)
    requires a != [] && Trimmed(a) && |s| == |a| + 1 && s[..|a|] == a && IsSpace(s[|a|])
    ensures Trim(s) == a
  {
    assert s == [] + a + [s[|a|]];
    TrimPadded([], a, [s[|a|]]);
  }

  /** Trimming removes one white-space character before trimmed text. */
  lemma SpaceBefore(s: string, a: string)
    requires a != [] && Trimmed(a) && |s| == |a| + 1 && s[1..] == a && IsSpace(s[0])
    ensures Trim(s) == a
  {
    assert s == [s[0]] + a + [];
    TrimPadded([s[0]], a, []);
  }

  /** A preamble that is neither an object nor a `json` tag is passed over. */
  lemma {:induction false} PreambleSkipped(p: string, x: string)
    requires !Accepts(Trim(p)) && Accepts(Trim(x))
    ensures FirstAccepted([p, x, ""], 0) == Some(1)
  {
    assert [p, x, ""][0] == p && [p, x, ""][1] == x;
  }

  /** The fence step on a preamble without backticks and one fenced segment
      takes that segment when it is an object or a `json` tag. */
  lemma {:induction false} FencedSegmentTaken(p: string, x: string)
    requires NoBacktick(p) && !Accepts(Trim(p))
    requires !Contains(x, Fence) && x != [] && x[|x| - 1] != '`'
    requires Accepts(Trim(x))
    ensures Unfenced(p + Fence + x + Fence) == Untag(Trim(x))
  {
    var s := p + Fence + x + Fence;
    FencedContainsFence(p, x);
    var parts := [p, x, ""];
    SplitFenced(p, x);
    PreambleSkipped(p, x);
    UnfencedAt(s, parts, 1);
  }

  lemma {:induction false} FencedContainsFence(p: string, x: string)
    requires NoBacktick(p)
    ensures Contains(p + Fence + x + Fence, Fence)
  {
    var r := Fence + x + Fence;
    assert p + Fence + x + Fence == p + r;
    assert StartsWith(r, Fence) by { assert r[..3] == Fence; }
    FindAfterPlainText(p, r);
  }

  /** The fence step takes the first taken segment of the split. */
  lemma UnfencedAt(s: string, parts: seq<string>, i: nat)
    requires Contains(s, Fence) && Split(s, Fence) == parts
    requires i < |parts| && FirstAccepted(parts, 0) == Some(i)
    ensures Unfenced(s) == Untag(Trim(parts[i]))
  {
  }

  /** A reply that wraps the object, as `JSON.stringify` writes it, in a
      fenced block tagged `json`, after an optional preamble without
      backticks, becomes the digest's content as that object, given a parser
      that reads it back. */
  lemma {:induction false} FencedObjectReplyContent(key: string, kind: string, preamble: string,
                                                   members: seq<(string, Json)>, parse: Parser)
    requires key != ""
    requires NoBacktick(preamble) && (preamble == [] || !IsSpace(preamble[0]))
    requires !Accepts(Trim(preamble))
    requires !Contains(Serialize(JObj(members)), Fence)
    requires parse(Serialize(JObj(members))) == Ok(JObj(members))
    ensures var reply := preamble + Fence + "json\n" + Serialize(JObj(members)) + "\n" + Fence;
            Generated(Some(key), kind, Some(reply), parse) == DigestOf(kind, JObj(members))
  {
    SerializedObjectShape(members);
    FencedTextContent(key, kind, preamble, Serialize(JObj(members)), parse);
  }

  /** The same for any object text the parser accepts. */
  lemma {:induction false} FencedTextContent(key: string, kind: string, preamble: string, t: string, parse: Parser)
    requires key != ""
    requires NoBacktick(preamble) && (preamble == [] || !IsSpace(preamble[0]))
    requires !Accepts(Trim(preamble))
    requires t != [] && t[0] == '{' && t[|t| - 1] == '}' && !Contains(t, Fence)
    requires parse(t).Ok?
    ensures Generated(Some(key), kind, Some(preamble + Fence + "json\n" + t + "\n" + Fence), parse) == DigestOf(kind, parse(t).value)
  {
    var x := "json\n" + t + "\n";
    var reply := preamble + Fence + x + Fence;
    assert reply == preamble + Fence + "json\n" + t + "\n" + Fence;
    FencedReplyExtracted(preamble, x, t, parse);
    GeneratedFromExtracted(key, kind, reply, t, parse);
  }

  /** Generation from a reply whose extracted text parses. */
  lemma GeneratedFromExtracted(key: string, kind: string, reply: string, t: string, parse: Parser)
    requires key != "" && reply != ""
    requires Extracted(reply, parse) == t && parse(t).Ok?
    ensures Generated(Some(key), kind, Some(reply), parse) == DigestOf(kind, parse(t).value)
  {
  }

  lemma {:induction false} FencedReplyExtracted(p: string, x: string, t: string, parse: Parser)
    requires NoBacktick(p) && (p == [] || !IsSpace(p[0])) && !Accepts(Trim(p))
    requires t != [] && t[0] == '{' && t[|t| - 1] == '}' && !Contains(t, Fence)
    requires x == "json\n" + t + "\n"
    requires parse(t).Ok?
    ensures Extracted(p + Fence + x + Fence, parse) == t
  {
    var reply := p + Fence + x + Fence;
    assert Trim(reply) == reply by {
      assert reply[|reply| - 1] == '`';
      assert reply[0] == if p == [] then '`' else p[0];
      TrimOfTrimmed(reply);
    }
    assert !Contains(x, Fence) by { NoFenceAround("json\n", t, "\n"); }
    TagSegment(x, t);
    FencedSegmentTaken(p, x);
    ObjectTextKept(t, parse);
  }
}
