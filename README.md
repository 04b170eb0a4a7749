# Home Assistant Digest core, modelled in Dafny

Home Assistant Digest is an add-on that watches a Home Assistant installation. It:
- discovers the entities worth monitoring and classifies each one's category, storage strategy and priority;
- records periodic state snapshots of them into SQLite tables;
- asks a language model for a daily or weekly digest of what needs attention;
- sends the digest out as a Home Assistant notification.

This project models the deterministic core of that program. Each part below is one Dafny module in its own file.

- **JSON repair** (`JsonRepair`, repair.dfy). The procedure that closes a truncated model reply is an imperative scan with a closer stack and mending loops. It is proved equal to a staged specification. Properties proved about that specification: the shape of the result, that complete text is left alone, the blank-input case, and that an open string or a dangling key gets repaired.
- **Digest response handling** (`DigestResponse`, normalizer.dfy):
  - extraction from code fences;
  - the last-brace cut;
  - the choice between repairing and raising an error;
  - the defaults for `summary` and the attention count.
  `JSON.parse` is a parameter.
- **Analysis prompt** (`AnalysisPrompt`, prompt.dfy):
  - the time window;
  - the first-run sections;
  - the add-on, automation and log sections and their caps;
  - the profile fallbacks;
  - the dismissed-warning and notes sections;
  - the grouping of snapshots per entity.
- **Warning keys and dismissals** (`WarningKey`, `DismissedWarnings`):
  - the key function's alphabet and length;
  - its whitespace-run collapsing;
  - its non-idempotence;
  - the dismissed-warnings table as a keyed upsert.
- **Battery predictions** (`BatteryPrediction`):
  - the least-squares fit, proved to recover any exact line and to ignore where time starts;
  - the skip rules;
  - the days-remaining and attention rules;
  - the ascending sort.
- **Entity classification** (`HomeAssistant`): the category, storage strategy and priority tables, and the split of a notification service name.
- **Collector** (`Collector`): a class holding the module-level state (`isCollecting`, `lastCollectionTime`, `collectionErrors`), the snapshot-building loop and the attribute allow-list.
- **Discovery** (`Discovery`): the exclusion filter, the grouping by category, auto-configuration and the save and priority routes' validation.
- **Tables** (`MonitoredEntities`, `Snapshots`, `Digests`, `Notes`, `Profile`). Each is a class whose fields are the table's rows. Its methods are the writes, and its queries are functions of the rows.
- **Notifier** (`Notifier`): how the notification call's data is built, and the title, message and importance of the digest notification.
- **Helpers:**
  - `Strings` (ASCII white space and case, split/join, number text);
  - `JsNumber` (`parseFloat` over exact reals);
  - `Json` (a JSON value and its `JSON.stringify` text);
  - `Sorting` (a sort by a total preorder, standing in for `Array.prototype.sort` and `ORDER BY`);
  - `Collections`;
  - `Wrappers`.

Some things are inputs rather than part of the model:
- Times are integers of milliseconds. The clock ("now") and database insertion times are parameters.
- Answers from Home Assistant and from the language model are parameters.

## Model

| member | source | states |
|---|---|---|
| JsonRepair.RunAppend | homeassistant-digest/server/services/analyzer.js:672-699 | the scan is a left fold over the characters: scanning `a + b` continues from where `a` left off |
| JsonRepair.ClosersAreBrackets | homeassistant-digest/server/services/analyzer.js:691-696 | the stack of expected closers only ever holds `}` and `]` |
| JsonRepair.ScanStringText | homeassistant-digest/server/services/analyzer.js:685-698 | inside a string, text without quotes or backslashes changes nothing: brackets in string values are not counted |
| JsonRepair.ScanInert | homeassistant-digest/server/services/analyzer.js:690-698 | outside strings, text without quotes, backslashes or brackets changes nothing |
| JsonRepair.ScanEscapedChar | homeassistant-digest/server/services/analyzer.js:675-683 | a backslash consumes the next character, so an escaped quote does not end the string |
| JsonRepair.StepCloses | homeassistant-digest/server/services/analyzer.js:693-696 | a closer that matches the top of the stack pops it |
| JsonRepair.MismatchedCloserIgnored | homeassistant-digest/server/services/analyzer.js:692-697 | outside strings, a closer with nothing open or that does not match the top of the stack changes nothing, in one step and in the scan |
| JsonRepair.BracketedScan | homeassistant-digest/server/services/analyzer.js:690-698 | an opener, text balanced one level in and the matching closer leave the scan where it was |
| JsonRepair.ScanSerialized | homeassistant-digest/server/services/analyzer.js:672-699 | every value as `JSON.stringify` writes it is balanced: scanning it ends where it started |
| JsonRepair.CutToBrace | homeassistant-digest/server/services/analyzer.js:658-662 | text with a `{` is cut to start at its first `{` (nothing before it is kept); text without one is kept whole |
| JsonRepair.KeyStart | homeassistant-digest/server/services/analyzer.js:712-715 | the backward search finds the last quote not preceded by a backslash at or before the start position, or -1 |
| JsonRepair.DropColon | homeassistant-digest/server/services/analyzer.js:709-720 | one round of dangling-key removal shortens the text and leaves it trimmed |
| JsonRepair.DropDanglingKeys | homeassistant-digest/server/services/analyzer.js:707-721 | after the dangling-key loop the text no longer ends with `:`, and it is no longer than before |
| JsonRepair.DropTrailingCommas | homeassistant-digest/server/services/analyzer.js:724-727 | after the comma loop the text no longer ends with `,` |
| JsonRepair.DropTrailingCommasSuffix | homeassistant-digest/server/services/analyzer.js:724-727 | the comma loop removes only commas and white space, and only from the end |
| JsonRepair.ClosedText | homeassistant-digest/server/services/analyzer.js:701-704 | the text gets one `"` exactly when the scan ended inside a string |
| JsonRepair.RepairTruncatedJson | homeassistant-digest/server/services/analyzer.js:655-740 | the procedure (one scanning loop and a loop per mending stage) computes exactly the staged specification `Repaired` |
| JsonRepair.ScanText | homeassistant-digest/server/services/analyzer.js:668-699 | the scanning loop ends with the in-string flag and the closer stack of the character-level scan of the whole text |
| JsonRepair.StripDanglingKeys | homeassistant-digest/server/services/analyzer.js:707-721 | the dangling-key loop computes `DropDanglingKeys` |
| JsonRepair.FindKeyStart | homeassistant-digest/server/services/analyzer.js:712-715 | the inner backward loop stops at `KeyStart` |
| JsonRepair.StripTrailingCommas | homeassistant-digest/server/services/analyzer.js:724-727 | the trailing-comma loop computes `DropTrailingCommas` |
| JsonRepair.AppendClosers | homeassistant-digest/server/services/analyzer.js:729-737 | the closing loop pops the whole stack, appending each closer after dropping a comma before it |
| JsonRepair.CloseAllAppends | homeassistant-digest/server/services/analyzer.js:729-737 | on trimmed text not ending in a comma, the closing loop appends exactly the closers, innermost first |
| JsonRepair.BlankRepairsToEmptyObject | homeassistant-digest/server/services/analyzer.js:656-665 | empty or whitespace-only input repairs to `{}` |
| JsonRepair.RepairShape | homeassistant-digest/server/services/analyzer.js:701-739 | every repair of non-blank text is a trimmed body not ending in a comma followed by exactly the unmatched closers, innermost first |
| JsonRepair.CutAfterValueClosed | homeassistant-digest/server/services/analyzer.js:701-739 | text cut right after a complete value keeps everything and gets exactly its open brackets closed, innermost first |
| JsonRepair.CompleteTextUnchanged | homeassistant-digest/server/services/analyzer.js:656-739 | balanced text outside a string, starting with `{` and not ending in `:` or `,`, is returned unchanged |
| JsonRepair.SerializedObjectUnchanged | homeassistant-digest/server/services/analyzer.js:656-739 | any object as `JSON.stringify` writes it, padded with white space, repairs to itself |
| JsonRepair.OpenStringClosed | homeassistant-digest/server/services/analyzer.js:701-704 | text cut inside a string gets a `"` and then the open closers |
| JsonRepair.DanglingKeyDropped | homeassistant-digest/server/services/analyzer.js:706-721 | text ending in a dangling `"key":` loses the key and the trailing commas before it, then gets the closers the rest leaves open |
| DigestResponse.WindowHours | homeassistant-digest/server/services/analyzer.js:29 | a `weekly` digest looks back 168 hours, every other type 24 |
| DigestResponse.WindowStart | homeassistant-digest/server/services/analyzer.js:28-31 | the window starts that many hours, in milliseconds, before now |
| DigestResponse.FirstAccepted | homeassistant-digest/server/services/analyzer.js:178-187 | the segment taken is the first whose trimmed text starts with `{` or, in any letter case, with `json`; none before it qualifies, and `None` means none qualifies |
| DigestResponse.BraceCut | homeassistant-digest/server/services/analyzer.js:190-210 | text without `{` is kept; otherwise the result starts at the first `{`, and it is shorter than that only when it ends at the last `}` and parses; when the text has a `{`, the rest has a `}`, and the text from the first `{` to the last `}` parses, the result is exactly that text |
| DigestResponse.ProseAroundObjectCut | homeassistant-digest/server/services/analyzer.js:190-210 | an object that parses, with prose before it that holds no `{` and prose after it that holds no `}`, is cut out exactly |
| DigestResponse.Preview | homeassistant-digest/server/services/analyzer.js:230 | the error preview is the first 300 characters of the reply |
| DigestResponse.LengthOf | homeassistant-digest/server/services/analyzer.js:236 | `.length` of a list or string is its length and is `undefined` for null, booleans and numbers |
| DigestResponse.Summary | homeassistant-digest/server/services/analyzer.js:235 | the digest's summary is always truthy: the reply's own summary when that is truthy, otherwise `Daily Digest generated` |
| DigestResponse.AttentionCount | homeassistant-digest/server/services/analyzer.js:236 | a missing or falsy `attention_items` gives 0, a list gives its length |
| DigestResponse.Extract | homeassistant-digest/server/services/analyzer.js:172-210 | the extraction steps compute `Extracted`: trim, the fence step, then the brace cut |
| DigestResponse.ChooseSegment | homeassistant-digest/server/services/analyzer.js:176-188 | the fence loop with its early exit takes the first accepted segment, without a `json` tag, or keeps the text |
| DigestResponse.CutBraces | homeassistant-digest/server/services/analyzer.js:190-210 | the brace step computes `BraceCut` |
| DigestResponse.ParseReply | homeassistant-digest/server/services/analyzer.js:212-232 | parsing with the one repair attempt, calling the repair procedure, computes `Parsed` |
| DigestResponse.GenerateDigest | homeassistant-digest/server/services/analyzer.js:166-236 | the tail of generation, from the key check and the reply text to the digest header, computes `Generated` |
| DigestResponse.ParsedIff | homeassistant-digest/server/services/analyzer.js:212-232 | the reply parses in the end exactly when it parses at once, or its error looks like truncation and the repaired text parses; each failure gives its own error text |
| DigestResponse.GeneratedDigestShape | homeassistant-digest/server/services/analyzer.js:212-248 | every successful generation computes a header whose content is a non-null parsed value as `JSON.stringify` writes it, with a truthy summary and the requested type |
| DigestResponse.ObjectTextKept | homeassistant-digest/server/services/analyzer.js:190-210 | text that opens and closes with braces and parses is taken whole by the brace step |
| DigestResponse.UnfencedWithoutFence | homeassistant-digest/server/services/analyzer.js:176 | text without a fence passes the fence step unchanged |
| DigestResponse.PlainObjectReplyContent | homeassistant-digest/server/services/analyzer.js:172-248 | a bare object reply, with any white space around it, becomes the digest's content as it is, given a parser that reads it back |
| DigestResponse.FencedObjectReplyContent | homeassistant-digest/server/services/analyzer.js:172-248 | an object in a fenced block tagged `json`, after a preamble without backticks, becomes the digest's content as that object |
| DigestResponse.FencedTextContent | homeassistant-digest/server/services/analyzer.js:172-248 | the same for any braced object text without a fence that the parser accepts |
| DigestResponse.JsonTagTaken | homeassistant-digest/server/services/analyzer.js:180-184 | a segment starting with `json` is taken and loses those four letters and the white space after them |
| DigestResponse.FencedSegmentTaken | homeassistant-digest/server/services/analyzer.js:176-187 | after a preamble the fence step rejects, the fenced segment is taken, without its `json` tag, when it is an object or tagged `json` |
| AnalysisPrompt.EntryOf | homeassistant-digest/server/services/analyzer.js:263 | the lookup `entityData[snap.entity_id]` finds the entry with that id, or reports that there is none |
| AnalysisPrompt.AddSnapshot | homeassistant-digest/server/services/analyzer.js:263-274 | the loop body creates an entry for a new entity, then pushes the reading (the number, else the text) onto the entity's entry; it computes `Added` |
| AnalysisPrompt.GroupSnapshots | homeassistant-digest/server/services/analyzer.js:261-275 | the grouping loop computes `Grouped` over all snapshots |
| AnalysisPrompt.GroupedIds | homeassistant-digest/server/services/analyzer.js:261-275 | there is an entry for every entity that has a snapshot, and for no other |
| AnalysisPrompt.GroupedDistinct | homeassistant-digest/server/services/analyzer.js:263-270 | no entity has two entries |
| AnalysisPrompt.GroupedValues | homeassistant-digest/server/services/analyzer.js:271-274 | each entry holds exactly its entity's readings, in snapshot order |
| AnalysisPrompt.GroupedEntriesFilled | homeassistant-digest/server/services/analyzer.js:261-282 | every entry holds at least one reading, and there are entries exactly when there are snapshots |
| Collections.DedupFirstOccurrence | homeassistant-digest/server/services/analyzer.js:316 | `[...new Set(...)]` lists the distinct values in order of first occurrence |
| AnalysisPrompt.Numbers | homeassistant-digest/server/services/analyzer.js:285 | the numeric readings are exactly the readings that are numbers |
| AnalysisPrompt.SteadyReadingsNotFlagged | homeassistant-digest/server/services/analyzer.js:289-311 | readings that are all equal have deviation 0 and are never flagged as a data quality issue |
| AnalysisPrompt.NoDataIffFirstRun | homeassistant-digest/server/services/analyzer.js:280-321 | there are no entity summaries, so the no-data text is shown, exactly when there are no snapshots |
| AnalysisPrompt.StoppedListsDisjoint | homeassistant-digest/server/services/analyzer.js:332-333 | the two stopped lists hold exactly the stopped add-ons with `boot=auto` and with `boot=manual`, so no add-on is in both |
| AnalysisPrompt.AutoStartIssuesDropped | homeassistant-digest/server/services/analyzer.js:340 | the add-on issue lines are exactly those of the issues that do not mention `auto-start` |
| AnalysisPrompt.AutomationIssuesCapped | homeassistant-digest/server/services/analyzer.js:352-355 | the automation section has its total line and at most the first five issue lines, in order |
| AnalysisPrompt.LogPartCapped | homeassistant-digest/server/services/analyzer.js:395-406 | the error part and the warning part each show a heading and at most the first five entries, and nothing when there are none |
| AnalysisPrompt.LogSectionIff | homeassistant-digest/server/services/analyzer.js:392-418 | the log section appears exactly for an analysed log, and an analysed log without errors or warnings gets the all-clear text |
| AnalysisPrompt.ReportSectionsIff | homeassistant-digest/server/services/analyzer.js:324-448 | the add-on, automation, integration, battery, update and failed-automation sections appear exactly under the conditions the source tests |
| AnalysisPrompt.DataQualityIff | homeassistant-digest/server/services/analyzer.js:450-463 | the data-quality section appears exactly when some entity is flagged |
| AnalysisPrompt.PreviousContextIff | homeassistant-digest/server/services/analyzer.js:465-484 | the previous-digest context appears exactly when there is a previous digest with observations or attention items |
| AnalysisPrompt.SerializedStart | homeassistant-digest/server/services/analyzer.js:503-505 | the text `JSON.stringify` writes is never empty and never starts with `N` |
| AnalysisPrompt.NotSpecifiedIff | homeassistant-digest/server/services/analyzer.js:503-505 | a profile line reads `Not specified` exactly when the field is missing or falsy |
| AnalysisPrompt.OptionalSectionsIff | homeassistant-digest/server/services/analyzer.js:595-606 | the dismissed-warnings section appears exactly for a non-empty list, and the notes section exactly for non-empty notes |
| AnalysisPrompt.SummariesRunTogether | homeassistant-digest/server/services/analyzer.js:513 | as written, two summary lines are joined by a backslash and `n`, so they share one line of the prompt |
| AnalysisPrompt.SummariesOnePerLine | homeassistant-digest/server/services/analyzer.js:513 | in the corrected block each summary is a line of its own |
| AnalysisPrompt.FirstRunOpensIff | homeassistant-digest/server/services/analyzer.js:487-501 | the prompt opens with the first-run instructions exactly on the first run |
| AnalysisPrompt.FirstRunEndsIff | homeassistant-digest/server/services/analyzer.js:595-610 | the prompt closes with the first-run directive and the closing request exactly on the first run |
| AnalysisPrompt.FirstRunIff | homeassistant-digest/server/services/analyzer.js:487-501 | both first-run texts are in place exactly on the first run, whatever the sections in between hold |
| AnalysisPrompt.EntityBlockAsWritten | homeassistant-digest/server/services/analyzer.js:513 | as written: the no-data text when there are no summaries, the one summary when there is one, and never a line break when the summaries have none, because the separator is a backslash and `n` |
| AnalysisPrompt.EntityBlock | homeassistant-digest/server/services/analyzer.js:513 | corrected block: the no-data text when there are no summaries, and the one summary when there is one |
| AnalysisPrompt.Opening | homeassistant-digest/server/services/analyzer.js:487-501 | the prompt opens with the introduction line and ends its opening with the `## Home Profile` heading, with the first-run instructions between them on the first run |
| AnalysisPrompt.Ending | homeassistant-digest/server/services/analyzer.js:595-610 | the tail starts with the dismissed-warnings and notes sections and ends with the closing request |
| AnalysisPrompt.Assemble | homeassistant-digest/server/services/analyzer.js:501-610 | the prompt is the opening, then the body unchanged at exactly its place, then the tail |
| WarningKey.StripDisallowed | homeassistant-digest/server/db/dismissed.js:69 | the result is no longer than the text and holds only lower-case letters, digits and whitespace |
| WarningKey.GenerateWarningKey | homeassistant-digest/server/db/dismissed.js:65-72 | a key is at most 50 characters long |
| WarningKey.KeyOfStripped | homeassistant-digest/server/db/dismissed.js:70-71 | collapsing and cutting gives at most 50 characters |
| WarningKey.CollapseShape | homeassistant-digest/server/db/dismissed.js:70 | replacing whitespace runs in kept characters gives only `a-z`, `0-9` and `_`, never two `_` in a row |
| WarningKey.KeyShape | homeassistant-digest/server/db/dismissed.js:65-72 | every key is made of `a-z`, `0-9` and `_`, holds no `__`, and is at most 50 long |
| WarningKey.PlainWordIsItsKey | homeassistant-digest/server/db/dismissed.js:65-72 | a title of at most 50 lower-case letters and digits is its own key |
| WarningKey.StripKeepsKept | homeassistant-digest/server/db/dismissed.js:69 | a text of kept characters is left as it is |
| WarningKey.CollapseWithoutSpaces | homeassistant-digest/server/db/dismissed.js:70 | a text without whitespace is left as it is |
| WarningKey.StripAppend | homeassistant-digest/server/db/dismissed.js:69 | deleting characters works piece by piece over a concatenation |
| WarningKey.CollapseAppend | homeassistant-digest/server/db/dismissed.js:70 | collapsing a concatenation collapses each part, the second knowing whether the first ended in whitespace |
| WarningKey.CollapseStep | homeassistant-digest/server/db/dismissed.js:70 | collapsing a non-empty text handles its first character and then the rest |
| WarningKey.LowerAppend | homeassistant-digest/server/db/dismissed.js:68 | lower-casing works piece by piece over a concatenation |
| WarningKey.KeyOfParts | homeassistant-digest/server/db/dismissed.js:68-69 | the first two steps work piece by piece over a concatenation |
| WarningKey.PunctuationDeleted | homeassistant-digest/server/db/dismissed.js:69 | a character outside `[a-z0-9\s]` after lower-casing is deleted: the key is as if it were not there |
| WarningKey.WhitespaceRunCollapsed | homeassistant-digest/server/db/dismissed.js:70 | two plain words with any non-empty whitespace run between them give the words joined by one `_` |
| WarningKey.CollapseRun | homeassistant-digest/server/db/dismissed.js:70 | a whitespace run becomes a single `_` |
| WarningKey.CollapseInRun | homeassistant-digest/server/db/dismissed.js:70 | whitespace that continues a run disappears |
| WarningKey.NotIdempotent | homeassistant-digest/server/db/dismissed.js:65-72 | `"a b"` gives `"a_b"`, whose own key is `"ab"`: the key function is not idempotent |
| DismissedWarnings.WithoutKey | homeassistant-digest/server/db/dismissed.js:55-59 | the rows left are exactly those under another key |
| DismissedWarnings.NewerOrSameIsPreorder | homeassistant-digest/server/db/dismissed.js:39 | ordering by dismissal time, newest first, is a total preorder |
| DismissedWarnings.GetDismissedWarnings | homeassistant-digest/server/db/dismissed.js:34-50 | every row, newest dismissal first (a permutation of the table) |
| DismissedWarnings.WithoutKeyUnique | homeassistant-digest/server/db/dismissed.js:57 | removing a key keeps the keys unique |
| DismissedWarnings.DismissMarks | homeassistant-digest/server/db/dismissed.js:10-17 | after `INSERT OR REPLACE` the key has exactly one row, holding the new title and time, and keys stay unique |
| DismissedWarnings.DismissKeepsOthers | homeassistant-digest/server/db/dismissed.js:10-17 | a dismissal keeps every row under any other key, and adds none |
| DismissedWarnings.RestoreClears | homeassistant-digest/server/db/dismissed.js:55-59 | after a restore the key is not dismissed and the rows under other keys are unchanged |
| DismissedWarnings.DismissedTable.DismissWarning | homeassistant-digest/server/db/dismissed.js:10-17 | the table becomes the replaced rows, keys stay unique, and the warning is dismissed |
| DismissedWarnings.DismissedTable.RestoreWarning | homeassistant-digest/server/db/dismissed.js:55-59 | the key's row is deleted, the warning is not dismissed, and every other key's status is unchanged |
| BatteryPrediction.SumsOf | server/services/predictions.js:99-106 | the summing loop counts every reading |
| BatteryPrediction.Regression | server/services/predictions.js:90-115 | no readings give slope 0 and intercept 0 |
| BatteryPrediction.LinearRegression | server/services/predictions.js:90-115 | the loop's four running sums and the closing division give exactly the least-squares fit `Regression` |
| BatteryPrediction.FitFromSums | server/services/predictions.js:108-114 | a zero denominator gives slope 0 and the mean as intercept, otherwise the least-squares slope and intercept of the sums |
| BatteryPrediction.SquareFacts | server/services/predictions.js:105-108 | a square is non-negative and zero only for zero |
| BatteryPrediction.ExpandStep | server/services/predictions.js:99-106 | one more reading keeps the expanded form of the spread around a time |
| BatteryPrediction.SpreadToExpands | server/services/predictions.js:99-106 | the spread of the times around any time is expressed by the running sums |
| BatteryPrediction.LagrangeStep | server/services/predictions.js:108 | one more reading adds its spread to the denominator |
| BatteryPrediction.DenominatorIsSpread | server/services/predictions.js:108 | the denominator `n*sumX2 - sumX*sumX` equals the sum of squared differences of every pair of times |
| BatteryPrediction.SpreadToZeroIff | server/services/predictions.js:108 | the spread around a time is non-negative, and zero exactly when every reading is at that time |
| BatteryPrediction.PairSpreadZeroIff | server/services/predictions.js:108 | the pairwise spread is non-negative, and zero exactly when all readings share one time |
| BatteryPrediction.DenominatorZeroIff | server/services/predictions.js:108-109 | the denominator is never negative, and the zero guard fires exactly when all readings share one time |
| BatteryPrediction.SumYAnyOrigin | server/services/predictions.js:97-103 | the sum of the values does not depend on the time origin |
| BatteryPrediction.SameTimeGivesMean | server/services/predictions.js:109 | readings all at one time give slope 0 and their mean as intercept |
| BatteryPrediction.CastProduct | server/services/predictions.js:104-105 | an integer product read as a real is the product of the reals |
| BatteryPrediction.LineStep | server/services/predictions.js:99-106 | one more reading on a line keeps the sums related to the line |
| BatteryPrediction.LineSums | server/services/predictions.js:99-106 | the sums of readings on the line `a + b*x` satisfy the line's two normal equations |
| BatteryPrediction.LineCoefficients | server/services/predictions.js:111-112 | from the normal equations, the slope and intercept formulas give back `b` and `a` |
| BatteryPrediction.FitOfLine | server/services/predictions.js:108-114 | sums of readings on a line with a non-zero denominator give that line |
| BatteryPrediction.RegressionRecoversLine | server/services/predictions.js:90-115 | readings at two or more distinct times lying on a line give exactly that line's slope and its value at the first time |
| BatteryPrediction.Shifted | server/services/predictions.js:100 | moving every reading by one amount of time keeps the values |
| BatteryPrediction.ShiftedSums | server/services/predictions.js:97-106 | shifting the readings and the origin together leaves the sums unchanged |
| BatteryPrediction.RegressionShiftInvariant | server/services/predictions.js:96-115 | because times are measured from the first reading, shifting every reading in time leaves the fit unchanged |
| BatteryPrediction.DaysRemaining | server/services/predictions.js:65-67 | the days until the 10% mark are never negative, and 0 at or below 10% |
| BatteryPrediction.Predict | server/services/predictions.js:42-77 | a prediction exists exactly when there are at least two readings, the latest is within 0-100 and the drain exceeds 0.01 per day; it counts the readings, its days are non-negative, and it needs attention exactly when the days are between 1 and 30 |
| BatteryPrediction.LowBatteryNotFlagged | server/services/predictions.js:65-76 | a battery at or below 10% gets 0 days and is not flagged |
| BatteryPrediction.SoonEmptyFlagged | server/services/predictions.js:65-76 | a battery above 10% whose days round to between 1 and 30 is flagged |
| BatteryPrediction.Candidates | server/services/predictions.js:15-20 | the candidates are exactly the entities in category `power` or with `battery` in the id, in any case, whose priority is not `ignore` |
| BatteryPrediction.OlderOrSameIsPreorder | server/services/predictions.js:39 | ordering by time, oldest first, is a total preorder |
| BatteryPrediction.ToPoints | server/services/predictions.js:46-49 | one point per row, with its time and number |
| BatteryPrediction.ReadingsOf | server/services/predictions.js:32-49 | one point for each numeric reading of the entity in the last seven days, and no others (same count, same points), oldest first and all within the window |
| BatteryPrediction.ReadingPoints | server/services/predictions.js:32-49 | rows that are exactly an entity's readings in a window give exactly those readings' points |
| BatteryPrediction.Collected | server/services/predictions.js:28-78 | every prediction pushed belongs to a candidate, and every candidate that is not skipped has its prediction pushed |
| BatteryPrediction.CollectedSnoc | server/services/predictions.js:28-78 | one more candidate adds its prediction, if it has one, at the end |
| BatteryPrediction.FewerDaysIsPreorder | server/services/predictions.js:81 | ordering by days remaining is a total preorder |
| BatteryPrediction.GetBatteryPredictions | server/services/predictions.js:11-84 | the result is sorted by days remaining and is a permutation of the predictions the loop pushes |
| BatteryPrediction.PredictionsExactly | server/services/predictions.js:11-84 | every prediction returned belongs to a candidate entity, and every candidate that is not skipped is in the result |
| HomeAssistant.DomainBeforeFirstDot | server/services/homeassistant.js:115 | the domain is the part of the id before its first `.`, or the whole id when there is none |
| HomeAssistant.BinarySensorCategory | server/services/homeassistant.js:160-171 | a binary sensor is `security`, `climate` or `energy` exactly when its device class is in that list, otherwise `sensors` |
| HomeAssistant.SensorCategoryIs | server/services/homeassistant.js:176-189 | a sensor is `climate` exactly when its class is a climate class or, with no energy class or unit, its unit is °C or °F; `energy` exactly when its class is not climate and its class or unit is an energy one |
| HomeAssistant.PercentAloneIsSensors | server/services/homeassistant.js:186 | the `%` clause never fires: a `%` sensor of another class is `sensors` |
| HomeAssistant.CategorizeEntity | server/services/homeassistant.js:114-155 | every entity gets one of the twelve categories |
| HomeAssistant.CategoryFor | server/services/homeassistant.js:119-154 | the category for a domain and its attributes is one of the twelve |
| HomeAssistant.UnmappedIsOther | server/services/homeassistant.js:154 | a domain the map does not name is `other` |
| HomeAssistant.StorageStrategy | server/services/homeassistant.js:194-223 | one of the four strategies, and `hourly_sum` exactly for a numeric sensor whose class is `energy` or unit `kWh` |
| HomeAssistant.NonNumericSensorSnapshotted | server/services/homeassistant.js:200-222 | a sensor whose state `parseFloat` cannot read is snapshotted daily |
| HomeAssistant.NumericSensorHourly | server/services/homeassistant.js:200-208 | a sensor reporting a whole number is stored hourly |
| HomeAssistant.UnavailableSensorSnapshotted | server/services/homeassistant.js:200-222 | an `unavailable` sensor is snapshotted daily |
| HomeAssistant.DeterminePriority | server/services/homeassistant.js:228-250 | one of the four priorities, and `critical` exactly for the `security` category or a smoke, gas or carbon monoxide class |
| HomeAssistant.PriorityFor | server/services/homeassistant.js:233-249 | the priority is one of the four |
| HomeAssistant.AutomationsAreLow | server/services/homeassistant.js:139-140 | automations and scripts are filed under `system` and so get `low`, never `ignore` |
| HomeAssistant.SystemDomains | server/services/homeassistant.js:139-140 | automations and scripts are in category `system` |
| HomeAssistant.IgnoredExactlyHelpers | server/services/homeassistant.js:228-250 | with the category `categorizeEntity` gives, `ignore` goes exactly to the `input_` domains not filed under `system`, unless they carry a safety class |
| HomeAssistant.HelperPriority | server/services/homeassistant.js:233-249 | the same, for a domain and its attributes |
| HomeAssistant.InputDomains | server/services/homeassistant.js:119-152 | the only `input_` domains the map names are the five it lists |
| HomeAssistant.InputBooleanIgnored | server/services/homeassistant.js:245-246 | an `input_boolean` helper is ignored by default |
| HomeAssistant.FindFirstDot | server/services/homeassistant.js:81-82 | the first `.` after a dot-free prefix is found at the prefix's length |
| HomeAssistant.NoDotNotFound | server/services/homeassistant.js:81 | a name without a dot has none to find |
| HomeAssistant.DottedServiceSplit | server/services/homeassistant.js:81-82 | `a.b` and `a.b.c` both split into domain `a` and service `b` |
| HomeAssistant.UndottedServiceSplit | server/services/homeassistant.js:81-83 | a name without a dot is a service of the `notify` domain |
| HomeAssistant.NotifyCall | server/services/homeassistant.js:80-90 | an undotted service name is called in the `notify` domain |
| Collector.RelevantExactly | homeassistant-digest/server/services/collector.js:103-127 | an attribute is kept exactly when its key is on the domain's list and the state defines it with that value |
| Collector.UnknownDomainKeepsNothing | homeassistant-digest/server/services/collector.js:118 | a domain without a list keeps no attribute |
| Collector.ExtractRelevantAttributes | homeassistant-digest/server/services/collector.js:103-127 | the loop keeps, in list order, the listed keys the attributes define |
| Collector.StateFor | homeassistant-digest/server/services/collector.js:43 | the state found is one of the fetched states with that id, and none is found exactly when no state has it |
| Collector.SnapshotOf | homeassistant-digest/server/services/collector.js:59-72 | the record is of type `number` exactly when the state reads as a finite number, holding that number; otherwise of type `state`, holding the text |
| Collector.Built | homeassistant-digest/server/services/collector.js:42-73 | there are no more records and errors together than entities |
| Collector.BuiltRecord | homeassistant-digest/server/services/collector.js:42-73 | a record is built exactly when some entity of the list gives it |
| Collector.BuiltRecords | homeassistant-digest/server/services/collector.js:42-73 | the records are exactly those of the entities whose state was found and is neither `unavailable` nor `unknown` |
| Collector.BuiltError | homeassistant-digest/server/services/collector.js:45-51 | an error is reported exactly when some entity of the list has no state |
| Collector.BuiltErrors | homeassistant-digest/server/services/collector.js:45-51 | the errors are exactly the entities without a state |
| Collector.BuiltShareTimestamp | homeassistant-digest/server/services/collector.js:37 | all records of one run carry the run's timestamp |
| Collector.ToCollect | homeassistant-digest/server/services/collector.js:24-25 | the entities collected are exactly the monitored ones whose priority is not `ignore` |
| Collector.IgnoredNeverCollected | homeassistant-digest/server/services/collector.js:24-25 | with unique ids, no record is for an entity with priority `ignore` |
| Collector.RecentErrors | homeassistant-digest/server/services/collector.js:156 | at most the last ten errors, all of them when there are ten or fewer |
| Collector.CollectorState.GetCollectorStatus | homeassistant-digest/server/services/collector.js:150-159 | the status reports the flag, the last run's time and the last ten errors |
| Collector.CollectorState.BuildSnapshots | homeassistant-digest/server/services/collector.js:40-73 | the loop's records and errors are exactly `Built`'s, and the flag and last time are unchanged |
| Collector.CollectorState.CollectSnapshots | homeassistant-digest/server/services/collector.js:12-98 | a run in progress is skipped with nothing changed; otherwise the flag is cleared on every exit, errors restart, nothing to collect stores nothing, a failed fetch records one error and stores nothing, and a successful run stores exactly the built records and sets the last time |
| Discovery.FriendlyName | server/api/entities.js:71 | the name is a non-empty `friendly_name` string attribute, or else the entity id |
| Discovery.Describe | server/api/entities.js:66-79 | the description keeps the id and domain, and its category and priority are among the allowed ones |
| Discovery.DiscoverExactly | server/api/entities.js:56-79 | discovery describes exactly the states whose domain is in neither excluded list and whose state is not `unavailable` |
| Discovery.ExcludedNeverDiscovered | server/api/entities.js:56-65 | no excluded domain and no unavailable entity is discovered |
| Discovery.GroupedIsFilter | server/api/entities.js:82-88 | a category has a list exactly when some entity is in it, and that list holds exactly its entities, in order |
| Discovery.GroupByCategory | server/api/entities.js:82-88 | the loop builds the grouping `Grouped` |
| Discovery.DiscoverRoute | server/api/entities.js:51-99 | a failed fetch is a 500 reply; otherwise the body holds the discovered entities, their number and their grouping |
| Discovery.AutoConfigure | server/api/entities.js:106-152 | a failed fetch is a 500 reply and changes nothing; otherwise the table is cleared and set to the discovered entities' rows, and the reply counts them and the monitored rows |
| Discovery.AutoConfiguredRows | server/api/entities.js:112-137 | after auto-configuration an id has a row exactly when some discoverable state has that id |
| Discovery.SavedRows | server/api/entities.js:167-168 | saving a list gives a row to exactly the ids in the list |
| Discovery.SaveEntities | server/api/entities.js:158-180 | a non-array `entities` is refused with 400 and changes nothing; otherwise the table is replaced by the list |
| Discovery.UpdatePriority | server/api/entities.js:212-230 | the update is accepted exactly for `critical`, `normal`, `low` or `ignore` and then changes that entity's priority; otherwise a 400 reply and nothing changes |
| MonitoredEntities.IndexOfId | homeassistant-digest/server/db/entities.js:45-57 | the position found holds that id, and -1 means no row has it |
| MonitoredEntities.RowFor | homeassistant-digest/server/db/entities.js:45-57 | `getMonitoredEntity`: the row found is in the table with that id, and none is found only when no row has it |
| MonitoredEntities.RowForUnique | homeassistant-digest/server/db/entities.js:45-57 | with distinct ids each row is the one found for its id |
| MonitoredEntities.UpsertedRowFor | homeassistant-digest/server/db/entities.js:62-84 | after an upsert ids stay distinct, the entity's id has the new row and every other id keeps its row |
| MonitoredEntities.LastWith | homeassistant-digest/server/db/entities.js:92-112 | the last entry of a batch with an id is in the batch with that id; none means no entry has it |
| MonitoredEntities.UpsertAllRowFor | homeassistant-digest/server/db/entities.js:89-115 | after a batch upsert ids stay distinct, the last batch entry for an id wins, and an id not in the batch keeps its row |
| MonitoredEntities.WithPriority | homeassistant-digest/server/db/entities.js:120-127 | the update keeps the number of rows |
| MonitoredEntities.PriorityUpdateOnly | homeassistant-digest/server/db/entities.js:120-127 | the priority update changes only that entity's priority, leaves every other row as it was, and is a no-op for an unknown id |
| MonitoredEntities.RemovedOnly | homeassistant-digest/server/db/entities.js:132-136 | removal deletes that id's row and no other |
| MonitoredEntities.EntityLeIsPreorder | homeassistant-digest/server/db/entities.js:29 | ordering by category, then friendly name, is a total preorder |
| MonitoredEntities.GetMonitoredEntities | homeassistant-digest/server/db/entities.js:6-40 | the result holds exactly the rows matching every supplied filter, each as often as in the table, ordered by category then friendly name |
| MonitoredEntities.NoFiltersKeepAll | homeassistant-digest/server/db/entities.js:6-40 | with no filter, every row is returned |
| MonitoredEntities.GetTotalCounts | homeassistant-digest/server/db/entities.js:178-194 | `total` counts all rows, the other two no more, and an empty table gives zeros |
| MonitoredEntities.TotalsAddUp | homeassistant-digest/server/db/entities.js:178-194 | when every row has a priority, the total is monitored plus ignored |
| MonitoredEntities.CategoriesOf | homeassistant-digest/server/db/entities.js:150-173 | one category per row, in row order |
| MonitoredEntities.OptStrLeIsPreorder | homeassistant-digest/server/db/entities.js:162 | ordering categories, NULL first, is a total preorder |
| MonitoredEntities.StatCategories | homeassistant-digest/server/db/entities.js:161-162 | the groups are the distinct categories of the table, each once, in category order |
| MonitoredEntities.GetEntityStats | homeassistant-digest/server/db/entities.js:150-173 | one entry per distinct category in category order, each the counts of its own group |
| MonitoredEntities.StatsCoverCategories | homeassistant-digest/server/db/entities.js:150-173 | a category has an entry exactly when some row has it |
| MonitoredEntities.SortedNoDup | homeassistant-digest/server/db/entities.js:161-162 | reordering the distinct categories keeps them distinct |
| MonitoredEntities.MultiplicityOfNoDup | homeassistant-digest/server/db/entities.js:161 | in a list without repeats each value occurs at most once |
| MonitoredEntities.BucketsWithinCount | homeassistant-digest/server/db/entities.js:155-159 | the four priority buckets of a category never count more than its rows, and count all of them when every priority is one of the four |
| MonitoredEntities.EntityTable.SetMonitoredEntity | homeassistant-digest/server/db/entities.js:62-84 | the table becomes the upserted rows, ids staying distinct |
| MonitoredEntities.EntityTable.SetMonitoredEntities | homeassistant-digest/server/db/entities.js:89-115 | the loop upserts each entity in order, ids staying distinct |
| MonitoredEntities.EntityTable.UpdateEntityPriority | homeassistant-digest/server/db/entities.js:120-127 | the table becomes the rows with that priority changed |
| MonitoredEntities.EntityTable.RemoveMonitoredEntity | homeassistant-digest/server/db/entities.js:132-136 | the table loses that id's row |
| MonitoredEntities.EntityTable.ClearMonitoredEntities | homeassistant-digest/server/db/entities.js:141-145 | the table is empty |
| Snapshots.StoredAttributes | server/db/snapshots.js:38 | attributes are stored, as JSON text, exactly when they are present and truthy |
| Snapshots.NumOrNull | server/db/snapshots.js:36 | `x \|\| null` keeps a number exactly when it is present and not 0 |
| Snapshots.StrOrNull | server/db/snapshots.js:37 | `x \|\| null` keeps a text exactly when it is present and not empty |
| Snapshots.ZeroReadingDropped | server/db/snapshots.js:36 | as written, a numeric record with reading 0 is stored with a NULL number |
| Snapshots.RowOf | server/db/snapshots.js:36 | the corrected row (the number stored as given, as `addSnapshot` does at line 15): it keeps the record's id, entity, time, type and number, a 0 included; empty text becomes NULL |
| Snapshots.RowOfAsWritten | server/db/snapshots.js:28-39 | the row as the code stores it: id, entity, time and type kept; the number and the text each passed through `\|\| null`, so a 0 and empty text become NULL and every other value is kept |
| Snapshots.AsWrittenDiffersOnlyAtZero | server/db/snapshots.js:36 | the stored row differs from the corrected one exactly when the reading is the number 0 |
| Snapshots.ReadingKept | server/db/snapshots.js:36 | in the corrected row every reading, 0 included, is stored |
| Snapshots.BatchRows | server/db/snapshots.js:28-40 | one row per record, in order, with consecutive ids, each row as the code stores it (`RowOfAsWritten`) |
| Snapshots.NewerOrSameIsPreorder | server/db/snapshots.js:56 | ordering by time, newest first, is a total preorder |
| Snapshots.GetSnapshots | server/db/snapshots.js:48-78 | only that entity's rows in the inclusive range, each at most as often as it is stored (a sub-multiset of the matches), newest first, as many as match up to `limit`, and no matching row left out is newer than one returned |
| Snapshots.GetSnapshotsUncut | server/db/snapshots.js:48-78 | when `limit` cuts nothing, the result is a reordering of all the matching rows |
| Snapshots.TopOfSorted | server/db/snapshots.js:56-57 | the first `limit` rows of a newest-first list are as new as every row left out |
| Snapshots.MaxTimestamp | server/db/snapshots.js:89-91 | an entity's greatest timestamp is one of its rows' and no row of it is newer; none when it has no rows |
| Snapshots.LatestIff | server/db/snapshots.js:88-92 | a row is the latest of its entity exactly when none of the entity's rows is newer |
| Snapshots.GetLatestSnapshots | server/db/snapshots.js:83-113 | the result holds exactly the rows whose time is their entity's greatest, all of them on a tie, each as often as it is stored |
| Collections.FilterMultiset | server/db/snapshots.js:83-93 | a filter keeps each element that passes as often as it occurs, and no other |
| Snapshots.DeleteCountExact | server/db/snapshots.js:186-200 | the reported count plus the rows kept is the table, and the rows kept are exactly those not older than the cutoff |
| Snapshots.EntityIds | server/db/snapshots.js:210 | one entity id per row, in order |
| Snapshots.TimeRange | server/db/snapshots.js:211-212 | the oldest and newest times bound every row and are times of rows; none for an empty table |
| Snapshots.GetSnapshotStats | server/db/snapshots.js:205-227 | the total is the number of rows, the entities are counted once each, and the oldest and newest times bound the table; an empty table gives 0, 0, NULL, NULL |
| Snapshots.DistinctEntitiesCounted | server/db/snapshots.js:210 | each entity with rows is counted, once |
| Snapshots.JoinOne | server/db/snapshots.js:244-248 | a snapshot gives one joined row per monitored, non-ignored entity with its id, when it is in the range |
| Snapshots.Joined | server/db/snapshots.js:244-248 | the join holds exactly the joined rows of the snapshots |
| Snapshots.AnalysisLeIsPreorder | server/db/snapshots.js:249 | ordering by entity id, then time, is a total preorder |
| Snapshots.GetAllSnapshotsForAnalysis | server/db/snapshots.js:232-260 | the result is the join, reordered by entity id then time |
| Snapshots.AnalysisRowsExactly | server/db/snapshots.js:232-260 | a row is in the analysis set exactly when it joins a snapshot in the inclusive range with a monitored entity of that id whose priority is not `ignore` |
| Snapshots.BatchRowsSnoc | server/db/snapshots.js:28-40 | one more record adds one row, numbered after the others |
| Snapshots.AppendKeepsIds | server/db/snapshots.js:29-31 | a row numbered with the next id keeps the ids increasing |
| Snapshots.SnapshotTable.AddSnapshot | server/db/snapshots.js:6-20 | one row is appended with every value as given |
| Snapshots.SnapshotTable.AddSnapshots | server/db/snapshots.js:25-43 | the loop appends the batch's rows, in order, with consecutive ids, each with the number and the text passed through `\|\| null` |
| Snapshots.SnapshotTable.DeleteOldSnapshots | server/db/snapshots.js:186-200 | exactly the rows older than the cutoff go, and the result is their number |
| Digests.NewerOrSameIsPreorder | server/db/digests.js:65 | ordering by time, newest first, is a total preorder |
| Digests.NewestFirst | server/db/digests.js:65 | the rows reordered newest first |
| Digests.GetLatestDigest | server/db/digests.js:22-38 | NULL exactly for an empty table, otherwise a row no other row is newer than |
| Digests.GetDigest | server/db/digests.js:43-55 | the row found has that id, and none is found only when no row has it |
| Digests.PageOfNewestFirst | server/db/digests.js:60-77 | a page holds the rows from `offset` on in newest-first order, at most `limit` of them, newest first |
| Digests.MarkedSent | server/db/digests.js:82-86 | that id's rows get flag 1 and every other row is unchanged |
| Digests.DeleteOldExactly | server/db/digests.js:118-122 | exactly the rows older than the cutoff go |
| Digests.LastTime | server/db/digests.js:98 | `MAX(timestamp)` is a row's time no row exceeds, NULL for no rows |
| Digests.GetDigestStats | server/db/digests.js:91-113 | the count of digests and the newest time; an empty table gives 0, 0 and NULL |
| Digests.StatsAfterAdd | server/db/digests.js:91-113 | a new digest adds one to the count and its items to the total, and is the last time when nothing is newer |
| Digests.TotalAttentionCovers | server/db/digests.js:96 | with no negative counts the total is at least each digest's count |
| Digests.SumAttentionNonNegative | server/db/digests.js:96 | with no negative counts the total is not negative |
| Digests.DigestTable.AddDigest | server/db/digests.js:6-17 | one row is appended with flag 0, and its new id is returned |
| Digests.DigestTable.MarkNotificationSent | server/db/digests.js:82-86 | the table becomes the marked rows |
| Digests.DigestTable.DeleteOldDigests | server/db/digests.js:118-122 | the table keeps the rows not older than the cutoff, ids still increasing |
| Digests.AddedIsLatest | server/db/digests.js:6-38 | a digest newer than all others is the latest |
| Digests.MarkOnlyThat | server/db/digests.js:82-86 | marking changes only the flag, and a row's flag is 1 afterwards exactly when it was or the row has that id |
| Notes.GetNotes | server/db/notes.js:28-44 | every note, newest first (a permutation of the table) |
| Notes.GetNote | server/db/notes.js:49-63 | the note found has that id, and none is found only when no note has it |
| Notes.GetNoteForWarning | server/db/notes.js:68-82 | the note found has that key, and none is found only when no note has it |
| Notes.WithNote | server/db/notes.js:87-91 | that id's notes get the new text and every other note is unchanged |
| Notes.DeleteOnlyThat | server/db/notes.js:96-100 | a note survives a delete exactly when it was there with another id |
| Notes.GetNotesForPrompt | server/db/notes.js:106-111 | NULL exactly when there are no notes |
| Notes.PromptLinesAreNotes | server/db/notes.js:106-111 | without newlines in titles and notes, the prompt text splits into one `- "title": note` line per note, in `getNotes` order |
| Notes.SameTitleBothKept | server/db/notes.js:12-23 | two notes for the same title share a key and are both kept |
| Notes.NoteTable.AddNote | server/db/notes.js:12-23 | one row is appended under the title's warning key, and the key, title and note are returned |
| Notes.NoteTable.UpdateNote | server/db/notes.js:87-91 | the table becomes the rows with that note's text changed |
| Notes.NoteTable.DeleteNote | server/db/notes.js:96-100 | the table loses that id's rows, ids still increasing |
| Notes.UpdateOnlyThat | server/db/notes.js:87-91 | an update changes the note with that id and no other, and is a no-op for an unknown id |
| Profile.Stored | server/db/profile.js:48-51 | a string is stored as it is, any other value as its JSON text |
| Profile.ReadBack | server/db/profile.js:13-17 | a stored text reads back as what it parses to, or as the raw text when it does not parse |
| Profile.GetProfile | server/db/profile.js:6-22 | one value per stored key, each read back |
| Profile.GetProfileValue | server/db/profile.js:27-43 | NULL exactly for a key not stored, otherwise the value `getProfile` has for it |
| Profile.LastWrite | server/db/profile.js:67-76 | the last write of a key in a batch, and none when the batch does not write it |
| Profile.LastWriteWins | server/db/profile.js:64-79 | after `setProfile` the last write of a key wins, and a key not written keeps what it had |
| Profile.CompleteIff | server/db/profile.js:84-88 | the profile is complete exactly when `occupants`, `schedule` and `priorities` are stored; `concerns` is not needed |
| Profile.WriteReadBack | server/db/profile.js:27-59 | a value written reads back as itself when the parser inverts the stored text |
| Profile.ProfileTable.SetProfileValue | server/db/profile.js:48-59 | the key is upserted with the stored text |
| Profile.ProfileTable.SetProfile | server/db/profile.js:64-79 | the loop upserts each entry in order |
| Profile.ProfileTable.ClearProfile | server/db/profile.js:93-97 | the table is empty |
| Profile.CompletedBySetup | server/db/profile.js:64-97 | after a clear the profile is incomplete, and writing the three required keys completes it |
| Notifier.ConfiguredService | server/services/notifier.js:43 | a set, non-empty variable is the service, otherwise `persistent_notification.create` |
| Notifier.SetMember | server/services/notifier.js:14-23 | assigning a property gives it the new value and leaves every other key's value |
| Notifier.LookupCons | server/services/notifier.js:14-18 | a property at the front is found there, and other keys are looked up behind it |
| Notifier.LookupPair | server/services/notifier.js:14-16 | the `{title, message}` object gives each its value |
| Notifier.SpreadLookup | server/services/notifier.js:14-18 | after a spread a key of the spread object takes its value, and the others keep the base's |
| Notifier.NotificationId | server/services/notifier.js:22 | a supplied non-empty id is used, and otherwise `ha_digest_` and the time |
| Notifier.DataOverridesTitle | server/services/notifier.js:14-18 | keys of `options.data` override the title and message, and its other keys are sent as given |
| Notifier.NotificationIdOnlyPersistent | server/services/notifier.js:21-23 | `notification_id` is set only for the `persistent_notification` domain, to the supplied id when there is one |
| Notifier.SendNotification | server/services/notifier.js:6-33 | a failed call is reported as `{success: false}` with its message, and a successful one names the `domain.service` used |
| Notifier.DigestTitleAnnounces | server/services/notifier.js:39 | the title announces the items needing attention exactly when there are some |
| Notifier.DigestImportance | server/services/notifier.js:54-60 | a digest notification is tagged `ha_digest` and has importance `high` exactly when items need attention |
| Notifier.DigestMessageAndId | server/services/notifier.js:43-60 | the message is the full content when the service names `persistent_notification`, else the summary, and a persistent notification carries the digest's own id |
| Notifier.UnsetServiceSendsContent | server/services/notifier.js:7-60 | with the variable unset or empty, a digest goes to `persistent_notification.create` and its message is the full digest content |
| Notifier.TestNotification | server/services/notifier.js:66-72 | the test notification succeeds exactly when the call does |
| JsNumber.ParseFloat | server/services/homeassistant.js:201 | `parseFloat` gives NaN exactly when the text, after its leading white space, does not start with a number |
| JsNumber.NatTextParses | homeassistant-digest/server/services/collector.js:59 | the decimal text of a natural number, followed by anything that cannot continue a number (such as `" %"`), reads as that number |
| JsNumber.IntTextParses | homeassistant-digest/server/services/collector.js:59 | the decimal text of any integer, minus sign included, reads back as that integer |
| JsNumber.LeadingSpaceIgnored | server/services/homeassistant.js:201 | a white-space character in front of the text does not change what `parseFloat` reads |
| JsNumber.WordIsNaN | server/services/homeassistant.js:201-204 | a state that starts with a letter other than the `I` of `Infinity` (`on`, `off`, `unavailable`) is NaN, so it is not numeric |
| JsNumber.MinusNegates | homeassistant-digest/server/services/collector.js:59 | a leading minus sign negates the number that follows it |
| Strings.Round | server/services/predictions.js:66 | `Math.round` lands within half of its argument on each side |

## Left out

- The language-model HTTP call and its response envelope (homeassistant-digest/server/services/analyzer.js:124-168): network I/O. The reply text is a parameter.
- The Home Assistant REST client `haRequest`, `getAllStates`, `getState`, `getHistory`, `getConfig`, `checkConnection` and `callService` (server/services/homeassistant.js:7-109): network I/O. Their answers are parameters, and a failed call is an `Err` value.
- `JSON.parse`: a `Parser` function parameter, not a JSON grammar. `JSON.stringify` is written out only for objects, arrays, strings, booleans, null and integers.
- Floating point:
  - numbers are exact reals;
  - `Math.sqrt` in the outlier test is a parameter;
  - `parseFloat` neither rounds nor overflows to `Infinity` on long digit strings.
- The SQL `AVG` columns: `avg_attention_items` of `getDigestStats`, and `getHourlyAverages`/`getDailySummary` in server/db/snapshots.js.
- The order of rows that SQL `ORDER BY` or a comparator leaves tied. `Sorting.SortBy` promises only an ordered permutation, so the model says nothing about the order of ties; SQLite promises none, and no contract here states one (`Array.prototype.sort` is stable, which the model does not capture).
- `getLatestDigestByType`, which the analyzer imports: a lookup given as a parameter. Its definition is not part of this model.
- Date arithmetic:
  - the next-digest time in `getDigestStatus`;
  - the ISO cutoffs of the cleanup jobs;
  - the `cleanupOldData` schedule.
  The cutoffs are integer parameters.
- sql.js persistence, `saveDatabase`, `initDatabase` and migrations (server/db/index.js): no file I/O. Each table is a class holding its rows.
- Some conversions on read are not modelled:
  - `getSnapshots` and `getLatestSnapshots` parse the `attributes` column back with `JSON.parse`. The model returns the stored text.
- The cron scheduler, timers and the `setTimeout` first run (server/services/scheduler.js). Concurrency: only the sequential transitions of `isCollecting` are modelled.
- JavaScript property lookups that reach inherited names (`categoryMap['constructor']`) and the key order of objects. Maps are Dafny maps.
- A non-string `friendly_name` and `decodeURIComponent` of route parameters: route inputs are strings.
- The Unicode semantics of `toLowerCase`, `trim` and `\s`. The model uses ASCII letters and ASCII white space.
- The response-building of the express routes (status codes other than the validation 400s, `res.json` envelopes), the thin routes `server/api/digest.js`, `server/api/profile.js` and `server/api/collector.js`, and the bootstraps `server/index.js` and `homeassistant-digest/server/index.js`.
- The dev seeding endpoint (homeassistant-digest/server/api/dev.js): random data.
- All browser code (ui/*.js, homeassistant-digest/ui/app.js).
- AnalysisPrompt.Prompt: the whole prompt is assembled as one string (`Prompt` is `Assemble` applied to `Body`), but `Prompt` and `Body` carry no contract of their own. The fixed instruction text they contain, several thousand characters, makes any property stated about them too large for the solver. Their properties are stated on `Assemble`, `Opening`, `Ending` and `FirstRunIff` for every body, and on each section function.
- AnalysisPrompt: fields of the previous digest that are not arrays, and a null item in a list (which throws in the source), are not modelled.
- AnalysisPrompt.FirstRunIff: is stated for any prompt body given as a parameter, not for the literal prompt text.
- DigestResponse.GenerateDigest: stops at the digest header (type, content text, summary and attention count). The `addDigest` write (analyzer.js:239), the returned `id` and `generatedAt` (analyzer.js:241-248) are not modelled; the write itself is modelled separately as `Digests.DigestTable.AddDigest`.
- Strings.Fixed1: `toFixed(1)` is rounded on exact reals. The binary-floating-point ties of JavaScript are not modelled.
- Strings.Round: `Math.round` is modelled on exact reals.
- Snapshots.GetLatestSnapshots: the SELECT does not return `id`, but the model's result rows still carry it. The only caller, the collector route, does not read it.
- Notes.SameTitleBothKept: the `user_notes` table is created outside the modelled files. The model assumes `warning_key` is not declared UNIQUE; if it were, the second insert for a title would fail.

## Findings

The operations model the code as written: `AnalysisPrompt.Body` uses `EntityBlockAsWritten`, and `Snapshots.BatchRows` and `SnapshotTable.AddSnapshots` use `RowOfAsWritten`. The corrected members state the evidently intended behaviour beside them.

| source | as written | input that shows it | evidently intended | confidence | as-written member | corrected member |
|---|---|---|---|---|---|---|
| server/db/snapshots.js:36 | `addSnapshots` stores `value_num \|\| null`, so a numeric reading of 0 is stored as NULL | a snapshot with `value_type` `number` and `value_num` 0, such as a 0 W power reading | a 0 reading is stored as 0, as `addSnapshot` does | high, not executed | Snapshots.ZeroReadingDropped | Snapshots.ReadingKept |
| homeassistant-digest/server/services/analyzer.js:513 | the entity summaries are joined with `'\\n'`, a backslash followed by `n`, so they all end up on one line of the prompt | two monitored entities with summaries `a` and `b` give `a\nb` with a literal backslash | one summary per line, joined with a newline character | high, not executed | AnalysisPrompt.SummariesRunTogether | AnalysisPrompt.SummariesOnePerLine |
