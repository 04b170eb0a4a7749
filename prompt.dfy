/** The prompt of a digest (`buildAnalysisPrompt`): the fixed instructions
    around the home profile, one optional section per health report, the
    previous digest, a summary line per entity with readings in the window,
    the dismissed warnings, the user's notes and the first-run directions.
    Numbers are exact reals; `Math.sqrt` is a parameter, used only to print
    the standard deviation (the outlier rule is stated over squares). */
module AnalysisPrompt {
  import opened Wrappers
  import opened Strings
  import opened Json
  import opened Collections
  import Snapshots
  import BatteryPrediction
  import DismissedWarnings

  // ----- the reports the prompt is built from -----

  datatype Addon = Addon(name: string, state: string, boot: string)
  datatype AddonIssue = AddonIssue(addon: string, issue: string)
  datatype AddonReport = AddonReport(
    total: int, running: int, stopped: int, updateAvailable: int, addons: seq<Addon>, issues: seq<AddonIssue>)

  datatype NamedIssue = NamedIssue(name: string, issue: string)
  datatype AutomationReport = AutomationReport(total: int, enabled: int, disabled: int, issues: seq<NamedIssue>)

  datatype IntegrationIssue = IntegrationIssue(name: string, domain: string, issue: string)
  datatype IntegrationReport = IntegrationReport(total: int, failed: int, issues: seq<IntegrationIssue>)

  datatype LogEntry = LogEntry(source: string, message: string)
  datatype LogReport = LogReport(analyzed: bool, errors: seq<LogEntry>, warnings: seq<LogEntry>)

  datatype Update = Update(name: string, current: Option<string>, available: Option<string>)
  datatype UpdateReport = UpdateReport(hasUpdates: bool, updates: seq<Update>)

  datatype Failure = Failure(name: string, hoursAgo: int, error: string)

  /** The arguments of `buildAnalysisPrompt`; a report that could not be
      fetched is `None`. `entityCount` and `categoryCount` are the lengths of
      the entity list and of the category statistics. */
  datatype PromptInput = PromptInput(
    profile: map<string, Json>,
    entityCount: nat,
    categoryCount: nat,
    snapshots: seq<Snapshots.AnalysisRow>,
    kind: string,
    addonReport: Option<AddonReport>,
    automationReport: Option<AutomationReport>,
    integrationReport: Option<IntegrationReport>,
    batteryPredictions: seq<BatteryPrediction.Prediction>,
    dismissedWarnings: seq<DismissedWarnings.Dismissal>,
    logReport: Option<LogReport>,
    updateReport: Option<UpdateReport>,
    failedAutomations: Option<seq<Failure>>,
    userNotes: Option<string>,
    previousDigest: Option<Json>)

  const Warn := "\U{26A0}\U{FE0F}"

  /** A nullable text in a template literal: NULL prints as `null`. */
  function Text(t: Option<string>): string {
    if t.Some? then t.value else "null"
  }

  // ----- grouping the readings by entity -----

  /** `value_num !== null ? value_num : value_str` */
  datatype Reading = Num(x: real) | Str(s: string) | Null

  function ReadingOf(r: Snapshots.AnalysisRow): Reading {
    if r.valueNum.Some? then Num(r.valueNum.value) else if r.valueStr.Some? then Str(r.valueStr.value) else Null
  }

  /** One entry of `entityData`: the columns of the entity's first snapshot
      and all its readings in order. */
  datatype EntityData = EntityData(
    entityId: string, friendlyName: Option<string>, category: Option<string>, priority: Option<string>,
    values: seq<Reading>)

  /** The position of an entity's entry, or -1. */
  function EntryOf(groups: seq<EntityData>, id: string): (k: int)
    ensures -1 <= k < |groups|
    ensures k >= 0 ==> groups[k].entityId == id
    ensures k < 0 ==> forall i :: 0 <= i < |groups| ==> groups[i].entityId != id
    decreases |groups|
  {
    if groups == [] then -1
    else if groups[|groups| - 1].entityId == id then |groups| - 1
    else EntryOf(groups[..|groups| - 1], id)
  }

  /** `entityData` after the grouping loop, its entries in order of first
      appearance (the order `Object.entries` gives back). */
  function Grouped(snapshots: seq<Snapshots.AnalysisRow>): seq<EntityData>
    decreases |snapshots|
  {
    if snapshots == [] then []
    else
      Added(Grouped(snapshots[..|snapshots| - 1]), snapshots[|snapshots| - 1])
  }

  /** The entries after one more snapshot. */
  function Added(groups: seq<EntityData>, s: Snapshots.AnalysisRow): seq<EntityData> {
    var k := EntryOf(groups, s.entityId);
    if k < 0 then groups + [EntityData(s.entityId, s.friendlyName, s.category, s.priority, [ReadingOf(s)])]
    else groups[k := groups[k].(values := groups[k].values + [ReadingOf(s)])]
  }

  predicate OfEntity(id: string, r: Snapshots.AnalysisRow) {
    r.entityId == id
  }

  /** The readings of one entity, in snapshot order. */
  function ReadingsOf(snapshots: seq<Snapshots.AnalysisRow>, id: string): seq<Reading> {
    Map(Filter(snapshots, (r: Snapshots.AnalysisRow) => OfEntity(id, r)), ReadingOf)
  }

  lemma ReadingsOfSnoc(snapshots: seq<Snapshots.AnalysisRow>, id: string)
    requires snapshots != []
    ensures var init, s := snapshots[..|snapshots| - 1], snapshots[|snapshots| - 1];
      ReadingsOf(snapshots, id) == if s.entityId == id then ReadingsOf(init, id) + [ReadingOf(s)] else ReadingsOf(init, id)
  {
  }

  /** One step of the grouping: a new entity gets a new entry at the end, a
      known one gets the reading appended to its entry. */
  lemma GroupedStep(snapshots: seq<Snapshots.AnalysisRow>)
    requires snapshots != []
    ensures var before, after := Grouped(snapshots[..|snapshots| - 1]), Grouped(snapshots);
      var s := snapshots[|snapshots| - 1];
      var k := EntryOf(before, s.entityId);
      && (k < 0 ==> |after| == |before| + 1 && after[|before|] == EntityData(s.entityId, s.friendlyName, s.category, s.priority, [ReadingOf(s)])
                    && forall j :: 0 <= j < |before| ==> after[j] == before[j])
      && (k >= 0 ==> |after| == |before| && after[k].entityId == s.entityId && after[k].values == before[k].values + [ReadingOf(s)]
                     && forall j :: 0 <= j < |before| && j != k ==> after[j] == before[j])
  {
  }

  /** Some snapshot is of the entity. */
  predicate HasSnapshot(snapshots: seq<Snapshots.AnalysisRow>, id: string) {
    Any(snapshots, (r: Snapshots.AnalysisRow) => OfEntity(id, r))
  }

  /** Some entry is the entity's. */
  predicate HasEntry(groups: seq<EntityData>, id: string) {
    Any(groups, (g: EntityData) => g.entityId == id)
  }

  lemma SameIds(before: seq<EntityData>, after: seq<EntityData>, id: string)
    requires |after| == |before| && forall j :: 0 <= j < |before| ==> after[j].entityId == before[j].entityId
    ensures HasEntry(after, id) <==> HasEntry(before, id)
  {
    if HasEntry(after, id) {
      var j :| 0 <= j < |after| && after[j].entityId == id;
      assert before[j].entityId == id;
    }
    if HasEntry(before, id) {
      var j :| 0 <= j < |before| && before[j].entityId == id;
      assert after[j].entityId == id;
    }
  }

  /** There is an entry for every entity that has snapshots and for no other. */
  lemma {:induction false} GroupedIds(snapshots: seq<Snapshots.AnalysisRow>, id: string)
    ensures HasEntry(Grouped(snapshots), id) <==> HasSnapshot(snapshots, id)
    decreases |snapshots|
  {
    if snapshots != [] {
      var init := snapshots[..|snapshots| - 1];
      var before, after := Grouped(init), Grouped(snapshots);
      GroupedIds(init, id);
      GroupedStep(snapshots);
      AnySnoc(snapshots, (r: Snapshots.AnalysisRow) => OfEntity(id, r));
      if EntryOf(before, snapshots[|snapshots| - 1].entityId) < 0 {
        AnySnoc(after, (g: EntityData) => g.entityId == id);
        assert after[..|after| - 1] == before;
      } else {
        SameIds(before, after, id);
      }
    }
  }

  /** No entity has two entries. */
  lemma {:induction false} GroupedDistinct(snapshots: seq<Snapshots.AnalysisRow>)
    ensures forall i, j :: 0 <= i < j < |Grouped(snapshots)| ==> Grouped(snapshots)[i].entityId != Grouped(snapshots)[j].entityId
    decreases |snapshots|
  {
    if snapshots != [] {
      GroupedDistinct(snapshots[..|snapshots| - 1]);
      GroupedStep(snapshots);
    }
  }

  /** An entity's entry holds exactly that entity's readings, in order. */
  lemma {:induction false} GroupedValues(snapshots: seq<Snapshots.AnalysisRow>)
    ensures forall k :: 0 <= k < |Grouped(snapshots)| ==>
      Grouped(snapshots)[k].values == ReadingsOf(snapshots, Grouped(snapshots)[k].entityId)
    decreases |snapshots|
  {
    if snapshots != [] {
      var init, s := snapshots[..|snapshots| - 1], snapshots[|snapshots| - 1];
      var before, after := Grouped(init), Grouped(snapshots);
      GroupedValues(init);
      GroupedDistinct(init);
      GroupedStep(snapshots);
      var k := EntryOf(before, s.entityId);
      forall j | 0 <= j < |after| ensures after[j].values == ReadingsOf(snapshots, after[j].entityId) {
        var id := after[j].entityId;
        ReadingsOfSnoc(snapshots, id);
        if k < 0 && j == |before| {
          GroupedIds(init, id);
          assert !HasEntry(before, id);
          forall i | 0 <= i < |init| ensures !OfEntity(id, init[i]) {
            assert init[i] == snapshots[i];
          }
          FilterNone(init, (r: Snapshots.AnalysisRow) => OfEntity(id, r));
        } else if k >= 0 && j == k {
        } else {
          assert after[j] == before[j];
        }
      }
    }
  }

  lemma PushToNew(groups: seq<EntityData>, g: EntityData, r: Reading)
    ensures (groups + [g])[|groups| := g.(values := g.values + [r])] == groups + [g.(values := g.values + [r])]
  {
  }

  /** The body of the grouping loop: an entry for a new entity, then the
      reading pushed onto the entity's entry. */
  method AddSnapshot(groups: seq<EntityData>, snap: Snapshots.AnalysisRow) returns (r: seq<EntityData>)
    ensures r == Added(groups, snap)
  {
    r := groups;
    var k := EntryOf(r, snap.entityId);
    if k < 0 {
      var entry := EntityData(snap.entityId, snap.friendlyName, snap.category, snap.priority, []);
      PushToNew(r, entry, ReadingOf(snap));
      assert entry.values + [ReadingOf(snap)] == [ReadingOf(snap)];
      r := r + [entry];
      k := |r| - 1;
    }
    r := r[k := r[k].(values := r[k].values + [ReadingOf(snap)])];
  }

  /** The grouping loop over the snapshots. */
  method GroupSnapshots(snapshots: seq<Snapshots.AnalysisRow>) returns (groups: seq<EntityData>)
    ensures groups == Grouped(snapshots)
  {
    groups := [];
    for i := 0 to |snapshots|
      invariant groups == Grouped(snapshots[..i])
    {
      assert snapshots[..i + 1][..i] == snapshots[..i];
      groups := AddSnapshot(groups, snapshots[i]);
    }
    assert snapshots[..|snapshots|] == snapshots;
  }

  // ----- one summary line per entity, and the outlier rule -----

  /** The numeric readings, in order. */
  function Numbers(values: seq<Reading>): (xs: seq<real>)
    ensures |xs| <= |values|
    ensures forall x :: x in xs <==> Num(x) in values
    decreases |values|
  {
    if values == [] then []
    else
      var init, v := values[..|values| - 1], values[|values| - 1];
      assert values == init + [v];
      if v.Num? then Numbers(init) + [v.x] else Numbers(init)
  }

  function Mean(xs: seq<real>): real
    requires xs != []
  {
    Sum(xs) / |xs| as real
  }

  function SquaredDiffs(xs: seq<real>, avg: real): (r: seq<real>)
    ensures |r| == |xs| && forall i :: 0 <= i < |xs| ==> r[i] == (xs[i] - avg) * (xs[i] - avg)
  {
    seq(|xs|, i requires 0 <= i < |xs| => (xs[i] - avg) * (xs[i] - avg))
  }

  /** The population variance, the square of the standard deviation. */
  function Variance(xs: seq<real>): real
    requires xs != []
  {
    Mean(SquaredDiffs(xs, Mean(xs)))
  }

  predicate FarOut(avg: real, variance: real, v: real) {
    (v - avg) * (v - avg) > 9.0 * variance
  }

  /** The values more than three standard deviations from the mean:
      `|v - avg| > 3 * sd` is `(v - avg)^2 > 9 * sd^2` for `sd >= 0`. */
  function Outliers(xs: seq<real>): seq<real>
    requires xs != []
  {
    Filter(xs, (v: real) => FarOut(Mean(xs), Variance(xs), v))
  }

  /** An entity is flagged when the deviation is positive and some reading
      lies beyond three of them. */
  predicate Flagged(xs: seq<real>)
    requires xs != []
  {
    Variance(xs) > 0.0 && |Outliers(xs)| > 0
  }

  const OutlierFlag := " " + Warn + " POSSIBLE DATA QUALITY ISSUE"

  /** The `stats` text of an entity. */
  function StatsText(values: seq<Reading>): string {
    var xs := Numbers(values);
    if |xs| > 0 then
      "min: " + Fixed1(Min(xs)) + ", max: " + Fixed1(Max(xs)) + ", avg: " + Fixed1(Mean(xs))
      + (if Flagged(xs) then OutlierFlag else "")
    else "states: " + Join(Map(Dedup(values), StateText), ", ")
  }

  /** An element of `join`: null prints as nothing. */
  function StateText(v: Reading): string {
    match v
    case Num(x) => Fixed1(x)
    case Str(s) => s
    case Null => ""
  }

  function SummaryLine(g: EntityData): string {
    "- " + Text(g.friendlyName) + " (" + Text(g.category) + ", " + Text(g.priority) + "): " + StatsText(g.values)
  }

  predicate HasValues(g: EntityData) {
    g.values != []
  }

  /** `entitySummaries` */
  function EntitySummaries(groups: seq<EntityData>): seq<string> {
    Map(Filter(groups, HasValues), SummaryLine)
  }

  /** The issue line of a flagged entity. */
  function QualityLine(g: EntityData, squareRoot: real -> real): string
    requires Numbers(g.values) != []
  {
    var xs := Numbers(g.values);
    "- " + Text(g.friendlyName) + " (" + g.entityId + "): Value(s) " + Join(Map(Outliers(xs), Fixed1), ", ")
    + " are >3 std dev from mean (" + Fixed1(Mean(xs)) + " \U{B1} " + Fixed1(squareRoot(Variance(xs))) + ")"
  }

  predicate IsFlagged(g: EntityData) {
    Numbers(g.values) != [] && Flagged(Numbers(g.values))
  }

  /** `dataQualityIssues`, one line per flagged entity in entry order. */
  function QualityLines(groups: seq<EntityData>, squareRoot: real -> real): seq<string> {
    var flagged := Filter(groups, IsFlagged);
    seq(|flagged|, i requires 0 <= i < |flagged| => QualityLine(flagged[i], squareRoot))
  }

  lemma {:induction false} SumOfConstant(xs: seq<real>, c: real)
    requires forall i :: 0 <= i < |xs| ==> xs[i] == c
    ensures Sum(xs) == |xs| as real * c
    decreases |xs|
  {
    if xs != [] {
      SumOfConstant(xs[..|xs| - 1], c);
    }
  }

  /** A sensor whose numeric readings are all the same is never flagged: its
      deviation is 0. */
  lemma {:induction false} SteadyReadingsNotFlagged(xs: seq<real>, c: real)
    requires xs != [] && forall i :: 0 <= i < |xs| ==> xs[i] == c
    ensures Variance(xs) == 0.0
    ensures !Flagged(xs)
  {
    SumOfConstant(xs, c);
    var n := |xs| as real;
    assert Mean(xs) == c by {
      assert Sum(xs) / n == (n * c) / n == c;
    }
    var d := SquaredDiffs(xs, c);
    forall i | 0 <= i < |d| ensures d[i] == 0.0 {
      assert xs[i] - c == 0.0;
    }
    SumOfConstant(d, 0.0);
  }

  // ----- the sections -----

  function Names(addons: seq<Addon>): seq<string> {
    Map(addons, (a: Addon) => a.name)
  }

  predicate StoppedWithBoot(boot: string, a: Addon) {
    a.state != "started" && a.boot == boot
  }

  /** The add-ons stopped while set to start with the system. */
  function UnexpectedlyStopped(addons: seq<Addon>): seq<Addon> {
    Filter(addons, (a: Addon) => StoppedWithBoot("auto", a))
  }

  /** The add-ons stopped and set to start by hand. */
  function IntentionallyStopped(addons: seq<Addon>): seq<Addon> {
    Filter(addons, (a: Addon) => StoppedWithBoot("manual", a))
  }

  /** The two lists hold exactly the stopped add-ons with `boot=auto` and
      with `boot=manual`, so no add-on is in both. */
  lemma StoppedListsDisjoint(addons: seq<Addon>, a: Addon)
    ensures a in UnexpectedlyStopped(addons) <==> a in addons && a.state != "started" && a.boot == "auto"
    ensures a in IntentionallyStopped(addons) <==> a in addons && a.state != "started" && a.boot == "manual"
    ensures !(a in UnexpectedlyStopped(addons) && a in IntentionallyStopped(addons))
  {
  }

  predicate ShownIssue(i: AddonIssue) {
    !Contains(i.issue, "auto-start")
  }

  function AddonIssueLine(i: AddonIssue): string {
    "- " + Warn + " " + i.addon + ": " + i.issue
  }

  function AddonLines(r: AddonReport): seq<string> {
    var auto, manual := UnexpectedlyStopped(r.addons), IntentionallyStopped(r.addons);
    ["Total: " + IntText(r.total) + " add-ons (" + IntText(r.running) + " running, " + IntText(r.stopped) + " stopped)"]
    + (if |auto| > 0 then [Warn + " Unexpectedly stopped (boot=auto): " + Join(Names(auto), ", ")] else [])
    + (if |manual| > 0 then ["Intentionally stopped (boot=manual): " + Join(Names(manual), ", ")] else [])
    + (if r.updateAvailable > 0 then ["Updates available: " + IntText(r.updateAvailable)] else [])
    + Map(Filter(r.issues, ShownIssue), AddonIssueLine)
  }

  /** The issue lines of the add-on section are exactly those of the issues
      that do not mention `auto-start` (the stopped list reports those). */
  lemma {:induction false} AutoStartIssuesDropped(r: AddonReport, line: string)
    ensures line in Map(Filter(r.issues, ShownIssue), AddonIssueLine) <==>
      exists i :: i in r.issues && !Contains(i.issue, "auto-start") && line == AddonIssueLine(i)
  {
    FilterMapMember(r.issues, ShownIssue, AddonIssueLine, line);
  }

  function Section(heading: string, lines: seq<string>): string {
    "\n## " + heading + "\n" + Join(lines, "\n") + "\n"
  }

  function AddonSection(r: Option<AddonReport>): string {
    if r.Some? && r.value.total > 0 then Section("Add-on Status", AddonLines(r.value)) else ""
  }

  function AutomationLines(r: AutomationReport): seq<string> {
    ["Total: " + IntText(r.total) + " automations (" + IntText(r.enabled) + " enabled, " + IntText(r.disabled) + " disabled)"]
    + Map(Take(r.issues, 5), (i: NamedIssue) => "- " + i.name + ": " + i.issue)
  }

  /** The automation section lists the first five issues at most. */
  lemma AutomationIssuesCapped(r: AutomationReport)
    ensures |AutomationLines(r)| == 1 + (if |r.issues| < 5 then |r.issues| else 5)
    ensures forall k :: 1 <= k < |AutomationLines(r)| ==>
      AutomationLines(r)[k] == "- " + r.issues[k - 1].name + ": " + r.issues[k - 1].issue
  {
  }

  function AutomationSection(r: Option<AutomationReport>): string {
    if r.Some? && r.value.total > 0 then Section("Automation Health", AutomationLines(r.value)) else ""
  }

  function IntegrationSection(r: Option<IntegrationReport>): string {
    if r.Some? && |r.value.issues| > 0 then
      Section("Integration Issues",
        [IntText(r.value.failed) + " of " + IntText(r.value.total) + " integrations have issues:"]
        + Map(r.value.issues, (i: IntegrationIssue) => "- " + i.name + " (" + i.domain + "): " + i.issue))
    else ""
  }

  function BatteryLine(b: BatteryPrediction.Prediction): string {
    "- " + Text(b.friendlyName) + ": " + IntText(b.currentLevel) + "% (draining ~"
    + TenthsText(Round(b.drainRatePerDay * 10.0)) + "%/day, ~" + IntText(b.daysRemaining) + " days remaining)"
    + (if b.needsAttention then " " + Warn + " NEEDS ATTENTION" else "")
  }

  function BatterySection(predictions: seq<BatteryPrediction.Prediction>): string {
    if |predictions| > 0 then Section("Battery Predictions", Map(predictions, BatteryLine)) else ""
  }

  function LogLine(e: LogEntry): string {
    "- [" + e.source + "] " + e.message
  }

  /** A heading with the number of entries, then the first five of them;
      nothing for no entries. */
  function LogPart(heading: string, entries: seq<LogEntry>): seq<string> {
    if |entries| > 0 then ["### " + heading + " (" + NatText(|entries|) + ")"] + Map(Take(entries, 5), LogLine)
    else []
  }

  /** Each of the error and warning parts shows at most five entries. */
  lemma LogPartCapped(heading: string, entries: seq<LogEntry>)
    ensures |LogPart(heading, entries)| <= 6
    ensures |LogPart(heading, entries)| == 0 <==> entries == []
    ensures forall k :: 1 <= k < |LogPart(heading, entries)| ==> LogPart(heading, entries)[k] == LogLine(entries[k - 1])
  {
  }

  const NoLogIssues := "\n## Logs\nLog analysis complete. No critical errors or warnings found in the recent logs.\n"

  function LogSection(r: Option<LogReport>): string {
    if r.Some? && r.value.analyzed then
      var lines := LogPart("Recent Errors", r.value.errors) + LogPart("Recent Warnings", r.value.warnings);
      if |lines| > 0 then Section("Recent Log Issues", lines) else NoLogIssues
    else ""
  }

  function UpdateLine(u: Update): string {
    if Truthy(JStr(Text(u.current))) && u.current.Some? && u.available.Some? && u.available.value != "" then
      "- " + u.name + ": " + u.current.value + " -> " + u.available.value
    else "- " + u.name
  }

  function UpdateSection(r: Option<UpdateReport>): string {
    if r.Some? && r.value.hasUpdates then Section("Available Updates", Map(r.value.updates, UpdateLine)) else ""
  }

  const FailedHeading := "\n## Failed Automations (Last 24h)\nThe following automations triggered but encountered errors:\n"

  const DataQualityHeading :=
    "\n## Potential Data Quality Issues\nThese values appear to be statistical outliers and may indicate sensor glitches:\n"
  const DataQualityNote := "\nUse severity \"data_quality\" for these, not \"warning\" or \"critical\".\n"

  const PreviousHeading := "\n## Previous Digest (Yesterday)\nHere is what you reported yesterday. implementation:\n"
  const NoiseAdvice :=
    "\nUSE THIS TO REDUCE NOISE:\n"
    + "- If an observation is exactly the same as yesterday and hasn't worsened, move it to \"housekeeping\".\n"
    + "- If an issue persists but isn't critical, consider if it's \"stable\".\n"

  const DismissedHeading :=
    "\n## DISMISSED WARNINGS - DO NOT INCLUDE THESE:\n"
    + "The user has dismissed the following warnings. DO NOT include any attention_items with these titles or similar topics:\n"

  const NotesHeading :=
    "\n## USER PREFERENCES - TAKE THESE INTO ACCOUNT:\n"
    + "The user has added personal notes to help you understand their preferences. Consider these when analyzing:\n"
  const NotesExample :=
    "\nFor example, if a user notes \"I don't update AdGuard Home\", do NOT flag AdGuard updates as attention items.\n"

  function FailureLine(f: Failure): string {
    "- " + f.name + ": Failed " + IntText(f.hoursAgo) + "h ago - " + f.error
  }

  function FailedAutomationSection(f: Option<seq<Failure>>): string {
    if f.Some? && |f.value| > 0 then
      FailedHeading + Join(Map(f.value, FailureLine), "\n") + "\n"
    else ""
  }

  function DataQualitySection(lines: seq<string>): string {
    if |lines| > 0 then
      DataQualityHeading + Join(lines, "\n") + DataQualityNote
    else ""
  }

  /** `x || []` for a list-valued property; other values are not modelled. */
  function ItemsOf(v: Option<Json>): seq<Json> {
    if v.Some? && v.value.JArr? then v.value.items else []
  }

  /** A property in `join`: missing or null prints as nothing. */
  function JoinedText(v: Option<Json>): string {
    if v.None? || v.value.JNull? then "" else Display(v.value)
  }

  /** A property in a template literal: missing prints as `undefined`. */
  function TemplateText(v: Option<Json>): string {
    if v.None? then "undefined" else Display(v.value)
  }

  function PreviousContext(previous: Option<Json>): string {
    if previous.Some? && Truthy(previous.value) then
      var observations := ItemsOf(Get(previous.value, "observations"));
      var items := ItemsOf(Get(previous.value, "attention_items"));
      if |observations| > 0 || |items| > 0 then
        PreviousHeading + "- **Previous Attention Items**: " + Join(Map(items, (i: Json) => JoinedText(Get(i, "title"))), ", ") + "\n"
        + "- **Previous Observations**:\n"
        + Join(Map(observations, (o: Json) => "  - \"" + TemplateText(Get(o, "title")) + "\": " + TemplateText(Get(o, "description"))), "\n")
        + "\n" + NoiseAdvice
      else ""
    else ""
  }

  /** A line of the home profile: the value as JSON, or `Not specified` when
      it is missing or falsy. */
  function ProfileLine(profile: map<string, Json>, key: string, caption: string): string {
    if key in profile && Truthy(profile[key]) then "- " + caption + ": " + Serialize(profile[key])
    else "- " + caption + ": Not specified"
  }

  lemma SerializedStart(v: Json)
    ensures |Serialize(v)| > 0 && Serialize(v)[0] != 'N'
  {
    match v
    case JInt(i) =>
      if i < 0 { assert Serialize(v)[0] == '-'; } else { assert IsDigit(Serialize(v)[0]); }
    case JStr(s) => assert Serialize(v)[0] == '"';
    case JArr(_) => assert Serialize(v)[0] == '[';
    case JObj(_) => assert Serialize(v)[0] == '{';
    case _ =>
  }

  /** A profile line reads `Not specified` exactly when the value is missing
      or falsy; a stored value never prints as that text. */
  lemma NotSpecifiedIff(profile: map<string, Json>, key: string, caption: string)
    ensures ProfileLine(profile, key, caption) == "- " + caption + ": Not specified" <==> !(key in profile && Truthy(profile[key]))
  {
    if key in profile && Truthy(profile[key]) {
      var prefix := "- " + caption + ": ";
      SerializedStart(profile[key]);
      assert ProfileLine(profile, key, caption)[|prefix|] == Serialize(profile[key])[0];
      assert ("- " + caption + ": Not specified")[|prefix|] == 'N';
    }
  }

  function ConcernsLine(profile: map<string, Json>): string {
    if "concerns" in profile && Truthy(profile["concerns"]) then "- Concerns: " + Display(profile["concerns"]) else ""
  }

  function DismissedSection(dismissed: seq<DismissedWarnings.Dismissal>): string {
    if |dismissed| > 0 then
      DismissedHeading + Join(Map(dismissed, (d: DismissedWarnings.Dismissal) => "- \"" + Text(d.title) + "\""), "\n") + "\n"
    else ""
  }

  function NotesSection(notes: Option<string>): string {
    if notes.Some? && notes.value != "" then
      NotesHeading + notes.value + "\n" + NotesExample
    else ""
  }

  /** The dismissed and the notes sections appear only when there is
      something to show. */
  lemma OptionalSectionsIff(dismissed: seq<DismissedWarnings.Dismissal>, notes: Option<string>)
    ensures DismissedSection(dismissed) != "" <==> |dismissed| > 0
    ensures NotesSection(notes) != "" <==> notes.Some? && notes.value != ""
  {
  }

  /** A report's section is in the prompt exactly under the condition the
      source tests: add-ons and automations when there are any, integrations
      when one has an issue, batteries when there is a prediction, updates
      when the report says so, failures when there is one. */
  lemma ReportSectionsIff(input: PromptInput)
    ensures AddonSection(input.addonReport) != "" <==> input.addonReport.Some? && input.addonReport.value.total > 0
    ensures AutomationSection(input.automationReport) != "" <==>
      input.automationReport.Some? && input.automationReport.value.total > 0
    ensures IntegrationSection(input.integrationReport) != "" <==>
      input.integrationReport.Some? && |input.integrationReport.value.issues| > 0
    ensures BatterySection(input.batteryPredictions) != "" <==> |input.batteryPredictions| > 0
    ensures UpdateSection(input.updateReport) != "" <==> input.updateReport.Some? && input.updateReport.value.hasUpdates
    ensures FailedAutomationSection(input.failedAutomations) != "" <==>
      input.failedAutomations.Some? && |input.failedAutomations.value| > 0
  {
  }

  /** The log section appears exactly for an analysed log, and an analysed
      log without errors or warnings gets the all-clear text. */
  lemma LogSectionIff(r: Option<LogReport>)
    ensures LogSection(r) != "" <==> r.Some? && r.value.analyzed
    ensures r.Some? && r.value.analyzed && r.value.errors == [] && r.value.warnings == [] ==>
      LogSection(r) == NoLogIssues
  {
  }

  /** The data-quality section appears exactly when some entity is flagged. */
  lemma DataQualityIff(groups: seq<EntityData>, squareRoot: real -> real)
    ensures DataQualitySection(QualityLines(groups, squareRoot)) != "" <==> exists g :: g in groups && IsFlagged(g)
  {
    var flagged := Filter(groups, IsFlagged);
    if exists g :: g in groups && IsFlagged(g) {
      var g :| g in groups && IsFlagged(g);
      assert g in flagged;
    }
  }

  /** The previous-digest context appears exactly when there is a previous
      digest with observations or attention items. */
  lemma PreviousContextIff(previous: Option<Json>)
    ensures PreviousContext(previous) != "" <==>
      && previous.Some? && Truthy(previous.value)
      && (|ItemsOf(Get(previous.value, "observations"))| > 0 || |ItemsOf(Get(previous.value, "attention_items"))| > 0)
  {
  }

  function PeriodLabel(kind: string): string {
    if kind == "weekly" then "past week" else "past 24 hours"
  }

  const NoDataText := "No snapshot data available yet - this is expected for a new setup."

  /** The entity block as written: the lines are joined with the two
      characters backslash and `n`, not with a newline, so the summaries
      share one line of the prompt. */
  function EntityBlockAsWritten(summaries: seq<string>): (r: string)
    ensures summaries == [] ==> r == NoDataText
    ensures |summaries| == 1 ==> r == summaries[0]
    ensures summaries != [] && (forall i :: 0 <= i < |summaries| ==> '\n' !in summaries[i]) ==> '\n' !in r
  {
    if |summaries| > 0 then
      JoinAvoids(summaries, "\\n", '\n');
      Join(summaries, "\\n")
    else NoDataText
  }

  /** As written, two summary lines end up on one line of the prompt. */
  lemma SummariesRunTogether(a: string, b: string)
    requires '\n' !in a && '\n' !in b
    ensures EntityBlockAsWritten([a, b]) == a + "\\n" + b
    ensures '\n' !in EntityBlockAsWritten([a, b])
  {
    assert [a, b][1..] == [b];
  }

  /** The entity block as intended: one summary per line. */
  function EntityBlock(summaries: seq<string>): (r: string)
    ensures summaries == [] ==> r == NoDataText
    ensures |summaries| == 1 ==> r == summaries[0]
  {
    if |summaries| > 0 then Join(summaries, "\n") else NoDataText
  }

  /** Each summary is a line of its own in the intended block. */
  lemma {:induction false} SummariesOnePerLine(summaries: seq<string>)
    requires summaries != []
    requires forall i :: 0 <= i < |summaries| ==> '\n' !in summaries[i]
    ensures Split(EntityBlock(summaries), "\n") == summaries
  {
    SplitJoin(summaries, '\n');
  }

  // ----- the whole prompt -----

  const Intro := "You are a smart home health analyst for Home Assistant. Analyze the provided data and return a JSON object."
  const FirstRunDirective := "Since this is the first run with no data yet, attention_items should be EMPTY and the tone should be welcoming."
  const Closing := "## IMPORTANT: Keep your internal reasoning/thoughts extremely brief to ensure the JSON response is not truncated. Do NOT include markdown formatting or conversational filler in the JSON output. Return ONLY the raw JSON object starting with { and ending with }."

  /** The first-run instructions, between the newlines that frame them. */
  const FirstRunText: string :=
    "## IMPORTANT: First Run Scenario\n" +
    "This is the user's FIRST digest - they just set up the system. There is no snapshot data yet because data collection just started.\n" +
    "\n" +
    "DO NOT treat this as an error or critical issue. Instead:\n" +
    "- Be welcoming and congratulate them on setting up\n" +
    "- Explain that data collection has begun and meaningful analysis will be available in the next digest\n" +
    "- Focus on the positive aspects of their setup (entities discovered, profile configured)\n" +
    "- Give a helpful tip about what to expect\n" +
    "\n" +
    "The summary should be encouraging, like: \"Welcome! Your smart home monitoring is now active. Check back tomorrow for your first full health report.\""

  /** The fixed task description and analysis guidelines. */
  const TaskInstructions: string :=
    "## Your Task\n" +
    "Analyze the data and return a JSON object with the following structure:\n" +
    "\n" +
    "{\n" +
    "  \"summary\": \"A concise one-sentence summary of the home's health.\",\n" +
    "  \"attention_items\": [\n" +
    "    {\n" +
    "      \"title\": \"Short title of issue\",\n" +
    "      \"description\": \"Brief explanation of why this is a concern (1-2 sentences).\",\n" +
    "      \"severity\": \"critical\" | \"warning\" | \"data_quality\",\n" +
    "      \"detailed_info\": {\n" +
    "        \"explanation\": \"Detailed explanation of the issue.\",\n" +
    "        \"affected_entities\": [\"entity.id_1\", \"entity.id_2\"],\n" +
    "        \"suggestions\": [\"Specific actionable suggestion 1\", \"Suggestion 2\"],\n" +
    "        \"troubleshooting\": \"Troubleshooting steps if applicable.\"\n" +
    "      }\n" +
    "    }\n" +
    "  ],\n" +
    "  \"observations\": [\n" +
    "    {\n" +
    "      \"title\": \"Observation Title\",\n" +
    "      \"description\": \"Interesting pattern, trend, or anomaly noticed in the data.\",\n" +
    "      \"trend\": \"improving\" | \"stable\" | \"degrading\" | \"neutral\",\n" +
    "      \"actionable\": true | false\n" +
    "    }\n" +
    "  ],\n" +
    "  \"housekeeping\": [\n" +
    "    {\n" +
    "      \"title\": \"Observation Title\",\n" +
    "      \"description\": \"Observation that is stable/unchanged from yesterday or low-priority status quo.\"\n" +
    "    }\n" +
    "  ],\n" +
    "  \"positives\": [\n" +
    "    {\n" +
    "      \"text\": \"Specific thing working well or system status\",\n" +
    "      \"status\": \"good\" | \"info\" | \"warning\"\n" +
    "    }\n" +
    "  ],\n" +
    "  \"tip\": {\n" +
    "    \"title\": \"Short tip headline (max 10 words)\",\n" +
    "    \"action\": \"One concise sentence explaining what to do and why\"\n" +
    "  }\n" +
    "}\n" +
    "\n" +
    "## Guidelines for Analysis\n" +
    "\n" +
    "### Attention Items\n" +
    "- Focus on ACTIVE problems, errors, or critical thresholds that need user action\n" +
    "- Use \"critical\" for immediate risks (data loss, safety, system down)\n" +
    "- Use \"warning\" for issues that need attention but aren't urgent\n" +
    "- Use \"data_quality\" for sensor anomalies or reporting glitches (e.g., impossibly high values, stuck sensors)\n" +
    "\n" +
    "### Observations vs Housekeeping - REDUCE NOISE\n" +
    "1. **Observations**: Include items that are NEW, CHANGED, or genuinely INTERESTING anomalies. High signal-to-noise ratio.\n" +
    "2. **Housekeeping**: Move everything else here.\n" +
    "    - If an observation appeared in the \"Previous Digest\" and the state hasn't meaningfully changed, put it in 'housekeeping'.\n" +
    "    - If a sensor \"rarely triggers\" and that is the status quo, put it in 'housekeeping'.\n" +
    "    - If a state is \"stable\" and \"expected\", put it in 'housekeeping'.\n" +
    "\n" +
    "### Stopped Add-ons\n" +
    "- Add-ons with boot=auto that are stopped are UNEXPECTED and should be flagged as attention items\n" +
    "- Add-ons with boot=manual that are stopped are INTENTIONAL - do not treat as problems\n" +
    "- Only mention intentionally stopped add-ons in positives if relevant (e.g., \"X stopped add-ons are intentionally disabled\")\n" +
    "\n" +
    "### Tip - ONE CONCISE ACTION\n" +
    "The tip MUST be:\n" +
    "- **Brief**: Title max 10 words, action max 2 sentences\n" +
    "- **Singular**: One tip only, not a list of entities\n" +
    "- **Specific**: Reference ONE exact entity or action, not groups\n" +
    "- **Actionable**: User can do it today\n" +
    "\n" +
    "Good examples:\n" +
    "- Title: \"Replace front door battery\", Action: \"At 15%, it will die within a week.\"\n" +
    "- Title: \"Remove stale garage sensor\", Action: \"sensor.old_thermostat hasn't reported in 7 days.\"\n" +
    "\n" +
    "Bad examples:\n" +
    "- Listing multiple entities: \"Remove sensor.a, sensor.b, sensor.c...\" (pick ONE)\n" +
    "- Generic advice: \"Consider removing unused entities\" (too vague)\n" +
    "- Long explanations with repeated information"


  /** The text up to the profile heading: the introduction, then the
      first-run instructions on the first run only. */
  function Opening(isFirstRun: bool): (r: string)
    ensures StartsWith(r, Intro + "\n") && EndsWith(r, ProfileHeading)
  {
    var block := if isFirstRun then "\n" + FirstRunText + "\n" else "";
    Frame3(Intro + "\n", block, ProfileHeading);
    Intro + "\n" + block + ProfileHeading
  }

  const ProfileHeading := "\n## Home Profile\n"

  /** The profile, the overview and the report sections, up to the data
      heading. */
  function Sections(input: PromptInput, groups: seq<EntityData>, squareRoot: real -> real): string {
    var p := input.profile;
    ProfileLine(p, "occupants", "Occupants") + "\n" + ProfileLine(p, "schedule", "Schedule") + "\n"
    + ProfileLine(p, "priorities", "Priorities") + "\n" + ConcernsLine(p) + "\n\n## Entity Overview\n"
    + "Total monitored: " + NatText(input.entityCount) + " entities across " + NatText(input.categoryCount) + " categories\n"
    + AddonSection(input.addonReport) + AutomationSection(input.automationReport)
    + IntegrationSection(input.integrationReport) + BatterySection(input.batteryPredictions)
    + LogSection(input.logReport) + UpdateSection(input.updateReport)
    + FailedAutomationSection(input.failedAutomations) + DataQualitySection(QualityLines(groups, squareRoot))
    + "\n" + PreviousContext(input.previousDigest)
  }

  /** The data heading for the period, the entity block and the task
      description. */
  function DataPart(kind: string, block: string): string {
    "\n## Data from " + PeriodLabel(kind) + "\n" + block + "\n\n" + TaskInstructions + "\n\n"
  }

  /** The profile, the overview and the sections, through the entity block
      as the code writes it and the task description. */
  function Body(input: PromptInput, groups: seq<EntityData>, squareRoot: real -> real): string {
    Sections(input, groups, squareRoot) + DataPart(input.kind, EntityBlockAsWritten(EntitySummaries(groups)))
  }

  /** The dismissed warnings, the notes, the first-run directive and the
      closing request. */
  function Ending(isFirstRun: bool, dismissed: seq<DismissedWarnings.Dismissal>, notes: Option<string>): (r: string)
    ensures StartsWith(r, DismissedSection(dismissed) + "\n" + NotesSection(notes) + "\n")
    ensures EndsWith(r, "\n\n" + Closing)
  {
    var head := DismissedSection(dismissed) + "\n" + NotesSection(notes) + "\n";
    var directive := if isFirstRun then FirstRunDirective else "";
    Frame4(head, directive, "\n\n", Closing);
    head + directive + "\n\n" + Closing
  }

  /** The template around the body: the opening, then the body unchanged,
      then the ending. */
  function Assemble(isFirstRun: bool, body: string, dismissed: seq<DismissedWarnings.Dismissal>, notes: Option<string>)
    : (r: string)
    ensures var o := Opening(isFirstRun);
      && StartsWith(r, o) && EndsWith(r, Ending(isFirstRun, dismissed, notes))
      && |r| == |o| + |body| + |Ending(isFirstRun, dismissed, notes)|
      && r[|o|..|o| + |body|] == body
  {
    var o, e := Opening(isFirstRun), Ending(isFirstRun, dismissed, notes);
    Frame3(o, body, e);
    o + body + e
  }

  /** `buildAnalysisPrompt(...)`: the entries come from the grouping loop
      (`GroupSnapshots`), and the prompt is the first run exactly when there
      is no snapshot. `FirstRunIff` states what the template makes of that
      for every body. */
  function Prompt(input: PromptInput, squareRoot: real -> real): string {
    var isFirstRun := |input.snapshots| == 0;
    Assemble(isFirstRun, Body(input, Grouped(input.snapshots), squareRoot), input.dismissedWarnings, input.userNotes)
  }

  const FirstRunOpening := Intro + "\n\n" + FirstRunText
  const FirstRunEnding := FirstRunDirective + "\n\n" + Closing

  /** The opening with and without the first-run block, over any texts. */
  lemma {:induction false} OpeningShape(intro: string, text: string, heading: string, rest: string, isFirstRun: bool)
    requires |heading| > 4 && |text| > 3 && heading[4] != text[3]
    ensures StartsWith(intro + "\n" + (if isFirstRun then "\n" + text + "\n" else "") + heading + rest, intro + "\n\n" + text)
      <==> isFirstRun
  {
    var s := intro + "\n" + (if isFirstRun then "\n" + text + "\n" else "") + heading + rest;
    var probe := intro + "\n\n" + text;
    var n := |intro|;
    if isFirstRun {
      assert s[..|probe|] == probe by {
        forall k | 0 <= k < |probe| ensures s[k] == probe[k] {
          if k < n {
            assert s[k] == intro[k];
          } else if k >= n + 2 {
            assert s[k] == text[k - n - 2];
          }
        }
      }
    } else if |probe| <= |s| {
      assert s[n + 5] == heading[4];
      assert probe[n + 5] == text[3];
      assert s[..|probe|][n + 5] != probe[n + 5];
    }
  }

  /** The ending with and without the directive, over any texts. */
  lemma {:induction false} EndingShape(before: string, d: string, notes: string, directive: string, closing: string, isFirstRun: bool)
    requires |directive| > 0 && directive[|directive| - 1] != '\n'
    ensures EndsWith(before + (d + "\n" + notes + "\n" + (if isFirstRun then directive else "") + "\n\n" + closing),
                     directive + "\n\n" + closing)
      <==> isFirstRun
  {
    var head := before + (d + "\n" + notes + "\n");
    var s := before + (d + "\n" + notes + "\n" + (if isFirstRun then directive else "") + "\n\n" + closing);
    var probe := directive + "\n\n" + closing;
    var c := |closing|;
    if isFirstRun {
      assert s == head + probe;
      assert s[|s| - |probe|..] == probe;
    } else if |probe| <= |s| {
      assert s == head + "\n\n" + closing;
      assert s[|s| - c - 3] == '\n';
      assert probe[|probe| - c - 3] == directive[|directive| - 1];
      assert s[|s| - |probe|..][|probe| - c - 3] == s[|s| - c - 3];
    }
  }

  lemma Regroup(a: string, b: string, c: string)
    ensures a + b + c == a + (b + c)
  {
  }

  lemma FirstRunTextStart()
    ensures |FirstRunText| > 3 && FirstRunText[3] == 'I'
    ensures |FirstRunDirective| > 0 && FirstRunDirective[|FirstRunDirective| - 1] == '.'
  {
  }

  /** The prompt opens with the first-run instructions exactly when there are
      no snapshots. */
  lemma FirstRunOpensIff(rest: string, isFirstRun: bool)
    ensures StartsWith(Opening(isFirstRun) + rest, FirstRunOpening) <==> isFirstRun
  {
    FirstRunTextStart();
    OpeningShape(Intro, FirstRunText, "\n## Home Profile\n", rest, isFirstRun);
  }

  /** The prompt closes with the first-run directive exactly when there are
      no snapshots. */
  lemma FirstRunEndsIff(before: string, isFirstRun: bool, dismissed: seq<DismissedWarnings.Dismissal>, notes: Option<string>)
    ensures EndsWith(before + Ending(isFirstRun, dismissed, notes), FirstRunEnding) <==> isFirstRun
  {
    FirstRunTextStart();
    EndingShape(before, DismissedSection(dismissed), NotesSection(notes), FirstRunDirective, Closing, isFirstRun);
  }

  /** The first-run instructions open the prompt, and the first-run
      directive closes it, exactly on the first run, whatever the sections in
      between hold. */
  lemma FirstRunIff(isFirstRun: bool, body: string, dismissed: seq<DismissedWarnings.Dismissal>, notes: Option<string>)
    ensures StartsWith(Assemble(isFirstRun, body, dismissed, notes), FirstRunOpening) <==> isFirstRun
    ensures EndsWith(Assemble(isFirstRun, body, dismissed, notes), FirstRunEnding) <==> isFirstRun
  {
    var ending := Ending(isFirstRun, dismissed, notes);
    Regroup(Opening(isFirstRun), body, ending);
    FirstRunOpensIff(body + ending, isFirstRun);
    FirstRunEndsIff(Opening(isFirstRun) + body, isFirstRun, dismissed, notes);
  }

  /** There is an entity summary for every entity with snapshots, so the
      no-data text appears exactly on the first run. */
  lemma {:induction false} NoDataIffFirstRun(snapshots: seq<Snapshots.AnalysisRow>)
    ensures EntitySummaries(Grouped(snapshots)) == [] <==> snapshots == []
  {
    var groups := Grouped(snapshots);
    GroupedEntriesFilled(snapshots);
    FilterAll(groups, HasValues);
  }

  /** Every entry holds at least one reading, and there is an entry as soon
      as there is a snapshot. */
  lemma {:induction false} GroupedEntriesFilled(snapshots: seq<Snapshots.AnalysisRow>)
    ensures forall k :: 0 <= k < |Grouped(snapshots)| ==> HasValues(Grouped(snapshots)[k])
    ensures Grouped(snapshots) == [] <==> snapshots == []
    decreases |snapshots|
  {
    if snapshots != [] {
      GroupedEntriesFilled(snapshots[..|snapshots| - 1]);
      GroupedStep(snapshots);
    }
  }
}
