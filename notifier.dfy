/** The notifier: which Home Assistant service a notification goes to, the
    data sent with it, and the title, message and importance of a digest
    notification. The service call itself is a parameter (its outcome), and
    the configured service name and the clock are inputs. */
module Notifier {
  import opened Wrappers
  import opened Strings
  import opened Json
  import opened HomeAssistant

  const DefaultService := "persistent_notification.create"

  /** `process.env.NOTIFICATION_SERVICE || 'persistent_notification.create'`:
      an unset or empty variable gives the default. */
  function ConfiguredService(env: Option<string>): (s: string)
    ensures s != ""
    ensures env.Some? && env.value != "" ==> s == env.value
    ensures !(env.Some? && env.value != "") ==> s == DefaultService
  {
    if env.Some? && env.value != "" then env.value else DefaultService
  }

  /** Assigning a property of an object: an existing key keeps its place and
      takes the new value, a new key is appended. */
  function SetMember(members: seq<(string, Json)>, k: string, v: Json): (r: seq<(string, Json)>)
    ensures Lookup(r, k) == Some(v)
    ensures forall j :: j != k ==> Lookup(r, j) == Lookup(members, j)
    decreases |members|
  {
    if members == [] then [(k, v)]
    else if members[0].0 == k then [(k, v)] + members[1..]
    else
      var rest := SetMember(members[1..], k, v);
      LookupCons(members[0], rest);
      LookupCons(members[0], members[1..]);
      assert members == [members[0]] + members[1..];
      [members[0]] + rest
  }

  lemma LookupCons(m: (string, Json), rest: seq<(string, Json)>)
    ensures Lookup([m] + rest, m.0) == Some(m.1)
    ensures forall j :: j != m.0 ==> Lookup([m] + rest, j) == Lookup(rest, j)
  {
    assert ([m] + rest)[1..] == rest;
  }

  lemma LookupPair(a: (string, Json), b: (string, Json), k: string)
    ensures Lookup([a, b], k) == if k == a.0 then Some(a.1) else if k == b.0 then Some(b.1) else None
  {
    assert [a, b][1..] == [b];
    assert [b][1..] == [];
  }

  /** `{...base, ...extra}`: the properties of `extra` assigned in order. */
  function Spread(base: seq<(string, Json)>, extra: seq<(string, Json)>): (r: seq<(string, Json)>)
    decreases |extra|
  {
    if extra == [] then base else Spread(SetMember(base, extra[0].0, extra[0].1), extra[1..])
  }

  /** A property of `extra` overrides one of `base`; the others come from
      `base`. Object keys are distinct. */
  lemma {:induction false} SpreadLookup(base: seq<(string, Json)>, extra: seq<(string, Json)>, k: string)
    requires forall i, j :: 0 <= i < j < |extra| ==> extra[i].0 != extra[j].0
    ensures Lookup(Spread(base, extra), k) == if Lookup(extra, k).Some? then Lookup(extra, k) else Lookup(base, k)
    decreases |extra|
  {
    if extra != [] {
      var next := SetMember(base, extra[0].0, extra[0].1);
      SpreadLookup(next, extra[1..], k);
      LookupCons(extra[0], extra[1..]);
      assert extra == [extra[0]] + extra[1..];
      assert k == extra[0].0 ==> Lookup(extra[1..], k) == None;
    }
  }

  /** What the caller may pass: `options.notificationId` and `options.data`. */
  datatype Options = Options(notificationId: Option<string>, data: seq<(string, Json)>)

  /** The service call `sendNotification(title, message, options)` makes;
      `now` stands in for `Date.now()`. */
  function NotificationCall(title: string, message: string, options: Options, env: Option<string>, now: int): (c: ServiceCall) {
    var (domain, service) := SplitService(ConfiguredService(env));
    var data := Spread([("title", JStr(title)), ("message", JStr(message))], options.data);
    var withId :=
      if domain == "persistent_notification" then
        SetMember(data, "notification_id", JStr(NotificationId(options, now)))
      else data;
    ServiceCall(domain, service, withId)
  }

  /** `options.notificationId || `ha_digest_${Date.now()}``: a missing or
      empty id gives the time-stamped default. */
  function NotificationId(options: Options, now: int): (id: string)
    ensures options.notificationId.Some? && options.notificationId.value != "" ==> id == options.notificationId.value
    ensures !(options.notificationId.Some? && options.notificationId.value != "") ==> id == "ha_digest_" + IntText(now)
  {
    if options.notificationId.Some? && options.notificationId.value != "" then options.notificationId.value
    else "ha_digest_" + IntText(now)
  }

  predicate DistinctKeys(members: seq<(string, Json)>) {
    forall i, j :: 0 <= i < j < |members| ==> members[i].0 != members[j].0
  }

  /** Keys in `options.data` override the title and the message, and every
      other key of `options.data` is sent as given. */
  lemma {:induction false} DataOverridesTitle(title: string, message: string, options: Options, env: Option<string>, now: int, k: string)
    requires DistinctKeys(options.data)
    requires k != "notification_id"
    ensures var c := NotificationCall(title, message, options, env, now);
      Lookup(c.data, k) ==
        if Lookup(options.data, k).Some? then Lookup(options.data, k)
        else if k == "title" then Some(JStr(title))
        else if k == "message" then Some(JStr(message))
        else None
  {
    var base := [("title", JStr(title)), ("message", JStr(message))];
    SpreadLookup(base, options.data, k);
    LookupPair(base[0], base[1], k);
  }

  /** `notification_id` is set for the `persistent_notification` domain only,
      to the supplied id when there is one; elsewhere it is sent only when
      `options.data` carries it. */
  lemma {:induction false} NotificationIdOnlyPersistent(title: string, message: string, options: Options, env: Option<string>, now: int)
    requires DistinctKeys(options.data)
    ensures var c := NotificationCall(title, message, options, env, now);
      && (c.domain == "persistent_notification" ==> Lookup(c.data, "notification_id") == Some(JStr(NotificationId(options, now))))
      && (c.domain != "persistent_notification" ==> Lookup(c.data, "notification_id") == Lookup(options.data, "notification_id"))
  {
    var base := [("title", JStr(title)), ("message", JStr(message))];
    SpreadLookup(base, options.data, "notification_id");
    LookupPair(base[0], base[1], "notification_id");
  }

  /** `{success: true, service}` or `{success: false, error}`. */
  datatype SendResult = Sent(service: string) | Failed(error: string)

  /** `sendNotification(title, message, options)`, given the outcome of the
      service call: a failure is reported, not thrown. */
  function SendNotification(title: string, message: string, options: Options, env: Option<string>, now: int, outcome: Result<(), string>): (r: SendResult)
    ensures r.Sent? <==> outcome.Ok?
    ensures outcome.Err? ==> r == Failed(outcome.error)
    ensures r.Sent? ==>
      var c := NotificationCall(title, message, options, env, now);
      r.service == c.domain + "." + c.service
  {
    var c := NotificationCall(title, message, options, env, now);
    match outcome
    case Ok(_) => Sent(c.domain + "." + c.service)
    case Err(e) => Failed(e)
  }

  /** The fields of a digest the notification is built from. */
  datatype DigestNotice = DigestNotice(id: int, attentionCount: int, content: string, summary: string)

  const TitlePrefix := "\U{1F3E0} Home Digest - "

  function DigestTitle(attentionCount: int): string {
    TitlePrefix + (if attentionCount > 0 then IntText(attentionCount) + " items need attention" else "All systems normal")
  }

  /** `sendDigestNotification(digest)`: the title, message and options it
      passes on. */
  function DigestNotification(digest: DigestNotice, env: Option<string>): (string, string, Options) {
    var message := if Contains(ConfiguredService(env), "persistent_notification") then digest.content else digest.summary;
    (DigestTitle(digest.attentionCount), message, DigestOptions(digest))
  }

  function DigestOptions(digest: DigestNotice): Options {
    var importance := if digest.attentionCount > 0 then "high" else "default";
    Options(Some("ha_digest_" + IntText(digest.id)), [("tag", JStr("ha_digest")), ("importance", JStr(importance))])
  }

  /** The title announces the items that need attention exactly when there
      are some. */
  lemma {:induction false} DigestTitleAnnounces(attentionCount: int)
    ensures attentionCount > 0 <==> DigestTitle(attentionCount) != TitlePrefix + "All systems normal"
  {
    if attentionCount > 0 {
      var t := IntText(attentionCount) + " items need attention";
      assert |t| > |"All systems normal"|;
      assert DigestTitle(attentionCount) == TitlePrefix + t;
    }
  }

  /** A digest notification is tagged `ha_digest` and marked important
      exactly when items need attention, whatever its title and message. */
  lemma {:induction false} DigestImportance(digest: DigestNotice, title: string, message: string, env: Option<string>, now: int)
    ensures var c := NotificationCall(title, message, DigestOptions(digest), env, now);
      && (Lookup(c.data, "importance") == Some(JStr("high")) <==> digest.attentionCount > 0)
      && Lookup(c.data, "tag") == Some(JStr("ha_digest"))
  {
    var data := DigestOptions(digest).data;
    assert DistinctKeys(data);
    DataOverridesTitle(title, message, DigestOptions(digest), env, now, "importance");
    DataOverridesTitle(title, message, DigestOptions(digest), env, now, "tag");
    LookupPair(data[0], data[1], "importance");
    LookupPair(data[0], data[1], "tag");
  }

  /** A persistent notification carries the full digest and the digest's own
      id; any other service gets the summary. */
  lemma {:induction false} DigestMessageAndId(digest: DigestNotice, env: Option<string>, now: int)
    ensures var (title, message, options) := DigestNotification(digest, env);
      var c := NotificationCall(title, message, options, env, now);
      && (message == if Contains(ConfiguredService(env), "persistent_notification") then digest.content else digest.summary)
      && (c.domain == "persistent_notification" ==>
            Lookup(c.data, "notification_id") == Some(JStr("ha_digest_" + IntText(digest.id))))
  {
    var (title, message, options) := DigestNotification(digest, env);
    assert DistinctKeys(options.data);
    NotificationIdOnlyPersistent(title, message, options, env, now);
  }

  /** Without a configured service, a digest goes to
      `persistent_notification.create` and carries the full digest text. */
  lemma {:induction false} UnsetServiceSendsContent(digest: DigestNotice, env: Option<string>, now: int)
    requires !(env.Some? && env.value != "")
    ensures var (title, message, options) := DigestNotification(digest, env);
      var c := NotificationCall(title, message, options, env, now);
      && c.domain == "persistent_notification" && c.service == "create"
      && message == digest.content
  {
    DottedServiceSplit("persistent_notification", "create", "");
    assert "persistent_notification" + "." + "create" + "" == DefaultService;
    assert OccursAt(DefaultService, "persistent_notification", 0);
    ContainsIff(DefaultService, "persistent_notification");
  }

  /** `sendTestNotification()` */
  function TestNotification(env: Option<string>, now: int, outcome: Result<(), string>): (r: SendResult)
    ensures r.Sent? <==> outcome.Ok?
  {
    SendNotification("\U{1F9EA} HA Digest Test", "If you see this, notifications are working correctly!",
      Options(Some("ha_digest_test"), []), env, now, outcome)
  }
}
