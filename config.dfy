/** The YAML configuration engine: resolves the S3 location of the configuration,
    loads the document once, and answers rule and notification-setting queries. */
module Config {
  import opened Common
  import opened Strings

  const PathNotProvided: string := "Configuration S3 path not provided"
  const InvalidPathPrefix: string := "Invalid S3 path: "
  const NotificationsNotFound: string := "Notifications configuration not found"

  /** A remediation rule: an opaque object the engine passes on. */
  type Rule = Dict

  /** A notification setting: a text value or a list of text values. */
  datatype Setting = Text(text: string) | TextList(items: seq<string>)

  /** The parsed YAML document. A document that is not a mapping (an empty file parses
      to `None`) makes every key access raise, with the message it carries. */
  datatype Document =
    | Mapping(rules: Option<seq<Rule>>, notifications: Option<map<string, map<string, Setting>>>)
    | NotAMapping(accessError: string)

  /** A constructed `YAMLConfig`: its resolved path and its loaded document. */
  datatype YamlConfig = YamlConfig(configPath: string, document: Document)

  // ---------------------------------------------------------------------------
  // Construction

  /** `config_path or os.environ.get("CONFIG_S3_PATH")`, then the emptiness check:
      an empty argument counts as absent, as Python's `or` does. */
  function ResolveConfigPath(argument: Option<string>, environment: Option<string>): (r: Result<string>)
    ensures r.Success? ==> r.value != ""
    ensures argument.Some? && argument.value != "" ==> r == Success(argument.value)
    ensures r.Failure? <==> (argument.None? || argument.value == "") && (environment.None? || environment.value == "")
    ensures r.Failure? ==> r.error == PathNotProvided
    ensures (argument.None? || argument.value == "") && environment.Some? && environment.value != "" ==>
              r == Success(environment.value)
  {
    var chosen := if argument.Some? && argument.value != "" then argument else environment;
    if chosen.None? || chosen.value == "" then Failure(PathNotProvided) else Success(chosen.value)
  }

  /** `_parse_s3_path`: drop every `s3://`, split on `/`, and take the first part as the
      bucket and the rest, re-joined, as the key. */
  function ParseS3Path(path: string): (r: Result<(string, string)>)
  {
    var parts := Split(ReplaceAll(path, "s3://", ""), '/');
    if |parts| < 2 then Failure(InvalidPathPrefix + path)
    else Success((parts[0], Join(parts[1..], '/')))
  }

  /** The parse fails exactly when no `/` is left once `s3://` is removed; otherwise the
      bucket holds no `/` and bucket, `/` and key put back together give that string. */
  lemma ParseS3PathRoundTrip(path: string)
    ensures ParseS3Path(path).Failure? <==> '/' !in ReplaceAll(path, "s3://", "")
    ensures ParseS3Path(path).Failure? ==> ParseS3Path(path).error == InvalidPathPrefix + path
    ensures ParseS3Path(path).Success? ==>
              var (bucket, key) := ParseS3Path(path).value;
              && '/' !in bucket
              && bucket + "/" + key == ReplaceAll(path, "s3://", "")
  {
    var stripped := ReplaceAll(path, "s3://", "");
    var parts := Split(stripped, '/');
    SplitParts(stripped, '/');
    JoinSplit(stripped, '/');
    if |parts| >= 2 {
      assert Join(parts, '/') == parts[0] + ['/'] + Join(parts[1..], '/');
    }
  }

  /** A path ending in `/` right after the bucket names an empty key. */
  lemma EmptyKeyAccepted()
    ensures ParseS3Path("s3://b/") == Success(("b", ""))
  {
    var path := "s3://b/";
    assert path[..5] == "s3://";
    assert ReplaceAll(path, "s3://", "") == "b/" by {
      assert ReplaceAll(path, "s3://", "") == "" + ReplaceAll(path[5..], "s3://", "");
      assert path[5..] == "b/";
    }
    assert Split("b/", '/') == ["b", ""] by {
      assert "b/"[1..] == "/";
      assert "/"[1..] == "";
      assert Split("", '/') == [""];
      assert Split("/", '/') == [""] + Split("", '/');
      var rest := Split("/", '/');
      assert rest == ["", ""];
      assert Split("b/", '/') == [['b'] + rest[0]] + rest[1..];
      assert ['b'] + rest[0] == "b";
      assert rest[1..] == [""];
    }
  }

  /** `YAMLConfig.__init__`: resolve the path, parse it, and load the document from S3
      through `load`. Every failure on the way is re-raised. */
  function NewConfig(argument: Option<string>, environment: Option<string>,
                     load: (string, string) -> Call<Document>): (r: Result<YamlConfig>)
    ensures ResolveConfigPath(argument, environment).Failure? ==> r == Failure(PathNotProvided)
    ensures r.Success? ==>
              && ResolveConfigPath(argument, environment) == Success(r.value.configPath)
              && ParseS3Path(r.value.configPath).Success?
              && load(ParseS3Path(r.value.configPath).value.0, ParseS3Path(r.value.configPath).value.1)
                 == Returned(r.value.document)
    ensures ResolveConfigPath(argument, environment).Success? ==>
              var path := ResolveConfigPath(argument, environment).value;
              && (ParseS3Path(path).Failure? ==> r == Failure(ParseS3Path(path).error))
              && (ParseS3Path(path).Success? ==>
                    var call := load(ParseS3Path(path).value.0, ParseS3Path(path).value.1);
                    && (call.Returned? ==> r == Success(YamlConfig(path, call.value)))
                    && (!call.Returned? ==> r == Failure(call.message)))
  {
    match ResolveConfigPath(argument, environment)
    case Failure(e) => Failure(e)
    case Success(path) =>
      match ParseS3Path(path)
      case Failure(e) => Failure(e)
      case Success(location) =>
        match load(location.0, location.1)
        case Returned(document) => Success(YamlConfig(path, document))
        case ClientError(m) => Failure(m)
        case Raised(m) => Failure(m)
  }

  // ---------------------------------------------------------------------------
  // Rules

  /** `_rule_matches`: a placeholder that accepts every rule. */
  predicate RuleMatches<A>(rule: Rule, alarms: A) {
    true
  }

  /** The rules that `_rule_matches` accepts, in order. */
  function MatchingRules<A>(rules: seq<Rule>, alarms: A): (r: seq<Rule>)
    ensures |r| <= |rules|
  {
    if rules == [] then []
    else
      var init := MatchingRules(rules[..|rules| - 1], alarms);
      if RuleMatches(rules[|rules| - 1], alarms) then init + [rules[|rules| - 1]] else init
  }

  /** Since every rule matches, the filter keeps the whole list in order. */
  lemma {:induction false} AllRulesMatch<A>(rules: seq<Rule>, alarms: A)
    ensures MatchingRules(rules, alarms) == rules
  {
    if rules != [] {
      AllRulesMatch(rules[..|rules| - 1], alarms);
      assert rules[..|rules| - 1] + [rules[|rules| - 1]] == rules;
    }
  }

  /** `get_matching_rules`: the accepted entries of `rules`; none when the key is absent
      or the document cannot be read. */
  method GetMatchingRules<A>(config: YamlConfig, alarms: A) returns (matching: seq<Rule>)
    ensures config.document.NotAMapping? ==> matching == []
    ensures config.document.Mapping? ==> matching == MatchingRules(config.document.rules.GetOr([]), alarms)
  {
    if config.document.NotAMapping? {
      return [];
    }
    var rules := config.document.rules.GetOr([]);
    matching := [];
    for i := 0 to |rules|
      invariant matching == MatchingRules(rules[..i], alarms)
    {
      assert rules[..i + 1][..i] == rules[..i];
      if RuleMatches(rules[i], alarms) {
        matching := matching + [rules[i]];
      }
    }
    assert rules[..|rules|] == rules;
  }

  // ---------------------------------------------------------------------------
  // Notification settings

  /** `str(value)`: a text as itself, a list in Python's list display. */
  function Str(s: Setting): string {
    match s
    case Text(t) => t
    case TextList(items) => "[" + Quoted(items) + "]"
  }

  function Quoted(items: seq<string>): string {
    if items == [] then ""
    else if |items| == 1 then "'" + items[0] + "'"
    else "'" + items[0] + "', " + Quoted(items[1..])
  }

  /** `list(value)`: a list as itself, a text as the list of its characters. */
  function AsList(s: Setting): (r: seq<string>)
    ensures s.TextList? ==> r == s.items
    ensures s.Text? ==> |r| == |s.text| && forall i :: 0 <= i < |r| ==> r[i] == [s.text[i]]
  {
    match s
    case TextList(items) => items
    case Text(t) => seq(|t|, i requires 0 <= i < |t| => [t[i]])
  }

  /** `self.rules["notifications"][section][field]` behind the two presence checks of the
      getters, which name the section by `heading` in their error. */
  function Lookup(config: YamlConfig, section: string, heading: string, field: string): (r: Result<Setting>)
    ensures config.document.Mapping? && config.document.notifications.None? ==> r == Failure(NotificationsNotFound)
    ensures config.document.Mapping? && config.document.notifications.Some? && section !in config.document.notifications.value
            ==> r == Failure(heading + " configuration not found")
    ensures r.Success? <==>
              && config.document.Mapping?
              && config.document.notifications.Some?
              && section in config.document.notifications.value
              && field in config.document.notifications.value[section]
    ensures r.Success? ==> r.value == config.document.notifications.value[section][field]
    ensures (r.Failure? && config.document.Mapping? && config.document.notifications.Some?
             && section in config.document.notifications.value) ==> r.error == KeyErrorText(field)
  {
    match config.document
    case NotAMapping(e) => Failure(e)
    case Mapping(_, notifications) =>
      if notifications.None? then Failure(NotificationsNotFound)
      else if section !in notifications.value then Failure(heading + " configuration not found")
      else if field !in notifications.value[section] then Failure(KeyErrorText(field))
      else Success(notifications.value[section][field])
  }

  function TextSetting(config: YamlConfig, section: string, heading: string, field: string): (r: Result<string>)
    ensures r.Success? <==> Lookup(config, section, heading, field).Success?
    ensures r.Success? ==> r.value == Str(Lookup(config, section, heading, field).value)
    ensures r.Failure? ==> r.error == Lookup(config, section, heading, field).error
  {
    match Lookup(config, section, heading, field)
    case Success(v) => Success(Str(v))
    case Failure(e) => Failure(e)
  }

  /** `get_slack_webhook_url` */
  function SlackWebhookUrl(config: YamlConfig): Result<string> {
    TextSetting(config, "slack", "Slack", "webhook_url")
  }

  /** `get_teams_webhook_url` */
  function TeamsWebhookUrl(config: YamlConfig): Result<string> {
    TextSetting(config, "teams", "Teams", "webhook_url")
  }

  /** `get_email_from` */
  function EmailFrom(config: YamlConfig): Result<string> {
    TextSetting(config, "email", "Email", "from")
  }

  /** `get_email_recipients` */
  function EmailRecipients(config: YamlConfig): (r: Result<seq<string>>)
    ensures r.Success? <==> Lookup(config, "email", "Email", "recipients").Success?
    ensures r.Success? ==> r.value == AsList(Lookup(config, "email", "Email", "recipients").value)
  {
    match Lookup(config, "email", "Email", "recipients")
    case Success(v) => Success(AsList(v))
    case Failure(e) => Failure(e)
  }

  /** `get_pagerduty_key` */
  function PagerDutyKey(config: YamlConfig): Result<string> {
    TextSetting(config, "pagerduty", "PagerDuty", "api_key")
  }
}
