/** The NOC agent: for an incoming CloudWatch event it fetches the active alarms,
    correlates them into groups, and for each group gathers metric insights, asks the
    AI engine for a decision, dispatches the decision's actions and notifies the
    channels the decision's severity calls for. */
module Agent {
  import opened Common
  import opened Strings
  import opened Correlation
  import opened Metrics
  import opened Dispatcher
  import opened Notifications
  import opened Config

  const InvalidEvent: string := "Invalid event structure: missing 'detail' field"

  /** An incoming event; only the presence of its keys matters here. */
  type Event = Dict

  /** The agent's collaborators: CloudWatch `describe_alarms` (its `MetricAlarms`), the
      correlator's history store and AI analysis, the metric analyzer's CloudWatch fetch
      and AI evaluation, the loaded configuration, the AI engine's `evaluate` on a group
      with its insights and rules (which answers a decision and never raises), the AWS
      clients of the dispatcher and the transport of the notifier. */
  datatype Agents = Agents(alarms: Call<seq<Alarm>>,
                           analysts: Analysts,
                           metricFetch: (string, string, int) -> Call<seq<DataPoint>>,
                           metricEvaluate: (string, seq<MetricSeries>) -> Call<Dict>,
                           config: YamlConfig,
                           decide: (GroupReport, map<string, seq<ServiceInsight>>, seq<Rule>) -> Decision,
                           aws: Aws,
                           transport: Transport)

  // ---------------------------------------------------------------------------
  // _get_notification_channels

  /** The escalation ladder: Teams always, then Slack and PagerDuty, then email. */
  const Ladder: seq<string> := ["teams", "slack", "pagerduty", "email"]

  /** `_get_notification_channels` on the decision's severity (default `"medium"`). */
  function ChannelsFor(severity: string): (r: seq<string>)
    ensures 1 <= |r| <= |Ladder| && r == Ladder[..|r|]
    ensures "slack" in r <==> severity == "high" || severity == "critical"
    ensures "pagerduty" in r <==> severity == "high" || severity == "critical"
    ensures "email" in r <==> severity == "critical"
    ensures forall i, j :: 0 <= i < j < |r| ==> r[i] != r[j]
  {
    var channels := ["teams"];
    var channels := if severity in ["high", "critical"] then channels + ["slack", "pagerduty"] else channels;
    if severity == "critical" then channels + ["email"] else channels
  }

  function Severity(decision: Decision): string {
    decision.severity.GetOr("medium")
  }

  /** A decision without a severity notifies Teams only. */
  lemma DefaultSeverityNotifiesTeams(decision: Decision)
    requires decision.severity.None?
    ensures ChannelsFor(Severity(decision)) == ["teams"]
  {
  }

  // ---------------------------------------------------------------------------
  // _get_metric_insights

  /** The service name of a namespace: every `AWS/` removed. */
  function ServiceOf(namespace: string): string {
    ReplaceAll(namespace, "AWS/", "")
  }

  /** A namespace `AWS/<service>` names `<service>` when the service holds no `AWS/`. */
  lemma ServiceOfAwsNamespace(service: string)
    requires forall i :: 0 <= i < |service| ==> !OccursAt(service, "AWS/", i)
    ensures ServiceOf("AWS/" + service) == service
  {
    var ns := "AWS/" + service;
    assert ns[..4] == "AWS/";
    assert ns[4..] == service;
    ReplaceAbsent(service, "AWS/", "");
  }

  /** The distinct services of the alarms that carry a namespace. */
  function AffectedServices(alerts: seq<Alarm>): (r: set<string>)
    ensures forall a :: a in alerts && a.namespace.Some? ==> ServiceOf(a.namespace.value) in r
    ensures forall s :: s in r ==> exists a :: a in alerts && a.namespace.Some? && s == ServiceOf(a.namespace.value)
  {
    set a | a in alerts && a.namespace.Some? :: ServiceOf(a.namespace.value)
  }

  /** `_get_metric_insights` as a function: one entry per affected service. */
  function InsightsOf(alerts: seq<Alarm>, fetch: (string, string, int) -> Call<seq<DataPoint>>,
                      evaluate: (string, seq<MetricSeries>) -> Call<Dict>): (r: map<string, seq<ServiceInsight>>)
    ensures r.Keys == AffectedServices(alerts)
    ensures forall s :: s in r ==> r[s] == ServiceInsights(s, fetch, evaluate)
  {
    map s | s in AffectedServices(alerts) :: ServiceInsights(s, fetch, evaluate)
  }

  /** Alarms without a namespace add no insight. */
  lemma UnnamespacedAlarmsAddNothing(alerts: seq<Alarm>, extra: Alarm,
                                     fetch: (string, string, int) -> Call<seq<DataPoint>>,
                                     evaluate: (string, seq<MetricSeries>) -> Call<Dict>)
    requires extra.namespace.None?
    ensures InsightsOf(alerts + [extra], fetch, evaluate) == InsightsOf(alerts, fetch, evaluate)
  {
    assert AffectedServices(alerts + [extra]) == AffectedServices(alerts);
  }

  /** The first loop of `_get_metric_insights`: the service of every alarm that carries
      a namespace. */
  method CollectServices(alerts: seq<Alarm>) returns (services: set<string>)
    ensures services == AffectedServices(alerts)
  {
    services := {};
    for i := 0 to |alerts|
      invariant services == AffectedServices(alerts[..i])
    {
      assert alerts[..i + 1] == alerts[..i] + [alerts[i]];
      if alerts[i].namespace.Some? {
        services := services + {ServiceOf(alerts[i].namespace.value)};
      }
    }
    assert alerts[..|alerts|] == alerts;
  }

  /** The second loop of `_get_metric_insights`: each service's insights, under its name. */
  method FetchInsights(services: set<string>, fetch: (string, string, int) -> Call<seq<DataPoint>>,
                       evaluate: (string, seq<MetricSeries>) -> Call<Dict>)
    returns (insights: map<string, seq<ServiceInsight>>)
    ensures insights.Keys == services
    ensures forall s :: s in insights ==> insights[s] == ServiceInsights(s, fetch, evaluate)
  {
    insights := map[];
    var remaining := services;
    while remaining != {}
      invariant remaining <= services
      invariant insights.Keys == services - remaining
      invariant forall s :: s in insights ==> insights[s] == ServiceInsights(s, fetch, evaluate)
      decreases |remaining|
    {
      var service :| service in remaining;
      insights := insights[service := ServiceInsights(service, fetch, evaluate)];
      remaining := remaining - {service};
    }
  }

  /** `_get_metric_insights`: collect the service set, then ask for each service's
      insights. (Every exception below is caught in `get_service_insights`, so the
      fallback to `{}` is never taken.) */
  method GetMetricInsights(alerts: seq<Alarm>, fetch: (string, string, int) -> Call<seq<DataPoint>>,
                           evaluate: (string, seq<MetricSeries>) -> Call<Dict>)
    returns (insights: map<string, seq<ServiceInsight>>)
    ensures insights == InsightsOf(alerts, fetch, evaluate)
  {
    var services := CollectServices(alerts);
    insights := FetchInsights(services, fetch, evaluate);
    var expected := InsightsOf(alerts, fetch, evaluate);
    assert insights.Keys == expected.Keys;
    assert forall s :: s in insights ==> insights[s] == expected[s];
  }

  // ---------------------------------------------------------------------------
  // process_event

  /** The incident handed to the notifier: its text fields. It carries no `title` and
      no `status`. */
  function IncidentOf(id: string, rootCause: string, severity: string): (r: Incident)
    ensures "title" !in r && "status" !in r
    ensures "id" in r && r["id"] == id
    ensures "description" in r && r["description"] == "Root cause: " + rootCause
  {
    map["id" := id, "type" := rootCause, "description" := "Root cause: " + rootCause, "severity" := severity]
  }

  /** One entry of `results`. */
  datatype GroupOutcome = GroupOutcome(correlation: GroupReport,
                                       metricInsights: map<string, seq<ServiceInsight>>,
                                       decision: Decision,
                                       actions: Dispatch,
                                       notifications: Notification)

  /** The body of the per-group loop. A missing `id` in the decision, a missing
      `root_cause` in the group (an error-marked group) or a missing `action_results`
      in the dispatch (a decision without `actions`) raises KeyError, in that order. */
  function GroupStep(group: GroupReport, agents: Agents): (r: Result<GroupOutcome>)
    ensures r.Success? <==> Decided(group, agents).id.Some? && group.Annotated? && Decided(group, agents).actions.Some?
    ensures Decided(group, agents).id.None? ==> r == Failure(KeyErrorText("id"))
    ensures Decided(group, agents).id.Some? && group.GroupFailed? ==> r == Failure(KeyErrorText("root_cause"))
    ensures Decided(group, agents).id.Some? && group.Annotated? && Decided(group, agents).actions.None?
            ==> r == Failure(KeyErrorText("action_results"))
    ensures r.Success? ==> r.value.correlation == group && r.value.decision == Decided(group, agents)
    ensures r.Success? ==>
              var decision := Decided(group, agents);
              && r.value.metricInsights == InsightsOf(group.alerts, agents.metricFetch, agents.metricEvaluate)
              && r.value.actions == DispatchOf(decision, agents.aws)
              && r.value.notifications
                 == NotificationOf(IncidentOf(decision.id.value, group.rootCause, Severity(decision)),
                                   ChannelsFor(Severity(decision)), Severity(decision), agents.config, agents.transport)
  {
    var insights := InsightsOf(group.alerts, agents.metricFetch, agents.metricEvaluate);
    var decision := Decided(group, agents);
    var dispatch := DispatchOf(decision, agents.aws);
    if decision.id.None? then Failure(KeyErrorText("id"))
    else if group.GroupFailed? then Failure(KeyErrorText("root_cause"))
    else if dispatch.DispatchFailed? then Failure(KeyErrorText("action_results"))
    else
      var severity := Severity(decision);
      var incident := IncidentOf(decision.id.value, group.rootCause, severity);
      Success(GroupOutcome(group, insights, decision, dispatch,
                           NotificationOf(incident, ChannelsFor(severity), severity, agents.config, agents.transport)))
  }

  /** The AI decision for a group, given its insights and the matching rules. */
  function Decided(group: GroupReport, agents: Agents): Decision {
    agents.decide(group, InsightsOf(group.alerts, agents.metricFetch, agents.metricEvaluate),
                  RulesOf(agents.config, group.alerts))
  }

  /** What `get_matching_rules` answers: every rule of the document, or none. */
  function RulesOf(config: YamlConfig, alerts: seq<Alarm>): (r: seq<Rule>)
    ensures config.document.Mapping? ==> r == config.document.rules.GetOr([])
    ensures config.document.NotAMapping? ==> r == []
  {
    if config.document.NotAMapping? then []
    else
      AllRulesMatch(config.document.rules.GetOr([]), alerts);
      MatchingRules(config.document.rules.GetOr([]), alerts)
  }

  /** The body of the per-group loop, with the collaborators fixed. */
  function StepOf(agents: Agents): (step: GroupReport -> Result<GroupOutcome>)
    ensures forall g :: step(g) == GroupStep(g, agents)
  {
    g => GroupStep(g, agents)
  }

  /** The per-group loop: the outcomes in group order, or the first group's failure. */
  function ProcessGroups(groups: seq<GroupReport>, step: GroupReport -> Result<GroupOutcome>): (r: Result<seq<GroupOutcome>>)
    ensures r.Success? ==> |r.value| == |groups|
  {
    if groups == [] then Success([])
    else
      match ProcessGroups(groups[..|groups| - 1], step)
      case Failure(e) => Failure(e)
      case Success(outcomes) =>
        match step(groups[|groups| - 1])
        case Failure(e) => Failure(e)
        case Success(o) => Success(outcomes + [o])
  }

  /** The loop succeeds exactly when every group's step does, and then each outcome is
      that group's step, in group order. */
  lemma {:induction false} ProcessGroupsSucceeds(groups: seq<GroupReport>, step: GroupReport -> Result<GroupOutcome>)
    ensures ProcessGroups(groups, step).Success? <==> forall i :: 0 <= i < |groups| ==> step(groups[i]).Success?
    ensures ProcessGroups(groups, step).Success? ==>
              forall i :: 0 <= i < |groups| ==> ProcessGroups(groups, step).value[i] == step(groups[i]).value
  {
    if groups != [] {
      var init := groups[..|groups| - 1];
      ProcessGroupsSucceeds(init, step);
      assert forall i :: 0 <= i < |init| ==> init[i] == groups[i];
      if ProcessGroups(init, step).Success? && step(groups[|groups| - 1]).Success? {
        var outcomes := ProcessGroups(init, step).value;
        var o := step(groups[|groups| - 1]).value;
        assert ProcessGroups(groups, step).value == outcomes + [o];
      }
    }
  }

  /** On failure, the error is that of the first group whose step fails. */
  lemma {:induction false} ProcessGroupsFirstFailure(groups: seq<GroupReport>, step: GroupReport -> Result<GroupOutcome>)
    requires ProcessGroups(groups, step).Failure?
    ensures exists k :: 0 <= k < |groups| && step(groups[k]).Failure?
                        && ProcessGroups(groups, step).error == step(groups[k]).error
                        && forall j :: 0 <= j < k ==> step(groups[j]).Success?
  {
    var init := groups[..|groups| - 1];
    assert forall i :: 0 <= i < |init| ==> init[i] == groups[i];
    if ProcessGroups(init, step).Failure? {
      ProcessGroupsFirstFailure(init, step);
      var k :| 0 <= k < |init| && step(init[k]).Failure?
               && ProcessGroups(init, step).error == step(init[k]).error
               && forall j :: 0 <= j < k ==> step(init[j]).Success?;
      assert groups[k] == init[k];
    } else {
      ProcessGroupsSucceeds(init, step);
      var k := |groups| - 1;
      assert step(groups[k]).Failure?;
    }
  }

  /** One more group: the loop over a prefix extends by that group's step. */
  lemma ProcessGroupsStep(groups: seq<GroupReport>, step: GroupReport -> Result<GroupOutcome>, i: nat)
    requires i < |groups|
    ensures ProcessGroups(groups[..i + 1], step) ==
              match ProcessGroups(groups[..i], step)
              case Failure(e) => Failure(e)
              case Success(outcomes) =>
                match step(groups[i])
                case Failure(e) => Failure(e)
                case Success(o) => Success(outcomes + [o])
  {
    assert groups[..i + 1][..i] == groups[..i];
  }

  /** A failure in a prefix of the groups is the failure of the whole loop. */
  lemma {:induction false} ProcessGroupsFailurePersists(groups: seq<GroupReport>, step: GroupReport -> Result<GroupOutcome>, i: nat)
    requires i <= |groups|
    requires ProcessGroups(groups[..i], step).Failure?
    ensures ProcessGroups(groups, step) == ProcessGroups(groups[..i], step)
    decreases |groups| - i
  {
    if i < |groups| {
      var init := groups[..|groups| - 1];
      assert init[..i] == groups[..i];
      ProcessGroupsFailurePersists(init, step, i);
    } else {
      assert groups[..i] == groups;
    }
  }

  /** The outcome of `process_event`: `status="success"` with `results`, or a single
      error with no results. */
  datatype EventOutcome = Processed(results: seq<GroupOutcome>) | EventFailed(error: string)

  /** `_get_current_alarms`: a client error reads as no alarms; any other exception
      propagates. */
  function CurrentAlarms(call: Call<seq<Alarm>>): (r: Result<seq<Alarm>>)
    ensures r.Failure? <==> call.Raised?
    ensures call.ClientError? ==> r == Success([])
    ensures call.Returned? ==> r == Success(call.value)
  {
    match call
    case Returned(a) => Success(a)
    case ClientError(_) => Success([])
    case Raised(m) => Failure(m)
  }

  /** `process_event` as a function of the event and the collaborators. A correlation
      error has no `groups` key, which the loop's subscript turns into KeyError. */
  function EventOf(event: Event, agents: Agents): (r: EventOutcome)
    ensures "detail" !in event ==> r == EventFailed(InvalidEvent)
    ensures "detail" in event && agents.alarms.Raised? ==> r == EventFailed(agents.alarms.message)
    ensures "detail" in event && CurrentAlarms(agents.alarms).Success?
            && Correlate(CurrentAlarms(agents.alarms).value, agents.analysts).CorrelationFailed? ==>
              r == EventFailed(KeyErrorText("groups"))
    ensures r.Processed? ==>
              && "detail" in event
              && CurrentAlarms(agents.alarms).Success?
              && Correlate(CurrentAlarms(agents.alarms).value, agents.analysts).Correlated?
              && |r.results| == |Correlate(CurrentAlarms(agents.alarms).value, agents.analysts).groups|
  {
    if "detail" !in event then EventFailed(InvalidEvent)
    else match CurrentAlarms(agents.alarms)
      case Failure(e) => EventFailed(e)
      case Success(alarms) =>
        match Correlate(alarms, agents.analysts)
        case CorrelationFailed(_) => EventFailed(KeyErrorText("groups"))
        case Correlated(groups) =>
          match ProcessGroups(groups, StepOf(agents))
          case Failure(e) => EventFailed(e)
          case Success(outcomes) => Processed(outcomes)
  }

  /** A processed event has one outcome per correlation group, in group order, each
      carrying its group unchanged; it is processed exactly when every group's step
      succeeds. */
  lemma EventResultsFollowGroups(event: Event, agents: Agents)
    requires "detail" in event && CurrentAlarms(agents.alarms).Success?
    requires Correlate(CurrentAlarms(agents.alarms).value, agents.analysts).Correlated?
    ensures var groups := Correlate(CurrentAlarms(agents.alarms).value, agents.analysts).groups;
            && (EventOf(event, agents).Processed? <==> forall i :: 0 <= i < |groups| ==> GroupStep(groups[i], agents).Success?)
            && (EventOf(event, agents).Processed? ==>
                  forall i :: 0 <= i < |groups| ==> EventOf(event, agents).results[i].correlation == groups[i])
  {
    var groups := Correlate(CurrentAlarms(agents.alarms).value, agents.analysts).groups;
    ProcessGroupsSucceeds(groups, StepOf(agents));
  }

  /** Every notification the agent sends fails: the incident it builds has no `title`,
      which every channel handler reads. */
  lemma EveryNotificationFails(event: Event, agents: Agents, i: nat, j: nat)
    requires EventOf(event, agents).Processed?
    requires i < |EventOf(event, agents).results|
    requires j < |EventOf(event, agents).results[i].notifications.results|
    ensures EventOf(event, agents).results[i].notifications.results[j].Failed()
  {
    var groups := Correlate(CurrentAlarms(agents.alarms).value, agents.analysts).groups;
    ProcessGroupsSucceeds(groups, StepOf(agents));
    var group := groups[i];
    var decision := Decided(group, agents);
    var severity := Severity(decision);
    var incident := IncidentOf(decision.id.value, group.rootCause, severity);
    var channels := ChannelsFor(severity);
    UntitledIncidentFails(channels[j], incident, severity, agents.config, agents.transport);
  }

  /** With no active alarms the event is processed with no results. */
  lemma NoAlarmsNoResults(event: Event, agents: Agents)
    requires "detail" in event && CurrentAlarms(agents.alarms) == Success([])
    ensures EventOf(event, agents) == Processed([])
  {
  }

  /** One turn of the loop of `process_event`: insights, rules, decision, dispatch and
      notification for one group, stopping at the first missing key. */
  method RunGroup(group: GroupReport, agents: Agents) returns (r: Result<GroupOutcome>)
    ensures r == GroupStep(group, agents)
  {
    var insights := GetMetricInsights(group.alerts, agents.metricFetch, agents.metricEvaluate);
    var rules := GetMatchingRules(agents.config, group.alerts);
    var decision := agents.decide(group, insights, rules);
    var dispatch := ExecuteActions(decision, agents.aws);
    if decision.id.None? {
      return Failure(KeyErrorText("id"));
    }
    if group.GroupFailed? {
      return Failure(KeyErrorText("root_cause"));
    }
    if dispatch.DispatchFailed? {
      return Failure(KeyErrorText("action_results"));
    }
    var severity := Severity(decision);
    var incident := IncidentOf(decision.id.value, group.rootCause, severity);
    var notification := SendNotification(incident, ChannelsFor(severity), severity, agents.config, agents.transport);
    return Success(GroupOutcome(group, insights, decision, dispatch, notification));
  }

  /** `process_event`: validate, fetch, correlate, then run each group through insights,
      rules, decision, dispatch and notification; any exception on the way collapses
      the call into a single error. */
  method ProcessEvent(event: Event, agents: Agents) returns (r: EventOutcome)
    ensures r == EventOf(event, agents)
  {
    if "detail" !in event {
      return EventFailed(InvalidEvent);
    }
    var fetched := CurrentAlarms(agents.alarms);
    if fetched.Failure? {
      return EventFailed(fetched.error);
    }
    var correlation := CorrelateAlerts(fetched.value, agents.analysts);
    if correlation.CorrelationFailed? {
      return EventFailed(KeyErrorText("groups"));
    }
    var groups := correlation.groups;
    var step := StepOf(agents);
    var results: seq<GroupOutcome> := [];
    for i := 0 to |groups|
      invariant ProcessGroups(groups[..i], step) == Success(results)
    {
      var outcome := RunGroup(groups[i], agents);
      ProcessGroupsStep(groups, step, i);
      if outcome.Failure? {
        ProcessGroupsFailurePersists(groups, step, i + 1);
        return EventFailed(outcome.error);
      }
      results := results + [outcome.value];
    }
    assert groups[..|groups|] == groups;
    return Processed(results);
  }
}
