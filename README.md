# CloudOpsAI NOC agent — a Dafny model

This project models the decision logic of the `ai_noc` package, an AI-assisted network
operations agent for AWS. When a CloudWatch event arrives, the agent does the following:

1. It fetches the active alarms.
2. It correlates them into groups of related alarms. The alarms are stably sorted by
   state-change time, then chain-clustered in one scan: each alarm joins the current group
   when it is within 300 s of the group's last alarm and has the same namespace.
3. For each group, it gathers metric insights for the affected services. The metric
   analyzer flags datapoints more than three sample standard deviations from the mean.
4. It asks the AI engine for a decision.
5. It dispatches the decision's actions: SSM or Lambda remediation, SNS notification, or a
   ticket placeholder.
6. It notifies the channels the decision's severity calls for: Teams, Slack, PagerDuty and
   email.

A YAML configuration loaded from S3 supplies the rules and the notification settings.

Each source file is one module:

- `Common`: optional values, results, external calls and decisions.
- `Strings`: the few `str` operations the code uses (`replace`, `split`, `join`, `upper`).
- `Correlation`: the alarm correlator.
- `Metrics`: the metric analyzer.
- `Dispatcher`: the action dispatcher.
- `Notifications`: the notification manager.
- `Config`: the YAML configuration engine.
- `Agent`: the orchestration.

The modelling follows these conventions:

- **Loops become methods.** Every loop of the source is a `method` with a loop and
  invariants. Its postcondition equates its result with a specification function. The
  properties of that function are proved as lemmas.
- **Collaborators become parameters.** Every AWS client, HTTP post, AI model and
  `statistics.stdev` is a function-typed parameter.
- **Calls have three outcomes.** An external call returns, raises botocore's `ClientError`,
  or raises any other exception (the `Call` datatype). This makes visible which `except`
  clause catches what.

The model shows the following consequences of the code:

- **Correlation is an exact partition** (`CorrelationPartitionsAlarms`). The groups
  concatenate to the stably sorted input. The sort is a permutation that keeps the input
  order among equal keys.
- **An unsortable alarm list fails correlation** (`GroupAlerts`, `Correlate`). The sort key
  of an alarm without a timestamp is `""`. A list that mixes timestamped and untimestamped
  alarms therefore cannot be sorted, and the correlation is an error. Relatedness, by
  contrast, treats a missing timestamp as `datetime.min`.
- **At most ten datapoints never yield an anomaly** (`FewPointsHaveNoAnomaly`). By
  Samuelson's inequality, no value of a sample of `n` values lies more than
  `(n-1)/sqrt(n)` sample standard deviations from the mean. That bound is at most 3 for
  `n <= 10`.
- **Every notification the agent sends fails** (`EveryNotificationFails`). The incident
  that `process_event` builds has no `title`, and every channel handler reads `title`.
- **Two of the agent's safeguards change nothing:**
  - The `{}` fallback of `_get_metric_insights` is never taken, because
    `get_service_insights` already catches every exception.
  - The default `"medium"` severity notifies Teams only.
- **A group's actions may already have run when its step fails.** A decision without `id`,
  an error-marked group without `root_cause`, or a dispatch without `action_results` raises
  KeyError only after `execute_actions` has run. `GroupStep` states the order of these
  checks. The event is then reported as one error with no results.

## Model

| member | source | states |
|---|---|---|
| Common.KeyErrorText | ai_noc/agent.py:104-109 | the message of a failed subscript is the key between single quotes |
| Correlation.RelatedMeaning | ai_noc/correlation.py:128-182 | two alarms are related iff their timestamps (missing read as `datetime.min`) are at most 300 s apart and their namespaces are equal, two missing namespaces counting as equal; relatedness is symmetric |
| Correlation.MissingTimestampIsEarliest | ai_noc/correlation.py:143-150 | an alarm without a timestamp is unrelated to any alarm stamped later than 300 s after `datetime.min` |
| Correlation.Insert | ai_noc/correlation.py:110 | one insertion step of the sort adds exactly the new alarm (as a multiset) |
| Correlation.StableSort | ai_noc/correlation.py:110 | the sort keeps every alarm: same length, same multiset |
| Correlation.InsertBounded | ai_noc/correlation.py:110 | an insertion adds no key above a bound that all inputs respect |
| Correlation.InsertSorted | ai_noc/correlation.py:110 | inserting into a sequence sorted by key keeps it sorted |
| Correlation.StableSortSorted | ai_noc/correlation.py:110 | the sorted alarms are in non-decreasing key order |
| Correlation.WithKeyAppend | ai_noc/correlation.py:110 | the alarms of one key in a concatenation are those of each part, in order |
| Correlation.InsertWithKey | ai_noc/correlation.py:110 | an inserted alarm goes after every alarm already there with the same key |
| Correlation.StableSortIsStable | ai_noc/correlation.py:110 | among alarms with equal keys, the sort keeps the input order |
| Correlation.ChainGroups | ai_noc/correlation.py:112-124 | there are no groups exactly when there are no alarms, and no group is empty |
| Correlation.Chain | ai_noc/correlation.py:113-121 | one scan step leaves at least one group and no empty group |
| Correlation.ExtendLastGroup | ai_noc/correlation.py:117-118 | adding an alarm related to the last one to the open group keeps a valid chain grouping |
| Correlation.StartGroup | ai_noc/correlation.py:119-121 | starting a group with an alarm unrelated to the last one keeps a valid chain grouping |
| Correlation.ChainKeepsGrouping | ai_noc/correlation.py:113-121 | one scan step turns a chain grouping of the scanned alarms into one of the alarms scanned so far plus the new one |
| Correlation.ChainGroupsCorrect | ai_noc/correlation.py:106-126 | the groups concatenate to the scanned alarms, none is empty, consecutive alarms in a group are related, and the last alarm of a group is unrelated to the first of the next |
| Correlation.ChainGroupsPrefix | ai_noc/correlation.py:112-121 | scanning one more alarm is one more scan step |
| Correlation.ChainStep | ai_noc/correlation.py:113-124 | the scan step with closed groups and an open group agrees with the step on all groups |
| Correlation.SortError | ai_noc/correlation.py:110 | the TypeError text names the type of the first key unlike the first alarm's, then the first alarm's key type: one of the two datetime/str orders |
| Correlation.SortErrorOfTwo | ai_noc/correlation.py:110 | a stamped alarm then an unstamped one gives `'str' and 'datetime.datetime'`; the other order gives the reverse |
| Correlation.GroupAlerts | ai_noc/correlation.py:104-126 | the method fails exactly when some alarms have timestamps and others do not, with the sort's TypeError text, and otherwise returns the chain grouping of the stably sorted alarms |
| Correlation.HistoricalContext | ai_noc/correlation.py:184-220 | a returned scan is the history; a client error gives an empty history; only other exceptions escape |
| Correlation.AnalyzeWithAi | ai_noc/correlation.py:222-252 | the AI answer is used as is; on any exception the fallback has root cause `"unknown"`, confidence 0.0 and no actions |
| Correlation.AnnotateGroup | ai_noc/correlation.py:76-92 | a report keeps its group's alarms; it is an error report exactly when the history call raised, carrying that message; otherwise root cause, confidence and actions are the AI answer's fields, each defaulting to `"unknown"`, 0.0 and `[]` when absent |
| Correlation.Correlate | ai_noc/correlation.py:53-102 | no alarms gives success with no groups; the correlation fails exactly when the alarms cannot be sorted, with the sort's TypeError text; otherwise the reports are the annotations of the chain groups of the stably sorted alarms, in order |
| Correlation.AnnotateAll | ai_noc/correlation.py:75-92 | one report per group, in group order, each that group's annotation |
| Correlation.AlertsOf | ai_noc/correlation.py:84-92 | the alarms of each report, in report order |
| Correlation.CorrelationPartitionsAlarms | ai_noc/correlation.py:72-98 | the reports' alarms form a chain grouping of the stably sorted input: together they are a permutation of the input, in key order |
| Correlation.GroupFailureIsIsolated | ai_noc/correlation.py:76-92 | a report depends only on its own group's history call and on the analysis calls for that group |
| Correlation.CorrelateAlerts | ai_noc/correlation.py:53-102 | the method computes `Correlate` |
| Correlation.AnnotateGroups | ai_noc/correlation.py:75-92 | the per-group loop computes `AnnotateAll` |
| Metrics.Values | ai_noc/metrics.py:175 | the values are the datapoints' averages, in order |
| Metrics.SquaredDeviations | ai_noc/metrics.py:178-180 | a sum of squared deviations is never negative |
| Metrics.Outliers | ai_noc/metrics.py:192-201 | there are never more anomalies than datapoints |
| Metrics.OutliersExact | ai_noc/metrics.py:188-201 | every anomaly comes from a point strictly beyond three deviations and has threshold 3σ; every such point yields its anomaly |
| Metrics.OutliersEmpty | ai_noc/metrics.py:188-201 | there are no anomalies iff no point lies strictly beyond three deviations |
| Metrics.OutliersStep | ai_noc/metrics.py:192-201 | one more point appends its anomaly exactly when it lies beyond three deviations |
| Metrics.AnomaliesOf | ai_noc/metrics.py:158-207 | fewer than two points, or a zero standard deviation, gives no anomalies; otherwise the anomalies are the outliers beyond three deviations from the mean |
| Metrics.DeviationAboveThree | ai_noc/metrics.py:188-199 | every anomaly has deviation above 3 and threshold 3σ |
| Metrics.ExceedsIffSquared | ai_noc/metrics.py:193 | with σ the root of the variance, `abs(v - mean) > 3σ` iff `(v - mean)^2 > 9 var` |
| Metrics.ScanOutliers | ai_noc/metrics.py:188-201 | the loop keeps exactly the outliers of the points, in order |
| Metrics.DetectAnomalies | ai_noc/metrics.py:158-207 | the method computes `AnomaliesOf` |
| Metrics.Samuelson | ai_noc/metrics.py:175-180 | Samuelson's inequality: `n d^2 <= (n-1) S` for the deviation `d` of any value from the mean and the sum `S` of squared deviations |
| Metrics.ThreeSigmaBound | ai_noc/metrics.py:175-193 | with at most ten values, none lies more than three sample standard deviations from the mean |
| Metrics.FewPointsHaveNoAnomaly | ai_noc/metrics.py:158-207 | with 2 to 10 datapoints and a true standard deviation, no anomaly is ever reported |
| Metrics.MetricData | ai_noc/metrics.py:121-156 | returned datapoints are the data; a client error reads as no datapoints; only other exceptions escape |
| Metrics.AiInsights | ai_noc/metrics.py:209-235 | the AI engine's answer is returned as is; any exception gives `{}` |
| Metrics.MetricAnalysis | ai_noc/metrics.py:57-119 | missing names or a non-positive period give the matching error result; a raised fetch gives the failed result with its message; no data gives the no-data result; otherwise the anomalies are those detected in the fetched data, and the insights are the AI answer for them, or `{}` without anomalies |
| Metrics.AnalyzeMetrics | ai_noc/metrics.py:57-119 | the method computes `MetricAnalysis` |
| Metrics.MonitorService | ai_noc/metrics.py:237-275 | an uncatalogued service is an error; otherwise the metric keys are exactly the catalog's names for the service, each mapped to its analysis over 3600 s |
| Metrics.CollectSeries | ai_noc/metrics.py:317-326 | only named metrics with non-empty data are kept, and no more series than names |
| Metrics.SeriesOf | ai_noc/metrics.py:319-326 | one fetch contributes its series exactly when it returned non-empty data |
| Metrics.KeptSeriesAppend | ai_noc/metrics.py:317-326 | the kept series of two name lists concatenate |
| Metrics.CollectSeriesExact | ai_noc/metrics.py:317-332 | the collection fails exactly when some fetch raised; otherwise it is exactly the series of the names whose fetch returned data, in name order |
| Metrics.KeptSeriesMembers | ai_noc/metrics.py:317-326 | a series is kept exactly when some name fetched its non-empty datapoints |
| Metrics.CollectSeriesFailurePersists | ai_noc/metrics.py:317-332 | an exception while fetching aborts the whole collection |
| Metrics.CollectSeriesComplete | ai_noc/metrics.py:317-326 | when every fetch returns data, there is one series per name, in catalog order |
| Metrics.ServiceMetrics | ai_noc/metrics.py:301-332 | an uncatalogued service gives no series; every series has data and a catalogued name |
| Metrics.ServiceMetricsExact | ai_noc/metrics.py:301-332 | for a catalogued service, the series of the catalog's names that returned data, in catalog order, unless a fetch raised, which gives none |
| Metrics.GetServiceMetrics | ai_noc/metrics.py:301-332 | the method computes `ServiceMetrics` |
| Metrics.ServiceInsights | ai_noc/metrics.py:277-299 | at most one insight, present exactly when the AI call returned, carrying the service, its metrics and the AI answer |
| Dispatcher.ParseActionKind | ai_noc/dispatcher.py:75-90 | each handler is chosen by exactly its type name |
| Dispatcher.Handled | ai_noc/dispatcher.py:120-134 | a returned call is a success result with its value; a client error is an error result with its message; the handler escapes with an exception exactly when the call raised something else |
| Dispatcher.Remediation | ai_noc/dispatcher.py:95-134 | an SSM document is used before a Lambda function; with neither, the error "No supported remediation type found" |
| Dispatcher.Notification | ai_noc/dispatcher.py:136-164 | only an action with a topic is published; otherwise the error "No supported notification type found" |
| Dispatcher.CreateTicket | ai_noc/dispatcher.py:166-178 | a ticket always fails with "Ticket creation not implemented" |
| Dispatcher.ProcessAction | ai_noc/dispatcher.py:69-93 | the missing-type and unknown-type errors; `remediate` and `notify` give their handler's result, or a crashed result carrying the action when the handler raised; `ticket` always fails |
| Dispatcher.DispatchOf | ai_noc/dispatcher.py:41-67 | a decision without actions fails; otherwise one result per action, in order, with the decision id defaulting to `"unknown"` |
| Dispatcher.ExecuteActions | ai_noc/dispatcher.py:41-67 | the method computes `DispatchOf` |
| Dispatcher.SsmTakesPrecedence | ai_noc/dispatcher.py:106-118 | with an SSM document the Lambda client is never consulted |
| Dispatcher.CrashedIffRaised | ai_noc/dispatcher.py:69-93 | an SSM remediation crashes exactly when the SSM call raised a non-client exception |
| Config.ResolveConfigPath | ai_noc/config.py:41-43 | the argument wins when non-empty; otherwise a non-empty environment value is the path; the path is missing exactly when neither gives a non-empty one |
| Config.ParseS3PathRoundTrip | ai_noc/config.py:71-88 | the parse fails iff no `/` remains after removing `s3://`; otherwise the bucket holds no `/` and bucket + `/` + key gives back the stripped path |
| Config.EmptyKeyAccepted | ai_noc/config.py:82-85 | `s3://b/` parses to bucket `b` and the empty key |
| Config.NewConfig | ai_noc/config.py:31-69 | construction fails on a missing path, an unparsable path or a failed load, with that error; it succeeds exactly with the resolved path and the document loaded from its bucket and key |
| Config.MatchingRules | ai_noc/config.py:100-108 | the filter never adds rules |
| Config.AllRulesMatch | ai_noc/config.py:110-127 | every rule matches, so all rules are returned in order |
| Config.GetMatchingRules | ai_noc/config.py:90-108 | an unreadable document gives no rules; otherwise the filter over `rules` (none when absent) |
| Config.AsList | ai_noc/config.py:153-159 | `list()` of a list is the list; of a text, its characters |
| Config.Lookup | ai_noc/config.py:129-167 | a missing `notifications` or channel section gives its "configuration not found" error; otherwise the configured field, or KeyError when absent |
| Config.TextSetting | ai_noc/config.py:129-151 | a text getter succeeds exactly when the lookup does, with the value as text |
| Config.EmailRecipients | ai_noc/config.py:153-159 | the recipients getter succeeds exactly when the lookup does, with the value as a list |
| Notifications.ParseChannel | ai_noc/notifications.py:56-70 | exactly the four channel names have handlers |
| Notifications.Urgency | ai_noc/notifications.py:254 | the urgency is "high" iff the severity is high or critical, and "low" otherwise |
| Notifications.EmailSubject | ai_noc/notifications.py:209 | the subject is `[`, the upper-cased severity, `] `, then the title |
| Notifications.FirstMissing | ai_noc/notifications.py:93-176 | a required incident field that is missing while every field before it is present, or none iff all are present |
| Notifications.WebhookHandler | ai_noc/notifications.py:78-194 | a configuration error or an empty target gives an error result; a missing field gives its KeyError text; a post happens only with a target and all fields present, and reports the reply's status and body; a failed post gives its message |
| Notifications.EmailHandler | ai_noc/notifications.py:196-236 | a configuration error or a missing incident field escapes; an empty sender or recipient list gives "Email configuration not complete"; the email is sent exactly when both are set, all four fields are present and SES returned; an SES client error is an error result, any other exception escapes |
| Notifications.SendToChannel | ai_noc/notifications.py:56-76 | an unknown channel is an error without any handler; each known channel gives its handler's result, with its own target and required fields; an exception escaping the email handler is a crash tagged `email` |
| Notifications.UntitledIncidentFails | ai_noc/notifications.py:56-236 | an incident without `title` fails on every channel |
| Notifications.NotificationOf | ai_noc/notifications.py:37-54 | one result per channel, in order, and the incident id defaults to `"unknown"` |
| Notifications.SendNotification | ai_noc/notifications.py:37-54 | the method computes `NotificationOf` |
| Strings.ReplaceAbsent | ai_noc/agent.py:163 | replacing a pattern that never occurs changes nothing |
| Strings.ReplaceBySelf | ai_noc/config.py:82 | replacing a pattern by itself changes nothing |
| Strings.Split | ai_noc/config.py:82 | a split has at least one part |
| Strings.JoinSplit | ai_noc/config.py:82-85 | joining the parts of a split with the separator gives back the string |
| Strings.SplitParts | ai_noc/config.py:82-85 | no part of a split holds the separator |
| Strings.Upper | ai_noc/notifications.py:209 | upper-casing keeps the length and maps each character |
| Agent.ChannelsFor | ai_noc/agent.py:178-197 | Teams always first; Slack and PagerDuty iff high or critical; email iff critical; no duplicates |
| Agent.DefaultSeverityNotifiesTeams | ai_noc/agent.py:188-189 | a decision without severity notifies Teams only |
| Agent.ServiceOfAwsNamespace | ai_noc/agent.py:163 | `AWS/<service>` names `<service>` |
| Agent.AffectedServices | ai_noc/agent.py:160-164 | the services are exactly those of the alarms that carry a namespace |
| Agent.InsightsOf | ai_noc/agent.py:148-176 | one insight entry per affected service, that service's insights |
| Agent.UnnamespacedAlarmsAddNothing | ai_noc/agent.py:162 | an alarm without a namespace adds no insight |
| Agent.CollectServices | ai_noc/agent.py:160-164 | the first loop computes the affected services |
| Agent.FetchInsights | ai_noc/agent.py:167-171 | the second loop maps each service to its insights |
| Agent.GetMetricInsights | ai_noc/agent.py:148-176 | the method computes `InsightsOf` |
| Agent.IncidentOf | ai_noc/agent.py:103-112 | the incident has the decision's id and the root-cause description, and no `title` or `status` |
| Agent.GroupStep | ai_noc/agent.py:86-126 | a group's step succeeds iff the decision has an id, the group has a root cause and the dispatch has results; otherwise the KeyError of the first missing key, in that order; a successful step records the group, the metric insights of its alarms, the AI decision, the dispatch of that decision, and the notification of the incident built from it on the channels its severity selects |
| Agent.RulesOf | ai_noc/agent.py:91 | the rules are every rule of a readable document, or none |
| Agent.ProcessGroups | ai_noc/agent.py:85-126 | on success, one outcome per group |
| Agent.ProcessGroupsSucceeds | ai_noc/agent.py:85-126 | the loop succeeds iff every group's step does, and then the outcomes are the steps in group order |
| Agent.ProcessGroupsFirstFailure | ai_noc/agent.py:85-136 | a failed loop reports the error of the first failing group, all earlier groups having succeeded |
| Agent.ProcessGroupsStep | ai_noc/agent.py:85-126 | one more group extends the loop by that group's step |
| Agent.ProcessGroupsFailurePersists | ai_noc/agent.py:85-136 | a failure among the first groups is the failure of the whole loop |
| Agent.CurrentAlarms | ai_noc/agent.py:138-146 | returned alarms are the result; a client error reads as no alarms; only other exceptions escape |
| Agent.EventOf | ai_noc/agent.py:63-146 | an event without `detail` is the invalid-event error; a raised alarm fetch is an error with its message; a failed correlation is the KeyError for `groups`; a processed event has one result per correlation group |
| Agent.EventResultsFollowGroups | ai_noc/agent.py:85-126 | the event is processed iff every group's step succeeds, and then each result carries its group, in order |
| Agent.EveryNotificationFails | ai_noc/agent.py:102-115 | every channel result of every processed group is a failure |
| Agent.NoAlarmsNoResults | ai_noc/agent.py:79-128 | no active alarms gives success with no results |
| Agent.RunGroup | ai_noc/agent.py:86-126 | one turn of the loop computes `GroupStep` |
| Agent.ProcessEvent | ai_noc/agent.py:63-136 | the method computes `EventOf` |

## Left out

- `ai_noc/ai_engine.py`, `ai_noc/cli.py`, `ai_noc/utils.py`, `scripts/` and packaging are not part of this model. The AI engine's `evaluate` is an opaque function-typed parameter.
- All I/O is modelled by parameters: CloudWatch, DynamoDB, SES, SNS, SSM, Lambda, webhook posts and the S3 load. Logging is left out.
- `async`/`await` is left out. Every await is sequential, so there is no concurrency to model.
- Timestamps are integers of seconds. `isoformat` rendering, `format_timestamp` and `correlation_time` are left out.
- Payload layout is left out: Slack blocks, Teams cards, the HTML email body and the PagerDuty payload. Only the email subject and the PagerDuty urgency are modelled.
- Floating point is modelled as exact `real` arithmetic. `statistics.stdev` is a parameter, because Dafny has no square root on reals. The lemmas that need it assume the parameter is the square root of the sample variance.
- Correlation.SortError: the text follows CPython's sort of fewer than 64 items, which scans the list in order. With 64 alarms or more CPython sorts runs of the list separately and then merges them, so the two type names may come in the other order.
- Correlation.GroupAlerts: its error text is `SortError`, so for 64 alarms or more the order of the two type names in it may differ from CPython's.
- Strings.Upper: upper-cases ASCII letters only, because Unicode case mapping is not available.
- The `except Exception: return []` of `_detect_anomalies` is not modelled: it covers a datapoint without `Average` or `Timestamp`, and a modelled datapoint always has both.
- Config.Str: a list setting is rendered without escaping quotes inside its items.
- Incidents and event payloads are maps of text. Only the text fields that the code reads are kept: alert lists, action results and insights inside the incident are omitted.
- The history store's time range and record layout are left out. A history is opaque.
- Dictionary and set iteration order is left out. Insights are a map, and monitoring results are a map keyed by metric name.
- A decision's `id` is modelled as text only.
- An alarm keeps only its name, state-change time and namespace.
- The AI engine's `evaluate` inside the agent is total: it returns a decision and never raises.
- Agent.GetMetricInsights: the `except` fallback to `{}` is not modelled, because no exception can reach it once `get_service_insights` catches all of them.
