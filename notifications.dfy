/** The notification manager: sends an incident to each requested channel (Slack,
    Teams, email through SES, PagerDuty) and reports one result per channel. */
module Notifications {
  import opened Common
  import opened Strings
  import opened Config

  const UnknownChannelPrefix: string := "Unknown channel: "
  const SlackUrlMissing: string := "Slack webhook URL not configured"
  const TeamsUrlMissing: string := "Teams webhook URL not configured"
  const PagerDutyKeyMissing: string := "PagerDuty API key not configured"
  const EmailIncomplete: string := "Email configuration not complete"

  /** The handler table of `_send_to_channel`. */
  datatype Channel = Slack | Teams | Email | PagerDuty

  function ChannelName(c: Channel): string {
    match c
    case Slack => "slack"
    case Teams => "teams"
    case Email => "email"
    case PagerDuty => "pagerduty"
  }

  function ParseChannel(name: string): (r: Option<Channel>)
    ensures r.Some? ==> ChannelName(r.value) == name
    ensures r.None? <==> name !in {"slack", "teams", "email", "pagerduty"}
  {
    if name == "slack" then Some(Slack)
    else if name == "teams" then Some(Teams)
    else if name == "email" then Some(Email)
    else if name == "pagerduty" then Some(PagerDuty)
    else None
  }

  /** The text fields of an incident (`id`, `title`, `description`, `status`, ...). */
  type Incident = Dict

  /** What a webhook answers: its HTTP status and body. */
  datatype HttpReply = HttpReply(status: int, body: string)

  /** The outside world of the manager: an HTTP post to a webhook URL (or, for PagerDuty,
      with an API key) for a channel, incident and severity, and SES `send_email` from a
      sender to recipients with a subject, answering the message id. */
  datatype Transport = Transport(post: (string, Channel, Incident, string) -> Call<HttpReply>,
                                 sendEmail: (string, seq<string>, string, Incident) -> Call<string>)

  /** One entry of `notification_results`. A webhook reports the HTTP status itself in
      place of `"success"`; `ChannelCrashed` is the catch-all of `_send_to_channel`. */
  datatype ChannelResult =
    | Posted(httpStatus: int, response: string)
    | EmailSent(messageId: string)
    | ChannelError(error: string)
    | ChannelCrashed(error: string, channel: string)
  {
    predicate Failed() {
      ChannelError? || ChannelCrashed?
    }
  }

  // ---------------------------------------------------------------------------
  // Formatting

  /** The PagerDuty `urgency` for a severity. */
  function Urgency(severity: string): (r: string)
    ensures r == "high" <==> severity == "high" || severity == "critical"
    ensures r == "low" <==> !(severity == "high" || severity == "critical")
  {
    if severity in ["high", "critical"] then "high" else "low"
  }

  /** The email subject: the upper-cased severity in brackets, a space, the title. */
  function EmailSubject(severity: string, title: string): (r: string)
    ensures |r| == |severity| + |title| + 3
    ensures r[0] == '[' && r[|severity| + 1..|severity| + 3] == "] " && r[|severity| + 3..] == title
    ensures r[1..|severity| + 1] == Upper(severity)
  {
    "[" + Upper(severity) + "] " + title
  }

  // ---------------------------------------------------------------------------
  // Handlers

  /** The first of `keys` that the incident lacks: the subscript that raises KeyError. */
  function FirstMissing(incident: Incident, keys: seq<string>): (r: Option<string>)
    ensures r.None? <==> forall k :: k in keys ==> k in incident
    ensures r.Some? ==> r.value in keys && r.value !in incident
    ensures |keys| > 0 && keys[0] !in incident ==> r == Some(keys[0])
    ensures r.Some? ==> exists i :: 0 <= i < |keys| && keys[i] == r.value && forall j :: 0 <= j < i ==> keys[j] in incident
  {
    if keys == [] then None
    else if keys[0] !in incident then Some(keys[0])
    else FirstMissing(incident, keys[1..])
  }

  /** A webhook handler (Slack, Teams, PagerDuty): it catches every exception, so a
      configuration error, an empty target, a missing incident field and a failed post
      all become error results. */
  function WebhookHandler(target: Result<string>, missingTarget: string, channel: Channel, keys: seq<string>,
                          incident: Incident, severity: string, transport: Transport): (r: ChannelResult)
    ensures !r.ChannelCrashed? && !r.EmailSent?
    ensures target.Failure? ==> r == ChannelError(target.error)
    ensures target == Success("") ==> r == ChannelError(missingTarget)
    ensures r.Posted? <==> target.Success? && target.value != "" && FirstMissing(incident, keys).None?
                           && transport.post(target.value, channel, incident, severity).Returned?
    ensures target.Success? && target.value != "" && FirstMissing(incident, keys).Some? ==>
              r == ChannelError(KeyErrorText(FirstMissing(incident, keys).value))
    ensures r.Posted? ==>
              var reply := transport.post(target.value, channel, incident, severity).value;
              r == Posted(reply.status, reply.body)
    ensures target.Success? && target.value != "" && FirstMissing(incident, keys).None?
            && !transport.post(target.value, channel, incident, severity).Returned? ==>
              r == ChannelError(transport.post(target.value, channel, incident, severity).message)
  {
    match target
    case Failure(e) => ChannelError(e)
    case Success(t) =>
      if t == "" then ChannelError(missingTarget)
      else match FirstMissing(incident, keys)
        case Some(k) => ChannelError(KeyErrorText(k))
        case None =>
          match transport.post(t, channel, incident, severity)
          case Returned(reply) => Posted(reply.status, reply.body)
          case ClientError(m) => ChannelError(m)
          case Raised(m) => ChannelError(m)
  }

  /** `_send_email_notification`: only a client error from SES is caught here; every
      other exception escapes to `_send_to_channel` as a `Failure`. */
  function EmailHandler(incident: Incident, severity: string, config: YamlConfig, transport: Transport): (r: Result<ChannelResult>)
    ensures r.Success? ==> r.value.EmailSent? || r.value.ChannelError?
    ensures EmailFrom(config).Failure? ==> r == Failure(EmailFrom(config).error)
    ensures EmailFrom(config) == Success("") && EmailRecipients(config).Success? ==> r == Failure(EmailIncomplete)
    ensures r.Success? ==> "title" in incident
    ensures EmailFrom(config).Success? && EmailRecipients(config).Failure? ==> r == Failure(EmailRecipients(config).error)
    ensures EmailFrom(config).Success? && EmailRecipients(config) == Success([]) ==> r == Failure(EmailIncomplete)
    ensures EmailFrom(config).Success? && EmailRecipients(config).Success?
            && EmailFrom(config).value != "" && EmailRecipients(config).value != [] ==>
              var missing := FirstMissing(incident, ["title", "description", "status", "id"]);
              && (missing.Some? ==> r == Failure(KeyErrorText(missing.value)))
              && (missing.None? ==>
                    var call := transport.sendEmail(EmailFrom(config).value, EmailRecipients(config).value,
                                                    EmailSubject(severity, incident["title"]), incident);
                    && (call.Returned? ==> r == Success(EmailSent(call.value)))
                    && (call.ClientError? ==> r == Success(ChannelError(call.message)))
                    && (call.Raised? ==> r == Failure(call.message)))
    ensures r.Success? && r.value.EmailSent? <==>
              && EmailFrom(config).Success? && EmailFrom(config).value != ""
              && EmailRecipients(config).Success? && EmailRecipients(config).value != []
              && FirstMissing(incident, ["title", "description", "status", "id"]).None?
              && transport.sendEmail(EmailFrom(config).value, EmailRecipients(config).value,
                                     EmailSubject(severity, incident["title"]), incident).Returned?
  {
    match EmailFrom(config)
    case Failure(e) => Failure(e)
    case Success(sender) =>
      match EmailRecipients(config)
      case Failure(e) => Failure(e)
      case Success(recipients) =>
        if sender == "" || recipients == [] then Failure(EmailIncomplete)
        else match FirstMissing(incident, ["title", "description", "status", "id"])
          case Some(k) => Failure(KeyErrorText(k))
          case None =>
            match transport.sendEmail(sender, recipients, EmailSubject(severity, incident["title"]), incident)
            case Returned(id) => Success(EmailSent(id))
            case ClientError(m) => Success(ChannelError(m))
            case Raised(m) => Failure(m)
  }

  /** `_send_to_channel`: an unknown channel is reported without calling any handler; an
      exception escaping a handler is reported with the channel's name. */
  function SendToChannel(channel: string, incident: Incident, severity: string,
                         config: YamlConfig, transport: Transport): (r: ChannelResult)
    ensures ParseChannel(channel).None? ==> r == ChannelError(UnknownChannelPrefix + channel)
    ensures r.ChannelCrashed? ==> channel == "email" && r.channel == "email"
    ensures r.EmailSent? ==> channel == "email"
    ensures r.Posted? ==> channel in {"slack", "teams", "pagerduty"}
    ensures channel == "slack" ==>
              r == WebhookHandler(SlackWebhookUrl(config), SlackUrlMissing, Slack,
                                  ["title", "description", "status"], incident, severity, transport)
    ensures channel == "teams" ==>
              r == WebhookHandler(TeamsWebhookUrl(config), TeamsUrlMissing, Teams,
                                  ["title", "description", "status", "id"], incident, severity, transport)
    ensures channel == "pagerduty" ==>
              r == WebhookHandler(PagerDutyKey(config), PagerDutyKeyMissing, PagerDuty,
                                  ["title", "description"], incident, severity, transport)
    ensures channel == "email" && EmailHandler(incident, severity, config, transport).Success? ==>
              r == EmailHandler(incident, severity, config, transport).value
    ensures channel == "email" && EmailHandler(incident, severity, config, transport).Failure? ==>
              r == ChannelCrashed(EmailHandler(incident, severity, config, transport).error, "email")
  {
    match ParseChannel(channel)
    case None => ChannelError(UnknownChannelPrefix + channel)
    case Some(Slack) =>
      WebhookHandler(SlackWebhookUrl(config), SlackUrlMissing, Slack,
                     ["title", "description", "status"], incident, severity, transport)
    case Some(Teams) =>
      WebhookHandler(TeamsWebhookUrl(config), TeamsUrlMissing, Teams,
                     ["title", "description", "status", "id"], incident, severity, transport)
    case Some(PagerDuty) =>
      WebhookHandler(PagerDutyKey(config), PagerDutyKeyMissing, PagerDuty,
                     ["title", "description"], incident, severity, transport)
    case Some(Email) =>
      match EmailHandler(incident, severity, config, transport)
      case Success(result) => result
      case Failure(e) => ChannelCrashed(e, channel)
  }

  /** An incident without a `title` fails on every channel, whatever the configuration
      and the transport. */
  lemma UntitledIncidentFails(channel: string, incident: Incident, severity: string,
                              config: YamlConfig, transport: Transport)
    requires "title" !in incident
    ensures SendToChannel(channel, incident, severity, config, transport).Failed()
  {
  }

  // ---------------------------------------------------------------------------
  // send_notification

  /** The outcome of `send_notification`: its status is always `"success"`, since
      every per-channel failure is a result value. */
  datatype Notification = Notified(incidentId: string, results: seq<ChannelResult>)

  /** `send_notification` as a function of its inputs. */
  function NotificationOf(incident: Incident, channels: seq<string>, severity: string,
                          config: YamlConfig, transport: Transport): (r: Notification)
    ensures r.incidentId == if "id" in incident then incident["id"] else "unknown"
    ensures |r.results| == |channels|
    ensures forall i :: 0 <= i < |channels| ==>
              r.results[i] == SendToChannel(channels[i], incident, severity, config, transport)
  {
    Notified(if "id" in incident then incident["id"] else "unknown",
             seq(|channels|, i requires 0 <= i < |channels| => SendToChannel(channels[i], incident, severity, config, transport)))
  }

  /** `send_notification`: one result per requested channel, in order. */
  method SendNotification(incident: Incident, channels: seq<string>, severity: string,
                          config: YamlConfig, transport: Transport) returns (r: Notification)
    ensures r == NotificationOf(incident, channels, severity, config, transport)
  {
    var results: seq<ChannelResult> := [];
    for i := 0 to |channels|
      invariant |results| == i
      invariant forall j :: 0 <= j < i ==> results[j] == SendToChannel(channels[j], incident, severity, config, transport)
    {
      var result := SendToChannel(channels[i], incident, severity, config, transport);
      results := results + [result];
    }
    return Notified(if "id" in incident then incident["id"] else "unknown", results);
  }
}
