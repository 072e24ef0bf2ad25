/** The action dispatcher: runs each action of an AI decision through a handler chosen
    by the action's `type` (SSM automation or Lambda remediation, SNS notification,
    ticket placeholder) and reports one result per action. */
module Dispatcher {
  import opened Common

  const MissingActions: string := "Decision missing 'actions' field"
  const MissingType: string := "Missing action type"
  const UnknownTypePrefix: string := "Unknown action type: "
  const NoRemediation: string := "No supported remediation type found"
  const NoNotification: string := "No supported notification type found"
  const TicketNotImplemented: string := "Ticket creation not implemented"

  /** The handler table of `_process_action`. */
  datatype ActionKind = Remediate | Notify | Ticket

  function ParseActionKind(t: string): (k: Option<ActionKind>)
    ensures k == Some(Remediate) <==> t == "remediate"
    ensures k == Some(Notify) <==> t == "notify"
    ensures k == Some(Ticket) <==> t == "ticket"
  {
    if t == "remediate" then Some(Remediate)
    else if t == "notify" then Some(Notify)
    else if t == "ticket" then Some(Ticket)
    else None
  }

  /** The AWS calls a handler makes, each given the target named in the action
      (document, function or topic) and the whole action for its other fields:
      SSM `start_automation_execution` answering the execution id, Lambda `invoke`
      answering the decoded payload, SNS `publish` answering the message id. */
  datatype Aws = Aws(ssm: (string, Action) -> Call<string>,
                     lambda: (string, Action) -> Call<string>,
                     sns: (string, Action) -> Call<string>)

  /** What a successful handler reports: `execution_id`, `response` or `message_id`. */
  datatype Effect = AutomationExecution | LambdaResponse | SnsMessage

  /** One entry of `action_results`. `ActionCrashed` carries the failed action, as the
      catch-all of `_process_action` does. */
  datatype ActionResult =
    | ActionDone(effect: Effect, value: string)
    | ActionError(error: string)
    | ActionCrashed(error: string, action: Action)
  {
    function Status(): string {
      if ActionDone? then "success" else "error"
    }
  }

  /** A handler's own `except ClientError`: a client error becomes an error result,
      any other exception escapes the handler as a `Failure`. */
  function Handled(effect: Effect, call: Call<string>): (r: Result<ActionResult>)
    ensures r.Failure? <==> call.Raised?
    ensures r.Success? ==> r.value.ActionDone? || r.value.ActionError?
    ensures call.Returned? ==> r == Success(ActionDone(effect, call.value))
    ensures call.ClientError? ==> r == Success(ActionError(call.message))
  {
    match call
    case Returned(v) => Success(ActionDone(effect, v))
    case ClientError(m) => Success(ActionError(m))
    case Raised(m) => Failure(m)
  }

  /** `_execute_remediation`: an SSM document wins over a Lambda function. */
  function Remediation(action: Action, aws: Aws): (r: Result<ActionResult>)
    ensures "ssm_document" in action ==> r == Handled(AutomationExecution, aws.ssm(action["ssm_document"], action))
    ensures "ssm_document" !in action && "lambda_function" in action ==>
              r == Handled(LambdaResponse, aws.lambda(action["lambda_function"], action))
    ensures "ssm_document" !in action && "lambda_function" !in action ==> r == Success(ActionError(NoRemediation))
  {
    if "ssm_document" in action then Handled(AutomationExecution, aws.ssm(action["ssm_document"], action))
    else if "lambda_function" in action then Handled(LambdaResponse, aws.lambda(action["lambda_function"], action))
    else Success(ActionError(NoRemediation))
  }

  /** `_send_notification`: publishes only when the action names an SNS topic. */
  function Notification(action: Action, aws: Aws): (r: Result<ActionResult>)
    ensures "topic_arn" !in action ==> r == Success(ActionError(NoNotification))
    ensures "topic_arn" in action ==> r == Handled(SnsMessage, aws.sns(action["topic_arn"], action))
  {
    if "topic_arn" in action then Handled(SnsMessage, aws.sns(action["topic_arn"], action))
    else Success(ActionError(NoNotification))
  }

  /** `_create_ticket`: a placeholder that always fails. */
  function CreateTicket(action: Action): (r: ActionResult)
    ensures r == ActionError(TicketNotImplemented) && r.Status() == "error"
  {
    ActionError(TicketNotImplemented)
  }

  /** `_process_action`: dispatch on `type`; exceptions escaping a handler become a
      crashed result that carries the action. */
  function ProcessAction(action: Action, aws: Aws): (r: ActionResult)
    ensures "type" !in action ==> r == ActionError(MissingType)
    ensures "type" in action && ParseActionKind(action["type"]).None? ==>
              r == ActionError(UnknownTypePrefix + action["type"])
    ensures "type" in action && action["type"] == "ticket" ==> r == ActionError(TicketNotImplemented)
    ensures r.ActionCrashed? ==> r.action == action && "type" in action && action["type"] in {"remediate", "notify"}
    ensures r.ActionDone? ==> "type" in action && action["type"] in {"remediate", "notify"}
    ensures "type" in action && action["type"] == "remediate" ==>
              && (Remediation(action, aws).Success? ==> r == Remediation(action, aws).value)
              && (Remediation(action, aws).Failure? ==> r == ActionCrashed(Remediation(action, aws).error, action))
    ensures "type" in action && action["type"] == "notify" ==>
              && (Notification(action, aws).Success? ==> r == Notification(action, aws).value)
              && (Notification(action, aws).Failure? ==> r == ActionCrashed(Notification(action, aws).error, action))
  {
    if "type" !in action then ActionError(MissingType)
    else match ParseActionKind(action["type"])
      case None => ActionError(UnknownTypePrefix + action["type"])
      case Some(Ticket) => CreateTicket(action)
      case Some(kind) =>
        var handled := if kind == Remediate then Remediation(action, aws) else Notification(action, aws);
        match handled
        case Success(result) => result
        case Failure(e) => ActionCrashed(e, action)
  }

  /** The outcome of `execute_actions`. */
  datatype Dispatch =
    | Dispatched(decisionId: string, actionResults: seq<ActionResult>)
    | DispatchFailed(error: string)

  /** `execute_actions` as a function of the decision. */
  function DispatchOf(decision: Decision, aws: Aws): (r: Dispatch)
    ensures r.DispatchFailed? <==> decision.actions.None?
    ensures r.DispatchFailed? ==> r.error == MissingActions
    ensures r.Dispatched? ==>
              && r.decisionId == decision.id.GetOr("unknown")
              && |r.actionResults| == |decision.actions.value|
              && forall i :: 0 <= i < |r.actionResults| ==> r.actionResults[i] == ProcessAction(decision.actions.value[i], aws)
  {
    match decision.actions
    case None => DispatchFailed(MissingActions)
    case Some(actions) =>
      Dispatched(decision.id.GetOr("unknown"),
                 seq(|actions|, i requires 0 <= i < |actions| => ProcessAction(actions[i], aws)))
  }

  /** `execute_actions`: one result per action, in order. */
  method ExecuteActions(decision: Decision, aws: Aws) returns (r: Dispatch)
    ensures r == DispatchOf(decision, aws)
  {
    if decision.actions.None? {
      return DispatchFailed(MissingActions);
    }
    var actions := decision.actions.value;
    var results: seq<ActionResult> := [];
    for i := 0 to |actions|
      invariant |results| == i
      invariant forall j :: 0 <= j < i ==> results[j] == ProcessAction(actions[j], aws)
    {
      var result := ProcessAction(actions[i], aws);
      results := results + [result];
    }
    return Dispatched(decision.id.GetOr("unknown"), results);
  }

  /** With an SSM document present, a remediation never consults the Lambda client. */
  lemma SsmTakesPrecedence(action: Action, aws: Aws, lambda: (string, Action) -> Call<string>)
    requires "type" in action && action["type"] == "remediate" && "ssm_document" in action
    ensures ProcessAction(action, aws) == ProcessAction(action, aws.(lambda := lambda))
  {
  }

  /** An action crashes exactly when its AWS call raised something other than a client error. */
  lemma CrashedIffRaised(action: Action, aws: Aws)
    requires "type" in action && action["type"] == "remediate"
    requires "ssm_document" in action
    ensures ProcessAction(action, aws).ActionCrashed? <==> aws.ssm(action["ssm_document"], action).Raised?
  {
  }
}
