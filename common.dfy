/** Shared vocabulary of the NOC agent model: optional values, results with an
    error message, the outcome of a call into an external service, and the
    dictionary shapes the components hand to each other. */
module Common {

  datatype Option<+T> = None | Some(value: T) {
    /** `dict.get(key, default)` once the lookup has produced an Option */
    function GetOr(default: T): T {
      match this
      case Some(v) => v
      case None => default
    }
  }

  /** A Python function that either returns a value or raises with a message. */
  datatype Result<+T> = Success(value: T) | Failure(error: string)

  /** What a call into an external service (AWS client, HTTP post, AI model) does:
      it returns, it raises botocore's ClientError, or it raises any other exception.
      The source catches the two kinds of exception at different places. */
  datatype Call<+T> = Returned(value: T) | ClientError(message: string) | Raised(message: string)

  /** A flat JSON object with text values: opaque payloads of external services. */
  type Dict = map<string, string>

  /** One recommended or requested action: a JSON object whose keys the dispatcher inspects
      (`type`, `ssm_document`, `lambda_function`, `topic_arn`, `message`, `subject`, ...). */
  type Action = map<string, string>

  /** The fields of an AI decision that the pipeline reads; any of them may be absent. */
  datatype Decision = Decision(id: Option<string>, severity: Option<string>, actions: Option<seq<Action>>)

  /** `str(KeyError(key))`: the message of a failed dictionary subscript. */
  function KeyErrorText(key: string): (r: string)
    ensures |r| == |key| + 2 && r[0] == '\'' && r[|r| - 1] == '\'' && r[1..|r| - 1] == key
  {
    "'" + key + "'"
  }
}
