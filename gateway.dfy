/** The model gateway `send_request_to_model` (bot.py:102-136) with its
    transport abstracted: the HTTP exchange arrives as a value, and what is
    modelled is how the bot turns it into the reply text and whether it
    records usage. */
module Gateway {
  import opened Wrappers
  import opened Text
  import opened Usage

  datatype Role = System | User | Assistant

  /** A chat message `{"role": ..., "content": ...}`. */
  datatype Message = Message(role: Role, content: string)

  /** The JSON body POSTed to the API (bot.py:103-106). */
  datatype Payload = Payload(model: string, messages: seq<Message>)

  /** `choices[i]["message"]`; its `content` key may be missing. */
  datatype ChoiceMessage = ChoiceMessage(content: Option<string>)

  /** `choices[i]`; its `message` key may be missing. */
  datatype Choice = Choice(message: Option<ChoiceMessage>)

  /** A decoded chat-completion response; `usage` and `choices` may be missing. */
  datatype Completion = Completion(usage: Option<Usage>, choices: Option<seq<Choice>>)

  /** What `await resp.json()` yields: a completion, or the error it raised. */
  datatype Body = Json(completion: Completion) | Undecodable(error: string)

  /** What `await resp.text()` yields: the body text, or the error it raised
      (a truncated payload, a body that does not decode). */
  datatype BodyText = Readable(content: string) | Unreadable(error: string)

  /** One POST to the API: either it was answered with a status, the reading
      of its body as text and the JSON decoding of that body, or it raised
      before an answer was read (connection failure, timeout) with the given
      `str(e)`. A 200 answer is only decoded as JSON and a non-200 answer is
      only read as text. */
  datatype Exchange = Answered(status: nat, text: BodyText, body: Body) | Failed(error: string)

  /** The returned string, and the usage object `update_stats` was called on (if it was). */
  datatype Outcome = Outcome(reply: string, recorded: Option<Usage>)

  const NoResponse := "No response received."
  const ApiErrorPrefix := "\U{26A0}\U{FE0F} API error: HTTP "
  const ExceptionPrefix := "\U{274C} Exception occurred: "
  /** `str(e)` of the IndexError raised by indexing an empty list. */
  const IndexErrorMessage := "list index out of range"

  /** `f"⚠️ API error: HTTP {resp.status}"` (bot.py:133). */
  function ApiErrorReply(status: nat): string
  {
    ApiErrorPrefix + NatToDecimal(status)
  }

  /** `f"❌ Exception occurred: {str(e)}"` (bot.py:136). */
  function ExceptionReply(error: string): string
  {
    ExceptionPrefix + error
  }

  /** The status code an API-error reply carries, if `s` is one. */
  function ParseApiError(s: string): Option<nat>
  {
    var n := |ApiErrorPrefix|;
    if |s| > n && s[..n] == ApiErrorPrefix && AllDigits(s[n..]) then Some(DecimalValue(s[n..]))
    else None
  }

  /** The reply extracted from a decoded completion (bot.py:129):
      `data.get("choices", [{}])[0].get("message", {}).get("content", ...)`.
      An empty `choices` list raises IndexError, which bot.py:134-136 turns
      into the exception reply. */
  function ReplyOf(c: Completion): string
  {
    var choices := c.choices.GetOr([Choice(None)]);
    if choices == [] then ExceptionReply(IndexErrorMessage)
    else
      match choices[0].message
      case None => NoResponse
      case Some(m) => m.content.GetOr(NoResponse)
  }

  /** What `send_request_to_model` returns and records for an exchange. */
  function Interpret(x: Exchange): Outcome
  {
    match x
    case Failed(e) => Outcome(ExceptionReply(e), None)
    case Answered(status, text, body) =>
      if status != 200 then
        match text
        case Unreadable(e) => Outcome(ExceptionReply(e), None)
        case Readable(_) => Outcome(ApiErrorReply(status), None)
      else
        match body
        case Undecodable(e) => Outcome(ExceptionReply(e), None)
        case Json(c) => Outcome(ReplyOf(c), Some(c.usage.GetOr(NoUsage)))
  }

  /** Whether the exchange raised inside the `try` before `update_stats` ran,
      and `str(e)` when it did. */
  function RaisedError(x: Exchange): Option<string>
  {
    match x
    case Failed(e) => Some(e)
    case Answered(status, text, body) =>
      if status != 200 then (if text.Unreadable? then Some(text.error) else None)
      else if body.Undecodable? then Some(body.error)
      else None
  }

  /** The status code can be read back from an API-error reply, so distinct
      statuses give distinct replies. */
  lemma ApiErrorReadBack(status: nat)
    ensures ParseApiError(ApiErrorReply(status)) == Some(status)
  {
    var s := ApiErrorReply(status);
    var n := |ApiErrorPrefix|;
    assert s[..n] == ApiErrorPrefix && s[n..] == NatToDecimal(status);
    DecimalRoundTrip(status);
  }

  /** An exception reply is never mistaken for an API-error reply. */
  lemma ExceptionIsNotApiError(error: string)
    ensures ParseApiError(ExceptionReply(error)) == None
  {
    var s := ExceptionReply(error);
    if |s| > |ApiErrorPrefix| {
      assert s[0] != ApiErrorPrefix[0];
      assert s[..|ApiErrorPrefix|][0] == s[0];
    }
  }

  /** Usage is recorded exactly when the API answered 200 with a decodable body. */
  lemma RecordsIffDecodedOk(x: Exchange)
    ensures Interpret(x).recorded.Some? <==> x.Answered? && x.status == 200 && x.body.Json?
  {
  }

  /** A non-200 answer whose body can be read yields the API-error reply
      carrying that status and records nothing; the body text does not appear
      in the reply. */
  lemma NonOkOutcome(status: nat, text: string, body: Body, text': string, body': Body)
    requires status != 200
    ensures Interpret(Answered(status, Readable(text), body)) == Outcome(ApiErrorReply(status), None)
    ensures ParseApiError(Interpret(Answered(status, Readable(text), body)).reply) == Some(status)
    ensures Interpret(Answered(status, Readable(text), body))
            == Interpret(Answered(status, Readable(text'), body'))
  {
    ApiErrorReadBack(status);
  }

  /** A 200 answer with a decoded body records its usage (`{}` when absent)
      exactly once and returns the first choice's content, "No response
      received." when the content or message is missing (or `choices` is
      absent), and the IndexError's exception reply when `choices` is empty. */
  lemma OkOutcome(text: BodyText, c: Completion)
    ensures Interpret(Answered(200, text, Json(c))).recorded == Some(c.usage.GetOr(NoUsage))
    ensures c.choices == Some([]) ==>
              Interpret(Answered(200, text, Json(c))).reply == ExceptionReply(IndexErrorMessage)
    ensures c.choices.None? ==> Interpret(Answered(200, text, Json(c))).reply == NoResponse
    ensures c.choices.Some? && |c.choices.value| > 0
            && (c.choices.value[0].message.None? || c.choices.value[0].message.value.content.None?)
            ==> Interpret(Answered(200, text, Json(c))).reply == NoResponse
    ensures forall content: string ::
              c.choices.Some? && |c.choices.value| > 0 && c.choices.value[0].message == Some(ChoiceMessage(Some(content)))
              ==> Interpret(Answered(200, text, Json(c))).reply == content
  {
  }

  /** An exception raised before `update_stats` runs (by the POST, by reading
      a non-200 body, or by decoding a 200 body) leaves usage unrecorded and
      returns the exception reply with that error. No other exchange raises
      before `update_stats` (bot.py:127); a decoded 200 answer can still raise
      the IndexError afterwards, which `OkOutcome` covers. */
  lemma FailureOutcome(x: Exchange)
    ensures RaisedError(x).Some? ==> Interpret(x) == Outcome(ExceptionReply(RaisedError(x).value), None)
    ensures RaisedError(x).Some? ==> ParseApiError(Interpret(x).reply) == None
    ensures RaisedError(x).None? <==> x.Answered? && (x.status == 200 ==> x.body.Json?)
                                                 && (x.status != 200 ==> x.text.Readable?)
  {
    if RaisedError(x).Some? {
      ExceptionIsNotApiError(RaisedError(x).value);
    }
  }

  /** `send_request_to_model(modelName, messages, ...)` (bot.py:102-136):
      sends `payload`, and updates `stats` exactly when usage was recorded. */
  method SendRequest(stats: UsageStats, modelName: string, messages: seq<Message>, exchange: Exchange)
    returns (payload: Payload, reply: string)
    modifies stats
    ensures payload == Payload(modelName, messages)
    ensures reply == Interpret(exchange).reply
    ensures Interpret(exchange).recorded.None? ==> stats.Snapshot() == old(stats.Snapshot())
    ensures Interpret(exchange).recorded.Some? ==>
              stats.Snapshot() == Record(old(stats.Snapshot()), Interpret(exchange).recorded.value)
  {
    payload := Payload(modelName, messages);
    match exchange
    case Failed(e) =>
      reply := ExceptionReply(e);
    case Answered(status, text, body) =>
      if status == 200 {
        match body
        case Undecodable(e) =>
          reply := ExceptionReply(e);
        case Json(c) =>
          var usage := c.usage.GetOr(NoUsage);
          stats.UpdateStats(usage);
          reply := ReplyOf(c);
      } else {
        match text
        case Unreadable(e) =>
          reply := ExceptionReply(e);
        case Readable(_) =>
          reply := ApiErrorReply(status);
      }
  }
}
