/**
 * `requestOpenAi` in `public/chat.php`: one chat-completion request and the
 * classification of what comes back.
 *
 * The network exchange is not modelled: what `json_encode`, `curl_init` and
 * `curl_exec` produce, and the decoding of the body, are inputs.  Every
 * failure is the `RuntimeException` the function throws, represented by the
 * first line of its message (the diagnostic block that follows it is not
 * modelled).  A successful call also asks for one log entry to be appended;
 * the append itself, which never fails the call, is not modelled.
 */
module OpenAiGateway {
  import opened Wrappers
  import opened Json
  import opened PhpStrings
  import opened ChatMessages
  import opened OpenAiResponse

  const Endpoint: string := "https://api.openai.com/v1/chat/completions"
  const Model: string := "gpt-5-nano"
  const MaxCompletionTokens: int := 512
  const TimeoutSeconds: int := 30

  /** The request `requestOpenAi` sends: where, with which headers, and the payload's three members. */
  datatype Request = Request(
    url: string,
    headers: seq<string>,
    timeoutSeconds: int,
    model: string,
    messages: seq<ChatMessage>,
    maxCompletionTokens: int)

  /** What the transport gives: `curl_init` fails, `curl_exec` fails with `curl_error`, or a status and a body. */
  datatype Exchange =
    | InitFailed
    | ExecFailed(curlError: string)
    | Completed(status: int, rawBody: string)

  /** The log entry `logOpenAiPrompt` builds from the payload, the answer and the response (its timestamp aside). */
  datatype LogEntry = LogEntry(
    model: string,
    maxCompletionTokens: int,
    messages: seq<(string, string)>,
    answer: string,
    responseId: Option<Json>,
    usage: Option<Json>)

  /** The outcome of a successful call: the answer and the entry to log. */
  datatype Answered = Answered(answer: string, log: LogEntry)

  /** The wire name of a role. */
  function RoleName(role: Role): string {
    match role
    case System => "system"
    case User => "user"
    case Assistant => "assistant"
  }

  /** The POST that `requestOpenAi` prepares with `curl_setopt_array`. */
  function RequestFor(apiKey: string, messages: seq<ChatMessage>): (r: Request)
    ensures r.headers == ["Content-Type: application/json", "Authorization: Bearer " + apiKey]
    ensures r.url == Endpoint && r.model == Model
    ensures r.messages == messages && r.maxCompletionTokens == MaxCompletionTokens
  {
    Request(Endpoint, ["Content-Type: application/json", "Authorization: Bearer " + apiKey],
      TimeoutSeconds, Model, messages, MaxCompletionTokens)
  }

  /** `curl_error($ch) ?: 'Unknown error'`: PHP's `?:` also replaces the string "0". */
  function CurlErrorText(curlError: string): (r: string)
    ensures r != "" && r != "0"
    ensures curlError != "" && curlError != "0" ==> r == curlError
  {
    if curlError == "" || curlError == "0" then "Unknown error" else curlError
  }

  /** `$decoded['error']['message'] ?? 'Unexpected error'`, as it is concatenated into the message. */
  function ProviderMessage(decoded: Json): string {
    var error := Get(decoded, "error");
    if error.Some? && Get(error.value, "message").Some? then ToPhpString(Get(error.value, "message").value)
    else "Unexpected error"
  }

  /** The first line of the message of each exception `requestOpenAi` throws. */
  function EncodeFailed(): string { "リクエストの作成に失敗しました。" }
  function InitFailedText(): string { "リクエストの初期化に失敗しました。" }
  function CallFailed(error: string): string { "OpenAI API の呼び出しに失敗しました: " + error }
  function Undecodable(): string { "OpenAI API のレスポンスが解析できませんでした。" }
  function ProviderError(message: string): string { "OpenAI API エラー: " + message }
  function NoAnswer(): string { "OpenAI API から有効な回答が得られませんでした。" }

  /** The entry `logOpenAiPrompt` is asked to append after a successful call. */
  function LogEntryFor(messages: seq<ChatMessage>, answer: string, decoded: Json): (r: LogEntry)
    ensures |r.messages| == |messages|
    ensures forall i :: 0 <= i < |messages| ==>
      r.messages[i] == (RoleName(messages[i].role), messages[i].content)
  {
    LogEntry(
      Model, MaxCompletionTokens,
      seq(|messages|, i requires 0 <= i < |messages| => (RoleName(messages[i].role), messages[i].content)),
      answer, Get(decoded, "id"), Get(decoded, "usage"))
  }

  /**
   * `requestOpenAi`: the payload must encode, the handle must initialise and
   * the call must complete; then the body must decode to an array, the status
   * must be below 400, and the response must hold an answer, in that order.
   * `encoded` is false when `json_encode` fails; `transport` is what cURL
   * makes of the request; `jsonDecode` is PHP's `json_decode($raw, true)`.
   */
  function RequestOpenAi(apiKey: string, messages: seq<ChatMessage>, encoded: bool,
                         transport: Request -> Exchange, jsonDecode: string -> Json): (r: Result<Answered, string>)
    ensures !encoded ==> r == Err(EncodeFailed())
    ensures r.Ok? ==> !IsBlank(r.value.answer) && r.value.log.answer == r.value.answer
    ensures r.Ok? ==> r.value.log.model == Model && |r.value.log.messages| == |messages|
  {
    if !encoded then Err(EncodeFailed())
    else match transport(RequestFor(apiKey, messages))
      case InitFailed => Err(InitFailedText())
      case ExecFailed(curlError) => Err(CallFailed(CurlErrorText(curlError)))
      case Completed(status, rawBody) =>
        var decoded := jsonDecode(rawBody);
        if !IsArray(decoded) then Err(Undecodable())
        else if status >= 400 then Err(ProviderError(ProviderMessage(decoded)))
        else match ExtractAnswer(decoded)
          case None => Err(NoAnswer())
          case Some(answer) => Ok(Answered(answer, LogEntryFor(messages, answer, decoded)))
  }

  // ----- properties -----

  /**
   * A call succeeds exactly when everything before the answer went through
   * and the decoded response holds one; the answer is then the extracted one,
   * never blank, and the entry logged records the very messages sent and
   * that answer.  A failed call logs nothing.
   */
  lemma SuccessIsExtraction(apiKey: string, messages: seq<ChatMessage>, encoded: bool, transport: Request -> Exchange, jsonDecode: string -> Json)
    ensures var r := RequestOpenAi(apiKey, messages, encoded, transport, jsonDecode);
      var exchange := transport(RequestFor(apiKey, messages));
      r.Ok? <==>
        && encoded && exchange.Completed? && exchange.status < 400
        && IsArray(jsonDecode(exchange.rawBody))
        && ExtractAnswer(jsonDecode(exchange.rawBody)).Some?
    ensures var r := RequestOpenAi(apiKey, messages, encoded, transport, jsonDecode);
      var exchange := transport(RequestFor(apiKey, messages));
      r.Ok? ==>
        && r.value.answer == ExtractAnswer(jsonDecode(exchange.rawBody)).value
        && !IsBlank(r.value.answer)
        && r.value.log.answer == r.value.answer
        && r.value.log.model == Model && r.value.log.maxCompletionTokens == MaxCompletionTokens
        && |r.value.log.messages| == |messages|
        && forall i :: 0 <= i < |messages| ==> r.value.log.messages[i].1 == messages[i].content
  {
  }

  /** The role a logged name stands for. */
  function RoleNamed(name: string): Option<Role> {
    if name == "system" then Some(System)
    else if name == "user" then Some(User)
    else if name == "assistant" then Some(Assistant)
    else None
  }

  /**
   * The log entry records the conversation faithfully: each logged pair names
   * the role of the message at the same place and holds its content, so two
   * calls that log the same pairs sent the same messages.
   */
  lemma LogEntryRecordsMessages(messages: seq<ChatMessage>, answer: string, decoded: Json)
    ensures var logged := LogEntryFor(messages, answer, decoded).messages;
      forall i :: 0 <= i < |messages| ==>
        RoleNamed(logged[i].0) == Some(messages[i].role) && logged[i].1 == messages[i].content
    ensures forall other: seq<ChatMessage>, otherAnswer: string, otherDecoded: Json ::
      LogEntryFor(other, otherAnswer, otherDecoded).messages == LogEntryFor(messages, answer, decoded).messages ==> other == messages
  {
    forall other: seq<ChatMessage>, otherAnswer: string, otherDecoded: Json
      | LogEntryFor(other, otherAnswer, otherDecoded).messages == LogEntryFor(messages, answer, decoded).messages
      ensures other == messages
    {
      var logged := LogEntryFor(messages, answer, decoded).messages;
      forall i | 0 <= i < |messages|
        ensures other[i] == messages[i]
      {
        assert RoleNamed(RoleName(other[i].role)) == Some(other[i].role);
        assert RoleNamed(RoleName(messages[i].role)) == Some(messages[i].role);
      }
    }
  }

  /** A body that does not decode to an array fails the same way whatever the status, even one of 400 or more. */
  lemma UndecodableBeforeStatus(apiKey: string, messages: seq<ChatMessage>, transport: Request -> Exchange, jsonDecode: string -> Json)
    requires transport(RequestFor(apiKey, messages)).Completed?
    requires !IsArray(jsonDecode(transport(RequestFor(apiKey, messages)).rawBody))
    ensures RequestOpenAi(apiKey, messages, true, transport, jsonDecode) == Err(Undecodable())
  {
  }

  /**
   * A status of 400 or more fails even when the response holds an answer,
   * and the failure carries the provider's `error.message`, or
   * "Unexpected error" when there is none.
   */
  lemma ErrorStatusFails(apiKey: string, messages: seq<ChatMessage>, transport: Request -> Exchange, jsonDecode: string -> Json)
    requires transport(RequestFor(apiKey, messages)).Completed?
    requires transport(RequestFor(apiKey, messages)).status >= 400
    requires IsArray(jsonDecode(transport(RequestFor(apiKey, messages)).rawBody))
    ensures var decoded := jsonDecode(transport(RequestFor(apiKey, messages)).rawBody);
      var error := Get(decoded, "error");
      RequestOpenAi(apiKey, messages, true, transport, jsonDecode)
        == Err("OpenAI API エラー: " + (if error.Some? && Get(error.value, "message").Some?
                                        then ToPhpString(Get(error.value, "message").value)
                                        else "Unexpected error"))
  {
  }

  /** A successful status whose response lists no choices fails with the no-answer exception. */
  lemma NoChoicesFail(apiKey: string, messages: seq<ChatMessage>, transport: Request -> Exchange, jsonDecode: string -> Json)
    requires transport(RequestFor(apiKey, messages)).Completed?
    requires transport(RequestFor(apiKey, messages)).status < 400
    requires jsonDecode(transport(RequestFor(apiKey, messages)).rawBody) == JObj([("choices", JArr([]))])
    ensures RequestOpenAi(apiKey, messages, true, transport, jsonDecode) == Err(NoAnswer())
  {
    NoChoicesNoAnswer();
  }

  /** Every failure is one of the six exceptions `requestOpenAi` throws. */
  lemma FailureKinds(apiKey: string, messages: seq<ChatMessage>, encoded: bool, transport: Request -> Exchange, jsonDecode: string -> Json)
    ensures var r := RequestOpenAi(apiKey, messages, encoded, transport, jsonDecode);
      var exchange := transport(RequestFor(apiKey, messages));
      r.Err? ==>
        || r.error == EncodeFailed() || r.error == InitFailedText() || r.error == Undecodable()
        || r.error == NoAnswer()
        || (exchange.ExecFailed? && r.error == CallFailed(CurlErrorText(exchange.curlError)))
        || (exchange.Completed? && r.error == ProviderError(ProviderMessage(jsonDecode(exchange.rawBody))))
  {
  }
}
