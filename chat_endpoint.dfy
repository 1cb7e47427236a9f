/**
 * The request handling at the top of `public/chat.php`: a chain of early
 * exits, each answering with a status code and a JSON body, ending in the
 * fallback reply when no API key is set or in the chat model's answer.
 *
 * Everything the script reads from outside is an input: the request method
 * and body, the content file, `json_decode`, `html_entity_decode`, the
 * `OPENAI_API_KEY` variable and the chat-completion exchange.
 */
module ChatEndpoint {
  import opened Wrappers
  import opened Json
  import opened PhpStrings
  import opened ContentRepository
  import opened ChatMessages
  import opened OpenAiResponse
  import opened OpenAiGateway
  import opened Fallback

  /** The HTTP request: `$_SERVER['REQUEST_METHOD']` and what `php://input` holds. */
  datatype HttpRequest = HttpRequest(requestMethod: string, body: string)

  /**
   * The world the script runs in.  `apiKeyVariable` is `None` when the
   * variable is not set (`getenv` gives false); `payloadEncodes` is false when
   * `json_encode` cannot encode the chat payload.
   */
  datatype Environment = Environment(
    contentPath: string,
    contentFile: ContentFile,
    jsonDecode: string -> Json,
    decodeEntities: string -> string,
    apiKeyVariable: Option<string>,
    payloadEncodes: bool,
    transport: OpenAiGateway.Request -> Exchange)

  /** The JSON object the script echoes. */
  datatype Body =
    | ErrorBody(error: string)
    | FailureBody(error: string, cause: string)
    | AnswerBody(answer: string, source: string)

  datatype Response = Response(status: int, body: Body)

  const MethodNotAllowed: string := "Method not allowed"
  const BadRequest: string := "不正なリクエストです。"
  const MissingFields: string := "教科・単元・質問は必須です。"
  const ContentUnavailable: string := "教材データの読み込みに失敗しました。"
  const NotFound: string := "指定された教材が見つかりません。"
  const TutorFailed: string := "家庭教師からの返信に失敗しました。"

  /** `$body ?: '[]'`: an empty body, and also the body "0", read as an empty list. */
  function BodyText(body: string): (r: string)
    ensures body != "" && body != "0" ==> r == body
    ensures body == "" || body == "0" ==> r == "[]"
  {
    if body == "" || body == "0" then "[]" else body
  }

  /** `getenv('OPENAI_API_KEY') ?: ''`: unset, empty and "0" all give no key. */
  function ApiKey(variable: Option<string>): (r: string)
    ensures r == "" <==> variable.None? || variable.value == "" || variable.value == "0"
  {
    if variable.None? || variable.value == "" || variable.value == "0" then "" else variable.value
  }

  /** `trim((string) ($payload['question'] ?? ''))`. */
  function QuestionOf(payload: Json): (r: string)
    ensures Trimmed(r)
    ensures Get(payload, "question").None? ==> r == ""
  {
    TrimmedIsFixed(ToPhpString(GetOr(payload, "question", JStr(""))));
    Trim(ToPhpString(GetOr(payload, "question", JStr(""))))
  }

  /** `isset($payload[key]) ? (string) $payload[key] : ''`: cast, not trimmed. */
  function IdOf(payload: Json, key: string): (r: string)
    ensures Get(payload, key).None? ==> r == ""
  {
    match Get(payload, key)
    case Some(v) => ToPhpString(v)
    case None => ""
  }

  /** The payload names a question, a subject and a unit. */
  predicate HasRequiredFields(payload: Json) {
    QuestionOf(payload) != "" && IdOf(payload, "subject") != "" && IdOf(payload, "unit") != ""
  }

  /** The decoded body. */
  function PayloadOf(request: HttpRequest, env: Environment): Json {
    env.jsonDecode(BodyText(request.body))
  }

  /** The subject the request names, if the content holds it. */
  function SubjectFor(repository: Repository, payload: Json): Option<Json> {
    FirstWithId(repository.GetSubjects(), IdOf(payload, "subject"))
  }

  /** `$subject ? $repository->findUnit(...) : null`: the unit is looked up only under a subject found. */
  function UnitFor(repository: Repository, payload: Json): (r: Option<Json>)
    ensures r.Some? ==> SubjectFor(repository, payload).Some?
  {
    var subject := SubjectFor(repository, payload);
    if subject.Some? && Truthy(subject.value)
    then FirstWithId(repository.GetUnits(IdOf(payload, "subject")), IdOf(payload, "unit"))
    else None
  }

  /** Where the early exits of lines 11 to 52 leave a request: refused with a status, or on to the answer. */
  datatype Route =
    | Refused(status: int, error: string)
    | Proceed(subject: Json, unit: Json, payload: Json)

  /** Lines 11 to 52: the method, the payload, the required fields, the content, the lookups. */
  function RouteOf(request: HttpRequest, env: Environment): (r: Route)
    ensures r.Refused? ==> r.status in {400, 404, 405, 500}
    ensures r.Proceed? ==>
      && request.requestMethod == "POST" && r.payload == PayloadOf(request, env)
      && IsArray(r.payload) && HasRequiredFields(r.payload)
  {
    if request.requestMethod != "POST" then Refused(405, MethodNotAllowed)
    else
      var payload := PayloadOf(request, env);
      if !IsArray(payload) then Refused(400, BadRequest)
      else if !HasRequiredFields(payload) then Refused(400, MissingFields)
      else match Open(env.contentPath, env.contentFile, env.jsonDecode)
        case Err(_) => Refused(500, ContentUnavailable)
        case Ok(repository) =>
          var subject := SubjectFor(repository, payload);
          var unit := UnitFor(repository, payload);
          if subject.None? || unit.None? then Refused(404, NotFound)
          else Proceed(subject.value, unit.value, payload)
  }

  /** The script from line 11 to line 82, as the response it sends. */
  function HandleChat(request: HttpRequest, env: Environment): (r: Response)
    ensures r.body.ErrorBody? <==> RouteOf(request, env).Refused?
    ensures r.status == 200 ==>
      request.requestMethod == "POST" && IsArray(PayloadOf(request, env)) && HasRequiredFields(PayloadOf(request, env))
  {
    match RouteOf(request, env)
    case Refused(status, error) => Response(status, ErrorBody(error))
    case Proceed(subject, unit, payload) => Answer(subject, unit, payload, env)
  }

  /** Lines 54 to 82: the briefing, then the fallback reply or the chat model's answer. */
  function Answer(subject: Json, unit: Json, payload: Json, env: Environment): (r: Response)
    ensures r.status == 200 <==> r.body.AnswerBody?
    ensures r.status != 200 ==> r.status == 500 && r.body.FailureBody? && r.body.error == TutorFailed
    ensures r.body.AnswerBody? && r.body.source != "fallback" ==> r.body.source == "openai" && !IsBlank(r.body.answer)
  {
    var question := QuestionOf(payload);
    var contextText := ContextText(subject, unit, env.decodeEntities);
    var apiKey := ApiKey(env.apiKeyVariable);
    if apiKey == "" then
      var reply := FallbackReply(subject, unit, question, contextText);
      Response(200, AnswerBody(reply.answer, reply.source))
    else
      var messages := ChatMessagesFor(contextText, GetOr(payload, "history", JArr([])), question);
      match RequestOpenAi(apiKey, messages, env.payloadEncodes, env.transport, env.jsonDecode)
      case Ok(answered) => Response(200, AnswerBody(answered.answer, "openai"))
      case Err(cause) => Response(500, FailureBody(TutorFailed, cause))
  }

  // ----- properties -----

  /** A refusal carries one of four status codes, each with its own message. */
  lemma RefusalStatuses(request: HttpRequest, env: Environment)
    ensures var route := RouteOf(request, env);
      route.Refused? ==>
        || (route.status == 405 && route.error == MethodNotAllowed)
        || (route.status == 400 && (route.error == BadRequest || route.error == MissingFields))
        || (route.status == 500 && route.error == ContentUnavailable)
        || (route.status == 404 && route.error == NotFound)
  {
  }

  /** Only a POST is handled; anything else is refused with 405 before the body is read. */
  lemma OnlyPost(request: HttpRequest, env: Environment)
    ensures RouteOf(request, env) == Refused(405, MethodNotAllowed) <==> request.requestMethod != "POST"
    ensures RouteOf(request, env).Refused? && RouteOf(request, env).status == 405 ==> request.requestMethod != "POST"
  {
  }

  /**
   * A POST is refused with 400 exactly when its body does not decode to an
   * array, or the array lacks the question (after trimming), the subject or
   * the unit; the message tells the two cases apart.
   */
  lemma BadRequests(request: HttpRequest, env: Environment)
    requires request.requestMethod == "POST"
    ensures var payload := PayloadOf(request, env);
      var route := RouteOf(request, env);
      && (route.Refused? && route.status == 400 <==> !IsArray(payload) || !HasRequiredFields(payload))
      && (!IsArray(payload) ==> route == Refused(400, BadRequest))
      && (IsArray(payload) && !HasRequiredFields(payload) ==> route == Refused(400, MissingFields))
  {
  }

  /**
   * The body "0" is read exactly like an empty body, because `?:` treats it
   * as false; any other body is decoded as it is.
   */
  lemma ZeroBodyReadsAsEmpty(requestMethod: string, body: string, env: Environment)
    ensures RouteOf(HttpRequest(requestMethod, "0"), env) == RouteOf(HttpRequest(requestMethod, ""), env)
    ensures HandleChat(HttpRequest(requestMethod, "0"), env) == HandleChat(HttpRequest(requestMethod, ""), env)
    ensures body != "" && body != "0" ==> PayloadOf(HttpRequest(requestMethod, body), env) == env.jsonDecode(body)
  {
  }

  /** An empty body is read as an empty list, which lacks the required fields. */
  lemma EmptyBody(env: Environment)
    requires env.jsonDecode("[]") == JArr([])
    ensures RouteOf(HttpRequest("POST", ""), env) == Refused(400, MissingFields)
  {
    assert Get(JArr([]), "question").None?;
  }

  /**
   * Only the question is trimmed: a subject or unit id made of spaces passes
   * the required-fields check, while a question made of spaces does not.
   */
  lemma OnlyQuestionTrimmed(question: string, subjectId: string, unitId: string)
    requires subjectId != "" && unitId != ""
    ensures var payload := JObj([("question", JStr(question)), ("subject", JStr(subjectId)), ("unit", JStr(unitId))]);
      HasRequiredFields(payload) <==> Trim(question) != ""
  {
    var q, sub, u := ("question", JStr(question)), ("subject", JStr(subjectId)), ("unit", JStr(unitId));
    var fields := [q, sub, u];
    assert fields[..2] == [q, sub] && [q, sub][..1] == [q];
    assert "unit" != "question" && "subject" != "question" && "unit" != "subject";
    assert Lookup([q], "question") == Some(JStr(question));
    assert Lookup([q, sub], "question") == Some(JStr(question));
    assert Lookup(fields, "question") == Some(JStr(question));
    assert Lookup(fields, "subject") == Some(JStr(subjectId));
    assert Lookup(fields, "unit") == Some(JStr(unitId));
  }

  /**
   * A well-formed request for content that cannot be loaded is refused with
   * 500; with the content loaded, it is refused with 404 exactly when the
   * subject is unknown or the subject has no such unit, and otherwise goes
   * on with that subject and unit.
   */
  lemma LookupFailures(request: HttpRequest, env: Environment)
    requires request.requestMethod == "POST"
    requires IsArray(PayloadOf(request, env)) && HasRequiredFields(PayloadOf(request, env))
    ensures var loaded := Open(env.contentPath, env.contentFile, env.jsonDecode);
      && (loaded.Err? ==> RouteOf(request, env) == Refused(500, ContentUnavailable))
      && (loaded.Ok? ==>
            var payload := PayloadOf(request, env);
            var subject := FirstWithId(loaded.value.GetSubjects(), IdOf(payload, "subject"));
            var unit := FirstWithId(loaded.value.GetUnits(IdOf(payload, "subject")), IdOf(payload, "unit"));
            && (RouteOf(request, env) == Refused(404, NotFound) <==> subject.None? || unit.None?)
            && (subject.Some? && unit.Some? ==> RouteOf(request, env) == Proceed(subject.value, unit.value, payload)))
  {
    var loaded := Open(env.contentPath, env.contentFile, env.jsonDecode);
    if loaded.Ok? {
      var payload := PayloadOf(request, env);
      var subject := SubjectFor(loaded.value, payload);
      if subject.Some? {
        FirstMatchIsRecord(loaded.value.GetSubjects(), IdOf(payload, "subject"));
      }
      FindUnitCases(loaded.value, IdOf(payload, "subject"), IdOf(payload, "unit"));
    }
  }

  /**
   * With an API key the answer is the chat model's: a 200 carrying the answer
   * `requestOpenAi` returns for the conversation built from the briefing, the
   * history and the question, marked "openai", exactly when the call
   * succeeds, and a 500 carrying the tutor-failure message and the call's
   * exception exactly when it fails.
   */
  lemma AnswerCases(subject: Json, unit: Json, payload: Json, env: Environment)
    requires ApiKey(env.apiKeyVariable) != ""
    ensures var messages := ChatMessagesFor(ContextText(subject, unit, env.decodeEntities),
                                            GetOr(payload, "history", JArr([])), QuestionOf(payload));
      var g := RequestOpenAi(ApiKey(env.apiKeyVariable), messages, env.payloadEncodes, env.transport, env.jsonDecode);
      && (g.Ok? ==> Answer(subject, unit, payload, env) == Response(200, AnswerBody(g.value.answer, "openai")))
      && (g.Err? ==> Answer(subject, unit, payload, env) == Response(500, FailureBody(TutorFailed, g.error)))
  {
  }

  /**
   * Without an API key (unset, empty or "0") the answer is the fallback
   * reply, quoting the trimmed question and the unit's briefing.
   */
  lemma FallbackWithoutKey(subject: Json, unit: Json, payload: Json, env: Environment)
    requires ApiKey(env.apiKeyVariable) == ""
    ensures var reply := FallbackReply(subject, unit, QuestionOf(payload), ContextText(subject, unit, env.decodeEntities));
      Answer(subject, unit, payload, env) == Response(200, AnswerBody(reply.answer, "fallback"))
  {
  }

  /**
   * A reply from the chat model is only given when an API key is set, and it
   * is the answer extracted from the decoded response, which is never blank.
   */
  lemma ModelAnswers(subject: Json, unit: Json, payload: Json, env: Environment)
    ensures var r := Answer(subject, unit, payload, env);
      r.body.AnswerBody? && r.body.source == "openai" ==>
        ApiKey(env.apiKeyVariable) != "" && !IsBlank(r.body.answer)
  {
    var apiKey := ApiKey(env.apiKeyVariable);
    if apiKey != "" {
      var messages := ChatMessagesFor(ContextText(subject, unit, env.decodeEntities),
        GetOr(payload, "history", JArr([])), QuestionOf(payload));
      SuccessIsExtraction(apiKey, messages, env.payloadEncodes, env.transport, env.jsonDecode);
    }
  }

  /**
   * The script answers with one of five status codes: a refusal with its
   * message, or the answer, which is the only 200 and, with a failure of the
   * chat-model call, the only other 500.
   */
  lemma StatusCodes(request: HttpRequest, env: Environment)
    ensures HandleChat(request, env).status in {200, 400, 404, 405, 500}
    ensures RouteOf(request, env).Refused? ==>
      HandleChat(request, env) == Response(RouteOf(request, env).status, ErrorBody(RouteOf(request, env).error))
    ensures HandleChat(request, env).status == 200 ==> RouteOf(request, env).Proceed?
  {
  }
}
