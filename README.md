# Personal tutor: content repository and chat endpoint

This project models in Dafny the server side of a small PHP tutoring site.
A learner picks a subject and a unit and asks a question. The server answers
with help from a chat-completion model, or with a canned reply when no API key
is configured.

The model covers:

- `src/ContentRepository.php` (modules `ContentRepository` and `HtmlText`):
  - the constructor's checks on the content file;
  - the first-match lookups `findSubject`, `getUnits` and `findUnit`;
  - `buildContextText`, which builds the plain-text briefing of a unit;
  - `htmlToText`, which flattens a unit's rich-text explanation.
- `public/chat.php`:
  - the request handling at the top of the script (module `ChatEndpoint`);
  - `buildChatMessages` (module `ChatMessages`);
  - `requestOpenAi` and the classification of what comes back (module `OpenAiGateway`);
  - `extractOpenAiAnswer` and `normalizeOpenAiContent` (module `OpenAiResponse`);
  - `buildFallbackResponse` (module `Fallback`).

Shared PHP behaviour lives in two modules:

- `Json` models decoded JSON as PHP holds it:
  - `isset` and `??` reading (`Get`, `GetOr`);
  - `empty` (`Truthy`);
  - `(string)` casts (`ToPhpString`);
  - `foreach` over an array (`Elements`).
- `PhpStrings` models `trim`, `implode` and case folding.

Everything the PHP code reads from outside is a parameter of the model:

- the request method and body;
- the content file;
- `json_decode`;
- `html_entity_decode`;
- the `OPENAI_API_KEY` variable;
- whether `json_encode` succeeds;
- the outcome of the cURL exchange.

Code that works step by step is modelled as methods with loops. Each loop is proved against a specification function:

- the search loop shared by `findSubject` and `findUnit`;
- the two loops of `buildContextText`: the exercise loop and the bullet loop;
- the history loop of `buildChatMessages`;
- the choice loop of `extractOpenAiAnswer`;
- the part loop and the recursion of `normalizeOpenAiContent`.

`buildContextText` and `buildFallbackResponse` also append their lines one statement at a time. Those methods are proved equal to the text their specification functions give.

The repository never changes its data after construction, so it is a value.

`ChatEndpoint.HandleChat` is the script from line 11 to line 82, as the response it sends. It has two parts:

- `RouteOf` covers the early exits: 405, 400, 500 and 404, each with its own message.
- `Answer` covers what follows: the fallback reply, the model's answer, or a 500 that carries the exception of a failed call.

Some promises one might expect do not hold for the code, and the model follows the code:

- `htmlToText` is idempotent when entity decoding creates no tag and leaves the result unchanged. Text such as `a &amp; b` qualifies. Tags are removed before entities are decoded, so `&lt;p&gt;x` does not: it gives `<p>x` on the first run and `x` on the second.
- The briefing drops only lines that are empty or `"0"`. A field whose value holds a newline still yields a multi-line entry.
- A request body of `"0"` is read like an empty body, as `[]`, because of PHP's `?:`. It therefore gets the 400 for missing fields, not the 400 for a malformed payload.

## Model

| member | source | states |
|---|---|---|
| ContentRepository.Open | src/ContentRepository.php:13-30 | a missing file, an unreadable file and decoded data that is not an array holding an array under `subjects` each give their own error; otherwise the repository holds the decoded data and its subjects are that list |
| ContentRepository.IndexOfId | src/ContentRepository.php:45-49 | the position found holds the id and no earlier item does |
| ContentRepository.FirstWithIdAt | src/ContentRepository.php:45-51 | an item holding the id with none before it is the first match; with no item holding it there is none |
| ContentRepository.FindFirst | src/ContentRepository.php:77-83 | the loop returns exactly the first item whose id is strictly equal to the one asked for, or null |
| ContentRepository.Repository.FindSubject | src/ContentRepository.php:43-52 | returns the first subject with the id, in list order, or nothing |
| ContentRepository.Repository.GetUnits | src/ContentRepository.php:57-68 | an unknown subject has no units |
| ContentRepository.DisplayName | src/ContentRepository.php:89-90 | a record shows its name when set, its id when the name is missing or null, and "" when neither is set |
| ContentRepository.Repository.FindUnit | src/ContentRepository.php:73-84 | returns the first unit with the id among the units of the subject, or nothing |
| ContentRepository.FindUnitCases | src/ContentRepository.php:57-84 | no unit is found for an unknown subject or for a subject whose `units` is missing or not an array; otherwise the first unit with the id is found |
| ContentRepository.FirstMatchIsRecord | src/ContentRepository.php:45-48 | a match is an object taken from the list and is never empty, so the callers' `array` types and `$subject ?` tests accept it |
| ContentRepository.Repository.BuildContextText | src/ContentRepository.php:86-130 | the method's lines, filtered, joined and trimmed, are the briefing text of the subject and unit |
| ContentRepository.AppendField | src/ContentRepository.php:92-106 | appends the captioned value exactly when the field is not empty |
| ContentRepository.FieldValue | src/ContentRepository.php:92-98 | a grade or overview is shown exactly when `!empty` holds for it |
| ContentRepository.GoalsValue | src/ContentRepository.php:100-102 | goals are shown exactly when they are not empty and are an array |
| ContentRepository.ExplanationValue | src/ContentRepository.php:104-106 | the explanation is shown exactly when it is not empty |
| ContentRepository.CollectExerciseLines | src/ContentRepository.php:109-119 | the exercise loop yields the lines of every exercise, numbered from 1, in order |
| ContentRepository.AppendExercise | src/ContentRepository.php:112-118 | one turn appends the question line, then the hint and answer lines when they are not empty |
| ContentRepository.AppendExercises | src/ContentRepository.php:108-127 | appends the header and the bulleted lines only when the exercises are a non-empty array that yields a line |
| ContentRepository.AppendBullets | src/ContentRepository.php:123-125 | appends every exercise line behind " - ", in order |
| ContentRepository.ExerciseLinesSnoc | src/ContentRepository.php:110-119 | visiting one more exercise appends exactly its lines |
| ContentRepository.ExerciseLinesAt | src/ContentRepository.php:110-118 | exercise i is numbered i + 1, and its lines sit right after those of the exercises before it |
| ContentRepository.ExerciseLinesEmpty | src/ContentRepository.php:109-121 | the loop yields no line exactly when there is no exercise |
| ContentRepository.ExerciseLinesLength | src/ContentRepository.php:110-118 | the exercises give at least one line each in total and at most three each |
| ContentRepository.ExerciseLinesPrefix | src/ContentRepository.php:110-119 | the lines of the first j exercises begin the lines of all of them |
| ContentRepository.Captioned | src/ContentRepository.php:92-106 | an optional field gives at most one line of its own part, present exactly when it has a value |
| ContentRepository.ExercisesPart | src/ContentRepository.php:121-126 | the exercises part is empty exactly when there is no exercise line |
| ContentRepository.LayoutTexts | src/ContentRepository.php:88-127 | the briefing's lines are the subject line, the unit line, each present field, then the exercises, in that order |
| ContentRepository.LayoutOrder | src/ContentRepository.php:88-127 | the lines open with the subject and unit lines, the parts come in their fixed order, and only the exercises span several lines |
| ContentRepository.LayoutParts | src/ContentRepository.php:88-127 | each optional part is present exactly when its value is |
| ContentRepository.ContextParts | src/ContentRepository.php:92-127 | grade, overview and explanation appear exactly when not empty; goals exactly when they are a non-empty array; exercises exactly when they are an array holding an exercise |
| ContentRepository.LayoutKeepsAll | src/ContentRepository.php:129 | `array_filter` drops none of the briefing's lines |
| ContentRepository.KeepTruthy | src/ContentRepository.php:129 | `array_filter` keeps exactly the lines that are neither "" nor "0" and adds none |
| ContentRepository.LayoutLinesLong | src/ContentRepository.php:89-124 | every line opens with its caption ("Subject: ", "Unit: ", "Target grade: ", "Overview: ", "Learning goals: ", "Explanation: "), or is the "Exercises:" header or a " - " bullet, so it is at least two characters long |
| ContentRepository.KeepTruthyKeepsAll | src/ContentRepository.php:129 | `array_filter` keeps a list without "" and "0" unchanged |
| ContentRepository.BriefingTextStart | src/ContentRepository.php:88-129 | the text opens with the subject line followed by the start of the unit line, whatever trimming does |
| HtmlText.FirstGt | src/ContentRepository.php:134-137 | finds the first '>', the end of the tag the patterns match |
| HtmlText.MatchLength | src/ContentRepository.php:134-137 | a tag pattern matches from a '<' not followed by '>' up to and including the first '>', and the last pattern matches exactly when such a tag is complete |
| HtmlText.RewriteTags | src/ContentRepository.php:134-137 | after the four tag passes no complete tag is left |
| HtmlText.DropNewlines | src/ContentRepository.php:139 | drops exactly the leading newlines |
| HtmlText.CollapseNewlinesShape | src/ContentRepository.php:139 | after the newline pass no two newlines are adjacent; the text is empty only when it was and keeps its first character |
| HtmlText.DropSpaces | src/ContentRepository.php:140 | drops exactly the leading white space |
| HtmlText.CollapseSpaces | src/ContentRepository.php:140 | the result is single-spaced, empty only for empty input, and starts with the input's first character or a space |
| HtmlText.CollapseSpacesIsSqueezedBlanks | src/ContentRepository.php:140 | the pass equals an independent reference: every white-space character made a space, then each run of spaces cut to one |
| HtmlText.CollapseSpacesKeepsVisible | src/ContentRepository.php:140 | every character that is not white space survives, in order, and none is added |
| HtmlText.HtmlToTextIsSqueezedBlanks | src/ContentRepository.php:132-143 | the result is the decoded tag-free text with every white-space run made one space, then trimmed |
| HtmlText.HtmlToText | src/ContentRepository.php:132-143 | the result is one line, single-spaced, with no white space or trim character at either end |
| HtmlText.TrimKeepsSingleSpaced | src/ContentRepository.php:140-142 | trimming keeps the text single-spaced |
| HtmlText.AnyTagPassLeavesNoTag | src/ContentRepository.php:137 | after the last tag pass no complete tag is left |
| HtmlText.NoTagIsFixedPoint | src/ContentRepository.php:134-137 | a tag pass leaves text without tags unchanged |
| HtmlText.CollapseSpacesKeepsNoTag | src/ContentRepository.php:140 | collapsing white space creates no tag |
| HtmlText.TrimKeepsNoTag | src/ContentRepository.php:142 | trimming creates no tag |
| HtmlText.NewlinePassIsSubsumed | src/ContentRepository.php:139-140 | the newline pass changes nothing that the white-space pass would not do anyway |
| HtmlText.CollapseSpacesFixesSingleSpaced | src/ContentRepository.php:140 | single-spaced text passes the white-space pass unchanged |
| HtmlText.HtmlToTextIdempotent | src/ContentRepository.php:132-143 | flattening twice gives the same text as once, when entity decoding creates no tag and leaves the result unchanged |
| HtmlText.DecodedEntitiesBreakIdempotence | src/ContentRepository.php:134-138 | an escaped tag survives the first run as a tag and is removed by the second, so without those conditions a second run changes the text |
| HtmlText.PlainLineIsFixed | src/ContentRepository.php:139-142 | a single-spaced line without white space at its ends passes the collapse and trim passes unchanged |
| HtmlText.TextWithoutLtKeepsTags | src/ContentRepository.php:134-137 | text without '<' passes the four tag passes unchanged |
| PhpStrings.TrimShape | public/chat.php:26 | `trim` keeps an infix that neither starts nor ends with a trim character, and gives "" exactly for a string of trim characters |
| PhpStrings.TrimmedIsFixed | public/chat.php:104 | `trim` leaves exactly the trimmed strings unchanged, so trimming twice changes nothing more |
| PhpStrings.TrimKeepsPrefix | src/ContentRepository.php:129 | trimming never cuts into a prefix that starts and ends with a visible character |
| PhpStrings.JoinPrefix | src/ContentRepository.php:129 | the parts before k, joined, begin the joined string |
| PhpStrings.JoinWithoutSeparator | public/chat.php:281 | `implode('', a + b)` is `implode('', a)` followed by `implode('', b)` |
| ChatMessages.SystemPrompt | public/chat.php:88-91 | the system prompt embeds the briefing verbatim between the instructions and the closing rule |
| ChatMessages.TurnRole | public/chat.php:103-110 | a turn is kept only with a role strictly equal to "user" or "assistant" |
| ChatMessages.TurnContent | public/chat.php:104 | a turn's content is trimmed |
| ChatMessages.ToMessage | public/chat.php:99-115 | a kept entry is an array with a user or assistant role and trimmed, non-empty content |
| ChatMessages.ToMessageCases | public/chat.php:99-115 | an entry gives a turn exactly when it is an array, its role is "user" or "assistant" and its trimmed content is not empty; the turn has that role and that trimmed content |
| ChatMessages.HistoryExample | public/chat.php:84-124 | the history `[user: a, system: x, assistant: "", assistant: b]` with question q gives `[system prompt, user: a, assistant: b, user: q]` |
| ChatMessages.BuildChatMessages | public/chat.php:84-124 | the conversation is the system prompt, the kept history turns in order, then the question |
| ChatMessages.AppendTurns | public/chat.php:98-116 | the history loop appends the turn of every entry it keeps, in order |
| ChatMessages.AcceptedFromEntries | public/chat.php:99-115 | the kept turns are, one for one and in order, the turns of the accepted entries: each comes from its own entry, as its trimmed content under a user or assistant role, the entries' positions strictly increase, so no entry gives two turns, and every accepted entry gives one |
| ChatMessages.AcceptedKeepsEntry | public/chat.php:99-115 | every entry the loop accepts is kept, right after the turns from the entries before it |
| ChatMessages.ChatMessagesShape | public/chat.php:84-124 | the conversation opens with the system prompt and closes with the question; every turn between is a user or assistant turn with trimmed, non-empty content |
| ChatMessages.NoHistory | public/chat.php:98 | a history that is not an array, or is empty, leaves only the system prompt and the question |
| ChatMessages.OnlyOneSystemMessage | public/chat.php:108 | a history turn can never add a second system message |
| OpenAiResponse.NormalizeContent | public/chat.php:242-284 | normalized content is never blank |
| OpenAiResponse.JoinedParts | public/chat.php:277-283 | the joined text of an array's parts is never blank |
| OpenAiResponse.RefusalText | public/chat.php:231-236 | a refusal is returned trimmed and never blank |
| OpenAiResponse.ChoiceAnswer | public/chat.php:215-236 | a choice's answer is never blank |
| OpenAiResponse.ExtractAnswer | public/chat.php:209-240 | an extracted answer is never blank |
| OpenAiResponse.NormalizeOpenAiContent | public/chat.php:242-284 | the loop over the parts and the recursive call compute the normalized content |
| OpenAiResponse.ExtractOpenAiAnswer | public/chat.php:209-240 | the loop over the choices returns the first choice's answer |
| OpenAiResponse.TextAndContentParts | public/chat.php:209-284 | the parts `{text: t}` and `{content: c}` answer `t + c`, as "foo" and "bar" give "foobar" |
| OpenAiResponse.RefusalAnswer | public/chat.php:223-236 | a message with only a refusal answers with the refusal, trimmed |
| OpenAiResponse.NoChoicesNoAnswer | public/chat.php:209-239 | an empty list of choices gives no answer |
| OpenAiResponse.FirstAnswerIsFirst | public/chat.php:215-239 | the answer comes from the first choice that gives one, and there is none exactly when no choice gives one |
| OpenAiResponse.PartsOfConcat | public/chat.php:254-275 | the parts of a + b are the parts of a, then those of b |
| OpenAiResponse.PartsTextOfConcat | public/chat.php:254-281 | splitting the part list splits the concatenated text at the same place |
| OpenAiResponse.WrappingIsTransparent | public/chat.php:269-274 | a list holding one part whose `content` is some content reads exactly as that content |
| OpenAiResponse.RefusalOnlyWithoutContent | public/chat.php:225-236 | a refusal is reported only when the content gives no text |
| OpenAiResponse.TypedTextPartAnswer | public/chat.php:209-284 | a response with one typed text part answers with that text, untrimmed |
| OpenAiResponse.ContentAnswer | public/chat.php:225-229 | a choice whose content gives a text answers with it |
| OpenAiGateway.CurlErrorText | public/chat.php:163 | the cURL error, or "Unknown error" when it is "" or "0" |
| OpenAiGateway.LogEntryRecordsMessages | public/chat.php:316-348 | each logged pair names the role of the message sent at that place and holds its content, so the log determines the messages sent |
| OpenAiGateway.RequestOpenAi | public/chat.php:126-207 | a payload that does not encode fails first; a successful call gives a non-blank answer, and the entry it logs records that answer, the model and one pair per message sent |
| OpenAiGateway.SuccessIsExtraction | public/chat.php:126-207 | a call succeeds exactly when the payload encodes, the exchange completes with a status below 400, the body decodes to an array and holds an answer; the answer is the extracted one, never blank, and is logged with the messages sent |
| OpenAiGateway.UndecodableBeforeStatus | public/chat.php:176-183 | an undecodable body fails the same way whatever the status |
| OpenAiGateway.ErrorStatusFails | public/chat.php:185-193 | a status of 400 or more fails with the provider's message, or "Unexpected error" |
| OpenAiGateway.NoChoicesFail | public/chat.php:195-202 | a response with an empty list of choices fails with the no-answer exception |
| OpenAiGateway.FailureKinds | public/chat.php:134-202 | every failure is one of the six exceptions the function throws |
| Fallback.BuildFallbackResponse | public/chat.php:360-375 | the method's reply is the seven lines joined by newlines, from "fallback" |
| Fallback.FallbackText | public/chat.php:362-372 | the reply is the notice, the studying line, the question, the summary header, the briefing, the footer and the key hint, one per line |
| Fallback.QuotesQuestionAndContext | public/chat.php:365-368 | the question and the briefing appear verbatim, each on its own line, right after the opening lines |
| ChatEndpoint.ApiKey | public/chat.php:55 | there is no key exactly when the variable is unset, empty or "0" |
| ChatEndpoint.QuestionOf | public/chat.php:26 | the question is trimmed, and "" when it is not set |
| ChatEndpoint.RouteOf | public/chat.php:11-52 | an early exit carries 400, 404, 405 or 500; a request goes on only as a POST whose decoded body is an array holding the question, the subject and the unit |
| ChatEndpoint.HandleChat | public/chat.php:11-82 | the script answers with an error body exactly when an early exit refuses the request, and a 200 only to a POST whose payload holds the required fields |
| ChatEndpoint.Answer | public/chat.php:54-82 | after the checks the script answers 200 with an answer or 500 with the tutor-failure message; an answer not from the fallback comes from the model and is never blank |
| ChatEndpoint.ZeroBodyReadsAsEmpty | public/chat.php:17-18 | the body "0" is routed and answered exactly as an empty body; any other body is decoded as it is |
| ChatEndpoint.IdOf | public/chat.php:27-28 | a subject or unit that is not set gives "" |
| ChatEndpoint.UnitFor | public/chat.php:46 | a unit is looked up only under a subject that was found |
| ChatEndpoint.RefusalStatuses | public/chat.php:11-52 | every early exit carries 405, 400, 500 or 404, each with its own message |
| ChatEndpoint.OnlyPost | public/chat.php:11-15 | a request is refused with 405 exactly when it is not a POST |
| ChatEndpoint.BadRequests | public/chat.php:17-35 | a POST is refused with 400 exactly when the payload is not an array or lacks the trimmed question, the subject or the unit; the message tells the two apart |
| ChatEndpoint.EmptyBody | public/chat.php:17-35 | an empty body lacks the required fields |
| ChatEndpoint.OnlyQuestionTrimmed | public/chat.php:26-31 | only the question is trimmed before the required-fields check |
| ChatEndpoint.LookupFailures | public/chat.php:37-52 | content that cannot be loaded gives 500; an unknown subject or unit gives 404; otherwise the request goes on with that subject and unit |
| ChatEndpoint.AnswerCases | public/chat.php:63-82 | with an API key, the answer is a 200 carrying the answer `requestOpenAi` returns, marked "openai", exactly when the call succeeds, and a 500 carrying the tutor-failure message and the call's exception exactly when it throws |
| ChatEndpoint.FallbackWithoutKey | public/chat.php:54-61 | without an API key the answer is the fallback reply, quoting the trimmed question and the briefing |
| ChatEndpoint.ModelAnswers | public/chat.php:55-70 | a model answer is given only with an API key, and is never blank |
| ChatEndpoint.StatusCodes | public/chat.php:11-82 | the script answers 200, 400, 404, 405 or 500; a refusal is sent with its message, and a 200 only after all checks pass |

## Left out

- Floating-point JSON numbers are not modelled. Numbers are integers, and `(string)` casts print them in decimal.
- `json_decode` keeps one entry per key, the last one. The model's objects may hold repeated keys, and lookups then read the last one. Such objects never come out of the decoder, so their other entries play no part in the modelled behaviour.
- The exercises are numbered by their position in the list. For exercises given as an object with string keys, `$index + 1` is not modelled.
- `html_entity_decode` is a parameter, since its entity tables are not modelled. The `/u` white-space class is the Unicode set of spaces.
- `formatOpenAiDebugInfo` is not modelled. A failure's `cause` is the first line of the exception message only; the diagnostic block after it, the `details` member and the stack trace are left out.
- `logOpenAiPrompt` is modelled only as the entry a successful call asks to append. The timestamp, the directory creation and the file write are I/O and are left out; they never change the response.
- `json_encode`, `curl_init`, `curl_exec`, `curl_error`, `curl_getinfo`, `getenv` and `file_get_contents` are parameters. The HTTP status code is part of the modelled response, but the headers sent are not.
- `public/index.php`, `public/learn.php` and `public/assets/app.js` are not part of this model.
- ContentRepository.AppendField: the PHP `!empty($unit[key])` test and the value's construction are folded into one `Option` argument. The test is modelled by `FieldValue`, `GoalsValue` and `ExplanationValue`.
- ChatEndpoint.HandleChat: `exit` and `echo` are modelled as the single response the script returns.
