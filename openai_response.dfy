/**
 * `extractOpenAiAnswer` and `normalizeOpenAiContent` in `public/chat.php`:
 * reading the tutor's answer out of a decoded chat-completion response.
 *
 * A message's `content` is either a string or a list of parts; a part is a
 * string, an array with a string `text`, or an array whose `content` is again
 * content of either form.  The parts' texts are concatenated.  A choice whose
 * content gives no text may still carry a `refusal`, which is returned trimmed.
 */
module OpenAiResponse {
  import opened Wrappers
  import opened Json
  import opened PhpStrings

  // ----- the specification -----

  /**
   * `normalizeOpenAiContent`: a string that is not blank is returned as it
   * is, untrimmed; an array gives the concatenation of its parts' texts when
   * there is at least one part and the concatenation is not blank; anything
   * else gives nothing.
   */
  function NormalizeContent(content: Json): (r: Option<string>)
    ensures r.Some? ==> !IsBlank(r.value)
    decreases content, 1, 0
  {
    match content
    case JStr(s) => if IsBlank(s) then None else Some(s)
    case JArr(_) => JoinedParts(content)
    case JObj(_) => JoinedParts(content)
    case _ => None
  }

  /** The tail of `normalizeOpenAiContent` for an array: `implode('', $parts)`, unless empty or blank. */
  function JoinedParts(content: Json): (r: Option<string>)
    requires IsArray(content)
    ensures r.Some? ==> !IsBlank(r.value)
    decreases content, 0, |Elements(content)| + 1
  {
    var parts := PartsIn(content, |Elements(content)|);
    if parts == [] then None
    else
      var joined := Join(parts, "");
      if IsBlank(joined) then None else Some(joined)
  }

  /** The texts `$parts` holds after the loop has visited the first `n` elements of `content`. */
  function PartsIn(content: Json, n: nat): (r: seq<string>)
    requires n <= |Elements(content)|
    ensures |r| <= n
    decreases content, 0, n
  {
    if n == 0 then []
    else
      var part := Elements(content)[n - 1];
      PartsIn(content, n - 1) + (match PartText(part) case Some(t) => [t] case None => [])
  }

  /**
   * What one element of the content contributes: a string itself; for an
   * array, its `text` when that is a string, else the normalized text of its
   * `content` when that is set and gives one; nothing otherwise.
   */
  function PartText(part: Json): Option<string>
    decreases part, 2, 0
  {
    if part.JStr? then Some(part.s)
    else if !IsArray(part) then None
    else
      var text := Get(part, "text");
      if text.Some? && text.value.JStr? then Some(text.value.s)
      else match Get(part, "content")
        case Some(nested) => NormalizeContent(nested)
        case None => None
  }

  /**
   * The answer one choice gives: the normalized text of `message.content`,
   * else `message.refusal` trimmed, when that is a string that is not blank.
   * Nothing for a choice or message that is not an array.
   */
  function ChoiceAnswer(choice: Json): (r: Option<string>)
    ensures r.Some? ==> !IsBlank(r.value)
  {
    if !IsArray(choice) then None
    else
      var message := GetOr(choice, "message", JNull);
      if !IsArray(message) then None
      else match NormalizeContent(GetOr(message, "content", JNull))
        case Some(text) => Some(text)
        case None => RefusalText(message)
  }

  /** `trim($message['refusal'])` when it is a string that trims to something. */
  function RefusalText(message: Json): (r: Option<string>)
    ensures r.Some? ==> Trimmed(r.value) && !IsBlank(r.value)
  {
    var refusal := Get(message, "refusal");
    TrimmedIsFixed(if refusal.Some? && refusal.value.JStr? then refusal.value.s else "");
    if refusal.Some? && refusal.value.JStr? && Trim(refusal.value.s) != [] then Some(Trim(refusal.value.s))
    else None
  }

  /** The answer of the first choice, in list order, that gives one. */
  function FirstAnswer(choices: seq<Json>): (r: Option<string>)
    ensures r.Some? ==> !IsBlank(r.value)
    decreases |choices|
  {
    if choices == [] then None
    else if ChoiceAnswer(choices[0]).Some? then ChoiceAnswer(choices[0])
    else FirstAnswer(choices[1..])
  }

  /** `extractOpenAiAnswer`: nothing unless `choices` is set to an array; else the first choice's answer. */
  function ExtractAnswer(response: Json): (r: Option<string>)
    ensures r.Some? ==> !IsBlank(r.value)
  {
    match Get(response, "choices")
    case Some(choices) => if IsArray(choices) then FirstAnswer(Elements(choices)) else None
    case None => None
  }

  // ----- the PHP functions, as they run -----

  /** `normalizeOpenAiContent`, with its `foreach` over the parts and its recursive call. */
  method NormalizeOpenAiContent(content: Json) returns (r: Option<string>)
    ensures r == NormalizeContent(content)
    decreases content
  {
    if content.JStr? {
      return if Trim(content.s) == [] then None else Some(content.s);
    }
    if !IsArray(content) {
      return None;
    }
    var items := Elements(content);
    var parts: seq<string> := [];
    var i := 0;
    while i < |items|
      invariant 0 <= i <= |items|
      invariant parts == PartsIn(content, i)
    {
      var part := items[i];
      if part.JStr? {
        parts := parts + [part.s];
      } else if IsArray(part) {
        var text := Get(part, "text");
        if text.Some? && text.value.JStr? {
          parts := parts + [text.value.s];
        } else {
          var nestedContent := Get(part, "content");
          if nestedContent.Some? {
            var nested := NormalizeOpenAiContent(nestedContent.value);
            if nested.Some? {
              parts := parts + [nested.value];
            }
          }
        }
      }
      i := i + 1;
    }
    if parts == [] {
      return None;
    }
    var joined := Join(parts, "");
    return if Trim(joined) == [] then None else Some(joined);
  }

  /** `extractOpenAiAnswer`: returns at the first choice that gives an answer. */
  method ExtractOpenAiAnswer(response: Json) returns (r: Option<string>)
    requires IsArray(response)
    ensures r == ExtractAnswer(response)
  {
    var choices := Get(response, "choices");
    if choices.None? || !IsArray(choices.value) {
      return None;
    }
    var items := Elements(choices.value);
    var i := 0;
    while i < |items|
      invariant 0 <= i <= |items|
      invariant FirstAnswer(items) == FirstAnswer(items[i..])
    {
      var choice := items[i];
      assert items[i..][1..] == items[i + 1..];
      if IsArray(choice) {
        var message := GetOr(choice, "message", JNull);
        if IsArray(message) {
          var text := NormalizeOpenAiContent(GetOr(message, "content", JNull));
          if text.Some? {
            return text;
          }
          var refusal := Get(message, "refusal");
          if refusal.Some? && refusal.value.JStr? {
            var trimmed := Trim(refusal.value.s);
            if trimmed != [] {
              return Some(trimmed);
            }
          }
        }
      }
      i := i + 1;
    }
    return None;
  }

  // ----- properties -----

  /**
   * The answer is the first choice's answer, in list order: some choice gives
   * it and every choice before that gives none; and there is no answer
   * exactly when no choice gives one.
   */
  lemma {:induction false} FirstAnswerIsFirst(choices: seq<Json>)
    ensures FirstAnswer(choices).None? <==> forall i :: 0 <= i < |choices| ==> ChoiceAnswer(choices[i]).None?
    ensures FirstAnswer(choices).Some? ==>
      exists i :: 0 <= i < |choices| && FirstAnswer(choices) == ChoiceAnswer(choices[i])
        && forall j :: 0 <= j < i ==> ChoiceAnswer(choices[j]).None?
    decreases |choices|
  {
    if choices != [] && ChoiceAnswer(choices[0]).None? {
      var rest := choices[1..];
      FirstAnswerIsFirst(rest);
      if FirstAnswer(rest).Some? {
        var i :| 0 <= i < |rest| && FirstAnswer(rest) == ChoiceAnswer(rest[i])
          && forall j :: 0 <= j < i ==> ChoiceAnswer(rest[j]).None?;
        assert choices[i + 1] == rest[i];
        assert forall j :: 0 <= j < i + 1 ==> ChoiceAnswer(choices[j]).None? by {
          forall j | 0 <= j < i + 1
            ensures ChoiceAnswer(choices[j]).None?
          {
            if j > 0 {
              assert choices[j] == rest[j - 1];
            }
          }
        }
      } else {
        forall i | 0 <= i < |choices|
          ensures ChoiceAnswer(choices[i]).None?
        {
          if i > 0 {
            assert choices[i] == rest[i - 1];
          }
        }
      }
    }
  }

  /** The text the loop of `normalizeOpenAiContent` concatenates for a list of parts. */
  function PartsText(items: seq<Json>): string {
    Join(PartsIn(JArr(items), |items|), "")
  }

  /** The parts of the list `a + b` are the parts of `a`, then those of `b`. */
  lemma {:induction false} PartsOfConcat(a: seq<Json>, b: seq<Json>, n: nat)
    requires n <= |b|
    ensures PartsIn(JArr(a + b), |a| + n) == PartsIn(JArr(a), |a|) + PartsIn(JArr(b), n)
    decreases n
  {
    if n == 0 {
      PartsOfPrefix(a, b, |a|);
    } else {
      PartsOfConcat(a, b, n - 1);
      assert (a + b)[|a| + n - 1] == b[n - 1];
    }
  }

  /** Within `a`, the loop over `a + b` has met only the elements of `a`. */
  lemma {:induction false} PartsOfPrefix(a: seq<Json>, b: seq<Json>, n: nat)
    requires n <= |a|
    ensures PartsIn(JArr(a + b), n) == PartsIn(JArr(a), n)
    decreases n
  {
    if n > 0 {
      PartsOfPrefix(a, b, n - 1);
      assert (a + b)[n - 1] == a[n - 1];
    }
  }

  /** Splitting a list of parts in two splits the concatenated text in two, at the same place. */
  lemma PartsTextOfConcat(a: seq<Json>, b: seq<Json>)
    ensures PartsText(a + b) == PartsText(a) + PartsText(b)
  {
    var pa := PartsIn(JArr(a), |a|);
    var pb := PartsIn(JArr(b), |b|);
    PartsOfConcat(a, b, |b|);
    assert PartsIn(JArr(a + b), |a + b|) == pa + pb;
    JoinWithoutSeparator(pa, pb);
  }

  /**
   * A list holding one part whose `content` is `nested` reads exactly as
   * `nested` itself: wrapping content in a part changes nothing.
   */
  lemma WrappingIsTransparent(nested: Json)
    ensures NormalizeContent(JArr([JObj([("content", nested)])])) == NormalizeContent(nested)
  {
    var part := JObj([("content", nested)]);
    var wrapped := JArr([part]);
    NestedPartText(nested);
    assert Elements(wrapped) == [part];
    assert PartsIn(wrapped, 0) == [];
    var parts := PartsIn(wrapped, 1);
    var inner := NormalizeContent(nested);
    if inner.Some? {
      assert parts == [inner.value];
      assert Join(parts, "") == inner.value;
    } else {
      assert parts == [];
    }
  }

  /** A part whose only member is `content` contributes the normalized text of that content. */
  lemma NestedPartText(nested: Json)
    ensures PartText(JObj([("content", nested)])) == NormalizeContent(nested)
  {
    var fields := [("content", nested)];
    assert Lookup(fields, "text").None? by {
      assert "content" != "text";
    }
    assert Lookup(fields, "content") == Some(nested);
    if nested == JNull {
      assert Get(JObj(fields), "content").None?;
    } else {
      assert Get(JObj(fields), "content") == Some(nested);
    }
  }

  /**
   * A refusal is reported, trimmed, only when the message's content gives no
   * text; a choice that has both gives its content.
   */
  lemma RefusalOnlyWithoutContent(message: Json, refusal: string)
    requires IsArray(message) && Trim(refusal) != []
    requires Get(message, "refusal") == Some(JStr(refusal))
    ensures var answer := ChoiceAnswer(JObj([("message", message)]));
      answer == (if NormalizeContent(GetOr(message, "content", JNull)).Some?
                 then NormalizeContent(GetOr(message, "content", JNull))
                 else Some(Trim(refusal)))
  {
    var fields := [("message", message)];
    assert Lookup(fields, "message") == Some(message);
  }

  /**
   * The usual shape of a response: one choice whose message holds a list with
   * one typed text part.  Its text is the answer, as it is, untrimmed.
   */
  lemma TypedTextPartAnswer(text: string)
    requires !IsBlank(text)
    ensures ExtractAnswer(JObj([("choices", JArr([
      JObj([("message", JObj([
        ("role", JStr("assistant")),
        ("content", JArr([JObj([("type", JStr("text")), ("text", JStr(text))])]))]))])]))]))
      == Some(text)
  {
    var content := JArr([JObj([("type", JStr("text")), ("text", JStr(text))])]);
    TypedTextContent(text);
    var message := JObj([("role", JStr("assistant")), ("content", content)]);
    assert Lookup(message.fields, "content") == Some(content);
    assert GetOr(message, "content", JNull) == content;
    var choice := JObj([("message", message)]);
    assert Lookup(choice.fields, "message") == Some(message);
    assert GetOr(choice, "message", JNull) == message;
    ContentAnswer(choice, message, text);
    var response := JObj([("choices", JArr([choice]))]);
    assert Lookup(response.fields, "choices") == Some(JArr([choice]));
    assert FirstAnswer([choice]) == Some(text);
  }

  /** A list with one typed text part reads as that text. */
  lemma TypedTextContent(text: string)
    requires !IsBlank(text)
    ensures NormalizeContent(JArr([JObj([("type", JStr("text")), ("text", JStr(text))])])) == Some(text)
  {
    var part := JObj([("type", JStr("text")), ("text", JStr(text))]);
    TypedPartText(text);
    var content := JArr([part]);
    assert Elements(content)[0] == part;
    assert PartsIn(content, 0) == [];
    assert PartsIn(content, 1) == [text];
    assert Join([text], "") == text;
  }

  /** A typed part with a string `text` contributes that text, whatever else it holds. */
  lemma TypedPartText(text: string)
    ensures PartText(JObj([("type", JStr("text")), ("text", JStr(text))])) == Some(text)
  {
    var fields := [("type", JStr("text")), ("text", JStr(text))];
    assert Lookup(fields, "text") == Some(JStr(text));
    assert Get(JObj(fields), "text") == Some(JStr(text));
  }

  /** A choice whose message's content gives a text answers with that text. */
  lemma ContentAnswer(choice: Json, message: Json, text: string)
    requires IsArray(choice) && GetOr(choice, "message", JNull) == message && IsArray(message)
    requires NormalizeContent(GetOr(message, "content", JNull)) == Some(text)
    ensures ChoiceAnswer(choice) == Some(text)
  {
  }

  /** A response with one choice carrying `message`. */
  function OneChoice(message: Json): Json {
    JObj([("choices", JArr([JObj([("message", message)])]))])
  }

  /** A response with a single choice answers what that choice answers. */
  lemma OneChoiceAnswer(message: Json)
    ensures ExtractAnswer(OneChoice(message)) == ChoiceAnswer(JObj([("message", message)]))
  {
    var choice := JObj([("message", message)]);
    assert Lookup(OneChoice(message).fields, "choices") == Some(JArr([choice]));
    assert Elements(JArr([choice])) == [choice];
    assert FirstAnswer([choice][1..]) == None;
  }

  /**
   * The parts `{text: t}` and `{content: c}` read as `t + c`: a `text` is
   * taken as it is, a nested `content` is normalized, and the two are joined
   * with nothing between them ("foo" and "bar" give "foobar").
   */
  lemma TextAndContentParts(t: string, c: string)
    requires !IsBlank(c)
    ensures ExtractAnswer(OneChoice(JObj([("content",
      JArr([JObj([("text", JStr(t))]), JObj([("content", JStr(c))])]))])))
      == Some(t + c)
  {
    var parts := JArr([JObj([("text", JStr(t))]), JObj([("content", JStr(c))])]);
    TwoParts(t, c);
    var message := JObj([("content", parts)]);
    assert Lookup(message.fields, "content") == Some(parts);
    var choice := JObj([("message", message)]);
    assert Lookup(choice.fields, "message") == Some(message);
    ContentAnswer(choice, message, t + c);
    OneChoiceAnswer(message);
  }

  lemma TwoParts(t: string, c: string)
    requires !IsBlank(c)
    ensures NormalizeContent(JArr([JObj([("text", JStr(t))]), JObj([("content", JStr(c))])])) == Some(t + c)
  {
    var first := JObj([("text", JStr(t))]);
    var second := JObj([("content", JStr(c))]);
    var content := JArr([first, second]);
    assert Lookup(first.fields, "text") == Some(JStr(t));
    assert PartText(first) == Some(t);
    NestedPartText(JStr(c));
    assert PartText(second) == Some(c);
    assert Elements(content) == [first, second];
    assert PartsIn(content, 0) == [];
    assert PartsIn(content, 1) == [t];
    assert PartsIn(content, 2) == [t, c];
    assert Join([t, c], "") == t + c by {
      assert [t, c][..1] == [t];
    }
    BlankSuffix(t, c);
  }

  /** Text that ends with something not blank is not blank. */
  lemma BlankSuffix(t: string, c: string)
    requires !IsBlank(c)
    ensures !IsBlank(t + c)
  {
    TrimShape(c);
    TrimShape(t + c);
    var i :| 0 <= i < |c| && !IsTrimChar(c[i]);
    assert (t + c)[|t| + i] == c[i];
  }

  /** A message with only a `refusal` answers with the refusal, trimmed ("cannot help"). */
  lemma RefusalAnswer(refusal: string)
    requires Trim(refusal) != []
    ensures ExtractAnswer(OneChoice(JObj([("refusal", JStr(refusal))])))
      == Some(Trim(refusal))
  {
    var message := JObj([("refusal", JStr(refusal))]);
    assert Lookup(message.fields, "refusal") == Some(JStr(refusal));
    assert Lookup(message.fields, "content").None? by {
      assert "refusal" != "content";
    }
    RefusalOnlyWithoutContent(message, refusal);
    OneChoiceAnswer(message);
  }

  /** An empty list of choices gives no answer. */
  lemma NoChoicesNoAnswer()
    ensures ExtractAnswer(JObj([("choices", JArr([]))])) == None
  {
    assert Lookup([("choices", JArr([]))], "choices") == Some(JArr([]));
  }
}
