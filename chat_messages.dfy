/**
 * `buildChatMessages` in `public/chat.php`: the conversation sent to the chat
 * model, made of a system prompt that embeds the briefing, the usable turns
 * of the client's history in their order, and the learner's question.
 */
module ChatMessages {
  import opened Wrappers
  import opened Json
  import opened PhpStrings

  datatype Role = System | User | Assistant

  datatype ChatMessage = ChatMessage(role: Role, content: string)

  /** The tutor's instructions, then the briefing between two "---" lines. */
  function SystemPrompt(contextText: string): (r: string)
    ensures |Instructions()| + 5 + |contextText| + 4 == |r|
    ensures r[|Instructions()| + 5..|Instructions()| + 5 + |contextText|] == contextText
  {
    var r := Instructions() + "\n---\n" + contextText + "\n---";
    assert r[|Instructions()| + 5..|Instructions()| + 5 + |contextText|] == contextText;
    r
  }

  /** The three fixed sentences of the system prompt. */
  function Instructions(): string {
    "あなたは小学生・中学生を優しくサポートする家庭教師です。"
    + "生徒の理解度に合わせて丁寧に日本語で説明し、必要に応じて例やステップを示してください。"
    + "以下は現在取り組んでいる教材情報です。回答の際は必ずこの情報を踏まえてください。"
  }

  /**
   * One history entry as the loop treats it: skipped unless it is an array
   * whose trimmed content is not empty and whose role is exactly the string
   * "user" or "assistant"; kept with the trimmed content otherwise.
   */
  function ToMessage(entry: Json): (r: Option<ChatMessage>)
    ensures r.Some? ==> IsArray(entry) && r.value.role != System
    ensures r.Some? ==> r.value.content != [] && Trimmed(r.value.content)
  {
    if !IsArray(entry) then None
    else
      var role := TurnRole(GetOr(entry, "role", JStr("")));
      var content := TurnContent(entry);
      if content == [] || role.None? then None
      else Some(ChatMessage(role.value, content))
  }

  /** The role a history turn may carry: exactly the string "user" or "assistant". */
  function TurnRole(role: Json): (r: Option<Role>)
    ensures r.Some? <==> role == JStr("user") || role == JStr("assistant")
    ensures r.Some? ==> r.value != System
  {
    if role == JStr("user") then Some(User)
    else if role == JStr("assistant") then Some(Assistant)
    else None
  }

  /** `trim((string)($message['content'] ?? ''))`. */
  function TurnContent(entry: Json): (r: string)
    ensures Trimmed(r)
  {
    TrimmedIsFixed(ToPhpString(GetOr(entry, "content", JStr(""))));
    Trim(ToPhpString(GetOr(entry, "content", JStr(""))))
  }

  /** The messages the history loop keeps, in the order of `entries`. */
  function Accepted(entries: seq<Json>): seq<ChatMessage> {
    Collect(entries, ToMessage)
  }

  /** The values `f` gives for the elements of `xs`, in order, where it gives one. */
  function Collect<T, U>(xs: seq<T>, f: T -> Option<U>): (r: seq<U>)
    ensures |r| <= |xs|
    decreases |xs|
  {
    if xs == [] then []
    else
      var n := |xs|;
      Collect(xs[..n - 1], f) + (if f(xs[n - 1]).Some? then [f(xs[n - 1]).value] else [])
  }

  /** `foreach ($history as $message)` visits nothing unless `history` is an array. */
  function HistoryEntries(history: Json): seq<Json> {
    if IsArray(history) then Elements(history) else []
  }

  /** What `buildChatMessages` returns. */
  function ChatMessagesFor(contextText: string, history: Json, question: string): seq<ChatMessage> {
    [ChatMessage(System, SystemPrompt(contextText))]
    + Accepted(HistoryEntries(history))
    + [ChatMessage(User, question)]
  }

  /** `buildChatMessages`: the system prompt, the kept history turns, the question. */
  method BuildChatMessages(contextText: string, history: Json, question: string) returns (messages: seq<ChatMessage>)
    ensures messages == ChatMessagesFor(contextText, history, question)
  {
    messages := [ChatMessage(System, SystemPrompt(contextText))];
    if IsArray(history) {
      messages := AppendTurns(messages, Elements(history));
    }
    messages := messages + [ChatMessage(User, question)];
  }

  /** The `foreach` over the history: appends the turn of every entry the loop keeps. */
  method AppendTurns(head: seq<ChatMessage>, entries: seq<Json>) returns (messages: seq<ChatMessage>)
    ensures messages == head + Accepted(entries)
  {
    messages := head;
    var i := 0;
    while i < |entries|
      invariant 0 <= i <= |entries|
      invariant messages == head + Accepted(entries[..i])
    {
      var entry := entries[i];
      CollectStep(entries, i, ToMessage);
      if IsArray(entry) {
        var role := GetOr(entry, "role", JStr(""));
        var content := Trim(ToPhpString(GetOr(entry, "content", JStr(""))));
        if content != [] && (role == JStr("user") || role == JStr("assistant")) {
          messages := messages + [ChatMessage(if role == JStr("user") then User else Assistant, content)];
        }
      }
      i := i + 1;
    }
    assert entries[..i] == entries;
  }


  // ----- properties -----

  /** Collecting over `a + b` collects over `a`, then over `b`. */
  lemma {:induction false} CollectAppend<T, U>(a: seq<T>, b: seq<T>, f: T -> Option<U>)
    ensures Collect(a + b, f) == Collect(a, f) + Collect(b, f)
    decreases |b|
  {
    if b == [] {
      assert a + b == a;
    } else {
      var n := |b|;
      CollectAppend(a, b[..n - 1], f);
      assert (a + b)[..|a + b| - 1] == a + b[..n - 1];
    }
  }

  lemma CollectOne<T, U>(x: T, f: T -> Option<U>)
    ensures Collect([x], f) == if f(x).Some? then [f(x).value] else []
  {
    assert [x][..0] == [];
  }

  /** One more element adds what `f` gives for it, if anything. */
  lemma CollectStep<T, U>(xs: seq<T>, i: nat, f: T -> Option<U>)
    requires i < |xs|
    ensures Collect(xs[..i + 1], f)
      == Collect(xs[..i], f) + (if f(xs[i]).Some? then [f(xs[i]).value] else [])
  {
    assert xs[..i + 1][..i] == xs[..i];
  }

  /** Every collected value is what `f` gives for some element. */
  lemma {:induction false} CollectFrom<T, U>(xs: seq<T>, f: T -> Option<U>)
    ensures forall y | y in Collect(xs, f) :: exists x | x in xs :: f(x) == Some(y)
    decreases |xs|
  {
    if xs != [] {
      var n := |xs|;
      var front := xs[..n - 1];
      CollectFrom(front, f);
      forall y | y in Collect(xs, f)
        ensures exists x | x in xs :: f(x) == Some(y)
      {
        if y in Collect(front, f) {
          var x :| x in front && f(x) == Some(y);
          assert x in xs;
        } else {
          assert xs[n - 1] in xs;
        }
      }
    }
  }

  /** An element `f` gives a value for contributes it, right after what the elements before it contribute. */
  lemma CollectKeeps<T, U>(xs: seq<T>, i: nat, f: T -> Option<U>)
    requires i < |xs| && f(xs[i]).Some?
    ensures var k := |Collect(xs[..i], f)|;
      k < |Collect(xs, f)| && Collect(xs, f)[k] == f(xs[i]).value
  {
    assert xs == xs[..i] + ([xs[i]] + xs[i + 1..]);
    CollectAppend(xs[..i], [xs[i]] + xs[i + 1..], f);
    CollectAppend([xs[i]], xs[i + 1..], f);
    assert [xs[i]][..0] == [];
  }

  /** The positions of the elements `f` gives a value for, in increasing order. */
  ghost function KeptIndices<T, U>(xs: seq<T>, f: T -> Option<U>): seq<nat>
    decreases |xs|
  {
    if xs == [] then []
    else
      var n := |xs|;
      KeptIndices(xs[..n - 1], f) + (if f(xs[n - 1]).Some? then [n - 1] else [])
  }

  /** The collected values are, one for one and in order, what `f` gives for the elements at `KeptIndices`. */
  lemma {:induction false} KeptIndicesValues<T, U>(xs: seq<T>, f: T -> Option<U>)
    ensures var idx := KeptIndices(xs, f);
      && |idx| == |Collect(xs, f)|
      && forall k :: 0 <= k < |idx| ==> idx[k] < |xs| && f(xs[idx[k]]) == Some(Collect(xs, f)[k])
    decreases |xs|
  {
    if xs != [] {
      var n := |xs|;
      var front := xs[..n - 1];
      KeptIndicesValues(front, f);
      var idx0, idx := KeptIndices(front, f), KeptIndices(xs, f);
      var c0, c := Collect(front, f), Collect(xs, f);
      forall k | 0 <= k < |idx|
        ensures idx[k] < |xs| && f(xs[idx[k]]) == Some(c[k])
      {
        if k < |idx0| {
          assert idx[k] == idx0[k] && c[k] == c0[k] && xs[idx0[k]] == front[idx0[k]];
        }
      }
    }
  }

  /** `KeptIndices` are positions of `xs`, in strictly increasing order. */
  lemma {:induction false} KeptIndicesIncrease<T, U>(xs: seq<T>, f: T -> Option<U>)
    ensures forall k :: 0 <= k < |KeptIndices(xs, f)| ==> KeptIndices(xs, f)[k] < |xs|
    ensures forall k, l :: 0 <= k < l < |KeptIndices(xs, f)| ==> KeptIndices(xs, f)[k] < KeptIndices(xs, f)[l]
    decreases |xs|
  {
    if xs != [] {
      var n := |xs|;
      KeptIndicesIncrease(xs[..n - 1], f);
    }
  }

  /** Every element `f` gives a value for has its position among `KeptIndices`. */
  lemma {:induction false} KeptIndicesCover<T, U>(xs: seq<T>, f: T -> Option<U>)
    ensures forall i :: 0 <= i < |xs| && f(xs[i]).Some? ==> i in KeptIndices(xs, f)
    decreases |xs|
  {
    if xs != [] {
      var n := |xs|;
      var front := xs[..n - 1];
      KeptIndicesCover(front, f);
      forall i | 0 <= i < |xs| && f(xs[i]).Some?
        ensures i in KeptIndices(xs, f)
      {
        if i < n - 1 {
          assert front[i] == xs[i];
          assert i in KeptIndices(front, f);
        }
      }
    }
  }

  /**
   * The kept turns are, one for one and in order, the turns of the entries at
   * `KeptIndices`: each comes from its own entry, as its trimmed content under
   * a user or assistant role, no entry gives two turns, and every entry the
   * loop accepts gives one.
   */
  lemma AcceptedFromEntries(entries: seq<Json>)
    ensures |Accepted(entries)| <= |entries|
    ensures forall m | m in Accepted(entries) :: exists e | e in entries :: ToMessage(e) == Some(m)
    ensures var idx := KeptIndices(entries, ToMessage);
      && |idx| == |Accepted(entries)|
      && (forall k :: 0 <= k < |idx| ==> idx[k] < |entries| && ToMessage(entries[idx[k]]) == Some(Accepted(entries)[k]))
      && (forall k, l :: 0 <= k < l < |idx| ==> idx[k] < idx[l])
      && (forall i :: 0 <= i < |entries| && ToMessage(entries[i]).Some? ==> i in idx)
  {
    CollectFrom(entries, ToMessage);
    KeptIndicesValues(entries, ToMessage);
    KeptIndicesIncrease(entries, ToMessage);
    KeptIndicesCover(entries, ToMessage);
  }

  /** An entry the loop accepts is kept, in its place: right after the turns kept from the entries before it. */
  lemma AcceptedKeepsEntry(entries: seq<Json>, i: nat)
    requires i < |entries| && ToMessage(entries[i]).Some?
    ensures var k := |Accepted(entries[..i])|;
      k < |Accepted(entries)| && Accepted(entries)[k] == ToMessage(entries[i]).value
  {
    CollectKeeps(entries, i, ToMessage);
  }

  /**
   * The conversation always opens with the system prompt that embeds the
   * briefing and closes with the question, verbatim; every turn between them
   * is a user or assistant turn with trimmed, non-empty content.
   */
  lemma ChatMessagesShape(contextText: string, history: Json, question: string)
    ensures var r := ChatMessagesFor(contextText, history, question);
      && |r| >= 2
      && r[0] == ChatMessage(System, SystemPrompt(contextText))
      && r[|r| - 1] == ChatMessage(User, question)
      && forall i :: 1 <= i < |r| - 1 ==>
           r[i].role != System && r[i].content != [] && Trimmed(r[i].content)
  {
    var entries := HistoryEntries(history);
    var middle := Accepted(entries);
    CollectFrom(entries, ToMessage);
    var r := ChatMessagesFor(contextText, history, question);
    forall i | 1 <= i < |r| - 1
      ensures r[i].role != System && r[i].content != [] && Trimmed(r[i].content)
    {
      assert r[i] == middle[i - 1];
      assert middle[i - 1] in middle;
      var e :| e in entries && ToMessage(e) == Some(r[i]);
    }
  }

  /** A history that is not an array, or is empty, leaves just the system prompt and the question. */
  lemma NoHistory(contextText: string, history: Json, question: string)
    requires !IsArray(history) || Elements(history) == []
    ensures ChatMessagesFor(contextText, history, question)
      == [ChatMessage(System, SystemPrompt(contextText)), ChatMessage(User, question)]
  {
  }

  /** A history turn whose role is "system" is never passed on: the system prompt cannot be replaced. */
  lemma OnlyOneSystemMessage(contextText: string, history: Json, question: string)
    ensures var r := ChatMessagesFor(contextText, history, question);
      forall i :: 0 < i < |r| ==> r[i].role != System
  {
    ChatMessagesShape(contextText, history, question);
  }

  /**
   * A history entry gives a turn exactly when it is an array whose role is
   * the string "user" or "assistant" and whose content, cast and trimmed, is
   * not empty; the turn then carries that role and that trimmed content.
   */
  lemma ToMessageCases(entry: Json)
    ensures var role := GetOr(entry, "role", JStr(""));
      var content := Trim(ToPhpString(GetOr(entry, "content", JStr(""))));
      ToMessage(entry).Some? <==>
        IsArray(entry) && (role == JStr("user") || role == JStr("assistant")) && content != []
    ensures var role := GetOr(entry, "role", JStr(""));
      ToMessage(entry).Some? ==>
        && ToMessage(entry).value.content == Trim(ToPhpString(GetOr(entry, "content", JStr(""))))
        && (ToMessage(entry).value.role == User <==> role == JStr("user"))
        && (ToMessage(entry).value.role == Assistant <==> role == JStr("assistant"))
  {
  }

  /** A history entry with a string role and a string content. */
  function Turn(role: string, content: string): Json {
    JObj([("role", JStr(role)), ("content", JStr(content))])
  }

  /**
   * The history `[user: a, system: x, assistant: "", assistant: b]` with the
   * question q gives `[system prompt, user: a, assistant: b, user: q]`: the
   * injected "system" entry and the entry with empty content are dropped, the
   * other turns keep their roles and their order.
   */
  lemma HistoryExample(contextText: string, a: string, x: string, b: string, question: string)
    requires a != [] && Trimmed(a) && b != [] && Trimmed(b)
    ensures ChatMessagesFor(contextText,
        JArr([Turn("user", a), Turn("system", x), Turn("assistant", ""), Turn("assistant", b)]), question)
      == [ChatMessage(System, SystemPrompt(contextText)), ChatMessage(User, a),
          ChatMessage(Assistant, b), ChatMessage(User, question)]
  {
    ExampleTurns(a, x, b);
  }

  lemma ExampleTurns(a: string, x: string, b: string)
    requires a != [] && Trimmed(a) && b != [] && Trimmed(b)
    ensures Accepted([Turn("user", a), Turn("system", x), Turn("assistant", ""), Turn("assistant", b)])
      == [ChatMessage(User, a), ChatMessage(Assistant, b)]
  {
    KeptTurn("user", a);
    DroppedRole("system", x);
    DroppedEmpty("assistant");
    KeptTurn("assistant", b);
    CollectFirstAndLast(Turn("user", a), Turn("system", x), Turn("assistant", ""), Turn("assistant", b), ToMessage);
  }

  /** Of four elements whose middle two give nothing, collecting keeps what the first and the last give. */
  lemma CollectFirstAndLast<T, U>(w: T, x: T, y: T, z: T, f: T -> Option<U>)
    requires f(w).Some? && f(x).None? && f(y).None? && f(z).Some?
    ensures Collect([w, x, y, z], f) == [f(w).value, f(z).value]
  {
    CollectOne(w, f);
    CollectOne(x, f);
    CollectOne(y, f);
    CollectOne(z, f);
    CollectFour(w, x, y, z, f);
  }

  lemma CollectFour<T, U>(w: T, x: T, y: T, z: T, f: T -> Option<U>)
    ensures Collect([w, x, y, z], f) == Collect([w], f) + Collect([x], f) + Collect([y], f) + Collect([z], f)
  {
    CollectAppend([w], [x], f);
    assert [w] + [x] == [w, x];
    CollectAppend([w, x], [y], f);
    assert [w, x] + [y] == [w, x, y];
    CollectAppend([w, x, y], [z], f);
    assert [w, x, y] + [z] == [w, x, y, z];
  }

  /** What the loop reads from a turn built by `Turn`. */
  lemma TurnFields(role: string, content: string)
    ensures GetOr(Turn(role, content), "role", JStr("")) == JStr(role)
    ensures GetOr(Turn(role, content), "content", JStr("")) == JStr(content)
  {
    var fields := [("role", JStr(role)), ("content", JStr(content))];
    assert Lookup(fields, "content") == Some(JStr(content));
    assert Lookup(fields, "role") == Some(JStr(role)) by {
      assert fields[..1] == [("role", JStr(role))];
      assert "content" != "role";
    }
  }

  lemma KeptTurn(role: string, content: string)
    requires role == "user" || role == "assistant"
    requires content != [] && Trimmed(content)
    ensures ToMessage(Turn(role, content)) == Some(ChatMessage(if role == "user" then User else Assistant, content))
  {
    TurnFields(role, content);
    TrimmedIsFixed(content);
  }

  lemma DroppedRole(role: string, content: string)
    requires role != "user" && role != "assistant"
    ensures ToMessage(Turn(role, content)).None?
  {
    TurnFields(role, content);
  }

  lemma DroppedEmpty(role: string)
    ensures ToMessage(Turn(role, "")).None?
  {
    TurnFields(role, "");
    TrimmedIsFixed("");
  }
}
