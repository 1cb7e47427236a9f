/**
 * `buildFallbackResponse` in `public/chat.php`: the canned reply given when no
 * API key is configured.  It quotes the question and the briefing verbatim
 * between fixed lines, so the learner still sees the unit's key points.
 */
module Fallback {
  import opened Json
  import opened PhpStrings
  import opened ContentRepository

  /** The two members of the JSON reply: the answer text and where it came from. */
  datatype Reply = Reply(answer: string, source: string)

  const Notice: string := "（デモ応答）OpenAI API キーが設定されていないため、教材のポイントを元にヒントを表示します。"
  const SummaryHeader: string := "--- 教材のまとめ ---"
  const SummaryFooter: string := "----------------------"
  const KeyHint: string := "環境変数 OPENAI_API_KEY にキーを設定すると、AI 家庭教師からの回答が有効になります。"

  /** The line naming what is being studied: the subject's and the unit's display names. */
  function StudyingLine(subject: Json, unit: Json): string {
    "学習中: " + DisplayName(subject) + " / " + DisplayName(unit)
  }

  /** The seven lines of the reply, in order. */
  function FallbackLines(subject: Json, unit: Json, question: string, contextText: string): seq<string> {
    [Notice, StudyingLine(subject, unit), "質問: " + question, SummaryHeader, contextText, SummaryFooter, KeyHint]
  }

  /** The reply `buildFallbackResponse` returns: the seven lines joined by newlines, from "fallback". */
  function FallbackReply(subject: Json, unit: Json, question: string, contextText: string): Reply {
    Reply(Join(FallbackLines(subject, unit, question, contextText), "\n"), "fallback")
  }

  /** `buildFallbackResponse`: appends the seven lines, joins them with newlines, and marks the reply "fallback". */
  method BuildFallbackResponse(subject: Json, unit: Json, question: string, contextText: string) returns (reply: Reply)
    requires IsArray(subject) && IsArray(unit)
    ensures reply == FallbackReply(subject, unit, question, contextText)
  {
    var lines: seq<string> := [];
    lines := lines + [Notice];
    lines := lines + [StudyingLine(subject, unit)];
    lines := lines + ["質問: " + question];
    lines := lines + [SummaryHeader];
    lines := lines + [contextText];
    lines := lines + [SummaryFooter];
    lines := lines + [KeyHint];
    assert lines == FallbackLines(subject, unit, question, contextText);
    reply := Reply(Join(lines, "\n"), "fallback");
  }

  // ----- properties -----

  /** Appending one more part appends the separator and the part. */
  lemma JoinSnoc(parts: seq<string>, sep: string, last: string)
    requires parts != []
    ensures Join(parts + [last], sep) == Join(parts, sep) + sep + last
  {
    assert (parts + [last])[..|parts|] == parts;
  }

  /** Seven parts joined are the parts with the separator between each two. */
  lemma JoinSeven(l1: string, l2: string, l3: string, l4: string, l5: string, l6: string, l7: string, sep: string)
    ensures Join([l1, l2, l3, l4, l5, l6, l7], sep)
      == l1 + sep + l2 + sep + l3 + sep + l4 + sep + l5 + sep + l6 + sep + l7
  {
    assert Join([l1], sep) == l1;
    JoinSnoc([l1], sep, l2);
    assert [l1] + [l2] == [l1, l2];
    JoinSnoc([l1, l2], sep, l3);
    assert [l1, l2] + [l3] == [l1, l2, l3];
    JoinSnoc([l1, l2, l3], sep, l4);
    assert [l1, l2, l3] + [l4] == [l1, l2, l3, l4];
    JoinSnoc([l1, l2, l3, l4], sep, l5);
    assert [l1, l2, l3, l4] + [l5] == [l1, l2, l3, l4, l5];
    JoinSnoc([l1, l2, l3, l4, l5], sep, l6);
    assert [l1, l2, l3, l4, l5] + [l6] == [l1, l2, l3, l4, l5, l6];
    JoinSnoc([l1, l2, l3, l4, l5, l6], sep, l7);
    assert [l1, l2, l3, l4, l5, l6] + [l7] == [l1, l2, l3, l4, l5, l6, l7];
  }

  /**
   * The reply is exactly the seven lines, one after another, each but the
   * last followed by a newline: the question and the briefing appear
   * verbatim, each on its own line between fixed ones.
   */
  lemma FallbackText(subject: Json, unit: Json, question: string, contextText: string)
    ensures Join(FallbackLines(subject, unit, question, contextText), "\n")
      == Notice + "\n" + StudyingLine(subject, unit) + "\n" + "質問: " + question + "\n"
         + SummaryHeader + "\n" + contextText + "\n" + SummaryFooter + "\n" + KeyHint
  {
    JoinSeven(Notice, StudyingLine(subject, unit), "質問: " + question, SummaryHeader, contextText, SummaryFooter, KeyHint, "\n");
  }

  /**
   * The question and the briefing are quoted verbatim: the reply holds the
   * question line and, after the summary header, the briefing followed by the
   * closing rule.
   */
  lemma QuotesQuestionAndContext(subject: Json, unit: Json, question: string, contextText: string)
    ensures var answer := Join(FallbackLines(subject, unit, question, contextText), "\n");
      var quoted := "\n" + ("質問: " + question) + "\n" + SummaryHeader + "\n" + contextText + "\n" + SummaryFooter + "\n";
      exists head, tail :: answer == head + quoted + tail && head == Notice + "\n" + StudyingLine(subject, unit)
  {
    var l1, l2, l3, l4, l5, l6, l7 := Notice, StudyingLine(subject, unit), "質問: " + question, SummaryHeader, contextText, SummaryFooter, KeyHint;
    JoinSeven(l1, l2, l3, l4, l5, l6, l7, "\n");
    Regroup(l1, l2, l3, l4, l5, l6, l7, "\n");
  }

  /** Seven parts with separators, grouped as the first two, the middle five with their separators, and the last. */
  lemma Regroup(l1: string, l2: string, l3: string, l4: string, l5: string, l6: string, l7: string, sep: string)
    ensures l1 + sep + l2 + sep + l3 + sep + l4 + sep + l5 + sep + l6 + sep + l7
      == (l1 + sep + l2) + (sep + l3 + sep + l4 + sep + l5 + sep + l6 + sep) + l7
  {
  }
}
