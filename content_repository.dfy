/**
 * `PersonalTutor\ContentRepository`: the read-only store of subjects and their
 * units, loaded from a JSON file, with first-match lookups by id and the
 * plain-text briefing built from one subject and one unit.
 *
 * The repository's only field, `data`, is assigned once by the constructor and
 * never changed afterwards, so the repository is modelled as a value.
 */
module ContentRepository {
  import opened Wrappers
  import opened Json
  import opened PhpStrings
  import HtmlText

  /** What reading the content file gives: `is_file` fails, `file_get_contents` fails, or the file's text. */
  datatype ContentFile = NoFile | Unreadable | FileText(text: string)

  /** The three `RuntimeException`s the constructor throws. */
  datatype LoadError = FileNotFound(path: string) | FileUnreadable | MalformedData

  /** The decoded data is an array holding an array under `subjects`. */
  predicate WellFormedData(decoded: Json) {
    IsArray(decoded) && Get(decoded, "subjects").Some? && IsArray(Get(decoded, "subjects").value)
  }

  /** `$item['id'] ?? null` is strictly equal to `id`. */
  predicate HasId(item: Json, id: string) {
    Get(item, "id") == Some(JStr(id))
  }

  /** The position of the first item whose id is `id`, or `|items|` when there is none. */
  function IndexOfId(items: seq<Json>, id: string): (k: nat)
    ensures k <= |items|
    ensures k < |items| ==> HasId(items[k], id)
    ensures forall j :: 0 <= j < k ==> !HasId(items[j], id)
    decreases |items|
  {
    if items == [] then 0
    else if HasId(items[0], id) then 0
    else 1 + IndexOfId(items[1..], id)
  }

  /** The first item, in list order, whose id is `id`; `None` when no item has it. */
  function FirstWithId(items: seq<Json>, id: string): (r: Option<Json>) {
    var k := IndexOfId(items, id);
    if k < |items| then Some(items[k]) else None
  }

  lemma FirstWithIdAt(items: seq<Json>, id: string, i: nat)
    requires i <= |items|
    requires forall j :: 0 <= j < i ==> !HasId(items[j], id)
    requires i < |items| ==> HasId(items[i], id)
    ensures FirstWithId(items, id) == if i < |items| then Some(items[i]) else None
  {
    var k := IndexOfId(items, id);
    assert !(k < i) && !(i < k);
  }

  /** The `foreach` of `findSubject` and `findUnit`: returns the first item whose id is `id`, or null. */
  method FindFirst(items: seq<Json>, id: string) returns (r: Option<Json>)
    ensures r == FirstWithId(items, id)
  {
    var i := 0;
    while i < |items|
      invariant 0 <= i <= |items|
      invariant forall j :: 0 <= j < i ==> !HasId(items[j], id)
    {
      if HasId(items[i], id) {
        FirstWithIdAt(items, id, i);
        return Some(items[i]);
      }
      i := i + 1;
    }
    FirstWithIdAt(items, id, i);
    return None;
  }

  /** The constructor: read the file, decode it, and check its shape. */
  function Open(path: string, file: ContentFile, jsonDecode: string -> Json): (r: Result<Repository, LoadError>)
    ensures file.NoFile? ==> r == Err(FileNotFound(path))
    ensures file.Unreadable? ==> r == Err(FileUnreadable)
    ensures file.FileText? ==>
      (r.Ok? <==> WellFormedData(jsonDecode(file.text)))
      && (r.Err? ==> r.error == MalformedData)
    ensures r.Ok? ==> file.FileText? && r.value.data == jsonDecode(file.text)
    ensures r.Ok? ==> r.value.GetSubjects() == Elements(Get(jsonDecode(file.text), "subjects").value)
  {
    match file
    case NoFile => Err(FileNotFound(path))
    case Unreadable => Err(FileUnreadable)
    case FileText(text) =>
      var decoded := jsonDecode(text);
      if !WellFormedData(decoded) then Err(MalformedData) else Ok(Repository(decoded))
  }

  datatype Repository = Repository(data: Json) {

    /** `getSubjects`: the list under `subjects`. */
    function GetSubjects(): seq<Json> {
      match Get(data, "subjects")
      case Some(subjects) => Elements(subjects)
      case None => []
    }

    /** `getUnits`: the units of the subject with that id; nothing when it is unknown or `units` is not an array. */
    function GetUnits(subjectId: string): (r: seq<Json>)
      ensures FirstWithId(GetSubjects(), subjectId).None? ==> r == []
    {
      match FirstWithId(GetSubjects(), subjectId)
      case None => []
      case Some(subject) =>
        if !Truthy(subject) then []
        else match Get(subject, "units")
          case Some(units) => Elements(units)
          case None => []
    }

    /** `findSubject`: a linear search of the subjects that returns at the first match. */
    method FindSubject(subjectId: string) returns (r: Option<Json>)
      ensures r == FirstWithId(GetSubjects(), subjectId)
    {
      r := FindFirst(GetSubjects(), subjectId);
    }

    /** `findUnit`: the same search over `getUnits`. */
    method FindUnit(subjectId: string, unitId: string) returns (r: Option<Json>)
      ensures r == FirstWithId(GetUnits(subjectId), unitId)
    {
      r := FindFirst(GetUnits(subjectId), unitId);
    }

    /**
     * `buildContextText`: the subject and unit lines, each optional field in
     * its fixed place, the exercises, then all lines that are not empty
     * joined by newlines and trimmed.
     */
    method BuildContextText(subject: Json, unit: Json, decode: string -> string) returns (text: string)
      requires IsArray(subject) && IsArray(unit)
      ensures text == ContextText(subject, unit, decode)
    {
      ghost var briefing := BriefingOf(subject, unit, decode);
      var lines: seq<string> := [];
      lines := lines + ["Subject: " + DisplayName(subject)];
      assert lines == ["Subject: " + briefing.subjectName];
      lines := lines + ["Unit: " + DisplayName(unit)];
      lines := AppendField(lines, "Target grade: ", FieldValue(unit, "grade"));
      lines := AppendField(lines, "Overview: ", FieldValue(unit, "overview"));
      lines := AppendField(lines, "Learning goals: ", GoalsValue(unit));
      lines := AppendField(lines, "Explanation: ", ExplanationValue(unit, decode));
      lines := AppendExercises(lines, unit);
      LayoutTexts(briefing);
      text := Trim(Join(KeepTruthy(lines), "\n"));
    }
  }

  /** `if (!empty($unit[key])) { $lines[] = caption . value; }`, the test and the value folded into `value`. */
  method AppendField(lines: seq<string>, caption: string, value: Option<string>) returns (result: seq<string>)
    ensures result == lines + CaptionedText(caption, value)
  {
    result := lines;
    if value.Some? {
      result := result + [caption + value.value];
    }
  }

  /** The exercise loop: each exercise's question, hint and answer lines, numbered from 1. */
  method CollectExerciseLines(exercises: seq<Json>) returns (exerciseLines: seq<string>)
    ensures exerciseLines == ExerciseLines(exercises)
  {
    exerciseLines := [];
    var i := 0;
    while i < |exercises|
      invariant 0 <= i <= |exercises|
      invariant exerciseLines == ExerciseLines(exercises[..i])
    {
      exerciseLines := AppendExercise(exerciseLines, i + 1, exercises[i]);
      ExerciseLinesSnoc(exercises, i);
      i := i + 1;
    }
    assert exercises[..i] == exercises;
  }

  /** One turn of the exercise loop: the question line, then the hint and the answer lines when they are not empty. */
  method AppendExercise(lines: seq<string>, n: nat, exercise: Json) returns (result: seq<string>)
    ensures result == lines + ExerciseLinesOf(n, exercise)
  {
    result := lines + [QuestionLine(n, exercise)];
    if Filled(exercise, "hint") {
      result := result + [HintLine(exercise)];
    }
    if Filled(exercise, "answer") {
      result := result + [AnswerLine(exercise)];
    }
  }

  /** The exercises part of `buildContextText`: both loops, the header and the bullets only when there is a line. */
  method AppendExercises(lines: seq<string>, unit: Json) returns (result: seq<string>)
    ensures result == lines + ExercisesText(ExerciseLinesIn(unit))
  {
    result := lines;
    if Filled(unit, "exercises") && IsArray(Get(unit, "exercises").value) {
      var exerciseLines := CollectExerciseLines(Elements(Get(unit, "exercises").value));
      if exerciseLines != [] {
        result := result + ["Exercises:"];
        result := AppendBullets(result, exerciseLines);
      }
    }
  }

  /** The second loop: each exercise line behind " - ". */
  method AppendBullets(lines: seq<string>, exerciseLines: seq<string>) returns (result: seq<string>)
    ensures result == lines + BulletTexts(exerciseLines)
  {
    result := lines;
    var k := 0;
    while k < |exerciseLines|
      invariant 0 <= k <= |exerciseLines|
      invariant result == lines + BulletTexts(exerciseLines[..k])
    {
      result := result + [" - " + exerciseLines[k]];
      assert exerciseLines[..k + 1] == exerciseLines[..k] + [exerciseLines[k]];
      k := k + 1;
    }
    assert exerciseLines[..k] == exerciseLines;
  }


  // ----- the briefing -----

  /**
   * What the briefing says, each optional part `None` when the unit leaves it
   * empty: the subject's and the unit's display names, the grade, the
   * overview, the goals joined by "; ", the explanation as plain text, and
   * the exercise lines.
   */
  datatype Briefing = Briefing(
    subjectName: string,
    unitName: string,
    grade: Option<string>,
    overview: Option<string>,
    goals: Option<string>,
    explanation: Option<string>,
    exercises: seq<string>)

  /**
   * `$record['name'] ?? $record['id'] ?? ''`, as a string: the name when it is
   * set, the id when the name is missing or null, and "" when neither is set.
   */
  function DisplayName(record: Json): (r: string)
    ensures Get(record, "name").Some? && Get(record, "name").value.JStr? ==> r == Get(record, "name").value.s
    ensures Get(record, "name").None? && Get(record, "id").Some? && Get(record, "id").value.JStr? ==> r == Get(record, "id").value.s
    ensures Get(record, "name").None? && Get(record, "id").None? ==> r == ""
  {
    match Get(record, "name")
    case Some(name) => ToPhpString(name)
    case None =>
      match Get(record, "id")
      case Some(id) => ToPhpString(id)
      case None => ""
  }

  /** The field's value as a string when `!empty($unit[key])`. */
  function FieldValue(unit: Json, key: string): (r: Option<string>)
    ensures r.Some? <==> Filled(unit, key)
  {
    if Filled(unit, key) then Some(ToPhpString(Get(unit, key).value)) else None
  }

  function Strings(values: seq<Json>): (r: seq<string>)
    ensures |r| == |values|
    ensures forall i :: 0 <= i < |values| ==> r[i] == ToPhpString(values[i])
  {
    seq(|values|, i requires 0 <= i < |values| => ToPhpString(values[i]))
  }

  /** `implode('; ', $unit['goals'])` when the goals are not empty and form an array. */
  function GoalsValue(unit: Json): (r: Option<string>)
    ensures r.Some? <==> Filled(unit, "goals") && IsArray(Get(unit, "goals").value)
  {
    if Filled(unit, "goals") && IsArray(Get(unit, "goals").value)
    then Some(Join(Strings(Elements(Get(unit, "goals").value)), "; "))
    else None
  }

  /** The explanation flattened by `htmlToText` when it is not empty. */
  function ExplanationValue(unit: Json, decode: string -> string): (r: Option<string>)
    ensures r.Some? <==> Filled(unit, "explanation")
  {
    if Filled(unit, "explanation")
    then Some(HtmlText.HtmlToText(ToPhpString(Get(unit, "explanation").value), decode))
    else None
  }

  /** `$exercise['question'] ?? ''`, as a string. */
  function QuestionText(exercise: Json): string {
    ToPhpString(GetOr(exercise, "question", JStr("")))
  }

  /** `sprintf('Q%d: %s', n, question)`. */
  function QuestionLine(n: nat, exercise: Json): string {
    "Q" + IntToString(n) + ": " + QuestionText(exercise)
  }

  function HintLine(exercise: Json): string
    requires Filled(exercise, "hint")
  {
    "Hint: " + ToPhpString(Get(exercise, "hint").value)
  }

  function AnswerLine(exercise: Json): string
    requires Filled(exercise, "answer")
  {
    "Answer: " + ToPhpString(Get(exercise, "answer").value)
  }

  /** The lines of exercise number `n`: its question, then its hint and its answer when they are not empty. */
  function ExerciseLinesOf(n: nat, exercise: Json): (r: seq<string>) {
    [QuestionLine(n, exercise)]
    + (if Filled(exercise, "hint") then [HintLine(exercise)] else [])
    + (if Filled(exercise, "answer") then [AnswerLine(exercise)] else [])
  }

  /** `$exerciseLines` after the loop has visited `exercises`, numbering them from 1. */
  function ExerciseLines(exercises: seq<Json>): seq<string>
    decreases |exercises|
  {
    if exercises == [] then []
    else
      var n := |exercises|;
      ExerciseLines(exercises[..n - 1]) + ExerciseLinesOf(n, exercises[n - 1])
  }

  /** The lines of the first `i + 1` exercises: those of the first `i`, then those of exercise `i + 1`. */
  lemma ExerciseLinesSnoc(exercises: seq<Json>, i: nat)
    requires i < |exercises|
    ensures ExerciseLines(exercises[..i + 1]) == ExerciseLines(exercises[..i]) + ExerciseLinesOf(i + 1, exercises[i])
  {
    assert exercises[..i + 1][..i] == exercises[..i];
  }

  /** The exercise lines when `exercises` is not empty and is an array, none otherwise. */
  function ExerciseLinesIn(unit: Json): seq<string> {
    if Filled(unit, "exercises") && IsArray(Get(unit, "exercises").value)
    then ExerciseLines(Elements(Get(unit, "exercises").value))
    else []
  }

  /** What `buildContextText` reads from the subject and the unit. */
  function BriefingOf(subject: Json, unit: Json, decode: string -> string): Briefing {
    Briefing(
      DisplayName(subject),
      DisplayName(unit),
      FieldValue(unit, "grade"),
      FieldValue(unit, "overview"),
      GoalsValue(unit),
      ExplanationValue(unit, decode),
      ExerciseLinesIn(unit))
  }

  /** The part of the briefing a line belongs to. */
  datatype Field = SubjectField | UnitField | GradeField | OverviewField | GoalsField | ExplanationField | ExercisesField

  /** The fixed order of the parts. */
  function Rank(f: Field): nat {
    match f
    case SubjectField => 0
    case UnitField => 1
    case GradeField => 2
    case OverviewField => 3
    case GoalsField => 4
    case ExplanationField => 5
    case ExercisesField => 6
  }

  /** A briefing line, tagged with the part it renders (the tag is not part of the text). */
  datatype Line = Line(field: Field, text: string)

  /** The line `caption + value` of part `field`, only when there is a value. */
  function Captioned(field: Field, caption: string, value: Option<string>): (r: seq<Line>)
    ensures |r| <= 1 && (r != [] <==> value.Some?)
    ensures forall l | l in r :: l.field == field
  {
    match value
    case Some(v) => [Line(field, caption + v)]
    case None => []
  }

  /** Each exercise line behind " - ". */
  function Bulleted(exerciseLines: seq<string>): (r: seq<Line>)
    ensures |r| == |exerciseLines|
    ensures forall i :: 0 <= i < |r| ==> r[i] == Line(ExercisesField, " - " + exerciseLines[i])
  {
    seq(|exerciseLines|, i requires 0 <= i < |exerciseLines| => Line(ExercisesField, " - " + exerciseLines[i]))
  }

  /** The exercises part: an "Exercises:" header and the bulleted lines, present only when there is a line. */
  function ExercisesPart(exerciseLines: seq<string>): (r: seq<Line>)
    ensures forall l | l in r :: l.field == ExercisesField
    ensures r == [] <==> exerciseLines == []
  {
    if exerciseLines != [] then [Line(ExercisesField, "Exercises:")] + Bulleted(exerciseLines) else []
  }

  /** The briefing's lines in their fixed order. */
  function Layout(b: Briefing): seq<Line> {
    [Line(SubjectField, "Subject: " + b.subjectName)]
    + [Line(UnitField, "Unit: " + b.unitName)]
    + Captioned(GradeField, "Target grade: ", b.grade)
    + Captioned(OverviewField, "Overview: ", b.overview)
    + Captioned(GoalsField, "Learning goals: ", b.goals)
    + Captioned(ExplanationField, "Explanation: ", b.explanation)
    + ExercisesPart(b.exercises)
  }

  function Texts(lines: seq<Line>): (r: seq<string>)
    ensures |r| == |lines|
    ensures forall i :: 0 <= i < |lines| ==> r[i] == lines[i].text
  {
    seq(|lines|, i requires 0 <= i < |lines| => lines[i].text)
  }

  /** PHP `array_filter` on strings: drop "" and "0", keep every other line. */
  function KeepTruthy(lines: seq<string>): (r: seq<string>)
    ensures |r| <= |lines|
    ensures forall l | l in r :: l in lines && l != "" && l != "0"
    ensures forall l | l in lines && l != "" && l != "0" :: l in r
    decreases |lines|
  {
    if lines == [] then []
    else
      var n := |lines|;
      assert lines == lines[..n - 1] + [lines[n - 1]];
      KeepTruthy(lines[..n - 1]) + (if lines[n - 1] != "" && lines[n - 1] != "0" then [lines[n - 1]] else [])
  }

  /** The text of a briefing: its lines that are not empty, joined by newlines and trimmed. */
  function BriefingText(b: Briefing): string {
    Trim(Join(KeepTruthy(Texts(Layout(b))), "\n"))
  }

  /** The text `buildContextText` returns. */
  function ContextText(subject: Json, unit: Json, decode: string -> string): string {
    BriefingText(BriefingOf(subject, unit, decode))
  }

  // ----- the texts of the lines, as the method appends them -----

  function CaptionedText(caption: string, value: Option<string>): seq<string> {
    match value
    case Some(v) => [caption + v]
    case None => []
  }

  function BulletTexts(exerciseLines: seq<string>): (r: seq<string>)
    ensures |r| == |exerciseLines|
    ensures forall i :: 0 <= i < |r| ==> r[i] == " - " + exerciseLines[i]
  {
    seq(|exerciseLines|, i requires 0 <= i < |exerciseLines| => " - " + exerciseLines[i])
  }

  function ExercisesText(exerciseLines: seq<string>): seq<string> {
    if exerciseLines != [] then ["Exercises:"] + BulletTexts(exerciseLines) else []
  }

  lemma TextsAppend(a: seq<Line>, b: seq<Line>)
    ensures Texts(a + b) == Texts(a) + Texts(b)
  {
  }

  /** The texts of seven consecutive runs of lines are the runs' texts, one after another. */
  lemma TextsOfSeven(p0: seq<Line>, p1: seq<Line>, p2: seq<Line>, p3: seq<Line>, p4: seq<Line>, p5: seq<Line>, p6: seq<Line>)
    ensures Texts(p0 + p1 + p2 + p3 + p4 + p5 + p6)
      == Texts(p0) + Texts(p1) + Texts(p2) + Texts(p3) + Texts(p4) + Texts(p5) + Texts(p6)
  {
    TextsAppend(p0, p1);
    TextsAppend(p0 + p1, p2);
    TextsAppend(p0 + p1 + p2, p3);
    TextsAppend(p0 + p1 + p2 + p3, p4);
    TextsAppend(p0 + p1 + p2 + p3 + p4, p5);
    TextsAppend(p0 + p1 + p2 + p3 + p4 + p5, p6);
  }

  /** A captioned field's line carries the caption and the value, whatever the field. */
  lemma CaptionedTexts(field: Field, caption: string, value: Option<string>)
    ensures Texts(Captioned(field, caption, value)) == CaptionedText(caption, value)
  {
  }

  /** The exercises part's texts: the header, then each line behind " - ". */
  lemma ExercisesTexts(exerciseLines: seq<string>)
    ensures Texts(ExercisesPart(exerciseLines)) == ExercisesText(exerciseLines)
  {
    if exerciseLines != [] {
      TextsAppend([Line(ExercisesField, "Exercises:")], Bulleted(exerciseLines));
    }
  }

  /** The texts of the layout, part by part, as `buildContextText` appends them. */
  lemma LayoutTexts(b: Briefing)
    ensures Texts(Layout(b)) ==
      ["Subject: " + b.subjectName]
      + ["Unit: " + b.unitName]
      + CaptionedText("Target grade: ", b.grade)
      + CaptionedText("Overview: ", b.overview)
      + CaptionedText("Learning goals: ", b.goals)
      + CaptionedText("Explanation: ", b.explanation)
      + ExercisesText(b.exercises)
  {
    TextsOfSeven([Line(SubjectField, "Subject: " + b.subjectName)], [Line(UnitField, "Unit: " + b.unitName)],
      Captioned(GradeField, "Target grade: ", b.grade), Captioned(OverviewField, "Overview: ", b.overview),
      Captioned(GoalsField, "Learning goals: ", b.goals), Captioned(ExplanationField, "Explanation: ", b.explanation),
      ExercisesPart(b.exercises));
    CaptionedTexts(GradeField, "Target grade: ", b.grade);
    CaptionedTexts(OverviewField, "Overview: ", b.overview);
    CaptionedTexts(GoalsField, "Learning goals: ", b.goals);
    CaptionedTexts(ExplanationField, "Explanation: ", b.explanation);
    ExercisesTexts(b.exercises);
    assert Texts([Line(SubjectField, "Subject: " + b.subjectName)]) == ["Subject: " + b.subjectName];
    assert Texts([Line(UnitField, "Unit: " + b.unitName)]) == ["Unit: " + b.unitName];
  }


  // ----- what the briefing promises -----

  /** The exercise loop yields no line exactly when there is no exercise. */
  lemma {:induction false} ExerciseLinesEmpty(exercises: seq<Json>)
    ensures ExerciseLines(exercises) == [] <==> exercises == []
  {
    if exercises != [] {
      var n := |exercises|;
      assert |ExerciseLinesOf(n, exercises[n - 1])| >= 1;
    }
  }

  /** Each exercise gives one to three lines. */
  lemma {:induction false} ExerciseLinesLength(exercises: seq<Json>)
    ensures |exercises| <= |ExerciseLines(exercises)| <= 3 * |exercises|
    decreases |exercises|
  {
    if exercises != [] {
      var n := |exercises|;
      ExerciseLinesLength(exercises[..n - 1]);
    }
  }

  /** The lines of the first `j` exercises begin the lines of all of them. */
  lemma {:induction false} ExerciseLinesPrefix(exercises: seq<Json>, j: nat)
    requires j <= |exercises|
    ensures ExerciseLines(exercises[..j]) <= ExerciseLines(exercises)
    decreases |exercises| - j
  {
    if j < |exercises| {
      ExerciseLinesSnoc(exercises, j);
      ExerciseLinesPrefix(exercises, j + 1);
    } else {
      assert exercises[..j] == exercises;
    }
  }

  /**
   * The exercise at position `i` is numbered `i + 1`: its lines (question,
   * then hint and answer when present) come right after the lines of the
   * exercises before it.
   */
  lemma ExerciseLinesAt(exercises: seq<Json>, i: nat)
    requires i < |exercises|
    ensures var k := |ExerciseLines(exercises[..i])|;
      var own := ExerciseLinesOf(i + 1, exercises[i]);
      && k + |own| <= |ExerciseLines(exercises)|
      && ExerciseLines(exercises)[k..k + |own|] == own
      && ExerciseLines(exercises)[k] == QuestionLine(i + 1, exercises[i])
  {
    var before := ExerciseLines(exercises[..i]);
    var own := ExerciseLinesOf(i + 1, exercises[i]);
    ExerciseLinesSnoc(exercises, i);
    ExerciseLinesPrefix(exercises, i + 1);
    var all := ExerciseLines(exercises);
    assert before + own == all[..|before| + |own|];
    assert all[|before|..|before| + |own|] == (before + own)[|before|..];
  }

  /** No part appears before a part of lower rank. */
  ghost predicate InPartOrder(lines: seq<Line>) {
    forall i, j :: 0 <= i < j < |lines| ==> Rank(lines[i].field) <= Rank(lines[j].field)
  }

  /** Only the exercises part spans several lines. */
  ghost predicate OnePerPart(lines: seq<Line>) {
    forall i, j :: 0 <= i < j < |lines| && lines[i].field == lines[j].field ==> lines[i].field == ExercisesField
  }

  /** Appending the lines of part `field` behind parts of lower rank keeps the order and the single lines. */
  lemma AppendPart(a: seq<Line>, b: seq<Line>, field: Field)
    requires InPartOrder(a) && OnePerPart(a)
    requires forall l | l in a :: Rank(l.field) < Rank(field)
    requires forall l | l in b :: l.field == field
    requires |b| <= 1 || field == ExercisesField
    ensures InPartOrder(a + b) && OnePerPart(a + b)
    ensures forall l | l in a + b :: Rank(l.field) <= Rank(field)
  {
    var ab := a + b;
    forall i, j | 0 <= i < j < |ab|
      ensures Rank(ab[i].field) <= Rank(ab[j].field)
      ensures ab[i].field == ab[j].field ==> ab[i].field == ExercisesField
    {
      if j < |a| {
      } else if i < |a| {
        assert ab[i] in a && ab[j] in b;
      } else {
        assert ab[i] in b && ab[j] in b;
      }
    }
  }

  /**
   * The briefing's parts come in their fixed order (subject, unit, grade,
   * overview, goals, explanation, exercises), every part but the exercises in
   * at most one line, opening with the subject line and the unit line.
   */
  lemma LayoutOrder(b: Briefing)
    ensures var lines := Layout(b);
      && |lines| >= 2
      && lines[0] == Line(SubjectField, "Subject: " + b.subjectName)
      && lines[1] == Line(UnitField, "Unit: " + b.unitName)
      && InPartOrder(lines) && OnePerPart(lines)
  {
    var p0 := [Line(SubjectField, "Subject: " + b.subjectName)];
    var p1 := [Line(UnitField, "Unit: " + b.unitName)];
    PartsInOrder(p0, p1,
      Captioned(GradeField, "Target grade: ", b.grade), Captioned(OverviewField, "Overview: ", b.overview),
      Captioned(GoalsField, "Learning goals: ", b.goals), Captioned(ExplanationField, "Explanation: ", b.explanation),
      ExercisesPart(b.exercises));
    assert Layout(b)[..2] == p0 + p1;
  }

  /** Seven parts, each of its own field in rank order and all but the last of at most one line, are in part order. */
  lemma PartsInOrder(p0: seq<Line>, p1: seq<Line>, p2: seq<Line>, p3: seq<Line>, p4: seq<Line>, p5: seq<Line>, p6: seq<Line>)
    requires |p0| <= 1 && forall l | l in p0 :: l.field == SubjectField
    requires |p1| <= 1 && forall l | l in p1 :: l.field == UnitField
    requires |p2| <= 1 && forall l | l in p2 :: l.field == GradeField
    requires |p3| <= 1 && forall l | l in p3 :: l.field == OverviewField
    requires |p4| <= 1 && forall l | l in p4 :: l.field == GoalsField
    requires |p5| <= 1 && forall l | l in p5 :: l.field == ExplanationField
    requires forall l | l in p6 :: l.field == ExercisesField
    ensures InPartOrder(p0 + p1 + p2 + p3 + p4 + p5 + p6) && OnePerPart(p0 + p1 + p2 + p3 + p4 + p5 + p6)
  {
    AppendPart([], p0, SubjectField);
    assert [] + p0 == p0;
    AppendPart(p0, p1, UnitField);
    AppendPart(p0 + p1, p2, GradeField);
    AppendPart(p0 + p1 + p2, p3, OverviewField);
    AppendPart(p0 + p1 + p2 + p3, p4, GoalsField);
    AppendPart(p0 + p1 + p2 + p3 + p4, p5, ExplanationField);
    AppendPart(p0 + p1 + p2 + p3 + p4 + p5, p6, ExercisesField);
  }

  /** A line of part `field` is present. */
  ghost predicate HasPart(lines: seq<Line>, field: Field) {
    exists l | l in lines :: l.field == field
  }

  lemma HasPartAppend(a: seq<Line>, b: seq<Line>, field: Field)
    ensures HasPart(a + b, field) <==> HasPart(a, field) || HasPart(b, field)
  {
    if HasPart(a + b, field) {
      var l :| l in a + b && l.field == field;
      assert l in a || l in b;
    }
    if HasPart(a, field) {
      var l :| l in a && l.field == field;
      assert l in a + b;
    }
    if HasPart(b, field) {
      var l :| l in b && l.field == field;
      assert l in a + b;
    }
  }

  /** Each optional part is in the layout exactly when the briefing has it. */
  lemma LayoutParts(b: Briefing)
    ensures HasPart(Layout(b), SubjectField) && HasPart(Layout(b), UnitField)
    ensures HasPart(Layout(b), GradeField) <==> b.grade.Some?
    ensures HasPart(Layout(b), OverviewField) <==> b.overview.Some?
    ensures HasPart(Layout(b), GoalsField) <==> b.goals.Some?
    ensures HasPart(Layout(b), ExplanationField) <==> b.explanation.Some?
    ensures HasPart(Layout(b), ExercisesField) <==> b.exercises != []
  {
    var p0 := [Line(SubjectField, "Subject: " + b.subjectName)];
    var p1 := [Line(UnitField, "Unit: " + b.unitName)];
    var p2 := Captioned(GradeField, "Target grade: ", b.grade);
    var p3 := Captioned(OverviewField, "Overview: ", b.overview);
    var p4 := Captioned(GoalsField, "Learning goals: ", b.goals);
    var p5 := Captioned(ExplanationField, "Explanation: ", b.explanation);
    var p6 := ExercisesPart(b.exercises);
    forall f: Field
      ensures HasPart(Layout(b), f) <==>
        (f == SubjectField || f == UnitField
         || (f == GradeField && p2 != []) || (f == OverviewField && p3 != []) || (f == GoalsField && p4 != [])
         || (f == ExplanationField && p5 != []) || (f == ExercisesField && p6 != []))
    {
      PartsPresent(p0, p1, p2, p3, p4, p5, p6, f);
    }
  }

  /** A field has a line in seven parts, each of its own field, exactly when its own part is not empty. */
  lemma PartsPresent(p0: seq<Line>, p1: seq<Line>, p2: seq<Line>, p3: seq<Line>, p4: seq<Line>, p5: seq<Line>, p6: seq<Line>, f: Field)
    requires forall l | l in p0 :: l.field == SubjectField
    requires forall l | l in p1 :: l.field == UnitField
    requires forall l | l in p2 :: l.field == GradeField
    requires forall l | l in p3 :: l.field == OverviewField
    requires forall l | l in p4 :: l.field == GoalsField
    requires forall l | l in p5 :: l.field == ExplanationField
    requires forall l | l in p6 :: l.field == ExercisesField
    ensures HasPart(p0 + p1 + p2 + p3 + p4 + p5 + p6, f) <==>
      || (f == SubjectField && p0 != []) || (f == UnitField && p1 != [])
      || (f == GradeField && p2 != []) || (f == OverviewField && p3 != []) || (f == GoalsField && p4 != [])
      || (f == ExplanationField && p5 != []) || (f == ExercisesField && p6 != [])
  {
    HasPartOfSeven(p0, p1, p2, p3, p4, p5, p6, f);
    PartPresence(p0, SubjectField, f);
    PartPresence(p1, UnitField, f);
    PartPresence(p2, GradeField, f);
    PartPresence(p3, OverviewField, f);
    PartPresence(p4, GoalsField, f);
    PartPresence(p5, ExplanationField, f);
    PartPresence(p6, ExercisesField, f);
  }

  /** A part whose lines all belong to `owner` holds a line of `field` exactly when it is not empty and `field` is `owner`. */
  lemma PartPresence(part: seq<Line>, owner: Field, field: Field)
    requires forall l | l in part :: l.field == owner
    ensures HasPart(part, field) <==> part != [] && owner == field
  {
    if part != [] && owner == field {
      assert part[0] in part;
    }
  }

  lemma HasPartOfSeven(p0: seq<Line>, p1: seq<Line>, p2: seq<Line>, p3: seq<Line>, p4: seq<Line>, p5: seq<Line>, p6: seq<Line>, f: Field)
    ensures HasPart(p0 + p1 + p2 + p3 + p4 + p5 + p6, f) <==>
      HasPart(p0, f) || HasPart(p1, f) || HasPart(p2, f) || HasPart(p3, f) || HasPart(p4, f) || HasPart(p5, f) || HasPart(p6, f)
  {
    HasPartAppend(p0, p1, f);
    HasPartAppend(p0 + p1, p2, f);
    HasPartAppend(p0 + p1 + p2, p3, f);
    HasPartAppend(p0 + p1 + p2 + p3, p4, f);
    HasPartAppend(p0 + p1 + p2 + p3 + p4, p5, f);
    HasPartAppend(p0 + p1 + p2 + p3 + p4 + p5, p6, f);
  }

  /**
   * The parts of the briefing `buildContextText` writes: the grade, overview
   * and explanation exactly when they are not empty, the goals exactly when
   * they are a non-empty array, the exercises exactly when they are an array
   * holding at least one exercise.
   */
  lemma ContextParts(subject: Json, unit: Json, decode: string -> string)
    ensures var lines := Layout(BriefingOf(subject, unit, decode));
      && (HasPart(lines, GradeField) <==> Filled(unit, "grade"))
      && (HasPart(lines, OverviewField) <==> Filled(unit, "overview"))
      && (HasPart(lines, GoalsField) <==> Filled(unit, "goals") && IsArray(Get(unit, "goals").value))
      && (HasPart(lines, ExplanationField) <==> Filled(unit, "explanation"))
      && (HasPart(lines, ExercisesField) <==>
            Filled(unit, "exercises") && IsArray(Get(unit, "exercises").value) && Elements(Get(unit, "exercises").value) != [])
  {
    var b := BriefingOf(subject, unit, decode);
    LayoutParts(b);
    if Filled(unit, "exercises") && IsArray(Get(unit, "exercises").value) {
      ExerciseLinesEmpty(Elements(Get(unit, "exercises").value));
    }
  }

  /** `array_filter` keeps every line that is neither "" nor "0". */
  lemma {:induction false} KeepTruthyKeepsAll(lines: seq<string>)
    requires forall i :: 0 <= i < |lines| ==> lines[i] != "" && lines[i] != "0"
    ensures KeepTruthy(lines) == lines
    decreases |lines|
  {
    if lines != [] {
      var n := |lines|;
      KeepTruthyKeepsAll(lines[..n - 1]);
      assert lines[..n - 1] + [lines[n - 1]] == lines;
    }
  }

  /** Every line of a briefing starts with its caption, so `array_filter` drops none of them. */
  lemma LayoutKeepsAll(b: Briefing)
    ensures KeepTruthy(Texts(Layout(b))) == Texts(Layout(b))
  {
    var lines := Texts(Layout(b));
    LayoutLinesLong(b);
    forall i | 0 <= i < |lines|
      ensures lines[i] != "" && lines[i] != "0"
    {
      assert Layout(b)[i] in Layout(b);
    }
    KeepTruthyKeepsAll(lines);
  }

  /** The caption that opens every line of a part other than the exercises. */
  function Caption(f: Field): string {
    match f
    case SubjectField => "Subject: "
    case UnitField => "Unit: "
    case GradeField => "Target grade: "
    case OverviewField => "Overview: "
    case GoalsField => "Learning goals: "
    case ExplanationField => "Explanation: "
    case ExercisesField => ""
  }

  /** The line opens as its part demands: with the part's caption, or, for the exercises, as the header or a bullet. */
  predicate OpensWithCaption(l: Line) {
    if l.field == ExercisesField then l.text == "Exercises:" || " - " <= l.text
    else Caption(l.field) <= l.text
  }

  /**
   * Every line of the layout opens with its caption, or is the exercises
   * header or a bullet, so it is at least two characters long.
   */
  lemma LayoutLinesLong(b: Briefing)
    ensures forall l | l in Layout(b) :: OpensWithCaption(l)
    ensures forall l | l in Layout(b) :: |l.text| >= 2
  {
    var p0, p1 := [Line(SubjectField, "Subject: " + b.subjectName)], [Line(UnitField, "Unit: " + b.unitName)];
    var p2 := Captioned(GradeField, "Target grade: ", b.grade);
    var p3 := Captioned(OverviewField, "Overview: ", b.overview);
    var p4 := Captioned(GoalsField, "Learning goals: ", b.goals);
    var p5 := Captioned(ExplanationField, "Explanation: ", b.explanation);
    var p6 := ExercisesPart(b.exercises);
    assert Layout(b) == p0 + p1 + p2 + p3 + p4 + p5 + p6;
    CaptionedOpens(SubjectField, Some(b.subjectName));
    CaptionedOpens(UnitField, Some(b.unitName));
    CaptionedOpens(GradeField, b.grade);
    CaptionedOpens(OverviewField, b.overview);
    CaptionedOpens(GoalsField, b.goals);
    CaptionedOpens(ExplanationField, b.explanation);
    ExercisesPartOpens(b.exercises);
    AllOpenOfSeven(p0, p1, p2, p3, p4, p5, p6);
    forall l | l in Layout(b)
      ensures |l.text| >= 2
    {
      OpeningIsLong(l);
    }
  }

  /** A captioned line of a part other than the exercises opens with that part's caption. */
  lemma CaptionedOpens(field: Field, value: Option<string>)
    requires field != ExercisesField
    ensures forall l | l in Captioned(field, Caption(field), value) :: OpensWithCaption(l)
  {
  }

  /** The exercises part is the header followed by bullets. */
  lemma ExercisesPartOpens(exerciseLines: seq<string>)
    ensures forall l | l in ExercisesPart(exerciseLines) :: OpensWithCaption(l)
  {
    forall l | l in ExercisesPart(exerciseLines)
      ensures OpensWithCaption(l)
    {
      var bullets := Bulleted(exerciseLines);
      if l in bullets {
        var i :| 0 <= i < |bullets| && bullets[i] == l;
        assert l.text == " - " + exerciseLines[i];
      }
    }
  }

  lemma AllOpenOfSeven(p0: seq<Line>, p1: seq<Line>, p2: seq<Line>, p3: seq<Line>, p4: seq<Line>, p5: seq<Line>, p6: seq<Line>)
    requires forall l | l in p0 :: OpensWithCaption(l)
    requires forall l | l in p1 :: OpensWithCaption(l)
    requires forall l | l in p2 :: OpensWithCaption(l)
    requires forall l | l in p3 :: OpensWithCaption(l)
    requires forall l | l in p4 :: OpensWithCaption(l)
    requires forall l | l in p5 :: OpensWithCaption(l)
    requires forall l | l in p6 :: OpensWithCaption(l)
    ensures forall l | l in p0 + p1 + p2 + p3 + p4 + p5 + p6 :: OpensWithCaption(l)
  {
  }

  /** Every caption, the header and the bullet are at least two characters long. */
  lemma OpeningIsLong(l: Line)
    requires OpensWithCaption(l)
    ensures |l.text| >= 2
  {
    if l.field != ExercisesField {
      assert |Caption(l.field)| <= |l.text|;
    } else if l.text != "Exercises:" {
      assert |" - "| <= |l.text|;
    }
  }

  /** The briefing opens with the subject line, then the unit line: trimming never cuts into them. */
  lemma BriefingTextStart(b: Briefing)
    ensures "Subject: " + b.subjectName + "\nUnit:" <= BriefingText(b)
  {
    var lines := Texts(Layout(b));
    LayoutKeepsAll(b);
    LayoutOrder(b);
    var subjectLine := "Subject: " + b.subjectName;
    assert lines[0] == subjectLine && lines[1] == "Unit: " + b.unitName;
    JoinStartsWith(lines, "\n");
    UnitLineStart(subjectLine, b.unitName);
    TrimKeepsPrefix(Join(lines, "\n"), subjectLine + "\nUnit:");
  }

  lemma UnitLineStart(subjectLine: string, unitName: string)
    ensures subjectLine + "\nUnit:" <= subjectLine + "\n" + ("Unit: " + unitName)
  {
    var whole := subjectLine + "\n" + ("Unit: " + unitName);
    var k := |subjectLine|;
    assert whole[k] == '\n';
    assert whole[k + 1..k + 6] == "Unit:";
  }

  // ----- what the lookups promise -----

  /** A match is always an array holding the id: PHP hands it on as the `array` the callers demand. */
  lemma FirstMatchIsRecord(items: seq<Json>, id: string)
    requires FirstWithId(items, id).Some?
    ensures FirstWithId(items, id).value.JObj?
    ensures FirstWithId(items, id).value in items
    ensures Truthy(FirstWithId(items, id).value)
  {
    var k := IndexOfId(items, id);
    assert Get(items[k], "id").Some?;
  }

  /**
   * `findUnit` finds nothing for an unknown subject, nothing when the subject's
   * `units` is missing or not an array, and otherwise the first unit with the id.
   */
  lemma FindUnitCases(repo: Repository, subjectId: string, unitId: string)
    ensures FirstWithId(repo.GetSubjects(), subjectId).None? ==> FirstWithId(repo.GetUnits(subjectId), unitId).None?
    ensures FirstWithId(repo.GetUnits(subjectId), unitId).Some? ==> FirstWithId(repo.GetSubjects(), subjectId).Some?
    ensures FirstWithId(repo.GetSubjects(), subjectId).Some? ==>
      var subject := FirstWithId(repo.GetSubjects(), subjectId).value;
      && (Get(subject, "units").None? || !IsArray(Get(subject, "units").value) ==> FirstWithId(repo.GetUnits(subjectId), unitId).None?)
      && (Get(subject, "units").Some? && IsArray(Get(subject, "units").value) ==>
            FirstWithId(repo.GetUnits(subjectId), unitId) == FirstWithId(Elements(Get(subject, "units").value), unitId))
  {
    if FirstWithId(repo.GetSubjects(), subjectId).Some? {
      FirstMatchIsRecord(repo.GetSubjects(), subjectId);
    }
  }
}
