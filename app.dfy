/**
 * The application shell's own logic: which task the tutor is told the student
 * is doing, the recording clock's `m:ss` text, and the submissions list that an
 * assessment submission and its grading update.
 */
module App {
  import opened Wrappers
  import opened Numerals
  import opened Blocks

  // ---- the view and the student context ----

  /** The screens of the application. */
  datatype AppView =
    | Dashboard
    | LogicBuilder
    | CodeLab
    | AvatarStudio
    | BrainBuilder
    | Classroom
    | Assessment
    | Presentation

  /** What the tutor is told about the student. */
  datatype StudentContext = StudentContext(
    currentTask: string,
    codeSnippet: string,
    recentError: Option<string>,
    isIdle: bool)

  /**
   * The task for a view: "Free Play", overwritten by each `if` that matches.
   * Each of four views has its own task, and every other view is free play.
   */
  function TaskFor(view: AppView): (task: string)
    ensures task == "Building Logic Blocks" <==> view == LogicBuilder
    ensures task == "Writing Python Code" <==> view == CodeLab
    ensures task == "In Classroom" <==> view == Classroom
    ensures task == "Submitting Assignment" <==> view == Assessment
    ensures task == "Free Play" <==> !(view == LogicBuilder || view == CodeLab || view == Classroom || view == Assessment)
  {
    var t0 := "Free Play";
    var t1 := if view == LogicBuilder then "Building Logic Blocks" else t0;
    var t2 := if view == CodeLab then "Writing Python Code" else t1;
    var t3 := if view == Classroom then "In Classroom" else t2;
    if view == Assessment then "Submitting Assignment" else t3
  }

  /** `JSON.stringify` of a list of strings that need no escaping. */
  function JsonStrings(items: seq<string>): (r: string)
    ensures |r| >= 2 && r[0] == '[' && r[|r| - 1] == ']'
  {
    "[" + JsonItems(items) + "]"
  }

  function JsonItems(items: seq<string>): string
  {
    if |items| == 0 then ""
    else if |items| == 1 then "\"" + items[0] + "\""
    else "\"" + items[0] + "\"," + JsonItems(items[1..])
  }

  /** `program.map(b => b.type)`. */
  function TopLevelTypes(program: seq<Block>): (r: seq<string>)
    ensures |r| == |program|
    ensures forall k :: 0 <= k < |program| ==> r[k] == program[k].blockType
  {
    if |program| == 0 then [] else [program[0].blockType] + TopLevelTypes(program[1..])
  }

  /**
   * The context effect: the task for the view, and as snippet the code in the
   * code lab or else the top-level block types; the rest of the context is kept.
   */
  function UpdateContext(prev: StudentContext, view: AppView, code: string, program: seq<Block>): (r: StudentContext)
    ensures r.currentTask == TaskFor(view)
    ensures view == CodeLab ==> r.codeSnippet == code
    ensures view != CodeLab ==> r.codeSnippet == JsonStrings(TopLevelTypes(program))
    ensures r.recentError == prev.recentError && r.isIdle == prev.isIdle
  {
    prev.(currentTask := TaskFor(view),
          codeSnippet := if view == CodeLab then code else JsonStrings(TopLevelTypes(program)))
  }

  // ---- the recording clock ----

  /**
   * JavaScript's `%`: on a non-negative dividend it is the usual remainder, and
   * it is odd in the dividend, so a negative one gives a remainder of its sign.
   */
  function JsRem(a: int, b: int): (r: int)
    requires b > 0
    ensures -b < r < b
    ensures a >= 0 ==> r == a % b
    ensures a < 0 ==> r == -JsRem(-a, b) && r <= 0
    decreases if a < 0 then 1 else 0
  {
    if a >= 0 then a % b else -((-a) % b)
  }

  /** `formatTime(seconds)`: the minutes, a colon, and the seconds padded with one `'0'` when below 10. */
  function FormatTime(seconds: int): string
  {
    var mins := seconds / 60;
    var secs := JsRem(seconds, 60);
    IntToString(mins) + ":" + (if secs < 10 then "0" else "") + IntToString(secs)
  }

  /** The printed seconds field: two digits for a value in 0..59. */
  lemma TwoDigits(secs: int)
    requires 0 <= secs < 60
    ensures var f := (if secs < 10 then "0" else "") + IntToString(secs);
      |f| == 2 && AllDigits(f) && DigitsValue(f) == secs
  {
    var f := (if secs < 10 then "0" else "") + IntToString(secs);
    NatToStringValue(secs);
    if secs < 10 {
      assert IntToString(secs) == [DigitChar(secs)];
      assert f[..1] == "0";
      assert DigitsValue(f[..1]) == 0 by {
        assert f[..1][..0] == [];
      }
    } else {
      assert NatToString(secs) == NatToString(secs / 10) + [DigitChar(secs % 10)];
      assert f[..1] == NatToString(secs / 10);
    }
  }

  /**
   * For a non-negative count: the text is minutes, `':'`, and a two-digit
   * seconds field below 60, and minutes times 60 plus seconds gives the count back.
   */
  lemma FormatTimeFields(seconds: int)
    requires seconds >= 0
    ensures var t := FormatTime(seconds);
      |t| >= 4 && t[|t| - 3] == ':' &&
      AllDigits(t[..|t| - 3]) && AllDigits(t[|t| - 2..]) &&
      t[..|t| - 3] == IntToString(seconds / 60) &&
      DigitsValue(t[|t| - 2..]) < 60 &&
      DigitsValue(t[..|t| - 3]) * 60 + DigitsValue(t[|t| - 2..]) == seconds
  {
    var mins := seconds / 60;
    var secs := seconds % 60;
    assert JsRem(seconds, 60) == secs;
    var m := IntToString(mins);
    var f := (if secs < 10 then "0" else "") + IntToString(secs);
    TwoDigits(secs);
    NatToStringValue(mins);
    var t := FormatTime(seconds);
    assert t == m + ":" + f;
    assert t[..|t| - 3] == m;
    assert t[|t| - 2..] == f;
  }

  /** Distinct non-negative counts print differently. */
  lemma FormatTimeInjective(a: int, b: int)
    requires a >= 0 && b >= 0 && FormatTime(a) == FormatTime(b)
    ensures a == b
  {
    hide *;
    FormatTimeFields(a);
    FormatTimeFields(b);
  }

  // ---- submissions ----

  datatype Status = Submitted | Graded

  datatype Rubric = Rubric(clarity: int, logic: int, confidence: int, total: int)

  /** A teacher's feedback, without the teacher's avatar look. */
  datatype Feedback = Feedback(id: string, teacherName: string, text: string, timestamp: int)

  datatype Submission = Submission(
    id: string,
    missionTitle: string,
    codeSnapshot: string,
    date: int,
    status: Status,
    rubric: Option<Rubric>,
    feedback: Option<Feedback>)

  /** The submission the assessment screen makes of the current code, at time `now`, with a fresh `id`. */
  function NewSubmission(id: string, code: string, now: int): (s: Submission)
    ensures s.status == Submitted && s.rubric.None? && s.feedback.None?
    ensures s.id == id && s.codeSnapshot == code && s.date == now
  {
    Submission(id, "Loop-de-Loop Mission", code, now, Submitted, None, None)
  }

  /** The first update of `handleAssessmentSubmit`: the new submission goes first, the earlier ones follow in order. */
  function Submit(subs: seq<Submission>, sub: Submission): (r: seq<Submission>)
    ensures |r| == |subs| + 1 && r[0] == sub && r[1..] == subs
  {
    [sub] + subs
  }

  const GradedRubric := Rubric(4, 5, 5, 14)

  const GradedText := "Great use of the loop logic! Your code is efficient. Maybe try adding a variable for the jump height next time?"

  /** The mock feedback, stamped with the time the grading runs. */
  function GradedFeedback(now: int): Feedback
  {
    Feedback("new-fb", "Ms. Sarah", GradedText, now)
  }

  /** A submission as the mock grading leaves it. */
  function GradedVersion(s: Submission, now: int): Submission
  {
    s.(status := Graded, rubric := Some(GradedRubric), feedback := Some(GradedFeedback(now)))
  }

  /**
   * The delayed update: every submission with the id is graded, with rubric
   * total 14; every other one is left exactly as it was, in its place.
   */
  function Grade(subs: seq<Submission>, id: string, now: int): (r: seq<Submission>)
    ensures |r| == |subs|
    ensures forall k :: 0 <= k < |subs| && subs[k].id == id ==>
      r[k].status == Graded && r[k].rubric == Some(GradedRubric) && r[k].rubric.value.total == 14 &&
      r[k] == GradedVersion(subs[k], now)
    ensures forall k :: 0 <= k < |subs| && subs[k].id != id ==> r[k] == subs[k]
  {
    seq(|subs|, k requires 0 <= k < |subs| => if subs[k].id == id then GradedVersion(subs[k], now) else subs[k])
  }

  /** Grading again at the same time changes nothing. */
  lemma GradeIdempotent(subs: seq<Submission>, id: string, now: int)
    ensures Grade(Grade(subs, id, now), id, now) == Grade(subs, id, now)
  {
    var once := Grade(subs, id, now);
    var twice := Grade(once, id, now);
    assert forall k :: 0 <= k < |subs| ==> twice[k] == once[k];
  }

  /** A submission under a fresh id is graded at the head of the list, and the earlier ones stay as they were. */
  lemma SubmitThenGrade(subs: seq<Submission>, sub: Submission, now: int)
    requires forall k :: 0 <= k < |subs| ==> subs[k].id != sub.id
    ensures Grade(Submit(subs, sub), sub.id, now) == [GradedVersion(sub, now)] + subs
  {
    var r := Grade(Submit(subs, sub), sub.id, now);
    assert forall k :: 1 <= k < |r| ==> Submit(subs, sub)[k] == subs[k - 1];
  }
}
