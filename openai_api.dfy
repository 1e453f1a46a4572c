/** The backend's chat endpoints (openai_api.py): three module-level chat
    histories kept in memory, the grades summary that seeds the grades
    history, the code-fence stripping of the task reply, and the error
    handling that turns every failure into one HTTP 500. The language-model
    call, the course-site lookup and `json.loads` are parameters: their
    results are `Outcome`s, and `parse` stands for `json.loads`. */
module OpenAiApi {
  import opened Text
  import opened Outcomes

  datatype Role = System | User | Assistant

  /** `{"role": ..., "content": ...}` */
  datatype Turn = Turn(role: Role, content: string)

  /** The request models; scores are kept as the text Python formats them to. */
  datatype GradedAssignment = GradedAssignment(name: string, dueDate: Option<string>, pointsPossible: string, submissionScore: string)
  datatype GradedCourse = GradedCourse(courseName: string, gradedAssignments: seq<GradedAssignment>)

  /** An exception raised inside an endpoint's `try`. */
  datatype Raised = HttpException(status: int, detail: string) | ApiException

  /** What an endpoint answers: a body, or an HTTP error status with its detail. */
  datatype Response<T> = Ok(body: T) | HttpError(status: int, detail: string)

  const DefaultUser := "default_user"
  const ErrorDetail := "Error communicating with OpenAI API"
  const ParseErrorDetail := "Failed to parse response as JSON."
  const GradesPromptLead := "You are a helpful assistant analyzing a student's grades. Here are the user's current grades and enrolled courses:\n"
  /** The first sentences of the two long instruction texts. */
  const TaskInstructions := "You are a helpful assistant designed to create organized task lists for students based on their assignments or workload.\n"
  const SupportInstructions := "You are a helpful assistant designed to provide support to Boston College students.\n"
  const FenceOpen := "```json"
  const FenceClose := "```"

  /** `except Exception as e: raise HTTPException(500, ...)`: whatever was
      raised, including an `HTTPException` raised inside the `try`, the
      endpoint answers 500 with the one generic detail. */
  function OuterHandler<T>(e: Raised): (r: Response<T>)
    ensures r.HttpError? && r.status == 500 && r.detail == ErrorDetail
  {
    HttpError(500, ErrorDetail)
  }

  /** The inner JSON-parse error never reaches the client with its own detail. */
  lemma ParseErrorIsSwallowed<T>()
    ensures OuterHandler<T>(HttpException(500, ParseErrorDetail)).detail != ParseErrorDetail
  {
  }

  // ---------------------------------------------------------------------------
  // Fence stripping

  predicate StartsWith(s: string, prefix: string) {
    |prefix| <= |s| && s[..|prefix|] == prefix
  }

  predicate EndsWith(s: string, suffix: string) {
    |suffix| <= |s| && s[|s| - |suffix|..] == suffix
  }

  /** A reply that both starts with "```json" and ends with "```" is at least
      ten characters long: the closing fence cannot overlap the opening one. */
  lemma FencedIsLong(reply: string)
    requires StartsWith(reply, FenceOpen) && EndsWith(reply, FenceClose)
    ensures |reply| >= |FenceOpen| + |FenceClose|
  {
    assert reply[..7] == FenceOpen;
    assert reply[|reply| - 3..] == FenceClose;
    assert reply[|reply| - 1] == '`';
    assert reply[|reply| - 3] == '`';
  }

  /** `reply[7:-3].strip()` when the reply is fenced, the reply itself otherwise. */
  function StripFence(reply: string): (r: string)
    ensures !(StartsWith(reply, FenceOpen) && EndsWith(reply, FenceClose)) ==> r == reply
    ensures StartsWith(reply, FenceOpen) && EndsWith(reply, FenceClose) ==>
      |reply| >= 10 && r == Strip(reply[7..|reply| - 3]) && |r| <= |reply| - 10
  {
    if StartsWith(reply, FenceOpen) && EndsWith(reply, FenceClose) then
      FencedIsLong(reply);
      Strip(reply[7..|reply| - 3])
    else
      reply
  }

  /** Wrapping a body in the fences and stripping them gives the body back, stripped. */
  lemma StripFenceUnwraps(body: string)
    ensures StripFence(FenceOpen + body + FenceClose) == Strip(body)
  {
    var w := FenceOpen + body + FenceClose;
    assert w[..7] == FenceOpen;
    assert w[|w| - 3..] == FenceClose;
    assert w[7..|w| - 3] == body;
  }

  // ---------------------------------------------------------------------------
  // The grades summary

  /** `f"Assignment: {name}, Score: {submission_score}/{points_possible}"` */
  function AssignmentLine(a: GradedAssignment): string {
    "Assignment: " + a.name + ", Score: " + a.submissionScore + "/" + a.pointsPossible
  }

  function AssignmentLines(xs: seq<GradedAssignment>): (r: seq<string>)
    ensures |r| == |xs|
    ensures forall i | 0 <= i < |xs| :: r[i] == AssignmentLine(xs[i])
  {
    if xs == [] then [] else [AssignmentLine(xs[0])] + AssignmentLines(xs[1..])
  }

  /** `f"Course: {course_name}\n" + "\n".join(assignment lines)` */
  function CourseBlock(c: GradedCourse): string {
    "Course: " + c.courseName + "\n" + Join(AssignmentLines(c.gradedAssignments), '\n')
  }

  function CourseBlocks(grades: seq<GradedCourse>): (r: seq<string>)
    ensures |r| == |grades|
    ensures forall i | 0 <= i < |grades| :: r[i] == CourseBlock(grades[i])
  {
    if grades == [] then [] else [CourseBlock(grades[0])] + CourseBlocks(grades[1..])
  }

  /** `"\n".join(course blocks)` */
  function GradesSummary(grades: seq<GradedCourse>): string {
    Join(CourseBlocks(grades), '\n')
  }

  /** The content of a new grades history's one system turn. */
  function GradesSystemPrompt(grades: seq<GradedCourse>): string {
    GradesPromptLead + GradesSummary(grades) + "\n"
  }

  /** Reference reading of the summary, line by line: per course its
      "Course:" line, then one "Assignment:" line per assignment (or one empty
      line when it has none), courses in input order. */
  function CourseLines(c: GradedCourse): seq<string> {
    ["Course: " + c.courseName]
      + (if c.gradedAssignments == [] then [""] else AssignmentLines(c.gradedAssignments))
  }

  function SummaryLines(grades: seq<GradedCourse>): seq<string> {
    if grades == [] then [] else CourseLines(grades[0]) + SummaryLines(grades[1..])
  }

  /** No newline inside any name or score, so each item stays on its own line. */
  predicate SingleLineFields(grades: seq<GradedCourse>) {
    forall i | 0 <= i < |grades| ::
      '\n' !in grades[i].courseName
      && forall j | 0 <= j < |grades[i].gradedAssignments| ::
           '\n' !in AssignmentLine(grades[i].gradedAssignments[j])
  }

  lemma CourseBlockLines(c: GradedCourse)
    requires '\n' !in c.courseName
    requires forall j | 0 <= j < |c.gradedAssignments| :: '\n' !in AssignmentLine(c.gradedAssignments[j])
    ensures Split(CourseBlock(c), '\n') == CourseLines(c)
  {
    var head := "Course: " + c.courseName;
    var lines := AssignmentLines(c.gradedAssignments);
    assert CourseBlock(c) == head + ['\n'] + Join(lines, '\n');
    SplitConcat(head, Join(lines, '\n'), '\n');
    SplitNoSeparator(head, '\n');
    if lines != [] {
      SplitJoin(lines, '\n');
    }
  }

  /** A course block is its reference lines joined by newlines. */
  lemma CourseJoin(c: GradedCourse)
    ensures CourseBlock(c) == Join(CourseLines(c), '\n')
  {
    var head := "Course: " + c.courseName;
    var lines := AssignmentLines(c.gradedAssignments);
    if lines == [] {
      assert CourseLines(c) == [head, ""];
      assert Join([""], '\n') == "";
    } else {
      JoinAppend([head], lines, '\n');
    }
  }

  /** For every course list, the summary is its reference lines joined by
      newlines. */
  lemma {:induction false} GradesSummaryJoin(grades: seq<GradedCourse>)
    ensures GradesSummary(grades) == Join(SummaryLines(grades), '\n')
  {
    if grades != [] {
      var rest := grades[1..];
      CourseJoin(grades[0]);
      if rest == [] {
        assert SummaryLines(grades) == CourseLines(grades[0]);
      } else {
        GradesSummaryJoin(rest);
        assert CourseBlocks(grades)[1..] == CourseBlocks(rest);
        assert SummaryLines(rest) != [] by {
          assert |CourseLines(rest[0])| >= 1;
        }
        JoinAppend(CourseLines(grades[0]), SummaryLines(rest), '\n');
      }
    }
  }

  /** The summary's lines are exactly the reference lines, in order. */
  lemma {:induction false} GradesSummaryLines(grades: seq<GradedCourse>)
    requires grades != []
    requires SingleLineFields(grades)
    ensures Split(GradesSummary(grades), '\n') == SummaryLines(grades)
  {
    CourseBlockLines(grades[0]);
    if |grades| > 1 {
      var rest := grades[1..];
      assert SingleLineFields(rest) by {
        forall i | 0 <= i < |rest| ensures '\n' !in rest[i].courseName {
          assert rest[i] == grades[i + 1];
        }
      }
      GradesSummaryLines(rest);
      var blocks := CourseBlocks(grades);
      assert blocks[1..] == CourseBlocks(rest);
      assert GradesSummary(grades) == CourseBlock(grades[0]) + ['\n'] + GradesSummary(rest);
      SplitConcat(CourseBlock(grades[0]), GradesSummary(rest), '\n');
    }
  }

  // ---------------------------------------------------------------------------
  // The histories

  /** Every grades or support history opens with its one system turn and
      holds no other; the task history is empty or its system turn followed
      by assistant turns only (user prompts are never recorded there). */
  ghost predicate WellFormed(h: seq<Turn>) {
    |h| >= 1 && h[0].role == System && forall i | 1 <= i < |h| :: h[i].role != System
  }

  ghost predicate AllWellFormed(m: map<string, seq<Turn>>) {
    forall u | u in m :: WellFormed(m[u])
  }

  /** A user or assistant turn appended to a history keeps it well formed. */
  lemma AppendTurn(m: map<string, seq<Turn>>, user: string, t: Turn)
    requires AllWellFormed(m) && user in m && t.role != System
    ensures AllWellFormed(m[user := m[user] + [t]])
  {
    var h := m[user] + [t];
    assert WellFormed(h) by {
      assert forall i | 1 <= i < |m[user]| :: h[i] == m[user][i];
    }
  }

  ghost predicate TaskHistoryShape(h: seq<Turn>) {
    h == [] || (h[0].role == System && forall i | 1 <= i < |h| :: h[i].role == Assistant)
  }

  /** A second update of the same key overrides the first. */
  lemma UpdateTwice(m: map<string, seq<Turn>>, k: string, a: seq<Turn>, b: seq<Turn>)
    ensures m[k := a][k := b] == m[k := b]
  {
  }

  /** Appending the prompt and then the reply is appending the whole exchange. */
  lemma AppendExchange(h: seq<Turn>, prompt: string, completion: Outcome<string>)
    requires completion.Success?
    ensures h + [Turn(User, prompt)] + [Turn(Assistant, ReplyText(completion.payload))] == h + ExchangeTurns(prompt, completion)
  {
  }

  /** An assistant turn appended to a started task history keeps its shape. */
  lemma AppendAssistant(h: seq<Turn>, content: string)
    requires TaskHistoryShape(h) && h != []
    ensures TaskHistoryShape(h + [Turn(Assistant, content)])
  {
    var h' := h + [Turn(Assistant, content)];
    assert forall i | 1 <= i < |h| :: h'[i] == h[i];
  }

  /** The history a user has, or the one initialisation would create. */
  function GradesHistoryOf(m: map<string, seq<Turn>>, user: string, grades: seq<GradedCourse>): seq<Turn> {
    if user in m then m[user] else [Turn(System, GradesSystemPrompt(grades))]
  }

  function SupportHistoryOf(m: map<string, seq<Turn>>, user: string): seq<Turn> {
    if user in m then m[user] else [Turn(System, SupportInstructions)]
  }

  /** The content a completion delivered, with `.strip()` applied. */
  function ReplyText(content: string): string {
    Strip(content)
  }

  /** The turns one chat request leaves in its history: the user's prompt,
      then the assistant's reply only when the call succeeded. */
  function ExchangeTurns(prompt: string, completion: Outcome<string>): (t: seq<Turn>)
    ensures 1 <= |t| <= 2 && t[0] == Turn(User, prompt)
    ensures |t| == 2 <==> completion.Success?
    ensures completion.Success? ==> t[1] == Turn(Assistant, ReplyText(completion.payload))
    ensures forall i | 0 <= i < |t| :: t[i].role != System
  {
    match completion
    case Success(content) => [Turn(User, prompt), Turn(Assistant, ReplyText(content))]
    case Failure => [Turn(User, prompt)]
  }

  /** What a chat endpoint answers: the stripped reply, or 500 with the generic detail. */
  function ChatResponse(completion: Outcome<string>): (r: Response<string>)
    ensures completion.Success? <==> r.Ok?
    ensures completion.Success? ==> r.body == ReplyText(completion.payload)
    ensures r.HttpError? ==> r == OuterHandler(ApiException)
  {
    match completion
    case Success(content) => Ok(ReplyText(content))
    case Failure => OuterHandler(ApiException)
  }

  class ChatHistories {
    var tasks: seq<Turn>
    var support: map<string, seq<Turn>>
    var grades: map<string, seq<Turn>>

    ghost predicate Valid()
      reads this
    {
      && TaskHistoryShape(tasks)
      && AllWellFormed(support)
      && AllWellFormed(grades)
    }

    constructor()
      ensures Valid()
      ensures tasks == [] && support == map[] && grades == map[]
    {
      tasks, support, grades := [], map[], map[];
    }

    /** `initialize_grades_history`: creates the history only for a user
        without one; an existing history is kept even for different grades. */
    method InitializeGradesHistory(userId: string, courses: seq<GradedCourse>)
      requires Valid()
      modifies this
      ensures Valid()
      ensures userId in old(grades) ==> grades == old(grades)
      ensures userId !in old(grades) ==> grades == old(grades)[userId := [Turn(System, GradesSystemPrompt(courses))]]
      ensures tasks == old(tasks) && support == old(support)
    {
      if userId !in grades {
        grades := grades[userId := [Turn(System, GradesSystemPrompt(courses))]];
      }
    }

    /** `initialize_support_history`: idempotent, one system turn per user. */
    method InitializeSupportHistory(userId: string)
      requires Valid()
      modifies this
      ensures Valid()
      ensures userId in old(support) ==> support == old(support)
      ensures userId !in old(support) ==> support == old(support)[userId := [Turn(System, SupportInstructions)]]
      ensures tasks == old(tasks) && grades == old(grades)
    {
      if userId !in support {
        support := support[userId := [Turn(System, SupportInstructions)]];
      }
    }

    /** `generate_task_list`: the system prompt (with the upcoming
        assignments) is appended only to an empty history; the stripped reply
        is appended as an assistant turn before it is parsed, so it stays even
        when parsing fails. Every failure answers 500 with the generic detail. */
    method GenerateTaskList<J>(upcoming: Outcome<string>, completion: Outcome<string>, parse: string -> Option<J>)
      returns (r: Response<J>)
      requires Valid()
      modifies this
      ensures Valid()
      ensures support == old(support) && grades == old(grades)
      ensures upcoming.Failure? ==> tasks == old(tasks) && r == HttpError(500, ErrorDetail)
      ensures upcoming.Success? ==>
        var seeded := if old(tasks) == [] then [Turn(System, TaskInstructions + upcoming.payload)] else old(tasks);
        && (completion.Failure? ==> tasks == seeded && r == HttpError(500, ErrorDetail))
        && (completion.Success? ==>
              var reply := ReplyText(completion.payload);
              && tasks == seeded + [Turn(Assistant, reply)]
              && (parse(StripFence(reply)).Some? ==> r == Ok(parse(StripFence(reply)).value))
              && (parse(StripFence(reply)).None? ==> r == HttpError(500, ErrorDetail)))
      ensures r.HttpError? ==> r.status == 500 && r.detail == ErrorDetail
    {
      if upcoming.Failure? {
        return OuterHandler(ApiException);
      }
      var instructions := TaskInstructions + upcoming.payload;
      if tasks == [] {
        tasks := tasks + [Turn(System, instructions)];
      }
      ghost var seeded := tasks;
      if completion.Failure? {
        return OuterHandler(ApiException);
      }
      var reply := ReplyText(completion.payload);
      AppendAssistant(tasks, reply);
      tasks := tasks + [Turn(Assistant, reply)];
      assert tasks == seeded + [Turn(Assistant, reply)];
      var unfenced := StripFence(reply);
      var parsed := parse(unfenced);
      if parsed.None? {
        // The inner `raise HTTPException(500, "Failed to parse ...")` is caught by the outer handler.
        return OuterHandler(HttpException(500, ParseErrorDetail));
      }
      r := Ok(parsed.value);
    }

    /** One `chat_history_grades[user_id].append(turn)`. */
    method AppendGradesTurn(user: string, t: Turn)
      requires Valid() && user in grades && t.role != System
      modifies this
      ensures Valid()
      ensures grades == old(grades)[user := old(grades)[user] + [t]]
      ensures tasks == old(tasks) && support == old(support)
    {
      AppendTurn(grades, user, t);
      grades := grades[user := grades[user] + [t]];
    }

    /** One `chat_history_support[user_id].append(turn)`. */
    method AppendSupportTurn(user: string, t: Turn)
      requires Valid() && user in support && t.role != System
      modifies this
      ensures Valid()
      ensures support == old(support)[user := old(support)[user] + [t]]
      ensures tasks == old(tasks) && grades == old(grades)
    {
      AppendTurn(support, user, t);
      support := support[user := support[user] + [t]];
    }

    /** `analyze_grades`: initialise the default user's history, append the
        prompt, then the stripped reply after a successful call; after a
        failed call the prompt stays in the history. */
    method AnalyzeGrades(prompt: string, courses: seq<GradedCourse>, completion: Outcome<string>)
      returns (r: Response<string>)
      requires Valid()
      modifies this
      ensures Valid()
      ensures tasks == old(tasks) && support == old(support)
      ensures grades == old(grades)[DefaultUser := GradesHistoryOf(old(grades), DefaultUser, courses) + ExchangeTurns(prompt, completion)]
      ensures r == ChatResponse(completion)
    {
      ghost var h := GradesHistoryOf(grades, DefaultUser, courses);
      ghost var before := grades;
      InitializeGradesHistory(DefaultUser, courses);
      assert grades == before[DefaultUser := h];
      AppendGradesTurn(DefaultUser, Turn(User, prompt));
      UpdateTwice(before, DefaultUser, h, h + [Turn(User, prompt)]);
      if completion.Failure? {
        return OuterHandler(ApiException);
      }
      var reply := ReplyText(completion.payload);
      AppendGradesTurn(DefaultUser, Turn(Assistant, reply));
      UpdateTwice(before, DefaultUser, h + [Turn(User, prompt)], h + [Turn(User, prompt)] + [Turn(Assistant, reply)]);
      AppendExchange(h, prompt, completion);
      r := Ok(reply);
    }

    /** `chat_with_support`: the same discipline on the support history. */
    method ChatWithSupport(prompt: string, completion: Outcome<string>)
      returns (r: Response<string>)
      requires Valid()
      modifies this
      ensures Valid()
      ensures tasks == old(tasks) && grades == old(grades)
      ensures support == old(support)[DefaultUser := SupportHistoryOf(old(support), DefaultUser) + ExchangeTurns(prompt, completion)]
      ensures r == ChatResponse(completion)
    {
      ghost var h := SupportHistoryOf(support, DefaultUser);
      ghost var before := support;
      InitializeSupportHistory(DefaultUser);
      assert support == before[DefaultUser := h];
      AppendSupportTurn(DefaultUser, Turn(User, prompt));
      UpdateTwice(before, DefaultUser, h, h + [Turn(User, prompt)]);
      if completion.Failure? {
        return OuterHandler(ApiException);
      }
      var reply := ReplyText(completion.payload);
      AppendSupportTurn(DefaultUser, Turn(Assistant, reply));
      UpdateTwice(before, DefaultUser, h + [Turn(User, prompt)], h + [Turn(User, prompt)] + [Turn(Assistant, reply)]);
      AppendExchange(h, prompt, completion);
      r := Ok(reply);
    }
  }
}
