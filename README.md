# EagleTask views and chat backend in Dafny

EagleTask is a student dashboard. Its React views show the courses and
graded assignments fetched from the school's Canvas site, and offer chat
boxes backed by a language model. Its FastAPI backend keeps the chat
histories in memory. This project models the rules those pieces follow:

- each view's state as a class whose fields are the component's `useState`
  values, and each event handler as a method;
- the value transforms the handlers use as functions: the task-list line
  parser, the pending-placeholder replacement, the dropdown and accordion
  toggles, the progress and caption steps, the render choices, the reply
  fence stripping and the grades summary;
- the backend's three module-level chat histories as one class.

Every network or language-model call is a parameter of type `Outcome<T>`
(`Success(payload)` or `Failure`). `localStorage` is `Storage.LocalStorage`,
a map from key to stored text.

Every `async` handler that awaits a request, except the one in `tasks.jsx`
(see "Left out"), is modelled twice:

- as a `Begin…` step (up to its `await`) and a `Finish…` step (after it),
  so that another event can fall between the two;
- as one method that runs both steps with nothing in between.

Behaviours of the code worth noting:

- A resolved task chat send in `Tasks.jsx` replaces every pending
  placeholder, not only its own. `Chat.FirstReplyFillsEveryPlaceholder`
  proves what happens with two sends in flight: the first reply fills both
  slots, and the second reply then finds nothing to replace.
- A task refresh clears the previous tasks before it starts. A failed
  refresh leaves only the failure entry.
- `Tasks.jsx` reads the token from the storage key `canvasApiKey`. No file
  writes that key (the login form writes `api_key`), so the token read is
  always null. It only feeds the request, which is a parameter here.
- `App.js` renders the login form without a `setLoggedIn` callback. Calling
  the callback then throws after both storage writes, and the error text is
  shown instead. `Login.LoginView.FinishSubmit` has a `hasSetLoggedIn`
  parameter that covers both cases.
- The grades chat in `Grades.jsx` clears the input only after its request
  has resolved, so text typed in the meantime is wiped, and two sends whose
  requests overlap receive their replies in the order the requests resolve.
  `Grades.GradesView.OverlappingSends` states both.
- A quiz answer submitted after the last question reads a missing question
  and throws before any state change. `Study.StudyView.HandleAnswerSubmit`
  reports this with `threw`.
- The backend's inner "Failed to parse response as JSON." error is caught
  by the outer handler. The client therefore only ever sees "Error
  communicating with OpenAI API".

Strings follow these conventions:

- Strings are `seq<char>`.
- JavaScript `trim` removes the six ASCII whitespace characters (space, tab,
  line feed, carriage return, vertical tab, form feed). Python `strip` also
  removes the four ASCII separators U+001C..U+001F, so the backend uses
  `Text.Strip` and the views use `Text.Trim`.
- `toLowerCase` maps ASCII letters only.
- `split("\n")` of the empty text gives one empty piece, as JavaScript and
  Python do.

## Model

| member | source | states |
|---|---|---|
| Text.TrimStart | eagle-task/src/components/Tasks.jsx:26 | the result is a suffix of the input, starts with a non-space, and everything dropped is whitespace |
| Text.TrimEnd | eagle-task/src/components/Tasks.jsx:26 | the result is a prefix of the input, ends with a non-space, and everything dropped is whitespace |
| Text.Trim | eagle-task/src/components/Tasks.jsx:26 | a contiguous run `s[i..j]` of the input with only whitespace before `i` and after `j`, no longer than it, no whitespace at either edge, empty exactly when the input is all whitespace, and only characters of the input |
| Text.TrimBothEnds | eagle-task/src/components/Tasks.jsx:26 | stripping the leading and then the trailing whitespace leaves nothing exactly when every character is whitespace, and keeps only characters of the input |
| Text.TrimIsRun | eagle-task/src/components/Tasks.jsx:26 | trimming both ends keeps one contiguous run of the input, and everything dropped before and after it is whitespace |
| Text.TrimmedRun | eagle-task/src/components/Tasks.jsx:26 | a prefix of a suffix of the input, where only whitespace was dropped on each side, is a run `s[i..j]` of the input with only whitespace before `i` and after `j` |
| Text.TrimEdges | eagle-task/src/components/Tasks.jsx:26 | trimming both ends leaves no whitespace at either edge |
| Text.TrimIdempotent | eagle-task/src/components/Tasks.jsx:26 | trimming a trimmed text changes nothing |
| Text.StripStart | openai_api.py:179 | the result is a suffix of the input, starts with a non-space, and everything dropped is Python whitespace |
| Text.StripEnd | openai_api.py:179 | the result is a prefix of the input, ends with a non-space, and everything dropped is Python whitespace |
| Text.Strip | openai_api.py:179 | a contiguous run `s[i..j]` of the input with only Python whitespace before `i` and after `j`, no longer than it, with no Python whitespace at either edge, and empty exactly when the input is all Python whitespace |
| Text.StripIsRun | openai_api.py:179 | stripping both ends keeps one contiguous run of the input, and everything dropped before and after it is Python whitespace |
| Text.StrippedRun | openai_api.py:179 | the same run argument on plain texts for Python whitespace |
| Text.StripEmptyIffBlank | openai_api.py:179 | stripping both ends leaves nothing exactly when every character is Python whitespace |
| Text.StrippedEmpty | openai_api.py:179 | on plain texts: when the part left after dropping leading Python whitespace starts with a non-space, dropping trailing Python whitespace from it leaves nothing exactly when the whole input is Python whitespace |
| Text.StripIsTrim | openai_api.py:179 | on text without the separators U+001C..U+001F, Python `strip` and JavaScript `trim` give the same result |
| Text.StripStartIsTrimStart | openai_api.py:179 | the same agreement for the leading side |
| Text.StripEndIsTrimEnd | openai_api.py:179 | the same agreement for the trailing side |
| Text.StripRemovesSeparators | openai_api.py:179 | a lone U+001C is removed by `strip` and kept by `trim` |
| Text.BlankIffAllSpace | eagle-task/src/components/Tasks.jsx:40 | a text is blank exactly when every character is whitespace |
| Text.BlankIsTrimEmpty | eagle-task/src/components/Tasks.jsx:40 | a text is blank exactly when trimming it leaves the empty text |
| Text.IsBlank | eagle-task/src/components/Tasks.jsx:40 | the blank guard, read character by character; `Text.BlankIffAllSpace` and `Text.BlankIsTrimEmpty` state what it means |
| Text.LowerChar | eagle-task/src/components/Study.jsx:42 | each upper-case ASCII letter becomes its own lower-case letter (code point plus 32); every other character is kept |
| Text.Lower | eagle-task/src/components/Study.jsx:42 | the same length, mapped character by character |
| Text.Split | eagle-task/src/components/Tasks.jsx:25 | at least one piece, and no piece contains the separator |
| Text.SplitNoSeparator | eagle-task/src/components/Tasks.jsx:25 | a text without the separator splits into itself alone |
| Text.SplitCons | eagle-task/src/components/Tasks.jsx:25 | a leading separator opens a new empty piece; any other leading character joins the first piece of the rest |
| Text.SplitConcat | eagle-task/src/components/Tasks.jsx:25 | splitting `a + sep + b` gives the pieces of `a` followed by the pieces of `b` |
| Text.SplitJoin | eagle-task/src/components/Tasks.jsx:25 | joining separator-free pieces and splitting again gives the pieces back |
| Text.JoinSplit | eagle-task/src/components/Tasks.jsx:25 | splitting a text and joining the pieces again gives the text back |
| Text.Join | openai_api.py:60-66 | `sep.join(pieces)`; `Text.SplitJoin`, `Text.JoinSplit` and `Text.JoinAppend` state its properties |
| Text.JoinAppend | openai_api.py:60-66 | joining two non-empty lists is joining each, with one separator between |
| TaskLines.TrimAll | eagle-task/src/components/Tasks.jsx:26 | the same length, each line trimmed in place |
| TaskLines.DropEmpty | eagle-task/src/components/Tasks.jsx:27 | exactly the non-empty entries are kept: no empty entry is left, every non-empty one stays, nothing is added, and the length never grows; `TaskLines.DropEmptyConcat` and `TaskLines.DropEmptyAllNonEmpty` fix the order |
| TaskLines.ParseTaskList | eagle-task/src/components/Tasks.jsx:24-27 | every task is non-empty, trimmed and free of newlines |
| TaskLines.TrimmedLines | eagle-task/src/components/Tasks.jsx:25-26 | trimmed newline-free lines are trimmed and newline-free |
| TaskLines.TrimAllConcat | eagle-task/src/components/Tasks.jsx:26 | trimming distributes over concatenation |
| TaskLines.DropEmptyConcat | eagle-task/src/components/Tasks.jsx:27 | dropping empty entries distributes over concatenation |
| TaskLines.TrimAllTrimmed | eagle-task/src/components/Tasks.jsx:26 | already-trimmed lines are kept exactly |
| TaskLines.DropEmptyAllNonEmpty | eagle-task/src/components/Tasks.jsx:27 | a list with no empty entry is kept exactly |
| TaskLines.ParseOneLine | eagle-task/src/components/Tasks.jsx:24-27 | one line gives its trimmed text, or no task when it is blank |
| TaskLines.ParseConcat | eagle-task/src/components/Tasks.jsx:24-27 | order is kept: the tasks of `a + "\n" + b` are those of `a` followed by those of `b` |
| TaskLines.ParseJoin | eagle-task/src/components/Tasks.jsx:24-27 | non-empty trimmed single-line tasks, joined with newlines, parse back to exactly themselves |
| TaskLines.ParseIdempotent | eagle-task/src/components/Tasks.jsx:24-27 | re-parsing the joined task list gives the same list |
| Chat.ReplaceLoading | eagle-task/src/components/Tasks.jsx:53-62 | the same length; every pending entry becomes the reply; every other entry keeps its value and position; a non-pending reply leaves nothing pending |
| Chat.ReplaceLoadingIdempotent | eagle-task/src/components/Tasks.jsx:53-55 | once the reply is not pending, a second replacement changes nothing |
| Chat.FirstReplyFillsEveryPlaceholder | eagle-task/src/components/Tasks.jsx:42-62 | with two sends in flight, the first reply fills both placeholders and the second reply changes nothing |
| Tasks.ReplyFor | eagle-task/src/components/Tasks.jsx:51-60 | a non-pending bot entry carrying the response text, or the apology on failure |
| Tasks.RefreshedList | eagle-task/src/components/Tasks.jsx:24-32 | on failure exactly the one failure entry; on success non-empty trimmed tasks that survive a join-and-parse round trip |
| Tasks.TasksView.constructor | eagle-task/src/components/Tasks.jsx:8-14 | empty transcript, list and input; no request in flight |
| Tasks.TasksView.OnInputChange | eagle-task/src/components/Tasks.jsx:167 | only the input changes |
| Tasks.TasksView.BeginRefresh | eagle-task/src/components/Tasks.jsx:18-19 | the list becomes the single loading entry and `loadingTasks` is set |
| Tasks.TasksView.FinishRefresh | eagle-task/src/components/Tasks.jsx:21-35 | the list is wholly replaced by the parsed lines or by the failure entry; `loadingTasks` ends false; nothing else changes |
| Tasks.TasksView.RefreshTasks | eagle-task/src/components/Tasks.jsx:17-36 | the whole refresh: the previous tasks are never kept |
| Tasks.TasksView.BeginSend | eagle-task/src/components/Tasks.jsx:39-47 | a blank message changes nothing; otherwise exactly the user entry and then a pending placeholder are appended, the input is cleared and `loadingResponse` is set |
| Tasks.TasksView.FinishSend | eagle-task/src/components/Tasks.jsx:49-65 | every pending entry becomes the reply or the apology; nothing is pending afterwards and `loadingResponse` is false |
| Tasks.TasksView.SendMessage | eagle-task/src/components/Tasks.jsx:39-66 | with nothing pending before, a send appends exactly the user entry and the reply; a blank message changes nothing |
| Tasks.TasksView.ClearMessages | eagle-task/src/components/Tasks.jsx:75-77 | the transcript becomes empty and nothing else changes |
| TasksPrompt.TasksPromptView.constructor | eagle-task/src/components/tasks.jsx:6-8 | empty transcript, list and input |
| TasksPrompt.TasksPromptView.OnInputChange | eagle-task/src/components/tasks.jsx:65 | only the input changes |
| TasksPrompt.TasksPromptView.SendMessage | eagle-task/src/components/tasks.jsx:11-37 | blank input: no change; success: user then bot entry appended and the list wholly replaced by the parsed lines; failure: only the user entry and the list kept; the input is cleared after either outcome |
| Courses.Toggle | eagle-task/src/components/Grades.jsx:24 | the open state is flipped; name and assignments are kept |
| Courses.ToggleDropdown | eagle-task/src/components/Grades.jsx:21-29 | the same length; every other course unchanged; the course at the index flips its open state and keeps its content; an out-of-range index changes nothing |
| Courses.ToggleTwice | eagle-task/src/components/Grades.jsx:24 | two toggles of one index restore every course's open state and content; the list is restored exactly unless that course had no `isOpen` yet |
| Courses.LoadOnMount | eagle-task/src/components/Grades.jsx:12-19 | the stored list is loaded only when the stored text is present and non-empty; otherwise the list is empty |
| Grades.GradesView.constructor | eagle-task/src/components/Grades.jsx:5-19 | the mount load, empty without stored data; empty transcript and input |
| Grades.GradesView.OnInputChange | eagle-task/src/components/Grades.jsx:142 | only the input changes |
| Grades.GradesView.ToggleDropdown | eagle-task/src/components/Grades.jsx:21-29 | the course list becomes its toggle; nothing else changes |
| Grades.GradesView.BeginSend | eagle-task/src/components/Grades.jsx:31-35 | blank: no change; otherwise the user entry is appended; the input and the courses are untouched |
| Grades.GradesView.FinishSend | eagle-task/src/components/Grades.jsx:42-54 | the bot entry is appended to the transcript as it is then, only after success; the input is cleared either way; courses untouched |
| Grades.GradesView.SendMessage | eagle-task/src/components/Grades.jsx:31-55 | the two halves with nothing between: blank: no change; success: user then bot entry; failure: user entry only; the input is cleared after any send; courses untouched |
| Grades.GradesView.OverlappingSends | eagle-task/src/components/Grades.jsx:31-55 | two sends with text typed between them, the second resolving first: both user entries, then the replies in resolution order; the typed text is wiped unless both messages were blank |
| GradesPage.GradesPageView.constructor | eagle-task/src/components/grades.jsx:5-16 | the mount load, empty without stored data |
| GradesPage.GradesPageView.ToggleDropdown | eagle-task/src/components/grades.jsx:18-26 | the course list becomes its toggle |
| Support.BotReply | eagle-task/src/components/Support.jsx:34 | the fixed lead, then the message, then the fixed tail, each at its position |
| Support.BotReplyInjective | eagle-task/src/components/Support.jsx:34 | different messages get different replies |
| Support.ResourceNamesNotBlank | eagle-task/src/components/Support.jsx:10-16 | there are five resources and none has a blank name |
| Support.SupportView.constructor | eagle-task/src/components/Support.jsx:5-6 | empty transcript and input |
| Support.SupportView.OnInputChange | eagle-task/src/components/Support.jsx:104 | only the input changes |
| Support.SupportView.SendMessage | eagle-task/src/components/Support.jsx:26-43 | blank: no change; otherwise exactly the user entry and the templated bot entry are appended and the input is cleared |
| Support.SupportView.ClickResource | eagle-task/src/components/Support.jsx:62 | a card click always appends the resource's name and its templated reply |
| Study.IsCorrectIgnoresCase | eagle-task/src/components/Study.jsx:42 | lower-casing the answer does not change whether it is accepted, and the expected answer is accepted |
| Study.IsCorrect | eagle-task/src/components/Study.jsx:42 | the answer test `userAnswer.toLowerCase() === answer.toLowerCase()`; `Study.IsCorrectIgnoresCase` states its properties |
| Study.StudyView.constructor | eagle-task/src/components/Study.jsx:4-11 | the initial state, satisfying the quiz invariant |
| Study.StudyView.HandleFileUpload | eagle-task/src/components/Study.jsx:14-19 | the file is kept and both panels are hidden |
| Study.StudyView.GenerateSummary | eagle-task/src/components/Study.jsx:22-25 | the placeholder summary is set and shown |
| Study.StudyView.GenerateQuiz | eagle-task/src/components/Study.jsx:28-38 | exactly the three questions, cursor and score 0, quiz shown |
| Study.StudyView.OnAnswerChange | eagle-task/src/components/Study.jsx:115 | only the answer changes |
| Study.StudyView.HandleAnswerSubmit | eagle-task/src/components/Study.jsx:41-48 | a case-insensitive match adds one point and anything else none; the cursor advances by one and the answer is cleared; past the end it throws with no change; score <= cursor <= length is kept |
| Study.StudyView.RestartQuiz | eagle-task/src/components/Study.jsx:51-55 | cursor and score back to 0 and the quiz hidden; the questions are kept |
| Study.StudyView.QuizView | eagle-task/src/components/Study.jsx:107-128 | a question exactly when the quiz is shown and the cursor is inside the list; the score of the total exactly when it is shown and the cursor has passed the end |
| Study.StudyView.SummaryShown | eagle-task/src/components/Study.jsx:86-100 | the summary is shown exactly when `showSummary` |
| Study.Score | eagle-task/src/components/Study.jsx:41-48 | the points the first answers earn, one per case-insensitive match with its question's answer, never more than the answers given |
| Study.StudyView.AnswerAll | eagle-task/src/components/Study.jsx:41-48 | typing and submitting each answer from a fresh quiz: the cursor stops at the end, the score is `Study.Score` of the answers inside the quiz, later submits throw and change nothing, and a finished quiz shows its score |
| Help.NextOpen | eagle-task/src/components/Help.jsx:17-19 | clicking the open step closes it; clicking any other step opens exactly that one |
| Help.OpenSteps | eagle-task/src/components/Help.jsx:45 | at most one body is shown, and it is the open step's |
| Help.AfterClicksOpensLast | eagle-task/src/components/Help.jsx:17-19 | after any run of clicks all steps are closed or the last-clicked one is open |
| Help.AfterClicks | eagle-task/src/components/Help.jsx:17-19 | the open step after a series of clicks from the initial state; `Help.AfterClicksOpensLast` and `Help.DoubleClick` state its properties |
| Help.DoubleClick | eagle-task/src/components/Help.jsx:18 | two clicks on one step close everything unless that step was open before; from all-closed they return to all-closed |
| Help.HelpView.constructor | eagle-task/src/components/Help.jsx:5 | no step is open |
| Help.HelpView.ToggleAccordion | eagle-task/src/components/Help.jsx:17-19 | the open step becomes the next open step |
| Help.HelpView.Shown | eagle-task/src/components/Help.jsx:45 | at most one body on screen, none when all are closed |
| Loading.NextProgress | eagle-task/src/components/Loading.jsx:20 | one more below 100, otherwise 100; never decreasing and never above 100 |
| Loading.ProgressAfter | eagle-task/src/components/Loading.jsx:15-20 | the bar after n ticks from 0 stays within 0..100; `Loading.ProgressAfterIsMin` gives its value |
| Loading.ProgressAfterIsMin | eagle-task/src/components/Loading.jsx:15-20 | after n ticks from 0 the bar is at the smaller of n and 100 |
| Loading.FindIndex | eagle-task/src/components/Loading.jsx:39 | the first matching position, or -1 exactly when the text is absent |
| Loading.NextIn | eagle-task/src/components/Loading.jsx:38-41 | the following caption is always one of the list; a caption not in the list is followed by the first |
| Loading.NextInAdvances | eagle-task/src/components/Loading.jsx:38-41 | in a list of distinct captions each caption is followed by the next, and the last by the first |
| Loading.NextMessage | eagle-task/src/components/Loading.jsx:38-41 | always one of the six captions; an unknown caption is followed by the first; the last wraps to the first |
| Loading.NextMessageAdvances | eagle-task/src/components/Loading.jsx:40 | every caption but the last is followed by the next one |
| Loading.FirstRotation | eagle-task/src/components/Loading.jsx:14-41 | the start-up caption is not one of the six, so the first rotation shows the first of them |
| Loading.FindIndexOfDistinct | eagle-task/src/components/Loading.jsx:39 | in a list of distinct captions each caption is found at its own position |
| Loading.MessagesDistinct | eagle-task/src/components/Loading.jsx:4-11 | the six captions are pairwise different |
| Loading.LoadingScreen.constructor | eagle-task/src/components/Loading.jsx:13-15 | bar shown at 0 with the start-up caption |
| Loading.LoadingScreen.ProgressTick | eagle-task/src/components/Loading.jsx:18-21 | progress steps only while the bar is shown, within 0..100, never decreasing |
| Loading.LoadingScreen.HideProgressBar | eagle-task/src/components/Loading.jsx:23-26 | the bar is hidden; nothing else changes |
| Loading.LoadingScreen.RotateTick | eagle-task/src/components/Loading.jsx:36-42 | the caption rotates only while the bar is hidden, always to one of the six |
| LoadingIndicator.CaptionAfter | eagle-task/src/components/LoadingIndicator.jsx:23-29 | always one of the nine captions; caption k up to the last, which then stays |
| LoadingIndicator.Indicator.constructor | eagle-task/src/components/LoadingIndicator.jsx:16-19 | the first caption; the interval runs only while `loading` |
| LoadingIndicator.Indicator.LoadingChanged | eagle-task/src/components/LoadingIndicator.jsx:18-34 | a new run restarts the counter at 0 and is active only when `loading`; the caption is kept |
| LoadingIndicator.Indicator.Tick | eagle-task/src/components/LoadingIndicator.jsx:23-30 | with no interval nothing happens; otherwise the counter advances, the caption becomes entry k below nine, and at nine the interval is cleared and the caption stays |
| LoadingIndicator.Indicator.TickTimes | eagle-task/src/components/LoadingIndicator.jsx:18-30 | n ticks from the start of a run: the counter stops at nine, the interval is cleared exactly when nine ticks have passed, the caption is `LoadingIndicator.CaptionAfter(n)`, from eight ticks on it is the last caption, and zero ticks leave the caption as it was |
| Login.LoginView.constructor | eagle-task/src/components/Login.jsx:7-9 | empty token and error, not loading |
| Login.LoginView.OnKeyChange | eagle-task/src/components/Login.jsx:44 | only the token changes |
| Login.LoginView.BeginSubmit | eagle-task/src/components/Login.jsx:12-14 | `loading` is set |
| Login.LoginView.FinishSubmit | eagle-task/src/components/Login.jsx:15-26 | success writes both keys, then logs in and routes to "/" (or shows the error when no callback was passed); failure leaves storage exactly as it was and sets the error; `loading` ends false |
| Login.LoginView.HandleSubmit | eagle-task/src/components/Login.jsx:12-27 | the whole submit, with the same outcomes |
| Login.LoginView.View | eagle-task/src/components/Login.jsx:29-37 | the start-up screen exactly while loading; the error paragraph exactly when the error is non-empty |
| Storage.LocalStorage.SetItem | eagle-task/src/components/Login.jsx:17-18 | only the written key changes |
| Storage.LocalStorage.GetItem | eagle-task/src/components/Grades.jsx:14 | `getItem(key)`: the stored text, or null for an absent key; `Storage.LocalStorage.SetItem` states what writes do |
| Calendar.SelectScreen | eagle-task/src/components/Calendar.jsx:39-63 | loading first, then a non-empty error, then the no-events notice, then the list |
| Calendar.CalendarView.constructor | eagle-task/src/components/Calendar.jsx:6-8 | no events, loading, no error |
| Calendar.CalendarView.BeginFetch | eagle-task/src/components/Calendar.jsx:12-22 | with a stored token: loading and error cleared, and the token is returned; without one: the missing-key error, `loading` false and no request |
| Calendar.CalendarView.FinishFetch | eagle-task/src/components/Calendar.jsx:24-30 | success replaces the events; failure sets the error and keeps the events; `loading` ends false |
| Calendar.CalendarView.FetchCalendar | eagle-task/src/components/Calendar.jsx:12-31 | the whole fetch with its three outcomes |
| OpenAiApi.OuterHandler | openai_api.py:198-200 | whatever was raised, the answer is 500 with the generic detail |
| OpenAiApi.ParseErrorIsSwallowed | openai_api.py:194-200 | the parse error's own detail never reaches the client |
| OpenAiApi.FencedIsLong | openai_api.py:186 | a reply with both fences is at least ten characters long |
| OpenAiApi.StripFence | openai_api.py:186-187 | a reply without both fences is unchanged; a fenced one becomes its stripped inside, at least ten characters shorter |
| OpenAiApi.StripFenceUnwraps | openai_api.py:186-187 | wrapping a body in the fences and stripping them gives the body with Python `strip` applied |
| OpenAiApi.AssignmentLines | openai_api.py:62-65 | one "Assignment:" line per assignment, in order |
| OpenAiApi.AssignmentLine | openai_api.py:63-64 | the "Assignment: name, Score: score/points" line; `OpenAiApi.AssignmentLines` and `OpenAiApi.GradesSummaryJoin` state how it is used |
| OpenAiApi.CourseBlock | openai_api.py:61-65 | the "Course:" line, a newline and the assignment lines; `OpenAiApi.CourseJoin` states its lines |
| OpenAiApi.GradesSummary | openai_api.py:60-66 | the course blocks joined by newlines; `OpenAiApi.GradesSummaryJoin` and `OpenAiApi.GradesSummaryLines` state its lines |
| OpenAiApi.GradesSystemPrompt | openai_api.py:68-75 | the grades system turn's content: the fixed lead, the summary and a final newline |
| OpenAiApi.CourseJoin | openai_api.py:61-65 | a course block is its reference lines (its "Course:" line, then its assignment lines or one empty line) joined by newlines |
| OpenAiApi.GradesSummaryJoin | openai_api.py:60-66 | for every course list, the summary is the reference lines of all courses, in order, joined by newlines |
| OpenAiApi.CourseBlocks | openai_api.py:60-66 | one block per course: block i is the block of course i |
| OpenAiApi.CourseBlockLines | openai_api.py:61-65 | a course block reads as its "Course:" line followed by its assignment lines |
| OpenAiApi.GradesSummaryLines | openai_api.py:60-66 | the summary's lines are, in input order, each course's "Course:" line and its assignment lines (an empty line for a course with none) |
| OpenAiApi.AppendTurn | openai_api.py:214 | appending a user or assistant turn keeps every history opening with its one system turn |
| OpenAiApi.AppendAssistant | openai_api.py:180 | appending the assistant's reply to a started task history keeps its shape: one system turn, first |
| OpenAiApi.ExchangeTurns | openai_api.py:214-224 | the user's prompt always, then the stripped reply exactly when the call succeeded; never a system turn |
| OpenAiApi.ChatResponse | openai_api.py:223-230 | the stripped reply exactly when the call succeeded, otherwise 500 with the generic detail |
| OpenAiApi.ChatHistories.constructor | openai_api.py:53-55 | all three histories empty |
| OpenAiApi.ChatHistories.InitializeGradesHistory | openai_api.py:58-76 | a history is created only for an absent user, as one system turn with the summary; an existing one is untouched |
| OpenAiApi.ChatHistories.InitializeSupportHistory | openai_api.py:79-81 | create-once: an existing history is untouched |
| OpenAiApi.ChatHistories.AppendGradesTurn | openai_api.py:214 | the turn is added at the end of that user's grades history; the other histories are unchanged |
| OpenAiApi.ChatHistories.AppendSupportTurn | openai_api.py:242 | the turn is added at the end of that user's support history; the other histories are unchanged |
| OpenAiApi.ChatHistories.GenerateTaskList | openai_api.py:140-200 | the system turn only into an empty history; the whitespace-stripped reply appended before the fence is removed, and kept when parsing fails; success answers the parsed unfenced reply; every failure answers 500 with the generic detail |
| OpenAiApi.ChatHistories.AnalyzeGrades | openai_api.py:205-230 | the default user's grades history becomes its existing (or newly initialised) history plus the prompt, plus the stripped reply only after success; the answer is the reply, or 500 with the generic detail; the other histories are unchanged |
| OpenAiApi.ChatHistories.ChatWithSupport | openai_api.py:234-259 | the default user's support history becomes its existing history, or a new one holding only the support system turn, plus the prompt, plus the stripped reply only after success; the answer is the reply, or 500 with the generic detail; the other histories are unchanged |

## Left out

- Rendering: markup, styling, markdown rendering, the calendar widget, routing beyond the recorded route, scrolling, and the emoji arrows of the accordion are not modelled.
- `JSON.parse`, `JSON.stringify` and `json.loads` are function parameters or opaque stored text. The formatting of `upcoming_tasks` into the task prompt is taken as given text.
- The Canvas lookups, the language-model calls and the HTTP client are `Outcome` parameters. A missing `content` in a completion counts as a failed call.
- Timers: the 100 ms, 1.5 s and 10 s timings and the cleanup functions are not modelled. Each callback firing is one method call.
- Trimming, stripping and lower-casing cover ASCII only: `Text.Trim` removes the six ASCII whitespace characters, and `Text.Strip` also removes U+001C..U+001F. Non-ASCII whitespace (U+0085, U+00A0, U+FEFF and the Unicode space separators, which `trim` or `strip` also remove) and non-ASCII case mapping are not modelled.
- Scores are kept as the text they are formatted to. Python float formatting and the percentage display in `Grades.jsx` (a float division with `toFixed`) are not modelled.
- The task and support instruction texts are abbreviated to their first sentence (`OpenAiApi.TaskInstructions`, `OpenAiApi.SupportInstructions`). The rest is fixed text that no rule depends on.
- In `tasks.jsx` the user entry is appended from the captured `messages` value rather than with an updater function. Interleaving with another update in flight is not modelled; `TasksPrompt.TasksPromptView.SendMessage` runs with nothing in between.
- `Tasks.jsx`'s task-list/calendar view switch and selected date are not modelled (presentation only). Its `canvasApiKey` read feeds the request, which is a parameter.
- Study's uploaded file is an `Option<string>` name. The file contents are never read by the source.
- `OpenAiApi.GradesSummaryLines`: the split form is stated for non-empty course lists whose names and scores contain no newline. A newline inside a field would split a line, and the empty list gives the empty summary. `OpenAiApi.GradesSummaryJoin` states the summary's value for every course list.
- Logging (`console.log`, `logger.info`) is not modelled.
