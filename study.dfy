/** The study assistant (eagle-task/src/components/Study.jsx): a file upload,
    a placeholder summary, and a fixed three-question quiz answered one
    question at a time. */
module Study {
  import opened Text
  import opened Outcomes

  datatype QuizQuestion = QuizQuestion(question: string, answer: string)

  const SummaryText := "This is a summary of the uploaded notes. It will be replaced by AI-generated content."

  /** The three questions `generateQuiz` sets. */
  const DummyQuestions: seq<QuizQuestion> := [
    QuizQuestion("What is the main topic of the notes?", "Main topic"),
    QuizQuestion("List one key point from the notes.", "Key point"),
    QuizQuestion("What is the conclusion of the notes?", "Conclusion")
  ]

  /** What the quiz panel shows. */
  datatype QuizPanel =
    | AskQuestion(question: string)
    | Complete(score: nat, total: nat)
    | NoQuiz

  /** `userAnswer.toLowerCase() === expected.toLowerCase()` */
  predicate IsCorrect(userAnswer: string, expected: string) {
    EqualsIgnoreCase(userAnswer, expected)
  }

  /** An answer is accepted whatever its letter case. */
  lemma IsCorrectIgnoresCase(userAnswer: string, expected: string)
    ensures IsCorrect(Lower(userAnswer), expected) == IsCorrect(userAnswer, expected)
    ensures IsCorrect(expected, expected)
  {
    assert Lower(Lower(userAnswer)) == Lower(userAnswer);
  }

  /** The points earned by answering the first `|answers|` questions in order. */
  function Score(answers: seq<string>, questions: seq<QuizQuestion>): (n: nat)
    requires |answers| <= |questions|
    ensures n <= |answers|
  {
    if answers == [] then 0
    else
      var k := |answers| - 1;
      Score(answers[..k], questions) + (if IsCorrect(answers[k], questions[k].answer) then 1 else 0)
  }

  function Min(a: nat, b: nat): nat {
    if a < b then a else b
  }

  class StudyView {
    var uploadedFile: Option<string>
    var notesSummary: string
    var quizQuestions: seq<QuizQuestion>
    var currentQuestion: nat
    var userAnswer: string
    var score: nat
    var showSummary: bool
    var showQuiz: bool

    /** The score never exceeds the number of questions answered, the cursor
        never passes the end, and the questions are none or the fixed three. */
    ghost predicate Valid()
      reads this
    {
      && score <= currentQuestion <= |quizQuestions|
      && (quizQuestions == [] || quizQuestions == DummyQuestions)
    }

    constructor()
      ensures Valid()
      ensures uploadedFile == None && notesSummary == "" && quizQuestions == []
      ensures currentQuestion == 0 && userAnswer == "" && score == 0
      ensures !showSummary && !showQuiz
    {
      uploadedFile, notesSummary, quizQuestions := None, "", [];
      currentQuestion, userAnswer, score := 0, "", 0;
      showSummary, showQuiz := false, false;
    }

    /** `handleFileUpload`: the chosen file (or none, if the picker was
        cancelled) is kept and both panels are hidden. */
    method HandleFileUpload(file: Option<string>)
      requires Valid()
      modifies this
      ensures Valid()
      ensures uploadedFile == file && !showSummary && !showQuiz
      ensures notesSummary == old(notesSummary) && quizQuestions == old(quizQuestions)
      ensures currentQuestion == old(currentQuestion) && score == old(score) && userAnswer == old(userAnswer)
    {
      uploadedFile := file;
      showSummary := false;
      showQuiz := false;
    }

    /** `generateSummary` */
    method GenerateSummary()
      requires Valid()
      modifies this
      ensures Valid()
      ensures notesSummary == SummaryText && showSummary
      ensures uploadedFile == old(uploadedFile) && showQuiz == old(showQuiz) && quizQuestions == old(quizQuestions)
      ensures currentQuestion == old(currentQuestion) && score == old(score) && userAnswer == old(userAnswer)
    {
      notesSummary := SummaryText;
      showSummary := true;
    }

    /** `generateQuiz`: exactly three questions, cursor and score at 0, quiz shown. */
    method GenerateQuiz()
      requires Valid()
      modifies this
      ensures Valid()
      ensures quizQuestions == DummyQuestions && |quizQuestions| == 3
      ensures currentQuestion == 0 && score == 0 && showQuiz
      ensures uploadedFile == old(uploadedFile) && notesSummary == old(notesSummary)
      ensures showSummary == old(showSummary) && userAnswer == old(userAnswer)
    {
      quizQuestions := DummyQuestions;
      currentQuestion := 0;
      score := 0;
      showQuiz := true;
    }

    method OnAnswerChange(text: string)
      requires Valid()
      modifies this
      ensures Valid()
      ensures userAnswer == text
      ensures uploadedFile == old(uploadedFile) && notesSummary == old(notesSummary) && quizQuestions == old(quizQuestions)
      ensures currentQuestion == old(currentQuestion) && score == old(score)
      ensures showSummary == old(showSummary) && showQuiz == old(showQuiz)
    {
      userAnswer := text;
    }

    /** `handleAnswerSubmit`: a case-insensitive match adds exactly one point;
        the cursor always advances by one and the answer box is cleared. With
        the cursor past the last question, `quizQuestions[currentQuestion]` is
        undefined and reading `.answer` throws before any state change. */
    method HandleAnswerSubmit() returns (threw: bool)
      requires Valid()
      modifies this
      ensures Valid()
      ensures threw == (old(currentQuestion) >= |quizQuestions|)
      ensures threw ==> currentQuestion == old(currentQuestion) && score == old(score) && userAnswer == old(userAnswer)
      ensures !threw ==> currentQuestion == old(currentQuestion) + 1 && userAnswer == ""
      ensures !threw ==> score == old(score) + (if IsCorrect(old(userAnswer), quizQuestions[old(currentQuestion)].answer) then 1 else 0)
      ensures uploadedFile == old(uploadedFile) && notesSummary == old(notesSummary) && quizQuestions == old(quizQuestions)
      ensures showSummary == old(showSummary) && showQuiz == old(showQuiz)
    {
      if currentQuestion >= |quizQuestions| {
        return true;
      }
      var isCorrect := IsCorrect(userAnswer, quizQuestions[currentQuestion].answer);
      if isCorrect {
        score := score + 1;
      }
      userAnswer := "";
      currentQuestion := currentQuestion + 1;
      threw := false;
    }

    /** The user types each answer and submits it, from a fresh quiz. After
        the last question every further submit throws and changes nothing, so
        the cursor stops at the end and the score counts the correct answers
        among the first ones. */
    method AnswerAll(answers: seq<string>)
      requires Valid() && currentQuestion == 0 && score == 0
      modifies this
      ensures Valid()
      ensures var k := Min(|answers|, |quizQuestions|);
        currentQuestion == k && score == Score(answers[..k], quizQuestions)
      ensures userAnswer == if answers == [] then old(userAnswer)
                            else if |answers| > |quizQuestions| then answers[|answers| - 1]
                            else ""
      ensures showQuiz && |answers| >= |quizQuestions| ==> QuizView() == Complete(score, |quizQuestions|)
      ensures uploadedFile == old(uploadedFile) && notesSummary == old(notesSummary) && quizQuestions == old(quizQuestions)
      ensures showSummary == old(showSummary) && showQuiz == old(showQuiz)
    {
      var i := 0;
      while i < |answers|
        invariant 0 <= i <= |answers|
        invariant Valid()
        invariant currentQuestion == Min(i, |quizQuestions|)
        invariant score == Score(answers[..Min(i, |quizQuestions|)], quizQuestions)
        invariant userAnswer == if i == 0 then old(userAnswer)
                                else if i > |quizQuestions| then answers[i - 1]
                                else ""
        invariant uploadedFile == old(uploadedFile) && notesSummary == old(notesSummary) && quizQuestions == old(quizQuestions)
        invariant showSummary == old(showSummary) && showQuiz == old(showQuiz)
      {
        OnAnswerChange(answers[i]);
        var threw := HandleAnswerSubmit();
        if !threw {
          assert answers[..i + 1][..i] == answers[..i];
        }
        i := i + 1;
      }
    }

    /** `restartQuiz`: cursor and score back to 0 and the quiz hidden; the
        questions are kept. */
    method RestartQuiz()
      requires Valid()
      modifies this
      ensures Valid()
      ensures currentQuestion == 0 && score == 0 && !showQuiz
      ensures quizQuestions == old(quizQuestions)
      ensures uploadedFile == old(uploadedFile) && notesSummary == old(notesSummary)
      ensures showSummary == old(showSummary) && userAnswer == old(userAnswer)
    {
      currentQuestion := 0;
      score := 0;
      showQuiz := false;
    }

    /** The quiz panel: a question while the cursor is inside the list, the
        score once it has passed the end, nothing while the quiz is hidden. */
    function QuizView(): (p: QuizPanel)
      reads this
      ensures p.AskQuestion? <==> showQuiz && currentQuestion < |quizQuestions|
      ensures p.AskQuestion? ==> p.question == quizQuestions[currentQuestion].question
      ensures p.Complete? <==> showQuiz && currentQuestion >= |quizQuestions|
      ensures p.Complete? ==> p.score == score && p.total == |quizQuestions|
      ensures p.NoQuiz? <==> !showQuiz
    {
      if showQuiz && currentQuestion < |quizQuestions| then AskQuestion(quizQuestions[currentQuestion].question)
      else if showQuiz && currentQuestion >= |quizQuestions| then Complete(score, |quizQuestions|)
      else NoQuiz
    }

    /** The summary text and the "Quiz Me" button are shown exactly when `showSummary`. */
    function SummaryShown(): (shown: Option<string>)
      reads this
      ensures shown.Some? <==> showSummary
      ensures shown.Some? ==> shown.value == notesSummary
    {
      if showSummary then Some(notesSummary) else None
    }
  }
}
