/**
 * The quiz runner of the study dashboard: a list of multiple-choice questions
 * fetched once, a cursor over them, the answer picked for the current
 * question, whether it has been checked, a running score and a finished flag.
 * Each event handler of the view is one method; the buttons the view renders
 * in each state are the preconditions of those methods.
 */
module Quiz {
  import opened Wrappers

  datatype QuizQuestion = QuizQuestion(question: string, options: seq<string>, correctAnswer: string)

  /** What the quiz request delivered: the `quizzes` field of the reply (absent is `None`), or a failure. */
  datatype FetchOutcome = Fetched(quizzes: Option<seq<QuizQuestion>>) | FetchFailed

  /** Number of `true` entries: the questions answered correctly among those checked. */
  function CountCorrect(checked: seq<bool>): nat {
    if checked == [] then 0
    else CountCorrect(checked[..|checked| - 1]) + if checked[|checked| - 1] then 1 else 0
  }

  /** No more questions are answered correctly than are checked. */
  lemma {:induction false} CountCorrectBound(checked: seq<bool>)
    ensures CountCorrect(checked) <= |checked|
  {
    if checked != [] {
      CountCorrectBound(checked[..|checked| - 1]);
    }
  }

  /** JavaScript truthiness of the selected answer: `null` and the empty string are both falsy. */
  predicate IsAnswerChosen(selected: Option<string>) {
    selected.Some? && selected.value != ""
  }

  class QuizRunner {
    const documentId: string
    var questions: seq<QuizQuestion>
    var currentIndex: nat
    var selectedAnswer: Option<string>
    var isEvaluated: bool
    var score: nat
    var isLoading: bool
    var isFinished: bool

    /** For each question checked so far in this attempt, in order, whether its answer was right. */
    ghost var checked: seq<bool>

    /** Questions whose answer has been checked in this attempt: all before the cursor, and the current one once evaluated. */
    function EvaluatedCount(): nat
      reads this
    {
      currentIndex + if isEvaluated then 1 else 0
    }

    ghost predicate Valid()
      reads this
    {
      (isLoading ==> questions == [] && currentIndex == 0 && !isEvaluated && !isFinished && score == 0) &&
      (questions == [] ==> currentIndex == 0 && !isEvaluated && !isFinished) &&
      (questions != [] ==> currentIndex < |questions|) &&
      (isFinished ==> isEvaluated && currentIndex == |questions| - 1) &&
      |checked| == EvaluatedCount() &&
      score == CountCorrect(checked)
    }

    /** The component as mounted: loading, with the initial values of every state hook. */
    constructor (documentId: string)
      ensures Valid()
      ensures this.documentId == documentId && isLoading
      ensures questions == [] && currentIndex == 0 && selectedAnswer == None
      ensures !isEvaluated && score == 0 && !isFinished
    {
      this.documentId := documentId;
      questions := [];
      currentIndex := 0;
      selectedAnswer := None;
      isEvaluated := false;
      score := 0;
      isLoading := true;
      isFinished := false;
      checked := [];
    }

    /**
     * The end of the fetch the mount effect starts when the document id is
     * non-empty: the reply's questions (none when absent), or nothing on a
     * failure; loading ends either way.
     */
    method FinishLoading(outcome: FetchOutcome)
      requires Valid() && isLoading && documentId != ""
      modifies this
      ensures Valid() && !isLoading
      ensures questions == (match outcome
                            case Fetched(Some(qs)) => qs
                            case Fetched(None) => []
                            case FetchFailed => old(questions))
      ensures currentIndex == 0 && selectedAnswer == old(selectedAnswer)
      ensures !isEvaluated && score == 0 && !isFinished
    {
      match outcome {
        case Fetched(qs) =>
          questions := if qs.Some? then qs.value else [];
        case FetchFailed =>
      }
      isLoading := false;
    }

    /** The question shown: the one under the cursor. */
    function CurrentQuestion(): (q: QuizQuestion)
      reads this
      requires Valid() && questions != []
      ensures q in questions
    {
      questions[currentIndex]
    }

    /** Clicking an option: ignored once the current question is checked, otherwise it becomes the selection. */
    method Select(option: string)
      requires Valid() && !isLoading && questions != [] && !isFinished
      modifies this
      ensures Valid()
      ensures old(isEvaluated) ==> unchanged(this)
      ensures !old(isEvaluated) ==> selectedAnswer == Some(option)
      ensures questions == old(questions) && currentIndex == old(currentIndex) && isEvaluated == old(isEvaluated)
      ensures score == old(score) && isFinished == old(isFinished) && isLoading == old(isLoading)
      ensures checked == old(checked)
    {
      if isEvaluated {
        return;
      }
      selectedAnswer := Some(option);
    }

    /**
     * "Check Answer", shown only while the current question is unchecked:
     * without a (truthy) selection nothing happens; otherwise the question is
     * checked, the selection kept, and the score raised by one exactly when
     * the selection is the correct answer.
     */
    method Evaluate()
      requires Valid() && !isLoading && questions != [] && !isFinished && !isEvaluated
      modifies this
      ensures Valid()
      ensures !IsAnswerChosen(old(selectedAnswer)) ==> unchanged(this)
      ensures IsAnswerChosen(old(selectedAnswer)) ==>
                isEvaluated &&
                score == old(score) + (if old(selectedAnswer).value == old(CurrentQuestion()).correctAnswer then 1 else 0) &&
                checked == old(checked) + [old(selectedAnswer).value == old(CurrentQuestion()).correctAnswer]
      ensures selectedAnswer == old(selectedAnswer) && questions == old(questions) && currentIndex == old(currentIndex)
      ensures isFinished == old(isFinished) && isLoading == old(isLoading)
      ensures old(score) <= score <= EvaluatedCount()
    {
      CountCorrectBound(checked);
      if !IsAnswerChosen(selectedAnswer) {
        return;
      }
      var isCorrect := selectedAnswer.value == questions[currentIndex].correctAnswer;
      isEvaluated := true;
      checked := checked + [isCorrect];
      assert checked[..|checked| - 1] == old(checked);
      if isCorrect {
        score := score + 1;
      }
      CountCorrectBound(checked);
    }

    /**
     * "Next Question" / "View Results", shown only once the current question
     * is checked: before the last question it moves the cursor on and clears
     * the selection and the check; on the last one it only finishes the quiz.
     */
    method Next()
      requires Valid() && !isLoading && questions != [] && !isFinished && isEvaluated
      modifies this
      ensures Valid()
      ensures old(currentIndex) < |questions| - 1 ==>
                currentIndex == old(currentIndex) + 1 && selectedAnswer == None && !isEvaluated && !isFinished
      ensures old(currentIndex) == |questions| - 1 ==>
                isFinished && currentIndex == old(currentIndex) && selectedAnswer == old(selectedAnswer) && isEvaluated
      ensures questions == old(questions) && score == old(score) && isLoading == old(isLoading)
      ensures checked == old(checked)
    {
      if currentIndex < |questions| - 1 {
        currentIndex := currentIndex + 1;
        selectedAnswer := None;
        isEvaluated := false;
      } else {
        isFinished := true;
      }
    }

    /**
     * The results view: the score out of the number of questions, reachable
     * only once the quiz is finished, by which time every question has been
     * checked exactly once.
     */
    method Results() returns (correct: nat, total: nat)
      requires Valid() && isFinished
      ensures total == |questions| && total > 0
      ensures correct == score == CountCorrect(checked) && |checked| == total
      ensures correct <= total
    {
      CountCorrectBound(checked);
      correct, total := score, |questions|;
    }

    /** "Retake Quiz", shown on the results view: back to the first question with a zero score, same questions. */
    method Retake()
      requires Valid() && isFinished
      modifies this
      ensures Valid()
      ensures currentIndex == 0 && score == 0 && !isFinished && selectedAnswer == None && !isEvaluated
      ensures questions == old(questions) && isLoading == old(isLoading)
      ensures checked == []
    {
      currentIndex := 0;
      score := 0;
      isFinished := false;
      selectedAnswer := None;
      isEvaluated := false;
      checked := [];
    }
  }

  /** Two questions, the first answered correctly and the second not: the quiz ends with one point out of two. */
  method TwoQuestionScenario() {
    var q1 := QuizQuestion("Q1", ["a", "b"], "a");
    var q2 := QuizQuestion("Q2", ["c", "d"], "c");
    var quiz := new QuizRunner("doc");
    quiz.FinishLoading(Fetched(Some([q1, q2])));
    assert quiz.questions == [q1, q2] && quiz.currentIndex == 0 && !quiz.isEvaluated;
    quiz.Select("a");
    assert quiz.selectedAnswer == Some("a") && quiz.CurrentQuestion() == q1 && !quiz.isEvaluated;
    quiz.Evaluate();
    assert quiz.score == 1 && quiz.isEvaluated && quiz.currentIndex == 0;
    quiz.Next();
    assert quiz.currentIndex == 1 && !quiz.isFinished && !quiz.isEvaluated && quiz.score == 1;
    quiz.Select("d");
    assert quiz.selectedAnswer == Some("d") && quiz.CurrentQuestion() == q2;
    quiz.Evaluate();
    assert quiz.score == 1 && quiz.isEvaluated && quiz.currentIndex == 1;
    quiz.Next();
    assert quiz.isFinished;
    var correct, total := quiz.Results();
    assert correct == 1 && total == 2;
  }
}
