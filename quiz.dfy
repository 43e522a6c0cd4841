/// The five-question quiz: answer a question, wait for the page to move on,
/// see the result, start again. The one-second `setTimeout` after an answer
/// is the explicit `Advance` step, which the environment calls once per
/// answer.
module Quiz {
  import opened Common

  datatype Question = Question(id: nat, question: string, options: seq<string>, correctAnswer: nat)

  const Questions: seq<Question> := [
    Question(1, "What's our special date?",
      ["15th April", "16th April", "17th April", "18th April"], 0),
    Question(2, "When did we have our beautiful comeback?",
      ["21st April", "22nd April", "23rd April", "24th April"], 2),
    Question(3, "What's Rupal's birthday?",
      ["5th April", "6th April", "7th April", "8th April"], 2),
    Question(4, "What's my birthday?",
      ["12th April", "13th April", "14th April", "15th April"], 2),
    Question(5, "How many months have we been together?",
      ["20 months", "21 months", "22 months", "23 months"], 2)
  ]

  /** Every question's answer key names one of its options. */
  lemma AnswerKeysValid()
    ensures |Questions| == 5
    ensures forall q | q in Questions :: q.correctAnswer < |q.options|
  {
  }

  datatype ResultMessage = Perfect | Amazing | GoodJob | KeepLearning

  /** The text shown for each message. */
  function MessageText(m: ResultMessage): string {
    match m
    case Perfect => "Perfect! Our love is truly magical! \U{1F496}"
    case Amazing => "Amazing! You know our love story so well! \U{1F49D}"
    case GoodJob => "Good job! Our love grows stronger each day! \U{1F495}"
    case KeepLearning => "Every day is a chance to learn more about our love! \U{1F493}"
  }

  /** The four texts differ, so the text shown identifies the message. */
  lemma MessageTextsDistinct()
    ensures forall m1: ResultMessage, m2: ResultMessage :: MessageText(m1) == MessageText(m2) ==> m1 == m2
  {
  }

  /** `getResultMessage`, with `percentage = score / questions.length * 100` compared
      by cross-multiplication: the first threshold the score reaches picks the message. */
  function GetResultMessage(score: nat): (m: ResultMessage)
    ensures m == Perfect <==> 100 * score == 100 * |Questions|
    ensures m == Amazing <==> 100 * score != 100 * |Questions| && 100 * score >= 80 * |Questions|
    ensures m == GoodJob <==> 60 * |Questions| <= 100 * score < 80 * |Questions|
    ensures m == KeepLearning <==> 100 * score < 60 * |Questions|
  {
    var n := |Questions|;
    if 100 * score == 100 * n then Perfect
    else if 100 * score >= 80 * n then Amazing
    else if 100 * score >= 60 * n then GoodJob
    else KeepLearning
  }

  /** For the five-question table: five right is perfect, four amazing, three good. */
  lemma ResultMessagesByScore()
    ensures GetResultMessage(5) == Perfect
    ensures GetResultMessage(4) == Amazing
    ensures GetResultMessage(3) == GoodJob
    ensures forall s: nat | s <= 2 :: GetResultMessage(s) == KeepLearning
  {
  }

  class QuizPage {
    var currentQuestion: nat
    var selectedAnswer: Option<nat>
    var score: nat
    var showResult: bool
    /** The advance `handleAnswer` scheduled and that has not run yet. */
    var advancePending: bool

    /** Questions answered so far: those before the current one, and the current one once selected. */
    function Answered(): nat
      reads this
    {
      currentQuestion + if selectedAnswer.Some? then 1 else 0
    }

    ghost predicate Valid()
      reads this
    {
      currentQuestion < |Questions| &&
      score <= Answered() &&
      (advancePending <==> selectedAnswer.Some? && !showResult) &&
      (showResult ==> selectedAnswer.Some? && currentQuestion == |Questions| - 1)
    }

    /** The score never exceeds the number of questions. */
    lemma ScoreBounded()
      requires Valid()
      ensures score <= Answered() <= |Questions|
    {
    }

    constructor ()
      ensures Valid()
      ensures currentQuestion == 0 && selectedAnswer == None && score == 0
      ensures !showResult && !advancePending
    {
      currentQuestion, selectedAnswer, score := 0, None, 0;
      showResult, advancePending := false, false;
    }

    /** `handleAnswer`: an option button of the current question, enabled only while nothing is selected. */
    method HandleAnswer(optionIndex: nat)
      requires Valid()
      requires !showResult && selectedAnswer.None?
      requires optionIndex < |Questions[currentQuestion].options|
      modifies this
      ensures Valid()
      ensures selectedAnswer == Some(optionIndex) && advancePending
      ensures score == old(score) + if optionIndex == Questions[currentQuestion].correctAnswer then 1 else 0
      ensures currentQuestion == old(currentQuestion) && showResult == old(showResult)
    {
      selectedAnswer := Some(optionIndex);
      if optionIndex == Questions[currentQuestion].correctAnswer {
        score := score + 1;
      }
      advancePending := true;
    }

    /** The timeout callback: the next question, or the result after the last one. */
    method Advance()
      requires Valid()
      requires advancePending
      modifies this
      ensures Valid()
      ensures !advancePending && score == old(score)
      ensures old(currentQuestion) < |Questions| - 1 ==>
        currentQuestion == old(currentQuestion) + 1 && selectedAnswer == None && !showResult
      ensures old(currentQuestion) == |Questions| - 1 ==>
        currentQuestion == old(currentQuestion) && selectedAnswer == old(selectedAnswer) && showResult
    {
      if currentQuestion < |Questions| - 1 {
        currentQuestion := currentQuestion + 1;
        selectedAnswer := None;
      } else {
        showResult := true;
      }
      advancePending := false;
    }

    /** `resetQuiz`: the button on the result screen. */
    method ResetQuiz()
      requires Valid()
      requires showResult
      modifies this
      ensures Valid()
      ensures currentQuestion == 0 && selectedAnswer == None && score == 0
      ensures !showResult && !advancePending
    {
      currentQuestion, selectedAnswer, score, showResult := 0, None, 0, false;
    }

    /** The text on the result screen: the perfect message exactly for a full score. */
    function ResultText(): (text: string)
      reads this
      ensures text == MessageText(Perfect) <==> score == |Questions|
      ensures text == MessageText(KeepLearning) <==> 100 * score < 60 * |Questions|
    {
      MessageTextsDistinct();
      MessageText(GetResultMessage(score))
    }
  }

  /** Answering every question right ends on the perfect message. */
  method AllCorrectScenario() returns (text: string)
    ensures text == MessageText(Perfect)
  {
    var quiz := new QuizPage();
    quiz.HandleAnswer(0);
    quiz.Advance();
    quiz.HandleAnswer(2);
    quiz.Advance();
    quiz.HandleAnswer(2);
    quiz.Advance();
    quiz.HandleAnswer(2);
    quiz.Advance();
    quiz.HandleAnswer(2);
    quiz.Advance();
    assert quiz.showResult && quiz.score == 5;
    text := quiz.ResultText();
  }
}
