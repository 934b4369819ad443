/**
 * The module quizzes (`QuizSystem`): one question at a time with a
 * 30-second countdown, one answer per question, and a pass mark of 70%.
 * Question and option texts, the feedback shown and the saving of progress
 * are not part of the model; a question is its number of options and the
 * index of the correct one.
 */
module Quiz {
  import opened Wrappers

  /** Seconds allowed per question. */
  const QuestionTime: int := 30
  /** Lowest passing percentage. */
  const PassMark: int := 70

  datatype Question = Question(optionCount: nat, correct: nat)
  datatype QuizData = QuizData(moduleId: int, questions: seq<Question>)

  /** `getQuizData`: modules 1 and 2 have a quiz of two questions each. */
  function GetQuizData(moduleId: int): (q: Option<QuizData>)
    ensures q.Some? <==> moduleId == 1 || moduleId == 2
    ensures q.Some? ==>
      q.value.moduleId == moduleId && |q.value.questions| == 2 &&
      forall k :: 0 <= k < |q.value.questions| ==>
        q.value.questions[k].correct < q.value.questions[k].optionCount
  {
    if moduleId == 1 then Some(QuizData(1, [Question(4, 1), Question(4, 2)]))
    else if moduleId == 2 then Some(QuizData(2, [Question(4, 1), Question(4, 1)]))
    else None
  }

  /** `Math.round(score / total * 100)`: the percentage rounded half up,
      that is the floor of 100 score / total + 1/2, written over integers. */
  function Percentage(score: nat, total: nat): (p: int)
    requires 0 < total && score <= total
    ensures 0 <= p <= 100
    ensures 2 * total * p <= 200 * score + total < 2 * total * (p + 1)
    ensures p >= PassMark <==> 200 * score >= 139 * total
  {
    var a, d := 200 * score + total, 2 * total;
    var p := a / d;
    DivBounds(a, d, p);
    MulLe(d, if p >= PassMark then PassMark else p + 1, if p >= PassMark then p else PassMark);
    MulLe(d, if p <= 101 then p else 101, p);
    MulLe(d, p + 1, if p + 1 > 0 then p + 1 else 0);
    p
  }

  /** Euclidean quotient bounds: d q <= a < d q + d. */
  lemma DivBounds(a: nat, d: nat, q: int)
    requires d > 0 && q == a / d
    ensures d * q <= a < d * q + d
  {
  }

  /** Multiplying by a positive factor keeps the order. */
  lemma MulLe(d: int, x: int, y: int)
    requires d > 0 && x <= y
    ensures d * x <= d * y
  {
  }

  /** A two-question quiz is passed only with both answers right. */
  lemma TwoQuestionPassMark(score: nat)
    requires score <= 2
    ensures Percentage(score, 2) >= PassMark <==> score == 2
  {
  }

  /** The quiz controller's state. `timerRunning` stands for a live
      countdown interval handle. */
  class QuizSystem {
    var currentQuiz: Option<QuizData>
    var currentQuestion: int
    var score: int
    var timeLeft: int
    var timerRunning: bool
    var selectedAnswer: Option<int>

    function QuestionCount(): nat
      reads this
    {
      if currentQuiz.Some? then |currentQuiz.value.questions| else 0
    }

    /** There is a current question, and the index is its right answer or
        names one of its options. */
    predicate Answerable(index: int)
      reads this
    {
      currentQuiz.Some? && 0 <= currentQuestion < |currentQuiz.value.questions| &&
      var question := currentQuiz.value.questions[currentQuestion];
      index == question.correct || 0 <= index < question.optionCount
    }

    /** Each question scores at most once, so the score never exceeds the
        number of questions shown so far; and a running countdown always has
        time left. */
    ghost predicate Valid()
      reads this
    {
      0 <= currentQuestion && 0 <= score <= QuestionCount() &&
      score <= currentQuestion + (if selectedAnswer.Some? then 1 else 0) &&
      (currentQuiz.Some? ==> |currentQuiz.value.questions| > 0) &&
      (timerRunning ==> timeLeft > 0)
    }

    constructor ()
      ensures Valid()
      ensures currentQuiz == None && currentQuestion == 0 && score == 0 && timeLeft == 0
      ensures !timerRunning && selectedAnswer == None
    {
      currentQuiz := None;
      currentQuestion, score, timeLeft := 0, 0, 0;
      timerRunning := false;
      selectedAnswer := None;
    }

    /** `startQuiz`: a module without a quiz changes nothing; otherwise the
        first question is shown with a fresh score and a full countdown. */
    method StartQuiz(moduleId: int)
      requires Valid()
      modifies this
      ensures Valid()
      ensures GetQuizData(moduleId).None? ==>
        currentQuiz == old(currentQuiz) && currentQuestion == old(currentQuestion) &&
        score == old(score) && timeLeft == old(timeLeft) &&
        timerRunning == old(timerRunning) && selectedAnswer == old(selectedAnswer)
      ensures GetQuizData(moduleId).Some? ==>
        currentQuiz == GetQuizData(moduleId) && currentQuestion == 0 && score == 0 &&
        timeLeft == QuestionTime && timerRunning && selectedAnswer == None
    {
      var quizData := GetQuizData(moduleId);
      if quizData.None? {
        return;
      }
      currentQuiz := quizData;
      currentQuestion := 0;
      score := 0;
      timeLeft := QuestionTime;
      selectedAnswer := None;
      timerRunning := true;
    }

    /** `selectAnswer`: only the first answer to a question counts; a right
        one scores a point, and answering stops the countdown. Without a
        current question, or for a wrong index that names no option, the
        source fails (a property read on `undefined`) right after recording
        the answer, which leaves everything else as it was. */
    method SelectAnswer(index: int)
      requires Valid()
      modifies this
      ensures Valid()
      ensures currentQuiz == old(currentQuiz) && currentQuestion == old(currentQuestion)
      ensures timeLeft == old(timeLeft)
      ensures old(selectedAnswer).Some? ==>
        selectedAnswer == old(selectedAnswer) && score == old(score) && timerRunning == old(timerRunning)
      ensures old(selectedAnswer).None? ==> selectedAnswer == Some(index)
      ensures old(selectedAnswer).None? && Answerable(index) ==>
        !timerRunning &&
        score == old(score) + (if index == currentQuiz.value.questions[currentQuestion].correct then 1 else 0)
      ensures old(selectedAnswer).None? && !Answerable(index) ==>
        score == old(score) && timerRunning == old(timerRunning)
    {
      if selectedAnswer.Some? {
        return;
      }
      selectedAnswer := Some(index);
      if currentQuiz.None? || currentQuestion >= |currentQuiz.value.questions| {
        return;
      }
      var question := currentQuiz.value.questions[currentQuestion];
      if index == question.correct {
        score := score + 1;
      } else if index < 0 || index >= question.optionCount {
        return;
      }
      timerRunning := false;
    }

    /** `nextQuestion`: moves on; within the quiz the next question is shown
        with a full countdown. */
    method NextQuestion()
      requires Valid()
      modifies this
      ensures Valid()
      ensures currentQuestion == old(currentQuestion) + 1
      ensures currentQuiz == old(currentQuiz) && score == old(score)
      ensures currentQuestion < QuestionCount() ==>
        timeLeft == QuestionTime && timerRunning && selectedAnswer == None
      ensures currentQuestion >= QuestionCount() ==>
        timeLeft == old(timeLeft) && timerRunning == old(timerRunning) &&
        selectedAnswer == old(selectedAnswer)
    {
      currentQuestion := currentQuestion + 1;
      if currentQuiz.Some? && currentQuestion < |currentQuiz.value.questions| {
        timeLeft := QuestionTime;
        selectedAnswer := None;
        timerRunning := true;
      }
    }

    /** One second of the countdown interval: when the time runs out the
        countdown stops (`timeUp`). The answer is not marked as given, so a
        late click can still score. */
    method TimerTick()
      requires Valid()
      modifies this
      ensures Valid()
      ensures currentQuiz == old(currentQuiz) && currentQuestion == old(currentQuestion)
      ensures score == old(score) && selectedAnswer == old(selectedAnswer)
      ensures !old(timerRunning) ==> timeLeft == old(timeLeft) && !timerRunning
      ensures old(timerRunning) ==>
        timeLeft == old(timeLeft) - 1 && (timerRunning <==> timeLeft > 0)
    {
      if !timerRunning {
        return;
      }
      timeLeft := timeLeft - 1;
      if timeLeft <= 0 {
        timerRunning := false;
      }
    }

    /** `finishQuiz`: the percentage and whether it reaches the pass mark
        (a pass then saves the module as completed). */
    method FinishQuiz() returns (percentage: int, passed: bool)
      requires Valid() && currentQuiz.Some?
      ensures 0 <= percentage <= 100
      ensures passed <==> percentage >= PassMark
      ensures passed <==> 200 * score >= 139 * |currentQuiz.value.questions|
    {
      percentage := Percentage(score, |currentQuiz.value.questions|);
      passed := percentage >= PassMark;
    }
  }

  /** Letting the countdown run out and then clicking the right option still
      scores: time-up does not close the question. */
  method LateAnswerStillScores() returns (score: int, timerStopped: bool)
    ensures score == 1 && timerStopped
  {
    var quiz := new QuizSystem();
    quiz.StartQuiz(1);
    var seconds := 0;
    while seconds < QuestionTime
      invariant 0 <= seconds <= QuestionTime
      invariant quiz.Valid() && quiz.currentQuiz == GetQuizData(1) && quiz.currentQuestion == 0
      invariant quiz.score == 0 && quiz.selectedAnswer == None
      invariant quiz.timeLeft == QuestionTime - seconds
      invariant quiz.timerRunning <==> seconds < QuestionTime
      modifies quiz
    {
      quiz.TimerTick();
      seconds := seconds + 1;
    }
    quiz.SelectAnswer(1);
    score, timerStopped := quiz.score, !quiz.timerRunning;
  }
}
