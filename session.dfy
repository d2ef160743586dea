/** The quiz session of script.js: the `Quiz` object's counters, its countdown
    and what its screen shows, driven by loading, answer clicks and timer ticks. */
module Session {
  import opened Options
  import opened Clock
  import opened Scoring

  /** The exercise record. `timerMinutes` is None when the payload has no such field. */
  datatype Exercise = Exercise(subject: string, chapter: string, exerciseNumber: string,
                               timerMinutes: Option<nat>)

  /** What the question container shows. */
  datatype Screen = Blank | LoadFailed | ShowingQuestion(index: nat) | ShowingResults(summary: Summary)

  datatype LoadError = NoQuestions
  datatype LoadResult = Loaded | Failed(error: LoadError)

  /** The countdown length `setupQuiz` starts, if any: only a truthy
      `timerMinutes` (present and not 0) starts one, of `timerMinutes * 60` seconds. */
  function TimerSeconds(ex: Exercise): (r: Option<nat>)
    ensures r.Some? <==> ex.timerMinutes.Some? && ex.timerMinutes.value != 0
    ensures r.Some? ==> r.value > 0 && r.value % 60 == 0 && r.value / 60 == ex.timerMinutes.value
  {
    match ex.timerMinutes
    case Some(m) => if m != 0 then Some(m * 60) else None
    case None => None
  }

  /** The question list passes the load-time check: present and not empty. */
  predicate HasQuestions(payload: Option<seq<Question>>) {
    payload.Some? && |payload.value| > 0
  }

  class QuizSession {
    var exercise: Exercise
    var questions: seq<Question>
    var currentQuestionIndex: nat
    var score: nat
    /** The interval in `this.timer` is running. */
    var timerActive: bool
    /** The countdown's captured `timeLeft`; it ends at -1 after the zero tick. */
    var timeLeft: int
    /** The timer element's text. */
    var timerText: string
    var screen: Screen
    /** How many times `showResults` has rendered the results screen. */
    var resultsRenders: nat
    /** The keys submitted so far, in order. */
    ghost var submitted: seq<string>

    ghost predicate Valid()
      reads this
    {
      currentQuestionIndex <= |questions| &&
      |submitted| == currentQuestionIndex &&
      score == CountCorrect(questions, submitted) &&
      score <= currentQuestionIndex &&
      (timerActive ==> timeLeft >= 0 && |questions| > 0) &&
      (screen.ShowingQuestion? ==> screen.index == currentQuestionIndex < |questions|) &&
      (screen.ShowingResults? ==>
         screen.summary.total == |questions| > 0 && screen.summary.score <= screen.summary.total)
    }

    /** The state before any data has been loaded. */
    ghost predicate NotStarted()
      reads this
    {
      screen == Blank && currentQuestionIndex == 0 && score == 0 && submitted == [] &&
      !timerActive && resultsRenders == 0
    }

    constructor ()
      ensures Valid() && NotStarted()
    {
      exercise := Exercise("", "", "", None);
      questions := [];
      currentQuestionIndex, score := 0, 0;
      timerActive, timeLeft, timerText := false, 0, "";
      screen := Blank;
      resultsRenders := 0;
      submitted := [];
    }

    /** `loadExerciseData` once both payloads have arrived: the question list
        is checked, and the session is set up only when it is non-empty. */
    method Load(ex: Exercise, payload: Option<seq<Question>>) returns (r: LoadResult)
      requires Valid() && NotStarted()
      modifies this
      ensures Valid()
      ensures exercise == ex
      ensures r.Failed? <==> !HasQuestions(payload)
      ensures r.Failed? ==> r.error == NoQuestions && screen == LoadFailed && !timerActive
      ensures r.Failed? ==> currentQuestionIndex == 0 && score == 0 && resultsRenders == 0
      ensures r.Loaded? ==> questions == payload.value && screen == ShowingQuestion(0)
      ensures r.Loaded? ==> currentQuestionIndex == 0 && score == 0 && submitted == []
      ensures r.Loaded? ==> (timerActive <==> TimerSeconds(ex).Some?)
      ensures r.Loaded? && timerActive ==> timeLeft == TimerSeconds(ex).value
      ensures resultsRenders == 0 && timerText == old(timerText)
    {
      exercise := ex;
      questions := if payload.Some? then payload.value else [];
      if !HasQuestions(payload) {
        screen := LoadFailed;
        return Failed(NoQuestions);
      }
      Setup();
      r := Loaded;
    }

    /** `setupQuiz`: start the countdown if the exercise asks for one, then
        reset the counters and show the first question. */
    method Setup()
      requires Valid() && |questions| > 0 && !timerActive
      modifies this
      ensures Valid()
      ensures currentQuestionIndex == 0 && score == 0 && submitted == []
      ensures screen == ShowingQuestion(0)
      ensures timerActive <==> TimerSeconds(exercise).Some?
      ensures timerActive ==> timeLeft == TimerSeconds(exercise).value
      ensures !timerActive ==> timeLeft == old(timeLeft)
      ensures questions == old(questions) && exercise == old(exercise)
      ensures resultsRenders == old(resultsRenders) && timerText == old(timerText)
    {
      var seconds := TimerSeconds(exercise);
      if seconds.Some? {
        StartTimer(seconds.value);
      }
      currentQuestionIndex := 0;
      score := 0;
      submitted := [];
      DisplayQuestion();
    }

    /** `startTimer(seconds)`: the interval starts with `timeLeft = seconds`;
        nothing is rendered before its first tick. */
    method StartTimer(seconds: nat)
      modifies this`timerActive, this`timeLeft
      ensures timerActive && timeLeft == seconds
    {
      timerActive := true;
      timeLeft := seconds;
    }

    /** `displayQuestion`: the question at the current index is shown. */
    method DisplayQuestion()
      requires currentQuestionIndex < |questions|
      modifies this`screen
      ensures screen == ShowingQuestion(currentQuestionIndex)
    {
      screen := ShowingQuestion(currentQuestionIndex);
    }

    /** `showResults`: the results screen with the current score out of the question count. */
    method ShowResults()
      requires 0 < |questions| && score <= |questions|
      modifies this`screen, this`resultsRenders
      ensures screen == ShowingResults(Summary(score, |questions|))
      ensures resultsRenders == old(resultsRenders) + 1
    {
      screen := ShowingResults(Summary(score, |questions|));
      resultsRenders := resultsRenders + 1;
    }

    /** `checkAnswer(selectedAnswer)`: one point for an exact match, then on to
        the next question or, after the last one, to the results. It neither
        checks nor touches the countdown. */
    method CheckAnswer(selectedAnswer: string)
      requires Valid() && currentQuestionIndex < |questions|
      modifies this
      ensures Valid()
      ensures score == old(score) + (if Matches(selectedAnswer, old(questions[currentQuestionIndex])) then 1 else 0)
      ensures currentQuestionIndex == old(currentQuestionIndex) + 1
      ensures submitted == old(submitted) + [selectedAnswer]
      ensures currentQuestionIndex < |questions| ==>
                screen == ShowingQuestion(currentQuestionIndex) && resultsRenders == old(resultsRenders)
      ensures currentQuestionIndex == |questions| ==>
                screen == ShowingResults(Summary(score, |questions|)) && resultsRenders == old(resultsRenders) + 1
      ensures timerActive == old(timerActive) && timeLeft == old(timeLeft) && timerText == old(timerText)
      ensures questions == old(questions) && exercise == old(exercise)
    {
      var question := questions[currentQuestionIndex];
      AnswerStep(questions, submitted, selectedAnswer);
      if StrictEquals(Str(selectedAnswer), question.correctAnswer) {
        score := score + 1;
      }
      currentQuestionIndex := currentQuestionIndex + 1;
      submitted := submitted + [selectedAnswer];
      if currentQuestionIndex < |questions| {
        DisplayQuestion();
      } else {
        ShowResults();
      }
    }

    /** One run of the interval's callback: render `m:ss`, stop the interval
        and show the results when `timeLeft` is 0, then count down. */
    method Tick()
      requires Valid() && timerActive
      modifies this
      ensures Valid()
      ensures timerText == ClockText(old(timeLeft))
      ensures timeLeft == old(timeLeft) - 1
      ensures timerActive <==> old(timeLeft) != 0
      ensures old(timeLeft) == 0 ==>
                screen == ShowingResults(Summary(score, |questions|)) && resultsRenders == old(resultsRenders) + 1
      ensures old(timeLeft) != 0 ==> screen == old(screen) && resultsRenders == old(resultsRenders)
      ensures score == old(score) && currentQuestionIndex == old(currentQuestionIndex)
      ensures submitted == old(submitted) && questions == old(questions) && exercise == old(exercise)
    {
      timerText := ClockText(timeLeft);
      if timeLeft == 0 {
        timerActive := false;
        ShowResults();
      }
      timeLeft := timeLeft - 1;
    }

    /** The interval left to run with no answer in between: it calls back
        until the callback clears it. */
    method Countdown() returns (ticks: nat)
      requires Valid() && timerActive
      modifies this
      ensures Valid()
      ensures ticks == old(timeLeft) + 1
      ensures !timerActive && timeLeft == -1 && timerText == ClockText(0)
      ensures screen == ShowingResults(Summary(score, |questions|))
      ensures resultsRenders == old(resultsRenders) + 1
      ensures score == old(score) && currentQuestionIndex == old(currentQuestionIndex)
      ensures submitted == old(submitted) && questions == old(questions) && exercise == old(exercise)
    {
      ticks := 0;
      while timerActive
        invariant Valid()
        invariant ticks + timeLeft == old(timeLeft)
        invariant timerActive ==> resultsRenders == old(resultsRenders)
        invariant !timerActive ==> ticks == old(timeLeft) + 1 && timeLeft == -1 && timerText == ClockText(0)
        invariant !timerActive ==> screen == ShowingResults(Summary(score, |questions|))
        invariant !timerActive ==> resultsRenders == old(resultsRenders) + 1
        invariant score == old(score) && currentQuestionIndex == old(currentQuestionIndex)
        invariant submitted == old(submitted) && questions == old(questions) && exercise == old(exercise)
        decreases timeLeft + 1
      {
        Tick();
        ticks := ticks + 1;
      }
    }
  }

  /** Two questions whose correct answers are "B" then "A", answered with the
      two given keys; no countdown. */
  method TwoQuestionRun(first: string, second: string) returns (finalScore: nat, percentage: real)
    ensures finalScore == (if first == "B" then 1 else 0) + (if second == "A" then 1 else 0)
    ensures first == "B" && second == "A" ==> percentage == 100.0
    ensures first == "A" && second == "A" ==> finalScore == 1 && percentage == 50.0
  {
    var quiz := new QuizSession();
    var qs := [Question("first", Str("B")), Question("second", Str("A"))];
    var r := quiz.Load(Exercise("Maths", "1", "1", None), Some(qs));
    quiz.CheckAnswer(first);
    quiz.CheckAnswer(second);
    assert quiz.screen == ShowingResults(Summary(quiz.score, 2));
    finalScore := quiz.score;
    percentage := Percentage(Summary(finalScore, 2));
  }

  /** A question whose correct answer is the number 1 is never answered
      correctly by a button: its key is always a string. */
  method NumericAnswerRun(key: string) returns (finalScore: nat)
    ensures finalScore == 0
  {
    var quiz := new QuizSession();
    var r := quiz.Load(Exercise("Maths", "1", "1", None), Some([Question("q", Num(1))]));
    quiz.CheckAnswer(key);
    finalScore := quiz.score;
  }

  /** A countdown of `minutes` with no answer given: the results screen,
      showing a score of 0, appears on tick `minutes * 60 + 1`, the one that renders `0:00`. */
  method TimeoutRun(minutes: nat) returns (ticks: nat, shown: Screen, lastText: string)
    requires minutes > 0
    ensures ticks == minutes * 60 + 1
    ensures shown == ShowingResults(Summary(0, 3))
    ensures lastText == "0:00"
  {
    var quiz := new QuizSession();
    var qs := [Question("a", Str("A")), Question("b", Str("B")), Question("c", Str("C"))];
    var r := quiz.Load(Exercise("Physics", "2", "4", Some(minutes)), Some(qs));
    ticks := quiz.Countdown();
    shown := quiz.screen;
    lastText := quiz.timerText;
    ZeroClock(0);
  }

  /** Finishing the questions does not stop the countdown: when it later
      reaches 0 the results screen is rendered a second time. */
  method CompletedThenTimeoutRun(key: string) returns (renders: nat, stillRunning: bool)
    ensures stillRunning
    ensures renders == 2
  {
    var quiz := new QuizSession();
    var r := quiz.Load(Exercise("History", "3", "1", Some(1)), Some([Question("q", Str("C"))]));
    quiz.CheckAnswer(key);
    stillRunning := quiz.timerActive;
    var ticks := quiz.Countdown();
    renders := quiz.resultsRenders;
  }

  /** An empty question list is rejected and nothing is set up. */
  method EmptyListRun() returns (r: LoadResult, shown: Screen, running: bool)
    ensures r == Failed(NoQuestions) && shown == LoadFailed && !running
  {
    var quiz := new QuizSession();
    r := quiz.Load(Exercise("Maths", "1", "1", Some(5)), Some([]));
    shown := quiz.screen;
    running := quiz.timerActive;
  }
}
