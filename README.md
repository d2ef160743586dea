# Quiz session state machine

A Dafny model of the `Quiz` class of the browser quiz player in `script.js`.
The player loads an exercise and its questions and shows one multiple-choice
question at a time. Each click on an answer button (`'A'`..`'D'`) is scored with
strict equality `===` against the question's `correctAnswer`. After the last
question the player shows the score and a percentage. When the exercise has a
`timerMinutes`, a once-a-second countdown also runs; the tick that sees
0 seconds left stops the countdown and shows the results.

Files:

- `session.dfy` (module `Session`): the class `QuizSession`. Its fields are the
  source's `questions`, `currentQuestionIndex`, `score`, the running interval
  (`timerActive`), the captured `timeLeft`, the timer text and the question
  container's screen. Its methods are `Load` (the empty-list check, then
  `setupQuiz`), `Setup`, `StartTimer`, `DisplayQuestion`, `ShowResults`,
  `CheckAnswer` and `Tick` (one run of the `setInterval` callback).
  `Countdown` runs ticks until the callback clears the interval. The object
  invariant `Valid()` holds `score <= currentQuestionIndex <= |questions|`. It
  also holds that `score` equals the number of exact matches among the keys
  submitted so far. A few client methods play out concrete sessions.
- `scoring.dfy` (module `Scoring`): JSON values for `correctAnswer`, `===` on
  them, the score a sequence of keys earns, and the results percentage.
- `clock.dfy` (module `Clock`): the countdown's `m:ss` text, and a reader of
  that text that recovers the seconds from it.
- `options.dfy` (module `Options`): the `Option` type shared by the others.

Behaviours of the code that a reader might not expect, which the model keeps:

- Finishing the last question does not clear the interval. Only the zero tick
  does. With a countdown running, the results screen is rendered a second time
  when the countdown reaches 0 (`Session.CompletedThenTimeoutRun`).
- The zero tick is tick number `timeLeft + 1`. The first tick renders the full
  time (`1:00` for one minute), and the decrement comes after the zero test.
  A one-minute countdown therefore shows the results on the 61st tick, not the
  60th (`Session.TimeoutRun`).
- `checkAnswer` has no phase guard. After a timeout, a call with the index
  still inside the list scores and advances as usual. A call after the last
  question reads past the end of the list. The model excludes only that last
  case, by its precondition.
- A countdown starts whenever `timerMinutes` is truthy, not only when it is a
  positive integer. With `timerMinutes` a natural number, that means present
  and not 0.

## Model

| member | source | states |
|---|---|---|
| Session.TimerSeconds | script.js:79-82 | A countdown is started exactly when `timerMinutes` is present and non-zero, and its length is `timerMinutes * 60` seconds |
| Session.QuizSession.constructor | script.js:1-6 | A new session has index 0, score 0, no countdown, a blank screen and no results rendered |
| Session.QuizSession.Load | script.js:60-67 | Loading fails with NoQuestions exactly when the question list is missing or empty; then nothing is set up and no countdown runs. Otherwise the session holds the list and is in the state `setupQuiz` leaves |
| Session.QuizSession.Setup | script.js:74-88 | After setup the index and score are 0 and question 0 is shown. A countdown of `timerMinutes * 60` seconds runs exactly when `timerMinutes` is truthy. The invariant holds |
| Session.QuizSession.StartTimer | script.js:135-137 | The interval runs with `timeLeft` equal to the given seconds |
| Session.QuizSession.DisplayQuestion | script.js:90-91 | The question at the current index is shown |
| Session.QuizSession.ShowResults | script.js:122-133 | The results screen shows the current score out of the question count, and one more results render is counted |
| Session.QuizSession.CheckAnswer | script.js:108-120 | The score rises by exactly 1 when the key `===` the current correct answer and is otherwise unchanged. The index rises by exactly 1. Results are shown exactly when the new index equals the question count, otherwise the question at the new index. The countdown is untouched. `score <= index <= count` and "score = exact matches so far" are preserved |
| Session.QuizSession.Tick | script.js:139-149 | A tick renders `ClockText(timeLeft)`, then decrements. It stops the interval and shows the results exactly when `timeLeft` was 0. It never changes the score, the index or the answers |
| Session.QuizSession.Countdown | script.js:139-149 | A countdown with `s` seconds left fires on tick `s + 1`, the one that renders `0:00`. It ends stopped at `timeLeft == -1` with the results shown once more. Score, index, submitted keys, questions and exercise are unchanged, so the score still counts the exact matches among the keys clicked |
| Session.TwoQuestionRun | script.js:108-119 | With correct answers "B", "A": the final score counts the matching keys; "B","A" gives 2 and 100 percent, "A","A" gives 1 and 50 percent |
| Session.NumericAnswerRun | script.js:110 | A numeric `correctAnswer` 1 is never matched by a button's string key, so no point is scored |
| Session.TimeoutRun | script.js:135-149 | With `m > 0` minutes and no answers, the results (score 0) appear on tick `m * 60 + 1`, whose text is `0:00` |
| Session.CompletedThenTimeoutRun | script.js:114-149 | Answering the last question leaves the countdown running, and its zero tick renders the results a second time |
| Session.EmptyListRun | script.js:63-65 | An empty question list is rejected with NoQuestions; the screen shows the failure and no countdown runs |
| Scoring.StrictEquals | script.js:110 | `===` holds exactly when both values are equal, and never between values of different kinds (no string/number coercion) |
| Scoring.CountCorrect | script.js:108-114 | The score for a run of answers never exceeds the number of answers |
| Scoring.CountCorrectIsMatchPositions | script.js:108-114 | The score equals the number of positions whose submitted key `===` that question's correct answer |
| Scoring.AnswerStep | script.js:109-111 | One more answer adds 1 to the count exactly when it matches the next question, else 0 |
| Scoring.Percentage | script.js:124 | The percentage `score / total * 100` satisfies `p * total == 100 * score`; it lies in [0, 100] when `score <= total`, and is 100 exactly when every question was answered correctly (3 of 4 gives 75) |
| Clock.PadStart | script.js:142 | `padStart` yields a string of at least the requested width |
| Clock.DecimalRoundTrip | script.js:142 | The decimal text of the minutes reads back as the minutes |
| Clock.SecondsText | script.js:141-142 | The padded seconds of any `t % 60` are exactly two characters and read back as the seconds |
| Clock.ClockRoundTrip | script.js:140-142 | Reading the rendered `m:ss` gives back `timeLeft`: `minutes * 60 + secs == timeLeft` |
| Clock.ZeroClock | script.js:140-145 | The text is `0:00` exactly when `timeLeft` is 0, so the zero tick is the tick that renders `0:00` |
| Clock.ClockTextInjective | script.js:140-142 | Two tick texts are equal exactly when their `timeLeft` values are equal |

## Left out

- Fetching the exercise and the questions, building the URLs, `response.ok` and
  `.json()`, and reading `exerciseId` from the query string (script.js:8-61).
  These are network and browser I/O. `Load` takes the two payloads as
  parameters, and the missing list is `None`.
- The error screen's HTML, `alert`, `console`, `location.reload`, image URLs, the
  question and results HTML templates, and the global `quiz` wiring. The screen
  is modelled only as which question or which result figures it shows.
- Real time and the asynchrony of `setInterval`: a tick is an explicit `Tick`
  call, and the methods may be called in any order. `Countdown` covers only a
  stretch of ticks with no answers in between.
- The counters before setup: in the source, `currentQuestionIndex` and `score`
  are `undefined` until `setupQuiz` assigns them, and after a failed load they
  are never assigned. The model holds them as 0 from the constructor on. Nothing
  reads them before setup, so the difference cannot be observed.
- Loading from the constructor: the source's constructor starts `init` itself.
  Here the constructor only builds the empty session, and the caller starts
  loading by calling `Load`.
- `toFixed(1)` rounding: `Percentage` is the exact real value.
- JavaScript numbers: `timerMinutes` is a natural number (no fractions, no
  negatives, no NaN), and a numeric `correctAnswer` is an integer.
- The answer options `A`..`D` and the question's image are presentation only
  and are not part of `Question`.
- Session.QuizSession.Setup: requires that no countdown is running. A second
  `setupQuiz` would start a second interval, and the old one would keep
  running; one countdown is modelled.
- Session.QuizSession.Load: requires a session that has not started, as the
  source calls it once, from `init`.
- Session.QuizSession.CheckAnswer: requires an index inside the list. The
  source would fail reading `correctAnswer` of `undefined` past the last question.
