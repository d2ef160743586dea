/** Answer checking and the result figure of a quiz: the values a question's
    `correctAnswer` can hold, JavaScript's strict equality `===` on them, the
    score a sequence of submitted keys earns, and the percentage shown on the
    results screen. */
module Scoring {

  /** A JSON value as `correctAnswer` may hold it. Numbers are integers here
      (no NaN, no -0), so `===` coincides with structural equality. */
  datatype Value = Str(s: string) | Num(n: int) | Null | Undefined

  datatype Question = Question(text: string, correctAnswer: Value)

  /** The result screen's figures: points earned out of the question count. */
  datatype Summary = Summary(score: nat, total: nat)

  /** `a === b`: the same type and the same value; nothing is coerced. */
  function StrictEquals(a: Value, b: Value): (r: bool)
    ensures r <==> a == b
    ensures a.Str? != b.Str? || a.Num? != b.Num? ==> !r
  {
    match (a, b)
    case (Str(x), Str(y)) => x == y
    case (Num(x), Num(y)) => x == y
    case (Null, Null) => true
    case (Undefined, Undefined) => true
    case _ => false
  }

  /** Whether pressing the button labelled `key` answers q correctly. */
  predicate Matches(key: string, q: Question) {
    StrictEquals(Str(key), q.correctAnswer)
  }

  /** The score earned by submitting answers[i] to questions[i], one point per exact match. */
  function CountCorrect(questions: seq<Question>, answers: seq<string>): (r: nat)
    requires |answers| <= |questions|
    ensures r <= |answers|
    decreases |answers|
  {
    if answers == [] then 0
    else
      var n := |answers| - 1;
      CountCorrect(questions, answers[..n]) + (if Matches(answers[n], questions[n]) then 1 else 0)
  }

  /** The positions whose submitted key is exactly the question's correct answer. */
  ghost function MatchPositions(questions: seq<Question>, answers: seq<string>): set<nat>
    requires |answers| <= |questions|
  {
    set i: nat | i < |answers| && Matches(answers[i], questions[i])
  }

  /** The score is the number of positions answered with exactly the correct key. */
  lemma {:induction false} CountCorrectIsMatchPositions(questions: seq<Question>, answers: seq<string>)
    requires |answers| <= |questions|
    ensures CountCorrect(questions, answers) == |MatchPositions(questions, answers)|
    decreases |answers|
  {
    if answers != [] {
      var n := |answers| - 1;
      var prefix := answers[..n];
      CountCorrectIsMatchPositions(questions, prefix);
      var before := MatchPositions(questions, prefix);
      var after := MatchPositions(questions, answers);
      if Matches(answers[n], questions[n]) {
        assert after == before + {n};
      } else {
        assert after == before;
      }
    }
  }

  /** Submitting one more key adds exactly one point when it is the correct
      answer of the next question, and nothing otherwise. */
  lemma AnswerStep(questions: seq<Question>, answers: seq<string>, key: string)
    requires |answers| < |questions|
    ensures CountCorrect(questions, answers + [key])
         == CountCorrect(questions, answers) + (if Matches(key, questions[|answers|]) then 1 else 0)
  {
    assert (answers + [key])[..|answers|] == answers;
  }

  /** `(score / questions.length) * 100`, before `toFixed(1)` rounds it for display. */
  function Percentage(s: Summary): (p: real)
    requires s.total > 0
    ensures 0.0 <= p
    ensures s.score <= s.total ==> p <= 100.0
    ensures p == 100.0 <==> s.score == s.total
    ensures p * (s.total as real) == 100.0 * (s.score as real)
  {
    var p := (s.score as real / s.total as real) * 100.0;
    assert p * (s.total as real) == 100.0 * (s.score as real);
    p
  }
}
