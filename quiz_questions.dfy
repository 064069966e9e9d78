/** One question card of the quiz (frontend/src/quizzes/QuizQuestions.js): the time bonus of
    `calStats`, and the `checkAns` / `nextQ` handlers around the `isAnswered` flag. The
    seconds counter is a field that the timer callback advances; the interval itself, the
    button styles and adding to favourites are not modelled. */
module QuizQuestions {
  import opened QuizSession

  /** The time bonus for a correct answer after `secs` seconds, in integers. */
  function TimeBonus(secs: nat): (b: int)
    ensures 0 <= b <= 6
  {
    var left := if secs < 16 then 16 - secs else 0;
    var scaled := left * 6 / 8;
    if scaled < 6 then scaled else 6
  }

  /** The source's formula over the reals: min(floor(max((16 - secs) / 8, 0) * 6), 6). */
  function TimeBonusReal(secs: nat): int
  {
    var ratio := (16 - secs) as real / 8.0;
    var clipped := if ratio > 0.0 then ratio else 0.0;
    var floored := (clipped * 6.0).Floor;
    if floored < 6 then floored else 6
  }

  /** For whole seconds the integer formula is the source's real-valued one. */
  lemma TimeBonusIsExact(secs: nat)
    ensures TimeBonus(secs) == TimeBonusReal(secs)
  {
    if secs < 16 {
      var left := 16 - secs;
      var x := left * 6;
      assert ((16 - secs) as real / 8.0) * 6.0 == x as real / 8.0;
      FloorOfEighths(x);
    }
  }

  /** Dividing a natural number by 8 over the reals and flooring is integer division. */
  lemma FloorOfEighths(x: nat)
    ensures (x as real / 8.0).Floor == x / 8
  {
    var q := x / 8;
    var r := x % 8;
    assert x == 8 * q + r;
    assert x as real / 8.0 == q as real + r as real / 8.0;
    assert 0.0 <= r as real / 8.0 < 1.0;
  }

  /** The full bonus for answering within 8 seconds, none from 15 seconds on. */
  lemma TimeBonusProfile(secs: nat)
    ensures TimeBonus(secs) == 6 <==> secs <= 8
    ensures TimeBonus(secs) == 0 <==> secs >= 15
  {
  }

  /** Answering later never earns more. */
  lemma TimeBonusNonIncreasing(a: nat, b: nat)
    requires a <= b
    ensures TimeBonus(b) <= TimeBonus(a)
  {
  }

  /** `calStats`: the report handed to `updateStats` for an answer given after `secs`
      seconds. */
  function CalStats(secs: nat, correct: bool): (r: Report)
    ensures r.time == secs
    ensures correct ==> r.score == 1 && r.combo == 1 && r.timeBonus == TimeBonus(secs)
    ensures !correct ==> r.score == 0 && r.combo == 0 && r.timeBonus == 0
    ensures WellFormed(r)
  {
    if correct then Report(secs, TimeBonus(secs), 1, 1) else Report(secs, 0, 0, 0)
  }

  class QuestionCard {
    var isAnswered: bool
    var secs: nat
    /** The quiz whose `updateStats` and `next` the card calls. */
    const quiz: Quiz

    /** The quiz's log holds one report per question before this one, plus this one's once
        it is answered; all were produced by `calStats`. Cards are shown for questions 0..9. */
    ghost predicate Valid()
      reads this, quiz
    {
      && quiz.Valid()
      && |quiz.reports| == quiz.onQuestion + (if isAnswered then 1 else 0)
      && (forall k :: 0 <= k < |quiz.reports| ==> WellFormed(quiz.reports[k]))
      && quiz.onQuestion <= 9
    }

    /** The card for the quiz's current question, unanswered, with the timer at 0. */
    constructor (quiz: Quiz)
      requires quiz.Valid() && |quiz.reports| == quiz.onQuestion <= 9
      requires forall k :: 0 <= k < |quiz.reports| ==> WellFormed(quiz.reports[k])
      ensures Valid() && this.quiz == quiz && !isAnswered && secs == 0
    {
      this.quiz := quiz;
      isAnswered := false;
      secs := 0;
    }

    /** One second of the question timer, which runs until the question is answered. */
    method Tick()
      requires Valid() && !isAnswered
      modifies this
      ensures Valid() && secs == old(secs) + 1 && !isAnswered
    {
      secs := secs + 1;
    }

    /** `checkAns`: the first click on the card answers it, correct iff the clicked button is
        the correct answer, and reports it once; any later click changes nothing. */
    method CheckAns(clickedId: string)
      requires Valid() && quiz.onQuestion < |quiz.quizData|
      modifies this, quiz
      ensures Valid() && isAnswered && secs == old(secs)
      ensures quiz.hiScore == old(quiz.hiScore) && quiz.leaderboardScore == old(quiz.leaderboardScore)
      ensures quiz.sessionId == old(quiz.sessionId)
      ensures old(isAnswered) ==> unchanged(quiz)
      ensures !old(isAnswered) ==>
        var correct := clickedId == old(quiz.quizData[quiz.onQuestion]).correctAnswer;
        && quiz.reports == old(quiz.reports) + [CalStats(old(secs), correct)]
        && quiz.onQuestion == old(quiz.onQuestion) && quiz.quizData == old(quiz.quizData)
        && quiz.completed == old(quiz.completed) && quiz.points == old(quiz.points)
    {
      if !isAnswered {
        isAnswered := true;
        var correct := clickedId == quiz.quizData[quiz.onQuestion].correctAnswer;
        var r := CalStats(secs, correct);
        quiz.UpdateStats(r.time, r.timeBonus, r.score, r.combo);
      }
    }

    /** `nextQ`: clears the answered flag and the timer, then calls `next`. After the tenth
        question the quiz is completed with at most 200 points. */
    method NextQ()
      requires Valid() && isAnswered
      modifies this, quiz
      ensures !isAnswered && secs == 0
      ensures quiz.Valid() && quiz.reports == old(quiz.reports)
      ensures quiz.onQuestion == old(quiz.onQuestion) + 1
      ensures quiz.quizData == old(quiz.quizData) && quiz.sessionId == old(quiz.sessionId)
      ensures quiz.hiScore == old(quiz.hiScore) && quiz.leaderboardScore == old(quiz.leaderboardScore)
      ensures quiz.totalScore == old(quiz.totalScore) && quiz.totalTime == old(quiz.totalTime)
      ensures quiz.totalTimeBonus == old(quiz.totalTimeBonus)
      ensures quiz.combo == old(quiz.combo) && quiz.maxCombo == old(quiz.maxCombo)
      ensures old(quiz.onQuestion) < 9 ==> quiz.completed == old(quiz.completed) && quiz.points == old(quiz.points)
      ensures quiz.onQuestion <= 9 ==> Valid()
      ensures quiz.onQuestion == 10 ==> quiz.completed && quiz.points == FinalPoints(quiz.reports) && 0 <= quiz.points <= 200
    {
      isAnswered := false;
      secs := 0;
      quiz.Next();
      TenQuestionsAtMost200(quiz.reports);
    }
  }
}
