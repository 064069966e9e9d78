/** The scoring state of one quiz session (frontend/src/quizzes/Quiz.js): running totals,
    the combo rule and the final points. Rendering and the score loading effects are not
    modelled; every answer handed to `updateStats` is kept in a ghost log, and the fields are
    proved to be the totals and runs of that log. */
module QuizSession {
  import opened Wrappers

  /** One trivia question as the quiz API delivers it, answers already shuffled. */
  datatype Question = Question(category: string, difficulty: string, question: string,
                               correctAnswer: string, answers: seq<string>)

  /** The arguments of one `updateStats` call. */
  datatype Report = Report(time: int, timeBonus: int, score: int, combo: int)

  /** A personal-best or leaderboard row as loaded for the quiz (`hiScore`, `leaderboardScore`). */
  datatype Best = Best(score: int, points: int)

  /** `updateStats` treats a report as a hit when its combo argument is truthy. */
  predicate Hit(r: Report)
  {
    r.combo != 0
  }

  function SumScore(s: seq<Report>): int
  {
    if s == [] then 0 else SumScore(s[..|s| - 1]) + s[|s| - 1].score
  }

  function SumTime(s: seq<Report>): int
  {
    if s == [] then 0 else SumTime(s[..|s| - 1]) + s[|s| - 1].time
  }

  function SumBonus(s: seq<Report>): int
  {
    if s == [] then 0 else SumBonus(s[..|s| - 1]) + s[|s| - 1].timeBonus
  }

  /** The number of hits at the end of `s`. */
  function TrailingRun(s: seq<Report>): nat
  {
    if s == [] || !Hit(s[|s| - 1]) then 0 else TrailingRun(s[..|s| - 1]) + 1
  }

  /** The longest run of consecutive hits seen so far. */
  function LongestRun(s: seq<Report>): nat
  {
    if s == [] then 0
    else
      var before := LongestRun(s[..|s| - 1]);
      var trailing := TrailingRun(s);
      if trailing > before then trailing else before
  }

  /** Every report of `s[i..j]` is a hit. */
  ghost predicate AllHits(s: seq<Report>, i: int, j: int)
    requires 0 <= i <= j <= |s|
  {
    forall k :: i <= k < j ==> Hit(s[k])
  }

  /** `s[i..i + len]` is a run of hits. */
  ghost predicate RunAt(s: seq<Report>, i: int, len: nat)
  {
    0 <= i && i + len <= |s| && AllHits(s, i, i + len)
  }

  /** The trailing run is a run of hits, and it cannot be extended to the left. */
  lemma {:induction false} TrailingRunIsRun(s: seq<Report>)
    ensures TrailingRun(s) <= |s|
    ensures AllHits(s, |s| - TrailingRun(s), |s|)
    ensures TrailingRun(s) < |s| ==> !Hit(s[|s| - TrailingRun(s) - 1])
  {
    if s != [] && Hit(s[|s| - 1]) {
      var p := s[..|s| - 1];
      TrailingRunIsRun(p);
      assert forall k :: 0 <= k < |p| ==> p[k] == s[k];
    }
  }

  /** A run of hits that reaches the end of `s` is at most the trailing run. */
  lemma {:induction false} TrailingRunIsLongestSuffix(s: seq<Report>, i: int)
    requires 0 <= i <= |s| && AllHits(s, i, |s|)
    ensures |s| - i <= TrailingRun(s)
  {
    if i < |s| {
      var p := s[..|s| - 1];
      assert Hit(s[|s| - 1]);
      assert AllHits(p, i, |p|) by {
        assert forall k :: i <= k < |p| ==> p[k] == s[k];
      }
      TrailingRunIsLongestSuffix(p, i);
    }
  }

  /** `LongestRun` is the length of the longest run of consecutive hits: every run is at
      most that long, and some run is exactly that long. */
  lemma {:induction false} LongestRunIsLongest(s: seq<Report>)
    ensures forall i, j :: 0 <= i <= j <= |s| && AllHits(s, i, j) ==> j - i <= LongestRun(s)
    ensures exists i :: RunAt(s, i, LongestRun(s))
  {
    if s == [] {
      assert RunAt(s, 0, 0);
    } else {
      var p := s[..|s| - 1];
      LongestRunIsLongest(p);
      TrailingRunIsRun(s);
      forall i, j | 0 <= i <= j <= |s| && AllHits(s, i, j)
        ensures j - i <= LongestRun(s)
      {
        if j == |s| {
          TrailingRunIsLongestSuffix(s, i);
        } else {
          assert AllHits(p, i, j) by {
            assert forall k :: i <= k < j ==> p[k] == s[k];
          }
        }
      }
      if TrailingRun(s) > LongestRun(p) {
        assert RunAt(s, |s| - TrailingRun(s), LongestRun(s));
      } else {
        var i :| RunAt(p, i, LongestRun(p));
        assert RunAt(s, i, LongestRun(s)) by {
          assert forall k :: i <= k < i + LongestRun(p) ==> p[k] == s[k];
        }
      }
    }
  }

  /** The trailing run never exceeds the longest run. */
  lemma TrailingAtMostLongest(s: seq<Report>)
    ensures TrailingRun(s) <= LongestRun(s)
  {
  }

  /** A report as `QuizQuestions` produces it: score and combo both 0 or both 1, and a time
      bonus of at most 6. */
  predicate WellFormed(r: Report)
  {
    (r.score == 0 || r.score == 1) && r.combo == r.score && 0 <= r.timeBonus <= 6
  }

  /** The final points of a session whose answers were `s`. */
  function FinalPoints(s: seq<Report>): int
  {
    SumScore(s) * 10 + SumBonus(s) + LongestRun(s) * 4
  }

  /** Each well-formed answer is worth at most 20 points: 10 for the score, 6 of time bonus
      and 4 for extending the longest run. */
  lemma {:induction false} FinalPointsBound(s: seq<Report>)
    requires forall k :: 0 <= k < |s| ==> WellFormed(s[k])
    ensures 0 <= FinalPoints(s) <= 20 * |s|
  {
    if s != [] {
      var p := s[..|s| - 1];
      assert forall k :: 0 <= k < |p| ==> p[k] == s[k];
      FinalPointsBound(p);
      TrailingRunIsRun(s);
      assert LongestRun(s) <= LongestRun(p) + 1 by {
        if TrailingRun(s) > 0 {
          assert TrailingRun(s) == TrailingRun(p) + 1;
          TrailingAtMostLongest(p);
        }
      }
    }
  }

  /** A ten-question quiz scores at most 200 points. */
  lemma TenQuestionsAtMost200(s: seq<Report>)
    requires |s| <= 10 && forall k :: 0 <= k < |s| ==> WellFormed(s[k])
    ensures 0 <= FinalPoints(s) <= 200
  {
    FinalPointsBound(s);
  }

  /** The appended report extends the trailing run on a hit and ends it on a miss. */
  lemma RunsAfterReport(s: seq<Report>, r: Report)
    ensures TrailingRun(s + [r]) == if Hit(r) then TrailingRun(s) + 1 else 0
    ensures LongestRun(s + [r]) ==
      if Hit(r) && TrailingRun(s) + 1 > LongestRun(s) then TrailingRun(s) + 1 else LongestRun(s)
    ensures SumScore(s + [r]) == SumScore(s) + r.score
    ensures SumTime(s + [r]) == SumTime(s) + r.time
    ensures SumBonus(s + [r]) == SumBonus(s) + r.timeBonus
  {
    assert (s + [r])[..|s|] == s;
  }

  function Max(a: int, b: int): (m: int)
    ensures m >= a && m >= b && (m == a || m == b)
  {
    if a >= b then a else b
  }

  class Quiz {
    var quizData: seq<Question>
    var onQuestion: nat
    var completed: bool
    var totalScore: int
    var totalTime: int
    var totalTimeBonus: int
    var combo: int
    var maxCombo: int
    var points: int
    var hiScore: Option<Best>
    var leaderboardScore: Option<Best>
    var sessionId: string
    /** Every report handed to `updateStats` since the last reset, in order. */
    ghost var reports: seq<Report>

    /** The totals are the sums of the log, `combo` is its trailing run of hits and
        `maxCombo` its longest run. */
    ghost predicate Valid()
      reads this
    {
      && totalScore == SumScore(reports)
      && totalTime == SumTime(reports)
      && totalTimeBonus == SumBonus(reports)
      && combo == TrailingRun(reports)
      && maxCombo == LongestRun(reports)
    }

    /** The state of a freshly mounted quiz, with the session id the id oracle gave. */
    constructor (sessionId: string)
      ensures Valid() && reports == []
      ensures quizData == [] && onQuestion == 0 && !completed && points == 0
      ensures hiScore == None && leaderboardScore == None && this.sessionId == sessionId
    {
      quizData := [];
      onQuestion := 0;
      completed := false;
      totalScore, totalTime, totalTimeBonus := 0, 0, 0;
      combo, maxCombo, points := 0, 0, 0;
      hiScore, leaderboardScore := None, None;
      this.sessionId := sessionId;
      reports := [];
    }

    /** `updateStats`: the three totals grow by the report's values; a hit extends the combo,
        and also `maxCombo` when the combo had caught up with it; a miss resets the combo. */
    method UpdateStats(time: int, timeBonus: int, score: int, currCombo: int)
      requires Valid()
      modifies this
      ensures Valid()
      ensures reports == old(reports) + [Report(time, timeBonus, score, currCombo)]
      ensures totalScore == old(totalScore) + score && totalTime == old(totalTime) + time
      ensures totalTimeBonus == old(totalTimeBonus) + timeBonus
      ensures combo == if currCombo != 0 then old(combo) + 1 else 0
      ensures maxCombo == if currCombo != 0 && old(combo) >= old(maxCombo) then old(maxCombo) + 1 else old(maxCombo)
      ensures 0 <= combo <= maxCombo
      ensures quizData == old(quizData) && onQuestion == old(onQuestion) && completed == old(completed)
      ensures points == old(points) && hiScore == old(hiScore) && leaderboardScore == old(leaderboardScore)
      ensures sessionId == old(sessionId)
    {
      var r := Report(time, timeBonus, score, currCombo);
      RunsAfterReport(reports, r);
      TrailingAtMostLongest(reports);
      TrailingAtMostLongest(reports + [r]);
      totalScore := totalScore + score;
      totalTime := totalTime + time;
      totalTimeBonus := totalTimeBonus + timeBonus;
      if currCombo != 0 && combo >= maxCombo {
        combo := combo + 1;
        maxCombo := maxCombo + 1;
      } else if currCombo != 0 {
        combo := combo + 1;
      } else {
        combo := 0;
      }
      reports := reports + [r];
    }

    /** `next`: moves to the next question; after the tenth (index 9 or beyond) it fixes the
        session's points and marks it completed. */
    method Next()
      requires Valid()
      modifies this
      ensures Valid()
      ensures onQuestion == old(onQuestion) + 1
      ensures old(onQuestion) >= 9 ==> completed && points == FinalPoints(reports)
      ensures old(onQuestion) < 9 ==> completed == old(completed) && points == old(points)
      ensures reports == old(reports) && totalScore == old(totalScore) && totalTime == old(totalTime)
      ensures totalTimeBonus == old(totalTimeBonus) && combo == old(combo) && maxCombo == old(maxCombo)
      ensures quizData == old(quizData) && hiScore == old(hiScore) && leaderboardScore == old(leaderboardScore)
      ensures sessionId == old(sessionId)
    {
      var wasOn := onQuestion;
      onQuestion := onQuestion + 1;
      if wasOn >= 9 {
        points := totalScore * 10 + totalTimeBonus + maxCombo * 4;
        completed := true;
      }
    }

    /** `reset`: back to the initial state, with a new session id from the id oracle. */
    method Reset(newSessionId: string)
      modifies this
      ensures Valid() && reports == []
      ensures totalScore == 0 && totalTime == 0 && totalTimeBonus == 0 && combo == 0 && maxCombo == 0
      ensures quizData == [] && onQuestion == 0 && !completed && points == 0
      ensures hiScore == None && leaderboardScore == None && sessionId == newSessionId
    {
      quizData := [];
      onQuestion := 0;
      completed := false;
      totalScore, totalTime, totalTimeBonus := 0, 0, 0;
      combo, maxCombo, points := 0, 0, 0;
      hiScore, leaderboardScore := None, None;
      sessionId := newSessionId;
      reports := [];
    }

    /** The `maxCombo` handed to the results view, `Math.max(maxCombo, combo)`: always
        `maxCombo` itself, the longest run of correct answers. */
    function DisplayedMaxCombo(): (m: int)
      reads this
      requires Valid()
      ensures m == maxCombo == LongestRun(reports)
    {
      TrailingAtMostLongest(reports);
      Max(maxCombo, combo)
    }
  }
}
