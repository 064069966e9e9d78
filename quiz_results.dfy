/** The results view of a finished quiz (frontend/src/quizzes/QuizResults.js): which backend
    updates it requests, in which order and under which conditions, and the messages and
    badges it shows. Each backend call is appended to a log, and its reply comes from an
    oracle: `Threw` for a call whose promise rejects (the enclosing `try` then stops), or the
    part of the response the view reads. */
module QuizResults {
  import opened Wrappers
  import opened Text
  import opened QuizSession
  import Records

  /** The props the quiz hands to the view. `hiScore` and `leaderboardScore` are `None` where
      the source has a falsy value. */
  datatype Props = Props(category: string, difficulty: string, hiScore: Option<Best>,
                         leaderboardScore: Option<Best>, totalScore: int, points: int, sessionId: string)

  /** The signed-in user of the context, with `stats.remainingPts` from before this session
      (`None` where it is undefined). */
  datatype User = User(username: string, id: nat, remainingPts: Option<int>)

  datatype ApiCall =
    | AddSessionCall(sessionId: string, score: int, points: int)
    | UpdatePlayedCountsCall
    | UpdateScoreCall(score: int, points: int)
    | UpdateLeaderboardCall(score: int, points: int)
    | PostBadgeCall(badge: string)
    | GetStatsCall

  datatype Reply<T> = Threw | Replied(value: T)

  /** The fields of a `getStats` response the view reads. */
  datatype StatsReply = StatsReply(level: int, title: string)

  /** The oracle: what each call answers. Booleans are the truthiness of `added` / `updated`;
      the played count is `updated.played`, `None` when `updated` is falsy. */
  datatype ApiReplies = ApiReplies(
    addSession: Reply<bool>,
    playedCounts: Reply<Option<int>>,
    updateScore: Reply<bool>,
    leaderboard: Reply<bool>,
    trophyBadge: Reply<bool>,
    stats: Reply<StatsReply>,
    levelBadge: Reply<bool>)

  /** The view's state: the three messages, the badge names shown, the calls made so far and
      the stats written back to the user context. `undefined` messages are "". */
  datatype View = View(msg: string, msg2: string, msg3: string, badges: seq<string>,
                       calls: seq<ApiCall>, refreshed: Option<StatsReply>)

  const InitialView := View("", "", "", [], [], None)

  const GuestMessage := "Thanks for playing, guest. You can save your score by signing up!"
  const NewBestMessage := "Great job! You have made a new personal best record"
  const NewLeaderSuffix := " and a new leaderboard record!"
  const NeedOver80Suffix := ". You need to pass and get over 80 points in order to make a leaderboard record."
  const TrophyEarnedMessage := "You have earned the gold trophy badge for breaking the previous leaderboard record! "
  const TrophyAgainMessage := "Wow!! Congrats on making another leaderboard record! "
  /** The most played counts a session may have and still update the leaderboard. */
  const MaxLeaderboardPlays := 3

  function SoCloseMessage(gap: int): string
  {
    "So close! You are " + IntToString(gap) + " points away from your personal best record"
  }

  function LevelUpMessage(s: StatsReply): string
  {
    "Yay! You have leveled up and became Level " + IntToString(s.level) + " " + s.title + "."
  }

  function LevelBadgeMessage(msg3: string, title: string): string
  {
    if msg3 != "" then msg3 + "Also, your have earned the level badge " + title + "! View all your badges under 'My Dashboard'."
    else "You have earned the level badge " + title + "! View all your badges under 'My Dashboard'."
  }

  function Call(v: View, c: ApiCall): View
  {
    v.(calls := v.calls + [c])
  }

  /** A personal-best update is requested: there is no best yet, or the points reach it. */
  predicate RequestsPersonalBest(q: Props)
  {
    q.hiScore.None? || q.points >= q.hiScore.value.points
  }

  /** The leaderboard is left alone: the points are below the record, or the category has
      been played more than three times. An undefined played count never compares true. */
  predicate BlocksLeaderboard(q: Props, npc: Option<int>)
  {
    (q.leaderboardScore.Some? && q.points < q.leaderboardScore.value.points) ||
    (npc.Some? && npc.value > MaxLeaderboardPlays)
  }

  /** A leaderboard update is requested: the points reach the record (or there is none), pass
      80, and the played count is defined and at most 3. */
  predicate RequestsLeaderboard(q: Props, npc: Option<int>)
  {
    (q.leaderboardScore.None? || q.points >= q.leaderboardScore.value.points) &&
    q.points > Records.LeaderboardFloor && npc.Some? && npc.value <= MaxLeaderboardPlays
  }

  /** The first half of `checkScore`; the boolean says whether the call threw. */
  function PersonalBestSpec(v: View, q: Props, r: ApiReplies): (View, bool)
  {
    if !RequestsPersonalBest(q) then
      var gap := q.hiScore.value.points - q.points;
      (v.(msg := if gap <= 30 then SoCloseMessage(gap) else ""), false)
    else
      var v1 := Call(v, UpdateScoreCall(q.totalScore, q.points));
      match r.updateScore
      case Threw => (v1, true)
      case Replied(updated) => (if updated then v1.(msg := NewBestMessage) else v1, false)
  }

  /** The second half of `checkScore`. */
  function LeaderboardSpec(v: View, q: Props, npc: Option<int>, r: ApiReplies): View
  {
    if BlocksLeaderboard(q, npc) then
      v.(msg := if v.msg != "" then v.msg + "!" else "")
    else if RequestsLeaderboard(q, npc) then
      var v1 := Call(v, UpdateLeaderboardCall(q.totalScore, q.points));
      if r.leaderboard != Replied(true) then v1
      else
        var v2 := Call(v1.(msg := v1.msg + NewLeaderSuffix), PostBadgeCall("Trophy"));
        match r.trophyBadge
        case Threw => v2
        case Replied(added) =>
          if added then v2.(msg3 := TrophyEarnedMessage, badges := v2.badges + ["trophy"])
          else v2.(msg3 := TrophyAgainMessage)
    else if q.leaderboardScore.None? && q.points <= Records.LeaderboardFloor then
      v.(msg := v.msg + NeedOver80Suffix)
    else v
  }

  function CheckScoreSpec(v: View, q: Props, npc: Option<int>, r: ApiReplies): View
  {
    var (v1, threw) := PersonalBestSpec(v, q, r);
    if threw then v1 else LeaderboardSpec(v1, q, npc, r)
  }

  /** The played count `updatePlayedCounts` resolves to. */
  function NewPlayedCounts(r: ApiReplies): Option<int>
  {
    match r.playedCounts
    case Threw => None
    case Replied(played) => played
  }

  function CheckUserStatsSpec(v: View, q: Props, u: User, r: ApiReplies): View
  {
    var v1 := Call(v, GetStatsCall);
    match r.stats
    case Threw => v1
    case Replied(s) =>
      if u.remainingPts.Some? && q.points > u.remainingPts.value then
        var v2 := Call(v1.(msg2 := LevelUpMessage(s)), PostBadgeCall(s.title));
        match r.levelBadge
        case Threw => v2
        case Replied(added) =>
          var v3 := if added then v2.(badges := v2.badges + [Lower(s.title)], msg3 := LevelBadgeMessage(v2.msg3, s.title)) else v2;
          v3.(refreshed := Some(s))
      else v1.(refreshed := Some(s))
  }

  function AddSessionSpec(v: View, q: Props, u: User, r: ApiReplies): View
  {
    var v1 := Call(v, AddSessionCall(q.sessionId, q.totalScore, q.points));
    if r.addSession != Replied(true) then v1
    else
      var v2 := Call(v1, UpdatePlayedCountsCall);
      var v3 := CheckScoreSpec(v2, q, NewPlayedCounts(r), r);
      CheckUserStatsSpec(v3, q, u, r)
  }

  /** What the view ends up showing and having requested. */
  function SendResultsSpec(q: Props, currUser: Option<User>, r: ApiReplies): View
  {
    if currUser.None? then InitialView.(msg := GuestMessage)
    else AddSessionSpec(InitialView, q, currUser.value, r)
  }

  /** A guest triggers no backend call and is thanked. */
  lemma GuestMakesNoCalls(q: Props, r: ApiReplies)
    ensures var v := SendResultsSpec(q, None, r);
      v.calls == [] && v.msg == GuestMessage && v.msg2 == "" && v.msg3 == "" && v.badges == [] && v.refreshed.None?
  {
  }

  predicate IsScoreCall(c: ApiCall)
  {
    c.UpdateScoreCall? || c.UpdateLeaderboardCall? || c == PostBadgeCall("Trophy")
  }

  /** The personal-best step appends the update request exactly when it is requested, and
      throws only then; it leaves `msg2` alone. */
  lemma PersonalBestCalls(v: View, q: Props, r: ApiReplies)
    ensures var (w, threw) := PersonalBestSpec(v, q, r);
      && w.calls == v.calls + (if RequestsPersonalBest(q) then [UpdateScoreCall(q.totalScore, q.points)] else [])
      && (threw <==> RequestsPersonalBest(q) && r.updateScore == Threw)
      && w.msg2 == v.msg2
  {
  }

  /** Below a stored best the personal-best step makes no call and does not throw; the
      "So close!" message appears exactly when the gap is at most 30 points, and the number it
      prints reads back as the gap. */
  lemma SoCloseIff(v: View, q: Props, r: ApiReplies)
    requires !RequestsPersonalBest(q)
    ensures var (w, threw) := PersonalBestSpec(v, q, r);
      var gap := q.hiScore.value.points - q.points;
      && !threw && w.calls == v.calls && gap > 0
      && (w.msg != "" <==> gap <= 30)
      && (gap <= 30 ==> w.msg == SoCloseMessage(gap) && DigitsValue(IntToString(gap)) == gap)
  {
    var gap := q.hiScore.value.points - q.points;
    NatToStringRoundTrip(gap);
    assert |SoCloseMessage(gap)| > 0;
  }

  /** The leaderboard step appends the update request exactly when the gate passes, followed
      by the trophy badge request exactly when that update came back updated. */
  lemma LeaderboardCalls(v: View, q: Props, npc: Option<int>, r: ApiReplies)
    ensures var w := LeaderboardSpec(v, q, npc, r);
      && w.calls == v.calls +
           (if RequestsLeaderboard(q, npc) then
              [UpdateLeaderboardCall(q.totalScore, q.points)] +
              (if r.leaderboard == Replied(true) then [PostBadgeCall("Trophy")] else [])
            else [])
      && w.msg2 == v.msg2
  {
    if RequestsLeaderboard(q, npc) {
      assert !BlocksLeaderboard(q, npc);
    }
  }

  /** `checkScore` appends only score calls, and leaves `msg2` alone. */
  lemma CheckScoreCalls(v: View, q: Props, npc: Option<int>, r: ApiReplies)
    ensures var w := CheckScoreSpec(v, q, npc, r);
      && |w.calls| >= |v.calls| && w.calls[..|v.calls|] == v.calls
      && (forall j :: |v.calls| <= j < |w.calls| ==> IsScoreCall(w.calls[j]))
      && w.msg2 == v.msg2
  {
    PersonalBestCalls(v, q, r);
    var (v1, threw) := PersonalBestSpec(v, q, r);
    if !threw {
      LeaderboardCalls(v1, q, npc, r);
    }
  }

  /** `checkUserStats` requests the stats, then the level badge exactly on a level-up, and
      sets the level-up message exactly then. */
  lemma CheckUserStatsCalls(v: View, q: Props, u: User, r: ApiReplies)
    ensures var w := CheckUserStatsSpec(v, q, u, r);
      var levelUp := r.stats.Replied? && u.remainingPts.Some? && q.points > u.remainingPts.value;
      && w.calls == v.calls + [GetStatsCall] + (if levelUp then [PostBadgeCall(r.stats.value.title)] else [])
      && w.msg2 == if levelUp then LevelUpMessage(r.stats.value) else v.msg2
  {
  }

  /** The calls `checkScore` makes, in order. */
  function ScorePhaseCalls(q: Props, npc: Option<int>, r: ApiReplies): seq<ApiCall>
  {
    var pb := RequestsPersonalBest(q);
    (if pb then [UpdateScoreCall(q.totalScore, q.points)] else []) +
    (if !(pb && r.updateScore == Threw) && RequestsLeaderboard(q, npc) then
       [UpdateLeaderboardCall(q.totalScore, q.points)] +
       (if r.leaderboard == Replied(true) then [PostBadgeCall("Trophy")] else [])
     else [])
  }

  /** The calls `checkUserStats` makes, in order. */
  function StatsPhaseCalls(q: Props, u: User, r: ApiReplies): seq<ApiCall>
  {
    var levelUp := r.stats.Replied? && u.remainingPts.Some? && q.points > u.remainingPts.value;
    [GetStatsCall] + (if levelUp then [PostBadgeCall(r.stats.value.title)] else [])
  }

  /** `checkScore` appends exactly the score-phase calls. */
  lemma CheckScorePhase(v: View, q: Props, npc: Option<int>, r: ApiReplies)
    ensures CheckScoreSpec(v, q, npc, r).calls == v.calls + ScorePhaseCalls(q, npc, r)
  {
    PersonalBestCalls(v, q, r);
    var (v1, threw) := PersonalBestSpec(v, q, r);
    if !threw {
      LeaderboardCalls(v1, q, npc, r);
    }
  }

  /** The whole call log of a signed-in user's results view. */
  lemma SessionCalls(q: Props, u: User, r: ApiReplies)
    ensures SendResultsSpec(q, Some(u), r).calls ==
      [AddSessionCall(q.sessionId, q.totalScore, q.points)] +
      (if r.addSession == Replied(true) then
         [UpdatePlayedCountsCall] + ScorePhaseCalls(q, NewPlayedCounts(r), r) + StatsPhaseCalls(q, u, r)
       else [])
  {
    var v1 := Call(InitialView, AddSessionCall(q.sessionId, q.totalScore, q.points));
    if r.addSession == Replied(true) {
      var v2 := Call(v1, UpdatePlayedCountsCall);
      var npc := NewPlayedCounts(r);
      CheckScorePhase(v2, q, npc, r);
      var v3 := CheckScoreSpec(v2, q, npc, r);
      CheckUserStatsCalls(v3, q, u, r);
      assert AddSessionSpec(InitialView, q, u, r) == CheckUserStatsSpec(v3, q, u, r);
    }
  }

  /** A signed-in user's session is sent first; when it is added, the played count comes
      next, then the score calls, then the stats request and at most a level badge. When it
      is not added, nothing else is requested. */
  lemma CallOrder(q: Props, u: User, r: ApiReplies)
    ensures var calls := SendResultsSpec(q, Some(u), r).calls;
      && |calls| >= 1 && calls[0] == AddSessionCall(q.sessionId, q.totalScore, q.points)
      && (r.addSession != Replied(true) <==> |calls| == 1)
      && (r.addSession == Replied(true) ==>
            && calls[1] == UpdatePlayedCountsCall
            && exists k :: 2 <= k < |calls| && calls[k] == GetStatsCall
                 && (forall j :: 2 <= j < k ==> IsScoreCall(calls[j]))
                 && (forall j :: k < j < |calls| ==> calls[j].PostBadgeCall?))
  {
    SessionCalls(q, u, r);
    var first := AddSessionCall(q.sessionId, q.totalScore, q.points);
    if r.addSession == Replied(true) {
      var score := ScorePhaseCalls(q, NewPlayedCounts(r), r);
      ScorePhaseIsScoreCalls(q, NewPlayedCounts(r), r);
      AddedCallShape(SendResultsSpec(q, Some(u), r).calls, first, score, StatsPhaseCalls(q, u, r));
    }
  }

  /** Every call of the score phase is a score call. */
  lemma ScorePhaseIsScoreCalls(q: Props, npc: Option<int>, r: ApiReplies)
    ensures forall j :: 0 <= j < |ScorePhaseCalls(q, npc, r)| ==> IsScoreCall(ScorePhaseCalls(q, npc, r)[j])
  {
  }

  /** The shape of a log that sends the session, the played count, score calls, then the
      stats request and badge requests. */
  lemma AddedCallShape(calls: seq<ApiCall>, first: ApiCall, score: seq<ApiCall>, stats: seq<ApiCall>)
    requires calls == [first] + ([UpdatePlayedCountsCall] + score + stats)
    requires forall j :: 0 <= j < |score| ==> IsScoreCall(score[j])
    requires |stats| >= 1 && stats[0] == GetStatsCall
    requires forall j :: 1 <= j < |stats| ==> stats[j].PostBadgeCall?
    ensures |calls| > 2 && calls[0] == first && calls[1] == UpdatePlayedCountsCall
    ensures exists k :: 2 <= k < |calls| && calls[k] == GetStatsCall
                 && (forall j :: 2 <= j < k ==> IsScoreCall(calls[j]))
                 && (forall j :: k < j < |calls| ==> calls[j].PostBadgeCall?)
  {
    var k := 2 + |score|;
    assert calls[k] == GetStatsCall;
    assert forall j :: 2 <= j < k ==> calls[j] == score[j - 2];
    assert forall j :: k < j < |calls| ==> calls[j] == stats[j - k];
  }

  /** The personal-best update is requested exactly when the session was added and there is
      no best yet or the points reach it. */
  lemma PersonalBestRequestedIff(q: Props, u: User, r: ApiReplies)
    ensures UpdateScoreCall(q.totalScore, q.points) in SendResultsSpec(q, Some(u), r).calls <==>
      r.addSession == Replied(true) && RequestsPersonalBest(q)
  {
    SessionCalls(q, u, r);
  }

  /** The leaderboard update is requested exactly when the session was added, the
      personal-best step did not throw, and the points pass the leaderboard gate: at least the
      record, more than 80 points and at most 3 plays. */
  lemma LeaderboardRequestedIff(q: Props, u: User, r: ApiReplies)
    ensures UpdateLeaderboardCall(q.totalScore, q.points) in SendResultsSpec(q, Some(u), r).calls <==>
      && r.addSession == Replied(true)
      && !(RequestsPersonalBest(q) && r.updateScore == Threw)
      && RequestsLeaderboard(q, NewPlayedCounts(r))
  {
    SessionCalls(q, u, r);
  }

  /** Within `checkScore`, the trophy badge is requested only right after a leaderboard update
      that came back updated. */
  lemma TrophyOnlyAfterLeaderboardUpdate(v: View, q: Props, npc: Option<int>, r: ApiReplies)
    ensures var w := CheckScoreSpec(v, q, npc, r);
      forall j :: |v.calls| <= j < |w.calls| && w.calls[j] == PostBadgeCall("Trophy") ==>
        r.leaderboard == Replied(true) && j >= 1 && w.calls[j - 1] == UpdateLeaderboardCall(q.totalScore, q.points)
  {
    PersonalBestCalls(v, q, r);
    var (v1, threw) := PersonalBestSpec(v, q, r);
    if !threw {
      LeaderboardCalls(v1, q, npc, r);
    }
  }

  /** The level-up message appears exactly when the session was added, the stats came back
      and the points exceed the remaining points the user had before the session. */
  lemma LevelUpIff(q: Props, u: User, r: ApiReplies)
    ensures SendResultsSpec(q, Some(u), r).msg2 != "" <==>
      r.addSession == Replied(true) && r.stats.Replied? && u.remainingPts.Some? && q.points > u.remainingPts.value
  {
    if r.addSession == Replied(true) {
      var v2 := Call(Call(InitialView, AddSessionCall(q.sessionId, q.totalScore, q.points)), UpdatePlayedCountsCall);
      var v3 := CheckScoreSpec(v2, q, NewPlayedCounts(r), r);
      CheckScoreCalls(v2, q, NewPlayedCounts(r), r);
      CheckUserStatsCalls(v3, q, u, r);
      if r.stats.Replied? {
        assert |LevelUpMessage(r.stats.value)| > 0;
      }
    }
  }

  /** The frontend's gates never ask the backend for an update its own rules refuse, when
      the loaded best and record are what the backend stores. */
  lemma GatesAgreeWithBackend(q: Props, npc: Option<int>)
    ensures RequestsPersonalBest(q) ==>
      Records.PersonalBestDecision(if q.hiScore.Some? then Some(q.hiScore.value.points) else None, q.points) != Records.Reject
    ensures RequestsLeaderboard(q, npc) ==>
      Records.LeaderboardDecision(if q.leaderboardScore.Some? then Some(q.leaderboardScore.value.points) else None, q.points) != Records.Reject
  {
  }

  /** The signed-in scenario of the results view test: no best, a record of 85, 124 points and
      60 points left to the next level. */
  lemma SignedInScenario()
    ensures var q := Props("General Knowledge", "easy", None, Some(Best(5, 85)), 7, 124, "s1");
      var u := User("testuser", 1, Some(60));
      var r := ApiReplies(Replied(true), Replied(Some(1)), Replied(true), Replied(true), Replied(true),
                          Replied(StatsReply(15, "Ace")), Replied(true));
      var v := SendResultsSpec(q, Some(u), r);
      && v.msg == NewBestMessage + NewLeaderSuffix
      && v.msg2 == "Yay! You have leveled up and became Level 15 Ace."
      && v.msg3 == TrophyEarnedMessage + "Also, your have earned the level badge " + "Ace" + "! View all your badges under 'My Dashboard'."
      && v.badges == ["trophy", "ace"]
  {
    var q := Props("General Knowledge", "easy", None, Some(Best(5, 85)), 7, 124, "s1");
    var u := User("testuser", 1, Some(60));
    var r := ApiReplies(Replied(true), Replied(Some(1)), Replied(true), Replied(true), Replied(true),
                        Replied(StatsReply(15, "Ace")), Replied(true));
    var v2 := Call(Call(InitialView, AddSessionCall(q.sessionId, q.totalScore, q.points)), UpdatePlayedCountsCall);
    var v3 := CheckScoreSpec(v2, q, NewPlayedCounts(r), r);
    ScenarioScores(v2, q, r);
    ScenarioMessages();
    assert v3.msg3 != "";
  }

  /** The score part of the scenario: a new best, then a new record and the trophy badge. */
  lemma ScenarioScores(v: View, q: Props, r: ApiReplies)
    requires v.msg == "" && v.msg3 == "" && v.badges == []
    requires q.hiScore.None? && q.leaderboardScore == Some(Best(5, 85)) && q.points == 124
    requires r.playedCounts == Replied(Some(1)) && r.updateScore == Replied(true)
    requires r.leaderboard == Replied(true) && r.trophyBadge == Replied(true)
    ensures var w := CheckScoreSpec(v, q, NewPlayedCounts(r), r);
      w.msg == NewBestMessage + NewLeaderSuffix && w.msg3 == TrophyEarnedMessage && w.badges == ["trophy"]
  {
    var v1 := PersonalBestSpec(v, q, r).0;
    assert v1.msg == NewBestMessage && v1.msg3 == "" && v1.badges == [];
    assert RequestsLeaderboard(q, Some(1)) && !BlocksLeaderboard(q, Some(1));
  }

  /** The two level messages of the scenario, written out. */
  lemma ScenarioMessages()
    ensures LevelUpMessage(StatsReply(15, "Ace")) == "Yay! You have leveled up and became Level 15 Ace."
    ensures LevelBadgeMessage(TrophyEarnedMessage, "Ace")
         == TrophyEarnedMessage + "Also, your have earned the level badge " + "Ace" + "! View all your badges under 'My Dashboard'."
    ensures Lower("Ace") == "ace"
  {
    FifteenPrints();
    assert |TrophyEarnedMessage| > 0;
    assert Lower("Ace")[0] == LowerChar('A');
  }

  /** Level 15 prints as "15". */
  lemma FifteenPrints()
    ensures IntToString(15) == "15"
  {
    assert NatToString(1) == "1";
    assert NatToString(15) == NatToString(1) + [DigitChar(5)];
  }

  class ResultsView {
    const props: Props
    const currUser: Option<User>
    var msg: string
    var msg2: string
    var msg3: string
    var badges: seq<string>
    var calls: seq<ApiCall>
    var refreshed: Option<StatsReply>
    var infoLoaded: bool

    function Current(): View
      reads this
    {
      View(msg, msg2, msg3, badges, calls, refreshed)
    }

    constructor (props: Props, currUser: Option<User>)
      ensures this.props == props && this.currUser == currUser
      ensures Current() == InitialView && !infoLoaded
    {
      this.props := props;
      this.currUser := currUser;
      msg, msg2, msg3 := "", "", "";
      badges, calls := [], [];
      refreshed := None;
      infoLoaded := false;
    }

    /** `checkScore`: the personal-best step, then the leaderboard step unless the first threw. */
    method CheckScore(newPlayedCounts: Option<int>, replies: ApiReplies)
      modifies this
      ensures Current() == CheckScoreSpec(old(Current()), props, newPlayedCounts, replies)
      ensures infoLoaded == old(infoLoaded)
    {
      var threw := PersonalBestStep(replies);
      if !threw {
        LeaderboardStep(newPlayedCounts, replies);
      }
    }

    /** The first `if` of `checkScore`: the "So close!" message or the personal-best request. */
    method PersonalBestStep(replies: ApiReplies) returns (threw: bool)
      modifies this
      ensures (Current(), threw) == PersonalBestSpec(old(Current()), props, replies)
      ensures infoLoaded == old(infoLoaded)
    {
      var q := props;
      threw := false;
      if q.hiScore.Some? && q.points < q.hiScore.value.points {
        var gap := q.hiScore.value.points - q.points;
        if gap <= 30 {
          msg := SoCloseMessage(gap);
        } else {
          msg := "";
        }
      } else {
        calls := calls + [UpdateScoreCall(q.totalScore, q.points)];
        if replies.updateScore.Threw? {
          threw := true;
        } else if replies.updateScore.value {
          msg := NewBestMessage;
        }
      }
    }

    /** The second `if` of `checkScore`: the leaderboard request and the trophy badge. */
    method LeaderboardStep(newPlayedCounts: Option<int>, replies: ApiReplies)
      modifies this
      ensures Current() == LeaderboardSpec(old(Current()), props, newPlayedCounts, replies)
      ensures infoLoaded == old(infoLoaded)
    {
      var q := props;
      if (q.leaderboardScore.Some? && q.points < q.leaderboardScore.value.points) ||
         (newPlayedCounts.Some? && newPlayedCounts.value > MaxLeaderboardPlays) {
        msg := if msg != "" then msg + "!" else "";
      } else if (q.leaderboardScore.None? || q.points >= q.leaderboardScore.value.points) &&
                q.points > Records.LeaderboardFloor && newPlayedCounts.Some? && newPlayedCounts.value <= MaxLeaderboardPlays {
        calls := calls + [UpdateLeaderboardCall(q.totalScore, q.points)];
        if replies.leaderboard == Replied(true) {
          msg := msg + NewLeaderSuffix;
          calls := calls + [PostBadgeCall("Trophy")];
          if replies.trophyBadge == Replied(true) {
            msg3 := TrophyEarnedMessage;
            badges := badges + ["trophy"];
          } else if replies.trophyBadge == Replied(false) {
            msg3 := TrophyAgainMessage;
          }
        }
      } else if q.leaderboardScore.None? && q.points <= Records.LeaderboardFloor {
        msg := msg + NeedOver80Suffix;
      }
    }

    /** `updatePlayedCounts`: the new count, or `None` when the call threw or did not update. */
    method UpdatePlayedCounts(replies: ApiReplies) returns (played: Option<int>)
      modifies this
      ensures played == NewPlayedCounts(replies)
      ensures Current() == Call(old(Current()), UpdatePlayedCountsCall) && infoLoaded == old(infoLoaded)
    {
      calls := calls + [UpdatePlayedCountsCall];
      match replies.playedCounts
      case Threw => played := None;
      case Replied(p) => played := p;
    }

    /** `checkUserStats`. */
    method CheckUserStats(u: User, replies: ApiReplies)
      modifies this
      ensures Current() == CheckUserStatsSpec(old(Current()), props, u, replies)
      ensures infoLoaded == old(infoLoaded)
    {
      calls := calls + [GetStatsCall];
      if replies.stats.Threw? {
        return;
      }
      var res := replies.stats.value;
      if u.remainingPts.Some? && props.points > u.remainingPts.value {
        msg2 := LevelUpMessage(res);
        calls := calls + [PostBadgeCall(res.title)];
        if replies.levelBadge.Threw? {
          return;
        }
        if replies.levelBadge.value {
          badges := badges + [Lower(res.title)];
          msg3 := LevelBadgeMessage(msg3, res.title);
        }
      }
      refreshed := Some(res);
    }

    /** `addSession`. */
    method AddSession(u: User, replies: ApiReplies)
      modifies this
      ensures Current() == AddSessionSpec(old(Current()), props, u, replies)
      ensures infoLoaded == old(infoLoaded)
    {
      calls := calls + [AddSessionCall(props.sessionId, props.totalScore, props.points)];
      if replies.addSession == Replied(true) {
        var newPlayedCounts := UpdatePlayedCounts(replies);
        CheckScore(newPlayedCounts, replies);
        CheckUserStats(u, replies);
      }
    }

    /** `sendResults`, run once when the view mounts. */
    method SendResults(replies: ApiReplies)
      requires Current() == InitialView
      modifies this
      ensures Current() == SendResultsSpec(props, currUser, replies)
      ensures infoLoaded
    {
      if currUser.Some? {
        AddSession(currUser.value, replies);
      } else {
        msg := GuestMessage;
      }
      infoLoaded := true;
    }
  }
}
