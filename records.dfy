/** The user model's tables and its operations on them (backend/models/user.js). Each table
    is a field of `UserStore`; each static method of `User` that reads and writes rows is a
    method here that returns a tagged result instead of throwing. Dates come from an abstract
    clock that advances by one whenever a dated row is written. */
module Records {
  import opened Wrappers
  import opened Text
  import opened Progression

  type UserId = nat
  type FolderId = nat
  type CategoryId = nat
  type DifficultyType = nat

  /** The errors the model raises: `NotFoundError` and `BadRequestError`. */
  datatype Error = NotFound | BadRequest

  datatype Result<T> = Ok(value: T) | Fail(error: Error)

  /** What an upsert returns: the written row, or the "not updated" message string. */
  datatype Upsert<R> = Stored(row: R) | NotUpdated(message: string)

  /** What `postBadge` returns: the new badge row, or the "already earned" message string. */
  datatype BadgeOutcome = Earned(name: string, url: string, date: nat) | AlreadyEarned(message: string)

  datatype Folder = Folder(userId: UserId, name: string)
  datatype BadgeRow = BadgeRow(url: string, date: nat)
  datatype ScoreRow = ScoreRow(score: int, points: int, date: nat)
  datatype LeaderRow = LeaderRow(userId: UserId, score: int, points: int, date: nat)
  datatype SessionRow = SessionRow(id: nat, sessionId: string, userId: UserId, categoryId: CategoryId,
                                   difficultyType: DifficultyType, score: int, points: int, date: nat)

  /** `getStats` / `updatePoints` result: the stats row plus the derived progress fields. */
  datatype StatsView = StatsView(userId: UserId, level: int, title: string, points: int,
                                 quizzesCompleted: int, progress: Option<Progress>)

  const NotUpdatedMessage := "Not updated as the new score is less than or equal to the old score."
  const AlreadyEarnedMessage := "The user has already earned this badge."
  /** `SESSIONLIMIT` of `checkSessionLimit`. */
  const SessionLimit := 15
  /** The leaderboard's qualifying floor: an empty slot takes only more points than this. */
  const LeaderboardFloor := 80

  /** The URL stored with a new badge: "/badges/" + lower-case name + ".gif". */
  function BadgeUrl(badge: string): (url: string)
    ensures |url| == |badge| + 12
    ensures url[..8] == "/badges/" && url[|url| - 4..] == ".gif"
    ensures url[8..|url| - 4] == Lower(badge)
  {
    "/badges/" + Lower(badge) + ".gif"
  }

  /** What an upsert does with a candidate, given the stored points (if any). */
  datatype Decision = Insert | Overwrite | Reject

  /** `updateScore`'s rule: a missing best reads as 0 points and so does a stored best of 0
      (`!oldPoints`): both insert. Otherwise the row is overwritten when the candidate has at
      least the stored points (ties too), and kept otherwise. */
  function PersonalBestDecision(stored: Option<int>, points: int): (d: Decision)
    ensures d == Insert <==> stored.None? || stored.value == 0
    ensures d == Overwrite <==> stored.Some? && stored.value != 0 && points >= stored.value
    ensures d == Reject <==> stored.Some? && stored.value != 0 && points < stored.value
  {
    var oldPoints := stored.GetOr(0);
    if oldPoints == 0 then Insert
    else if points >= oldPoints then Overwrite
    else Reject
  }

  /** `updateLeaderboardScore`'s rule: an empty slot (or one holding 0 points) is filled only
      with more than 80 points; an occupied slot is overwritten when the candidate has at least
      the stored points. */
  function LeaderboardDecision(stored: Option<int>, points: int): (d: Decision)
    ensures d == Insert <==> (stored.None? || stored.value == 0) && points > LeaderboardFloor
    ensures d == Overwrite <==> stored.Some? && stored.value != 0 && points >= stored.value
    ensures d == Reject <==>
      ((stored.None? || stored.value == 0) && points <= LeaderboardFloor) ||
      (stored.Some? && stored.value != 0 && points < stored.value)
  {
    var oldPoints := stored.GetOr(0);
    if oldPoints == 0 && points > LeaderboardFloor then Insert
    else if oldPoints != 0 && points >= oldPoints then Overwrite
    else Reject
  }

  /** Once a positive best is stored, neither rule ever lowers it: whatever they accept has at
      least the stored points. */
  lemma AcceptedNeverLowers(stored: int, points: int)
    requires stored > 0
    ensures PersonalBestDecision(Some(stored), points) != Reject ==> points >= stored
    ensures LeaderboardDecision(Some(stored), points) != Reject ==> points >= stored
  {
  }

  /** The number of rows of `s` that belong to user `u`. */
  function CountFor(u: UserId, s: seq<SessionRow>): nat
  {
    if s == [] then 0 else CountFor(u, s[..|s| - 1]) + (if s[|s| - 1].userId == u then 1 else 0)
  }

  /** Counting over a concatenation adds the counts of the parts. */
  lemma {:induction false} CountForAppend(u: UserId, a: seq<SessionRow>, b: seq<SessionRow>)
    ensures CountFor(u, a + b) == CountFor(u, a) + CountFor(u, b)
    decreases |b|
  {
    if b != [] {
      assert (a + b)[..|a + b| - 1] == a + b[..|b| - 1];
      CountForAppend(u, a, b[..|b| - 1]);
    } else {
      assert a + b == a;
    }
  }

  /** Adding a new key adds its value to the map's values and removes none. */
  lemma ValuesOfNewKey<K, V>(m: map<K, V>, k: K, v: V)
    requires k !in m
    ensures m[k := v].Values == m.Values + {v}
  {
    var m' := m[k := v];
    forall x | x in m'.Values
      ensures x in m.Values + {v}
    {
      var key :| key in m' && m'[key] == x;
      if key != k {
        assert key in m && m[key] == x;
        assert x in m.Values;
      } else {
        assert x == v;
      }
    }
    forall x | x in m.Values
      ensures x in m'.Values
    {
      var key :| key in m && m[key] == x;
      assert key in m' && m'[key] == x;
    }
    assert k in m' && m'[k] == v;
  }

  /** `s` without its element at index `k`. */
  function RemoveAt<T>(s: seq<T>, k: nat): (r: seq<T>)
    requires k < |s|
    ensures |r| == |s| - 1
    ensures forall i :: 0 <= i < |r| ==> r[i] == s[if i < k then i else i + 1]
  {
    s[..k] + s[k + 1..]
  }

  /** Removing a row lowers its owner's count by one and leaves every other user's count. */
  lemma CountForRemoveAt(u: UserId, s: seq<SessionRow>, k: nat)
    requires k < |s|
    ensures CountFor(u, RemoveAt(s, k)) == CountFor(u, s) - (if s[k].userId == u then 1 else 0)
  {
    assert s == s[..k] + [s[k]] + s[k + 1..];
    CountForAppend(u, s[..k] + [s[k]], s[k + 1..]);
    CountForAppend(u, s[..k], [s[k]]);
    CountForAppend(u, s[..k], s[k + 1..]);
    assert CountFor(u, [s[k]]) == (if s[k].userId == u then 1 else 0) by {
      assert [s[k]][..0] == [];
    }
  }

  /** Appending a row raises its owner's count by one and leaves every other user's count. */
  lemma CountForSnoc(u: UserId, s: seq<SessionRow>, row: SessionRow)
    ensures CountFor(u, s + [row]) == CountFor(u, s) + (if row.userId == u then 1 else 0)
  {
    assert (s + [row])[..|s|] == s;
  }

  /** The index of the first row of `s` that belongs to `u`. */
  function FirstIndexOf(u: UserId, s: seq<SessionRow>): (r: Option<nat>)
    ensures r.Some? ==> r.value < |s| && s[r.value].userId == u
    ensures r.Some? ==> forall j :: 0 <= j < r.value ==> s[j].userId != u
    ensures r.None? ==> forall j :: 0 <= j < |s| ==> s[j].userId != u
  {
    if s == [] then None
    else if s[0].userId == u then Some(0)
    else match FirstIndexOf(u, s[1..])
      case None => None
      case Some(i) => Some(i + 1)
  }

  /** Appending a row keeps an existing first index, and makes the new row the first when it
      is the user's first. */
  lemma FirstIndexOfSnoc(u: UserId, s: seq<SessionRow>, row: SessionRow)
    ensures FirstIndexOf(u, s + [row]) ==
      if FirstIndexOf(u, s).Some? then FirstIndexOf(u, s)
      else if row.userId == u then Some(|s|) else None
  {
    var t := s + [row];
    if FirstIndexOf(u, s).Some? {
      var i := FirstIndexOf(u, s).value;
      assert t[i] == s[i];
      assert forall j :: 0 <= j < i ==> t[j] == s[j];
    } else {
      assert forall j :: 0 <= j < |s| ==> t[j] == s[j];
      assert t[|s|] == row;
    }
  }

  /** A user without rows counts none; a user with rows has a first one. */
  lemma {:induction false} CountForZero(u: UserId, s: seq<SessionRow>)
    ensures CountFor(u, s) == 0 <==> FirstIndexOf(u, s).None?
    decreases |s|
  {
    if s != [] {
      CountForZero(u, s[..|s| - 1]);
      if s[|s| - 1].userId != u && CountFor(u, s[..|s| - 1]) != 0 {
        var i := FirstIndexOf(u, s[..|s| - 1]).value;
        assert s[i].userId == u;
      }
    }
  }

  /** Rows are stored in the order they were written, and their dates and row ids increase. */
  ghost predicate Chronological(s: seq<SessionRow>)
  {
    forall i, j :: 0 <= i < j < |s| ==> s[i].date < s[j].date && s[i].id < s[j].id
  }

  /** No session id appears twice. */
  ghost predicate DistinctSessionIds(s: seq<SessionRow>)
  {
    forall i, j :: 0 <= i < j < |s| ==> s[i].sessionId != s[j].sessionId
  }

  /** `sessionId` is some row's session id. */
  predicate HasSessionId(s: seq<SessionRow>, sessionId: string)
  {
    exists i :: 0 <= i < |s| && s[i].sessionId == sessionId
  }

  /** No user has more than 15 sessions. */
  ghost predicate WithinLimit(s: seq<SessionRow>)
  {
    forall u :: CountFor(u, s) <= SessionLimit
  }

  /** The log after `checkSessionLimit` for user `u`: unchanged up to 15 of `u`'s rows,
      otherwise without `u`'s first row. */
  function TrimOldest(u: UserId, s: seq<SessionRow>): (r: seq<SessionRow>)
    ensures CountFor(u, s) <= SessionLimit ==> r == s
    ensures CountFor(u, s) > SessionLimit ==> |r| == |s| - 1 && CountFor(u, r) == CountFor(u, s) - 1
    ensures forall v :: v != u ==> CountFor(v, r) == CountFor(v, s)
  {
    if CountFor(u, s) <= SessionLimit then s
    else
      CountForZero(u, s);
      var k := FirstIndexOf(u, s).value;
      CountForRemoveAt(u, s, k);
      forall v | v != u
        ensures CountFor(v, RemoveAt(s, k)) == CountFor(v, s)
      {
        CountForRemoveAt(v, s, k);
      }
      RemoveAt(s, k)
  }

  /** In a chronological log, a user's first row is that user's earliest-dated one. */
  lemma FirstIsEarliest(u: UserId, s: seq<SessionRow>)
    requires Chronological(s) && FirstIndexOf(u, s).Some?
    ensures forall j :: 0 <= j < |s| && s[j].userId == u ==> s[FirstIndexOf(u, s).value].date <= s[j].date
  {
  }

  /** `r` is `s` without one of `u`'s rows, one with the earliest date among `u`'s rows; the
      other rows keep their order. */
  ghost predicate RemovesEarliest(u: UserId, s: seq<SessionRow>, r: seq<SessionRow>)
  {
    exists k :: 0 <= k < |s| && s[k].userId == u
      && (forall j :: 0 <= j < |s| && s[j].userId == u ==> s[k].date <= s[j].date)
      && r == s[..k] + s[k + 1..]
  }

  /** In a chronological log, trimming a user with more than 15 sessions deletes exactly that
      user's earliest-dated session and nothing else. */
  lemma TrimOldestDropsEarliest(u: UserId, s: seq<SessionRow>)
    requires Chronological(s) && CountFor(u, s) > SessionLimit
    ensures RemovesEarliest(u, s, TrimOldest(u, s))
  {
    CountForZero(u, s);
    var k := FirstIndexOf(u, s).value;
    FirstIsEarliest(u, s);
    assert TrimOldest(u, s) == s[..k] + s[k + 1..];
  }

  class UserStore {
    /** `users`: username -> id. */
    var users: map<string, UserId>
    var nextUserId: nat
    /** `stats`: user id -> level, title, points, quizzes completed. */
    var stats: map<UserId, Stats>
    /** `categories`: name -> id; `difficulties`: name -> type. */
    var categories: map<string, CategoryId>
    var difficulties: map<string, DifficultyType>
    /** `personal_best`: (user, category, difficulty) -> best row. */
    var personalBest: map<(UserId, CategoryId, DifficultyType), ScoreRow>
    /** `leaderboard`: (category, difficulty) -> its single holder's row. */
    var leaderboard: map<(CategoryId, DifficultyType), LeaderRow>
    /** `played_sessions`, in insertion order. */
    var sessions: seq<SessionRow>
    var nextSessionRowId: nat
    /** `played_counts`: (user, category, difficulty) -> played. */
    var playedCounts: map<(UserId, CategoryId, DifficultyType), int>
    /** `folders`: id -> owner and name. */
    var folders: map<FolderId, Folder>
    var nextFolderId: nat
    /** `badges`: (user, badge name) -> url and date. */
    var badges: map<(UserId, string), BadgeRow>
    /** The abstract clock standing for `new Date()`. */
    var clock: nat

    /** Everything `Valid` demands except the retention bound, which holds again once
        `checkSessionLimit` has run. */
    ghost predicate Wellformed()
      reads this
    {
      && stats.Keys == users.Values
      && (forall name :: name in users ==> users[name] < nextUserId)
      && (forall f :: f in folders ==> f < nextFolderId)
      && Chronological(sessions)
      && DistinctSessionIds(sessions)
      && (forall i :: 0 <= i < |sessions| ==> sessions[i].date < clock && sessions[i].id < nextSessionRowId)
    }

    ghost predicate Valid()
      reads this
    {
      Wellformed() && WithinLimit(sessions)
    }

    /** An empty database whose category and difficulty tables hold the given names. */
    constructor (categories: map<string, CategoryId>, difficulties: map<string, DifficultyType>)
      ensures Valid()
      ensures this.categories == categories && this.difficulties == difficulties
      ensures users == map[] && stats == map[] && personalBest == map[] && leaderboard == map[]
      ensures sessions == [] && playedCounts == map[] && folders == map[] && badges == map[]
    {
      this.categories := categories;
      this.difficulties := difficulties;
      users := map[];
      nextUserId := 1;
      stats := map[];
      personalBest := map[];
      leaderboard := map[];
      sessions := [];
      nextSessionRowId := 1;
      playedCounts := map[];
      folders := map[];
      nextFolderId := 1;
      badges := map[];
      clock := 0;
    }

    /** `register`: refuses a taken username; otherwise adds the user, a stats row with the
        column defaults and the user's "All" folder. */
    method Register(username: string) returns (r: Result<UserId>)
      requires Valid()
      modifies this
      ensures Valid()
      ensures username in old(users) ==> r == Fail(BadRequest) && unchanged(this)
      ensures username !in old(users) ==>
        && r.Ok? && r.value !in old(stats)
        && users == old(users)[username := r.value]
        && stats == old(stats)[r.value := InitialStats]
        && exists f: FolderId :: f !in old(folders) && folders == old(folders)[f := Folder(r.value, "All")]
      ensures username !in old(users) ==>
        personalBest == old(personalBest) && leaderboard == old(leaderboard) && sessions == old(sessions) &&
        playedCounts == old(playedCounts) && badges == old(badges) && clock == old(clock) &&
        categories == old(categories) && difficulties == old(difficulties)
    {
      if username in users {
        return Fail(BadRequest);
      }
      var id := nextUserId;
      nextUserId := nextUserId + 1;
      users := users[username := id];
      stats := stats[id := InitialStats];
      var f := nextFolderId;
      nextFolderId := nextFolderId + 1;
      folders := folders[f := Folder(id, "All")];
      ValuesOfNewKey(old(users), username, id);
      assert f !in old(folders) && folders == old(folders)[f := Folder(id, "All")];
      r := Ok(id);
    }

    /** Whether `name` is the name of one of `userId`'s folders, other than folder `except`. */
    predicate HasFolderNamed(userId: UserId, name: string, except: Option<FolderId>)
      reads this
    {
      exists f :: f in folders && folders[f] == Folder(userId, name) && Some(f) != except
    }

    /** `createFolder`: refuses a name the user already has; otherwise adds the folder. */
    method CreateFolder(userId: UserId, folderName: string) returns (r: Result<(FolderId, string)>)
      requires Valid() && userId in users.Values
      modifies this
      ensures Valid()
      ensures old(HasFolderNamed(userId, folderName, None)) ==> r == Fail(BadRequest) && unchanged(this)
      ensures !old(HasFolderNamed(userId, folderName, None)) ==>
        && r.Ok? && r.value.0 !in old(folders) && r.value.1 == folderName
        && folders == old(folders)[r.value.0 := Folder(userId, folderName)]
        && users == old(users) && stats == old(stats) && badges == old(badges) && sessions == old(sessions)
        && personalBest == old(personalBest) && leaderboard == old(leaderboard) && playedCounts == old(playedCounts)
        && clock == old(clock)
    {
      if HasFolderNamed(userId, folderName, None) {
        return Fail(BadRequest);
      }
      var f := nextFolderId;
      nextFolderId := nextFolderId + 1;
      folders := folders[f := Folder(userId, folderName)];
      r := Ok((f, folderName));
    }

    /** `renameFolder`: refuses a name held by another of the user's folders, then a missing
        folder; otherwise renames it (its owner is kept, and the folder need not be the
        user's: the source does not check). */
    method RenameFolder(folderId: FolderId, userId: UserId, newFolderName: string) returns (r: Result<(FolderId, string)>)
      requires Valid()
      modifies this
      ensures Valid()
      ensures old(HasFolderNamed(userId, newFolderName, Some(folderId))) ==> r == Fail(BadRequest) && unchanged(this)
      ensures !old(HasFolderNamed(userId, newFolderName, Some(folderId))) && folderId !in old(folders) ==>
        r == Fail(NotFound) && unchanged(this)
      ensures !old(HasFolderNamed(userId, newFolderName, Some(folderId))) && folderId in old(folders) ==>
        && r == Ok((folderId, newFolderName))
        && folders == old(folders)[folderId := Folder(old(folders)[folderId].userId, newFolderName)]
        && users == old(users) && stats == old(stats) && badges == old(badges) && sessions == old(sessions)
        && personalBest == old(personalBest) && leaderboard == old(leaderboard) && playedCounts == old(playedCounts)
        && nextFolderId == old(nextFolderId) && clock == old(clock)
    {
      if HasFolderNamed(userId, newFolderName, Some(folderId)) {
        return Fail(BadRequest);
      }
      if folderId !in folders {
        return Fail(NotFound);
      }
      folders := folders[folderId := Folder(folders[folderId].userId, newFolderName)];
      r := Ok((folderId, newFolderName));
    }

    /** `removeFolder`: a missing folder is NotFound, a folder named "All" cannot be deleted;
        otherwise the folder is removed and returned. */
    method RemoveFolder(folderId: FolderId) returns (r: Result<(FolderId, string)>)
      requires Valid()
      modifies this
      ensures Valid()
      ensures folderId !in old(folders) ==> r == Fail(NotFound) && unchanged(this)
      ensures folderId in old(folders) && old(folders)[folderId].name == "All" ==> r == Fail(BadRequest) && unchanged(this)
      ensures folderId in old(folders) && old(folders)[folderId].name != "All" ==>
        && r == Ok((folderId, old(folders)[folderId].name))
        && folders == old(folders) - {folderId}
        && users == old(users) && stats == old(stats) && badges == old(badges) && sessions == old(sessions)
        && personalBest == old(personalBest) && leaderboard == old(leaderboard) && playedCounts == old(playedCounts)
        && nextFolderId == old(nextFolderId) && clock == old(clock)
    {
      if folderId !in folders {
        return Fail(NotFound);
      }
      if folders[folderId].name == "All" {
        return Fail(BadRequest);
      }
      var name := folders[folderId].name;
      folders := folders - {folderId};
      r := Ok((folderId, name));
    }

    /** `postBadge`: an unknown user is NotFound; a badge the user already has is answered with
        a message and not stored again; a new badge is stored with its URL and the current date. */
    method PostBadge(userId: UserId, badge: string) returns (r: Result<BadgeOutcome>)
      requires Valid()
      modifies this
      ensures Valid()
      ensures userId !in old(users.Values) ==> r == Fail(NotFound) && unchanged(this)
      ensures userId in old(users.Values) && (userId, badge) in old(badges) ==>
        r == Ok(AlreadyEarned(AlreadyEarnedMessage)) && unchanged(this)
      ensures userId in old(users.Values) && (userId, badge) !in old(badges) ==>
        && r == Ok(Earned(badge, BadgeUrl(badge), old(clock)))
        && badges == old(badges)[(userId, badge) := BadgeRow(BadgeUrl(badge), old(clock))]
        && clock == old(clock) + 1
        && users == old(users) && stats == old(stats) && folders == old(folders) && sessions == old(sessions)
        && personalBest == old(personalBest) && leaderboard == old(leaderboard) && playedCounts == old(playedCounts)
    {
      if userId !in users.Values {
        return Fail(NotFound);
      }
      if (userId, badge) in badges {
        return Ok(AlreadyEarned(AlreadyEarnedMessage));
      }
      var now := clock;
      clock := clock + 1;
      badges := badges[(userId, badge) := BadgeRow(BadgeUrl(badge), now)];
      r := Ok(Earned(badge, BadgeUrl(badge), now));
    }

    /** `getStats`: the user's stats row with `remainingPts` and `levelPts` derived from the
        points; NotFound for an unknown username. */
    method GetStats(username: string) returns (r: Result<StatsView>)
      requires Valid()
      ensures username !in users ==> r == Fail(NotFound)
      ensures username in users ==> r.Ok? && r.value.userId == users[username]
      ensures r.Ok? ==>
        var s := stats[users[username]];
        && r.value.level == s.level && r.value.title == s.title && r.value.points == s.points
        && r.value.quizzesCompleted == s.quizzesCompleted
        && r.value.progress == CalRemainingPts(s.points)
        && (s.points >= 0 ==> r.value.progress.Some? && 1 <= r.value.progress.value.remainingPts <= r.value.progress.value.levelPts)
    {
      if username !in users {
        return Fail(NotFound);
      }
      var id := users[username];
      var s := stats[id];
      ProgressBounds(s.points);
      r := Ok(StatsView(id, s.level, s.title, s.points, s.quizzesCompleted, CalRemainingPts(s.points)));
    }

    /** `updatePoints`: NotFound for a user without a stats row; otherwise the row becomes
        `ApplyPoints` of itself and is returned with its derived progress. */
    method UpdatePoints(userId: UserId, newPoints: int) returns (r: Result<StatsView>)
      requires Wellformed()
      modifies this
      ensures Wellformed()
      ensures userId !in old(stats) ==> r == Fail(NotFound) && unchanged(this)
      ensures userId in old(stats) ==>
        var s := ApplyPoints(old(stats)[userId], newPoints);
        && stats == old(stats)[userId := s]
        && r == Ok(StatsView(userId, s.level, s.title, s.points, s.quizzesCompleted, CalRemainingPts(s.points)))
        && users == old(users) && folders == old(folders) && badges == old(badges) && sessions == old(sessions)
        && personalBest == old(personalBest) && leaderboard == old(leaderboard) && playedCounts == old(playedCounts)
        && nextSessionRowId == old(nextSessionRowId) && clock == old(clock)
        && nextUserId == old(nextUserId) && nextFolderId == old(nextFolderId)
        && categories == old(categories) && difficulties == old(difficulties)
    {
      if userId !in stats {
        return Fail(NotFound);
      }
      var s := ApplyPoints(stats[userId], newPoints);
      stats := stats[userId := s];
      r := Ok(StatsView(userId, s.level, s.title, s.points, s.quizzesCompleted, CalRemainingPts(s.points)));
    }

    /** The category id and difficulty type for two names, or the NotFound the lookups raise
        (the category is checked first). */
    function Lookup(category: string, difficulty: string): (r: Result<(CategoryId, DifficultyType)>)
      reads this
      ensures r.Ok? <==> category in categories && difficulty in difficulties
      ensures r.Ok? ==> r.value == (categories[category], difficulties[difficulty])
      ensures r.Fail? ==> r.error == NotFound
    {
      if category !in categories then Fail(NotFound)
      else if difficulty !in difficulties then Fail(NotFound)
      else Ok((categories[category], difficulties[difficulty]))
    }

    /** `updateScore`: unknown category, difficulty or user is NotFound (in that order) and
        writes nothing; then `PersonalBestDecision` decides between inserting, overwriting
        (ties included) and answering with the "Not updated" message. */
    method UpdateScore(userId: UserId, category: string, difficulty: string, score: int, points: int)
      returns (r: Result<Upsert<ScoreRow>>)
      requires Valid()
      modifies this
      ensures Valid()
      ensures Lookup(category, difficulty).Fail? || userId !in users.Values ==> r == Fail(NotFound) && unchanged(this)
      ensures Lookup(category, difficulty).Ok? && userId in users.Values ==>
        var (c, d) := Lookup(category, difficulty).value;
        var key := (userId, c, d);
        var stored := if key in old(personalBest) then Some(old(personalBest)[key].points) else None;
        var row := ScoreRow(score, points, old(clock));
        if PersonalBestDecision(stored, points) == Reject then
          r == Ok(NotUpdated(NotUpdatedMessage)) && unchanged(this)
        else
          && r == Ok(Stored(row))
          && personalBest == old(personalBest)[key := row]
          && clock == old(clock) + 1
          && users == old(users) && stats == old(stats) && folders == old(folders) && badges == old(badges)
          && sessions == old(sessions) && leaderboard == old(leaderboard) && playedCounts == old(playedCounts)
    {
      var lookup := Lookup(category, difficulty);
      if lookup.Fail? {
        return Fail(NotFound);
      }
      if userId !in users.Values {
        return Fail(NotFound);
      }
      var (c, d) := lookup.value;
      var key := (userId, c, d);
      var stored := if key in personalBest then Some(personalBest[key].points) else None;
      if PersonalBestDecision(stored, points) == Reject {
        return Ok(NotUpdated(NotUpdatedMessage));
      }
      var now := clock;
      clock := clock + 1;
      personalBest := personalBest[key := ScoreRow(score, points, now)];
      r := Ok(Stored(ScoreRow(score, points, now)));
    }

    /** `updateLeaderboardScore`: the same NotFound checks; then `LeaderboardDecision` decides,
        for the single slot of (category, difficulty), between filling it (only above 80
        points), handing it to the submitter (at least the stored points) and the "Not updated"
        message. */
    method UpdateLeaderboardScore(userId: UserId, category: string, difficulty: string, score: int, points: int)
      returns (r: Result<Upsert<LeaderRow>>)
      requires Valid()
      modifies this
      ensures Valid()
      ensures Lookup(category, difficulty).Fail? || userId !in users.Values ==> r == Fail(NotFound) && unchanged(this)
      ensures Lookup(category, difficulty).Ok? && userId in users.Values ==>
        var key := Lookup(category, difficulty).value;
        var stored := if key in old(leaderboard) then Some(old(leaderboard)[key].points) else None;
        var row := LeaderRow(userId, score, points, old(clock));
        if LeaderboardDecision(stored, points) == Reject then
          r == Ok(NotUpdated(NotUpdatedMessage)) && unchanged(this)
        else
          && r == Ok(Stored(row))
          && leaderboard == old(leaderboard)[key := row]
          && clock == old(clock) + 1
          && users == old(users) && stats == old(stats) && folders == old(folders) && badges == old(badges)
          && sessions == old(sessions) && personalBest == old(personalBest) && playedCounts == old(playedCounts)
    {
      var lookup := Lookup(category, difficulty);
      if lookup.Fail? {
        return Fail(NotFound);
      }
      if userId !in users.Values {
        return Fail(NotFound);
      }
      var key := lookup.value;
      var stored := if key in leaderboard then Some(leaderboard[key].points) else None;
      if LeaderboardDecision(stored, points) == Reject {
        return Ok(NotUpdated(NotUpdatedMessage));
      }
      var now := clock;
      clock := clock + 1;
      leaderboard := leaderboard[key := LeaderRow(userId, score, points, now)];
      r := Ok(Stored(LeaderRow(userId, score, points, now)));
    }

    /** The query behind `checkSessionLimit`: how many sessions `userId` has, and the index of
        the earliest of them. */
    method OldestSessionOf(userId: UserId) returns (count: nat, oldest: Option<nat>)
      requires Wellformed()
      ensures count == CountFor(userId, sessions)
      ensures oldest == FirstIndexOf(userId, sessions)
      ensures oldest.None? <==> count == 0
      ensures oldest.Some? ==> forall j :: 0 <= j < |sessions| && sessions[j].userId == userId ==>
        sessions[oldest.value].date <= sessions[j].date
    {
      var log := sessions;
      count, oldest := 0, None;
      var i := 0;
      while i < |log|
        invariant 0 <= i <= |log|
        invariant count == CountFor(userId, log[..i])
        invariant oldest == FirstIndexOf(userId, log[..i])
      {
        assert log[..i + 1] == log[..i] + [log[i]];
        CountForSnoc(userId, log[..i], log[i]);
        FirstIndexOfSnoc(userId, log[..i], log[i]);
        if log[i].userId == userId {
          if oldest.None? {
            oldest := Some(i);
          }
          count := count + 1;
        }
        i := i + 1;
      }
      assert log[..i] == log;
      CountForZero(userId, log);
      if oldest.Some? {
        FirstIsEarliest(userId, log);
      }
    }

    /** The index of the row whose id is `id`, if there is one. */
    method IndexOfRow(id: nat) returns (k: Option<nat>)
      ensures k.Some? ==> k.value < |sessions| && sessions[k.value].id == id
      ensures k.None? ==> forall j :: 0 <= j < |sessions| ==> sessions[j].id != id
    {
      var i := 0;
      while i < |sessions|
        invariant 0 <= i <= |sessions|
        invariant forall j :: 0 <= j < i ==> sessions[j].id != id
      {
        if sessions[i].id == id {
          return Some(i);
        }
        i := i + 1;
      }
      return None;
    }

    /** `deleteSession`: removes the row with the given id and returns it; `None` (the
        source's `undefined`) when there is no such row. */
    method DeleteSession(id: nat) returns (removed: Option<SessionRow>)
      requires Wellformed()
      modifies this
      ensures Wellformed()
      ensures removed.None? ==> (forall j :: 0 <= j < |old(sessions)| ==> old(sessions)[j].id != id) && unchanged(this)
      ensures removed.Some? ==>
        exists k :: 0 <= k < |old(sessions)| && old(sessions)[k].id == id &&
                    removed.value == old(sessions)[k] && sessions == RemoveAt(old(sessions), k)
      ensures users == old(users) && stats == old(stats) && folders == old(folders) && badges == old(badges)
      ensures personalBest == old(personalBest) && leaderboard == old(leaderboard) && playedCounts == old(playedCounts)
      ensures clock == old(clock) && nextSessionRowId == old(nextSessionRowId) && nextUserId == old(nextUserId)
      ensures nextFolderId == old(nextFolderId) && categories == old(categories) && difficulties == old(difficulties)
    {
      var k := IndexOfRow(id);
      if k.None? {
        return None;
      }
      removed := Some(sessions[k.value]);
      sessions := RemoveAt(sessions, k.value);
    }

    /** `checkSessionLimit`: when the user has more than 15 sessions, the earliest of them is
        deleted; otherwise nothing changes. It runs right after one insertion, so the user has
        at most 16 and every other user at most 15. */
    method CheckSessionLimit(userId: UserId)
      requires Wellformed() && CountFor(userId, sessions) <= SessionLimit + 1
      requires forall u :: u != userId ==> CountFor(u, sessions) <= SessionLimit
      modifies this
      ensures Valid()
      ensures sessions == TrimOldest(userId, old(sessions))
      ensures CountFor(userId, old(sessions)) > SessionLimit ==> RemovesEarliest(userId, old(sessions), sessions)
      ensures users == old(users) && stats == old(stats) && folders == old(folders) && badges == old(badges)
      ensures personalBest == old(personalBest) && leaderboard == old(leaderboard) && playedCounts == old(playedCounts)
      ensures clock == old(clock) && nextSessionRowId == old(nextSessionRowId)
      ensures nextUserId == old(nextUserId) && nextFolderId == old(nextFolderId)
      ensures categories == old(categories) && difficulties == old(difficulties)
    {
      var count, oldest := OldestSessionOf(userId);
      if count > SessionLimit {
        var log := sessions;
        var k := oldest.value;
        var removed := DeleteSession(log[k].id);
        // row ids increase along the log, so the row found is the one at index k
        assert sessions == RemoveAt(log, k);
        TrimOldestDropsEarliest(userId, log);
        forall u
          ensures CountFor(u, sessions) <= SessionLimit
        {
          CountForRemoveAt(u, log, k);
        }
      }
    }

    /** `addSession`: an unknown user or category or difficulty is NotFound and a session id
        already in the log (for any user) is BadRequest, checked in the order user, session id,
        category, difficulty, all before any write. Otherwise one row is appended, the user's
        stats take the points as `updatePoints` does, and the retention rule runs. */
    method AddSession(sessionId: string, userId: UserId, category: string, difficulty: string, score: int, points: int)
      returns (r: Result<SessionRow>)
      requires Valid()
      modifies this
      ensures Valid()
      ensures userId !in old(users.Values) ==> r == Fail(NotFound) && unchanged(this)
      ensures userId in old(users.Values) && HasSessionId(old(sessions), sessionId) ==>
        r == Fail(BadRequest) && unchanged(this)
      ensures userId in old(users.Values) && !HasSessionId(old(sessions), sessionId) && old(Lookup(category, difficulty)).Fail? ==>
        r == Fail(NotFound) && unchanged(this)
      ensures userId in old(users.Values) && !HasSessionId(old(sessions), sessionId) && old(Lookup(category, difficulty)).Ok? ==>
        var (c, d) := old(Lookup(category, difficulty)).value;
        var row := SessionRow(old(nextSessionRowId), sessionId, userId, c, d, score, points, old(clock));
        && r == Ok(row)
        && sessions == TrimOldest(userId, old(sessions) + [row])
        && (CountFor(userId, old(sessions) + [row]) > SessionLimit ==>
              RemovesEarliest(userId, old(sessions) + [row], sessions))
        && stats == old(stats)[userId := ApplyPoints(old(stats)[userId], points)]
        && clock == old(clock) + 1 && nextSessionRowId == old(nextSessionRowId) + 1
        && users == old(users) && folders == old(folders) && badges == old(badges)
        && personalBest == old(personalBest) && leaderboard == old(leaderboard) && playedCounts == old(playedCounts)
    {
      if userId !in users.Values {
        return Fail(NotFound);
      }
      var duplicate := FindSessionId(sessionId);
      if duplicate {
        return Fail(BadRequest);
      }
      var lookup := Lookup(category, difficulty);
      if lookup.Fail? {
        return Fail(NotFound);
      }
      var (c, d) := lookup.value;
      var row := AppendSession(sessionId, userId, c, d, score, points);
      if CountFor(userId, sessions) > SessionLimit {
        TrimOldestDropsEarliest(userId, sessions);
      }
      var updated := UpdatePoints(userId, points);
      CheckSessionLimit(userId);
      r := Ok(row);
    }

    /** The INSERT of `addSession`: a new row with the next row id and the current date. */
    method AppendSession(sessionId: string, userId: UserId, c: CategoryId, d: DifficultyType, score: int, points: int)
      returns (row: SessionRow)
      requires Valid() && !HasSessionId(sessions, sessionId)
      modifies this
      ensures Wellformed()
      ensures row == SessionRow(old(nextSessionRowId), sessionId, userId, c, d, score, points, old(clock))
      ensures sessions == old(sessions) + [row]
      ensures CountFor(userId, sessions) <= SessionLimit + 1
      ensures forall u :: u != userId ==> CountFor(u, sessions) <= SessionLimit
      ensures clock == old(clock) + 1 && nextSessionRowId == old(nextSessionRowId) + 1
      ensures users == old(users) && stats == old(stats) && folders == old(folders) && badges == old(badges)
      ensures personalBest == old(personalBest) && leaderboard == old(leaderboard) && playedCounts == old(playedCounts)
      ensures nextUserId == old(nextUserId) && nextFolderId == old(nextFolderId)
      ensures categories == old(categories) && difficulties == old(difficulties)
    {
      row := SessionRow(nextSessionRowId, sessionId, userId, c, d, score, points, clock);
      sessions := sessions + [row];
      nextSessionRowId := nextSessionRowId + 1;
      clock := clock + 1;
      forall u
        ensures CountFor(u, sessions) <= (if u == userId then SessionLimit + 1 else SessionLimit)
      {
        CountForSnoc(u, old(sessions), row);
      }
    }

    /** Whether some row of the log carries `sessionId`. */
    method FindSessionId(sessionId: string) returns (found: bool)
      ensures found <==> HasSessionId(sessions, sessionId)
    {
      var i := 0;
      while i < |sessions|
        invariant 0 <= i <= |sessions|
        invariant forall j :: 0 <= j < i ==> sessions[j].sessionId != sessionId
      {
        if sessions[i].sessionId == sessionId {
          return true;
        }
        i := i + 1;
      }
      return false;
    }

    /** `updatePlayedCounts`: unknown category or difficulty is NotFound; otherwise the
        counter of (user, category, difficulty), read as 0 when absent, gains `setPlayed`. */
    method UpdatePlayedCounts(userId: UserId, category: string, difficulty: string, setPlayed: int)
      returns (r: Result<int>)
      requires Valid() && userId in users.Values
      modifies this
      ensures Valid()
      ensures old(Lookup(category, difficulty)).Fail? ==> r == Fail(NotFound) && unchanged(this)
      ensures old(Lookup(category, difficulty)).Ok? ==>
        var (c, d) := old(Lookup(category, difficulty)).value;
        var before := if (userId, c, d) in old(playedCounts) then old(playedCounts)[(userId, c, d)] else 0;
        && r == Ok(before + setPlayed)
        && playedCounts == old(playedCounts)[(userId, c, d) := before + setPlayed]
        && users == old(users) && stats == old(stats) && folders == old(folders) && badges == old(badges)
        && sessions == old(sessions) && personalBest == old(personalBest) && leaderboard == old(leaderboard)
        && clock == old(clock)
    {
      var lookup := Lookup(category, difficulty);
      if lookup.Fail? {
        return Fail(NotFound);
      }
      var (c, d) := lookup.value;
      var key := (userId, c, d);
      var played := if key in playedCounts then playedCounts[key] else 0;
      played := played + setPlayed;
      playedCounts := playedCounts[key := played];
      r := Ok(played);
    }

    /** `getPlayedCounts` for one category and difficulty: NotFound for an unknown username;
        otherwise the stored counter, or 0 when the join finds no row (which is also the answer
        for a category or difficulty name that does not exist). */
    method GetPlayedCount(username: string, category: string, difficulty: string) returns (r: Result<int>)
      ensures username !in users ==> r == Fail(NotFound)
      ensures username in users ==> r.Ok?
      ensures r.Ok? && Lookup(category, difficulty).Ok? ==>
        var key := (users[username], Lookup(category, difficulty).value.0, Lookup(category, difficulty).value.1);
        r.value == if key in playedCounts then playedCounts[key] else 0
      ensures r.Ok? && Lookup(category, difficulty).Fail? ==> r.value == 0
    {
      if username !in users {
        return Fail(NotFound);
      }
      var lookup := Lookup(category, difficulty);
      if lookup.Fail? {
        return Ok(0);
      }
      var key := (users[username], lookup.value.0, lookup.value.1);
      r := Ok(if key in playedCounts then playedCounts[key] else 0);
    }
  }
}
