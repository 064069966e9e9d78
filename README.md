# Trivia quiz: scoring, progression and the user store

This Dafny project models the core of a trivia quiz web application. It has a Node backend
and a React frontend.

- **User store** (`records.dfy`, `progression.dfy`). The backend user model's tables are
  fields of one `UserStore` class. The model covers:
  - registration, folders and badges;
  - personal-best and leaderboard upserts;
  - the played-sessions log with its 15-session retention rule;
  - played counts;
  - the level, title and remaining-points arithmetic of `calRemainingPts` and
    `updatePoints`. The two `if` chains of the source are kept as written, and each is proved
    equal to one eight-tier table.
- **Answer shuffle** (`shuffle.dfy`). An in-place Fisher–Yates over an array, with
  `Math.random` replaced by a sequence of draws. It is proved to compute a fixed function of
  its draws and to produce a permutation. The repository's test vectors are proved for the
  draws `Math.random() == 0.5` gives.
- **Quiz session** (`quiz_session.dfy`). The quiz component's running totals, the combo and
  max-combo rule, `next` and `reset`. All answers so far are kept in a ghost log. The fields
  are proved to be sums and runs over that log, and the final points are proved to be at most
  20 per question.
- **Question card** (`quiz_questions.dfy`). The time bonus of `calStats`, proved equal to the
  source's real-valued formula. Also the `checkAns` / `nextQ` handlers over the `isAnswered`
  flag.
- **Results view** (`quiz_results.dfy`). Which backend calls the results view makes, in which
  order and under which conditions, and which messages and badges it shows.
  - Every backend reply comes from an oracle: a value, or a rejected promise.
  - The view's methods are proved to compute specification functions.
  - Those functions are proved to satisfy the call-order and if-and-only-if properties.
  - The frontend's gates are proved never to request an update that the backend's own rules
    would reject.

`text.dfy` holds the string helpers: `toLowerCase` restricted to ASCII and decimal printing. `wrappers.dfy`
holds `Option`.

Where the code does something the surrounding prose does not say, the model follows the code:
- A stored personal best or leaderboard score of 0 is treated as missing, because of
  `!oldPoints`.
- Ties overwrite a stored personal best or leaderboard score.
- The level-up test in the results view is a strict `>`.
- An undefined played count passes neither of the two leaderboard comparisons.

## Model

| member | source | states |
|---|---|---|
| Text.Lower | backend/models/user.js:749 | `toLowerCase` on ASCII text: same length, each letter A–Z lowered, every other character kept, no A–Z left |
| Text.NatToStringRoundTrip | frontend/src/quizzes/QuizResults.js:37-39 | the decimal digits printed into a message read back as the number |
| Text.IntToString | frontend/src/quizzes/QuizResults.js:147-150 | a whole number prints as its digits, with a leading '-' when negative |
| Progression.CalRemainingPts | backend/models/user.js:551-583 | the branch chain of `calRemainingPts`: defined exactly for totals ≥ 0, with a width of 200, 300 or 500 and remaining points in 1..width (pinned to the tier table by `ProgressMatchesTable`) |
| Progression.RankOf | backend/models/user.js:637-661 | the level and title chain of `updatePoints`: a rank exactly for positive totals, a level ≥ 0 and one of the eight titles (pinned to the tier table by `RankMatchesTable`) |
| Progression.TierTableContiguous | backend/models/user.js:555-579 | the eight tiers start at 0, adjoin without gaps, are five levels wide except the last, and their bases are 0, 5, …, 35 |
| Progression.TierOfRanges | backend/models/user.js:555-579 | the tier of a total, range by range, matching the branch chain |
| Progression.ProgressBounds | backend/models/user.js:551-583 | progress is defined exactly for totals ≥ 0; the level width is 200 up to 2000, 300 up to 5000 and 500 above; remaining points are in 1..width |
| Progression.ProgressMatchesTable | backend/models/user.js:551-583 | `calRemainingPts` equals step − (offset into tier mod step) of the shared tier table |
| Progression.RankMatchesTable | backend/models/user.js:637-661 | the level and title branches of `updatePoints` equal base + offset / step and the tier's title |
| Progression.StepIsLevelWidth | backend/models/user.js:555-661 | the `levelPts` that `calRemainingPts` reports is the step the level formula divides by |
| Progression.LevelWithinTier | backend/models/user.js:637-661 | a positive total has a rank, and its level is within its tier's five levels |
| Progression.FindTierMonotone | backend/models/user.js:637-661 | a larger total never falls in an earlier tier |
| Progression.LevelMonotone | backend/models/user.js:637-661 | for positive totals the level never decreases as the total grows |
| Progression.RemainingReachesNextLevel | backend/models/user.js:551-661 | adding fewer than `remainingPts` keeps the level, and adding exactly that many raises it by one (for all totals except 2000 and 5000) |
| Progression.RemainingAtWideningBoundary | backend/models/user.js:559-566 | at 2000 and 5000 points the reported remaining points (200, 300) do not reach the next level, which starts at 2300 and 5500 |
| Progression.FirstLevel | backend/models/user.js:555-557 | from 0 points, 200 remain; 199 points is level 0 and 200 points is level 1 |
| Progression.ApplyPoints | backend/models/user.js:622-678 | the new row adds the points, counts one more quiz, and recomputes the rank, keeping it when the total is 0 or less |
| Progression.ApplyPointsMonotone | backend/models/user.js:631-661 | earning points keeps a row ranked and never lowers its level, however many tiers are crossed |
| Progression.ApplyPointsCrossesTier | backend/models/user.test.js:625-637 | 900 points plus 111 gives level 5 "Apprentice", 10 quizzes, with 189 of 200 points to go |
| Progression.SeededSessions | backend/routes/_testCommonRoutes.js:50-75 | sessions of 85, 120 and 75 points on a new account give 280 points, level 1, 3 quizzes, with 120 points to go |
| Progression.ProgressExamples | backend/models/user.test.js:588-601 | 999 → (1, 200), 7501 → (499, 500) and 900 → (100, 200) |
| Records.BadgeUrl | backend/models/user.js:749 | the badge URL is "/badges/" + lower-cased name + ".gif" |
| Records.PersonalBestDecision | backend/models/user.js:850-886 | insert iff nothing or 0 is stored; overwrite iff the points reach a positive best (ties included); otherwise "not updated" |
| Records.LeaderboardDecision | backend/models/user.js:995-1030 | fill an empty (or 0) slot iff the points exceed 80; overwrite iff the points reach a positive record; otherwise "not updated" |
| Records.AcceptedNeverLowers | backend/models/user.js:863-886 | once a positive best is stored, neither rule accepts fewer points |
| Records.CountForRemoveAt | backend/models/user.js:1193-1202 | deleting a row lowers only its owner's session count, by one |
| Records.CountForZero | backend/models/user.js:1172-1183 | a user has no sessions iff the user has no first session |
| Records.FirstIndexOf | backend/models/user.js:1172-1183 | the index of the user's first row: that row is the user's, and no earlier row is |
| Records.FirstIsEarliest | backend/models/user.js:1172-1183 | in the date-ordered log, the user's first row has the earliest date (`ORDER BY date`, then `sessions[0]`) |
| Records.TrimOldest | backend/models/user.js:1169-1185 | with more than 15 sessions the user loses exactly one and other users lose none; otherwise the log is unchanged |
| Records.TrimOldestDropsEarliest | backend/models/user.js:1169-1185 | in a date-ordered log, the row removed is one of the user's earliest-dated rows, and the others keep their order |
| Records.UserStore.Register | backend/models/user.js:61-112 | a taken username is BadRequest and nothing changes; otherwise a new id, a default stats row and an "All" folder, with other tables unchanged |
| Records.UserStore.CreateFolder | backend/models/user.js:262-284 | a name the user already has is BadRequest; otherwise exactly one new folder |
| Records.UserStore.RenameFolder | backend/models/user.js:341-367 | a clash with another of the user's folders is BadRequest, then a missing folder is NotFound; otherwise only the name changes |
| Records.UserStore.RemoveFolder | backend/models/user.js:376-401 | a missing folder is NotFound, an "All" folder is BadRequest; otherwise that folder alone is removed and returned |
| Records.UserStore.PostBadge | backend/models/user.js:722-753 | an unknown user is NotFound; an earned badge gives the message and changes nothing; otherwise the badge is stored with its URL and the current date |
| Records.UserStore.GetStats | backend/models/user.js:592-613 | an unknown user is NotFound; otherwise the stats row plus its `calRemainingPts`, with remaining points in 1..levelPts |
| Records.UserStore.UpdatePoints | backend/models/user.js:622-678 | a user without stats is NotFound; otherwise only that row changes, to `ApplyPoints`, and it is returned with its progress |
| Records.UserStore.Lookup | backend/models/user.js:816-832 | the ids of a category and a difficulty, or NotFound when either name is unknown |
| Records.UserStore.UpdateScore | backend/models/user.js:815-889 | NotFound (category, difficulty, user) writes nothing; otherwise `PersonalBestDecision` decides between storing the row and the "not updated" message |
| Records.UserStore.UpdateLeaderboardScore | backend/models/user.js:951-1034 | the same checks; `LeaderboardDecision` decides, and a stored row names the new holder |
| Records.UserStore.OldestSessionOf | backend/models/user.js:1172-1181 | the user's session count and the index of the user's earliest session |
| Records.UserStore.IndexOfRow | backend/models/user.js:1193-1202 | the position of the row with a given id, or none when no row has it |
| Records.UserStore.DeleteSession | backend/models/user.js:1193-1202 | the row with the id is removed and returned; with no such row, `undefined` is returned and nothing changes |
| Records.UserStore.CheckSessionLimit | backend/models/user.js:1169-1185 | the log becomes `TrimOldest` of itself, so every user is back within 15 sessions; above 15, exactly the user's earliest-dated session is deleted and nothing else changes |
| Records.UserStore.FindSessionId | backend/models/user.js:1112-1118 | whether any row carries the session id |
| Records.UserStore.AppendSession | backend/models/user.js:1139-1154 | exactly one row is appended, with the next row id and the current date |
| Records.UserStore.AddSession | backend/models/user.js:1095-1160 | NotFound or BadRequest in the order user, duplicate session, category, difficulty, with nothing written; otherwise the row is appended, the stats take the points, and above 15 sessions exactly the user's earliest-dated session is deleted |
| Records.UserStore.UpdatePlayedCounts | backend/models/user.js:1265-1334 | an unknown category or difficulty is NotFound; otherwise the counter (0 when absent) grows by `setPlayed` and is returned |
| Records.UserStore.GetPlayedCount | backend/models/user.js:1211-1256 | an unknown user is NotFound; otherwise the stored count, or 0 when no row matches |
| Shuffle.Swap | backend/helpers/shuffle.js:8 | the destructuring swap exchanges two positions and keeps all others |
| Shuffle.SwapPermutes | backend/helpers/shuffle.js:8 | a swap is a permutation |
| Shuffle.ShuffleFrom | backend/helpers/shuffle.js:1-12 | the remaining iterations of the loop keep the length |
| Shuffle.Shuffle | backend/helpers/shuffle.js:1-12 | swaps in place, returns the same array, ends as `ShuffleFrom` of the input and the draws, and is a permutation |
| Shuffle.ShuffleKeepsSuffix | backend/helpers/shuffle.js:4-9 | positions at or above `counter` are fixed by the remaining iterations |
| Shuffle.ShufflePermutes | backend/helpers/shuffle.js:1-12 | the shuffled sequence is a permutation of the input |
| Shuffle.ShuffleStep | backend/helpers/shuffle.js:4-9 | one iteration swaps `counter - 1` with the drawn index |
| Shuffle.ShortUnchanged | backend/helpers/shuffle.js:1-12 | arrays of length 0 or 1 come back unchanged |
| Shuffle.HalfDraws | backend/helpers/shuffle.js:5 | with `Math.random() == 0.5` the draw is floor(counter / 2), a valid draw |
| Shuffle.HalfDrawsOnFour | backend/helpers/shuffle.js:1-12 | with those draws, [a0, a1, a2, a3] becomes [a0, a3, a1, a2] |
| Shuffle.HalfDrawsVectors | backend/helpers/tests/shuffle.test.js:74-85 | the Wales and HTC answer lists shuffle to the expected orders |
| QuizSession.TrailingRunIsRun | frontend/src/quizzes/Quiz.js:88-95 | the combo counts hits that end the log |
| QuizSession.TrailingRunIsLongestSuffix | frontend/src/quizzes/Quiz.js:88-95 | no longer suffix of the log is all hits |
| QuizSession.LongestRunIsLongest | frontend/src/quizzes/Quiz.js:88-95 | `maxCombo` is a run of hits somewhere in the log, and no run is longer |
| QuizSession.TrailingAtMostLongest | frontend/src/quizzes/Quiz.js:88-95 | the combo never exceeds the max combo |
| QuizSession.RunsAfterReport | frontend/src/quizzes/Quiz.js:83-96 | a hit extends the combo, a miss resets it, and the totals add the report |
| QuizSession.FinalPointsBound | frontend/src/quizzes/Quiz.js:103 | the final points are between 0 and 20 per answer |
| QuizSession.TenQuestionsAtMost200 | frontend/src/quizzes/Quiz.js:99-106 | a ten-question session scores 0 to 200 points |
| QuizSession.Quiz.constructor | frontend/src/quizzes/Quiz.js:15-34 | the initial state: empty log, zero totals, not completed |
| QuizSession.Quiz.UpdateStats | frontend/src/quizzes/Quiz.js:83-96 | the totals grow by the report; the combo and max-combo branches; the invariant linking fields to the log is kept |
| QuizSession.Quiz.Next | frontend/src/quizzes/Quiz.js:99-106 | advances the question; after the tenth, completed with points = 10·score + bonus + 4·maxCombo |
| QuizSession.Quiz.Reset | frontend/src/quizzes/Quiz.js:63-79 | every session field back to its initial value, with a new session id |
| QuizSession.Quiz.DisplayedMaxCombo | frontend/src/quizzes/Quiz.js:205 | `Math.max(maxCombo, combo)` is always `maxCombo`, the longest run of correct answers |
| QuizQuestions.TimeBonus | frontend/src/quizzes/QuizQuestions.js:28 | the time bonus is between 0 and 6 |
| QuizQuestions.TimeBonusIsExact | frontend/src/quizzes/QuizQuestions.js:28 | the integer formula equals min(floor(max((16 − secs)/8, 0)·6), 6) over the reals |
| QuizQuestions.TimeBonusProfile | frontend/src/quizzes/QuizQuestions.js:28 | the full bonus is earned iff the answer came within 8 s, and none iff it took 15 s or more |
| QuizQuestions.TimeBonusNonIncreasing | frontend/src/quizzes/QuizQuestions.js:28 | a later answer never earns more |
| QuizQuestions.CalStats | frontend/src/quizzes/QuizQuestions.js:22-34 | a correct answer reports score 1, combo 1 and the time bonus; a wrong one reports zeros; the time is always reported |
| QuizQuestions.QuestionCard.constructor | frontend/src/quizzes/QuizQuestions.js:7-10 | a new card is unanswered, with the timer at 0 |
| QuizQuestions.QuestionCard.Tick | frontend/src/quizzes/QuizQuestions.js:139-140 | the timer advances by one second |
| QuizQuestions.QuestionCard.CheckAns | frontend/src/quizzes/QuizQuestions.js:38-65 | the first click answers the card and reports `calStats` once, correct iff the clicked id is the correct answer, leaving the rest of the quiz as it was; later clicks change nothing |
| QuizQuestions.QuestionCard.NextQ | frontend/src/quizzes/QuizQuestions.js:68-73 | clears the flag and timer, then advances, with the log, totals, data, loaded scores and session id unchanged; before the tenth question nothing completes, after it the quiz is completed with 0 to 200 points |
| QuizResults.GuestMakesNoCalls | frontend/src/quizzes/QuizResults.js:213-223 | a guest causes no backend call and is shown only the guest message |
| QuizResults.PersonalBestCalls | frontend/src/quizzes/QuizResults.js:34-57 | the personal-best request is made iff there is no best or the points reach it; the step throws only then |
| QuizResults.SoCloseIff | frontend/src/quizzes/QuizResults.js:34-43 | below the best no request is made; the "So close!" message appears iff the gap is at most 30, and its number reads back as the gap |
| QuizResults.LeaderboardCalls | frontend/src/quizzes/QuizResults.js:62-110 | the leaderboard request is made iff the gate passes; the trophy request is made iff that update succeeded |
| QuizResults.CheckScoreCalls | frontend/src/quizzes/QuizResults.js:29-116 | `checkScore` only appends score calls and leaves the level message alone |
| QuizResults.CheckScorePhase | frontend/src/quizzes/QuizResults.js:29-116 | the exact calls `checkScore` appends |
| QuizResults.CheckUserStatsCalls | frontend/src/quizzes/QuizResults.js:143-183 | the stats request, then the level badge request and the level-up message exactly on a level-up |
| QuizResults.SessionCalls | frontend/src/quizzes/QuizResults.js:187-223 | the complete call log of a signed-in user |
| QuizResults.CallOrder | frontend/src/quizzes/QuizResults.js:187-210 | the session is sent first; only if it was added do the played count, the score calls, the stats and at most level badges follow |
| QuizResults.PersonalBestRequestedIff | frontend/src/quizzes/QuizResults.js:34-57 | the personal best is requested iff the session was added and there is no best or the points reach it |
| QuizResults.LeaderboardRequestedIff | frontend/src/quizzes/QuizResults.js:62-75 | the leaderboard is requested iff the session was added, the personal-best step did not throw, and the points reach the record, exceed 80 and the count is at most 3 |
| QuizResults.TrophyOnlyAfterLeaderboardUpdate | frontend/src/quizzes/QuizResults.js:84-92 | the trophy is requested only right after a leaderboard update that succeeded |
| QuizResults.LevelUpIff | frontend/src/quizzes/QuizResults.js:147-150 | the level-up message is shown iff the session was added, the stats arrived and the points exceed the remaining points |
| QuizResults.GatesAgreeWithBackend | frontend/src/quizzes/QuizResults.js:44-75 | whatever the frontend requests, the backend's personal-best and leaderboard rules accept |
| QuizResults.SignedInScenario | frontend/src/quizzes/tests/QuizResults.test.js:111-159 | for 124 points against a record of 85, all three messages and both badges come out as the test expects |
| QuizResults.ScenarioScores | frontend/src/quizzes/tests/QuizResults.test.js:145-149 | the score part of that scenario: new best, new record, trophy |
| QuizResults.ScenarioMessages | frontend/src/quizzes/tests/QuizResults.test.js:151-159 | the level-up and level badge messages of that scenario |
| QuizResults.ResultsView.constructor | frontend/src/quizzes/QuizResults.js:19-25 | empty messages, no badges, no calls |
| QuizResults.ResultsView.CheckScore | frontend/src/quizzes/QuizResults.js:29-116 | the view becomes `CheckScoreSpec` of the old view |
| QuizResults.ResultsView.PersonalBestStep | frontend/src/quizzes/QuizResults.js:34-57 | the first `if` of `checkScore`, as `PersonalBestSpec` |
| QuizResults.ResultsView.LeaderboardStep | frontend/src/quizzes/QuizResults.js:62-110 | the second `if` of `checkScore`, as `LeaderboardSpec` |
| QuizResults.ResultsView.UpdatePlayedCounts | frontend/src/quizzes/QuizResults.js:119-139 | the new played count, or none when the call threw or did not update |
| QuizResults.ResultsView.CheckUserStats | frontend/src/quizzes/QuizResults.js:143-183 | the view becomes `CheckUserStatsSpec` of the old view |
| QuizResults.ResultsView.AddSession | frontend/src/quizzes/QuizResults.js:187-210 | the view becomes `AddSessionSpec` of the old view |
| QuizResults.ResultsView.SendResults | frontend/src/quizzes/QuizResults.js:213-223 | from the initial view, it ends as `SendResultsSpec`, with the info marked loaded |

## Left out

- Authentication, password hashing, JWT tokens, the HTTP routes and JSON schema validation
  are outside the modelled core.
- SQL is not modelled: each table is a map or a sequence, and a query is a lookup.
- Dates are an abstract counter that advances on every dated write. `moment` formatting is
  not modelled.
- Session ids are a parameter. `uuidv4` is not modelled.
- `Math.random` is a sequence of draws. The uniformity of the shuffle is not modelled.
- The question timer is a `Tick` method, and the interval itself is not modelled.
- React rendering, button styles, loading spinners and toasts are not modelled.
- Concurrent requests and promise interleaving are not modelled: each backend call completes
  before the next starts.
- `getQuizzes` and the effects that load the personal best and leaderboard score are not
  modelled. The results view receives those values as props.
- `addToFav`, favourites and trivia, `findAll`, `get`, `update`, `remove`, `getAllFolders`,
  `getBadges`, `getScores`, `getLeaderboardScores` and `getSessions` are read paths or parts
  of the application outside the modelled core.
- Records.UserStore.CreateFolder: requires an existing user. The source relies on the
  database's foreign key to refuse an unknown user.
- Records.UserStore.UpdatePlayedCounts: requires an existing user, for the same reason.
- Records.UserStore.GetPlayedCount: models only the form with both a category and a
  difficulty, which is the one the quiz uses. The listing form with optional filters is not
  modelled.
- Records.UserStore.UpdateScore: a stored row with 0 points is replaced in the map. The source
  would INSERT a second row for the same key.
- Records.UserStore.UpdatePlayedCounts: a stored counter of 0 is likewise replaced in the
  map, rather than given a second row.
- Text.Lower: only ASCII A–Z are lowered. JavaScript's `toLowerCase` also maps non-ASCII capitals and can change the length; Unicode case mapping is not modelled, because the badge names the application sends are ASCII titles.
- Records.Error: errors carry only their kind, NotFound or BadRequest. The message texts are
  not modelled.
- QuizResults.ResultsView.SendResults: error logging to the console is not modelled. A
  rejected promise only stops the enclosing `try`.
