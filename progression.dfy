/** Levels, titles and the points still needed for the next level, as the user model
    computes them (backend/models/user.js, `calRemainingPts` and the tier branches of
    `updatePoints`). Every level is reached through a fixed table of eight tiers; the source
    writes the table out twice as `if` chains, and the model keeps both chains as they are
    and proves them equal to one shared table. */
module Progression {
  import opened Wrappers

  /** What `calRemainingPts` returns: points still needed and the width of the level. */
  datatype Progress = Progress(remainingPts: int, levelPts: int)

  /** A level and the title that goes with it. */
  datatype Rank = Rank(level: int, title: string)

  /** A row of the `stats` table. */
  datatype Stats = Stats(level: int, title: string, points: int, quizzesCompleted: int)

  /** One tier: totals in (lo, hi] (the last tier has no upper bound) climb one level every
      `step` points, starting at level `base`. */
  datatype Tier = Tier(lo: int, hi: Option<int>, step: int, base: int, title: string)

  const TierTable: seq<Tier> := [
    Tier(0, Some(1000), 200, 0, "Newbie"),
    Tier(1000, Some(2000), 200, 5, "Apprentice"),
    Tier(2000, Some(3500), 300, 10, "Pro"),
    Tier(3500, Some(5000), 300, 15, "Ace"),
    Tier(5000, Some(7500), 500, 20, "Premier"),
    Tier(7500, Some(10000), 500, 25, "Superstar"),
    Tier(10000, Some(12500), 500, 30, "Guru"),
    Tier(12500, None, 500, 35, "King")
  ]

  /** The index of the first tier, from `i` on, whose upper bound is not below `p`. */
  function FindTier(p: int, i: nat): (k: nat)
    requires i < |TierTable|
    ensures i <= k < |TierTable|
    decreases |TierTable| - i
  {
    if TierTable[i].hi.None? || p <= TierTable[i].hi.value then i else FindTier(p, i + 1)
  }

  /** The tier a non-negative total belongs to. */
  function TierOf(p: int): Tier
    requires p >= 0
  {
    TierTable[FindTier(p, 0)]
  }

  /** The tiers cover the totals without gaps: each starts where the previous one ends, every
      tier except the last is exactly five levels wide, and each base is five times its index. */
  lemma TierTableContiguous()
    ensures TierTable[0].lo == 0
    ensures forall i :: 0 <= i < |TierTable| - 1 ==>
      TierTable[i].hi == Some(TierTable[i + 1].lo) &&
      TierTable[i].lo + 5 * TierTable[i].step == TierTable[i].hi.value
    ensures forall i :: 0 <= i < |TierTable| ==> TierTable[i].base == 5 * i && TierTable[i].step > 0
    ensures TierTable[|TierTable| - 1].hi.None?
  {
  }

  /** The tier search, written out range by range. */
  lemma {:induction false} TierOfRanges(p: int)
    requires p >= 0
    ensures p <= 1000 ==> FindTier(p, 0) == 0
    ensures 1000 < p <= 2000 ==> FindTier(p, 0) == 1
    ensures 2000 < p <= 3500 ==> FindTier(p, 0) == 2
    ensures 3500 < p <= 5000 ==> FindTier(p, 0) == 3
    ensures 5000 < p <= 7500 ==> FindTier(p, 0) == 4
    ensures 7500 < p <= 10000 ==> FindTier(p, 0) == 5
    ensures 10000 < p <= 12500 ==> FindTier(p, 0) == 6
    ensures 12500 < p ==> FindTier(p, 0) == 7
  {
    if p > 1000 {
      assert FindTier(p, 0) == FindTier(p, 1);
      if p > 2000 {
        assert FindTier(p, 1) == FindTier(p, 2);
        if p > 3500 {
          assert FindTier(p, 2) == FindTier(p, 3);
          if p > 5000 {
            assert FindTier(p, 3) == FindTier(p, 4);
            if p > 7500 {
              assert FindTier(p, 4) == FindTier(p, 5);
              if p > 10000 {
                assert FindTier(p, 5) == FindTier(p, 6);
                if p > 12500 {
                  assert FindTier(p, 6) == FindTier(p, 7);
                }
              }
            }
          }
        }
      }
    }
  }

  /** `calRemainingPts(points)`: the branch chain of the source. A negative total matches no
      branch and both values stay `undefined`, modelled as `None`. */
  function CalRemainingPts(points: int): (r: Option<Progress>)
    ensures r.None? <==> points < 0
    ensures r.Some? ==> r.value.levelPts in {200, 300, 500} && 1 <= r.value.remainingPts <= r.value.levelPts
  {
    if points >= 0 && points <= 1000 then Some(Progress(200 - points % 200, 200))
    else if points > 1000 && points <= 2000 then Some(Progress(200 - (points - 1000) % 200, 200))
    else if points > 2000 && points <= 3500 then Some(Progress(300 - (points - 2000) % 300, 300))
    else if points > 3500 && points <= 5000 then Some(Progress(300 - (points - 3500) % 300, 300))
    else if points > 5000 && points <= 7500 then Some(Progress(500 - (points - 5000) % 500, 500))
    else if points > 7500 && points <= 10000 then Some(Progress(500 - (points - 7500) % 500, 500))
    else if points > 10000 && points <= 12500 then Some(Progress(500 - (points - 10000) % 500, 500))
    else if points > 12500 then Some(Progress(500 - (points - 12500) % 500, 500))
    else None
  }

  /** The level and title branches of `updatePoints` for a new total. A total of 0 or less
      matches no branch: the stored level and title are kept, modelled as `None`. */
  function RankOf(points: int): (r: Option<Rank>)
    ensures r.None? <==> points <= 0
    ensures r.Some? ==> r.value.level >= 0
    ensures r.Some? ==> r.value.title in {"Newbie", "Apprentice", "Pro", "Ace", "Premier", "Superstar", "Guru", "King"}
  {
    if points > 0 && points <= 1000 then Some(Rank(0 + points / 200, "Newbie"))
    else if points > 1000 && points <= 2000 then Some(Rank(5 + (points - 1000) / 200, "Apprentice"))
    else if points > 2000 && points <= 3500 then Some(Rank(10 + (points - 2000) / 300, "Pro"))
    else if points > 3500 && points <= 5000 then Some(Rank(15 + (points - 3500) / 300, "Ace"))
    else if points > 5000 && points <= 7500 then Some(Rank(20 + (points - 5000) / 500, "Premier"))
    else if points > 7500 && points <= 10000 then Some(Rank(25 + (points - 7500) / 500, "Superstar"))
    else if points > 10000 && points <= 12500 then Some(Rank(30 + (points - 10000) / 500, "Guru"))
    else if points > 12500 then Some(Rank(35 + (points - 12500) / 500, "King"))
    else None
  }

  /** For every total p >= 0 the progress is defined, the level width is 200 up to 2000, 300
      up to 5000 and 500 above, and the remaining points lie in 1..levelPts; negative totals
      have no progress. */
  lemma ProgressBounds(p: int)
    ensures p < 0 <==> CalRemainingPts(p).None?
    ensures p >= 0 ==>
      var pr := CalRemainingPts(p).value;
      && pr.levelPts == (if p <= 2000 then 200 else if p <= 5000 then 300 else 500)
      && 1 <= pr.remainingPts <= pr.levelPts
  {
  }

  /** `calRemainingPts` agrees with the shared tier table: the level width is the tier's step
      and the remaining points are the step minus the offset into the tier, modulo the step. */
  lemma {:induction false} ProgressMatchesTable(p: int)
    requires p >= 0
    ensures CalRemainingPts(p) ==
      Some(Progress(TierOf(p).step - (p - TierOf(p).lo) % TierOf(p).step, TierOf(p).step))
  {
    TierOfRanges(p);
  }

  /** The tier branches of `updatePoints` agree with the shared tier table:
      level = base + (p - lo) / step, and the title is the tier's. */
  lemma {:induction false} RankMatchesTable(p: int)
    requires p > 0
    ensures RankOf(p) ==
      Some(Rank(TierOf(p).base + (p - TierOf(p).lo) / TierOf(p).step, TierOf(p).title))
  {
    TierOfRanges(p);
  }

  /** Each tier's step is the level width `calRemainingPts` reports for the same total. */
  lemma {:induction false} StepIsLevelWidth(p: int)
    requires p > 0
    ensures CalRemainingPts(p).Some? && RankOf(p).Some?
    ensures CalRemainingPts(p).value.levelPts == TierOf(p).step
    ensures RankOf(p).value.level == TierOf(p).base + (p - TierOf(p).lo) / CalRemainingPts(p).value.levelPts
  {
    ProgressMatchesTable(p);
    RankMatchesTable(p);
  }

  /** A positive total always has a rank, at least five levels per tier below it; in every
      tier but the last the level stays within that tier's five levels. */
  lemma {:induction false} LevelWithinTier(p: int)
    requires p > 0
    ensures RankOf(p).Some?
    ensures 5 * FindTier(p, 0) <= RankOf(p).value.level
    ensures FindTier(p, 0) < |TierTable| - 1 ==> RankOf(p).value.level <= 5 * FindTier(p, 0) + 5
  {
    TierOfRanges(p);
  }

  /** The tier index never decreases as the total grows. */
  lemma {:induction false} FindTierMonotone(p: int, q: int, i: nat)
    requires p <= q && i < |TierTable|
    ensures FindTier(p, i) <= FindTier(q, i)
    decreases |TierTable| - i
  {
    if TierTable[i].hi.Some? && q > TierTable[i].hi.value {
      if p > TierTable[i].hi.value {
        FindTierMonotone(p, q, i + 1);
      }
    }
  }

  /** For positive totals the level never decreases as the total grows. */
  lemma {:induction false} LevelMonotone(p: int, q: int)
    requires 0 < p <= q
    ensures RankOf(p).Some? && RankOf(q).Some?
    ensures RankOf(p).value.level <= RankOf(q).value.level
  {
    LevelWithinTier(p);
    LevelWithinTier(q);
    FindTierMonotone(p, q, 0);
    if FindTier(p, 0) == FindTier(q, 0) {
      TierOfRanges(p);
      TierOfRanges(q);
    }
  }

  /** The remaining points lead to the next level: adding fewer keeps the level, adding exactly
      `remainingPts` raises it by one. This holds for every positive total except 2000 and 5000,
      where the step widens (see `RemainingAtWideningBoundary`). */
  lemma {:induction false} RemainingReachesNextLevel(p: int, d: int)
    requires p > 0 && p != 2000 && p != 5000
    requires 0 <= d
    ensures CalRemainingPts(p).Some? && RankOf(p).Some? && RankOf(p + d).Some?
    ensures d < CalRemainingPts(p).value.remainingPts ==> RankOf(p + d).value.level == RankOf(p).value.level
    ensures d == CalRemainingPts(p).value.remainingPts ==> RankOf(p + d).value.level == RankOf(p).value.level + 1
  {
    TierOfRanges(p);
    TierOfRanges(p + d);
  }

  /** At exactly 2000 and 5000 points `calRemainingPts` still reports the narrower step of the
      tier that ends there (200 and 300), but the next level only starts at 2300 and 5500. */
  lemma RemainingAtWideningBoundary()
    ensures CalRemainingPts(2000) == Some(Progress(200, 200))
    ensures RankOf(2000) == Some(Rank(10, "Apprentice")) && RankOf(2200) == Some(Rank(10, "Pro"))
    ensures RankOf(2300) == Some(Rank(11, "Pro"))
    ensures CalRemainingPts(5000) == Some(Progress(300, 300))
    ensures RankOf(5000) == Some(Rank(20, "Ace")) && RankOf(5300) == Some(Rank(20, "Premier"))
    ensures RankOf(5500) == Some(Rank(21, "Premier"))
  {
  }

  /** The first level-up: from a total of 0 (no rank yet), 200 points give level 1. */
  lemma FirstLevel()
    ensures CalRemainingPts(0) == Some(Progress(200, 200))
    ensures RankOf(0).None? && RankOf(199) == Some(Rank(0, "Newbie")) && RankOf(200) == Some(Rank(1, "Newbie"))
  {
  }

  /** The new stats row `updatePoints` writes: the points are added, one more quiz is
      counted, and level and title are recomputed from the new total (or kept when the new
      total is 0 or less). */
  function ApplyPoints(s: Stats, newPoints: int): (r: Stats)
    ensures r.points == s.points + newPoints
    ensures r.quizzesCompleted == s.quizzesCompleted + 1
    ensures RankOf(r.points).Some? ==> RankOf(r.points) == Some(Rank(r.level, r.title))
    ensures RankOf(r.points).None? ==> r.level == s.level && r.title == s.title
  {
    var points := s.points + newPoints;
    var quizzesCompleted := s.quizzesCompleted + 1;
    match RankOf(points)
    case Some(rank) => Stats(rank.level, rank.title, points, quizzesCompleted)
    case None => Stats(s.level, s.title, points, quizzesCompleted)
  }

  /** A stats row whose level and title are the ones its total calls for; a row without
      positive points still has the starting level and title. */
  predicate Ranked(s: Stats)
  {
    if s.points > 0 then RankOf(s.points) == Some(Rank(s.level, s.title))
    else s.level == 0 && s.title == "Newbie"
  }

  /** Earning points never lowers a ranked user's level, and the new row is ranked again, however
      many tiers the new points cross. */
  lemma {:induction false} ApplyPointsMonotone(s: Stats, newPoints: int)
    requires Ranked(s) && s.points >= 0 && newPoints >= 0
    ensures Ranked(ApplyPoints(s, newPoints))
    ensures ApplyPoints(s, newPoints).level >= s.level
  {
    var r := ApplyPoints(s, newPoints);
    if s.points > 0 {
      LevelMonotone(s.points, r.points);
    } else if r.points > 0 {
      LevelWithinTier(r.points);
    }
  }

  /** The stats of a new user, as the `stats` table's column defaults give them. */
  const InitialStats := Stats(0, "Newbie", 0, 0)

  /** 900 points plus 111 is 1011 points, level 5, "Apprentice", 189 of 200 points to go. */
  lemma ApplyPointsCrossesTier()
    ensures ApplyPoints(Stats(4, "Newbie", 900, 9), 111) == Stats(5, "Apprentice", 1011, 10)
    ensures CalRemainingPts(1011) == Some(Progress(189, 200))
  {
  }

  /** Three sessions of 85, 120 and 75 points on a new account: 280 points, level 1,
      three quizzes, 120 points to go. */
  lemma SeededSessions()
    ensures ApplyPoints(ApplyPoints(ApplyPoints(InitialStats, 85), 120), 75) == Stats(1, "Newbie", 280, 3)
    ensures CalRemainingPts(280) == Some(Progress(120, 200))
  {
  }

  /** The two totals the unit tests pin: 999 -> (1, 200) and 7501 -> (499, 500). */
  lemma ProgressExamples()
    ensures CalRemainingPts(999) == Some(Progress(1, 200))
    ensures CalRemainingPts(7501) == Some(Progress(499, 500))
    ensures CalRemainingPts(900) == Some(Progress(100, 200))
  {
  }
}
