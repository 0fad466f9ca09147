/**
 * The rewards store of lib/store/rewards.ts: one mutable UserRewards record and the five actions
 * that replace it with an updated copy, plus the two lookups into the level table.
 * The record's `level` is derived from `points` by folding over the level table; the class
 * invariant Valid() says the two agree.
 */
module RewardsStore {
  import opened Wrappers
  import opened Numbers
  import opened UserTypes
  import opened RewardConstants

  /** 24 hours in milliseconds: the window within which a login continues a streak. */
  const DayMillis: int := 24 * 60 * 60 * 1000

  /**
   * The level `reduce` of addPoints, as a left fold: starting from `prev`, each later row
   * replaces the accumulator when the points reach its threshold.
   */
  function ReduceLevels(prev: RewardLevel, rest: seq<RewardLevel>, points: int): (r: RewardLevel)
    ensures r == prev || (r in rest && r.minPoints <= points)
    decreases |rest|
  {
    if rest == [] then prev
    else
      assert forall e :: e in rest[1..] ==> e in rest;
      ReduceLevels(if points >= rest[0].minPoints then rest[0] else prev, rest[1..], points)
  }

  /** The level row a points total resolves to: the reduce without initial value over the table. */
  function ResolveLevel(points: int): (r: RewardLevel)
    ensures r in Levels
    ensures r == Levels[0] || r.minPoints <= points
  {
    ReduceLevels(Levels[0], Levels[1..], points)
  }

  /**
   * Row `i` is what the reduce over `levels` yields for `points`: it is the last row after the first
   * whose threshold the points reach, or the first row when no later row is reached.
   */
  ghost predicate IsResolution(levels: seq<RewardLevel>, points: int, i: int)
  {
    && 0 <= i < |levels|
    && (i == 0 || levels[i].minPoints <= points)
    && forall j :: i < j < |levels| ==> points < levels[j].minPoints
  }

  /** At most one row of any table is the resolution of a given points total. */
  lemma ResolutionUnique(levels: seq<RewardLevel>, points: int, i: int, j: int)
    requires IsResolution(levels, points, i) && IsResolution(levels, points, j)
    ensures i == j
  {
  }

  /**
   * Folding the rest of the table from row `k` on, with the resolution of the first `k` rows as
   * accumulator, yields the resolution of the whole table.
   */
  lemma {:induction false} ReduceLevelsFindsResolution(levels: seq<RewardLevel>, k: int, i: int, points: int)
    returns (r: int)
    requires 0 <= i < k <= |levels|
    requires IsResolution(levels[..k], points, i)
    ensures IsResolution(levels, points, r)
    ensures ReduceLevels(levels[i], levels[k..], points) == levels[r]
    decreases |levels| - k
  {
    if k == |levels| {
      assert levels[..k] == levels;
      r := i;
    } else {
      var next := if points >= levels[k].minPoints then k else i;
      assert levels[k..][0] == levels[k] && levels[k..][1..] == levels[k + 1..];
      assert ReduceLevels(levels[i], levels[k..], points) == ReduceLevels(levels[next], levels[k + 1..], points);
      assert IsResolution(levels[..k + 1], points, next);
      r := ReduceLevelsFindsResolution(levels, k + 1, next, points);
    }
  }

  /** The level number the thresholds 0 < 500 < 1500 < 3000 < 6000 assign to a points total. */
  function LevelNumberFor(points: int): (r: int)
    ensures 1 <= r <= 5
  {
    if points >= 6000 then 5
    else if points >= 3000 then 4
    else if points >= 1500 then 3
    else if points >= 500 then 2
    else 1
  }

  /**
   * Resolving a points total picks the row of its band; any total below 500, negative ones
   * included, gives level 1. For a non-negative total the row's threshold is the largest one the
   * total reaches.
   */
  lemma ResolveLevelBands(points: int)
    ensures 1 <= ResolveLevel(points).level <= 5
    ensures ResolveLevel(points) == Levels[ResolveLevel(points).level - 1]
    ensures ResolveLevel(points).level == LevelNumberFor(points)
    ensures 0 <= points ==> InBand(Levels, ResolveLevel(points).level - 1, points)
    ensures 0 <= points ==> ResolveLevel(points).minPoints <= points
    ensures forall j :: 0 <= j < |Levels| && Levels[j].minPoints <= points ==>
      Levels[j].minPoints <= ResolveLevel(points).minPoints
  {
    var i := ResolveLevelRow(points);
    LevelTableShape();
  }

  /** The row the reduce picks on the level table is the one `LevelNumberFor` names. */
  lemma ResolveLevelRow(points: int) returns (i: int)
    ensures i == LevelNumberFor(points) - 1 && 0 <= i < |Levels|
    ensures ResolveLevel(points) == Levels[i]
  {
    LevelTableShape();
    assert IsResolution(Levels[..1], points, 0);
    var r := ReduceLevelsFindsResolution(Levels, 1, 0, points);
    i := LevelNumberFor(points) - 1;
    assert IsResolution(Levels, points, i);
    ResolutionUnique(Levels, points, r, i);
  }

  /** The `find` of the level lookups: the first row numbered `n`, if any. */
  function FindLevel(levels: seq<RewardLevel>, n: int): (r: Option<RewardLevel>)
    ensures r.Some? ==> r.value in levels && r.value.level == n
    ensures r.None? <==> forall e :: e in levels ==> e.level != n
  {
    if levels == [] then None
    else if levels[0].level == n then Some(levels[0])
    else
      assert forall e :: e in levels[1..] ==> e in levels;
      FindLevel(levels[1..], n)
  }

  /**
   * In a table whose rows are numbered consecutively from `first`, looking up `n` finds row
   * `n - first` exactly when `n` is one of the numbers used.
   */
  lemma {:induction false} FindLevelNumbered(levels: seq<RewardLevel>, first: int, n: int)
    requires forall i :: 0 <= i < |levels| ==> levels[i].level == first + i
    ensures FindLevel(levels, n) == if first <= n < first + |levels| then Some(levels[n - first]) else None
  {
    if levels != [] && levels[0].level != n {
      FindLevelNumbered(levels[1..], first + 1, n);
    }
  }

  /** In the level table, looking up number `n` finds row `n - 1` exactly when `n` is 1 to 5. */
  lemma FindLevelInTable(n: int)
    ensures FindLevel(Levels, n) == if 1 <= n <= 5 then Some(Levels[n - 1]) else None
  {
    LevelTableShape();
    FindLevelNumbered(Levels, 1, n);
  }

  /** The consistency the store maintains between the two derived fields. */
  ghost predicate LevelMatchesPoints(r: UserRewards)
  {
    r.level == ResolveLevel(r.points).level
  }

  /** The record a new store starts from; the referral code is "OMAILLOT" followed by a random suffix. */
  function InitialRewards(codeSuffix: string): (r: UserRewards)
    ensures r.points == 0 && r.level == 1 && LevelMatchesPoints(r)
    ensures r.totalSpent == 0 && r.totalOrders == 0
    ensures r.streaks.currentLoginStreak == 0 && r.streaks.longestLoginStreak == 0
    ensures r.streaks.lastLoginDate.None?
    ensures r.badges == [] && r.achievements == [] && r.referrals.referredUsers == []
    ensures r.referrals.totalEarned == 0 && "OMAILLOT" <= r.referrals.code
  {
    ResolveLevelBands(0);
    UserRewards(
      points := 0,
      level := 1,
      totalSpent := 0,
      totalOrders := 0,
      badges := [],
      streaks := Streaks(0, 0, None),
      achievements := [],
      referrals := Referrals("OMAILLOT" + codeSuffix, [], 0))
  }

  /**
   * The `map` of completeAchievement: every achievement with the given id is marked completed at
   * `now`; every other one is kept as it is, in place.
   */
  function MarkCompleted(achievements: seq<Achievement>, id: string, now: int): (r: seq<Achievement>)
    ensures |r| == |achievements|
    ensures forall i :: 0 <= i < |r| && achievements[i].id == id ==>
      r[i] == achievements[i].(completed := true, completedAt := Some(now))
    ensures forall i :: 0 <= i < |r| && achievements[i].id != id ==> r[i] == achievements[i]
  {
    if achievements == [] then []
    else
      var head := achievements[0];
      [if head.id == id then head.(completed := true, completedAt := Some(now)) else head]
        + MarkCompleted(achievements[1..], id, now)
  }

  /** Completing an id that no achievement carries changes nothing. */
  lemma {:induction false} MarkCompletedUnknownId(achievements: seq<Achievement>, id: string, now: int)
    requires forall a :: a in achievements ==> a.id != id
    ensures MarkCompleted(achievements, id, now) == achievements
  {
    if achievements != [] {
      MarkCompletedUnknownId(achievements[1..], id, now);
    }
  }

  /**
   * Completing the same id twice is not idempotent: the second call stamps its own time, exactly as
   * if only it had been made.
   */
  lemma MarkCompletedRestamps(achievements: seq<Achievement>, id: string, first: int, second: int)
    ensures MarkCompleted(MarkCompleted(achievements, id, first), id, second)
      == MarkCompleted(achievements, id, second)
  {
    var once := MarkCompleted(achievements, id, first);
    var twice := MarkCompleted(once, id, second);
    var direct := MarkCompleted(achievements, id, second);
    assert forall i :: 0 <= i < |twice| ==> once[i].id == achievements[i].id;
    assert forall i :: 0 <= i < |twice| ==> twice[i] == direct[i];
  }

  /** Completion is one-way: nothing completed before is uncompleted, and ids and order are kept. */
  lemma MarkCompletedKeepsCompleted(achievements: seq<Achievement>, id: string, now: int)
    ensures forall i :: 0 <= i < |achievements| ==>
      MarkCompleted(achievements, id, now)[i].id == achievements[i].id &&
      (achievements[i].completed ==> MarkCompleted(achievements, id, now)[i].completed)
  {
  }

  /** Whether a login at `now` continues the streak of a previous login at `lastLogin`. */
  predicate IsConsecutive(lastLogin: Option<int>, now: int)
    ensures IsConsecutive(lastLogin, now) ==> lastLogin.Some?
    ensures lastLogin.Some? && now <= lastLogin.value + DayMillis ==> IsConsecutive(lastLogin, now)
    ensures lastLogin.Some? && now > lastLogin.value + DayMillis ==> !IsConsecutive(lastLogin, now)
  {
    lastLogin.Some? && now - lastLogin.value <= DayMillis
  }

  class RewardsStore {
    var rewards: UserRewards

    ghost predicate Valid()
      reads this
    {
      LevelMatchesPoints(rewards)
    }

    constructor (codeSuffix: string)
      ensures rewards == InitialRewards(codeSuffix)
      ensures Valid()
    {
      rewards := InitialRewards(codeSuffix);
    }

    /**
     * Adds `points` (of either sign; the amount is not checked) and recomputes the level from the
     * new total. The reason is only descriptive.
     */
    method AddPoints(points: int, reason: string)
      modifies this
      ensures rewards == old(rewards).(points := old(rewards).points + points,
                                       level := ResolveLevel(old(rewards).points + points).level)
      ensures rewards.level == LevelNumberFor(rewards.points)
      ensures Valid()
    {
      var newPoints := rewards.points + points;
      ResolveLevelBands(newPoints);
      var newLevel := ResolveLevel(newPoints);
      rewards := rewards.(points := newPoints, level := newLevel.level);
    }

    /** Marks every achievement with this id completed at `now`; grants no points. */
    method CompleteAchievement(achievementId: string, now: int)
      modifies this
      ensures rewards == old(rewards).(achievements := MarkCompleted(old(rewards).achievements, achievementId, now))
      ensures rewards.points == old(rewards).points && rewards.level == old(rewards).level
      ensures old(Valid()) ==> Valid()
    {
      rewards := rewards.(achievements := MarkCompleted(rewards.achievements, achievementId, now));
    }

    /** Appends the badge, without looking for one with the same id. */
    method UnlockBadge(badge: Badge)
      modifies this
      ensures rewards == old(rewards).(badges := old(rewards).badges + [badge])
      ensures |rewards.badges| == |old(rewards).badges| + 1
      ensures rewards.badges[..|old(rewards).badges|] == old(rewards).badges
      ensures old(Valid()) ==> Valid()
    {
      rewards := rewards.(badges := rewards.badges + [badge]);
    }

    /**
     * Records a login at `now`: the streak grows by one if the previous login is at most a day
     * earlier (a later one counts too), and restarts at 1 otherwise.
     */
    method UpdateLoginStreak(now: int)
      modifies this
      ensures var was := old(rewards.streaks);
              var current := if IsConsecutive(was.lastLoginDate, now) then was.currentLoginStreak + 1 else 1;
              rewards == old(rewards).(streaks := Streaks(current, Max(current, was.longestLoginStreak), Some(now)))
      ensures rewards.streaks.longestLoginStreak >= old(rewards).streaks.longestLoginStreak
      ensures rewards.streaks.longestLoginStreak >= rewards.streaks.currentLoginStreak
      ensures old(Valid()) ==> Valid()
    {
      var newStreak := if IsConsecutive(rewards.streaks.lastLoginDate, now) then rewards.streaks.currentLoginStreak + 1 else 1;
      rewards := rewards.(streaks := rewards.streaks.(
        currentLoginStreak := newStreak,
        longestLoginStreak := Max(newStreak, rewards.streaks.longestLoginStreak),
        lastLoginDate := Some(now)));
    }

    /**
     * Appends the referred user (duplicates included) and credits the referral bonus to
     * `totalEarned` only; points, level and code are untouched.
     */
    method AddReferral(userId: string)
      modifies this
      ensures rewards == old(rewards).(referrals := old(rewards).referrals.(
        referredUsers := old(rewards).referrals.referredUsers + [userId],
        totalEarned := old(rewards).referrals.totalEarned + PointsRules.referralSuccess))
      ensures rewards.referrals.totalEarned == old(rewards).referrals.totalEarned + 200
      ensures old(Valid()) ==> Valid()
    {
      rewards := rewards.(referrals := rewards.referrals.(
        referredUsers := rewards.referrals.referredUsers + [userId],
        totalEarned := rewards.referrals.totalEarned + PointsRules.referralSuccess));
    }

    /** The row numbered `level`, or the first row when no row has that number. */
    function GetCurrentLevel(): (r: RewardLevel)
      reads this
      ensures r == if 1 <= rewards.level <= 5 then Levels[rewards.level - 1] else Levels[0]
      ensures Valid() ==> r == ResolveLevel(rewards.points)
    {
      FindLevelInTable(rewards.level);
      ResolveLevelBands(rewards.points);
      match FindLevel(Levels, rewards.level)
      case Some(l) => l
      case None => Levels[0]
    }

    /**
     * The row numbered `level + 1`, if any. In a valid store there is none exactly at level 5, and
     * otherwise its threshold is still above the current points.
     */
    function GetNextLevel(): (r: Option<RewardLevel>)
      reads this
      ensures r == if 0 <= rewards.level <= 4 then Some(Levels[rewards.level]) else None
      ensures Valid() ==> (r.None? <==> rewards.level == 5)
      ensures Valid() && r.Some? ==> rewards.points < r.value.minPoints
    {
      FindLevelInTable(rewards.level + 1);
      ResolveLevelBands(rewards.points);
      FindLevel(Levels, rewards.level + 1)
    }
  }

  /** A fresh store that earns 600 points reaches level 2, "Supporter". */
  method LevelUpScenario()
  {
    var store := new RewardsStore("ABC123");
    store.AddPoints(600, "order");
    assert store.rewards.points == 600 && store.rewards.level == 2;
    var current := store.GetCurrentLevel();
    assert current.name == "Supporter";
  }

  /** Referring the same user twice records them twice and credits the bonus twice. */
  method DuplicateReferralScenario()
  {
    var store := new RewardsStore("ABC123");
    store.AddReferral("u1");
    store.AddReferral("u1");
    assert store.rewards.referrals.referredUsers == ["u1", "u1"];
    assert store.rewards.referrals.totalEarned == 400 && store.rewards.points == 0;
  }
}
