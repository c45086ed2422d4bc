/**
 * `UsersService` (src/users/users.service.ts): the day-boundary streak engine with its gem
 * bonuses, the "learned today" status, and the partial overwrite of stats.
 * Calendar days are integers; `today` is supplied by the caller.
 */
module UsersService {
  import opened Wrappers
  import opened UserModel

  /** A gap of more days than this resets the streak. */
  const MAX_BREAK_DAYS: int := 7
  /** The gems of the weekly bonus. */
  const WEEKLY_GEMS: int := 5

  function Max(a: int, b: int): int { if a >= b then a else b }

  /** Days from the last activity to `today`; 0 when there has been no activity. */
  function DaysDiff(last: Option<int>, today: int): int {
    match last
    case None => 0
    case Some(d) => today - d
  }

  /** The special-milestone table {3: 15, 10: 30, 50: 100, 365: 1000}; 0 where it has no entry. */
  function MilestoneGems(streak: int): (g: int)
    ensures g != 0 <==> streak in {3, 10, 50, 365}
    ensures g >= 0
  {
    if streak == 3 then 15
    else if streak == 10 then 30
    else if streak == 50 then 100
    else if streak == 365 then 1000
    else 0
  }

  predicate IsWeeklyBonus(streak: int) {
    streak >= 7 && streak % 7 == 0
  }

  datatype BonusKind = SpecialMilestone(days: int) | WeeklyBonus(week: int)
  /** One entry of a reward's `details`. */
  datatype Bonus = Bonus(kind: BonusKind, amount: int)
  /** The gem reward of a day-advancing call (`type` is always 'gems'). */
  datatype Reward = Reward(amount: int, milestone: int, details: seq<Bonus>)
  datatype StreakResult = StreakResult(currentStreak: int, learnedToday: bool, reward: Option<Reward>)
  /** The user's columns after `updateStreakHybrid`, and what it returns. */
  datatype StreakOutcome = StreakOutcome(row: UserRow, result: StreakResult)

  /** The bonuses a streak of this length earns, in the order they are pushed. */
  function Bonuses(streak: int): seq<Bonus> {
    (if MilestoneGems(streak) != 0 then [Bonus(SpecialMilestone(streak), MilestoneGems(streak))] else [])
    + (if IsWeeklyBonus(streak) then [Bonus(WeeklyBonus(streak / 7), WEEKLY_GEMS)] else [])
  }

  function TotalAmount(details: seq<Bonus>): int {
    if details == [] then 0 else details[0].amount + TotalAmount(details[1..])
  }

  /** The streak length after a day-advancing call with this gap. */
  function NextStreak(current: int, daysDiff: int): int {
    if daysDiff > MAX_BREAK_DAYS then 1 else current + 1
  }

  /**
   * `updateStreakHybrid` on a known user, as a function of the user's columns: XP and the
   * avatar are never touched, gems never go down, and a reward always pays something.
   */
  function StreakStep(u: UserRow, today: int): (o: StreakOutcome)
    ensures o.row.totalXp == u.totalXp && o.row.avatarUrl == u.avatarUrl
    ensures o.result.learnedToday && o.result.currentStreak == o.row.currentStreak
    ensures o.row.maxStreak >= u.maxStreak
    ensures DaysDiff(u.lastActivityDate, today) != 0 ==> o.row.maxStreak >= o.row.currentStreak
    ensures o.result.reward.Some? ==>
      o.result.reward.value.amount > 0 && o.row.totalGems == u.totalGems + o.result.reward.value.amount
    ensures o.result.reward.None? ==> o.row.totalGems == u.totalGems
  {
    var diff := DaysDiff(u.lastActivityDate, today);
    if diff == 0 then
      StreakOutcome(u, StreakResult(u.currentStreak, true, None))
    else
      var streak := NextStreak(u.currentStreak, diff);
      var details := Bonuses(streak);
      var total := TotalAmount(details);
      var row := u.(currentStreak := streak,
                    lastActivityDate := Some(today),
                    maxStreak := Max(u.maxStreak, streak),
                    totalGems := if total > 0 then u.totalGems + total else u.totalGems);
      StreakOutcome(row, StreakResult(streak, true, if total > 0 then Some(Reward(total, streak, details)) else None))
  }

  /** What `getStreakStatus` reports for a known user. */
  datatype StreakStatus = StreakStatus(
    currentStreak: int, maxStreak: int, lastActivityDate: Option<int>, learnedToday: bool, totalGems: int)

  function StatusOf(u: UserRow, today: int): (s: StreakStatus)
    ensures s.learnedToday <==> u.lastActivityDate == Some(today)
  {
    var learnedToday := match u.lastActivityDate
      case None => false
      case Some(d) => today - d == 0;
    StreakStatus(u.currentStreak, u.maxStreak, u.lastActivityDate, learnedToday, u.totalGems)
  }

  /** The fields `updateStats` may overwrite; None is `undefined`. */
  datatype StatsPatch = StatsPatch(xp: Option<int>, streak: Option<int>, gems: Option<int>)

  /** `updateStats` on a user's columns: each supplied value replaces its column. */
  function ApplyStats(u: UserRow, p: StatsPatch): (r: UserRow)
    ensures r.totalXp == (if p.xp.Some? then p.xp.value else u.totalXp)
    ensures r.currentStreak == (if p.streak.Some? then p.streak.value else u.currentStreak)
    ensures r.totalGems == (if p.gems.Some? then p.gems.value else u.totalGems)
    ensures r.maxStreak == u.maxStreak && r.lastActivityDate == u.lastActivityDate && r.avatarUrl == u.avatarUrl
  {
    var r := match p.xp case Some(x) => u.(totalXp := x) case None => u;
    var r := match p.streak case Some(s) => r.(currentStreak := s) case None => r;
    match p.gems case Some(g) => r.(totalGems := g) case None => r
  }

  // ---------------------------------------------------------------------------
  // Properties of the streak step

  /** Same calendar day, or no recorded activity at all: nothing changes and no reward is given. */
  lemma SameDayIsNoOp(u: UserRow, today: int)
    requires u.lastActivityDate == Some(today) || u.lastActivityDate == None
    ensures StreakStep(u, today) == StreakOutcome(u, StreakResult(u.currentStreak, true, None))
  {
  }

  /** A second call on the same day changes nothing and returns no reward. */
  lemma SecondCallSameDayIsNoOp(u: UserRow, today: int)
    ensures var first := StreakStep(u, today).row;
      StreakStep(first, today) == StreakOutcome(first, StreakResult(first.currentStreak, true, None))
  {
  }

  /**
   * A day-advancing call: a gap of at most 7 days (a negative gap included) extends the
   * streak by one, a longer gap restarts it at 1; the day is recorded and `maxStreak` is
   * the larger of the old maximum and the new streak.
   */
  lemma DayAdvancingStep(u: UserRow, today: int)
    requires u.lastActivityDate.Some? && u.lastActivityDate.value != today
    ensures var o := StreakStep(u, today); var gap := today - u.lastActivityDate.value;
      && o.row.currentStreak == (if gap > MAX_BREAK_DAYS then 1 else u.currentStreak + 1)
      && o.row.lastActivityDate == Some(today)
      && o.row.maxStreak == Max(u.maxStreak, o.row.currentStreak)
      && o.row.totalXp == u.totalXp && o.row.avatarUrl == u.avatarUrl
      && o.result.currentStreak == o.row.currentStreak && o.result.learnedToday
  {
  }

  /** `maxStreak >= currentStreak` is kept by every call. */
  lemma MaxStreakInvariant(u: UserRow, today: int)
    requires u.maxStreak >= u.currentStreak
    ensures var o := StreakStep(u, today); o.row.maxStreak >= o.row.currentStreak && o.row.maxStreak >= u.maxStreak
  {
  }

  /** The bonuses' total: the milestone table entry plus 5 on every multiple of 7 from 7 on. */
  lemma BonusTotal(streak: int)
    ensures TotalAmount(Bonuses(streak)) == MilestoneGems(streak) + (if IsWeeklyBonus(streak) then WEEKLY_GEMS else 0)
    ensures TotalAmount(Bonuses(streak)) >= 0
  {
    MilestoneNeverWeekly(streak);
  }

  /** No milestone of the table falls on a multiple of 7, so a call never earns both bonuses. */
  lemma MilestoneNeverWeekly(streak: int)
    ensures !(MilestoneGems(streak) != 0 && IsWeeklyBonus(streak))
    ensures |Bonuses(streak)| <= 1
  {
    if MilestoneGems(streak) != 0 {
      assert streak % 7 != 0;
    }
  }

  /**
   * Gems grow by exactly the bonuses of the new streak; the reward is absent exactly when
   * that total is 0, and otherwise carries the total, the streak and one entry per bonus in order.
   */
  lemma StreakReward(u: UserRow, today: int)
    requires DaysDiff(u.lastActivityDate, today) != 0
    ensures var o := StreakStep(u, today); var streak := o.row.currentStreak;
      var total := MilestoneGems(streak) + (if IsWeeklyBonus(streak) then WEEKLY_GEMS else 0);
      && o.row.totalGems == u.totalGems + total
      && (o.result.reward.None? <==> total == 0)
      && (o.result.reward.Some? ==> o.result.reward.value == Reward(total, streak, Bonuses(streak)))
  {
    BonusTotal(NextStreak(u.currentStreak, DaysDiff(u.lastActivityDate, today)));
  }

  /** What `getStreakStatus` reports right after the step: learned today exactly when there was a previous activity. */
  lemma StatusAfterStep(u: UserRow, today: int)
    ensures StatusOf(StreakStep(u, today).row, today).learnedToday <==> u.lastActivityDate.Some?
  {
  }

  // ---------------------------------------------------------------------------
  // Several calls

  /** The user's columns after one call per day in `days`, in order. */
  function StreakRun(u: UserRow, days: seq<int>): UserRow
    decreases |days|
  {
    if days == [] then u else StreakRun(StreakStep(u, days[0]).row, days[1..])
  }

  /** The calendar days `from + 1, ..., from + k`. */
  function DaysAfter(from: int, k: nat): (r: seq<int>)
    ensures |r| == k
    decreases k
  {
    if k == 0 then [] else [from + 1] + DaysAfter(from + 1, k - 1)
  }

  /** The gems a streak earns while it grows from `start` to `start + k`. */
  function GemsEarned(start: int, k: nat): int
    decreases k
  {
    if k == 0 then 0 else TotalAmount(Bonuses(start + 1)) + GemsEarned(start + 1, k - 1)
  }

  /** A user with no recorded activity stays exactly as they are, whatever days they are active on. */
  lemma {:induction false} NoActivityNeverStartsStreak(u: UserRow, days: seq<int>)
    requires u.lastActivityDate == None
    ensures StreakRun(u, days) == u
    decreases |days|
  {
    if days != [] {
      NoActivityNeverStartsStreak(u, days[1..]);
    }
  }

  /** Activity on the day after the last one extends the streak by one and pays its bonuses. */
  lemma NextDayStep(u: UserRow)
    requires u.lastActivityDate.Some?
    ensures var next := StreakStep(u, u.lastActivityDate.value + 1).row;
      && next.currentStreak == u.currentStreak + 1
      && next.lastActivityDate == Some(u.lastActivityDate.value + 1)
      && next.totalGems == u.totalGems + TotalAmount(Bonuses(u.currentStreak + 1))
  {
    StreakReward(u, u.lastActivityDate.value + 1);
    BonusTotal(u.currentStreak + 1);
  }

  /** Activity on `k` consecutive days extends the streak by `k` and pays out every bonus on the way. */
  lemma {:induction false} ConsecutiveDays(u: UserRow, k: nat)
    requires u.lastActivityDate.Some?
    ensures var r := StreakRun(u, DaysAfter(u.lastActivityDate.value, k));
      && r.currentStreak == u.currentStreak + k
      && r.totalGems == u.totalGems + GemsEarned(u.currentStreak, k)
      && (k > 0 ==> r.lastActivityDate == Some(u.lastActivityDate.value + k))
    decreases k
  {
    if k > 0 {
      var d := u.lastActivityDate.value;
      var next := StreakStep(u, d + 1).row;
      NextDayStep(u);
      var days := DaysAfter(d, k);
      assert days[0] == d + 1 && days[1..] == DaysAfter(d + 1, k - 1);
      var r := StreakRun(next, DaysAfter(d + 1, k - 1));
      assert StreakRun(u, days) == r;
      ConsecutiveDays(next, k - 1);
      if k == 1 {
        assert r == next;
      }
      assert GemsEarned(u.currentStreak, k) == TotalAmount(Bonuses(u.currentStreak + 1)) + GemsEarned(u.currentStreak + 1, k - 1);
    }
  }

  class UsersServiceState {
    /** The users repository. */
    const users: map<int, User>

    constructor (users: map<int, User>)
      requires TableValid(users)
      ensures this.users == users && Valid()
    {
      this.users := users;
    }

    ghost predicate Valid() {
      TableValid(users)
    }

    /** `updateStats`: an update by id; an unknown id matches no row and changes nothing. */
    method UpdateStats(userId: int, stats: StatsPatch)
      requires Valid()
      modifies UserFrame(users, userId)
      ensures userId in users ==> users[userId].Row() == ApplyStats(old(users[userId].Row()), stats)
      ensures forall id :: id in users && id != userId ==> users[id].Row() == old(users[id].Row())
    {
      if userId in users {
        var user := users[userId];
        if stats.xp.Some? { user.totalXp := stats.xp.value; }
        if stats.streak.Some? { user.currentStreak := stats.streak.value; }
        if stats.gems.Some? { user.totalGems := stats.gems.value; }
      }
    }

    /** `getStreakStatus`: null for an unknown user. */
    function GetStreakStatus(userId: int, today: int): (r: Option<StreakStatus>)
      reads users.Values
      ensures r.None? <==> userId !in users
      ensures r.Some? ==> var u := users[userId];
        && r.value.currentStreak == u.currentStreak && r.value.maxStreak == u.maxStreak
        && r.value.lastActivityDate == u.lastActivityDate && r.value.totalGems == u.totalGems
        && (r.value.learnedToday <==> u.lastActivityDate == Some(today))
    {
      if userId in users then Some(StatusOf(users[userId].Row(), today)) else None
    }

    /** `updateStreakHybrid`: null for an unknown user; otherwise the step of `StreakStep`. */
    method UpdateStreakHybrid(userId: int, today: int) returns (r: Option<StreakResult>)
      requires Valid()
      modifies UserFrame(users, userId)
      ensures userId !in users ==> r == None
      ensures userId in users ==>
        var o := StreakStep(old(users[userId].Row()), today);
        users[userId].Row() == o.row && r == Some(o.result)
      ensures forall id :: id in users && id != userId ==> users[id].Row() == old(users[id].Row())
    {
      if userId !in users {
        return None;
      }
      var user := users[userId];
      var daysDiff := 0;
      if user.lastActivityDate.Some? {
        daysDiff := today - user.lastActivityDate.value;
      }
      if daysDiff == 0 {
        return Some(StreakResult(user.currentStreak, true, None));
      }
      if daysDiff > MAX_BREAK_DAYS {
        user.currentStreak := 1;
      } else {
        user.currentStreak := user.currentStreak + 1;
      }
      user.lastActivityDate := Some(today);
      user.maxStreak := Max(user.maxStreak, user.currentStreak);

      var totalReward := 0;
      var rewards: seq<Bonus> := [];
      var special := MilestoneGems(user.currentStreak);
      if special != 0 {
        totalReward := totalReward + special;
        rewards := rewards + [Bonus(SpecialMilestone(user.currentStreak), special)];
      }
      if user.currentStreak >= 7 && user.currentStreak % 7 == 0 {
        totalReward := totalReward + WEEKLY_GEMS;
        rewards := rewards + [Bonus(WeeklyBonus(user.currentStreak / 7), WEEKLY_GEMS)];
      }
      assert rewards == Bonuses(user.currentStreak);
      assert TotalAmount(rewards) == totalReward;
      var reward: Option<Reward> := None;
      if totalReward > 0 {
        user.totalGems := user.totalGems + totalReward;
        reward := Some(Reward(totalReward, user.currentStreak, rewards));
      }
      return Some(StreakResult(user.currentStreak, true, reward));
    }
  }
}
