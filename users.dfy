/**
 * The `users` table as the game server uses it: point awards with the NFT
 * multiplier and the one-level referral bonus, and the daily check-in
 * streak. Days are whole day numbers; point totals are exact reals.
 */
module Users {
  import opened Wrappers

  datatype User = User(points: real, hasNft: bool, referrer: Option<string>, lastCheckinDay: int, streak: int)

  /** JavaScript truthiness of a nullable string: `null` and `""` are false. */
  predicate Truthy(s: Option<string>)
  {
    s.Some? && s.value != ""
  }

  function Multiplier(u: User): real
  {
    if u.hasNft then 2.0 else 1.0
  }

  /**
   * The rows after `addPoints(address, base)`: the user's own update, then
   * the referrer's. An update of a row that does not exist changes nothing.
   */
  function Credited(rows: map<string, User>, address: string, base: real): (r: map<string, User>)
    ensures r.Keys == rows.Keys
    ensures address !in rows ==> r == rows
    ensures address in rows ==>
              var amount := base * Multiplier(rows[address]);
              var up := rows[address].referrer;
              forall a :: a in rows ==>
                r[a] == rows[a].(points := rows[a].points
                                          + (if a == address then amount else 0.0)
                                          + (if Truthy(up) && up.value == a then amount * 0.5 else 0.0))
  {
    if address !in rows then rows
    else
      var u := rows[address];
      var amount := base * Multiplier(u);
      var afterOwn := rows[address := u.(points := u.points + amount)];
      if Truthy(u.referrer) && u.referrer.value in afterOwn then
        var up := u.referrer.value;
        afterOwn[up := afterOwn[up].(points := afterOwn[up].points + amount * 0.5)]
      else afterOwn
  }

  /** The streak bonus paid on top of the daily point. */
  function StreakBonus(streak: int): int
  {
    if streak == 7 then 7 else if streak == 30 then 30 else 0
  }

  datatype Checkin = AlreadyCheckedIn | CheckedIn(user: User, pointsAdded: int, streak: int, streakBonus: int)

  /**
   * One check-in of `u` on day `today`. A second one on the same day is
   * refused. Otherwise the streak grows by one when the last check-in was
   * the day before and restarts at 1 in every other case; the user gains one
   * point plus 7 on reaching streak 7 and 30 on reaching streak 30.
   */
  function CheckinOn(u: User, today: int): (c: Checkin)
    ensures c.AlreadyCheckedIn? <==> u.lastCheckinDay == today
    ensures c.CheckedIn? ==>
              && c.streak == (if today == u.lastCheckinDay + 1 then u.streak + 1 else 1)
              && c.pointsAdded == 1 + c.streakBonus
              && (c.streakBonus == 7 <==> c.streak == 7)
              && (c.streakBonus == 30 <==> c.streak == 30)
              && (c.streakBonus == 0 <==> c.streak != 7 && c.streak != 30)
              && c.user == u.(points := u.points + c.pointsAdded as real, lastCheckinDay := today, streak := c.streak)
  {
    if u.lastCheckinDay == today then AlreadyCheckedIn
    else
      var newStreak := if today - u.lastCheckinDay == 1 then u.streak + 1 else 1;
      var bonus := StreakBonus(newStreak);
      var total := 1 + bonus;
      CheckedIn(u.(points := u.points + total as real, lastCheckinDay := today, streak := newStreak), total, newStreak, bonus)
  }

  /** The check-in handler's `oneDay`, in milliseconds. */
  const OneDayMillis: int := 24 * 60 * 60 * 1000

  /**
   * The instant, in UTC milliseconds, of the local midnight that starts day
   * `day` in a zone running `offset` milliseconds ahead of UTC on that day
   * (what `new Date(t).setHours(0, 0, 0, 0)` yields).
   */
  function LocalMidnight(day: int, offset: int): (t: int)
    ensures t + offset == day * OneDayMillis
  {
    day * OneDayMillis - offset
  }

  /**
   * The streak step as the handler writes it: the streak grows only when the
   * two local midnights are exactly 24 hours apart.
   */
  function StreakAsWritten(lastMidnight: int, todayMidnight: int, streak: int): (s: int)
    ensures s == streak + 1 || s == 1
    ensures todayMidnight - lastMidnight == OneDayMillis ==> s == streak + 1
    ensures todayMidnight - lastMidnight != OneDayMillis ==> s == 1
  {
    if todayMidnight - lastMidnight == OneDayMillis then streak + 1 else 1
  }

  /**
   * In a zone whose offset stays fixed, local midnights are whole days apart,
   * so the handler's streak step agrees with the day-number rule.
   */
  lemma FixedOffsetAgreesWithDays(u: User, today: int, offset: int)
    requires u.lastCheckinDay != today
    ensures StreakAsWritten(LocalMidnight(u.lastCheckinDay, offset), LocalMidnight(today, offset), u.streak)
            == CheckinOn(u, today).streak
  {
    assert LocalMidnight(today, offset) - LocalMidnight(u.lastCheckinDay, offset)
           == (today - u.lastCheckinDay) * OneDayMillis;
  }

  /**
   * When the clocks go forward one hour overnight, the local midnights of
   * two consecutive days are 23 hours apart, so the handler restarts the
   * streak of a user who checked in on both days, where the day-number rule
   * extends it.
   */
  lemma DaylightSavingResetsStreak(u: User, day: int, offset: int)
    requires u.lastCheckinDay == day && u.streak >= 1
    ensures StreakAsWritten(LocalMidnight(day, offset), LocalMidnight(day + 1, offset + 3600000), u.streak) == 1
    ensures CheckinOn(u, day + 1).CheckedIn? && CheckinOn(u, day + 1).streak == u.streak + 1
  {
    assert LocalMidnight(day + 1, offset + 3600000) - LocalMidnight(day, offset) == OneDayMillis - 3600000;
  }

  /** A check-in that was accepted cannot be repeated the same day. */
  lemma CheckinOncePerDay(u: User, today: int)
    requires CheckinOn(u, today).CheckedIn?
    ensures CheckinOn(CheckinOn(u, today).user, today).AlreadyCheckedIn?
  {
  }

  /** The user after checking in on `k` consecutive days starting with day `first`. */
  function DailyRun(u: User, first: int, k: nat): User
  {
    if k == 0 then u
    else
      var before := DailyRun(u, first, k - 1);
      match CheckinOn(before, first + k - 1)
      case CheckedIn(after, _, _, _) => after
      case AlreadyCheckedIn => before
  }

  /** Points earned by a streak built from 1 up to `k`. */
  function RunPoints(k: nat): int
  {
    k + (if k >= 7 then 7 else 0) + (if k >= 30 then 30 else 0)
  }

  /**
   * Checking in on `k` consecutive days after a break builds the streak up
   * to `k` and pays one point a day plus each streak bonus once.
   */
  lemma {:induction false} ConsecutiveCheckins(u: User, first: int, k: nat)
    requires u.lastCheckinDay != first && u.lastCheckinDay != first - 1
    requires k > 0
    ensures DailyRun(u, first, k).streak == k
    ensures DailyRun(u, first, k).lastCheckinDay == first + k - 1
    ensures DailyRun(u, first, k).points == u.points + RunPoints(k) as real
  {
    if k > 1 {
      ConsecutiveCheckins(u, first, k - 1);
      var before := DailyRun(u, first, k - 1);
      assert CheckinOn(before, first + k - 1).CheckedIn?;
    }
  }

  /** The `users` rows the game server reads and updates. */
  class UserTable {
    var rows: map<string, User>

    constructor (initial: map<string, User>)
      ensures rows == initial
    {
      rows := initial;
    }

    /**
     * `addPoints(address, basePoints)`: nothing for an unknown user;
     * otherwise base times the NFT multiplier to the user and half of that
     * to a truthy referrer, one level only.
     */
    method AddPoints(address: string, basePoints: real)
      modifies this
      ensures rows == Credited(old(rows), address, basePoints)
    {
      if address !in rows { return; }
      var user := rows[address];
      var multiplier := if user.hasNft then 2.0 else 1.0;
      var pointsToAdd := basePoints * multiplier;
      rows := rows[address := rows[address].(points := rows[address].points + pointsToAdd)];
      if Truthy(user.referrer) {
        var referralBonus := pointsToAdd * 0.5;
        if user.referrer.value in rows {
          var up := user.referrer.value;
          rows := rows[up := rows[up].(points := rows[up].points + referralBonus)];
        }
      }
    }

    /** `POST /api/user/checkin` for `address` on day `today`. */
    method CheckIn(address: string, today: int) returns (reply: Option<Checkin>)
      modifies this
      ensures address !in old(rows) ==> reply == None && rows == old(rows)
      ensures address in old(rows) ==> reply == Some(CheckinOn(old(rows)[address], today))
      ensures address in old(rows) && reply.value.AlreadyCheckedIn? ==> rows == old(rows)
      ensures address in old(rows) && reply.value.CheckedIn? ==> rows == old(rows)[address := reply.value.user]
    {
      if address !in rows {
        return None;
      }
      var user := rows[address];
      if user.lastCheckinDay == today {
        return Some(AlreadyCheckedIn);
      }
      var newStreak := 1;
      if today - user.lastCheckinDay == 1 {
        newStreak := user.streak + 1;
      }
      var bonusPoints := 1;
      var streakBonus := 0;
      if newStreak == 7 {
        streakBonus := 7;
      } else if newStreak == 30 {
        streakBonus := 30;
      }
      var totalPoints := bonusPoints + streakBonus;
      var updated := user.(points := user.points + totalPoints as real, lastCheckinDay := today, streak := newStreak);
      rows := rows[address := updated];
      return Some(CheckedIn(updated, totalPoints, newStreak, streakBonus));
    }
  }
}
