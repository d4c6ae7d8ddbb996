/** When the next digest is due. Times are milliseconds of local time, without daylight saving shifts. */
module Schedule {

  const DAY: int := 86400000

  /** Date.prototype.getDay: 0 is Sunday. Day 0 of the epoch was a Thursday. */
  function GetDay(t: int): (d: int)
    ensures 0 <= d < 7
  {
    (t / DAY + 4) % 7
  }

  /** Weekdays follow one another day by day, from the Thursday on which the epoch began; all times of a day share
      its weekday. */
  lemma Weekdays(t: int, u: int)
    ensures GetDay(0) == 4
    ensures GetDay(t + 86400000) == if GetDay(t) == 6 then 0 else GetDay(t) + 1
    ensures t % 86400000 == 0 && t <= u < t + 86400000 ==> GetDay(u) == GetDay(t)
  {
    assert (t + DAY) / DAY == t / DAY + 1;
    if t % DAY == 0 && t <= u < t + DAY {
      assert u / DAY == t / DAY;
    }
  }

  /** Date.prototype.setHours(hour, minute, 0, 0). */
  function SetHours(t: int, hour: int, minute: int): int {
    t / DAY * DAY + OffsetOf(hour, minute)
  }

  function OffsetOf(hour: int, minute: int): int { hour * 3600000 + minute * 60000 }

  /** The configured time lies within one day. */
  predicate ClockTime(hour: int, minute: int) { 0 <= OffsetOf(hour, minute) < DAY }

  /** With a minute from 0 to 59, as the settings store it, that is a matter of the hour. */
  lemma ClockHours(hour: int, minute: int)
    requires 0 <= minute < 60
    ensures ClockTime(hour, minute) <==> 0 <= hour < 24
  {
  }

  /** A point in time at which a digest is due: the right time of day on an allowed weekday. */
  predicate Slot(t: int, hour: int, minute: int, days: seq<int>) {
    t % DAY == OffsetOf(hour, minute) % DAY && GetDay(t) in days
  }

  lemma SlotMeans(t: int, hour: int, minute: int, days: seq<int>)
    requires 0 <= hour < 24 && 0 <= minute < 60
    ensures Slot(t, hour, minute, days) <==> t % 86400000 == hour * 3600000 + minute * 60000 && GetDay(t) in days
  {
  }

  /** `ms` from now is the next slot. */
  ghost predicate Earliest(now: int, ms: int, hour: int, minute: int, days: seq<int>) {
    && ms > 0
    && Slot(now + ms, hour, minute, days)
    && forall t :: now < t < now + ms ==> !Slot(t, hour, minute, days)
  }

  predicate NamesAWeekday(days: seq<int>) { exists d :: 0 <= d < 7 && d in days }

  /** The slot of the k-th day from now. */
  function Candidate(now: int, hour: int, minute: int, k: int): int { SetHours(now, hour, minute) + k * DAY }

  lemma CandidateIs(now: int, hour: int, minute: int, k: int)
    requires ClockTime(hour, minute)
    ensures var c := Candidate(now, hour, minute, k);
            && c % DAY == OffsetOf(hour, minute) == OffsetOf(hour, minute) % DAY
            && c / DAY == now / DAY + k
            && SetHours(c, hour, minute) == c
  {
  }

  /** Between two consecutive candidates no time has the right time of day. */
  lemma NothingBetween(now: int, hour: int, minute: int, k: int, t: int)
    requires ClockTime(hour, minute)
    requires Candidate(now, hour, minute, k) < t < Candidate(now, hour, minute, k + 1)
    ensures t % DAY != OffsetOf(hour, minute) % DAY
  {
    var c := Candidate(now, hour, minute, k);
    CandidateIs(now, hour, minute, k);
    assert t - c == (t / DAY - c / DAY) * DAY + t % DAY - c % DAY;
  }

  /** The first candidate after a week has the weekday of today's. */
  lemma WeekRepeats(now: int, hour: int, minute: int)
    requires ClockTime(hour, minute)
    ensures GetDay(Candidate(now, hour, minute, 7)) == GetDay(Candidate(now, hour, minute, 0))
  {
    CandidateIs(now, hour, minute, 0);
    CandidateIs(now, hour, minute, 7);
  }

  /** Any seven days in a row include every weekday. */
  lemma WeekCovers(now: int, hour: int, minute: int, d: int) returns (k: int)
    requires ClockTime(hour, minute) && 0 <= d < 7
    ensures 1 <= k <= 7 && GetDay(Candidate(now, hour, minute, k)) == d
  {
    var days := now / DAY + 4;
    var today, weeks := days % 7, days / 7;
    k := if d > today then d - today else d - today + 7;
    CandidateIs(now, hour, minute, k);
    Remainder(days + k, if d > today then weeks else weeks + 1, d);
  }

  lemma Remainder(x: int, q: int, d: int)
    requires x == 7 * q + d && 0 <= d < 7
    ensures x % 7 == d
  {
  }

  /** A weekday that is skipped by eight candidates in a row is not allowed. */
  lemma EightSuffice(now: int, hour: int, minute: int, days: seq<int>)
    requires ClockTime(hour, minute)
    requires forall k :: 1 <= k < 8 ==> GetDay(Candidate(now, hour, minute, k)) !in days
    ensures !NamesAWeekday(days)
  {
    if NamesAWeekday(days) {
      var d :| 0 <= d < 7 && d in days;
      var k := WeekCovers(now, hour, minute, d);
    }
  }

  /** The search from a candidate on, with so many turns left. */
  function Search(candidate: int, now: int, hour: int, minute: int, days: seq<int>, turns: nat): int
    decreases turns
  {
    if turns == 0 then DAY
    else if candidate > now && GetDay(candidate) in days then candidate - now
    else Search(SetHours(candidate + DAY, hour, minute), now, hour, minute, days, turns - 1)
  }

  function NextDigest(now: int, hour: int, minute: int, days: seq<int>): int {
    Search(SetHours(now, hour, minute), now, hour, minute, days, 8)
  }

  method MsUntilNextDigest(now: int, hour: int, minute: int, days: seq<int>) returns (ms: int)
    ensures ms == NextDigest(now, hour, minute, days)
    ensures ClockTime(hour, minute) && NamesAWeekday(days) ==> Earliest(now, ms, hour, minute, days) && ms <= 7 * DAY
    ensures !NamesAWeekday(days) ==> ms == DAY && forall t :: !Slot(t, hour, minute, days)
  {
    hide SetHours, OffsetOf;
    if ClockTime(hour, minute) && NamesAWeekday(days) {
      NextDigestIsEarliest(now, hour, minute, days);
    }
    if !NamesAWeekday(days) {
      NoWeekday(SetHours(now, hour, minute), now, hour, minute, days, 8);
    }
    var candidate := SetHours(now, hour, minute);
    for i := 0 to 8
      invariant Search(candidate, now, hour, minute, days, 8 - i) == NextDigest(now, hour, minute, days)
    {
      if candidate > now && GetDay(candidate) in days {
        return candidate - now;
      }
      candidate := candidate + DAY;
      candidate := SetHours(candidate, hour, minute);
    }
    return DAY;
  }

  lemma {:induction false} NoWeekday(candidate: int, now: int, hour: int, minute: int, days: seq<int>, turns: nat)
    requires !NamesAWeekday(days)
    ensures Search(candidate, now, hour, minute, days, turns) == DAY
    ensures forall t :: !Slot(t, hour, minute, days)
    decreases turns
  {
    hide SetHours, OffsetOf;
    if turns == 0 {
      assert Search(candidate, now, hour, minute, days, turns) == DAY;
    } else {
      NoWeekday(SetHours(candidate + DAY, hour, minute), now, hour, minute, days, turns - 1);
    }
  }

  /** The search at the i-th candidate, when no time before it is a slot. */
  lemma {:induction false} SearchFinds(now: int, hour: int, minute: int, days: seq<int>, i: nat)
    requires ClockTime(hour, minute) && NamesAWeekday(days) && i <= 8
    requires forall t :: now < t < Candidate(now, hour, minute, i) ==> !Slot(t, hour, minute, days)
    requires forall k :: 0 <= k < i ==>
               Candidate(now, hour, minute, k) <= now || GetDay(Candidate(now, hour, minute, k)) !in days
    ensures var ms := Search(Candidate(now, hour, minute, i), now, hour, minute, days, 8 - i);
            Earliest(now, ms, hour, minute, days) && ms <= 7 * DAY
    decreases 8 - i
  {
    hide Candidate, SetHours, OffsetOf;
    var candidate := Candidate(now, hour, minute, i);
    if i == 8 {
      forall k | 1 <= k < 8 ensures GetDay(Candidate(now, hour, minute, k)) !in days {
        Later(now, hour, minute, k);
      }
      EightSuffice(now, hour, minute, days);
    } else {
      CandidateIs(now, hour, minute, i);
      if candidate > now && GetDay(candidate) in days {
        WithinAWeek(now, hour, minute, i, days);
      } else {
        forall t | now < t < Candidate(now, hour, minute, i + 1) ensures !Slot(t, hour, minute, days) {
          if t > candidate {
            NothingBetween(now, hour, minute, i, t);
          }
        }
        NextDay(now, hour, minute, i);
        CandidateIs(now, hour, minute, i + 1);
        SearchFinds(now, hour, minute, days, i + 1);
      }
    }
  }

  lemma NextDigestIsEarliest(now: int, hour: int, minute: int, days: seq<int>)
    requires ClockTime(hour, minute) && NamesAWeekday(days)
    ensures Earliest(now, NextDigest(now, hour, minute, days), hour, minute, days)
    ensures NextDigest(now, hour, minute, days) <= 7 * DAY
  {
    hide Candidate, SetHours, OffsetOf;
    Start(now, hour, minute);
    SearchFinds(now, hour, minute, days, 0);
  }

  lemma Start(now: int, hour: int, minute: int)
    requires ClockTime(hour, minute)
    ensures Candidate(now, hour, minute, 0) == SetHours(now, hour, minute)
    ensures forall t :: now < t < SetHours(now, hour, minute) ==> t % DAY != OffsetOf(hour, minute) % DAY
  {
    forall t | now < t < SetHours(now, hour, minute) ensures t % DAY != OffsetOf(hour, minute) % DAY {
      NothingBetween(now, hour, minute, -1, t);
    }
  }

  lemma NextDay(now: int, hour: int, minute: int, k: int)
    ensures Candidate(now, hour, minute, k + 1) == Candidate(now, hour, minute, k) + DAY
  {
  }

  lemma Later(now: int, hour: int, minute: int, k: int)
    requires ClockTime(hour, minute) && k >= 1
    ensures Candidate(now, hour, minute, k) > now
  {
  }

  /** A candidate that is the first in the future on an allowed weekday lies at most a week ahead. */
  lemma WithinAWeek(now: int, hour: int, minute: int, i: int, days: seq<int>)
    requires ClockTime(hour, minute) && 0 <= i < 8 && GetDay(Candidate(now, hour, minute, i)) in days
    requires forall k :: 0 <= k < i ==>
               Candidate(now, hour, minute, k) <= now || GetDay(Candidate(now, hour, minute, k)) !in days
    ensures Candidate(now, hour, minute, i) - now <= 7 * DAY
  {
    if i == 7 {
      WeekRepeats(now, hour, minute);
      assert Candidate(now, hour, minute, 0) <= now;
    }
  }

  // --- times outside one day ---

  const ALL_DAYS: seq<int> := [0, 1, 2, 3, 4, 5, 6]

  lemma EveryDay(t: int)
    ensures GetDay(t) in ALL_DAYS && NamesAWeekday(ALL_DAYS)
  {
    assert ALL_DAYS[GetDay(t)] == GetDay(t);
    assert 0 in ALL_DAYS;
  }

  /** A time of a day or more is first tried on a later day, although today's or tomorrow's comes sooner. */
  lemma LateTimes(hour: int, minute: int)
    requires OffsetOf(hour, minute) > DAY
    ensures !Earliest(0, NextDigest(0, hour, minute, ALL_DAYS), hour, minute, ALL_DAYS)
  {
    var offset := OffsetOf(hour, minute);
    hide OffsetOf;
    EveryDay(offset);
    assert NextDigest(0, hour, minute, ALL_DAYS) == offset;
    var t := if offset % DAY > 0 then offset % DAY else DAY;
    EveryDay(t);
    assert 0 < t < offset && Slot(t, hour, minute, ALL_DAYS);
    Missed(0, offset, t, hour, minute, ALL_DAYS);
  }

  /** A time of exactly one day advances by two days a turn, and passes over the Saturday after next midnight. */
  lemma Midnight(hour: int, minute: int)
    requires OffsetOf(hour, minute) == DAY
    ensures !Earliest(0, NextDigest(0, hour, minute, [6]), hour, minute, [6]) && NamesAWeekday([6])
  {
    hide OffsetOf, SetHours, Search, Slot, GetDay, Earliest;
    MidnightTurn(1, hour, minute, 8);
    MidnightTurn(3, hour, minute, 7);
    MidnightTurn(5, hour, minute, 6);
    MidnightTurn(7, hour, minute, 5);
    MidnightTurn(9, hour, minute, 4);
    WholeDays(2);
    MidnightSlot(hour, minute);
    assert NextDigest(0, hour, minute, [6]) == 9 * DAY;
    Missed(0, 9 * DAY, 2 * DAY, hour, minute, [6]);
    assert 6 in [6];
  }

  lemma MidnightSlot(hour: int, minute: int)
    requires OffsetOf(hour, minute) == DAY
    ensures Slot(2 * DAY, hour, minute, [6]) && SetHours(0, hour, minute) == 1 * DAY
  {
    hide OffsetOf;
  }

  lemma Missed(now: int, ms: int, t: int, hour: int, minute: int, days: seq<int>)
    requires now < t < now + ms && Slot(t, hour, minute, days)
    ensures !Earliest(now, ms, hour, minute, days)
  {
  }

  lemma NoSlot(now: int, ms: int, hour: int, minute: int, days: seq<int>)
    requires (now + ms) % DAY != OffsetOf(hour, minute) % DAY
    ensures !Earliest(now, ms, hour, minute, days)
  {
  }

  lemma MidnightTurn(d: nat, hour: int, minute: int, turns: nat)
    requires OffsetOf(hour, minute) == DAY && d > 0 && turns > 0
    ensures Search(d * DAY, 0, hour, minute, [6], turns)
         == if (d + 4) % 7 == 6 then d * DAY else Search((d + 2) * DAY, 0, hour, minute, [6], turns - 1)
  {
    hide OffsetOf;
    WholeDays(d);
    WholeDays(d + 1);
    assert d * DAY + DAY == (d + 1) * DAY;
    assert SetHours((d + 1) * DAY, hour, minute) == (d + 2) * DAY;
  }

  lemma WholeDays(d: int)
    ensures d * DAY / DAY == d && GetDay(d * DAY) == (d + 4) % 7
  {
  }

  /** A negative time never leaves the past. */
  lemma {:induction false} NeverFuture(candidate: int, now: int, hour: int, minute: int, days: seq<int>, turns: nat)
    requires OffsetOf(hour, minute) < 0 && candidate < now / DAY * DAY
    ensures Search(candidate, now, hour, minute, days, turns) == DAY
    decreases turns
  {
    hide OffsetOf;
    if turns == 0 {
      assert Search(candidate, now, hour, minute, days, turns) == DAY;
    } else {
      NextStillPast(candidate, now, hour, minute);
      NeverFuture(SetHours(candidate + DAY, hour, minute), now, hour, minute, days, turns - 1);
    }
  }

  lemma NextStillPast(candidate: int, now: int, hour: int, minute: int)
    requires OffsetOf(hour, minute) < 0 && candidate < now / DAY * DAY
    ensures candidate <= now && SetHours(candidate + DAY, hour, minute) < now / DAY * DAY
  {
    hide OffsetOf;
    assert candidate / DAY < now / DAY;
    assert (candidate + DAY) / DAY == candidate / DAY + 1;
  }

  lemma NegativeTimes(hour: int, minute: int)
    requires OffsetOf(hour, minute) < 0
    ensures exists now :: !Earliest(now, NextDigest(now, hour, minute, ALL_DAYS), hour, minute, ALL_DAYS)
  {
    hide OffsetOf, SetHours, Search, Earliest;
    var now := OffTime(hour, minute);
    NeverFuture(SetHours(now, hour, minute), now, hour, minute, ALL_DAYS, 8);
    NoSlot(now, DAY, hour, minute, ALL_DAYS);
    assert !Earliest(now, NextDigest(now, hour, minute, ALL_DAYS), hour, minute, ALL_DAYS);
  }

  /** A time early on day 0 that has not the configured time of day. */
  lemma OffTime(hour: int, minute: int) returns (now: int)
    requires OffsetOf(hour, minute) < 0
    ensures SetHours(now, hour, minute) < now / DAY * DAY
    ensures (now + DAY) % DAY != OffsetOf(hour, minute) % DAY
  {
    hide OffsetOf;
    now := if OffsetOf(hour, minute) % DAY == 0 then 1 else 0;
    assert now / DAY == 0 && (now + DAY) % DAY == now;
  }

  /** The search finds the next slot at all times and for all weekdays exactly if the configured time lies
      within one day. */
  lemma EarliestExactly(hour: int, minute: int)
    ensures (forall now, days :: NamesAWeekday(days) ==> Earliest(now, NextDigest(now, hour, minute, days), hour, minute, days))
            <==> ClockTime(hour, minute)
  {
    hide NextDigest, Earliest;
    EveryDay(0);
    if ClockTime(hour, minute) {
      forall now, days | NamesAWeekday(days) ensures Earliest(now, NextDigest(now, hour, minute, days), hour, minute, days) {
        NextDigestIsEarliest(now, hour, minute, days);
      }
    } else if OffsetOf(hour, minute) < 0 {
      NegativeTimes(hour, minute);
    } else if OffsetOf(hour, minute) == DAY {
      Midnight(hour, minute);
    } else {
      LateTimes(hour, minute);
    }
  }
}
