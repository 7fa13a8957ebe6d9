/** Names of the rows in the token usage table (`token_usage.rs`, `token_reservation.rs`). */
module UsageWindows {
  import opened Prelude

  const DAY_SECONDS: nat := 86_400
  const WEEK_SECONDS: nat := DAY_SECONDS * 7
  const MONDAY_OFFSET_SECONDS: nat := DAY_SECONDS * 3

  /** A number attribute as the table stores it. */
  function NumberText(n: int): string {
    if n < 0 then "-" + Decimal(-n) else Decimal(n)
  }

  /** `parse::<u64>`, on texts that `to_string` can produce. */
  function ParseU64(s: string): Option<u64> {
    match ParseDecimal(s)
    case None => None
    case Some(n) => if n <= U64_MAX then Some(n) else None
  }

  lemma {:induction false} NonDigitsDoNotParse(s: string)
    requires s != [] && !('0' <= s[0] <= '9')
    ensures ParseDecimal(s) == None
    decreases |s|
  {
    if |s| > 1 {
      NonDigitsDoNotParse(s[..|s| - 1]);
    }
  }

  /** `token_count_from_attribute` rejects a stored count exactly when it does not fit a `u64`. */
  lemma CountReadsBack(n: int)
    ensures ParseU64(NumberText(n)) == if 0 <= n <= U64_MAX then Some(n) else None
  {
    if n < 0 {
      NonDigitsDoNotParse(NumberText(n));
    } else {
      DecimalRoundTrip(n);
    }
  }

  // Sort keys

  function DayOf(now: u64): nat {
    now / DAY_SECONDS
  }

  function WeekOf(now: u64): nat {
    SaturatingAdd(now, MONDAY_OFFSET_SECONDS) / WEEK_SECONDS
  }

  function DayKey(day: nat): string {
    "daily#" + Decimal(day)
  }

  function WeekKey(week: nat): string {
    "weekly#" + Decimal(week)
  }

  function DailyWindow(now: u64): string {
    DayKey(DayOf(now))
  }

  function WeeklyWindow(now: u64): string {
    WeekKey(WeekOf(now))
  }

  function ReservationWindow(id: string): string {
    "reservation#" + id
  }

  function MarkerWindow(id: string): string {
    "reconciliation#" + id
  }

  predicate IsUsageWindow(sort: string) {
    "daily#" <= sort || "weekly#" <= sort
  }

  predicate IsReservationWindow(sort: string) {
    "reservation#" <= sort
  }

  predicate IsMarkerWindow(sort: string) {
    "reconciliation#" <= sort
  }

  /** The four key families never meet, whatever ids and numbers follow the prefixes. */
  lemma KeyFamiliesAreDisjoint(now: u64, later: u64, id: string, job: string)
    ensures IsUsageWindow(DailyWindow(now)) && IsUsageWindow(WeeklyWindow(now))
    ensures DailyWindow(now) != WeeklyWindow(later)
    ensures !IsReservationWindow(DailyWindow(now)) && !IsMarkerWindow(DailyWindow(now))
    ensures !IsReservationWindow(WeeklyWindow(now)) && !IsMarkerWindow(WeeklyWindow(now))
    ensures !IsUsageWindow(ReservationWindow(id)) && !IsUsageWindow(MarkerWindow(job))
    ensures ReservationWindow(id) != MarkerWindow(job)
    ensures IsReservationWindow(ReservationWindow(id)) && !IsMarkerWindow(ReservationWindow(id))
    ensures IsMarkerWindow(MarkerWindow(job)) && !IsReservationWindow(MarkerWindow(job))
  {
    assert DailyWindow(now)[0] == 'd' && WeeklyWindow(now)[0] == 'w' && WeeklyWindow(later)[0] == 'w';
    assert ReservationWindow(id)[0] == 'r' && MarkerWindow(job)[0] == 'r';
    assert ReservationWindow(id)[2] == 's' && MarkerWindow(job)[2] == 'c';
    assert "daily#"[0] == 'd' && "weekly#"[0] == 'w' && "reservation#"[2] == 's' && "reconciliation#"[2] == 'c';
    assert "reservation#"[0] == 'r' && "reconciliation#"[0] == 'r';
  }

  /** No sort key belongs to two families. */
  lemma FamiliesExclude(sort: string)
    ensures !(IsUsageWindow(sort) && IsReservationWindow(sort))
    ensures !(IsUsageWindow(sort) && IsMarkerWindow(sort))
    ensures !(IsReservationWindow(sort) && IsMarkerWindow(sort))
  {
    assert "daily#"[0] == 'd' && "weekly#"[0] == 'w' && "reservation#"[0] == 'r' && "reconciliation#"[0] == 'r';
    assert "reservation#"[2] == 's' && "reconciliation#"[2] == 'c';
  }

  lemma DayKeysAreDistinct(a: nat, b: nat)
    requires DayKey(a) == DayKey(b)
    ensures a == b
  {
    assert DayKey(a)[6..] == Decimal(a) && DayKey(b)[6..] == Decimal(b);
    DecimalInjective(a, b);
  }

  lemma WeekKeysAreDistinct(a: nat, b: nat)
    requires WeekKey(a) == WeekKey(b)
    ensures a == b
  {
    assert WeekKey(a)[7..] == Decimal(a) && WeekKey(b)[7..] == Decimal(b);
    DecimalInjective(a, b);
  }

  /** Days nest in Monday-aligned weeks for every `u64` instant. The saturating addition never
      moves an instant to another week: the last representable day is a multiple of seven. */
  lemma DaysNestInWeeks(now: u64)
    ensures WeekOf(now) == (DayOf(now) + 3) / 7
  {
    if now + MONDAY_OFFSET_SECONDS > U64_MAX {
      assert U64_MAX / WEEK_SECONDS == 30500568904943;
      assert 213503982334598 <= DayOf(now) <= 213503982334601;
    } else {
      var day, rest := now / DAY_SECONDS, now % DAY_SECONDS;
      assert now + MONDAY_OFFSET_SECONDS == (day + 3) * DAY_SECONDS + rest;
      var week, offset := (day + 3) / 7, (day + 3) % 7;
      assert now + MONDAY_OFFSET_SECONDS == week * WEEK_SECONDS + (offset * DAY_SECONDS + rest);
    }
  }

  function DailyWindowStart(now: u64): u64 {
    now - now % DAY_SECONDS
  }

  function WeeklyWindowStart(now: u64): u64 {
    var aligned := SaturatingAdd(now, MONDAY_OFFSET_SECONDS);
    Max(aligned - aligned % WEEK_SECONDS - MONDAY_OFFSET_SECONDS, 0)
  }

  /** A window's start lies in that window, at or before the instant, and less than one window
      length before it. */
  lemma WindowStartsBelongToTheirWindow(now: u64)
    ensures DailyWindowStart(now) <= now < DailyWindowStart(now) + DAY_SECONDS
    ensures DayOf(DailyWindowStart(now)) == DayOf(now)
    ensures WeeklyWindowStart(now) <= now < WeeklyWindowStart(now) + WEEK_SECONDS
    ensures WeekOf(WeeklyWindowStart(now)) == WeekOf(now)
  {
    var day := now / DAY_SECONDS;
    assert DailyWindowStart(now) == day * DAY_SECONDS;
    var aligned := SaturatingAdd(now, MONDAY_OFFSET_SECONDS);
    var week := aligned / WEEK_SECONDS;
    assert aligned - aligned % WEEK_SECONDS == week * WEEK_SECONDS;
    if week == 0 {
      assert WeeklyWindowStart(now) == 0;
    } else {
      assert WeeklyWindowStart(now) + MONDAY_OFFSET_SECONDS == week * WEEK_SECONDS;
      if now + MONDAY_OFFSET_SECONDS > U64_MAX {
        assert U64_MAX / WEEK_SECONDS == 30500568904943;
      }
    }
  }
}
