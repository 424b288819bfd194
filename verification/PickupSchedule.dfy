/** Pickup slots: the list that is advertised for a date and the check that a chosen instant must pass.
    Instants are milliseconds since the epoch in UTC; Vietnam is seven hours ahead all year. */
module PickupSchedule {

  const MINUTE_MS := 60_000
  const DAY_MS := 24 * 60 * 60 * 1_000
  const OFFSET_MS := 7 * 60 * 60 * 1_000

  datatype Schedule = Schedule(capacity: nat, openMinute: nat, closeMinute: nat, leadMinutes: nat, daysAhead: nat)

  /** What the environment check demands of the opening hours. */
  predicate Aligned(s: Schedule) {
    s.openMinute % 15 == 0 && s.closeMinute % 15 == 0 && s.openMinute < s.closeMinute < 1_440
  }

  /** The clock of the instant in UTC, as the date library reads it. */
  function UtcHours(t: int): nat { t / (60 * MINUTE_MS) % 24 }
  function UtcMinutes(t: int): nat { t / MINUTE_MS % 60 }
  function UtcSeconds(t: int): nat { t / 1_000 % 60 }
  function UtcMilliseconds(t: int): nat { t % 1_000 }

  function LocalMinute(t: int): nat { (UtcHours(t) * 60 + UtcMinutes(t) + 420) % 1_440 }

  /** `assertPickupAt` accepts the instant. */
  predicate Accepts(t: int, s: Schedule, now: int) {
    && t >= now + s.leadMinutes * MINUTE_MS && t <= now + s.daysAhead * DAY_MS
    && s.openMinute <= LocalMinute(t) < s.closeMinute && LocalMinute(t) % 15 == 0
    && UtcSeconds(t) == 0 && UtcMilliseconds(t) == 0
  }

  /** The day in Vietnam, counted from the epoch. */
  function VietnamDay(t: int): int { (t + OFFSET_MS) / DAY_MS }

  function LocalMidnight(day: int): int { day * DAY_MS - OFFSET_MS }

  /** No multiple lies strictly between zero and one time. */
  lemma Multiple(k: int, d: nat)
    ensures (k >= 1 ==> k * d >= d) && (k <= -1 ==> k * d <= 0 - d)
  {
    if k >= 1 {
      assert (k - 1) * d >= 0;
    } else if k <= -1 {
      assert (0 - k - 1) * d >= 0;
    }
  }

  lemma Distribute(a: int, b: int, d: int)
    ensures (a - b) * d == a * d - b * d
  {
  }

  /** Division with remainder, as a unique representation. */
  lemma QuotientIs(x: int, d: nat, q: int, r: nat)
    requires d > 0 && r < d && x == q * d + r
    ensures x / d == q && x % d == r
  {
    var k, m := x / d, x % d;
    assert x == k * d + m;
    Distribute(k, q, d);
    Multiple(k - q, d);
  }

  lemma MinuteOfDay(minutes: int)
    ensures minutes / 60 % 24 * 60 + minutes % 60 == minutes % 1_440
  {
    var hours := minutes / 60;
    QuotientIs(minutes, 1_440, hours / 24, hours % 24 * 60 + minutes % 60);
  }

  /** What the clock of a whole minute reads. */
  lemma ClockOfMinute(t: int, minutes: int)
    requires t == minutes * MINUTE_MS
    ensures UtcSeconds(t) == 0 && UtcMilliseconds(t) == 0 && t / MINUTE_MS == minutes
    ensures UtcHours(t) * 60 + UtcMinutes(t) == minutes % 1_440
  {
    QuotientIs(t, MINUTE_MS, minutes, 0);
    QuotientIs(t, 1_000, 60 * minutes, 0);
    QuotientIs(60 * minutes, 60, minutes, 0);
    QuotientIs(t, 60 * MINUTE_MS, minutes / 60, minutes % 60 * MINUTE_MS);
    MinuteOfDay(minutes);
  }

  lemma LocalMinuteOf(t: int, minutes: int, day: int, minute: nat)
    requires t == minutes * MINUTE_MS && minutes + 420 == day * 1_440 + minute && minute < 1_440
    ensures LocalMinute(t) == minute
  {
    ClockOfMinute(t, minutes);
    var m := minutes % 1_440;
    hide UtcHours, UtcMinutes;
    assert minutes == minutes / 1_440 * 1_440 + m;
    QuotientIs(m + 420, 1_440, day - minutes / 1_440, minute);
  }

  /** An instant is its Vietnamese day and minute, if it is a whole minute. */
  lemma InstantOfMinute(day: int, minute: nat, t: int)
    requires minute < 1_440 && t == LocalMidnight(day) + minute * MINUTE_MS
    ensures VietnamDay(t) == day && LocalMinute(t) == minute && UtcSeconds(t) == 0 && UtcMilliseconds(t) == 0
  {
    hide LocalMinute, UtcSeconds, UtcMilliseconds;
    var minutes := day * 1_440 - 420 + minute;
    assert t == minutes * MINUTE_MS;
    ClockOfMinute(t, minutes);
    LocalMinuteOf(t, minutes, day, minute);
    QuotientIs(t + OFFSET_MS, DAY_MS, day, minute * MINUTE_MS);
  }

  lemma WholeMinute(t: int)
    requires UtcSeconds(t) == 0 && UtcMilliseconds(t) == 0
    ensures t == t / MINUTE_MS * MINUTE_MS
  {
    QuotientIs(t, MINUTE_MS, t / 1_000 / 60, 0);
  }

  lemma MinuteOfInstant(t: int)
    requires UtcSeconds(t) == 0 && UtcMilliseconds(t) == 0
    ensures LocalMinute(t) < 1_440 && t == LocalMidnight(VietnamDay(t)) + LocalMinute(t) * MINUTE_MS
  {
    WholeMinute(t);
    hide UtcSeconds, UtcMilliseconds, LocalMinute, VietnamDay;
    var local := t / MINUTE_MS + 420;
    var day, minute := local / 1_440, local % 1_440;
    assert t == LocalMidnight(day) + minute * MINUTE_MS;
    InstantOfMinute(day, minute, t);
  }

  /** The instants the list is made of, for any opening hours: every quarter of an hour from opening time
      on, as far as the window reaches. */
  predicate Listed(t: int, day: int, s: Schedule, now: int) {
    && now + s.leadMinutes * MINUTE_MS <= t <= now + s.daysAhead * DAY_MS
    && (t - LocalMidnight(day)) % MINUTE_MS == 0
    && s.openMinute <= (t - LocalMidnight(day)) / MINUTE_MS < s.closeMinute
    && ((t - LocalMidnight(day)) / MINUTE_MS - s.openMinute) % 15 == 0
  }

  function SlotAt(day: int, minute: int): int { LocalMidnight(day) + minute * MINUTE_MS }

  predicate Started(minute: int, s: Schedule) { minute >= s.openMinute && (minute - s.openMinute) % 15 == 0 }

  /** From one candidate to the next, only the first of the two can be listed. */
  lemma NextListed(t: int, day: int, s: Schedule, now: int, minute: nat)
    requires Started(minute, s) && minute < s.closeMinute
    ensures Started(minute + 15, s)
    ensures var m := (t - LocalMidnight(day)) / MINUTE_MS;
            Listed(t, day, s, now) && minute <= m < minute + 15 <==>
              t == SlotAt(day, minute) && now + s.leadMinutes * MINUTE_MS <= t <= now + s.daysAhead * DAY_MS
  {
  }

  /** Lists the quarters of an hour of a day, in order. */
  method PickupSlotsForDate(day: int, s: Schedule, now: int) returns (slots: seq<int>)
    ensures forall t :: t in slots <==> Listed(t, day, s, now)
    ensures forall i, j :: 0 <= i < j < |slots| ==> slots[i] + 15 * MINUTE_MS <= slots[j]
  {
    var localMidnight := LocalMidnight(day);
    var earliest := now + s.leadMinutes * MINUTE_MS;
    var latest := now + s.daysAhead * DAY_MS;
    slots := [];
    var minute := s.openMinute;
    while minute < s.closeMinute
      invariant Started(minute, s)
      invariant forall t :: t in slots <==> Listed(t, day, s, now) && (t - localMidnight) / MINUTE_MS < minute
      invariant forall i :: 0 <= i < |slots| ==> slots[i] + 15 * MINUTE_MS <= localMidnight + minute * MINUTE_MS
      invariant forall i, j :: 0 <= i < j < |slots| ==> slots[i] + 15 * MINUTE_MS <= slots[j]
    {
      var pickupAt := localMidnight + minute * MINUTE_MS;
      forall t
        ensures Listed(t, day, s, now) && minute <= (t - localMidnight) / MINUTE_MS < minute + 15
                <==> t == pickupAt && earliest <= t <= latest
      {
        NextListed(t, day, s, now, minute);
      }
      hide Listed, LocalMidnight;
      if pickupAt >= earliest && pickupAt <= latest {
        slots := slots + [pickupAt];
      }
      minute := minute + 15;
    }
  }

  /** The instant is advertised for the day and refused, or accepted on the day and not advertised. */
  predicate Disagree(t: int, day: int, s: Schedule, now: int) {
    Listed(t, day, s, now) != (Accepts(t, s, now) && VietnamDay(t) == day)
  }

  lemma ListedOnItsMinute(t: int, day: int, s: Schedule, now: int)
    requires s.closeMinute <= 1_440 && Listed(t, day, s, now)
    ensures VietnamDay(t) == day && UtcSeconds(t) == 0 && UtcMilliseconds(t) == 0
    ensures LocalMinute(t) == (t - LocalMidnight(day)) / MINUTE_MS
  {
    var minute := (t - LocalMidnight(day)) / MINUTE_MS;
    InstantOfMinute(day, minute, t);
  }

  /** With opening time on a quarter of an hour, an instant is advertised for a day exactly when the validator
      accepts it and it falls on that day. */
  lemma SlotsAreWhatIsAccepted(t: int, day: int, s: Schedule, now: int)
    requires s.closeMinute <= 1_440 && s.openMinute % 15 == 0
    ensures Listed(t, day, s, now) <==> Accepts(t, s, now) && VietnamDay(t) == day
  {
    if Listed(t, day, s, now) {
      ListedOnItsMinute(t, day, s, now);
      OnTheQuarter(LocalMinute(t), s.openMinute);
    }
    if Accepts(t, s, now) && VietnamDay(t) == day {
      AcceptedIsListed(t, day, s, now);
    }
  }

  lemma OnTheQuarter(minute: int, start: nat)
    requires start % 15 == 0
    ensures (minute - start) % 15 == 0 <==> minute % 15 == 0
  {
  }

  lemma AcceptedIsListed(t: int, day: int, s: Schedule, now: int)
    requires s.openMinute % 15 == 0 && Accepts(t, s, now) && VietnamDay(t) == day
    ensures Listed(t, day, s, now)
  {
    MinuteOfInstant(t);
    var minute := LocalMinute(t);
    OnTheQuarter(minute, s.openMinute);
    hide LocalMinute, VietnamDay, UtcSeconds, UtcMilliseconds, LocalMidnight;
    QuotientIs(t - LocalMidnight(day), MINUTE_MS, minute, 0);
  }

  /** Exactly when the list and the validator agree on every day, at every time and about every instant: opening
      time is on a quarter of an hour, or the shop never opens, or the window is empty. */
  lemma AgreementNeedsAlignment(s: Schedule)
    requires s.closeMinute <= 1_440
    ensures (forall t, day, now :: !Disagree(t, day, s, now))
            <==> s.openMinute % 15 == 0 || s.openMinute >= s.closeMinute || s.leadMinutes > s.daysAhead * 1_440
  {
    if s.openMinute % 15 == 0 {
      forall t, day, now ensures !Disagree(t, day, s, now) {
        SlotsAreWhatIsAccepted(t, day, s, now);
      }
    } else if s.openMinute < s.closeMinute && s.leadMinutes <= s.daysAhead * 1_440 {
      var t := SlotAt(0, s.openMinute);
      var now := t - s.leadMinutes * MINUTE_MS;
      InstantOfMinute(0, s.openMinute, t);
      assert Disagree(t, 0, s, now);
    } else {
      forall t, day, now ensures !Disagree(t, day, s, now) {
        assert s.leadMinutes > s.daysAhead * 1_440 ==> now + s.leadMinutes * MINUTE_MS > now + s.daysAhead * DAY_MS;
      }
    }
  }

  /** What the environment demands of the opening hours is enough. */
  lemma CheckedHoursAgree(t: int, day: int, s: Schedule, now: int)
    requires Aligned(s)
    ensures !Disagree(t, day, s, now)
  {
    SlotsAreWhatIsAccepted(t, day, s, now);
  }
}
