/**
 * src/lib/astronomy/special-events.ts: new moons by a day-by-day scan, and
 * the supermoons, blue moons and black moons derived from the full and new
 * moons of a period.
 */
module SpecialEvents {
  import opened Common
  import opened Types
  import opened FullMoonFinder

  const SUPERMOON_DISTANCE_THRESHOLD: real := 362000.0
  const NEW_MOON_THRESHOLD: real := 0.02

  // ---------------------------------------------------------------------
  // findNewMoons

  /** The detection rule for the day [t, addDays(t, 1)]: near 0 (or 1) at its end, or wrapped from above 0.9 to below 0.1. */
  predicate NewMoonDetected(sky: Sky, cal: Calendar, t: Instant) {
    var currentPhase := sky.moonPhase(cal.addDays(t, 1));
    || currentPhase < NEW_MOON_THRESHOLD
    || currentPhase > 1.0 - NEW_MOON_THRESHOLD
    || (sky.moonPhase(t) > 0.9 && currentPhase < 0.1)
  }

  /** The date is the end of some scan day before endDate on which a new moon was detected. */
  ghost predicate NewMoonOnSomeDay(sky: Sky, cal: Calendar, startDate: Instant, endDate: Instant, t: Instant) {
    exists d: nat ::
      && ScanDay(cal, startDate, d) < endDate
      && NewMoonDetected(sky, cal, ScanDay(cal, startDate, d))
      && t == ScanDay(cal, startDate, d + 1)
  }

  /** Consecutive dates are strictly increasing and more than 20 days apart. */
  predicate SpacedDates(dates: seq<Instant>) {
    forall k :: 0 < k < |dates| ==>
      dates[k - 1] < dates[k] && DaysBetween(dates[k - 1], dates[k]) > MIN_DAYS_BETWEEN_FULL_MOONS
  }

  /** A detected date was recorded, or some recorded date lies at most 20 days before it. */
  ghost predicate NewMoonAccounted(newMoons: seq<Instant>, t: Instant) {
    exists k :: 0 <= k < |newMoons| && (newMoons[k] == t || (newMoons[k] <= t && DaysBetween(newMoons[k], t) <= MIN_DAYS_BETWEEN_FULL_MOONS))
  }

  /** Recorded dates that all come after a detected date do not account for it. */
  lemma LaterDatesDoNotAccount(newMoons: seq<Instant>, t: Instant)
    requires forall k :: 0 <= k < |newMoons| ==> newMoons[k] > t
    ensures !NewMoonAccounted(newMoons, t)
  {
  }

  lemma SpacedDatesAppend(dates: seq<Instant>, t: Instant)
    requires SpacedDates(dates)
    requires |dates| > 0 ==> DaysBetween(Last(dates), t) > MIN_DAYS_BETWEEN_FULL_MOONS
    ensures SpacedDates(dates + [t])
  {
    if |dates| > 0 {
      DaysBetweenPositive(Last(dates), t);
    }
    var s := dates + [t];
    forall k | 0 < k < |s|
      ensures s[k - 1] < s[k] && DaysBetween(s[k - 1], s[k]) > MIN_DAYS_BETWEEN_FULL_MOONS
    {
      if k < |dates| {
        assert s[k - 1] == dates[k - 1] && s[k] == dates[k];
      }
    }
  }

  /** Detections accounted for before a scan day stay accounted for once that day is scanned. */
  lemma NewMoonsAccountedThroughDay(sky: Sky, cal: Calendar, startDate: Instant, before: seq<Instant>, after: seq<Instant>, day: nat)
    requires forall d: nat :: d < day && NewMoonDetected(sky, cal, ScanDay(cal, startDate, d)) ==>
      NewMoonAccounted(before, ScanDay(cal, startDate, d + 1))
    requires NewMoonDetected(sky, cal, ScanDay(cal, startDate, day)) ==> NewMoonAccounted(after, ScanDay(cal, startDate, day + 1))
    requires after == before || exists t :: after == before + [t]
    ensures forall d: nat :: d < day + 1 && NewMoonDetected(sky, cal, ScanDay(cal, startDate, d)) ==>
      NewMoonAccounted(after, ScanDay(cal, startDate, d + 1))
  {
    forall d: nat | d < day && NewMoonDetected(sky, cal, ScanDay(cal, startDate, d))
      ensures NewMoonAccounted(after, ScanDay(cal, startDate, d + 1))
    {
      if after != before {
        var t :| after == before + [t];
        var u := ScanDay(cal, startDate, d + 1);
        var k :| 0 <= k < |before| && (before[k] == u || (before[k] <= u && DaysBetween(before[k], u) <= MIN_DAYS_BETWEEN_FULL_MOONS));
        assert after[k] == before[k];
      }
    }
  }

  /** One iteration of the new-moon scan. */
  method ScanOneNewMoonDay(sky: Sky, cal: Calendar, ghost startDate: Instant, ghost endDate: Instant, ghost day: nat,
                           newMoons: seq<Instant>, currentDate: Instant, prevPhase: real)
    returns (newMoons': seq<Instant>, nextDate: Instant, currentPhase: real)
    requires DaysAdvance(cal)
    requires currentDate == ScanDay(cal, startDate, day) && currentDate < endDate
    requires prevPhase == sky.moonPhase(currentDate)
    requires forall k :: 0 <= k < |newMoons| ==> NewMoonOnSomeDay(sky, cal, startDate, endDate, newMoons[k])
    requires |newMoons| > 0 ==> Last(newMoons) <= currentDate
    requires SpacedDates(newMoons)
    ensures nextDate == ScanDay(cal, startDate, day + 1) && currentPhase == sky.moonPhase(nextDate)
    ensures forall k :: 0 <= k < |newMoons'| ==> NewMoonOnSomeDay(sky, cal, startDate, endDate, newMoons'[k])
    ensures |newMoons'| > 0 ==> Last(newMoons') <= nextDate
    ensures SpacedDates(newMoons')
    ensures NewMoonDetected(sky, cal, currentDate) ==> NewMoonAccounted(newMoons', nextDate)
    ensures newMoons' == newMoons || exists t :: newMoons' == newMoons + [t]
  {
    nextDate := cal.addDays(currentDate, 1);
    currentPhase := sky.moonPhase(nextDate);
    var isNearNew := currentPhase < NEW_MOON_THRESHOLD || currentPhase > 1.0 - NEW_MOON_THRESHOLD;
    var crossedNew := prevPhase > 0.9 && currentPhase < 0.1;
    newMoons' := newMoons;
    if isNearNew || crossedNew {
      if |newMoons| == 0 || DaysBetween(Last(newMoons), nextDate) > MIN_DAYS_BETWEEN_FULL_MOONS {
        assert NewMoonOnSomeDay(sky, cal, startDate, endDate, nextDate) by {
          assert ScanDay(cal, startDate, day + 1) == nextDate;
        }
        SpacedDatesAppend(newMoons, nextDate);
        newMoons' := newMoons + [nextDate];
        assert newMoons'[|newMoons'| - 1] == nextDate;
      } else {
        assert newMoons[|newMoons| - 1] <= currentDate < nextDate;
        assert DaysBetween(newMoons[|newMoons| - 1], nextDate) <= MIN_DAYS_BETWEEN_FULL_MOONS;
      }
    }
  }

  method FindNewMoons(sky: Sky, cal: Calendar, startDate: Instant, months: int) returns (newMoons: seq<Instant>)
    requires DaysAdvance(cal)
    ensures forall k :: 0 <= k < |newMoons| ==> NewMoonOnSomeDay(sky, cal, startDate, cal.addMonths(startDate, months), newMoons[k])
    ensures SpacedDates(newMoons)
    ensures forall d: nat ::
      (ScanDay(cal, startDate, d) < cal.addMonths(startDate, months) && NewMoonDetected(sky, cal, ScanDay(cal, startDate, d)))
      ==> NewMoonAccounted(newMoons, ScanDay(cal, startDate, d + 1))
  {
    var endDate := cal.addMonths(startDate, months);
    newMoons := [];
    var currentDate := startDate;
    var prevPhase := sky.moonPhase(currentDate);
    ghost var day: nat := 0;
    while currentDate < endDate
      invariant currentDate == ScanDay(cal, startDate, day)
      invariant prevPhase == sky.moonPhase(currentDate)
      invariant forall k :: 0 <= k < |newMoons| ==> NewMoonOnSomeDay(sky, cal, startDate, endDate, newMoons[k])
      invariant |newMoons| > 0 ==> Last(newMoons) <= currentDate
      invariant SpacedDates(newMoons)
      invariant forall d: nat :: d < day && NewMoonDetected(sky, cal, ScanDay(cal, startDate, d)) ==>
        NewMoonAccounted(newMoons, ScanDay(cal, startDate, d + 1))
      decreases endDate - currentDate
    {
      ghost var before := newMoons;
      var nextDate, currentPhase;
      newMoons, nextDate, currentPhase := ScanOneNewMoonDay(sky, cal, startDate, endDate, day, newMoons, currentDate, prevPhase);
      NewMoonsAccountedThroughDay(sky, cal, startDate, before, newMoons, day);
      prevPhase := currentPhase;
      currentDate := nextDate;
      day := day + 1;
    }
    forall d: nat | ScanDay(cal, startDate, d) < endDate
      ensures d < day
    {
      if d >= day {
        ScanDayMonotone(cal, startDate, day, d);
      }
    }
  }

  // ---------------------------------------------------------------------
  // toLocaleString for a whole number (en-US digit grouping)

  predicate NotComma(c: char) {
    c != ','
  }

  /** The digits of n in groups of three separated by commas. */
  function GroupedDigits(n: nat): (s: string)
    ensures |s| >= 1
  {
    if n < 1000 then NatToString(n) else GroupedDigits(n / 1000) + "," + ThreeDigits(n % 1000)
  }

  function LocaleInteger(n: int): string {
    if n < 0 then "-" + GroupedDigits(-n) else GroupedDigits(n)
  }

  /** The last three decimal digits of n are those of n % 1000. */
  lemma LastThreeDigits(n: nat)
    ensures n / 10 / 10 / 10 == n / 1000
    ensures n / 10 % 10 == n % 1000 / 10 % 10
    ensures n / 10 / 10 % 10 == n % 1000 / 100
    ensures n % 10 == n % 1000 % 10
  {
    assert n / 10 / 10 / 10 == n / 1000;
    assert n == n / 1000 * 1000 + n % 1000;
    assert n / 10 % 10 == n % 1000 / 10 % 10;
    assert n / 10 / 10 % 10 == n % 1000 / 100;
  }

  lemma ThreeMoreDigits(n: nat)
    requires n >= 1000
    ensures NatToString(n) == NatToString(n / 1000) + ThreeDigits(n % 1000)
  {
    LastThreeDigits(n);
    calc {
      NatToString(n);
      NatToString(n / 10) + [DigitChar(n % 10)];
      NatToString(n / 10 / 10) + [DigitChar(n / 10 % 10)] + [DigitChar(n % 10)];
      NatToString(n / 10 / 10 / 10) + [DigitChar(n / 10 / 10 % 10)] + [DigitChar(n / 10 % 10)] + [DigitChar(n % 10)];
    }
  }

  lemma NoCommaInDigits(s: string)
    requires AllDigits(s)
    ensures Filter(s, NotComma) == s
  {
    if |s| > 0 {
      assert Init(s) + [Last(s)] == s;
      NoCommaInDigits(Init(s));
    }
  }

  lemma CommaFiltered()
    ensures Filter(",", NotComma) == []
  {
    assert Init(",") == [];
  }

  /** Deleting the group separators gives back the plain decimal rendering. */
  lemma {:induction false} GroupedDigitsUngroup(n: nat)
    ensures Filter(GroupedDigits(n), NotComma) == NatToString(n)
  {
    if n < 1000 {
      NoCommaInDigits(NatToString(n));
    } else {
      var front, back := GroupedDigits(n / 1000), ThreeDigits(n % 1000);
      assert GroupedDigits(n) == front + "," + back;
      GroupedDigitsUngroup(n / 1000);
      FilterAppend(front + ",", back, NotComma);
      FilterAppend(front, ",", NotComma);
      CommaFiltered();
      NoCommaInDigits(back);
      ThreeMoreDigits(n);
    }
  }

  // ---------------------------------------------------------------------
  // findSupermoons

  predicate IsSupermoon(fm: FullMoonEvent) {
    fm.distance.Some? && fm.distance.value < SUPERMOON_DISTANCE_THRESHOLD
  }

  // The descriptions' fixed text.
  const SUPERMOON_DESCRIPTION_HEAD: string := "Full moon at "
  const SUPERMOON_DESCRIPTION_TAIL: string := " km - appears ~7% larger and ~15% brighter than average"
  const BLUE_MOON_DESCRIPTION_HEAD: string := "Second full moon of the month ("
  const BLUE_MOON_DESCRIPTION_TAIL: string := ") - a rare occurrence happening roughly every 2.7 years"
  const BLACK_MOON_DESCRIPTION: string := "Second new moon of the month - an uncommon event ideal for deep sky observation and astrophotography"

  function SupermoonEvent(fm: FullMoonEvent): (e: SpecialEvent)
    requires fm.distance.Some?
    ensures e.date == fm.date && e.kind == Supermoon
  {
    SpecialEvent(
      fm.date, Supermoon, "Supermoon (" + fm.folkName + ")",
      SUPERMOON_DESCRIPTION_HEAD + LocaleInteger(Round(fm.distance.value)) + SUPERMOON_DESCRIPTION_TAIL)
  }

  /** The supermoon events of the full moons, in their order. */
  function Supermoons(fullMoons: seq<FullMoonEvent>): (r: seq<SpecialEvent>)
    ensures |r| <= |fullMoons|
    ensures forall e :: e in r ==> e.kind == Supermoon
  {
    if |fullMoons| == 0 then []
    else Supermoons(Init(fullMoons)) + (if IsSupermoon(Last(fullMoons)) then [SupermoonEvent(Last(fullMoons))] else [])
  }

  /** Exactly the full moons with a known distance below the threshold give a supermoon. */
  lemma {:induction false} SupermoonsExactly(fullMoons: seq<FullMoonEvent>, e: SpecialEvent)
    ensures e in Supermoons(fullMoons) <==>
      exists i :: 0 <= i < |fullMoons| && IsSupermoon(fullMoons[i]) && e == SupermoonEvent(fullMoons[i])
  {
    if |fullMoons| > 0 {
      SupermoonsExactly(Init(fullMoons), e);
      assert forall i :: 0 <= i < |fullMoons| - 1 ==> Init(fullMoons)[i] == fullMoons[i];
    }
  }

  /** Supermoons keep the order of the full moons: detecting over a concatenation concatenates. */
  lemma {:induction false} SupermoonsAppend(a: seq<FullMoonEvent>, b: seq<FullMoonEvent>)
    ensures Supermoons(a + b) == Supermoons(a) + Supermoons(b)
  {
    if |b| == 0 {
      assert a + b == a;
    } else {
      assert Init(a + b) == a + Init(b) && Last(a + b) == Last(b);
      SupermoonsAppend(a, Init(b));
    }
  }

  method FindSupermoons(fullMoons: seq<FullMoonEvent>) returns (events: seq<SpecialEvent>)
    ensures events == Supermoons(fullMoons)
  {
    events := [];
    var i := 0;
    while i < |fullMoons|
      invariant 0 <= i <= |fullMoons|
      invariant events == Supermoons(fullMoons[..i])
    {
      var fullMoon := fullMoons[i];
      assert Init(fullMoons[..i + 1]) == fullMoons[..i] && Last(fullMoons[..i + 1]) == fullMoon;
      var distance := fullMoon.distance;
      if distance.Some? && distance.value < SUPERMOON_DISTANCE_THRESHOLD {
        events := events + [SupermoonEvent(fullMoon)];
      }
      i := i + 1;
    }
    assert fullMoons[..i] == fullMoons;
  }

  // ---------------------------------------------------------------------
  // The second member of each month's group, shared by findBlueMoons and findBlackMoons

  /** For each key in order whose group has two or more members, the second member in date order. */
  function SecondsOf<T(==)>(s: seq<T>, key: T -> int, date: T -> int, keys: seq<int>): (r: seq<T>)
    ensures |r| <= |keys|
  {
    if |keys| == 0 then []
    else
      SecondsOf(s, key, date, Init(keys))
      + (if |Group(s, key, Last(keys))| >= 2 then [SortBy(Group(s, key, Last(keys)), date)[1]] else [])
  }

  lemma SecondsOfSnoc<T>(s: seq<T>, key: T -> int, date: T -> int, keys: seq<int>, i: int)
    requires 0 <= i < |keys|
    ensures SecondsOf(s, key, date, keys[..i + 1]) ==
      SecondsOf(s, key, date, keys[..i])
      + (if |Group(s, key, keys[i])| >= 2 then [SortBy(Group(s, key, keys[i]), date)[1]] else [])
  {
    assert Init(keys[..i + 1]) == keys[..i] && Last(keys[..i + 1]) == keys[i];
  }

  /** The groups of the Map in key order of first appearance. */
  function SecondPerKey<T(==)>(s: seq<T>, key: T -> int, date: T -> int): seq<T> {
    SecondsOf(s, key, date, DistinctKeys(s, key))
  }

  /** The result holds, for each key with two or more members, that group's second member in date order, and nothing else. */
  lemma {:induction false} SecondsOfExactly<T>(s: seq<T>, key: T -> int, date: T -> int, keys: seq<int>, x: T)
    ensures x in SecondsOf(s, key, date, keys) <==>
      exists k :: k in keys && |Group(s, key, k)| >= 2 && x == SortBy(Group(s, key, k), date)[1]
  {
    if |keys| > 0 {
      SecondsOfExactly(s, key, date, Init(keys), x);
      assert keys == Init(keys) + [Last(keys)];
    }
  }

  /** The i-th result has a key among keys and belongs to its key's group. */
  lemma {:induction false} SecondsOfKeys<T>(s: seq<T>, key: T -> int, date: T -> int, keys: seq<int>, i: int)
    requires 0 <= i < |SecondsOf(s, key, date, keys)|
    ensures key(SecondsOf(s, key, date, keys)[i]) in keys
    ensures SecondsOf(s, key, date, keys)[i] in s
  {
    var r := SecondsOf(s, key, date, keys);
    var front := SecondsOf(s, key, date, Init(keys));
    if i < |front| {
      SecondsOfKeys(s, key, date, Init(keys), i);
      assert r[i] == front[i];
      assert Init(keys) <= keys;
    } else {
      var g := Group(s, key, Last(keys));
      var x := SortBy(g, date)[1];
      assert r[i] == x;
      SortByMembers(g, date, x);
      assert x in g;
    }
  }

  /** The second member of a key's group is an input element with that key. */
  lemma SecondOfGroup<T>(s: seq<T>, key: T -> int, date: T -> int, k: int)
    requires |Group(s, key, k)| >= 2
    ensures SortBy(Group(s, key, k), date)[1] in s
    ensures key(SortBy(Group(s, key, k), date)[1]) == k
  {
    var g := Group(s, key, k);
    SortByMembers(g, date, SortBy(g, date)[1]);
  }

  /** With distinct keys, no key contributes twice. */
  lemma {:induction false} SecondsOfOnePerKey<T>(s: seq<T>, key: T -> int, date: T -> int, keys: seq<int>)
    requires forall i, j :: 0 <= i < j < |keys| ==> keys[i] != keys[j]
    ensures forall i, j :: 0 <= i < j < |SecondsOf(s, key, date, keys)| ==>
      key(SecondsOf(s, key, date, keys)[i]) != key(SecondsOf(s, key, date, keys)[j])
  {
    if |keys| > 0 {
      var front := SecondsOf(s, key, date, Init(keys));
      var last := Last(keys);
      assert forall p :: 0 <= p < |Init(keys)| ==> Init(keys)[p] == keys[p];
      SecondsOfOnePerKey(s, key, date, Init(keys));
      if |Group(s, key, last)| >= 2 {
        SecondOfGroup(s, key, date, last);
        assert last !in Init(keys);
        forall i | 0 <= i < |front| ensures key(front[i]) != last {
          SecondsOfKeys(s, key, date, Init(keys), i);
        }
        var r := SecondsOf(s, key, date, keys);
        assert r == front + [SortBy(Group(s, key, last), date)[1]];
        forall i, j | 0 <= i < j < |r| ensures key(r[i]) != key(r[j]) {
          if j == |front| {
            assert r[i] == front[i];
          } else {
            assert r[i] == front[i] && r[j] == front[j];
          }
        }
      }
    }
  }

  /**
   * The second member in date order: one member of the group is no later,
   * and every member besides those two is no earlier.
   */
  lemma SecondInDateOrder<T>(g: seq<T>, date: T -> int)
    requires |g| >= 2
    ensures var t := SortBy(g, date);
      && t[0] in g && t[1] in g
      && date(t[0]) <= date(t[1])
      && forall y :: y in multiset(g) - multiset{t[0], t[1]} ==> date(t[1]) <= date(y)
  {
    var t := SortBy(g, date);
    SortByMembers(g, date, t[0]);
    SortByMembers(g, date, t[1]);
    SortedRestNotEarlier(t, date);
  }

  /** In a sorted list, what is left besides the first two is no earlier than the second. */
  lemma SortedRestNotEarlier<T>(t: seq<T>, date: T -> int)
    requires |t| >= 2 && SortedBy(t, date)
    ensures forall y :: y in multiset(t) - multiset{t[0], t[1]} ==> date(t[1]) <= date(y)
  {
    var rest := t[2..];
    assert t == [t[0], t[1]] + rest;
    assert multiset(t) - multiset{t[0], t[1]} == multiset(rest);
    forall y | y in multiset(rest) ensures date(t[1]) <= date(y) {
      var j :| 0 <= j < |rest| && rest[j] == y;
      assert t[j + 2] == y;
    }
  }

  /** Every result belongs to the input; no key contributes twice; every key with two or more members contributes its second. */
  lemma SecondPerKeyProperties<T>(s: seq<T>, key: T -> int, date: T -> int)
    ensures var r := SecondPerKey(s, key, date);
      && (forall i :: 0 <= i < |r| ==> r[i] in s)
      && (forall i, j :: 0 <= i < j < |r| ==> key(r[i]) != key(r[j]))
      && (forall k :: |Group(s, key, k)| >= 2 ==> SortBy(Group(s, key, k), date)[1] in r)
  {
    var keys := DistinctKeys(s, key);
    var r := SecondPerKey(s, key, date);
    assert r == SecondsOf(s, key, date, keys);
    forall i | 0 <= i < |r| ensures r[i] in s {
      SecondsOfKeys(s, key, date, keys, i);
    }
    SecondsOfOnePerKey(s, key, date, keys);
    forall k | |Group(s, key, k)| >= 2 ensures SortBy(Group(s, key, k), date)[1] in r {
      if k !in keys {
        GroupAbsent(s, key, k);
      }
      SecondsOfExactly(s, key, date, keys, SortBy(Group(s, key, k), date)[1]);
    }
  }

  /** The body of the loop over the Map's groups: the second member in date order of a group with two or more. */
  method SecondOfMonth<T(==)>(s: seq<T>, key: T -> int, date: T -> int, keys: seq<int>, groups: map<int, seq<T>>, i: int)
    returns (second: Option<T>)
    requires 0 <= i < |keys|
    requires groups.Keys == set k | k in keys
    requires forall k :: k in groups ==> groups[k] == Group(s, key, k)
    ensures SecondsOf(s, key, date, keys[..i + 1]) ==
      SecondsOf(s, key, date, keys[..i]) + (if second.Some? then [second.value] else [])
  {
    assert keys[i] in groups by {
      assert keys[i] in set k | k in keys;
    }
    var group := groups[keys[i]];
    SecondsOfSnoc(s, key, date, keys, i);
    if |group| >= 2 {
      var sorted := SortBy(group, date);
      second := Some(sorted[1]);
    } else {
      second := None;
      assert SecondsOf(s, key, date, keys[..i]) + [] == SecondsOf(s, key, date, keys[..i]);
    }
  }

  /**
   * The shared body of findBlueMoons and findBlackMoons: group by month in a
   * Map, then push an event for the second member of each group of two or
   * more, in the Map's key order.
   */
  method EventPerMonth<T(==)>(s: seq<T>, key: T -> int, date: T -> int, toEvent: T -> SpecialEvent)
    returns (events: seq<SpecialEvent>)
    ensures events == Map(SecondPerKey(s, key, date), toEvent)
  {
    var keys, byMonth := GroupByKey(s, key);
    events := [];
    ghost var seconds: seq<T> := [];
    var i := 0;
    while i < |keys|
      invariant 0 <= i <= |keys|
      invariant seconds == SecondsOf(s, key, date, keys[..i])
      invariant events == Map(seconds, toEvent)
    {
      seconds, events := EventOfMonth(s, key, date, toEvent, keys, byMonth, i, seconds, events);
      i := i + 1;
    }
    assert keys[..i] == keys;
  }

  /** One iteration of the loop over the months: push the event of a month with a second member. */
  method EventOfMonth<T(==)>(s: seq<T>, key: T -> int, date: T -> int, toEvent: T -> SpecialEvent,
                             keys: seq<int>, byMonth: map<int, seq<T>>, i: int, ghost seconds: seq<T>, events: seq<SpecialEvent>)
    returns (ghost seconds': seq<T>, events': seq<SpecialEvent>)
    requires 0 <= i < |keys|
    requires byMonth.Keys == set k | k in keys
    requires forall k :: k in byMonth ==> byMonth[k] == Group(s, key, k)
    requires seconds == SecondsOf(s, key, date, keys[..i]) && events == Map(seconds, toEvent)
    ensures seconds' == SecondsOf(s, key, date, keys[..i + 1]) && events' == Map(seconds', toEvent)
  {
    var second := SecondOfMonth(s, key, date, keys, byMonth, i);
    if second.Some? {
      MapSnoc(seconds, second.value, toEvent);
      events' := events + [toEvent(second.value)];
      seconds' := seconds + [second.value];
    } else {
      assert seconds + [] == seconds;
      seconds', events' := seconds, events;
    }
  }

  /** Every group with two or more members has its second member's event among the events. */
  lemma EventPerMonthComplete<T>(s: seq<T>, key: T -> int, date: T -> int, toEvent: T -> SpecialEvent)
    ensures forall k :: |Group(s, key, k)| >= 2 ==>
      toEvent(SortBy(Group(s, key, k), date)[1]) in Map(SecondPerKey(s, key, date), toEvent)
  {
    var seconds := SecondPerKey(s, key, date);
    SecondPerKeyProperties(s, key, date);
    forall k | |Group(s, key, k)| >= 2
      ensures toEvent(SortBy(Group(s, key, k), date)[1]) in Map(seconds, toEvent)
    {
      var x := SortBy(Group(s, key, k), date)[1];
      var i :| 0 <= i < |seconds| && seconds[i] == x;
      assert Map(seconds, toEvent)[i] == toEvent(x);
    }
  }

  /** Map insertion order of the `${year}-${month}` key: one integer per local calendar month. */
  function MonthIndex(cal: Calendar, t: Instant): int {
    cal.fullYear(t) * 12 + cal.month(t)
  }

  /** With months in 0..11, two instants share a month index exactly when they share year and month. */
  lemma MonthIndexSameMonth(cal: Calendar, t: Instant, u: Instant)
    requires FieldsInRange(cal)
    ensures MonthIndex(cal, t) == MonthIndex(cal, u) <==> cal.fullYear(t) == cal.fullYear(u) && cal.month(t) == cal.month(u)
  {
  }

  // ---------------------------------------------------------------------
  // findBlueMoons

  function FullMoonMonth(cal: Calendar): FullMoonEvent -> int {
    (fm: FullMoonEvent) => MonthIndex(cal, fm.date)
  }

  function FullMoonDate(): FullMoonEvent -> int {
    (fm: FullMoonEvent) => fm.date
  }

  function BlueMoonEvent(fm: FullMoonEvent): (e: SpecialEvent)
    ensures e.date == fm.date && e.kind == BlueMoon
  {
    SpecialEvent(
      fm.date, BlueMoon, "Blue Moon",
      BLUE_MOON_DESCRIPTION_HEAD + fm.folkName + BLUE_MOON_DESCRIPTION_TAIL)
  }

  /** The blue-moon events: the second full moon of every month with two or more. */
  function BlueMoons(cal: Calendar, fullMoons: seq<FullMoonEvent>): (r: seq<SpecialEvent>)
    ensures forall e :: e in r ==> e.kind == BlueMoon
  {
    Map(SecondPerKey(fullMoons, FullMoonMonth(cal), FullMoonDate()), BlueMoonEvent)
  }

  /**
   * Each blue moon is the date of an input full moon; no month has two; a
   * month with two or more full moons has the one second in date order.
   */
  lemma BlueMoonsProperties(cal: Calendar, fullMoons: seq<FullMoonEvent>)
    ensures var r := BlueMoons(cal, fullMoons);
      && (forall i :: 0 <= i < |r| ==> exists fm :: fm in fullMoons && fm.date == r[i].date)
      && (forall i, j :: 0 <= i < j < |r| ==> MonthIndex(cal, r[i].date) != MonthIndex(cal, r[j].date))
      && (forall m :: |Group(fullMoons, FullMoonMonth(cal), m)| >= 2 ==>
            BlueMoonEvent(SortBy(Group(fullMoons, FullMoonMonth(cal), m), FullMoonDate())[1]) in r)
  {
    var seconds := SecondPerKey(fullMoons, FullMoonMonth(cal), FullMoonDate());
    SecondPerKeyProperties(fullMoons, FullMoonMonth(cal), FullMoonDate());
    var r := BlueMoons(cal, fullMoons);
    forall i | 0 <= i < |r| ensures exists fm :: fm in fullMoons && fm.date == r[i].date {
      assert seconds[i] in fullMoons;
    }
    EventPerMonthComplete(fullMoons, FullMoonMonth(cal), FullMoonDate(), BlueMoonEvent);
  }

  method FindBlueMoons(cal: Calendar, fullMoons: seq<FullMoonEvent>) returns (events: seq<SpecialEvent>)
    ensures events == BlueMoons(cal, fullMoons)
  {
    events := EventPerMonth(fullMoons, FullMoonMonth(cal), FullMoonDate(), BlueMoonEvent);
  }

  // ---------------------------------------------------------------------
  // findBlackMoons

  function NewMoonMonth(cal: Calendar): Instant -> int {
    (t: Instant) => MonthIndex(cal, t)
  }

  function NewMoonDate(): Instant -> int {
    (t: Instant) => t
  }

  function BlackMoonEvent(t: Instant): (e: SpecialEvent)
    ensures e.date == t && e.kind == BlackMoon
  {
    SpecialEvent(
      t, BlackMoon, "Black Moon",
      BLACK_MOON_DESCRIPTION)
  }

  /** The black-moon events: the second new moon of every month with two or more. */
  function BlackMoons(cal: Calendar, newMoons: seq<Instant>): (r: seq<SpecialEvent>)
    ensures forall e :: e in r ==> e.kind == BlackMoon
  {
    Map(SecondPerKey(newMoons, NewMoonMonth(cal), NewMoonDate()), BlackMoonEvent)
  }

  /** The same one-per-month, second-in-date-order rule, applied to new-moon dates. */
  lemma BlackMoonsProperties(cal: Calendar, newMoons: seq<Instant>)
    ensures var r := BlackMoons(cal, newMoons);
      && (forall i :: 0 <= i < |r| ==> r[i].date in newMoons)
      && (forall i, j :: 0 <= i < j < |r| ==> MonthIndex(cal, r[i].date) != MonthIndex(cal, r[j].date))
      && (forall m :: |Group(newMoons, NewMoonMonth(cal), m)| >= 2 ==>
            BlackMoonEvent(SortBy(Group(newMoons, NewMoonMonth(cal), m), NewMoonDate())[1]) in r)
  {
    var seconds := SecondPerKey(newMoons, NewMoonMonth(cal), NewMoonDate());
    SecondPerKeyProperties(newMoons, NewMoonMonth(cal), NewMoonDate());
    var r := BlackMoons(cal, newMoons);
    EventPerMonthComplete(newMoons, NewMoonMonth(cal), NewMoonDate(), BlackMoonEvent);
  }

  method FindBlackMoons(cal: Calendar, newMoons: seq<Instant>) returns (events: seq<SpecialEvent>)
    ensures events == BlackMoons(cal, newMoons)
  {
    events := EventPerMonth(newMoons, NewMoonMonth(cal), NewMoonDate(), BlackMoonEvent);
  }

  // ---------------------------------------------------------------------
  // findSpecialEvents

  function EventDate(): SpecialEvent -> int {
    (e: SpecialEvent) => e.date
  }

  /** The three detectors' events together, sorted by date (a stable sort). */
  function SpecialEventsOf(cal: Calendar, fullMoons: seq<FullMoonEvent>, newMoons: seq<Instant>): (r: seq<SpecialEvent>)
    ensures SortedBy(r, EventDate())
    ensures multiset(r) == multiset(Supermoons(fullMoons) + BlueMoons(cal, fullMoons) + BlackMoons(cal, newMoons))
    ensures forall e :: e in r ==> e.kind != MicroMoon
  {
    var events := Supermoons(fullMoons) + BlueMoons(cal, fullMoons) + BlackMoons(cal, newMoons);
    var sorted := SortBy(events, EventDate());
    assert forall e :: e in sorted ==> e in events by {
      forall e | e in sorted ensures e in events {
        SortByMembers(events, EventDate(), e);
      }
    }
    sorted
  }

  /** What the two scans promise about the full moons and new moons between startDate and endDate. */
  ghost predicate ScansOf(sky: Sky, cal: Calendar, startDate: Instant, endDate: Instant,
                          fullMoons: seq<FullMoonEvent>, newMoons: seq<Instant>) {
    && Spaced(fullMoons)
    && SpacedDates(newMoons)
    && (forall k :: 0 <= k < |fullMoons| ==> FoundOnSomeDay(sky, cal, startDate, endDate, fullMoons[k]))
    && (forall k :: 0 <= k < |newMoons| ==> NewMoonOnSomeDay(sky, cal, startDate, endDate, newMoons[k]))
    && (forall d: nat ::
          (ScanDay(cal, startDate, d) < endDate && FullMoonDetected(sky, cal, ScanDay(cal, startDate, d)))
          ==> Accounted(sky, cal, startDate, fullMoons, d))
    && (forall d: nat ::
          (ScanDay(cal, startDate, d) < endDate && NewMoonDetected(sky, cal, ScanDay(cal, startDate, d)))
          ==> NewMoonAccounted(newMoons, ScanDay(cal, startDate, d + 1)))
  }

  method FindSpecialEvents(sky: Sky, cal: Calendar, startDate: Instant, months: int) returns (events: seq<SpecialEvent>)
    requires DaysAdvance(cal)
    ensures exists fullMoons, newMoons ::
      && ScansOf(sky, cal, startDate, cal.addMonths(startDate, months), fullMoons, newMoons)
      && events == SpecialEventsOf(cal, fullMoons, newMoons)
  {
    var fullMoons := FindFullMoons(sky, cal, startDate, months);
    var newMoons := FindNewMoons(sky, cal, startDate, months);
    var supermoons := FindSupermoons(fullMoons);
    var blueMoons := FindBlueMoons(cal, fullMoons);
    var blackMoons := FindBlackMoons(cal, newMoons);
    events := supermoons + blueMoons + blackMoons;
    events := SortBy(events, EventDate());
    assert ScansOf(sky, cal, startDate, cal.addMonths(startDate, months), fullMoons, newMoons);
    assert events == SpecialEventsOf(cal, fullMoons, newMoons);
  }
}
