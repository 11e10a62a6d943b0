/**
 * src/lib/astronomy/countdown.ts: the next of the day's light events (blue
 * and golden hours, sunrise and sunset, moonrise and moonset) after an
 * instant, and the countdown to it as text.
 */
module Countdown {
  import opened Common
  import opened Types

  datatype NextEventType =
    | GoldenHourAm | GoldenHourPm | BlueHourAm | BlueHourPm
    | Sunrise | Sunset | Moonrise | Moonset

  datatype Candidate = Candidate(kind: NextEventType, time: Instant)

  /** `label` is a keyword in Dafny: the field is `labelText`. */
  datatype NextEvent = NextEvent(kind: NextEventType, labelText: string, time: Instant, secondsUntil: int)

  /** EVENT_LABELS: the text of each event type. */
  function EventLabel(kind: NextEventType): (s: string)
    ensures |s| > 0
  {
    match kind
    case GoldenHourAm => "Morning golden hour"
    case GoldenHourPm => "Golden hour"
    case BlueHourAm => "Morning blue hour"
    case BlueHourPm => "Blue hour"
    case Sunrise => "Sunrise"
    case Sunset => "Sunset"
    case Moonrise => "Moonrise"
    case Moonset => "Moonset"
  }

  /** The eight labels are distinct. */
  lemma EventLabelInjective(a: NextEventType, b: NextEventType)
    ensures EventLabel(a) == EventLabel(b) ==> a == b
  {
  }

  /**
   * The candidates in the source's order: the six sun events, then
   * moonrise and moonset when the moon data has them.
   */
  function Candidates(sunTimes: SunTimes, moonData: MoonData): seq<Candidate> {
    [ Candidate(BlueHourAm, sunTimes.blueHourMorningStart),
      Candidate(Sunrise, sunTimes.sunrise),
      Candidate(GoldenHourAm, sunTimes.goldenHourMorningStart),
      Candidate(GoldenHourPm, sunTimes.goldenHourStart),
      Candidate(Sunset, sunTimes.sunset),
      Candidate(BlueHourPm, sunTimes.blueHourEveningStart) ]
    + (if moonData.moonrise.Some? then [Candidate(Moonrise, moonData.moonrise.value)] else [])
    + (if moonData.moonset.Some? then [Candidate(Moonset, moonData.moonset.value)] else [])
  }

  /** Some candidate is of the given type. */
  predicate HasKind(c: seq<Candidate>, k: NextEventType) {
    exists i :: 0 <= i < |c| && c[i].kind == k
  }

  /**
   * Every sun event is a candidate; the moon candidates are there exactly
   * when the moon data has the time, and with that time.
   */
  lemma CandidatesShape(sunTimes: SunTimes, moonData: MoonData)
    ensures var c := Candidates(sunTimes, moonData);
      && |c| == 6 + (if moonData.moonrise.Some? then 1 else 0) + (if moonData.moonset.Some? then 1 else 0)
      && (forall t :: Candidate(Moonrise, t) in c <==> moonData.moonrise == Some(t))
      && (forall t :: Candidate(Moonset, t) in c <==> moonData.moonset == Some(t))
      && (forall k :: HasKind(c, k) <==>
            (k != Moonrise && k != Moonset) || (k == Moonrise && moonData.moonrise.Some?) ||
            (k == Moonset && moonData.moonset.Some?))
  {
    var c := Candidates(sunTimes, moonData);
    forall k
      ensures HasKind(c, k) <==>
            (k != Moonrise && k != Moonset) || (k == Moonrise && moonData.moonrise.Some?) ||
            (k == Moonset && moonData.moonset.Some?)
    {
      if k != Moonrise && k != Moonset {
        var i := match k
          case BlueHourAm => 0 case Sunrise => 1 case GoldenHourAm => 2
          case GoldenHourPm => 3 case Sunset => 4 case _ => 5;
        assert c[i].kind == k;
      } else if k == Moonrise && moonData.moonrise.Some? {
        assert c[6].kind == k;
      } else if k == Moonset && moonData.moonset.Some? {
        assert c[|c| - 1].kind == k;
      }
    }
  }

  /** The `filter` callback: strictly after now. */
  function After(now: Instant): Candidate -> bool {
    (c: Candidate) => c.time > now
  }

  function Time(): Candidate -> int {
    (c: Candidate) => c.time
  }

  /**
   * The reference choice: the position of the earliest candidate strictly
   * after now, the first such position when several share that time.
   */
  function EarliestFuture(s: seq<Candidate>, now: Instant): (r: Option<nat>)
    ensures r.None? <==> forall c :: c in s ==> c.time <= now
    ensures r.Some? ==> r.value < |s| && s[r.value].time > now
    ensures r.Some? ==> forall j :: 0 <= j < |s| && s[j].time > now ==> s[r.value].time <= s[j].time
    ensures r.Some? ==> forall j :: 0 <= j < r.value && s[j].time > now ==> s[j].time > s[r.value].time
  {
    if |s| == 0 then None
    else
      var e := EarliestFuture(Init(s), now);
      assert forall j :: 0 <= j < |s| - 1 ==> s[j] == Init(s)[j];
      if Last(s).time > now && (e.None? || Last(s).time < Init(s)[e.value].time) then Some(|s| - 1)
      else e
  }

  /**
   * The head of the future candidates sorted by time is the reference
   * choice: the sort is stable, so among equal times the first listed wins.
   */
  lemma {:induction false} SortedHeadIsEarliest(s: seq<Candidate>, now: Instant)
    requires |Filter(s, After(now))| > 0
    ensures EarliestFuture(s, now).Some?
    ensures SortBy(Filter(s, After(now)), Time())[0] == s[EarliestFuture(s, now).value]
  {
    var future := Filter(s, After(now));
    SortByHead(future, Time());
    FirstOfFilter(s, now);
  }

  /** The first of the smallest future times, counted in the filtered list, is the reference choice. */
  lemma {:induction false} FirstOfFilter(s: seq<Candidate>, now: Instant)
    requires |Filter(s, After(now))| > 0
    ensures EarliestFuture(s, now).Some?
    ensures Filter(s, After(now))[FirstMinIndex(Filter(s, After(now)), Time())] == s[EarliestFuture(s, now).value]
  {
    var future := Filter(s, After(now));
    var front := Filter(Init(s), After(now));
    var last := Last(s);
    assert future == front + (if After(now)(last) then [last] else []);
    var e := EarliestFuture(Init(s), now);
    if !After(now)(last) {
      assert future == front;
      FirstOfFilter(Init(s), now);
      assert s[e.value] == Init(s)[e.value];
    } else if |front| == 0 {
      if e.Some? {
        FilterComplete(Init(s), After(now), Init(s)[e.value]);
        assert false;
      }
      assert future == [last];
    } else {
      FirstOfFilter(Init(s), now);
      var k := FirstMinIndex(front, Time());
      assert Init(future) == front && Last(future) == last;
      assert front[k] == s[e.value] by {
        assert s[e.value] == Init(s)[e.value];
      }
      assert FirstMinIndex(future, Time()) == if last.time < front[k].time then |future| - 1 else k;
      assert EarliestFuture(s, now) == if last.time < s[e.value].time then Some(|s| - 1) else e;
    }
  }

  /** date-fns differenceInSeconds: the whole seconds between two instants, truncated towards zero. */
  function DifferenceInSeconds(later: Instant, earlier: Instant): (r: int)
    ensures later >= earlier ==> r >= 0 && r * MS_PER_SECOND <= later - earlier < (r + 1) * MS_PER_SECOND
  {
    var d := later - earlier;
    if d >= 0 then d / MS_PER_SECOND else -((-d) / MS_PER_SECOND)
  }

  /** The event record for a chosen candidate. */
  function EventOf(c: Candidate, now: Instant): NextEvent {
    NextEvent(c.kind, EventLabel(c.kind), c.time, DifferenceInSeconds(c.time, now))
  }

  /**
   * getNextEvent: the candidates pushed as the source does, then the ones
   * after now sorted by time. None exactly when no candidate is after now;
   * otherwise the reference choice, labelled, with its whole seconds to go.
   */
  method GetNextEvent(now: Instant, sunTimes: SunTimes, moonData: MoonData) returns (r: Option<NextEvent>)
    ensures r.None? <==> forall c :: c in Candidates(sunTimes, moonData) ==> c.time <= now
    ensures r.Some? ==> (EarliestFuture(Candidates(sunTimes, moonData), now).Some?
      && r.value == EventOf(Candidates(sunTimes, moonData)[EarliestFuture(Candidates(sunTimes, moonData), now).value], now))
    ensures r.Some? ==> r.value.time > now && r.value.secondsUntil >= 0 && r.value.labelText == EventLabel(r.value.kind)
  {
    var candidates := [
      Candidate(BlueHourAm, sunTimes.blueHourMorningStart),
      Candidate(Sunrise, sunTimes.sunrise),
      Candidate(GoldenHourAm, sunTimes.goldenHourMorningStart),
      Candidate(GoldenHourPm, sunTimes.goldenHourStart),
      Candidate(Sunset, sunTimes.sunset),
      Candidate(BlueHourPm, sunTimes.blueHourEveningStart)
    ];
    if moonData.moonrise.Some? {
      candidates := candidates + [Candidate(Moonrise, moonData.moonrise.value)];
    }
    if moonData.moonset.Some? {
      candidates := candidates + [Candidate(Moonset, moonData.moonset.value)];
    }
    assert candidates == Candidates(sunTimes, moonData);
    var future := Filter(candidates, After(now));
    if |future| == 0 {
      if EarliestFuture(candidates, now).Some? {
        FilterComplete(candidates, After(now), candidates[EarliestFuture(candidates, now).value]);
      }
      return None;
    }
    var sorted := SortBy(future, Time());
    var next := sorted[0];
    SortedHeadIsEarliest(candidates, now);
    r := Some(NextEvent(next.kind, EventLabel(next.kind), next.time, DifferenceInSeconds(next.time, now)));
  }

  /** formatCountdown: "Now", "<1m", "Mm" or "Hh Mm" for the seconds to go. */
  function FormatCountdown(secondsUntil: int): (s: string)
    ensures s == "Now" <==> secondsUntil <= 0
    ensures s == "<1m" <==> 0 < secondsUntil < 60
  {
    if secondsUntil <= 0 then "Now"
    else
      var hours := secondsUntil / 3600;
      var minutes := (secondsUntil % 3600) / 60;
      if hours > 0 then
        var t := NatToString(hours) + "h " + NatToString(minutes) + "m";
        assert IsDigit(t[0]);
        t
      else if minutes > 0 then
        var t := NatToString(minutes) + "m";
        assert IsDigit(t[0]);
        t
      else "<1m"
  }

  /**
   * From one minute on, the countdown shows whole hours and minutes (the
   * minutes below 60) that add up to the whole minutes to go; the hours
   * are shown exactly when there is at least one.
   */
  lemma CountdownShowsWholeMinutes(secondsUntil: int)
    requires secondsUntil >= 60
    ensures exists h: nat, m: nat :: (m < 60 && 60 * h + m == secondsUntil / 60
      && (h > 0 ==> FormatCountdown(secondsUntil) == NatToString(h) + "h " + NatToString(m) + "m")
      && (h == 0 ==> FormatCountdown(secondsUntil) == NatToString(m) + "m"))
    ensures FormatCountdown(secondsUntil)[|FormatCountdown(secondsUntil)| - 1] == 'm'
  {
    var h := secondsUntil / 3600;
    var m := (secondsUntil % 3600) / 60;
    assert secondsUntil == 3600 * h + secondsUntil % 3600;
    assert secondsUntil % 3600 == 60 * m + (secondsUntil % 3600) % 60;
    assert 60 * h + m == secondsUntil / 60;
    assert m < 60 && (h > 0 ==> FormatCountdown(secondsUntil) == NatToString(h) + "h " + NatToString(m) + "m")
      && (h == 0 ==> FormatCountdown(secondsUntil) == NatToString(m) + "m");
  }
}
