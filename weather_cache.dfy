/**
 * src/lib/weather/cache.ts: forecasts cached in the browser's local storage
 * under one storage key, as a map from a location key (both coordinates to
 * three decimals) to the forecast with its times as ISO strings.
 *
 * The storage slot is the field `stored` of a class; each operation reads
 * the map from it and writes the whole map back. The clock (`Date.now()`)
 * and the two directions of the ISO conversion are parameters.
 */
module WeatherCache {
  import opened Common
  import opened Types

  // ---------------------------------------------------------------------
  // The location key

  /** The sign and the thousandths of |x| that `x.toFixed(3)` prints, a half rounded up. */
  function Thousandths(x: real): (bool, nat) {
    (x < 0.0, Round(Abs(x) * 1000.0))
  }

  /** `x.toFixed(3)`: the sign, the whole part, a point and three decimals. */
  function Fixed3(x: real): (s: string)
    ensures |s| >= 5
  {
    (if Thousandths(x).0 then "-" else "") + Unsigned3(Thousandths(x).1)
  }

  /** getLocationKey: `${latitude.toFixed(3)}:${longitude.toFixed(3)}`. */
  function LocationKey(latitude: real, longitude: real): string {
    Fixed3(latitude) + ":" + Fixed3(longitude)
  }

  /** No colon in a rendered coordinate, so the key splits at its only colon. */
  lemma NoColonInFixed3(x: real)
    ensures ':' !in Fixed3(x)
  {
    var digits := Unsigned3(Thousandths(x).1);
    assert forall i :: 0 <= i < |digits| ==> digits[i] == '.' || IsDigit(digits[i]);
  }

  /** Two strings that hold no separator, each followed by it, are equal when the wholes are. */
  lemma SplitAtSeparator(a: string, b: string, c: string, d: string, sep: char)
    requires sep !in a && sep !in c
    requires a + [sep] + b == c + [sep] + d
    ensures a == c && b == d
  {
    var x := a + [sep] + b;
    if |a| < |c| {
      ElementBeforeSeparator(c, d, sep, |a|);
      ElementAtSeparator(a, b, sep);
      assert false;
    } else if |c| < |a| {
      ElementBeforeSeparator(a, b, sep, |c|);
      ElementAtSeparator(c, d, sep);
      assert false;
    }
    assert a == x[..|a|] == c;
    assert b == x[|a| + 1..] == d;
  }

  lemma ElementBeforeSeparator(a: string, b: string, sep: char, i: nat)
    requires i < |a|
    ensures (a + [sep] + b)[i] == a[i] && a[i] in a
  {
  }

  lemma ElementAtSeparator(a: string, b: string, sep: char)
    ensures (a + [sep] + b)[|a|] == sep
  {
  }

  /** Three padded digits tell the number. */
  lemma ThreeDigitsInjective(m: nat, n: nat)
    requires m < 1000 && n < 1000
    requires ThreeDigits(m) == ThreeDigits(n)
    ensures m == n
  {
    assert ThreeDigits(m)[0] == ThreeDigits(n)[0];
    assert ThreeDigits(m)[1] == ThreeDigits(n)[1];
    assert ThreeDigits(m)[2] == ThreeDigits(n)[2];
    assert m / 100 == n / 100 && m / 10 % 10 == n / 10 % 10 && m % 10 == n % 10;
    ThreeDigitsValue(m);
    ThreeDigitsValue(n);
  }

  /** A number below 1000 is its hundreds, tens and units. */
  lemma ThreeDigitsValue(n: nat)
    requires n < 1000
    ensures n == 100 * (n / 100) + 10 * (n / 10 % 10) + n % 10
  {
    var q := n / 10;
    assert n == 10 * q + n % 10;
    assert q == 10 * (q / 10) + q % 10;
    assert q / 10 == n / 100;
  }

  /** The digits after the sign: the whole part, a point and three decimals. */
  function Unsigned3(n: nat): (s: string)
    ensures |s| >= 5 && IsDigit(s[0])
  {
    NatToString(n / 1000) + "." + ThreeDigits(n % 1000)
  }

  /** The unsigned rendering tells the thousandths back. */
  lemma Unsigned3Injective(m: nat, n: nat)
    requires Unsigned3(m) == Unsigned3(n)
    ensures m == n
  {
    var u := Unsigned3(m);
    var qx, qy := NatToString(m / 1000), NatToString(n / 1000);
    assert u[|u| - 3..] == ThreeDigits(m % 1000);
    assert u[|u| - 3..] == ThreeDigits(n % 1000);
    ThreeDigitsInjective(m % 1000, n % 1000);
    assert |qx| == |qy|;
    assert qx == u[..|qx|] == qy;
    NatToStringValue(m / 1000);
    NatToStringValue(n / 1000);
  }

  /** The rendering of a coordinate tells its sign and thousandths back. */
  lemma Fixed3Injective(x: real, y: real)
    requires Fixed3(x) == Fixed3(y)
    ensures Thousandths(x) == Thousandths(y)
  {
    var m, n := Thousandths(x).1, Thousandths(y).1;
    var sx := if Thousandths(x).0 then "-" else "";
    var sy := if Thousandths(y).0 then "-" else "";
    assert Fixed3(x) == sx + Unsigned3(m) && Fixed3(y) == sy + Unsigned3(n);
    assert Thousandths(x).0 == Thousandths(y).0 by {
      assert Fixed3(x)[0] == '-' <==> Thousandths(x).0;
      assert Fixed3(y)[0] == '-' <==> Thousandths(y).0;
    }
    assert Unsigned3(m) == Fixed3(x)[|sx|..] == Fixed3(y)[|sy|..] == Unsigned3(n);
    Unsigned3Injective(m, n);
  }

  /**
   * Two coordinate pairs share one cache entry exactly when both their
   * coordinates agree to three decimals (with the sign printed).
   */
  lemma LocationKeyShared(lat1: real, lon1: real, lat2: real, lon2: real)
    ensures LocationKey(lat1, lon1) == LocationKey(lat2, lon2) <==>
      Thousandths(lat1) == Thousandths(lat2) && Thousandths(lon1) == Thousandths(lon2)
  {
    if LocationKey(lat1, lon1) == LocationKey(lat2, lon2) {
      NoColonInFixed3(lat1);
      NoColonInFixed3(lat2);
      SplitAtSeparator(Fixed3(lat1), Fixed3(lon1), Fixed3(lat2), Fixed3(lon2), ':');
      Fixed3Injective(lat1, lat2);
      Fixed3Injective(lon1, lon2);
    }
  }

  // ---------------------------------------------------------------------
  // Serialisation

  /** An hourly sample as stored: its time as an ISO string. */
  datatype SerializedHourly = SerializedHourly(
    time: string,
    windSpeed: real,
    cloudCover: real,
    cloudCoverLow: real,
    cloudCoverMid: real,
    cloudCoverHigh: real,
    relativeHumidity: real
  )

  datatype SerializedForecast = SerializedForecast(
    latitude: real,
    longitude: real,
    timezone: string,
    hourly: seq<SerializedHourly>,
    fetchedAt: int
  )

  /** The storage slot: absent, a map the JSON parser reads, or text it rejects. */
  datatype StoredBlob = Parsed(entries: map<string, SerializedForecast>) | Unparsable

  function SerializeHourly(toIso: Instant -> string): HourlyForecast -> SerializedHourly {
    (p: HourlyForecast) => SerializedHourly(toIso(p.time), p.windSpeed, p.cloudCover, p.cloudCoverLow,
      p.cloudCoverMid, p.cloudCoverHigh, p.relativeHumidity)
  }

  function DeserializeHourly(parse: string -> Instant): SerializedHourly -> HourlyForecast {
    (p: SerializedHourly) => HourlyForecast(parse(p.time), p.windSpeed, p.cloudCover, p.cloudCoverLow,
      p.cloudCoverMid, p.cloudCoverHigh, p.relativeHumidity)
  }

  /** serializeForecast: every sample's time as an ISO string, the rest copied. */
  function SerializeForecast(f: WeatherForecast, toIso: Instant -> string): (s: SerializedForecast)
    ensures |s.hourly| == |f.hourly|
    ensures forall i :: 0 <= i < |f.hourly| ==> s.hourly[i].time == toIso(f.hourly[i].time)
  {
    SerializedForecast(f.latitude, f.longitude, f.timezone, Map(f.hourly, SerializeHourly(toIso)), f.fetchedAt)
  }

  /** deserializeForecast: every ISO string parsed back, the rest copied. */
  function DeserializeForecast(s: SerializedForecast, parse: string -> Instant): (f: WeatherForecast)
    ensures |f.hourly| == |s.hourly|
    ensures forall i :: 0 <= i < |s.hourly| ==> f.hourly[i].time == parse(s.hourly[i].time)
  {
    WeatherForecast(s.latitude, s.longitude, s.timezone, Map(s.hourly, DeserializeHourly(parse)), s.fetchedAt)
  }

  /** Mapping a sequence by f and then by an inverse of f gives it back. */
  lemma MapInverse<T, U>(s: seq<T>, f: T -> U, g: U -> T)
    requires forall x :: g(f(x)) == x
    ensures Map(Map(s, f), g) == s
  {
    var back := Map(Map(s, f), g);
    assert |back| == |s|;
    forall i | 0 <= i < |s|
      ensures back[i] == s[i]
    {
      assert Map(s, f)[i] == f(s[i]);
    }
  }

  /** When parsing the ISO string gives back the instant, deserialising undoes serialising. */
  lemma SerializeRoundTrip(f: WeatherForecast, toIso: Instant -> string, parse: string -> Instant)
    requires forall t :: parse(toIso(t)) == t
    ensures DeserializeForecast(SerializeForecast(f, toIso), parse) == f
  {
    forall p: HourlyForecast
      ensures DeserializeHourly(parse)(SerializeHourly(toIso)(p)) == p
    {
      assert parse(toIso(p.time)) == p.time;
    }
    MapInverse(f.hourly, SerializeHourly(toIso), DeserializeHourly(parse));
  }

  // ---------------------------------------------------------------------
  // The storage slot

  /** readCacheMap: the parsed map, or the empty map when the slot is absent or does not parse. */
  function ReadCacheMap(stored: Option<StoredBlob>): (m: map<string, SerializedForecast>)
    ensures stored.None? || stored == Some(Unparsable) ==> m == map[]
    ensures stored.Some? && stored.value.Parsed? ==> m == stored.value.entries
  {
    match stored
    case Some(Parsed(entries)) => entries
    case _ => map[]
  }

  class WeatherCacheStore {
    /** localStorage's slot photopro-weather-cache-v1. */
    var stored: Option<StoredBlob>

    constructor(initial: Option<StoredBlob>)
      ensures stored == initial
    {
      stored := initial;
    }

    /** The map a read of the slot yields. */
    function Entries(): map<string, SerializedForecast>
      reads this
    {
      ReadCacheMap(stored)
    }

    /**
     * getCachedForecast: nothing when the key is absent or the entry is
     * older than maxAgeMs (an entry exactly maxAgeMs old is still a hit),
     * otherwise the entry deserialised.
     */
    method GetCachedForecast(latitude: real, longitude: real, maxAgeMs: int, now: int, parse: string -> Instant)
      returns (r: Option<WeatherForecast>)
      ensures r.None? <==> (LocationKey(latitude, longitude) !in Entries()
        || now - Entries()[LocationKey(latitude, longitude)].fetchedAt > maxAgeMs)
      ensures r.Some? ==> (LocationKey(latitude, longitude) in Entries()
        && r.value == DeserializeForecast(Entries()[LocationKey(latitude, longitude)], parse))
    {
      var key := LocationKey(latitude, longitude);
      var cache := ReadCacheMap(stored);
      if key !in cache {
        return None;
      }
      var cached := cache[key];
      var ageMs := now - cached.fetchedAt;
      if ageMs > maxAgeMs {
        return None;
      }
      return Some(DeserializeForecast(cached, parse));
    }

    /** getCachedForecastAnyAge: the entry deserialised whatever its age, or nothing when absent. */
    method GetCachedForecastAnyAge(latitude: real, longitude: real, parse: string -> Instant)
      returns (r: Option<WeatherForecast>)
      ensures r.None? <==> LocationKey(latitude, longitude) !in Entries()
      ensures r.Some? ==> (LocationKey(latitude, longitude) in Entries()
        && r.value == DeserializeForecast(Entries()[LocationKey(latitude, longitude)], parse))
    {
      var key := LocationKey(latitude, longitude);
      var cache := ReadCacheMap(stored);
      if key !in cache {
        return None;
      }
      return Some(DeserializeForecast(cache[key], parse));
    }

    /**
     * setCachedForecast: the map read back with the entry under the
     * forecast's own key overwritten, and written to the slot.
     */
    method SetCachedForecast(forecast: WeatherForecast, toIso: Instant -> string)
      modifies this
      ensures stored == Some(Parsed(old(Entries())[LocationKey(forecast.latitude, forecast.longitude)
        := SerializeForecast(forecast, toIso)]))
      ensures Entries().Keys == old(Entries()).Keys + {LocationKey(forecast.latitude, forecast.longitude)}
      ensures forall k :: k in old(Entries()) && k != LocationKey(forecast.latitude, forecast.longitude) ==>
        Entries()[k] == old(Entries())[k]
    {
      var key := LocationKey(forecast.latitude, forecast.longitude);
      var cache := ReadCacheMap(stored);
      cache := cache[key := SerializeForecast(forecast, toIso)];
      stored := Some(Parsed(cache));
    }

    /**
     * clearCachedForecast: when the key is present the map without it is
     * written; when it is absent nothing is written and the slot is left
     * as it was.
     */
    method ClearCachedForecast(latitude: real, longitude: real)
      modifies this
      ensures LocationKey(latitude, longitude) !in old(Entries()) ==> stored == old(stored)
      ensures LocationKey(latitude, longitude) in old(Entries()) ==>
        stored == Some(Parsed(old(Entries()) - {LocationKey(latitude, longitude)}))
      ensures LocationKey(latitude, longitude) !in Entries()
      ensures forall k :: k != LocationKey(latitude, longitude) ==>
        (k in Entries() <==> k in old(Entries())) && (k in Entries() ==> Entries()[k] == old(Entries())[k])
    {
      var key := LocationKey(latitude, longitude);
      var cache := ReadCacheMap(stored);
      if key !in cache {
        return;
      }
      cache := map k | k in cache && k != key :: cache[k];
      assert cache == ReadCacheMap(stored) - {key};
      stored := Some(Parsed(cache));
    }
  }

  /**
   * Storing a forecast and reading it back within its age limit gives the
   * forecast itself, when the ISO conversion round-trips.
   */
  method StoreThenRead(cache: WeatherCacheStore, forecast: WeatherForecast, toIso: Instant -> string,
                       parse: string -> Instant, now: int, maxAgeMs: int) returns (r: Option<WeatherForecast>)
    requires forall t :: parse(toIso(t)) == t
    requires now - forecast.fetchedAt <= maxAgeMs
    modifies cache
    ensures r == Some(forecast)
  {
    cache.SetCachedForecast(forecast, toIso);
    r := cache.GetCachedForecast(forecast.latitude, forecast.longitude, maxAgeMs, now, parse);
    SerializeRoundTrip(forecast, toIso, parse);
  }
}
