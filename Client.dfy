/**
 * The two fetchers' request URLs. Each fetcher builds the URL for its endpoint
 * and hands it to the weather service; the HTTP exchange and the JSON decoding
 * are outside the model, and the run receives them as a function from URL to
 * decoded record or `FetchError`.
 */
module Client {
  import opened Wrappers
  import opened Text

  const CurrentWeatherApi: string := "https://api.openweathermap.org/data/2.5/weather"
  const ForecastApi: string := "https://api.openweathermap.org/data/2.5/forecast"

  /** Why a fetch failed: the request, reading the body, or decoding the JSON. */
  datatype FetchError = Transport | ReadBody | Unmarshal

  /** The three query parameters a request URL carries. */
  datatype Query = Query(location: string, key: string, unit: string)

  /**
   * The request URL: `base`, then the query `q=<location>&appid=<key>&units=<unit>`.
   * The values are pasted in as they are, without any escaping, so the query is
   * exactly the three `name=value` fields joined by `&`.
   */
  function RequestUrl(base: string, location: string, key: string, unit: string): (url: string)
    ensures url == base + "?" + Join(["q=" + location, "appid=" + key, "units=" + unit], '&')
  {
    var url := base + "?q=" + location + "&appid=" + key + "&units=" + unit;
    var fields := ["q=" + location, "appid=" + key, "units=" + unit];
    assert fields[1..][1..] == ["units=" + unit];
    assert Join(fields[1..], '&') == "appid=" + key + ['&'] + "units=" + unit;
    assert "q=" + location + "&appid=" + key + "&units=" + unit
        == "q=" + location + ['&'] + ("appid=" + key + ['&'] + "units=" + unit);
    url
  }

  /** Reads the three parameters back from a query string; `None` unless it has exactly the three fields, in order. */
  function ParseQuery(q: string): Option<Query>
  {
    var fields := Split(q, '&');
    if |fields| == 3 && "q=" <= fields[0] && "appid=" <= fields[1] && "units=" <= fields[2] then
      Some(Query(fields[0][2..], fields[1][6..], fields[2][6..]))
    else
      None
  }

  /**
   * The part of a query that goes out in the request: everything before its
   * first `#`. What follows a `#` is a fragment, which the HTTP client keeps.
   */
  function SentPart(query: string): string
  {
    FirstField(query, '#')
  }

  /** The query of a URL built from values without `#` is sent whole. */
  lemma RequestUrlSentWhole(base: string, location: string, key: string, unit: string)
    requires '#' !in location && '#' !in key && '#' !in unit
    ensures var q := RequestUrl(base, location, key, unit)[|base| + 1..]; SentPart(q) == q
  {
    var url := RequestUrl(base, location, key, unit);
    assert url == base + "?" + ("q=" + location + "&appid=" + key + "&units=" + unit);
    assert url[|base| + 1..] == "q=" + location + "&appid=" + key + "&units=" + unit;
    FirstFieldIsPrefixBeforeSep(url[|base| + 1..], '#');
  }

  /**
   * Reads the parameters back from a URL built on `base` (an endpoint, which
   * has no `#`): the query is cut at its first `#` and what is sent is split
   * on `&`. No `+` or `%XX` decoding is done.
   */
  function ParseRequestUrl(base: string, url: string): Option<Query>
  {
    if |base| < |url| && url[..|base| + 1] == base + "?" then ParseQuery(SentPart(url[|base| + 1..])) else None
  }

  /**
   * When no value contains `&` or `#`, the sent query splits back on `&`
   * into exactly the location, key and unit the URL was built from.
   */
  lemma RequestUrlRoundTrip(base: string, location: string, key: string, unit: string)
    requires '&' !in location && '&' !in key && '&' !in unit
    requires '#' !in location && '#' !in key && '#' !in unit
    ensures ParseRequestUrl(base, RequestUrl(base, location, key, unit)) == Some(Query(location, key, unit))
  {
    var fields := ["q=" + location, "appid=" + key, "units=" + unit];
    assert '&' !in fields[0] && '&' !in fields[1] && '&' !in fields[2];
    SplitJoin(fields, '&');
    var url := RequestUrl(base, location, key, unit);
    RequestUrlSentWhole(base, location, key, unit);
    assert url[..|base| + 1] == base + "?";
    assert url[|base| + 1..] == Join(fields, '&');
    assert fields[0][2..] == location && fields[1][6..] == key && fields[2][6..] == unit;
  }

  /**
   * A `#` in the location cuts the request short: only `q=` and the part of
   * the location before the `#` go out, so the key and the unit are lost and
   * the query does not split back into three values.
   */
  lemma {:induction false} RequestUrlFragmentDropsKey(base: string, location: string, tail: string, key: string, unit: string)
    requires '#' !in location && '&' !in location
    ensures SentPart(RequestUrl(base, location + "#" + tail, key, unit)[|base| + 1..]) == "q=" + location
    ensures ParseRequestUrl(base, RequestUrl(base, location + "#" + tail, key, unit)) == None
  {
    var url := RequestUrl(base, location + "#" + tail, key, unit);
    var head := "q=" + location;
    var rest := "#" + tail + "&appid=" + key + "&units=" + unit;
    assert url == base + "?" + (head + rest);
    assert url[..|base| + 1] == base + "?";
    assert url[|base| + 1..] == head + rest;
    assert '#' !in head;
    SplitPrepend(head, rest, '#');
    assert Split(rest, '#')[0] == "" by {
      assert rest[0] == '#';
    }
    assert head + "" == head;
    assert SentPart(head + rest) == head;
    SplitJoin([head], '&');
  }

  /**
   * Without escaping, different inputs can give the same URL: a location that
   * itself holds `&appid=` shifts text into the key.
   */
  lemma RequestUrlCollides(base: string, location: string, key: string, key2: string, unit: string)
    ensures RequestUrl(base, location + "&appid=" + key, key2, unit)
         == RequestUrl(base, location, key + "&appid=" + key2, unit)
  {
  }

  /** Such a URL has four query fields, so it does not split back into three values. */
  lemma {:induction false} RequestUrlUnescaped(base: string, location: string, key: string, key2: string, unit: string)
    requires '&' !in location && '&' !in key && '&' !in key2 && '&' !in unit
    requires '#' !in location && '#' !in key && '#' !in key2 && '#' !in unit
    ensures ParseRequestUrl(base, RequestUrl(base, location + "&appid=" + key, key2, unit)) == None
  {
    var url := RequestUrl(base, location + "&appid=" + key, key2, unit);
    var rest := ["appid=" + key2, "units=" + unit];
    var loc2 := location + "&appid=" + key;
    var fields3 := ["q=" + loc2] + rest;
    assert "q=" + loc2 == "q=" + location + "&appid=" + key;
    var fields4 := ["q=" + location, "appid=" + key] + rest;
    assert fields3 == ["q=" + loc2, "appid=" + key2, "units=" + unit];
    assert url == base + "?" + Join(fields3, '&');
    assert fields3[1..] == rest && fields4[1..] == ["appid=" + key] + rest && fields4[1..][1..] == rest;
    assert Join(fields3, '&') == "q=" + location + "&appid=" + key + ['&'] + Join(rest, '&');
    assert Join(fields4, '&') == "q=" + location + ['&'] + ("appid=" + key + ['&'] + Join(rest, '&'));
    assert Join(fields3, '&') == Join(fields4, '&');
    assert forall k :: 0 <= k < |fields4| ==> '&' !in fields4[k];
    SplitJoin(fields4, '&');
    assert '#' !in loc2;
    RequestUrlSentWhole(base, loc2, key2, unit);
    assert url[..|base| + 1] == base + "?";
    assert url[|base| + 1..] == Join(fields4, '&');
  }

  /** URL of the current-weather request; it splits back into its parameters when they hold no `&` or `#`. */
  function CurrentWeatherUrl(location: string, key: string, unit: string): (url: string)
    ensures '&' !in location && '&' !in key && '&' !in unit &&
            '#' !in location && '#' !in key && '#' !in unit ==>
              ParseRequestUrl(CurrentWeatherApi, url) == Some(Query(location, key, unit))
  {
    var url := RequestUrl(CurrentWeatherApi, location, key, unit);
    if '&' !in location && '&' !in key && '&' !in unit &&
       '#' !in location && '#' !in key && '#' !in unit then
      RequestUrlRoundTrip(CurrentWeatherApi, location, key, unit);
      url
    else
      url
  }

  /** URL of the forecast request; it splits back into its parameters when they hold no `&` or `#`. */
  function ForecastUrl(location: string, key: string, unit: string): (url: string)
    ensures '&' !in location && '&' !in key && '&' !in unit &&
            '#' !in location && '#' !in key && '#' !in unit ==>
              ParseRequestUrl(ForecastApi, url) == Some(Query(location, key, unit))
  {
    var url := RequestUrl(ForecastApi, location, key, unit);
    if '&' !in location && '&' !in key && '&' !in unit &&
       '#' !in location && '#' !in key && '#' !in unit then
      RequestUrlRoundTrip(ForecastApi, location, key, unit);
      url
    else
      url
  }

  /** A request URL is its base followed by the query, whatever the base. */
  lemma RequestUrlSplitsAtBase(base: string, location: string, key: string, unit: string)
    ensures RequestUrl(base, location, key, unit)[..|base|] == base
    ensures RequestUrl(base, location, key, unit)[|base|..] == "?q=" + location + "&appid=" + key + "&units=" + unit
  {
    var url := RequestUrl(base, location, key, unit);
    assert url == base + ("?q=" + location + "&appid=" + key + "&units=" + unit);
  }

  /** The two endpoints get the same query; their URLs differ only in the base. */
  lemma EndpointsShareQuery(location: string, key: string, unit: string)
    ensures CurrentWeatherUrl(location, key, unit)[..|CurrentWeatherApi|] == CurrentWeatherApi
    ensures ForecastUrl(location, key, unit)[..|ForecastApi|] == ForecastApi
    ensures CurrentWeatherUrl(location, key, unit)[|CurrentWeatherApi|..]
         == ForecastUrl(location, key, unit)[|ForecastApi|..]
    ensures CurrentWeatherUrl(location, key, unit) != ForecastUrl(location, key, unit)
  {
    RequestUrlSplitsAtBase(CurrentWeatherApi, location, key, unit);
    RequestUrlSplitsAtBase(ForecastApi, location, key, unit);
    var cw, fc := CurrentWeatherUrl(location, key, unit), ForecastUrl(location, key, unit);
    assert |cw| + 1 == |fc|;
  }
}
