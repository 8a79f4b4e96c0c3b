/**
 * The presenter: turns a decoded current-weather answer or forecast into the
 * lines the program writes to standard output. A written line is a `Line`
 * record; `Render` gives its text, with the digits of each number left to an
 * abstract formatter `fmt(value, decimals)`.
 */
module Presenter {
  import opened Text
  import opened Records

  const Fahrenheit: string := "°F"
  const Celsius: string := "°C"

  /** The text a forecast timestamp must contain for its entry to be shown. */
  const MiddayMarker: string := "12:00:00"

  /** The suffix for temperatures: Fahrenheit for the unit token "imperial", Celsius for every other token. */
  function UnitSymbol(unit: string): (sym: string)
    ensures sym == Fahrenheit <==> unit == "imperial"
    ensures sym == Celsius <==> unit != "imperial"
  {
    if unit == "imperial" then Fahrenheit else Celsius
  }

  /** One line of standard output. */
  datatype Line =
    | VersionBanner(version: string)
    | WeatherHeader(name: string)
    | Temperature(value: real, symbol: string)
    | MaxTemperature(value: real, symbol: string)
    | Condition(description: string)
    | Humidity(value: real)
    | FeelsLike(value: real, symbol: string)
    | ForecastHeader(city: string)
    | DayReading(date: string, temp: real, tempMax: real, feelsLike: real, humidity: real,
                 description: string, symbol: string)
  {
    /** The line ends in a temperature unit symbol. */
    predicate CarriesSymbol()
    {
      Temperature? || MaxTemperature? || FeelsLike? || DayReading?
    }
  }

  /** The same line with its unit symbol (if it has one) replaced by `sym`. */
  function WithSymbol(l: Line, sym: string): Line
  {
    if l.CarriesSymbol() then l.(symbol := sym) else l
  }

  /** Every line with its unit symbol replaced by `sym`. */
  function Resymbol(lines: seq<Line>, sym: string): seq<Line>
  {
    seq(|lines|, i requires 0 <= i < |lines| => WithSymbol(lines[i], sym))
  }

  /** Every line that carries a unit symbol carries `sym`. */
  predicate AllSymbols(lines: seq<Line>, sym: string)
  {
    forall i :: 0 <= i < |lines| && lines[i].CarriesSymbol() ==> lines[i].symbol == sym
  }

  // ---------------------------------------------------------------- current weather

  /**
   * The current-weather report: a header naming the location, then temperature,
   * maximum, condition (the first description), humidity and "feels like";
   * every temperature has the unit's symbol.
   */
  function WeatherReport(data: WeatherResponse, unit: string): (lines: seq<Line>)
    requires |data.weather| > 0
    ensures |lines| == 6 && lines[0] == WeatherHeader(data.name)
    ensures AllSymbols(lines, UnitSymbol(unit))
    ensures lines[1] == Temperature(data.main.temp, UnitSymbol(unit))
    ensures lines[2] == MaxTemperature(data.main.tempMax, UnitSymbol(unit))
    ensures lines[3] == Condition(data.weather[0].description)
    ensures lines[4] == Humidity(data.main.humidity)
    ensures lines[5] == FeelsLike(data.main.feelsLike, UnitSymbol(unit))
  {
    var sym := UnitSymbol(unit);
    [ WeatherHeader(data.name),
      Temperature(data.main.temp, sym),
      MaxTemperature(data.main.tempMax, sym),
      Condition(data.weather[0].description),
      Humidity(data.main.humidity),
      FeelsLike(data.main.feelsLike, sym) ]
  }

  /**
   * What is written before the first description is read: the header, the
   * temperature and the maximum. When the `weather` list is empty the run
   * stops right after them.
   */
  function WeatherLinesBeforeCondition(data: WeatherResponse, unit: string): (lines: seq<Line>)
    ensures |lines| == 3 && lines[0] == WeatherHeader(data.name)
    ensures lines[1] == Temperature(data.main.temp, UnitSymbol(unit))
    ensures lines[2] == MaxTemperature(data.main.tempMax, UnitSymbol(unit))
    ensures AllSymbols(lines, UnitSymbol(unit))
  {
    var sym := UnitSymbol(unit);
    [ WeatherHeader(data.name),
      Temperature(data.main.temp, sym),
      MaxTemperature(data.main.tempMax, sym) ]
  }

  /**
   * Those lines are the start of the report of any snapshot with the same
   * name and readings: whatever the descriptions, the first three lines are
   * already fixed.
   */
  lemma LinesBeforeConditionStartReport(data: WeatherResponse, data': WeatherResponse, unit: string)
    requires |data'.weather| > 0 && data'.name == data.name && data'.main == data.main
    ensures WeatherReport(data', unit)[..3] == WeatherLinesBeforeCondition(data, unit)
  {
  }

  /** Changing the unit token changes only the symbols of the report. */
  lemma WeatherReportUnitSwap(data: WeatherResponse, unit: string, unit': string)
    requires |data.weather| > 0
    ensures WeatherReport(data, unit') == Resymbol(WeatherReport(data, unit), UnitSymbol(unit'))
  {
  }

  /** Writes the current-weather report, line by line. */
  method DisplayWeather(data: WeatherResponse, unit: string) returns (out: seq<Line>)
    requires |data.weather| > 0
    ensures out == WeatherReport(data, unit)
  {
    out := [WeatherHeader(data.name)];
    var unitSymbol := if unit == "imperial" then Fahrenheit else Celsius;
    out := out + [Temperature(data.main.temp, unitSymbol)];
    out := out + [MaxTemperature(data.main.tempMax, unitSymbol)];
    out := out + [Condition(data.weather[0].description)];
    out := out + [Humidity(data.main.humidity)];
    out := out + [FeelsLike(data.main.feelsLike, unitSymbol)];
  }

  // ---------------------------------------------------------------- forecast

  /** The entry's timestamp contains the midday marker. */
  predicate IsMidday(item: ForecastItem): (b: bool)
    ensures b <==> exists i: nat :: OccursAt(item.dtTxt, MiddayMarker, i)
  {
    Contains(item.dtTxt, MiddayMarker)
  }


  /**
   * The date label of a timestamp: the text before its first space, or all of
   * it when it has no space.
   */
  function DateOf(dtTxt: string): (date: string)
    ensures date <= dtTxt && ' ' !in date
    ensures ' ' !in dtTxt ==> date == dtTxt
    ensures ' ' in dtTxt ==> |date| < |dtTxt| && dtTxt[|date|] == ' '
  {
    FirstFieldIsPrefixBeforeSep(dtTxt, ' ');
    FirstField(dtTxt, ' ')
  }

  /** The line for one shown forecast entry. */
  function EntryLine(item: ForecastItem, unit: string): (l: Line)
    requires |item.weather| > 0
    ensures l.DayReading? && l.symbol == UnitSymbol(unit)
    ensures l.date <= item.dtTxt && ' ' !in l.date
    ensures l.date == DateOf(item.dtTxt)
    ensures l.temp == item.main.temp && l.tempMax == item.main.tempMax
    ensures l.feelsLike == item.main.feelsLike && l.humidity == item.main.humidity
    ensures l.description == item.weather[0].description
  {
    DayReading(DateOf(item.dtTxt), item.main.temp, item.main.tempMax, item.main.feelsLike,
               item.main.humidity, item.weather[0].description, UnitSymbol(unit))
  }

  /** The lines for the entries of `items`: one per midday entry, in the order of the list. */
  function ForecastLines(items: seq<ForecastItem>, unit: string): (lines: seq<Line>)
    requires Printable(items)
    ensures |lines| <= |items|
    ensures forall i :: 0 <= i < |lines| ==> lines[i].DayReading? && lines[i].symbol == UnitSymbol(unit)
    decreases |items|
  {
    if items == [] then []
    else
      var last := items[|items| - 1];
      ForecastLines(items[..|items| - 1], unit) + (if IsMidday(last) then [EntryLine(last, unit)] else [])
  }


  /**
   * The positions of the midday entries: exactly those positions, each once,
   * in increasing order.
   */
  function MiddayIndices(items: seq<ForecastItem>): (idx: seq<nat>)
    ensures forall j :: 0 <= j < |idx| ==> idx[j] < |items| && IsMidday(items[idx[j]])
    ensures forall j, j' :: 0 <= j < j' < |idx| ==> idx[j] < idx[j']
    ensures forall k :: 0 <= k < |items| && IsMidday(items[k]) ==> k in idx
    decreases |items|
  {
    if items == [] then []
    else
      var init := items[..|items| - 1];
      var idx := MiddayIndices(init);
      assert forall k :: 0 <= k < |init| ==> init[k] == items[k];
      idx + (if IsMidday(items[|items| - 1]) then [|items| - 1] else [])
  }

  /** Every entry that would be shown has a description to show. */
  predicate Printable(items: seq<ForecastItem>)
  {
    forall k :: 0 <= k < |items| && IsMidday(items[k]) ==> |items[k].weather| > 0
  }

  /**
   * A list can be printed exactly when every entry at a position that
   * `MiddayIndices` lists has a non-empty `weather` list.
   */
  lemma PrintableAtMiddayPositions(items: seq<ForecastItem>)
    ensures Printable(items)
        <==> (forall j :: 0 <= j < |MiddayIndices(items)| ==> |items[MiddayIndices(items)[j]].weather| > 0)
  {
    var idx := MiddayIndices(items);
    if forall j :: 0 <= j < |idx| ==> |items[idx[j]].weather| > 0 {
      forall k | 0 <= k < |items| && IsMidday(items[k]) ensures |items[k].weather| > 0 {
        var j :| 0 <= j < |idx| && idx[j] == k;
      }
    }
    if Printable(items) {
      forall j | 0 <= j < |idx| ensures |items[idx[j]].weather| > 0 {
        assert idx[j] < |items| && IsMidday(items[idx[j]]);
      }
    }
  }

  /**
   * The j-th forecast line is the line of the j-th midday entry; there are as
   * many lines as midday entries.
   */
  lemma {:induction false} ForecastLinesFollowSelection(items: seq<ForecastItem>, unit: string)
    requires Printable(items)
    ensures |ForecastLines(items, unit)| == |MiddayIndices(items)|
    ensures forall j :: 0 <= j < |MiddayIndices(items)| ==>
              MiddayIndices(items)[j] < |items| &&
              ForecastLines(items, unit)[j] == EntryLine(items[MiddayIndices(items)[j]], unit)
    decreases |items|
  {
    if items != [] {
      var init := items[..|items| - 1];
      ForecastLinesFollowSelection(init, unit);
      assert forall k :: 0 <= k < |init| ==> init[k] == items[k];
    }
  }

  /** The lines of two lists one after the other are the lines of each list, one after the other. */
  lemma {:induction false} ForecastLinesConcat(a: seq<ForecastItem>, b: seq<ForecastItem>, unit: string)
    requires Printable(a) && Printable(b)
    ensures Printable(a + b)
    ensures ForecastLines(a + b, unit) == ForecastLines(a, unit) + ForecastLines(b, unit)
    decreases |b|
  {
    assert forall k :: 0 <= k < |a + b| ==> (a + b)[k] == if k < |a| then a[k] else b[k - |a|];
    if b == [] {
      assert a + b == a;
    } else {
      var init := b[..|b| - 1];
      assert Printable(init);
      ForecastLinesConcat(a, init, unit);
      assert (a + b)[..|a + b| - 1] == a + init;
    }
  }

  /**
   * The forecast report: a header naming the city, then, in list order, the
   * line of each midday entry and of no other entry.
   */
  function ForecastReport(data: ForecastResponse, unit: string): (lines: seq<Line>)
    requires Printable(data.list)
    ensures |lines| == 1 + |MiddayIndices(data.list)| && lines[0] == ForecastHeader(data.city.name)
    ensures forall j :: 0 <= j < |MiddayIndices(data.list)| ==>
              MiddayIndices(data.list)[j] < |data.list| &&
              lines[j + 1] == EntryLine(data.list[MiddayIndices(data.list)[j]], unit)
  {
    ForecastLinesFollowSelection(data.list, unit);
    [ForecastHeader(data.city.name)] + ForecastLines(data.list, unit)
  }

  /** An entry without the midday marker adds no line: dropping it leaves the lines as they were. */
  lemma SkippedEntryAddsNothing(a: seq<ForecastItem>, item: ForecastItem, b: seq<ForecastItem>, unit: string)
    requires Printable(a) && Printable(b) && !IsMidday(item)
    ensures Printable(a + [item] + b)
    ensures ForecastLines(a + [item] + b, unit) == ForecastLines(a + b, unit)
  {
    assert ForecastLines([item], unit) == [] by {
      assert [item][..0] == [];
    }
    ForecastLinesConcat(a, [item], unit);
    ForecastLinesConcat(a + [item], b, unit);
    ForecastLinesConcat(a, b, unit);
  }

  /**
   * The forecast report is the header and one line per midday entry; with no
   * midday entry (an empty list in particular) it is the header alone.
   */
  lemma ForecastReportLineCount(data: ForecastResponse, unit: string)
    requires Printable(data.list)
    ensures |ForecastReport(data, unit)| == 1 + |MiddayIndices(data.list)|
    ensures ForecastReport(data, unit)[0] == ForecastHeader(data.city.name)
    ensures (forall k :: 0 <= k < |data.list| ==> !IsMidday(data.list[k])) ==>
              ForecastReport(data, unit) == [ForecastHeader(data.city.name)]
  {
    ForecastLinesFollowSelection(data.list, unit);
    var idx := MiddayIndices(data.list);
    assert |idx| == 0 || IsMidday(data.list[idx[0]]);
  }

  /** Changing the unit token changes only the symbols of the forecast lines. */
  lemma {:induction false} ForecastLinesUnitSwap(items: seq<ForecastItem>, unit: string, unit': string)
    requires Printable(items)
    ensures ForecastLines(items, unit') == Resymbol(ForecastLines(items, unit), UnitSymbol(unit'))
    decreases |items|
  {
    if items != [] {
      ForecastLinesUnitSwap(items[..|items| - 1], unit, unit');
    }
  }

  /**
   * Where a forecast run stops when some midday entry has no description: the
   * position of the first such entry. Everything before it is printable.
   */
  function FirstUnprintable(items: seq<ForecastItem>): (k: nat)
    requires !Printable(items)
    ensures k < |items| && IsMidday(items[k]) && |items[k].weather| == 0
    ensures Printable(items[..k])
    decreases |items|
  {
    if IsMidday(items[0]) && |items[0].weather| == 0 then
      assert items[..0] == [];
      0
    else
      var k := FirstUnprintable(items[1..]);
      assert items[..k + 1] == [items[0]] + items[1..][..k];
      k + 1
  }

  /** Writes the forecast report: the header, then one line per midday entry, walking the list in order. */
  method DisplayForecast(data: ForecastResponse, unit: string) returns (out: seq<Line>)
    requires Printable(data.list)
    ensures out == ForecastReport(data, unit)
  {
    out := [ForecastHeader(data.city.name)];
    for i := 0 to |data.list|
      invariant Printable(data.list[..i])
      invariant out == [ForecastHeader(data.city.name)] + ForecastLines(data.list[..i], unit)
    {
      var item := data.list[i];
      var unitSymbol := if unit == "imperial" then Fahrenheit else Celsius;
      if Contains(item.dtTxt, MiddayMarker) {
        var date := Split(item.dtTxt, ' ')[0];
        out := out + [DayReading(date, item.main.temp, item.main.tempMax, item.main.feelsLike,
                                 item.main.humidity, item.weather[0].description, unitSymbol)];
      }
      assert data.list[..i + 1][..i] == data.list[..i];
    }
    assert data.list[..|data.list|] == data.list;
  }

  // ---------------------------------------------------------------- text

  /**
   * The text of a line, newline included. `fmt(v, d)` stands for printing `v`
   * with `d` decimals (`%.2f` in the current-weather report, `%.1f` in the
   * forecast).
   */
  function Render(l: Line, fmt: (real, nat) -> string): (text: string)
    ensures |text| > 0 && text[|text| - 1] == '\n'
    ensures l.DayReading? ==> l.date <= text
  {
    match l
    case VersionBanner(v) => "Weather Fetcher CLI version is: " + v + "\n"
    case WeatherHeader(n) => "Current Weather for " + n + ":\n"
    case Temperature(v, s) => "Temperature: " + fmt(v, 2) + s + "\n"
    case MaxTemperature(v, s) => "Maximum Temperature: " + fmt(v, 2) + s + "\n"
    case Condition(d) => "Condition: " + d + "\n"
    case Humidity(v) => "Humidity: " + fmt(v, 2) + "%\n"
    case FeelsLike(v, s) => "Feels like: " + fmt(v, 2) + s + "\n"
    case ForecastHeader(c) => "5 day forecast for " + c + ":\n"
    case DayReading(date, t, mx, fl, h, d, s) =>
      date + ": Temp: " + fmt(t, 1) + s + ", Max Temp: " + fmt(mx, 1) + s
        + ", Feels Like: " + fmt(fl, 1) + s + ", Humidity: " + fmt(h, 1) + "% Condition: " + d + "\n"
  }

  /** The date label of a well-formed timestamp is its "YYYY-MM-DD" part. */
  lemma DateOfTimestamp()
    ensures DateOf("2024-05-01 12:00:00") == "2024-05-01"
  {
    var day, time := "2024-05-01", "12:00:00";
    assert ' ' !in day && ' ' !in time;
    assert Join([day, time], ' ') == "2024-05-01 12:00:00";
    SplitJoin([day, time], ' ');
  }

  /** A list holding one midday entry gives exactly that entry's line. */
  lemma SingleMiddayEntry(item: ForecastItem, unit: string)
    requires IsMidday(item) && |item.weather| > 0
    ensures ForecastLines([item], unit) == [EntryLine(item, unit)]
  {
    assert [item][..0] == [];
  }

  /** A timestamp at noon contains the midday marker. */
  lemma NoonTimestampIsMidday()
    ensures Contains("2024-05-01 12:00:00", MiddayMarker)
  {
    assert OccursAt("2024-05-01 12:00:00", MiddayMarker, 11);
  }

  /**
   * A reading stamped at noon on 1 May 2024, shown in metric units, gives one
   * line dated "2024-05-01" with its readings, its description and the
   * Celsius symbol.
   */
  lemma NoonEntryShown(readings: MainData, description: string)
    ensures var item := ForecastItem([WeatherInfo(description)], readings, "2024-05-01 12:00:00");
            IsMidday(item) &&
            ForecastLines([item], "metric")
              == [DayReading("2024-05-01", readings.temp, readings.tempMax, readings.feelsLike,
                             readings.humidity, description, Celsius)]
  {
    var item := ForecastItem([WeatherInfo(description)], readings, "2024-05-01 12:00:00");
    NoonTimestampIsMidday();
    DateOfTimestamp();
    SingleMiddayEntry(item, "metric");
  }
}
