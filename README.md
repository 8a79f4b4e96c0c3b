# Weather Fetcher CLI, modelled in Dafny

Weather Fetcher CLI is a small Go command-line tool. It takes a city, a unit
token and a mode from its flags and reads an API key from a `.env` file. It
sends one request to the OpenWeatherMap current-weather or 5-day-forecast
endpoint and prints a short report. This project models the deterministic core
of `main.go` and proves properties of it:

- the choice of temperature symbol for a unit token;
- the request URLs of the two fetchers, and what they carry;
- the current-weather report;
- the forecast report: one line per entry whose timestamp contains
  `12:00:00`, in list order, dated by the text before the first space;
- the decision taken by `main` from the flags and the environment, with exit
  status, output, diagnostics and the URL requested.

Printing is modelled as producing a sequence of `Line` records. `Render` gives
each record's text, with the source's literal labels. The digits of a number
come from a formatter passed in as a parameter.

Files:

- `Wrappers.dfy`: `Option` and `Result`.
- `Text.dfy`: `strings.Contains` and `strings.Split` with a one-character separator, plus `Join`, which undoes `Split`.
- `Records.dfy`: the decoded JSON records `MainData`, `WeatherInfo`, `WeatherResponse`, `ForecastItem`, `CityInfo` and `ForecastResponse`.
- `Client.dfy`: the two endpoints, the URL construction, the part of the query that is sent (everything before the first `#`), and a reader that splits that part back on `&`.
- `Presenter.dfy`: the unit symbol, the two reports and their display methods, the selection lemmas, and `Render`.
- `Cli.dfy`: flag dispatch, and `Run`, one whole invocation.

`displayWeather` and `displayForecast` write their lines one after another. They
are modelled as the methods `DisplayWeather` and `DisplayForecast`. Each one
builds its output sequence step by step. `DisplayForecast` has the source's loop
over the forecast list. Each method is proved equal to a specification function
(`WeatherReport`, `ForecastReport`), and the lemmas are stated about those
functions. The unit-symbol choice, date extraction, URL construction and
dispatch are pure expressions in the source and are functions here.

A run can stop part-way. When a description is needed and the `weather` list
is empty, reading `Weather[0]` makes the Go runtime panic (exit status 2), and
the lines already printed stay printed. For current weather these are the
header, the temperature and the maximum. For a forecast they are the header and
the lines of the entries before the failing one. `Run` models this outcome. The
missing-key failure is `log.Fatalf`, so its status is exactly 1.

## Model

| member | source | states |
|---|---|---|
| Presenter.UnitSymbol | main.go:155-160 | The symbol is `°F` exactly when the unit token is `"imperial"` and `°C` exactly when it is anything else (`"metric"`, empty, unknown). The forecast loop repeats this choice at lines 172-177. |
| Presenter.WeatherReport | main.go:152-167 | The current-weather report has six lines, in this order: a header naming the location, the temperature, the maximum, the condition (the first description), the humidity, and the "feels like" temperature. Each carries its own reading, and every temperature carries the unit's symbol. A non-empty `weather` list is required. |
| Presenter.DisplayWeather | main.go:152-167 | Writing the lines one after another gives exactly `WeatherReport`. It requires a non-empty `weather` list, because the source reads `Weather[0]`. |
| Presenter.WeatherLinesBeforeCondition | main.go:162-164 | The lines written before `Weather[0]` is read: three lines, namely the header naming the location, the temperature and the maximum, each with its reading and the unit's symbol. |
| Presenter.LinesBeforeConditionStartReport | main.go:162-164 | Those three lines are the start of the report of every snapshot with the same name and readings, whatever its descriptions. |
| Presenter.WeatherReportUnitSwap | main.go:155-166 | Changing the unit token changes only the symbols in the current-weather report. |
| Presenter.DateOf | main.go:179 | The date label is a prefix of the timestamp and contains no space. Without a space it is the whole timestamp. Otherwise it ends right at the first space. |
| Presenter.EntryLine | main.go:179-186 | A shown entry's line has the entry's date label (`DateOf` of its timestamp), its four readings (temperature, maximum, feels-like, humidity), the unit's symbol and the first description. |
| Presenter.IsMidday | main.go:178 | An entry is selected exactly when the midday marker `12:00:00` occurs somewhere in its timestamp. |
| Presenter.PrintableAtMiddayPositions | main.go:178-186 | A list can be shown without a panic exactly when every entry at a selected position has a non-empty `weather` list. |
| Presenter.ForecastLines | main.go:171-187 | The loop body's output for a list: no more lines than entries, and each one a forecast line carrying the unit's symbol. |
| Presenter.ForecastReport | main.go:170-188 | The forecast report is a header naming the city, then exactly one line per midday entry: line j + 1 is the line of the j-th midday entry in list order. |
| Presenter.MiddayIndices | main.go:171-178 | Lists exactly the positions of the entries whose timestamp contains `12:00:00`, each once, in increasing order. |
| Presenter.ForecastLinesFollowSelection | main.go:171-187 | There is one forecast line per midday entry. The j-th line is the line of the j-th midday entry in list order, so the output is an order-preserving subsequence of the list. |
| Presenter.ForecastLinesConcat | main.go:171-187 | The lines for two lists joined together are the lines of each list, in turn. Each entry contributes its own lines independently of the rest. |
| Presenter.SkippedEntryAddsNothing | main.go:178 | An entry whose timestamp lacks `12:00:00` produces no line: removing it leaves the output unchanged. |
| Presenter.ForecastReportLineCount | main.go:170-188 | The forecast report is one header naming the city, followed by one line per midday entry. With no midday entry, and in particular with an empty list, only the header is printed. |
| Presenter.ForecastLinesUnitSwap | main.go:172-186 | Changing the unit token changes only the symbols in the forecast lines. |
| Presenter.FirstUnprintable | main.go:178-186 | When some midday entry has an empty `weather` list, this gives the position of the first such entry, where the loop panics. Every entry before it can be printed. |
| Presenter.DisplayForecast | main.go:169-189 | Writing the header and then walking the list in order gives exactly `ForecastReport`. It requires that every midday entry has a description. |
| Presenter.Render | main.go:153-186 | Every line's text ends with a newline. A forecast line's text starts with its date label. |
| Presenter.DateOfTimestamp | main.go:179 | The date label of `"2024-05-01 12:00:00"` is `"2024-05-01"`. |
| Presenter.NoonTimestampIsMidday | main.go:178 | The timestamp `"2024-05-01 12:00:00"` contains the midday marker. |
| Presenter.SingleMiddayEntry | main.go:178-186 | A list holding one midday entry gives exactly that entry's line. |
| Presenter.NoonEntryShown | main.go:178-186 | An entry stamped `"2024-05-01 12:00:00"` is selected, whatever its readings. In metric units it produces one line dated `2024-05-01`, with those readings, its description and `°C`. |
| Text.Contains | main.go:178 | `strings.Contains`: true exactly when the substring occurs at some position. The empty substring occurs everywhere. |
| Text.Split | main.go:179 | `strings.Split` on one separator character: at least one piece, no piece contains the separator, and joining the pieces gives back the string. |
| Text.FirstFieldIsPrefixBeforeSep | main.go:179 | `strings.Split(s, " ")[0]` is the prefix of `s` before its first separator, or all of `s` when there is none. |
| Text.SplitJoin | main.go:179 | Splitting pieces that were joined, when no piece contains the separator, gives back those pieces. |
| Client.RequestUrl | main.go:108 | The URL is the base, then `?`, then the three fields `q=<city>`, `appid=<key>` and `units=<unit>` joined by `&`, with nothing escaped. |
| Client.RequestUrlRoundTrip | main.go:108 | When no value contains `&` or `#`, the sent query splits back on `&` into exactly the city, key and unit. |
| Client.RequestUrlFragmentDropsKey | main.go:108-111 | A `#` in the city cuts the sent query to `q=` and the city's text before the `#`: the key and the unit are not sent, and the query does not split back into three values. |
| Client.RequestUrlCollides | main.go:108 | Without escaping, two different inputs can give the same URL: a city holding `&appid=` shifts text into the key. |
| Client.RequestUrlUnescaped | main.go:108-131 | Such a URL, built the same way by both fetchers (lines 108 and 131), has four query fields and does not split back into three values. |
| Client.CurrentWeatherUrl | main.go:108 | The current-weather URL is built on the current-weather endpoint. Its sent query splits back on `&` into its parameters when none of them contains `&` or `#`. |
| Client.ForecastUrl | main.go:131 | The forecast URL is built on the forecast endpoint. Its sent query splits back on `&` into its parameters when none of them contains `&` or `#`. |
| Client.EndpointsShareQuery | main.go:104-150 | The two fetchers' URLs start with their own endpoints and have the same query after them. They are never equal. |
| Cli.Dispatch | main.go:65-101 | Exactly one mode applies. `--version` wins over everything. Without it, an empty city is an error. Otherwise `--forecast` picks forecast mode and its absence picks current weather. |
| Cli.Run | main.go:55-101 | `--version` prints the version and exits 0, with no request, whatever else is given. An empty city exits 1 with no request, whatever the environment. A missing `.env` file or key exits 1 with no request. Otherwise exactly one request is made, to the mode's URL. Exit status 0 happens exactly when nothing goes to standard error, and then the full report of the fetched record is printed. A failed fetch exits 1 with nothing printed. The only other status is 2, the panic on a missing description. With the environment ready, in either mode: status 1 happens exactly when the fetch failed; status 0 exactly when it succeeded and every description needed is present; status 2 exactly when a needed description is missing, and then standard output holds the lines written before the panic (the forecast header and the lines of the entries before the first unprintable one, or the first three current-weather lines). |
| Cli.NoFlagsNeedsCity | main.go:56-77 | With every flag at its default, the run exits 1 without a request. |

## Left out

- Flag parsing by the `flag` package and the usage text of `flag.PrintDefaults`: the parsed values are the `Flags` record, and the usage message is the single diagnostic `CityRequired`. `flag.Parse` itself can end the run before `Run` starts: an unknown flag exits 2, and `-h` exits 0 with the usage text on standard error. `Run`'s statements about exit statuses hold only once the flags have parsed.
- `godotenv.Load` and `os.Getenv`: their results are the `Env` record (whether the file loaded, and the key's value).
- `http.Get`, `io.ReadAll`, `res.Body.Close` and `json.Unmarshal`: the network and the JSON decoder are one function parameter from URL to decoded record or `FetchError` (`Transport`, `ReadBody`, `Unmarshal`). The program does not check the HTTP status, so that function may return any record, including an empty one. `http.Get` has no timeout, so a server that never answers hangs the run; the model has no such outcome, and `Run`'s statements hold for runs whose request returns.
- `getWeather` and `getForecast`: each one builds its URL (`CurrentWeatherUrl`, `ForecastUrl`) and applies the service to it. `Run` does this directly.
- Floating-point values and their `%.2f` and `%.1f` rendering: readings are `real`, with no rounding, NaN or infinity, and the digits come from the formatter parameter of `Render`.
- The wording of `log.Fatal` messages and of the runtime's panic message: diagnostics are kinds, not text.
- Strings are sequences of Unicode characters, while Go's `strings` works on UTF-8 bytes. For the ASCII marker `12:00:00` and the ASCII separator `" "` the two give the same matches and cuts.
- Client.ParseQuery: the reader cuts the query at its first `#` and splits the rest on `&` only. It does no `+` or `%XX` decoding, as a server's query reader would, so for values holding `+` or `%` it gives back the raw text that was sent, not what the server reads.
- `strings.Split` is modelled only for a one-character separator, the only kind the program uses.
