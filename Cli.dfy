/**
 * The command line: which of the four things a run does (print the version,
 * refuse for want of a city, fetch the forecast, fetch the current weather),
 * and the whole run as a function of the flags, the environment and the
 * weather service. The flag parser, the `.env` loader and the service are
 * outside the model: their results are the parameters.
 */
module Cli {
  import opened Wrappers
  import opened Records
  import opened Client
  import opened Presenter

  const Version: string := "v1.0.0"

  /** The parsed flags `--city`, `--unit`, `--forecast` and `--version`. */
  datatype Flags = Flags(city: string, unit: string, forecast: bool, version: bool)

  /** The flag values when none is given on the command line. */
  const DefaultFlags: Flags := Flags("", "metric", false, false)

  /** What the flags ask for. */
  datatype Mode = ShowVersion | MissingCity | ForecastMode | CurrentMode

  /**
   * The version flag wins over everything; without it an empty city is an
   * error; otherwise the forecast flag picks forecast mode over current
   * weather. Exactly one mode applies to any flags.
   */
  function Dispatch(f: Flags): (m: Mode)
    ensures m == ShowVersion <==> f.version
    ensures m == MissingCity <==> !f.version && f.city == ""
    ensures m == ForecastMode <==> !f.version && f.city != "" && f.forecast
    ensures m == CurrentMode <==> !f.version && f.city != "" && !f.forecast
  {
    if f.version then ShowVersion
    else if f.city == "" then MissingCity
    else if f.forecast then ForecastMode
    else CurrentMode
  }

  /** What the environment gives: whether the `.env` file loads, and the value of `API_Key` ("" when unset). */
  datatype Env = Env(envFileLoads: bool, apiKey: string)

  /** The credential can be used: the `.env` file loaded and `API_Key` is set. */
  predicate EnvReady(env: Env)
  {
    env.envFileLoads && env.apiKey != ""
  }

  /** What a run writes to standard error before it stops. */
  datatype Diagnostic =
    | CityRequired                      // the message and the usage text
    | EnvFileError
    | ApiKeyUnset
    | ForecastFetchFailed(error: FetchError)
    | WeatherFetchFailed(error: FetchError)
    | IndexOutOfRange                   // the runtime's panic on an empty `weather` list

  /** A finished run: exit status, lines on standard output, diagnostics, and the URLs requested. */
  datatype Outcome = Outcome(exitCode: int, stdout: seq<Line>, stderr: seq<Diagnostic>, requests: seq<string>)

  /**
   * One run of the program. The version flag prints the version and exits 0
   * whatever else is given; a missing city exits 1 before the environment or
   * the network is touched; a missing `.env` file or key exits 1 before any
   * request; otherwise exactly one request goes to the endpoint of the mode.
   * A successful run (status 0) prints the whole report of the fetched
   * record; a failed fetch exits 1 with nothing printed; a description that
   * is needed but missing stops the run with status 2, after the lines written
   * before it was read.
   */
  function Run(f: Flags, env: Env,
               weatherService: string -> Result<WeatherResponse, FetchError>,
               forecastService: string -> Result<ForecastResponse, FetchError>): (o: Outcome)
    ensures f.version ==> o == Outcome(0, [VersionBanner(Version)], [], [])
    ensures !f.version && f.city == "" ==> o == Outcome(1, [], [CityRequired], [])
    ensures o.requests == [] <==> f.version || f.city == "" || !EnvReady(env)
    ensures o.requests != [] ==>
              o.requests == [if f.forecast then ForecastUrl(f.city, env.apiKey, f.unit)
                             else CurrentWeatherUrl(f.city, env.apiKey, f.unit)]
    ensures o.exitCode == 0 || o.exitCode == 1 || o.exitCode == 2
    ensures o.exitCode == 0 <==> o.stderr == []
    ensures o.exitCode == 1 ==> o.stdout == [] && |o.stderr| == 1
    ensures o.exitCode == 0 && !f.version && f.forecast ==>
              var r := forecastService(ForecastUrl(f.city, env.apiKey, f.unit));
              r.Success? && Printable(r.value.list) && o.stdout == ForecastReport(r.value, f.unit)
    ensures o.exitCode == 0 && !f.version && !f.forecast ==>
              var r := weatherService(CurrentWeatherUrl(f.city, env.apiKey, f.unit));
              r.Success? && |r.value.weather| > 0 && o.stdout == WeatherReport(r.value, f.unit)
    ensures o.exitCode == 2 ==> o.stderr == [IndexOutOfRange] && |o.stdout| >= 1
    ensures !f.version && f.city != "" && !EnvReady(env) ==> o.exitCode == 1 && o.stdout == []
    ensures Dispatch(f) == ForecastMode && EnvReady(env) ==>
              var r := forecastService(ForecastUrl(f.city, env.apiKey, f.unit));
              (r.Failure? <==> o.exitCode == 1) &&
              (r.Success? && Printable(r.value.list) <==> o.exitCode == 0) &&
              (o.exitCode == 2 ==>
                 r.Success? && !Printable(r.value.list) &&
                 o.stdout == [ForecastHeader(r.value.city.name)]
                             + ForecastLines(r.value.list[..FirstUnprintable(r.value.list)], f.unit))
    ensures Dispatch(f) == CurrentMode && EnvReady(env) ==>
              var r := weatherService(CurrentWeatherUrl(f.city, env.apiKey, f.unit));
              (r.Failure? <==> o.exitCode == 1) &&
              (r.Success? && |r.value.weather| > 0 <==> o.exitCode == 0) &&
              (o.exitCode == 2 ==>
                 r.Success? && r.value.weather == [] &&
                 o.stdout == WeatherLinesBeforeCondition(r.value, f.unit))
  {
    var mode := Dispatch(f);
    if mode == ShowVersion then Outcome(0, [VersionBanner(Version)], [], [])
    else if mode == MissingCity then Outcome(1, [], [CityRequired], [])
    else
      if !env.envFileLoads then Outcome(1, [], [EnvFileError], [])
      else if env.apiKey == "" then Outcome(1, [], [ApiKeyUnset], [])
      else if mode == ForecastMode then
        var url := ForecastUrl(f.city, env.apiKey, f.unit);
        match forecastService(url)
        case Failure(e) => Outcome(1, [], [ForecastFetchFailed(e)], [url])
        case Success(data) =>
          if Printable(data.list) then Outcome(0, ForecastReport(data, f.unit), [], [url])
          else
            var printed := [ForecastHeader(data.city.name)] + ForecastLines(data.list[..FirstUnprintable(data.list)], f.unit);
            Outcome(2, printed, [IndexOutOfRange], [url])
      else
        var url := CurrentWeatherUrl(f.city, env.apiKey, f.unit);
        match weatherService(url)
        case Failure(e) => Outcome(1, [], [WeatherFetchFailed(e)], [url])
        case Success(data) =>
          if |data.weather| > 0 then Outcome(0, WeatherReport(data, f.unit), [], [url])
          else Outcome(2, WeatherLinesBeforeCondition(data, f.unit), [IndexOutOfRange], [url])
  }

  /**
   * With no flags at all the run stops for want of a city, whatever the
   * environment and the service would give.
   */
  lemma NoFlagsNeedsCity(env: Env,
                         weatherService: string -> Result<WeatherResponse, FetchError>,
                         forecastService: string -> Result<ForecastResponse, FetchError>)
    ensures Run(DefaultFlags, env, weatherService, forecastService).exitCode == 1
    ensures Run(DefaultFlags, env, weatherService, forecastService).requests == []
  {
  }
}
