/**
  The background worker `get_weather_data` (p4.py:14-41): it turns the
  configured API key and the outcome of one HTTP request into the single
  item it puts on the data queue.

  The environment lookup, the URL, the GET itself and JSON decoding are not
  modelled as code: the key and the request outcome are inputs, and the
  decoded JSON is given as the fields the worker reads from it.
 */
module Weather {
  import Text

  datatype Option<+T> = None | Some(value: T)

  /** The fields the worker reads from a decoded response body. */
  datatype Fields = Fields(
    name: string,          // data['name']
    description: string,   // data['weather'][0]['description']
    main: string,          // data['weather'][0]['main']
    temp: real,            // data['main']['temp']
    feelsLike: real,       // data['main']['feels_like']
    humidity: int,         // data['main']['humidity']
    windSpeed: real,       // data['wind']['speed']
    icon: string)          // data['weather'][0]['icon']

  /** What `response.json()` and the field lookups make of the body. */
  datatype Body =
    | Decoded(fields: Fields)
      /** The body is not JSON: requests raises its JSONDecodeError, which is a RequestException. */
    | NotJson
      /**
        JSON the field lookups cannot use: a missing key or index, a body that is not an
        object, or a description that is not a string. The KeyError, IndexError, TypeError
        or AttributeError is not a RequestException, so it escapes the worker.
       */
    | Incomplete

  /** The outcome of `requests.get(url, timeout=10)`. */
  datatype FetchOutcome =
    | Response(status: nat, body: Body)
      /** Any `requests.exceptions.RequestException`: timeout, DNS failure, refused connection, ... */
    | RequestFailed

  /** The success dictionary the worker builds. */
  datatype WeatherInfo = WeatherInfo(
    city: string,
    conditionsDesc: string,
    conditionsMain: string,
    temp: real,
    feelsLike: real,
    humidity: int,
    windSpeed: real,
    icon: string)

  /** A queue item: `{"status": "success", ...}` or `{"status": "error", "message": ...}`. */
  datatype QueueItem = Success(info: WeatherInfo) | Error(message: string)

  /** One run of the worker: whether it issued the request, and what it put on the queue. */
  datatype Run = Run(requested: bool, items: seq<QueueItem>)

  /** The causes the worker reports as error messages. */
  datatype Failure =
    | KeyMissing
    | CityNotFound(city: string)
    | ApiStatus(code: nat)
    | ConnectionFailed

  const KeyMissingText := "API key not configured."
  const ConnectionText := "Connection error."
  const NotFoundPrefix := "City '"
  const NotFoundSuffix := "' not found."
  const ApiPrefix := "API Error (Code: "
  const ApiSuffix := ")."

  /** The message text the worker puts on the queue for each cause. */
  function Message(f: Failure): (m: string)
    // a sentence ending in a full stop, opening with "API" or with "C"
    ensures |m| > 0 && m[|m| - 1] == '.'
    ensures m[0] == 'A' || m[0] == 'C'
    ensures m[0] == 'A' <==> f.KeyMissing? || f.ApiStatus?
  {
    match f
    case KeyMissing => KeyMissingText
    case CityNotFound(city) => NotFoundPrefix + city + NotFoundSuffix
    case ApiStatus(code) => ApiPrefix + Text.NatToString(code) + ApiSuffix
    case ConnectionFailed => ConnectionText
  }

  /** Python truthiness of the key: an unset variable and an empty one are both missing. */
  predicate KeyConfigured(apiKey: Option<string>) {
    apiKey.Some? && apiKey.value != ""
  }

  /**
    The worker. `title` stands for Python's `str.title()`, whose Unicode
    casing rules are not modelled.
   */
  function GetWeatherData(city: string, apiKey: Option<string>, fetch: FetchOutcome,
                          title: string -> string): (run: Run)
    // no request is made without a key, and then exactly the key error is queued
    ensures run.requested <==> KeyConfigured(apiKey)
    ensures !KeyConfigured(apiKey) ==> run.items == [Error(Message(KeyMissing))]
    // at most one item, and none only when a 200 body lacks a field
    ensures |run.items| <= 1
    ensures run.items == [] <==>
              run.requested && fetch.Response? && fetch.status == 200 && fetch.body.Incomplete?
    // success exactly for a 200 with a usable body, with the fields copied over
    ensures forall item | item in run.items :: item.Success? <==>
              run.requested && fetch.Response? && fetch.status == 200 && fetch.body.Decoded?
    ensures forall item | item in run.items && item.Success? ::
              var f := fetch.body.fields;
              && item.info.city == f.name
              && item.info.conditionsDesc == title(f.description)
              && item.info.conditionsMain == f.main
              && item.info.temp == f.temp
              && item.info.feelsLike == f.feelsLike
              && item.info.humidity == f.humidity
              && item.info.windSpeed == f.windSpeed
              && item.info.icon == f.icon
    // every error names its cause
    ensures run.requested && fetch.Response? && fetch.status == 404 ==>
              run.items == [Error(Message(CityNotFound(city)))]
    ensures run.requested && fetch.Response? && fetch.status != 200 && fetch.status != 404 ==>
              run.items == [Error(Message(ApiStatus(fetch.status)))]
    ensures run.requested && (fetch.RequestFailed? || fetch == Response(200, NotJson)) ==>
              run.items == [Error(Message(ConnectionFailed))]
  {
    if !KeyConfigured(apiKey) then
      Run(false, [Error(Message(KeyMissing))])
    else
      match fetch
      case RequestFailed => Run(true, [Error(Message(ConnectionFailed))])
      case Response(status, body) =>
        if status == 200 then
          match body
          case Decoded(f) =>
            var info := WeatherInfo(f.name, title(f.description), f.main, f.temp,
                                    f.feelsLike, f.humidity, f.windSpeed, f.icon);
            Run(true, [Success(info)])
          case NotJson => Run(true, [Error(Message(ConnectionFailed))])
          case Incomplete => Run(true, [])
        else if status == 404 then
          Run(true, [Error(Message(CityNotFound(city)))])
        else
          Run(true, [Error(Message(ApiStatus(status)))])
  }

  /** True iff `m` starts with `prefix` and ends with `suffix`, the two not overlapping. */
  predicate Framed(m: string, prefix: string, suffix: string) {
    && |prefix| + |suffix| <= |m|
    && m[..|prefix|] == prefix
    && m[|m| - |suffix|..] == suffix
  }

  /** What lies between `prefix` and `suffix` in a framed message. */
  function Inner(m: string, prefix: string, suffix: string): string
    requires Framed(m, prefix, suffix)
  {
    m[|prefix|..|m| - |suffix|]
  }

  /** Reads the cause back from a message, as a user reading the label would. */
  function ParseMessage(m: string): Option<Failure> {
    if m == KeyMissingText then Some(KeyMissing)
    else if m == ConnectionText then Some(ConnectionFailed)
    else if Framed(m, NotFoundPrefix, NotFoundSuffix) then
      Some(CityNotFound(Inner(m, NotFoundPrefix, NotFoundSuffix)))
    else if Framed(m, ApiPrefix, ApiSuffix) && Text.AllDigits(Inner(m, ApiPrefix, ApiSuffix)) then
      Some(ApiStatus(Text.ParseDigits(Inner(m, ApiPrefix, ApiSuffix))))
    else None
  }

  lemma FramedParts(prefix: string, middle: string, suffix: string)
    ensures Framed(prefix + middle + suffix, prefix, suffix)
    ensures Inner(prefix + middle + suffix, prefix, suffix) == middle
  {
    var m := prefix + middle + suffix;
    assert m[..|prefix|] == prefix;
    assert m[|m| - |suffix|..] == suffix;
    assert m[|prefix|..|m| - |suffix|] == middle;
  }

  /** Every error message the worker produces names its cause unambiguously. */
  lemma ParseMessageRoundTrip(f: Failure)
    ensures ParseMessage(Message(f)) == Some(f)
  {
    var m := Message(f);
    match f
    case KeyMissing =>
    case ConnectionFailed =>
      assert m[0] != KeyMissingText[0];
    case CityNotFound(city) =>
      FramedParts(NotFoundPrefix, city, NotFoundSuffix);
      assert m[0] != KeyMissingText[0];
      assert m[1] != ConnectionText[1];
    case ApiStatus(code) =>
      var digits := Text.NatToString(code);
      FramedParts(ApiPrefix, digits, ApiSuffix);
      assert m[4] != KeyMissingText[4];
      assert m[0] != ConnectionText[0];
      assert m[0] != NotFoundPrefix[0];
      assert !Framed(m, NotFoundPrefix, NotFoundSuffix);
      Text.ParseNatToString(code);
  }

  /** Distinct causes are reported with distinct messages. */
  lemma MessageInjective(f: Failure, g: Failure)
    ensures Message(f) == Message(g) ==> f == g
  {
    ParseMessageRoundTrip(f);
    ParseMessageRoundTrip(g);
  }
}
