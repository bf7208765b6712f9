/** The dashboard component (client/src/Dashboard.js): its load flow as a state machine over
    the component's state, the city search, the unit toggle, and what the page renders.
    Requests to the gateway and their outcomes are parameters; the two fetches happen one
    after the other. */
module Dashboard {
  import opened Js
  import opened Location
  import opened Conditions

  // ---------------------------------------------------------------------------
  // Data the dashboard reads from the gateway

  datatype Hour = Hour(time: string, tempF: real, condition: string)

  datatype ForecastDay = ForecastDay(date: string, maxTempF: real, minTempF: real, condition: string,
                                     hours: seq<Hour>)

  datatype CurrentConditions = CurrentConditions(tempF: real, feelsLikeF: real, humidity: int, windMph: real,
                                                 uv: real, condition: string)

  /** The forecast body, as far as the dashboard reads it (`location.name`, `current`, `forecastday`). */
  datatype Snapshot = Snapshot(locationName: string, current: CurrentConditions, forecastDays: seq<ForecastDay>)

  datatype NewsItem = NewsItem(title: string, url: string)

  /** The news body; the dashboard keeps its `articles`. */
  datatype NewsBody = NewsBody(articles: seq<NewsItem>)

  /** A request from the dashboard to the gateway, with its query before URL encoding. */
  datatype ApiCall = WeatherCall(params: Params) | NewsCall(city: string)

  // ---------------------------------------------------------------------------
  // Component state and its transitions

  datatype State = State(city: string, weatherData: Option<Snapshot>, newsData: seq<NewsItem>,
                         isCelsius: bool, isLoading: bool)

  /** The `useState` initial values. */
  const Initial: State := State("", None, [], false, true)

  /** The result of a flow: the final state and the gateway requests made, in order. */
  datatype Step = Step(state: State, calls: seq<ApiCall>)

  /** The query `fetchWeatherData` appends to `/api/weather?`. */
  function WeatherQueryParams(lat: Option<string>, lon: Option<string>, q: Option<string>): Params
  {
    LocationParams(Resolve(lat, lon, q))
  }

  /** `fetchNewsData` once its request has settled: the articles replace the list on success;
      on failure nothing changes. */
  function AfterNews(s: State, outcome: Settled<NewsBody>): State
  {
    match outcome
    case Fulfilled(body) => s.(newsData := body.articles)
    case Rejected => s
  }

  /** `fetchWeatherData`: one weather request; on success the snapshot and its place name are
      stored and the news for that name is fetched; loading ends either way. */
  function AfterWeather(s: State, lat: Option<string>, lon: Option<string>, q: Option<string>,
                        weatherApi: Params -> Settled<Snapshot>, newsApi: string -> Settled<NewsBody>): Step
  {
    var params := WeatherQueryParams(lat, lon, q);
    match weatherApi(params)
    case Rejected => Step(s.(isLoading := false), [WeatherCall(params)])
    case Fulfilled(snapshot) =>
      var name := snapshot.locationName;
      var stored := s.(weatherData := Some(snapshot), city := name);
      Step(AfterNews(stored, newsApi(name)).(isLoading := false), [WeatherCall(params), NewsCall(name)])
  }

  /** The mount effect: fetch by coordinates, else by place name, else stop loading without any
      request. The navigation query supplies `lat`, `lon` and `q`. */
  function AfterMount(s: State, lat: Option<string>, lon: Option<string>, q: Option<string>,
                      weatherApi: Params -> Settled<Snapshot>, newsApi: string -> Settled<NewsBody>): Step
  {
    match Resolve(lat, lon, q)
    case None => Step(s.(isLoading := false), [])
    case Some(Coordinates(la, lo)) => AfterWeather(s, Some(la), Some(lo), None, weatherApi, newsApi)
    case Some(Place(p)) => AfterWeather(s, None, None, Some(p), weatherApi, newsApi)
  }

  /** Which request the mount effect starts: only the coordinate fetch when both coordinates are
      non-empty, otherwise only the place fetch when `q` is non-empty, otherwise none, and then
      loading stops with the state otherwise unchanged. Exactly one weather request is ever made,
      and it comes first. */
  lemma MountDispatch(s: State, lat: Option<string>, lon: Option<string>, q: Option<string>,
                      weatherApi: Params -> Settled<Snapshot>, newsApi: string -> Settled<NewsBody>)
    ensures var r := AfterMount(s, lat, lon, q, weatherApi, newsApi);
            && (Truthy(lat) && Truthy(lon) ==>
                  r.calls != [] && r.calls[0] == WeatherCall(map["lat" := lat.value, "lon" := lon.value]))
            && (!(Truthy(lat) && Truthy(lon)) && Truthy(q) ==>
                  r.calls != [] && r.calls[0] == WeatherCall(map["q" := q.value]))
            && (!(Truthy(lat) && Truthy(lon)) && !Truthy(q) ==>
                  r.calls == [] && r.state == s.(isLoading := false))
            && (forall i :: 0 < i < |r.calls| ==> r.calls[i].NewsCall?)
  {
  }

  /** With no location the page ends on the "no weather data" prompt, unless a snapshot was
      already held. */
  lemma NoLocationShowsPrompt(s: State, lat: Option<string>, lon: Option<string>, q: Option<string>,
                              weatherApi: Params -> Settled<Snapshot>, newsApi: string -> Settled<NewsBody>)
    requires Resolve(lat, lon, q).None? && s.weatherData.None?
    ensures Render(AfterMount(s, lat, lon, q, weatherApi, newsApi).state) == NoWeatherPrompt
  {
  }

  /** A successful weather fetch stores the snapshot, takes the city from its place name and
      fetches news for exactly that name; the news outcome only decides the article list. */
  lemma WeatherSuccess(s: State, lat: Option<string>, lon: Option<string>, q: Option<string>,
                       weatherApi: Params -> Settled<Snapshot>, newsApi: string -> Settled<NewsBody>)
    requires weatherApi(WeatherQueryParams(lat, lon, q)).Fulfilled?
    ensures var snapshot := weatherApi(WeatherQueryParams(lat, lon, q)).value;
            var r := AfterWeather(s, lat, lon, q, weatherApi, newsApi);
            && r.calls == [WeatherCall(WeatherQueryParams(lat, lon, q)), NewsCall(snapshot.locationName)]
            && r.state.weatherData == Some(snapshot)
            && r.state.city == snapshot.locationName
            && r.state.newsData == (match newsApi(snapshot.locationName)
                                    case Fulfilled(body) => body.articles
                                    case Rejected => s.newsData)
            && r.state.isCelsius == s.isCelsius
            && !r.state.isLoading
  {
  }

  /** A failed weather fetch makes no news request and changes nothing but the loading flag. */
  lemma WeatherFailure(s: State, lat: Option<string>, lon: Option<string>, q: Option<string>,
                       weatherApi: Params -> Settled<Snapshot>, newsApi: string -> Settled<NewsBody>)
    requires weatherApi(WeatherQueryParams(lat, lon, q)).Rejected?
    ensures var r := AfterWeather(s, lat, lon, q, weatherApi, newsApi);
            && r.calls == [WeatherCall(WeatherQueryParams(lat, lon, q))]
            && r.state == s.(isLoading := false)
  {
  }

  /** News is only ever fetched second, after a successful weather fetch, for the city that fetch
      stored; and loading has always ended when a flow completes. */
  lemma NewsFollowsWeather(s: State, lat: Option<string>, lon: Option<string>, q: Option<string>,
                           weatherApi: Params -> Settled<Snapshot>, newsApi: string -> Settled<NewsBody>)
    ensures var r := AfterMount(s, lat, lon, q, weatherApi, newsApi);
            && !r.state.isLoading
            && |r.calls| <= 2
            && (forall i :: 0 <= i < |r.calls| && r.calls[i].NewsCall? ==>
                  i == 1 && r.calls[0].WeatherCall? && weatherApi(r.calls[0].params).Fulfilled?
                  && r.calls[i].city == weatherApi(r.calls[0].params).value.locationName == r.state.city)
  {
  }

  /** A news failure never discards weather: whatever the outcome, everything but the article
      list is kept, and a failure keeps the list too. */
  lemma NewsFailureKeepsWeather(s: State, outcome: Settled<NewsBody>)
    ensures AfterNews(s, outcome).(newsData := s.newsData) == s
    ensures outcome.Rejected? ==> AfterNews(s, outcome) == s
  {
  }

  // ---------------------------------------------------------------------------
  // City search and unit toggle

  /** `handleCityChange`: the place name to navigate to (`/dashboard?q=<trimmed city>`), or none
      when the input is blank. */
  function SearchTarget(city: string): (r: Option<string>)
    ensures r.None? <==> AllSpace(city)
    ensures r.Some? ==> r.value == Trim(city) && r.value != "" && Trimmed(r.value)
  {
    TrimEmptyIff(city);
    var t := Trim(city);
    if t != "" then Some(t) else None
  }

  /** Surrounding spaces make no difference to the search. */
  lemma SearchIgnoresPadding(a: string, city: string, b: string)
    requires AllSpace(a) && AllSpace(b) && Trimmed(city) && city != ""
    ensures SearchTarget(a + city + b) == Some(city)
  {
    TrimPadded(a, city, b);
  }

  /** After navigating to a search, the mount effect sees only `q` and fetches by that name. */
  lemma SearchFetchesByName(s: State, city: string,
                            weatherApi: Params -> Settled<Snapshot>, newsApi: string -> Settled<NewsBody>)
    requires SearchTarget(city).Some?
    ensures var r := AfterMount(s, None, None, SearchTarget(city), weatherApi, newsApi);
            r.calls != [] && r.calls[0] == WeatherCall(map["q" := Trim(city)])
  {
    MountDispatch(s, None, None, SearchTarget(city), weatherApi, newsApi);
  }

  /** `toggleTemperatureUnit`: only the display flag changes, and toggling twice restores it. */
  function Toggle(s: State): (r: State)
    ensures r.isCelsius == !s.isCelsius
    ensures r.(isCelsius := s.isCelsius) == s
  {
    s.(isCelsius := !s.isCelsius)
  }

  lemma ToggleTwice(s: State)
    ensures Toggle(Toggle(s)) == s
  {
  }

  // ---------------------------------------------------------------------------
  // What the page shows

  datatype NewsPanel = Stories(items: seq<NewsItem>) | NoStories

  datatype Screen =
    | Spinner
    | NoWeatherPrompt
    | Main(icon: Icon, advice: Advice, hourly: seq<Hour>, days: seq<ForecastDay>, news: NewsPanel)
    | RenderError

  function Min(a: int, b: int): int
  {
    if a <= b then a else b
  }

  /** `forecastday[0].hour.slice(0, 8)`; absent when there is no first forecast day, where the
      page's expression would throw. */
  function HourlyShown(s: Snapshot): (r: Option<seq<Hour>>)
    ensures r.None? <==> s.forecastDays == []
    ensures r.Some? ==> |r.value| == Min(8, |s.forecastDays[0].hours|)
    ensures r.Some? ==> r.value == s.forecastDays[0].hours[..|r.value|]
  {
    if s.forecastDays == [] then None
    else
      var hours := s.forecastDays[0].hours;
      Some(if |hours| <= 8 then hours else hours[..8])
  }

  /** The news section: the stories in order, or the placeholder when there are none. */
  function NewsShown(news: seq<NewsItem>): (r: NewsPanel)
    ensures r.NoStories? <==> news == []
    ensures r.Stories? ==> r.items == news
  {
    if |news| > 0 then Stories(news) else NoStories
  }

  /** The recommendation call as written: the current `temp_f` is passed, and read as Celsius
      when the display flag says Celsius. */
  function ShownAdvice(current: CurrentConditions, isCelsius: bool): Advice
  {
    Recommend(current.tempF, current.condition, isCelsius)
  }

  /** The unit toggle changes the advisory: 40 degrees Fahrenheit (about 4.4 Celsius) is chilly
      with the Fahrenheit display and hot with the Celsius display. */
  lemma ShownAdviceDependsOnUnit()
    ensures var c := CurrentConditions(40.0, 40.0, 50, 3.0, 1.0, "Clear");
            ShownAdvice(c, false) == Chilly && ShownAdvice(c, true) == Hot
  {
  }

  /** The recommendation as evidently intended: `temp_f` always converted to Celsius first. */
  function IntendedAdvice(current: CurrentConditions): (r: Advice)
    ensures r == Recommend((current.tempF - 32.0) * 5.0 / 9.0, current.condition, true)
  {
    Recommend(current.tempF, current.condition, false)
  }

  /** The intended advisory is the one for the Celsius temperature itself, whichever unit is
      displayed: hot exactly above 86 Fahrenheit, chilly exactly below 50, and it agrees with the
      as-written call whenever the Fahrenheit display is on. */
  lemma IntendedAdviceIgnoresUnit(current: CurrentConditions, isCelsius: bool)
    ensures IntendedAdvice(current) == Hot <==> current.tempF > 86.0
    ensures IntendedAdvice(current) == Chilly <==> current.tempF < 50.0
    ensures !isCelsius ==> IntendedAdvice(current) == ShownAdvice(current, isCelsius)
  {
    RecommendFahrenheit(current.tempF, current.condition);
  }

  /** The page for a state: the spinner while loading, the prompt without a snapshot, otherwise
      the dashboard (or a render error when the snapshot has no forecast day). */
  function Render(s: State): (r: Screen)
    ensures r.Spinner? <==> s.isLoading
    ensures r.NoWeatherPrompt? <==> !s.isLoading && s.weatherData.None?
    ensures r.RenderError? <==> !s.isLoading && s.weatherData.Some? && s.weatherData.value.forecastDays == []
    ensures r.Main? ==> s.weatherData.Some?
  {
    if s.isLoading then Spinner
    else match s.weatherData
      case None => NoWeatherPrompt
      case Some(w) =>
        match HourlyShown(w)
        case None => RenderError
        case Some(hourly) =>
          Main(WeatherIcon(w.current.condition), ShownAdvice(w.current, s.isCelsius), hourly, w.forecastDays,
               NewsShown(s.newsData))
  }

  /** The dashboard shows at most eight hourly entries, the first ones of the first day; the
      placeholder exactly when no story is held; and the icon and advisory of the current
      conditions. */
  lemma RenderedDashboard(s: State)
    requires Render(s).Main?
    ensures var r := Render(s);
            var w := s.weatherData.value;
            && |r.hourly| <= 8
            && r.hourly == w.forecastDays[0].hours[..|r.hourly|]
            && (|w.forecastDays[0].hours| >= 8 ==> |r.hourly| == 8)
            && (r.news.NoStories? <==> s.newsData == [])
            && r.icon == WeatherIcon(w.current.condition)
            && r.advice == ShownAdvice(w.current, s.isCelsius)
  {
  }

  // ---------------------------------------------------------------------------
  // The component

  class DashboardPage {
    var city: string
    var weatherData: Option<Snapshot>
    var newsData: seq<NewsItem>
    var isCelsius: bool
    var isLoading: bool

    function Current(): State
      reads this
    {
      State(city, weatherData, newsData, isCelsius, isLoading)
    }

    constructor ()
      ensures Current() == Initial
    {
      city, weatherData, newsData, isCelsius, isLoading := "", None, [], false, true;
    }

    /** `fetchNewsData(name)`. */
    method FetchNewsData(name: string, newsApi: string -> Settled<NewsBody>) returns (call: ApiCall)
      modifies this`newsData
      ensures call == NewsCall(name)
      ensures Current() == AfterNews(old(Current()), newsApi(name))
    {
      call := NewsCall(name);
      var response := newsApi(name);
      if response.Fulfilled? {
        newsData := response.value.articles;
      }
    }

    /** `fetchWeatherData(lat, lon, q)`. */
    method FetchWeatherData(lat: Option<string>, lon: Option<string>, q: Option<string>,
                            weatherApi: Params -> Settled<Snapshot>, newsApi: string -> Settled<NewsBody>)
      returns (calls: seq<ApiCall>)
      modifies this
      ensures Step(Current(), calls) == AfterWeather(old(Current()), lat, lon, q, weatherApi, newsApi)
    {
      isLoading := true;
      var params: Params := map[];
      if Truthy(lat) && Truthy(lon) {
        params := map["lat" := lat.value, "lon" := lon.value];
      } else if Truthy(q) {
        params := map["q" := q.value];
      }
      calls := [WeatherCall(params)];
      var response := weatherApi(params);
      if response.Fulfilled? {
        weatherData := Some(response.value);
        city := response.value.locationName;
        var newsCall := FetchNewsData(response.value.locationName, newsApi);
        calls := calls + [newsCall];
      }
      isLoading := false;
    }

    /** The mount effect, run with the navigation query's `lat`, `lon` and `q`. */
    method Mount(lat: Option<string>, lon: Option<string>, q: Option<string>,
                 weatherApi: Params -> Settled<Snapshot>, newsApi: string -> Settled<NewsBody>)
      returns (calls: seq<ApiCall>)
      modifies this
      ensures Step(Current(), calls) == AfterMount(old(Current()), lat, lon, q, weatherApi, newsApi)
    {
      if Truthy(lat) && Truthy(lon) {
        calls := FetchWeatherData(lat, lon, None, weatherApi, newsApi);
      } else if Truthy(q) {
        calls := FetchWeatherData(None, None, q, weatherApi, newsApi);
      } else {
        isLoading := false;
        calls := [];
      }
    }

    /** `handleCityChange`: the place name to navigate to, if the input is not blank. */
    method HandleCityChange() returns (navigateTo: Option<string>)
      ensures navigateTo.Some? <==> !AllSpace(city)
      ensures navigateTo.Some? ==> navigateTo.value == Trim(city)
    {
      var trimmed := Trim(city);
      TrimEmptyIff(city);
      if trimmed != "" {
        navigateTo := Some(trimmed);
      } else {
        navigateTo := None;
      }
    }

    /** The search input's `onChange`. */
    method EditCity(text: string)
      modifies this`city
      ensures Current() == old(Current()).(city := text)
    {
      city := text;
    }

    /** `toggleTemperatureUnit`. */
    method ToggleTemperatureUnit()
      modifies this`isCelsius
      ensures Current() == Toggle(old(Current()))
    {
      isCelsius := !isCelsius;
    }

    function CurrentScreen(): Screen
      reads this
    {
      Render(Current())
    }
  }
}
