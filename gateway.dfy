/** The backend gateway (backend/server.js): two stateless handlers that turn a client query
    into one request to an external provider, using a key held on the server, and relay the
    provider's answer. */
module Gateway {
  import opened Js
  import opened Location

  /** The fixed start of each provider URL, up to its first parameter's value. */
  const WeatherUrlPrefix: string := "http://api.weatherapi.com/v1/forecast.json?key="
  const NewsUrlPrefix: string := "https://gnews.io/api/v4/search?q="

  const MissingLocation: string := "Missing location parameters"
  const WeatherFetchError: string := "Error fetching weather data"
  const NewsFetchError: string := "Error fetching news data"

  /** A forecast request to the weather provider, one field per query parameter. */
  datatype WeatherQuery = WeatherQuery(key: string, q: string, days: string, aqi: string, alerts: string)
  {
    /** The URL string the handler passes to axios (no parameter is encoded). */
    function Url(): string
    {
      WeatherUrlPrefix + key + "&q=" + q + "&days=" + days + "&aqi=" + aqi + "&alerts=" + alerts
    }
  }

  /** The forecast request for provider location `q`: a 7-day horizon, air quality and alerts off. */
  function WeatherRequest(key: string, q: string): (r: WeatherQuery)
    ensures r.key == key && r.q == q
    ensures r.days == "7" && r.aqi == "no" && r.alerts == "no"
  {
    WeatherQuery(key, q, "7", "no", "no")
  }

  /** The request's URL is the handler's template literal, character for character. */
  lemma WeatherUrlIsTemplate(key: string, q: string)
    ensures WeatherRequest(key, q).Url()
         == WeatherUrlPrefix + key + "&q=" + q + "&days=7&aqi=no&alerts=no"
  {
    assert "&days=" + "7" + "&aqi=" + "no" + "&alerts=" + "no" == "&days=7&aqi=no&alerts=no";
  }

  /** The location string sent to the weather provider: `lat,lon`, or the place name unchanged. */
  function ProviderLocation(loc: LocationQuery): (r: string)
    ensures loc.Place? ==> r == loc.q
    ensures loc.Coordinates? ==> r == loc.lat + "," + loc.lon
  {
    match loc
    case Coordinates(lat, lon) => lat + "," + lon
    case Place(q) => q
  }

  /** What the weather handler decides before any network activity. */
  datatype WeatherPlan = Upstream(request: WeatherQuery) | BadRequest(message: string)

  function PlanWeather(weatherKey: Option<string>, lat: Option<string>, lon: Option<string>, q: Option<string>): (r: WeatherPlan)
    ensures r.BadRequest? <==> !(Truthy(lat) && Truthy(lon)) && !Truthy(q)
    ensures r.BadRequest? ==> r.message == MissingLocation
    ensures r.Upstream? ==> r.request.key == Interpolate(weatherKey)
    ensures r.Upstream? ==> r.request.days == "7" && r.request.aqi == "no" && r.request.alerts == "no"
    ensures Truthy(lat) && Truthy(lon) ==> r.Upstream? && r.request.q == lat.value + "," + lon.value
    ensures !(Truthy(lat) && Truthy(lon)) && Truthy(q) ==> r.Upstream? && r.request.q == q.value
  {
    match Resolve(lat, lon, q)
    case None => BadRequest(MissingLocation)
    case Some(loc) => Upstream(WeatherRequest(Interpolate(weatherKey), ProviderLocation(loc)))
  }

  /** With a coordinate pair present, the place name makes no difference to the request. */
  lemma CoordinatesTakePrecedence(weatherKey: Option<string>, lat: string, lon: string, q1: Option<string>, q2: Option<string>)
    requires lat != "" && lon != ""
    ensures PlanWeather(weatherKey, Some(lat), Some(lon), q1) == PlanWeather(weatherKey, Some(lat), Some(lon), q2)
  {
    CoordinatesOverridePlace(lat, lon, q1, q2);
  }

  /** The JSON body of a gateway response: the provider's body passed through, or `{error}`. */
  datatype Body<+B> = Passthrough(data: B) | ErrorJson(error: string)

  datatype Response<+B> = Response(status: int, body: Body<B>)

  /** Mapping one settled upstream call to the client's response: the body verbatim with 200,
      or a 500 with the handler's fixed message. */
  function Relay<B>(outcome: Settled<B>, failure: string): (r: Response<B>)
    ensures r.status == 200 <==> outcome.Fulfilled?
    ensures outcome.Fulfilled? ==> r.body == Passthrough(outcome.value)
    ensures outcome.Rejected? ==> r == Response(500, ErrorJson(failure))
  {
    match outcome
    case Fulfilled(data) => Response(200, Passthrough(data))
    case Rejected => Response(500, ErrorJson(failure))
  }

  /** The weather handler's response for a plan, given how the provider answers each URL. */
  function WeatherReply<B>(plan: WeatherPlan, provider: string -> Settled<B>): Response<B>
  {
    match plan
    case BadRequest(message) => Response(400, ErrorJson(message))
    case Upstream(request) => Relay(provider(request.Url()), WeatherFetchError)
  }

  /** The URLs the weather handler requests for a plan: none for a bad request, otherwise one. */
  function WeatherAttempts(plan: WeatherPlan): seq<string>
  {
    match plan
    case BadRequest(_) => []
    case Upstream(request) => [request.Url()]
  }

  /** The status codes of `/api/weather`: 400 exactly when no location is given, and then
      nothing is requested upstream; otherwise one attempt, answered with 200 and the provider's
      body when the provider answers, 500 when it does not. */
  lemma WeatherStatusCodes<B>(weatherKey: Option<string>, lat: Option<string>, lon: Option<string>, q: Option<string>,
                              provider: string -> Settled<B>)
    ensures var plan := PlanWeather(weatherKey, lat, lon, q);
            var r := WeatherReply(plan, provider);
            && (r.status == 400 <==> Resolve(lat, lon, q).None?)
            && (r.status == 400 ==> WeatherAttempts(plan) == [] && r.body == ErrorJson(MissingLocation))
            && (r.status != 400 ==> |WeatherAttempts(plan)| == 1)
            && (r.status == 200 ==> r.body == Passthrough(provider(WeatherAttempts(plan)[0]).value))
            && (r.status != 400 && r.status != 200 ==>
                  r == Response(500, ErrorJson(WeatherFetchError)) && provider(WeatherAttempts(plan)[0]).Rejected?)
  {
  }

  /** `GET /api/weather`. `provider` stands for the weather provider; the second result lists
      the URLs requested from it, in order. */
  method HandleWeather<B>(weatherKey: Option<string>, lat: Option<string>, lon: Option<string>, q: Option<string>,
                          provider: string -> Settled<B>)
    returns (resp: Response<B>, attempts: seq<string>)
    ensures resp == WeatherReply(PlanWeather(weatherKey, lat, lon, q), provider)
    ensures attempts == WeatherAttempts(PlanWeather(weatherKey, lat, lon, q))
  {
    var key := Interpolate(weatherKey);
    var url: string;
    if Truthy(lat) && Truthy(lon) {
      url := WeatherRequest(key, lat.value + "," + lon.value).Url();
    } else if Truthy(q) {
      url := WeatherRequest(key, q.value).Url();
    } else {
      return Response(400, ErrorJson(MissingLocation)), [];
    }
    attempts := [url];
    var outcome := provider(url);
    if outcome.Fulfilled? {
      resp := Response(200, Passthrough(outcome.value));
    } else {
      resp := Response(500, ErrorJson(WeatherFetchError));
    }
  }

  /** A search request to the news provider, one field per query parameter. */
  datatype NewsQuery = NewsQuery(q: string, token: string, lang: string, max: string)
  {
    /** The URL string the handler passes to axios (no parameter is encoded). */
    function Url(): string
    {
      NewsUrlPrefix + q + "&token=" + token + "&lang=" + lang + "&max=" + max
    }
  }

  /** The news search for `city`: `<city>+weather`, English, at most five articles. */
  function NewsRequest(newsKey: Option<string>, city: Option<string>): (r: NewsQuery)
    ensures r.q == Interpolate(city) + "+weather"
    ensures r.token == Interpolate(newsKey)
    ensures r.lang == "en" && r.max == "5"
  {
    NewsQuery(Interpolate(city) + "+weather", Interpolate(newsKey), "en", "5")
  }

  /** The request's URL is the handler's template literal, character for character. */
  lemma NewsUrlIsTemplate(newsKey: Option<string>, city: Option<string>)
    ensures NewsRequest(newsKey, city).Url()
         == NewsUrlPrefix + Interpolate(city) + "+weather&token=" + Interpolate(newsKey) + "&lang=en&max=5"
  {
    var c, k := Interpolate(city), Interpolate(newsKey);
    var front := NewsUrlPrefix + c;
    assert "+weather" + "&token=" == "+weather&token=";
    assert "&lang=" + "en" + "&max=" + "5" == "&lang=en&max=5";
    ConcatAssoc(NewsUrlPrefix, c, "+weather");
    ConcatAssoc(front, "+weather", "&token=");
    var head := front + "+weather&token=" + k;
    ConcatAssoc(head, "&lang=", "en");
    ConcatAssoc(head, "&lang=" + "en", "&max=");
    ConcatAssoc(head, "&lang=" + "en" + "&max=", "5");
  }

  /** `city` is not validated: without it the search term is the text "undefined+weather". */
  lemma AbsentCityStillSearched(newsKey: Option<string>)
    ensures NewsRequest(newsKey, None).q == "undefined+weather"
  {
    assert "undefined" + "+weather" == "undefined+weather";
  }

  /** The status codes of `/api/news`: there is no 400; the one upstream attempt is answered
      with 200 and the provider's body when the provider answers, and with 500 and the fixed
      message when it does not. */
  lemma NewsStatusCodes<B>(newsKey: Option<string>, city: Option<string>, provider: string -> Settled<B>)
    ensures var url := NewsRequest(newsKey, city).Url();
            var r := Relay(provider(url), NewsFetchError);
            && (r.status == 200 <==> provider(url).Fulfilled?)
            && (r.status == 200 ==> r.body == Passthrough(provider(url).value))
            && (r.status != 200 ==> r == Response(500, ErrorJson("Error fetching news data")))
  {
  }

  /** `GET /api/news`: always exactly one upstream attempt, relayed as 200 or 500. */
  method HandleNews<B>(newsKey: Option<string>, city: Option<string>, provider: string -> Settled<B>)
    returns (resp: Response<B>, attempts: seq<string>)
    ensures attempts == [NewsRequest(newsKey, city).Url()]
    ensures resp == Relay(provider(NewsRequest(newsKey, city).Url()), NewsFetchError)
  {
    var url := NewsRequest(newsKey, city).Url();
    attempts := [url];
    var outcome := provider(url);
    if outcome.Fulfilled? {
      resp := Response(200, Passthrough(outcome.value));
    } else {
      resp := Response(500, ErrorJson(NewsFetchError));
    }
  }
}
