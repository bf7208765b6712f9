/** The dashboard talking to the gateway: what the client's requests become at the gateway
    and at the providers. The gateway's answer reaches the dashboard through axios, which
    rejects every status outside 2xx. */
module EndToEnd {
  import opened Js
  import opened Location
  import opened Gateway
  import opened Dashboard

  /** axios: a 2xx response fulfils with its body, anything else rejects. axios itself looks
      only at the status; the `Passthrough?` test excludes nothing the gateway sends, since it
      never answers 2xx with an error body (`GatewayRepliesThroughAxios`). */
  function Axios<B>(r: Response<B>): (o: Settled<B>)
    ensures o.Fulfilled? <==> 200 <= r.status < 300 && r.body.Passthrough?
    ensures o.Fulfilled? ==> o.value == r.body.data
  {
    if 200 <= r.status < 300 && r.body.Passthrough? then Fulfilled(r.body.data) else Rejected
  }

  /** Both gateway handlers answer 2xx only with 200 and a relayed body, so the dashboard's
      request fulfils exactly when the gateway answered 200, with the provider's body. */
  lemma GatewayRepliesThroughAxios<B>(plan: WeatherPlan, provider: string -> Settled<B>, outcome: Settled<B>)
    ensures var r := WeatherReply(plan, provider);
            && (200 <= r.status < 300 ==> r.status == 200 && r.body.Passthrough?)
            && (Axios(r).Fulfilled? <==> r.status == 200)
    ensures var r := Relay(outcome, NewsFetchError);
            && (200 <= r.status < 300 ==> r.status == 200 && r.body.Passthrough?)
            && (Axios(r) == outcome)
  {
  }

  /** The weather answers the dashboard sees when its requests go to the gateway. */
  function GatewayWeatherApi(weatherKey: Option<string>, provider: string -> Settled<Snapshot>): Params -> Settled<Snapshot>
  {
    p => Axios(WeatherReply(PlanWeather(weatherKey, Lookup(p, "lat"), Lookup(p, "lon"), Lookup(p, "q")), provider))
  }

  /** The news answers the dashboard sees when its requests go to the gateway. */
  function GatewayNewsApi(newsKey: Option<string>, provider: string -> Settled<NewsBody>): string -> Settled<NewsBody>
  {
    city => Axios(Relay(provider(NewsRequest(newsKey, Some(city)).Url()), NewsFetchError))
  }

  /** Client and gateway apply the same location rule: the query the dashboard sends makes the
      gateway request exactly the location the dashboard chose, and the dashboard's fall-back
      request without a location is refused with 400. */
  lemma ClientAndGatewayAgree(weatherKey: Option<string>, lat: Option<string>, lon: Option<string>, q: Option<string>)
    ensures var p := WeatherQueryParams(lat, lon, q);
            var plan := PlanWeather(weatherKey, Lookup(p, "lat"), Lookup(p, "lon"), Lookup(p, "q"));
            match Resolve(lat, lon, q)
            case None => plan == BadRequest(MissingLocation)
            case Some(loc) => plan == Upstream(WeatherRequest(Interpolate(weatherKey), ProviderLocation(loc)))
  {
    ParamsRoundTrip(Resolve(lat, lon, q));
  }

  /** Through the gateway, the dashboard's weather outcome is the provider's outcome for the
      one URL the gateway builds, and a request without a location always fails. */
  lemma WeatherThroughGateway(weatherKey: Option<string>, provider: string -> Settled<Snapshot>,
                              lat: Option<string>, lon: Option<string>, q: Option<string>)
    ensures var outcome := GatewayWeatherApi(weatherKey, provider)(WeatherQueryParams(lat, lon, q));
            match Resolve(lat, lon, q)
            case None => outcome.Rejected?
            case Some(loc) => outcome == provider(WeatherRequest(Interpolate(weatherKey), ProviderLocation(loc)).Url())
  {
    ClientAndGatewayAgree(weatherKey, lat, lon, q);
  }

  /** The news request for the stored city reaches the provider as `<city>+weather`, in English,
      capped at five. */
  lemma NewsThroughGateway(newsKey: Option<string>, provider: string -> Settled<NewsBody>, city: string)
    ensures GatewayNewsApi(newsKey, provider)(city) == provider(NewsRequest(newsKey, Some(city)).Url())
    ensures NewsRequest(newsKey, Some(city)).q == city + "+weather"
    ensures NewsRequest(newsKey, Some(city)).lang == "en" && NewsRequest(newsKey, Some(city)).max == "5"
  {
  }

  /** Searching "Paris": the gateway asks the provider for q=Paris; if the answer names the place
      "Paris", the dashboard stores it and asks for "Paris+weather" news. */
  lemma ParisScenario(s: State, weatherKey: Option<string>, newsKey: Option<string>,
                      weatherProvider: string -> Settled<Snapshot>, newsProvider: string -> Settled<NewsBody>,
                      snapshot: Snapshot)
    requires snapshot.locationName == "Paris"
    requires weatherProvider(WeatherRequest(Interpolate(weatherKey), "Paris").Url()) == Fulfilled(snapshot)
    ensures var r := AfterMount(s, None, None, Some("Paris"), GatewayWeatherApi(weatherKey, weatherProvider),
                                GatewayNewsApi(newsKey, newsProvider));
            && r.calls == [WeatherCall(map["q" := "Paris"]), NewsCall("Paris")]
            && r.state.weatherData == Some(snapshot)
            && r.state.city == "Paris"
            && !r.state.isLoading
            && NewsRequest(newsKey, Some("Paris")).q == "Paris+weather"
  {
    WeatherThroughGateway(weatherKey, weatherProvider, None, None, Some("Paris"));
    assert "Paris" + "+weather" == "Paris+weather";
  }

  /** If the weather provider fails, the gateway answers 500, the dashboard's fetch rejects, no
      news is requested and the previous weather and news are kept. */
  lemma WeatherOutageScenario(s: State, weatherKey: Option<string>, newsKey: Option<string>,
                              weatherProvider: string -> Settled<Snapshot>, newsProvider: string -> Settled<NewsBody>,
                              q: string)
    requires q != ""
    requires weatherProvider(WeatherRequest(Interpolate(weatherKey), q).Url()).Rejected?
    ensures var r := AfterMount(s, None, None, Some(q), GatewayWeatherApi(weatherKey, weatherProvider),
                                GatewayNewsApi(newsKey, newsProvider));
            && r.calls == [WeatherCall(map["q" := q])]
            && r.state == s.(isLoading := false)
  {
    WeatherThroughGateway(weatherKey, weatherProvider, None, None, Some(q));
  }

  /** If the news provider fails after the weather succeeded, the gateway answers 500 and the
      dashboard keeps the new weather and the articles it had. */
  lemma NewsOutageScenario(s: State, weatherKey: Option<string>, newsKey: Option<string>,
                           weatherProvider: string -> Settled<Snapshot>, newsProvider: string -> Settled<NewsBody>,
                           q: string, snapshot: Snapshot)
    requires q != ""
    requires weatherProvider(WeatherRequest(Interpolate(weatherKey), q).Url()) == Fulfilled(snapshot)
    requires newsProvider(NewsRequest(newsKey, Some(snapshot.locationName)).Url()).Rejected?
    ensures var r := AfterMount(s, None, None, Some(q), GatewayWeatherApi(weatherKey, weatherProvider),
                                GatewayNewsApi(newsKey, newsProvider));
            && r.state.weatherData == Some(snapshot)
            && r.state.newsData == s.newsData
            && (s.newsData == [] ==> Render(r.state).RenderError? || Render(r.state).news == NoStories)
  {
    WeatherThroughGateway(weatherKey, weatherProvider, None, None, Some(q));
  }
}
