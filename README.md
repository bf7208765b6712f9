# WeatherNow: the location dispatch, gateway and dashboard load flow in Dafny

WeatherNow is a weather-and-news dashboard. A small Express gateway (`backend/server.js`)
holds the provider keys and forwards two kinds of request: `/api/weather` to a forecast
provider and `/api/news` to a news search provider. A React page (`client/src/Dashboard.js`)
reads a location from its navigation query, fetches the weather through the gateway, takes the
resolved place name from the answer and then fetches news for that name.

This project models the decision logic of those two files and proves what it promises:

- `js.dfy` (module `Js`): the JavaScript semantics the code relies on: absent values
  (`Option`), settled promises (`Settled`), truthiness of query strings, template-literal
  interpolation (an absent value prints as `undefined`), `toLowerCase` over ASCII,
  `includes`, and `trim` with the exact ECMAScript white-space set.
- `location.dfy` (module `Location`): the rule both sides apply, "both coordinates, else a
  place name, else nothing", and the query-parameter map the dashboard sends.
- `gateway.dfy` (module `Gateway`): the `/api/weather` decision (provider request or
  400), the request records and their URLs, the 200/400/500 mapping, and `/api/news`. The
  handlers are methods that receive the provider as a function from URL to outcome and also
  return the URLs they requested. That makes "no upstream call" and "exactly one attempt"
  statable.
- `conditions.dfy` (module `Conditions`): `getWeatherIcon` (four icon categories) and
  `getWeatherRecommendation` (five advisories, first match wins, thresholds over `real`).
- `dashboard.dfy` (module `Dashboard`): the component state as a value (`State`), its
  transitions as functions (`AfterMount`, `AfterWeather`, `AfterNews`, `SearchTarget`,
  `Toggle`), what the page renders (`Render`), and the class `DashboardPage`. The class holds
  the component's state fields. Its methods follow the source step by step and are proved
  against those functions.
- `end_to_end.dfy` (module `EndToEnd`): the dashboard's requests sent through the gateway.
  axios rejects every non-2xx status. This module holds the worked scenarios.

The network, the providers and the gateway keys are parameters. Each fetch outcome is a
`Settled` value: fulfilled with a body, or rejected.

Four behaviours of the code are worth stating up front, because a reader might expect
otherwise:

- Both a coordinate pair and `q` may be present. The coordinates win; this is not an error
  (backend/server.js:18-21, client/src/Dashboard.js:25-28).
- A failed weather fetch keeps whatever snapshot and news were held before, so a failed
  re-search does not clear the page (client/src/Dashboard.js:48-53).
- A failed news fetch keeps the previous article list. It is not emptied, so stories about
  the previous city can remain on screen (client/src/Dashboard.js:63-67).
- The recommendation is computed from `temp_f`, and `temp_f` is read as Celsius when the
  Celsius display is on (client/src/Dashboard.js:101 and 220-223; see Findings).

## Model

| member | source | states |
|---|---|---|
| `Js.ToLower` | client/src/Dashboard.js:80 | the lower-cased text has the same length and no upper-case letter; each upper-case letter becomes its lower-case partner and every other character is unchanged |
| `Js.ToLowerIdempotent` | client/src/Dashboard.js:80 | lower-casing an already lower-cased text changes nothing |
| `Js.ContainsIff` | client/src/Dashboard.js:105 | `includes` holds exactly when some position starts an occurrence of the substring |
| `Js.TrimStart` | client/src/Dashboard.js:72 | the result is a suffix of the input, every dropped character is white space, and it does not start with white space |
| `Js.TrimEnd` | client/src/Dashboard.js:72 | the result is a prefix of the input, every dropped character is white space, and it does not end with white space |
| `Js.Trim` | client/src/Dashboard.js:72 | the result is a slice of the input with only white space before and after it, and it has no white space at either end |
| `Js.TrimPadded` | client/src/Dashboard.js:72 | trimming removes exactly the surrounding white space: padding a trimmed text on both sides and trimming returns it |
| `Js.TrimEmptyIff` | client/src/Dashboard.js:72 | a text trims to empty exactly when it is all white space |
| `Js.TrimIdempotent` | client/src/Dashboard.js:72-73 | trimming twice equals trimming once |
| `Location.Resolve` | backend/server.js:18-24 | coordinates when both are non-empty, else the place name when non-empty, else none; everything resolved is non-empty |
| `Location.CoordinatesOverridePlace` | client/src/Dashboard.js:25-28 | with both coordinates present the place name does not matter |
| `Location.HalfPairIgnored` | client/src/Dashboard.js:25-28 | a lone or empty coordinate is ignored and the `q` branch decides |
| `Location.ResolveOwnComponents` | client/src/Dashboard.js:26-28 | the mount effect's calls `fetchWeatherData(lat, lon)` and `(null, null, q)` resolve to the location the effect chose |
| `Location.ParamsRoundTrip` | client/src/Dashboard.js:38-43 | the parameters the dashboard sends resolve back to the same location, and no location sends no parameters |
| `Gateway.WeatherUrlIsTemplate` | backend/server.js:19-21 | the request's URL equals the handler's template literal character for character |
| `Gateway.PlanWeather` | backend/server.js:16-24 | a bad request with "Missing location parameters" exactly when neither form is present; otherwise a request with the fixed parameters, whose `q` is `lat,lon` when both are present and the unchanged `q` otherwise |
| `Gateway.CoordinatesTakePrecedence` | backend/server.js:18-21 | with both coordinates present, the incoming `q` does not change the request |
| `Gateway.WeatherStatusCodes` | backend/server.js:15-32 | 400 exactly when no location is given, and then no upstream request; otherwise exactly one attempt, 200 with the provider body or 500 "Error fetching weather data" |
| `Gateway.HandleWeather` | backend/server.js:15-32 | the handler's response and the URLs it requested are those of the plan: none for a bad request, one otherwise |
| `Gateway.NewsUrlIsTemplate` | backend/server.js:37-39 | the request's URL equals the handler's template literal character for character |
| `Gateway.AbsentCityStillSearched` | backend/server.js:35-38 | without `city` the search term is `undefined+weather`; there is no validation |
| `Gateway.NewsStatusCodes` | backend/server.js:36-43 | `/api/news` never answers 400; 200 exactly when the provider answers the one request, with its body unchanged, otherwise 500 "Error fetching news data" |
| `Gateway.HandleNews` | backend/server.js:34-44 | always exactly one upstream attempt for the request's URL, answered as `NewsStatusCodes` states |
| `Conditions.IconByVocabulary` | client/src/Dashboard.js:79-98 | each category is chosen exactly by its own words after lower-casing; the sun also covers every text outside the ten words |
| `Conditions.UnknownConditionIsDefault` | client/src/Dashboard.js:95-96 | any text outside the vocabulary gets the same icon as "sunny" and "clear" |
| `Conditions.IconCaseInsensitive` | client/src/Dashboard.js:80 | a text and its lower-cased form get the same icon |
| `Conditions.IconIgnoresCase` | client/src/Dashboard.js:80 | texts equal up to letter case get the same icon |
| `Conditions.IconMatchIsExact` | client/src/Dashboard.js:88-91 | "heavy rain" is a rain text, "moderate rain" is not (exact match) |
| `Conditions.RecommendFirstMatch` | client/src/Dashboard.js:100-110 | each advisory is given exactly when its test passes and every earlier test fails: hot above 30, chilly below 10, then "rain", then "wind" as substrings, else pleasant |
| `Conditions.FahrenheitThresholds` | client/src/Dashboard.js:101 | over the reals `(t-32)*5/9 > 30` iff `t > 86`, and `< 10` iff `t < 50` |
| `Conditions.RecommendFahrenheit` | client/src/Dashboard.js:101-104 | with the Fahrenheit flag: hot iff above 86, chilly iff below 50, otherwise the same as the Celsius rule on the converted value |
| `Conditions.ConditionKeywordsAreSubstrings` | client/src/Dashboard.js:105-106 | between the thresholds, the umbrella advisory is given exactly when "rain" occurs anywhere in the lower-cased text |
| `Conditions.HotExample` | client/src/Dashboard.js:102-103 | 35 degrees Celsius and "Sunny" is the hot advisory |
| `Conditions.ChillyExample` | client/src/Dashboard.js:104 | 5 degrees Celsius and "Clear" is the chilly advisory |
| `Conditions.UmbrellaExample` | client/src/Dashboard.js:105-106 | 20 degrees Celsius and "Light rain" is the umbrella advisory |
| `Conditions.RainKeywordExample` | client/src/Dashboard.js:105-106 | "moderate rain" at 20 brings the umbrella although its icon is the default |
| `Conditions.WindKeywordExample` | client/src/Dashboard.js:107-108 | 68 Fahrenheit and "Windy" is the wind advisory |
| `Dashboard.MountDispatch` | client/src/Dashboard.js:19-33 | only the coordinate fetch when both are non-empty, else only the `q` fetch, else no request and loading stops; exactly one weather request, first |
| `Dashboard.NoLocationShowsPrompt` | client/src/Dashboard.js:29-32 | whenever the query resolves to no location (no pair of non-empty coordinates and no non-empty `q`) and no snapshot is held, the page ends on the "no weather data" prompt |
| `Dashboard.WeatherSuccess` | client/src/Dashboard.js:44-47 | a successful fetch stores the snapshot, sets the city to its place name, asks news for exactly that name, and ends loading |
| `Dashboard.WeatherFailure` | client/src/Dashboard.js:48-53 | a failed fetch makes no news request and changes only the loading flag, which ends false |
| `Dashboard.NewsFollowsWeather` | client/src/Dashboard.js:44-53 | a news request only happens second, after a successful weather fetch, for the city that fetch stored; loading has ended |
| `Dashboard.NewsFailureKeepsWeather` | client/src/Dashboard.js:63-67 | the news step changes only the article list, and a failure changes nothing |
| `Dashboard.SearchTarget` | client/src/Dashboard.js:70-77 | navigate with the trimmed city exactly when the input is not all white space; otherwise no navigation |
| `Dashboard.SearchIgnoresPadding` | client/src/Dashboard.js:72-73 | surrounding white space does not change the search |
| `Dashboard.SearchFetchesByName` | client/src/Dashboard.js:73 | after a search the mount effect fetches by `q` equal to the trimmed city |
| `Dashboard.ToggleTwice` | client/src/Dashboard.js:112-114 | toggling twice restores the state |
| `Dashboard.HourlyShown` | client/src/Dashboard.js:232-233 | the first `min(8, n)` hours of the first forecast day; absent when there is no forecast day |
| `Dashboard.ShownAdviceDependsOnUnit` | client/src/Dashboard.js:220-223 | 40 Fahrenheit is chilly with the Fahrenheit display and hot with the Celsius display |
| `Dashboard.IntendedAdvice` | client/src/Dashboard.js:101 | the corrected advisory is the Celsius rule applied to the converted `temp_f` |
| `Dashboard.IntendedAdviceIgnoresUnit` | client/src/Dashboard.js:101-104 | the corrected advisory is hot iff above 86 Fahrenheit and chilly iff below 50, and agrees with the page under the Fahrenheit display |
| `Dashboard.Render` | client/src/Dashboard.js:123-294 | the spinner exactly while loading, the prompt exactly without a snapshot, otherwise the dashboard, or a render error when the snapshot has no forecast day |
| `Dashboard.RenderedDashboard` | client/src/Dashboard.js:194-233 | the dashboard shows at most eight hourly entries (the first ones), the current icon and the as-written advisory |
| `Dashboard.DashboardPage.constructor` | client/src/Dashboard.js:11-15 | the initial state is an empty city, no snapshot, no news, Fahrenheit, loading |
| `Dashboard.DashboardPage.FetchNewsData` | client/src/Dashboard.js:56-68 | one news request for the given name; the article list follows `AfterNews`, and no other field changes |
| `Dashboard.DashboardPage.FetchWeatherData` | client/src/Dashboard.js:35-54 | the new state and the requests made are those of `AfterWeather` |
| `Dashboard.DashboardPage.Mount` | client/src/Dashboard.js:19-33 | the new state and the requests made are those of `AfterMount` |
| `Dashboard.DashboardPage.HandleCityChange` | client/src/Dashboard.js:70-77 | navigates exactly when the city is not all white space, to the trimmed city |
| `Dashboard.DashboardPage.EditCity` | client/src/Dashboard.js:146 | the input replaces the city and nothing else |
| `Dashboard.DashboardPage.ToggleTemperatureUnit` | client/src/Dashboard.js:112-114 | the new state is `Toggle` of the old |
| `EndToEnd.GatewayRepliesThroughAxios` | client/src/Dashboard.js:44 | the gateway answers 2xx only with 200 and a relayed body, so the dashboard's request fulfils exactly when the gateway answered 200, and a news reply reaches the dashboard as the provider's own outcome |
| `EndToEnd.ClientAndGatewayAgree` | backend/server.js:16-24 | the gateway requests exactly the location the dashboard chose; the dashboard's request without one gets the 400 |
| `EndToEnd.WeatherThroughGateway` | backend/server.js:26-31 | the dashboard sees the provider's outcome for the single URL the gateway builds; without a location it always fails |
| `EndToEnd.NewsThroughGateway` | client/src/Dashboard.js:56-62 | news for a city reaches the provider as `<city>+weather`, English, at most five |
| `EndToEnd.ParisScenario` | client/src/Dashboard.js:44-47 | `q=Paris` leads to one weather request and one news request for "Paris", with query `Paris+weather` |
| `EndToEnd.WeatherOutageScenario` | client/src/Dashboard.js:48-53 | a provider failure leaves no news request and the previous state except loading |
| `EndToEnd.NewsOutageScenario` | client/src/Dashboard.js:64-67 | a news failure after a weather success keeps the new weather and the old articles, and an empty list shows the placeholder |

## Findings

| source | as written | input that shows it | evidently intended | confidence | as-written member | corrected member |
|---|---|---|---|---|---|---|
| client/src/Dashboard.js:101 | `getWeatherRecommendation(temp_f, …)` uses `temp` unconverted when `isCelsius` is true, so a Fahrenheit value is compared with Celsius thresholds | `temp_f = 40`, condition "Clear": "chilly" with the Fahrenheit display, "hot" after toggling to Celsius | the advisory depends only on the weather: always convert `temp_f` to Celsius before the thresholds | high, from reading the code; not executed | `Dashboard.ShownAdviceDependsOnUnit` | `Dashboard.IntendedAdviceIgnoresUnit` |

`Dashboard.ShownAdvice` is the call as written, and `Dashboard.Render` keeps it so that the
page model matches the code. `Dashboard.IntendedAdvice` is the corrected definition. It agrees
with the page whenever the Fahrenheit display is on.

## Left out

- `client/src/LandingPage.js`, `client/src/App.js` and the button and input wrappers: they only
  present things or wire routes. The landing page's rotating icon depends on timers and
  randomness.
- `convertTemperature`: its output is `toFixed(1)` formatting of IEEE doubles. Temperatures are
  `real` here, with no double rounding.
- `Js.ToLower`: lower-cases ASCII letters only. JavaScript's `toLowerCase` also maps other
  Unicode letters, and rare ones change length.
  No icon or advisory depends on this. By Unicode's case tables, the only non-ASCII
  characters that lower-case to ASCII letters are U+212A (to `k`) and U+0130 (to `i` followed
  by U+0307). Neither can form one of the ten condition words, "rain" or "wind". This rests on
  the case tables and is not proved here.
- `encodeURIComponent` and query-string decoding: the dashboard's requests are recorded as
  parameter maps before encoding, and the gateway is assumed to read back what was encoded.
  `lat` and `lon` are sent unencoded; the gateway's unencoded `q` is not examined for `&`
  injection.
- Repeated query parameters (Express turns them into arrays): every query value is a single
  string or absent.
- HTTP transport, CORS, routing, `res.status(...).json(...)`, the listen port and `dotenv`:
  keys are parameters; an unset key prints as `undefined`.
- Toast notifications and `console.error`: they carry no state.
- Times and dates (`getHours`, `toLocaleDateString`): hours and days keep their text fields
  uninterpreted.
- Asynchrony: `fetchNewsData` is not awaited in the source. It is modelled as completing before
  loading ends, which gives the same final state. Stale responses overwriting a newer search
  are not modelled.
- `Dashboard.DashboardPage.FetchWeatherData`: its contract gives only the final state. The
  spinner shown while the request is pending (`isLoading` true) is set in the method but not
  stated.
- React's effect re-running only when `location.search` changes, so searching the same text
  again does not refetch: navigation itself is not modelled. `Mount` is called with the new
  query.
- Malformed provider bodies: a weather body without `location.name` (the source stores it and
  then fails) and a news body without `articles` are not represented. `Snapshot` always has a
  name and `NewsBody` always has articles.
- The seven-day forecast list is passed to the page unchanged. Its per-day icons and
  temperatures are display formatting.
