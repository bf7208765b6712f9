/** The dashboard's two pure display rules: the icon category for a condition text
    (`getWeatherIcon`) and the advisory shown for a temperature and condition
    (`getWeatherRecommendation`). */
module Conditions {
  import opened Js

  // ---------------------------------------------------------------------------
  // Icon categories

  datatype Icon = Sun | Cloud | Rain | Wind

  const SunWords: set<string> := {"sunny", "clear"}
  const CloudWords: set<string> := {"partly cloudy", "cloudy", "overcast"}
  const RainWords: set<string> := {"rain", "light rain", "heavy rain"}
  const WindWords: set<string> := {"wind", "windy"}

  /** The ten condition texts the switch lists. */
  const Vocabulary: set<string> := SunWords + CloudWords + RainWords + WindWords

  /** `getWeatherIcon`: an exact match of the lower-cased text against the switch's cases,
      with the sun as the default. */
  function WeatherIcon(condition: string): (r: Icon)
  {
    var c := ToLower(condition);
    if c == "sunny" || c == "clear" then Sun
    else if c == "partly cloudy" || c == "cloudy" || c == "overcast" then Cloud
    else if c == "rain" || c == "light rain" || c == "heavy rain" then Rain
    else if c == "wind" || c == "windy" then Wind
    else Sun
  }

  /** Each category is reached by exactly its own words, compared after lower-casing; the sun
      also covers every text outside the vocabulary. */
  lemma IconByVocabulary(condition: string)
    ensures WeatherIcon(condition) == Cloud <==> ToLower(condition) in CloudWords
    ensures WeatherIcon(condition) == Rain <==> ToLower(condition) in RainWords
    ensures WeatherIcon(condition) == Wind <==> ToLower(condition) in WindWords
    ensures WeatherIcon(condition) == Sun <==> ToLower(condition) in SunWords || ToLower(condition) !in Vocabulary
  {
  }

  /** Any text outside the vocabulary gets the same icon as "sunny" and "clear". */
  lemma UnknownConditionIsDefault(condition: string)
    requires ToLower(condition) !in Vocabulary
    ensures WeatherIcon(condition) == WeatherIcon("sunny") == WeatherIcon("clear") == Sun
  {
    IconByVocabulary(condition);
    IconByVocabulary("sunny");
    IconByVocabulary("clear");
  }

  /** The classification ignores case: a text and its lower-cased form get the same icon. */
  lemma IconCaseInsensitive(condition: string)
    ensures WeatherIcon(condition) == WeatherIcon(ToLower(condition))
  {
    ToLowerIdempotent(condition);
  }

  /** Two texts that differ only in the case of their letters get the same icon. */
  lemma IconIgnoresCase(s: string, t: string)
    requires ToLower(s) == ToLower(t)
    ensures WeatherIcon(s) == WeatherIcon(t)
  {
  }

  /** The match is exact, not a substring test: "moderate rain" is not a rain text. */
  lemma IconMatchIsExact()
    ensures WeatherIcon("heavy rain") == Rain
    ensures WeatherIcon("moderate rain") == Sun
  {
    ToLowerNoUpper("heavy rain");
    ToLowerNoUpper("moderate rain");
  }

  // ---------------------------------------------------------------------------
  // Recommendations

  /** The five advisories, in the order the rule tries them. */
  datatype Advice = Hot | Chilly | Umbrella | Windy | Pleasant
  {
    function Message(): string
    {
      match this
      case Hot => "It's hot out there! Don't forget to stay hydrated and wear sunscreen."
      case Chilly => "It's chilly today. Bundle up before heading out!"
      case Umbrella => "Don't forget your umbrella!"
      case Windy => "It's windy today. Secure any loose items outdoors."
      case Pleasant => "Enjoy the pleasant weather today!"
    }
  }

  /** `isCelsius ? temp : ((temp - 32) * 5) / 9`: the temperature the thresholds are applied to. */
  function TempC(temp: real, isCelsius: bool): real
  {
    if isCelsius then temp else (temp - 32.0) * 5.0 / 9.0
  }

  /** `getWeatherRecommendation`: the first of hot, cold, rain, wind that applies, else pleasant. */
  function Recommend(temp: real, condition: string, isCelsius: bool): (r: Advice)
  {
    var t := TempC(temp, isCelsius);
    if t > 30.0 then Hot
    else if t < 10.0 then Chilly
    else if Contains(ToLower(condition), "rain") then Umbrella
    else if Contains(ToLower(condition), "wind") then Windy
    else Pleasant
  }

  /** The rule as a priority list: each advisory is given exactly when its own test passes and
      every earlier test fails. */
  lemma RecommendFirstMatch(temp: real, condition: string, isCelsius: bool)
    ensures var t := TempC(temp, isCelsius);
            var c := ToLower(condition);
            && (Recommend(temp, condition, isCelsius) == Hot <==> t > 30.0)
            && (Recommend(temp, condition, isCelsius) == Chilly <==> t <= 30.0 && t < 10.0)
            && (Recommend(temp, condition, isCelsius) == Umbrella <==> 10.0 <= t <= 30.0 && Contains(c, "rain"))
            && (Recommend(temp, condition, isCelsius) == Windy <==>
                  10.0 <= t <= 30.0 && !Contains(c, "rain") && Contains(c, "wind"))
            && (Recommend(temp, condition, isCelsius) == Pleasant <==>
                  10.0 <= t <= 30.0 && !Contains(c, "rain") && !Contains(c, "wind"))
  {
  }

  /** Over the reals the Fahrenheit conversion moves the thresholds exactly to 86 and 50. */
  lemma FahrenheitThresholds(temp: real)
    ensures TempC(temp, false) > 30.0 <==> temp > 86.0
    ensures TempC(temp, false) < 10.0 <==> temp < 50.0
  {
  }

  /** With the Fahrenheit flag the rule reads: above 86 hot, below 50 chilly, otherwise the
      condition decides. */
  lemma RecommendFahrenheit(temp: real, condition: string)
    ensures Recommend(temp, condition, false) == Hot <==> temp > 86.0
    ensures Recommend(temp, condition, false) == Chilly <==> temp < 50.0
    ensures 50.0 <= temp <= 86.0 ==> Recommend(temp, condition, false) == Recommend(TempC(temp, false), condition, true)
  {
    FahrenheitThresholds(temp);
  }

  /** Rain and wind are substring tests on the lower-cased text. */
  lemma ConditionKeywordsAreSubstrings(temp: real, condition: string, isCelsius: bool)
    requires 10.0 <= TempC(temp, isCelsius) <= 30.0
    ensures Recommend(temp, condition, isCelsius) == Umbrella
        <==> exists i :: OccursAt(ToLower(condition), "rain", i)
  {
    ContainsIff(ToLower(condition), "rain");
    assert Recommend(temp, condition, isCelsius) == Umbrella <==> Contains(ToLower(condition), "rain");
  }

  /** Worked example: 35 degrees Celsius and "Sunny" is hot. */
  lemma HotExample()
    ensures Recommend(35.0, "Sunny", true) == Hot
  {
  }

  /** Worked example: 5 degrees Celsius and "Clear" is chilly. */
  lemma ChillyExample()
    ensures Recommend(5.0, "Clear", true) == Chilly
  {
  }

  /** Worked example: 20 degrees Celsius and "Light rain" brings the umbrella. */
  lemma UmbrellaExample()
    ensures Recommend(20.0, "Light rain", true) == Umbrella
  {
    assert ToLower("Light rain") == "light rain";
    ContainsIff("light rain", "rain");
    assert OccursAt("light rain", "rain", 6);
  }

  /** A rain text outside the icon vocabulary still brings the umbrella advisory. */
  lemma RainKeywordExample()
    ensures Recommend(20.0, "moderate rain", true) == Umbrella
  {
    ToLowerNoUpper("moderate rain");
    ContainsIff("moderate rain", "rain");
    assert OccursAt("moderate rain", "rain", 9);
  }

  /** 68 degrees Fahrenheit is 20 Celsius, and "Windy" contains "wind" but not "rain". */
  lemma WindKeywordExample()
    ensures Recommend(68.0, "Windy", false) == Windy
  {
    assert ToLower("Windy") == "windy";
    ContainsIff("windy", "rain");
    forall i | 0 <= i <= 1 ensures !OccursAt("windy", "rain", i) {
      assert "windy"[i..i + 4][1] == "windy"[i + 1] != 'a';
    }
    assert Contains("windy", "wind");
  }
}
