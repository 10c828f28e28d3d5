/**
 * The overview card's own copy of the scorer: three factors with a 20 degree
 * offset (the card asks for metric units), no clamping and no rounding,
 * classified with the same strict cut-offs. It is kept apart from the
 * detailed scorer on purpose; the lemmas at the end compare the two.
 */
module Overview {
  import opened Wrappers
  import opened RiskLevel
  import RiskAssessment

  /** The three fields the card reads from the provider's reply. */
  datatype Observation = Observation(temp: real, humidity: real, windSpeed: real)

  /** The unclamped mean of the three factors of `getRiskLevel`. */
  function Overall(temp: real, humidity: real, windSpeed: real): (r: real)
    ensures 3.0 * r == 2.0 * temp + 5.0 * windSpeed - 1.5 * humidity + 110.0
  {
    var tempRisk := (temp - 20.0) * 2.0;
    var humidityRisk := (100.0 - humidity) * 1.5;
    var windRisk := windSpeed * 5.0;
    (tempRisk + humidityRisk + windRisk) / 3.0
  }

  /** `getRiskLevel` of the card. */
  function GetRiskLevel(temp: real, humidity: real, windSpeed: real): (l: Level)
    ensures l == RiskAssessment.GetRiskLevel(Overall(temp, humidity, windSpeed)).level
  {
    var overall := Overall(temp, humidity, windSpeed);
    if overall < 25.0 then Low
    else if overall < 50.0 then Moderate
    else if overall < 75.0 then High
    else Extreme
  }

  /** The bands as regions of the weather space, both directions. */
  lemma {:induction false} GetRiskLevelClosedForm(temp: real, humidity: real, windSpeed: real)
    ensures var s := 2.0 * temp + 5.0 * windSpeed - 1.5 * humidity;
      && (GetRiskLevel(temp, humidity, windSpeed) == Low <==> s < -35.0)
      && (GetRiskLevel(temp, humidity, windSpeed) == Moderate <==> -35.0 <= s < 40.0)
      && (GetRiskLevel(temp, humidity, windSpeed) == High <==> 40.0 <= s < 115.0)
      && (GetRiskLevel(temp, humidity, windSpeed) == Extreme <==> 115.0 <= s)
  {
    var o := Overall(temp, humidity, windSpeed);
    var s := 2.0 * temp + 5.0 * windSpeed - 1.5 * humidity;
    assert o < 25.0 <==> s < -35.0;
    assert o < 50.0 <==> s < 40.0;
    assert o < 75.0 <==> s < 115.0;
  }

  /** Hotter or windier weather never lowers the band; more humid weather never raises it. */
  lemma {:induction false} GetRiskLevelMonotone(t1: real, h1: real, w1: real, t2: real, h2: real, w2: real)
    requires t1 <= t2 && w1 <= w2 && h2 <= h1
    ensures GetRiskLevel(t1, h1, w1).Rank() <= GetRiskLevel(t2, h2, w2).Rank()
  {
    var o1, o2 := Overall(t1, h1, w1), Overall(t2, h2, w2);
    assert o1 <= o2;
    RiskAssessment.GetRiskLevelMonotone(o1, o2);
  }

  /** Nothing bounds the card's score: humidity above 100 at 20 degrees without wind goes below 0, and is Low. */
  lemma {:induction false} NegativeOverallIsLow(humidity: real)
    requires humidity > 100.0
    ensures Overall(20.0, humidity, 0.0) < 0.0
    ensures GetRiskLevel(20.0, humidity, 0.0) == Low
  {
    assert 3.0 * Overall(20.0, humidity, 0.0) == 150.0 - 1.5 * humidity;
  }

  /** Nothing caps it either: any humidity and wind can be outweighed by temperature. */
  lemma {:induction false} HotEnoughIsExtreme(humidity: real, windSpeed: real) returns (temp: real)
    ensures Overall(temp, humidity, windSpeed) > 100.0
    ensures GetRiskLevel(temp, humidity, windSpeed) == Extreme
  {
    var dry := if humidity >= 0.0 then humidity else -humidity;
    temp := 150.0 + dry - 2.5 * windSpeed;
    assert 3.0 * Overall(temp, humidity, windSpeed) == 410.0 + 2.0 * dry - 1.5 * humidity;
    GetRiskLevelClosedForm(temp, humidity, windSpeed);
  }

  /** 20 degrees, 100 % humidity, no wind: every factor and the score are 0, Low. */
  lemma NeutralWeatherIsLow()
    ensures Overall(20.0, 100.0, 0.0) == 0.0
    ensures GetRiskLevel(20.0, 100.0, 0.0) == Low
  {
  }

  /** `currentRisk`: the band's label, or `'Loading'` while no reply is present. */
  function CurrentRisk(weather: Option<Observation>): (r: string)
    ensures r == "Loading" <==> weather.None?
    ensures weather.Some? ==> r == GetRiskLevel(weather.value.temp, weather.value.humidity, weather.value.windSpeed).Name()
  {
    match weather
    case None => "Loading"
    case Some(w) => GetRiskLevel(w.temp, w.humidity, w.windSpeed).Name()
  }

  const Gray := "text-gray-600 bg-gray-100"

  /** `getRiskColor`: one class per band label, gray for any other string. */
  function GetRiskColor(risk: string): (c: string)
    ensures c == Gray <==> risk !in {"Low", "Moderate", "High", "Extreme"}
  {
    match risk
    case "Low" => "text-green-600 bg-green-100"
    case "Moderate" => "text-yellow-600 bg-yellow-100"
    case "High" => "text-orange-600 bg-orange-100"
    case "Extreme" => "text-red-600 bg-red-100"
    case _ => Gray
  }

  /** The four bands get four distinct colours, none of them gray. */
  lemma RiskColorsDistinct(a: Level, b: Level)
    ensures GetRiskColor(a.Name()) != Gray
    ensures a != b ==> GetRiskColor(a.Name()) != GetRiskColor(b.Name())
  {
  }

  /** The card is gray exactly while the reply is missing. */
  lemma {:induction false} CurrentRiskGrayIffLoading(weather: Option<Observation>)
    ensures GetRiskColor(CurrentRisk(weather)) == Gray <==> weather.None?
  {
    if weather.Some? {
      var l := GetRiskLevel(weather.value.temp, weather.value.humidity, weather.value.windSpeed);
      RiskColorsDistinct(l, l);
    }
  }

  /** The detailed score always stays in [0, 100]; the card's score leaves it on both sides. */
  lemma {:induction false} OnlyTheDetailedScoreIsBounded(w: RiskAssessment.Weather)
    ensures 0.0 <= RiskAssessment.MeanRisk(w) <= 100.0
    ensures Overall(20.0, 110.0, 0.0) < 0.0 && Overall(100.0, 0.0, 20.0) > 100.0
  {
    NegativeOverallIsLow(110.0);
  }

  /** 70 degrees, saturated air and calm: only the temperature factor is non-zero, mean 5. */
  lemma DetailedMeanAtSeventyDegrees()
    ensures RiskAssessment.MeanRisk(RiskAssessment.Weather(70.0, 100.0, 0.0, "Clouds")) == 5.0
  {
    assert RiskAssessment.TempRisk(70.0) == 20.0;
  }

  /** The detailed page stores 20/0/0/0 and overall 5 for that weather. */
  lemma DetailedAtSeventyDegrees()
    ensures RiskAssessment.CalculateRisk(RiskAssessment.Weather(70.0, 100.0, 0.0, "Clouds"))
         == RiskAssessment.RiskFactors(20, 0, 0, 0, 5)
  {
    assert RiskAssessment.TempRisk(70.0) == 20.0;
    assert RiskAssessment.HumidityRisk(100.0) == 0.0 && RiskAssessment.VegetationRisk(100.0) == 0.0;
    assert RiskAssessment.WindRisk(0.0) == 0.0;
    DetailedMeanAtSeventyDegrees();
    RiskAssessment.RoundOfInteger(20);
    RiskAssessment.RoundOfInteger(0);
    RiskAssessment.RoundOfInteger(5);
  }

  /**
   * The two copies disagree on the same three numbers: 70, saturated air,
   * calm. (The detail page asks the provider for imperial units and the
   * overview card for metric ones, so on live data the same numbers also
   * mean different weather.)
   */
  lemma {:induction false} CopiesDisagree()
    ensures RiskAssessment.AssessedLevel(RiskAssessment.Weather(70.0, 100.0, 0.0, "Clouds")) == Low
    ensures GetRiskLevel(70.0, 100.0, 0.0) == Moderate
  {
    DetailedAtSeventyDegrees();
    GetRiskLevelClosedForm(70.0, 100.0, 0.0);
  }
}
