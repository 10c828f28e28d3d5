/**
 * The detailed fire-risk scorer of the risk-assessment page: four factors
 * derived from a weather observation (temperature in degrees Fahrenheit,
 * relative humidity in percent, wind speed in miles per hour), each clamped
 * to [0, 100], their mean, the rounding applied before storing, and the
 * classification of a score into one of four bands.
 */
module RiskAssessment {
  import opened Wrappers
  import opened RiskLevel

  /** The weather observation the page derives from the provider's reply. */
  datatype Weather = Weather(temperature: real, humidity: real, windSpeed: real, conditions: string)

  /** The stored assessment: every field is the rounded value of its factor. */
  datatype RiskFactors = RiskFactors(temperature: int, humidity: int, windSpeed: int, vegetation: int, overall: int)

  function Min(a: real, b: real): real { if a <= b then a else b }
  function Max(a: real, b: real): real { if a >= b then a else b }

  /** `Math.max(0, Math.min(100, x))`: the nearest point of [0, 100]. */
  function Clamp(x: real): (r: real)
    ensures 0.0 <= r <= 100.0
    ensures 0.0 <= x <= 100.0 ==> r == x
    ensures x < 0.0 ==> r == 0.0
    ensures x > 100.0 ==> r == 100.0
  {
    Max(0.0, Min(100.0, x))
  }

  /** `Math.round`: the integer nearest to `x`, halves going up. */
  function Round(x: real): (r: int)
    ensures x - 0.5 < r as real <= x + 0.5
  {
    (x + 0.5).Floor
  }

  /** An integral value is stored unchanged. */
  lemma RoundOfInteger(n: int)
    ensures Round(n as real) == n
  {
  }

  /** Temperature factor, 60 degrees offset: 0 up to 60, 100 from 110 on, linear between. */
  function TempRisk(temperature: real): (r: real)
    ensures 0.0 <= r <= 100.0
    ensures temperature <= 60.0 ==> r == 0.0
    ensures temperature >= 110.0 ==> r == 100.0
  {
    Clamp((temperature - 60.0) * 2.0)
  }

  /** Humidity factor: dryness scaled by 1.5. */
  function HumidityRisk(humidity: real): (r: real)
    ensures 0.0 <= r <= 100.0
    ensures humidity >= 100.0 ==> r == 0.0
  {
    Clamp((100.0 - humidity) * 1.5)
  }

  /** Wind factor: speed scaled by 5, saturating at 20. */
  function WindRisk(windSpeed: real): (r: real)
    ensures 0.0 <= r <= 100.0
    ensures windSpeed <= 0.0 ==> r == 0.0
    ensures windSpeed >= 20.0 ==> r == 100.0
  {
    Clamp(windSpeed * 5.0)
  }

  /** Vegetation factor: a second, gentler transform of humidity (dryness scaled by 1.2). */
  function VegetationRisk(humidity: real): (r: real)
    ensures 0.0 <= r <= 100.0
    ensures humidity >= 100.0 ==> r == 0.0
    ensures r <= HumidityRisk(humidity)
  {
    Clamp((100.0 - humidity) * 1.2)
  }

  /** The unrounded `overall`: the mean of the four clamped factors. */
  function MeanRisk(w: Weather): (r: real)
    ensures 0.0 <= r <= 100.0
  {
    (TempRisk(w.temperature) + HumidityRisk(w.humidity) + WindRisk(w.windSpeed) + VegetationRisk(w.humidity)) / 4.0
  }

  /** `calculateRisk`: the record passed to `setRisk`. */
  function CalculateRisk(w: Weather): (r: RiskFactors)
    ensures 0 <= r.temperature <= 100 && 0 <= r.humidity <= 100 && 0 <= r.windSpeed <= 100
    ensures 0 <= r.vegetation <= 100 && 0 <= r.overall <= 100
    ensures r.vegetation <= r.humidity
    ensures TempRisk(w.temperature) - 0.5 < r.temperature as real <= TempRisk(w.temperature) + 0.5
    ensures HumidityRisk(w.humidity) - 0.5 < r.humidity as real <= HumidityRisk(w.humidity) + 0.5
    ensures WindRisk(w.windSpeed) - 0.5 < r.windSpeed as real <= WindRisk(w.windSpeed) + 0.5
    ensures VegetationRisk(w.humidity) - 0.5 < r.vegetation as real <= VegetationRisk(w.humidity) + 0.5
    ensures MeanRisk(w) - 0.5 < r.overall as real <= MeanRisk(w) + 0.5
  {
    RiskFactors(
      Round(TempRisk(w.temperature)),
      Round(HumidityRisk(w.humidity)),
      Round(WindRisk(w.windSpeed)),
      Round(VegetationRisk(w.humidity)),
      Round(MeanRisk(w)))
  }

  lemma TempRiskNonDecreasing(t1: real, t2: real)
    requires t1 <= t2
    ensures TempRisk(t1) <= TempRisk(t2)
  {
  }

  lemma HumidityRiskNonIncreasing(h1: real, h2: real)
    requires h1 <= h2
    ensures HumidityRisk(h2) <= HumidityRisk(h1)
    ensures VegetationRisk(h2) <= VegetationRisk(h1)
  {
  }

  lemma WindRiskNonDecreasing(w1: real, w2: real)
    requires w1 <= w2
    ensures WindRisk(w1) <= WindRisk(w2)
  {
  }

  /** A higher score never rounds to a lower stored value. */
  lemma RoundNonDecreasing(x: real, y: real)
    requires x <= y
    ensures Round(x) <= Round(y)
  {
  }

  /** The badge of `getRiskLevel`: a band and its text/background classes. */
  datatype Badge = Badge(level: Level, color: string)

  function BadgeColor(level: Level): string {
    match level
    case Low => "text-green-600 bg-green-100"
    case Moderate => "text-yellow-600 bg-yellow-100"
    case High => "text-orange-600 bg-orange-100"
    case Extreme => "text-red-600 bg-red-100"
  }

  /** `getRiskLevel`: closed-open bands [0,25), [25,50), [50,75) and [75, ...). */
  function GetRiskLevel(score: real): (b: Badge)
    ensures b.level == Low <==> score < 25.0
    ensures b.level == Moderate <==> 25.0 <= score < 50.0
    ensures b.level == High <==> 50.0 <= score < 75.0
    ensures b.level == Extreme <==> 75.0 <= score
    ensures b.color == BadgeColor(b.level)
  {
    if score < 25.0 then Badge(Low, BadgeColor(Low))
    else if score < 50.0 then Badge(Moderate, BadgeColor(Moderate))
    else if score < 75.0 then Badge(High, BadgeColor(High))
    else Badge(Extreme, BadgeColor(Extreme))
  }

  /** A higher score never falls in a lower band. */
  lemma GetRiskLevelMonotone(a: real, b: real)
    requires a <= b
    ensures GetRiskLevel(a).level.Rank() <= GetRiskLevel(b).level.Rank()
  {
  }

  /** The colour lookup of `RiskLevelBar`, total on the four bands. */
  function BarColor(level: Level): (c: string)
    ensures c in {"bg-green-500", "bg-yellow-500", "bg-orange-500", "bg-red-500"}
  {
    match level
    case Low => "bg-green-500"
    case Moderate => "bg-yellow-500"
    case High => "bg-orange-500"
    case Extreme => "bg-red-500"
  }

  /** Distinct bands get distinct bar colours. */
  lemma BarColorInjective(a: Level, b: Level)
    requires BarColor(a) == BarColor(b)
    ensures a == b
  {
  }

  /** The bar drawn for a score takes the colour of that score's band. */
  function RiskLevelBarColor(score: real): (c: string)
    ensures c == "bg-green-500" <==> score < 25.0
    ensures c == "bg-yellow-500" <==> 25.0 <= score < 50.0
    ensures c == "bg-orange-500" <==> 50.0 <= score < 75.0
    ensures c == "bg-red-500" <==> 75.0 <= score
  {
    BarColor(GetRiskLevel(score).level)
  }

  /** `Math.round` reaches `n` exactly from `n - 0.5` on. */
  lemma RoundAtLeast(x: real, n: int)
    ensures Round(x) >= n <==> x >= n as real - 0.5
  {
  }

  /**
   * The band shown for an observation: that of its stored, rounded overall
   * score. Rounding moves each cut-off half a point down on the mean.
   */
  function AssessedLevel(w: Weather): (l: Level)
    ensures l == Low <==> MeanRisk(w) < 24.5
    ensures l == Moderate <==> 24.5 <= MeanRisk(w) < 49.5
    ensures l == High <==> 49.5 <= MeanRisk(w) < 74.5
    ensures l == Extreme <==> 74.5 <= MeanRisk(w)
  {
    var m := MeanRisk(w);
    RoundAtLeast(m, 25);
    RoundAtLeast(m, 50);
    RoundAtLeast(m, 75);
    GetRiskLevel(CalculateRisk(w).overall as real).level
  }

  /** 95 degrees, 10 % humidity and wind 20 give factors 70/100/100/100, overall 93, Extreme. */
  lemma WorkedExample()
    ensures CalculateRisk(Weather(95.0, 10.0, 20.0, "Clear")) == RiskFactors(70, 100, 100, 100, 93)
    ensures AssessedLevel(Weather(95.0, 10.0, 20.0, "Clear")) == Extreme
  {
    var w := Weather(95.0, 10.0, 20.0, "Clear");
    assert MeanRisk(w) == 92.5;
  }

  /** Cut-off behaviour of the strict comparisons. */
  lemma BandBoundaries()
    ensures GetRiskLevel(24.0).level == Low && GetRiskLevel(25.0).level == Moderate
    ensures GetRiskLevel(49.0).level == Moderate && GetRiskLevel(50.0).level == High
    ensures GetRiskLevel(75.0).level == Extreme && GetRiskLevel(100.0).level == Extreme
  {
  }

  /**
   * The page's state: the pinned marker, the last observation, the last
   * stored assessment and the loading flag. The provider call itself is not
   * modelled; its completion or failure arrives as an event.
   */
  class RiskView {
    var marker: Option<(real, real)>
    var weather: Option<Weather>
    var risk: Option<RiskFactors>
    var loading: bool

    /** A stored assessment always belongs to the stored observation. */
    ghost predicate Valid()
      reads this
    {
      risk.Some? ==> weather.Some? && risk.value == CalculateRisk(weather.value)
    }

    constructor ()
      ensures Valid()
      ensures marker == None && weather == None && risk == None && !loading
    {
      marker, weather, risk, loading := None, None, None, false;
    }

    /** A click on the map pins the marker and starts the fetch. */
    method MapClicked(lat: real, lng: real)
      requires Valid()
      modifies this
      ensures Valid()
      ensures marker == Some((lat, lng)) && loading
      ensures weather == old(weather) && risk == old(risk)
    {
      marker := Some((lat, lng));
      loading := true;
    }

    /** The provider answered: store the observation, then its assessment; loading ends. */
    method WeatherArrived(w: Weather)
      requires Valid()
      modifies this
      ensures Valid()
      ensures weather == Some(w) && risk == Some(CalculateRisk(w)) && !loading
      ensures marker == old(marker)
    {
      weather := Some(w);
      risk := Some(CalculateRisk(w));
      loading := false;
    }

    /** The fetch failed: only loading ends; the previous assessment stays on screen. */
    method WeatherFailed()
      requires Valid()
      modifies this
      ensures Valid()
      ensures !loading
      ensures marker == old(marker) && weather == old(weather) && risk == old(risk)
    {
      loading := false;
    }
  }
}
