/**
 * The weather helpers that do not fetch: the season at a latitude and
 * month, and the heuristic summary and tips built from a weather reading
 * and an air-quality reading. The fetches themselves are not modelled;
 * the readings they produce are the inputs here.
 */
module Weather {
  import opened Common

  datatype Season = Winter | Spring | Summer | Autumn

  /** The season on the other side of the equator. */
  function Opposite(s: Season): (r: Season)
    ensures r != s
  {
    match s
    case Winter => Summer
    case Summer => Winter
    case Spring => Autumn
    case Autumn => Spring
  }

  lemma OppositeInvolution(s: Season)
    ensures Opposite(Opposite(s)) == s
  {
  }

  /** A UTC month as `getUTCMonth` gives it, 0 for January to 11 for December. */
  type Month = m: int | 0 <= m <= 11

  /** Meteorological seasons in the north: December to February is winter, and so on by threes. */
  function NorthernSeason(m: Month): (r: Season)
    ensures r == Winter <==> m == 11 || m <= 1
    ensures r == Spring <==> 2 <= m <= 4
    ensures r == Summer <==> 5 <= m <= 7
    ensures r == Autumn <==> 8 <= m <= 10
  {
    if m == 11 || m <= 1 then Winter
    else if 2 <= m <= 4 then Spring
    else if 5 <= m <= 7 then Summer
    else Autumn
  }

  /** `inferSeason`: latitudes from the equator up count as northern; the south has the opposite season. */
  function InferSeason(lat: real, m: Month): (r: Season)
    ensures lat >= 0.0 ==> r == NorthernSeason(m)
    ensures lat < 0.0 ==> r == Opposite(NorthernSeason(m))
  {
    var season := NorthernSeason(m);
    if lat >= 0.0 then season else Opposite(season)
  }

  /** The equator has the northern seasons. */
  lemma EquatorIsNorthern(m: Month)
    ensures InferSeason(0.0, m) == NorthernSeason(m)
    ensures m == 0 ==> InferSeason(0.0, m) == Winter
  {
  }

  /** Mirroring a latitude across the equator gives the opposite season. */
  lemma HemispheresOpposite(lat: real, m: Month)
    requires lat > 0.0
    ensures InferSeason(-lat, m) == Opposite(InferSeason(lat, m))
    ensures InferSeason(lat, m) == Opposite(InferSeason(-lat, m))
  {
    OppositeInvolution(NorthernSeason(m));
  }

  /** Half a year later, anywhere, the season is the opposite one. */
  lemma HalfYearOpposite(lat: real, m: Month)
    ensures InferSeason(lat, (m + 6) % 12) == Opposite(InferSeason(lat, m))
  {
  }

  // ---------------------------------------------------------------------
  // Insights
  // ---------------------------------------------------------------------

  /** A weather reading; every field may be missing. */
  datatype WeatherData = WeatherData(
    description: string,
    tempC: Option<real>, feelsLikeC: Option<real>, humidity: Option<real>, windSpeedMs: Option<real>,
    pressure: Option<real>, visibility: Option<real>, clouds: Option<real>,
    rain1h: Option<real>, rain3h: Option<real>)

  /** An air-quality reading: the index from 1 (good) to 5 (very poor), and the PM2.5 concentration. */
  datatype AirQualityData = AirQualityData(aqi: Option<int>, pm2_5: Option<real>)

  /** One sentence of the summary, with the values it shows; the number formatting is not modelled. */
  datatype Part =
    | NoWeatherData
    | Conditions(temp: real, feelsLike: real, description: string)
    | Rainfall(mm: real)
    | Breezy(wind: real)
    | Humidity(percent: real, pressure: Option<real>)
    | CloudCover(percent: real)
    | Visibility(km: int)

  /** A fixed piece of advice, in the order the tips give them. */
  datatype Advice = Mask | Umbrella | Heat | Cold | Windy
  {
    function Text(): string
    {
      match this
      case Mask => "Consider a mask outdoors and limit strenuous activities."
      case Umbrella => "Carry an umbrella or raincoat."
      case Heat => "Stay hydrated and avoid midday heat."
      case Cold => "Dress in layers and protect extremities."
      case Windy => "Secure loose items; cycling may be challenging."
    }

    /** The position in the fixed order. */
    function Rank(): nat
    {
      match this
      case Mask => 0
      case Umbrella => 1
      case Heat => 2
      case Cold => 3
      case Windy => 4
    }
  }

  /** A tip: the air-quality line, or one of the fixed pieces of advice. */
  datatype Tip = AirQuality(level: string, pm2_5: Option<int>) | Piece(advice: Advice)

  datatype Insights = Insights(summary: seq<Part>, tips: seq<Tip>)

  /** The name of an air-quality index, `Unknown` outside 1 to 5. */
  function AqiLevel(aqi: int): (r: string)
    ensures r == "Unknown" <==> !(1 <= aqi <= 5)
  {
    if aqi == 1 then "Good"
    else if aqi == 2 then "Fair"
    else if aqi == 3 then "Moderate"
    else if aqi == 4 then "Poor"
    else if aqi == 5 then "Very Poor"
    else "Unknown"
  }

  /** The values the heuristics use, with their defaults. */
  function Temp(wx: WeatherData): real { wx.tempC.GetOr(20.0) }
  function Rain(wx: WeatherData): real { wx.rain1h.GetOr(0.0) + wx.rain3h.GetOr(0.0) }
  function Wind(wx: WeatherData): real { wx.windSpeedMs.GetOr(0.0) }
  function Aqi(aq: Option<AirQualityData>): int { if aq.Some? then aq.value.aqi.GetOr(2) else 2 }

  /** Whether a piece of advice applies to the readings. */
  predicate Applies(a: Advice, wx: WeatherData, aq: Option<AirQualityData>)
  {
    match a
    case Mask => Aqi(aq) >= 4
    case Umbrella => Rain(wx) > 2.0
    case Heat => Temp(wx) > 30.0
    case Cold => Temp(wx) < 5.0
    case Windy => Wind(wx) > 12.0
  }

  /** The position of a tip; the air-quality line comes before all advice. */
  function Rank(t: Tip): int
  {
    if t.AirQuality? then -1 else t.advice.Rank()
  }

  /** Appends `s` when `c` holds. */
  function PushIf<T>(xs: seq<T>, c: bool, s: T): seq<T>
  {
    if c then xs + [s] else xs
  }

  /** The summary sentences. */
  function Summary(w: WeatherData): (r: seq<Part>)
    ensures |r| >= 2 && r[0].Conditions? && r[0].temp == Temp(w)
    ensures Rainfall(Rain(w)) in r <==> Rain(w) > 0.0
  {
    var t := Temp(w);
    var parts := [Conditions(t, w.feelsLikeC.GetOr(t), if w.description != [] then w.description else "stable conditions")];
    var parts := PushIf(parts, Rain(w) > 0.0, Rainfall(Rain(w)));
    var parts := PushIf(parts, Wind(w) >= 8.0, Breezy(Wind(w)));
    var parts := parts + [Humidity(w.humidity.GetOr(50.0), if w.pressure.Some? && w.pressure.value != 0.0 then w.pressure else None)];
    var parts := if w.clouds.Some? then parts + [CloudCover(w.clouds.value)] else parts;
    if w.visibility.Some? then parts + [Visibility(Round(w.visibility.value / 1000.0))] else parts
  }

  /** The tips: the air-quality line, then each piece of advice whose condition holds. */
  function Tips(w: WeatherData, aq: Option<AirQualityData>): (r: seq<Tip>)
    ensures |r| >= 1 && r[0].AirQuality? && r[0].level == AqiLevel(Aqi(aq))
  {
    [AirQualityTip(aq)] + AdviceTips(w, aq)
  }

  /** The air-quality line: the level's name, and the rounded PM2.5 value when it is given and not zero. */
  function AirQualityTip(aq: Option<AirQualityData>): (r: Tip)
    ensures r.AirQuality? && r.level == AqiLevel(Aqi(aq))
  {
    var pm := if aq.Some? && aq.value.pm2_5.Some? && aq.value.pm2_5.value != 0.0 then Some(Round(aq.value.pm2_5.value)) else None;
    AirQuality(AqiLevel(Aqi(aq)), pm)
  }

  /** The advice, pushed one condition after another. */
  function AdviceTips(w: WeatherData, aq: Option<AirQualityData>): seq<Tip>
  {
    When(Mask, w, aq) + When(Umbrella, w, aq) + When(Heat, w, aq) + When(Cold, w, aq) + When(Windy, w, aq)
  }

  /** The tip pushed for a piece of advice: itself when it applies, nothing otherwise. */
  function When(a: Advice, w: WeatherData, aq: Option<AirQualityData>): seq<Tip>
  {
    if Applies(a, w, aq) then [Piece(a)] else []
  }

  /** `generateWeatherInsights`: a fixed answer without a reading. */
  function GenerateInsights(wx: Option<WeatherData>, aq: Option<AirQualityData>): (r: Insights)
    ensures wx.None? ==> r.summary == [NoWeatherData] && r.tips == []
    ensures wx.Some? ==> |r.tips| >= 1 && r.tips[0].AirQuality?
  {
    if wx.None? then Insights([NoWeatherData], [])
    else Insights(Summary(wx.value), Tips(wx.value, aq))
  }

  /** The pieces of advice in the order they are given. */
  const AdviceOrder: seq<Advice> := [Mask, Umbrella, Heat, Cold, Windy]

  lemma InAdviceOrder(a: Advice)
    ensures a in AdviceOrder
  {
    assert AdviceOrder[a.Rank()] == a;
  }

  /** The pieces of advice that apply to the readings. */
  function Wanted(wx: WeatherData, aq: Option<AirQualityData>): set<Advice>
  {
    set a: Advice | Applies(a, wx, aq)
  }

  /** Reference definition: the pieces of `order` in `on`, in the order of `order`. */
  function Applicable(order: seq<Advice>, on: set<Advice>): seq<Tip>
  {
    if order == [] then []
    else (if order[0] in on then [Piece(order[0])] else []) + Applicable(order[1..], on)
  }

  /** The filter holds exactly the pieces of `order` that are in `on`. */
  lemma {:induction false} ApplicableMembers(order: seq<Advice>, on: set<Advice>)
    ensures var r := Applicable(order, on);
      (forall t :: t in r ==> t.Piece? && t.advice in order && t.advice in on) &&
      (forall a :: a in order && a in on ==> Piece(a) in r)
  {
    if order != [] {
      ApplicableMembers(order[1..], on);
      assert forall a :: a in order ==> a == order[0] || a in order[1..];
    }
  }

  /** Tips whose ranks strictly increase. */
  predicate RankSorted(ts: seq<Tip>)
  {
    forall i, j :: 0 <= i < j < |ts| ==> Rank(ts[i]) < Rank(ts[j])
  }

  /** A tip ranked below all of a sorted list can go in front of it. */
  lemma ConsSorted(t: Tip, rest: seq<Tip>)
    requires RankSorted(rest)
    requires forall u :: u in rest ==> Rank(t) < Rank(u)
    ensures RankSorted([t] + rest)
  {
    var r := [t] + rest;
    forall i, j | 0 <= i < j < |r|
      ensures Rank(r[i]) < Rank(r[j])
    {
      assert r[j] == rest[j - 1] && rest[j - 1] in rest;
      if i > 0 {
        assert r[i] == rest[i - 1];
      }
    }
  }

  /** Filtering an order sorted by rank keeps the ranks strictly increasing. */
  lemma {:induction false} ApplicableSorted(order: seq<Advice>, on: set<Advice>)
    requires forall i, j :: 0 <= i < j < |order| ==> order[i].Rank() < order[j].Rank()
    ensures RankSorted(Applicable(order, on))
  {
    if order != [] {
      ApplicableSorted(order[1..], on);
      RestRankedAbove(order, on);
      var rest := Applicable(order[1..], on);
      var r := Applicable(order, on);
      if order[0] !in on {
        assert r == rest;
      } else {
        assert r == [Piece(order[0])] + rest;
        ConsSorted(Piece(order[0]), rest);
      }
    }
  }

  /** What the filter keeps after the first piece ranks above it. */
  lemma RestRankedAbove(order: seq<Advice>, on: set<Advice>)
    requires order != []
    requires forall i, j :: 0 <= i < j < |order| ==> order[i].Rank() < order[j].Rank()
    ensures forall t :: t in Applicable(order[1..], on) ==> order[0].Rank() < Rank(t)
  {
    ApplicableMembers(order[1..], on);
    forall t | t in Applicable(order[1..], on)
      ensures order[0].Rank() < Rank(t)
    {
      var k :| 0 <= k < |order[1..]| && order[1..][k] == t.advice;
      assert order[k + 1] == t.advice;
    }
  }

  /** The advice pushed one condition after another is the reference filter of the fixed order. */
  lemma AdviceIsFilter(wx: WeatherData, aq: Option<AirQualityData>)
    ensures AdviceTips(wx, aq) == Applicable(AdviceOrder, Wanted(wx, aq))
  {
    var on := Wanted(wx, aq);
    var order := AdviceOrder;
    assert order[4..][1..] == [];
    assert Applicable(order[4..], on) == When(Windy, wx, aq);
    assert Applicable(order[3..], on) == When(Cold, wx, aq) + Applicable(order[4..], on);
    assert Applicable(order[2..], on) == When(Heat, wx, aq) + Applicable(order[3..], on);
    assert Applicable(order[1..], on) == When(Umbrella, wx, aq) + Applicable(order[2..], on);
    assert Applicable(order, on) == When(Mask, wx, aq) + Applicable(order[1..], on);
  }

  /** Each piece of advice is among the tips exactly when its condition holds. */
  lemma TipsApply(wx: WeatherData, aq: Option<AirQualityData>, a: Advice)
    ensures Piece(a) in GenerateInsights(Some(wx), aq).tips <==> Applies(a, wx, aq)
  {
    AdviceIsFilter(wx, aq);
    ApplicableMembers(AdviceOrder, Wanted(wx, aq));
    InAdviceOrder(a);
    var tips := GenerateInsights(Some(wx), aq).tips;
    assert tips == [AirQualityTip(aq)] + AdviceTips(wx, aq);
    if Piece(a) in tips {
      assert Piece(a) in AdviceTips(wx, aq);
    }
  }

  /** The air-quality line comes first, and the advice follows in the fixed order. */
  lemma TipsInOrder(wx: WeatherData, aq: Option<AirQualityData>)
    ensures RankSorted(GenerateInsights(Some(wx), aq).tips)
  {
    AdviceIsFilter(wx, aq);
    ApplicableSorted(AdviceOrder, Wanted(wx, aq));
    ApplicableMembers(AdviceOrder, Wanted(wx, aq));
    ConsSorted(AirQualityTip(aq), AdviceTips(wx, aq));
    assert GenerateInsights(Some(wx), aq).tips == [AirQualityTip(aq)] + AdviceTips(wx, aq);
  }

  /**
   * Every missing value reads as its default, whatever the rest of the
   * reading: 20 degrees, felt as the temperature, stable conditions, 50%
   * humidity and a fair air quality; and a reading missing every value the
   * advice looks at gets the air-quality line alone.
   */
  lemma MissingValuesDefault(wx: WeatherData, aq: Option<AirQualityData>)
    ensures var r := GenerateInsights(Some(wx), aq);
      (wx.tempC.None? ==> r.summary[0].temp == 20.0) &&
      (wx.feelsLikeC.None? ==> r.summary[0].feelsLike == r.summary[0].temp) &&
      (wx.description == [] ==> r.summary[0].description == "stable conditions") &&
      (wx.humidity.None? ==> exists p :: p in r.summary && p.Humidity? && p.percent == 50.0) &&
      (aq.None? || aq.value.aqi.None? ==> r.tips[0].level == "Fair")
    ensures (wx.tempC.None? && wx.rain1h.None? && wx.rain3h.None? && wx.windSpeedMs.None? &&
             (aq.None? || aq.value.aqi.None?)) ==> GenerateInsights(Some(wx), aq).tips == [AirQualityTip(aq)]
  {
    var r := GenerateInsights(Some(wx), aq);
    var h := Humidity(wx.humidity.GetOr(50.0), if wx.pressure.Some? && wx.pressure.value != 0.0 then wx.pressure else None);
    assert h in r.summary;
  }

  /**
   * The umbrella advice looks at the rain of the last hour and of the last
   * three hours together: it is given exactly when their sum, a missing one
   * counting as 0, is over 2 mm.
   */
  lemma UmbrellaOnCombinedRain(wx: WeatherData, aq: Option<AirQualityData>)
    ensures Piece(Umbrella) in GenerateInsights(Some(wx), aq).tips <==> wx.rain1h.GetOr(0.0) + wx.rain3h.GetOr(0.0) > 2.0
  {
    TipsApply(wx, aq, Umbrella);
  }
}
