/**
 * The risk panel's classifier: a named metric and its value to a level and
 * the colour it is shown in.
 */
module RiskAnalyzer {
  import opened Palette

  datatype Level = Low | Medium | High | Excellent | Good | Poor

  /** The record `getRiskLevel` returns. */
  datatype Rating = Rating(level: Level, color: Hue)

  /** The colour each level is shown in: best band green, middle yellow, worst red. */
  function LevelHue(l: Level): Hue
  {
    match l
    case Low => Green
    case Excellent => Green
    case Medium => Yellow
    case Good => Yellow
    case High => Red
    case Poor => Red
  }

  /**
   * `getRiskLevel`: volatility is Low below 15, Medium below 25 and High
   * from there; the Sharpe ratio is Excellent above 2, Good above 1 and Poor
   * otherwise; any other metric is Medium whatever its value. Every rating
   * carries its level's colour.
   */
  function GetRiskLevel(metric: string, value: real): (r: Rating)
    ensures metric == "volatility" ==>
      (r.level == Low <==> value < 15.0) && (r.level == Medium <==> 15.0 <= value < 25.0) && (r.level == High <==> value >= 25.0)
    ensures metric == "sharpeRatio" ==>
      (r.level == Excellent <==> value > 2.0) && (r.level == Good <==> 1.0 < value <= 2.0) && (r.level == Poor <==> value <= 1.0)
    ensures metric != "volatility" && metric != "sharpeRatio" ==> r.level == Medium
    ensures r.color == LevelHue(r.level)
  {
    match metric
    case "volatility" =>
      if value < 15.0 then Rating(Low, Green)
      else if value < 25.0 then Rating(Medium, Yellow)
      else Rating(High, Red)
    case "sharpeRatio" =>
      if value > 2.0 then Rating(Excellent, Green)
      else if value > 1.0 then Rating(Good, Yellow)
      else Rating(Poor, Red)
    case _ => Rating(Medium, Yellow)
  }

  /** The Sharpe bands' edges: exactly 2 is Good, exactly 1 is Poor. */
  lemma SharpeBoundaries()
    ensures GetRiskLevel("sharpeRatio", 2.0).level == Good
    ensures GetRiskLevel("sharpeRatio", 1.0).level == Poor
    ensures GetRiskLevel("volatility", 15.0).level == Medium
    ensures GetRiskLevel("volatility", 25.0).level == High
  {
  }

  /** More volatility never rates better: the colour only moves from green towards red. */
  lemma VolatilityMonotone(v1: real, v2: real)
    requires v1 <= v2
    ensures HueRank(GetRiskLevel("volatility", v2).color) <= HueRank(GetRiskLevel("volatility", v1).color)
  {
  }

  /** A higher Sharpe ratio never rates worse: the colour only moves from red towards green. */
  lemma SharpeMonotone(v1: real, v2: real)
    requires v1 <= v2
    ensures HueRank(GetRiskLevel("sharpeRatio", v1).color) <= HueRank(GetRiskLevel("sharpeRatio", v2).color)
  {
  }
}
