/**
 * The score card: a mock score that starts from a fixed base, is nudged by
 * the investor profile and clamped to [0, 100], then read off as one of four
 * ordered recommendations.
 */
module InvestmentScore {
  import opened Palette
  import opened InvestorProfile

  const BaseScore: int := 76
  const LongTermBalancedBonus: int := 5
  const ShortTermAversePenalty: int := 8

  predicate IsLongTermBalanced(p: Profile)
  {
    p.horizon == "long-term" && p.riskAppetite == "balanced"
  }

  predicate IsShortTermAverse(p: Profile)
  {
    p.horizon == "short-term" && p.riskAppetite == "risk-averse"
  }

  /** `Math.min(hi, Math.max(lo, x))`: the point of [lo, hi] nearest to `x`. */
  function Clamp(lo: int, hi: int, x: int): (r: int)
    requires lo <= hi
    ensures lo <= r <= hi
    ensures lo <= x <= hi ==> r == x
    ensures x < lo ==> r == lo
    ensures hi < x ==> r == hi
  {
    if hi < (if lo < x then x else lo) then hi else if lo < x then x else lo
  }

  /** The score the card shows for a profile. */
  function ProfileScore(p: Profile): int
  {
    var adjusted :=
      if IsLongTermBalanced(p) then BaseScore + LongTermBalancedBonus
      else if IsShortTermAverse(p) then BaseScore - ShortTermAversePenalty
      else BaseScore;
    Clamp(0, 100, adjusted)
  }

  /**
   * `getScoreData`: the base score, adjusted step by step for the profile,
   * then clamped. The company is only a display label: the result is a
   * function of the profile alone.
   */
  method GetScoreData(company: string, profile: Profile) returns (score: int)
    ensures 0 <= score <= 100
    ensures score == ProfileScore(profile)
  {
    var adjustedScore := BaseScore;
    if profile.horizon == "long-term" && profile.riskAppetite == "balanced" {
      adjustedScore := adjustedScore + LongTermBalancedBonus;
    } else if profile.horizon == "short-term" && profile.riskAppetite == "risk-averse" {
      adjustedScore := adjustedScore - ShortTermAversePenalty;
    }
    score := Clamp(0, 100, adjustedScore);
  }

  /**
   * The three outcomes: long-term and balanced scores 81, short-term and
   * risk-averse scores 68, every other pair of strings (including ones no
   * button offers) keeps the base 76; all lie within [0, 100].
   */
  lemma ProfileScoreCases(p: Profile)
    ensures 0 <= ProfileScore(p) <= 100
    ensures IsLongTermBalanced(p) ==> ProfileScore(p) == 81
    ensures IsShortTermAverse(p) ==> ProfileScore(p) == 68
    ensures !IsLongTermBalanced(p) && !IsShortTermAverse(p) ==> ProfileScore(p) == 76
  {
  }

  datatype Action = Buy | Hold | Sell | Avoid

  /** The order of the recommendations, AVOID lowest and BUY highest. */
  function ActionRank(a: Action): nat
  {
    match a
    case Avoid => 0
    case Sell => 1
    case Hold => 2
    case Buy => 3
  }

  datatype Recommendation = Recommendation(action: Action, color: Hue, description: string)

  /**
   * The colour and description every action is shown with. The colours run
   * from red to green in the same order as the actions run from AVOID to BUY.
   */
  function Presentation(a: Action): (r: Recommendation)
    ensures r.action == a
    ensures HueRank(r.color) == ActionRank(a)
  {
    match a
    case Buy => Recommendation(Buy, Green, "Strong investment opportunity")
    case Hold => Recommendation(Hold, Yellow, "Stable investment with moderate growth")
    case Sell => Recommendation(Sell, Orange, "Consider reducing position")
    case Avoid => Recommendation(Avoid, Red, "High risk, not recommended")
  }

  /**
   * `getRecommendation`: BUY from 75 up, HOLD from 60, SELL from 40, AVOID
   * below, each carrying its fixed colour and description.
   */
  function GetRecommendation(score: int): (r: Recommendation)
    ensures r.action == Buy <==> score >= 75
    ensures r.action == Hold <==> 60 <= score < 75
    ensures r.action == Sell <==> 40 <= score < 60
    ensures r.action == Avoid <==> score < 40
    ensures r == Presentation(r.action)
  {
    if score >= 75 then Presentation(Buy)
    else if score >= 60 then Presentation(Hold)
    else if score >= 40 then Presentation(Sell)
    else Presentation(Avoid)
  }

  /** A higher score never gives a lower recommendation. */
  lemma RecommendationMonotone(s1: int, s2: int)
    requires s1 <= s2
    ensures ActionRank(GetRecommendation(s1).action) <= ActionRank(GetRecommendation(s2).action)
  {
  }

  /** The card's verdict for a profile: HOLD for short-term and risk-averse, BUY for everything else. */
  lemma ProfileRecommendation(p: Profile)
    ensures GetRecommendation(ProfileScore(p)).action == if IsShortTermAverse(p) then Hold else Buy
  {
    ProfileScoreCases(p);
  }
}
