/**
 * The sentiment panel's two classifiers: a percentage to a traffic-light
 * colour, and a news item's sentiment tag to the kind of badge it gets.
 */
module SentimentAnalysis {
  import opened Palette

  /** `getSentimentColor`: green from 70 up, yellow from 50, red below. */
  function SentimentColor(score: real): (h: Hue)
    ensures h == Green <==> score >= 70.0
    ensures h == Yellow <==> 50.0 <= score < 70.0
    ensures h == Red <==> score < 50.0
  {
    if score >= 70.0 then Green
    else if score >= 50.0 then Yellow
    else Red
  }

  /** A higher score never gets a worse colour (red, then yellow, then green). */
  lemma SentimentColorMonotone(s1: real, s2: real)
    requires s1 <= s2
    ensures HueRank(SentimentColor(s1)) <= HueRank(SentimentColor(s2))
  {
  }

  datatype Badge = Positive | Negative | Neutral

  /** `getSentimentBadge`: the two known tags get their own badge, anything else is Neutral. */
  function SentimentBadge(sentiment: string): (b: Badge)
    ensures b == Positive <==> sentiment == "positive"
    ensures b == Negative <==> sentiment == "negative"
    ensures b == Neutral <==> sentiment != "positive" && sentiment != "negative"
  {
    match sentiment
    case "positive" => Positive
    case "negative" => Negative
    case _ => Neutral
  }
}
