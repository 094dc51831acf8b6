# InvestWise dashboard: the decision logic, modelled and proved in Dafny

InvestWise is a React dashboard for a company analysis. Most of it is layout
over literal data. A few pieces of deterministic logic decide what the
dashboard shows, and those are modelled here:

- **InvestmentScore.dfy** models the score card. A mock score starts at 76. It
  gains 5 for a long-term, balanced investor and loses 8 for a short-term,
  risk-averse one. It is clamped to [0, 100] and then read off as BUY, HOLD,
  SELL or AVOID, each with a fixed colour and description. `getScoreData`
  updates a local score step by step, so it is a method. Its specification
  function is `ProfileScore`.
- **CompanySearch.dfy** models the search box, a class whose fields are the
  component's two pieces of state, `searchTerm` and `suggestions`.
  - Typing filters ten fixed company strings by case-insensitive substring
    match, keeps list order and shows the first five. An empty box shows none.
  - Picking a suggestion, or pressing Analyze on a non-empty box, reports the
    text before the first `(` with whitespace trimmed. The full entry goes
    into the box and the list closes.
- **SentimentAnalysis.dfy** models two classifiers. One maps a percentage to
  green, yellow or red. The other maps a news item's sentiment tag to a badge.
- **RiskAnalyzer.dfy** models `getRiskLevel`. It maps volatility or Sharpe
  ratio values to a level and a colour. Any other metric gets Medium.
- **InvestorProfile.dfy** models the profile editor.
  - It has two fixed option tables.
  - Each button click copies the profile with one field replaced.
  - A button is highlighted when its id equals the field.
  - The summary looks up labels with `find` and writes the risk appetite with
    its first hyphen replaced by a space.
- **StringOps.dfy** holds the JavaScript string built-ins the components rely
  on: `toLowerCase` (ASCII letters), `includes`, `trim`, `split(c)[0]` and the
  first-occurrence-only `replace`.
- **Palette.dfy** holds the traffic-light hues the Tailwind colour classes
  stand for, ranked from worst to best.
- **Wrappers.dfy** holds `Option`, which stands for JavaScript's `undefined`.

Numbers that are only compared against constants are `real`: the sentiment
percentage and the risk metric value. The score card's score is `int`,
because it is always computed from integer constants.

## Model

| member | source | states |
|---|---|---|
| InvestmentScore.Clamp | src/components/InvestmentScore.tsx:29 | `Math.min(100, Math.max(0, x))` lands in [lo, hi]. It is the identity inside the range, `lo` below it and `hi` above it. |
| InvestmentScore.GetScoreData | src/components/InvestmentScore.tsx:18-30 | The step-by-step adjusted and clamped score lies in [0, 100]. It equals `ProfileScore(profile)`, which depends on the profile alone, so the company never affects the score. |
| InvestmentScore.ProfileScoreCases | src/components/InvestmentScore.tsx:19-29 | The score is 81 for long-term and balanced, 68 for short-term and risk-averse, and 76 for every other pair of strings, including values no button offers. It is always within [0, 100]. |
| InvestmentScore.Presentation | src/components/InvestmentScore.tsx:35-38 | The record carries the action it was asked for, and its colour ranks exactly as the action does: BUY green, HOLD yellow, SELL orange, AVOID red. The four descriptions are the source's strings, fixed in its definition. |
| InvestmentScore.GetRecommendation | src/components/InvestmentScore.tsx:34-39 | BUY iff score ≥ 75, HOLD iff 60 ≤ score < 75, SELL iff 40 ≤ score < 60, AVOID iff score < 40. The result is always `Presentation` of its action, so each bucket carries its fixed colour and description. |
| InvestmentScore.RecommendationMonotone | src/components/InvestmentScore.tsx:34-39 | A higher score never gives a lower recommendation in the order AVOID < SELL < HOLD < BUY. |
| InvestmentScore.ProfileRecommendation | src/components/InvestmentScore.tsx:18-41 | The card recommends HOLD for a short-term, risk-averse profile and BUY for every other profile. |
| SentimentAnalysis.SentimentColor | src/components/SentimentAnalysis.tsx:26-30 | Green iff score ≥ 70, yellow iff 50 ≤ score < 70, red iff score < 50, so every score gets exactly one colour. |
| SentimentAnalysis.SentimentColorMonotone | src/components/SentimentAnalysis.tsx:26-30 | A higher score never gets a worse colour in the order red < yellow < green. |
| SentimentAnalysis.SentimentBadge | src/components/SentimentAnalysis.tsx:32-41 | Positive iff the tag is "positive", Negative iff it is "negative", and Neutral for every other tag, including the empty string. |
| RiskAnalyzer.GetRiskLevel | src/components/RiskAnalyzer.tsx:22-35 | Volatility is Low iff < 15, Medium iff in [15, 25) and High iff ≥ 25. Sharpe ratio is Excellent iff > 2, Good iff in (1, 2] and Poor iff ≤ 1. Any other metric is Medium. In every branch the colour is the level's colour. |
| RiskAnalyzer.SharpeBoundaries | src/components/RiskAnalyzer.tsx:25-31 | At the band edges, a Sharpe ratio of exactly 2 is Good and exactly 1 is Poor, and a volatility of exactly 15 is Medium and exactly 25 is High. |
| RiskAnalyzer.VolatilityMonotone | src/components/RiskAnalyzer.tsx:24-27 | More volatility never gives a better colour. |
| RiskAnalyzer.SharpeMonotone | src/components/RiskAnalyzer.tsx:28-31 | A higher Sharpe ratio never gives a worse colour. |
| InvestorProfile.OptionTables | src/components/InvestorProfile.tsx:16-26 | Each option table holds exactly three distinct ids: short/medium/long-term and risk-averse/balanced/risk-taking. |
| InvestorProfile.ChooseHorizon | src/components/InvestorProfile.tsx:42 | A click on a horizon button sets `horizon` to that button's id and leaves `riskAppetite` as it was. |
| InvestorProfile.ChooseRisk | src/components/InvestorProfile.tsx:74 | A click on a risk button sets `riskAppetite` to that button's id and leaves `horizon` as it was. |
| InvestorProfile.ChooseSelectedIsIdentity | src/components/InvestorProfile.tsx:42 | Clicking the button that is already selected gives back an equal profile. |
| InvestorProfile.HighlightExclusive | src/components/InvestorProfile.tsx:44 | In a group with distinct ids, a field holding one of the ids highlights exactly one button. A field holding none of them highlights no button. |
| InvestorProfile.Highlighted | src/components/InvestorProfile.tsx:44 | A button is drawn highlighted iff its id equals the current field (`profile.horizon === option.id`, and the same test at line 76). `HighlightExclusive` and the two `Chosen…Highlighted` lemmas state what follows from it. |
| InvestorProfile.ChosenHorizonHighlighted | src/components/InvestorProfile.tsx:42-44 | After a click on a horizon button, that button and no other is highlighted. |
| InvestorProfile.ChosenRiskHighlighted | src/components/InvestorProfile.tsx:74-76 | After a click on a risk button, that button and no other is highlighted. |
| InvestorProfile.FindLabel | src/components/InvestorProfile.tsx:101-104 | `find(...)?.label` is nothing (undefined) iff no option has the id. Otherwise it is the label of the first option with that id. |
| InvestorProfile.HorizonLabel | src/components/InvestorProfile.tsx:101 | The horizon badge shows the table label for each of the three ids and nothing for any other string. |
| InvestorProfile.RiskLabel | src/components/InvestorProfile.tsx:104 | The risk badge shows the table label for each of the three ids and nothing for any other string. |
| InvestorProfile.AppetiteTextRiskAverse | src/components/InvestorProfile.tsx:109 | The summary writes "risk-averse" as "risk averse". |
| InvestorProfile.AppetiteText | src/components/InvestorProfile.tsx:109 | `riskAppetite.replace('-', ' ')`, which InvestmentScore.tsx:143 writes the same way, keeps the length. Without a hyphen it returns the text unchanged. Otherwise it is the text before the first hyphen, a space, then everything after that hyphen, so later hyphens stay. |
| StringOps.Lower | src/components/CompanySearch.tsx:34 | `toLowerCase` keeps the length. It maps each upper-case ASCII letter to its lower-case partner and leaves every other character alone, so no upper-case letter remains. |
| StringOps.LowerIdempotent | src/components/CompanySearch.tsx:34 | Lowering twice gives the same string as lowering once. |
| StringOps.Contains | src/components/CompanySearch.tsx:34 | `s.includes(t)`: `t` is a prefix of `s` or of some suffix of `s`. `ContainsAt` proves this agrees with the positional definition. |
| StringOps.ContainsAt | src/components/CompanySearch.tsx:34 | `s.includes(t)` holds iff `t` occurs in `s` at some position. |
| StringOps.Trim | src/components/CompanySearch.tsx:43 | `trim` returns a slice of its input whose cut-off ends are all whitespace. The result neither starts nor ends with whitespace, and it is empty iff the input is all whitespace. |
| StringOps.TrimIdempotent | src/components/CompanySearch.tsx:43 | Trimming twice gives the same string as trimming once. |
| StringOps.TextBefore | src/components/CompanySearch.tsx:43 | `split(c)[0]` is a prefix of the input without `c`. Either it is followed by `c` or it is the whole input, and it is the whole input when `c` does not occur. |
| StringOps.TextBeforeAt | src/components/CompanySearch.tsx:43 | When the first `c` is at position k, `split(c)[0]` is the first k characters. |
| StringOps.ReplaceFirst | src/components/InvestorProfile.tsx:109 | `replace` with a one-character pattern keeps the length, and it changes nothing when the pattern does not occur. |
| StringOps.ReplaceFirstAt | src/components/InvestorProfile.tsx:109 | When the first occurrence of the pattern is at position k, exactly that character is replaced. Later occurrences stay. |
| StringOps.ReplaceFirstAfterTextBefore | src/components/InvestorProfile.tsx:109 | The character `replace` changes is the one right after the text `split` returns for the same character. |
| CompanySearch.MatchesQuery | src/components/CompanySearch.tsx:34 | The filter's test: the lowered entry includes the lowered query. `MatchesQueryIff` gives its meaning. |
| CompanySearch.MatchesQueryIff | src/components/CompanySearch.tsx:34 | An entry passes the filter's test iff some window of it equals the query character by character up to ASCII case. |
| CompanySearch.Matching | src/components/CompanySearch.tsx:33-35 | The filter holds only entries of the list that contain the query up to case, and it holds every such entry. |
| CompanySearch.MatchingCounts | src/components/CompanySearch.tsx:33-35 | The filter holds each matching entry exactly as often as the list does, and no non-matching entry. With `MatchingKeepsOrder` this fixes the result of `filter`. |
| CompanySearch.MatchingKeepsOrder | src/components/CompanySearch.tsx:33-35 | The filter keeps list order, so its result is a subsequence of the list. |
| CompanySearch.MatchingNone | src/components/CompanySearch.tsx:33-35 | When no entry matches, the filter is empty. |
| CompanySearch.MatchingKeepsMatchingPrefix | src/components/CompanySearch.tsx:33-35 | When the first k entries all match, the filter starts with exactly those k entries. |
| CompanySearch.Suggestions | src/components/CompanySearch.tsx:32-39 | At most five suggestions, none for an empty query, each one an entry that matches. For a non-empty query the result is a prefix of the filter: five entries, or the whole filter when it is shorter. |
| CompanySearch.SuggestionsFullPage | src/components/CompanySearch.tsx:32-36 | When the first five entries all match a non-empty query, exactly those five are suggested. |
| CompanySearch.MatchAt | src/components/CompanySearch.tsx:34 | A window of an entry that equals the query up to case makes the entry match. |
| CompanySearch.NoMatchWithoutLetter | src/components/CompanySearch.tsx:34 | An entry that lacks one of the query's lower-case letters in both cases does not match. |
| CompanySearch.NoMatchWithoutPair | src/components/CompanySearch.tsx:34 | An entry in which two adjacent characters of the query never appear side by side, up to case, does not match. |
| CompanySearch.AppleMatchesOnlyApple | src/components/CompanySearch.tsx:17-35 | For "apple", entry k matches iff k is 0, Apple's entry. |
| CompanySearch.SearchApple | src/components/CompanySearch.tsx:17-36 | Typing "apple" suggests exactly ["Apple Inc. (AAPL)"]. |
| CompanySearch.FirstFiveContainA | src/components/CompanySearch.tsx:17-22 | Each of the first five entries contains "a" up to case. |
| CompanySearch.SearchA | src/components/CompanySearch.tsx:17-36 | Typing "a" suggests the first five entries, in list order. |
| CompanySearch.CompanyName | src/components/CompanySearch.tsx:43 | `company.split('(')[0].trim()` has no "(" and is a slice of the entry. For an entry without "(" it is the whole entry, trimmed. |
| CompanySearch.CompanyNameFirstParen | src/components/CompanySearch.tsx:43 | When the first "(" is at position k, the reported name is exactly the first k characters, trimmed. |
| CompanySearch.CompanyNameApple | src/components/CompanySearch.tsx:43 | Picking "Apple Inc. (AAPL)" reports "Apple Inc.". |
| CompanySearch.SearchBox.constructor | src/components/CompanySearch.tsx:13-14 | The box starts empty, with no suggestions. |
| CompanySearch.SearchBox.HandleSearch | src/components/CompanySearch.tsx:30-40 | `searchTerm` becomes exactly the typed value. `suggestions` becomes the suggestion list for that value. |
| CompanySearch.SearchBox.HandleCompanySelect | src/components/CompanySearch.tsx:42-47 | The reported name is the entry's name before "(", trimmed. `searchTerm` becomes the full entry and `suggestions` becomes empty. |
| CompanySearch.SearchBox.Analyze | src/components/CompanySearch.tsx:61 | On an empty box nothing is reported and the state is unchanged. Otherwise it selects the box's text: the name is reported, the box keeps its text and the list closes. |

## Left out

- All JSX and layout are left out: Tailwind classes, lucide icons, and the shadcn Card, Badge, Progress and Button components. Colours appear only as the hue a class names (`Palette.Hue`).
- The option tables' icons and the risk options' colour classes are left out. They are presentation, and no rule reads them.
- The `onProfileChange` and `onCompanySelect` callbacks are left out. The new profile is the result of `ChooseHorizon` and `ChooseRisk`, and the reported name is the result of `HandleCompanySelect`.
- React's asynchronous state updates and re-rendering are left out. The search box's state changes synchronously in the methods.
- JavaScript `number` values are modelled as mathematical reals and integers. NaN, infinities and floating-point rounding are not modelled.
- StringOps.Lower: only ASCII letters are lowered. Full Unicode case mapping, and UTF-16 code units as the unit of `length` and indexing, are not modelled.
- The literal datasets are constants with no behaviour: score breakdown, sentiment figures, news items, risk metrics and key metrics. So are the display arithmetic in RiskAnalyzer.tsx (`beta * 50`, `Math.abs`) and the percentage bars.
- src/pages/Index.tsx composes the page and passes state setters down. It is not part of this model.
- src/components/PerformanceChart.tsx renders a static array through the recharts library. It is not part of this model.
