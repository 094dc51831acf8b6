/**
 * The investor-profile editor: two groups of mutually exclusive buttons
 * (time horizon, risk appetite), each click reporting a copy of the profile
 * with one field replaced, plus the summary that looks the labels up.
 */
module InvestorProfile {
  import opened Wrappers
  import opened StringOps

  /** The profile record. Both fields are plain strings, as in the source. */
  datatype Profile = Profile(horizon: string, riskAppetite: string)

  /** One selectable button: its id, its label (`caption`) and its description. */
  datatype Choice = Choice(id: string, caption: string, description: string)

  const HorizonOptions: seq<Choice> := [
    Choice("short-term", "Short-Term", "< 1 year"),
    Choice("medium-term", "Medium-Term", "1-5 years"),
    Choice("long-term", "Long-Term", "5+ years")
  ]

  const RiskOptions: seq<Choice> := [
    Choice("risk-averse", "Risk-Averse", "Stability focused"),
    Choice("balanced", "Balanced", "Moderate risk/reward"),
    Choice("risk-taking", "Risk-Taking", "High growth potential")
  ]

  /** No two buttons of a group share an id. */
  ghost predicate DistinctIds(options: seq<Choice>)
  {
    forall i, j :: 0 <= i < j < |options| ==> options[i].id != options[j].id
  }

  ghost predicate HasId(options: seq<Choice>, id: string)
  {
    exists i :: 0 <= i < |options| && options[i].id == id
  }

  /** Each table holds exactly three buttons with the ids the scoring compares against. */
  lemma OptionTables()
    ensures |HorizonOptions| == 3 && DistinctIds(HorizonOptions)
    ensures |RiskOptions| == 3 && DistinctIds(RiskOptions)
    ensures HasId(HorizonOptions, "short-term") && HasId(HorizonOptions, "medium-term") && HasId(HorizonOptions, "long-term")
    ensures HasId(RiskOptions, "risk-averse") && HasId(RiskOptions, "balanced") && HasId(RiskOptions, "risk-taking")
  {
    assert HorizonOptions[0].id == "short-term" && HorizonOptions[1].id == "medium-term" && HorizonOptions[2].id == "long-term";
    assert RiskOptions[0].id == "risk-averse" && RiskOptions[1].id == "balanced" && RiskOptions[2].id == "risk-taking";
  }

  /** Clicking the `k`-th horizon button: a copy of the profile with only the horizon replaced. */
  function ChooseHorizon(p: Profile, k: nat): (q: Profile)
    requires k < |HorizonOptions|
    ensures q.horizon == HorizonOptions[k].id
    ensures q.riskAppetite == p.riskAppetite
  {
    p.(horizon := HorizonOptions[k].id)
  }

  /** Clicking the `k`-th risk button: a copy of the profile with only the risk appetite replaced. */
  function ChooseRisk(p: Profile, k: nat): (q: Profile)
    requires k < |RiskOptions|
    ensures q.riskAppetite == RiskOptions[k].id
    ensures q.horizon == p.horizon
  {
    p.(riskAppetite := RiskOptions[k].id)
  }

  /** Clicking the button that is already selected gives back an equal profile. */
  lemma ChooseSelectedIsIdentity(p: Profile, h: nat, r: nat)
    requires h < |HorizonOptions| && r < |RiskOptions|
    ensures HorizonOptions[h].id == p.horizon ==> ChooseHorizon(p, h) == p
    ensures RiskOptions[r].id == p.riskAppetite ==> ChooseRisk(p, r) == p
  {
  }

  /** A button is drawn highlighted when its id equals the current field. */
  predicate Highlighted(field: string, option: Choice)
  {
    field == option.id
  }

  /**
   * Within a group whose ids are distinct, a field holding one of the ids
   * highlights exactly one button, and a field holding none highlights none.
   */
  lemma HighlightExclusive(options: seq<Choice>, field: string)
    requires DistinctIds(options)
    ensures HasId(options, field) ==>
      exists k :: (0 <= k < |options| && Highlighted(field, options[k])
        && forall j :: 0 <= j < |options| && Highlighted(field, options[j]) ==> j == k)
    ensures !HasId(options, field) ==> forall j :: 0 <= j < |options| ==> !Highlighted(field, options[j])
  {
    if HasId(options, field) {
      var k :| 0 <= k < |options| && options[k].id == field;
      assert Highlighted(field, options[k]);
    }
  }

  /** After a click on horizon button `k`, that button and only that one is highlighted. */
  lemma ChosenHorizonHighlighted(p: Profile, k: nat)
    requires k < |HorizonOptions|
    ensures forall j :: 0 <= j < |HorizonOptions| ==> (Highlighted(ChooseHorizon(p, k).horizon, HorizonOptions[j]) <==> j == k)
  {
    OptionTables();
  }

  /** After a click on risk button `k`, that button and only that one is highlighted. */
  lemma ChosenRiskHighlighted(p: Profile, k: nat)
    requires k < |RiskOptions|
    ensures forall j :: 0 <= j < |RiskOptions| ==> (Highlighted(ChooseRisk(p, k).riskAppetite, RiskOptions[j]) <==> j == k)
  {
    OptionTables();
  }

  /**
   * `options.find(o => o.id === id)?.caption`: the label of the first button
   * with that id, or nothing (undefined) when no button has it.
   */
  function FindLabel(options: seq<Choice>, id: string): (r: Option<string>)
    ensures r.None? <==> !HasId(options, id)
    ensures r.Some? ==> exists k :: (0 <= k < |options| && options[k].id == id && options[k].caption == r.value
      && forall j :: 0 <= j < k ==> options[j].id != id)
  {
    if options == [] then None
    else if options[0].id == id then Some(options[0].caption)
    else
      var rest := FindLabel(options[1..], id);
      assert HasId(options, id) <==> HasId(options[1..], id) by {
        if HasId(options, id) {
          var k :| 0 <= k < |options| && options[k].id == id;
          assert options[1..][k - 1].id == id;
        }
        if HasId(options[1..], id) {
          var k :| 0 <= k < |options[1..]| && options[1..][k].id == id;
          assert options[k + 1].id == id;
        }
      }
      if rest.Some? then
        var k :| 0 <= k < |options[1..]| && options[1..][k].id == id && options[1..][k].caption == rest.value
          && forall j :: 0 <= j < k ==> options[1..][j].id != id;
        assert options[k + 1].id == id && options[k + 1].caption == rest.value;
        assert forall j :: 0 <= j < k + 1 ==> options[j].id != id by {
          forall j | 0 <= j < k + 1 ensures options[j].id != id {
            if j > 0 { assert options[j] == options[1..][j - 1]; }
          }
        }
        rest
      else
        rest
  }

  /** The horizon badge: the table label for each id the buttons offer, nothing for any other. */
  lemma HorizonLabel(id: string)
    ensures FindLabel(HorizonOptions, id) ==
      if id == "short-term" then Some("Short-Term")
      else if id == "medium-term" then Some("Medium-Term")
      else if id == "long-term" then Some("Long-Term")
      else None
  {
    var o := HorizonOptions;
    assert o[1..][1..][1..] == [];
  }

  /** The risk badge: the table label for each id the buttons offer, nothing for any other. */
  lemma RiskLabel(id: string)
    ensures FindLabel(RiskOptions, id) ==
      if id == "risk-averse" then Some("Risk-Averse")
      else if id == "balanced" then Some("Balanced")
      else if id == "risk-taking" then Some("Risk-Taking")
      else None
  {
    var o := RiskOptions;
    assert o[1..][1..][1..] == [];
  }

  /** The risk appetite as the summary sentence prints it: its first hyphen turned into a space. */
  function AppetiteText(riskAppetite: string): (r: string)
    ensures |r| == |riskAppetite|
    ensures '-' !in riskAppetite ==> r == riskAppetite
    ensures '-' in riskAppetite ==>
      r == TextBefore(riskAppetite, '-') + [' '] + riskAppetite[|TextBefore(riskAppetite, '-')| + 1..]
  {
    if '-' in riskAppetite then
      ReplaceFirstAfterTextBefore(riskAppetite, '-', ' ');
      ReplaceFirst(riskAppetite, '-', ' ')
    else
      ReplaceFirst(riskAppetite, '-', ' ')
  }

  /** "risk-averse" reads "risk averse" in the summary sentence. */
  lemma AppetiteTextRiskAverse(s: string)
    requires s == "risk-averse"
    ensures AppetiteText(s) == "risk averse"
  {
    ReplaceFirstAt(s, '-', ' ', 4);
    var t := s[..4] + [' '] + s[5..];
    assert |t| == 11;
    forall i | 0 <= i < 11 ensures t[i] == "risk averse"[i] {
      if i < 4 {
        assert t[i] == s[i];
      } else if i > 4 {
        assert t[i] == s[i];
      }
    }
  }
}
