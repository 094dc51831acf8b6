/**
 * The company search box: typing filters a fixed list of ten companies
 * (case-insensitive substring match, list order kept, at most five shown);
 * picking a suggestion, or pressing Analyze, reports the bare company name
 * and closes the suggestion list.
 */
module CompanySearch {
  import opened Wrappers
  import opened StringOps

  const MockCompanies: seq<string> := [
    "Apple Inc. (AAPL)",
    "Microsoft Corporation (MSFT)",
    "Amazon.com Inc. (AMZN)",
    "Alphabet Inc. (GOOGL)",
    "Tesla Inc. (TSLA)",
    "Meta Platforms Inc. (META)",
    "NVIDIA Corporation (NVDA)",
    "Berkshire Hathaway Inc. (BRK.A)",
    "Johnson & Johnson (JNJ)",
    "JPMorgan Chase & Co. (JPM)"
  ]

  const MaxSuggestions: nat := 5

  /** `company.toLowerCase().includes(query.toLowerCase())`. */
  predicate MatchesQuery(company: string, query: string)
  {
    Contains(Lower(company), Lower(query))
  }

  /** The query's characters appear in `company` from position `i` on, each equal up to case. */
  ghost predicate MatchesQueryAt(company: string, query: string, i: int)
  {
    0 <= i <= |company| - |query| && forall j :: 0 <= j < |query| ==> LowerChar(company[i + j]) == LowerChar(query[j])
  }

  /** `xs` can be obtained from `ys` by deleting elements, without reordering. */
  ghost predicate IsSubsequence<T>(xs: seq<T>, ys: seq<T>)
    decreases |ys|
  {
    xs == [] || (ys != [] && ((xs[0] == ys[0] && IsSubsequence(xs[1..], ys[1..])) || IsSubsequence(xs, ys[1..])))
  }

  /** `companies.filter(c => MatchesQuery(c, query))`: exactly the matching entries. */
  function Matching(companies: seq<string>, query: string): (r: seq<string>)
    ensures |r| <= |companies|
    ensures forall i :: 0 <= i < |r| ==> r[i] in companies && MatchesQuery(r[i], query)
    ensures forall c :: c in companies && MatchesQuery(c, query) ==> c in r
  {
    if companies == [] then []
    else if MatchesQuery(companies[0], query) then [companies[0]] + Matching(companies[1..], query)
    else Matching(companies[1..], query)
  }

  /** The filter keeps the list order: its result is a subsequence of the list. */
  lemma {:induction false} MatchingKeepsOrder(companies: seq<string>, query: string)
    ensures IsSubsequence(Matching(companies, query), companies)
  {
    if companies != [] {
      MatchingKeepsOrder(companies[1..], query);
      var r := Matching(companies, query);
      if MatchesQuery(companies[0], query) {
        assert r[1..] == Matching(companies[1..], query);
      }
    }
  }

  /** When no company matches, the filter is empty. */
  lemma {:induction false} MatchingNone(companies: seq<string>, query: string)
    requires forall i :: 0 <= i < |companies| ==> !MatchesQuery(companies[i], query)
    ensures Matching(companies, query) == []
  {
    if companies != [] {
      MatchingNone(companies[1..], query);
    }
  }

  /** The filter keeps every matching entry as often as the list holds it, and drops the rest. */
  lemma {:induction false} MatchingCounts(companies: seq<string>, query: string)
    ensures forall c :: multiset(Matching(companies, query))[c] == if MatchesQuery(c, query) then multiset(companies)[c] else 0
  {
    if companies != [] {
      MatchingCounts(companies[1..], query);
      assert companies == [companies[0]] + companies[1..];
    }
  }

  /**
   * The list `handleSearch` stores for a typed value: none for an empty
   * value, otherwise `filtered.slice(0, 5)`, the first five companies of the
   * list that match, in list order (all of them when no more than five do).
   */
  function Suggestions(companies: seq<string>, query: string): (r: seq<string>)
    ensures |r| <= MaxSuggestions
    ensures query == "" ==> r == []
    ensures forall i :: 0 <= i < |r| ==> r[i] in companies && MatchesQuery(r[i], query)
    ensures query != "" ==> r <= Matching(companies, query)
    ensures query != "" ==> |r| == MaxSuggestions || r == Matching(companies, query)
  {
    if |query| > 0 then
      var filtered := Matching(companies, query);
      filtered[..if |filtered| < MaxSuggestions then |filtered| else MaxSuggestions]
    else
      []
  }

  // ------------------------------------------------ deciding a match by hand

  /** An entry matches exactly when some window of it equals the query up to case. */
  lemma MatchesQueryIff(company: string, query: string)
    ensures MatchesQuery(company, query) <==> exists i :: MatchesQueryAt(company, query, i)
  {
    var lc, lq := Lower(company), Lower(query);
    ContainsAt(lc, lq);
    if MatchesQuery(company, query) {
      var i :| OccursAt(lc, lq, i);
      forall j | 0 <= j < |query| ensures LowerChar(company[i + j]) == LowerChar(query[j]) {
        OccursAtChar(lc, lq, i, j);
      }
      assert MatchesQueryAt(company, query, i);
    }
    if exists i :: MatchesQueryAt(company, query, i) {
      var i :| MatchesQueryAt(company, query, i);
      MatchAt(company, query, i);
    }
  }

  /** A window of `company` that equals `query` up to case is a match. */
  lemma MatchAt(company: string, query: string, i: nat)
    requires i + |query| <= |company|
    requires forall j :: 0 <= j < |query| ==> LowerChar(company[i + j]) == LowerChar(query[j])
    ensures MatchesQuery(company, query)
  {
    var lc, lq := Lower(company), Lower(query);
    assert lc[i..i + |lq|] == lq;
    assert OccursAt(lc, lq, i);
    ContainsAt(lc, lq);
  }

  /**
   * A company that contains the query's `k`-th character, a lower-case
   * letter, in neither case is no match.
   */
  lemma NoMatchWithoutLetter(company: string, query: string, k: nat)
    requires k < |query| && 'a' <= query[k] <= 'z'
    requires forall i :: 0 <= i < |company| ==> company[i] != query[k] && company[i] as int != query[k] as int - 32
    ensures !MatchesQuery(company, query)
  {
    var lc, lq := Lower(company), Lower(query);
    ContainsAt(lc, lq);
    if MatchesQuery(company, query) {
      var i :| OccursAt(lc, lq, i);
      OccursAtChar(lc, lq, i, k);
      assert false;
    }
  }

  /**
   * A company in which the query's characters `k` and `k + 1` never appear
   * side by side, up to case, is no match.
   */
  lemma NoMatchWithoutPair(company: string, query: string, k: nat)
    requires k + 1 < |query|
    requires forall i :: 0 <= i < |company| - 1 ==>
      LowerChar(company[i]) != LowerChar(query[k]) || LowerChar(company[i + 1]) != LowerChar(query[k + 1])
    ensures !MatchesQuery(company, query)
  {
    var lc, lq := Lower(company), Lower(query);
    ContainsAt(lc, lq);
    if MatchesQuery(company, query) {
      var i :| OccursAt(lc, lq, i);
      OccursAtChar(lc, lq, i, k);
      OccursAtChar(lc, lq, i, k + 1);
      assert false;
    }
  }

  /** When the first `k` companies all match, the filter starts with exactly them. */
  lemma {:induction false} MatchingKeepsMatchingPrefix(companies: seq<string>, query: string, k: nat)
    requires k <= |companies|
    requires forall i :: 0 <= i < k ==> MatchesQuery(companies[i], query)
    ensures k <= |Matching(companies, query)|
    ensures forall i :: 0 <= i < k ==> Matching(companies, query)[i] == companies[i]
  {
    if k > 0 {
      var rest := companies[1..];
      MatchingKeepsMatchingPrefix(rest, query, k - 1);
      assert MatchesQuery(companies[0], query);
      var r, r' := Matching(companies, query), Matching(rest, query);
      assert r == [companies[0]] + r';
      forall i | 1 <= i < k ensures r[i] == companies[i] {
        assert r[i] == r'[i - 1] == rest[i - 1];
      }
    }
  }

  /** When the first five companies all match a non-empty query, exactly they are suggested. */
  lemma SuggestionsFullPage(companies: seq<string>, query: string)
    requires query != "" && MaxSuggestions <= |companies|
    requires forall i :: 0 <= i < MaxSuggestions ==> MatchesQuery(companies[i], query)
    ensures Suggestions(companies, query) == companies[..MaxSuggestions]
  {
    MatchingKeepsMatchingPrefix(companies, query, MaxSuggestions);
    assert Matching(companies, query)[..MaxSuggestions] == companies[..MaxSuggestions];
  }

  // ------------------------------------------------------- worked examples

  /*
   * The worked example for "apple" takes one lemma per company: each keeps a
   * single literal entry in its proof, which keeps every proof small.
   */

  /** "Alphabet Inc. (GOOGL)" holds every letter of "apple" but never "pp". */
  lemma NoAppleInAlphabet(company: string, query: string)
    requires company == "Alphabet Inc. (GOOGL)" && query == "apple"
    ensures !MatchesQuery(company, query)
  {
    NoMatchWithoutPair(company, query, 1);
  }

  /** "Meta Platforms Inc. (META)" holds every letter of "apple" but never "pp". */
  lemma NoAppleInMeta(company: string, query: string)
    requires company == "Meta Platforms Inc. (META)" && query == "apple"
    ensures !MatchesQuery(company, query)
  {
    NoMatchWithoutPair(company, query, 1);
  }

  /** The Microsoft entry holds no "e", in either case. */
  lemma NoAppleInMicrosoft(company: string, query: string)
    requires company == "Microsoft Corporation (MSFT)" && query == "apple"
    ensures !MatchesQuery(company, query)
  {
    NoMatchWithoutLetter(company, query, 4);
  }

  /** The Amazon entry holds no "e", in either case. */
  lemma NoAppleInAmazon(company: string, query: string)
    requires company == "Amazon.com Inc. (AMZN)" && query == "apple"
    ensures !MatchesQuery(company, query)
  {
    NoMatchWithoutLetter(company, query, 4);
  }

  /** The Tesla entry holds no "p", in either case. */
  lemma NoAppleInTesla(company: string, query: string)
    requires company == "Tesla Inc. (TSLA)" && query == "apple"
    ensures !MatchesQuery(company, query)
  {
    NoMatchWithoutLetter(company, query, 1);
  }

  /** The Nvidia entry holds no "e", in either case. */
  lemma NoAppleInNvidia(company: string, query: string)
    requires company == "NVIDIA Corporation (NVDA)" && query == "apple"
    ensures !MatchesQuery(company, query)
  {
    NoMatchWithoutLetter(company, query, 4);
  }

  /** The Berkshire entry holds no "p", in either case. */
  lemma NoAppleInBerkshire(company: string, query: string)
    requires company == "Berkshire Hathaway Inc. (BRK.A)" && query == "apple"
    ensures !MatchesQuery(company, query)
  {
    NoMatchWithoutLetter(company, query, 1);
  }

  /** The Johnson entry holds no "p", in either case. */
  lemma NoAppleInJohnson(company: string, query: string)
    requires company == "Johnson & Johnson (JNJ)" && query == "apple"
    ensures !MatchesQuery(company, query)
  {
    NoMatchWithoutLetter(company, query, 1);
  }

  /** The JPMorgan entry holds no "l", in either case. */
  lemma NoAppleInJPMorgan(company: string, query: string)
    requires company == "JPMorgan Chase & Co. (JPM)" && query == "apple"
    ensures !MatchesQuery(company, query)
  {
    NoMatchWithoutLetter(company, query, 3);
  }

  /** Of the ten companies only Apple's entry contains "apple", up to case. */
  lemma AppleMatchesOnlyApple(query: string, k: nat)
    requires query == "apple" && k < |MockCompanies|
    ensures MatchesQuery(MockCompanies[k], query) <==> k == 0
  {
    var c := MockCompanies[k];
    if k == 0 {
      MatchAt(c, query, 0);
    } else if k == 3 {
      NoAppleInAlphabet(c, query);
    } else if k == 5 {
      NoAppleInMeta(c, query);
    } else if k == 1 {
      NoAppleInMicrosoft(c, query);
    } else if k == 2 {
      NoAppleInAmazon(c, query);
    } else if k == 4 {
      NoAppleInTesla(c, query);
    } else if k == 6 {
      NoAppleInNvidia(c, query);
    } else if k == 7 {
      NoAppleInBerkshire(c, query);
    } else if k == 8 {
      NoAppleInJohnson(c, query);
    } else {
      NoAppleInJPMorgan(c, query);
    }
  }

  /** Typing "apple" suggests exactly Apple's entry. */
  lemma SearchApple(query: string)
    requires query == "apple"
    ensures Suggestions(MockCompanies, query) == ["Apple Inc. (AAPL)"]
  {
    var cs := MockCompanies;
    forall k | 0 <= k < |cs| ensures MatchesQuery(cs[k], query) <==> k == 0 {
      AppleMatchesOnlyApple(query, k);
    }
    MatchingNone(cs[1..], query);
    assert Matching(cs, query) == [cs[0]] + Matching(cs[1..], query);
  }

  /** Each of the first five companies contains an "a", up to case. */
  lemma FirstFiveContainA(query: string, k: nat)
    requires query == "a" && k < 5
    ensures MatchesQuery(MockCompanies[k], query)
  {
    var c := MockCompanies[k];
    if k == 1 {
      MatchAt(c, query, 16);
    } else if k == 4 {
      MatchAt(c, query, 4);
    } else {
      MatchAt(c, query, 0);
    }
  }

  /** Typing "a" fills the list with the first five companies, in list order. */
  lemma SearchA(query: string)
    requires query == "a"
    ensures Suggestions(MockCompanies, query) == MockCompanies[..5]
  {
    forall k | 0 <= k < 5 ensures MatchesQuery(MockCompanies[k], query) {
      FirstFiveContainA(query, k);
    }
    SuggestionsFullPage(MockCompanies, query);
  }

  /** A slice of a prefix of `s` is a slice of `s`, and holds no character the prefix lacks. */
  lemma SliceOfPrefix(s: string, p: string, t: string, c: char)
    requires p <= s
    requires exists i, j :: 0 <= i <= j <= |p| && t == p[i..j]
    ensures c !in p ==> c !in t
    ensures exists i, j :: 0 <= i <= j <= |s| && t == s[i..j]
  {
    var i, j :| 0 <= i <= j <= |p| && t == p[i..j];
    assert p[i..j] == s[i..j];
    if c in t {
      var n :| 0 <= n < |t| && t[n] == c;
      assert p[i + n] == c;
    }
  }

  /** `company.split('(')[0].trim()`: the name before the ticker in parentheses. */
  function CompanyName(company: string): (name: string)
    ensures '(' !in name
    ensures '(' !in company ==> name == Trim(company)
    ensures exists i, j :: 0 <= i <= j <= |company| && name == company[i..j]
  {
    var before := TextBefore(company, '(');
    var name := Trim(before);
    SliceOfPrefix(company, before, name, '(');
    name
  }

  /** With the first "(" at `k`, the reported name is the text before it, trimmed. */
  lemma CompanyNameFirstParen(company: string, k: nat)
    requires k < |company| && company[k] == '('
    requires forall i :: 0 <= i < k ==> company[i] != '('
    ensures CompanyName(company) == Trim(company[..k])
  {
    TextBeforeAt(company, '(', k);
  }

  /** Trimming "Apple Inc. " drops only the final space. */
  lemma TrimAppleName(before: string)
    requires before == "Apple Inc. "
    ensures Trim(before) == "Apple Inc."
  {
    assert LeadingWhitespace(before) == 0;
    assert TrailingWhitespace(before[..10]) == 0;
    assert TrailingWhitespace(before) == 1;
    assert before[..10] == "Apple Inc.";
  }

  /** Picking "Apple Inc. (AAPL)" reports "Apple Inc.". */
  lemma CompanyNameApple(company: string)
    requires company == "Apple Inc. (AAPL)"
    ensures CompanyName(company) == "Apple Inc."
  {
    TextBeforeAt(company, '(', 11);
    TrimAppleName(company[..11]);
  }

  /** The component's state: the text in the box and the open suggestion list. */
  class SearchBox {
    var searchTerm: string
    var suggestions: seq<string>

    constructor ()
      ensures searchTerm == "" && suggestions == []
    {
      searchTerm := "";
      suggestions := [];
    }

    /** `handleSearch`: the box shows exactly what was typed and the list is recomputed. */
    method HandleSearch(value: string)
      modifies this
      ensures searchTerm == value
      ensures suggestions == Suggestions(MockCompanies, value)
    {
      searchTerm := value;
      suggestions := Suggestions(MockCompanies, value);
    }

    /**
     * `handleCompanySelect`: reports the bare name (the `onCompanySelect`
     * callback, here the result), puts the full entry in the box and closes
     * the list.
     */
    method HandleCompanySelect(company: string) returns (companyName: string)
      modifies this
      ensures companyName == CompanyName(company)
      ensures searchTerm == company
      ensures suggestions == []
    {
      companyName := Trim(TextBefore(company, '('));
      searchTerm := company;
      suggestions := [];
    }

    /** The Analyze button: selects what is in the box, and does nothing while the box is empty. */
    method Analyze() returns (reported: Option<string>)
      modifies this
      ensures old(searchTerm) == "" ==> reported == None && searchTerm == old(searchTerm) && suggestions == old(suggestions)
      ensures old(searchTerm) != "" ==> reported == Some(CompanyName(old(searchTerm))) && searchTerm == old(searchTerm) && suggestions == []
    {
      if searchTerm != "" {
        var name := HandleCompanySelect(searchTerm);
        reported := Some(name);
      } else {
        reported := None;
      }
    }
  }
}
