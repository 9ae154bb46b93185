/** The ticker suggestions of the search box (frontend/src/App.js, `StockSearchInput`). */
module StockSearch {
  import opened Text
  import opened Lists

  const MaxSuggestions := 10

  /** A ticker matches when its lowercase form starts with the lowercase input. */
  predicate Matches(value: string, ticker: string) {
    StartsWith(ToLower(ticker), ToLower(value))
  }

  /** The filter test of the search box. */
  function Matcher(value: string): string -> bool {
    t => Matches(value, t)
  }

  /** Nothing for an empty input; otherwise the first ten matching tickers. */
  function Suggestions(value: string, all: seq<string>): (r: seq<string>)
    ensures value == "" ==> r == []
    ensures |r| <= MaxSuggestions
    ensures forall i :: 0 <= i < |r| ==> r[i] in all && Matches(value, r[i])
  {
    if value == "" then []
    else
      var m := Filter(all, Matcher(value));
      if |m| <= MaxSuggestions then m else m[..MaxSuggestions]
  }

  /** The suggestions are the first ten matches, in list order: there are as many
      as there are matches, up to ten, and a matching ticker preceded by fewer than
      ten matches is shown at the position that count gives. A matching ticker is
      left out only when ten suggestions are already shown. */
  lemma SuggestionsAreFirstMatches(value: string, all: seq<string>)
    requires value != ""
    ensures IsSubsequence(Suggestions(value, all), all)
    ensures |Suggestions(value, all)| == if Count(all, Matcher(value)) < MaxSuggestions then Count(all, Matcher(value)) else MaxSuggestions
    ensures forall i :: 0 <= i < |all| && Matches(value, all[i]) ==> Count(all[..i], Matcher(value)) < Count(all, Matcher(value))
    ensures forall i :: 0 <= i < |all| && Matches(value, all[i]) && Count(all[..i], Matcher(value)) < MaxSuggestions ==>
              Suggestions(value, all)[Count(all[..i], Matcher(value))] == all[i]
    ensures forall i :: 0 <= i < |all| && Matches(value, all[i]) && all[i] !in Suggestions(value, all) ==>
              |Suggestions(value, all)| == MaxSuggestions
  {
    var m := Filter(all, Matcher(value));
    FilterIsSubsequence(all, Matcher(value));
    FilterPositions(all, Matcher(value));
    if |m| > MaxSuggestions {
      PrefixIsSubsequence(m, all, MaxSuggestions);
    }
    forall i | 0 <= i < |all| && Matches(value, all[i]) && Count(all[..i], Matcher(value)) < MaxSuggestions
      ensures Suggestions(value, all)[Count(all[..i], Matcher(value))] == all[i]
    {
      assert Matcher(value)(all[i]);
    }
  }
}
