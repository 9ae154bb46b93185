/** News for a ticker and the sentiment score over it (backend/news_helper.py).
    The feed and the TextBlob polarity are inputs; publish times stay integer
    timestamps instead of formatted dates. */
module NewsHelper {
  import opened Wrappers
  import opened Lists

  /** An item of the feed; a key that is absent is `None`. */
  datatype RawItem = RawItem(title: Option<string>, providerPublishTime: Option<int>,
                             publisher: Option<string>, link: Option<string>)

  /** An article as the API returns it. */
  datatype NewsItem = NewsItem(title: string, date: int, summary: string, link: string)

  /** Only this many raw items are looked at. */
  const MaxArticles: nat := 8

  /** An item is kept when its title and publish time are truthy. */
  predicate Usable(item: RawItem) {
    item.title.Some? && item.title.value != "" &&
    item.providerPublishTime.Some? && item.providerPublishTime.value != 0
  }

  /** A kept item, with "No publisher provided" and "#" for a missing publisher and link. */
  function Format(item: RawItem): (n: NewsItem)
    requires Usable(item)
    ensures n.title == item.title.value && n.date == item.providerPublishTime.value
    ensures n.summary == (if item.publisher.Some? then item.publisher.value else "No publisher provided")
    ensures n.link == (if item.link.Some? then item.link.value else "#")
  {
    NewsItem(item.title.value, item.providerPublishTime.value,
             item.publisher.GetOr("No publisher provided"), item.link.GetOr("#"))
  }

  /** The articles made from `items`, in their order. */
  function Formatted(items: seq<RawItem>): (news: seq<NewsItem>)
    ensures |news| <= |items|
  {
    if items == [] then []
    else
      var last := items[|items| - 1];
      Formatted(items[..|items| - 1]) + (if Usable(last) then [Format(last)] else [])
  }

  /** The articles are exactly the usable items, in order, each formatted. */
  lemma {:induction false} FormattedIsFilterThenFormat(items: seq<RawItem>)
    ensures var kept := Filter(items, Usable);
            |Formatted(items)| == |kept| &&
            forall i :: 0 <= i < |kept| ==> Formatted(items)[i] == Format(kept[i])
  {
    if items != [] {
      var init := items[..|items| - 1];
      var last := items[|items| - 1];
      FormattedIsFilterThenFormat(init);
      assert items == init + [last];
      FilterSnoc(init, last, Usable);
    }
  }

  /** Filtering a list with one more element at the end. */
  lemma {:induction false} FilterSnoc<T>(s: seq<T>, x: T, p: T -> bool)
    ensures Filter(s + [x], p) == Filter(s, p) + (if p(x) then [x] else [])
  {
    if s == [] {
      assert Filter([x], p) == (if p(x) then [x] else []) + Filter([x][1..], p);
    } else {
      assert (s + [x])[1..] == s[1..] + [x];
      FilterSnoc(s[1..], x, p);
    }
  }

  /** `get_news`, given what the feed returned (`None` when fetching raised): the
      first eight raw items are scanned and the usable ones formatted. */
  method GetNews(fetched: Option<seq<RawItem>>) returns (news: seq<NewsItem>)
    ensures fetched.None? || fetched.value == [] ==> news == []
    ensures fetched.Some? ==>
              var items := fetched.value;
              news == Formatted(items[..if |items| < MaxArticles then |items| else MaxArticles])
  {
    if fetched.None? || fetched.value == [] {
      return [];
    }
    var items := fetched.value;
    var n := if |items| < MaxArticles then |items| else MaxArticles;
    news := [];
    var i := 0;
    while i < n
      invariant i <= n
      invariant news == Formatted(items[..i])
    {
      var item := items[i];
      assert items[..i + 1] == items[..i] + [item];
      if Usable(item) {
        news := news + [Format(item)];
      }
      i := i + 1;
    }
  }

  /** At most eight articles come back, and each is a usable item among the first
      eight, formatted. */
  lemma AtMostEight(items: seq<RawItem>, k: nat)
    requires k <= |items| && k <= MaxArticles
    ensures |Formatted(items[..k])| <= MaxArticles
    ensures forall i :: 0 <= i < |Formatted(items[..k])| ==>
              exists j :: 0 <= j < k && Usable(items[j]) && Formatted(items[..k])[i] == Format(items[j])
  {
    var prefix := items[..k];
    FormattedIsFilterThenFormat(prefix);
    var kept := Filter(prefix, Usable);
    forall i | 0 <= i < |Formatted(prefix)|
      ensures exists j :: 0 <= j < k && Usable(items[j]) && Formatted(prefix)[i] == Format(items[j])
    {
      assert kept[i] in prefix;
      var j :| 0 <= j < k && prefix[j] == kept[i];
      assert items[j] == kept[i];
    }
  }

  /** The polarities of the items that have a (truthy) title, in order. */
  function Scores(titles: seq<Option<string>>, polarity: string -> real): (scores: seq<real>)
    ensures |scores| <= |titles|
  {
    if titles == [] then []
    else
      var last := titles[|titles| - 1];
      Scores(titles[..|titles| - 1], polarity) +
        (if last.Some? && last.value != "" then [polarity(last.value)] else [])
  }

  function Sum(s: seq<real>): real {
    if s == [] then 0.0 else Sum(s[..|s| - 1]) + s[|s| - 1]
  }

  /** `analyze_sentiment` over the items' titles: 0.5 when there are no items or no
      titles, otherwise the mean polarity moved from [-1, 1] to [0, 1]. */
  function AnalyzeSentiment(titles: seq<Option<string>>, polarity: string -> real): (r: real)
    ensures Scores(titles, polarity) == [] ==> r == 0.5
    ensures Scores(titles, polarity) != [] ==>
              2.0 * r - 1.0 == Sum(Scores(titles, polarity)) / (|Scores(titles, polarity)| as real)
  {
    if titles == [] then 0.5
    else
      var scores := Scores(titles, polarity);
      if scores == [] then 0.5
      else
        var mean := Sum(scores) / (|scores| as real);
        (mean + 1.0) / 2.0
  }

  /** Every polarity the scores hold comes from some title. */
  lemma {:induction false} ScoresFromTitles(titles: seq<Option<string>>, polarity: string -> real)
    ensures forall i :: 0 <= i < |Scores(titles, polarity)| ==>
              exists t :: Some(t) in titles && Scores(titles, polarity)[i] == polarity(t)
  {
    if titles != [] {
      var init := titles[..|titles| - 1];
      ScoresFromTitles(init, polarity);
      assert titles == init + [titles[|titles| - 1]];
      var last := titles[|titles| - 1];
      var s := Scores(titles, polarity);
      assert s == Scores(init, polarity) + (if last.Some? && last.value != "" then [polarity(last.value)] else []);
      forall i | 0 <= i < |s|
        ensures exists t :: Some(t) in titles && s[i] == polarity(t)
      {
        if i < |Scores(init, polarity)| {
          var t :| Some(t) in init && Scores(init, polarity)[i] == polarity(t);
          assert Some(t) in titles;
        } else {
          assert last == Some(last.value) && s[i] == polarity(last.value);
        }
      }
    } else {
      assert Scores(titles, polarity) == [];
    }
  }

  /** A sum of `n` values in [-1, 1] lies in [-n, n]. */
  lemma {:induction false} SumBounds(s: seq<real>)
    requires forall i :: 0 <= i < |s| ==> -1.0 <= s[i] <= 1.0
    ensures -(|s| as real) <= Sum(s) <= |s| as real
  {
    if s != [] {
      SumBounds(s[..|s| - 1]);
    }
  }

  /** With polarities in [-1, 1], as TextBlob's are, the sentiment lies in [0, 1]. */
  lemma {:induction false} SentimentInUnitRange(titles: seq<Option<string>>, polarity: string -> real)
    requires forall t :: -1.0 <= polarity(t) <= 1.0
    ensures 0.0 <= AnalyzeSentiment(titles, polarity) <= 1.0
  {
    var scores := Scores(titles, polarity);
    if scores != [] {
      ScoresFromTitles(titles, polarity);
      forall i | 0 <= i < |scores| ensures -1.0 <= scores[i] <= 1.0 {
        var t :| Some(t) in titles && scores[i] == polarity(t);
      }
      SumBounds(scores);
      MeanBounds(Sum(scores), |scores| as real);
    }
  }

  /** A sum within [-n, n] has a mean within [-1, 1]. */
  lemma MeanBounds(sum: real, n: real)
    requires n > 0.0 && -n <= sum <= n
    ensures -1.0 <= sum / n <= 1.0
  {
    assert sum / n * n == sum;
  }
}
