/** The search-results view (`LocationSearchResults`): the sentiment filter
    and its ten-review window, the star-rating and sentiment percentages, the
    search box's submit rule, and the view's own state (selected location,
    filter, query text). */
module SearchResultsView {
  import opened Wrappers
  import opened Text
  import opened Sequences

  /** A location card as the results page hands it to the view. */
  datatype Location = Location(
    id: string,
    name: string,
    rating: real,
    reviews: int,
    address: string,
    phone: Option<string>,
    isOpen: Option<bool>,
    status: Option<string>,
    image: string)

  /** A review as the results page hands it to the view; `avatar` is absent
      when the author name is empty. */
  datatype Review = Review(
    id: Option<string>,
    name: string,
    avatar: Option<char>,
    rating: int,
    sentiment: string,
    time: string,
    content: string,
    profilePhotoUrl: Option<string>)

  /** Number of reviews shown at once. */
  const PageSize: nat := 10

  /** The star buckets, in display order. */
  const Stars: seq<int> := [5, 4, 3, 2, 1]

  /** The sentiment buckets, in display order. */
  const Sentiments: seq<string> := ["positive", "neutral", "negative"]

  function Min(a: nat, b: nat): nat {
    if a <= b then a else b
  }

  // ---------------------------------------------------------------------------
  // Filter and window

  /** The filter predicate `filterType === "all" || review.sentiment === filterType`. */
  predicate Kept(r: Review, filter: string) {
    filter == "all" || r.sentiment == filter
  }

  function KeptBy(filter: string): Review -> bool {
    (r: Review) => Kept(r, filter)
  }

  /** Number of reviews satisfying `keep`. */
  function CountWhere(reviews: seq<Review>, keep: Review -> bool): (n: nat)
    ensures n <= |reviews|
  {
    if reviews == [] then 0
    else (if keep(reviews[0]) then 1 else 0) + CountWhere(reviews[1..], keep)
  }

  /** A count is the head's contribution plus the count of the rest. */
  lemma CountWhereHead(reviews: seq<Review>, keep: Review -> bool)
    requires reviews != []
    ensures CountWhere(reviews, keep) == (if keep(reviews[0]) then 1 else 0) + CountWhere(reviews[1..], keep)
  {
  }

  /** `reviews.filter(...)`: the kept reviews, every one of them and nothing
      else, in their order. */
  function Matching(reviews: seq<Review>, filter: string): (r: seq<Review>)
    ensures |r| == CountWhere(reviews, KeptBy(filter))
    ensures IsSubsequence(r, reviews)
    ensures forall i :: 0 <= i < |r| ==> Kept(r[i], filter)
    ensures forall x :: x in reviews && Kept(x, filter) ==> x in r
    ensures filter == "all" ==> r == reviews
  {
    if reviews == [] then []
    else if Kept(reviews[0], filter) then
      var rest := Matching(reviews[1..], filter);
      assert ([reviews[0]] + rest)[1..] == rest;
      assert reviews == [reviews[0]] + reviews[1..];
      [reviews[0]] + rest
    else
      Matching(reviews[1..], filter)
  }

  /** The filter's result is the head, when kept, before the filtered rest. */
  lemma MatchingHead(reviews: seq<Review>, filter: string)
    requires reviews != []
    ensures Matching(reviews, filter)
      == (if Kept(reviews[0], filter) then [reviews[0]] else []) + Matching(reviews[1..], filter)
  {
  }

  /** A selection of kept reviews never has more of them than there are. */
  lemma {:induction false} KeptSubsequenceBound(s: seq<Review>, reviews: seq<Review>, filter: string)
    requires IsSubsequence(s, reviews)
    requires forall i :: 0 <= i < |s| ==> Kept(s[i], filter)
    ensures |s| <= CountWhere(reviews, KeptBy(filter))
    decreases |reviews|
  {
    if s != [] {
      CountWhereHead(reviews, KeptBy(filter));
      if s[0] == reviews[0] {
        KeptSubsequenceBound(s[1..], reviews[1..], filter);
      } else {
        KeptSubsequenceBound(s, reviews[1..], filter);
      }
    }
  }

  /** The filter's result is the only order-preserving selection of kept
      reviews that leaves none of them out. */
  lemma {:induction false} MatchingUnique(s: seq<Review>, reviews: seq<Review>, filter: string)
    requires IsSubsequence(s, reviews)
    requires forall i :: 0 <= i < |s| ==> Kept(s[i], filter)
    requires |s| == CountWhere(reviews, KeptBy(filter))
    ensures s == Matching(reviews, filter)
    decreases |reviews|
  {
    if reviews != [] {
      var x, rest := reviews[0], reviews[1..];
      CountWhereHead(reviews, KeptBy(filter));
      MatchingHead(reviews, filter);
      if !Kept(x, filter) {
        assert s == [] || s[0] != x by {
          if s != [] { assert Kept(s[0], filter); }
        }
        MatchingUnique(s, rest, filter);
      } else if s != [] && s[0] == x {
        assert forall i :: 0 <= i < |s[1..]| ==> Kept(s[1..][i], filter) by {
          forall i | 0 <= i < |s[1..]| ensures Kept(s[1..][i], filter) {
            assert s[1..][i] == s[i + 1];
          }
        }
        MatchingUnique(s[1..], rest, filter);
        assert s == [x] + s[1..];
      } else {
        KeptSubsequenceBound(s, rest, filter);
        assert false;
      }
    }
  }

  /** `filteredReviews`: the first ten reviews the filter keeps, or all of
      them when there are fewer; with the filter `all` the first ten
      reviews. */
  function FilteredReviews(reviews: seq<Review>, filter: string): (r: seq<Review>)
    ensures |r| == Min(PageSize, CountWhere(reviews, KeptBy(filter)))
    ensures r <= Matching(reviews, filter)
    ensures IsSubsequence(r, reviews)
    ensures forall i :: 0 <= i < |r| ==> Kept(r[i], filter)
    ensures filter == "all" ==> r == reviews[..Min(PageSize, |reviews|)]
    ensures |r| < PageSize ==> forall x :: x in reviews && Kept(x, filter) ==> x in r
  {
    var m := Matching(reviews, filter);
    SubsequencePrefix(m, reviews, Min(PageSize, |m|));
    m[..Min(PageSize, |m|)]
  }

  // ---------------------------------------------------------------------------
  // Percentages

  /** `Math.round((count / total) * 100) || 0`: the share rounded half up,
      and 0 for an empty list (where the quotient is NaN). */
  function Percent(count: nat, total: nat): (p: int)
    requires count <= total
    ensures 0 <= p <= 100
    ensures total == 0 ==> p == 0
    ensures total > 0 ==> 2 * total * p <= 200 * count + total < 2 * total * (p + 1)
  {
    if total == 0 then 0
    else
      var p := (200 * count + total) / (2 * total);
      DivBounds(200 * count + total, 2 * total);
      assert 200 * count + total < 2 * total * 101;
      QuotientBelow(200 * count + total, 2 * total, 101);
      p
  }

  /** The quotient of a non-negative number is the largest multiple below it. */
  lemma DivBounds(n: nat, d: nat)
    requires d > 0
    ensures d * (n / d) <= n < d * (n / d + 1)
  {
    var q := n / d;
    var r := n % d;
    assert n == d * q + r && 0 <= r < d;
    assert d * (q + 1) == d * q + d;
  }

  /** Multiplying by a natural number keeps the order. */
  lemma {:induction false} MulMonotone(d: nat, a: int, b: int)
    ensures a <= b ==> d * a <= d * b
    decreases d
  {
    if d > 0 {
      MulMonotone(d - 1, a, b);
      assert d * a == (d - 1) * a + a;
      assert d * b == (d - 1) * b + b;
    }
  }

  /** A number below `d * k` has a quotient below `k`. */
  lemma QuotientBelow(n: nat, d: nat, k: nat)
    requires d > 0 && n < d * k
    ensures n / d < k
  {
    DivBounds(n, d);
    MulMonotone(d, k, n / d);
  }

  function RatedAs(star: int): Review -> bool {
    (r: Review) => r.rating == star
  }

  function LabelledAs(sentiment: string): Review -> bool {
    (r: Review) => r.sentiment == sentiment
  }

  /** Number of reviews with the given star rating. */
  function CountRating(reviews: seq<Review>, star: int): (n: nat)
    ensures n <= |reviews|
  {
    CountWhere(reviews, RatedAs(star))
  }

  /** Number of reviews with the given sentiment. */
  function CountSentiment(reviews: seq<Review>, sentiment: string): (n: nat)
    ensures n <= |reviews|
  {
    CountWhere(reviews, LabelledAs(sentiment))
  }

  /** The rating breakdown over all reviews: one percentage per star, 5 down
      to 1, each between 0 and 100. */
  function RatingBreakdown(reviews: seq<Review>): (r: seq<int>)
    ensures |r| == |Stars|
    ensures forall i :: 0 <= i < |r| ==> r[i] == Percent(CountRating(reviews, Stars[i]), |reviews|)
    ensures forall i :: 0 <= i < |r| ==> 0 <= r[i] <= 100
    ensures reviews == [] ==> forall i :: 0 <= i < |r| ==> r[i] == 0
  {
    seq(|Stars|, i requires 0 <= i < |Stars| => Percent(CountRating(reviews, Stars[i]), |reviews|))
  }

  /** The sentiment breakdown over all reviews: one percentage per label,
      positive, neutral, negative, each between 0 and 100. */
  function SentimentBreakdown(reviews: seq<Review>): (r: seq<int>)
    ensures |r| == |Sentiments|
    ensures forall i :: 0 <= i < |r| ==> r[i] == Percent(CountSentiment(reviews, Sentiments[i]), |reviews|)
    ensures forall i :: 0 <= i < |r| ==> 0 <= r[i] <= 100
    ensures reviews == [] ==> forall i :: 0 <= i < |r| ==> r[i] == 0
  {
    seq(|Sentiments|, i requires 0 <= i < |Sentiments| =>
      Percent(CountSentiment(reviews, Sentiments[i]), |reviews|))
  }

  /** Number of reviews whose rating is not one of the five stars. */
  function CountUnrated(reviews: seq<Review>): nat {
    if reviews == [] then 0
    else (if 1 <= reviews[0].rating <= 5 then 0 else 1) + CountUnrated(reviews[1..])
  }

  /** Number of reviews whose sentiment is not one of the three labels. */
  function CountUnlabelled(reviews: seq<Review>): nat {
    if reviews == [] then 0
    else (if reviews[0].sentiment in Sentiments then 0 else 1) + CountUnlabelled(reviews[1..])
  }

  /** Every review falls in exactly one star bucket, unless its rating is out
      of range; then it falls in none but still counts in the total. */
  lemma {:induction false} RatingBucketsPartition(reviews: seq<Review>)
    ensures CountRating(reviews, 5) + CountRating(reviews, 4) + CountRating(reviews, 3)
          + CountRating(reviews, 2) + CountRating(reviews, 1) + CountUnrated(reviews) == |reviews|
  {
    if reviews != [] {
      RatingBucketsPartition(reviews[1..]);
    }
  }

  /** Every review falls in exactly one sentiment bucket, unless its sentiment
      is not one of the labels; then it falls in none but still counts in the
      total. */
  lemma {:induction false} SentimentBucketsPartition(reviews: seq<Review>)
    ensures CountSentiment(reviews, "positive") + CountSentiment(reviews, "neutral")
          + CountSentiment(reviews, "negative") + CountUnlabelled(reviews) == |reviews|
  {
    if reviews != [] {
      SentimentBucketsPartition(reviews[1..]);
    }
  }

  lemma {:induction false} CountWhereAppend(a: seq<Review>, b: seq<Review>, keep: Review -> bool)
    ensures CountWhere(a + b, keep) == CountWhere(a, keep) + CountWhere(b, keep)
  {
    if a == [] {
      assert a + b == b;
    } else {
      assert (a + b)[1..] == a[1..] + b;
      CountWhereAppend(a[1..], b, keep);
    }
  }

  /** A count does not depend on the order of the reviews: any reordering
      gives the same count. */
  lemma {:induction false} CountWherePermutation(a: seq<Review>, b: seq<Review>, keep: Review -> bool)
    requires multiset(a) == multiset(b)
    ensures CountWhere(a, keep) == CountWhere(b, keep)
    decreases |a|
  {
    if a == [] {
      assert |b| == |multiset(b)| == 0;
    } else {
      var x := a[0];
      assert x in multiset(b) by { assert x in multiset(a); }
      var j :| 0 <= j < |b| && b[j] == x;
      var rest := b[..j] + b[j + 1..];
      RemoveAt(a, b, j);
      CountWherePermutation(a[1..], rest, keep);
      CountWhereRemoveAt(b, j, keep);
    }
  }

  /** Taking out the element at `j` of `b`, equal to the head of `a`, keeps
      the two multisets equal. */
  lemma RemoveAt(a: seq<Review>, b: seq<Review>, j: nat)
    requires a != [] && j < |b| && b[j] == a[0] && multiset(a) == multiset(b)
    ensures multiset(a[1..]) == multiset(b[..j] + b[j + 1..])
  {
    assert a == [a[0]] + a[1..];
    assert b == b[..j] + [b[j]] + b[j + 1..];
    assert multiset(a[1..]) == multiset(a) - multiset{a[0]};
    assert multiset(b[..j] + b[j + 1..]) == multiset(b) - multiset{b[j]};
  }

  /** Taking out one element lowers the count by one when it is counted. */
  lemma {:induction false} CountWhereRemoveAt(b: seq<Review>, j: nat, keep: Review -> bool)
    requires j < |b|
    ensures CountWhere(b, keep) == CountWhere(b[..j] + b[j + 1..], keep) + (if keep(b[j]) then 1 else 0)
    decreases j
  {
    var rest := b[..j] + b[j + 1..];
    CountWhereHead(b, keep);
    if j == 0 {
      assert rest == b[1..];
    } else {
      var t := b[1..];
      assert rest[0] == b[0];
      assert rest[1..] == t[..j - 1] + t[j..];
      CountWhereRemoveAt(t, j - 1, keep);
      CountWhereHead(rest, keep);
    }
  }

  /** Both breakdowns are the same for any reordering of the reviews. */
  lemma BreakdownsIgnoreOrder(a: seq<Review>, b: seq<Review>)
    requires multiset(a) == multiset(b)
    ensures RatingBreakdown(a) == RatingBreakdown(b)
    ensures SentimentBreakdown(a) == SentimentBreakdown(b)
  {
    assert |a| == |multiset(a)| == |multiset(b)| == |b|;
    forall i | 0 <= i < |Stars| ensures CountRating(a, Stars[i]) == CountRating(b, Stars[i]) {
      CountWherePermutation(a, b, RatedAs(Stars[i]));
    }
    forall i | 0 <= i < |Sentiments| ensures CountSentiment(a, Sentiments[i]) == CountSentiment(b, Sentiments[i]) {
      CountWherePermutation(a, b, LabelledAs(Sentiments[i]));
    }
  }

  // ---------------------------------------------------------------------------
  // Search box

  /** `handleSearch`: navigate to `/results?q=` and the encoded trimmed query,
      and only when the trimmed query is not empty. */
  function SearchTarget(query: string, encode: string -> string): (target: Option<string>)
    ensures target.Some? <==> exists k :: 0 <= k < |query| && !IsSpace(query[k])
    ensures target.Some? ==> target.value == "/results?q=" + encode(Trim(query))
  {
    var q := Trim(query);
    if q != "" then Some("/results?q=" + encode(q)) else None
  }

  /** Whitespace typed around a query does not change where the search
      goes. */
  lemma SearchTargetIgnoresPadding(pre: string, query: string, post: string, encode: string -> string)
    requires forall k :: 0 <= k < |pre| ==> IsSpace(pre[k])
    requires forall k :: 0 <= k < |post| ==> IsSpace(post[k])
    ensures SearchTarget(pre + query + post, encode) == SearchTarget(query, encode)
  {
    assert pre + query + post == pre + (query + post);
    TrimIgnoresLeadingPadding(pre, query + post);
    TrimIgnoresTrailingPadding(query, post);
  }

  // ---------------------------------------------------------------------------
  // The view's state

  class SearchResults {
    const locations: seq<Location>
    /** The `initialReviews` prop, read afresh on every render. */
    var reviews: seq<Review>
    var selected: Option<Location>
    var filterType: string
    var searchQuery: string

    constructor (initialQuery: string, initialLocations: seq<Location>, initialReviews: seq<Review>)
      ensures locations == initialLocations && reviews == initialReviews
      ensures selected == if initialLocations == [] then None else Some(initialLocations[0])
      ensures filterType == "all" && searchQuery == initialQuery
    {
      locations := initialLocations;
      reviews := initialReviews;
      selected := if initialLocations == [] then None else Some(initialLocations[0]);
      filterType := "all";
      searchQuery := initialQuery;
    }

    /** The reviews on screen. */
    function Shown(): seq<Review>
      reads this
    {
      FilteredReviews(reviews, filterType)
    }

    /** `handleLocationClick`: the location becomes the selected one, and the
        listener, when there is one, is told its id. */
    method ClickLocation(loc: Location, hasListener: bool) returns (notified: Option<string>)
      modifies this`selected
      ensures selected == Some(loc)
      ensures notified == if hasListener then Some(loc.id) else None
    {
      selected := Some(loc);
      notified := if hasListener then Some(loc.id) else None;
    }

    /** Choosing a filter changes the reviews shown, never the review list
        itself, over which both breakdowns are taken. */
    method ChangeFilter(f: string)
      modifies this`filterType
      ensures filterType == f
      ensures Shown() == FilteredReviews(reviews, f)
    {
      filterType := f;
    }

    /** The parent renders the view again with a new review list (after a
        selection or a load-more): the window and both breakdowns are taken
        over the new list; the selection, the filter, the query and the
        locations, which are the view's own state, stay. */
    method ReceiveReviews(newReviews: seq<Review>)
      modifies this`reviews
      ensures reviews == newReviews
      ensures Shown() == FilteredReviews(newReviews, filterType)
    {
      reviews := newReviews;
    }

    method EditQuery(q: string)
      modifies this`searchQuery
      ensures searchQuery == q
    {
      searchQuery := q;
    }

    /** Submitting the search box: where the browser goes, if anywhere. */
    method SubmitSearch(encode: string -> string) returns (target: Option<string>)
      ensures target.Some? <==> Trim(searchQuery) != ""
      ensures target.Some? ==> target.value == "/results?q=" + encode(Trim(searchQuery))
    {
      target := SearchTarget(searchQuery, encode);
    }
  }
}
