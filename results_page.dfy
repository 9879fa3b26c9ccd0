/** The results page (`ResultsContent`): the places it holds and the place
    selected, the location cards and review rows it hands to the view, the
    `name-index` location ids and their decoding, and the two state
    transitions, selecting a location and loading more reviews. Each call to
    the place-details endpoint is an oracle reply passed in (`None` when the
    fetch failed). */
module ResultsPage {
  import opened Wrappers
  import opened Text
  import PlacesSearch
  import View = SearchResultsView

  /** A review's sentiment as the page receives it: missing (null), an object
      carrying a label, or a value without one (a bare string, as the
      place-details endpoint sends). */
  datatype ReviewSentiment = Missing | Labelled(text: string) | NoLabel

  datatype PageReview = PageReview(
    id: Option<string>,
    rating: int,
    text: string,
    author: string,
    date: string,
    profilePhotoUrl: Option<string>,
    sentiment: ReviewSentiment)

  datatype Hours = Hours(openNow: bool, weekdayText: seq<string>)

  datatype Place = Place(
    id: string,
    name: string,
    address: string,
    rating: real,
    totalReviews: int,
    reviews: seq<PageReview>,
    phoneNumber: Option<string>,
    website: Option<string>,
    openingHours: Option<Hours>,
    businessStatus: Option<string>,
    nextPageToken: Option<string>)

  /** A place-details reply: the fields it carries override the place's own
      when spread over it; absent ones leave them. */
  datatype Details = Details(
    id: Option<string>,
    name: Option<string>,
    address: Option<string>,
    rating: Option<real>,
    totalReviews: Option<int>,
    reviews: Option<seq<PageReview>>,
    phoneNumber: Option<string>,
    website: Option<string>,
    openingHours: Option<Hours>,
    businessStatus: Option<string>,
    nextPageToken: Option<string>)

  /** `{ ...place, ...details }`: every field the details carry wins, every
      other field is the place's own. */
  function Merge(p: Place, d: Details): (q: Place)
    ensures q.id == d.id.GetOr(p.id) && q.name == d.name.GetOr(p.name)
    ensures q.address == d.address.GetOr(p.address) && q.rating == d.rating.GetOr(p.rating)
    ensures q.totalReviews == d.totalReviews.GetOr(p.totalReviews) && q.reviews == d.reviews.GetOr(p.reviews)
    ensures q.phoneNumber == (if d.phoneNumber.Some? then d.phoneNumber else p.phoneNumber)
    ensures q.website == (if d.website.Some? then d.website else p.website)
    ensures q.openingHours == (if d.openingHours.Some? then d.openingHours else p.openingHours)
    ensures q.businessStatus == (if d.businessStatus.Some? then d.businessStatus else p.businessStatus)
    ensures q.nextPageToken == (if d.nextPageToken.Some? then d.nextPageToken else p.nextPageToken)
  {
    Place(
      d.id.GetOr(p.id),
      d.name.GetOr(p.name),
      d.address.GetOr(p.address),
      d.rating.GetOr(p.rating),
      d.totalReviews.GetOr(p.totalReviews),
      d.reviews.GetOr(p.reviews),
      if d.phoneNumber.Some? then d.phoneNumber else p.phoneNumber,
      if d.website.Some? then d.website else p.website,
      if d.openingHours.Some? then d.openingHours else p.openingHours,
      if d.businessStatus.Some? then d.businessStatus else p.businessStatus,
      if d.nextPageToken.Some? then d.nextPageToken else p.nextPageToken)
  }

  /** Details that carry no field. */
  const NoDetails := Details(None, None, None, None, None, None, None, None, None, None, None)

  /** Spreading empty details changes nothing, and spreading the same details
      twice is spreading them once. */
  lemma {:induction false} MergeIdempotent(p: Place, d: Details)
    ensures Merge(p, NoDetails) == p
    ensures Merge(Merge(p, d), d) == Merge(p, d)
  {
    var q := Merge(p, d);
    var q2 := Merge(q, d);
    assert q2.id == q.id && q2.name == q.name && q2.address == q.address && q2.rating == q.rating;
    assert q2.totalReviews == q.totalReviews && q2.reviews == q.reviews && q2.phoneNumber == q.phoneNumber;
    assert q2.website == q.website && q2.openingHours == q.openingHours;
    assert q2.businessStatus == q.businessStatus && q2.nextPageToken == q.nextPageToken;
  }

  // ---------------------------------------------------------------------------
  // Location ids

  /** The id of the location card at `index`, `${name}-${index}`: the name,
      a dash, then the decimal digits of the index, with no leading zero. */
  function LocationId(name: string, index: nat): (id: string)
    ensures |id| > |name| + 1 && id[..|name|] == name && id[|name|] == '-'
    ensures AllDigits(id[|name| + 1..], 10) && DigitsValue(id[|name| + 1..], 10) == index
    ensures id[|name| + 1] == '0' ==> id == name + "-0"
  {
    var id := name + "-" + NatToString(index);
    assert id[|name| + 1..] == NatToString(index);
    id
  }

  /** `Number.parseInt(locationId.split('-')[1])`: the number that the text
      between the first and the second dash starts with. `None` stands for
      NaN, including when there is no dash at all. */
  function DecodeLocationId(locationId: string): (r: Option<int>)
    ensures '-' !in locationId ==> r.None?
    ensures '-' in locationId ==> r == ParseInt(Split(locationId, '-')[1])
  {
    var parts := Split(locationId, '-');
    if |parts| < 2 then None else ParseInt(parts[1])
  }

  /** `places[index]` for the decoded index: the place at that index when
      there is one, nothing otherwise (NaN, negative or too large). */
  function Lookup(places: seq<Place>, locationId: string): (r: Option<Place>)
    ensures var i := DecodeLocationId(locationId);
      i.Some? && 0 <= i.value < |places| ==> r == Some(places[i.value])
    ensures var i := DecodeLocationId(locationId);
      !(i.Some? && 0 <= i.value < |places|) ==> r.None?
  {
    match DecodeLocationId(locationId)
    case Some(i) => if 0 <= i < |places| then Some(places[i]) else None
    case None => None
  }

  /** For a name without `-`, decoding the id gives back the index. */
  lemma {:induction false} LocationIdRoundTrip(name: string, index: nat)
    requires '-' !in name
    ensures DecodeLocationId(LocationId(name, index)) == Some(index)
  {
    var digits := NatToString(index);
    assert '-' !in digits by {
      forall k | 0 <= k < |digits| ensures digits[k] != '-' {
        assert IsRadixDigit(digits[k], 10);
      }
    }
    assert LocationId(name, index) == Join([name, digits], "-");
    SplitJoin([name, digits], '-');
    ParseIntNatToString(index);
  }

  /** For a name with one `-`, the decoder reads the piece after the dash
      instead of the index. */
  lemma {:induction false} DashedNameReadsSecondPiece(first: string, second: string, index: nat)
    requires '-' !in first && '-' !in second
    ensures DecodeLocationId(LocationId(first + "-" + second, index)) == ParseInt(second)
  {
    var digits := NatToString(index);
    assert '-' !in digits by {
      forall k | 0 <= k < |digits| ensures digits[k] != '-' {
        assert IsRadixDigit(digits[k], 10);
      }
    }
    var id := LocationId(first + "-" + second, index);
    assert id == first + ['-'] + (second + ['-'] + digits);
    assert id[|first|] == '-';
    SplitCons(first, second + ['-'] + digits, '-');
    SplitCons(second, digits, '-');
    assert Split(id, '-')[1] == second;
  }

  // ---------------------------------------------------------------------------
  // What the page hands to the view

  /** `mappedLocations`: one card per place, in order, the card at `i`
      carrying the id `name-i`, the place's name, rating, review count,
      address, phone and status, whether it is open now when its hours are
      known, and the placeholder image. */
  function MappedLocations(places: seq<Place>): (r: seq<View.Location>)
    ensures |r| == |places|
    ensures forall i :: 0 <= i < |r| ==> r[i].id == LocationId(places[i].name, i) && r[i].name == places[i].name
    ensures forall i :: 0 <= i < |r| ==>
      && r[i].rating == places[i].rating && r[i].reviews == places[i].totalReviews
      && r[i].address == places[i].address && r[i].phone == places[i].phoneNumber
      && r[i].status == places[i].businessStatus && r[i].image == "/placeholder.svg?height=200&width=300"
    ensures forall i :: 0 <= i < |r| ==>
      && (places[i].openingHours.None? ==> r[i].isOpen.None?)
      && (places[i].openingHours.Some? ==> r[i].isOpen == Some(places[i].openingHours.value.openNow))
  {
    seq(|places|, i requires 0 <= i < |places| =>
      var p := places[i];
      View.Location(
        LocationId(p.name, i), p.name, p.rating, p.totalReviews, p.address, p.phoneNumber,
        if p.openingHours.Some? then Some(p.openingHours.value.openNow) else None,
        p.businessStatus, "/placeholder.svg?height=200&width=300"))
  }

  /** Clicking the card of a place whose name has no `-` selects that very
      place. */
  lemma SelectRecoversPlace(places: seq<Place>, i: nat)
    requires i < |places| && '-' !in places[i].name
    ensures Lookup(places, MappedLocations(places)[i].id) == Some(places[i])
  {
    LocationIdRoundTrip(places[i].name, i);
  }

  /** Clicking the card of a place named `first-second` looks up whatever
      index `parseInt(second)` gives: nothing when that is NaN, another place
      when it is the index of one (`Cafe-2go` reads index 2). */
  lemma DashedNameSelectsOther(places: seq<Place>, i: nat, first: string, second: string)
    requires i < |places| && places[i].name == first + "-" + second
    requires '-' !in first && '-' !in second
    ensures ParseInt(second).None? ==> Lookup(places, MappedLocations(places)[i].id).None?
    ensures ParseInt(second).Some? && 0 <= ParseInt(second).value < |places| ==>
      Lookup(places, MappedLocations(places)[i].id) == Some(places[ParseInt(second).value])
  {
    DashedNameReadsSecondPiece(first, second, i);
  }

  /** `review.sentiment?.label || 'neutral'` */
  function DisplaySentiment(s: ReviewSentiment): (r: string)
    ensures r != ""
    ensures s.Labelled? && s.text != "" ==> r == s.text
    ensures s.Missing? || s.NoLabel? || s == Labelled("") ==> r == "neutral"
  {
    if s.Labelled? && s.text != "" then s.text else "neutral"
  }

  /** `mappedReviews`: one row per review of the selected place, in order;
      none without a selected place. */
  function MappedReviews(selected: Option<Place>): (r: seq<View.Review>)
    ensures selected.None? ==> r == []
    ensures selected.Some? ==> |r| == |selected.value.reviews|
    ensures selected.Some? ==> forall i :: 0 <= i < |r| ==>
      var rv := selected.value.reviews[i];
      && r[i].name == rv.author && r[i].rating == rv.rating
      && r[i].sentiment == DisplaySentiment(rv.sentiment)
      && r[i].id == rv.id && r[i].content == rv.text && r[i].time == rv.date
      && r[i].profilePhotoUrl == rv.profilePhotoUrl
      && (r[i].avatar.Some? <==> rv.author != "")
      && (r[i].avatar.Some? ==> r[i].avatar.value == rv.author[0])
  {
    if selected.None? then []
    else
      var rs := selected.value.reviews;
      seq(|rs|, i requires 0 <= i < |rs| =>
        var rv := rs[i];
        View.Review(
          rv.id, rv.author, if rv.author == "" then None else Some(rv.author[0]), rv.rating,
          DisplaySentiment(rv.sentiment), rv.date, rv.text, rv.profilePhotoUrl))
  }

  /** A review as the place-search endpoint delivers it to the page. */
  function FromSearch(o: PlacesSearch.OutReview): PageReview {
    PageReview(
      o.id, o.rating, o.text, o.author, o.date, Some(o.profilePhotoUrl),
      if o.sentiment.Some? then Labelled(PlacesSearch.LabelText(o.sentiment.value.kind)) else Missing)
  }

  /** Every review the search endpoint delivers lands in one of the three
      sentiment buckets; an unclassified one lands in `neutral`. */
  lemma SearchReviewsAreBucketed(o: PlacesSearch.OutReview)
    ensures DisplaySentiment(FromSearch(o).sentiment) in View.Sentiments
    ensures o.sentiment.None? ==> DisplaySentiment(FromSearch(o).sentiment) == "neutral"
  {
    if o.sentiment.Some? {
      var k := o.sentiment.value.kind;
      assert PlacesSearch.LabelText(k) in View.Sentiments by {
        match k
        case Positive =>
        case Negative =>
        case Neutral =>
      }
    }
  }

  /** `hasMoreReviews`: a place is selected and its next-page token is
      truthy. */
  function HasMoreReviews(selected: Option<Place>): (b: bool)
    ensures b <==> selected.Some? && selected.value.nextPageToken.Some? && selected.value.nextPageToken.value != ""
  {
    selected.Some? && Truthy(selected.value.nextPageToken)
  }

  /** `places.map(place => place.id === id ? replacement : place)` */
  function ReplaceWhere(places: seq<Place>, id: string, replacement: Place): (r: seq<Place>)
    ensures |r| == |places|
    ensures forall i :: 0 <= i < |r| ==> r[i] == if places[i].id == id then replacement else places[i]
  {
    seq(|places|, i requires 0 <= i < |places| => if places[i].id == id then replacement else places[i])
  }

  /** `places.map(place => place.id === id ? { ...place, ...details } : place)` */
  function MergeWhere(places: seq<Place>, id: string, d: Details): (r: seq<Place>)
    ensures |r| == |places|
    ensures forall i :: 0 <= i < |r| ==> r[i] == if places[i].id == id then Merge(places[i], d) else places[i]
  {
    seq(|places|, i requires 0 <= i < |places| => if places[i].id == id then Merge(places[i], d) else places[i])
  }

  /** The reviews and token a successful load-more gives the selected
      place. */
  function WithMoreReviews(p: Place, d: Details): (q: Place)
    requires d.reviews.Some?
    ensures q.reviews == p.reviews + d.reviews.value
    ensures q.nextPageToken == d.nextPageToken
    ensures q.(reviews := p.reviews, nextPageToken := p.nextPageToken) == p
  {
    p.(reviews := p.reviews + d.reviews.value, nextPageToken := d.nextPageToken)
  }

  // ---------------------------------------------------------------------------
  // Page state

  class Results {
    var places: seq<Place>
    var selected: Option<Place>

    constructor ()
      ensures places == [] && selected == None
    {
      places := [];
      selected := None;
    }

    /** The search reply arrives: its places (or none) are shown, and the
        first one is selected when there is one. */
    method ShowSearchResults(found: Option<seq<Place>>)
      modifies this
      ensures places == found.GetOr([])
      ensures places != [] ==> selected == Some(places[0])
      ensures places == [] ==> selected == old(selected)
    {
      places := found.GetOr([]);
      if |places| > 0 {
        selected := Some(places[0]);
      }
    }

    /** `handleLocationSelect`: when the decoded index names a place, it is
        selected; when its details then arrive, every place with its id and
        the selection are overlaid with them; a failed fetch leaves the
        selection as it was set and the places unchanged. An id that names no
        place changes nothing. */
    method SelectLocation(locationId: string, details: Option<Details>)
      modifies this
      ensures Lookup(old(places), locationId).None? ==> places == old(places) && selected == old(selected)
      ensures Lookup(old(places), locationId).Some? && details.None? ==>
        places == old(places) && selected == Lookup(old(places), locationId)
      ensures Lookup(old(places), locationId).Some? && details.Some? ==>
        var target := Lookup(old(places), locationId).value;
        places == MergeWhere(old(places), target.id, details.value)
        && selected == Some(Merge(target, details.value))
    {
      var target := Lookup(places, locationId);
      if target.Some? {
        selected := target;
        if details.Some? {
          places := MergeWhere(places, target.value.id, details.value);
          selected := Some(Merge(target.value, details.value));
        }
      }
    }

    /** `handleLoadMoreReviews`: with a truthy next-page token on the selected
        place and a reply carrying reviews, the selected place gets the old
        reviews followed by the new ones and the reply's token, and replaces
        every place with its id; otherwise nothing changes. */
    method LoadMoreReviews(details: Option<Details>)
      modifies this
      ensures
        if HasMoreReviews(old(selected)) && details.Some? && details.value.reviews.Some? then
          var updated := WithMoreReviews(old(selected).value, details.value);
          places == ReplaceWhere(old(places), old(selected).value.id, updated) && selected == Some(updated)
        else
          places == old(places) && selected == old(selected)
    {
      if HasMoreReviews(selected) && details.Some? && details.value.reviews.Some? {
        var updated := WithMoreReviews(selected.value, details.value);
        places := ReplaceWhere(places, selected.value.id, updated);
        selected := Some(updated);
      }
    }
  }
}
