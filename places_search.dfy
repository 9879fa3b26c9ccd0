/** The place-search endpoint (`GET /api/places`): request guards, the
    upstream search request it builds, validation of the sentiment classifier's
    reply for each review, and the shaping of every place and review into the
    record the browser receives. The places directory, the language model and
    `JSON.parse` are oracles passed in as functions. */
module PlacesSearch {
  import opened Wrappers
  import opened Text

  // ---------------------------------------------------------------------------
  // Sentiment classification of one review

  datatype Label = Positive | Negative | Neutral

  /** The label as the classifier spells it. */
  function LabelText(l: Label): (s: string)
    ensures LabelOf(s) == Some(l)
  {
    match l
    case Positive => "positive"
    case Negative => "negative"
    case Neutral => "neutral"
  }

  /** Membership in `['positive', 'negative', 'neutral']`, as the label it
      names. */
  function LabelOf(s: string): (r: Option<Label>)
    ensures r.Some? <==> s == "positive" || s == "negative" || s == "neutral"
  {
    if s == "positive" then Some(Positive)
    else if s == "negative" then Some(Negative)
    else if s == "neutral" then Some(Neutral)
    else None
  }

  datatype Classification = Classification(score: real, kind: Label)

  /** A value as `JSON.parse` produces it. */
  datatype Json =
    | JNull
    | JBool(b: bool)
    | JNumber(n: real)
    | JString(s: string)
    | JArray(items: seq<Json>)
    | JObject(fields: map<string, Json>)

  /** The two external collaborators of the classifier: the chat completion
      (the message content, `None` when the call throws or the content is
      null) and `JSON.parse` (`None` when it throws). */
  datatype Classifier = Classifier(complete: string -> Option<string>, parse: string -> Option<Json>)

  /** The reply `{score, label}` the classifier is asked for, as a JSON
      object. */
  predicate IsReplyFor(j: Json, c: Classification) {
    && j.JObject?
    && "score" in j.fields && j.fields["score"] == JNumber(c.score)
    && "label" in j.fields && j.fields["label"] == JString(LabelText(c.kind))
  }

  /** Validation of the classifier's reply: an empty or missing reply, one
      that does not parse, or one whose `score` is not a number or whose
      `label` is not one of the three labels gives `None`. The range of
      `score` is not checked. */
  function ValidateReply(content: Option<string>, parse: string -> Option<Json>): (r: Option<Classification>)
    ensures r.Some? ==> Truthy(content)
    ensures r.Some? ==> parse(content.value).Some? && IsReplyFor(parse(content.value).value, r.value)
  {
    if !Truthy(content) then None
    else match parse(content.value)
      case None => None
      case Some(JObject(f)) =>
        if "score" in f && f["score"].JNumber? && "label" in f && f["label"].JString?
           && LabelOf(f["label"].s).Some?
        then Some(Classification(f["score"].n, LabelOf(f["label"].s).value))
        else None
      // `null.score` throws and is caught; other values have no such properties
      case Some(_) => None
  }

  /** A well-formed reply is accepted and returned unchanged. */
  lemma ValidateAcceptsReply(content: string, parse: string -> Option<Json>, c: Classification)
    requires content != ""
    requires parse(content).Some? && IsReplyFor(parse(content).value, c)
    ensures ValidateReply(Some(content), parse) == Some(c)
  {
    var f := parse(content).value.fields;
    assert LabelOf(f["label"].s) == Some(c.kind);
  }

  /** `analyzeSentiment(text)`: the model's reply to the review text,
      validated; `null` when the call throws or its reply is empty, does not
      parse or is not a well-formed classification. */
  function AnalyzeSentiment(text: string, cl: Classifier): (r: Option<Classification>)
    ensures !Truthy(cl.complete(text)) ==> r.None?
    ensures Truthy(cl.complete(text)) && cl.parse(cl.complete(text).value).None? ==> r.None?
    ensures r.Some? ==>
      && Truthy(cl.complete(text))
      && var reply := cl.parse(cl.complete(text).value);
      && reply.Some? && IsReplyFor(reply.value, r.value)
    ensures forall c ::
      (Truthy(cl.complete(text)) && cl.parse(cl.complete(text).value).Some?
       && IsReplyFor(cl.parse(cl.complete(text).value).value, c)) ==> r == Some(c)
  {
    ValidateReply(cl.complete(text), cl.parse)
  }

  // ---------------------------------------------------------------------------
  // Reviews

  /** The `text` field of a review: a string, an object that may carry a
      string `text` property, or anything else. */
  datatype ReviewText = TextString(s: string) | TextObject(text: Option<string>) | TextOther

  /** Review-text normalisation: a string is kept, an object's `text`
      property is taken, anything else becomes the empty string. */
  function UnwrapText(t: ReviewText): (r: string)
    ensures t.TextString? ==> r == t.s
    ensures t.TextObject? && t.text.Some? ==> r == t.text.value
    ensures t.TextOther? || (t.TextObject? && t.text.None?) ==> r == ""
  {
    match t
    case TextString(s) => s
    case TextObject(Some(s)) => s
    case TextObject(None) => ""
    case TextOther => ""
  }

  datatype Attribution = Attribution(displayName: Option<string>, photoUri: Option<string>)

  datatype Review = Review(
    name: Option<string>,
    text: ReviewText,
    rating: Option<int>,
    relativePublishTimeDescription: Option<string>,
    authorAttribution: Option<Attribution>)

  datatype OutReview = OutReview(
    id: Option<string>,
    rating: int,
    text: string,
    author: string,
    date: string,
    profilePhotoUrl: string,
    sentiment: Option<Classification>)

  /** `review.rating || 0` */
  function RatingOrZero(rating: Option<int>): (r: int)
    ensures rating.Some? ==> r == rating.value
    ensures rating.None? ==> r == 0
  {
    if rating.Some? && rating.value != 0 then rating.value else 0
  }

  /** The record one review becomes: its id, its rating or 0, its normalised
      text, author, date and photo defaulting to the empty string, and the
      classifier's verdict on its text. */
  function MapReview(r: Review, cl: Classifier): (o: OutReview)
    ensures o.id == r.name && o.text == UnwrapText(r.text)
    ensures o.rating == r.rating.GetOr(0)
    ensures r.authorAttribution.None? ==> o.author == "" && o.profilePhotoUrl == ""
    ensures r.authorAttribution.Some? ==>
      o.author == r.authorAttribution.value.displayName.GetOr("")
      && o.profilePhotoUrl == r.authorAttribution.value.photoUri.GetOr("")
    ensures o.date == r.relativePublishTimeDescription.GetOr("")
    ensures o.sentiment == AnalyzeSentiment(o.text, cl)
  {
    var text := UnwrapText(r.text);
    var author := if r.authorAttribution.Some? then r.authorAttribution.value.displayName else None;
    var photo := if r.authorAttribution.Some? then r.authorAttribution.value.photoUri else None;
    OutReview(
      r.name,
      RatingOrZero(r.rating),
      text,
      Or(author, ""),
      Or(r.relativePublishTimeDescription, ""),
      Or(photo, ""),
      AnalyzeSentiment(text, cl))
  }

  /** `Promise.all(reviews.map(...))`: one output per review, in order. */
  function MapReviews(rs: seq<Review>, cl: Classifier): (os: seq<OutReview>)
    ensures |os| == |rs|
    ensures forall i :: 0 <= i < |rs| ==> os[i] == MapReview(rs[i], cl)
  {
    if rs == [] then [] else [MapReview(rs[0], cl)] + MapReviews(rs[1..], cl)
  }

  // ---------------------------------------------------------------------------
  // Places

  datatype Period = Period(open: Option<bool>)

  datatype OpeningHours = OpeningHours(periods: Option<seq<Period>>, weekdayDescriptions: Option<seq<string>>)

  /** A place of the search reply. `displayName` stands for
      `displayName?.text`. */
  datatype Place = Place(
    id: Option<string>,
    displayName: Option<string>,
    formattedAddress: Option<string>,
    rating: Option<real>,
    userRatingCount: Option<int>,
    internationalPhoneNumber: Option<string>,
    websiteUri: Option<string>,
    regularOpeningHours: Option<OpeningHours>,
    businessStatus: Option<string>,
    reviews: Option<seq<Review>>)

  datatype OutHours = OutHours(openNow: bool, weekdayText: seq<string>)

  datatype OutPlace = OutPlace(
    name: string,
    address: string,
    rating: real,
    totalReviews: int,
    phoneNumber: string,
    website: string,
    openingHours: Option<OutHours>,
    businessStatus: string,
    reviews: seq<OutReview>,
    id: string,
    placeId: string)

  /** `periods.some(period => period.open)` */
  function AnyOpen(periods: seq<Period>): (b: bool)
    ensures b <==> exists i :: 0 <= i < |periods| && periods[i].open == Some(true)
  {
    if periods == [] then false
    else periods[0].open == Some(true) || AnyOpen(periods[1..])
  }

  /** Opening hours as reported: `open_now` holds exactly when some period
      is open (a missing period list counts as none open), and the weekday
      texts default to the empty list. */
  function MapHours(h: OpeningHours): (o: OutHours)
    ensures o.openNow <==>
      exists i :: 0 <= i < |h.periods.GetOr([])| && h.periods.GetOr([])[i].open == Some(true)
    ensures o.weekdayText == h.weekdayDescriptions.GetOr([])
  {
    OutHours(AnyOpen(h.periods.GetOr([])), h.weekdayDescriptions.GetOr([]))
  }

  /** The record one place becomes: every missing field defaults to the empty
      string or 0, opening hours are reported only when present, with
      `open_now` true exactly when some period is open, and its reviews are
      mapped in order. */
  function MapPlace(p: Place, cl: Classifier): (o: OutPlace)
    ensures o.name == p.displayName.GetOr("") && o.address == p.formattedAddress.GetOr("")
    ensures o.rating == p.rating.GetOr(0.0) && o.totalReviews == p.userRatingCount.GetOr(0)
    ensures o.phoneNumber == p.internationalPhoneNumber.GetOr("") && o.website == p.websiteUri.GetOr("")
    ensures o.businessStatus == p.businessStatus.GetOr("")
    ensures o.id == o.placeId == p.id.GetOr("")
    ensures o.openingHours.Some? <==> p.regularOpeningHours.Some?
    ensures o.openingHours.Some? ==> o.openingHours.value == MapHours(p.regularOpeningHours.value)
    ensures |o.reviews| == |p.reviews.GetOr([])|
    ensures forall i :: 0 <= i < |o.reviews| ==> o.reviews[i] == MapReview(p.reviews.GetOr([])[i], cl)
  {
    OutPlace(
      Or(p.displayName, ""),
      Or(p.formattedAddress, ""),
      if p.rating.Some? && p.rating.value != 0.0 then p.rating.value else 0.0,
      if p.userRatingCount.Some? && p.userRatingCount.value != 0 then p.userRatingCount.value else 0,
      Or(p.internationalPhoneNumber, ""),
      Or(p.websiteUri, ""),
      if p.regularOpeningHours.Some? then Some(MapHours(p.regularOpeningHours.value)) else None,
      Or(p.businessStatus, ""),
      MapReviews(p.reviews.GetOr([]), cl),
      Or(p.id, ""),
      Or(p.id, ""))
  }

  function MapPlaces(ps: seq<Place>, cl: Classifier): (os: seq<OutPlace>)
    ensures |os| == |ps|
    ensures forall i :: 0 <= i < |ps| ==> os[i] == MapPlace(ps[i], cl)
  {
    if ps == [] then [] else [MapPlace(ps[0], cl)] + MapPlaces(ps[1..], cl)
  }

  // ---------------------------------------------------------------------------
  // The upstream request and the route

  const SearchEndpoint := "https://places.googleapis.com/v1/places:searchText"
  const MaxResultCount := 20

  datatype SearchBody = SearchBody(textQuery: string, languageCode: string, maxResultCount: int, pageToken: Option<string>)

  datatype SearchRequest = SearchRequest(url: string, apiKey: string, body: SearchBody)

  /** The search request: the endpoint, with `?pageToken=` and the encoded
      token exactly when a token is given; a body whose `textQuery` is the
      query or the empty string, in English, for at most 20 results, carrying
      the token only when there is one. */
  function BuildSearchRequest(query: Option<string>, pageToken: Option<string>, apiKey: string,
                              encode: string -> string): (req: SearchRequest)
    ensures Truthy(pageToken) ==> req.url == SearchEndpoint + "?pageToken=" + encode(pageToken.value)
    ensures !Truthy(pageToken) ==> req.url == SearchEndpoint
    ensures req.apiKey == apiKey
    ensures req.body.textQuery == (if Truthy(query) then query.value else "")
    ensures req.body.languageCode == "en" && req.body.maxResultCount == 20
    ensures req.body.pageToken.Some? <==> Truthy(pageToken)
    ensures req.body.pageToken.Some? ==> req.body.pageToken == pageToken
  {
    var url := if Truthy(pageToken) then SearchEndpoint + "?pageToken=" + encode(pageToken.value)
               else SearchEndpoint;
    SearchRequest(url, apiKey,
      SearchBody(Or(query, ""), "en", MaxResultCount, if Truthy(pageToken) then pageToken else None))
  }

  datatype SearchData = SearchData(places: Option<seq<Place>>, pageToken: Option<string>)

  /** What the places directory does with a request: a parsed reply, a
      non-success status, or an exception (network failure, unreadable
      body). */
  datatype Upstream = UpstreamOk(data: SearchData) | UpstreamError(status: int) | UpstreamThrew

  datatype Response =
    | ErrorResponse(status: int, error: string)
    | PlacesPage(places: seq<OutPlace>, nextPageToken: Option<string>)

  /** `GET /api/places?q=&pageToken=` */
  function Search(query: Option<string>, pageToken: Option<string>, apiKey: Option<string>,
                  fetch: SearchRequest -> Upstream, encode: string -> string, cl: Classifier): (r: Response)
    // neither query nor token: 400, before the API key is looked at
    ensures !Truthy(query) && !Truthy(pageToken) ==> r == ErrorResponse(400, "Query parameter is required")
    ensures (Truthy(query) || Truthy(pageToken)) && !Truthy(apiKey) ==>
      r == ErrorResponse(500, "API key is not configured")
    // an upstream failure status is passed through
    ensures (Truthy(query) || Truthy(pageToken)) && Truthy(apiKey) ==>
      var reply := fetch(BuildSearchRequest(query, pageToken, apiKey.value, encode));
      && (reply.UpstreamError? ==> r == ErrorResponse(reply.status, "Failed to fetch places"))
      && (reply.UpstreamThrew? ==> r == ErrorResponse(500, "Failed to fetch place details"))
      && (reply.UpstreamOk? && reply.data.places.GetOr([]) == [] ==> r == ErrorResponse(404, "No places found"))
      && (reply.UpstreamOk? && reply.data.places.GetOr([]) != [] ==> r.PlacesPage?)
    // a page holds one record per place, in order
    ensures r.PlacesPage? ==>
      && (Truthy(query) || Truthy(pageToken)) && Truthy(apiKey)
      && var reply := fetch(BuildSearchRequest(query, pageToken, apiKey.value, encode));
      && reply.UpstreamOk?
      && 0 < |reply.data.places.GetOr([])| == |r.places|
      && (forall i :: 0 <= i < |r.places| ==> r.places[i] == MapPlace(reply.data.places.value[i], cl))
      && r.nextPageToken == reply.data.pageToken
  {
    if !Truthy(query) && !Truthy(pageToken) then ErrorResponse(400, "Query parameter is required")
    else if !Truthy(apiKey) then ErrorResponse(500, "API key is not configured")
    else
      match fetch(BuildSearchRequest(query, pageToken, apiKey.value, encode))
      case UpstreamThrew => ErrorResponse(500, "Failed to fetch place details")
      case UpstreamError(status) => ErrorResponse(status, "Failed to fetch places")
      case UpstreamOk(data) =>
        if data.places.None? || data.places.value == [] then ErrorResponse(404, "No places found")
        else PlacesPage(MapPlaces(data.places.value, cl), data.pageToken)
  }
}
