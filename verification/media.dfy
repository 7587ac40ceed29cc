/** The entities both curation scripts share: a discovered media item as the discovery feed
    returns it, the rating service's response and its interpretation, the acquisition request
    payload and outcome, one page of the feed, and the verdict of an inclusion filter.
    `get_imdb_rating` and `request_media` are the same in the two scripts apart from their
    logging, so they are defined once here. */
module Media {
  import opened Common

  /** One entry of a discovery feed. `None` stands for a key that is absent (or `null`).
      `imdbRating` is the field the first script adds to an item it accepts. */
  datatype Item = Item(
    mediaType: string,
    id: int,
    title: Option<string>,
    name: Option<string>,
    releaseDate: Option<string>,
    firstAirDate: Option<string>,
    originalLanguage: Option<string>,
    genreIds: seq<int>,
    overview: string,
    imdbRating: Option<real>)

  /** Python truthiness of an optional string: present and non-empty. */
  predicate Truthy(o: Option<string>) {
    o.Some? && o.value != ""
  }

  /** Python's `a or b` on optional strings: one of the two operands, truthy exactly when
      either operand is, and the first one whenever it is truthy. */
  function OrElse(a: Option<string>, b: Option<string>): (r: Option<string>)
    ensures r == a || r == b
    ensures Truthy(r) <==> Truthy(a) || Truthy(b)
    ensures Truthy(a) ==> r == a
    ensures !Truthy(a) ==> r == b
  {
    if Truthy(a) then a else b
  }

  /** The year argument of a rating lookup: the first script passes the parsed integer,
      the second the raw four-character prefix of the date. */
  datatype YearArg = YearNumber(year: int) | YearText(text: string)

  /** The `t` and `y` parameters of one rating lookup. */
  datatype Query = Query(title: Option<string>, year: YearArg)

  /** What one rating lookup yields: the call (or the JSON decoding) raised, or a JSON object
      whose `Response` and `imdbRating` entries may be absent. */
  datatype LookupResponse =
    | LookupRaised
    | LookupBody(response: Option<string>, imdbRating: Option<string>)

  /** `get_imdb_rating` once the HTTP call has been made: the score, or `None` ("unknown").
      `parseScore` is Python's `float()` on the rating text, `None` where it raises. */
  function ImdbScore(resp: LookupResponse, parseScore: string -> Option<real>): (r: Option<real>)
    ensures resp.LookupRaised? ==> r == None
    ensures resp.LookupBody? && resp.response != Some("True") ==> r == None
    ensures resp.LookupBody? && resp.imdbRating == Some("N/A") ==> r == None
    ensures resp.LookupBody? && resp.imdbRating == None ==> r == None
    ensures (resp.LookupBody? && resp.response == Some("True") && resp.imdbRating.Some? &&
             resp.imdbRating.value != "N/A") ==> r == parseScore(resp.imdbRating.value)
    ensures r.Some? ==>
      && resp.LookupBody?
      && resp.response == Some("True")
      && resp.imdbRating.Some?
      && resp.imdbRating.value != "N/A"
      && parseScore(resp.imdbRating.value) == r
  {
    match resp
    case LookupRaised => None
    case LookupBody(response, rating) =>
      if response == Some("True") then
        match rating
        // float(None) raises TypeError, which the handler turns into None
        case None => None
        case Some(text) => if text != "N/A" then parseScore(text) else None
      else
        None
  }

  /** A score that is present and at least `threshold`; "unknown" never qualifies. */
  predicate Meets(score: Option<real>, threshold: real) {
    score.Some? && score.value >= threshold
  }

  /** The JSON body of an acquisition request; `seasons` is absent unless set. */
  datatype Payload = Payload(mediaType: string, mediaId: int, seasons: Option<string>)

  function PayloadFor(m: Item): (p: Payload)
    ensures p.mediaType == m.mediaType && p.mediaId == m.id
    ensures p.seasons.Some? <==> m.mediaType == "tv"
    ensures p.seasons.Some? ==> p.seasons.value == "all"
  {
    Payload(m.mediaType, m.id, if m.mediaType == "tv" then Some("all") else None)
  }

  /** One acquisition request that was sent, and whether the service reported success. */
  datatype Dispatch = Dispatch(payload: Payload, succeeded: bool)

  /** `request_media`: post the payload; only status 200 or 201 counts as success. The status
      the request service answers with is `status(payload)`. */
  function RequestMedia(m: Item, status: Payload -> int): (d: Dispatch)
    ensures d.payload == PayloadFor(m)
    ensures d.succeeded <==> status(d.payload) in {200, 201}
  {
    var p := PayloadFor(m);
    Dispatch(p, status(p) == 200 || status(p) == 201)
  }

  /** The payload names the item it asks for: two items produce the same payload exactly when
      they agree on media type and id. */
  lemma PayloadIdentifiesRequest(a: Item, b: Item)
    ensures PayloadFor(a) == PayloadFor(b) <==> a.mediaType == b.mediaType && a.id == b.id
  {
    if PayloadFor(a) == PayloadFor(b) {
      assert PayloadFor(a).mediaType == a.mediaType;
    }
  }

  /** The requests sent for `items`, one per item, in order. */
  function RequestAll(items: seq<Item>, status: Payload -> int): (r: seq<Dispatch>)
    ensures |r| == |items|
    ensures forall i :: 0 <= i < |items| ==> r[i] == RequestMedia(items[i], status)
  {
    if items == [] then [] else [RequestMedia(items[0], status)] + RequestAll(items[1..], status)
  }

  lemma RequestAllConcat(a: seq<Item>, b: seq<Item>, status: Payload -> int)
    ensures RequestAll(a + b, status) == RequestAll(a, status) + RequestAll(b, status)
  {
    var l, r := RequestAll(a + b, status), RequestAll(a, status) + RequestAll(b, status);
    assert |l| == |r|;
    forall i | 0 <= i < |l|
      ensures l[i] == r[i]
    {
      if i < |a| {
        assert (a + b)[i] == a[i];
      } else {
        assert (a + b)[i] == b[i - |a|];
      }
    }
  }

  /** One page of a discovery feed: the fetch answered with a status other than 200, or the
      `results` list of its JSON body (empty when the key is absent). */
  datatype PageResponse = PageFailed | PageOk(results: seq<Item>)

  /** The language check: exact, case-sensitive equality; an absent language never matches. */
  predicate LanguageOk(m: Item, target: string) {
    m.originalLanguage == Some(target)
  }

  /** None of the item's genre ids is excluded. */
  ghost predicate GenresOk(m: Item, excluded: set<int>) {
    forall i :: 0 <= i < |m.genreIds| ==> m.genreIds[i] !in excluded
  }

  /** Python's `any(g in excluded for g in genres)`. */
  function SharesGenre(genres: seq<int>, excluded: set<int>): (r: bool)
    ensures r <==> exists i :: 0 <= i < |genres| && genres[i] in excluded
  {
    if genres == [] then
      false
    else
      var rest := SharesGenre(genres[1..], excluded);
      assert rest <==> exists i :: 1 <= i < |genres| && genres[i] in excluded by {
        if rest {
          var i :| 0 <= i < |genres[1..]| && genres[1..][i] in excluded;
          assert genres[i + 1] in excluded;
        }
      }
      genres[0] in excluded || rest
  }

  /** Why an inclusion filter rejected an item: the first check that failed. */
  datatype Reason = YearTooOld | WrongLanguage | ExcludedGenre | ExcludedKeyword | NoRating | LowRating

  datatype Verdict = Accept(score: real) | Reject(reason: Reason)

  /** The verdict of one filter evaluation and the rating lookups it issued (zero or one). */
  datatype Decision = Decision(verdict: Verdict, lookups: seq<Query>)
}
