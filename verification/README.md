# Jellyseerr top-media curation, modelled in Dafny

Two scripts log in to a Jellyseerr media-request server, page through one of its discovery feeds,
filter each discovered movie or show, check its IMDb rating with the OMDb service, and ask the
server to acquire every item that qualifies.

- `download_top_10_shows_movies_jellyseer.py` works per category: first "tv", then "movies".
  For each it pages through `discover/<category>`. The filter applies, in order: release year,
  original language, excluded genres, excluded keywords in the overview, and a minimum rating.
  Each accepted item is requested at once, and the first `TOP_N` accepted items are returned.
- `top_20_movies_shows_filtered.py` pages through the single `discover/trending` feed. The
  filter applies language, excluded genres and rating. Accepted items go into a movie bucket and
  a show bucket of at most 20 each, and an item is requested only when it enters a bucket.

The model is pure Dafny functions over immutable datatypes. Every outside effect is a parameter:
- login success is a boolean;
- each discovery page is a function from page number to `PageResponse`;
- each OMDb lookup is a function from `Query` to `LookupResponse`;
- Python's `float()` on the rating text is a function returning `Option<real>`;
- the request service's HTTP status is a function of the payload.

A run is then a value. It records the pages fetched, the rating lookups issued and the requests
sent, so each loop's contract can say exactly which pages it fetched, which items it kept and
what it sent.

Files:
- `common.dfy` (`Common`): `Option`, `Take` (Python `s[:n]`), and page ranges.
- `text.dfy` (`Text`): ASCII lower-casing, the substring test, and decimal numerals.
- `media.dfy` (`Media`): the entities both scripts share. `get_imdb_rating` and `request_media`
  are identical in the two scripts apart from their logging, so they are defined once here.
- `top_ten.dfy` (`TopTen`): the first script.
- `trending.dfy` (`Trending`): the second script.

Both collectors are proved against independent reference definitions:
- In `TopTen`, `AcceptedOf` is the items of a page that `should_include` accepts, built from the
  end of the page, and `FilterPassing` is the items that reach the rating lookup. A page scan
  keeps exactly the former and looks up exactly the latter. `Harvest` strings the pages
  together, and the loop's result is the harvest cut to `topN`. Each fetch happens only while
  fewer than `topN` items were kept, and the loop stops for one of three named reasons.
- In `Trending`, `Kept` and `Stream` define the accepted items of each type in feed order. Each
  bucket equals the first `cap` of those, and the buckets always agree with the append and
  request log. `Lookups` defines which items reach the rating lookup: those that stream past
  while a bucket still has room. `Admits` defines the append log across both types: the
  accepted items that find room in their bucket, in feed order.

For each script the loop's guarantees are gathered in one predicate, `CollectedFrom`. A lemma
(`TopTen.CollectionDetermined`, `Trending.OutcomeDetermined`) shows that two results meeting it
for the same services are equal, so the contract of each `Script` fixes its run completely.

Behaviour of the code that is easy to miss, and that the model keeps:
- The first script does not stop at a page with no results. It stops only when enough items are
  kept, the page budget is spent, or a fetch fails.
- The first script finishes a whole page before re-checking its target. It can therefore send
  more requests than `TOP_N` even though it returns only `TOP_N` items;
  `TopTen.RequestsCanExceedTarget` exhibits this.
- The first script collects shows before movies.
- The second script has no year or keyword filter.

## Model

| member | source | states |
|---|---|---|
| Common.Take | download_top_10_shows_movies_jellyseer.py:124 | `s[:n]` is a prefix of `s` whose length is the smaller of `n` and `len(s)` |
| Common.TakeOfLongPrefix | download_top_10_shows_movies_jellyseer.py:124 | once a list holds `n` items, appending more does not change its first `n` |
| Media.OrElse | top_20_movies_shows_filtered.py:39 | `a or b` is one of its operands; it is truthy exactly when either operand is; it is `a` whenever `a` is truthy and `b` otherwise |
| Media.ImdbScore | download_top_10_shows_movies_jellyseer.py:37-49 | the score is `float()` of the rating exactly when the call did not raise, `Response` is "True" and a rating other than "N/A" is present; in every other case there is no score |
| Media.PayloadFor | download_top_10_shows_movies_jellyseer.py:52-57 | the payload carries the item's media type and id, and has `seasons = "all"` exactly for "tv" |
| Media.RequestMedia | download_top_10_shows_movies_jellyseer.py:51-64 | the request posts the item's payload, and it succeeded exactly when the status is 200 or 201 |
| Media.PayloadIdentifiesRequest | download_top_10_shows_movies_jellyseer.py:52-57 | two items give the same payload if and only if they agree on media type and id |
| Media.RequestAll | download_top_10_shows_movies_jellyseer.py:119-120 | one request per item, the i-th for the i-th item |
| Media.RequestAllConcat | download_top_10_shows_movies_jellyseer.py:119-120 | requesting `a + b` is requesting `a` and then `b` |
| Media.SharesGenre | top_20_movies_shows_filtered.py:46 | `any(g in excluded for g in genres)` holds if and only if some genre id is excluded |
| Text.Lower | download_top_10_shows_movies_jellyseer.py:88 | lower-casing keeps the length and maps every character on its own |
| Text.Contains | download_top_10_shows_movies_jellyseer.py:89 | `k in s` holds if and only if `k` occurs in `s` at some index (the empty key occurs everywhere) |
| Text.ContainsAny | download_top_10_shows_movies_jellyseer.py:89 | `any(k in s for k in keys)` holds if and only if some key occurs in `s` |
| Text.NumeralValue | download_top_10_shows_movies_jellyseer.py:69 | the value of an n-digit numeral is below 10^n |
| Text.FourDigitsValue | download_top_10_shows_movies_jellyseer.py:69 | reading back the four-digit rendering of a year gives the year |
| TopTen.ParseYear | download_top_10_shows_movies_jellyseer.py:68-71 | `int(date[:4])` lies in 0..9999, and is 0 when the prefix is not a numeral |
| TopTen.ParseYearRoundTrip | download_top_10_shows_movies_jellyseer.py:67-71 | a date beginning with a four-digit year parses to that year, whatever follows |
| TopTen.YearOf | download_top_10_shows_movies_jellyseer.py:67-71 | the year comes from the first non-empty of release date and first-air date, and is 0 when both are empty or missing |
| TopTen.GenreIntersection | download_top_10_shows_movies_jellyseer.py:83-84 | `EXCLUDED_GENRES & set(genreIds)` is non-empty if and only if some genre id is excluded |
| TopTen.ShouldInclude | download_top_10_shows_movies_jellyseer.py:66-99 | accepted if and only if year, language, genres and keywords all pass and the rating is known and at least the minimum; the accepted score is the looked-up one; the rejection reason is the first failing check, and a rating rejection is "no rating" exactly when the rating is unknown and "low rating" exactly when it is below the minimum; one lookup exactly when the four cheap checks pass |
| TopTen.Annotate | download_top_10_shows_movies_jellyseer.py:98 | recording the rating sets it and changes nothing else |
| TopTen.JudgeOfIgnoresRating | download_top_10_shows_movies_jellyseer.py:66-97 | the filter's decision does not depend on a rating already recorded on the item |
| TopTen.ScanPageRated | download_top_10_shows_movies_jellyseer.py:114-118 | every item a page keeps carries a rating, and the filter accepts it with exactly that score |
| TopTen.ScanPageSound | download_top_10_shows_movies_jellyseer.py:114-118 | every item a page keeps passes the year, language, genre and keyword checks and carries a rating at least the minimum |
| TopTen.ScanPageLookups | download_top_10_shows_movies_jellyseer.py:114-115 | a page's rating queries are those of the items that pass the year, language, genre and keyword checks, one each, in page order |
| TopTen.AcceptedOfConcat | download_top_10_shows_movies_jellyseer.py:114-118 | the accepted items of `a + c` are those of `a` followed by those of `c` |
| TopTen.ScanPageAccepted | download_top_10_shows_movies_jellyseer.py:114-118 | a page keeps exactly the items the filter accepts, each with its score recorded, in page order |
| TopTen.FeedOfAgrees | download_top_10_shows_movies_jellyseer.py:106-118 | a category's fetch fails exactly when the discover call does; otherwise the page contributes the items `should_include` accepts and the queries of the items that reach the rating check |
| TopTen.GatherPages | download_top_10_shows_movies_jellyseer.py:103-122 | the loop fetches consecutive pages from its cursor and none above `MAX_PAGES` |
| TopTen.GatherAccumulates | download_top_10_shows_movies_jellyseer.py:105-122 | the accumulated list is what the reference harvest of the fetched pages yields, in page order |
| TopTen.GatherLookups | download_top_10_shows_movies_jellyseer.py:114-115 | the rating lookups issued are those of the fetched pages, in page order |
| TopTen.GatherDispatches | download_top_10_shows_movies_jellyseer.py:114-120 | one request per accumulated item in order, and none when requests are disabled |
| TopTen.GatherStops | download_top_10_shows_movies_jellyseer.py:105-109 | a page is fetched only while fewer than `TOP_N` items are kept; only the last fetch may have failed; the loop ends with enough items, with the budget spent, or on a failed fetch |
| TopTen.StartPages | download_top_10_shows_movies_jellyseer.py:103-122 | from page 1 the loop fetches pages 1, 2, ..., all within `1 .. MAX_PAGES` |
| TopTen.StartHarvest | download_top_10_shows_movies_jellyseer.py:105-122 | from page 1 the accumulated items and the lookups are the harvest of the fetched pages |
| TopTen.GetTopMedia | download_top_10_shows_movies_jellyseer.py:101-124 | fetches pages 1, 2, ... up to at most `MAX_PAGES`, each only while fewer than `TOP_N` items are kept; the result is the harvest cut to `TOP_N`; requests match the harvest when enabled; a short result means the budget was spent or the last fetch (not page 0) failed; `TOP_N = 0` fetches nothing |
| TopTen.CollectionDetermined | download_top_10_shows_movies_jellyseer.py:101-124 | two collections that both meet everything `get_top_media` guarantees for the same feed are equal: the guarantees leave no freedom in which pages are fetched, what is kept or what is sent |
| TopTen.FirstPageSuffices | download_top_10_shows_movies_jellyseer.py:105-122 | when page 1 succeeds and alone keeps at least `TOP_N` items, exactly page 1 is fetched and what it keeps is everything accumulated |
| TopTen.FetchLogInRange | download_top_10_shows_movies_jellyseer.py:130-131 | a run's fetches stay within `1 .. MAX_PAGES` when each category's do |
| TopTen.Script | download_top_10_shows_movies_jellyseer.py:126-131 | a failed login fetches and requests nothing; otherwise the shows are collected from the "tv" feed and the movies from the "movies" feed, each meeting everything `get_top_media` guarantees (which fixes the collection); every page is in range; and the requests are the shows' then the movies' accumulated items when enabled, and none otherwise |
| TopTen.FilmAccepted | download_top_10_shows_movies_jellyseer.py:66-99 | an English 2020 film with a known 8.1 rating and no excluded genre or keyword is accepted with score 8.1 |
| TopTen.RequestsCanExceedTarget | download_top_10_shows_movies_jellyseer.py:105-124 | with a target of one and two qualifying films on page 1, one page is fetched and one item returned, but two requests are sent |
| Trending.YearTextOf | top_20_movies_shows_filtered.py:40 | the year text is the first four characters (or fewer) of the release date if present, else of the first-air date, else "0" |
| Trending.ShouldInclude | top_20_movies_shows_filtered.py:38-61 | accepted if and only if language and genres pass and the rating is known and at least the minimum; the rejection reason is the first failing check; a lookup exactly when language and genres pass |
| Trending.FailedFetchEndsLoop | top_20_movies_shows_filtered.py:92-95 | a page whose fetch failed is the last page the loop fetches |
| Trending.Offer | top_20_movies_shows_filtered.py:101-110 | an item enters a bucket and is requested exactly when it is accepted, of type "movie" or "tv", and that bucket has room; otherwise the buckets and requests are unchanged |
| Trending.OfferCoherent | top_20_movies_shows_filtered.py:101-110 | each bucket stays equal to the appended items of its type, within `cap`, with one request per appended item |
| Trending.OfTypeSplit | top_20_movies_shows_filtered.py:104-110 | a log of movies and shows has as many entries as its movies and its shows together |
| Trending.ScanCoherent | top_20_movies_shows_filtered.py:97-110 | a whole page keeps the buckets coherent with the append and request log |
| Trending.KeptConcat | top_20_movies_shows_filtered.py:97-110 | the accepted items of a type in `a + c` are those of `a` followed by those of `c` |
| Trending.OfferGreedy | top_20_movies_shows_filtered.py:101-110 | after one item, each bucket is the first `cap` accepted items of its type seen so far |
| Trending.ScanGreedy | top_20_movies_shows_filtered.py:97-110 | after a page, early break included, each bucket is the first `cap` accepted items of its type seen so far |
| Trending.LookupsSaturated | top_20_movies_shows_filtered.py:97-99 | once both buckets of the greedy selection are full, no further item is looked up |
| Trending.ScanLookups | top_20_movies_shows_filtered.py:97-102 | a page, early break included, makes exactly the lookups of the items it reaches before both buckets are full |
| Trending.AdmitsSaturated | top_20_movies_shows_filtered.py:97-99 | once both buckets of the greedy selection are full, nothing more is appended |
| Trending.AdmitsSplits | top_20_movies_shows_filtered.py:104-110 | the movies of the reference append log are the first `cap` accepted movies, and its shows the first `cap` accepted shows |
| Trending.OfferAppends | top_20_movies_shows_filtered.py:101-110 | one item appends to the log exactly what the reference predicts: the item, when accepted and its type's bucket has room |
| Trending.ScanAppends | top_20_movies_shows_filtered.py:97-110 | a page, early break included, appends exactly the accepted items that find room, across both types, in page order |
| Trending.GreedyAccepted | top_20_movies_shows_filtered.py:101-110 | buckets that hold the greedy selection hold only accepted items of their own type |
| Trending.InnerLoopCoherent | top_20_movies_shows_filtered.py:97-110 | running the inner loop over any page keeps the buckets coherent with the append and request log |
| Trending.InnerLoopGreedy | top_20_movies_shows_filtered.py:97-110 | running the inner loop over any page keeps each bucket equal to the first `cap` accepted items of its type seen so far |
| Trending.InnerLoopLookups | top_20_movies_shows_filtered.py:97-102 | running the inner loop over any page keeps the lookup log equal to the reference's |
| Trending.InnerLoopAppends | top_20_movies_shows_filtered.py:97-110 | running the inner loop over any page keeps the append log equal to the reference's |
| Trending.CollectPreserves | top_20_movies_shows_filtered.py:92-112 | any property of the buckets and the items seen that the inner loop keeps, the outer loop keeps over the stream of the pages it fetched |
| Trending.CollectPages | top_20_movies_shows_filtered.py:91-112 | the loop fetches consecutive pages from its cursor and none above the page budget |
| Trending.CollectEnds | top_20_movies_shows_filtered.py:92-95 | every page fetched before the last yielded items; the loop ends with both buckets full, with the budget spent, or on an empty page |
| Trending.CollectRoom | top_20_movies_shows_filtered.py:92 | a page is fetched only while the greedy selection so far leaves a bucket with room |
| Trending.StartGreedy | top_20_movies_shows_filtered.py:90-112 | from page 1, each bucket ends as the first `cap` accepted items of its type in the fetched pages, in feed order |
| Trending.StartStops | top_20_movies_shows_filtered.py:90-95 | from page 1, pages are fetched only while a bucket has room, and the loop ends for one of the three stop reasons |
| Trending.StartCoherent | top_20_movies_shows_filtered.py:90-112 | from page 1 with empty buckets the buckets end coherent with the append and request log |
| Trending.StartPages | top_20_movies_shows_filtered.py:91-112 | from page 1 the loop fetches pages 1, 2, ... and none above the budget |
| Trending.StartLookups | top_20_movies_shows_filtered.py:90-112 | from page 1 the lookups are those of the items that streamed past while a bucket had room |
| Trending.StartAppends | top_20_movies_shows_filtered.py:90-112 | from page 1 the append log is the reference's for the fetched stream, so movies and shows interleave in feed order |
| Trending.BucketsAccepted | top_20_movies_shows_filtered.py:101-110 | every item in a bucket has its bucket's type and was accepted by `should_include` |
| Trending.CollectTrending | top_20_movies_shows_filtered.py:90-113 | from page 1: consecutive pages within the budget, each fetched only while a bucket has room; buckets equal the first `cap` accepted movies and shows of the fetched stream; the append log (and so the request order) is the reference's; the lookups are those of the items that streamed past while a bucket had room; and one of the three stop reasons holds |
| Trending.OutcomeDetermined | top_20_movies_shows_filtered.py:90-113 | two outcomes that both meet everything the loop guarantees for the same environment are equal: the guarantees fix the pages fetched, the buckets, the append and request log and the lookups |
| Trending.Script | top_20_movies_shows_filtered.py:86-113 | a failed login does nothing; otherwise the outcome meets everything the loop guarantees for the script's filter and feed (which fixes it); each bucket holds at most `cap` items, all of its type and all accepted by the filter; only movies and shows are appended, each to its own bucket and every one to exactly one; exactly the appended items were requested, in order; and every page is in range |

## Left out

- HTTP, JSON decoding, URLs, the API key, credentials from the environment, logging, and the
  half-second sleep. These are effects with no bearing on which items are kept. Each service
  answer is a parameter instead.
- Python's `float()` on the rating text is a parameter (`parseScore`). Floating-point rounding,
  NaN and infinities are not modelled; scores are `real`.
- Exceptions that end a script: a missing `mediaType` or `id` key (`KeyError`), a non-JSON
  server body, and network errors during login, discovery or a request. Only the OMDb lookup
  catches its exceptions (`LookupRaised`).
- JSON `null` and an absent key are both `None`. The second script's
  `media.get("releaseDate", ...)[:4]` raises on a `null` date; the model treats that like an
  absent one.
- Dates, titles and overviews are assumed to be strings. Non-string JSON values are not modelled.
- A `null` `genreIds` raises an uncaught `TypeError` in both filters
  (download_top_10_shows_movies_jellyseer.py:83, top_20_movies_shows_filtered.py:46), and so does
  a `null` `results` list in the first script (download_top_10_shows_movies_jellyseer.py:111-114).
  `genreIds` is a sequence and `PageOk` carries a sequence, so neither crash can be expressed.
- The rating service and the request service are pure functions of the query and of the payload.
  Two lookups of the same title and year therefore always agree, for instance a title that
  appears on two trending pages; the live services need not.
- TopTen.ParseYear: reads `date[:4]` only when it is a non-empty run of ASCII digits (one to four
  of them, so "123" gives 123), and gives 0 otherwise. Python's `int()` also accepts surrounding
  whitespace, a sign, underscores and non-ASCII digits. A four-character prefix with such
  characters has at most three ASCII digits, so its value is below 1000 and fails the year
  check exactly as 0 does for any minimum year of 1000 or more. Non-ASCII digits are the
  exception.
- Text.Lower: lower-cases ASCII letters only. `str.lower()` also maps non-ASCII letters; the
  excluded keywords are plain ASCII.
- The filter's log lines and the final counts printed by each `main` are not modelled.
