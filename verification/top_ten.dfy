/** The first curation script: log in, then for each category ("tv", then "movies") page through
    the discover feed, keep the items that pass the year, language, genre, keyword and rating
    checks, request each kept item as soon as it is kept, and report the first `topN` kept. */
module TopTen {
  import opened Common
  import opened Media
  import Text

  /** The configuration constants of the script. */
  datatype Settings = Settings(
    minScore: real,
    targetLanguage: string,
    excludedGenres: set<int>,
    excludedKeywords: seq<string>,
    minYear: int,
    topN: nat,
    maxPages: int,
    enableRequests: bool)

  /** The values the script ships with. */
  const Configured := Settings(
    7.0, "en", {99, 10767, 10763, 35, 10764}, ["wrestling", "soap opera", "soap"],
    2000, 10, 300, true)

  /** Everything the script learns from outside: whether login succeeded, the discover feed's
      answer for a category and page, the rating service's answer for a query, `float()` on a
      rating text, and the request service's status for a payload. */
  datatype Services = Services(
    loginOk: bool,
    discover: (string, int) -> PageResponse,
    omdb: Query -> LookupResponse,
    parseScore: string -> Option<real>,
    requestStatus: Payload -> int)

  // ---------------------------------------------------------------- year

  /** `int(date[:4])`, with 0 when the prefix is not a decimal numeral. */
  function ParseYear(date: string): (y: int)
    ensures 0 <= y < 10000
    ensures !Text.IsNumeral(Take(date, 4)) ==> y == 0
  {
    var prefix := Take(date, 4);
    if Text.IsNumeral(prefix) then Text.NumeralValue(prefix) else 0
  }

  /** The date the year is read from: `releaseDate or firstAirDate or "0000"`. */
  function DateSource(m: Item): string {
    if Truthy(m.releaseDate) then m.releaseDate.value
    else if Truthy(m.firstAirDate) then m.firstAirDate.value
    else "0000"
  }

  function YearOf(m: Item): (y: int)
    ensures 0 <= y < 10000
    ensures Truthy(m.releaseDate) ==> y == ParseYear(m.releaseDate.value)
    ensures !Truthy(m.releaseDate) && Truthy(m.firstAirDate) ==> y == ParseYear(m.firstAirDate.value)
    ensures !Truthy(m.releaseDate) && !Truthy(m.firstAirDate) ==> y == 0
  {
    var d := DateSource(m);
    ParseYearRoundTrip(0, "");
    assert Text.FourDigits(0) + "" == "0000";
    ParseYear(d)
  }

  /** A date that starts with a four-digit year gives back that year, whatever follows it. */
  lemma {:induction false} ParseYearRoundTrip(y: nat, rest: string)
    requires y < 10000
    ensures ParseYear(Text.FourDigits(y) + rest) == y
  {
    var d := Text.FourDigits(y) + rest;
    assert Take(d, 4) == Text.FourDigits(y);
    Text.FourDigitsValue(y);
  }

  // ---------------------------------------------------------------- filter

  /** The title sent to the rating service: `title` for the "movies" category, `name` otherwise. */
  function TitleFor(m: Item, category: string): Option<string> {
    if category == "movies" then m.title else m.name
  }

  function QueryFor(m: Item, category: string): Query {
    Query(TitleFor(m, category), YearNumber(YearOf(m)))
  }

  /** The score the rating service yields for the item. */
  function RatingFor(m: Item, category: string, svc: Services): Option<real> {
    ImdbScore(svc.omdb(QueryFor(m, category)), svc.parseScore)
  }

  predicate YearOk(m: Item, s: Settings) {
    YearOf(m) >= s.minYear
  }

  /** No excluded keyword occurs in the lower-cased overview. */
  ghost predicate KeywordsOk(m: Item, s: Settings) {
    forall j :: 0 <= j < |s.excludedKeywords| ==> !Text.Occurs(s.excludedKeywords[j], Text.Lower(m.overview))
  }

  /** The four checks that come before the rating lookup. */
  ghost predicate PassesFilters(m: Item, s: Settings) {
    && YearOk(m, s)
    && LanguageOk(m, s.targetLanguage)
    && GenresOk(m, s.excludedGenres)
    && KeywordsOk(m, s)
  }

  /** The set intersection `EXCLUDED_GENRES & set(genreIds)` is non-empty exactly when some
      genre id is excluded, the test the second script writes as `any(...)`. */
  lemma {:induction false} GenreIntersection(genres: seq<int>, excluded: set<int>)
    ensures excluded * (set g | g in genres) != {} <==> SharesGenre(genres, excluded)
  {
    if genres != [] {
      GenreIntersection(genres[1..], excluded);
      var all, rest := set g | g in genres, set g | g in genres[1..];
      assert all == {genres[0]} + rest;
      if genres[0] in excluded {
        assert genres[0] in excluded * all;
      } else {
        assert excluded * all == excluded * rest;
      }
    }
  }

  /** `should_include`: the checks in their fixed order, stopping at the first failure; the
      rating service is asked only once every cheaper check has passed. */
  function ShouldInclude(m: Item, category: string, s: Settings, svc: Services): (d: Decision)
    ensures d.verdict.Accept? <==> PassesFilters(m, s) && Meets(RatingFor(m, category, svc), s.minScore)
    ensures d.verdict.Accept? ==> RatingFor(m, category, svc) == Some(d.verdict.score)
    ensures d.lookups == if PassesFilters(m, s) then [QueryFor(m, category)] else []
    ensures d.verdict == Reject(YearTooOld) <==> !YearOk(m, s)
    ensures d.verdict == Reject(WrongLanguage) <==> YearOk(m, s) && !LanguageOk(m, s.targetLanguage)
    ensures d.verdict == Reject(ExcludedGenre) <==>
      YearOk(m, s) && LanguageOk(m, s.targetLanguage) && !GenresOk(m, s.excludedGenres)
    ensures d.verdict == Reject(ExcludedKeyword) <==>
      YearOk(m, s) && LanguageOk(m, s.targetLanguage) && GenresOk(m, s.excludedGenres) && !KeywordsOk(m, s)
    ensures d.verdict == Reject(NoRating) <==> PassesFilters(m, s) && RatingFor(m, category, svc).None?
    ensures d.verdict == Reject(LowRating) <==>
      PassesFilters(m, s) && RatingFor(m, category, svc).Some? && RatingFor(m, category, svc).value < s.minScore
  {
    GenreIntersection(m.genreIds, s.excludedGenres);
    if YearOf(m) < s.minYear then
      Decision(Reject(YearTooOld), [])
    else if m.originalLanguage != Some(s.targetLanguage) then
      Decision(Reject(WrongLanguage), [])
    else if s.excludedGenres * (set g | g in m.genreIds) != {} then
      Decision(Reject(ExcludedGenre), [])
    else if Text.ContainsAny(Text.Lower(m.overview), s.excludedKeywords) then
      Decision(Reject(ExcludedKeyword), [])
    else
      var q := QueryFor(m, category);
      var score := ImdbScore(svc.omdb(q), svc.parseScore);
      if score.None? then
        Decision(Reject(NoRating), [q])
      else if score.value < s.minScore then
        Decision(Reject(LowRating), [q])
      else
        Decision(Accept(score.value), [q])
  }

  /** `media["imdb_rating"] = score`: the rating is recorded and nothing else changes. */
  function Annotate(m: Item, score: real): (r: Item)
    ensures r.imdbRating == Some(score)
    ensures r.(imdbRating := m.imdbRating) == m
  {
    m.(imdbRating := Some(score))
  }

  // ---------------------------------------------------------------- one page

  /** The filter as the page loop sees it: the decision for an item. */
  type Judge = Item -> Decision

  /** `should_include` for one category. */
  function JudgeOf(category: string, s: Settings, svc: Services): Judge {
    m => ShouldInclude(m, category, s, svc)
  }

  /** The decision does not depend on a rating already recorded on the item. */
  ghost predicate IgnoresRating(judge: Judge) {
    forall m: Item, x: Option<real> :: judge(m.(imdbRating := x)) == judge(m)
  }

  /** `should_include` reads every field but the recorded rating. */
  lemma JudgeOfIgnoresRating(category: string, s: Settings, svc: Services)
    ensures IgnoresRating(JudgeOf(category, s, svc))
  {
    forall m: Item, x: Option<real>
      ensures ShouldInclude(m.(imdbRating := x), category, s, svc) == ShouldInclude(m, category, s, svc)
    {
      var k := m.(imdbRating := x);
      assert DateSource(k) == DateSource(m);
      assert QueryFor(k, category) == QueryFor(m, category);
    }
  }

  /** The items a page contributes (annotated with their rating) and the lookups it causes. */
  datatype PageScan = PageScan(accepted: seq<Item>, lookups: seq<Query>)

  /** The inner `for media in media_list` loop: every item on the page is evaluated, and each
      accepted one is kept with its rating recorded. */
  function ScanPage(items: seq<Item>, judge: Judge): (r: PageScan)
    ensures |r.accepted| <= |items|
  {
    if items == [] then
      PageScan([], [])
    else
      var d := judge(items[0]);
      var rest := ScanPage(items[1..], judge);
      var kept := if d.verdict.Accept? then [Annotate(items[0], d.verdict.score)] else [];
      PageScan(kept + rest.accepted, d.lookups + rest.lookups)
  }

  /** Every kept item carries a rating, and the filter accepts it with exactly that score. */
  lemma {:induction false} ScanPageRated(items: seq<Item>, judge: Judge)
    requires IgnoresRating(judge)
    ensures var r := ScanPage(items, judge);
      forall i :: 0 <= i < |r.accepted| ==>
        r.accepted[i].imdbRating.Some? && judge(r.accepted[i]).verdict == Accept(r.accepted[i].imdbRating.value)
  {
    if items != [] {
      ScanPageRated(items[1..], judge);
      assert var rr := ScanPage(items[1..], judge); forall i :: 0 <= i < |rr.accepted| ==>
        rr.accepted[i].imdbRating.Some? && judge(rr.accepted[i]).verdict == Accept(rr.accepted[i].imdbRating.value);
      var d := judge(items[0]);
      var r, rest := ScanPage(items, judge), ScanPage(items[1..], judge);
      if d.verdict.Accept? {
        var k := Annotate(items[0], d.verdict.score);
        assert judge(k) == d;
        assert r.accepted == [k] + rest.accepted;
        forall i | 0 < i < |r.accepted|
          ensures r.accepted[i] == rest.accepted[i - 1]
        {
        }
      } else {
        assert r.accepted == rest.accepted;
      }
    }
  }

  /** Every kept item passed the four cheap checks and carries a rating at or above the
      threshold. */
  lemma ScanPageSound(items: seq<Item>, category: string, s: Settings, svc: Services)
    ensures var r := ScanPage(items, JudgeOf(category, s, svc));
      forall i :: 0 <= i < |r.accepted| ==>
        PassesFilters(r.accepted[i], s) && Meets(r.accepted[i].imdbRating, s.minScore)
  {
    var judge := JudgeOf(category, s, svc);
    var r := ScanPage(items, judge);
    JudgeOfIgnoresRating(category, s, svc);
    ScanPageRated(items, judge);
    assert var rr := ScanPage(items, judge); forall i :: 0 <= i < |rr.accepted| ==>
      rr.accepted[i].imdbRating.Some? && judge(rr.accepted[i]).verdict == Accept(rr.accepted[i].imdbRating.value);
    forall i | 0 <= i < |r.accepted|
      ensures PassesFilters(r.accepted[i], s) && Meets(r.accepted[i].imdbRating, s.minScore)
    {
      var k := r.accepted[i];
      assert ShouldInclude(k, category, s, svc).verdict == Accept(k.imdbRating.value);
    }
  }

  /** Reference definition: the items of a page that pass the four checks before the lookup. */
  ghost function FilterPassing(items: seq<Item>, s: Settings): seq<Item> {
    if items == [] then []
    else (if PassesFilters(items[0], s) then [items[0]] else []) + FilterPassing(items[1..], s)
  }

  /** The rating queries for `items` in a category, one per item, in order. */
  function QueriesOf(items: seq<Item>, category: string): (r: seq<Query>)
    ensures |r| == |items|
    ensures forall i :: 0 <= i < |items| ==> r[i] == QueryFor(items[i], category)
  {
    if items == [] then [] else [QueryFor(items[0], category)] + QueriesOf(items[1..], category)
  }

  /** A page asks the rating service about exactly the items that pass the four checks before
      the lookup, one query each, in page order. */
  lemma {:induction false} ScanPageLookups(items: seq<Item>, category: string, s: Settings, svc: Services)
    ensures ScanPage(items, JudgeOf(category, s, svc)).lookups == QueriesOf(FilterPassing(items, s), category)
  {
    if items != [] {
      ScanPageLookups(items[1..], category, s, svc);
      var rest := FilterPassing(items[1..], s);
      if PassesFilters(items[0], s) {
        assert FilterPassing(items, s) == [items[0]] + rest;
        assert ([items[0]] + rest)[1..] == rest;
      } else {
        assert FilterPassing(items, s) == rest;
      }
    }
  }

  /** Reference definition, built from the end of the page: the items the judge accepts, each
      with its score recorded, in page order. */
  ghost function AcceptedOf(items: seq<Item>, judge: Judge): seq<Item> {
    if items == [] then []
    else
      var last := items[|items| - 1];
      var d := judge(last);
      AcceptedOf(items[..|items| - 1], judge) + (if d.verdict.Accept? then [Annotate(last, d.verdict.score)] else [])
  }

  lemma {:induction false} AcceptedOfConcat(a: seq<Item>, c: seq<Item>, judge: Judge)
    ensures AcceptedOf(a + c, judge) == AcceptedOf(a, judge) + AcceptedOf(c, judge)
    decreases |c|
  {
    if c != [] {
      assert (a + c)[..|a + c| - 1] == a + c[..|c| - 1];
      assert (a + c)[|a + c| - 1] == c[|c| - 1];
      AcceptedOfConcat(a, c[..|c| - 1], judge);
    } else {
      assert a + c == a;
    }
  }

  /** A page keeps exactly the items the judge accepts, in page order, none dropped. */
  lemma {:induction false} ScanPageAccepted(items: seq<Item>, judge: Judge)
    ensures ScanPage(items, judge).accepted == AcceptedOf(items, judge)
  {
    if items != [] {
      ScanPageAccepted(items[1..], judge);
      AcceptedOfConcat([items[0]], items[1..], judge);
      assert [items[0]] + items[1..] == items;
      assert [items[0]][..0] == [];
    }
  }

  // ---------------------------------------------------------------- collector

  /** A discover feed as the loop sees it: whether fetching page `p` failed, and what the page
      contributes when it did not. */
  datatype Feed = Feed(failed: int -> bool, scan: int -> PageScan)

  /** The feed of one category: a fetch fails on a status other than 200, and a fetched page
      contributes what `ScanPage` keeps of its results. */
  function FeedOf(category: string, s: Settings, svc: Services): Feed {
    Feed(
      p => svc.discover(category, p).PageFailed?,
      p => match svc.discover(category, p)
           case PageFailed => PageScan([], [])
           case PageOk(items) => ScanPage(items, JudgeOf(category, s, svc)))
  }

  /** Reference definition: everything pages `lo .. hi - 1` contribute, in page order; a failed
      page contributes nothing. */
  function Harvest(feed: Feed, lo: int, hi: int): PageScan
    decreases hi - lo
  {
    if lo >= hi then PageScan([], [])
    else
      var first := if feed.failed(lo) then PageScan([], []) else feed.scan(lo);
      var rest := Harvest(feed, lo + 1, hi);
      PageScan(first.accepted + rest.accepted, first.lookups + rest.lookups)
  }

  lemma HarvestFirst(feed: Feed, lo: int, hi: int)
    requires lo < hi && !feed.failed(lo)
    ensures Harvest(feed, lo, hi).accepted == feed.scan(lo).accepted + Harvest(feed, lo + 1, hi).accepted
  {
  }

  /** The outcome of `get_top_media`: the returned list, everything accumulated (which may be
      longer), the page numbers fetched, the rating lookups and the requests sent. */
  datatype Collection = Collection(
    items: seq<Item>,
    accumulated: seq<Item>,
    fetched: seq<int>,
    lookups: seq<Query>,
    dispatched: seq<Dispatch>)

  /** The requests sent for the items a page kept: one each, unless requests are disabled. */
  function Sent(kept: seq<Item>, s: Settings, status: Payload -> int): seq<Dispatch> {
    if s.enableRequests then RequestAll(kept, status) else []
  }

  lemma SentConcat(a: seq<Item>, b: seq<Item>, s: Settings, status: Payload -> int)
    ensures Sent(a + b, s, status) == Sent(a, s, status) + Sent(b, s, status)
  {
    RequestAllConcat(a, b, status);
  }

  lemma SentAfter(dispatched: seq<Dispatch>, a: seq<Item>, b: seq<Item>, s: Settings, status: Payload -> int)
    ensures dispatched + Sent(a, s, status) + Sent(b, s, status) == dispatched + Sent(a + b, s, status)
  {
    SentConcat(a, b, s, status);
  }

  /** The `while` loop of `get_top_media`, entered with cursor `page` and the state so far. */
  function Gather(feed: Feed, s: Settings, status: Payload -> int, page: int,
                  acc: seq<Item>, fetched: seq<int>, lookups: seq<Query>, dispatched: seq<Dispatch>)
    : (r: Collection)
    ensures |r.fetched| >= |fetched|
    ensures r.items == Take(r.accumulated, s.topN)
    decreases s.maxPages + 1 - page
  {
    if |acc| < s.topN && page <= s.maxPages then
      if feed.failed(page) then
        Collection(Take(acc, s.topN), acc, fetched + [page], lookups, dispatched)
      else
        var scan := feed.scan(page);
        Gather(feed, s, status, page + 1, acc + scan.accepted, fetched + [page],
               lookups + scan.lookups, dispatched + Sent(scan.accepted, s, status))
    else
      Collection(Take(acc, s.topN), acc, fetched, lookups, dispatched)
  }

  /** The number of pages the loop fetches from cursor `page` on. */
  function Fetches(feed: Feed, s: Settings, status: Payload -> int, page: int,
                   acc: seq<Item>, fetched: seq<int>, lookups: seq<Query>, dispatched: seq<Dispatch>): nat
  {
    |Gather(feed, s, status, page, acc, fetched, lookups, dispatched).fetched| - |fetched|
  }

  /** One turn of the loop that fetches a page that did not fail: the loop carries on from the
      next page with the page's contribution added. */
  lemma GatherUnfold(feed: Feed, s: Settings, status: Payload -> int, page: int,
                     acc: seq<Item>, fetched: seq<int>, lookups: seq<Query>, dispatched: seq<Dispatch>)
      returns (acc': seq<Item>, fetched': seq<int>, lookups': seq<Query>, dispatched': seq<Dispatch>)
    requires |acc| < s.topN && page <= s.maxPages && !feed.failed(page)
    ensures acc' == acc + feed.scan(page).accepted && fetched' == fetched + [page]
    ensures lookups' == lookups + feed.scan(page).lookups
    ensures dispatched' == dispatched + Sent(feed.scan(page).accepted, s, status)
    ensures Gather(feed, s, status, page, acc, fetched, lookups, dispatched)
      == Gather(feed, s, status, page + 1, acc', fetched', lookups', dispatched')
    ensures Fetches(feed, s, status, page, acc, fetched, lookups, dispatched)
      == Fetches(feed, s, status, page + 1, acc', fetched', lookups', dispatched') + 1
  {
    var scan := feed.scan(page);
    acc', fetched' := acc + scan.accepted, fetched + [page];
    lookups', dispatched' := lookups + scan.lookups, dispatched + Sent(scan.accepted, s, status);
  }

  /** The loop fetches consecutive pages from `page` on and never one above `maxPages`. */
  lemma {:induction false} GatherPages(feed: Feed, s: Settings, status: Payload -> int, page: int,
                  acc: seq<Item>, fetched: seq<int>, lookups: seq<Query>, dispatched: seq<Dispatch>)
    ensures var r := Gather(feed, s, status, page, acc, fetched, lookups, dispatched);
      var n := Fetches(feed, s, status, page, acc, fetched, lookups, dispatched);
      r.fetched == fetched + Pages(page, page + n) && (n == 0 || page + n - 1 <= s.maxPages)
    decreases s.maxPages + 1 - page, 1
  {
    var r := Gather(feed, s, status, page, acc, fetched, lookups, dispatched);
    var n := Fetches(feed, s, status, page, acc, fetched, lookups, dispatched);
    if |acc| < s.topN && page <= s.maxPages && !feed.failed(page) {
      GatherPagesStep(feed, s, status, page, acc, fetched, lookups, dispatched);
    } else if |acc| < s.topN && page <= s.maxPages {
      assert n == 1;
      assert Pages(page, page + 1) == [page];
    } else {
      assert n == 0;
    }
  }

  /** The turn of `GatherPages` that fetches a page that did not fail. */
  lemma {:induction false} GatherPagesStep(feed: Feed, s: Settings, status: Payload -> int, page: int,
                      acc: seq<Item>, fetched: seq<int>, lookups: seq<Query>, dispatched: seq<Dispatch>)
    requires |acc| < s.topN && page <= s.maxPages && !feed.failed(page)
    ensures var r := Gather(feed, s, status, page, acc, fetched, lookups, dispatched);
      var n := Fetches(feed, s, status, page, acc, fetched, lookups, dispatched);
      r.fetched == fetched + Pages(page, page + n) && (n == 0 || page + n - 1 <= s.maxPages)
    decreases s.maxPages + 1 - page, 0
  {
    var r := Gather(feed, s, status, page, acc, fetched, lookups, dispatched);
    var n := Fetches(feed, s, status, page, acc, fetched, lookups, dispatched);
    var scan := feed.scan(page);
    var acc', fetched', lookups', dispatched' :=
      GatherUnfold(feed, s, status, page, acc, fetched, lookups, dispatched);
    GatherPages(feed, s, status, page + 1, acc', fetched', lookups', dispatched');
    var n' := Fetches(feed, s, status, page + 1, acc', fetched', lookups', dispatched');
    PagesAfter(fetched, page, page + n);
  }

  /** What the loop accumulates is exactly what the reference definition says the fetched
      pages yield, in page order. */
  lemma {:induction false} GatherAccumulates(feed: Feed, s: Settings, status: Payload -> int, page: int,
                  acc: seq<Item>, fetched: seq<int>, lookups: seq<Query>, dispatched: seq<Dispatch>)
    ensures var r := Gather(feed, s, status, page, acc, fetched, lookups, dispatched);
      var n := Fetches(feed, s, status, page, acc, fetched, lookups, dispatched);
      r.accumulated == acc + Harvest(feed, page, page + n).accepted
    decreases s.maxPages + 1 - page, 1
  {
    var r := Gather(feed, s, status, page, acc, fetched, lookups, dispatched);
    var n := Fetches(feed, s, status, page, acc, fetched, lookups, dispatched);
    if |acc| < s.topN && page <= s.maxPages && !feed.failed(page) {
      GatherAccumulatesStep(feed, s, status, page, acc, fetched, lookups, dispatched);
    } else if |acc| < s.topN && page <= s.maxPages {
      assert n == 1;
      assert Harvest(feed, page, page + 1).accepted == [];
    } else {
      assert n == 0;
    }
  }

  /** The turn of `GatherAccumulates` that fetches a page that did not fail. */
  lemma {:induction false} GatherAccumulatesStep(feed: Feed, s: Settings, status: Payload -> int, page: int,
                      acc: seq<Item>, fetched: seq<int>, lookups: seq<Query>, dispatched: seq<Dispatch>)
    requires |acc| < s.topN && page <= s.maxPages && !feed.failed(page)
    ensures var r := Gather(feed, s, status, page, acc, fetched, lookups, dispatched);
      var n := Fetches(feed, s, status, page, acc, fetched, lookups, dispatched);
      r.accumulated == acc + Harvest(feed, page, page + n).accepted
    decreases s.maxPages + 1 - page, 0
  {
    var r := Gather(feed, s, status, page, acc, fetched, lookups, dispatched);
    var n := Fetches(feed, s, status, page, acc, fetched, lookups, dispatched);
    var scan := feed.scan(page);
    var acc', fetched', lookups', dispatched' :=
      GatherUnfold(feed, s, status, page, acc, fetched, lookups, dispatched);
    GatherAccumulates(feed, s, status, page + 1, acc', fetched', lookups', dispatched');
    var n' := Fetches(feed, s, status, page + 1, acc', fetched', lookups', dispatched');
    var h := Harvest(feed, page, page + 1 + n');
    var h' := Harvest(feed, page + 1, page + 1 + n');
    assert h.accepted == scan.accepted + h'.accepted;
    assert r.accumulated == acc + h.accepted;
  }

  /** The rating lookups the loop issues are those of the fetched pages, in page order. */
  lemma {:induction false} GatherLookups(feed: Feed, s: Settings, status: Payload -> int, page: int,
                  acc: seq<Item>, fetched: seq<int>, lookups: seq<Query>, dispatched: seq<Dispatch>)
    ensures var r := Gather(feed, s, status, page, acc, fetched, lookups, dispatched);
      var n := Fetches(feed, s, status, page, acc, fetched, lookups, dispatched);
      r.lookups == lookups + Harvest(feed, page, page + n).lookups
    decreases s.maxPages + 1 - page, 1
  {
    var r := Gather(feed, s, status, page, acc, fetched, lookups, dispatched);
    var n := Fetches(feed, s, status, page, acc, fetched, lookups, dispatched);
    if |acc| < s.topN && page <= s.maxPages && !feed.failed(page) {
      GatherLookupsStep(feed, s, status, page, acc, fetched, lookups, dispatched);
    } else if |acc| < s.topN && page <= s.maxPages {
      assert n == 1;
      assert Harvest(feed, page, page + 1).lookups == [];
    } else {
      assert n == 0;
    }
  }

  /** The turn of `GatherLookups` that fetches a page that did not fail. */
  lemma {:induction false} GatherLookupsStep(feed: Feed, s: Settings, status: Payload -> int, page: int,
                      acc: seq<Item>, fetched: seq<int>, lookups: seq<Query>, dispatched: seq<Dispatch>)
    requires |acc| < s.topN && page <= s.maxPages && !feed.failed(page)
    ensures var r := Gather(feed, s, status, page, acc, fetched, lookups, dispatched);
      var n := Fetches(feed, s, status, page, acc, fetched, lookups, dispatched);
      r.lookups == lookups + Harvest(feed, page, page + n).lookups
    decreases s.maxPages + 1 - page, 0
  {
    var r := Gather(feed, s, status, page, acc, fetched, lookups, dispatched);
    var n := Fetches(feed, s, status, page, acc, fetched, lookups, dispatched);
    var scan := feed.scan(page);
    var acc', fetched', lookups', dispatched' :=
      GatherUnfold(feed, s, status, page, acc, fetched, lookups, dispatched);
    GatherLookups(feed, s, status, page + 1, acc', fetched', lookups', dispatched');
    var n' := Fetches(feed, s, status, page + 1, acc', fetched', lookups', dispatched');
    var h := Harvest(feed, page, page + 1 + n');
    var h' := Harvest(feed, page + 1, page + 1 + n');
    assert h.lookups == scan.lookups + h'.lookups;
    assert r.lookups == lookups + h.lookups;
  }

  /** The requests the loop sends are one per accumulated item, in the order they were kept
      (none when requests are disabled). */
  lemma {:induction false} GatherDispatches(feed: Feed, s: Settings, status: Payload -> int, page: int,
                  acc: seq<Item>, fetched: seq<int>, lookups: seq<Query>, dispatched: seq<Dispatch>)
    ensures var r := Gather(feed, s, status, page, acc, fetched, lookups, dispatched);
      var n := Fetches(feed, s, status, page, acc, fetched, lookups, dispatched);
      r.dispatched == dispatched + Sent(Harvest(feed, page, page + n).accepted, s, status)
    decreases s.maxPages + 1 - page, 1
  {
    var r := Gather(feed, s, status, page, acc, fetched, lookups, dispatched);
    var n := Fetches(feed, s, status, page, acc, fetched, lookups, dispatched);
    if |acc| < s.topN && page <= s.maxPages && !feed.failed(page) {
      GatherDispatchesStep(feed, s, status, page, acc, fetched, lookups, dispatched);
    } else if |acc| < s.topN && page <= s.maxPages {
      assert n == 1;
      assert Harvest(feed, page, page + 1).accepted == [];
      assert Sent([], s, status) == [];
    } else {
      assert n == 0;
      assert Sent([], s, status) == [];
    }
  }

  /** The turn of `GatherDispatches` that fetches a page that did not fail. */
  lemma {:induction false} GatherDispatchesStep(feed: Feed, s: Settings, status: Payload -> int, page: int,
                      acc: seq<Item>, fetched: seq<int>, lookups: seq<Query>, dispatched: seq<Dispatch>)
    requires |acc| < s.topN && page <= s.maxPages && !feed.failed(page)
    ensures var r := Gather(feed, s, status, page, acc, fetched, lookups, dispatched);
      var n := Fetches(feed, s, status, page, acc, fetched, lookups, dispatched);
      r.dispatched == dispatched + Sent(Harvest(feed, page, page + n).accepted, s, status)
    decreases s.maxPages + 1 - page, 0
  {
    var r := Gather(feed, s, status, page, acc, fetched, lookups, dispatched);
    var n := Fetches(feed, s, status, page, acc, fetched, lookups, dispatched);
    var scan := feed.scan(page);
    var acc', fetched', lookups', dispatched' :=
      GatherUnfold(feed, s, status, page, acc, fetched, lookups, dispatched);
    GatherDispatches(feed, s, status, page + 1, acc', fetched', lookups', dispatched');
    var n' := Fetches(feed, s, status, page + 1, acc', fetched', lookups', dispatched');
    var r' := Gather(feed, s, status, page + 1, acc', fetched', lookups', dispatched');
    var h' := Harvest(feed, page + 1, page + 1 + n').accepted;
    assert r.dispatched == r'.dispatched == dispatched' + Sent(h', s, status);
    HarvestFirst(feed, page, page + 1 + n');
    SentAfter(dispatched, scan.accepted, h', s, status);
    assert r.dispatched == dispatched + Sent(Harvest(feed, page, page + 1 + n').accepted, s, status);
    assert page + n == page + 1 + n';
  }

  /** The loop fetches a page only while fewer than `topN` items have been kept, the only page
      that may have failed is the last one fetched, and it stops for one of three reasons:
      enough items, page budget spent, or a failed fetch. */
  lemma {:induction false} GatherStops(feed: Feed, s: Settings, status: Payload -> int, page: int,
                  acc: seq<Item>, fetched: seq<int>, lookups: seq<Query>, dispatched: seq<Dispatch>)
    ensures var r := Gather(feed, s, status, page, acc, fetched, lookups, dispatched);
      var n := Fetches(feed, s, status, page, acc, fetched, lookups, dispatched);
      && (forall q :: page <= q < page + n - 1 ==> !feed.failed(q))
      && (forall q :: page <= q < page + n ==> |acc + Harvest(feed, page, q).accepted| < s.topN)
      && (|r.accumulated| >= s.topN || page + n > s.maxPages || (n > 0 && feed.failed(page + n - 1)))
    decreases s.maxPages + 1 - page, 1
  {
    GatherAccumulates(feed, s, status, page, acc, fetched, lookups, dispatched);
    var r := Gather(feed, s, status, page, acc, fetched, lookups, dispatched);
    var n := Fetches(feed, s, status, page, acc, fetched, lookups, dispatched);
    if |acc| < s.topN && page <= s.maxPages && !feed.failed(page) {
      GatherStopsStep(feed, s, status, page, acc, fetched, lookups, dispatched);
    } else if |acc| < s.topN && page <= s.maxPages {
      assert n == 1;
      assert Harvest(feed, page, page).accepted == [];
    } else {
      assert n == 0;
    }
  }

  /** The turn of `GatherStops` that fetches a page that did not fail. */
  lemma {:induction false} GatherStopsStep(feed: Feed, s: Settings, status: Payload -> int, page: int,
                      acc: seq<Item>, fetched: seq<int>, lookups: seq<Query>, dispatched: seq<Dispatch>)
    requires |acc| < s.topN && page <= s.maxPages && !feed.failed(page)
    ensures var r := Gather(feed, s, status, page, acc, fetched, lookups, dispatched);
      var n := Fetches(feed, s, status, page, acc, fetched, lookups, dispatched);
      && (forall q :: page <= q < page + n - 1 ==> !feed.failed(q))
      && (forall q :: page <= q < page + n ==> |acc + Harvest(feed, page, q).accepted| < s.topN)
      && (|r.accumulated| >= s.topN || page + n > s.maxPages || (n > 0 && feed.failed(page + n - 1)))
    decreases s.maxPages + 1 - page, 0
  {
    GatherAccumulates(feed, s, status, page, acc, fetched, lookups, dispatched);
    var r := Gather(feed, s, status, page, acc, fetched, lookups, dispatched);
    var n := Fetches(feed, s, status, page, acc, fetched, lookups, dispatched);
    var scan := feed.scan(page);
    var acc', fetched', lookups', dispatched' :=
      GatherUnfold(feed, s, status, page, acc, fetched, lookups, dispatched);
    GatherStops(feed, s, status, page + 1, acc', fetched', lookups', dispatched');
    var n' := Fetches(feed, s, status, page + 1, acc', fetched', lookups', dispatched');
    forall q | page < q <= page + n
      ensures acc + Harvest(feed, page, q).accepted == acc' + Harvest(feed, page + 1, q).accepted
    {
      assert Harvest(feed, page, q).accepted == scan.accepted + Harvest(feed, page + 1, q).accepted;
    }
    assert Harvest(feed, page, page).accepted == [];
  }

  /** The feed of a category answers as the discover service does: a fetch fails when the
      service does, and a page that did not fail contributes the items `should_include` accepts
      and the queries of the items that reach the rating check. */
  lemma FeedOfAgrees(category: string, s: Settings, svc: Services, p: int)
    ensures FeedOf(category, s, svc).failed(p) <==> svc.discover(category, p).PageFailed?
    ensures svc.discover(category, p).PageOk? ==>
      var items := svc.discover(category, p).results;
      && FeedOf(category, s, svc).scan(p).accepted == AcceptedOf(items, JudgeOf(category, s, svc))
      && FeedOf(category, s, svc).scan(p).lookups == QueriesOf(FilterPassing(items, s), category)
  {
    if svc.discover(category, p).PageOk? {
      ScanPageAccepted(svc.discover(category, p).results, JudgeOf(category, s, svc));
      ScanPageLookups(svc.discover(category, p).results, category, s, svc);
    }
  }

  /** The first `n` pages lie within a budget of `maxPages` when `n` does not exceed it. */
  lemma PagesWithin(n: nat, maxPages: int)
    requires n == 0 || n <= maxPages
    ensures n <= Max(0, maxPages)
    ensures var ps := Pages(1, 1 + n); forall i :: 0 <= i < |ps| ==> 1 <= ps[i] <= maxPages
  {
  }

  /** The loop of `get_top_media` from page 1 with nothing collected. */
  function Start(feed: Feed, s: Settings, status: Payload -> int): Collection {
    Gather(feed, s, status, 1, [], [], [], [])
  }

  lemma StartPages(feed: Feed, s: Settings, status: Payload -> int)
    ensures var r := Start(feed, s, status);
      && |r.fetched| <= Max(0, s.maxPages)
      && r.fetched == Pages(1, 1 + |r.fetched|)
      && (forall i :: 0 <= i < |r.fetched| ==> 1 <= r.fetched[i] <= s.maxPages)
  {
    var r := Start(feed, s, status);
    var n := Fetches(feed, s, status, 1, [], [], [], []);
    GatherPages(feed, s, status, 1, [], [], [], []);
    assert r.fetched == [] + Pages(1, 1 + n);
    assert [] + Pages(1, 1 + n) == Pages(1, 1 + n);
    PagesWithin(n, s.maxPages);
  }

  lemma StartHarvest(feed: Feed, s: Settings, status: Payload -> int)
    ensures var r := Start(feed, s, status);
      var h := Harvest(feed, 1, 1 + |r.fetched|);
      r.accumulated == h.accepted && r.lookups == h.lookups
  {
    GatherAccumulates(feed, s, status, 1, [], [], [], []);
    GatherLookups(feed, s, status, 1, [], [], [], []);
    var r := Start(feed, s, status);
    var h := Harvest(feed, 1, 1 + |r.fetched|);
    assert [] + h.accepted == h.accepted;
    assert [] + h.lookups == h.lookups;
  }

  lemma StartDispatches(feed: Feed, s: Settings, status: Payload -> int)
    ensures var r := Start(feed, s, status);
      r.dispatched == Sent(r.accumulated, s, status)
  {
    StartHarvest(feed, s, status);
    GatherDispatches(feed, s, status, 1, [], [], [], []);
    var r := Start(feed, s, status);
    assert [] + Sent(r.accumulated, s, status) == Sent(r.accumulated, s, status);
  }

  lemma StartStops(feed: Feed, s: Settings, status: Payload -> int)
    ensures var r := Start(feed, s, status);
      var n := |r.fetched|;
      && (forall q :: 1 <= q < n ==> !feed.failed(q))
      && (forall q :: 1 <= q <= n ==> |Harvest(feed, 1, q).accepted| < s.topN)
      && (|r.accumulated| >= s.topN || 1 + n > s.maxPages || (n > 0 && feed.failed(n)))
  {
    GatherStops(feed, s, status, 1, [], [], [], []);
    var r := Start(feed, s, status);
    forall q | 1 <= q <= |r.fetched|
      ensures |Harvest(feed, 1, q).accepted| < s.topN
    {
      assert [] + Harvest(feed, 1, q).accepted == Harvest(feed, 1, q).accepted;
    }
  }

  /** Everything `get_top_media` guarantees of one category's collection: it fetched pages 1, 2,
      ... within the budget, and every page before the last succeeded; it accumulated and looked
      up what those pages yield; a page was fetched only while fewer than `topN` items were
      kept; a short result means the budget was spent or the last fetch failed; the returned
      list is the first `topN` accumulated items; and the requests are those of the accumulated
      items. */
  ghost predicate CollectedFrom(c: Collection, feed: Feed, s: Settings, status: Payload -> int) {
    var n := |c.fetched|;
    && c.fetched == Pages(1, 1 + n)
    && n <= Max(0, s.maxPages)
    && (forall q :: 1 <= q < n ==> !feed.failed(q))
    && c.accumulated == Harvest(feed, 1, 1 + n).accepted
    && c.lookups == Harvest(feed, 1, 1 + n).lookups
    && (forall q :: 1 <= q <= n ==> |Harvest(feed, 1, q).accepted| < s.topN)
    && (|c.items| < s.topN ==> n == Max(0, s.maxPages) || (n > 0 && feed.failed(n)))
    && c.items == Take(c.accumulated, s.topN)
    && c.dispatched == Sent(c.accumulated, s, status)
  }

  /** The guarantees pin the collection down: two collections that both meet them for the same
      feed fetched the same pages, and so agree on everything. */
  lemma CollectionDetermined(c1: Collection, c2: Collection, feed: Feed, s: Settings, status: Payload -> int)
    requires CollectedFrom(c1, feed, s, status) && CollectedFrom(c2, feed, s, status)
    ensures c1 == c2
  {
    NoEarlierStop(c1, c2, feed, s, status);
    NoEarlierStop(c2, c1, feed, s, status);
  }

  /** A collection that meets the guarantees cannot stop before another one that does. */
  lemma NoEarlierStop(c1: Collection, c2: Collection, feed: Feed, s: Settings, status: Payload -> int)
    requires CollectedFrom(c1, feed, s, status) && CollectedFrom(c2, feed, s, status)
    ensures |c1.fetched| >= |c2.fetched|
  {
  }

  /** `get_top_media` over the feed of one category (`FeedOf(category, ...)`). */
  function GetTopMedia(feed: Feed, s: Settings, status: Payload -> int): (r: Collection)
    ensures |r.fetched| <= Max(0, s.maxPages)
    ensures r.fetched == Pages(1, 1 + |r.fetched|)
    ensures forall i :: 0 <= i < |r.fetched| ==> 1 <= r.fetched[i] <= s.maxPages
    ensures forall q :: 1 <= q < |r.fetched| ==> !feed.failed(q)
    ensures r.accumulated == Harvest(feed, 1, 1 + |r.fetched|).accepted
    ensures r.items == Take(r.accumulated, s.topN) && |r.items| <= s.topN
    ensures r.lookups == Harvest(feed, 1, 1 + |r.fetched|).lookups
    ensures s.enableRequests ==> r.dispatched == RequestAll(r.accumulated, status)
    ensures !s.enableRequests ==> r.dispatched == []
    ensures forall q :: 1 <= q <= |r.fetched| ==> |Harvest(feed, 1, q).accepted| < s.topN
    ensures |r.items| < s.topN ==> |r.fetched| == Max(0, s.maxPages) || (|r.fetched| > 0 && feed.failed(|r.fetched|))
    ensures s.topN == 0 ==> r.fetched == []
    ensures CollectedFrom(r, feed, s, status)
  {
    StartPages(feed, s, status);
    StartHarvest(feed, s, status);
    StartDispatches(feed, s, status);
    StartStops(feed, s, status);
    Start(feed, s, status)
  }

  // ---------------------------------------------------------------- main

  /** A run of the script: login failed and nothing else happened, or both categories were
      collected, "tv" first and then "movies". */
  datatype Run = LoginFailed | Ran(shows: Collection, movies: Collection)

  /** Every page fetch of a run, tagged with its category, in the order they happened. */
  function FetchLog(r: Run): seq<(string, int)> {
    match r
    case LoginFailed => []
    case Ran(shows, movies) =>
      seq(|shows.fetched|, i requires 0 <= i < |shows.fetched| => ("tv", shows.fetched[i]))
      + seq(|movies.fetched|, i requires 0 <= i < |movies.fetched| => ("movies", movies.fetched[i]))
  }

  /** Every acquisition request of a run, in the order they were sent. */
  function DispatchLog(r: Run): seq<Dispatch> {
    match r
    case LoginFailed => []
    case Ran(shows, movies) => shows.dispatched + movies.dispatched
  }

  /** Every fetch of a run is of a page in `1 .. maxPages` when each collection's are. */
  lemma FetchLogInRange(shows: Collection, movies: Collection, maxPages: int)
    requires forall i :: 0 <= i < |shows.fetched| ==> 1 <= shows.fetched[i] <= maxPages
    requires forall i :: 0 <= i < |movies.fetched| ==> 1 <= movies.fetched[i] <= maxPages
    ensures var log := FetchLog(Ran(shows, movies));
      forall i :: 0 <= i < |log| ==> 1 <= log[i].1 <= maxPages
  {
  }

  /** `main`: the login gate, then the two collections. */
  function Script(s: Settings, svc: Services): (r: Run)
    ensures r.LoginFailed? <==> !svc.loginOk
    ensures !svc.loginOk ==> FetchLog(r) == [] && DispatchLog(r) == []
    ensures svc.loginOk ==>
      && CollectedFrom(r.shows, FeedOf("tv", s, svc), s, svc.requestStatus)
      && CollectedFrom(r.movies, FeedOf("movies", s, svc), s, svc.requestStatus)
      && |r.shows.items| <= s.topN && |r.movies.items| <= s.topN
      && (forall i :: 0 <= i < |FetchLog(r)| ==> 1 <= FetchLog(r)[i].1 <= s.maxPages)
      && (s.enableRequests ==>
            DispatchLog(r) == RequestAll(r.shows.accumulated + r.movies.accumulated, svc.requestStatus))
      && (!s.enableRequests ==> DispatchLog(r) == [])
  {
    if !svc.loginOk then
      LoginFailed
    else
      var shows := GetTopMedia(FeedOf("tv", s, svc), s, svc.requestStatus);
      var movies := GetTopMedia(FeedOf("movies", s, svc), s, svc.requestStatus);
      RequestAllConcat(shows.accumulated, movies.accumulated, svc.requestStatus);
      FetchLogInRange(shows, movies, s.maxPages);
      Ran(shows, movies)
  }

  // ---------------------------------------------------------------- a concrete run

  /** An English film from 2020 with no genres and an empty overview. */
  function Film(id: int): Item {
    Item("movie", id, Some("Film"), None, Some("2020-05-01"), None, Some("en"), [], "", None)
  }

  /** Services under which page 1 of every category holds two such films and later pages are
      empty; every lookup reports a rating of 8.1 and every request is answered with 201. */
  function TwoFilmServices(): Services {
    Services(
      true,
      (c: string, p: int) => if p == 1 then PageOk([Film(1), Film(2)]) else PageOk([]),
      (q: Query) => LookupBody(Some("True"), Some("8.1")),
      (t: string) => Some(8.1),
      (pl: Payload) => 201)
  }

  lemma FilmYear(id: int)
    ensures YearOf(Film(id)) == 2020
  {
    ParseYearRoundTrip(2020, "-05-01");
    assert Text.FourDigits(2020) + "-05-01" == "2020-05-01";
  }

  lemma FilmAccepted(id: int)
    ensures ShouldInclude(Film(id), "movies", Configured, TwoFilmServices()).verdict == Accept(8.1)
  {
    var m := Film(id);
    FilmYear(id);
    assert !Text.ContainsAny(Text.Lower(m.overview), Configured.excludedKeywords) by {
      assert Text.Lower("") == "";
    }
    assert RatingFor(m, "movies", TwoFilmServices()) == Some(8.1);
  }

  /** With a target of one item, the first page keeps two films: the returned list holds one,
      but both were requested, because the loop finishes the page before checking the target. */
  lemma {:induction false} RequestsCanExceedTarget()
    ensures var s := Configured.(topN := 1);
      var svc := TwoFilmServices();
      var r := GetTopMedia(FeedOf("movies", s, svc), s, svc.requestStatus);
      |r.items| == 1 && |r.dispatched| == 2 && r.fetched == [1]
  {
    var s := Configured.(topN := 1);
    var svc := TwoFilmServices();
    var feed := FeedOf("movies", s, svc);
    FirstPageKeepsBoth();
    FirstPageSuffices(feed, s, svc.requestStatus);
  }

  /** Under `TwoFilmServices`, the first "movies" page keeps both of its films. */
  lemma {:induction false} FirstPageKeepsBoth()
    ensures var s := Configured.(topN := 1);
      var feed := FeedOf("movies", s, TwoFilmServices());
      !feed.failed(1) && |feed.scan(1).accepted| == 2
  {
    var s := Configured.(topN := 1);
    var svc := TwoFilmServices();
    FilmAccepted(1);
    FilmAccepted(2);
    var items := [Film(1), Film(2)];
    assert ShouldInclude(Film(1), "movies", s, svc) == ShouldInclude(Film(1), "movies", Configured, svc);
    assert ShouldInclude(Film(2), "movies", s, svc) == ShouldInclude(Film(2), "movies", Configured, svc);
    assert items[1..] == [Film(2)] && items[1..][1..] == [];
    var page := ScanPage(items, JudgeOf("movies", s, svc));
    assert |page.accepted| == 2;
  }

  /** When the first page alone keeps enough items, the loop fetches that page and no other. */
  lemma FirstPageSuffices(feed: Feed, s: Settings, status: Payload -> int)
    requires 1 <= s.maxPages && 0 < s.topN <= |feed.scan(1).accepted| && !feed.failed(1)
    ensures var r := GetTopMedia(feed, s, status);
      r.fetched == [1] && r.accumulated == feed.scan(1).accepted
  {
    var r := GetTopMedia(feed, s, status);
    assert Harvest(feed, 1, 2).accepted == feed.scan(1).accepted;
  }
}
