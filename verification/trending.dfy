/** The second curation script: log in, then page through the trending feed, keep the items that
    pass the language, genre and rating checks, and split them into a movie bucket and a show
    bucket of at most `cap` items each, requesting every item the moment it enters a bucket. */
module Trending {
  import opened Common
  import opened Media

  /** The configuration constants of the script (the bucket size and the page budget are
      literals in its main loop). */
  datatype Settings = Settings(
    minScore: real,
    targetLanguage: string,
    excludedGenres: set<int>,
    cap: nat,
    maxPages: int)

  /** The values the script ships with. */
  const Configured := Settings(6.0, "en", {99, 10767}, 20, 25)

  /** Everything the script learns from outside: whether login succeeded, the trending feed's
      answer for a page, the rating service's answer for a query, `float()` on a rating text,
      and the request service's status for a payload. */
  datatype Services = Services(
    loginOk: bool,
    trending: int -> PageResponse,
    omdb: Query -> LookupResponse,
    parseScore: string -> Option<real>,
    requestStatus: Payload -> int)

  // ---------------------------------------------------------------- filter

  /** `media.get("title") or media.get("name")`. */
  function TitleOf(m: Item): Option<string> {
    OrElse(m.title, m.name)
  }

  /** `media.get("releaseDate", media.get("firstAirDate", "0"))[:4]`: the first date key that is
      present wins, even when it is empty. */
  function YearTextOf(m: Item): (t: string)
    ensures |t| <= 4
    ensures m.releaseDate.Some? ==> t == Take(m.releaseDate.value, 4)
    ensures m.releaseDate.None? && m.firstAirDate.Some? ==> t == Take(m.firstAirDate.value, 4)
    ensures m.releaseDate.None? && m.firstAirDate.None? ==> t == "0"
  {
    var date :=
      if m.releaseDate.Some? then m.releaseDate.value
      else if m.firstAirDate.Some? then m.firstAirDate.value
      else "0";
    Take(date, 4)
  }

  function QueryFor(m: Item): Query {
    Query(TitleOf(m), YearText(YearTextOf(m)))
  }

  /** The score the rating service yields for the item. */
  function RatingFor(m: Item, svc: Services): Option<real> {
    ImdbScore(svc.omdb(QueryFor(m)), svc.parseScore)
  }

  /** `should_include`: language, then genres, then the rating lookup; the lookup happens only
      when both cheap checks pass, and an unknown rating rejects the item. */
  function ShouldInclude(m: Item, s: Settings, svc: Services): (d: Decision)
    ensures d.verdict.Accept? <==>
      LanguageOk(m, s.targetLanguage) && GenresOk(m, s.excludedGenres) && Meets(RatingFor(m, svc), s.minScore)
    ensures d.verdict.Accept? ==> RatingFor(m, svc) == Some(d.verdict.score)
    ensures d.lookups ==
      if LanguageOk(m, s.targetLanguage) && GenresOk(m, s.excludedGenres) then [QueryFor(m)] else []
    ensures d.verdict == Reject(WrongLanguage) <==> !LanguageOk(m, s.targetLanguage)
    ensures d.verdict == Reject(ExcludedGenre) <==>
      LanguageOk(m, s.targetLanguage) && !GenresOk(m, s.excludedGenres)
    ensures d.verdict == Reject(NoRating) <==>
      LanguageOk(m, s.targetLanguage) && GenresOk(m, s.excludedGenres) && RatingFor(m, svc).None?
  {
    if m.originalLanguage != Some(s.targetLanguage) then
      Decision(Reject(WrongLanguage), [])
    else if SharesGenre(m.genreIds, s.excludedGenres) then
      Decision(Reject(ExcludedGenre), [])
    else
      var q := QueryFor(m);
      var score := ImdbScore(svc.omdb(q), svc.parseScore);
      if score.None? then
        Decision(Reject(NoRating), [q])
      else if score.value >= s.minScore then
        Decision(Accept(score.value), [q])
      else
        Decision(Reject(LowRating), [q])
  }

  /** `fetch_trending`: a status other than 200 gives an empty list, the same as an exhausted feed. */
  function FetchTrending(resp: PageResponse): (r: seq<Item>)
    ensures resp.PageFailed? ==> r == []
    ensures resp.PageOk? ==> r == resp.results
  {
    match resp
    case PageFailed => []
    case PageOk(results) => results
  }

  // ---------------------------------------------------------------- buckets

  /** What the main loop works with: the filter's decision for an item, the request service's
      status for a payload, the trending feed, the bucket size and the page budget. */
  datatype Env = Env(
    judge: Item -> Decision,
    status: Payload -> int,
    trending: int -> PageResponse,
    cap: nat,
    maxPages: int)

  function EnvOf(s: Settings, svc: Services): Env {
    Env(m => ShouldInclude(m, s, svc), svc.requestStatus, svc.trending, s.cap, s.maxPages)
  }

  /** The environment decides exactly as `should_include` does. */
  lemma EnvOfAgrees(s: Settings, svc: Services, m: Item, p: int)
    ensures EnvOf(s, svc).judge(m) == ShouldInclude(m, s, svc)
    ensures EnvOf(s, svc).trending(p) == svc.trending(p)
  {
  }

  /** The two buckets, every item appended to either in append order, the rating lookups and
      the requests sent. */
  datatype Buckets = Buckets(
    movies: seq<Item>,
    shows: seq<Item>,
    appended: seq<Item>,
    lookups: seq<Query>,
    dispatched: seq<Dispatch>)

  const Empty := Buckets([], [], [], [], [])

  predicate Full(env: Env, b: Buckets) {
    |b.movies| >= env.cap && |b.shows| >= env.cap
  }

  /** The items of `items` whose media type is `t`, in order. */
  function OfType(items: seq<Item>, t: string): (r: seq<Item>)
    ensures |r| <= |items|
    ensures forall i :: 0 <= i < |r| ==> r[i].mediaType == t
  {
    if items == [] then []
    else OfType(items[..|items| - 1], t) + (if items[|items| - 1].mediaType == t then [items[|items| - 1]] else [])
  }

  lemma OfTypeSnoc(items: seq<Item>, m: Item, t: string)
    ensures OfType(items + [m], t) == OfType(items, t) + (if m.mediaType == t then [m] else [])
  {
    assert (items + [m])[..|items|] == items;
  }

  /** Every item of `items` is a movie or a show. */
  predicate MoviesAndShows(items: seq<Item>) {
    forall i :: 0 <= i < |items| ==> items[i].mediaType == "movie" || items[i].mediaType == "tv"
  }

  /** A log of movies and shows splits into its movies and its shows: every entry is in exactly
      one of the two. */
  lemma {:induction false} OfTypeSplit(items: seq<Item>)
    requires MoviesAndShows(items)
    ensures |OfType(items, "movie")| + |OfType(items, "tv")| == |items|
  {
    if items != [] {
      var init := items[..|items| - 1];
      assert MoviesAndShows(init) by {
        forall i | 0 <= i < |init|
          ensures init[i].mediaType == "movie" || init[i].mediaType == "tv"
        {
          assert init[i] == items[i];
        }
      }
      OfTypeSplit(init);
      assert items[|items| - 1].mediaType == "movie" || items[|items| - 1].mediaType == "tv";
    }
  }

  /** The buckets agree with the append log: only movies and shows were appended, each bucket
      is the log's items of its type, no bucket is over size, and exactly one request was sent
      per appended item, in order. */
  predicate Coherent(env: Env, b: Buckets) {
    && |b.movies| <= env.cap
    && |b.shows| <= env.cap
    && MoviesAndShows(b.appended)
    && b.movies == OfType(b.appended, "movie")
    && b.shows == OfType(b.appended, "tv")
    && b.dispatched == RequestAll(b.appended, env.status)
  }

  /** An item enters a bucket: it was accepted, its type is "movie" or "tv", and that bucket
      has room. */
  predicate Admitted(env: Env, b: Buckets, m: Item) {
    && env.judge(m).verdict.Accept?
    && ((m.mediaType == "movie" && |b.movies| < env.cap) || (m.mediaType == "tv" && |b.shows| < env.cap))
  }

  /** One iteration of the inner loop once the both-full check has passed: evaluate the item and
      append it to its bucket if it is admitted; an accepted item of another type, or one whose
      bucket is full, is dropped and not requested. */
  function Offer(env: Env, b: Buckets, m: Item): (r: Buckets)
    ensures r.lookups == b.lookups + env.judge(m).lookups
    ensures Admitted(env, b, m) ==>
      r.appended == b.appended + [m] && r.dispatched == b.dispatched + [RequestMedia(m, env.status)]
    ensures Admitted(env, b, m) && m.mediaType == "movie" ==> r.movies == b.movies + [m] && r.shows == b.shows
    ensures Admitted(env, b, m) && m.mediaType == "tv" ==> r.shows == b.shows + [m] && r.movies == b.movies
    ensures !Admitted(env, b, m) ==>
      r.movies == b.movies && r.shows == b.shows && r.appended == b.appended && r.dispatched == b.dispatched
  {
    var d := env.judge(m);
    var b' := b.(lookups := b.lookups + d.lookups);
    if !d.verdict.Accept? then
      b'
    else if m.mediaType == "movie" && |b.movies| < env.cap then
      b'.(movies := b.movies + [m], appended := b.appended + [m],
          dispatched := b.dispatched + [RequestMedia(m, env.status)])
    else if m.mediaType == "tv" && |b.shows| < env.cap then
      b'.(shows := b.shows + [m], appended := b.appended + [m],
          dispatched := b.dispatched + [RequestMedia(m, env.status)])
    else
      b'
  }

  /** Offering an item keeps the buckets coherent with the append log. */
  lemma OfferCoherent(env: Env, b: Buckets, m: Item)
    requires Coherent(env, b)
    ensures Coherent(env, Offer(env, b, m))
  {
    if Admitted(env, b, m) {
      var log := b.appended + [m];
      forall i | 0 <= i < |log|
        ensures log[i].mediaType == "movie" || log[i].mediaType == "tv"
      {
        if i < |b.appended| {
          assert log[i] == b.appended[i];
        }
      }
      OfTypeSnoc(b.appended, m, "movie");
      OfTypeSnoc(b.appended, m, "tv");
      RequestAllConcat(b.appended, [m], env.status);
    }
  }

  /** The inner `for media in results` loop, which breaks as soon as both buckets are full. */
  function ScanPage(env: Env, b: Buckets, items: seq<Item>): Buckets
    decreases |items|
  {
    if items == [] || Full(env, b) then b
    else ScanPage(env, Offer(env, b, items[0]), items[1..])
  }

  /** A page whose first item is offered while a bucket has room continues with the rest. */
  lemma ScanPageStep(env: Env, b: Buckets, items: seq<Item>)
    requires items != [] && !Full(env, b)
    ensures ScanPage(env, b, items) == ScanPage(env, Offer(env, b, items[0]), items[1..])
  {
  }

  lemma {:induction false} ScanCoherent(env: Env, b: Buckets, items: seq<Item>)
    requires Coherent(env, b)
    ensures Coherent(env, ScanPage(env, b, items))
    decreases |items|
  {
    if items != [] && !Full(env, b) {
      OfferCoherent(env, b, items[0]);
      ScanCoherent(env, Offer(env, b, items[0]), items[1..]);
    }
  }

  // ---------------------------------------------------------------- reference

  /** Reference definition: the accepted items of `items` whose type is `t`, in order. */
  function Kept(env: Env, items: seq<Item>, t: string): seq<Item> {
    if items == [] then []
    else
      var last := items[|items| - 1];
      Kept(env, items[..|items| - 1], t) + (if env.judge(last).verdict.Accept? && last.mediaType == t then [last] else [])
  }

  lemma {:induction false} KeptConcat(env: Env, a: seq<Item>, c: seq<Item>, t: string)
    ensures Kept(env, a + c, t) == Kept(env, a, t) + Kept(env, c, t)
    decreases |c|
  {
    if c != [] {
      assert (a + c)[..|a + c| - 1] == a + c[..|c| - 1];
      assert (a + c)[|a + c| - 1] == c[|c| - 1];
      KeptConcat(env, a, c[..|c| - 1], t);
    } else {
      assert a + c == a;
    }
  }

  /** Every item the reference keeps was accepted and has the type asked for. */
  lemma {:induction false} KeptSound(env: Env, items: seq<Item>, t: string)
    ensures forall i :: 0 <= i < |Kept(env, items, t)| ==>
      env.judge(Kept(env, items, t)[i]).verdict.Accept? && Kept(env, items, t)[i].mediaType == t
    decreases |items|
  {
    if items != [] {
      KeptSound(env, items[..|items| - 1], t);
    }
  }

  /** Reference definition: the items of the trending pages `lo .. hi - 1`, in feed order. */
  function Stream(env: Env, lo: int, hi: int): seq<Item>
    decreases hi - lo
  {
    if lo >= hi then [] else FetchTrending(env.trending(lo)) + Stream(env, lo + 1, hi)
  }

  /** What precedes page `lo`, followed by pages `lo .. hi - 1`, is what precedes page `lo + 1`
      followed by pages `lo + 1 .. hi - 1`. */
  lemma StreamAfter(env: Env, pre: seq<Item>, lo: int, hi: int)
    requires lo < hi
    ensures pre + Stream(env, lo, hi) == (pre + FetchTrending(env.trending(lo))) + Stream(env, lo + 1, hi)
  {
    assert Stream(env, lo, hi) == FetchTrending(env.trending(lo)) + Stream(env, lo + 1, hi);
  }

  /** The buckets hold the first `cap` accepted movies and the first `cap` accepted shows of `pre`. */
  predicate Greedy(env: Env, b: Buckets, pre: seq<Item>) {
    b.movies == Take(Kept(env, pre, "movie"), env.cap) && b.shows == Take(Kept(env, pre, "tv"), env.cap)
  }

  lemma KeptStep(env: Env, pre: seq<Item>, m: Item, t: string)
    ensures Kept(env, pre + [m], t) ==
      Kept(env, pre, t) + (if env.judge(m).verdict.Accept? && m.mediaType == t then [m] else [])
  {
    assert (pre + [m])[..|pre|] == pre;
  }

  /** One item keeps the buckets equal to the first `cap` accepted items of each type. */
  lemma OfferGreedy(env: Env, b: Buckets, m: Item, pre: seq<Item>)
    requires Greedy(env, b, pre)
    ensures Greedy(env, Offer(env, b, m), pre + [m])
  {
    KeptStep(env, pre, m, "movie");
    KeptStep(env, pre, m, "tv");
    var km, ks := Kept(env, pre, "movie"), Kept(env, pre, "tv");
    if |km| >= env.cap {
      TakeOfLongPrefix(km, [m], env.cap);
    }
    if |ks| >= env.cap {
      TakeOfLongPrefix(ks, [m], env.cap);
    }
  }

  /** A whole page keeps the buckets equal to the first `cap` accepted items of each type, the
      early break included: once both are full, the rest of the page cannot change them. */
  lemma {:induction false} ScanGreedy(env: Env, b: Buckets, items: seq<Item>, pre: seq<Item>)
    requires Greedy(env, b, pre)
    ensures Greedy(env, ScanPage(env, b, items), pre + items)
    decreases |items|
  {
    if items == [] {
      assert pre + items == pre;
    } else if Full(env, b) {
      KeptConcat(env, pre, items, "movie");
      KeptConcat(env, pre, items, "tv");
      TakeOfLongPrefix(Kept(env, pre, "movie"), Kept(env, items, "movie"), env.cap);
      TakeOfLongPrefix(Kept(env, pre, "tv"), Kept(env, items, "tv"), env.cap);
    } else {
      ScanPageStep(env, b, items);
      OfferGreedy(env, b, items[0], pre);
      ScanGreedy(env, Offer(env, b, items[0]), items[1..], pre + [items[0]]);
      FirstThenRest(pre, items);
    }
  }

  // ---------------------------------------------------------------- lookups

  /** Reference definition: the rating lookups made while the items `items` stream past. An
      item is put to the filter only while the greedy selection from the items before it leaves
      a bucket with room; once both buckets are full the page loop breaks. */
  function Lookups(env: Env, items: seq<Item>): seq<Query> {
    if items == [] then []
    else
      var init := items[..|items| - 1];
      Lookups(env, init) + (if Saturated(env, init) then [] else env.judge(items[|items| - 1]).lookups)
  }

  lemma LookupsStep(env: Env, pre: seq<Item>, m: Item)
    ensures Lookups(env, pre + [m]) == Lookups(env, pre) + (if Saturated(env, pre) then [] else env.judge(m).lookups)
  {
    assert (pre + [m])[..|pre|] == pre;
  }

  /** More items never empty a bucket of the greedy selection. */
  lemma SaturatedGrows(env: Env, a: seq<Item>, c: seq<Item>)
    requires Saturated(env, a)
    ensures Saturated(env, a + c)
  {
    KeptConcat(env, a, c, "movie");
    KeptConcat(env, a, c, "tv");
  }

  /** Once both buckets are full, no further item is looked up. */
  lemma {:induction false} LookupsSaturated(env: Env, pre: seq<Item>, items: seq<Item>)
    requires Saturated(env, pre)
    ensures Lookups(env, pre + items) == Lookups(env, pre)
    decreases |items|
  {
    if items == [] {
      assert pre + items == pre;
    } else {
      var init := items[..|items| - 1];
      assert (pre + items)[..|pre + items| - 1] == pre + init;
      SaturatedGrows(env, pre, init);
      LookupsSaturated(env, pre, init);
    }
  }

  /** Buckets that hold the greedy selection are both full exactly when the selection is. */
  lemma GreedyFull(env: Env, b: Buckets, pre: seq<Item>)
    requires Greedy(env, b, pre)
    ensures Full(env, b) <==> Saturated(env, pre)
  {
  }

  /** Offering an item while a bucket has room makes the lookup the reference predicts. */
  lemma OfferLookups(env: Env, b: Buckets, m: Item, pre: seq<Item>)
    requires Greedy(env, b, pre) && !Full(env, b) && b.lookups == Lookups(env, pre)
    ensures Offer(env, b, m).lookups == Lookups(env, pre + [m])
  {
    GreedyFull(env, b, pre);
    LookupsStep(env, pre, m);
  }

  /** Once both buckets are full the page loop breaks at once, as the reference predicts. */
  lemma FullScanLookups(env: Env, b: Buckets, items: seq<Item>, pre: seq<Item>)
    requires Greedy(env, b, pre) && Full(env, b) && b.lookups == Lookups(env, pre)
    ensures ScanPage(env, b, items).lookups == Lookups(env, pre + items)
  {
    GreedyFull(env, b, pre);
    LookupsSaturated(env, pre, items);
  }

  /** A whole page makes the lookups the reference predicts, the early break included. */
  lemma {:induction false} ScanLookups(env: Env, b: Buckets, items: seq<Item>, pre: seq<Item>)
    requires Greedy(env, b, pre) && b.lookups == Lookups(env, pre)
    ensures ScanPage(env, b, items).lookups == Lookups(env, pre + items)
    decreases |items|, 1
  {
    if items == [] {
      assert pre + items == pre;
    } else if Full(env, b) {
      FullScanLookups(env, b, items, pre);
    } else {
      ScanLookupsStep(env, b, items, pre);
    }
  }

  /** The turn of `ScanLookups` that offers the page's first item. */
  lemma {:induction false} ScanLookupsStep(env: Env, b: Buckets, items: seq<Item>, pre: seq<Item>)
    requires Greedy(env, b, pre) && b.lookups == Lookups(env, pre) && items != [] && !Full(env, b)
    ensures ScanPage(env, b, items).lookups == Lookups(env, pre + items)
    decreases |items|, 0
  {
    var b' := Offer(env, b, items[0]);
    ScanPageStep(env, b, items);
    OfferLookups(env, b, items[0], pre);
    OfferGreedy(env, b, items[0], pre);
    ScanLookups(env, b', items[1..], pre + [items[0]]);
    FirstThenRest(pre, items);
  }

  // ---------------------------------------------------------------- append log

  /** An item streaming past is appended: it is accepted, and the greedy selection from the
      items before it leaves room in the bucket of its type. */
  predicate Fits(env: Env, pre: seq<Item>, m: Item) {
    && env.judge(m).verdict.Accept?
    && ((m.mediaType == "movie" && |Kept(env, pre, "movie")| < env.cap)
        || (m.mediaType == "tv" && |Kept(env, pre, "tv")| < env.cap))
  }

  /** Reference definition: the append log while the items `items` stream past, across both
      types, in the order the items arrive. */
  function Admits(env: Env, items: seq<Item>): seq<Item> {
    if items == [] then []
    else
      var init := items[..|items| - 1];
      var last := items[|items| - 1];
      Admits(env, init) + (if Fits(env, init, last) then [last] else [])
  }

  lemma AdmitsStep(env: Env, pre: seq<Item>, m: Item)
    ensures Admits(env, pre + [m]) == Admits(env, pre) + (if Fits(env, pre, m) then [m] else [])
  {
    assert (pre + [m])[..|pre|] == pre;
  }

  /** Once both buckets are full, nothing more is appended. */
  lemma {:induction false} AdmitsSaturated(env: Env, pre: seq<Item>, items: seq<Item>)
    requires Saturated(env, pre)
    ensures Admits(env, pre + items) == Admits(env, pre)
    decreases |items|
  {
    if items == [] {
      assert pre + items == pre;
    } else {
      var init := items[..|items| - 1];
      assert (pre + items)[..|pre + items| - 1] == pre + init;
      SaturatedGrows(env, pre, init);
      AdmitsSaturated(env, pre, init);
    }
  }

  /** The two references agree: the movies of the append log are the first `cap` accepted
      movies, and its shows the first `cap` accepted shows. */
  lemma {:induction false} AdmitsSplits(env: Env, items: seq<Item>)
    ensures OfType(Admits(env, items), "movie") == Take(Kept(env, items, "movie"), env.cap)
    ensures OfType(Admits(env, items), "tv") == Take(Kept(env, items, "tv"), env.cap)
    decreases |items|
  {
    if items != [] {
      var init := items[..|items| - 1];
      var last := items[|items| - 1];
      assert items == init + [last];
      AdmitsSplits(env, init);
      AdmitsSplitsStep(env, init, last, "movie");
      AdmitsSplitsStep(env, init, last, "tv");
    }
  }

  lemma AdmitsSplitsStep(env: Env, pre: seq<Item>, m: Item, t: string)
    requires t == "movie" || t == "tv"
    requires OfType(Admits(env, pre), t) == Take(Kept(env, pre, t), env.cap)
    ensures OfType(Admits(env, pre + [m]), t) == Take(Kept(env, pre + [m], t), env.cap)
  {
    AdmitsStep(env, pre, m);
    SplitStep(env, pre, m, t);
    if Fits(env, pre, m) {
      OfTypeSnoc(Admits(env, pre), m, t);
    } else {
      assert Admits(env, pre) + [] == Admits(env, pre);
    }
  }

  /** One more item extends the first `cap` accepted items of type `t` exactly when it is of
      that type and fits. */
  lemma SplitStep(env: Env, pre: seq<Item>, m: Item, t: string)
    requires t == "movie" || t == "tv"
    ensures Take(Kept(env, pre + [m], t), env.cap)
      == Take(Kept(env, pre, t), env.cap) + (if Fits(env, pre, m) && m.mediaType == t then [m] else [])
  {
    KeptStep(env, pre, m, t);
    var k := Kept(env, pre, t);
    if |k| >= env.cap {
      TakeOfLongPrefix(k, if env.judge(m).verdict.Accept? && m.mediaType == t then [m] else [], env.cap);
    }
  }

  /** Offering an item appends what the reference predicts. */
  lemma OfferAppends(env: Env, b: Buckets, m: Item, pre: seq<Item>)
    requires Greedy(env, b, pre) && b.appended == Admits(env, pre)
    ensures Offer(env, b, m).appended == Admits(env, pre + [m])
  {
    AdmitsStep(env, pre, m);
    assert Admitted(env, b, m) <==> Fits(env, pre, m);
  }

  /** Once both buckets are full the page loop breaks at once, as the reference predicts. */
  lemma FullScanAppends(env: Env, b: Buckets, items: seq<Item>, pre: seq<Item>)
    requires Greedy(env, b, pre) && Full(env, b) && b.appended == Admits(env, pre)
    ensures ScanPage(env, b, items).appended == Admits(env, pre + items)
  {
    GreedyFull(env, b, pre);
    AdmitsSaturated(env, pre, items);
  }

  /** A whole page appends what the reference predicts, the early break included. */
  lemma {:induction false} ScanAppends(env: Env, b: Buckets, items: seq<Item>, pre: seq<Item>)
    requires Greedy(env, b, pre) && b.appended == Admits(env, pre)
    ensures ScanPage(env, b, items).appended == Admits(env, pre + items)
    decreases |items|, 1
  {
    if items == [] {
      assert pre + items == pre;
    } else if Full(env, b) {
      FullScanAppends(env, b, items, pre);
    } else {
      ScanAppendsStep(env, b, items, pre);
    }
  }

  /** The turn of `ScanAppends` that offers the page's first item. */
  lemma {:induction false} ScanAppendsStep(env: Env, b: Buckets, items: seq<Item>, pre: seq<Item>)
    requires Greedy(env, b, pre) && b.appended == Admits(env, pre) && items != [] && !Full(env, b)
    ensures ScanPage(env, b, items).appended == Admits(env, pre + items)
    decreases |items|, 0
  {
    var b' := Offer(env, b, items[0]);
    ScanPageStep(env, b, items);
    OfferAppends(env, b, items[0], pre);
    OfferGreedy(env, b, items[0], pre);
    ScanAppends(env, b', items[1..], pre + [items[0]]);
    FirstThenRest(pre, items);
  }

  // ---------------------------------------------------------------- main loop

  /** The inner loop over one page's results, as the outer loop sees it. */
  type PageStep = (Buckets, seq<Item>) -> Buckets

  /** The inner loop of the script. */
  function InnerLoop(env: Env): PageStep {
    (b, items) => ScanPage(env, b, items)
  }

  /** A property of the buckets and of the trending items the loop has handed to the inner loop
      so far. */
  type Invariant = (Buckets, seq<Item>) -> bool

  /** Running `scan` over a page keeps `inv`, the page's items counted as seen. */
  ghost predicate Preserves(scan: PageStep, inv: Invariant) {
    forall b, items, pre :: inv(b, pre) ==> inv(scan(b, items), pre + items)
  }

  /** The buckets are coherent with the append and request log. */
  function CoherentInv(env: Env): Invariant {
    (b, pre) => Coherent(env, b)
  }

  /** Each bucket is the first `cap` accepted items of its type seen so far. */
  function GreedyInv(env: Env): Invariant {
    (b, pre) => Greedy(env, b, pre)
  }

  /** The inner loop keeps the buckets coherent with the append and request log. */
  lemma InnerLoopCoherent(env: Env)
    ensures Preserves(InnerLoop(env), CoherentInv(env))
  {
    forall b, items, pre | CoherentInv(env)(b, pre)
      ensures CoherentInv(env)(InnerLoop(env)(b, items), pre + items)
    {
      ScanCoherent(env, b, items);
    }
  }

  /** The inner loop keeps each bucket the first `cap` accepted items of its type seen so far. */
  lemma InnerLoopGreedy(env: Env)
    ensures Preserves(InnerLoop(env), GreedyInv(env))
  {
    forall b, items, pre | GreedyInv(env)(b, pre)
      ensures GreedyInv(env)(InnerLoop(env)(b, items), pre + items)
    {
      ScanGreedy(env, b, items, pre);
    }
  }

  /** The lookups made so far are those the reference predicts for the items seen (alongside
      the greedy selection, which decides when the page loop breaks). */
  function LookupInv(env: Env): Invariant {
    (b, pre) => Greedy(env, b, pre) && b.lookups == Lookups(env, pre)
  }

  /** The inner loop makes the lookups the reference predicts. */
  lemma InnerLoopLookups(env: Env)
    ensures Preserves(InnerLoop(env), LookupInv(env))
  {
    forall b, items, pre | LookupInv(env)(b, pre)
      ensures LookupInv(env)(InnerLoop(env)(b, items), pre + items)
    {
      ScanGreedy(env, b, items, pre);
      ScanLookups(env, b, items, pre);
    }
  }

  /** The append log is the one the reference predicts for the items seen (alongside the
      greedy selection, which decides what fits). */
  function AppendInv(env: Env): Invariant {
    (b, pre) => Greedy(env, b, pre) && b.appended == Admits(env, pre)
  }

  /** The inner loop appends what the reference predicts. */
  lemma InnerLoopAppends(env: Env)
    ensures Preserves(InnerLoop(env), AppendInv(env))
  {
    forall b, items, pre | AppendInv(env)(b, pre)
      ensures AppendInv(env)(InnerLoop(env)(b, items), pre + items)
    {
      ScanGreedy(env, b, items, pre);
      ScanAppends(env, b, items, pre);
    }
  }

  datatype Outcome = Outcome(buckets: Buckets, fetched: seq<int>)

  /** The `while` loop of `main`, entered with cursor `page`: it runs while a bucket has room
      and the page budget lasts, stops at the first page that yields nothing, and hands every
      other page to `scan`. */
  function Collect(env: Env, scan: PageStep, page: int, b: Buckets, fetched: seq<int>): (r: Outcome)
    ensures |r.fetched| >= |fetched|
    decreases env.maxPages + 1 - page
  {
    if (|b.movies| < env.cap || |b.shows| < env.cap) && page <= env.maxPages then
      var results := FetchTrending(env.trending(page));
      if results == [] then Outcome(b, fetched + [page])
      else Collect(env, scan, page + 1, scan(b, results), fetched + [page])
    else
      Outcome(b, fetched)
  }

  /** The number of pages the loop fetches from cursor `page` on. */
  function Steps(env: Env, scan: PageStep, page: int, b: Buckets, fetched: seq<int>): nat {
    |Collect(env, scan, page, b, fetched).fetched| - |fetched|
  }

  /** Whatever the inner loop preserves, the outer loop preserves, over the stream of the pages
      it fetched. */
  lemma {:induction false} CollectPreserves(env: Env, scan: PageStep, inv: Invariant, page: int, b: Buckets,
                                            fetched: seq<int>, pre: seq<Item>)
    requires Preserves(scan, inv) && inv(b, pre)
    ensures inv(Collect(env, scan, page, b, fetched).buckets,
                pre + Stream(env, page, page + Steps(env, scan, page, b, fetched)))
    decreases env.maxPages + 1 - page
  {
    var n := Steps(env, scan, page, b, fetched);
    if (|b.movies| < env.cap || |b.shows| < env.cap) && page <= env.maxPages {
      var results := FetchTrending(env.trending(page));
      if results == [] {
        assert n == 1;
        assert Stream(env, page, page + 1) == [];
        assert pre + [] == pre;
      } else {
        var b' := scan(b, results);
        assert inv(b', pre + results);
        CollectPreserves(env, scan, inv, page + 1, b', fetched + [page], pre + results);
        assert Collect(env, scan, page, b, fetched) == Collect(env, scan, page + 1, b', fetched + [page]);
        assert n == Steps(env, scan, page + 1, b', fetched + [page]) + 1;
        StreamAfter(env, pre, page, page + n);
      }
    } else {
      assert n == 0;
      assert pre + Stream(env, page, page) == pre;
    }
  }

  /** The loop fetches consecutive pages from `page` on and never one above `maxPages`. */
  lemma {:induction false} CollectPages(env: Env, scan: PageStep, page: int, b: Buckets, fetched: seq<int>)
    ensures var n := Steps(env, scan, page, b, fetched);
      && Collect(env, scan, page, b, fetched).fetched == fetched + Pages(page, page + n)
      && (n == 0 || page + n - 1 <= env.maxPages)
    decreases env.maxPages + 1 - page
  {
    var n := Steps(env, scan, page, b, fetched);
    if (|b.movies| < env.cap || |b.shows| < env.cap) && page <= env.maxPages {
      var results := FetchTrending(env.trending(page));
      if results == [] {
        assert n == 1;
        assert Pages(page, page + 1) == [page];
      } else {
        var b' := scan(b, results);
        CollectPages(env, scan, page + 1, b', fetched + [page]);
        assert Collect(env, scan, page, b, fetched) == Collect(env, scan, page + 1, b', fetched + [page]);
        var n' := Steps(env, scan, page + 1, b', fetched + [page]);
        assert n == n' + 1;
        PagesAfter(fetched, page, page + n);
      }
    } else {
      assert n == 0;
    }
  }

  /** Both buckets of the greedy selection from `items` are full. */
  predicate Saturated(env: Env, items: seq<Item>) {
    |Kept(env, items, "movie")| >= env.cap && |Kept(env, items, "tv")| >= env.cap
  }

  /** Every page the loop fetched before its last one yielded items, and it ends for one of
      three reasons: both buckets full, page budget spent, or a page that yielded nothing. */
  lemma {:induction false} CollectEnds(env: Env, scan: PageStep, page: int, b: Buckets, fetched: seq<int>)
    ensures var n := Steps(env, scan, page, b, fetched);
      && (forall q :: page <= q < page + n - 1 ==> FetchTrending(env.trending(q)) != [])
      && (Full(env, Collect(env, scan, page, b, fetched).buckets) || page + n > env.maxPages
          || (n > 0 && FetchTrending(env.trending(page + n - 1)) == []))
    decreases env.maxPages + 1 - page
  {
    var n := Steps(env, scan, page, b, fetched);
    if (|b.movies| < env.cap || |b.shows| < env.cap) && page <= env.maxPages {
      var results := FetchTrending(env.trending(page));
      if results == [] {
        assert n == 1;
      } else {
        var b' := scan(b, results);
        CollectEnds(env, scan, page + 1, b', fetched + [page]);
        assert Collect(env, scan, page, b, fetched) == Collect(env, scan, page + 1, b', fetched + [page]);
        assert n == Steps(env, scan, page + 1, b', fetched + [page]) + 1;
      }
    } else {
      assert n == 0;
    }
  }

  /** The loop fetches a page only while the greedy selection from what it has fetched so far
      leaves a bucket with room. */
  lemma {:induction false} CollectRoom(env: Env, scan: PageStep, page: int, b: Buckets, fetched: seq<int>, pre: seq<Item>)
    requires Preserves(scan, GreedyInv(env)) && Greedy(env, b, pre)
    ensures var n := Steps(env, scan, page, b, fetched);
      forall q :: page <= q < page + n ==> !Saturated(env, pre + Stream(env, page, q))
    decreases env.maxPages + 1 - page
  {
    var n := Steps(env, scan, page, b, fetched);
    if (|b.movies| < env.cap || |b.shows| < env.cap) && page <= env.maxPages {
      assert pre + Stream(env, page, page) == pre;
      var results := FetchTrending(env.trending(page));
      if results == [] {
        assert n == 1;
      } else {
        var b' := scan(b, results);
        assert GreedyInv(env)(b', pre + results);
        CollectRoom(env, scan, page + 1, b', fetched + [page], pre + results);
        assert Collect(env, scan, page, b, fetched) == Collect(env, scan, page + 1, b', fetched + [page]);
        assert n == Steps(env, scan, page + 1, b', fetched + [page]) + 1;
        forall q | page < q < page + n
          ensures pre + Stream(env, page, q) == (pre + results) + Stream(env, page + 1, q)
        {
          StreamAfter(env, pre, page, q);
        }
      }
    } else {
      assert n == 0;
    }
  }

  /** The loop of `main` from page 1 with empty buckets, over the script's inner loop. */
  function Start(env: Env): Outcome {
    Collect(env, InnerLoop(env), 1, Empty, [])
  }

  /** From page 1 with empty buckets: each bucket is the first `cap` accepted items of its type
      in the fetched stream. */
  lemma StartGreedy(env: Env)
    ensures var r := Start(env);
      var stream := Stream(env, 1, 1 + |r.fetched|);
      && r.buckets.movies == Take(Kept(env, stream, "movie"), env.cap)
      && r.buckets.shows == Take(Kept(env, stream, "tv"), env.cap)
  {
    var n := Steps(env, InnerLoop(env), 1, Empty, []);
    InnerLoopGreedy(env);
    CollectPreserves(env, InnerLoop(env), GreedyInv(env), 1, Empty, [], []);
    assert [] + Stream(env, 1, 1 + n) == Stream(env, 1, 1 + n);
  }

  /** From page 1 with empty buckets: the buckets end coherent with the append and request log. */
  lemma StartCoherent(env: Env)
    ensures Coherent(env, Start(env).buckets)
  {
    InnerLoopCoherent(env);
    CollectPreserves(env, InnerLoop(env), CoherentInv(env), 1, Empty, [], []);
  }

  /** From page 1: the loop fetches pages 1, 2, ... and none above the budget. */
  lemma StartPages(env: Env)
    ensures var r := Start(env);
      r.fetched == Pages(1, 1 + |r.fetched|) && |r.fetched| <= Max(0, env.maxPages)
  {
    var r := Start(env);
    var n := Steps(env, InnerLoop(env), 1, Empty, []);
    CollectPages(env, InnerLoop(env), 1, Empty, []);
    assert r.fetched == [] + Pages(1, 1 + n);
    assert [] + Pages(1, 1 + n) == Pages(1, 1 + n);
  }

  /** From page 1 with empty buckets: the lookups are those the reference predicts for the
      fetched stream. */
  lemma StartLookups(env: Env)
    ensures var r := Start(env);
      r.buckets.lookups == Lookups(env, Stream(env, 1, 1 + |r.fetched|))
  {
    var n := Steps(env, InnerLoop(env), 1, Empty, []);
    InnerLoopLookups(env);
    assert LookupInv(env)(Empty, []);
    CollectPreserves(env, InnerLoop(env), LookupInv(env), 1, Empty, [], []);
    assert [] + Stream(env, 1, 1 + n) == Stream(env, 1, 1 + n);
  }

  /** From page 1 with empty buckets: the append log is the one the reference predicts for the
      fetched stream. */
  lemma StartAppends(env: Env)
    ensures var r := Start(env);
      r.buckets.appended == Admits(env, Stream(env, 1, 1 + |r.fetched|))
  {
    var n := Steps(env, InnerLoop(env), 1, Empty, []);
    InnerLoopAppends(env);
    assert AppendInv(env)(Empty, []);
    CollectPreserves(env, InnerLoop(env), AppendInv(env), 1, Empty, [], []);
    assert [] + Stream(env, 1, 1 + n) == Stream(env, 1, 1 + n);
  }

  /** From page 1 with empty buckets: a page is fetched only while some bucket has room, and the
      loop ends with both buckets full, the budget spent, or an empty page. */
  lemma StartStops(env: Env)
    ensures var r := Start(env);
      var n := |r.fetched|;
      && (forall q :: 1 <= q < n ==> FetchTrending(env.trending(q)) != [])
      && (forall q :: 1 <= q <= n ==> !Saturated(env, Stream(env, 1, q)))
      && (Saturated(env, Stream(env, 1, 1 + n)) || 1 + n > env.maxPages
          || (n > 0 && FetchTrending(env.trending(n)) == []))
  {
    var n := Steps(env, InnerLoop(env), 1, Empty, []);
    InnerLoopGreedy(env);
    CollectEnds(env, InnerLoop(env), 1, Empty, []);
    StartGreedy(env);
    CollectRoom(env, InnerLoop(env), 1, Empty, [], []);
    forall q | 1 <= q <= n
      ensures !Saturated(env, Stream(env, 1, q))
    {
      assert [] + Stream(env, 1, q) == Stream(env, 1, q);
    }
  }

  /** Everything the loop of `main` guarantees of its outcome: it fetched pages 1, 2, ...
      within the budget; every page before the last yielded items; a page was fetched only
      while the greedy selection so far left a bucket with room; it stopped with both buckets
      full, the budget spent or an empty page; the buckets are coherent with the append log,
      and the buckets, the append log and the lookups are those the references predict for the
      fetched stream. */
  ghost predicate CollectedFrom(o: Outcome, env: Env) {
    var n := |o.fetched|;
    var stream := Stream(env, 1, 1 + n);
    && o.fetched == Pages(1, 1 + n)
    && n <= Max(0, env.maxPages)
    && (forall q :: 1 <= q < n ==> FetchTrending(env.trending(q)) != [])
    && (forall q :: 1 <= q <= n ==> !Saturated(env, Stream(env, 1, q)))
    && (Saturated(env, stream) || n == Max(0, env.maxPages) || (n > 0 && FetchTrending(env.trending(n)) == []))
    && Coherent(env, o.buckets)
    && o.buckets.movies == Take(Kept(env, stream, "movie"), env.cap)
    && o.buckets.shows == Take(Kept(env, stream, "tv"), env.cap)
    && o.buckets.appended == Admits(env, stream)
    && o.buckets.lookups == Lookups(env, stream)
  }

  /** The guarantees pin the outcome down: two outcomes that both meet them for the same
      environment fetched the same pages, and so agree on everything. */
  lemma OutcomeDetermined(o1: Outcome, o2: Outcome, env: Env)
    requires CollectedFrom(o1, env) && CollectedFrom(o2, env)
    ensures o1 == o2
  {
    NoEarlierEnd(o1, o2, env);
    NoEarlierEnd(o2, o1, env);
    assert o1.buckets.dispatched == RequestAll(o1.buckets.appended, env.status);
  }

  /** An outcome that meets the guarantees cannot end before another one that does. */
  lemma NoEarlierEnd(o1: Outcome, o2: Outcome, env: Env)
    requires CollectedFrom(o1, env) && CollectedFrom(o2, env)
    ensures |o1.fetched| >= |o2.fetched|
  {
  }

  /** The loop of `main`, from page 1 with both buckets empty. */
  function CollectTrending(env: Env): (r: Outcome)
    ensures var n := |r.fetched|;
      && r.fetched == Pages(1, 1 + n)
      && n <= Max(0, env.maxPages)
      && Coherent(env, r.buckets)
      && r.buckets.movies == Take(Kept(env, Stream(env, 1, 1 + n), "movie"), env.cap)
      && r.buckets.shows == Take(Kept(env, Stream(env, 1, 1 + n), "tv"), env.cap)
      && r.buckets.appended == Admits(env, Stream(env, 1, 1 + n))
      && r.buckets.lookups == Lookups(env, Stream(env, 1, 1 + n))
      && (forall q :: 1 <= q < n ==> FetchTrending(env.trending(q)) != [])
      && (forall q :: 1 <= q <= n ==> !Saturated(env, Stream(env, 1, q)))
      && (Saturated(env, Stream(env, 1, 1 + n)) || n == Max(0, env.maxPages)
          || (n > 0 && FetchTrending(env.trending(n)) == []))
    ensures CollectedFrom(r, env)
  {
    StartPages(env);
    StartCoherent(env);
    StartGreedy(env);
    StartAppends(env);
    StartLookups(env);
    StartStops(env);
    Start(env)
  }

  /** A page whose fetch failed ends the loop: it is the last page fetched, and nothing after
      it is asked for. */
  lemma FailedFetchEndsLoop(env: Env)
    ensures var r := CollectTrending(env);
      forall q :: 1 <= q <= |r.fetched| && env.trending(q).PageFailed? ==> q == |r.fetched|
  {
    var r := CollectTrending(env);
    forall q | 1 <= q <= |r.fetched| && env.trending(q).PageFailed?
      ensures q == |r.fetched|
    {
      assert FetchTrending(env.trending(q)) == [];
    }
  }

  // ---------------------------------------------------------------- main

  /** A run of the script: login failed and nothing else happened, or the loop ran. */
  datatype Run = LoginFailed | Ran(outcome: Outcome)

  /** Buckets holding the greedy selection hold accepted items of their own type only. */
  lemma GreedyAccepted(env: Env, b: Buckets, pre: seq<Item>)
    requires Greedy(env, b, pre)
    ensures forall i :: 0 <= i < |b.movies| ==> b.movies[i].mediaType == "movie" && env.judge(b.movies[i]).verdict.Accept?
    ensures forall i :: 0 <= i < |b.shows| ==> b.shows[i].mediaType == "tv" && env.judge(b.shows[i]).verdict.Accept?
  {
    KeptSound(env, pre, "movie");
    KeptSound(env, pre, "tv");
    forall i | 0 <= i < |b.movies|
      ensures b.movies[i] == Kept(env, pre, "movie")[i]
    {
    }
    forall i | 0 <= i < |b.shows|
      ensures b.shows[i] == Kept(env, pre, "tv")[i]
    {
    }
  }

  /** Every bucketed item has its bucket's type and was accepted by `should_include`. */
  lemma BucketsAccepted(s: Settings, svc: Services)
    ensures var b := Start(EnvOf(s, svc)).buckets;
      && (forall i :: 0 <= i < |b.movies| ==>
            b.movies[i].mediaType == "movie" && ShouldInclude(b.movies[i], s, svc).verdict.Accept?)
      && (forall i :: 0 <= i < |b.shows| ==>
            b.shows[i].mediaType == "tv" && ShouldInclude(b.shows[i], s, svc).verdict.Accept?)
  {
    var env := EnvOf(s, svc);
    var o := Start(env);
    var b := o.buckets;
    StartGreedy(env);
    GreedyAccepted(env, b, Stream(env, 1, 1 + |o.fetched|));
    forall i | 0 <= i < |b.movies|
      ensures ShouldInclude(b.movies[i], s, svc).verdict.Accept?
    {
      assert env.judge(b.movies[i]) == ShouldInclude(b.movies[i], s, svc);
    }
    forall i | 0 <= i < |b.shows|
      ensures ShouldInclude(b.shows[i], s, svc).verdict.Accept?
    {
      assert env.judge(b.shows[i]) == ShouldInclude(b.shows[i], s, svc);
    }
  }

  /** The append log of coherent buckets splits into the two buckets, and every logged item was
      requested once, in order. */
  lemma LogSplits(env: Env, b: Buckets)
    requires Coherent(env, b)
    ensures |b.appended| == |b.movies| + |b.shows|
  {
    OfTypeSplit(b.appended);
  }

  /** `main`: the login gate, then the bucket loop. Each bucket holds at most `cap` items of its
      type, every one of them accepted by `should_include`; only movies and shows are appended,
      each to its own bucket; and exactly the appended items were requested, in the order they
      entered. */
  function Script(s: Settings, svc: Services): (r: Run)
    ensures r.LoginFailed? <==> !svc.loginOk
    ensures r.Ran? ==>
      var b := r.outcome.buckets;
      && |b.movies| <= s.cap && |b.shows| <= s.cap
      && (forall i :: 0 <= i < |b.movies| ==>
            b.movies[i].mediaType == "movie" && ShouldInclude(b.movies[i], s, svc).verdict.Accept?)
      && (forall i :: 0 <= i < |b.shows| ==>
            b.shows[i].mediaType == "tv" && ShouldInclude(b.shows[i], s, svc).verdict.Accept?)
      && MoviesAndShows(b.appended)
      && b.movies == OfType(b.appended, "movie") && b.shows == OfType(b.appended, "tv")
      && |b.appended| == |b.movies| + |b.shows|
      && b.dispatched == RequestAll(b.appended, svc.requestStatus)
      && (forall i :: 0 <= i < |r.outcome.fetched| ==> 1 <= r.outcome.fetched[i] <= s.maxPages)
    ensures r.Ran? ==> CollectedFrom(r.outcome, EnvOf(s, svc))
  {
    if !svc.loginOk then
      LoginFailed
    else
      var env := EnvOf(s, svc);
      var o := CollectTrending(env);
      BucketsAccepted(s, svc);
      LogSplits(env, o.buckets);
      Ran(o)
  }
}
