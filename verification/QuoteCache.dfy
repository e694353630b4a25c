/**
 The quote refresh and its cache of last good quotes (src/open_trader/dashboard_quotes.py),
 and the row counts that the snapshot reader demands of a quotes publication
 (`_parse_quotes` in src/open_trader/account_snapshot.py).
*/
module QuoteCache {
  import opened Prelude

  datatype Symbol = Symbol(prefix: string, code: string)

  const US := "US"

  datatype RowStatus = Quoted | Missing

  datatype Quote = Quote(
    status: RowStatus, price: real, session: string, current: bool,
    marketState: string, fetchedAt: string, stale: bool)

  type Rows = map<Symbol, Quote>

  datatype Price = Price(price: real, session: string, current: bool)

  /** How a snapshot is priced: for a US symbol the market state selects the session. */
  type Pricing = (Symbol, string, string, bool) -> Option<Price>

  /**
   What the quote service answered. `failed` are the market prefixes whose snapshot request failed;
   `states` is `None` when the market-state request failed.
  */
  datatype Answer = Answer(connected: bool, failed: set<string>, snapshots: map<Symbol, string>,
    states: Option<map<Symbol, string>>)

  datatype Refresh = Refresh(requested: set<Symbol>, at: string, answer: Answer)

  datatype PublicationStatus = Complete | Partial | Failed

  datatype Publication = Publication(
    status: PublicationStatus, requestedCount: int, quoteCount: int, missingCount: int,
    fetchedAt: string, lastSuccessAt: string, stale: bool, rows: Rows, fallbackCount: int)

  datatype Cache = Cache(lastSuccessAt: string, quotes: Rows)

  const EMPTY_CACHE := Cache("", map[])

  // ---------------------------------------------------------------- one refresh

  function Prefixes(symbols: set<Symbol>): set<string> {
    set s | s in symbols :: s.prefix
  }

  function UsSymbols(symbols: set<Symbol>): set<Symbol> {
    set s | s in symbols && s.prefix == US
  }

  /** The prefixes among the requested ones whose snapshot request failed. */
  function FailedPrefixes(r: Refresh): set<string> {
    Prefixes(r.requested) * r.answer.failed
  }

  /** No snapshot request succeeded. */
  predicate TotalFailure(r: Refresh) {
    r.requested != {} && (!r.answer.connected || FailedPrefixes(r) == Prefixes(r.requested))
  }

  /** The snapshots of the requests that succeeded. */
  function Snapshots(r: Refresh): map<Symbol, string> {
    map s | s in r.answer.snapshots && s in r.requested && s.prefix !in r.answer.failed :: r.answer.snapshots[s]
  }

  predicate StatesRequested(r: Refresh) {
    UsSymbols(r.requested) != {} && US !in FailedPrefixes(r)
  }

  function MarketState(r: Refresh, s: Symbol): string {
    if StatesRequested(r) && r.answer.states.Some? && s in r.answer.states.value then r.answer.states.value[s] else ""
  }

  /** The market states could not be had for every US symbol. */
  predicate StateError(r: Refresh) {
    StatesRequested(r) && (r.answer.states.None? || exists s :: s in UsSymbols(r.requested) && MarketState(r, s) == "")
  }

  function FreshRow(pricing: Pricing, r: Refresh, s: Symbol): Quote {
    var state := MarketState(r, s);
    var priced := if s in Snapshots(r) then pricing(s, Snapshots(r)[s], state, !StateError(r)) else None;
    match priced
    case None => Quote(Missing, 0.0, "", false, state, r.at, false)
    case Some(p) => Quote(Quoted, p.price, p.session, p.current, state, r.at, false)
  }

  function MissingRow(at: string): Quote {
    Quote(Missing, 0.0, "", false, "", at, false)
  }

  function MarkStale(rows: Rows): Rows {
    map s | s in rows :: rows[s].(stale := true)
  }

  function AcceptedQuotes(rows: Rows): Rows {
    map s | s in rows && !rows[s].status.Missing? :: rows[s]
  }

  /** All US symbols from the cache, or none of them. */
  function LastGoodUs(cache: Rows, us: set<Symbol>): Rows {
    if forall s :: s in us ==>
      s in cache && cache[s].status.Quoted? && cache[s].session != "" && cache[s].marketState != ""
    then map s | s in us :: cache[s].(stale := true)
    else map[]
  }

  function Reused(cache: Rows, r: Refresh): Rows {
    if US !in FailedPrefixes(r) && StateError(r) then LastGoodUs(cache, UsSymbols(r.requested)) else map[]
  }

  function RetainedFor(cache: Rows, r: Refresh): Rows {
    var accepted := MarkStale(AcceptedQuotes(cache));
    map s | s in accepted && s in r.requested && s.prefix in FailedPrefixes(r) :: accepted[s]
  }

  function PublishedRows(pricing: Pricing, cache: Rows, r: Refresh): Rows {
    if TotalFailure(r) then
      var retained := MarkStale(AcceptedQuotes(cache));
      (map s | s in r.requested && s !in retained :: MissingRow(r.at)) + retained
    else (map s | s in r.requested :: FreshRow(pricing, r, s)) + Reused(cache, r) + RetainedFor(cache, r)
  }

  function MissingIn(rows: Rows): set<Symbol> {
    set s | s in rows && rows[s].status.Missing?
  }

  function QuotedIn(rows: Rows): set<Symbol> {
    set s | s in rows && rows[s].status.Quoted?
  }

  predicate IsActive(marketState: string) {
    marketState in {"OVERNIGHT", "PRE_MARKET_BEGIN", "MORNING", "AFTERNOON", "AFTER_HOURS_BEGIN"}
  }

  /** Priced from another session than the active one. */
  function Fallbacks(cache: Rows, r: Refresh, rows: Rows): set<Symbol> {
    set s | s in rows && rows[s].status.Quoted? && !rows[s].current
      && IsActive(if s in Reused(cache, r) then rows[s].marketState else MarketState(r, s))
  }

  predicate IsCacheable(r: Refresh, rows: Rows) {
    !TotalFailure(r) && FailedPrefixes(r) == {} && MissingIn(rows) == {} && !StateError(r)
  }

  function NextCache(pricing: Pricing, c: Cache, r: Refresh): Cache {
    var rows := PublishedRows(pricing, c.quotes, r);
    if IsCacheable(r, rows) then Cache(r.at, rows)
    else if !TotalFailure(r) && FailedPrefixes(r) != {} && !StateError(r) then
      c.(quotes := c.quotes + map s | s in rows && s.prefix !in FailedPrefixes(r) && rows[s].status.Quoted? :: rows[s])
    else c
  }

  /** The publication for `rows`, with the counts and the status as `refresh` computes them. */
  function Describe(cache: Rows, r: Refresh, rows: Rows, lastSuccessAt: string): Publication {
    var missing := |MissingIn(rows)|;
    if TotalFailure(r) then
      Publication(Failed, |r.requested|, |rows| - missing, missing, r.at, lastSuccessAt, AcceptedQuotes(cache) != map[],
        rows, 0)
    else
      Assemble(r, rows, lastSuccessAt, missing, |Fallbacks(cache, r, rows)|, FailedPrefixes(r) != {} || StateError(r),
               Reused(cache, r) != map[] || RetainedFor(cache, r) != map[])
  }

  /** The publication of a refresh that reached some market. */
  function Assemble(r: Refresh, rows: Rows, lastSuccessAt: string, missing: nat, fallbacks: nat, errors: bool,
        stale: bool): Publication {
    Publication(if missing > 0 || fallbacks > 0 || errors then Partial else Complete,
                |r.requested|, |r.requested| - missing, missing, r.at, lastSuccessAt, stale, rows, fallbacks)
  }

  function Publish(pricing: Pricing, c: Cache, r: Refresh): Publication {
    Describe(c.quotes, r, PublishedRows(pricing, c.quotes, r), NextCache(pricing, c, r).lastSuccessAt)
  }

  /** The payload the worker publishes when the refresh itself raises. */
  function FailurePayload(c: Cache, at: string): Publication {
    Publication(Failed, 0, 0, 0, at, c.lastSuccessAt, c.quotes != map[], MarkStale(c.quotes), 0)
  }

  // ---------------------------------------------------------------- what the reader demands

  predicate RetainedFailure(p: Publication) {
    && p.status == Failed && p.requestedCount == 0 && p.quoteCount == 0 && p.missingCount == 0
    && p.rows != map[] && p.lastSuccessAt != ""
  }

  /** The count checks of `_parse_quotes`. */
  predicate CountsAccepted(p: Publication) {
    && p.requestedCount >= 0 && p.quoteCount >= 0 && p.missingCount >= 0
    && p.quoteCount + p.missingCount == p.requestedCount
    && (!RetainedFailure(p) && (p.status != Failed || p.rows != map[]) ==>
          && |p.rows| == p.requestedCount
          && |QuotedIn(p.rows)| == p.quoteCount
          && |MissingIn(p.rows)| == p.missingCount)
  }

  // ---------------------------------------------------------------- runs of refreshes

  /**
   The cache that a new service takes over from the published file; `expired` says that its success is too long ago.
  */
  function Seed(file: Option<Publication>, expired: bool): Cache {
    match file
    case None => EMPTY_CACHE
    case Some(p) => Cache(p.lastSuccessAt, if p.stale || expired then MarkStale(p.rows) else p.rows)
  }

  function CacheAfter(pricing: Pricing, seed: Cache, history: seq<Refresh>): Cache {
    if history == [] then seed
    else NextCache(pricing, CacheAfter(pricing, seed, history[..|history| - 1]), history[|history| - 1])
  }

  predicate RowGood(q: Quote) {
    q.status.Quoted? && !q.stale
  }

  predicate CacheGood(rows: Rows) {
    forall s :: s in rows ==> RowGood(rows[s])
  }

  /** Every row is fresh and quoted, or is still the one that the service started with. */
  predicate GoodOrSeeded(rows: Rows, seed: Rows) {
    forall s :: s in rows ==> RowGood(rows[s]) || (s in seed && rows[s] == seed[s])
  }

  /** The refresh saw every market, every price and every market state. */
  predicate SeesEverything(pricing: Pricing, r: Refresh) {
    && (r.requested != {} ==> r.answer.connected) && FailedPrefixes(r) == {} && !StateError(r)
    && forall s :: s in r.requested ==> FreshRow(pricing, r, s).status.Quoted?
  }

  /** The latest complete refresh, read off the history without the cache. */
  function LatestComplete(pricing: Pricing, history: seq<Refresh>): Option<Refresh> {
    if history == [] then None
    else if SeesEverything(pricing, history[|history| - 1]) then Some(history[|history| - 1])
    else LatestComplete(pricing, history[..|history| - 1])
  }

  lemma {:induction false} NoStaleWithoutErrors(pricing: Pricing, cache: Rows, r: Refresh, s: Symbol)
    requires !TotalFailure(r) && !StateError(r) && s in r.requested && s.prefix !in FailedPrefixes(r)
    ensures s in PublishedRows(pricing, cache, r) && PublishedRows(pricing, cache, r)[s] == FreshRow(pricing, r, s)
  {
  }

  /** Which symbols are published, whatever is cached. */
  lemma {:induction false} PublishedKeys(pricing: Pricing, cache: Rows, r: Refresh)
    ensures PublishedRows(pricing, cache, r).Keys == if TotalFailure(r) then r.requested + AcceptedQuotes(cache).Keys
                                                     else r.requested
  {
  }

  lemma {:induction false} CacheableIff(pricing: Pricing, cache: Rows, r: Refresh)
    ensures IsCacheable(r, PublishedRows(pricing, cache, r)) <==> SeesEverything(pricing, r)
  {
    var rows := PublishedRows(pricing, cache, r);
    PublishedKeys(pricing, cache, r);
    if r.requested != {} {
      var s :| s in r.requested;
      assert s.prefix in Prefixes(r.requested);
    }
    if !TotalFailure(r) && !StateError(r) && FailedPrefixes(r) == {} {
      forall s | s in r.requested ensures s in MissingIn(rows) <==> FreshRow(pricing, r, s).status.Missing? {
        NoStaleWithoutErrors(pricing, cache, r, s);
      }
      assert forall s :: s in MissingIn(rows) ==> s in r.requested;
    }
  }

  lemma {:induction false} NewEntriesFresh(pricing: Pricing, cache: Rows, r: Refresh, s: Symbol)
    requires !TotalFailure(r) && !StateError(r)
    requires s in PublishedRows(pricing, cache, r) && s.prefix !in FailedPrefixes(r)
    ensures !PublishedRows(pricing, cache, r)[s].stale
  {
    PublishedKeys(pricing, cache, r);
    NoStaleWithoutErrors(pricing, cache, r, s);
  }

  /** A complete refresh leaves only fresh quoted rows. */
  lemma {:induction false} CompleteCacheGood(pricing: Pricing, c: Cache, r: Refresh)
    requires SeesEverything(pricing, r)
    ensures CacheGood(NextCache(pricing, c, r).quotes) && NextCache(pricing, c, r).lastSuccessAt == r.at
  {
    var rows := PublishedRows(pricing, c.quotes, r);
    CacheableIff(pricing, c.quotes, r);
    forall s | s in rows ensures RowGood(rows[s]) {
      NewEntriesFresh(pricing, c.quotes, r, s);
      assert s !in MissingIn(rows);
    }
  }

  /** A refresh never caches a stale or missing row: what is not fresh and quoted was cached before. */
  lemma {:induction false} NextCacheGood(pricing: Pricing, c: Cache, r: Refresh)
    ensures GoodOrSeeded(NextCache(pricing, c, r).quotes, c.quotes)
  {
    var rows := PublishedRows(pricing, c.quotes, r);
    if SeesEverything(pricing, r) {
      CompleteCacheGood(pricing, c, r);
    } else {
      CacheableIff(pricing, c.quotes, r);
      if !TotalFailure(r) && !StateError(r) {
        forall s | s in rows && s.prefix !in FailedPrefixes(r) ensures !rows[s].stale {
          NewEntriesFresh(pricing, c.quotes, r, s);
        }
      }
    }
  }

  /**
   Over every run of refreshes from any seed: what is cached is fresh and quoted or comes from the seed, a complete
   refresh removes all of the seed, and the success time is that of the latest complete refresh, else the seed's.
  */
  lemma {:induction false} CacheInvariant(pricing: Pricing, seed: Cache, history: seq<Refresh>)
    ensures GoodOrSeeded(CacheAfter(pricing, seed, history).quotes, seed.quotes)
    ensures LatestComplete(pricing, history).Some? || CacheGood(seed.quotes) ==>
      CacheGood(CacheAfter(pricing, seed, history).quotes)
    ensures CacheAfter(pricing, seed, history).lastSuccessAt ==
            if LatestComplete(pricing, history).Some? then LatestComplete(pricing, history).value.at
            else seed.lastSuccessAt
  {
    if history == [] {
    } else {
      var c, r := CacheAfter(pricing, seed, history[..|history| - 1]), history[|history| - 1];
      CacheInvariant(pricing, seed, history[..|history| - 1]);
      NextCacheGood(pricing, c, r);
      CacheableIff(pricing, c.quotes, r);
      if SeesEverything(pricing, r) { CompleteCacheGood(pricing, c, r); }
    }
  }

  /** The refresh lost some market but caches a fresh quote of `s` from one that answered. */
  predicate Renews(pricing: Pricing, r: Refresh, s: Symbol) {
    && !TotalFailure(r) && FailedPrefixes(r) != {} && !StateError(r)
    && s in r.requested && s.prefix !in FailedPrefixes(r) && FreshRow(pricing, r, s).status.Quoted?
  }

  predicate Renewed(pricing: Pricing, history: seq<Refresh>, s: Symbol) {
    exists i :: 0 <= i < |history| && Renews(pricing, history[i], s)
  }

  lemma {:induction false} RenewedSnoc(pricing: Pricing, history: seq<Refresh>, s: Symbol)
    requires history != []
    ensures Renewed(pricing, history, s) <==>
      Renewed(pricing, history[..|history| - 1], s) || Renews(pricing, history[|history| - 1], s)
  {
    var before := history[..|history| - 1];
    if Renewed(pricing, before, s) {
      var i :| 0 <= i < |before| && Renews(pricing, before[i], s);
      assert history[i] == before[i];
    }
    if Renewed(pricing, history, s) {
      var i :| 0 <= i < |history| && Renews(pricing, history[i], s);
      if i < |before| { assert before[i] == history[i]; }
    }
  }

  /** An incomplete refresh replaces exactly the rows that it renews, by fresh quotes, and drops none. */
  lemma {:induction false} IncompleteStep(pricing: Pricing, c: Cache, r: Refresh, s: Symbol)
    requires !SeesEverything(pricing, r)
    ensures var next := NextCache(pricing, c, r).quotes;
      && (s in next <==> s in c.quotes || Renews(pricing, r, s))
      && (s in next ==> if Renews(pricing, r, s) then RowGood(next[s]) else next[s] == c.quotes[s])
  {
    CacheableIff(pricing, c.quotes, r);
    PublishedKeys(pricing, c.quotes, r);
    if !TotalFailure(r) && !StateError(r) && s in r.requested && s.prefix !in FailedPrefixes(r) {
      NoStaleWithoutErrors(pricing, c.quotes, r, s);
    }
  }

  /** Without a complete refresh, which rows of the seed are still there, and what the others are. */
  lemma {:induction false} SeedRows(pricing: Pricing, seed: Cache, history: seq<Refresh>, s: Symbol)
    requires LatestComplete(pricing, history).None?
    ensures var rows := CacheAfter(pricing, seed, history).quotes;
      && (s in rows <==> s in seed.quotes || Renewed(pricing, history, s))
      && (s in rows ==> if Renewed(pricing, history, s) then RowGood(rows[s]) else rows[s] == seed.quotes[s])
  {
    if history != [] {
      SeedRows(pricing, seed, history[..|history| - 1], s);
      RenewedSnoc(pricing, history, s);
      IncompleteStep(pricing, CacheAfter(pricing, seed, history[..|history| - 1]), history[|history| - 1], s);
    }
  }

  /**
   Exactly when the cache of a seeded service holds only fresh quoted rows: some refresh was complete, or every
   row of the seed was such a row or has been renewed.
  */
  lemma {:induction false} CacheGoodIff(pricing: Pricing, seed: Cache, history: seq<Refresh>)
    ensures CacheGood(CacheAfter(pricing, seed, history).quotes) <==>
      || LatestComplete(pricing, history).Some?
      || forall s :: s in seed.quotes ==> RowGood(seed.quotes[s]) || Renewed(pricing, history, s)
  {
    CacheInvariant(pricing, seed, history);
    if LatestComplete(pricing, history).None? {
      var rows := CacheAfter(pricing, seed, history).quotes;
      forall s ensures && (s in rows <==> s in seed.quotes || Renewed(pricing, history, s))
                       && (s in rows ==> if Renewed(pricing, history, s) then RowGood(rows[s])
                                         else rows[s] == seed.quotes[s])
      {
        SeedRows(pricing, seed, history, s);
      }
    }
  }

  /** Exactly when a restart takes over a cache of fresh quoted rows. */
  lemma {:induction false} SeedGoodIff(p: Publication, expired: bool)
    ensures CacheGood(Seed(Some(p), expired).quotes) <==> p.rows == map[] || (!p.stale && !expired && CacheGood(p.rows))
  {
    if p.rows != map[] && (p.stale || expired) {
      var s :| s in p.rows;
      assert s in MarkStale(p.rows) && MarkStale(p.rows)[s].stale;
    }
  }

  /** A price missing from the only market asked for is published, and a restart then caches the missing row. */
  lemma {:induction false} RestartCachesMissing(pricing: Pricing, s: Symbol)
    requires s.prefix != US
    ensures var r := Refresh({s}, "t", Answer(true, {}, map[], None));
      var p := Publish(pricing, EMPTY_CACHE, r);
      CountsAccepted(p) && s in Seed(Some(p), false).quotes && Seed(Some(p), false).quotes[s].status.Missing?
  {
    var r := Refresh({s}, "t", Answer(true, {}, map[], None));
    assert UsSymbols(r.requested) == {};
    assert s.prefix in Prefixes(r.requested);
    PublicationAccepted(pricing, EMPTY_CACHE, r);
    assert !Publish(pricing, EMPTY_CACHE, r).stale;
  }

  // ---------------------------------------------------------------- what a publication says

  /** A quote of another session than the one that the market state calls for. */
  predicate IsFallback(pricing: Pricing, r: Refresh, s: Symbol) {
    FreshRow(pricing, r, s).status.Quoted? && !FreshRow(pricing, r, s).current && IsActive(MarketState(r, s))
  }

  lemma {:induction false} FallbacksOfComplete(pricing: Pricing, cache: Rows, r: Refresh)
    requires SeesEverything(pricing, r)
    ensures Fallbacks(cache, r, PublishedRows(pricing, cache, r)) == set s | s in r.requested
      && IsFallback(pricing, r, s)
  {
    var rows := PublishedRows(pricing, cache, r);
    CacheableIff(pricing, cache, r);
    PublishedKeys(pricing, cache, r);
    assert Reused(cache, r) == map[];
    forall s | s in r.requested ensures s in rows && rows[s] == FreshRow(pricing, r, s) {
      NoStaleWithoutErrors(pricing, cache, r, s);
    }
  }

  lemma {:induction false} NoFallbacksIff(pricing: Pricing, cache: Rows, r: Refresh)
    requires SeesEverything(pricing, r)
    ensures Fallbacks(cache, r, PublishedRows(pricing, cache, r)) == {} <==>
      forall s :: s in r.requested ==> !IsFallback(pricing, r, s)
  {
    FallbacksOfComplete(pricing, cache, r);
    var all := set s | s in r.requested && IsFallback(pricing, r, s);
    assert forall s :: s in r.requested && IsFallback(pricing, r, s) ==> s in all;
  }

  lemma {:induction false} DescribedComplete(cache: Rows, r: Refresh, rows: Rows, lastSuccessAt: string)
    ensures Describe(cache, r, rows, lastSuccessAt).status == Complete <==>
      IsCacheable(r, rows) && Fallbacks(cache, r, rows) == {}
  {
  }

  /** "ok" means that everything was seen and that every price is of the session that is active. */
  lemma {:induction false} CompleteIff(pricing: Pricing, c: Cache, r: Refresh)
    ensures Publish(pricing, c, r).status == Complete <==>
      SeesEverything(pricing, r) && forall s :: s in r.requested ==> !IsFallback(pricing, r, s)
  {
    DescribedComplete(c.quotes, r, PublishedRows(pricing, c.quotes, r), NextCache(pricing, c, r).lastSuccessAt);
    CacheableIff(pricing, c.quotes, r);
    if SeesEverything(pricing, r) { NoFallbacksIff(pricing, c.quotes, r); }
  }

  /** "failed" means that no market was reached; anything else that is not "ok" is "partial". */
  lemma {:induction false} FailedIff(pricing: Pricing, c: Cache, r: Refresh)
    ensures Publish(pricing, c, r).status == Failed <==> TotalFailure(r)
  {
  }

  /** A fresh row carries the price of its own snapshot in the session that its market state selects, or is missing. */
  lemma {:induction false} FreshRowPriced(pricing: Pricing, r: Refresh, s: Symbol)
    requires s in r.requested
    ensures var row := FreshRow(pricing, r, s);
      && row.fetchedAt == r.at && !row.stale && row.marketState == MarketState(r, s)
      && (s !in r.answer.snapshots || s.prefix in r.answer.failed ==> row.status.Missing?)
      && (s in r.answer.snapshots && s.prefix !in r.answer.failed ==>
            match pricing(s, r.answer.snapshots[s], MarketState(r, s), !StateError(r))
            case None => row.status.Missing?
            case Some(p) =>
              row.status.Quoted? && row.price == p.price && row.session == p.session && row.current == p.current)
  {
  }

  /** What is published for each symbol. */
  lemma {:induction false} PublishedRow(pricing: Pricing, cache: Rows, r: Refresh, s: Symbol)
    requires s in r.requested
    ensures var rows := PublishedRows(pricing, cache, r);
      var cached := s in cache && cache[s].status.Quoted?;
      && s in rows
      && (TotalFailure(r) || s.prefix in FailedPrefixes(r) ==>
            if cached then rows[s] == cache[s].(stale := true) else rows[s].status.Missing? && !rows[s].stale)
      && (!TotalFailure(r) && s.prefix !in FailedPrefixes(r) ==>
            if s in Reused(cache, r) then cached && StateError(r) && rows[s] == cache[s].(stale := true)
            else rows[s] == FreshRow(pricing, r, s))
  {
  }

  /** The US rows of a refresh without market states are all taken from the cache or all fresh. */
  lemma {:induction false} ReusedAllOrNone(cache: Rows, r: Refresh)
    ensures Reused(cache, r) == map[] || (StateError(r) && Reused(cache, r).Keys == UsSymbols(r.requested))
    ensures forall s :: s in Reused(cache, r) ==>
      s in cache && cache[s].session != "" && cache[s].marketState != "" && Reused(cache, r)[s].stale
  {
  }

  /** A publication is stale exactly when one of its rows is. */
  lemma {:induction false} StaleIff(pricing: Pricing, c: Cache, r: Refresh)
    ensures var p := Publish(pricing, c, r); p.stale <==> exists s :: s in p.rows && p.rows[s].stale
  {
    var rows := PublishedRows(pricing, c.quotes, r);
    if TotalFailure(r) {
      StaleFailure(pricing, c.quotes, r);
    } else {
      StaleAnswer(pricing, c.quotes, r);
    }
  }

  lemma {:induction false} StaleFailure(pricing: Pricing, cache: Rows, r: Refresh)
    requires TotalFailure(r)
    ensures var rows := PublishedRows(pricing, cache, r);
      AcceptedQuotes(cache) != map[] <==> exists s :: s in rows && rows[s].stale
  {
    var rows := PublishedRows(pricing, cache, r);
    if AcceptedQuotes(cache) != map[] {
      var s :| s in AcceptedQuotes(cache);
      assert s in rows && rows[s].stale;
    }
  }

  lemma {:induction false} StaleAnswer(pricing: Pricing, cache: Rows, r: Refresh)
    requires !TotalFailure(r)
    ensures var rows := PublishedRows(pricing, cache, r);
      Reused(cache, r) != map[] || RetainedFor(cache, r) != map[] <==> exists s :: s in rows && rows[s].stale
  {
    var rows := PublishedRows(pricing, cache, r);
    if RetainedFor(cache, r) != map[] {
      var s :| s in RetainedFor(cache, r);
      assert s in rows && rows[s].stale;
    } else if Reused(cache, r) != map[] {
      var s :| s in Reused(cache, r);
      assert s in rows && rows[s].stale;
    }
  }

  /** A publication that is not failed is taken only if its counts are those of its rows. */
  lemma {:induction false} MiscountRefused(p: Publication)
    requires p.status != Failed
    requires |p.rows| != p.requestedCount || |QuotedIn(p.rows)| != p.quoteCount || |MissingIn(p.rows)| != p.missingCount
    ensures !CountsAccepted(p)
  {
  }

  // ---------------------------------------------------------------- which publications the reader takes

  lemma {:induction false} RowsSplit(rows: Rows)
    ensures |QuotedIn(rows)| + |MissingIn(rows)| == |rows|
  {
    assert QuotedIn(rows) + MissingIn(rows) == rows.Keys && QuotedIn(rows) !! MissingIn(rows);
  }

  lemma {:induction false} UnionSize(a: set<Symbol>, b: set<Symbol>)
    ensures |a + b| == |a| <==> b <= a
  {
    assert a + b == a + (b - a) && a !! (b - a);
    assert |a + b| == |a| + |b - a|;
    if b <= a { assert b - a == {}; }
  }

  /** Whatever is cached, a refresh that reached some market publishes counts that the reader takes. */
  lemma {:induction false} PublicationAccepted(pricing: Pricing, c: Cache, r: Refresh)
    requires !TotalFailure(r)
    ensures CountsAccepted(Publish(pricing, c, r))
  {
    PublishedKeys(pricing, c.quotes, r);
    var rows := PublishedRows(pricing, c.quotes, r);
    assert |rows| == |rows.Keys|;
    RowsSplit(rows);
  }

  /**
   A refresh that reached no market retains every quoted row of the cache without looking at what is requested
   now, so its counts add up exactly when none of these symbols has left the universe.
  */
  lemma {:induction false} TotalFailureAcceptedIff(pricing: Pricing, c: Cache, r: Refresh)
    requires TotalFailure(r)
    ensures CountsAccepted(Publish(pricing, c, r)) <==> AcceptedQuotes(c.quotes).Keys <= r.requested
  {
    PublishedKeys(pricing, c.quotes, r);
    var rows := PublishedRows(pricing, c.quotes, r);
    assert |rows| == |rows.Keys|;
    RowsSplit(rows);
    UnionSize(r.requested, AcceptedQuotes(c.quotes).Keys);
  }

  /** A position sold between a complete refresh and a total failure is enough to have the publication refused. */
  lemma {:induction false} ShrunkUniverseRefused(pricing: Pricing, seed: Cache, first: Refresh, r: Refresh,
        sold: Symbol)
    requires SeesEverything(pricing, first) && sold in first.requested
    requires TotalFailure(r) && sold !in r.requested
    ensures !CountsAccepted(Publish(pricing, CacheAfter(pricing, seed, [first]), r))
  {
    assert [first][..0] == [];
    CacheableIff(pricing, seed.quotes, first);
    PublishedKeys(pricing, seed.quotes, first);
    CompleteCacheGood(pricing, seed, first);
    var c := CacheAfter(pricing, seed, [first]);
    assert sold in AcceptedQuotes(c.quotes);
    TotalFailureAcceptedIff(pricing, c, r);
  }

  /** The worker's own failure payload is taken unless rows are cached and no success is known. */
  lemma {:induction false} FailurePayloadAcceptedIff(c: Cache, at: string)
    ensures CountsAccepted(FailurePayload(c, at)) <==> c.quotes == map[] || c.lastSuccessAt != ""
  {
    var rows := MarkStale(c.quotes);
    assert rows.Keys == c.quotes.Keys;
    if c.quotes == map[] {
      assert rows == map[];
    } else {
      var s :| s in c.quotes;
      assert s in rows && |rows| == |rows.Keys| && rows.Keys != {};
    }
  }

  /** In terms of the history of a service that started with an empty cache. */
  lemma {:induction false} FailurePayloadAfter(pricing: Pricing, history: seq<Refresh>, at: string)
    ensures var c := CacheAfter(pricing, EMPTY_CACHE, history);
      CountsAccepted(FailurePayload(c, at)) <==>
        c.quotes == map[] || (LatestComplete(pricing, history).Some? && LatestComplete(pricing, history).value.at != "")
  {
    CacheInvariant(pricing, EMPTY_CACHE, history);
    FailurePayloadAcceptedIff(CacheAfter(pricing, EMPTY_CACHE, history), at);
  }

  const HELD := Symbol("HK", "00700")
  const LOST := Symbol(US, "AAPL")

  /** The Hong Kong snapshot arrives, the request for the US one fails. */
  const FIRST_LOSS := Refresh({HELD, LOST}, "t", Answer(true, {US}, map[HELD := "snapshot"], None))

  lemma {:induction false} FirstLossPartial()
    ensures FailedPrefixes(FIRST_LOSS) == {US} && !TotalFailure(FIRST_LOSS) && !StateError(FIRST_LOSS)
    ensures HELD in FIRST_LOSS.requested && HELD.prefix !in FailedPrefixes(FIRST_LOSS) && HELD in Snapshots(FIRST_LOSS)
  {
    assert HELD in FIRST_LOSS.requested && LOST in FIRST_LOSS.requested;
    assert "HK" in Prefixes(FIRST_LOSS.requested) && US in Prefixes(FIRST_LOSS.requested);
  }

  /** A refresh that lost a market does not count as a success. */
  lemma {:induction false} LossKeepsSuccess(pricing: Pricing, c: Cache, r: Refresh)
    requires FailedPrefixes(r) != {}
    ensures NextCache(pricing, c, r).lastSuccessAt == c.lastSuccessAt
  {
  }

  /** After one partial first refresh, a refresh that raises publishes a payload that the reader refuses. */
  lemma {:induction false} FirstLossRefused(pricing: Pricing, at: string)
    requires pricing(HELD, "snapshot", "", true).Some?
    ensures !CountsAccepted(FailurePayload(CacheAfter(pricing, EMPTY_CACHE, [FIRST_LOSS]), at))
  {
    FirstLossPartial();
    assert [FIRST_LOSS][..0] == [];
    assert US in FailedPrefixes(FIRST_LOSS);
    NoStaleWithoutErrors(pricing, map[], FIRST_LOSS, HELD);
    LossKeepsSuccess(pricing, EMPTY_CACHE, FIRST_LOSS);
    var c := CacheAfter(pricing, EMPTY_CACHE, [FIRST_LOSS]);
    assert HELD in c.quotes;
    FailurePayloadAcceptedIff(c, at);
  }

  // ---------------------------------------------------------------- the service

  /** The requests market by market: which failed, and the snapshots of the others. */
  method RequestSnapshots(r: Refresh) returns (errors: set<string>, snapshots: map<Symbol, string>)
    ensures errors == FailedPrefixes(r) && snapshots == Snapshots(r)
  {
    errors, snapshots := {}, map[];
    var todo, asked := Prefixes(r.requested), {};
    while todo != {}
      invariant asked + todo == Prefixes(r.requested) && asked !! todo
      invariant errors == asked * r.answer.failed
      invariant snapshots == map s | s in Snapshots(r) && s.prefix in asked :: Snapshots(r)[s]
      decreases todo
    {
      var prefix :| prefix in todo;
      if prefix in r.answer.failed {
        errors := errors + {prefix};
      } else {
        snapshots := snapshots + map s | s in r.answer.snapshots && s in r.requested && s.prefix == prefix ::
          r.answer.snapshots[s];
      }
      asked, todo := asked + {prefix}, todo - {prefix};
    }
    assert forall s :: s in Snapshots(r) ==> s.prefix in asked;
  }

  /** `_mark_stale`. */
  method MarkEachStale(rows: Rows) returns (stale: Rows)
    ensures stale == MarkStale(rows)
  {
    stale := map[];
    var todo := rows.Keys;
    while todo != {}
      invariant todo <= rows.Keys && stale.Keys == rows.Keys - todo
      invariant forall s :: s in stale ==> stale[s] == rows[s].(stale := true)
      decreases todo
    {
      var s :| s in todo;
      stale := stale[s := rows[s].(stale := true)];
      todo := todo - {s};
    }
  }

  /** `_last_good_us_quotes`: one unusable row and nothing is reused. */
  method CollectLastGoodUs(cache: Rows, us: set<Symbol>) returns (rows: Rows)
    ensures rows == LastGoodUs(cache, us)
  {
    rows := map[];
    var todo := us;
    while todo != {}
      invariant todo <= us && rows.Keys == us - todo
      invariant forall s :: s in rows ==>
        s in cache && cache[s].status.Quoted? && cache[s].session != "" && cache[s].marketState != ""
      invariant forall s :: s in rows ==> rows[s] == cache[s].(stale := true)
      decreases todo
    {
      var s :| s in todo;
      if s !in cache || !cache[s].status.Quoted? || cache[s].session == ""
        || cache[s].marketState == "" { return map[]; }
      rows := rows[s := cache[s].(stale := true)];
      todo := todo - {s};
    }
  }

  /** The rows of a refresh that reached no market: missing ones first, then everything retained on top. */
  method FailureRows(cache: Rows, r: Refresh) returns (rows: Rows)
    requires TotalFailure(r)
    ensures forall pricing :: rows == PublishedRows(pricing, cache, r)
  {
    var retained := MarkEachStale(AcceptedQuotes(cache));
    rows := map[];
    var todo := r.requested;
    while todo != {}
      invariant todo <= r.requested
      invariant rows == map s | s in r.requested && s !in todo && s !in retained :: MissingRow(r.at)
      decreases todo
    {
      var s :| s in todo;
      if s !in retained { rows := rows[s := MissingRow(r.at)]; }
      todo := todo - {s};
    }
    rows := rows + retained;
  }

  /** `_quote_row` for every requested symbol. */
  method FreshRows(pricing: Pricing, r: Refresh, snapshots: map<Symbol, string>, stateError: bool) returns (rows: Rows)
    requires snapshots == Snapshots(r) && stateError == StateError(r)
    ensures rows == map s | s in r.requested :: FreshRow(pricing, r, s)
  {
    rows := map[];
    var todo := r.requested;
    while todo != {}
      invariant todo <= r.requested && rows.Keys == r.requested - todo
      invariant forall s :: s in rows ==> rows[s] == FreshRow(pricing, r, s)
      decreases todo
    {
      var s :| s in todo;
      var state := MarketState(r, s);
      var priced := if s in snapshots then pricing(s, snapshots[s], state, !stateError) else None;
      rows := rows[s :=
        if priced.Some? then Quote(Quoted, priced.value.price, priced.value.session, priced.value.current, state, r.at,
          false)
        else Quote(Missing, 0.0, "", false, state, r.at, false)];
      todo := todo - {s};
    }
  }

  /** The cached quotes of the requested symbols whose market failed. */
  method RetainedRows(cache: Rows, r: Refresh, failed: set<string>) returns (rows: Rows)
    requires failed == FailedPrefixes(r)
    ensures rows == RetainedFor(cache, r)
  {
    var stale := MarkEachStale(AcceptedQuotes(cache));
    rows := map[];
    var todo := stale.Keys;
    while todo != {}
      invariant todo <= stale.Keys
      invariant rows == map s | s in RetainedFor(cache, r) && s !in todo :: stale[s]
      decreases todo
    {
      var s :| s in todo;
      if s in r.requested && s.prefix in failed { rows := rows[s := stale[s]]; }
      todo := todo - {s};
    }
  }

  /** The cache with the quoted rows of the markets that answered. */
  method MergeAnswered(cache: Rows, rows: Rows, failed: set<string>) returns (merged: Rows)
    ensures merged == cache + map s | s in rows && s.prefix !in failed && rows[s].status.Quoted? :: rows[s]
  {
    merged := cache;
    var todo := rows.Keys;
    while todo != {}
      invariant todo <= rows.Keys
      invariant merged == cache + map s | s in rows && s !in todo && s.prefix !in failed && rows[s].status.Quoted? ::
        rows[s]
      decreases todo
    {
      var s :| s in todo;
      if s.prefix !in failed && rows[s].status.Quoted? { merged := merged[s := rows[s]]; }
      todo := todo - {s};
    }
  }

  method CountMissing(rows: Rows) returns (n: nat)
    ensures n == |MissingIn(rows)|
  {
    n := 0;
    var todo, counted := rows.Keys, {};
    while todo != {}
      invariant todo <= rows.Keys && counted == set s | s in rows && s !in todo && rows[s].status.Missing?
      invariant n == |counted|
      decreases todo
    {
      var s :| s in todo;
      if rows[s].status.Missing? { n, counted := n + 1, counted + {s}; }
      todo := todo - {s};
    }
    assert counted == MissingIn(rows);
  }

  method CountFallbacks(cache: Rows, r: Refresh, rows: Rows, reused: Rows) returns (n: nat)
    requires reused == Reused(cache, r)
    ensures n == |Fallbacks(cache, r, rows)|
  {
    n := 0;
    var todo, counted := rows.Keys, {};
    while todo != {}
      invariant todo <= rows.Keys && counted == set s | s in Fallbacks(cache, r, rows) && s !in todo
      invariant n == |counted|
      decreases todo
    {
      var s :| s in todo;
      var state := if s in reused then rows[s].marketState else MarketState(r, s);
      if rows[s].status.Quoted? && !rows[s].current && IsActive(state) { n, counted := n + 1, counted + {s}; }
      todo := todo - {s};
    }
    assert counted == Fallbacks(cache, r, rows);
  }

  class QuoteService {
    const pricing: Pricing
    var lastSuccessAt: string
    var lastQuotes: Rows
    ghost const seed: Cache
    ghost var history: seq<Refresh>

    ghost predicate Valid()
      reads this
    {
      Contents() == CacheAfter(pricing, seed, history)
    }

    function Contents(): Cache
      reads this
    {
      Cache(lastSuccessAt, lastQuotes)
    }

    /** A new service takes over what was published. */
    constructor (pricing: Pricing, published: Option<Publication>, expired: bool)
      ensures Valid() && history == [] && this.pricing == pricing && seed == Seed(published, expired)
    {
      this.pricing, history, seed := pricing, [], Seed(published, expired);
      var start := Seed(published, expired);
      lastSuccessAt, lastQuotes := start.lastSuccessAt, start.quotes;
    }

    /** A complete refresh replaces the cache; one that lost some markets updates only the others. */
    method Remember(r: Refresh, rows: Rows, errors: set<string>, missing: nat)
      requires !TotalFailure(r) && rows == PublishedRows(pricing, lastQuotes, r)
      requires errors == FailedPrefixes(r) && missing == |MissingIn(rows)|
      modifies this`lastSuccessAt, this`lastQuotes
      ensures Contents() == NextCache(pricing, old(Contents()), r)
    {
      if errors == {} && missing == 0 && !StateError(r) {
        lastSuccessAt, lastQuotes := r.at, rows;
      } else if errors != {} && !StateError(r) {
        lastQuotes := MergeAnswered(lastQuotes, rows, errors);
      }
    }

    /** Fresh rows, the reused US rows on top of them, and the retained ones on top of those. */
    method BuildRows(r: Refresh, errors: set<string>, snapshots: map<Symbol, string>)
        returns (rows: Rows, reused: Rows, retained: Rows)
      requires !TotalFailure(r) && errors == FailedPrefixes(r) && snapshots == Snapshots(r)
      ensures rows == PublishedRows(pricing, lastQuotes, r)
      ensures reused == Reused(lastQuotes, r) && retained == RetainedFor(lastQuotes, r)
    {
      rows := FreshRows(pricing, r, snapshots, StateError(r));
      reused := map[];
      if US !in errors && StateError(r) { reused := CollectLastGoodUs(lastQuotes, UsSymbols(r.requested)); }
      retained := RetainedRows(lastQuotes, r, errors);
      rows := rows + reused;
      rows := rows + retained;
    }

    method PublishFailure(r: Refresh) returns (p: Publication)
      requires TotalFailure(r)
      ensures p == Publish(pricing, Contents(), r) && Contents() == NextCache(pricing, Contents(), r)
    {
      var rows := FailureRows(lastQuotes, r);
      assert rows == PublishedRows(pricing, lastQuotes, r);
      var missing := CountMissing(rows);
      p := Publication(Failed, |r.requested|, |rows| - missing, missing, r.at, lastSuccessAt,
        AcceptedQuotes(lastQuotes) != map[], rows, 0);
    }

    /** The counts and the status of an answer; `before` is the cache that the rows were built from. */
    method DescribeAnswer(r: Refresh, before: Rows, rows: Rows, errors: set<string>, missing: nat, reused: Rows,
          retained: Rows) returns (p: Publication)
      requires !TotalFailure(r) && errors == FailedPrefixes(r) && missing == |MissingIn(rows)|
      requires reused == Reused(before, r) && retained == RetainedFor(before, r)
      ensures p == Describe(before, r, rows, lastSuccessAt)
    {
      var fallbacks := CountFallbacks(before, r, rows, reused);
      p := Assemble(r, rows, lastSuccessAt, missing, fallbacks, errors != {} || StateError(r), reused != map[]
        || retained != map[]);
    }

    method PublishAnswer(r: Refresh, errors: set<string>, snapshots: map<Symbol, string>) returns (p: Publication)
      requires !TotalFailure(r) && errors == FailedPrefixes(r) && snapshots == Snapshots(r)
      modifies this`lastSuccessAt, this`lastQuotes
      ensures p == Publish(pricing, old(Contents()), r) && Contents() == NextCache(pricing, old(Contents()), r)
    {
      var before := lastQuotes;
      var rows, reused, retained := BuildRows(r, errors, snapshots);
      var missing := CountMissing(rows);
      Remember(r, rows, errors, missing);
      p := DescribeAnswer(r, before, rows, errors, missing, reused, retained);
    }

    method Refresh(r: Refresh) returns (p: Publication)
      requires Valid()
      modifies this
      ensures Valid() && history == old(history) + [r]
      ensures p == Publish(pricing, old(Contents()), r)
    {
      var errors, snapshots := RequestSnapshots(r);
      if r.requested != {} && (!r.answer.connected || errors == Prefixes(r.requested)) {
        p := PublishFailure(r);
      } else {
        p := PublishAnswer(r, errors, snapshots);
      }
      history := history + [r];
      assert history[..|history| - 1] == old(history);
    }
  }
}
