/**
 The account snapshot reader (src/open_trader/account_snapshot.py).

 The worker replaces the account file, the quotes file and the heartbeat separately. The
 reader reads account and quotes twice around the heartbeat, retries when anything moved,
 and checks that the published projection is the one that the pair of files implies.
 Decoding, projecting, hashing and text functions are parameters.
*/
module AccountSnapshot {
  import opened Prelude
  import opened AccountState
  import opened Sorting
  import Q = QuoteCache

  type Bytes = string

  datatype BrokerSummary = BrokerSummary(broker: string, body: string)

  datatype Position = Position(
    broker: string, alias: string, market: string, assetClass: string, symbol: string,
    priceAsOf: string, valuationAsOf: Option<string>, body: string)

  datatype CashBalance = CashBalance(broker: string, alias: string, currency: string, body: string)

  datatype Projection = Projection(
    generatedAt: string, quoteAsOf: string, summary: string,
    brokerSummaries: seq<BrokerSummary>, positions: seq<Position>, cash: seq<CashBalance>)

  /** A decoded account file; `order` is the order in which the file lists the brokers. */
  datatype Account = Account(
    version: int, order: seq<Broker>, brokers: map<Broker, Source>,
    statements: Option<map<Broker, Generation>>, holdings: Option<map<Broker, Generation>>,
    projection: Projection)

  datatype PublicPosition = PublicPosition(position: Position, instrumentId: string, positionId: string)

  /** What the two generation hashes are taken of. */
  datatype AccountBasis = AccountBasis(
    summary: string, brokerSummaries: seq<BrokerSummary>, positions: seq<PublicPosition>, cash: seq<CashBalance>,
    asOf: string, dataAsOf: map<Broker, string>,
    statements: map<Broker, Generation>, holdings: map<Broker, Generation>)

  datatype BrokerView = BrokerView(kind: Kind, stale: bool, dataAsOf: string, lastSuccessAt: string)

  datatype Alert = BrokerAlert(broker: Broker) | QuotesAlert

  datatype Body = Body(
    accountGeneration: string, statements: map<Broker, Generation>, holdings: map<Broker, Generation>,
    generatedAt: string, quoteAsOf: string, stale: bool,
    accountStale: bool, accountAsOf: string, brokers: map<Broker, BrokerView>, quotesStale: bool,
    apiSha: string, workerSha: string,
    summary: string, brokerSummaries: seq<BrokerSummary>, positions: seq<PublicPosition>, cash: seq<CashBalance>,
    alerts: seq<Alert>)

  datatype Payload = Payload(snapshotGeneration: string, body: Body)

  datatype Code =
    | AccountMissing | AccountInvalid | SchemaUnsupported | AccountUnstable
    | QuotesMissing | QuotesInvalid | ReleaseMismatch

  datatype Snapshot = Available(payload: Payload, etag: string) | Unavailable(code: Code)

  datatype Env = Env(
    decodeAccount: Bytes -> Option<Account>, decodeQuotes: Bytes -> Option<Q.Publication>,
      workerSha: Bytes -> Option<string>,
    instant: string -> Option<real>, isGitSha: string -> bool,
    rowValid: (Q.Symbol, Q.Quote) -> bool, projectionValid: Projection -> bool,
    project: (map<Broker, Source>, Q.Publication, string) -> Option<Projection>,
    universe: map<Broker, Source> -> set<Q.Symbol>,
    normalizeTime: (string, string) -> string,
    upper: string -> string, lower: string -> string, strip: string -> string,
    opaqueId: (string, seq<string>) -> string,
    hashAccount: AccountBasis -> string, hashSnapshot: Body -> string)

  const ACCOUNT_STALE_SECONDS := 180.0
  const MAX_ATTEMPTS := 3

  // ---------------------------------------------------------------- parsing

  predicate IsAware(env: Env, text: string) {
    env.instant(text).Some?
  }

  predicate OrderLists(account: Account) {
    && |account.order| == 4
    && (forall b :: b in account.order ==> b in account.brokers)
    && (forall b :: b in account.brokers ==> b in account.order)
    && (forall i, j :: 0 <= i < j < |account.order| ==> account.order[i] != account.order[j])
  }

  /** `is_valid_account_publication`, and that the listed order is an order of the brokers. */
  predicate PublicationValid(env: Env, a: Account) {
    && GenerationsValid(a.statements) && GenerationsValid(a.holdings)
    && HasRequired(a.brokers) && SourcesValid(a.brokers) && OrderLists(a)
    && env.projectionValid(a.projection)
  }

  function ParseAccount(env: Env, raw: Bytes): Result<Account, Code> {
    match env.decodeAccount(raw)
    case None => Err(AccountInvalid)
    case Some(a) =>
      if a.version != 1 then Err(SchemaUnsupported)
      else if !PublicationValid(env, a) then Err(AccountInvalid)
      else Ok(a)
  }

  predicate RowsValid(env: Env, rows: Q.Rows) {
    forall s :: s in rows ==> env.rowValid(s, rows[s])
  }

  function ParseQuotes(env: Env, raw: Bytes): Result<Q.Publication, Code> {
    match env.decodeQuotes(raw)
    case None => Err(QuotesInvalid)
    case Some(q) =>
      if && IsAware(env, q.fetchedAt) && (q.lastSuccessAt == "" || IsAware(env, q.lastSuccessAt))
         && RowsValid(env, q.rows) && Q.CountsAccepted(q)
      then Ok(q) else Err(QuotesInvalid)
  }

  // ---------------------------------------------------------------- the semantic pairing check

  function PublicView(env: Env, p: Position): Position {
    p.(priceAsOf := env.normalizeTime(p.market, p.priceAsOf),
       valuationAsOf := if p.valuationAsOf.Some? then Some(env.normalizeTime(p.market, p.valuationAsOf.value))
                        else None)
  }

  function PublicViews(env: Env, ps: seq<Position>): seq<Position> {
    seq(|ps|, i requires 0 <= i < |ps| => PublicView(env, ps[i]))
  }

  function ContractView(env: Env, p: Projection): Projection {
    p.(positions := PublicViews(env, p.positions))
  }

  /** The published projection is the one that these account and quotes files imply. */
  predicate ProjectionPaired(env: Env, a: Account, q: Q.Publication) {
    var expected := env.project(a.brokers, q, a.projection.generatedAt);
    expected.Some? && ContractView(env, expected.value) == ContractView(env, a.projection)
  }

  predicate CompleteCoverage(env: Env, brokers: map<Broker, Source>, q: Q.Publication) {
    forall s :: s in env.universe(brokers) ==> s in q.rows && q.rows[s].status.Quoted? && env.rowValid(s, q.rows[s])
  }

  /** The cases in which the pairing check is skipped. */
  predicate IncompleteRefresh(env: Env, a: Account, q: Q.Publication) {
    || (q.status == Q.Partial && q.missingCount > 0)
    || (q.status == Q.Failed && !CompleteCoverage(env, a.brokers, q))
  }

  // ---------------------------------------------------------------- the double collect

  /** The files at one instant. */
  datatype World = World(account: Option<Bytes>, quotes: Option<Bytes>, heartbeat: Option<Bytes>)

  datatype Stable = Stable(account: Account, quotes: Q.Publication, workerSha: string)

  datatype Attempt = Got(stable: Stable) | Retry(workerSha: string) | Raise(code: Code, workerSha: string)

  /** One attempt whose five reads saw these contents. */
  function Collect(env: Env, account1: Option<Bytes>, quotes1: Option<Bytes>, heartbeat: Option<Bytes>,
                   account2: Option<Bytes>, quotes2: Option<Bytes>): Attempt {
    if account1.None? then Raise(AccountMissing, "")
    else if quotes1.None? then Raise(QuotesMissing, "")
    else if heartbeat.None? || env.workerSha(heartbeat.value).None? then Raise(ReleaseMismatch, "")
    else
      var sha := env.workerSha(heartbeat.value).value;
      if account2.None? then Raise(AccountMissing, sha)
      else if quotes2.None? then Raise(QuotesMissing, sha)
      else if account1 != account2 || quotes1 != quotes2 then Retry(sha)
      else
        match ParseAccount(env, account1.value)
        case Err(code) => Raise(code, sha)
        case Ok(a) =>
          match ParseQuotes(env, quotes1.value)
          case Err(code) => Raise(code, sha)
          case Ok(q) =>
            if a.projection.quoteAsOf != q.lastSuccessAt then Retry(sha)
            else if !IncompleteRefresh(env, a, q) && !ProjectionPaired(env, a, q) then Retry(sha)
            else Got(Stable(a, q, sha))
  }

  /** The instants of the five reads of each attempt, in order. */
  predicate Schedule(history: seq<World>, when: seq<nat>) {
    && |when| == 5 * MAX_ATTEMPTS
    && (forall i :: 0 <= i < |when| ==> when[i] < |history|)
    && (forall i, j :: 0 <= i <= j < |when| ==> when[i] <= when[j])
  }

  function AttemptAt(env: Env, history: seq<World>, when: seq<nat>, k: nat): Attempt
    requires Schedule(history, when) && k < MAX_ATTEMPTS
  {
    Collect(env, history[when[5 * k]].account, history[when[5 * k + 1]].quotes, history[when[5 * k + 2]].heartbeat,
            history[when[5 * k + 3]].account, history[when[5 * k + 4]].quotes)
  }

  function LoadFrom(env: Env, history: seq<World>, when: seq<nat>, k: nat, sha: string): Result<Stable, (Code, string)>
    requires Schedule(history, when) && k <= MAX_ATTEMPTS
    decreases MAX_ATTEMPTS - k
  {
    if k == MAX_ATTEMPTS then Err((AccountUnstable, sha))
    else
      match AttemptAt(env, history, when, k)
      case Got(stable) => Ok(stable)
      case Raise(code, s) => Err((code, s))
      case Retry(s) => LoadFrom(env, history, when, k + 1, s)
  }

  /** `_load_stable_publication` as it runs. */
  method LoadStablePublication(env: Env, history: seq<World>, when: seq<nat>)
      returns (r: Result<Stable, (Code, string)>)
    requires Schedule(history, when)
    ensures r == LoadFrom(env, history, when, 0, "")
  {
    var sha := "";
    for k := 0 to MAX_ATTEMPTS
      invariant LoadFrom(env, history, when, 0, "") == LoadFrom(env, history, when, k, sha)
    {
      var attempt := AttemptAt(env, history, when, k);
      match attempt {
        case Got(stable) => return Ok(stable);
        case Raise(code, s) => return Err((code, s));
        case Retry(s) => sha := s;
      }
    }
    return Err((AccountUnstable, sha));
  }

  // ---------------------------------------------------------------- building the snapshot

  predicate HasAccepted(env: Env, s: Source) {
    !s.status.Unknown? && s.lastSuccessAt != "" && IsAware(env, s.lastSuccessAt)
  }

  predicate AllAccepted(env: Env, brokers: map<Broker, Source>) {
    forall b :: b in brokers ==> HasAccepted(env, brokers[b])
  }

  /** Python's `max` by instant: the first of the latest, in the order given. */
  function LatestSuccess(env: Env, brokers: map<Broker, Source>, order: seq<Broker>): string
    requires order != [] && (forall b :: b in order ==> b in brokers) && AllAccepted(env, brokers)
  {
    var last := brokers[order[|order| - 1]].lastSuccessAt;
    if |order| == 1 then last
    else
      var before := LatestSuccess(env, brokers, order[..|order| - 1]);
      if LaterThan(env, last, before) then last else before
  }

  predicate LaterThan(env: Env, a: string, b: string) {
    env.instant(a).Some? && env.instant(b).Some? && env.instant(a).value > env.instant(b).value
  }

  /** `effective_source_status` followed by `_is_broker_stale`. */
  function EffectiveStatus(env: Env, s: Source, now: real): string {
    match s.status
    case Failed => "failed"
    case Unknown => "unknown"
    case Accepted =>
      if s.kind != Live then "ok"
      else match env.instant(s.lastSuccessAt)
        case None => "stale"
        case Some(t) => if now - t > ACCOUNT_STALE_SECONDS then "stale" else "ok"
  }

  predicate BrokerStale(env: Env, s: Source, now: real) {
    s.status.Failed? || EffectiveStatus(env, s, now) == "stale"
  }

  const SORTED_BROKERS: seq<Broker> := [Eastmoney, Futu, Phillips, Tiger]

  function BrokerAlerts(stale: Broker -> bool, names: seq<Broker>): seq<Alert> {
    if names == [] then []
    else (if stale(names[0]) then [BrokerAlert(names[0])] else []) + BrokerAlerts(stale, names[1..])
  }

  predicate AnyStale(env: Env, brokers: map<Broker, Source>, now: real) {
    exists b :: b in brokers && BrokerStale(env, brokers[b], now)
  }

  function BrokerViews(env: Env, brokers: map<Broker, Source>, now: real): map<Broker, BrokerView> {
    map b | b in brokers ::
      BrokerView(brokers[b].kind, BrokerStale(env, brokers[b], now), brokers[b].dataAsOf, brokers[b].lastSuccessAt)
  }

  function Alerts(env: Env, brokers: map<Broker, Source>, now: real, quotesStale: bool): seq<Alert> {
    AlertsOf(b => b in brokers && BrokerStale(env, brokers[b], now), quotesStale)
  }

  function AlertsOf(stale: Broker -> bool, quotesStale: bool): seq<Alert> {
    BrokerAlerts(stale, SORTED_BROKERS) + if quotesStale then [QuotesAlert] else []
  }

  function InstrumentId(env: Env, market: string, assetClass: string, symbol: string): string {
    env.opaqueId("ins_", [env.upper(env.strip(market)), env.lower(env.strip(assetClass)), env.upper(env.strip(symbol))])
  }

  function PositionRow(env: Env, p: Position): PublicPosition {
    var position := PublicView(env, p);
    var instrument := InstrumentId(env, position.market, position.assetClass, position.symbol);
    PublicPosition(position, instrument,
                   env.opaqueId("pos_", [env.lower(env.strip(position.broker)), env.strip(position.alias), instrument]))
  }

  function PositionKey(p: PublicPosition): seq<string> {
    [p.position.broker, p.position.alias, p.position.market, p.position.assetClass, p.position.symbol, p.positionId]
  }

  function SummaryKey(s: BrokerSummary): seq<string> {
    [s.broker]
  }

  function CashKey(c: CashBalance): seq<string> {
    [c.broker, c.alias, c.currency]
  }

  function PublicRows(env: Env, ps: seq<Position>): seq<PublicPosition> {
    seq(|ps|, i requires 0 <= i < |ps| => PositionRow(env, ps[i]))
  }

  function SortedPositions(env: Env, ps: seq<Position>): seq<PublicPosition> {
    SortRows(PublicRows(env, ps), PositionKey)
  }

  function GenerationsOr(g: Option<map<Broker, Generation>>): map<Broker, Generation> {
    if g.Some? && g.value != map[] then g.value else NO_GENERATIONS
  }

  /** `_build_snapshot`. */
  function Build(env: Env, a: Account, q: Q.Publication, apiSha: string, workerSha: string, now: real): Snapshot
    requires PublicationValid(env, a)
  {
    if !AllAccepted(env, a.brokers) then Unavailable(AccountMissing)
    else if !CompleteCoverage(env, a.brokers, q) then Unavailable(QuotesMissing)
    else if !IsAware(env, q.lastSuccessAt) then Unavailable(QuotesMissing)
    else if q.status == Q.Partial && q.missingCount > 0 then Unavailable(QuotesMissing)
    else
      var p := a.projection;
      var asOf := LatestSuccess(env, a.brokers, REQUIRED);
      var accountStale := AnyStale(env, a.brokers, now);
      var quotesStale := q.status == Q.Failed;
      var summaries := SortRows(p.brokerSummaries, SummaryKey);
      var positions := SortedPositions(env, p.positions);
      var cash := SortRows(p.cash, CashKey);
      var statements, holdings := GenerationsOr(a.statements), GenerationsOr(a.holdings);
      var generation := env.hashAccount(AccountBasis(
        p.summary, summaries, positions, cash, asOf, map b | b in a.brokers ::
          a.brokers[b].dataAsOf, statements, holdings));
      var body := Body(
        generation, statements, holdings, p.generatedAt, q.lastSuccessAt, accountStale || quotesStale,
        accountStale, asOf, BrokerViews(env, a.brokers, now), quotesStale, apiSha, workerSha,
        p.summary, summaries, positions, cash, Alerts(env, a.brokers, now, quotesStale));
      var generated := env.hashSnapshot(body);
      Available(Payload(generated, body), Etag(generated))
  }

  function Etag(generation: string): string {
    "\"account-v1-" + (if "sha256:" <= generation then generation[7..] else generation) + "\""
  }

  /** `load_account_snapshot`. */
  function Load(env: Env, history: seq<World>, when: seq<nat>, apiSha: string, now: real): Snapshot
    requires Schedule(history, when)
  {
    match LoadFrom(env, history, when, 0, "")
    case Err((code, _)) => Unavailable(code)
    case Ok(stable) =>
      if !env.isGitSha(apiSha) || apiSha != stable.workerSha then Unavailable(ReleaseMismatch)
      else if PublicationValid(env, stable.account) then Build(env, stable.account, stable.quotes, apiSha,
        stable.workerSha, now)
      else Unavailable(AccountInvalid)
  }

  // ---------------------------------------------------------------- every interleaving

  /**
   What an attempt that returned `stable` read: twice the same account, twice the same quotes, and a pair that fits.
  */
  ghost predicate Saw(env: Env, account1: Option<Bytes>, quotes1: Option<Bytes>, account2: Option<Bytes>,
        quotes2: Option<Bytes>, stable: Stable) {
    && account1.Some? && account1 == account2 && quotes1.Some? && quotes1 == quotes2
    && ParseAccount(env, account1.value) == Ok(stable.account) && ParseQuotes(env, quotes1.value) == Ok(stable.quotes)
    && stable.account.projection.quoteAsOf == stable.quotes.lastSuccessAt
    && (IncompleteRefresh(env, stable.account, stable.quotes) || ProjectionPaired(env, stable.account, stable.quotes))
  }

  /** What the successful attempt saw: `t` are the instants of its five reads. */
  ghost predicate SeenAt(env: Env, history: seq<World>, t: seq<nat>, stable: Stable) {
    && |t| == 5 && (forall i :: 0 <= i < 5 ==> t[i] < |history|) && t[0] <= t[1] <= t[2] <= t[3] <= t[4]
    && Saw(env, history[t[0]].account, history[t[1]].quotes, history[t[3]].account, history[t[4]].quotes, stable)
  }

  /** An attempt succeeds exactly with what two equal pairs of reads around a readable heartbeat decode to. */
  lemma {:induction false} CollectGotIff(env: Env, account1: Option<Bytes>, quotes1: Option<Bytes>,
      heartbeat: Option<Bytes>, account2: Option<Bytes>, quotes2: Option<Bytes>, stable: Stable)
    ensures Collect(env, account1, quotes1, heartbeat, account2, quotes2) == Got(stable) <==>
      && heartbeat.Some? && env.workerSha(heartbeat.value) == Some(stable.workerSha)
      && Saw(env, account1, quotes1, account2, quotes2, stable)
  {
  }

  lemma {:induction false} CollectSaw(env: Env, account1: Option<Bytes>, quotes1: Option<Bytes>,
        heartbeat: Option<Bytes>,
                   account2: Option<Bytes>, quotes2: Option<Bytes>)
    requires Collect(env, account1, quotes1, heartbeat, account2, quotes2).Got?
    ensures Saw(env, account1, quotes1, account2, quotes2,
      Collect(env, account1, quotes1, heartbeat, account2, quotes2).stable)
  {
  }

  lemma {:induction false} AttemptSaw(env: Env, history: seq<World>, when: seq<nat>, k: nat) returns (t: seq<nat>)
    requires Schedule(history, when) && k < MAX_ATTEMPTS && AttemptAt(env, history, when, k).Got?
    ensures SeenAt(env, history, t, AttemptAt(env, history, when, k).stable)
  {
    t := when[5 * k..5 * k + 5];
    CollectSaw(env, history[when[5 * k]].account, history[when[5 * k + 1]].quotes, history[when[5 * k + 2]].heartbeat,
               history[when[5 * k + 3]].account, history[when[5 * k + 4]].quotes);
  }

  lemma {:induction false} LoadSees(env: Env, history: seq<World>, when: seq<nat>, k: nat, sha: string)
    requires Schedule(history, when) && k <= MAX_ATTEMPTS
    requires LoadFrom(env, history, when, k, sha).Ok?
    ensures exists t :: SeenAt(env, history, t, LoadFrom(env, history, when, k, sha).value)
    decreases MAX_ATTEMPTS - k
  {
    match AttemptAt(env, history, when, k) {
      case Got(stable) => var t := AttemptSaw(env, history, when, k);
      case Retry(s) => LoadSees(env, history, when, k + 1, s);
    }
  }

  /** Exactly when a stable pair yields a snapshot. */
  lemma {:induction false} AvailableIff(env: Env, a: Account, q: Q.Publication, apiSha: string, workerSha: string,
        now: real)
    requires PublicationValid(env, a)
    ensures Build(env, a, q, apiSha, workerSha, now).Available? <==>
      && AllAccepted(env, a.brokers) && CompleteCoverage(env, a.brokers, q) && IsAware(env, q.lastSuccessAt)
      && !(q.status == Q.Partial && q.missingCount > 0)
  {
  }

  /** The branches that skip the pairing check always end unavailable. */
  lemma {:induction false} SkippedPairingIsUnavailable(env: Env, a: Account, q: Q.Publication, apiSha: string,
        workerSha: string, now: real)
    requires PublicationValid(env, a) && IncompleteRefresh(env, a, q)
    ensures Build(env, a, q, apiSha, workerSha, now).Unavailable?
  {
  }

  /**
   The pairing check is skipped for exactly the failed or partial refreshes that the snapshot would refuse: with
   accepted sources and a known success, a failed refresh without full coverage or a partial one with missing prices.
  */
  lemma {:induction false} SkippedIffRefused(env: Env, a: Account, q: Q.Publication, api: string, worker: string,
        now: real)
    requires PublicationValid(env, a) && AllAccepted(env, a.brokers) && IsAware(env, q.lastSuccessAt)
    requires q.status == Q.Failed || (q.status == Q.Partial && CompleteCoverage(env, a.brokers, q))
    ensures IncompleteRefresh(env, a, q) <==> Build(env, a, q, api, worker, now).Unavailable?
  {
    AvailableIff(env, a, q, api, worker, now);
  }

  /** What is decoded is refused unless it is of the supported version and valid. */
  lemma {:induction false} AccountParsedIff(env: Env, raw: Bytes, a: Account)
    ensures ParseAccount(env, raw) == Ok(a) <==>
      env.decodeAccount(raw) == Some(a) && a.version == 1 && PublicationValid(env, a)
    ensures env.decodeAccount(raw) == Some(a) && a.version != 1 ==> ParseAccount(env, raw) == Err(SchemaUnsupported)
  {
  }

  lemma {:induction false} QuotesParsedIff(env: Env, raw: Bytes, q: Q.Publication)
    ensures ParseQuotes(env, raw) == Ok(q) <==>
      && env.decodeQuotes(raw) == Some(q) && Q.CountsAccepted(q) && env.instant(q.fetchedAt).Some?
      && (q.lastSuccessAt != "" ==> env.instant(q.lastSuccessAt).Some?)
      && forall s :: s in q.rows ==> env.rowValid(s, q.rows[s])
  {
  }

  /** Three attempts that all saw something move end as unstable. */
  lemma {:induction false} UnstableAfterThree(env: Env, history: seq<World>, when: seq<nat>)
    requires Schedule(history, when) && forall k :: 0 <= k < 3 ==> AttemptAt(env, history, when, k).Retry?
    ensures LoadFrom(env, history, when, 0, "") == Err((AccountUnstable, AttemptAt(env, history, when, 2).workerSha))
  {
    var one, two := AttemptAt(env, history, when, 0).workerSha, AttemptAt(env, history, when, 1).workerSha;
    assert LoadFrom(env, history, when, 0, "") == LoadFrom(env, history, when, 1, one);
    assert LoadFrom(env, history, when, 1, one) == LoadFrom(env, history, when, 2, two);
  }

  /** A pair fits exactly when the recomputed projection shows the same figures, rows, times and texts. */
  lemma {:induction false} PairedIff(env: Env, a: Account, q: Q.Publication)
    ensures ProjectionPaired(env, a, q) <==>
      && env.project(a.brokers, q, a.projection.generatedAt).Some?
      && var p, x := a.projection, env.project(a.brokers, q, a.projection.generatedAt).value;
      && x.generatedAt == p.generatedAt && x.quoteAsOf == p.quoteAsOf && x.summary == p.summary
      && x.brokerSummaries == p.brokerSummaries && x.cash == p.cash && |x.positions| == |p.positions|
      && forall i :: 0 <= i < |p.positions| ==> PublicView(env, x.positions[i]) == PublicView(env, p.positions[i])
  {
    if env.project(a.brokers, q, a.projection.generatedAt).Some? {
      ViewsEqualIff(env, env.project(a.brokers, q, a.projection.generatedAt).value.positions, a.projection.positions);
    }
  }

  lemma {:induction false} ViewsEqualIff(env: Env, xs: seq<Position>, ps: seq<Position>)
    ensures PublicViews(env, xs) == PublicViews(env, ps) <==>
      |xs| == |ps| && forall i :: 0 <= i < |ps| ==> PublicView(env, xs[i]) == PublicView(env, ps[i])
  {
    if PublicViews(env, xs) == PublicViews(env, ps) {
      assert |PublicViews(env, xs)| == |PublicViews(env, ps)|;
      forall i | 0 <= i < |ps| ensures PublicView(env, xs[i]) == PublicView(env, ps[i]) {
        assert PublicViews(env, xs)[i] == PublicViews(env, ps)[i];
      }
    }
  }

  /** One symbol without a valid price of its own is enough to have no snapshot. */
  lemma {:induction false} UnpricedIsUnavailable(env: Env, a: Account, q: Q.Publication, api: string, worker: string,
      now: real, s: Q.Symbol)
    requires PublicationValid(env, a) && s in env.universe(a.brokers)
    requires s !in q.rows || !q.rows[s].status.Quoted? || !env.rowValid(s, q.rows[s])
    ensures Build(env, a, q, api, worker, now).Unavailable?
  {
    AvailableIff(env, a, q, api, worker, now);
  }

  /** An accepted live source goes stale after 180 seconds; statements and manual sources never do. */
  lemma {:induction false} StaleAfter(env: Env, s: Source, now: real, at: real)
    requires s.status.Accepted? && env.instant(s.lastSuccessAt) == Some(at)
    ensures BrokerStale(env, s, now) <==> s.kind == Live && now - at > 180.0
  {
  }

  // ---------------------------------------------------------------- what an available snapshot shows

  function Standing(alert: Alert): nat {
    match alert
    case QuotesAlert => 5
    case BrokerAlert(b) =>
      (match b case Eastmoney => 0 case Futu => 1 case Phillips => 2 case Tiger => 3 case Other(_) => 4)
  }

  lemma {:induction false} AlertsUnrolled(stale: Broker -> bool)
    ensures BrokerAlerts(stale, SORTED_BROKERS) ==
      (if stale(Eastmoney) then [BrokerAlert(Eastmoney)] else []) + (if stale(Futu) then [BrokerAlert(Futu)] else [])
      + (if stale(Phillips) then [BrokerAlert(Phillips)] else []) + (if stale(Tiger) then [BrokerAlert(Tiger)] else [])
  {
    assert SORTED_BROKERS[1..] == [Futu, Phillips, Tiger] && [Futu, Phillips, Tiger][1..] == [Phillips, Tiger];
    assert [Phillips, Tiger][1..] == [Tiger] && [Tiger][1..] == [];
  }

  predicate InOrder(alerts: seq<Alert>) {
    forall i, j :: 0 <= i < j < |alerts| ==> Standing(alerts[i]) < Standing(alerts[j])
  }

  /** The alerts so far are of lower standing than `n`. */
  predicate Below(alerts: seq<Alert>, n: nat) {
    forall i :: 0 <= i < |alerts| ==> Standing(alerts[i]) < n
  }

  function Add(alerts: seq<Alert>, on: bool, alert: Alert): seq<Alert> {
    alerts + if on then [alert] else []
  }

  lemma {:induction false} AddExact(alerts: seq<Alert>, on: bool, alert: Alert)
    requires InOrder(alerts) && Below(alerts, Standing(alert))
    ensures InOrder(Add(alerts, on, alert)) && Below(Add(alerts, on, alert), Standing(alert) + 1)
    ensures forall x :: x in Add(alerts, on, alert) <==> x in alerts || (on && x == alert)
  {
  }

  lemma {:induction false} BelowMore(alerts: seq<Alert>, n: nat, m: nat)
    requires Below(alerts, n) && n <= m
    ensures Below(alerts, m)
  {
  }

  /** Five alerts, each raised or not, in their standing order. */
  lemma {:induction false} FiveAlerts(eastmoney: bool, futu: bool, phillips: bool, tiger: bool, quotes: bool)
    returns (alerts: seq<Alert>)
    ensures alerts == Add(Add(Add(Add(Add([], eastmoney, BrokerAlert(Eastmoney)), futu, BrokerAlert(Futu)),
      phillips, BrokerAlert(Phillips)), tiger, BrokerAlert(Tiger)), quotes, QuotesAlert)
    ensures InOrder(alerts)
    ensures forall x :: x in alerts <==>
      || (eastmoney && x == BrokerAlert(Eastmoney)) || (futu && x == BrokerAlert(Futu))
      || (phillips && x == BrokerAlert(Phillips)) || (tiger && x == BrokerAlert(Tiger)) || (quotes && x == QuotesAlert)
  {
    AddExact([], eastmoney, BrokerAlert(Eastmoney));
    alerts := Add([], eastmoney, BrokerAlert(Eastmoney));
    AddExact(alerts, futu, BrokerAlert(Futu));
    alerts := Add(alerts, futu, BrokerAlert(Futu));
    AddExact(alerts, phillips, BrokerAlert(Phillips));
    alerts := Add(alerts, phillips, BrokerAlert(Phillips));
    AddExact(alerts, tiger, BrokerAlert(Tiger));
    alerts := Add(alerts, tiger, BrokerAlert(Tiger));
    BelowMore(alerts, 4, 5);
    AddExact(alerts, quotes, QuotesAlert);
    alerts := Add(alerts, quotes, QuotesAlert);
  }

  lemma {:induction false} AlertsOfExact(stale: Broker -> bool, quotesStale: bool)
    ensures InOrder(AlertsOf(stale, quotesStale))
    ensures QuotesAlert in AlertsOf(stale, quotesStale) <==> quotesStale
    ensures forall b :: BrokerAlert(b) in AlertsOf(stale, quotesStale) <==> IsRequired(b) && stale(b)
  {
    var alerts := FiveAlerts(stale(Eastmoney), stale(Futu), stale(Phillips), stale(Tiger), quotesStale);
    AlertsAdded(stale, quotesStale);
  }

  lemma {:induction false} AlertsAdded(stale: Broker -> bool, quotesStale: bool)
    ensures AlertsOf(stale, quotesStale) ==
      Add(Add(Add(Add(Add([], stale(Eastmoney), BrokerAlert(Eastmoney)), stale(Futu), BrokerAlert(Futu)),
        stale(Phillips), BrokerAlert(Phillips)), stale(Tiger), BrokerAlert(Tiger)), quotesStale, QuotesAlert)
  {
    AlertsUnrolled(stale);
  }

  /** The alerts name exactly the stale brokers and stale quotes, each once, brokers by name and quotes last. */
  lemma {:induction false} AlertsExact(env: Env, brokers: map<Broker, Source>, now: real, quotesStale: bool)
    requires HasRequired(brokers)
    ensures var alerts := Alerts(env, brokers, now, quotesStale);
      && (forall b :: BrokerAlert(b) in alerts <==> b in brokers && BrokerStale(env, brokers[b], now))
      && (QuotesAlert in alerts <==> quotesStale) && InOrder(alerts)
  {
    AlertsOfExact(b => b in brokers && BrokerStale(env, brokers[b], now), quotesStale);
  }

  /** The rows of an available snapshot are those of the projection, sorted by their keys, equal keys in order. */
  lemma {:induction false} SnapshotRows(env: Env, a: Account, q: Q.Publication, api: string, worker: string, now: real)
    requires PublicationValid(env, a) && Build(env, a, q, api, worker, now).Available?
    ensures var body, p := Build(env, a, q, api, worker, now).payload.body, a.projection;
      && multiset(body.brokerSummaries) == multiset(p.brokerSummaries) && RowsSorted(body.brokerSummaries, SummaryKey)
      && multiset(body.cash) == multiset(p.cash) && RowsSorted(body.cash, CashKey)
      && multiset(body.positions) == multiset(PublicRows(env, p.positions)) && RowsSorted(body.positions, PositionKey)
  {
    var p := a.projection;
    SortRowsStable(p.brokerSummaries, SummaryKey, []);
    SortRowsStable(p.cash, CashKey, []);
    SortRowsStable(PublicRows(env, p.positions), PositionKey, []);
  }

  lemma {:induction false} GenerationsShown(g: Option<map<Broker, Generation>>)
    requires GenerationsValid(g)
    ensures GenerationsOr(g) == if g.Some? then g.value else map[Phillips := Blank, Eastmoney := Blank]
  {
    if g.Some? { assert Phillips in g.value; }
  }

  /** Accepted generations are shown as they are; an account file without them shows blank ones. */
  lemma {:induction false} SnapshotGenerations(env: Env, a: Account, q: Q.Publication, api: string, worker: string,
      now: real)
    requires PublicationValid(env, a) && Build(env, a, q, api, worker, now).Available?
    ensures var body, blank := Build(env, a, q, api, worker, now).payload.body,
      map[Phillips := Blank, Eastmoney := Blank];
      && body.statements == (if a.statements.Some? then a.statements.value else blank)
      && body.holdings == (if a.holdings.Some? then a.holdings.value else blank)
  {
    GenerationsShown(a.statements);
    GenerationsShown(a.holdings);
  }

  /** The snapshot is the one built from what the reads at `t` saw, and that pair passed the pairing check. */
  ghost predicate BuiltFromPair(env: Env, history: seq<World>, t: seq<nat>, stable: Stable, apiSha: string, now: real,
        result: Snapshot) {
    && SeenAt(env, history, t, stable)
    && ProjectionPaired(env, stable.account, stable.quotes)
    && CompleteCoverage(env, stable.account.brokers, stable.quotes)
    && PublicationValid(env, stable.account)
    && result == Build(env, stable.account, stable.quotes, apiSha, stable.workerSha, now)
  }

  /**
   Under every interleaving, an available snapshot is built from a pair whose published projection is the recomputed
   one.
  */
  lemma {:induction false} AvailableIsPaired(env: Env, history: seq<World>, when: seq<nat>, apiSha: string, now: real)
    requires Schedule(history, when) && Load(env, history, when, apiSha, now).Available?
    ensures exists t, stable ::
      BuiltFromPair(env, history, t, stable, apiSha, now, Load(env, history, when, apiSha, now))
  {
    LoadSees(env, history, when, 0, "");
    var stable := LoadFrom(env, history, when, 0, "").value;
    var t :| SeenAt(env, history, t, stable);
    if IncompleteRefresh(env, stable.account, stable.quotes) {
      SkippedPairingIsUnavailable(env, stable.account, stable.quotes, apiSha, stable.workerSha, now);
    }
    assert BuiltFromPair(env, history, t, stable, apiSha, now, Load(env, history, when, apiSha, now));
  }

  /** A file that comes back has been there all along: no content is published twice with another in between. */
  predicate NeverRepeats(contents: seq<Option<Bytes>>) {
    forall i, j, k :: 0 <= i <= j <= k < |contents| && contents[i] == contents[k] ==> contents[j] == contents[i]
  }

  function AccountsOf(history: seq<World>): seq<Option<Bytes>> {
    seq(|history|, i requires 0 <= i < |history| => history[i].account)
  }

  function QuotesOf(history: seq<World>): seq<Option<Bytes>> {
    seq(|history|, i requires 0 <= i < |history| => history[i].quotes)
  }

  /** At instant `n` the files are the very contents that the reads at `t` saw. */
  ghost predicate BothCurrentAt(history: seq<World>, t: seq<nat>, n: nat) {
    && n < |history| && |t| == 5 && t[0] < |history| && t[1] < |history|
    && history[n].account == history[t[0]].account && history[n].quotes == history[t[1]].quotes
  }

  lemma {:induction false} InstantBetween(env: Env, history: seq<World>, t: seq<nat>, stable: Stable) returns (n: nat)
    requires SeenAt(env, history, t, stable)
    requires NeverRepeats(AccountsOf(history)) || NeverRepeats(QuotesOf(history))
    ensures BothCurrentAt(history, t, n) && t[1] <= n <= t[3]
  {
    if NeverRepeats(AccountsOf(history)) {
      n := t[1];
      assert AccountsOf(history)[t[0]] == AccountsOf(history)[t[3]];
      assert AccountsOf(history)[t[1]] == AccountsOf(history)[t[0]];
    } else {
      n := t[3];
      assert QuotesOf(history)[t[1]] == QuotesOf(history)[t[4]];
      assert QuotesOf(history)[t[3]] == QuotesOf(history)[t[1]];
    }
  }

  /**
   If one of the two files is never republished, both files of an available snapshot were current at one common
   instant.
  */
  lemma {:induction false} CommonInstant(env: Env, history: seq<World>, when: seq<nat>, apiSha: string, now: real)
    requires Schedule(history, when) && Load(env, history, when, apiSha, now).Available?
    requires NeverRepeats(AccountsOf(history)) || NeverRepeats(QuotesOf(history))
    ensures exists t, stable, n ::
      BuiltFromPair(env, history, t, stable, apiSha, now, Load(env, history, when, apiSha, now))
        && BothCurrentAt(history, t, n)
  {
    AvailableIsPaired(env, history, when, apiSha, now);
    var result := Load(env, history, when, apiSha, now);
    var t, stable :| BuiltFromPair(env, history, t, stable, apiSha, now, result);
    var n := InstantBetween(env, history, t, stable);
  }
}
