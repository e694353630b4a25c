/**
 The independent parity check of the account API (src/open_trader/account_api.py).

 It recomputes from the raw files what the snapshot should say and compares the two
 answers field by field. It lists the brokers in the order of the file, while the
 snapshot uses a fixed order; nothing else can make the two answers differ.
*/
module AccountParity {
  import opened Prelude
  import opened AccountState
  import opened Sorting
  import opened AccountSnapshot
  import Q = QuoteCache

  datatype Expected = Expected(
    summary: string, brokerSummaries: seq<BrokerSummary>, positions: seq<PublicPosition>, cash: seq<CashBalance>,
    generatedAt: string, quoteAsOf: string, accountAsOf: string, accountGeneration: string,
    statements: map<Broker, Generation>, holdings: map<Broker, Generation>,
    stale: bool, accountStale: bool, brokers: map<Broker, BrokerView>, quotesStale: bool, alerts: seq<Alert>)

  /** `_parity_broker_stale`; `None` when the source cannot be judged. */
  function ParityStale(env: Env, s: Source, now: real): Option<bool> {
    if s.status.Failed? then Some(true)
    else if !s.status.Accepted? then None
    else if s.kind == Statement || s.kind == Manual then Some(false)
    else match env.instant(s.lastSuccessAt)
      case None => None
      case Some(t) => Some(now - t > ACCOUNT_STALE_SECONDS)
  }

  function ParityPosition(env: Env, p: Position): PublicPosition {
    var valuation := match p.valuationAsOf case None => None case Some(v) => Some(env.normalizeTime(p.market, v));
    var position := p.(priceAsOf := env.normalizeTime(p.market, p.priceAsOf), valuationAsOf := valuation);
    var instrument := env.opaqueId("ins_",
      [env.upper(env.strip(p.market)), env.lower(env.strip(p.assetClass)), env.upper(env.strip(p.symbol))]);
    PublicPosition(position, instrument,
      env.opaqueId("pos_", [env.lower(env.strip(p.broker)), env.strip(p.alias), instrument]))
  }

  function ParityPositions(env: Env, ps: seq<Position>): seq<PublicPosition> {
    SortRows(seq(|ps|, i requires 0 <= i < |ps| => ParityPosition(env, ps[i])), PositionKey)
  }

  predicate Judged(env: Env, brokers: map<Broker, Source>, now: real) {
    forall b :: b in brokers ==> ParityStale(env, brokers[b], now).Some?
  }

  /** The `broker_stale` dictionary. */
  function StaleTable(env: Env, brokers: map<Broker, Source>, now: real): map<Broker, bool>
    requires Judged(env, brokers, now)
  {
    map b | b in brokers :: ParityStale(env, brokers[b], now).value
  }

  function TableViews(brokers: map<Broker, Source>, stale: map<Broker, bool>): map<Broker, BrokerView> {
    map b | b in brokers && b in stale ::
      BrokerView(brokers[b].kind, stale[b], brokers[b].dataAsOf, brokers[b].lastSuccessAt)
  }

  function TableAlerts(stale: map<Broker, bool>, quotesStale: bool): seq<Alert> {
    AlertsOf(b => b in stale && stale[b], quotesStale)
  }

  /** `_raw_parity_projection`. */
  function RawParity(env: Env, a: Account, q: Q.Publication, now: real): Option<Expected> {
    if a.projection.quoteAsOf != q.lastSuccessAt || !HasRequired(a.brokers) || !OrderLists(a)
      || !AllAccepted(env, a.brokers) then None
    else if !Judged(env, a.brokers, now) then None
    else
      var p := a.projection;
      var summaries := SortRows(p.brokerSummaries, SummaryKey);
      var positions := ParityPositions(env, p.positions);
      var cash := SortRows(p.cash, CashKey);
      var asOf := LatestSuccess(env, a.brokers, a.order);
      var statements, holdings := GenerationsOr(a.statements), GenerationsOr(a.holdings);
      var generation := env.hashAccount(AccountBasis(
        p.summary, summaries, positions, cash, asOf, map b | b in a.brokers ::
          a.brokers[b].dataAsOf, statements, holdings));
      var stale := StaleTable(env, a.brokers, now);
      var accountStale := exists b :: b in stale && stale[b];
      var quotesStale := q.status == Q.Failed;
      Some(Expected(
        p.summary, summaries, positions, cash, p.generatedAt, q.lastSuccessAt, asOf, generation, statements, holdings,
        accountStale || quotesStale, accountStale, TableViews(a.brokers, stale), quotesStale,
          TableAlerts(stale, quotesStale)))
  }

  predicate SourcesAgree(body: Body, e: Expected) {
    && body.accountStale == e.accountStale && body.accountAsOf == e.accountAsOf
    && body.quotesStale == e.quotesStale && body.quoteAsOf == e.quoteAsOf
    && body.brokers == e.brokers
  }

  /** `_compare_parity_payload`: the first mismatch, if any. */
  function Compare(env: Env, payload: Payload, etag: string, e: Expected, workerSha: string): Option<string> {
    var body := payload.body;
    if body.stale != e.stale then Some("status_mismatch")
    else if !env.isGitSha(body.apiSha) || body.workerSha != body.apiSha
      || body.workerSha != workerSha then Some("release_mismatch")
    else if !SourcesAgree(body, e) then Some("sources_mismatch")
    else if body.alerts != e.alerts then Some("errors_mismatch")
    else if body.generatedAt != e.generatedAt then Some("generated_at_mismatch")
    else if body.quoteAsOf != e.quoteAsOf then Some("quote_as_of_mismatch")
    else if body.summary != e.summary then Some("summary_mismatch")
    else if body.brokerSummaries != e.brokerSummaries then Some("broker_summaries_mismatch")
    else if body.cash != e.cash then Some("cash_balances_mismatch")
    else if body.statements != e.statements then Some("accepted_statement_generation_mismatch")
    else if body.holdings != e.holdings then Some("accepted_holding_generation_mismatch")
    else if body.positions != e.positions then Some("positions_mismatch")
    else if body.accountGeneration != e.accountGeneration then Some("account_generation_mismatch")
    else if payload.snapshotGeneration != env.hashSnapshot(body) then Some("snapshot_generation_mismatch")
    else if etag != Etag(payload.snapshotGeneration) then Some("etag_mismatch")
    else None
  }

  // ---------------------------------------------------------------- the two implementations agree piece by piece

  lemma {:induction false} StaleAgrees(env: Env, s: Source, now: real)
    requires HasAccepted(env, s)
    ensures ParityStale(env, s, now) == Some(BrokerStale(env, s, now))
  {
  }

  lemma {:induction false} PositionsAgree(env: Env, ps: seq<Position>)
    ensures ParityPositions(env, ps) == SortedPositions(env, ps)
  {
    assert seq(|ps|, i requires 0 <= i < |ps| => ParityPosition(env, ps[i]))
        == seq(|ps|, i requires 0 <= i < |ps| => PositionRow(env, ps[i]));
  }

  lemma {:induction false} AlertsAgree(f: Broker -> bool, g: Broker -> bool, names: seq<Broker>)
    requires forall b :: b in names ==> f(b) == g(b)
    ensures BrokerAlerts(f, names) == BrokerAlerts(g, names)
  {
    if names == [] {
    } else {
      assert names[0] in names;
      AlertsAgree(f, g, names[1..]);
    }
  }

  lemma {:induction false} TableAgrees(env: Env, brokers: map<Broker, Source>, now: real, quotesStale: bool)
    requires AllAccepted(env, brokers)
    ensures Judged(env, brokers, now)
    ensures var stale := StaleTable(env, brokers, now);
      && (AnyStale(env, brokers, now) <==> exists b :: b in stale && stale[b])
      && TableViews(brokers, stale) == BrokerViews(env, brokers, now)
      && TableAlerts(stale, quotesStale) == Alerts(env, brokers, now, quotesStale)
  {
    forall b | b in brokers ensures ParityStale(env, brokers[b], now) == Some(BrokerStale(env, brokers[b], now)) {
      StaleAgrees(env, brokers[b], now);
    }
    var stale := StaleTable(env, brokers, now);
    assert forall b :: b in brokers ==> stale[b] == BrokerStale(env, brokers[b], now);
    AlertsAgree(b => b in brokers && BrokerStale(env, brokers[b], now), b => b in stale && stale[b], SORTED_BROKERS);
  }

  // ---------------------------------------------------------------- the order of the brokers

  /** Whatever the order, the result is some broker's text and no broker is later. */
  lemma {:induction false} LatestIsLatest(env: Env, brokers: map<Broker, Source>, order: seq<Broker>)
    requires order != [] && (forall b :: b in order ==> b in brokers) && AllAccepted(env, brokers)
    ensures var latest := LatestSuccess(env, brokers, order);
      && (exists b :: b in order && brokers[b].lastSuccessAt == latest)
      && IsAware(env, latest)
      && forall b :: b in order ==> !LaterThan(env, brokers[b].lastSuccessAt, latest)
  {
    var last := order[|order| - 1];
    assert last in order && HasAccepted(env, brokers[last]);
    if |order| == 1 {
      assert order == [last];
    } else {
      var before := order[..|order| - 1];
      LatestIsLatest(env, brokers, before);
      assert forall b :: b in order ==> b in before || b == last;
    }
  }

  /** No broker of the order succeeded later than the i-th, and every one before it succeeded strictly earlier. */
  predicate FirstLatest(env: Env, brokers: map<Broker, Source>, order: seq<Broker>, i: nat) {
    && i < |order| && (forall k :: 0 <= k < |order| ==> order[k] in brokers)
    && (forall k :: 0 <= k < |order| ==>
      !LaterThan(env, brokers[order[k]].lastSuccessAt, brokers[order[i]].lastSuccessAt))
    && (forall k :: 0 <= k < i ==> LaterThan(env, brokers[order[i]].lastSuccessAt, brokers[order[k]].lastSuccessAt))
  }

  /** The text that is picked is that of the first broker with the latest instant. */
  lemma {:induction false} PicksFirstLatest(env: Env, brokers: map<Broker, Source>, order: seq<Broker>, i: nat)
    requires order != [] && (forall b :: b in order ==> b in brokers) && AllAccepted(env, brokers)
      && FirstLatest(env, brokers, order, i)
    ensures LatestSuccess(env, brokers, order) == brokers[order[i]].lastSuccessAt
  {
    var n := |order| - 1;
    var before := order[..n];
    if n > 0 && i < n {
      assert FirstLatest(env, brokers, before, i);
      PicksFirstLatest(env, brokers, before, i);
      assert order[n] in order && order[i] in order;
    } else if n > 0 {
      LatestIsLatest(env, brokers, before);
      var b :| b in before && brokers[b].lastSuccessAt == LatestSuccess(env, brokers, before);
      var k :| 0 <= k < n && before[k] == b;
      assert order[k] == b;
    }
  }

  lemma {:induction false} FirstLatestExists(env: Env, brokers: map<Broker, Source>, order: seq<Broker>)
      returns (i: nat)
    requires order != [] && (forall b :: b in order ==> b in brokers) && AllAccepted(env, brokers)
    ensures FirstLatest(env, brokers, order, i)
  {
    var n := |order| - 1;
    assert forall k :: 0 <= k < |order| ==> order[k] in order && HasAccepted(env, brokers[order[k]]);
    if n == 0 {
      i := 0;
    } else {
      i := FirstLatestExists(env, brokers, order[..n]);
      if LaterThan(env, brokers[order[n]].lastSuccessAt, brokers[order[i]].lastSuccessAt) { i := n; }
    }
  }

  /** Texts that name the same instant are equal. */
  predicate SameInstantSameText(env: Env, brokers: map<Broker, Source>) {
    forall b, c ::
      b in brokers && c in brokers && env.instant(brokers[b].lastSuccessAt) == env.instant(brokers[c].lastSuccessAt)
      ==> brokers[b].lastSuccessAt == brokers[c].lastSuccessAt
  }

  predicate Lists(order: seq<Broker>, brokers: map<Broker, Source>) {
    order != [] && (forall b :: b in order ==> b in brokers) && (forall b :: b in brokers ==> b in order)
  }

  lemma {:induction false} OrderIrrelevant(env: Env, brokers: map<Broker, Source>, one: seq<Broker>, other: seq<Broker>)
    requires Lists(one, brokers) && Lists(other, brokers) && AllAccepted(env, brokers)
      && SameInstantSameText(env, brokers)
    ensures LatestSuccess(env, brokers, one) == LatestSuccess(env, brokers, other)
  {
    LatestIsLatest(env, brokers, one);
    LatestIsLatest(env, brokers, other);
  }

  // ---------------------------------------------------------------- agreement

  predicate SameTables(body: Body, e: Expected) {
    && body.stale == e.stale && body.accountStale == e.accountStale && body.quotesStale == e.quotesStale
    && body.brokers == e.brokers && body.alerts == e.alerts
  }

  predicate SameRows(body: Body, e: Expected) {
    && body.quoteAsOf == e.quoteAsOf && body.generatedAt == e.generatedAt && body.summary == e.summary
    && body.brokerSummaries == e.brokerSummaries && body.cash == e.cash && body.statements == e.statements
    && body.holdings == e.holdings && body.positions == e.positions
  }

  /** Equal in everything but the text of the latest success and the hash that covers it. */
  predicate SameButLatest(body: Body, e: Expected) {
    SameTables(body, e) && SameRows(body, e)
  }

  lemma {:induction false} ParityReady(env: Env, a: Account, q: Q.Publication, sha: string, now: real)
    requires PublicationValid(env, a) && a.projection.quoteAsOf == q.lastSuccessAt
    requires Build(env, a, q, sha, sha, now).Available?
    ensures AllAccepted(env, a.brokers) && Judged(env, a.brokers, now) && RawParity(env, a, q, now).Some?
  {
    AvailableIff(env, a, q, sha, sha, now);
    TableAgrees(env, a.brokers, now, false);
  }

  lemma {:induction false} ExpectedTables(env: Env, a: Account, q: Q.Publication, sha: string, now: real)
    requires PublicationValid(env, a) && Build(env, a, q, sha, sha, now).Available? && RawParity(env, a, q, now).Some?
    requires AllAccepted(env, a.brokers) && Judged(env, a.brokers, now)
    ensures SameTables(Build(env, a, q, sha, sha, now).payload.body, RawParity(env, a, q, now).value)
  {
    TableAgrees(env, a.brokers, now, q.status == Q.Failed);
  }

  lemma {:induction false} ExpectedRows(env: Env, a: Account, q: Q.Publication, sha: string, now: real)
    requires PublicationValid(env, a) && Build(env, a, q, sha, sha, now).Available? && RawParity(env, a, q, now).Some?
    requires AllAccepted(env, a.brokers)
    ensures var body, e := Build(env, a, q, sha, sha, now).payload.body, RawParity(env, a, q, now).value;
      && SameRows(body, e)
      && body.accountAsOf == LatestSuccess(env, a.brokers, REQUIRED)
        && e.accountAsOf == LatestSuccess(env, a.brokers, a.order)
      && (body.accountAsOf == e.accountAsOf ==> body.accountGeneration == e.accountGeneration)
  {
    PositionsAgree(env, a.projection.positions);
  }

  lemma {:induction false} BuildStamps(env: Env, a: Account, q: Q.Publication, api: string, worker: string, now: real)
    requires PublicationValid(env, a) && Build(env, a, q, api, worker, now).Available?
    ensures var snapshot := Build(env, a, q, api, worker, now);
      && snapshot.payload.body.apiSha == api && snapshot.payload.body.workerSha == worker
      && snapshot.payload.snapshotGeneration == env.hashSnapshot(snapshot.payload.body)
        && snapshot.etag == Etag(snapshot.payload.snapshotGeneration)
  {
  }

  lemma {:induction false} CompareDecides(env: Env, payload: Payload, etag: string, e: Expected, sha: string)
    requires SameButLatest(payload.body, e)
      && (payload.body.accountAsOf == e.accountAsOf ==> payload.body.accountGeneration == e.accountGeneration)
    requires payload.body.apiSha == sha && payload.body.workerSha == sha && env.isGitSha(sha)
    requires payload.snapshotGeneration == env.hashSnapshot(payload.body) && etag == Etag(payload.snapshotGeneration)
    ensures Compare(env, payload, etag, e, sha).None? <==> payload.body.accountAsOf == e.accountAsOf
  {
  }

  /** The two answers agree on everything but the text of the latest success and what is hashed of it. */
  lemma {:induction false} AgreesButForLatest(env: Env, a: Account, q: Q.Publication, sha: string, now: real)
    requires PublicationValid(env, a) && a.projection.quoteAsOf == q.lastSuccessAt && env.isGitSha(sha)
    requires Build(env, a, q, sha, sha, now).Available?
    ensures RawParity(env, a, q, now).Some?
    ensures var snapshot := Build(env, a, q, sha, sha, now);
      var passes := Compare(env, snapshot.payload, snapshot.etag, RawParity(env, a, q, now).value, sha).None?;
      passes <==> LatestSuccess(env, a.brokers, REQUIRED) == LatestSuccess(env, a.brokers, a.order)
  {
    ParityReady(env, a, q, sha, now);
    ExpectedTables(env, a, q, sha, now);
    ExpectedRows(env, a, q, sha, now);
    BuildStamps(env, a, q, sha, sha, now);
    var snapshot := Build(env, a, q, sha, sha, now);
    CompareDecides(env, snapshot.payload, snapshot.etag, RawParity(env, a, q, now).value, sha);
  }

  /** The parity check passes the snapshot built from this pair. */
  predicate Passes(env: Env, a: Account, q: Q.Publication, sha: string, now: real)
    requires PublicationValid(env, a)
  {
    var snapshot := Build(env, a, q, sha, sha, now);
    snapshot.Available? && RawParity(env, a, q, now).Some?
    && Compare(env, snapshot.payload, snapshot.etag, RawParity(env, a, q, now).value, sha).None?
  }

  /**
   For a common clock and release, the parity check passes an available snapshot exactly when the first broker of
   the fixed order with the latest success and the first one of the file's order wrote that success the same way.
  */
  lemma {:induction false} ParityPassesIff(env: Env, a: Account, q: Q.Publication, sha: string, now: real, i: nat,
        j: nat)
    requires PublicationValid(env, a) && a.projection.quoteAsOf == q.lastSuccessAt && env.isGitSha(sha)
    requires Build(env, a, q, sha, sha, now).Available?
    requires FirstLatest(env, a.brokers, REQUIRED, i) && FirstLatest(env, a.brokers, a.order, j)
    ensures Passes(env, a, q, sha, now) <==> a.brokers[REQUIRED[i]].lastSuccessAt == a.brokers[a.order[j]].lastSuccessAt
  {
    AvailableIff(env, a, q, sha, sha, now);
    AgreesButForLatest(env, a, q, sha, now);
    RequiredLists(a.brokers);
    PicksFirstLatest(env, a.brokers, REQUIRED, i);
    PicksFirstLatest(env, a.brokers, a.order, j);
  }

  /** In particular it passes whenever equal instants are written the same way. */
  lemma {:induction false} ParityPasses(env: Env, a: Account, q: Q.Publication, sha: string, now: real)
    requires PublicationValid(env, a) && a.projection.quoteAsOf == q.lastSuccessAt && env.isGitSha(sha)
    requires Build(env, a, q, sha, sha, now).Available? && SameInstantSameText(env, a.brokers)
    ensures Passes(env, a, q, sha, now)
  {
    RequiredLists(a.brokers);
    OrderIrrelevant(env, a.brokers, REQUIRED, a.order);
    AgreesButForLatest(env, a, q, sha, now);
  }

  /** What `_compare_parity_payload` demands of any payload. */
  lemma {:induction false} CompareAccepts(env: Env, payload: Payload, etag: string, e: Expected, sha: string)
    ensures Compare(env, payload, etag, e, sha).None? <==>
      && SameButLatest(payload.body, e)
      && payload.body.accountAsOf == e.accountAsOf && payload.body.accountGeneration == e.accountGeneration
      && env.isGitSha(sha) && payload.body.apiSha == sha && payload.body.workerSha == sha
      && payload.snapshotGeneration == env.hashSnapshot(payload.body) && etag == Etag(payload.snapshotGeneration)
  {
  }

  lemma {:induction false} FieldsDecide(one: Body, other: Body, e: Expected)
    requires SameButLatest(one, e) && SameButLatest(other, e)
    requires one.accountAsOf == other.accountAsOf && one.accountGeneration == other.accountGeneration
    requires one.apiSha == other.apiSha && one.workerSha == other.workerSha
    ensures one == other
  {
  }

  /** The parity check passes the snapshot of the pair and refuses every other payload and every other tag. */
  lemma {:induction false} ParityAcceptsOnly(env: Env, a: Account, q: Q.Publication, sha: string, now: real,
      payload: Payload, etag: string)
    requires PublicationValid(env, a) && a.projection.quoteAsOf == q.lastSuccessAt && env.isGitSha(sha)
    requires Build(env, a, q, sha, sha, now).Available? && SameInstantSameText(env, a.brokers)
    ensures RawParity(env, a, q, now).Some?
    ensures Compare(env, payload, etag, RawParity(env, a, q, now).value, sha).None? <==>
      payload == Build(env, a, q, sha, sha, now).payload && etag == Build(env, a, q, sha, sha, now).etag
  {
    var snapshot := Build(env, a, q, sha, sha, now);
    ParityReady(env, a, q, sha, now);
    var e := RawParity(env, a, q, now).value;
    ParityPasses(env, a, q, sha, now);
    CompareAccepts(env, snapshot.payload, snapshot.etag, e, sha);
    CompareAccepts(env, payload, etag, e, sha);
    if Compare(env, payload, etag, e, sha).None? { FieldsDecide(payload.body, snapshot.payload.body, e); }
  }

  /** All brokers succeeded last at one instant. */
  predicate Tied(env: Env, brokers: map<Broker, Source>) {
    forall b, c :: b in brokers && c in brokers ==>
      env.instant(brokers[b].lastSuccessAt) == env.instant(brokers[c].lastSuccessAt)
  }

  /** Agreement without that condition is false: one instant written in two ways makes parity refuse a good snapshot. */
  lemma {:induction false} TiedTextsFail(env: Env, a: Account, q: Q.Publication, sha: string, now: real)
    requires PublicationValid(env, a) && a.projection.quoteAsOf == q.lastSuccessAt && env.isGitSha(sha)
    requires Build(env, a, q, sha, sha, now).Available? && Tied(env, a.brokers)
    requires a.order[0] in a.brokers && a.brokers[a.order[0]].lastSuccessAt != a.brokers[Futu].lastSuccessAt
    ensures !Passes(env, a, q, sha, now)
  {
    TiedOrders(env, a);
    ParityPassesIff(env, a, q, sha, now, 0, 0);
  }

  lemma {:induction false} TiedFirst(env: Env, brokers: map<Broker, Source>, order: seq<Broker>)
    requires Lists(order, brokers) && Tied(env, brokers)
    ensures FirstLatest(env, brokers, order, 0)
  {
  }

  lemma {:induction false} TiedOrders(env: Env, a: Account)
    requires HasRequired(a.brokers) && OrderLists(a) && Tied(env, a.brokers)
    ensures FirstLatest(env, a.brokers, REQUIRED, 0) && FirstLatest(env, a.brokers, a.order, 0) && REQUIRED[0] == Futu
  {
    RequiredLists(a.brokers);
    TiedFirst(env, a.brokers, REQUIRED);
    TiedFirst(env, a.brokers, a.order);
  }

  lemma {:induction false} RequiredLists(brokers: map<Broker, Source>)
    requires HasRequired(brokers)
    ensures Lists(REQUIRED, brokers)
  {
    forall b | b in brokers ensures b in REQUIRED {
      var i := match b case Futu => 0 case Tiger => 1 case Phillips => 2 case Eastmoney => 3 case Other(_) => 0;
      assert b == REQUIRED[i];
    }
  }

  /**
   Under every interleaving of the reader with the worker, parity passes on the pair that the snapshot was built from.
  */
  lemma {:induction false} LoadedSnapshotPasses(env: Env, history: seq<World>, when: seq<nat>, sha: string, now: real)
    requires Schedule(history, when) && Load(env, history, when, sha, now).Available?
    ensures var snapshot := Load(env, history, when, sha, now);
      exists t, stable :: BuiltFromPair(env, history, t, stable, sha, now, snapshot)
        && RawParity(env, stable.account, stable.quotes, now).Some?
        && (SameInstantSameText(env, stable.account.brokers) ==>
              Compare(env, snapshot.payload, snapshot.etag, RawParity(env, stable.account, stable.quotes, now).value,
                sha).None?)
  {
    LoadSees(env, history, when, 0, "");
    var snapshot := Load(env, history, when, sha, now);
    AvailableIsPaired(env, history, when, sha, now);
    var t, stable :| BuiltFromPair(env, history, t, stable, sha, now, snapshot);
    ReleaseAgrees(env, history, when, sha, now, stable, snapshot);
    AgreesButForLatest(env, stable.account, stable.quotes, sha, now);
    if SameInstantSameText(env, stable.account.brokers) {
      ParityPasses(env, stable.account, stable.quotes, sha, now);
    }
  }

  lemma {:induction false} LoadStamps(env: Env, history: seq<World>, when: seq<nat>, sha: string, now: real)
    requires Schedule(history, when) && Load(env, history, when, sha, now).Available?
    ensures env.isGitSha(sha) && Load(env, history, when, sha, now).payload.body.workerSha == sha
  {
    var loaded := LoadFrom(env, history, when, 0, "").value;
    BuildStamps(env, loaded.account, loaded.quotes, sha, loaded.workerSha, now);
  }

  lemma {:induction false} ReleaseAgrees(env: Env, history: seq<World>, when: seq<nat>, sha: string, now: real,
        stable: Stable, snapshot: Snapshot)
    requires Schedule(history, when) && Load(env, history, when, sha, now) == snapshot && snapshot.Available?
    requires PublicationValid(env, stable.account)
    requires snapshot == Build(env, stable.account, stable.quotes, sha, stable.workerSha, now)
    ensures env.isGitSha(sha) && stable.workerSha == sha
  {
    LoadStamps(env, history, when, sha, now);
    BuildStamps(env, stable.account, stable.quotes, sha, stable.workerSha, now);
  }

  // ---------------------------------------------------------------- one instant written in two ways

  const SHANGHAI_TEXT := "2026-01-01T08:00:00+08:00"
  const UTC_TEXT := "2026-01-01T00:00:00+00:00"
  const DEMO_SHA := "0123456789abcdef0123456789abcdef01234567"

  /** Two spellings of one moment; nothing else is an aware timestamp. */
  function DemoInstant(text: string): Option<real> {
    if text == SHANGHAI_TEXT || text == UTC_TEXT then Some(0.0) else None
  }

  function DemoSource(b: Broker): Source {
    var at := if b == Futu then SHANGHAI_TEXT else UTC_TEXT;
    Source(if IsLive(b) then Live else Statement, Status.Accepted, at, at, "2026-01-01", "2026-01", "", [], [], [])
  }

  /** One summary for each required broker, in their order. */
  const DEMO_SUMMARIES: seq<BrokerSummary> :=
    [BrokerSummary("futu", "figures"), BrokerSummary("tiger", "figures"),
     BrokerSummary("phillips", "figures"), BrokerSummary("eastmoney", "figures")]

  /** What `_is_valid_dashboard_projection` demands of the fields that are modelled. */
  predicate DemoProjectionValid(p: Projection) {
    && DemoInstant(p.generatedAt).Some? && (p.quoteAsOf == "" || DemoInstant(p.quoteAsOf).Some?)
    && |p.brokerSummaries| == 4
    && p.brokerSummaries[0].broker == "futu" && p.brokerSummaries[1].broker == "tiger"
    && p.brokerSummaries[2].broker == "phillips" && p.brokerSummaries[3].broker == "eastmoney"
  }

  /** The brokers in the order in which the worker writes them, with sorted keys. */
  const DEMO_ACCOUNT := Account(
    1, [Eastmoney, Futu, Phillips, Tiger],
    map[Futu := DemoSource(Futu), Tiger := DemoSource(Tiger), Phillips := DemoSource(Phillips), Eastmoney :=
      DemoSource(Eastmoney)],
    Some(NO_GENERATIONS), Some(NO_GENERATIONS), Projection(UTC_TEXT, UTC_TEXT, "totals", DEMO_SUMMARIES, [], []))

  const DEMO_QUOTES := Q.Publication(Q.Complete, 0, 0, 0, UTC_TEXT, UTC_TEXT, false, map[], 0)

  /** No positions, so that no quote is needed. */
  function DemoEnv(): Env {
    Env(raw => if raw == "account" then Some(DEMO_ACCOUNT) else None, raw => if raw == "quotes" then Some(DEMO_QUOTES)
                                                                             else None,
        raw => if raw == "heartbeat" then Some(DEMO_SHA)
               else None, DemoInstant, sha => sha == DEMO_SHA, (_, _) => false,
        DemoProjectionValid, (_, _, _) => Some(DEMO_ACCOUNT.projection), _ => {}, (_, t) => t, t => t, t => t, t => t,
        (prefix, _) => prefix, _ => "account hash", _ => "snapshot hash")
  }

  lemma {:induction false} DemoSources(b: Broker)
    requires b in DEMO_ACCOUNT.brokers
    ensures IsRequired(b) && DEMO_ACCOUNT.brokers[b] == DemoSource(b)
  {
  }

  lemma {:induction false} DemoAccepted()
    ensures AllAccepted(DemoEnv(), DEMO_ACCOUNT.brokers) && Tied(DemoEnv(), DEMO_ACCOUNT.brokers)
  {
    forall b | b in DEMO_ACCOUNT.brokers ensures HasAccepted(DemoEnv(), DEMO_ACCOUNT.brokers[b])
      && DemoInstant(DEMO_ACCOUNT.brokers[b].lastSuccessAt) == Some(0.0) {
      DemoSources(b);
    }
  }

  lemma {:induction false} DemoSourcesValid()
    ensures SourcesValid(DEMO_ACCOUNT.brokers) && HasRequired(DEMO_ACCOUNT.brokers)
  {
    forall b | b in DEMO_ACCOUNT.brokers ensures SourceValid(DEMO_ACCOUNT.brokers[b], b) {
      DemoSources(b);
    }
  }

  lemma {:induction false} DemoOrder()
    ensures OrderLists(DEMO_ACCOUNT)
  {
    var order := DEMO_ACCOUNT.order;
    assert order[0] == Eastmoney && order[1] == Futu && order[2] == Phillips && order[3] == Tiger;
    forall b | b in DEMO_ACCOUNT.brokers ensures b in order { DemoSources(b); }
  }

  lemma {:induction false} DemoGenerations()
    ensures GenerationsValid(Some(NO_GENERATIONS)) && DemoEnv().projectionValid(DEMO_ACCOUNT.projection)
  {
  }

  lemma {:induction false} DemoValid()
    ensures PublicationValid(DemoEnv(), DEMO_ACCOUNT)
  {
    DemoSourcesValid();
    DemoOrder();
    DemoGenerations();
  }

  lemma {:induction false} DemoRest()
    ensures var env := DemoEnv();
      && ProjectionPaired(env, DEMO_ACCOUNT, DEMO_QUOTES) && CompleteCoverage(env, DEMO_ACCOUNT.brokers, DEMO_QUOTES)
      && IsAware(env, DEMO_QUOTES.lastSuccessAt) && env.isGitSha(DEMO_SHA)
  {
  }

  lemma {:induction false} DemoTexts()
    ensures DEMO_ACCOUNT.order[0] in DEMO_ACCOUNT.brokers
    ensures DEMO_ACCOUNT.brokers[DEMO_ACCOUNT.order[0]].lastSuccessAt != DEMO_ACCOUNT.brokers[Futu].lastSuccessAt
  {
    assert UTC_TEXT[11] != SHANGHAI_TEXT[11] || UTC_TEXT[12] != SHANGHAI_TEXT[12];
  }

  /** A paired, complete publication in which Futu's latest success is written in another time zone. */
  lemma {:induction false} DemoPair() returns (env: Env, a: Account, q: Q.Publication)
    ensures PublicationValid(env, a) && AllAccepted(env, a.brokers) && Tied(env, a.brokers)
    ensures ProjectionPaired(env, a, q) && CompleteCoverage(env, a.brokers, q) && IsAware(env, q.lastSuccessAt)
      && env.isGitSha(DEMO_SHA)
    ensures q.status == Q.Complete && a.projection.quoteAsOf == q.lastSuccessAt
    ensures a.order[0] in a.brokers && a.brokers[a.order[0]].lastSuccessAt != a.brokers[Futu].lastSuccessAt
    ensures env == DemoEnv() && a == DEMO_ACCOUNT && q == DEMO_QUOTES
  {
    DemoAccepted();
    DemoValid();
    DemoRest();
    DemoTexts();
    env, a, q := DemoEnv(), DEMO_ACCOUNT, DEMO_QUOTES;
  }

  /** The snapshot of this pair is available and the parity check refuses it. */
  ghost predicate GoodButRefused(env: Env, a: Account, q: Q.Publication, sha: string, now: real) {
    && PublicationValid(env, a) && ProjectionPaired(env, a, q) && Build(env, a, q, sha, sha, now).Available?
    && !Passes(env, a, q, sha, now)
  }

  /** This publication is good and refused. */
  lemma {:induction false} DemoRefused()
    ensures GoodButRefused(DemoEnv(), DEMO_ACCOUNT, DEMO_QUOTES, DEMO_SHA, 0.0)
  {
    var env, a, q := DemoPair();
    AvailableIff(env, a, q, DEMO_SHA, DEMO_SHA, 0.0);
    TiedTextsFail(env, a, q, DEMO_SHA, 0.0);
    assert GoodButRefused(env, a, q, DEMO_SHA, 0.0);
  }
}
