/**
 The account sync worker (src/open_trader/account_sync_worker.py) and the portfolio rows
 that it derives from the accepted state (`accepted_portfolio_rows`).

 The worker publishes the portfolio before the state it was derived from, and any write
 may be the last one. `trail` records the published files after every write, so it holds
 every state in which the worker can stop.
*/
module AccountWorker {
  import opened Prelude
  import opened AccountState

  type PortfolioRow = string

  /** What `build_portfolio_rows` is given: everything the accepted sources contribute, in broker order. */
  datatype Inputs = Inputs(month: string, positions: seq<Row>, cash: seq<Row>, rates: seq<(Broker, Rate)>)

  type Builder = Inputs -> Result<seq<PortfolioRow>, Error>

  // ---------------------------------------------------------------- accepted portfolio rows

  function First7(s: string): string {
    if |s| >= 7 then s[..7] else s
  }

  function SourceMonth(s: Source): string {
    if |s.period| >= 7 then s.period[..7] else First7(s.dataAsOf)
  }

  function Tagged(b: Broker, rates: seq<Rate>): seq<(Broker, Rate)> {
    seq(|rates|, i requires 0 <= i < |rates| => (b, rates[i]))
  }

  function Contribute(acc: Inputs, b: Broker, s: Source): Inputs {
    if s.status.Unknown? then acc
    else Inputs(if acc.month == "" then SourceMonth(s) else acc.month,
                acc.positions + s.positions, acc.cash + s.cash, acc.rates + Tagged(b, s.rates))
  }

  function Collect(brokers: map<Broker, Source>, names: seq<Broker>): Inputs
    requires forall b :: b in names ==> b in brokers
  {
    if names == [] then Inputs("", [], [], [])
    else
      var last := names[|names| - 1];
      Contribute(Collect(brokers, names[..|names| - 1]), last, brokers[last])
  }

  predicate NoRepeats(rows: seq<Row>) {
    forall i, j :: 0 <= i < j < |rows| ==> (rows[i].broker, rows[i].identity) != (rows[j].broker, rows[j].identity)
  }

  function BuildFrom(build: Builder, inputs: Inputs): Result<seq<PortfolioRow>, Error> {
    if !NoRepeats(inputs.positions) || !NoRepeats(inputs.cash) then Err(Unbuildable)
    else if inputs.positions == [] && inputs.cash == [] then Ok([])
    else if inputs.month == "" then Err(Unbuildable)
    else build(inputs)
  }

  function PortfolioRows(build: Builder, s: State): Result<seq<PortfolioRow>, Error> {
    BuildFrom(build, Collect(Normalized(s).brokers, REQUIRED))
  }

  method AcceptedPortfolioRows(build: Builder, s: State) returns (rows: Result<seq<PortfolioRow>, Error>)
    ensures rows == PortfolioRows(build, s)
  {
    var brokers := Normalized(s).brokers;
    var month, positions, cash, rates := "", [], [], [];
    for i := 0 to |REQUIRED|
      invariant Inputs(month, positions, cash, rates) == Collect(brokers, REQUIRED[..i])
    {
      assert REQUIRED[..i + 1][..i] == REQUIRED[..i];
      var source := brokers[REQUIRED[i]];
      if !source.status.Unknown? {
        if month == "" { month := SourceMonth(source); }
        positions, cash, rates := positions + source.positions, cash + source.cash,
          rates + Tagged(REQUIRED[i], source.rates);
      }
    }
    assert REQUIRED[..|REQUIRED|] == REQUIRED;
    if !NoRepeats(positions) || !NoRepeats(cash) { return Err(Unbuildable); }
    if positions == [] && cash == [] { return Ok([]); }
    if month == "" { return Err(Unbuildable); }
    return build(Inputs(month, positions, cash, rates));
  }

  // ---------------------------------------------------------------- what is collected

  predicate IsKnown(brokers: map<Broker, Source>, b: Broker) {
    b in brokers && !brokers[b].status.Unknown?
  }

  function KnownPositions(brokers: map<Broker, Source>, b: Broker): seq<Row> {
    if IsKnown(brokers, b) then brokers[b].positions else []
  }

  function KnownCash(brokers: map<Broker, Source>, b: Broker): seq<Row> {
    if IsKnown(brokers, b) then brokers[b].cash else []
  }

  function KnownRates(brokers: map<Broker, Source>, b: Broker): seq<(Broker, Rate)> {
    if IsKnown(brokers, b) then Tagged(b, brokers[b].rates) else []
  }

  lemma {:induction false} CollectNext(brokers: map<Broker, Source>, names: seq<Broker>, b: Broker)
    requires b in brokers && forall x :: x in names ==> x in brokers
    ensures Collect(brokers, names + [b]) == Contribute(Collect(brokers, names), b, brokers[b])
  {
    assert (names + [b])[..|names|] == names;
  }

  lemma {:induction false} ContributeRows(acc: Inputs, brokers: map<Broker, Source>, b: Broker)
    requires b in brokers
    ensures var next := Contribute(acc, b, brokers[b]);
      && next.positions == acc.positions + KnownPositions(brokers, b)
      && next.cash == acc.cash + KnownCash(brokers, b)
      && next.rates == acc.rates + KnownRates(brokers, b)
  {
  }

  /** The builder is given exactly the rows and the tagged rates of the known sources, broker after broker. */
  lemma {:induction false} CollectsAll(brokers: map<Broker, Source>)
    requires HasRequired(brokers)
    ensures var all := Collect(brokers, REQUIRED);
      && all.positions == KnownPositions(brokers, Futu) + KnownPositions(brokers, Tiger)
                        + KnownPositions(brokers, Phillips) + KnownPositions(brokers, Eastmoney)
      && all.cash == KnownCash(brokers, Futu) + KnownCash(brokers, Tiger)
                   + KnownCash(brokers, Phillips) + KnownCash(brokers, Eastmoney)
      && all.rates == KnownRates(brokers, Futu) + KnownRates(brokers, Tiger)
                    + KnownRates(brokers, Phillips) + KnownRates(brokers, Eastmoney)
  {
    var none: seq<Broker> := [];
    CollectNext(brokers, none, Futu);
    CollectNext(brokers, none + [Futu], Tiger);
    CollectNext(brokers, none + [Futu] + [Tiger], Phillips);
    CollectNext(brokers, none + [Futu] + [Tiger] + [Phillips], Eastmoney);
    assert none + [Futu] + [Tiger] + [Phillips] + [Eastmoney] == REQUIRED;
    ContributeRows(Collect(brokers, none), brokers, Futu);
    ContributeRows(Collect(brokers, none + [Futu]), brokers, Tiger);
    ContributeRows(Collect(brokers, none + [Futu] + [Tiger]), brokers, Phillips);
    ContributeRows(Collect(brokers, none + [Futu] + [Tiger] + [Phillips]), brokers, Eastmoney);
  }

  /** Rates are tagged with the broker that reported them. */
  lemma {:induction false} RatesTagged(brokers: map<Broker, Source>, b: Broker, i: nat)
    requires IsKnown(brokers, b) && i < |brokers[b].rates|
    ensures |KnownRates(brokers, b)| == |brokers[b].rates| && KnownRates(brokers, b)[i] == (b, brokers[b].rates[i])
  {
  }

  /** A source's month is read off its period, or off its date where the period is too short. */
  lemma {:induction false} MonthRead(s: Source)
    ensures |s.period| >= 7 ==> SourceMonth(s) <= s.period && |SourceMonth(s)| == 7
    ensures |s.period| < 7 ==> SourceMonth(s) <= s.dataAsOf
    ensures |s.period| < 7 && |s.dataAsOf| >= 7 ==> |SourceMonth(s)| == 7
    ensures |s.period| < 7 && |s.dataAsOf| < 7 ==> SourceMonth(s) == s.dataAsOf
  {
  }

  /** Nobody before the n-th is a known source with a month. */
  predicate NoMonthBefore(brokers: map<Broker, Source>, names: seq<Broker>, n: nat) {
    forall i :: 0 <= i < n <= |names| && IsKnown(brokers, names[i]) ==> SourceMonth(brokers[names[i]]) == ""
  }

  /** The month is that of the first known source that has one. */
  lemma {:induction false} CollectsFirstMonth(brokers: map<Broker, Source>, names: seq<Broker>)
    requires forall b :: b in names ==> b in brokers
    ensures var month := Collect(brokers, names).month;
      if month == "" then NoMonthBefore(brokers, names, |names|)
      else exists n :: 0 <= n < |names| && NoMonthBefore(brokers, names, n)
                    && IsKnown(brokers, names[n]) && SourceMonth(brokers[names[n]]) == month
  {
    if names != [] {
      var before, last := names[..|names| - 1], names[|names| - 1];
      CollectsFirstMonth(brokers, before);
      var month := Collect(brokers, before).month;
      if month != "" {
        var n :| 0 <= n < |before| && NoMonthBefore(brokers, before, n)
              && IsKnown(brokers, before[n]) && SourceMonth(brokers[before[n]]) == month;
        assert names[n] == before[n] && forall i :: 0 <= i < n ==> names[i] == before[i];
        assert NoMonthBefore(brokers, names, n);
      } else {
        assert forall i :: 0 <= i < |before| ==> names[i] == before[i];
        assert NoMonthBefore(brokers, names, |names| - 1);
      }
    }
  }

  /** No portfolio is built from repeated rows, nor from rows without a month, nor where the builder fails. */
  lemma {:induction false} PortfolioRefusedIff(build: Builder, s: State)
    ensures var all := Collect(Normalized(s).brokers, REQUIRED);
      PortfolioRows(build, s).Err? <==>
        || (exists i, j :: 0 <= i < j < |all.positions| && SameIdentity(all.positions[i], all.positions[j]))
        || (exists i, j :: 0 <= i < j < |all.cash| && SameIdentity(all.cash[i], all.cash[j]))
        || ((all.positions != [] || all.cash != []) && (all.month == "" || build(all).Err?))
  {
    var all := Collect(Normalized(s).brokers, REQUIRED);
    NoRepeatsIff(all.positions);
    NoRepeatsIff(all.cash);
  }

  predicate SameIdentity(a: Row, b: Row) {
    a.broker == b.broker && a.identity == b.identity
  }

  lemma {:induction false} NoRepeatsIff(rows: seq<Row>)
    ensures NoRepeats(rows) <==> !exists i, j :: 0 <= i < j < |rows| && SameIdentity(rows[i], rows[j])
  {
  }

  // ---------------------------------------------------------------- which changes leave the rows alone

  predicate Contributes(s: Source) {
    s.positions != [] || s.cash != [] || s.rates != [] || SourceMonth(s) != ""
  }

  /** A source that was never accepted has nothing to contribute. */
  predicate Quiet(brokers: map<Broker, Source>) {
    forall b :: b in brokers && brokers[b].status.Unknown? ==> !Contributes(brokers[b])
  }

  /** The two sources hold the same accepted facts; only the record of attempts may differ. */
  predicate SameFacts(s: Source, t: Source) {
    && s.kind == t.kind && s.period == t.period && s.dataAsOf == t.dataAsOf
    && s.positions == t.positions && s.cash == t.cash && s.rates == t.rates
  }

  predicate AllSameFacts(s: map<Broker, Source>, t: map<Broker, Source>) {
    forall b :: b in s && b in t ==> SameFacts(s[b], t[b])
  }

  /** A source that was never accepted is skipped, which is the same as adding nothing. */
  lemma {:induction false} ContributeSame(acc: Inputs, b: Broker, x: Source, y: Source)
    requires SameFacts(x, y)
    requires (x.status.Unknown? ==> !Contributes(x)) && (y.status.Unknown? ==> !Contributes(y))
    ensures Contribute(acc, b, x) == Contribute(acc, b, y)
  {
    assert Tagged(b, x.rates) == Tagged(b, y.rates);
    if !Contributes(x) { assert acc.positions + [] == acc.positions && acc.cash + [] == acc.cash
      && acc.rates + Tagged(b, []) == acc.rates; }
  }

  lemma {:induction false} CollectSame(s: map<Broker, Source>, t: map<Broker, Source>, names: seq<Broker>)
    requires forall b :: b in names ==> b in s && b in t
    requires AllSameFacts(s, t) && Quiet(s) && Quiet(t)
    ensures Collect(s, names) == Collect(t, names)
  {
    if names == [] {
    } else {
      var last := names[|names| - 1];
      CollectSame(s, t, names[..|names| - 1]);
      ContributeSame(Collect(s, names[..|names| - 1]), last, s[last], t[last]);
    }
  }

  // ---------------------------------------------------------------- the published files

  /** The two files that the worker replaces; a missing state file reads as the empty state. */
  datatype Published = Published(state: Option<State>, portfolio: Option<seq<PortfolioRow>>)

  /** `load_account_sync_state`. */
  function Loaded(file: Option<State>): (s: State)
    ensures Complete(s)
  {
    EmptyIsValid();
    if file.Some? && IsValid(file.value) then
      file.value.(statements := if file.value.statements.Some? then file.value.statements else Some(NO_GENERATIONS),
                  holdings := if file.value.holdings.Some? then file.value.holdings else Some(NO_GENERATIONS))
    else EMPTY_STATE
  }

  /** The rows are those of the state, or those of the state with exactly one further candidate that was fetched. */
  ghost predicate Matches(build: Builder, fetched: set<Offer>, s: State, rows: seq<PortfolioRow>) {
    PortfolioRows(build, s) == Ok(rows) || exists o :: o in fetched && MatchesAfter(build, s, o, rows)
  }

  ghost predicate MatchesAfter(build: Builder, s: State, o: Offer, rows: seq<PortfolioRow>) {
    Accept(s, o).Ok? && PortfolioRows(build, Accept(s, o).value) == Ok(rows)
  }

  ghost predicate Consistent(build: Builder, fetched: set<Offer>, p: Published) {
    && Quiet(Loaded(p.state).brokers)
    && (p.portfolio.Some? ==> Matches(build, fetched, Loaded(p.state), p.portfolio.value))
  }

  lemma {:induction false} SameRows(build: Builder, s: State, t: State)
    requires IsValid(s) <==> IsValid(t)
    requires IsValid(s) ==> AllSameFacts(s.brokers, t.brokers) && Quiet(s.brokers) && Quiet(t.brokers)
    ensures PortfolioRows(build, s) == PortfolioRows(build, t)
  {
    if IsValid(s) { CollectSame(s.brokers, t.brokers, REQUIRED); }
  }

  lemma {:induction false} UpdateSameFacts(s: map<Broker, Source>, t: map<Broker, Source>, b: Broker, x: Source,
        y: Source)
    requires AllSameFacts(s, t) && SameFacts(x, y)
    ensures AllSameFacts(s[b := x], t[b := y])
  {
  }

  lemma {:induction false} UpdateQuiet(s: map<Broker, Source>, b: Broker, x: Source)
    requires Quiet(s) && !x.status.Unknown?
    ensures Quiet(s[b := x])
  {
  }

  lemma {:induction false} AcceptSameFacts(s: State, t: State, o: Offer)
    requires Complete(s) && Complete(t) && AllSameFacts(s.brokers, t.brokers) && Quiet(s.brokers) && Quiet(t.brokers)
    requires AcceptInto(s, o).Ok?
    ensures AcceptInto(t, o).Ok?
    ensures AllSameFacts(AcceptInto(s, o).value.brokers, AcceptInto(t, o).value.brokers)
    ensures Quiet(AcceptInto(s, o).value.brokers) && Quiet(AcceptInto(t, o).value.brokers)
  {
    var b := o.candidate.broker;
    var x, y := AcceptedSource(o, s.brokers[b]), AcceptedSource(o, t.brokers[b]);
    assert SameFacts(s.brokers[b], t.brokers[b]);
    AcceptedIff(s, o);
    AcceptedIff(t, o);
    GenerationsValidIff(s, o);
    GenerationsValidIff(t, o);
    UpdateSameFacts(s.brokers, t.brokers, b, x, y);
    UpdateQuiet(s.brokers, b, x);
    UpdateQuiet(t.brokers, b, y);
  }

  lemma {:induction false} SameAcceptedRows(build: Builder, s: State, t: State, o: Offer)
    requires Complete(s) && Complete(t) && AllSameFacts(s.brokers, t.brokers) && Quiet(s.brokers) && Quiet(t.brokers)
    requires Accept(s, o).Ok?
    ensures Accept(t, o).Ok? && PortfolioRows(build, Accept(s, o).value) == PortfolioRows(build, Accept(t, o).value)
  {
    AcceptSameFacts(s, t, o);
    AcceptValidIff(s, o);
    AcceptValidIff(t, o);
    SameRows(build, AcceptInto(s, o).value, AcceptInto(t, o).value);
  }

  /** Replacing a state by one with the same facts keeps the portfolio matched. */
  lemma {:induction false} MatchesTransfers(build: Builder, fetched: set<Offer>, s: State, t: State,
        rows: seq<PortfolioRow>)
    requires Complete(s) && Complete(t) && AllSameFacts(s.brokers, t.brokers) && Quiet(s.brokers) && Quiet(t.brokers)
    requires Matches(build, fetched, s, rows)
    ensures Matches(build, fetched, t, rows)
  {
    SameRows(build, s, t);
    if PortfolioRows(build, s) != Ok(rows) {
      var o :| o in fetched && MatchesAfter(build, s, o, rows);
      SameAcceptedRows(build, s, t, o);
      assert MatchesAfter(build, t, o, rows);
    }
  }

  lemma {:induction false} FailureKeepsFacts(s: map<Broker, Source>, b: Broker, x: Source)
    requires Quiet(s) && b in s && SameFacts(s[b], x) && !x.status.Unknown?
    ensures AllSameFacts(s, s[b := x]) && Quiet(s[b := x])
  {
  }

  /** Recording a failure never changes the accepted rows. */
  lemma {:induction false} FailureKeepsRows(build: Builder, s: State, b: Broker, at: string, message: string)
    requires Complete(s) && Quiet(s.brokers) && IsRequired(b)
    ensures var t := Fail(s, b, at, message).value;
      && Complete(t) && Quiet(t.brokers) && AllSameFacts(s.brokers, t.brokers)
      && PortfolioRows(build, t) == PortfolioRows(build, s)
  {
    var t := FailInto(s, b, at, message).value;
    FailValid(s, b, at, message);
    FailureKeepsFacts(s.brokers, b, t.brokers[b]);
    SameRows(build, s, t);
  }

  lemma {:induction false} LoadedIsNormalized(s: State)
    requires s.statements.Some? && s.holdings.Some?
    ensures Loaded(Some(s)) == Normalized(s)
  {
  }

  lemma {:induction false} LoadedAgrees(file: Option<State>)
    ensures Normalized(Loaded(file)) == Loaded(file)
  {
  }

  lemma {:induction false} EmptyIsQuiet()
    ensures Quiet(EMPTY_STATE.brokers)
  {
    EmptySources();
  }

  // ---------------------------------------------------------------- every write keeps the files consistent

  /** The state that the worker carries agrees with the file it last read or wrote. */
  ghost predicate Carries(s: State, p: Published) {
    s.statements.Some? && s.holdings.Some? && Normalized(s) == Loaded(p.state)
  }

  ghost predicate AllConsistent(build: Builder, fetched: set<Offer>, trail: seq<Published>) {
    forall i :: 0 <= i < |trail| ==> Consistent(build, fetched, trail[i])
  }

  lemma {:induction false} AppendConsistent(build: Builder, fetched: set<Offer>, trail: seq<Published>, p: Published)
    requires AllConsistent(build, fetched, trail) && AllConsistent(build, fetched, [p])
    ensures AllConsistent(build, fetched, trail + [p])
  {
    assert [p][0] == p;
  }

  lemma {:induction false} FailureWrite(build: Builder, fetched: set<Offer>, p: Published, s: State, b: Broker,
        at: string, message: string)
    requires Consistent(build, fetched, p) && Carries(s, p) && IsRequired(b)
    ensures var t := Fail(s, b, at, message).value;
      var q := p.(state := Some(t));
      AllConsistent(build, fetched, [q]) && Carries(t, q)
  {
    var base := Loaded(p.state);
    var t := Fail(s, b, at, message).value;
    FailureKeepsRows(build, base, b, at, message);
    LoadedIsNormalized(t);
    if p.portfolio.Some? { MatchesTransfers(build, fetched, base, t, p.portfolio.value); }
  }

  lemma {:induction false} PortfolioWrite(build: Builder, fetched: set<Offer>, p: Published, s: State, o: Offer)
    requires o in fetched && Consistent(build, fetched, p) && Carries(s, p)
    requires Accept(s, o).Ok? && PortfolioRows(build, Accept(s, o).value).Ok?
    ensures AllConsistent(build, fetched, [p.(portfolio := Some(PortfolioRows(build, Accept(s, o).value).value))])
  {
    assert Accept(Loaded(p.state), o) == Accept(s, o);
    assert MatchesAfter(build, Loaded(p.state), o, PortfolioRows(build, Accept(s, o).value).value);
  }

  lemma {:induction false} AcceptedWrite(build: Builder, fetched: set<Offer>, p: Published, s: State, o: Offer)
    requires Consistent(build, fetched, p) && Carries(s, p)
    requires Accept(s, o).Ok? && PortfolioRows(build, Accept(s, o).value).Ok?
    ensures var t := Accept(s, o).value;
      var q := Published(Some(t), Some(PortfolioRows(build, t).value));
      AllConsistent(build, fetched, [q]) && Carries(t, q)
  {
    var t := Accept(s, o).value;
    AcceptedQuiet(Loaded(p.state), o);
    LoadedIsNormalized(t);
    assert PortfolioRows(build, Normalized(t)) == PortfolioRows(build, t);
  }

  lemma {:induction false} AcceptedQuiet(base: State, o: Offer)
    requires Complete(base) && Quiet(base.brokers) && AcceptInto(base, o).Ok?
    ensures var t := AcceptInto(base, o).value;
      t.statements.Some? && t.holdings.Some? && Quiet(t.brokers) && Quiet(Normalized(t).brokers)
  {
    GenerationsValidIff(base, o);
    var t := AcceptInto(base, o).value;
    UpdateQuiet(base.brokers, o.candidate.broker, t.brokers[o.candidate.broker]);
    EmptyIsQuiet();
  }

  lemma {:induction false} ProjectionWrite(build: Builder, fetched: set<Offer>, p: Published, s: State,
        projection: string)
    requires Consistent(build, fetched, p) && Carries(s, p)
    ensures var t := Normalized(s).(projection := projection);
      var q := p.(state := Some(t));
      AllConsistent(build, fetched, [q]) && Carries(t, q)
  {
    var base := Loaded(p.state);
    var t := Normalized(s).(projection := projection);
    LoadedIsNormalized(t);
    if p.portfolio.Some? { MatchesTransfers(build, fetched, base, t, p.portfolio.value); }
  }

  /** What fetching a broker's candidate produced, `None` for any exception, and the text that a failure records. */
  datatype Attempt = Attempt(offer: Option<Offer>, message: string)

  datatype Verdict = Taken | Refused

  /** A candidate is taken if the state accepts it and the rows of the new state can be built. */
  function Judge(build: Builder, s: State, attempt: Attempt): Verdict {
    if attempt.offer.Some? && Accept(s, attempt.offer.value).Ok?
      && PortfolioRows(build, Accept(s, attempt.offer.value).value).Ok? then Taken
    else Refused
  }

  /** The candidates among some attempts. */
  function Fetched(attempts: seq<Attempt>): set<Offer> {
    set i | 0 <= i < |attempts| && attempts[i].offer.Some? :: attempts[i].offer.value
  }

  /** Only candidates among the attempts were added. */
  ghost predicate FetchedFrom(attempts: seq<Attempt>, before: set<Offer>, after: set<Offer>) {
    before <= after <= before + Fetched(attempts)
  }

  lemma {:induction false} FetchedAt(attempts: seq<Attempt>, i: nat)
    requires i < |attempts|
    ensures Fetched([attempts[i]]) <= Fetched(attempts)
  {
  }

  lemma {:induction false} MoreMatches(build: Builder, few: set<Offer>, many: set<Offer>, s: State,
        rows: seq<PortfolioRow>)
    requires few <= many && Matches(build, few, s, rows)
    ensures Matches(build, many, s, rows)
  {
    if PortfolioRows(build, s) != Ok(rows) {
      var o :| o in few && MatchesAfter(build, s, o, rows);
      assert o in many;
    }
  }

  lemma {:induction false} MoreFetched(build: Builder, few: set<Offer>, many: set<Offer>, trail: seq<Published>)
    requires few <= many && AllConsistent(build, few, trail)
    ensures AllConsistent(build, many, trail)
  {
    forall i | 0 <= i < |trail| ensures Consistent(build, many, trail[i]) {
      assert Consistent(build, few, trail[i]);
      if trail[i].portfolio.Some? { MoreMatches(build, few, many, Loaded(trail[i].state), trail[i].portfolio.value); }
    }
  }

  /** The state after one broker's turn when every write succeeds. */
  function Turn(build: Builder, s: State, b: Broker, attempt: Attempt, at: string): State
    requires IsRequired(b)
  {
    if Judge(build, s, attempt) == Taken then Accept(s, attempt.offer.value).value
    else Fail(s, b, at, attempt.message).value
  }

  /** The state after the first n brokers. */
  function Cycle(build: Builder, s: State, attempts: seq<Attempt>, at: string, n: nat): State
    requires n <= |attempts| == |REQUIRED|
  {
    if n == 0 then s else Turn(build, Cycle(build, s, attempts, at, n - 1), REQUIRED[n - 1], attempts[n - 1], at)
  }

  /** What became of broker k's candidate in the cycle. */
  function VerdictOf(build: Builder, s: State, attempts: seq<Attempt>, at: string, k: nat): Verdict
    requires k < |attempts| == |REQUIRED|
  {
    Judge(build, Cycle(build, s, attempts, at, k), attempts[k])
  }

  predicate AllJudged(build: Builder, s: State, attempts: seq<Attempt>, at: string, verdicts: seq<Verdict>)
    requires |verdicts| <= |attempts| == |REQUIRED|
  {
    forall k :: 0 <= k < |verdicts| ==> verdicts[k] == VerdictOf(build, s, attempts, at, k)
  }

  lemma {:induction false} JudgedSnoc(build: Builder, s: State, attempts: seq<Attempt>, at: string,
        verdicts: seq<Verdict>, v: Verdict)
    requires |verdicts| < |attempts| == |REQUIRED| && AllJudged(build, s, attempts, at, verdicts)
    requires v == VerdictOf(build, s, attempts, at, |verdicts|)
    ensures AllJudged(build, s, attempts, at, verdicts + [v])
  {
    forall k | 0 <= k < |verdicts| + 1 ensures (verdicts + [v])[k] == VerdictOf(build, s, attempts, at, k) {
      if k < |verdicts| { assert verdicts[k] == VerdictOf(build, s, attempts, at, k); }
    }
  }

  lemma {:induction false} RequiredAt(i: nat)
    requires i < |REQUIRED|
    ensures IsRequired(REQUIRED[i])
  {
  }

  datatype Outcome = Completed(verdicts: seq<Verdict>) | PublicationFailed | ProjectionFailed

  class Worker {
    const build: Builder
    var state: Option<State>
    var portfolio: Option<seq<PortfolioRow>>
    ghost var trail: seq<Published>
    ghost var fetched: set<Offer>

    constructor (build: Builder)
      ensures Files() == Published(None, None) && fetched == {} && Safe()
    {
      this.build, state, portfolio, trail, fetched := build, None, None, [Published(None, None)], {};
      new;
      EmptyIsQuiet();
    }

    ghost function Files(): Published
      reads this
    {
      Published(state, portfolio)
    }

    /** The trail ends with the current files, and every pair of files on it is consistent with what was fetched. */
    ghost predicate Safe()
      reads this
    {
      trail != [] && Files() == trail[|trail| - 1] && AllConsistent(build, fetched, trail)
    }

    /** An atomic replace of the state file. */
    method ReplaceState(s: State)
      requires Safe() && AllConsistent(build, fetched, trail + [Published(Some(s), portfolio)])
      modifies this`state, this`trail
      ensures Safe() && state == Some(s) && trail == old(trail) + [Files()]
    {
      state := Some(s);
      trail := trail + [Files()];
    }

    /** A failed replace, which needs `mayFail`, leaves the old file. */
    method WriteState(s: State, mayFail: bool) returns (ok: bool)
      requires Safe() && AllConsistent(build, fetched, trail + [Published(Some(s), portfolio)])
      modifies this`state, this`trail
      ensures Safe()
      ensures Files() == if ok then old(Files()).(state := Some(s)) else old(Files())
      ensures trail == if ok then old(trail) + [Files()] else old(trail)
      ensures !mayFail ==> ok
    {
      ok := *;
      ok := ok || !mayFail;
      if ok { ReplaceState(s); }
    }

    method ReplacePortfolio(rows: seq<PortfolioRow>)
      requires Safe() && AllConsistent(build, fetched, trail + [Published(state, Some(rows))])
      modifies this`portfolio, this`trail
      ensures Safe() && portfolio == Some(rows) && trail == old(trail) + [Files()]
    {
      portfolio := Some(rows);
      trail := trail + [Files()];
    }

    method WritePortfolio(rows: seq<PortfolioRow>, mayFail: bool) returns (ok: bool)
      requires Safe() && AllConsistent(build, fetched, trail + [Published(state, Some(rows))])
      modifies this`portfolio, this`trail
      ensures Safe()
      ensures Files() == if ok then old(Files()).(portfolio := Some(rows)) else old(Files())
      ensures trail == if ok then old(trail) + [Files()] else old(trail)
      ensures !mayFail ==> ok
    {
      ok := *;
      ok := ok || !mayFail;
      if ok { ReplacePortfolio(rows); }
    }

    method PublishPortfolio(current: State, o: Offer, mayFail: bool) returns (ok: bool)
      requires o in fetched && Safe() && Carries(current, Files())
      requires Accept(current, o).Ok? && PortfolioRows(build, Accept(current, o).value).Ok?
      modifies this`portfolio, this`trail
      ensures Safe() && old(trail) <= trail && state == old(state)
      ensures portfolio == if ok then Some(PortfolioRows(build, Accept(current, o).value).value) else old(portfolio)
      ensures !mayFail ==> ok
    {
      var rows := AcceptedPortfolioRows(build, Accept(current, o).value);
      PortfolioWrite(build, fetched, Files(), current, o);
      AppendConsistent(build, fetched, trail, Published(state, Some(rows.value)));
      ok := WritePortfolio(rows.value, mayFail);
    }

    /** The state follows the portfolio; the write is tried twice at most. */
    method PublishState(current: State, o: Offer, mayFail: bool) returns (ok: bool)
      requires Safe() && Carries(current, Files())
      requires Accept(current, o).Ok? && PortfolioRows(build, Accept(current, o).value).Ok?
      requires portfolio == Some(PortfolioRows(build, Accept(current, o).value).value)
      modifies this`state, this`trail
      ensures Safe() && old(trail) <= trail && portfolio == old(portfolio)
      ensures ok ==> state == Some(Accept(current, o).value) && Carries(state.value, Files())
      ensures !mayFail ==> ok
    {
      var next := Accept(current, o).value;
      AcceptedWrite(build, fetched, Files(), current, o);
      AppendConsistent(build, fetched, trail, Published(Some(next), portfolio));
      ok := WriteState(next, mayFail);
      var retry: bool := *;
      if !ok && retry { ok := WriteState(next, mayFail); }
    }

    method RecordFailure(current: State, b: Broker, at: string, message: string, mayFail: bool) returns (ok: bool)
      requires Safe() && Carries(current, Files()) && IsRequired(b)
      modifies this`state, this`trail
      ensures Safe() && old(trail) <= trail && portfolio == old(portfolio)
      ensures ok ==> state == Some(Fail(current, b, at, message).value) && Carries(state.value, Files())
      ensures !mayFail ==> ok
    {
      var failed := Fail(current, b, at, message).value;
      FailureWrite(build, fetched, Files(), current, b, at, message);
      AppendConsistent(build, fetched, trail, Files().(state := Some(failed)));
      ok := WriteState(failed, mayFail);
    }

    method WriteProjection(current: State, projection: string, mayFail: bool) returns (ok: bool)
      requires Safe() && Carries(current, Files())
      modifies this`state, this`trail
      ensures Safe() && old(trail) <= trail && portfolio == old(portfolio)
      ensures state == if ok then Some(Normalized(current).(projection := projection)) else old(state)
      ensures !mayFail ==> ok
    {
      var projected := Normalized(current).(projection := projection);
      ProjectionWrite(build, fetched, Files(), current, projection);
      AppendConsistent(build, fetched, trail, Files().(state := Some(projected)));
      ok := WriteState(projected, mayFail);
    }

    /** Accepts and publishes what was fetched, or records the failure. `None` stops the cycle. */
    method ApplyAttempt(current: State, b: Broker, attempt: Attempt, at: string, mayFail: bool)
        returns (next: Option<State>, verdict: Verdict)
      requires attempt.offer.Some? ==> attempt.offer.value in fetched
      requires Safe() && Carries(current, Files()) && IsRequired(b)
      modifies this`state, this`portfolio, this`trail
      ensures Safe() && old(trail) <= trail
      ensures next.Some? ==> Carries(next.value, Files()) && state == next
      ensures next.Some? ==>
        next.value == Turn(build, current, b, attempt, at) && verdict == Judge(build, current, attempt)
      ensures !mayFail ==> next.Some?
    {
      if attempt.offer.Some? {
        var offer := attempt.offer.value;
        var taken := Accept(current, offer);
        if taken.Ok? {
          var rows := AcceptedPortfolioRows(build, taken.value);
          if rows.Ok? {
            var published := PublishPortfolio(current, offer, mayFail);
            if published { published := PublishState(current, offer, mayFail); }
            return if published then Some(taken.value) else None, Taken;
          }
        }
      }
      var recorded := RecordFailure(current, b, at, attempt.message, mayFail);
      next, verdict := if recorded then state else None, Refused;
    }

    /** One broker: fetch, then accept and publish or record the failure. */
    method SyncBroker(current: State, b: Broker, attempt: Attempt, at: string, mayFail: bool)
        returns (next: Option<State>, verdict: Verdict)
      requires Safe() && Carries(current, Files()) && IsRequired(b)
      modifies this
      ensures Safe() && old(trail) <= trail && fetched == old(fetched) + Fetched([attempt])
      ensures next.Some? ==> Carries(next.value, Files()) && state == next
      ensures next.Some? ==>
        next.value == Turn(build, current, b, attempt, at) && verdict == Judge(build, current, attempt)
      ensures !mayFail ==> next.Some?
    {
      MoreFetched(build, fetched, fetched + Fetched([attempt]), trail);
      fetched := fetched + Fetched([attempt]);
      if attempt.offer.Some? { assert [attempt][0].offer.value in Fetched([attempt]); }
      next, verdict := ApplyAttempt(current, b, attempt, at, mayFail);
    }

    /** The turn of broker i, after the turns of those before it. */
    method SyncNext(ghost start: State, attempts: seq<Attempt>, at: string, i: nat, current: State,
          verdicts: seq<Verdict>, mayFail: bool)
      returns (next: Option<State>, more: seq<Verdict>)
      requires Safe() && Carries(current, Files()) && i < |attempts| == |REQUIRED|
      requires current == Cycle(build, start, attempts, at, i) && |verdicts| == i
        && AllJudged(build, start, attempts, at, verdicts)
      modifies this
      ensures Safe() && old(trail) <= trail && FetchedFrom(attempts, old(fetched), fetched)
      ensures next.Some? ==> Carries(next.value, Files()) && next.value == Cycle(build, start, attempts, at, i + 1)
      ensures next.Some? ==> |more| == i + 1 && AllJudged(build, start, attempts, at, more)
      ensures !mayFail ==> next.Some?
    {
      RequiredAt(i);
      FetchedAt(attempts, i);
      var verdict;
      next, verdict := SyncBroker(current, REQUIRED[i], attempts[i], at, mayFail);
      more := verdicts + [verdict];
      if next.Some? { JudgedSnoc(build, start, attempts, at, verdicts, verdict); }
    }

    /** The four brokers in order; `None` when a write failed. */
    method SyncBrokers(start: State, attempts: seq<Attempt>, at: string, mayFail: bool)
        returns (next: Option<State>, verdicts: seq<Verdict>)
      requires Safe() && Carries(start, Files()) && |attempts| == |REQUIRED|
      modifies this
      ensures Safe() && old(trail) <= trail && FetchedFrom(attempts, old(fetched), fetched)
      ensures next.Some? ==> Carries(next.value, Files())
      ensures next.Some? ==> next.value == Cycle(build, start, attempts, at, 4)
      ensures next.Some? ==> |verdicts| == 4 && AllJudged(build, start, attempts, at, verdicts)
      ensures !mayFail ==> next.Some?
    {
      next, verdicts := Some(start), [];
      for i := 0 to |REQUIRED|
        invariant FetchedFrom(attempts, old(fetched), fetched)
        invariant Safe() && old(trail) <= trail && next.Some? && Carries(next.value, Files())
        invariant next.value == Cycle(build, start, attempts, at, i)
        invariant |verdicts| == i && AllJudged(build, start, attempts, at, verdicts)
      {
        next, verdicts := SyncNext(start, attempts, at, i, next.value, verdicts, mayFail);
        if next.None? { return; }
      }
    }

    /** The projection that ends a cycle, if it can be built. */
    method FinishCycle(current: State, verdicts: seq<Verdict>, projection: Option<string>, mayFail: bool)
        returns (outcome: Outcome)
      requires Safe() && Carries(current, Files())
      modifies this`state, this`trail
      ensures Safe() && old(trail) <= trail
      ensures outcome.Completed? ==>
        && projection.Some? && outcome.verdicts == verdicts
        && state == Some(Normalized(current).(projection := projection.value))
      ensures !mayFail ==> if projection.Some? then outcome.Completed? else outcome == ProjectionFailed
    {
      if projection.None? { return ProjectionFailed; }
      var written := WriteProjection(current, projection.value, mayFail);
      outcome := if written then Completed(verdicts) else PublicationFailed;
    }

    /** The four brokers from a state that was read, and the projection. */
    method RunCycle(start: State, attempts: seq<Attempt>, at: string, projection: Option<string>, mayFail: bool)
      returns (outcome: Outcome)
      requires Safe() && Carries(start, Files()) && |attempts| == |REQUIRED|
      modifies this
      ensures Safe() && old(trail) <= trail && FetchedFrom(attempts, old(fetched), fetched)
      ensures outcome.Completed? ==>
        && projection.Some?
        && state == Some(Normalized(Cycle(build, start, attempts, at, 4)).(projection := projection.value))
        && |outcome.verdicts| == 4 && AllJudged(build, start, attempts, at, outcome.verdicts)
      ensures !mayFail ==> if projection.Some? then outcome.Completed? else outcome == ProjectionFailed
    {
      var current, verdicts := SyncBrokers(start, attempts, at, mayFail);
      if current.None? { return PublicationFailed; }
      outcome := FinishCycle(current.value, verdicts, projection, mayFail);
    }

    /** One account cycle over the four brokers, ending with the dashboard projection if it can be built. */
    method SyncAccountsOnce(attempts: seq<Attempt>, at: string, projection: Option<string>, mayFail: bool)
      returns (outcome: Outcome)
      requires Safe() && |attempts| == |REQUIRED|
      modifies this
      ensures Safe() && old(trail) <= trail && FetchedFrom(attempts, old(fetched), fetched)
      ensures outcome.Completed? ==>
        && projection.Some?
        && state == Some(Normalized(Cycle(build, Loaded(old(state)), attempts, at, 4)).(projection := projection.value))
        && |outcome.verdicts| == 4 && AllJudged(build, Loaded(old(state)), attempts, at, outcome.verdicts)
      ensures !mayFail ==> if projection.Some? then outcome.Completed? else outcome == ProjectionFailed
    {
      LoadedAgrees(state);
      outcome := RunCycle(Loaded(state), attempts, at, projection, mayFail);
    }

    /** The part of a quote cycle that touches these files: the state is published again with a new projection. */
    method SyncQuotesOnce(projection: Option<string>, mayFail: bool) returns (ok: bool)
      requires Safe()
      modifies this`state, this`trail
      ensures Safe() && old(trail) <= trail && portfolio == old(portfolio)
      ensures ok ==> projection.Some? && state == Some(Normalized(Loaded(old(state))).(projection := projection.value))
      ensures !ok ==> state == old(state)
      ensures !mayFail ==> (ok <==> projection.Some?)
    {
      var current := Loaded(state);
      LoadedAgrees(state);
      ok := projection.Some?;
      if ok {
        ok := WriteProjection(current, projection.value, mayFail);
      }
    }
  }
}
