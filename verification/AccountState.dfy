/**
 The accepted account state and its transitions (src/open_trader/account_sync_state.py).

 A state holds one source per broker. Accepting a candidate replaces one source;
 recording a failure keeps the accepted facts and only marks the attempt. Both start
 over from the empty state when the state they are given is not valid.
*/
module AccountState {
  import opened Prelude

  datatype Broker = Futu | Tiger | Phillips | Eastmoney | Other(name: string)

  const REQUIRED: seq<Broker> := [Futu, Tiger, Phillips, Eastmoney]

  datatype Kind = Live | Statement | Manual
  datatype Status = Accepted | Failed | Unknown

  /** A stored position or cash row. `readable` says that it parses back. */
  datatype Row = Row(broker: Broker, identity: string, body: string, readable: bool)
  datatype Rate = Rate(alias: string, currency: string, value: real)

  datatype Source = Source(
    kind: Kind, status: Status, attemptedAt: string, lastSuccessAt: string,
    dataAsOf: string, period: string, message: string,
    positions: seq<Row>, cash: seq<Row>, rates: seq<Rate>)

  /** A statement generation: empty, a SHA-256 reference, or any other text. */
  datatype Generation = Blank | Digest(hex: string) | Malformed(text: string)

  datatype State = State(
    generation: string,
    statements: Option<map<Broker, Generation>>, holdings: Option<map<Broker, Generation>>,
    brokers: map<Broker, Source>, projection: string)

  datatype Candidate = Candidate(
    broker: Broker, kind: Kind, dataAsOf: string, period: string,
    positions: seq<Row>, cash: seq<Row>, rates: seq<Rate>)

  datatype Error = UnknownBroker | InvalidKind | InvalidGeneration | NoCashToPreserve | MissingHoldings | Unbuildable

  predicate IsRequired(b: Broker) {
    !b.Other?
  }

  predicate IsLive(b: Broker) {
    b == Futu || b == Tiger
  }

  predicate IsStatement(b: Broker) {
    b == Phillips || b == Eastmoney
  }

  predicate KindAllowed(b: Broker, k: Kind) {
    if IsLive(b) then k == Live else k != Live
  }

  // ---------------------------------------------------------------- validity

  predicate RowsNamed(rows: seq<Row>, b: Broker) {
    forall i :: 0 <= i < |rows| ==> rows[i].readable && rows[i].broker == b
  }

  predicate SourceValid(s: Source, b: Broker) {
    KindAllowed(b, s.kind) && RowsNamed(s.positions, b) && RowsNamed(s.cash, b)
  }

  predicate GenerationsValid(g: Option<map<Broker, Generation>>) {
    g.Some? ==>
      && Phillips in g.value && Eastmoney in g.value
      && forall b :: b in g.value ==> IsStatement(b) && !g.value[b].Malformed?
  }

  predicate HasRequired(brokers: map<Broker, Source>) {
    && Futu in brokers && Tiger in brokers && Phillips in brokers && Eastmoney in brokers
    && forall b :: b in brokers ==> IsRequired(b)
  }

  predicate SourcesValid(brokers: map<Broker, Source>) {
    forall b :: b in brokers ==> SourceValid(brokers[b], b)
  }

  predicate IsValid(s: State) {
    GenerationsValid(s.statements) && GenerationsValid(s.holdings) && HasRequired(s.brokers) && SourcesValid(s.brokers)
  }

  function EmptySource(b: Broker): Source {
    Source(if IsLive(b) then Live else Statement, Unknown, "", "", "", "", "", [], [], [])
  }

  const NO_GENERATIONS: map<Broker, Generation> := map[Phillips := Blank, Eastmoney := Blank]

  const EMPTY_STATE := State("", Some(NO_GENERATIONS), Some(NO_GENERATIONS),
    map[Futu := EmptySource(Futu), Tiger := EmptySource(Tiger),
        Phillips := EmptySource(Phillips), Eastmoney := EmptySource(Eastmoney)], "")

  lemma {:induction false} EmptyIsValid()
    ensures IsValid(EMPTY_STATE)
  {
  }

  function Normalized(s: State): (t: State)
    ensures IsValid(t)
  {
    EmptyIsValid();
    if IsValid(s) then s else EMPTY_STATE
  }

  // ---------------------------------------------------------------- transitions

  datatype Offer = Offer(
    candidate: Candidate, at: string,
    statement: Option<Generation>, holding: Option<Generation>, preserveCash: bool)

  predicate GenerationRejected(o: Offer) {
    || (o.statement.Some? && !(IsStatement(o.candidate.broker) && o.statement.value.Digest?))
    || (o.holding.Some? && !o.holding.value.Blank? && !(IsStatement(o.candidate.broker) && o.holding.value.Digest?))
  }

  function AcceptedSource(o: Offer, previous: Source): Source {
    var c := o.candidate;
    Source(c.kind, Status.Accepted, o.at, o.at, c.dataAsOf, c.period, "",
           c.positions, if o.preserveCash then previous.cash else c.cash, c.rates)
  }

  function SetGenerations(s: State, o: Offer): Result<State, Error> {
    var b := o.candidate.broker;
    var statements := if s.statements.Some? then s.statements.value else NO_GENERATIONS;
    if o.statement.Some? then
      if s.holdings.None? then Err(MissingHoldings)
      else Ok(s.(statements := Some(statements[b := o.statement.value]), holdings :=
        Some(s.holdings.value[b := o.statement.value])))
    else if o.holding.Some? then
      if s.holdings.None? then Err(MissingHoldings)
      else Ok(s.(statements := Some(statements), holdings := Some(s.holdings.value[b := o.holding.value])))
    else Ok(s.(statements := Some(statements)))
  }

  function AcceptInto(base: State, o: Offer): Result<State, Error>
    requires IsValid(base)
  {
    var b := o.candidate.broker;
    if !IsRequired(b) then Err(UnknownBroker)
    else if !KindAllowed(b, o.candidate.kind) then Err(InvalidKind)
    else if GenerationRejected(o) then Err(InvalidGeneration)
    else if o.preserveCash && base.brokers[b].cash == [] then Err(NoCashToPreserve)
    else SetGenerations(base.(brokers := base.brokers[b := AcceptedSource(o, base.brokers[b])], generation := o.at), o)
  }

  /** `accept_candidate`. */
  function Accept(state: State, o: Offer): Result<State, Error> {
    AcceptInto(Normalized(state), o)
  }

  function FailInto(base: State, b: Broker, at: string, message: string): Result<State, Error>
    requires IsValid(base)
  {
    if !IsRequired(b) then Err(UnknownBroker)
    else
      var source := base.brokers[b].(status := Failed, attemptedAt := at, message := message);
      Ok(base.(brokers := base.brokers[b := source], generation := at))
  }

  /** `record_source_failure`. */
  function Fail(state: State, b: Broker, at: string, message: string): Result<State, Error> {
    FailInto(Normalized(state), b, at, message)
  }

  // ---------------------------------------------------------------- what a broker's source records

  /** The candidate's rows all read back under the candidate's own broker, which `accept_candidate` does not check. */
  predicate WellNamed(o: Offer) {
    RowsNamed(o.candidate.positions, o.candidate.broker)
      && (o.preserveCash || RowsNamed(o.candidate.cash, o.candidate.broker))
  }

  /** A holding generation for a live broker adds a key that validity forbids. */
  predicate HoldingFits(o: Offer) {
    o.statement.None? && o.holding.Some? ==> IsStatement(o.candidate.broker)
  }

  lemma {:induction false} GenerationsValidIff(base: State, o: Offer)
    requires IsValid(base) && AcceptInto(base, o).Ok?
    ensures var next := AcceptInto(base, o).value;
      && next.brokers == base.brokers[o.candidate.broker := AcceptedSource(o, base.brokers[o.candidate.broker])]
      && GenerationsValid(next.statements) && next.statements.Some? && (base.holdings.Some? ==> next.holdings.Some?)
      && (GenerationsValid(next.holdings) <==> HoldingFits(o))
  {
    if !HoldingFits(o) {
      assert o.candidate.broker in AcceptInto(base, o).value.holdings.value;
    }
  }

  lemma {:induction false} SourcesValidIff(brokers: map<Broker, Source>, b: Broker, source: Source)
    requires SourcesValid(brokers) && HasRequired(brokers) && IsRequired(b)
    ensures HasRequired(brokers[b := source])
    ensures SourcesValid(brokers[b := source]) <==> SourceValid(source, b)
  {
    assert brokers[b := source][b] == source;
  }

  lemma {:induction false} AcceptValidIff(base: State, o: Offer)
    requires IsValid(base) && AcceptInto(base, o).Ok?
    ensures IsValid(AcceptInto(base, o).value) <==> WellNamed(o) && HoldingFits(o)
  {
    var b := o.candidate.broker;
    GenerationsValidIff(base, o);
    SourcesValidIff(base.brokers, b, AcceptedSource(o, base.brokers[b]));
  }

  lemma {:induction false} FailValid(base: State, b: Broker, at: string, message: string)
    requires IsValid(base) && IsRequired(b)
    ensures IsValid(FailInto(base, b, at, message).value)
  {
    SourcesValidIff(base.brokers, b, FailInto(base, b, at, message).value.brokers[b]);
  }

  lemma {:induction false} EmptySources()
    ensures forall b :: b in EMPTY_STATE.brokers ==> EMPTY_STATE.brokers[b] == EmptySource(b)
  {
  }

  lemma {:induction false} FailErases(state: State, b: Broker, at: string, message: string)
    requires !IsValid(state) && IsRequired(b)
    ensures var later := Fail(state, b, at, message).value;
      HasRequired(later.brokers) && forall x :: x in later.brokers && x != b ==> later.brokers[x] == EmptySource(x)
  {
    EmptySources();
    EmptyIsValid();
    FailValid(EMPTY_STATE, b, at, message);
  }

  lemma {:induction false} FailKeeps(state: State, b: Broker, at: string, message: string)
    requires IsValid(state) && IsRequired(b)
    ensures var later := Fail(state, b, at, message).value;
      HasRequired(later.brokers) && forall x :: x in later.brokers && x != b ==> later.brokers[x] == state.brokers[x]
  {
    FailValid(state, b, at, message);
  }

  /**
   Exactly when an acceptance survives: the next failure of another broker keeps the accepted source
   if and only if the candidate was well named and its generation fits. Otherwise every source is erased.
  */
  lemma {:induction false} NextFailureKeepsIff(state: State, o: Offer, b: Broker, at: string, message: string)
    requires Accept(state, o).Ok? && IsRequired(b) && b != o.candidate.broker
    ensures var next, c := Accept(state, o).value, o.candidate.broker;
      var later := Fail(next, b, at, message).value;
      && c in next.brokers && c in later.brokers
      && (later.brokers[c] == next.brokers[c] <==> WellNamed(o) && HoldingFits(o))
      && (later.brokers[c] != next.brokers[c] ==> forall x :: x in later.brokers && x != b ==>
        later.brokers[x] == EmptySource(x))
  {
    var base := Normalized(state);
    AcceptValidIff(base, o);
    GenerationsValidIff(base, o);
    var next := AcceptInto(base, o).value;
    if IsValid(next) { FailKeeps(next, b, at, message); } else { FailErases(next, b, at, message); }
  }

  lemma {:induction false} AcceptKeeps(state: State, o: Offer)
    requires IsValid(state) && Accept(state, o).Ok?
    ensures var later, c := Accept(state, o).value, o.candidate.broker;
      HasRequired(later.brokers) && forall x :: x in later.brokers && x != c ==> later.brokers[x] == state.brokers[x]
  {
    GenerationsValidIff(state, o);
  }

  lemma {:induction false} AcceptErases(state: State, o: Offer)
    requires !IsValid(state) && Accept(state, o).Ok?
    ensures var later, c := Accept(state, o).value, o.candidate.broker;
      HasRequired(later.brokers) && forall x :: x in later.brokers && x != c ==> later.brokers[x] == EmptySource(x)
  {
    EmptyIsValid();
    EmptySources();
    GenerationsValidIff(EMPTY_STATE, o);
  }

  /** The same of the next acceptance of another broker: it keeps the accepted source under the same condition. */
  lemma {:induction false} NextAcceptKeepsIff(state: State, o: Offer, other: Offer)
    requires Accept(state, o).Ok? && Accept(Accept(state, o).value, other).Ok?
    requires other.candidate.broker != o.candidate.broker
    ensures var next, c := Accept(state, o).value, o.candidate.broker;
      var later := Accept(next, other).value;
      && c in next.brokers && c in later.brokers
      && (later.brokers[c] == next.brokers[c] <==> WellNamed(o) && HoldingFits(o))
      && (later.brokers[c] != next.brokers[c] ==>
            forall x :: x in later.brokers && x != other.candidate.broker ==> later.brokers[x] == EmptySource(x))
  {
    var base := Normalized(state);
    AcceptValidIff(base, o);
    GenerationsValidIff(base, o);
    var next := AcceptInto(base, o).value;
    if IsValid(next) { AcceptKeeps(next, other); } else { AcceptErases(next, other); }
  }

  /** A candidate for Futu with one row that names Tiger. */
  const MISNAMED := Offer(Candidate(Futu, Live, "", "", [Row(Tiger, "x", "", true)], [], []), "t", None, None, false)

  lemma {:induction false} MisnamedAccepted()
    ensures Accept(EMPTY_STATE, MISNAMED).Ok? && !WellNamed(MISNAMED)
    ensures Futu in Accept(EMPTY_STATE, MISNAMED).value.brokers
      && Accept(EMPTY_STATE, MISNAMED).value.brokers[Futu].positions != []
  {
    EmptyIsValid();
    assert MISNAMED.candidate.positions[0].broker == Tiger;
  }

  /** It is accepted, and the next failure of Tiger erases it. */
  lemma {:induction false} MisnamedErased(at: string, message: string)
    ensures Accept(EMPTY_STATE, MISNAMED).Ok?
    ensures var later := Fail(Accept(EMPTY_STATE, MISNAMED).value, Tiger, at, message).value;
      Futu in later.brokers && later.brokers[Futu] == EmptySource(Futu)
  {
    MisnamedAccepted();
    NextFailureKeepsIff(EMPTY_STATE, MISNAMED, Tiger, at, message);
  }

  /** A candidate for Futu with a blank holding generation, which only a statement broker may have. */
  const UNFIT := Offer(Candidate(Futu, Live, "", "", [], [], []), "t", None, Some(Blank), false)

  lemma {:induction false} UnfitAccepted()
    ensures Accept(EMPTY_STATE, UNFIT).Ok? && !HoldingFits(UNFIT)
  {
    EmptyIsValid();
  }

  /** It too is accepted, and the next failure of Tiger erases it. */
  lemma {:induction false} UnfitErased(at: string, message: string)
    ensures Accept(EMPTY_STATE, UNFIT).Ok?
    ensures var later := Fail(Accept(EMPTY_STATE, UNFIT).value, Tiger, at, message).value;
      Futu in later.brokers && later.brokers[Futu] == EmptySource(Futu)
  {
    UnfitAccepted();
    NextFailureKeepsIff(EMPTY_STATE, UNFIT, Tiger, at, message);
  }

  datatype Event = Offered(offer: Offer) | Missed(broker: Broker, at: string, message: string)

  /** A rejected event leaves the state as it was. */
  function Step(s: State, e: Event): State {
    match e
    case Offered(o) => (match Accept(s, o) case Ok(t) => t case Err(_) => s)
    case Missed(b, at, message) => (match Fail(s, b, at, message) case Ok(t) => t case Err(_) => s)
  }

  function Play(events: seq<Event>): State {
    if events == [] then EMPTY_STATE else Step(Play(events[..|events| - 1]), events[|events| - 1])
  }

  /** What was accepted of one broker, and its last attempt, computed from its own events alone. */
  datatype Facts = Facts(
    kind: Kind, dataAsOf: string, period: string, positions: seq<Row>, cash: seq<Row>, rates: seq<Rate>,
    lastSuccessAt: string, status: Status, attemptedAt: string, message: string)

  /** Whether `accept_candidate` takes the offer from a broker whose accepted cash is `cash`. */
  predicate Admitted(o: Offer, cash: seq<Row>) {
    && IsRequired(o.candidate.broker) && KindAllowed(o.candidate.broker, o.candidate.kind)
    && !GenerationRejected(o) && (o.preserveCash ==> cash != [])
  }

  function FactsAfter(before: Facts, e: Event, b: Broker): Facts {
    match e
    case Missed(m, at, message) =>
      if m == b then before.(status := Failed, attemptedAt := at, message := message) else before
    case Offered(o) =>
      if o.candidate.broker == b && Admitted(o, before.cash) then
        Facts(o.candidate.kind, o.candidate.dataAsOf, o.candidate.period, o.candidate.positions,
              if o.preserveCash then before.cash
              else o.candidate.cash, o.candidate.rates, o.at, Status.Accepted, o.at, "")
      else before
  }

  function LatestFacts(events: seq<Event>, b: Broker): Facts {
    if events == [] then FactsOf(EmptySource(b))
    else FactsAfter(LatestFacts(events[..|events| - 1], b), events[|events| - 1], b)
  }

  function FactsOf(s: Source): Facts {
    Facts(s.kind, s.dataAsOf, s.period, s.positions, s.cash, s.rates, s.lastSuccessAt, s.status, s.attemptedAt,
      s.message)
  }

  /** The k-th event is an offer of this broker that is taken. */
  predicate Takes(events: seq<Event>, k: nat, b: Broker) {
    && k < |events| && events[k].Offered? && events[k].offer.candidate.broker == b
    && Admitted(events[k].offer, LatestFacts(events[..k], b).cash)
  }

  predicate Misses(events: seq<Event>, k: nat, b: Broker) {
    k < |events| && events[k].Missed? && events[k].broker == b
  }

  lemma {:induction false} TakesBefore(events: seq<Event>, k: nat, b: Broker)
    requires k < |events| - 1
    ensures Takes(events, k, b) <==> Takes(events[..|events| - 1], k, b)
    ensures Misses(events, k, b) <==> Misses(events[..|events| - 1], k, b)
  {
    assert events[..|events| - 1][..k] == events[..k];
  }

  /** What is recorded as accepted is what the latest taken offer said. */
  lemma {:induction false} LatestTaken(events: seq<Event>, k: nat, b: Broker)
    requires Takes(events, k, b) && forall i :: k < i < |events| ==> !Takes(events, i, b)
    ensures var f, c := LatestFacts(events, b), events[k].offer.candidate;
      && f.kind == c.kind && f.dataAsOf == c.dataAsOf && f.period == c.period && f.positions == c.positions
      && f.rates == c.rates && f.lastSuccessAt == events[k].offer.at
  {
    var n := |events| - 1;
    if k < n {
      TakesBefore(events, k, b);
      forall i | k < i < n ensures !Takes(events[..n], i, b) { TakesBefore(events, i, b); }
      LatestTaken(events[..n], k, b);
      assert !Takes(events, n, b);
    }
  }

  /** The recorded cash is that of the latest taken offer that brought its own. */
  lemma {:induction false} LatestCash(events: seq<Event>, k: nat, b: Broker)
    requires Takes(events, k, b) && !events[k].offer.preserveCash
    requires forall i :: k < i < |events| && Takes(events, i, b) ==> events[i].offer.preserveCash
    ensures LatestFacts(events, b).cash == events[k].offer.candidate.cash
  {
    var n := |events| - 1;
    if k < n {
      TakesBefore(events, k, b);
      forall i | k < i < n && Takes(events[..n], i, b) ensures events[..n][i].offer.preserveCash {
        TakesBefore(events, i, b);
      }
      LatestCash(events[..n], k, b);
      assert Takes(events, n, b) ==> events[n].offer.preserveCash;
    }
  }

  /** The recorded attempt is the latest taken offer or failure of the broker. */
  lemma {:induction false} LatestAttempt(events: seq<Event>, k: nat, b: Broker)
    requires Takes(events, k, b) || Misses(events, k, b)
    requires forall i :: k < i < |events| ==> !Takes(events, i, b) && !Misses(events, i, b)
    ensures var f := LatestFacts(events, b);
      if events[k].Offered? then f.status == Status.Accepted && f.attemptedAt == events[k].offer.at && f.message == ""
      else f.status == Failed && f.attemptedAt == events[k].at && f.message == events[k].message
  {
    var n := |events| - 1;
    if k < n {
      TakesBefore(events, k, b);
      forall i | k < i < n ensures !Takes(events[..n], i, b)
        && !Misses(events[..n], i, b) { TakesBefore(events, i, b); }
      LatestAttempt(events[..n], k, b);
      assert !Takes(events, n, b) && !Misses(events, n, b);
    }
  }

  /** The offer is refused, or leaves a valid state. */
  predicate Harmless(o: Offer, cash: seq<Row>) {
    Admitted(o, cash) ==> WellNamed(o) && HoldingFits(o)
  }

  predicate HarmlessAt(events: seq<Event>, i: nat)
    requires i < |events|
  {
    events[i].Offered? ==> Harmless(events[i].offer, LatestFacts(events[..i], events[i].offer.candidate.broker).cash)
  }

  /** Every offer that is taken is well named and fits; what is refused may be anything. */
  predicate AllHarmless(events: seq<Event>) {
    forall i :: 0 <= i < |events| ==> HarmlessAt(events, i)
  }

  lemma {:induction false} HarmlessPrefix(events: seq<Event>)
    requires events != [] && AllHarmless(events)
    ensures AllHarmless(events[..|events| - 1]) && HarmlessAt(events, |events| - 1)
  {
    var before := events[..|events| - 1];
    forall i | 0 <= i < |before| ensures HarmlessAt(before, i) {
      assert HarmlessAt(events, i) && before[..i] == events[..i];
    }
  }

  ghost predicate Complete(s: State) {
    IsValid(s) && s.statements.Some? && s.holdings.Some?
  }

  lemma {:induction false} AcceptedIff(base: State, o: Offer)
    requires Complete(base)
    ensures AcceptInto(base, o).Ok? <==>
      IsRequired(o.candidate.broker) && Admitted(o, base.brokers[o.candidate.broker].cash)
  {
  }

  /** One row that does not read back, or reads back under another broker, makes a whole state invalid. */
  lemma {:induction false} BadRowInvalid(s: State, b: Broker, row: Row)
    requires b in s.brokers && (row in s.brokers[b].positions || row in s.brokers[b].cash)
    requires !row.readable || row.broker != b
    ensures !IsValid(s)
  {
    var source := s.brokers[b];
    if row in source.positions {
      var i :| 0 <= i < |source.positions| && source.positions[i] == row;
      assert !RowsNamed(source.positions, b);
    } else {
      var i :| 0 <= i < |source.cash| && source.cash[i] == row;
      assert !RowsNamed(source.cash, b);
    }
    assert !SourceValid(source, b);
  }

  /** Futu and Tiger are live sources only; Phillips and Eastmoney are statements or manual ones. */
  lemma {:induction false} WrongKindRefused(state: State, o: Offer)
    requires if o.candidate.broker in {Futu, Tiger} then o.candidate.kind != Live
             else o.candidate.broker in {Phillips, Eastmoney} && o.candidate.kind == Live
    ensures Accept(state, o) == Err(InvalidKind)
  {
  }

  lemma {:induction false} OfferedFacts(s: State, o: Offer)
    requires Complete(s) && (IsRequired(o.candidate.broker) ==> Harmless(o, s.brokers[o.candidate.broker].cash))
    ensures var t, b := Step(s, Offered(o)), o.candidate.broker;
      && Complete(t)
      && (forall x :: x in s.brokers && x != b ==> t.brokers[x] == s.brokers[x])
      && (IsRequired(b) ==> t.brokers[b] == if Admitted(o, s.brokers[b].cash) then AcceptedSource(o, s.brokers[b])
                                            else s.brokers[b])
      && t.projection == s.projection
  {
    AcceptedIff(s, o);
    if AcceptInto(s, o).Ok? {
      AcceptValidIff(s, o);
      GenerationsValidIff(s, o);
    }
  }

  /** An accept records its time, and the statement or holding generation that came with it, and no other. */
  lemma {:induction false} AcceptRecords(base: State, o: Offer)
    requires Complete(base) && AcceptInto(base, o).Ok?
    ensures var t, b := AcceptInto(base, o).value, o.candidate.broker;
      && t.generation == o.at && t.statements.Some? && t.holdings.Some?
      && t.statements.value == (if o.statement.Some? then base.statements.value[b := o.statement.value]
                                else base.statements.value)
      && t.holdings.value == (if o.statement.Some? then base.holdings.value[b := o.statement.value]
                              else if o.holding.Some? then base.holdings.value[b := o.holding.value]
                              else base.holdings.value)
  {
  }

  lemma {:induction false} MissedFacts(s: State, m: Broker, at: string, message: string)
    requires Complete(s)
    ensures var t := Step(s, Missed(m, at, message));
      && Complete(t)
      && (forall x :: x in s.brokers && x != m ==> t.brokers[x] == s.brokers[x])
      && (IsRequired(m) ==> t.brokers[m] == s.brokers[m].(status := Failed, attemptedAt := at, message := message))
      && t.statements == s.statements && t.holdings == s.holdings && t.projection == s.projection
      && t.generation == if IsRequired(m) then at else s.generation
  {
    if IsRequired(m) { FailValid(s, m, at, message); }
  }

  lemma {:induction false} StepRecords(s: State, e: Event, b: Broker)
    requires Complete(s) && IsRequired(b)
    requires e.Offered? && IsRequired(e.offer.candidate.broker) ==>
      Harmless(e.offer, s.brokers[e.offer.candidate.broker].cash)
    ensures Complete(Step(s, e)) && FactsOf(Step(s, e).brokers[b]) == FactsAfter(FactsOf(s.brokers[b]), e, b)
  {
    match e {
      case Offered(o) => OfferedFacts(s, o);
      case Missed(m, at, message) => MissedFacts(s, m, at, message);
    }
  }

  /** Over every sequence of offers and failures, a source records its own latest accepted facts and nothing else. */
  lemma {:induction false} PlayRecordsLatest(events: seq<Event>, b: Broker)
    requires AllHarmless(events) && IsRequired(b)
    ensures Complete(Play(events))
    ensures FactsOf(Play(events).brokers[b]) == LatestFacts(events, b)
  {
    if events == [] {
      EmptyIsValid();
      EmptySources();
    } else {
      var before, e := events[..|events| - 1], events[|events| - 1];
      HarmlessPrefix(events);
      PlayRecordsLatest(before, b);
      if e.Offered? && IsRequired(e.offer.candidate.broker) { PlayRecordsLatest(before, e.offer.candidate.broker); }
      StepRecords(Play(before), e, b);
    }
  }
}
