/**
 Round accounting of the yield baseline (`summarize_samples` in scripts/lp_yield_baseline.py).

 A producer keeps the latest few rounds in a ring; samples of the ring overlap, repeat and
 miss rounds. The summary must count every round it sees once and account for the others.
*/
module YieldBaseline {
  import opened Prelude

  datatype SourceError = SourceError(
    source: Option<string>, condition: Option<string>, token: Option<string>,
    errorClass: string, retryHit: bool, httpStatus: Option<int>, remaining: Option<real>, age: Option<real>)

  /** `identified` says that the identity fields have the types that the summary accepts. */
  datatype Round = Round(account: Option<string>, generation: Option<string>, observation: string,
                         identified: bool, noDecision: bool, errors: seq<SourceError>,
                         jobAges: seq<real>, omitted: nat)

  type Key = (string, Option<string>, Option<string>, string)

  /** One line of input: unusable, or an envelope with its decoded diagnostics. */
  datatype Sample =
    | Unusable
    | Envelope(at: int, failed: bool, inst: Option<string>, rounds: seq<Round>, total: Option<int>)

  // ---------------------------------------------------------------- what one round feeds into the counters

  datatype Tally = Tally(
    noDecision: nat, causes: multiset<string>, errorClasses: multiset<string>,
    retryHits: nat, capacityEvents: nat, httpStatuses: multiset<int>,
    retryMax: Option<real>, inflightMax: Option<real>, truncated: nat)

  const EMPTY_TALLY := Tally(0, multiset{}, multiset{}, 0, 0, multiset{}, None, None, 0)

  /** A maximum that starts from zero, once there is anything to take it of. */
  function Raise(m: Option<real>, x: Option<real>): Option<real> {
    if x.None? then m
    else
      var before := if m.Some? then m.value else 0.0;
      Some(if x.value > before then x.value else before)
  }

  function RaiseAll(m: Option<real>, ages: seq<real>): Option<real> {
    if ages == [] then m else Raise(RaiseAll(m, ages[..|ages| - 1]), Some(ages[|ages| - 1]))
  }

  type SourceKey = (string, Option<string>, Option<string>)

  function ClassOf(e: SourceError): string {
    if e.errorClass == "" then "unattributed" else e.errorClass
  }

  /** The errors of a round after the first for each source key, and the causes they give it. */
  datatype Scan = Scan(keys: set<SourceKey>, causes: set<string>, tally: Tally)

  function ScanError(s: Scan, e: SourceError): Scan {
    if e.source.None? then s
    else
      var key := (e.source.value, e.condition, e.token);
      if key in s.keys then s
      else
        var c := ClassOf(e);
        Scan(s.keys + {key}, s.causes + {if e.retryHit then "retry_cache" else c},
             s.tally.(errorClasses := s.tally.errorClasses + multiset{c},
                      retryHits := s.tally.retryHits + if e.retryHit then 1 else 0,
                      retryMax := Raise(s.tally.retryMax, e.remaining),
                      inflightMax := Raise(s.tally.inflightMax, e.age),
                      capacityEvents := s.tally.capacityEvents + if c == "capacity" then 1 else 0,
                      httpStatuses := s.tally.httpStatuses + if e.httpStatus.Some? then multiset{e.httpStatus.value}
                                                             else multiset{}))
  }

  function ScanErrors(start: Scan, errors: seq<SourceError>): Scan {
    if errors == [] then start else ScanError(ScanErrors(start, errors[..|errors| - 1]), errors[|errors| - 1])
  }

  /** The counters after one more round. */
  function AddRound(t: Tally, r: Round): Tally {
    var scan := ScanErrors(Scan({}, {}, t.(truncated := t.truncated + r.omitted)), r.errors);
    var counted := scan.tally.(inflightMax := RaiseAll(scan.tally.inflightMax, r.jobAges));
    if !r.noDecision then counted
    else counted.(noDecision := counted.noDecision + 1,
                  causes := counted.causes + multiset(if scan.causes == {} then {"unattributed"} else scan.causes))
  }

  function TallyOf(rounds: seq<(Key, Round)>): Tally {
    if rounds == [] then EMPTY_TALLY else AddRound(TallyOf(rounds[..|rounds| - 1]), rounds[|rounds| - 1].1)
  }

  // ---------------------------------------------------------------- which samples count, and what they show

  function KeyOf(inst: string, r: Round): Key {
    (inst, r.account, r.generation, r.observation)
  }

  function Identified(rounds: seq<Round>): seq<Round> {
    if rounds == [] then []
    else
      var before, last := Identified(rounds[..|rounds| - 1]), rounds[|rounds| - 1];
      if last.identified && last.observation != "" then before + [last] else before
  }

  function Tagged(inst: string, rounds: seq<Round>): (t: seq<(Key, Round)>)
    ensures |t| == |rounds|
  {
    seq(|rounds|, i requires 0 <= i < |rounds| => (KeyOf(inst, rounds[i]), rounds[i]))
  }

  predicate Advances(last: Option<int>, at: int) {
    last.None? || at > last.value
  }

  /** The latest accepted sampling time. */
  function LastAt(samples: seq<Sample>): Option<int> {
    if samples == [] then None
    else
      var before := LastAt(samples[..|samples| - 1]);
      match samples[|samples| - 1]
      case Unusable => before
      case Envelope(at, _, _, _, _) => if Advances(before, at) then Some(at) else before
  }

  /** The sample reaches the round loop. */
  predicate Counts(last: Option<int>, s: Sample) {
    s.Envelope? && Advances(last, s.at) && !s.failed && s.inst.Some? && s.inst.value != "" && Identified(s.rounds) != []
  }

  /** All rounds that the counting samples show, in the order in which they are looked at, with repetitions. */
  function Shown(samples: seq<Sample>): seq<(Key, Round)> {
    if samples == [] then []
    else
      var before, last := samples[..|samples| - 1], samples[|samples| - 1];
      if Counts(LastAt(before), last) then Shown(before) + Tagged(last.inst.value, Identified(last.rounds))
      else Shown(before)
  }

  function Keys(rounds: seq<(Key, Round)>): set<Key> {
    set i | 0 <= i < |rounds| :: rounds[i].0
  }

  /** The first showing of every round. */
  function FirstShowings(rounds: seq<(Key, Round)>): seq<(Key, Round)> {
    if rounds == [] then []
    else
      var before, last := rounds[..|rounds| - 1], rounds[|rounds| - 1];
      if last.0 in Keys(before) then FirstShowings(before) else FirstShowings(before) + [last]
  }

  // ---------------------------------------------------------------- missed and left-censored rounds

  function NewCount(seen: set<Key>, rounds: seq<(Key, Round)>): nat {
    if rounds == [] then 0
    else NewCount(seen, rounds[..|rounds| - 1]) + if rounds[|rounds| - 1].0 in seen then 0 else 1
  }

  datatype Coverage = Coverage(inst: Option<string>, total: Option<int>, missed: int, leftCensored: int, resets: nat)

  const NO_COVERAGE := Coverage(None, None, 0, 0, 0)

  function Max(a: int, b: int): int {
    if a >= b then a else b
  }

  /** A new instance starts over; it is noticed on every readable envelope. */
  function SeeInstance(c: Coverage, inst: Option<string>): Coverage {
    if inst.None? || inst.value == "" then c
    else if c.inst.Some? && c.inst != inst then c.(inst := inst, total := None, resets := c.resets + 1)
    else c.(inst := inst)
  }

  function SeeTotal(c: Coverage, total: Option<int>, unseen: nat): Coverage {
    if total.None? then c
    else
      var n := total.value;
      var d :=
        if c.total.None? then c.(leftCensored := c.leftCensored + Max(0, n - unseen))
        else if n < c.total.value then c.(resets := c.resets + 1)
        else if n - c.total.value > unseen then c.(missed := c.missed + n - c.total.value - unseen)
        else c;
      d.(total := total)
  }

  function CoverageOf(samples: seq<Sample>): Coverage {
    if samples == [] then NO_COVERAGE
    else
      var before, s := samples[..|samples| - 1], samples[|samples| - 1];
      var c := CoverageOf(before);
      if s.Unusable? || !Advances(LastAt(before), s.at) || s.failed then c
      else
        var d := SeeInstance(c, s.inst);
        if Counts(LastAt(before), s)
        then SeeTotal(d, s.total, NewCount(Keys(Shown(before)), Tagged(s.inst.value, Identified(s.rounds))))
        else d
  }

  // ---------------------------------------------------------------- the summary as it runs

  datatype Summary = Summary(tally: Tally, coverage: Coverage, seen: set<Key>)

  predicate Summarizes(samples: seq<Sample>, s: Summary) {
    s.tally == TallyOf(FirstShowings(Shown(samples))) && s.seen == Keys(Shown(samples))
      && s.coverage == CoverageOf(samples)
  }

  method CountNew(seen: set<Key>, rounds: seq<(Key, Round)>) returns (n: nat)
    ensures n == NewCount(seen, rounds)
  {
    n := 0;
    for i := 0 to |rounds|
      invariant n == NewCount(seen, rounds[..i])
    {
      assert rounds[..i + 1][..i] == rounds[..i];
      if rounds[i].0 !in seen { n := n + 1; }
    }
    assert rounds[..|rounds|] == rounds;
  }

  lemma {:induction false} KeysSnoc(a: seq<(Key, Round)>, x: (Key, Round))
    ensures Keys(a + [x]) == Keys(a) + {x.0}
  {
    assert forall i :: 0 <= i < |a| ==> (a + [x])[i] == a[i];
    assert (a + [x])[|a|] == x;
  }

  lemma {:induction false} CountOne(shown: seq<(Key, Round)>, x: (Key, Round))
    ensures Keys(shown + [x]) == Keys(shown) + {x.0}
    ensures var t := TallyOf(FirstShowings(shown));
      TallyOf(FirstShowings(shown + [x])) == if x.0 in Keys(shown) then t else AddRound(t, x.1)
  {
    KeysSnoc(shown, x);
    assert (shown + [x])[..|shown|] == shown;
    TallySnoc(FirstShowings(shown), x);
  }

  /** One round of a window: it feeds the counters unless it was seen before. */
  method CountRound(tally: Tally, seen: set<Key>, ghost shown: seq<(Key, Round)>, x: (Key, Round))
    returns (t: Tally, s: set<Key>)
    requires tally == TallyOf(FirstShowings(shown)) && seen == Keys(shown)
    ensures t == TallyOf(FirstShowings(shown + [x])) && s == Keys(shown + [x])
  {
    CountOne(shown, x);
    t, s := tally, seen;
    if x.0 !in seen { t, s := AddRound(tally, x.1), seen + {x.0}; }
  }

  /** The loop over one window: unseen rounds feed the counters. */
  method CountWindow(tally: Tally, seen: set<Key>, ghost shown: seq<(Key, Round)>, window: seq<(Key, Round)>)
    returns (t: Tally, s: set<Key>)
    requires tally == TallyOf(FirstShowings(shown)) && seen == Keys(shown)
    ensures t == TallyOf(FirstShowings(shown + window)) && s == Keys(shown + window)
  {
    t, s := tally, seen;
    ghost var sofar := shown;
    NoneTaken(shown, window);
    for i := 0 to |window|
      invariant sofar == Taken(shown, window, i) && t == TallyOf(FirstShowings(sofar)) && s == Keys(sofar)
    {
      t, s := CountRound(t, s, sofar, window[i]);
      OneMoreTaken(shown, window, i);
      sofar := sofar + [window[i]];
    }
    AllTaken(shown, window);
  }

  /** What was shown before, and the first n rounds of the window. */
  function Taken(shown: seq<(Key, Round)>, window: seq<(Key, Round)>, n: nat): seq<(Key, Round)>
    requires n <= |window|
  {
    shown + window[..n]
  }

  lemma {:induction false} NoneTaken(shown: seq<(Key, Round)>, window: seq<(Key, Round)>)
    ensures Taken(shown, window, 0) == shown
  {
  }

  lemma {:induction false} OneMoreTaken(shown: seq<(Key, Round)>, window: seq<(Key, Round)>, n: nat)
    requires n < |window|
    ensures Taken(shown, window, n) + [window[n]] == Taken(shown, window, n + 1)
  {
  }

  lemma {:induction false} AllTaken(shown: seq<(Key, Round)>, window: seq<(Key, Round)>)
    ensures Taken(shown, window, |window|) == shown + window
  {
    assert window[..|window|] == window;
  }

  /** Every counter is fed once by every round that any counting sample shows, however the windows overlap. */
  method SummarizeSamples(samples: seq<Sample>) returns (summary: Summary)
    ensures Summarizes(samples, summary)
  {
    var tally, coverage, seen := EMPTY_TALLY, NO_COVERAGE, {};
    var last: Option<int> := None;
    ghost var shown: seq<(Key, Round)> := [];
    for i := 0 to |samples|
      invariant last == LastAt(samples[..i]) && coverage == CoverageOf(samples[..i])
      invariant shown == Shown(samples[..i]) && tally == TallyOf(FirstShowings(shown)) && seen == Keys(shown)
    {
      assert samples[..i + 1][..i] == samples[..i];
      var s := samples[i];
      if s.Unusable? || !Advances(last, s.at) { continue; }
      var counts := Counts(last, s);
      last := Some(s.at);
      if s.failed { continue; }
      coverage := SeeInstance(coverage, s.inst);
      if counts {
        var window := Tagged(s.inst.value, Identified(s.rounds));
        var n := CountNew(seen, window);
        coverage := SeeTotal(coverage, s.total, n);
        tally, seen := CountWindow(tally, seen, shown, window);
        shown := shown + window;
      }
    }
    assert samples[..|samples|] == samples;
    summary := Summary(tally, coverage, seen);
  }

  /** Every round shown is among the first showings once. */
  lemma {:induction false} ShownOnce(rounds: seq<(Key, Round)>)
    ensures var f := FirstShowings(rounds);
      Keys(f) == Keys(rounds) && DistinctKeys(f)
  {
    if rounds == [] {
    } else {
      var before, last := rounds[..|rounds| - 1], rounds[|rounds| - 1];
      ShownOnce(before);
      KeysSnoc(before, last);
      KeysSnoc(FirstShowings(before), last);
      assert rounds == before + [last];
      assert forall i :: 0 <= i < |FirstShowings(before)| ==> FirstShowings(before)[i].0 in Keys(FirstShowings(before));
    }
  }

  // ---------------------------------------------------------------- the counters in closed form

  predicate DistinctKeys(f: seq<(Key, Round)>) {
    forall i, j :: 0 <= i < j < |f| ==> f[i].0 != f[j].0
  }

  lemma {:induction false} AsManyAsKeys(f: seq<(Key, Round)>)
    requires DistinctKeys(f)
    ensures |Keys(f)| == |f|
  {
    if f != [] {
      var before, last := f[..|f| - 1], f[|f| - 1];
      AsManyAsKeys(before);
      KeysSnoc(before, last);
      assert f == before + [last];
      assert last.0 !in Keys(before);
    }
  }

  /** Scanning a round's errors finds the same causes whatever was counted before, and leaves the decisions alone. */
  lemma {:induction false} ScanCauses(t: Tally, errors: seq<SourceError>)
    ensures var a, b := ScanErrors(Scan({}, {}, t), errors), ScanErrors(Scan({}, {}, EMPTY_TALLY), errors);
      a.keys == b.keys && a.causes == b.causes && a.tally.noDecision == t.noDecision && a.tally.causes == t.causes
  {
    if errors != [] { ScanCauses(t, errors[..|errors| - 1]); }
  }

  function ErrorKey(e: SourceError): SourceKey
    requires e.source.Some?
  {
    (e.source.value, e.condition, e.token)
  }

  /** The i-th error is the first one with its source key; later ones with that key are not counted. */
  predicate IsFirst(errors: seq<SourceError>, i: nat) {
    && i < |errors| && errors[i].source.Some?
    && forall j :: 0 <= j < i && errors[j].source.Some? ==> ErrorKey(errors[j]) != ErrorKey(errors[i])
  }

  /** The first errors of their keys with this class. */
  function OfClass(errors: seq<SourceError>, c: string): set<int> {
    set i: int | 0 <= i < |errors| && IsFirst(errors, i) && ClassOf(errors[i]) == c
  }

  function FromRetryCache(errors: seq<SourceError>): set<int> {
    set i: int | 0 <= i < |errors| && IsFirst(errors, i) && errors[i].retryHit
  }

  function WithStatus(errors: seq<SourceError>, h: int): set<int> {
    set i: int | 0 <= i < |errors| && IsFirst(errors, i) && errors[i].httpStatus == Some(h)
  }

  function CauseOf(e: SourceError): string {
    if e.retryHit then "retry_cache" else ClassOf(e)
  }

  lemma {:induction false} FirstBefore(errors: seq<SourceError>, i: nat)
    requires i < |errors| - 1
    ensures IsFirst(errors, i) <==> IsFirst(errors[..|errors| - 1], i)
  {
  }

  /** The keys of all errors that name a source. */
  function ErrorKeys(errors: seq<SourceError>): set<SourceKey> {
    set i: int | 0 <= i < |errors| && errors[i].source.Some? :: ErrorKey(errors[i])
  }

  /** The causes of the errors that are counted. */
  function FirstCauses(errors: seq<SourceError>): set<string> {
    set i: int | 0 <= i < |errors| && IsFirst(errors, i) :: CauseOf(errors[i])
  }

  lemma {:induction false} ErrorKeysLast(errors: seq<SourceError>)
    requires errors != []
    ensures var n := |errors| - 1;
      ErrorKeys(errors) == ErrorKeys(errors[..n]) + if errors[n].source.Some? then {ErrorKey(errors[n])} else {}
  {
    var n := |errors| - 1;
    assert forall i :: 0 <= i < n ==> errors[..n][i] == errors[i];
  }

  /** The last error is counted exactly when none of the others has its key. */
  lemma {:induction false} LastIsFirst(errors: seq<SourceError>)
    requires errors != []
    ensures var n := |errors| - 1;
      IsFirst(errors, n) <==> errors[n].source.Some? && ErrorKey(errors[n]) !in ErrorKeys(errors[..n])
  {
    var n := |errors| - 1;
    assert forall i :: 0 <= i < n ==> errors[..n][i] == errors[i];
  }

  lemma {:induction false} FirstCausesLast(errors: seq<SourceError>)
    requires errors != []
    ensures var n := |errors| - 1;
      FirstCauses(errors) == FirstCauses(errors[..n]) + if IsFirst(errors, n) then {CauseOf(errors[n])} else {}
  {
    var n := |errors| - 1;
    forall i | 0 <= i < n ensures IsFirst(errors, i) <==> IsFirst(errors[..n], i) { FirstBefore(errors, i); }
    assert forall i :: 0 <= i < n ==> errors[..n][i] == errors[i];
  }

  /** The keys and the causes that a scan finds. */
  lemma {:induction false} ScanFinds(t: Tally, errors: seq<SourceError>)
    ensures ScanErrors(Scan({}, {}, t), errors).keys == ErrorKeys(errors)
    ensures ScanErrors(Scan({}, {}, t), errors).causes == FirstCauses(errors)
  {
    if errors != [] {
      ScanFinds(t, errors[..|errors| - 1]);
      ErrorKeysLast(errors);
      LastIsFirst(errors);
      FirstCausesLast(errors);
    }
  }

  lemma {:induction false} CountedBefore(errors: seq<SourceError>, c: string, h: int)
    requires errors != []
    ensures var n, before := |errors| - 1, errors[..|errors| - 1];
      var first := IsFirst(errors, n);
      && OfClass(errors, c) == OfClass(before, c) + (if first && ClassOf(errors[n]) == c then {n} else {})
      && FromRetryCache(errors) == FromRetryCache(before) + (if first && errors[n].retryHit then {n} else {})
      && WithStatus(errors, h) == WithStatus(before, h) + (if first && errors[n].httpStatus == Some(h) then {n} else {})
  {
    var n := |errors| - 1;
    forall i | 0 <= i < n ensures IsFirst(errors, i) <==> IsFirst(errors[..n], i) { FirstBefore(errors, i); }
  }

  lemma {:induction false} ScanErrorCounts(scan: Scan, e: SourceError, c: string, h: int)
    ensures var counted := e.source.Some? && ErrorKey(e) !in scan.keys;
      var t, u := scan.tally, ScanError(scan, e).tally;
      && u.errorClasses[c] == t.errorClasses[c] + (if counted && ClassOf(e) == c then 1 else 0)
      && u.retryHits == t.retryHits + (if counted && e.retryHit then 1 else 0)
      && u.capacityEvents == t.capacityEvents + (if counted && ClassOf(e) == "capacity" then 1 else 0)
      && u.httpStatuses[h] == t.httpStatuses[h] + (if counted && e.httpStatus == Some(h) then 1 else 0)
  {
  }

  /** A round's errors feed each counter once for every distinct source key, with the first error of that key. */
  lemma {:induction false} ScanCounts(t: Tally, errors: seq<SourceError>, c: string, h: int)
    ensures var tally := ScanErrors(Scan({}, {}, t), errors).tally;
      && tally.errorClasses[c] == t.errorClasses[c] + |OfClass(errors, c)|
      && tally.retryHits == t.retryHits + |FromRetryCache(errors)|
      && tally.capacityEvents == t.capacityEvents + |OfClass(errors, "capacity")|
      && tally.httpStatuses[h] == t.httpStatuses[h] + |WithStatus(errors, h)|
  {
    if errors != [] {
      var n := |errors| - 1;
      ScanCounts(t, errors[..n], c, h);
      ScanFinds(t, errors[..n]);
      LastIsFirst(errors);
      ScanErrorCounts(ScanErrors(Scan({}, {}, t), errors[..n]), errors[n], c, h);
      CountedSizes(errors, c, h);
      CountedSizes(errors, "capacity", h);
    }
  }

  lemma {:induction false} CountedSizes(errors: seq<SourceError>, c: string, h: int)
    requires errors != []
    ensures var n, before := |errors| - 1, errors[..|errors| - 1];
      var first := IsFirst(errors, n);
      && |OfClass(errors, c)| == |OfClass(before, c)| + (if first && ClassOf(errors[n]) == c then 1 else 0)
      && |FromRetryCache(errors)| == |FromRetryCache(before)| + (if first && errors[n].retryHit then 1 else 0)
      && |WithStatus(errors, h)| == |WithStatus(before, h)| + (if first
        && errors[n].httpStatus == Some(h) then 1 else 0)
  {
    var n, before := |errors| - 1, errors[..|errors| - 1];
    CountedBefore(errors, c, h);
    assert n !in OfClass(before, c) && n !in FromRetryCache(before) && n !in WithStatus(before, h);
  }

  /** A round without a decision is put down to the causes of its counted errors, or to none that is known. */
  lemma {:induction false} CausesFound(r: Round)
    ensures CausesOf(r) == if FirstCauses(r.errors) == {} then {"unattributed"} else FirstCauses(r.errors)
  {
    ScanFinds(EMPTY_TALLY, r.errors);
  }

  /** There is a cause as soon as any error names a source. */
  lemma {:induction false} NamedIsCounted(errors: seq<SourceError>)
    ensures FirstCauses(errors) == {} <==> forall i :: 0 <= i < |errors| ==> errors[i].source.None?
  {
    if errors != [] {
      var n := |errors| - 1;
      NamedIsCounted(errors[..n]);
      FirstCausesLast(errors);
      LastIsFirst(errors);
      assert forall i :: 0 <= i < n ==> errors[..n][i] == errors[i];
      if FirstCauses(errors[..n]) == {} { assert ErrorKeys(errors[..n]) == {}; }
    }
  }

  lemma {:induction false} AddRoundErrors(t: Tally, r: Round, c: string, h: int)
    ensures var u := AddRound(t, r);
      && u.errorClasses[c] == t.errorClasses[c] + |OfClass(r.errors, c)|
      && u.retryHits == t.retryHits + |FromRetryCache(r.errors)|
      && u.capacityEvents == t.capacityEvents + |OfClass(r.errors, "capacity")|
      && u.httpStatuses[h] == t.httpStatuses[h] + |WithStatus(r.errors, h)| && u.truncated == t.truncated + r.omitted
  {
    var start := t.(truncated := t.truncated + r.omitted);
    ScanCounts(start, r.errors, c, h);
    ScanKeepsTruncated(start, r.errors);
    AddRoundScans(t, r, ScanErrors(Scan({}, {}, start), r.errors).tally);
  }

  lemma {:induction false} AddRoundScans(t: Tally, r: Round, scanned: Tally)
    requires scanned == ScanErrors(Scan({}, {}, t.(truncated := t.truncated + r.omitted)), r.errors).tally
    ensures var u := AddRound(t, r);
      && u.errorClasses == scanned.errorClasses && u.retryHits == scanned.retryHits
      && u.capacityEvents == scanned.capacityEvents && u.httpStatuses == scanned.httpStatuses
      && u.truncated == scanned.truncated && u.retryMax == scanned.retryMax
      && u.inflightMax == RaiseAll(scanned.inflightMax, r.jobAges)
  {
  }

  lemma {:induction false} ScanKeepsTruncated(t: Tally, errors: seq<SourceError>)
    ensures ScanErrors(Scan({}, {}, t), errors).tally.truncated == t.truncated
  {
    if errors != [] { ScanKeepsTruncated(t, errors[..|errors| - 1]); }
  }

  /** What a round without a decision is put down to. */
  function CausesOf(r: Round): set<string> {
    var causes := ScanErrors(Scan({}, {}, EMPTY_TALLY), r.errors).causes;
    if causes == {} then {"unattributed"} else causes
  }

  lemma {:induction false} AddRoundCounts(t: Tally, r: Round)
    ensures AddRound(t, r).noDecision == t.noDecision + if r.noDecision then 1 else 0
    ensures AddRound(t, r).causes == t.causes + if r.noDecision then multiset(CausesOf(r)) else multiset{}
  {
    ScanCauses(t.(truncated := t.truncated + r.omitted), r.errors);
  }

  /** The keys of the rounds without a decision. */
  function Undecided(f: seq<(Key, Round)>): set<Key> {
    set i | 0 <= i < |f| && f[i].1.noDecision :: f[i].0
  }

  /** The keys of the rounds without a decision that are put down to this cause. */
  function UndecidedBy(f: seq<(Key, Round)>, cause: string): set<Key> {
    set i | 0 <= i < |f| && f[i].1.noDecision && cause in CausesOf(f[i].1) :: f[i].0
  }

  lemma {:induction false} UndecidedSnoc(f: seq<(Key, Round)>, x: (Key, Round), cause: string)
    ensures Undecided(f + [x]) == Undecided(f) + if x.1.noDecision then {x.0} else {}
    ensures UndecidedBy(f + [x], cause) == UndecidedBy(f, cause) + if x.1.noDecision
      && cause in CausesOf(x.1) then {x.0} else {}
    ensures Undecided(f) <= Keys(f) && UndecidedBy(f, cause) <= Keys(f)
  {
    var g := f + [x];
    assert forall i :: 0 <= i < |f| ==> g[i] == f[i];
    assert g[|f|] == x;
  }

  lemma {:induction false} TallySnoc(f: seq<(Key, Round)>, x: (Key, Round))
    ensures TallyOf(f + [x]) == AddRound(TallyOf(f), x.1)
  {
    assert (f + [x])[..|f|] == f;
  }

  lemma {:induction false} UndecidedSizes(f: seq<(Key, Round)>, x: (Key, Round), cause: string)
    requires x.0 !in Keys(f)
    ensures |Undecided(f + [x])| == |Undecided(f)| + if x.1.noDecision then 1 else 0
    ensures |UndecidedBy(f + [x], cause)|
         == |UndecidedBy(f, cause)| + if x.1.noDecision && cause in CausesOf(x.1) then 1 else 0
  {
    UndecidedSnoc(f, x, cause);
  }

  lemma {:induction false} TallyCountsOne(f: seq<(Key, Round)>, x: (Key, Round), cause: string)
    ensures TallyOf(f + [x]).noDecision == TallyOf(f).noDecision + if x.1.noDecision then 1 else 0
    ensures TallyOf(f + [x]).causes[cause]
         == TallyOf(f).causes[cause] + if x.1.noDecision && cause in CausesOf(x.1) then 1 else 0
  {
    TallySnoc(f, x);
    AddRoundCounts(TallyOf(f), x.1);
  }

  /** Over distinct rounds the decision counters are numbers of rounds. */
  lemma {:induction false} TallyCounts(f: seq<(Key, Round)>, cause: string)
    requires DistinctKeys(f)
    ensures TallyOf(f).noDecision == |Undecided(f)| && TallyOf(f).causes[cause] == |UndecidedBy(f, cause)|
  {
    if f != [] {
      var before, last := f[..|f| - 1], f[|f| - 1];
      assert f == before + [last];
      TallyCounts(before, cause);
      NotAmong(before, last);
      TallyCountsOne(before, last, cause);
      UndecidedSizes(before, last, cause);
    }
  }

  /**
   However the windows overlap, the summary counts each distinct undecided round once, and once for each of its causes.
  */
  lemma {:induction false} SummaryCounts(samples: seq<Sample>, s: Summary, cause: string)
    requires Summarizes(samples, s)
    ensures var f := FirstShowings(Shown(samples));
      && |s.seen| == |f| && Keys(f) == s.seen
      && s.tally.noDecision == |Undecided(f)| && s.tally.causes[cause] == |UndecidedBy(f, cause)|
  {
    ShownOnce(Shown(samples));
    AsManyAsKeys(FirstShowings(Shown(samples)));
    TallyCounts(FirstShowings(Shown(samples)), cause);
  }

  // ---------------------------------------------------------------- conservation

  /** What the producer's ring shows after `n` of its rounds. */
  function Window(history: seq<Round>, capacity: nat, n: nat): seq<Round>
    requires n <= |history|
  {
    history[Max(0, n - capacity)..n]
  }

  predicate DistinctRounds(inst: string, history: seq<Round>) {
    && (forall i :: 0 <= i < |history| ==> history[i].identified && history[i].observation != "")
    && forall i, j :: 0 <= i < j < |history| ==> KeyOf(inst, history[i]) != KeyOf(inst, history[j])
  }

  /** Sample `i` was taken when the producer had made `made[i]` rounds; failed and unusable lines may come between. */
  ghost predicate FromProducer(inst: string, history: seq<Round>, capacity: nat, samples: seq<Sample>, made: seq<nat>) {
    && inst != "" && capacity > 0 && DistinctRounds(inst, history) && |made| == |samples|
    && (forall i, j :: 0 <= i <= j < |made| ==> made[i] <= made[j])
    && forall i :: 0 <= i < |samples| ==>
         && made[i] <= |history|
         && (samples[i].Envelope? && !samples[i].failed ==>
               samples[i].inst == Some(inst) && samples[i].total == Some(made[i] as int)
               && samples[i].rounds == Window(history, capacity, made[i]))
  }

  lemma {:induction false} AllIdentified(rounds: seq<Round>)
    requires forall i :: 0 <= i < |rounds| ==> rounds[i].identified && rounds[i].observation != ""
    ensures Identified(rounds) == rounds
  {
    if rounds != [] {
      AllIdentified(rounds[..|rounds| - 1]);
    }
  }

  /** Exactly the rounds from `lo` on are seen, up to `hi`; before `lo` it may be anything. */
  ghost predicate SeenFrom(inst: string, history: seq<Round>, seen: set<Key>, lo: nat, hi: nat) {
    && lo <= hi <= |history|
    && (forall j :: lo <= j < hi ==> KeyOf(inst, history[j]) in seen)
    && (forall j :: hi <= j < |history| ==> KeyOf(inst, history[j]) !in seen)
  }

  lemma {:induction false} NewInWindow(inst: string, history: seq<Round>, seen: set<Key>, lo: nat, hi: nat, from: nat,
        to: nat)
    requires SeenFrom(inst, history, seen, lo, hi) && lo <= from <= to <= |history|
    ensures NewCount(seen, Tagged(inst, history[from..to])) == if to <= hi then 0 else to - Max(from, hi)
  {
    if from == to {
    } else {
      NewInWindow(inst, history, seen, lo, hi, from, to - 1);
      var tagged := Tagged(inst, history[from..to]);
      assert tagged[..|tagged| - 1] == Tagged(inst, history[from..to - 1]);
      assert tagged[|tagged| - 1].0 == KeyOf(inst, history[to - 1]);
    }
  }

  lemma {:induction false} FirstShowingsGrow(shown: seq<(Key, Round)>, window: seq<(Key, Round)>)
    requires DistinctKeys(window)
    ensures |FirstShowings(shown + window)| == |FirstShowings(shown)| + NewCount(Keys(shown), window)
    ensures Keys(shown + window) == Keys(shown) + Keys(window)
  {
    if window == [] {
      assert shown + window == shown;
    } else {
      var before, x := window[..|window| - 1], window[|window| - 1];
      Regroup(shown, window);
      FirstShowingsGrow(shown, before);
      GrowByOne(shown, before, x);
    }
  }

  lemma {:induction false} Regroup(shown: seq<(Key, Round)>, window: seq<(Key, Round)>)
    requires window != []
    ensures var before, x := window[..|window| - 1], window[|window| - 1];
      window == before + [x] && shown + window == (shown + before) + [x]
  {
  }

  lemma {:induction false} GrowByOne(shown: seq<(Key, Round)>, before: seq<(Key, Round)>, x: (Key, Round))
    requires |FirstShowings(shown + before)| == |FirstShowings(shown)| + NewCount(Keys(shown), before)
    requires Keys(shown + before) == Keys(shown) + Keys(before) && DistinctKeys(before + [x])
    ensures |FirstShowings((shown + before) + [x])| == |FirstShowings(shown)| + NewCount(Keys(shown), before + [x])
    ensures Keys((shown + before) + [x]) == Keys(shown) + Keys(before + [x])
  {
    KeysSnoc(shown + before, x);
    KeysSnoc(before, x);
    ShowOneMore(shown + before, x);
    NewCountSnoc(Keys(shown), before, x);
    NotAmong(before, x);
  }

  lemma {:induction false} NotAmong(before: seq<(Key, Round)>, x: (Key, Round))
    requires DistinctKeys(before + [x])
    ensures x.0 !in Keys(before)
  {
    var w := before + [x];
    assert w[|before|] == x && forall i :: 0 <= i < |before| ==> w[i] == before[i];
  }

  lemma {:induction false} NewCountSnoc(seen: set<Key>, window: seq<(Key, Round)>, x: (Key, Round))
    ensures NewCount(seen, window + [x]) == NewCount(seen, window) + if x.0 in seen then 0 else 1
  {
    assert (window + [x])[..|window|] == window;
  }

  lemma {:induction false} ShowOneMore(shown: seq<(Key, Round)>, x: (Key, Round))
    ensures |FirstShowings(shown + [x])| == |FirstShowings(shown)| + if x.0 in Keys(shown) then 0 else 1
  {
    assert (shown + [x])[..|shown|] == shown;
  }

  /** What holds once some sample has counted: `n` is the total that it reported. */
  ghost predicate Conserved(inst: string, history: seq<Round>, capacity: nat, samples: seq<Sample>, n: nat) {
    && n <= |history|
    && CoverageOf(samples).inst == Some(inst) && CoverageOf(samples).total == Some(n as int)
    && SeenFrom(inst, history, Keys(Shown(samples)), Max(0, n - capacity), n)
    && |FirstShowings(Shown(samples))| + CoverageOf(samples).missed + CoverageOf(samples).leftCensored == n
  }

  ghost predicate NothingYet(inst: string, samples: seq<Sample>) {
    && Shown(samples) == [] && CoverageOf(samples).total.None?
    && CoverageOf(samples).missed == 0 && CoverageOf(samples).leftCensored == 0
    && (CoverageOf(samples).inst.None? || CoverageOf(samples).inst == Some(inst))
  }

  /** The total of the latest sample that counts. */
  function LastReported(samples: seq<Sample>): Option<int> {
    if samples == [] then None
    else
      var before, s := samples[..|samples| - 1], samples[|samples| - 1];
      if Counts(LastAt(before), s) then s.total else LastReported(before)
  }

  ghost predicate Accounted(inst: string, history: seq<Round>, capacity: nat, samples: seq<Sample>) {
    match LastReported(samples)
    case None => NothingYet(inst, samples)
    case Some(n) => n >= 0 && Conserved(inst, history, capacity, samples, n)
  }

  lemma {:induction false} TaggedDistinct(inst: string, history: seq<Round>, from: nat, to: nat)
    requires DistinctRounds(inst, history) && from <= to <= |history|
    ensures var t := Tagged(inst, history[from..to]);
      && (forall i, j :: 0 <= i < j < |t| ==> t[i].0 != t[j].0)
      && (forall j :: from <= j < to ==> KeyOf(inst, history[j]) in Keys(t))
      && (forall j :: 0 <= j < |history| && KeyOf(inst, history[j]) in Keys(t) ==> from <= j < to)
  {
    var t := Tagged(inst, history[from..to]);
    assert forall i :: 0 <= i < |t| ==> t[i].0 == KeyOf(inst, history[from + i]);
    forall j | from <= j < to ensures KeyOf(inst, history[j]) in Keys(t) {
      assert t[j - from].0 == KeyOf(inst, history[j]);
    }
  }

  lemma {:induction false} WindowIdentified(inst: string, history: seq<Round>, capacity: nat, n: nat)
    requires DistinctRounds(inst, history) && n <= |history|
    ensures Identified(Window(history, capacity, n)) == Window(history, capacity, n)
  {
    AllIdentified(Window(history, capacity, n));
  }

  /** A window moves the seen suffix up to its own end. */
  lemma {:induction false} WindowMoves(inst: string, history: seq<Round>, capacity: nat, shown: seq<(Key, Round)>,
        hi: nat, n: nat)
    requires DistinctRounds(inst, history) && hi <= n <= |history|
    requires SeenFrom(inst, history, Keys(shown), Max(0, hi - capacity), hi)
    ensures var w := Tagged(inst, Window(history, capacity, n));
      var unseen := NewCount(Keys(shown), w);
      && SeenFrom(inst, history, Keys(shown + w), Max(0, n - capacity), n)
      && |FirstShowings(shown + w)| == |FirstShowings(shown)| + unseen
      && unseen == n - Max(hi, Max(0, n - capacity))
  {
    var from := Max(0, n - capacity);
    var w := Tagged(inst, history[from..n]);
    TaggedDistinct(inst, history, from, n);
    FirstShowingsGrow(shown, w);
    NewInWindow(inst, history, Keys(shown), Max(0, hi - capacity), hi, from, n);
  }

  lemma {:induction false} NothingSeen(inst: string, history: seq<Round>, capacity: nat)
    ensures SeenFrom(inst, history, Keys([]), Max(0, 0 - capacity), 0)
  {
  }

  lemma {:induction false} TotalsAddUp(c: Coverage, hi: nat, n: nat, capacity: nat, seen: nat, unseen: nat)
    requires hi <= n && unseen == n - Max(hi, Max(0, n - capacity))
    requires c.total == Some(hi as int) || (c.total.None? && hi == 0)
    requires seen + c.missed + c.leftCensored == hi
    ensures var d := SeeTotal(c, Some(n as int), unseen);
      d.total == Some(n as int) && d.inst == c.inst && seen + unseen + d.missed + d.leftCensored == n
  {
  }

  /** The three readings of a counting sample, unfolded. */
  lemma {:induction false} SampleEffect(samples: seq<Sample>, inst: string, rounds: seq<Round>, n: int)
    requires samples != [] && Counts(LastAt(samples[..|samples| - 1]), samples[|samples| - 1])
    requires var s := samples[|samples| - 1];
      s.inst == Some(inst) && Identified(s.rounds) == rounds && s.total == Some(n)
    ensures var before := samples[..|samples| - 1];
      && Shown(samples) == Shown(before) + Tagged(inst, rounds)
      && LastReported(samples) == Some(n)
      && CoverageOf(samples) == SeeTotal(SeeInstance(CoverageOf(before), Some(inst)), Some(n),
        NewCount(Keys(Shown(before)), Tagged(inst, rounds)))
  {
  }

  /** A window with a total `n` after an accounted total `hi`, in terms of what was shown and covered before. */
  lemma {:induction false} WindowConserves(inst: string, history: seq<Round>, capacity: nat, shown: seq<(Key, Round)>,
        c: Coverage, hi: nat, n: nat)
    requires DistinctRounds(inst, history) && hi <= n <= |history|
    requires SeenFrom(inst, history, Keys(shown), Max(0, hi - capacity), hi)
    requires c.total == Some(hi as int) || (c.total.None? && hi == 0)
    requires |FirstShowings(shown)| + c.missed + c.leftCensored == hi
    ensures var w := Tagged(inst, Window(history, capacity, n));
      var d := SeeTotal(c, Some(n as int), NewCount(Keys(shown), w));
      && d.total == Some(n as int) && d.inst == c.inst
      && SeenFrom(inst, history, Keys(shown + w), Max(0, n - capacity), n)
      && |FirstShowings(shown + w)| + d.missed + d.leftCensored == n
  {
    WindowMoves(inst, history, capacity, shown, hi, n);
    TotalsAddUp(c, hi, n, capacity, |FirstShowings(shown)|,
      NewCount(Keys(shown), Tagged(inst, Window(history, capacity, n))));
  }

  function ReportedOrZero(samples: seq<Sample>): int {
    if LastReported(samples).None? then 0 else LastReported(samples).value
  }

  /** Both cases of the accounting, with nothing reported counted as a total of zero. */
  lemma {:induction false} Standing(inst: string, history: seq<Round>, capacity: nat, samples: seq<Sample>)
    requires inst != "" && Accounted(inst, history, capacity, samples)
    ensures var hi := ReportedOrZero(samples);
      var c := SeeInstance(CoverageOf(samples), Some(inst));
      && hi >= 0 && SeenFrom(inst, history, Keys(Shown(samples)), Max(0, hi - capacity), hi)
      && c.inst == Some(inst) && (c.total == Some(hi) || (c.total.None? && hi == 0))
      && |FirstShowings(Shown(samples))| + c.missed + c.leftCensored == hi
  {
    NothingSeen(inst, history, capacity);
  }

  lemma {:induction false} CountingStep(inst: string, history: seq<Round>, capacity: nat, samples: seq<Sample>, n: nat)
    requires samples != [] && inst != "" && DistinctRounds(inst, history) && n <= |history|
    requires var s := samples[|samples| - 1];
      && Counts(LastAt(samples[..|samples| - 1]), s)
      && s.inst == Some(inst) && s.total == Some(n as int) && s.rounds == Window(history, capacity, n)
    requires Accounted(inst, history, capacity, samples[..|samples| - 1])
    requires ReportedOrZero(samples[..|samples| - 1]) <= n
    ensures Accounted(inst, history, capacity, samples)
  {
    var before := samples[..|samples| - 1];
    WindowIdentified(inst, history, capacity, n);
    SampleEffect(samples, inst, Window(history, capacity, n), n);
    Standing(inst, history, capacity, before);
    WindowConserves(inst, history, capacity, Shown(before), SeeInstance(CoverageOf(before), Some(inst)),
      ReportedOrZero(before), n);
  }

  lemma {:induction false} IdleStep(inst: string, history: seq<Round>, capacity: nat, samples: seq<Sample>,
        made: seq<nat>)
    requires samples != [] && FromProducer(inst, history, capacity, samples, made)
    requires !Counts(LastAt(samples[..|samples| - 1]), samples[|samples| - 1])
    requires Accounted(inst, history, capacity, samples[..|samples| - 1])
    ensures Accounted(inst, history, capacity, samples)
  {
  }

  lemma {:induction false} ReportedBelow(inst: string, history: seq<Round>, capacity: nat, samples: seq<Sample>,
        made: seq<nat>, bound: nat)
    requires FromProducer(inst, history, capacity, samples, made)
    requires forall i :: 0 <= i < |made| ==> made[i] <= bound
    ensures LastReported(samples).Some? ==> 0 <= LastReported(samples).value <= bound
  {
    if samples != [] {
      ProducerPrefix(inst, history, capacity, samples, made);
      ReportedBelow(inst, history, capacity, samples[..|samples| - 1], made[..|samples| - 1], bound);
    }
  }

  lemma {:induction false} ProducerPrefix(inst: string, history: seq<Round>, capacity: nat, samples: seq<Sample>,
        made: seq<nat>)
    requires samples != [] && FromProducer(inst, history, capacity, samples, made)
    ensures FromProducer(inst, history, capacity, samples[..|samples| - 1], made[..|samples| - 1])
  {
  }

  lemma {:induction false} AlwaysAccounted(inst: string, history: seq<Round>, capacity: nat, samples: seq<Sample>,
        made: seq<nat>)
    requires FromProducer(inst, history, capacity, samples, made)
    ensures Accounted(inst, history, capacity, samples)
  {
    if samples == [] {
    } else {
      var before := samples[..|samples| - 1];
      ProducerPrefix(inst, history, capacity, samples, made);
      AlwaysAccounted(inst, history, capacity, before, made[..|samples| - 1]);
      ReportedBelow(inst, history, capacity, before, made[..|samples| - 1], made[|samples| - 1]);
      if Counts(LastAt(before), samples[|samples| - 1]) {
        CountingStep(inst, history, capacity, samples, made[|samples| - 1]);
      } else {
        IdleStep(inst, history, capacity, samples, made);
      }
    }
  }

  /**
   However the samples of one producer instance overlap, fail or skip, the distinct rounds seen, the missed
   and the left-censored ones of the summary add up to the last reported total.
  */
  lemma {:induction false} Conservation(inst: string, history: seq<Round>, capacity: nat, samples: seq<Sample>,
        made: seq<nat>, s: Summary)
    requires FromProducer(inst, history, capacity, samples, made) && Summarizes(samples, s)
    ensures var total := LastReported(samples);
      |s.seen| + s.coverage.missed + s.coverage.leftCensored == if total.Some? then total.value else 0
  {
    AlwaysAccounted(inst, history, capacity, samples, made);
    SummaryCounts(samples, s, "");
  }

  /** A sample counts only if it is later than every sample before it. */
  lemma {:induction false} LastAtIsHighest(samples: seq<Sample>, i: nat)
    requires i < |samples| && samples[i].Envelope?
    ensures LastAt(samples).Some? && samples[i].at <= LastAt(samples).value
  {
    if i < |samples| - 1 { LastAtIsHighest(samples[..|samples| - 1], i); }
  }

  /** A sample of one producer never counts as a reset of its ring. */
  lemma {:induction false} NoResets(inst: string, history: seq<Round>, capacity: nat, samples: seq<Sample>,
        made: seq<nat>)
    requires FromProducer(inst, history, capacity, samples, made)
    ensures CoverageOf(samples).resets == 0
  {
    if samples != [] {
      var n := |samples| - 1;
      ProducerPrefix(inst, history, capacity, samples, made);
      NoResets(inst, history, capacity, samples[..n], made[..n]);
      AlwaysAccounted(inst, history, capacity, samples[..n], made[..n]);
      ReportedBelow(inst, history, capacity, samples[..n], made[..n], made[n]);
    }
  }

  /** A restarted producer is noticed at its first readable sample: one reset, and its total starts over. */
  lemma {:induction false} NewInstanceResets(samples: seq<Sample>, inst: string)
    requires samples != [] && inst != ""
    requires var n := |samples| - 1;
      && samples[n].Envelope? && Advances(LastAt(samples[..n]), samples[n].at) && !samples[n].failed
      && samples[n].inst == Some(inst)
      && CoverageOf(samples[..n]).inst.Some? && CoverageOf(samples[..n]).inst != Some(inst)
    ensures var c, before, last := CoverageOf(samples), CoverageOf(samples[..|samples| - 1]), samples[|samples| - 1];
      && c.resets == before.resets + 1 && c.inst == Some(inst) && c.missed == before.missed
      && c.total == (if Identified(last.rounds) != [] then last.total else None)
  {
  }

  /** So a sample that repeats a time, or goes back, is not counted. */
  lemma {:induction false} CountedIsLater(samples: seq<Sample>, i: nat)
    requires i < |samples| - 1 && samples[i].Envelope?
    requires Counts(LastAt(samples[..|samples| - 1]), samples[|samples| - 1])
    ensures samples[i].at < samples[|samples| - 1].at
  {
    LastAtIsHighest(samples[..|samples| - 1], i);
  }

  /** A total that falls within one instance is a reset: counted once, nothing missed, and the new total stands. */
  lemma {:induction false} FallenTotalResets(samples: seq<Sample>, inst: string, n: int)
    requires samples != [] && inst != "" && Counts(LastAt(samples[..|samples| - 1]), samples[|samples| - 1])
    requires samples[|samples| - 1].inst == Some(inst) && samples[|samples| - 1].total == Some(n)
    requires var before := CoverageOf(samples[..|samples| - 1]);
      before.inst == Some(inst) && before.total.Some? && n < before.total.value
    ensures var c, before := CoverageOf(samples), CoverageOf(samples[..|samples| - 1]);
      && c.resets == before.resets + 1 && c.total == Some(n)
      && c.missed == before.missed && c.leftCensored == before.leftCensored
  {
  }

  /** Only rounds with a readable identity are looked at, all of them, in order. */
  lemma {:induction false} IdentifiedMembers(rounds: seq<Round>, r: Round)
    ensures multiset(Identified(rounds))[r] == if r.identified && r.observation != "" then multiset(rounds)[r] else 0
  {
    if rounds != [] {
      var n := |rounds| - 1;
      IdentifiedMembers(rounds[..n], r);
      assert rounds == rounds[..n] + [rounds[n]];
    }
  }

  /** Two rounds are the same exactly when instance, account, generation and observation are. */
  lemma {:induction false} SameRoundIff(inst: string, r: Round, other: string, q: Round)
    ensures KeyOf(inst, r) == KeyOf(other, q) <==>
      inst == other && r.account == q.account && r.generation == q.generation && r.observation == q.observation
  {
  }

  /** The maxima are at least every value taken in, never below zero, and one of the values or zero. */
  lemma {:induction false} RaisedIsMaximum(m: Option<real>, ages: seq<real>)
    requires m.Some? ==> m.value >= 0.0
    ensures var top := RaiseAll(m, ages);
      && (top.Some? <==> m.Some? || ages != [])
      && (top.Some? ==> top.value >= 0.0 && (m.Some? ==> top.value >= m.value))
      && (top.Some? ==> forall i :: 0 <= i < |ages| ==> ages[i] <= top.value)
      && (top.Some? ==> top == m || top.value == 0.0 || exists i :: 0 <= i < |ages| && ages[i] == top.value)
  {
    if ages != [] {
      var n := |ages| - 1;
      RaisedIsMaximum(m, ages[..n]);
      assert forall i :: 0 <= i < n ==> ages[..n][i] == ages[i];
    }
  }
}
