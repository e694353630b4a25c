/**
 The event-sourced protection watcher (src/open_trader/a_share_trend_watch.py).

 The log on disk is append-only and decides, after any restart, what may still be sent and
 whether the monitor counts as interrupted. A process may be killed between any two of its
 effects; a restart knows only the log.
*/
module TrendWatch {
  datatype Kind = Attempted | Delivered | Exhausted | Interrupted | Recovered | Triggered | Note

  /** `topic` is the event prefix of a group notification. */
  datatype Event = Event(kind: Kind, topic: string, group: string, date: string, symbol: string,
                         title: string, message: string, symbols: seq<string>)

  /** A message handed to the chat service. */
  datatype Sent = Sent(topic: string, group: string, title: string, message: string)

  datatype World = World(log: seq<Event>, sent: seq<Sent>)

  datatype Request = Request(topic: string, group: string, date: string, title: string, message: string,
    symbols: seq<string>)

  // ---------------------------------------------------------------- what the log says about a group

  predicate About(e: Event, topic: string, group: string) {
    e.topic == topic && e.group == group && (e.kind == Attempted || e.kind == Delivered || e.kind == Exhausted)
  }

  predicate Closes(e: Event) {
    e.kind == Delivered || e.kind == Exhausted
  }

  predicate Closed(log: seq<Event>, topic: string, group: string) {
    exists i :: 0 <= i < |log| && About(log[i], topic, group) && Closes(log[i])
  }

  function Attempts(log: seq<Event>, topic: string, group: string): seq<Event> {
    if log == [] then []
    else
      var before, last := Attempts(log[..|log| - 1], topic, group), log[|log| - 1];
      if About(last, topic, group) && last.kind == Attempted then before + [last] else before
  }

  /** A second attempt repeats the stored text of the first where there is any. */
  function Resume(log: seq<Event>, r: Request): Request {
    var attempts := Attempts(log, r.topic, r.group);
    if attempts == [] then r
    else r.(title := if attempts[0].title != "" then attempts[0].title else r.title,
            message := if attempts[0].message != "" then attempts[0].message else r.message,
            symbols := attempts[0].symbols)
  }

  // ---------------------------------------------------------------- one send and its records

  datatype Effect = Send(s: Sent) | Append(e: Event)

  function Perform(w: World, f: Effect): World {
    match f
    case Send(s) => w.(sent := w.sent + [s])
    case Append(e) => w.(log := w.log + [e])
  }

  function GroupEvent(r: Request, kind: Kind, symbol: string): Event {
    Event(kind, r.topic, r.group, r.date, symbol, "", "", [])
  }

  function DeliveredEvents(r: Request, symbols: seq<string>): seq<Effect> {
    seq(|symbols|, i requires 0 <= i < |symbols| => Append(GroupEvent(r, Delivered, symbols[i])))
  }

  /** `_send_persisted_feishu_group` as a list of effects, any prefix of which may be all that happens. */
  function Effects(log: seq<Event>, request: Request, succeeds: bool): seq<Effect> {
    var attempts := |Attempts(log, request.topic, request.group)|;
    if Closed(log, request.topic, request.group) || attempts >= 2 then []
    else
      var r := Resume(log, request);
      [Send(Sent(r.topic, r.group, r.title, r.message)),
       Append(Event(Attempted, r.topic, r.group, r.date, "", r.title, r.message, r.symbols))]
      + if succeeds then DeliveredEvents(r, if r.symbols == [] then [""] else r.symbols)
        else if attempts == 1 then [Append(GroupEvent(r, Exhausted, ""))]
        else []
  }

  function After(w: World, effects: seq<Effect>, n: nat): World
    requires n <= |effects|
  {
    if n == 0 then w else Perform(After(w, effects, n - 1), effects[n - 1])
  }

  /** A turn handles one request and is killed after `done` effects, or runs to its end. */
  datatype Turn = Turn(request: Request, succeeds: bool, done: nat)

  function Min(a: nat, b: nat): nat {
    if a <= b then a else b
  }

  function Take(w: World, t: Turn): World {
    var effects := Effects(w.log, t.request, t.succeeds);
    After(w, effects, Min(t.done, |effects|))
  }

  function Continue(w: World, turns: seq<Turn>): World {
    if turns == [] then w else Take(Continue(w, turns[..|turns| - 1]), turns[|turns| - 1])
  }

  function Run(turns: seq<Turn>): World {
    Continue(World([], []), turns)
  }

  /** The turn sent something and was killed before it could record it. */
  predicate LosesSend(w: World, t: Turn, topic: string, group: string) {
    t.request.topic == topic && t.request.group == group && Effects(w.log, t.request, t.succeeds) != [] && t.done == 1
  }

  /** What the turn sent without recording it. */
  function Lost(w: World, t: Turn, topic: string, group: string): multiset<Sent> {
    if LosesSend(w, t, topic, group) then multiset{TextOf(AttemptOf(w.log, t.request))} else multiset{}
  }

  /** The messages that kills kept from being recorded. */
  function LostSends(turns: seq<Turn>, topic: string, group: string): multiset<Sent> {
    if turns == [] then multiset{}
    else
      var before := turns[..|turns| - 1];
      LostSends(before, topic, group) + Lost(Run(before), turns[|turns| - 1], topic, group)
  }

  /** The message that an attempt records. */
  function TextOf(e: Event): Sent {
    Sent(e.topic, e.group, e.title, e.message)
  }

  function Texts(attempts: seq<Event>): (t: multiset<Sent>)
    ensures |t| == |attempts|
  {
    if attempts == [] then multiset{}
    else Texts(attempts[..|attempts| - 1]) + multiset{TextOf(attempts[|attempts| - 1])}
  }

  lemma {:induction false} TextsSnoc(attempts: seq<Event>, e: Event)
    ensures Texts(attempts + [e]) == Texts(attempts) + multiset{TextOf(e)}
  {
    assert (attempts + [e])[..|attempts|] == attempts;
  }

  function SendsTo(sent: seq<Sent>, topic: string, group: string): seq<Sent> {
    if sent == [] then []
    else
      var before, last := SendsTo(sent[..|sent| - 1], topic, group), sent[|sent| - 1];
      if last.topic == topic && last.group == group then before + [last] else before
  }

  // ---------------------------------------------------------------- every prefix of the effects

  lemma {:induction false} AttemptsSnoc(log: seq<Event>, e: Event, topic: string, group: string)
    ensures Attempts(log + [e], topic, group) ==
            if About(e, topic, group) && e.kind == Attempted then Attempts(log, topic, group) + [e]
            else Attempts(log, topic, group)
    ensures Closed(log + [e], topic, group) <==> Closed(log, topic, group) || (About(e, topic, group) && Closes(e))
  {
    assert (log + [e])[..|log|] == log;
    if Closed(log, topic, group) {
      var i :| 0 <= i < |log| && About(log[i], topic, group) && Closes(log[i]);
      assert (log + [e])[i] == log[i];
    }
    if About(e, topic, group) && Closes(e) { assert (log + [e])[|log|] == e; }
    if Closed(log + [e], topic, group) {
      var i :| 0 <= i < |log + [e]| && About((log + [e])[i], topic, group) && Closes((log + [e])[i]);
      if i < |log| { assert log[i] == (log + [e])[i]; }
    }
  }

  lemma {:induction false} SendsSnoc(sent: seq<Sent>, s: Sent, topic: string, group: string)
    ensures SendsTo(sent + [s], topic, group) ==
            if s.topic == topic && s.group == group then SendsTo(sent, topic, group) + [s]
            else SendsTo(sent, topic, group)
  {
    assert (sent + [s])[..|sent|] == sent;
  }

  /** An effect that cannot touch the records of this group. */
  predicate Foreign(f: Effect, topic: string, group: string) {
    match f
    case Send(s) => !(s.topic == topic && s.group == group)
    case Append(e) => !About(e, topic, group)
  }

  ghost predicate SameRecords(w: World, v: World, topic: string, group: string) {
    && Attempts(v.log, topic, group) == Attempts(w.log, topic, group)
    && SendsTo(v.sent, topic, group) == SendsTo(w.sent, topic, group)
    && (Closed(v.log, topic, group) <==> Closed(w.log, topic, group))
  }

  lemma {:induction false} ForeignStep(w: World, f: Effect, topic: string, group: string)
    requires Foreign(f, topic, group)
    ensures SameRecords(w, Perform(w, f), topic, group)
  {
    match f {
      case Send(s) => SendsSnoc(w.sent, s, topic, group);
      case Append(e) => AttemptsSnoc(w.log, e, topic, group);
    }
  }

  lemma {:induction false} ForeignPrefix(w: World, effects: seq<Effect>, n: nat, topic: string, group: string)
    requires n <= |effects| && forall i :: 0 <= i < n ==> Foreign(effects[i], topic, group)
    ensures SameRecords(w, After(w, effects, n), topic, group)
  {
    if n > 0 {
      ForeignPrefix(w, effects, n - 1, topic, group);
      ForeignStep(After(w, effects, n - 1), effects[n - 1], topic, group);
    }
  }

  /** The effects of a send for this group: the send, the attempt, then only closing events. */
  ghost predicate IsSend(effects: seq<Effect>, topic: string, group: string, attempt: Event) {
    && |effects| >= 2
    && effects[0] == Send(Sent(topic, group, attempt.title, attempt.message))
    && effects[1] == Append(attempt) && About(attempt, topic, group) && attempt.kind == Attempted
    && forall i :: 2 <= i < |effects| ==>
      effects[i].Append? && About(effects[i].e, topic, group) && Closes(effects[i].e)
  }

  /** What the records of the group are after `n` effects of a send. */
  ghost predicate SentSoFar(w: World, v: World, n: nat, topic: string, group: string, attempt: Event) {
    && SendsTo(v.sent, topic, group) == (if n >= 1 then SendsTo(w.sent, topic, group) + [TextOf(attempt)]
      else SendsTo(w.sent, topic, group))
    && Attempts(v.log, topic, group) == (if n >= 2 then Attempts(w.log, topic, group) + [attempt]
      else Attempts(w.log, topic, group))
    && (Closed(v.log, topic, group) <==> n >= 3)
  }

  lemma {:induction false} SendingStep(w: World, v: World, s: Sent, topic: string, group: string, attempt: Event)
    requires SentSoFar(w, v, 0, topic, group, attempt) && s == TextOf(attempt) && s.topic == topic && s.group == group
    ensures SentSoFar(w, Perform(v, Send(s)), 1, topic, group, attempt)
  {
    SendsSnoc(v.sent, s, topic, group);
  }

  lemma {:induction false} AttemptStep(w: World, v: World, topic: string, group: string, attempt: Event)
    requires SentSoFar(w, v, 1, topic, group, attempt) && About(attempt, topic, group) && attempt.kind == Attempted
    ensures SentSoFar(w, Perform(v, Append(attempt)), 2, topic, group, attempt)
  {
    AttemptsSnoc(v.log, attempt, topic, group);
  }

  lemma {:induction false} ClosingStep(w: World, v: World, e: Event, n: nat, topic: string, group: string,
        attempt: Event)
    requires n >= 2 && SentSoFar(w, v, n, topic, group, attempt) && About(e, topic, group) && Closes(e)
    ensures SentSoFar(w, Perform(v, Append(e)), n + 1, topic, group, attempt)
  {
    AttemptsSnoc(v.log, e, topic, group);
  }

  lemma {:induction false} SendPrefix(w: World, effects: seq<Effect>, n: nat, topic: string, group: string,
        attempt: Event)
    requires IsSend(effects, topic, group, attempt) && n <= |effects| && !Closed(w.log, topic, group)
    ensures SentSoFar(w, After(w, effects, n), n, topic, group, attempt)
  {
    if n > 0 {
      SendPrefix(w, effects, n - 1, topic, group, attempt);
      var v := After(w, effects, n - 1);
      assert After(w, effects, n) == Perform(v, effects[n - 1]);
      if n == 1 {
        SendingStep(w, v, effects[0].s, topic, group, attempt);
      } else if n == 2 {
        AttemptStep(w, v, topic, group, attempt);
      } else {
        ClosingStep(w, v, effects[n - 1].e, n - 1, topic, group, attempt);
      }
    }
  }

  function AttemptOf(log: seq<Event>, request: Request): Event {
    var r := Resume(log, request);
    Event(Attempted, r.topic, r.group, r.date, "", r.title, r.message, r.symbols)
  }

  lemma {:induction false} EffectsShape(log: seq<Event>, request: Request, succeeds: bool)
    ensures var effects := Effects(log, request, succeeds);
      if Closed(log, request.topic, request.group)
        || |Attempts(log, request.topic, request.group)| >= 2 then effects == []
      else IsSend(effects, request.topic, request.group, AttemptOf(log, request))
  {
  }

  lemma {:induction false} EffectsForeign(log: seq<Event>, request: Request, succeeds: bool, topic: string,
        group: string)
    requires !(request.topic == topic && request.group == group)
    ensures forall i :: 0 <= i < |Effects(log, request, succeeds)| ==>
      Foreign(Effects(log, request, succeeds)[i], topic, group)
  {
    EffectsShape(log, request, succeeds);
  }

  // ---------------------------------------------------------------- over all runs and restarts

  ghost predicate RepeatsFirst(attempts: seq<Event>) {
    |attempts| == 2 ==>
      && (attempts[0].title != "" ==> attempts[1].title == attempts[0].title)
      && (attempts[0].message != "" ==> attempts[1].message == attempts[0].message)
      && attempts[1].symbols == attempts[0].symbols
  }

  /** How a turn may change the sends and the attempts of a group: nothing, a lost send, or a send with its attempt. */
  ghost predicate TakeCase(sends: seq<Sent>, attempts: seq<Event>, sends': seq<Sent>, attempts': seq<Event>, a: Event,
        lost: bool) {
    if lost then sends' == sends + [TextOf(a)] && attempts' == attempts
    else (sends' == sends && attempts' == attempts) || (sends' == sends + [TextOf(a)] && attempts' == attempts + [a])
  }

  /** A turn for the group itself that may still send. */
  lemma {:induction false} TakeSends(w: World, t: Turn, topic: string, group: string)
    requires t.request.topic == topic && t.request.group == group
    requires !Closed(w.log, topic, group) && |Attempts(w.log, topic, group)| < 2
    ensures var v := Take(w, t);
      TakeCase(SendsTo(w.sent, topic, group), Attempts(w.log, topic, group), SendsTo(v.sent, topic, group),
        Attempts(v.log, topic, group),
               AttemptOf(w.log, t.request), LosesSend(w, t, topic, group))
  {
    var effects := Effects(w.log, t.request, t.succeeds);
    EffectsShape(w.log, t.request, t.succeeds);
    SendPrefix(w, effects, Min(t.done, |effects|), topic, group, AttemptOf(w.log, t.request));
  }

  lemma {:induction false} TakeChanges(w: World, t: Turn, topic: string, group: string)
    ensures var v := Take(w, t);
      TakeCase(SendsTo(w.sent, topic, group), Attempts(w.log, topic, group), SendsTo(v.sent, topic, group),
        Attempts(v.log, topic, group),
               AttemptOf(w.log, t.request), LosesSend(w, t, topic, group))
    ensures Attempts(Take(w, t).log, topic, group) != Attempts(w.log, topic, group) ==>
      |Attempts(w.log, topic, group)| < 2 && t.request.topic == topic && t.request.group == group
  {
    var effects := Effects(w.log, t.request, t.succeeds);
    EffectsShape(w.log, t.request, t.succeeds);
    if !(t.request.topic == topic && t.request.group == group) {
      EffectsForeign(w.log, t.request, t.succeeds, topic, group);
      ForeignPrefix(w, effects, Min(t.done, |effects|), topic, group);
    } else if effects != [] {
      TakeSends(w, t, topic, group);
    }
  }

  /** A second attempt takes over what the first one recorded. */
  lemma {:induction false} ResumeRepeats(log: seq<Event>, r: Request)
    requires |Attempts(log, r.topic, r.group)| < 2
    ensures RepeatsFirst(Attempts(log, r.topic, r.group) + [AttemptOf(log, r)])
  {
  }

  /** One turn, killed anywhere, keeps the bound on attempts and that the second repeats the first. */
  lemma {:induction false} TakeKeeps(w: World, t: Turn, topic: string, group: string)
    requires |Attempts(w.log, topic, group)| <= 2 && RepeatsFirst(Attempts(w.log, topic, group))
    ensures |Attempts(Take(w, t).log, topic, group)| <= 2 && RepeatsFirst(Attempts(Take(w, t).log, topic, group))
  {
    TakeChanges(w, t, topic, group);
    if Attempts(Take(w, t).log, topic, group) != Attempts(w.log, topic, group) { ResumeRepeats(w.log, t.request); }
  }

  /** The messages sent are the recorded ones, text for text, and the lost ones. */
  ghost predicate Tallies(sends: seq<Sent>, attempts: seq<Event>, lost: multiset<Sent>) {
    multiset(sends) == Texts(attempts) + lost
  }

  lemma {:induction false} TalliesStep(sends: seq<Sent>, attempts: seq<Event>, lost: multiset<Sent>, sends': seq<Sent>,
        attempts': seq<Event>, a: Event, loses: bool)
    requires Tallies(sends, attempts, lost) && TakeCase(sends, attempts, sends', attempts', a, loses)
    ensures Tallies(sends', attempts', lost + if loses then multiset{TextOf(a)} else multiset{})
  {
    TextsSnoc(attempts, a);
  }

  lemma {:induction false} AttemptsBounded(turns: seq<Turn>, topic: string, group: string)
    ensures |Attempts(Run(turns).log, topic, group)| <= 2 && RepeatsFirst(Attempts(Run(turns).log, topic, group))
  {
    if turns != [] {
      AttemptsBounded(turns[..|turns| - 1], topic, group);
      TakeKeeps(Run(turns[..|turns| - 1]), turns[|turns| - 1], topic, group);
    }
  }

  lemma {:induction false} RunTallies(turns: seq<Turn>, topic: string, group: string)
    ensures Tallies(SendsTo(Run(turns).sent, topic, group), Attempts(Run(turns).log, topic, group),
      LostSends(turns, topic, group))
  {
    if turns != [] {
      var w, t := Run(turns[..|turns| - 1]), turns[|turns| - 1];
      RunTallies(turns[..|turns| - 1], topic, group);
      TakeChanges(w, t, topic, group);
      TalliesStep(SendsTo(w.sent, topic, group), Attempts(w.log, topic, group),
        LostSends(turns[..|turns| - 1], topic, group),
                  SendsTo(Take(w, t).sent, topic, group), Attempts(Take(w, t).log, topic, group),
                  AttemptOf(w.log, t.request), LosesSend(w, t, topic, group));
    }
  }

  /**
   Across any number of restarts and kills: at most two attempts are recorded for a group, the second repeats the
   first, and the messages sent are exactly the recorded ones, text for text, and those lost to a kill before the
   record, so that there are at most two and the lost ones.
  */
  lemma {:induction false} SendsAreAccounted(turns: seq<Turn>, topic: string, group: string)
    ensures var w := Run(turns);
      && |Attempts(w.log, topic, group)| <= 2 && RepeatsFirst(Attempts(w.log, topic, group))
      && multiset(SendsTo(w.sent, topic, group)) == Texts(Attempts(w.log, topic, group)) + LostSends(turns, topic,
        group)
      && |SendsTo(w.sent, topic, group)| <= 2 + |LostSends(turns, topic, group)|
  {
    AttemptsBounded(turns, topic, group);
    RunTallies(turns, topic, group);
    var sends := SendsTo(Run(turns).sent, topic, group);
    assert |multiset(sends)| == |sends|;
  }

  lemma {:induction false} TakeClosed(w: World, t: Turn, topic: string, group: string)
    requires Closed(w.log, topic, group)
    ensures Closed(Take(w, t).log, topic, group)
      && SendsTo(Take(w, t).sent, topic, group) == SendsTo(w.sent, topic, group)
  {
    var effects := Effects(w.log, t.request, t.succeeds);
    if !(t.request.topic == topic && t.request.group == group) {
      EffectsForeign(w.log, t.request, t.succeeds, topic, group);
      ForeignPrefix(w, effects, Min(t.done, |effects|), topic, group);
    }
  }

  /** Once a group is delivered or exhausted, nothing more is ever sent to it, whatever follows. */
  lemma {:induction false} ClosedIsFinal(w: World, more: seq<Turn>, topic: string, group: string)
    requires Closed(w.log, topic, group)
    ensures Closed(Continue(w, more).log, topic, group)
    ensures SendsTo(Continue(w, more).sent, topic, group) == SendsTo(w.sent, topic, group)
  {
    if more != [] {
      var before := more[..|more| - 1];
      ClosedIsFinal(w, before, topic, group);
      TakeClosed(Continue(w, before), more[|more| - 1], topic, group);
    }
  }

  // ---------------------------------------------------------------- how a turn that is not killed ends

  /** The symbols of the group's events of one kind, in the order of the log. */
  function Outcomes(log: seq<Event>, kind: Kind, topic: string, group: string): seq<string> {
    if log == [] then []
    else
      var before, last := Outcomes(log[..|log| - 1], kind, topic, group), log[|log| - 1];
      if last.kind == kind && last.topic == topic && last.group == group then before + [last.symbol] else before
  }

  lemma {:induction false} OutcomesSnoc(log: seq<Event>, e: Event, kind: Kind, topic: string, group: string)
    ensures Outcomes(log + [e], kind, topic, group) == Outcomes(log, kind, topic, group)
      + if e.kind == kind && e.topic == topic && e.group == group then [e.symbol] else []
  {
    assert (log + [e])[..|log|] == log;
  }

  /** A group is closed exactly by a delivered or an exhausted event. */
  lemma {:induction false} ClosedIff(log: seq<Event>, topic: string, group: string)
    ensures Closed(log, topic, group) <==>
      Outcomes(log, Delivered, topic, group) != [] || Outcomes(log, Exhausted, topic, group) != []
  {
    if log != [] {
      var before, last := log[..|log| - 1], log[|log| - 1];
      ClosedIff(before, topic, group);
      AttemptsSnoc(before, last, topic, group);
      assert log == before + [last];
    }
  }

  /** The symbols that a send for this request is about. */
  function SymbolsFor(log: seq<Event>, r: Request): seq<string> {
    var attempts := Attempts(log, r.topic, r.group);
    var symbols := if attempts == [] then r.symbols else attempts[0].symbols;
    if symbols == [] then [""] else symbols
  }

  ghost predicate MaySend(log: seq<Event>, r: Request) {
    !Closed(log, r.topic, r.group) && |Attempts(log, r.topic, r.group)| < 2
  }

  /** A send, its attempt, and then one event of this kind for each symbol. */
  ghost predicate EndsWith(effects: seq<Effect>, kind: Kind, topic: string, group: string, symbols: seq<string>) {
    && |effects| == |symbols| + 2 && effects[0].Send? && effects[1].Append? && effects[1].e.kind == Attempted
    && forall i :: 0 <= i < |symbols| ==> IsOutcome(effects[i + 2], kind, topic, group, symbols[i])
  }

  predicate IsOutcome(f: Effect, kind: Kind, topic: string, group: string, symbol: string) {
    f.Append? && f.e.kind == kind && f.e.topic == topic && f.e.group == group && f.e.symbol == symbol
  }

  lemma {:induction false} SuccessEnds(log: seq<Event>, r: Request)
    requires MaySend(log, r)
    ensures EndsWith(Effects(log, r, true), Delivered, r.topic, r.group, SymbolsFor(log, r))
    ensures forall i :: 0 <= i < |Effects(log, r, true)| ==>
      Effects(log, r, true)[i].Append? ==> Effects(log, r, true)[i].e.kind != Exhausted
  {
  }

  lemma {:induction false} FailureEnds(log: seq<Event>, r: Request)
    requires MaySend(log, r)
    ensures var symbols := if Attempts(log, r.topic, r.group) == [] then [] else [""];
      EndsWith(Effects(log, r, false), Exhausted, r.topic, r.group, symbols)
    ensures forall i :: 0 <= i < |Effects(log, r, false)| ==>
      Effects(log, r, false)[i].Append? ==> Effects(log, r, false)[i].e.kind != Delivered
  {
  }

  /** The outcomes after `n` effects that begin with the send and the attempt and go on with events of one kind. */
  lemma {:induction false} OutcomesAfter(w: World, effects: seq<Effect>, n: nat, kind: Kind, topic: string,
        group: string,
      symbols: seq<string>)
    requires kind != Attempted && 2 <= n <= |effects| && EndsWith(effects, kind, topic, group, symbols)
    ensures Outcomes(After(w, effects, n).log, kind, topic, group) == Outcomes(w.log, kind, topic,
      group) + symbols[..n - 2]
  {
    if n == 2 {
      assert After(w, effects, 1).log == w.log;
      OutcomesSnoc(w.log, effects[1].e, kind, topic, group);
    } else {
      OutcomesAfter(w, effects, n - 1, kind, topic, group, symbols);
      assert IsOutcome(effects[n - 3 + 2], kind, topic, group, symbols[n - 3]);
      OutcomesSnoc(After(w, effects, n - 1).log, effects[n - 1].e, kind, topic, group);
      assert symbols[..n - 2] == symbols[..n - 3] + [symbols[n - 3]];
    }
  }

  /** Events of another kind are not touched by such effects. */
  lemma {:induction false} OtherOutcomes(w: World, effects: seq<Effect>, n: nat, kind: Kind, topic: string,
        group: string)
    requires n <= |effects|
    requires forall i :: 0 <= i < |effects| ==> effects[i].Append? ==> effects[i].e.kind != kind
    ensures Outcomes(After(w, effects, n).log, kind, topic, group) == Outcomes(w.log, kind, topic, group)
  {
    if n > 0 {
      OtherOutcomes(w, effects, n - 1, kind, topic, group);
      if effects[n - 1].Append? { OutcomesSnoc(After(w, effects, n - 1).log, effects[n - 1].e, kind, topic, group); }
    }
  }

  /** Whatever a turn records carries the topic, the group and the date of its request. */
  lemma {:induction false} EffectsLabelled(log: seq<Event>, r: Request, succeeds: bool, i: nat)
    requires i < |Effects(log, r, succeeds)| && Effects(log, r, succeeds)[i].Append?
    ensures var e := Effects(log, r, succeeds)[i].e; e.topic == r.topic && e.group == r.group && e.date == r.date
  {
  }

  ghost predicate Finishes(w: World, t: Turn) {
    t.done >= |Effects(w.log, t.request, t.succeeds)|
  }

  /** A finished turn that may send does send, and records the text as it was sent. */
  lemma {:induction false} FinishedSends(w: World, t: Turn)
    requires MaySend(w.log, t.request) && Finishes(w, t)
    ensures var v, r, a := Take(w, t), t.request, AttemptOf(w.log, t.request);
      && SendsTo(v.sent, r.topic, r.group) == SendsTo(w.sent, r.topic, r.group) + [TextOf(a)]
      && Attempts(v.log, r.topic, r.group) == Attempts(w.log, r.topic, r.group) + [a]
      && (Attempts(w.log, r.topic, r.group) == [] ==>
        a.title == r.title && a.message == r.message && a.symbols == r.symbols)
  {
    var r, effects := t.request, Effects(w.log, t.request, t.succeeds);
    EffectsShape(w.log, r, t.succeeds);
    SendPrefix(w, effects, |effects|, r.topic, r.group, AttemptOf(w.log, r));
  }

  /** A success is recorded as delivered for every symbol of the group, and for nothing else. */
  lemma {:induction false} SuccessCloses(w: World, t: Turn)
    requires MaySend(w.log, t.request) && Finishes(w, t) && t.succeeds
    ensures var v, r := Take(w, t), t.request;
      && Closed(v.log, r.topic, r.group)
      && Outcomes(v.log, Delivered, r.topic, r.group) == SymbolsFor(w.log, r)
      && Outcomes(v.log, Exhausted, r.topic, r.group) == []
  {
    var r, effects := t.request, Effects(w.log, t.request, true);
    ClosedIff(w.log, r.topic, r.group);
    var symbols := SymbolsFor(w.log, r);
    SuccessEnds(w.log, r);
    OutcomesAfter(w, effects, |effects|, Delivered, r.topic, r.group, symbols);
    OtherOutcomes(w, effects, |effects|, Exhausted, r.topic, r.group);
    assert symbols[..|symbols|] == symbols;
    ClosedIff(Take(w, t).log, r.topic, r.group);
  }

  /** A first failure leaves the group open; a second one exhausts it. Neither counts as delivered. */
  lemma {:induction false} FailureExhausts(w: World, t: Turn)
    requires MaySend(w.log, t.request) && Finishes(w, t) && !t.succeeds
    ensures var v, r := Take(w, t), t.request;
      && Outcomes(v.log, Delivered, r.topic, r.group) == []
      && Outcomes(v.log, Exhausted, r.topic, r.group) == (if Attempts(w.log, r.topic, r.group) == [] then [] else [""])
      && (Closed(v.log, r.topic, r.group) <==> Attempts(w.log, r.topic, r.group) != [])
  {
    var r, effects := t.request, Effects(w.log, t.request, false);
    ClosedIff(w.log, r.topic, r.group);
    var symbols := if Attempts(w.log, r.topic, r.group) == [] then [] else [""];
    FailureEnds(w.log, r);
    OutcomesAfter(w, effects, |effects|, Exhausted, r.topic, r.group, symbols);
    OtherOutcomes(w, effects, |effects|, Delivered, r.topic, r.group);
    assert symbols[..|symbols|] == symbols;
    ClosedIff(Take(w, t).log, r.topic, r.group);
  }

  lemma {:induction false} ContinueAppend(w: World, first: seq<Turn>, more: seq<Turn>)
    ensures Continue(w, first + more) == Continue(Continue(w, first), more)
  {
    if more == [] {
      assert first + more == first;
    } else {
      var n := |more| - 1;
      ContinueAppend(w, first, more[..n]);
      assert (first + more)[..|first + more| - 1] == first + more[..n];
    }
  }

  /**
   Over every run: after a finished success the group is never sent to again, by whatever turns and restarts follow.
  */
  lemma {:induction false} OneSuccessSends(turns: seq<Turn>, t: Turn, more: seq<Turn>)
    requires MaySend(Run(turns).log, t.request) && Finishes(Run(turns), t) && t.succeeds
    ensures var r := t.request;
      SendsTo(Run(turns + [t] + more).sent, r.topic, r.group)
        == SendsTo(Run(turns).sent, r.topic, r.group) + [TextOf(AttemptOf(Run(turns).log, r))]
  {
    var r, w := t.request, Run(turns);
    FinishedSends(w, t);
    SuccessCloses(w, t);
    assert (turns + [t])[..|turns|] == turns;
    ContinueAppend(World([], []), turns + [t], more);
    ClosedIsFinal(Take(w, t), more, r.topic, r.group);
  }

  // ---------------------------------------------------------------- interruptions and triggers

  predicate IsMonitor(e: Event) {
    e.kind == Interrupted || e.kind == Recovered
  }

  function MonitorKinds(log: seq<Event>): seq<Kind> {
    if log == [] then []
    else if IsMonitor(log[|log| - 1]) then MonitorKinds(log[..|log| - 1]) + [log[|log| - 1].kind]
    else MonitorKinds(log[..|log| - 1])
  }

  /** Interruption, recovery, interruption, and so on. */
  predicate Alternates(log: seq<Event>) {
    var kinds := MonitorKinds(log);
    forall i :: 0 <= i < |kinds| ==> kinds[i] == if i % 2 == 0 then Interrupted else Recovered
  }

  /** `_monitor_interrupted`: the latest monitor event is an interruption. */
  function FlagOf(log: seq<Event>): bool {
    if log == [] then false
    else if IsMonitor(log[|log| - 1]) then log[|log| - 1].kind == Interrupted
    else FlagOf(log[..|log| - 1])
  }

  predicate SameTrigger(a: Event, b: Event) {
    a.kind == Triggered && b.kind == Triggered && a.date == b.date && a.symbol == b.symbol
  }

  predicate TriggersOnce(log: seq<Event>) {
    forall i, j :: 0 <= i < j < |log| ==> !SameTrigger(log[i], log[j])
  }

  predicate LogValid(log: seq<Event>) {
    Alternates(log) && TriggersOnce(log)
  }

  predicate HasTrigger(log: seq<Event>, date: string, symbol: string) {
    exists i :: 0 <= i < |log| && log[i].kind == Triggered && log[i].date == date && log[i].symbol == symbol
  }

  /** The flag derived from an alternating log is the parity of its monitor events. */
  lemma {:induction false} FlagIsParity(log: seq<Event>)
    requires Alternates(log)
    ensures FlagOf(log) <==> |MonitorKinds(log)| % 2 == 1
  {
    if log != [] {
      var before, kinds := log[..|log| - 1], MonitorKinds(log);
      if IsMonitor(log[|log| - 1]) {
        assert kinds[|kinds| - 1] == log[|log| - 1].kind;
      } else {
        FlagIsParity(before);
      }
    }
  }

  /** A log cut off anywhere is still valid, so a kill between two appends is harmless. */
  lemma {:induction false} ValidPrefix(log: seq<Event>, n: nat)
    requires LogValid(log) && n <= |log|
    ensures LogValid(log[..n])
  {
    if n == |log| {
      assert log[..n] == log;
    } else {
      var before := log[..|log| - 1];
      assert MonitorKinds(before) <= MonitorKinds(log);
      assert forall i :: 0 <= i < |MonitorKinds(before)| ==> MonitorKinds(before)[i] == MonitorKinds(log)[i];
      ValidPrefix(before, n);
      assert before[..n] == log[..n];
    }
  }

  lemma {:induction false} AppendMonitor(log: seq<Event>, e: Event)
    requires LogValid(log) && e.kind == (if FlagOf(log) then Recovered else Interrupted)
    ensures LogValid(log + [e]) && FlagOf(log + [e]) == !FlagOf(log)
  {
    FlagIsParity(log);
    assert (log + [e])[..|log|] == log;
    assert MonitorKinds(log + [e]) == MonitorKinds(log) + [e.kind];
  }

  lemma {:induction false} AppendOther(log: seq<Event>, e: Event)
    requires LogValid(log) && !IsMonitor(e) && (e.kind == Triggered ==> !HasTrigger(log, e.date, e.symbol))
    ensures LogValid(log + [e]) && FlagOf(log + [e]) == FlagOf(log)
  {
    assert (log + [e])[..|log|] == log;
    assert MonitorKinds(log + [e]) == MonitorKinds(log);
    forall i, j | 0 <= i < j < |log + [e]| ensures !SameTrigger((log + [e])[i], (log + [e])[j]) {
      if j < |log| { assert !SameTrigger(log[i], log[j]); }
    }
  }

  /**
   What happens to a watcher: quotes fail, quotes return, a protected symbol is breached, any other event is
   recorded, or it is restarted. A kill may come between an append and the change of the flag.
  */
  datatype Tick = Lost(killed: bool) | Returned(killed: bool) | Breached | Noted | Restarted

  datatype Monitor = Monitor(log: seq<Event>, interrupted: bool)

  function TickOnce(m: Monitor, t: Tick, e: Event): Monitor {
    match t
    case Restarted => m.(interrupted := FlagOf(m.log))
    case Lost(killed) =>
      if m.interrupted then m
      else
        var log := m.log + [e.(kind := Interrupted)];
        Monitor(log, if killed then FlagOf(log) else true)
    case Returned(killed) =>
      if !m.interrupted then m
      else
        var log := m.log + [e.(kind := Recovered)];
        Monitor(log, if killed then FlagOf(log) else false)
    case Breached =>
      if HasTrigger(m.log, e.date, e.symbol) then m else m.(log := m.log + [e.(kind := Triggered)])
    case Noted =>
      if IsMonitor(e) || e.kind == Triggered then m else m.(log := m.log + [e])
  }

  function TickAll(start: Monitor, ticks: seq<(Tick, Event)>): Monitor {
    if ticks == [] then start
    else TickOnce(TickAll(start, ticks[..|ticks| - 1]), ticks[|ticks| - 1].0, ticks[|ticks| - 1].1)
  }

  /**
   Over every run with kills and restarts, interruptions and recoveries alternate in the log, no symbol has two
   triggers on one date, and the flag in memory is the flag that the log implies.
  */
  lemma {:induction false} MonitorRunValid(start: Monitor, ticks: seq<(Tick, Event)>)
    requires LogValid(start.log) && start.interrupted == FlagOf(start.log)
    ensures var m := TickAll(start, ticks);
      LogValid(m.log) && m.interrupted == FlagOf(m.log) && start.log <= m.log
  {
    if ticks != [] {
      MonitorRunValid(start, ticks[..|ticks| - 1]);
      var m := TickAll(start, ticks[..|ticks| - 1]);
      var e := ticks[|ticks| - 1].1;
      match ticks[|ticks| - 1].0 {
        case Restarted =>
        case Lost(_) => if !m.interrupted { AppendMonitor(m.log, e.(kind := Interrupted)); }
        case Returned(_) => if m.interrupted { AppendMonitor(m.log, e.(kind := Recovered)); }
        case Breached => if !HasTrigger(m.log, e.date, e.symbol) { AppendOther(m.log, e.(kind := Triggered)); }
        case Noted => if !IsMonitor(e) && e.kind != Triggered { AppendOther(m.log, e); }
      }
    }
  }

  // ---------------------------------------------------------------- the watcher as it runs

  /** From position n on, the log holds only triggers of these symbols on this date. */
  predicate TriggersFrom(log: seq<Event>, n: nat, date: string, symbols: seq<string>) {
    forall i :: n <= i < |log| ==> log[i].kind == Triggered && log[i].date == date && log[i].symbol in symbols
  }

  predicate IsAlerted(log: seq<Event>, date: string, alerted: set<string>) {
    (forall s :: s in alerted ==> HasTrigger(log, date, s))
    && forall i :: 0 <= i < |log| && log[i].kind == Triggered && log[i].date == date ==> log[i].symbol in alerted
  }

  /** One watcher process; a restart is a new watcher that is given the log on disk. */
  class Watcher {
    const date: string
    var log: seq<Event>
    var sent: seq<Sent>
    var interrupted: bool
    var alerted: set<string>

    /** The flag in memory says what the log says. */
    ghost predicate Valid()
      reads this
    {
      LogValid(log) && interrupted == FlagOf(log)
    }

    constructor (log: seq<Event>, sent: seq<Sent>, date: string)
      requires LogValid(log)
      ensures Valid() && this.log == log && this.sent == sent && this.date == date
    {
      this.log, this.sent, this.date := log, sent, date;
      var flag := MonitorInterrupted(log);
      interrupted, alerted := flag, {};
    }

    /** Looks for the latest monitor event from the end of the log. */
    static method MonitorInterrupted(log: seq<Event>) returns (flag: bool)
      ensures flag == FlagOf(log)
    {
      var i := |log|;
      assert log[..i] == log;
      while i > 0
        invariant 0 <= i <= |log| && FlagOf(log[..i]) == FlagOf(log)
      {
        assert log[..i][..i - 1] == log[..i - 1];
        if IsMonitor(log[i - 1]) { return log[i - 1].kind == Interrupted; }
        i := i - 1;
      }
      return false;
    }

    function MonitorEvent(kind: Kind): Event {
      Event(kind, "", "", date, "", "", "", [])
    }

    /** A quote error: recorded once per interruption. */
    method LoseQuotes()
      requires Valid()
      modifies this
      ensures Valid() && interrupted && sent == old(sent)
      ensures log == if old(interrupted) then old(log) else old(log) + [MonitorEvent(Interrupted)]
    {
      if !interrupted {
        AppendMonitor(log, MonitorEvent(Interrupted));
        log := log + [MonitorEvent(Interrupted)];
        interrupted := true;
      }
    }

    method RecoverMonitor()
      requires Valid()
      modifies this
      ensures Valid() && !interrupted && sent == old(sent)
      ensures log == if old(interrupted) then old(log) + [MonitorEvent(Recovered)] else old(log)
    {
      if interrupted {
        AppendMonitor(log, MonitorEvent(Recovered));
        log := log + [MonitorEvent(Recovered)];
        interrupted := false;
      }
    }

    /** One poll: what was triggered today is read from the log again, and new breaches are recorded. */
    method Poll(breached: seq<string>)
      requires Valid()
      modifies this`log, this`alerted
      ensures Valid() && old(log) <= log
      ensures IsAlerted(log, date, alerted) && forall i :: 0 <= i < |breached| ==> breached[i] in alerted
      ensures TriggersFrom(log, |old(log)|, date, breached)
    {
      var triggered := TriggeredOn(log, date);
      alerted := triggered;
      for i := 0 to |breached|
        invariant Valid() && old(log) <= log && IsAlerted(log, date, alerted)
        invariant forall j :: 0 <= j < i ==> breached[j] in alerted
        invariant TriggersFrom(log, |old(log)|, date, breached)
      {
        AlertOnce(breached[i], old(log), breached);
      }
    }

    method AlertOnce(symbol: string, ghost start: seq<Event>, ghost breached: seq<string>)
      requires Valid() && IsAlerted(log, date, alerted) && start <= log
      requires symbol in breached && TriggersFrom(log, |start|, date, breached)
      modifies this`log, this`alerted
      ensures Valid() && IsAlerted(log, date, alerted) && start <= log
      ensures alerted == old(alerted) + {symbol} && TriggersFrom(log, |start|, date, breached)
    {
      if symbol !in alerted { Alert(symbol); }
    }

    method Alert(symbol: string)
      requires Valid() && IsAlerted(log, date, alerted) && symbol !in alerted
      modifies this`log, this`alerted
      ensures Valid() && IsAlerted(log, date, alerted) && alerted == old(alerted) + {symbol}
      ensures log == old(log) + [Event(Triggered, "", "", date, symbol, "", "", [])]
    {
      var e := Event(Triggered, "", "", date, symbol, "", "", []);
      AppendOther(log, e);
      TriggerSnoc(log, e, date);
      log := log + [e];
      alerted := alerted + {symbol};
    }

    /** The symbols already triggered on a date, read from the log. */
    static method TriggeredOn(log: seq<Event>, date: string) returns (alerted: set<string>)
      ensures IsAlerted(log, date, alerted)
    {
      alerted := {};
      assert log[..0] == [];
      for i := 0 to |log|
        invariant IsAlerted(log[..i], date, alerted)
      {
        TriggerSnoc(log[..i], log[i], date);
        assert log[..i] + [log[i]] == log[..i + 1];
        if log[i].kind == Triggered && log[i].date == date { alerted := alerted + {log[i].symbol}; }
      }
      assert log[..|log|] == log;
    }

    method Record(e: Event)
      requires Valid() && !IsMonitor(e) && e.kind != Triggered
      modifies this`log
      ensures Valid() && log == old(log) + [e]
    {
      AppendOther(log, e);
      log := log + [e];
    }

    /** One delivery event per symbol. */
    method RecordDelivered(r: Request, symbols: seq<string>, ghost w: World, ghost effects: seq<Effect>)
      requires |effects| == |symbols| + 2 && Valid() && World(log, sent) == After(w, effects, 2)
      requires effects[2..] == DeliveredEvents(r, symbols)
      modifies this`log
      ensures Valid() && old(log) <= log && World(log, sent) == After(w, effects, |effects|)
    {
      for i := 0 to |symbols|
        invariant Valid() && old(log) <= log && World(log, sent) == After(w, effects, i + 2)
      {
        assert effects[i + 2] == effects[2..][i];
        Record(GroupEvent(r, Delivered, symbols[i]));
      }
    }

    /** `_send_persisted_feishu_group`, uninterrupted. */
    method SendGroup(request: Request, succeeds: bool)
      requires Valid()
      modifies this`log, this`sent
      ensures Valid() && old(log) <= log
      ensures World(log, sent) == Take(old(World(log, sent)),
        Turn(request, succeeds, |Effects(old(log), request, succeeds)|))
    {
      var attempts := Attempts(log, request.topic, request.group);
      if Closed(log, request.topic, request.group) || |attempts| >= 2 { return; }
      ghost var w, effects := World(log, sent), Effects(log, request, succeeds);
      var r := Resume(log, request);
      sent := sent + [Sent(r.topic, r.group, r.title, r.message)];
      assert World(log, sent) == After(w, effects, 1);
      Record(Event(Attempted, r.topic, r.group, r.date, "", r.title, r.message, r.symbols));
      assert World(log, sent) == After(w, effects, 2);
      if succeeds {
        var symbols := if r.symbols == [] then [""] else r.symbols;
        RecordDelivered(r, symbols, w, effects);
      } else if |attempts| == 1 {
        Record(GroupEvent(r, Exhausted, ""));
      }
    }
  }

  lemma {:induction false} TriggerSnoc(log: seq<Event>, e: Event, date: string)
    ensures forall s :: HasTrigger(log + [e], date, s) <==>
      HasTrigger(log, date, s) || (e.kind == Triggered && e.date == date && e.symbol == s)
  {
    forall s ensures HasTrigger(log + [e], date, s) <==>
      HasTrigger(log, date, s) || (e.kind == Triggered && e.date == date && e.symbol == s) {
      if HasTrigger(log, date, s) {
        var i :| 0 <= i < |log| && log[i].kind == Triggered && log[i].date == date && log[i].symbol == s;
        assert (log + [e])[i] == log[i];
      }
      if e.kind == Triggered && e.date == date && e.symbol == s { assert (log + [e])[|log|] == e; }
    }
  }
}
