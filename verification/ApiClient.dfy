/** The web client's single-flight token refresh: lib/api-client.ts.

    The model is the JavaScript event loop: each event is one callback that runs to completion, and
    any callback that is due may run next. A flight is one call of `performRefresh` with the two
    callbacks chained to it; a caller is one call of `apiRequest`. */
module ApiClient {
  import opened Common

  type CallerId = nat
  type FlightId = nat
  type HandlerId = nat
  type AccessToken = nat

  /** `throws` says whether the handler raises when it is called. */
  datatype Handler = Handler(id: HandlerId, throws: bool)

  datatype Flight =
    | Posting                       // the POST is on its way
    | Reading                       // awaiting the body of a 2xx answer
    | Decided(ok: bool)             // performRefresh has resolved; `.then` is due
    | Handled(result: Result)       // `.then` has run; `.finally` is due
    | Closed(result: Result)        // `.finally` has run; awaiting callers may resume

  /** How the shared promise settles. */
  datatype Result = Fulfilled(ok: bool) | HandlerThrew

  datatype Caller =
    | Fetching(retry: bool, sent: Option<AccessToken>)
    | Joined(flight: FlightId)
    | Refetching(flight: FlightId, saw: Result, sent: Option<AccessToken>)
    | Done(fetches: nat, joined: Option<(FlightId, Result)>)

  /** What the outside world can observe, in order. */
  datatype Act = Post(flight: FlightId) | Clear(flight: FlightId) | Notify(flight: FlightId, handler: HandlerId)

  datatype Page = Page(slot: Option<FlightId>, flights: seq<Flight>, callers: map<CallerId, Caller>,
                       token: Option<AccessToken>, handlers: seq<Handler>, log: seq<Act>, unauthorized: nat,
                       audience: map<FlightId, seq<Handler>>)

  function Loaded(token: Option<AccessToken>): Page { Page(None, [], map[], token, [], [], 0, map[]) }

  datatype Reply = Unauthorized | OtherStatus | NetworkError

  datatype Event =
    | Call(caller: CallerId, retryOnUnauthorized: bool)
    | Answer(caller: CallerId, reply: Reply)
    | RefreshAnswer(flight: FlightId, ok: bool)      // `res.ok`, or false for a failed fetch
    | RefreshBody(flight: FlightId, body: Option<AccessToken>)
    | Then(flight: FlightId)
    | Finally(flight: FlightId)
    | Resume(caller: CallerId)
    | Register(handler: Handler)
    | Unregister(id: HandlerId)
    | SetToken(token: Option<AccessToken>)           // login, signup, logout

  // ---- The callbacks ----

  /** The handlers a notification reaches: all of them, unless one throws. */
  function Reached(hs: seq<Handler>): seq<Handler> {
    if hs == [] then [] else [hs[0]] + if hs[0].throws then [] else Reached(hs[1..])
  }

  predicate SomeThrows(hs: seq<Handler>) {
    exists i :: 0 <= i < |hs| && hs[i].throws
  }

  function Notices(f: FlightId, hs: seq<Handler>): seq<Act> {
    seq(|hs|, i requires 0 <= i < |hs| => Notify(f, hs[i].id))
  }

  /** A failed refresh clears the token, then notifies. */
  function Failure(f: FlightId, hs: seq<Handler>): seq<Act> { [Clear(f)] + Notices(f, Reached(hs)) }

  /** refreshSession: join the flight in the slot, or start one. */
  function Join(p: Page, c: CallerId): Page {
    var q := if p.slot.Some? then p
             else p.(slot := Some(|p.flights|), flights := p.flights + [Posting], log := p.log + [Post(|p.flights|)]);
    q.(callers := q.callers[c := Joined(q.slot.value)])
  }

  function RunThen(p: Page, f: FlightId): Page
    requires f < |p.flights| && p.flights[f].Decided?
  {
    if p.flights[f].ok then p.(flights := p.flights[f := Handled(Fulfilled(true))])
    else
      p.(token := None,
         log := p.log + Failure(f, p.handlers),
         audience := p.audience[f := p.handlers],
         flights := p.flights[f := Handled(if SomeThrows(p.handlers) then HandlerThrew else Fulfilled(false))])
  }

  predicate Enabled(p: Page, e: Event) {
    match e
    case Call(c, _) => c !in p.callers
    case Answer(c, _) => c in p.callers && (p.callers[c].Fetching? || p.callers[c].Refetching?)
    case RefreshAnswer(f, _) => f < |p.flights| && p.flights[f].Posting?
    case RefreshBody(f, _) => f < |p.flights| && p.flights[f].Reading?
    case Then(f) => f < |p.flights| && p.flights[f].Decided?
    case Finally(f) => f < |p.flights| && p.flights[f].Handled?
    case Resume(c) =>
      && c in p.callers && p.callers[c].Joined?
      && p.callers[c].flight < |p.flights| && p.flights[p.callers[c].flight].Closed?
    case Register(h) => forall i :: 0 <= i < |p.handlers| ==> p.handlers[i].id != h.id
    case Unregister(_) => true
    case SetToken(_) => true
  }

  function Without(hs: seq<Handler>, id: HandlerId): seq<Handler> {
    if hs == [] then [] else (if hs[0].id == id then [] else [hs[0]]) + Without(hs[1..], id)
  }

  function RunAnswer(p: Page, c: CallerId, r: Reply): Page
    requires c in p.callers && (p.callers[c].Fetching? || p.callers[c].Refetching?)
  {
    match p.callers[c]
    case Fetching(retry, _) =>
      if r.Unauthorized? && retry then Join(p.(unauthorized := p.unauthorized + 1), c)
      else p.(callers := p.callers[c := Done(1, None)])
    case Refetching(f, saw, _) => p.(callers := p.callers[c := Done(2, Some((f, saw)))])
  }

  function RunResume(p: Page, c: CallerId): Page
    requires Enabled(p, Resume(c))
  {
    var f := p.callers[c].flight;
    var result := p.flights[f].result;
    // a rejected promise ends the call; a fulfilled one, true or false, leads to the second fetch
    if result.HandlerThrew? then p.(callers := p.callers[c := Done(1, Some((f, result)))])
    else p.(callers := p.callers[c := Refetching(f, result, p.token)])
  }

  function Effect(p: Page, e: Event): Page
    requires Enabled(p, e)
  {
    match e
    case Call(c, retry) => p.(callers := p.callers[c := Fetching(retry, p.token)])
    case Answer(c, r) => RunAnswer(p, c, r)
    case RefreshAnswer(f, ok) => p.(flights := p.flights[f := if ok then Reading else Decided(false)])
    case RefreshBody(f, body) =>
      if body.Some? then p.(token := body, flights := p.flights[f := Decided(true)])
      else p.(flights := p.flights[f := Decided(false)])
    case Then(f) => RunThen(p, f)
    case Finally(f) => p.(slot := None, flights := p.flights[f := Closed(p.flights[f].result)])
    case Resume(c) => RunResume(p, c)
    case Register(h) => p.(handlers := p.handlers + [h])
    case Unregister(id) => p.(handlers := Without(p.handlers, id))
    case SetToken(t) => p.(token := t)
  }

  function Step(p: Page, e: Event): Page {
    if Enabled(p, e) then Effect(p, e) else p
  }

  function Run(p: Page, es: seq<Event>): Page {
    if es == [] then p else Step(Run(p, es[..|es| - 1]), es[|es| - 1])
  }

  // ---- Single flight ----

  /** The slot names the one flight that is not closed, and is empty when all are. */
  ghost predicate SlotExact(p: Page) {
    && (p.slot.Some? ==> p.slot.value < |p.flights|)
    && (forall f :: 0 <= f < |p.flights| ==> (!p.flights[f].Closed? <==> p.slot == Some(f)))
  }

  /** Callers only join flights that exist, and what they saw is how the flight settled. */
  ghost predicate CallersAgree(p: Page) {
    forall c :: c in p.callers ==> CallerAgrees(p, p.callers[c])
  }

  lemma StepKeepsSlot(p: Page, e: Event)
    requires SlotExact(p)
    ensures SlotExact(Step(p, e)) && |Step(p, e).flights| >= |p.flights|
  {
  }

  lemma ClosedStays(p: Page, e: Event, f: nat)
    requires f < |p.flights|
    ensures f < |Step(p, e).flights| && (p.flights[f].Closed? ==> Step(p, e).flights[f] == p.flights[f])
  {
  }

  /** What one event can do to one caller. */
  lemma StepOnCaller(p: Page, e: Event, c: CallerId)
    requires c in Step(p, e).callers
    ensures var q := Step(p, e);
      || (c in p.callers && q.callers[c] == p.callers[c])
      || q.callers[c].Fetching?
      || (q.callers[c].Joined? && q.slot == Some(q.callers[c].flight))
      || (c in p.callers && p.callers[c].Fetching? && q.callers[c] == Done(1, None))
      || (e == Resume(c) && Enabled(p, e) && q == RunResume(p, c))
      || (c in p.callers && p.callers[c].Refetching?
          && q.callers[c] == Done(2, Some((p.callers[c].flight, p.callers[c].saw))))
  {
  }

  ghost predicate CallerAgrees(p: Page, c: Caller) {
    match c
    case Fetching(_, _) => true
    case Joined(f) => f < |p.flights|
    case Refetching(f, saw, _) => f < |p.flights| && p.flights[f] == Closed(saw) && saw.Fulfilled?
    case Done(n, None) => n == 1
    case Done(n, Some((f, saw))) =>
      f < |p.flights| && p.flights[f] == Closed(saw) && n == (if saw.Fulfilled? then 2 else 1)
  }

  lemma StepKeepsCallers(p: Page, e: Event)
    requires SlotExact(p) && CallersAgree(p)
    ensures CallersAgree(Step(p, e))
  {
    var q := Step(p, e);
    StepKeepsSlot(p, e);
    forall c | c in q.callers ensures CallerAgrees(q, q.callers[c]) {
      StepOnCaller(p, e, c);
      if c in p.callers {
        assert CallerAgrees(p, p.callers[c]);
        if SawOf(p.callers[c]).Some? { ClosedStays(p, e, SawOf(p.callers[c]).value.0); }
        if p.callers[c].Joined? { ClosedStays(p, e, p.callers[c].flight); }
      }
    }
  }

  ghost predicate Shared(p: Page) {
    SlotExact(p) && CallersAgree(p) && |p.flights| <= p.unauthorized
  }

  lemma StepKeepsShared(p: Page, e: Event)
    requires Shared(p)
    ensures Shared(Step(p, e)) && |Step(p, e).flights| >= |p.flights|
  {
    StepKeepsSlot(p, e);
    StepKeepsCallers(p, e);
    assert |Step(p, e).flights| - |p.flights| <= Step(p, e).unauthorized - p.unauthorized;
  }

  lemma {:induction false} RunKeepsShared(p: Page, es: seq<Event>)
    requires Shared(p)
    ensures Shared(Run(p, es)) && |Run(p, es).flights| >= |p.flights|
  {
    if es != [] {
      var before := es[..|es| - 1];
      RunKeepsShared(p, before);
      StepKeepsShared(Run(p, before), es[|es| - 1]);
    }
  }

  /** SINGLE FLIGHT. In every interleaving at most one refresh is under way, and the slot is empty
      exactly when none is. */
  lemma SingleFlight(token: Option<AccessToken>, es: seq<Event>)
    ensures var p := Run(Loaded(token), es);
      && (forall f, g | 0 <= f < |p.flights| && 0 <= g < |p.flights| ::
            !p.flights[f].Closed? && !p.flights[g].Closed? ==> f == g)
      && (p.slot.None? <==> forall f :: 0 <= f < |p.flights| ==> p.flights[f].Closed?)
  {
    RunKeepsShared(Loaded(token), es);
  }

  /** No more refreshes than first answers that were 401. */
  lemma {:induction false} RefreshesBounded(token: Option<AccessToken>, es: seq<Event>)
    ensures |Run(Loaded(token), es).flights| <= Run(Loaded(token), es).unauthorized
  {
    RunKeepsShared(Loaded(token), es);
  }

  function SawOf(c: Caller): Option<(FlightId, Result)> {
    match c
    case Refetching(f, saw, _) => Some((f, saw))
    case Done(_, j) => j
    case _ => None
  }

  /** Everyone who waited for a flight saw the same thing: how that flight settled. */
  lemma JoinersAgree(token: Option<AccessToken>, es: seq<Event>, c: CallerId, d: CallerId)
    requires var p := Run(Loaded(token), es);
      && c in p.callers && d in p.callers && SawOf(p.callers[c]).Some? && SawOf(p.callers[d]).Some?
      && SawOf(p.callers[c]).value.0 == SawOf(p.callers[d]).value.0
    ensures var p := Run(Loaded(token), es);
      var (f, saw) := SawOf(p.callers[c]).value;
      SawOf(p.callers[d]).value.1 == saw && f < |p.flights| && p.flights[f] == Closed(saw)
  {
    RunKeepsShared(Loaded(token), es);
  }

  // ---- Every call ends ----

  predicate Concerns(e: Event, c: CallerId) {
    (e.Call? || e.Answer? || e.Resume?) && e.caller == c
  }

  /** Callbacks still to come for one call, at most. */
  function Remaining(p: Page, c: CallerId): nat {
    if c !in p.callers then 4
    else match p.callers[c]
      case Fetching(_, _) => 3
      case Joined(_) => 2
      case Refetching(_, _, _) => 1
      case Done(_, _) => 0
  }

  /** How many callbacks of one call a run executes. */
  function Callbacks(p: Page, es: seq<Event>, c: CallerId): nat {
    if es == [] then 0
    else
      var e := es[|es| - 1];
      Callbacks(p, es[..|es| - 1], c) + if Concerns(e, c) && Enabled(Run(p, es[..|es| - 1]), e) then 1 else 0
  }

  lemma StepSpends(p: Page, e: Event, c: CallerId)
    ensures if Concerns(e, c) && Enabled(p, e) then Remaining(Step(p, e), c) < Remaining(p, c)
            else Remaining(Step(p, e), c) == Remaining(p, c)
  {
  }

  lemma {:induction false} CallbacksSpend(p: Page, es: seq<Event>, c: CallerId)
    ensures Callbacks(p, es, c) + Remaining(Run(p, es), c) <= Remaining(p, c)
  {
    if es != [] {
      CallbacksSpend(p, es[..|es| - 1], c);
      StepSpends(Run(p, es[..|es| - 1]), es[|es| - 1], c);
    }
  }

  /** The callback calls `fetch` on the path of call c: at the start, and on resuming from a promise that
      was fulfilled. */
  predicate IssuesFetch(p: Page, e: Event, c: CallerId) {
    && Enabled(p, e) && Concerns(e, c)
    && (e.Call? || (e.Resume? && p.flights[p.callers[c].flight].result.Fulfilled?))
  }

  /** How many fetches of its path a run issues for one call. */
  function Fetches(p: Page, es: seq<Event>, c: CallerId): nat {
    if es == [] then 0
    else
      var e := es[|es| - 1];
      Fetches(p, es[..|es| - 1], c) + if IssuesFetch(Run(p, es[..|es| - 1]), e, c) then 1 else 0
  }

  /** How many fetches of its path a call has behind it, by what it is doing. */
  function FetchesSoFar(p: Page, c: CallerId): nat {
    if c !in p.callers then 0
    else match p.callers[c]
      case Fetching(_, _) => 1
      case Joined(_) => 1
      case Refetching(_, _, _) => 2
      case Done(n, _) => n
  }

  lemma StepFetches(p: Page, e: Event, c: CallerId)
    requires Shared(p)
    ensures FetchesSoFar(Step(p, e), c) == FetchesSoFar(p, c) + if IssuesFetch(p, e, c) then 1 else 0
  {
    if c in p.callers { assert CallerAgrees(p, p.callers[c]); }
  }

  lemma {:induction false} RunFetches(p: Page, es: seq<Event>, c: CallerId)
    requires Shared(p)
    ensures FetchesSoFar(Run(p, es), c) == FetchesSoFar(p, c) + Fetches(p, es, c)
  {
    if es != [] {
      RunFetches(p, es[..|es| - 1], c);
      RunKeepsShared(p, es[..|es| - 1]);
      StepFetches(Run(p, es[..|es| - 1]), es[|es| - 1], c);
    }
  }

  /** Each apiRequest is through after at most four callbacks, with at most two fetches of its path
      and one refresh. It has fetched twice, in the end, exactly when the refresh it joined settled with
      a verdict, a failed refresh included. */
  lemma CallsEnd(token: Option<AccessToken>, es: seq<Event>, c: CallerId)
    ensures Callbacks(Loaded(token), es, c) <= 4 && Fetches(Loaded(token), es, c) <= 2
    ensures Fetches(Loaded(token), es, c) == FetchesSoFar(Run(Loaded(token), es), c)
    ensures var p := Run(Loaded(token), es);
      c in p.callers && p.callers[c].Done? ==>
        match p.callers[c].joined
        case None => Fetches(Loaded(token), es, c) == 1
        case Some((_, saw)) => Fetches(Loaded(token), es, c) == if saw.Fulfilled? then 2 else 1
  {
    CallbacksSpend(Loaded(token), es, c);
    RunFetches(Loaded(token), es, c);
    RunKeepsShared(Loaded(token), es);
    FetchedTwiceAtMost(Run(Loaded(token), es), c);
  }

  lemma FetchedTwiceAtMost(p: Page, c: CallerId)
    requires Shared(p)
    ensures FetchesSoFar(p, c) <= 2
  {
    if c in p.callers { assert CallerAgrees(p, p.callers[c]); }
  }

  /** An enabled event moves a call on if it is a callback of the call itself or of the flight it waits
      for. */
  predicate Moves(p: Page, e: Event, c: CallerId) {
    Enabled(p, e) && (Concerns(e, c) || (c in p.callers && p.callers[c].Joined? && Carries(e, p.callers[c].flight)))
  }

  /** The four callbacks of a flight. */
  predicate Carries(e: Event, f: FlightId) {
    (e.RefreshAnswer? || e.RefreshBody? || e.Then? || e.Finally?) && e.flight == f
  }

  /** Callbacks still to come for one flight, at most. */
  function FlightRemaining(fl: Flight): nat {
    match fl
    case Posting => 4
    case Reading => 3
    case Decided(_) => 2
    case Handled(_) => 1
    case Closed(_) => 0
  }

  /** Callbacks still to come for one call and the flight it waits for, at most. */
  function Ahead(p: Page, c: CallerId): nat {
    if c !in p.callers then 8
    else match p.callers[c]
      case Fetching(_, _) => 7
      case Joined(f) => 2 + if f < |p.flights| then FlightRemaining(p.flights[f]) else 0
      case Refetching(_, _, _) => 1
      case Done(_, _) => 0
  }

  lemma FlightSpends(p: Page, e: Event, f: FlightId)
    requires f < |p.flights|
    ensures f < |Step(p, e).flights|
    ensures if Enabled(p, e) && Carries(e, f)
            then FlightRemaining(Step(p, e).flights[f]) < FlightRemaining(p.flights[f])
            else Step(p, e).flights[f] == p.flights[f]
  {
  }

  /** A callback that moves the call brings its end nearer, and nothing else that happens puts it off. */
  lemma StepNears(p: Page, e: Event, c: CallerId)
    requires Shared(p)
    ensures if Moves(p, e, c) then Ahead(Step(p, e), c) < Ahead(p, c) else Ahead(Step(p, e), c) == Ahead(p, c)
  {
    if c in p.callers {
      assert CallerAgrees(p, p.callers[c]);
      if p.callers[c].Joined? { FlightSpends(p, e, p.callers[c].flight); }
    }
  }

  /** One callback that is due for a call that is not done. */
  function Due(p: Page, c: CallerId): (e: Event)
    requires Shared(p) && c in p.callers && !p.callers[c].Done?
    ensures Moves(p, e, c)
  {
    assert CallerAgrees(p, p.callers[c]);
    match p.callers[c]
    case Joined(f) =>
      (match p.flights[f]
       case Posting => RefreshAnswer(f, false)
       case Reading => RefreshBody(f, None)
       case Decided(_) => Then(f)
       case Handled(_) => Finally(f)
       case Closed(_) => Resume(c))
    case _ => Answer(c, OtherStatus)
  }

  /** How many callbacks a run executes that move the call. */
  function Moved(p: Page, es: seq<Event>, c: CallerId): nat {
    if es == [] then 0
    else
      var e := es[|es| - 1];
      Moved(p, es[..|es| - 1], c) + if Moves(Run(p, es[..|es| - 1]), e, c) then 1 else 0
  }

  lemma {:induction false} MovedNears(p: Page, es: seq<Event>, c: CallerId)
    requires Shared(p)
    ensures Moved(p, es, c) + Ahead(Run(p, es), c) <= Ahead(p, c)
  {
    if es != [] {
      MovedNears(p, es[..|es| - 1], c);
      RunKeepsShared(p, es[..|es| - 1]);
      StepNears(Run(p, es[..|es| - 1]), es[|es| - 1], c);
    }
  }

  /** PROGRESS. No call waits for ever: in every reachable page a call that is not done has a callback
      due, its own or its flight's; each of those brings its end nearer, whatever else is run in
      between, and after eight of them it is done. */
  lemma NoCallHangs(token: Option<AccessToken>, es: seq<Event>, c: CallerId)
    ensures var p := Run(Loaded(token), es);
      && (c in p.callers && !p.callers[c].Done? ==> exists e :: Moves(p, e, c))
      && (forall e :: Moves(p, e, c) ==> Ahead(Step(p, e), c) < Ahead(p, c))
      && (forall e :: !Moves(p, e, c) ==> Ahead(Step(p, e), c) == Ahead(p, c))
      && Moved(Loaded(token), es, c) <= 8
      && (Moved(Loaded(token), es, c) == 8 ==> c in p.callers && p.callers[c].Done?)
  {
    var p := Run(Loaded(token), es);
    RunKeepsShared(Loaded(token), es);
    MovedNears(Loaded(token), es, c);
    if c in p.callers && !p.callers[c].Done? { var e := Due(p, c); }
    forall e
      ensures if Moves(p, e, c) then Ahead(Step(p, e), c) < Ahead(p, c) else Ahead(Step(p, e), c) == Ahead(p, c)
    {
      StepNears(p, e, c);
    }
  }

  // ---- What became of a call and of a flight, read off their own callbacks ----

  /** The first answer to a call is met by a refresh exactly when it is a 401 and the call may retry: the
      call joins the refresh under way if there is one, and starts one if there is none. */
  lemma JoinsTheOpenFlight(token: Option<AccessToken>, es: seq<Event>, c: CallerId, reply: Reply)
    requires var p := Run(Loaded(token), es); c in p.callers && p.callers[c].Fetching?
    ensures var p := Run(Loaded(token), es);
      var q := Step(p, Answer(c, reply));
      if reply.Unauthorized? && p.callers[c].retry then
        && q.slot.Some? && q.callers[c] == Joined(q.slot.value)
        && q.slot.value < |q.flights| && !q.flights[q.slot.value].Closed?
        && (if p.slot.Some? then q.slot == p.slot && q.flights == p.flights
            else q.slot.value == |p.flights| && q.flights == p.flights + [Posting])
      else q.callers[c] == Done(1, None) && q.flights == p.flights && q.slot == p.slot
  {
    RunKeepsShared(Loaded(token), es);
  }

  /** A callback of a call, and what it found: the stored token, the slot, how many refreshes so far. */
  datatype Stamp = Stamp(event: Event, token: Option<AccessToken>, slot: Option<FlightId>, flights: nat)

  /** The callbacks of one call that a run executes, in order. */
  function Own(p: Page, es: seq<Event>, c: CallerId): seq<Stamp> {
    if es == [] then []
    else
      var q, e := Run(p, es[..|es| - 1]), es[|es| - 1];
      Own(p, es[..|es| - 1], c)
      + if Concerns(e, c) && Enabled(q, e) then [Stamp(e, q.token, q.slot, |q.flights|)] else []
  }

  /** The call is one that waits for a refresh after its first answer. */
  predicate Retries(own: seq<Stamp>) {
    |own| > 1 && own[0].event.Call? && own[0].event.retryOnUnauthorized
    && own[1].event.Answer? && own[1].event.reply.Unauthorized?
  }

  /** The refresh it waits for: the one under way, or a new one. */
  function Awaited(x: Stamp): FlightId { if x.slot.Some? then x.slot.value else x.flights }

  /** Where a call is that has had these callbacks. */
  predicate Tells(own: seq<Stamp>, caller: Caller) {
    && 0 < |own| <= 4 && own[0].event.Call?
    && (|own| == 1 ==> caller == Fetching(own[0].event.retryOnUnauthorized, own[0].token))
    && (|own| > 1 ==> own[1].event.Answer?)
    && (|own| > 1 && !Retries(own) ==> |own| == 2 && caller == Done(1, None))
    && (|own| == 2 && Retries(own) ==> caller == Joined(Awaited(own[1])))
    && (|own| == 3 ==> own[2].event.Resume? && Resumed(own, caller))
    && (|own| == 4 ==>
          caller.Done? && caller.fetches == 2 && caller.joined.Some? && caller.joined.value.0 == Awaited(own[1]))
  }

  /** After the refresh: the second fetch, with the token stored by then, or the handler's exception. */
  predicate Resumed(own: seq<Stamp>, caller: Caller)
    requires |own| > 2
  {
    || (caller.Refetching? && caller.flight == Awaited(own[1]) && caller.saw.Fulfilled? && caller.sent == own[2].token)
    || caller == Done(1, Some((Awaited(own[1]), HandlerThrew)))
  }

  lemma OwnStepTells(p: Page, e: Event, own: seq<Stamp>, c: CallerId)
    requires Shared(p) && Concerns(e, c) && Enabled(p, e)
    requires if c in p.callers then Tells(own, p.callers[c]) else own == []
    ensures c in Step(p, e).callers && Tells(own + [Stamp(e, p.token, p.slot, |p.flights|)], Step(p, e).callers[c])
  {
    var own' := own + [Stamp(e, p.token, p.slot, |p.flights|)];
    if c in p.callers {
      assert CallerAgrees(p, p.callers[c]);
      assert own'[0] == own[0];
      if |own| > 1 { assert own'[1] == own[1]; }
    }
  }

  lemma OthersLeaveIt(p: Page, e: Event, c: CallerId)
    requires !(Concerns(e, c) && Enabled(p, e))
    ensures c in Step(p, e).callers <==> c in p.callers
    ensures c in p.callers ==> Step(p, e).callers[c] == p.callers[c]
  {
  }

  /** A CALL IS TOLD by its own callbacks, over every run: its first fetch carries the token of the moment;
      a 401 that may be retried, and no other answer, makes it wait for the refresh under way or a new one;
      then comes the second fetch, with the token stored by then, unless a handler threw. */
  lemma {:induction false} CallTold(token: Option<AccessToken>, es: seq<Event>, c: CallerId)
    ensures var p, own := Run(Loaded(token), es), Own(Loaded(token), es, c);
      if c in p.callers then Tells(own, p.callers[c]) else own == []
  {
    if es != [] {
      var before, e := es[..|es| - 1], es[|es| - 1];
      var p, own := Run(Loaded(token), before), Own(Loaded(token), before, c);
      CallTold(token, before, c);
      if Concerns(e, c) && Enabled(p, e) {
        RunKeepsShared(Loaded(token), before);
        OwnStepTells(p, e, own, c);
      } else {
        assert own + [] == own;
        OthersLeaveIt(p, e, c);
      }
    }
  }

  /** A call that ended without waiting for a refresh had another first answer or was not to retry. */
  lemma DoneAloneIff(token: Option<AccessToken>, es: seq<Event>, c: CallerId)
    requires var p := Run(Loaded(token), es); c in p.callers && p.callers[c].Done?
    ensures var p, own := Run(Loaded(token), es), Own(Loaded(token), es, c);
      |own| > 1 && (p.callers[c].joined.None? <==> !Retries(own))
  {
    CallTold(token, es, c);
  }

  /** The callbacks of one flight that a run executes, in order. */
  function Steps(p: Page, es: seq<Event>, f: FlightId): seq<Event> {
    if es == [] then []
    else
      var q, e := Run(p, es[..|es| - 1]), es[|es| - 1];
      Steps(p, es[..|es| - 1], f) + if Carries(e, f) && Enabled(q, e) then [e] else []
  }

  /** The refresh got a 2xx answer with a token in it. */
  predicate Refreshed(steps: seq<Event>) {
    |steps| > 1 && steps[0].RefreshAnswer? && steps[0].ok && steps[1].RefreshBody? && steps[1].body.Some?
  }

  /** How many of its callbacks decide it: the answer alone if that is a failure, else the body too. */
  function Deciding(steps: seq<Event>): nat {
    if steps != [] && steps[0].RefreshAnswer? && steps[0].ok then 2 else 1
  }

  predicate FlightTells(steps: seq<Event>, fl: Flight) {
    && (steps != [] ==> steps[0].RefreshAnswer?)
    && (|steps| > 1 && steps[0].ok ==> steps[1].RefreshBody?)
    && |steps| <= Deciding(steps) + 2
    && (if steps == [] then fl == Posting
        else if |steps| < Deciding(steps) then fl == Reading
        else if |steps| == Deciding(steps) then fl == Decided(Refreshed(steps))
        else if |steps| == Deciding(steps) + 1 then
          steps[|steps| - 1].Then? && fl.Handled? && (fl.result == Fulfilled(true) <==> Refreshed(steps))
        else steps[|steps| - 1].Finally? && fl.Closed? && (fl.result == Fulfilled(true) <==> Refreshed(steps)))
  }

  lemma StepOnFlight(p: Page, e: Event, f: FlightId, steps: seq<Event>)
    requires f < |p.flights| && Carries(e, f) && Enabled(p, e) && FlightTells(steps, p.flights[f])
    ensures f < |Step(p, e).flights| && FlightTells(steps + [e], Step(p, e).flights[f])
  {
    if steps != [] { assert (steps + [e])[0] == steps[0]; }
    if |steps| > 1 { assert (steps + [e])[1] == steps[1]; }
  }

  lemma FlightLeftAlone(p: Page, e: Event, f: FlightId)
    requires !(Carries(e, f) && Enabled(p, e)) && f < |Step(p, e).flights|
    ensures if f < |p.flights| then Step(p, e).flights[f] == p.flights[f] else Step(p, e).flights[f] == Posting
  {
  }

  /** A FLIGHT IS TOLD by its own callbacks: it succeeds exactly when its answer was 2xx and had a token
      in its body, and it goes from posting to closed through them in order. */
  lemma {:induction false} FlightTold(token: Option<AccessToken>, es: seq<Event>, f: FlightId)
    ensures var p, steps := Run(Loaded(token), es), Steps(Loaded(token), es, f);
      if f < |p.flights| then FlightTells(steps, p.flights[f]) else steps == []
  {
    if es != [] {
      var before, e := es[..|es| - 1], es[|es| - 1];
      var p, steps := Run(Loaded(token), before), Steps(Loaded(token), before, f);
      FlightTold(token, before, f);
      RunKeepsShared(Loaded(token), before);
      StepKeepsSlot(p, e);
      if Carries(e, f) && Enabled(p, e) {
        StepOnFlight(p, e, f, steps);
      } else {
        assert steps + [] == steps;
        if f < |Step(p, e).flights| { FlightLeftAlone(p, e, f); }
      }
    }
  }

  // ---- The stored token and the handlers, read off the run ----

  /** What the event writes to the stored token, if it does. */
  function Writes(p: Page, e: Event): Option<Option<AccessToken>> {
    match e
    case SetToken(t) => Some(t)
    case RefreshBody(_, body) => if Enabled(p, e) && body.Some? then Some(body) else None
    case Then(f) => if Enabled(p, e) && !p.flights[f].ok then Some(None) else None
    case _ => None
  }

  function LastWritten(p: Page, es: seq<Event>): Option<AccessToken> {
    if es == [] then p.token
    else
      var w := Writes(Run(p, es[..|es| - 1]), es[|es| - 1]);
      if w.Some? then w.value else LastWritten(p, es[..|es| - 1])
  }

  /** The stored token is what the last login, logout, refreshed body or failed refresh made it. */
  lemma {:induction false} TokenTold(p: Page, es: seq<Event>)
    ensures Run(p, es).token == LastWritten(p, es)
  {
    if es != [] { TokenTold(p, es[..|es| - 1]); }
  }

  /** How many events had happened when handler `id` was registered last; 0 if it is not registered. */
  function Since(p: Page, es: seq<Event>, id: HandlerId): nat {
    if es == [] then 0
    else
      var e := es[|es| - 1];
      if e.Register? && e.handler.id == id && Enabled(Run(p, es[..|es| - 1]), e) then |es|
      else if e == Unregister(id) then 0
      else Since(p, es[..|es| - 1], id)
  }

  ghost predicate InTurn(p: Page, es: seq<Event>, hs: seq<Handler>) {
    && (forall i :: 0 <= i < |hs| ==>
          && 0 < Since(p, es, hs[i].id) <= |es| && es[Since(p, es, hs[i].id) - 1] == Register(hs[i]))
    && (forall i, j :: 0 <= i < j < |hs| ==> Since(p, es, hs[i].id) < Since(p, es, hs[j].id))
  }

  lemma InTurnCons(p: Page, es: seq<Event>, h: Handler, hs: seq<Handler>)
    requires InTurn(p, es, [h]) && InTurn(p, es, hs)
    requires forall x :: x in hs ==> Since(p, es, h.id) < Since(p, es, x.id)
    ensures InTurn(p, es, [h] + hs)
  {
    assert [h][0] == h;
    forall i, j | 0 <= i < j < |[h] + hs|
      ensures Since(p, es, ([h] + hs)[i].id) < Since(p, es, ([h] + hs)[j].id)
    {
      assert ([h] + hs)[j] == hs[j - 1] && hs[j - 1] in hs;
    }
  }

  lemma InTurnSplit(p: Page, es: seq<Event>, hs: seq<Handler>)
    requires hs != [] && InTurn(p, es, hs)
    ensures InTurn(p, es, [hs[0]]) && InTurn(p, es, hs[1..])
    ensures forall x :: x in hs[1..] ==> Since(p, es, hs[0].id) < Since(p, es, x.id)
  {
  }

  lemma {:induction false} WithoutKeepsOrder(p: Page, es: seq<Event>, hs: seq<Handler>, id: HandlerId)
    requires InTurn(p, es, hs) && DistinctIds(hs)
    ensures InTurn(p, es, Without(hs, id))
  {
    if hs != [] {
      InTurnSplit(p, es, hs);
      WithoutKeepsOrder(p, es, hs[1..], id);
      WithoutShrinks(hs[1..], id);
      if hs[0].id == id {
        assert [] + Without(hs[1..], id) == Without(hs[1..], id);
      } else {
        InTurnCons(p, es, hs[0], Without(hs[1..], id));
      }
    }
  }

  lemma InTurnStays(p: Page, es: seq<Event>, e: Event, hs: seq<Handler>)
    requires InTurn(p, es, hs)
    requires forall i :: 0 <= i < |hs| ==>
               e != Unregister(hs[i].id) && !(e.Register? && e.handler.id == hs[i].id && Enabled(Run(p, es), e))
    ensures InTurn(p, es + [e], hs)
  {
    assert (es + [e])[..|es|] == es;
    assert forall i :: 0 <= i < |hs| ==> Since(p, es + [e], hs[i].id) == Since(p, es, hs[i].id);
  }

  lemma SinceNow(p: Page, es: seq<Event>, h: Handler)
    requires Enabled(Run(p, es), Register(h))
    ensures Since(p, es + [Register(h)], h.id) == |es| + 1
  {
    assert (es + [Register(h)])[..|es|] == es;
  }

  lemma InTurnAppend(p: Page, es: seq<Event>, hs: seq<Handler>, h: Handler)
    requires InTurn(p, es, hs) && es != [] && es[|es| - 1] == Register(h) && Since(p, es, h.id) == |es|
    requires forall i :: 0 <= i < |hs| ==> Since(p, es, hs[i].id) < |es|
    ensures InTurn(p, es, hs + [h])
  {
  }

  lemma RegisteredLast(p: Page, es: seq<Event>, h: Handler)
    requires Enabled(Run(p, es), Register(h)) && InTurn(p, es, Run(p, es).handlers)
    ensures InTurn(p, es + [Register(h)], Run(p, es).handlers + [h])
  {
    var hs := Run(p, es).handlers;
    InTurnStays(p, es, Register(h), hs);
    SinceNow(p, es, h);
    forall i | 0 <= i < |hs| ensures Since(p, es + [Register(h)], hs[i].id) < |es| + 1 {
      assert (es + [Register(h)])[..|es|] == es;
    }
    InTurnAppend(p, es + [Register(h)], hs, h);
  }

  lemma UnregisteredGone(p: Page, es: seq<Event>, id: HandlerId)
    requires InTurn(p, es, Run(p, es).handlers) && DistinctIds(Run(p, es).handlers)
    ensures InTurn(p, es + [Unregister(id)], Without(Run(p, es).handlers, id))
  {
    var hs := Run(p, es).handlers;
    WithoutKeepsOrder(p, es, hs, id);
    WithoutShrinks(hs, id);
    var left := Without(hs, id);
    assert forall i :: 0 <= i < |left| ==> left[i] in left;
    InTurnStays(p, es, Unregister(id), left);
  }

  lemma TurnStep(token: Option<AccessToken>, before: seq<Event>, e: Event)
    requires InTurn(Loaded(token), before, Run(Loaded(token), before).handlers)
    requires DistinctIds(Run(Loaded(token), before).handlers)
    ensures InTurn(Loaded(token), before + [e], Step(Run(Loaded(token), before), e).handlers)
  {
    if e.Unregister? {
      UnregisteredGone(Loaded(token), before, e.id);
    } else if e.Register? && Enabled(Run(Loaded(token), before), e) {
      RegisteredLast(Loaded(token), before, e.handler);
    } else {
      InTurnStays(Loaded(token), before, e, Run(Loaded(token), before).handlers);
    }
  }

  /** The handlers stand in the order in which they were registered, each since its last registration. */
  lemma {:induction false} HandlersInTurn(token: Option<AccessToken>, es: seq<Event>)
    ensures InTurn(Loaded(token), es, Run(Loaded(token), es).handlers)
  {
    if es != [] {
      var before, e := es[..|es| - 1], es[|es| - 1];
      assert es == before + [e];
      HandlersInTurn(token, before);
      HandlersDistinct(token, before);
      TurnStep(token, before, e);
    }
  }

  /** And every handler registered and not unregistered since is there. */
  lemma {:induction false} RegisteredIff(token: Option<AccessToken>, es: seq<Event>, id: HandlerId)
    ensures (exists h :: h in Run(Loaded(token), es).handlers && h.id == id) <==> Since(Loaded(token), es, id) > 0
  {
    if es != [] {
      var before, e := es[..|es| - 1], es[|es| - 1];
      RegisteredIff(token, before, id);
      HandlersDistinct(token, before);
      var hs, hs' := Run(Loaded(token), before).handlers, Run(Loaded(token), es).handlers;
      if e.Unregister? { WithoutShrinks(hs, e.id); }
      if e.Register? && hs' != hs {
        assert hs' == hs + [e.handler] && e.handler in hs';
        assert forall h :: h in hs ==> h in hs';
      }
    }
  }

  // ---- Which callback may run next ----

  /** All the callbacks of a flight have run. */
  predicate Through(steps: seq<Event>) { |steps| == Deciding(steps) + 2 }

  /** What may happen after a run, read off the callbacks of the call or flight it is about. */
  predicate MayRun(p: Page, es: seq<Event>, e: Event) {
    match e
    case Call(c, _) => Own(p, es, c) == []
    case Answer(c, _) =>
      var own := Own(p, es, c);
      |own| == 1 || (|own| == 3 && !Threw(Run(p, es), Awaited(own[1])))
    case Resume(c) =>
      var own := Own(p, es, c);
      |own| == 2 && Retries(own) && Through(Steps(p, es, Awaited(own[1])))
    case RefreshAnswer(f, _) => f < |Run(p, es).flights| && Steps(p, es, f) == []
    case RefreshBody(f, _) => |Steps(p, es, f)| == 1 && Deciding(Steps(p, es, f)) == 2
    case Then(f) => Steps(p, es, f) != [] && |Steps(p, es, f)| == Deciding(Steps(p, es, f))
    case Finally(f) => |Steps(p, es, f)| == Deciding(Steps(p, es, f)) + 1
    case Register(h) => Since(p, es, h.id) == 0
    case Unregister(_) => true
    case SetToken(_) => true
  }

  predicate Threw(p: Page, f: FlightId) { f < |p.flights| && p.flights[f] == Closed(HandlerThrew) }

  lemma CallMayRun(token: Option<AccessToken>, es: seq<Event>, e: Event)
    requires e.Call? || e.Answer? || e.Resume?
    ensures Enabled(Run(Loaded(token), es), e) <==> MayRun(Loaded(token), es, e)
  {
    var p, own := Run(Loaded(token), es), Own(Loaded(token), es, e.caller);
    CallTold(token, es, e.caller);
    RunKeepsShared(Loaded(token), es);
    if e.caller in p.callers {
      assert CallerAgrees(p, p.callers[e.caller]);
      if |own| > 1 { FlightTold(token, es, Awaited(own[1])); }
    }
  }

  lemma FlightMayRun(token: Option<AccessToken>, es: seq<Event>, e: Event)
    requires e.RefreshAnswer? || e.RefreshBody? || e.Then? || e.Finally?
    ensures Enabled(Run(Loaded(token), es), e) <==> MayRun(Loaded(token), es, e)
  {
    FlightTold(token, es, e.flight);
  }

  /** ORDER OF CALLBACKS. Over every run, a callback may run exactly when the earlier ones of its own call
      or flight have: a call can always be made, whatever is under way; a call that waits resumes
      when its refresh is through all its callbacks, and not before. */
  lemma MayRunIff(token: Option<AccessToken>, es: seq<Event>, e: Event)
    ensures Enabled(Run(Loaded(token), es), e) <==> MayRun(Loaded(token), es, e)
  {
    match e
    case Register(h) =>
      RegisteredIff(token, es, h.id);
      var hs := Run(Loaded(token), es).handlers;
      assert forall i :: 0 <= i < |hs| ==> hs[i] in hs;
    case Unregister(_) =>
    case SetToken(_) =>
    case Call(_, _) => CallMayRun(token, es, e);
    case Answer(_, _) => CallMayRun(token, es, e);
    case Resume(_) => CallMayRun(token, es, e);
    case _ => FlightMayRun(token, es, e);
  }

  // ---- Failure accounting ----

  /** The acts of one flight, in order. */
  function ActsOf(log: seq<Act>, f: FlightId): seq<Act> {
    if log == [] then []
    else ActsOf(log[..|log| - 1], f) + if log[|log| - 1].flight == f then [log[|log| - 1]] else []
  }

  lemma {:induction false} ActsOfConcat(a: seq<Act>, b: seq<Act>, f: FlightId)
    ensures ActsOf(a + b, f) == ActsOf(a, f) + ActsOf(b, f)
  {
    if b == [] {
      assert a + b == a;
    } else {
      assert (a + b)[..|a + b| - 1] == a + b[..|b| - 1];
      ActsOfConcat(a, b[..|b| - 1], f);
    }
  }

  lemma {:induction false} ActsOfOneFlight(b: seq<Act>, g: FlightId, f: FlightId)
    requires forall i :: 0 <= i < |b| ==> b[i].flight == g
    ensures ActsOf(b, f) == if f == g then b else []
  {
    if b != [] {
      ActsOfOneFlight(b[..|b| - 1], g, f);
      assert b == b[..|b| - 1] + [b[|b| - 1]];
    }
  }

  /** What a flight must have done to the outside, given how far it is. */
  function Owed(p: Page, f: FlightId): seq<Act>
    requires f < |p.flights|
  {
    match p.flights[f]
    case Handled(r) => Settled(p, f, r)
    case Closed(r) => Settled(p, f, r)
    case _ => [Post(f)]
  }

  function Settled(p: Page, f: FlightId, r: Result): seq<Act> {
    if r == Fulfilled(true) || f !in p.audience then [Post(f)]
    else [Post(f)] + Failure(f, p.audience[f])
  }

  ghost predicate DistinctIds(hs: seq<Handler>) {
    forall i, j :: 0 <= i < j < |hs| ==> hs[i].id != hs[j].id
  }

  ghost predicate VerdictFits(p: Page, f: FlightId)
    requires f < |p.flights|
  {
    p.flights[f].Handled? || p.flights[f].Closed? ==>
      var r := p.flights[f].result;
      r != Fulfilled(true) ==>
        f in p.audience && DistinctIds(p.audience[f]) && (r.HandlerThrew? <==> SomeThrows(p.audience[f]))
  }

  lemma {:induction false} WithoutShrinks(hs: seq<Handler>, id: HandlerId)
    requires DistinctIds(hs)
    ensures DistinctIds(Without(hs, id))
    ensures forall h :: h in Without(hs, id) <==> h in hs && h.id != id
  {
    if hs != [] {
      WithoutShrinks(hs[1..], id);
      assert hs == [hs[0]] + hs[1..];
      assert forall h :: h in hs[1..] ==> h.id != hs[0].id;
      var rest := Without(hs[1..], id);
      assert forall i :: 0 <= i < |rest| ==> rest[i] in rest;
    }
  }

  /** One event adds to the log the acts of a single flight. */
  function Added(p: Page, e: Event): seq<Act> {
    if !Enabled(p, e) then []
    else match e
      case Answer(c, r) =>
        if p.callers[c].Fetching? && r.Unauthorized? && p.callers[c].retry && p.slot.None?
        then [Post(|p.flights|)] else []
      case Then(f) => if p.flights[f].ok then [] else Failure(f, p.handlers)
      case _ => []
  }

  lemma StepLog(p: Page, e: Event)
    ensures Step(p, e).log == p.log + Added(p, e)
  {
  }

  /** The account of flight f is in order. */
  ghost predicate InOrder(p: Page, f: nat) {
    ActsOf(p.log, f) == (if f < |p.flights| then Owed(p, f) else []) && (f < |p.flights| ==> VerdictFits(p, f))
  }

  lemma OneFlightAppended(log: seq<Act>, added: seq<Act>, g: FlightId, f: FlightId)
    requires forall i :: 0 <= i < |added| ==> added[i].flight == g
    ensures ActsOf(log + added, f) == ActsOf(log, f) + if f == g then added else []
  {
    ActsOfConcat(log, added, f);
    ActsOfOneFlight(added, g, f);
  }

  lemma ThenSettles(p: Page, f: nat)
    requires DistinctIds(p.handlers) && InOrder(p, f) && Enabled(p, Then(f)) && !p.flights[f].ok
    ensures InOrder(Step(p, Then(f)), f)
  {
    var q := Step(p, Then(f));
    OneFlightAppended(p.log, Failure(f, p.handlers), f, f);
    assert Owed(p, f) == [Post(f)];
    assert q.audience[f] == p.handlers && q.flights[f].Handled?;
    assert Owed(q, f) == [Post(f)] + Failure(f, p.handlers);
  }

  /** The account of a flight is not touched by acts of another. */
  lemma OtherKeepsOrder(p: Page, q: Page, f: nat)
    requires InOrder(p, f) && ActsOf(q.log, f) == ActsOf(p.log, f)
    requires |p.flights| <= |q.flights| && (f >= |p.flights| ==> f >= |q.flights|)
    requires f < |p.flights| ==> q.flights[f] == p.flights[f]
    requires f in q.audience <==> f in p.audience
    requires f in p.audience ==> q.audience[f] == p.audience[f]
    ensures InOrder(q, f)
  {
  }

  lemma ThenKeepsOrder(p: Page, g: FlightId, f: nat)
    requires DistinctIds(p.handlers) && InOrder(p, f) && Enabled(p, Then(g)) && !p.flights[g].ok
    ensures InOrder(Step(p, Then(g)), f)
  {
    if f == g {
      ThenSettles(p, f);
    } else {
      OneFlightAppended(p.log, Failure(g, p.handlers), g, f);
      OtherKeepsOrder(p, Step(p, Then(g)), f);
    }
  }

  lemma PostOpens(p: Page, c: CallerId, f: nat)
    requires ActsOf(p.log, f) == [] && p.slot.None? && f == |p.flights|
    ensures InOrder(Join(p, c), f)
  {
    OneFlightAppended(p.log, [Post(f)], f, f);
    assert Join(p, c).flights[f] == Posting;
    assert Owed(Join(p, c), f) == [Post(f)];
  }

  lemma PostKeepsOrder(p: Page, c: CallerId, f: nat)
    requires InOrder(p, f) && p.slot.None?
    ensures InOrder(Join(p, c), f)
  {
    if f == |p.flights| {
      PostOpens(p, c, f);
    } else {
      OneFlightAppended(p.log, [Post(|p.flights|)], |p.flights|, f);
      OtherKeepsOrder(p, Join(p, c), f);
    }
  }

  /** Events that add nothing to the log leave a flight as it was or move it on silently. */
  lemma QuietOnFlight(p: Page, e: Event, f: nat)
    requires Added(p, e) == []
    ensures var q := Step(p, e);
      && q.audience == p.audience && |q.flights| == |p.flights|
      && (f < |p.flights| ==>
            || q.flights[f] == p.flights[f]
            || (p.flights[f].Handled? && q.flights[f] == Closed(p.flights[f].result))
            || (!p.flights[f].Handled? && !p.flights[f].Closed?
                && (q.flights[f] == Handled(Fulfilled(true)) || !(q.flights[f].Handled? || q.flights[f].Closed?))))
  {
  }

  lemma QuietKeepsOrder(p: Page, q: Page, f: nat)
    requires InOrder(p, f) && q.log == p.log && q.audience == p.audience && |q.flights| == |p.flights|
    requires f < |p.flights| ==>
            || q.flights[f] == p.flights[f]
            || (p.flights[f].Handled? && q.flights[f] == Closed(p.flights[f].result))
            || (!p.flights[f].Handled? && !p.flights[f].Closed?
                && (q.flights[f] == Handled(Fulfilled(true)) || !(q.flights[f].Handled? || q.flights[f].Closed?)))
    ensures InOrder(q, f)
  {
  }

  lemma JoinKeepsOrder(p: Page, e: Event, f: nat)
    requires InOrder(p, f) && Added(p, e) != [] && !e.Then?
    ensures InOrder(Step(p, e), f)
  {
    var p' := p.(unauthorized := p.unauthorized + 1);
    assert e.Answer? && p'.slot.None?;
    assert Step(p, e) == Join(p', e.caller);
    PostKeepsOrder(p', e.caller, f);
  }

  lemma StepKeepsOrder(p: Page, e: Event, f: nat)
    requires DistinctIds(p.handlers) && InOrder(p, f)
    ensures InOrder(Step(p, e), f)
  {
    if Added(p, e) == [] {
      StepLog(p, e);
      QuietOnFlight(p, e, f);
      QuietKeepsOrder(p, Step(p, e), f);
    } else if e.Then? {
      ThenKeepsOrder(p, e.flight, f);
    } else {
      JoinKeepsOrder(p, e, f);
    }
  }

  lemma {:induction false} HandlersDistinct(token: Option<AccessToken>, es: seq<Event>)
    ensures DistinctIds(Run(Loaded(token), es).handlers)
  {
    if es != [] {
      HandlersDistinct(token, es[..|es| - 1]);
      if es[|es| - 1].Unregister? { WithoutShrinks(Run(Loaded(token), es[..|es| - 1]).handlers, es[|es| - 1].id); }
    }
  }

  lemma {:induction false} RunKeepsAccount(token: Option<AccessToken>, es: seq<Event>, f: nat)
    ensures InOrder(Run(Loaded(token), es), f)
  {
    if es != [] {
      RunKeepsAccount(token, es[..|es| - 1], f);
      HandlersDistinct(token, es[..|es| - 1]);
      StepKeepsOrder(Run(Loaded(token), es[..|es| - 1]), es[|es| - 1], f);
    }
  }

  /** No handler before position i throws. */
  predicate QuietBefore(hs: seq<Handler>, i: int) {
    forall j :: 0 <= j < i && j < |hs| ==> !hs[j].throws
  }

  lemma {:induction false} ReachedPrefix(hs: seq<Handler>)
    ensures |Reached(hs)| <= |hs| && Reached(hs) == hs[..|Reached(hs)|]
    ensures forall i :: 0 <= i < |hs| ==> (i < |Reached(hs)| <==> QuietBefore(hs, i))
  {
    if hs != [] {
      ReachedPrefix(hs[1..]);
      var n := |Reached(hs)|;
      assert hs[..n] == [hs[0]] + hs[1..][..n - 1];
      forall i | 0 < i < |hs| ensures i < n <==> QuietBefore(hs, i) {
        assert QuietBefore(hs, i) <==> !hs[0].throws && QuietBefore(hs[1..], i - 1) by {
          assert forall j :: 0 < j < |hs| ==> hs[j] == hs[1..][j - 1];
        }
      }
    }
  }

  /** A successful refresh, or one still under way, notifies nobody and leaves the token alone. */
  lemma SuccessIsSilent(token: Option<AccessToken>, es: seq<Event>, f: FlightId)
    requires var p := Run(Loaded(token), es);
      f < |p.flights| && (p.flights[f] == Closed(Fulfilled(true)) || !(p.flights[f].Handled? || p.flights[f].Closed?))
    ensures ActsOf(Run(Loaded(token), es).log, f) == [Post(f)]
  {
    RunKeepsAccount(token, es, f);
  }

  lemma FailedActs(p: Page, f: FlightId)
    requires InOrder(p, f) && f < |p.flights| && p.flights[f].Closed? && p.flights[f].result != Fulfilled(true)
    requires f in p.audience
    ensures ActsOf(p.log, f) == [Post(f)] + Failure(f, p.audience[f])
    ensures p.flights[f].result.HandlerThrew? <==> SomeThrows(p.audience[f])
  {
    assert Owed(p, f) == Settled(p, f, p.flights[f].result);
  }

  lemma FailureShape(f: FlightId, hs: seq<Handler>, i: nat)
    requires i < |hs|
    ensures var acts := [Post(f)] + Failure(f, hs);
      && |acts| >= 2 && acts[0] == Post(f) && acts[1] == Clear(f) && |acts| <= 2 + |hs|
      && (forall k :: 2 <= k < |acts| ==> acts[k] == Notify(f, hs[k - 2].id))
      && (i + 2 < |acts| <==> QuietBefore(hs, i))
  {
    ReachedPrefix(hs);
    assert |Notices(f, Reached(hs))| == |Reached(hs)|;
  }

  /** FAILURE ACCOUNTING. A refresh that failed posted once, then cleared the token, then called the
      handlers registered at that moment in order, each at most once; a handler is called exactly
      when none before it throws, so all are exactly when none but the last throws. */
  lemma FailureAccounting(token: Option<AccessToken>, es: seq<Event>, f: FlightId, i: nat)
    requires var p := Run(Loaded(token), es);
      && f < |p.flights| && p.flights[f].Closed? && p.flights[f].result != Fulfilled(true)
      && f in p.audience && i < |p.audience[f]|
    ensures var p := Run(Loaded(token), es);
      var hs, acts := p.audience[f], ActsOf(p.log, f);
      && |acts| >= 2 && acts[0] == Post(f) && acts[1] == Clear(f) && |acts| <= 2 + |hs|
      && (p.flights[f].result.HandlerThrew? <==> SomeThrows(hs))
      && (forall k :: 2 <= k < |acts| ==> acts[k] == Notify(f, hs[k - 2].id))
      && (i + 2 < |acts| <==> QuietBefore(hs, i))
  {
    RunKeepsAccount(token, es, f);
    FailedActs(Run(Loaded(token), es), f);
    FailureShape(f, Run(Loaded(token), es).audience[f], i);
  }

  /** Every failed flight has such an audience. */
  lemma FailureHasAudience(token: Option<AccessToken>, es: seq<Event>, f: FlightId)
    requires var p := Run(Loaded(token), es);
      f < |p.flights| && p.flights[f].Closed? && p.flights[f].result != Fulfilled(true)
    ensures f in Run(Loaded(token), es).audience && DistinctIds(Run(Loaded(token), es).audience[f])
  {
    RunKeepsAccount(token, es, f);
    assert VerdictFits(Run(Loaded(token), es), f);
  }

  /** One more event at the end of a run. */
  lemma Extend(es: seq<Event>, e: Event) returns (es': seq<Event>, p: Page)
    ensures es' == es + [e] && p == Run(Loaded(None), es') == Step(Run(Loaded(None), es), e)
  {
    es' := es + [e];
    p := Run(Loaded(None), es');
    assert es'[..|es|] == es;
  }

  const TWO_HANDLERS := [Handler(0, true), Handler(1, false)]

  const FAILING: seq<Event> :=
    [Register(Handler(0, true)), Register(Handler(1, false)), Call(0, true), Answer(0, Unauthorized),
     RefreshAnswer(0, false)]

  /** Two handlers are there, and the refresh that caller 0 waits for has failed. */
  lemma RefreshFails()
    ensures Run(Loaded(None), FAILING)
         == Page(Some(0), [Decided(false)], map[0 := Joined(0)], None, TWO_HANDLERS, [Post(0)], 1, map[])
  {
    var s1, p1 := Extend([], Register(Handler(0, true)));
    var s2, p2 := Extend(s1, Register(Handler(1, false)));
    assert p2 == Page(None, [], map[], None, TWO_HANDLERS, [], 0, map[]);
    var s3, p3 := Extend(s2, Call(0, true));
    var s4, p4 := Extend(s3, Answer(0, Unauthorized));
    assert p4 == Page(Some(0), [Posting], map[0 := Joined(0)], None, TWO_HANDLERS, [Post(0)], 1, map[]);
    var s5, p5 := Extend(s4, RefreshAnswer(0, false));
    assert s5 == FAILING;
  }

  lemma FirstHandlerThrows(p: Page)
    requires p == Page(Some(0), [Decided(false)], map[0 := Joined(0)], None, TWO_HANDLERS, [Post(0)], 1, map[])
    ensures var q := Step(p, Then(0));
      && q.slot == p.slot && q.flights == [Handled(HandlerThrew)] && q.callers == p.callers
      && q.log == [Post(0), Clear(0), Notify(0, 0)]
  {
    assert Reached(TWO_HANDLERS) == [Handler(0, true)];
    assert Failure(0, TWO_HANDLERS) == [Clear(0), Notify(0, 0)];
    assert TWO_HANDLERS[0].throws;
  }

  /** A handler can miss a failed refresh: the one registered before it throws, and the caller gets
      that exception instead of its second fetch. */
  lemma HandlerSilenced()
    ensures var p := Run(Loaded(None), FAILING + [Then(0), Finally(0), Resume(0)]);
      && p.handlers == TWO_HANDLERS && p.flights == [Closed(HandlerThrew)]
      && p.log == [Post(0), Clear(0), Notify(0, 0)] && Notify(0, 1) !in p.log
      && p.callers == map[0 := Done(1, Some((0, HandlerThrew)))]
  {
    RefreshFails();
    FirstHandlerThrows(Run(Loaded(None), FAILING));
    var s6, p6 := Extend(FAILING, Then(0));
    var s7, p7 := Extend(s6, Finally(0));
    var s8, p8 := Extend(s7, Resume(0));
    assert s8 == FAILING + [Then(0), Finally(0), Resume(0)];
  }

  // ---- Which token the second fetch carries ----

  /** The flight will write the token no more. */
  predicate Settling(fl: Flight) { fl == Decided(true) || fl.Handled? || fl.Closed? }

  /** The call is at its second fetch, after waiting for flight f. */
  predicate Refetches(c: Caller, f: FlightId) { c.Refetching? && c.flight == f }

  ghost predicate Holds(p: Page, f: FlightId, token: Option<AccessToken>) {
    && Shared(p) && f < |p.flights| && Settling(p.flights[f]) && p.token == token
    && (forall g :: 0 <= g < |p.flights| && g != f ==> p.flights[g].Closed?)
    && (forall c :: c in p.callers && Refetches(p.callers[c], f) ==> p.callers[c].sent == token)
  }

  lemma StepHolds(p: Page, e: Event, f: FlightId, token: Option<AccessToken>)
    requires Holds(p, f, token) && !e.SetToken? && |Step(p, e).flights| == |p.flights|
    ensures Holds(Step(p, e), f, token)
  {
    var q := Step(p, e);
    StepKeepsShared(p, e);
    forall c | c in q.callers && Refetches(q.callers[c], f) ensures q.callers[c].sent == token {
      StepOnCaller(p, e, c);
    }
  }

  lemma {:induction false} RunHolds(p: Page, es: seq<Event>, f: FlightId, token: Option<AccessToken>)
    requires Holds(p, f, token) && |Run(p, es).flights| == |p.flights|
    requires forall i :: 0 <= i < |es| ==> !es[i].SetToken?
    ensures Holds(Run(p, es), f, token)
  {
    if es != [] {
      var before := es[..|es| - 1];
      RunKeepsShared(p, before);
      StepKeepsSlot(Run(p, before), es[|es| - 1]);
      RunHolds(p, before, f, token);
      StepHolds(Run(p, before), es[|es| - 1], f, token);
    }
  }

  /** The event is the one that settles what flight f makes of the token: a body with a token in it, or
      the `.then` of a failure. */
  predicate Decides(p: Page, e: Event, f: FlightId) {
    && Enabled(p, e)
    && ((e.RefreshBody? && e.flight == f && e.body.Some?) || (e == Then(f) && !p.flights[f].ok))
  }

  /** What flight f has made of the token then. */
  function Verdict(e: Event): Option<AccessToken> { if e.RefreshBody? then e.body else None }

  lemma DecisionHolds(p: Page, e: Event, f: FlightId)
    requires Shared(p) && Decides(p, e, f)
    ensures Holds(Step(p, e), f, Verdict(e))
  {
    var q := Step(p, e);
    StepKeepsShared(p, e);
    assert forall c :: c in q.callers ==> CallerAgrees(q, q.callers[c]);
  }

  /** From the event that decides a refresh until another refresh starts, every second fetch of those
      who joined it carries the verdict: the token of the body after a success, none after a failure.
      The caller's own login or logout aside. */
  lemma RetryCarriesVerdict(token: Option<AccessToken>, past: seq<Event>, decision: Event, es: seq<Event>,
                            f: FlightId, c: CallerId)
    requires Decides(Run(Loaded(token), past), decision, f)
    requires var p := Run(Loaded(token), past + [decision]); |Run(p, es).flights| == |p.flights|
    requires forall i :: 0 <= i < |es| ==> !es[i].SetToken?
    ensures var q := Run(Run(Loaded(token), past + [decision]), es);
      && q.token == Verdict(decision)
      && (c in q.callers && Refetches(q.callers[c], f) ==> q.callers[c].sent == Verdict(decision))
  {
    assert (past + [decision])[..|past|] == past;
    RunKeepsShared(Loaded(token), past);
    DecisionHolds(Run(Loaded(token), past), decision, f);
    RunHolds(Run(Loaded(token), past + [decision]), es, f, Verdict(decision));
  }

  // ---- The stateful side: the module-level variables of the client ----

  class Client {
    var refreshPromise: Option<FlightId>
    var flights: seq<Flight>
    var callers: map<CallerId, Caller>
    var accessToken: Option<AccessToken>
    var authFailureHandlers: seq<Handler>
    ghost var log: seq<Act>
    ghost var unauthorized: nat
    ghost var audience: map<FlightId, seq<Handler>>

    ghost function State(): Page reads this {
      Page(refreshPromise, flights, callers, accessToken, authFailureHandlers, log, unauthorized, audience)
    }

    constructor (token: Option<AccessToken>)
      ensures State() == Loaded(token)
    {
      refreshPromise, flights, callers, accessToken, authFailureHandlers := None, [], map[], token, [];
      log, unauthorized, audience := [], 0, map[];
    }

    /** Calls the handlers in registration order until one throws. */
    method NotifyAuthFailure(f: FlightId) returns (threw: bool)
      modifies this`log
      ensures log == old(log) + Notices(f, Reached(authFailureHandlers))
      ensures threw <==> SomeThrows(authFailureHandlers)
    {
      ghost var hs := authFailureHandlers;
      threw := false;
      var i := 0;
      ReachedPrefix(hs);
      while i < |authFailureHandlers| && !threw
        invariant 0 <= i <= |hs| && authFailureHandlers == hs
        invariant log == old(log) + Notices(f, hs[..i])
        invariant !threw ==> QuietBefore(hs, i)
        invariant threw ==> i > 0 && hs[i - 1].throws && QuietBefore(hs, i - 1)
      {
        log := log + [Notify(f, authFailureHandlers[i].id)];
        assert Notices(f, hs[..i + 1]) == Notices(f, hs[..i]) + [Notify(f, hs[i].id)];
        threw := authFailureHandlers[i].throws;
        i := i + 1;
      }
      if i > 0 { assert QuietBefore(hs, i - 1); }
      if i < |hs| { assert !QuietBefore(hs, i); }
      assert |Reached(hs)| == i;
    }

    /** Joins the refresh under way or starts one. */
    method RefreshSession(c: CallerId)
      modifies this
      ensures State() == Join(old(State()), c)
    {
      if refreshPromise.None? {
        refreshPromise := Some(|flights|);
        log := log + [Post(|flights|)];
        flights := flights + [Posting];
      }
      callers := callers[c := Joined(refreshPromise.value)];
    }

    /** The `.then` callback. */
    method OnDecided(f: FlightId)
      requires Enabled(State(), Then(f))
      modifies this
      ensures State() == Step(old(State()), Then(f))
    {
      if flights[f].ok {
        flights := flights[f := Handled(Fulfilled(true))];
        return;
      }
      accessToken := None;
      log := log + [Clear(f)];
      ghost var cleared := log;
      var threw := NotifyAuthFailure(f);
      assert log == old(log) + Failure(f, authFailureHandlers);
      audience := audience[f := authFailureHandlers];
      flights := flights[f := Handled(if threw then HandlerThrew else Fulfilled(false))];
    }

    /** The `.finally` callback. */
    method OnSettled(f: FlightId)
      requires Enabled(State(), Finally(f))
      modifies this
      ensures State() == Step(old(State()), Finally(f))
    {
      refreshPromise := None;
      flights := flights[f := Closed(flights[f].result)];
    }

    /** The part of apiRequest after its fetch. */
    method OnAnswer(c: CallerId, r: Reply)
      requires Enabled(State(), Answer(c, r))
      modifies this
      ensures State() == Step(old(State()), Answer(c, r))
    {
      var caller := callers[c];
      if caller.Fetching? && r.Unauthorized? && caller.retry {
        unauthorized := unauthorized + 1;
        RefreshSession(c);
      } else if caller.Fetching? {
        callers := callers[c := Done(1, None)];
      } else {
        callers := callers[c := Done(2, Some((caller.flight, caller.saw)))];
      }
    }

    /** The part of apiRequest after `await refreshSession()`. */
    method OnResume(c: CallerId)
      requires Enabled(State(), Resume(c))
      modifies this
      ensures State() == Step(old(State()), Resume(c))
    {
      var f := callers[c].flight;
      var result := flights[f].result;
      callers := callers[c := if result.HandlerThrew? then Done(1, Some((f, result)))
                              else Refetching(f, result, accessToken)];
    }

    method Unsubscribe(id: HandlerId)
      modifies this`authFailureHandlers
      ensures authFailureHandlers == Without(old(authFailureHandlers), id)
    {
      authFailureHandlers := Without(authFailureHandlers, id);
    }

    method Take(e: Event)
      modifies this
      ensures State() == Step(old(State()), e)
    {
      var enabled := CanTake(e);
      if !enabled { return; }
      match e
      case Call(c, retry) => callers := callers[c := Fetching(retry, accessToken)];
      case Answer(c, r) => OnAnswer(c, r);
      case RefreshAnswer(f, ok) => flights := flights[f := if ok then Reading else Decided(false)];
      case RefreshBody(f, body) =>
        if body.Some? { accessToken := body; }
        flights := flights[f := Decided(body.Some?)];
      case Then(f) => OnDecided(f);
      case Finally(f) => OnSettled(f);
      case Resume(c) => OnResume(c);
      case Register(h) => authFailureHandlers := authFailureHandlers + [h];
      case Unregister(id) => Unsubscribe(id);
      case SetToken(t) => accessToken := t;
    }

    method CanTake(e: Event) returns (yes: bool)
      ensures yes <==> Enabled(State(), e)
    {
      yes := Enabled(Page(refreshPromise, flights, callers, accessToken, authFailureHandlers, [], 0, map[]), e);
    }

    /** Any order of callbacks played on the client goes through exactly the states of Run. */
    method Play(es: seq<Event>)
      modifies this
      ensures State() == Run(old(State()), es)
    {
      for i := 0 to |es|
        invariant State() == Run(old(State()), es[..i])
      {
        assert es[..i + 1][..i] == es[..i];
        Take(es[i]);
      }
      assert es[..|es|] == es;
    }
  }
}
