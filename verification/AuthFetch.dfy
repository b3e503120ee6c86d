/**
 The designer's authenticated fetch: any number of requests interleaved at their awaits over three
 module variables, with one shared refresh, one retry, one login redirect, and shared GETs.
*/
module AuthFetch {
  import opened Wrappers

  datatype Outcome = Response(status: int) | NetworkError

  /** A refresh request on the wire, answered, and its promise resolved with the variable cleared. */
  datatype Refresh = Sent | Answered(ok: bool) | Settled(ok: bool)

  /**
   A `fetchWithAuthRetry` call at its two awaits, or returned; `fetches` counts its requests. It has been retried
   when `after` names the refresh it waited for.
  */
  datatype Call =
    | Fetching(after: Option<nat>, fetches: nat)
    | Waiting(refresh: nat, fetches: nat)
    | Finished(outcome: Outcome, after: Option<nat>, fetches: nat)

  datatype Get = Get(path: string, call: nat, settled: bool)

  /** A caller of `apiGet`, holding the promise of one request. */
  datatype Getter = Getter(path: string, request: nat, result: Option<Outcome>)

  datatype State = State(
    refreshInFlight: Option<nat>,
    redirectingToLogin: bool,
    inFlightGets: map<string, nat>,
    redirects: nat,
    refreshes: seq<Refresh>,
    calls: seq<Call>,
    gets: seq<Get>,
    getters: seq<Getter>)

  datatype Event =
    | Fetch
    | Respond(call: nat, outcome: Outcome)
    | Answer(refresh: nat, ok: bool)
    | Settle(refresh: nat)
    | Resume(call: nat)
    | ApiGet(path: string)
    | SettleGet(get: nat)
    | Deliver(getter: nat)

  const INIT := State(None, false, map[], 0, [], [], [], [])

  const UNAUTHORIZED: Outcome := Response(401)

  // ------------------------------------------------------------------ the steps

  function RedirectToLogin(s: State): State {
    if s.redirectingToLogin then s else s.(redirectingToLogin := true, redirects := s.redirects + 1)
  }

  /** The shared promise, with a request of its own only when there is none. */
  function AttemptSilentRefresh(s: State): (State, nat) {
    if s.refreshInFlight.Some? then (s, s.refreshInFlight.value)
    else (s.(refreshInFlight := Some(|s.refreshes|), refreshes := s.refreshes + [Sent]), |s.refreshes|)
  }

  function OnResponse(s: State, c: nat, outcome: Outcome): State
    requires c < |s.calls| && s.calls[c].Fetching?
  {
    var call := s.calls[c];
    if outcome != UNAUTHORIZED then s.(calls := s.calls[c := Finished(outcome, call.after, call.fetches)])
    else if call.after.Some?
      then RedirectToLogin(s).(calls := s.calls[c := Finished(outcome, call.after, call.fetches)])
    else
      var (t, r) := AttemptSilentRefresh(s);
      t.(calls := s.calls[c := Waiting(r, call.fetches)])
  }

  function OnRefreshed(s: State, c: nat, refreshed: bool): State
    requires c < |s.calls| && s.calls[c].Waiting?
  {
    var call := s.calls[c];
    if refreshed then s.(calls := s.calls[c := Fetching(Some(call.refresh), call.fetches + 1)])
    else RedirectToLogin(s).(calls := s.calls[c := Finished(UNAUTHORIZED, None, call.fetches)])
  }

  function OnApiGet(s: State, path: string): State {
    if path in s.inFlightGets then s.(getters := s.getters + [Getter(path, s.inFlightGets[path], None)])
    else s.(calls := s.calls + [Fetching(None, 1)],
            gets := s.gets + [Get(path, |s.calls|, false)],
            inFlightGets := s.inFlightGets[path := |s.gets|],
            getters := s.getters + [Getter(path, |s.gets|, None)])
  }

  predicate Enabled(s: State, e: Event) {
    match e
    case Fetch => true
    case Respond(c, _) => c < |s.calls| && s.calls[c].Fetching?
    case Answer(r, _) => r < |s.refreshes| && s.refreshes[r].Sent?
    case Settle(r) => r < |s.refreshes| && s.refreshes[r].Answered?
    case Resume(c) => c < |s.calls| && s.calls[c].Waiting? && s.calls[c].refresh < |s.refreshes|
      && s.refreshes[s.calls[c].refresh].Settled?
    case ApiGet(_) => true
    case SettleGet(g) => g < |s.gets| && !s.gets[g].settled && s.gets[g].call < |s.calls|
      && s.calls[s.gets[g].call].Finished?
    case Deliver(j) => j < |s.getters| && s.getters[j].result.None? && s.getters[j].request < |s.gets|
                       && s.gets[s.getters[j].request].settled && s.gets[s.getters[j].request].call < |s.calls|
                       && s.calls[s.gets[s.getters[j].request].call].Finished?
  }

  /** An event that cannot happen changes nothing. */
  function Step(s: State, e: Event): State {
    if !Enabled(s, e) then s else
      match e
      case Fetch => s.(calls := s.calls + [Fetching(None, 1)])
      case Respond(c, outcome) => OnResponse(s, c, outcome)
      case Answer(r, ok) => s.(refreshes := s.refreshes[r := Answered(ok)])
      case Settle(r) => s.(refreshes := s.refreshes[r := Settled(s.refreshes[r].ok)], refreshInFlight := None)
      case Resume(c) => OnRefreshed(s, c, s.refreshes[s.calls[c].refresh].ok)
      case ApiGet(path) => OnApiGet(s, path)
      case SettleGet(g) => s.(gets := s.gets[g := s.gets[g].(settled := true)],
        inFlightGets := s.inFlightGets - {s.gets[g].path})
      case Deliver(j) =>
        s.(getters := s.getters[j := s.getters[j].(result := Some(s.calls[s.gets[s.getters[j].request].call].outcome))])
  }

  function Run(s: State, events: seq<Event>): State {
    if events == [] then s else Step(Run(s, events[..|events| - 1]), events[|events| - 1])
  }

  // ------------------------------------------------------------------ what every step keeps

  /** Whoever is unsettled is the one in the variable. */
  predicate OneRefresh(s: State) {
    && (forall r | 0 <= r < |s.refreshes| :: !s.refreshes[r].Settled? ==> s.refreshInFlight == Some(r))
    && (s.refreshInFlight.Some? ==>
           s.refreshInFlight.value < |s.refreshes| && !s.refreshes[s.refreshInFlight.value].Settled?)
  }

  /** The refresh a retried call waited for is the one that worked. */
  predicate Worked(s: State, after: Option<nat>) {
    after.Some? ==> after.value < |s.refreshes| && s.refreshes[after.value] == Settled(true)
  }

  predicate CallOk(s: State, call: Call) {
    match call
    case Fetching(after, n) => n == (if after.Some? then 2 else 1) && Worked(s, after)
    case Waiting(r, n) => n == 1 && r < |s.refreshes|
    case Finished(outcome, after, n) =>
      n == (if after.Some? then 2 else 1) && Worked(s, after) && (outcome == UNAUTHORIZED ==> s.redirectingToLogin)
  }

  predicate CallsOk(s: State) { forall c | 0 <= c < |s.calls| :: CallOk(s, s.calls[c]) }

  predicate OneRedirect(s: State) { s.redirects == if s.redirectingToLogin then 1 else 0 }

  predicate GetsOk(s: State) {
    && (forall g | 0 <= g < |s.gets| :: GetOk(s, g))
    && forall p | p in s.inFlightGets ::
           s.inFlightGets[p] < |s.gets| && s.gets[s.inFlightGets[p]].path == p && !s.gets[s.inFlightGets[p]].settled
  }

  predicate GetOk(s: State, g: nat)
    requires g < |s.gets|
  {
    && s.gets[g].call < |s.calls|
    && if s.gets[g].settled then s.calls[s.gets[g].call].Finished?
       else s.gets[g].path in s.inFlightGets && s.inFlightGets[s.gets[g].path] == g
  }

  predicate GetterOk(s: State, getter: Getter) {
    && getter.request < |s.gets| && s.gets[getter.request].path == getter.path
    && (getter.result.Some? ==>
          && s.gets[getter.request].settled && s.gets[getter.request].call < |s.calls|
          && s.calls[s.gets[getter.request].call].Finished?
          && getter.result == Some(s.calls[s.gets[getter.request].call].outcome))
  }

  predicate GettersOk(s: State) { forall j | 0 <= j < |s.getters| :: GetterOk(s, s.getters[j]) }

  predicate Inv(s: State) { OneRefresh(s) && CallsOk(s) && OneRedirect(s) && GetsOk(s) && GettersOk(s) }

  /** What was finished or settled stays so, and nothing is forgotten. */
  predicate Later(s: State, t: State) {
    && |s.calls| <= |t.calls| && |s.refreshes| <= |t.refreshes| && |s.gets| <= |t.gets|
    && (forall c | 0 <= c < |s.calls| && s.calls[c].Finished? :: t.calls[c] == s.calls[c])
    && (forall r | 0 <= r < |s.refreshes| && s.refreshes[r].Settled? :: t.refreshes[r] == s.refreshes[r])
    && (s.redirectingToLogin ==> t.redirectingToLogin)
  }

  lemma StepIsLater(s: State, e: Event)
    ensures Later(s, Step(s, e))
  {
  }

  lemma CallOkLater(s: State, t: State, call: Call)
    requires Later(s, t) && CallOk(s, call)
    ensures CallOk(t, call)
  {
  }

  lemma RefreshStep(s: State, e: Event)
    requires OneRefresh(s)
    ensures OneRefresh(Step(s, e))
  {
  }

  lemma RedirectStep(s: State, e: Event)
    requires OneRedirect(s)
    ensures OneRedirect(Step(s, e))
  {
  }

  lemma CallsStep(s: State, e: Event)
    requires CallsOk(s) && OneRefresh(s)
    ensures CallsOk(Step(s, e))
  {
    hide CallOk;
    var t := Step(s, e);
    StepIsLater(s, e);
    forall c | 0 <= c < |t.calls| ensures CallOk(t, t.calls[c]) {
      if c < |s.calls| && t.calls[c] == s.calls[c] {
        CallOkLater(s, t, s.calls[c]);
      } else {
        ChangedCall(s, e, c);
      }
    }
  }

  lemma ChangedCall(s: State, e: Event, c: nat)
    requires CallsOk(s) && OneRefresh(s) && c < |Step(s, e).calls|
    requires c < |s.calls| ==> Step(s, e).calls[c] != s.calls[c]
    ensures CallOk(Step(s, e), Step(s, e).calls[c])
  {
    if e.Resume? {
      var r := s.calls[e.call].refresh;
      if s.refreshes[r].ok { assert s.refreshes[r] == Settled(true); }
    }
  }

  /** No other event touches the GETs. */
  lemma GetsLater(s: State, t: State)
    requires GetsOk(s) && Later(s, t) && t.gets == s.gets && t.inFlightGets == s.inFlightGets
    ensures GetsOk(t)
  {
    forall g | 0 <= g < |t.gets| ensures GetOk(t, g) { assert GetOk(s, g); }
  }

  lemma GetsSettle(s: State, g: nat)
    requires GetsOk(s) && Enabled(s, SettleGet(g))
    ensures GetsOk(Step(s, SettleGet(g)))
  {
    var t := Step(s, SettleGet(g));
    assert GetOk(s, g);
    forall h | 0 <= h < |t.gets| ensures GetOk(t, h) { assert GetOk(s, h); }
  }

  lemma GetsApi(s: State, path: string)
    requires GetsOk(s)
    ensures GetsOk(OnApiGet(s, path))
  {
    var t := OnApiGet(s, path);
    forall h | 0 <= h < |t.gets| ensures GetOk(t, h) { if h < |s.gets| { assert GetOk(s, h); } }
  }

  lemma GetsStep(s: State, e: Event)
    requires GetsOk(s)
    ensures GetsOk(Step(s, e))
  {
    hide GetsOk;
    StepIsLater(s, e);
    if e.ApiGet? {
      GetsApi(s, e.path);
    } else if e.SettleGet? && Enabled(s, e) {
      GetsSettle(s, e.get);
    } else {
      GetsLater(s, Step(s, e));
    }
  }

  predicate GetsKept(s: State, t: State) {
    |s.gets| <= |t.gets| && forall g | 0 <= g < |s.gets| ::
      t.gets[g].path == s.gets[g].path && t.gets[g].call == s.gets[g].call && (s.gets[g].settled ==> t.gets[g].settled)
  }

  lemma StepKeepsGets(s: State, e: Event)
    ensures GetsKept(s, Step(s, e))
  {
  }

  lemma GetterLater(s: State, t: State, getter: Getter)
    requires GetterOk(s, getter) && Later(s, t) && GetsKept(s, t)
    ensures GetterOk(t, getter)
  {
  }

  lemma GettersStep(s: State, e: Event)
    requires GetsOk(s) && GettersOk(s)
    ensures GettersOk(Step(s, e))
  {
    hide Later, GetsKept;
    var t := Step(s, e);
    StepIsLater(s, e);
    StepKeepsGets(s, e);
    forall j | 0 <= j < |t.getters| ensures GetterOk(t, t.getters[j]) {
      if j < |s.getters| && t.getters[j] == s.getters[j] {
        GetterLater(s, t, s.getters[j]);
      } else if j < |s.getters| {
        assert GetterOk(s, s.getters[j]);
      }
    }
  }

  lemma {:induction false} EveryRunKeepsInv(events: seq<Event>)
    ensures Inv(Run(INIT, events))
  {
    hide OneRefresh, CallsOk, OneRedirect, GetsOk, GettersOk, Step;
    if events == [] {
      InitInv();
    } else {
      var s, e := Run(INIT, events[..|events| - 1]), events[|events| - 1];
      EveryRunKeepsInv(events[..|events| - 1]);
      RefreshStep(s, e);
      CallsStep(s, e);
      RedirectStep(s, e);
      GetsStep(s, e);
      GettersStep(s, e);
    }
  }

  lemma InitInv()
    ensures Inv(INIT)
  {
  }

  // ------------------------------------------------------------------ the promises of the module

  /** Never two refresh requests on the wire. */
  lemma OneRefreshInFlight(events: seq<Event>, i: nat, j: nat)
    requires var s := Run(INIT, events);
             i < |s.refreshes| && j < |s.refreshes| && s.refreshes[i].Sent? && s.refreshes[j].Sent?
    ensures i == j
  {
    EveryRunKeepsInv(events);
  }

  /** A call requests its path at most twice, and a second time only after the refresh it waited for has worked. */
  lemma AtMostTwoFetches(events: seq<Event>, c: nat)
    requires c < |Run(INIT, events).calls|
    ensures var s := Run(INIT, events);
            && 1 <= s.calls[c].fetches <= 2
            && (!s.calls[c].Waiting? ==>
                   (s.calls[c].fetches == 2 <==> s.calls[c].after.Some?) && Worked(s, s.calls[c].after))
            && (s.calls[c].Waiting? ==> s.calls[c].fetches == 1)
  {
    EveryRunKeepsInv(events);
    var s := Run(INIT, events);
    assert CallOk(s, s.calls[c]);
  }

  /** The step that makes the second request is the call's own resumption from that refresh. */
  lemma SecondFetchFollowsOwnRefresh(s: State, e: Event, c: nat)
    requires c < |s.calls| && CallsOk(s) && Step(s, e).calls[c].fetches > s.calls[c].fetches
    ensures e == Resume(c) && s.calls[c].Waiting? && s.calls[c].refresh < |s.refreshes|
    ensures s.refreshes[s.calls[c].refresh] == Settled(true)
    ensures Step(s, e).calls[c] == Fetching(Some(s.calls[c].refresh), 2)
  {
    assert CallOk(s, s.calls[c]);
  }

  /** The page is redirected at most once, and a caller sees a 401 only after that. */
  lemma RedirectBeforeAnyUnauthorized(events: seq<Event>, c: nat)
    ensures Run(INIT, events).redirects <= 1
    ensures var s := Run(INIT, events);
            c < |s.calls| && s.calls[c].Finished? && s.calls[c].outcome == UNAUTHORIZED ==> s.redirects == 1
  {
    EveryRunKeepsInv(events);
    var s := Run(INIT, events);
    assert c < |s.calls| ==> CallOk(s, s.calls[c]);
  }

  /** At most one GET of a path is unsettled, and its every caller gets the outcome of the request it joined. */
  lemma OneGetPerPath(events: seq<Event>, g: nat, h: nat)
    requires var s := Run(INIT, events);
             g < |s.gets| && h < |s.gets| && s.gets[g].path == s.gets[h].path && !s.gets[g].settled
               && !s.gets[h].settled
    ensures g == h
  {
    EveryRunKeepsInv(events);
    var s := Run(INIT, events);
    assert GetOk(s, g) && GetOk(s, h);
  }

  lemma JoinedCallersShareOneResult(events: seq<Event>, i: nat, j: nat)
    requires var s := Run(INIT, events);
             i < |s.getters| && j < |s.getters| && s.getters[i].request == s.getters[j].request
             && s.getters[i].result.Some? && s.getters[j].result.Some?
    ensures var s := Run(INIT, events);
            s.getters[i].path == s.getters[j].path && s.getters[i].result == s.getters[j].result
  {
    EveryRunKeepsInv(events);
    var s := Run(INIT, events);
    assert GetterOk(s, s.getters[i]) && GetterOk(s, s.getters[j]);
  }

  // ------------------------------------------------------------------ every call can return

  /** How many events of its own a call has left at most. */
  function Rank(s: State, c: nat): nat
    requires c < |s.calls| && CallOk(s, s.calls[c])
  {
    match s.calls[c]
    case Fetching(None, _) => 5
    case Waiting(r, _) => if s.refreshes[r].Sent? then 4 else if s.refreshes[r].Answered? then 3 else 2
    case Fetching(Some(_), _) => 1
    case Finished(_, _, _) => 0
  }

  /** The event is the next one of this call, whatever it answers. */
  predicate Moves(s: State, e: Event, c: nat)
    requires c < |s.calls| && CallOk(s, s.calls[c])
  {
    Enabled(s, e) &&
    match e
    case Respond(d, _) => d == c
    case Answer(r, _) => s.calls[c].Waiting? && s.calls[c].refresh == r
    case Settle(r) => s.calls[c].Waiting? && s.calls[c].refresh == r
    case Resume(d) => d == c
    case _ => false
  }

  lemma RefreshRanksFall(s: State, e: Event, r: nat)
    requires r < |s.refreshes|
    ensures r < |Step(s, e).refreshes|
    ensures !s.refreshes[r].Sent? ==> !Step(s, e).refreshes[r].Sent?
    ensures s.refreshes[r].Settled? ==> Step(s, e).refreshes[r].Settled?
  {
  }

  /** No event of the page, be it another call's, sets a call back. */
  lemma RankNeverRises(s: State, e: Event, c: nat)
    requires c < |s.calls| && OneRefresh(s) && CallsOk(s)
    ensures c < |Step(s, e).calls| && CallOk(s, s.calls[c]) && CallOk(Step(s, e), Step(s, e).calls[c])
    ensures Rank(Step(s, e), c) <= Rank(s, c)
  {
    CallsStep(s, e);
    StepIsLater(s, e);
    assert CallOk(s, s.calls[c]) && CallOk(Step(s, e), Step(s, e).calls[c]);
    if s.calls[c].Waiting? { RefreshRanksFall(s, e, s.calls[c].refresh); }
  }

  /** Each event of its own brings a call nearer to its return, whatever the server answers. */
  lemma EveryMoveIsProgress(s: State, e: Event, c: nat)
    requires c < |s.calls| && OneRefresh(s) && CallsOk(s) && CallOk(s, s.calls[c]) && Moves(s, e, c)
    ensures c < |Step(s, e).calls| && CallOk(Step(s, e), Step(s, e).calls[c]) && Rank(Step(s, e), c) < Rank(s, c)
  {
    RankNeverRises(s, e, c);
  }

  function Next(s: State, c: nat): Event
    requires c < |s.calls| && CallOk(s, s.calls[c])
  {
    match s.calls[c]
    case Fetching(_, _) => Respond(c, NetworkError)
    case Waiting(r, _) =>
      if s.refreshes[r].Sent? then Answer(r, false)
      else if s.refreshes[r].Answered? then Settle(r)
      else Resume(c)
    case Finished(_, _, _) => Fetch
  }

  /** No interleaving leaves a call stuck: until it returns, an event of its own can happen. */
  lemma NoCallIsStuck(s: State, c: nat)
    requires c < |s.calls| && CallOk(s, s.calls[c]) && !s.calls[c].Finished?
    ensures Moves(s, Next(s, c), c)
  {
  }

  /** From every reachable state at most five more events bring a call to its return. */
  lemma {:induction false} EveryCallCanReturn(events: seq<Event>, c: nat) returns (more: seq<Event>)
    requires c < |Run(INIT, events).calls|
    ensures CallOk(Run(INIT, events), Run(INIT, events).calls[c])
    ensures |more| <= Rank(Run(INIT, events), c) <= 5
    ensures c < |Run(INIT, events + more).calls| && Run(INIT, events + more).calls[c].Finished?
    decreases if c < |Run(INIT, events).calls| && CallOk(Run(INIT, events), Run(INIT, events).calls[c])
              then Rank(Run(INIT, events), c) else 0
  {
    hide Step, CallOk, Moves, Next, Rank;
    EveryRunKeepsInv(events);
    var s := Run(INIT, events);
    assert CallOk(s, s.calls[c]);
    if s.calls[c].Finished? {
      more := [];
      RankIsSmall(s, c);
      assert events + more == events;
    } else {
      var e := Next(s, c);
      NoCallIsStuck(s, c);
      EveryMoveIsProgress(s, e, c);
      RankIsSmall(s, c);
      assert (events + [e])[..|events|] == events;
      assert Run(INIT, events + [e]) == Step(s, e);
      var rest := EveryCallCanReturn(events + [e], c);
      more := [e] + rest;
      assert events + [e] + rest == events + more;
    }
  }

  lemma RankIsSmall(s: State, c: nat)
    requires c < |s.calls| && CallOk(s, s.calls[c])
    ensures Rank(s, c) <= 5
  {
  }

  // ------------------------------------------------------------------ the module variables

  /** The module with its three variables, and the requests that the browser keeps for it. */
  class Api {
    var refreshInFlight: Option<nat>
    var redirectingToLogin: bool
    var inFlightGets: map<string, nat>
    var redirects: nat
    var refreshes: seq<Refresh>
    var calls: seq<Call>
    var gets: seq<Get>
    var getters: seq<Getter>

    ghost function View(): State
      reads this
    {
      State(refreshInFlight, redirectingToLogin, inFlightGets, redirects, refreshes, calls, gets, getters)
    }

    constructor ()
      ensures View() == INIT
    {
      refreshInFlight, redirectingToLogin, inFlightGets, redirects := None, false, map[], 0;
      refreshes, calls, gets, getters := [], [], [], [];
    }

    method AttemptRefresh() returns (promise: nat)
      modifies this
      ensures (View(), promise) == AttemptSilentRefresh(old(View()))
    {
      if refreshInFlight.None? {
        refreshInFlight := Some(|refreshes|);
        refreshes := refreshes + [Sent];
      }
      promise := refreshInFlight.value;
    }

    method RedirectAfterFailedRefresh()
      modifies this
      ensures View() == RedirectToLogin(old(View()))
    {
      if redirectingToLogin { return; }
      redirectingToLogin := true;
      redirects := redirects + 1;
    }

    method HandleResponse(c: nat, outcome: Outcome)
      requires c < |calls| && calls[c].Fetching?
      modifies this
      ensures View() == OnResponse(old(View()), c, outcome)
    {
      var call := calls[c];
      if outcome != UNAUTHORIZED {
        calls := calls[c := Finished(outcome, call.after, call.fetches)];
      } else if call.after.Some? {
        RedirectAfterFailedRefresh();
        calls := calls[c := Finished(outcome, call.after, call.fetches)];
      } else {
        var promise := AttemptRefresh();
        calls := calls[c := Waiting(promise, call.fetches)];
      }
    }

    method HandleRefreshed(c: nat, refreshed: bool)
      requires c < |calls| && calls[c].Waiting?
      modifies this
      ensures View() == OnRefreshed(old(View()), c, refreshed)
    {
      var call := calls[c];
      if refreshed {
        calls := calls[c := Fetching(Some(call.refresh), call.fetches + 1)];
      } else {
        RedirectAfterFailedRefresh();
        calls := calls[c := Finished(UNAUTHORIZED, None, call.fetches)];
      }
    }

    method GetPath(path: string)
      modifies this
      ensures View() == OnApiGet(old(View()), path)
    {
      if path in inFlightGets {
        getters := getters + [Getter(path, inFlightGets[path], None)];
        return;
      }
      var request := |gets|;
      gets := gets + [Get(path, |calls|, false)];
      calls := calls + [Fetching(None, 1)];
      inFlightGets := inFlightGets[path := request];
      getters := getters + [Getter(path, request, None)];
    }

    /** The next event of the page, whichever it is. */
    method Dispatch(e: Event)
      modifies this
      ensures View() == Step(old(View()), e)
    {
      match e {
        case Fetch => calls := calls + [Fetching(None, 1)];
        case Respond(c, outcome) => if c < |calls| && calls[c].Fetching? { HandleResponse(c, outcome); }
        case Answer(r, ok) => if r < |refreshes| && refreshes[r].Sent? { refreshes := refreshes[r := Answered(ok)]; }
        case Settle(r) =>
          if r < |refreshes| && refreshes[r].Answered? {
            refreshes := refreshes[r := Settled(refreshes[r].ok)];
            refreshInFlight := None;
          }
        case Resume(c) =>
          if c < |calls| && calls[c].Waiting? && calls[c].refresh < |refreshes|
            && refreshes[calls[c].refresh].Settled? {
            HandleRefreshed(c, refreshes[calls[c].refresh].ok);
          }
        case ApiGet(path) => GetPath(path);
        case SettleGet(g) =>
          if g < |gets| && !gets[g].settled && gets[g].call < |calls| && calls[gets[g].call].Finished? {
            inFlightGets := inFlightGets - {gets[g].path};
            gets := gets[g := gets[g].(settled := true)];
          }
        case Deliver(j) =>
          if j < |getters| && getters[j].result.None? && getters[j].request < |gets| {
            var get := gets[getters[j].request];
            if get.settled && get.call < |calls| && calls[get.call].Finished? {
              getters := getters[j := getters[j].(result := Some(calls[get.call].outcome))];
            }
          }
      }
    }

    /** A page from its load on: every event keeps the invariant. */
    method Live(events: seq<Event>)
      requires View() == INIT
      modifies this
      ensures View() == Run(INIT, events) && Inv(View())
    {
      for i := 0 to |events|
        invariant View() == Run(INIT, events[..i])
      {
        assert events[..i + 1][..i] == events[..i];
        Dispatch(events[i]);
      }
      assert events[..|events|] == events;
      EveryRunKeepsInv(events);
    }
  }
}
