/**
 What a caller of the authenticated fetch is handed, told from the events alone: the answers the network gave
 its requests and the refresh it waited for.
*/
module AuthHistory {
  import opened Wrappers
  import opened AuthFetch

  // ------------------------------------------------------------------ what the network said

  /** The event answers a request of this call. */
  predicate Answers(s: State, e: Event, c: nat) {
    e.Respond? && e.call == c && c < |s.calls| && s.calls[c].Fetching?
  }

  /** The event resumes this call. */
  predicate Resumes(s: State, e: Event, c: nat) {
    && e.Resume? && e.call == c && c < |s.calls| && s.calls[c].Waiting? && s.calls[c].refresh < |s.refreshes|
    && s.refreshes[s.calls[c].refresh].Settled?
  }

  /** The answers to the requests of call `c`, in order. */
  function Responses(events: seq<Event>, c: nat): seq<Outcome> {
    if events == [] then []
    else
      var before, e := events[..|events| - 1], events[|events| - 1];
      Responses(before, c)
      + if Answers(Run(INIT, before), e, c) then [e.outcome] else []
  }

  /** The answer to refresh `r`, if it came. */
  function Verdict(events: seq<Event>, r: nat): Option<bool> {
    if events == [] then None
    else
      var before, e := events[..|events| - 1], events[|events| - 1];
      var refreshes := Run(INIT, before).refreshes;
      if e.Answer? && e.refresh == r && r < |refreshes| && refreshes[r].Sent? then Some(e.ok) else Verdict(before, r)
  }

  /** What call `c` found when the refresh it waited for was over, if it was resumed. */
  function Resumed(events: seq<Event>, c: nat): Option<bool> {
    if events == [] then None
    else
      var before, e := events[..|events| - 1], events[|events| - 1];
      var s := Run(INIT, before);
      if Resumes(s, e, c) then Verdict(before, s.calls[c].refresh) else Resumed(before, c)
  }

  // ------------------------------------------------------------------ where that leaves a call

  /**
   Without an answer the call is at its first request. Any answer but a 401 is handed on at once; a 401 makes it
   wait. A refresh that worked makes it ask again, and it hands on whatever the second answer is; one that failed
   makes it hand on the 401.
  */
  predicate Tells(call: Call, answers: seq<Outcome>, refreshed: Option<bool>) {
    match call
    case Fetching(None, n) => answers == [] && refreshed == None && n == 1
    case Waiting(_, n) => answers == [Response(401)] && refreshed == None && n == 1
    case Fetching(Some(_), n) => answers == [Response(401)] && refreshed == Some(true) && n == 2
    case Finished(outcome, None, n) =>
      && n == 1 && answers == [outcome]
      && refreshed == if outcome == Response(401) then Some(false) else None
    case Finished(outcome, Some(_), n) => answers == [Response(401), outcome] && refreshed == Some(true) && n == 2
  }

  predicate RefreshTells(refresh: Refresh, verdict: Option<bool>) {
    match refresh
    case Sent => verdict == None
    case Answered(ok) => verdict == Some(ok)
    case Settled(ok) => verdict == Some(ok)
  }

  ghost predicate AllTold(events: seq<Event>) {
    var s := Run(INIT, events);
    && (forall c: nat | c < |s.calls| :: Tells(s.calls[c], Responses(events, c), Resumed(events, c)))
    && (forall c: nat | c >= |s.calls| :: Responses(events, c) == [] && Resumed(events, c) == None)
    && (forall r: nat | r < |s.refreshes| :: RefreshTells(s.refreshes[r], Verdict(events, r)))
    && (forall r: nat | r >= |s.refreshes| :: Verdict(events, r) == None)
  }

  lemma RefreshesTell(events: seq<Event>, r: nat)
    requires events != [] && AllTold(events[..|events| - 1])
    ensures var refreshes := Run(INIT, events).refreshes;
            if r < |refreshes| then RefreshTells(refreshes[r], Verdict(events, r)) else Verdict(events, r) == None
  {
    hide Tells, Responses, Resumed;
    var s, t := Run(INIT, events[..|events| - 1]), Run(INIT, events);
    assert r < |s.refreshes| ==> RefreshTells(s.refreshes[r], Verdict(events[..|events| - 1], r));
  }

  lemma CallAfter(s: State, e: Event, c: nat)
    ensures !Answers(s, e, c) && !Resumes(s, e, c) && c < |s.calls| ==> Step(s, e).calls[c] == s.calls[c]
    ensures |s.calls| <= c < |Step(s, e).calls| ==> Step(s, e).calls[c] == Fetching(None, 1)
    ensures |s.calls| <= |Step(s, e).calls|
    ensures Answers(s, e, c) && e.outcome != Response(401) ==>
              Step(s, e).calls[c] == Finished(e.outcome, s.calls[c].after, s.calls[c].fetches)
    ensures Answers(s, e, c) && e.outcome == Response(401) ==>
              if s.calls[c].after.Some?
              then Step(s, e).calls[c] == Finished(Response(401), s.calls[c].after, s.calls[c].fetches)
              else Step(s, e).calls[c].Waiting? && Step(s, e).calls[c].fetches == s.calls[c].fetches
    ensures Resumes(s, e, c) ==>
              Step(s, e).calls[c] == if s.refreshes[s.calls[c].refresh].ok
                                     then Fetching(Some(s.calls[c].refresh), s.calls[c].fetches + 1)
                                     else Finished(Response(401), None, s.calls[c].fetches)
  {
  }

  lemma CallTells(events: seq<Event>, c: nat)
    requires events != [] && AllTold(events[..|events| - 1])
    ensures var calls := Run(INIT, events).calls;
            if c < |calls| then Tells(calls[c], Responses(events, c), Resumed(events, c))
            else Responses(events, c) == [] && Resumed(events, c) == None
  {
    hide Verdict, Step, RefreshTells;
    var before, e := events[..|events| - 1], events[|events| - 1];
    var s := Run(INIT, before);
    CallAfter(s, e, c);
    if c < |s.calls| { assert Tells(s.calls[c], Responses(before, c), Resumed(before, c)); }
    if Resumes(s, e, c) { VerdictTold(before, s.calls[c].refresh); }
  }

  lemma VerdictTold(events: seq<Event>, r: nat)
    requires AllTold(events) && r < |Run(INIT, events).refreshes| && Run(INIT, events).refreshes[r].Settled?
    ensures Verdict(events, r) == Some(Run(INIT, events).refreshes[r].ok)
  {
    hide Verdict, Tells, Run;
    assert RefreshTells(Run(INIT, events).refreshes[r], Verdict(events, r));
  }

  lemma {:induction false} EveryRunTells(events: seq<Event>)
    ensures AllTold(events)
  {
    if events != [] {
      var before, e := events[..|events| - 1], events[|events| - 1];
      EveryRunTells(before);
      forall r: nat
        ensures var refreshes := Run(INIT, events).refreshes;
                if r < |refreshes| then RefreshTells(refreshes[r], Verdict(events, r)) else Verdict(events, r) == None
      {
        RefreshesTell(events, r);
      }
      forall c: nat
        ensures var calls := Run(INIT, events).calls;
                if c < |calls| then Tells(calls[c], Responses(events, c), Resumed(events, c))
                else Responses(events, c) == [] && Resumed(events, c) == None
      {
        CallTells(events, c);
      }
    }
  }

  // ------------------------------------------------------------------ what a caller is handed

  /**
   In every interleaving: a call has returned exactly when its last answer is no 401, or it is the second, or the
   refresh it waited for failed; and it returned its last answer. After a first 401 it waits, and a refresh that
   worked makes it ask again.
  */
  lemma CallHistory(events: seq<Event>, c: nat)
    requires c < |Run(INIT, events).calls|
    ensures var call, answers, refreshed := Run(INIT, events).calls[c], Responses(events, c), Resumed(events, c);
            && (call == Fetching(None, 1) <==> answers == [])
            && (call.Waiting? <==> answers == [Response(401)] && refreshed == None)
            && (call.Fetching? && call.after.Some? <==> answers == [Response(401)] && refreshed == Some(true))
            && (call.Finished? <==>
                && answers != []
                && (answers[|answers| - 1] != Response(401) || |answers| == 2 || refreshed == Some(false)))
            && (call.Finished? ==> call.outcome == answers[|answers| - 1])
            && |answers| <= 2 && (|answers| == 2 ==> answers[0] == Response(401) && refreshed == Some(true))
  {
    hide Responses, Resumed, Run;
    EveryRunTells(events);
    assert Tells(Run(INIT, events).calls[c], Responses(events, c), Resumed(events, c));
  }

  /** A refresh is over with the verdict the network gave. */
  lemma RefreshHistory(events: seq<Event>, r: nat)
    requires r < |Run(INIT, events).refreshes|
    ensures var refresh := Run(INIT, events).refreshes[r];
            && (refresh.Sent? <==> Verdict(events, r) == None)
            && (!refresh.Sent? ==> Verdict(events, r) == Some(refresh.ok))
  {
    hide Verdict, Run;
    EveryRunTells(events);
    assert RefreshTells(Run(INIT, events).refreshes[r], Verdict(events, r));
  }

  /** A caller of `apiGet` is handed the last answer to the request it holds, and only once that has returned. */
  lemma GetterHistory(events: seq<Event>, j: nat)
    requires j < |Run(INIT, events).getters| && Run(INIT, events).getters[j].result.Some?
    ensures var s := Run(INIT, events);
            var g := s.getters[j].request;
            && g < |s.gets| && s.gets[g].path == s.getters[j].path && s.gets[g].call < |s.calls|
            && var answers := Responses(events, s.gets[g].call);
               answers != [] && s.getters[j].result == Some(answers[|answers| - 1]) && s.calls[s.gets[g].call].Finished?
  {
    hide Responses, Resumed, Run;
    var s := Run(INIT, events);
    EveryRunKeepsInv(events);
    assert GetterOk(s, s.getters[j]);
    CallHistory(events, s.gets[s.getters[j].request].call);
  }

  // ------------------------------------------------------------------ what one event does

  /** A first 401 makes the call wait for the refresh in flight, or for one that it sends; it redirects nobody. */
  lemma UnauthorizedWaits(s: State, c: nat, n: nat)
    requires c < |s.calls| && s.calls[c] == Fetching(None, n)
    ensures Step(s, Respond(c, Response(401))) ==
            match s.refreshInFlight
            case Some(r) => s.(calls := s.calls[c := Waiting(r, n)])
            case None => s.(calls := s.calls[c := Waiting(|s.refreshes|, n)], refreshInFlight := Some(|s.refreshes|),
                            refreshes := s.refreshes + [Sent])
  {
  }

  /** The page is sent to the login exactly by the first call that is refused again or whose refresh failed. */
  lemma RedirectsExactlyWhen(s: State, e: Event)
    ensures Step(s, e).redirects == s.redirects + 1 <==>
            && !s.redirectingToLogin
            && ((e.Respond? && e.call < |s.calls| && s.calls[e.call].Fetching? && s.calls[e.call].after.Some?
                 && e.outcome == Response(401))
                || (e.Resume? && e.call < |s.calls| && s.calls[e.call].Waiting?
                    && s.calls[e.call].refresh < |s.refreshes|
                    && s.refreshes[s.calls[e.call].refresh] == Settled(false)))
    ensures Step(s, e).redirects != s.redirects + 1 ==> Step(s, e).redirects == s.redirects
    ensures Step(s, e).redirectingToLogin <==> s.redirectingToLogin || Step(s, e).redirects == s.redirects + 1
  {
  }

  /** A fetch starts a call. A GET joins the one of its path that is under way, and otherwise starts a call too. */
  lemma GetStartsOrJoins(s: State, path: string)
    ensures Step(s, Fetch) == s.(calls := s.calls + [Fetching(None, 1)])
    ensures Step(s, ApiGet(path)) ==
            if path in s.inFlightGets then s.(getters := s.getters + [Getter(path, s.inFlightGets[path], None)])
            else s.(calls := s.calls + [Fetching(None, 1)], gets := s.gets + [Get(path, |s.calls|, false)],
                    inFlightGets := s.inFlightGets[path := |s.gets|],
                    getters := s.getters + [Getter(path, |s.gets|, None)])
  {
  }

  /** Once its call has returned, a GET settles and leaves its path free, and all who hold it can be served. */
  lemma SettledGetsServe(s: State, g: nat, j: nat)
    requires g < |s.gets| && s.gets[g].call < |s.calls| && s.calls[s.gets[g].call].Finished?
    ensures !s.gets[g].settled ==>
              Step(s, SettleGet(g)) ==
              s.(gets := s.gets[g := Get(s.gets[g].path, s.gets[g].call, true)],
                 inFlightGets := s.inFlightGets - {s.gets[g].path})
    ensures s.gets[g].settled && j < |s.getters| && s.getters[j] == Getter(s.getters[j].path, g, None) ==>
              Step(s, Deliver(j)) ==
              s.(getters := s.getters[j :=
                Getter(s.getters[j].path, g, Some(s.calls[s.gets[g].call].outcome))])
  {
  }
}
