/**
 The exact settings and tenants for which the consumer is at-most-once, with the runs that break it
 for all others.
*/
module ReplayWindow {
  import opened Wrappers
  import opened Subject
  import opened TriggerProtocol
  import opened DedupSafety
  import DedupAgreement

  ghost predicate Safe(c: Setting, tenants: set<string>) {
    forall env: Env, actions | env.tenants == tenants && WellFormed(env) && Run(env, c, INITIAL, actions).Some? ::
      AtMostOnce(Run(env, c, INITIAL, actions).value)
  }

  // ------------------------------------------------------------------ an environment that lets everything pass

  /** Every tenant has a key, named like the tenant, and every event that names its issue time is signed. */
  ghost predicate Obliging(env: Env) {
    && WellFormed(env)
    && (forall e: Event | e.issuedAt == Some(env.issuedAt(e.tenantId, e.id)) :: env.verifies(e))
    && (forall id, now: nat | id in env.tenants :: env.resolve(id, now) == Some(Key(id, "owner", "")))
    && (forall scope, process :: env.scopeAllows(scope, process))
  }

  ghost function SampleEnv(tenants: set<string>, issuedAt: (string, string) -> int): Env {
    Env((e: Event) => e.issuedAt == Some(issuedAt(e.tenantId, e.id)),
        (id: string, now: nat) => if id in tenants then Some(Key(id, "owner", "")) else None,
        (scope: string, process: string) => true, (slug: string) => None, issuedAt, tenants)
  }

  lemma SampleIsObliging(tenants: set<string>, issuedAt: (string, string) -> int)
    ensures Obliging(SampleEnv(tenants, issuedAt))
  {
  }

  function SampleEvent(env: Env, t: string, id: string): Event {
    Event(id, t, "", "p", t, Some(env.issuedAt(t, id)), "")
  }

  const SUBJECT := Dotted("m8flow", "events", "x", "trigger")

  function SampleMessage(env: Env, t: string, id: string): Message { Message(SUBJECT, Some(SampleEvent(env, t, id))) }

  function SampleTicket(env: Env, n: nat, t: string, id: string, at: nat): Ticket {
    Ticket(n, SampleEvent(env, t, id), at, Key(t, "owner", ""), at)
  }

  // ------------------------------------------------------------------ building runs

  /** `actions` lead from the initial state to `s`. */
  ghost predicate Reaches(env: Env, c: Setting, actions: seq<Action>, s: State) {
    Run(env, c, INITIAL, actions) == Some(s)
  }

  lemma Then(env: Env, c: Setting, actions: seq<Action>, s: State, a: Action)
    requires Reaches(env, c, actions, s) && Step(env, c, s, a).Some?
    ensures Reaches(env, c, actions + [a], Step(env, c, s, a).value)
  {
    RunConcat(env, c, INITIAL, actions, [a]);
    assert [a][1..] == [];
  }

  /** The event's message can be delivered to worker `w`, now or again, within its window. */
  predicate Deliverable(env: Env, c: Setting, s: State, w: nat, n: nat, t: string, id: string) {
    && w !in s.workers && n < |s.stream| && n !in s.acked && s.stream[n] == SampleMessage(env, t, id)
    && Serves(env, t) && -(c.maxAge as int) <= s.now - env.issuedAt(t, id) <= c.maxAge
  }

  lemma ScreenAccepts(env: Env, c: Setting, now: nat, t: string, id: string)
    requires Obliging(env) && Serves(env, t) && -(c.maxAge as int) <= now - env.issuedAt(t, id) <= c.maxAge
    ensures Screen(env, c, now, SUBJECT, SampleEvent(env, t, id)) == Accept
  {
    hide ExtractTenant, Split, Dotted;
    ExtractTenantExactly(SUBJECT, "x");
  }

  function AtScope(env: Env, s: State, w: nat, n: nat, t: string, id: string): State {
    Move(s, w, Scoped(SampleTicket(env, n, t, id, s.now))).(tally := s.tally.(delivered := s.tally.delivered + 1))
  }

  lemma FirstGate(env: Env, c: Setting, s: State, w: nat, n: nat, t: string, id: string)
    requires Obliging(env) && Deliverable(env, c, s, w, n, t, id)
    ensures Step(env, c, s, Deliver(w, n)) ==
            Some(Move(s, w, Screened(n, SUBJECT, SampleEvent(env, t, id), s.now)).(
                   tally := s.tally.(delivered := s.tally.delivered + 1)))
  {
    hide Screen, Unverified, ExtractTenant, Dotted, KeyName;
    ScreenAccepts(env, c, s.now, t, id);
  }

  /** Within the window a delivery passes every gate. */
  lemma DeliveryPasses(env: Env, c: Setting, actions: seq<Action>, s: State, w: nat, n: nat, t: string, id: string)
    returns (more: seq<Action>)
    requires Obliging(env) && Reaches(env, c, actions, s) && Deliverable(env, c, s, w, n, t, id)
    ensures Reaches(env, c, more, AtScope(env, s, w, n, t, id))
  {
    hide Screen, Unverified, ExtractTenant, Dotted, KeyName, RecordOutcome, RecordDuplicate, RecordQueued;
    hide WellFormed, Reaches;
    FirstGate(env, c, s, w, n, t, id);
    var s1 := Step(env, c, s, Deliver(w, n)).value;
    Then(env, c, actions, s, Deliver(w, n));
    var s2 := Step(env, c, s1, Lookup(w, false)).value;
    Then(env, c, actions + [Deliver(w, n)], s1, Lookup(w, false));
    assert s2.workers == s.workers[w := Verified(SampleTicket(env, n, t, id, s.now))];
    var s3 := Step(env, c, s2, CheckScope(w)).value;
    Then(env, c, actions + [Deliver(w, n)] + [Lookup(w, false)], s2, CheckScope(w));
    assert s3.workers == AtScope(env, s, w, n, t, id).workers;
    more := actions + [Deliver(w, n)] + [Lookup(w, false)] + [CheckScope(w)];
  }

  /** The claim is made under a free key, or unseen by a bucket that does not answer. */
  predicate Claimable(c: Setting, s: State, w: nat, t: Ticket, outage: bool) {
    && w in s.workers && s.workers[w] == Scoped(t) && t.event.id != "" && t.checkedAt <= s.now <= t.checkedAt + c.lag
    && if outage then c.outages else ClaimedName(t) !in s.kv
  }

  function AtClaim(s: State, w: nat, t: Ticket, outage: bool): State {
    Move(s, w, Claimed(t, Some(Claim(t.event.tenantId, t.event.id, s.now)))).(
      kv := if outage then s.kv else s.kv[ClaimedName(t) := s.now])
  }

  lemma Claims(env: Env, c: Setting, actions: seq<Action>, s: State, w: nat, t: Ticket, outage: bool)
    requires Reaches(env, c, actions, s) && Claimable(c, s, w, t, outage)
    ensures Reaches(env, c, actions + [Acquire(w, outage)], AtClaim(s, w, t, outage))
  {
    hide KeyName, Reaches;
    Then(env, c, actions, s, Acquire(w, outage));
  }

  /** One more instance, of this ticket; the worker that made it is gone and its message unacked. */
  ghost predicate OneMore(s: State, s': State, w: nat, t: Ticket, outage: bool) {
    && s'.now == s.now && s'.stream == s.stream && s'.acked == s.acked && s'.workers == s.workers - {w}
    && s'.kv == (if outage then s.kv else s.kv[ClaimedName(t) := s.now])
    && |s'.instances| == |s.instances| + 1 && s'.instances[..|s.instances|] == s.instances
    && s'.instances[|s.instances|].tenant == t.event.tenantId && s'.instances[|s.instances|].ticket == t
  }

  lemma ClaimStartAndDie(env: Env, c: Setting, actions: seq<Action>, s: State, w: nat, t: Ticket, outage: bool)
    returns (more: seq<Action>, s': State)
    requires Reaches(env, c, actions, s) && Claimable(c, s, w, t, outage)
    ensures Reaches(env, c, more, s') && OneMore(s, s', w, t, outage)
  {
    hide KeyName, Reaches, RecordOutcome;
    Claims(env, c, actions, s, w, t, outage);
    var s1, so := AtClaim(s, w, t, outage), actions + [Acquire(w, outage)];
    var s2 := Step(env, c, s1, Start(w, Committed, false)).value;
    Then(env, c, so, s1, Start(w, Committed, false));
    s' := Step(env, c, s2, Crash(w)).value;
    Then(env, c, so + [Start(w, Committed, false)], s2, Crash(w));
    more := so + [Start(w, Committed, false)] + [Crash(w)];
    assert s'.workers == s.workers - {w};
  }

  /** A delivery that passes the gates at once, and ends in one more instance. */
  lemma HandleAndDie(env: Env, c: Setting, actions: seq<Action>, s: State, w: nat, n: nat, t: string, id: string,
      outage: bool)
    returns (more: seq<Action>, s': State)
    requires Obliging(env) && Reaches(env, c, actions, s) && Deliverable(env, c, s, w, n, t, id) && id != ""
    requires if outage then c.outages else KeyName(t, id) !in s.kv
    ensures Reaches(env, c, more, s') && OneMore(s, s', w, SampleTicket(env, n, t, id, s.now), outage)
  {
    hide KeyName, Reaches, Obliging;
    var passed := DeliveryPasses(env, c, actions, s, w, n, t, id);
    var at := AtScope(env, s, w, n, t, id);
    more, s' := ClaimStartAndDie(env, c, passed, at, w, SampleTicket(env, n, t, id, s.now), outage);
    assert at.workers - {w} == s.workers - {w} == s.workers;
  }

  lemma Published(env: Env, c: Setting, messages: seq<Message>) returns (actions: seq<Action>)
    ensures Reaches(env, c, actions, INITIAL.(stream := messages))
  {
    if messages == [] {
      actions := [];
    } else {
      var n := |messages| - 1;
      var before := Published(env, c, messages[..n]);
      Then(env, c, before, INITIAL.(stream := messages[..n]), Publish(messages[n]));
      assert messages[..n] + [messages[n]] == messages;
      actions := before + [Publish(messages[n])];
    }
  }

  /** The event of two instances is the same. */
  lemma TwiceIsUnsafe(env: Env, c: Setting, actions: seq<Action>, s: State, i: nat, j: nat)
    requires WellFormed(env) && Reaches(env, c, actions, s) && i < j < |s.instances|
    requires s.instances[i].tenant == s.instances[j].tenant
    requires s.instances[i].ticket.event.id == s.instances[j].ticket.event.id != ""
    ensures !Safe(c, env.tenants)
  {
    assert !AtMostOnce(s);
  }

  // ------------------------------------------------------------------ the four ways to fail

  /** Every event is issued at the end of the first window. */
  ghost function EndOfWindow(c: Setting, tenants: set<string>): (env: Env)
    ensures Obliging(env) && env.tenants == tenants
  {
    var env := SampleEnv(tenants, (t: string, id: string) => c.maxAge as int);
    SampleIsObliging(tenants, (t: string, id: string) => c.maxAge as int);
    env
  }

  /** A bucket that forgets too soon: the key expires while a redelivery is still fresh. */
  lemma ShortMemoryDuplicates(c: Setting, tenants: set<string>, t: string)
    requires !LongEnough(c) && t in tenants && t != ""
    ensures !Safe(c, tenants)
  {
    hide KeyName, Obliging, WellFormed;
    var env := EndOfWindow(c, tenants);
    var name := KeyName(t, "e");
    var s0 := INITIAL.(stream := [SampleMessage(env, t, "e")]);
    var a0 := Published(env, c, s0.stream);
    EndOfWindowIssues(c, tenants, t, "e");
    var a1, s1 := HandleAndDie(env, c, a0, s0, 0, 0, t, "e", false);
    var s2 := Step(env, c, s1, Tick(2 * c.maxAge)).value;
    Then(env, c, a1, s1, Tick(2 * c.maxAge));
    var a3 := DeliveryPasses(env, c, a1 + [Tick(2 * c.maxAge)], s2, 0, 0, t, "e");
    var s3 := AtScope(env, s2, 0, 0, t, "e");
    var s4 := Step(env, c, s3, Tick(c.lag)).value;
    Then(env, c, a3, s3, Tick(c.lag));
    var s5 := Step(env, c, s4, Expire(name)).value;
    Then(env, c, a3 + [Tick(c.lag)], s4, Expire(name));
    var ticket := SampleTicket(env, 0, t, "e", s2.now);
    var a6, s6 := ClaimStartAndDie(env, c, a3 + [Tick(c.lag)] + [Expire(name)], s5, 0, ticket, false);
    assert s6.instances[0] == s6.instances[..1][0] == s1.instances[0];
    ObligingIsWellFormed(env);
    TwiceIsUnsafe(env, c, a6, s6, 0, 1);
  }

  lemma EndOfWindowIssues(c: Setting, tenants: set<string>, t: string, id: string)
    ensures EndOfWindow(c, tenants).issuedAt(t, id) == c.maxAge
  {
  }

  lemma ObligingIsWellFormed(env: Env)
    requires Obliging(env)
    ensures WellFormed(env)
  {
  }

  /** A bucket that does not answer lets every redelivery through. */
  lemma OutagesDuplicate(c: Setting, tenants: set<string>, t: string)
    requires c.outages && t in tenants && t != ""
    ensures !Safe(c, tenants)
  {
    hide KeyName, Obliging, WellFormed;
    var env := EndOfWindow(c, tenants);
    var s0 := INITIAL.(stream := [SampleMessage(env, t, "e")]);
    var a0 := Published(env, c, s0.stream);
    EndOfWindowIssues(c, tenants, t, "e");
    var a1, s1 := HandleAndDie(env, c, a0, s0, 0, 0, t, "e", true);
    var a2, s2 := HandleAndDie(env, c, a1, s1, 0, 0, t, "e", true);
    assert s2.instances[0] == s2.instances[..1][0] == s1.instances[0];
    ObligingIsWellFormed(env);
    TwiceIsUnsafe(env, c, a2, s2, 0, 1);
  }

  /** The failure handler: the report, the release of the key, and then the worker dies before its ack. */
  lemma HandlerReleases(env: Env, c: Setting, actions: seq<Action>, s: State, w: nat, n: nat, report: Report,
      claim: Claim)
    returns (more: seq<Action>, s': State)
    requires Reaches(env, c, actions, s) && w in s.workers && s.workers[w] == Failed(n, report, Some(claim))
    ensures Reaches(env, c, more, s')
    ensures s'.workers == s.workers - {w} && s'.kv == s.kv - {NameOf(claim)}
    ensures s'.now == s.now && s'.stream == s.stream && s'.acked == s.acked && s'.instances == s.instances
  {
    hide KeyName, Reaches, RecordOutcome;
    var s1 := Step(env, c, s, File(w, false)).value;
    Then(env, c, actions, s, File(w, false));
    assert s1.workers[w] == Releasing(n, claim);
    var s2 := Step(env, c, s1, Release(w, false)).value;
    Then(env, c, actions + [File(w, false)], s1, Release(w, false));
    s' := Step(env, c, s2, Crash(w)).value;
    Then(env, c, actions + [File(w, false)] + [Release(w, false)], s2, Crash(w));
    more := actions + [File(w, false)] + [Release(w, false)] + [Crash(w)];
    assert s'.workers == s.workers - {w};
  }

  /** A start that raises, before or after its commit, ends with the key released. */
  lemma FailAndDie(env: Env, c: Setting, actions: seq<Action>, s: State, w: nat, t: Ticket, claim: Claim,
      result: StartResult)
    returns (more: seq<Action>, s': State)
    requires Reaches(env, c, actions, s) && w in s.workers && s.workers[w] == Claimed(t, Some(claim))
    requires result.Broken? || (result.CommittedThenRaised? && c.lateErrors)
    ensures Reaches(env, c, more, s')
    ensures s'.workers == s.workers - {w} && s'.kv == s.kv - {NameOf(claim)}
    ensures s'.now == s.now && s'.stream == s.stream && s'.acked == s.acked
    ensures result.Broken? ==> s'.instances == s.instances
    ensures result.CommittedThenRaised? ==>
              && |s'.instances| == |s.instances| + 1 && s'.instances[..|s.instances|] == s.instances
              && s'.instances[|s.instances|].tenant == t.event.tenantId && s'.instances[|s.instances|].ticket == t
  {
    hide KeyName, NameOf, Reaches, RecordOutcome, VerifiedReport;
    var s1 := Step(env, c, s, Start(w, result, false)).value;
    Then(env, c, actions, s, Start(w, result, false));
    more, s' := HandlerReleases(env, c, actions + [Start(w, result, false)], s1, w, t.seqNo,
                                VerifiedReport(t, TransientError), claim);
    assert s'.workers == s.workers - {w};
  }

  /** An exception after the commit releases the key of a committed event. */
  lemma LateErrorsDuplicate(c: Setting, tenants: set<string>, t: string)
    requires c.lateErrors && t in tenants && t != ""
    ensures !Safe(c, tenants)
  {
    hide KeyName, Obliging, WellFormed;
    var env := EndOfWindow(c, tenants);
    var s0 := INITIAL.(stream := [SampleMessage(env, t, "e")]);
    var a0 := Published(env, c, s0.stream);
    EndOfWindowIssues(c, tenants, t, "e");
    var a1 := DeliveryPasses(env, c, a0, s0, 0, 0, t, "e");
    var s1, ticket := AtScope(env, s0, 0, 0, t, "e"), SampleTicket(env, 0, t, "e", 0);
    Claims(env, c, a1, s1, 0, ticket, false);
    var s2 := AtClaim(s1, 0, ticket, false);
    var a3, s3 := FailAndDie(env, c, a1 + [Acquire(0, false)], s2, 0, ticket, Claim(t, "e", 0), CommittedThenRaised);
    var a4, s4 := HandleAndDie(env, c, a3, s3, 0, 0, t, "e", false);
    assert s4.instances[0] == s4.instances[..1][0] == s3.instances[0];
    ObligingIsWellFormed(env);
    TwiceIsUnsafe(env, c, a4, s4, 0, 1);
  }

  /** The first event is issued at the start, the other ones when its key has expired. */
  ghost function OneAfterTheOther(c: Setting, tenants: set<string>, u: string): (env: Env)
    ensures Obliging(env) && env.tenants == tenants
    ensures forall t, id :: env.issuedAt(t, id) == if t == u then 0 else c.ttl
  {
    var issue := (t: string, id: string) => if t == u then 0 else c.ttl;
    SampleIsObliging(tenants, issue);
    SampleEnv(tenants, issue)
  }

  /** A worker at its start, with a claim whose key has expired. */
  lemma OutlivesItsKey(env: Env, c: Setting, u: string, other: Message) returns (actions: seq<Action>, s: State)
    requires Obliging(env) && Serves(env, u) && env.issuedAt(u, "c") == 0
    ensures Reaches(env, c, actions, s) && s.now == c.ttl && s.stream == [SampleMessage(env, u, "c"), other]
    ensures s.acked == {} && s.kv == map[] && s.instances == []
    ensures s.workers == map[1 := Claimed(SampleTicket(env, 0, u, "c", 0), Some(Claim(u, "c", 0)))]
  {
    hide KeyName, Obliging, WellFormed, Reaches;
    var s0 := INITIAL.(stream := [SampleMessage(env, u, "c"), other]);
    var a0 := Published(env, c, s0.stream);
    var a1 := DeliveryPasses(env, c, a0, s0, 1, 0, u, "c");
    var s1, ticket := AtScope(env, s0, 1, 0, u, "c"), SampleTicket(env, 0, u, "c", 0);
    Claims(env, c, a1, s1, 1, ticket, false);
    var a2, s2 := a1 + [Acquire(1, false)], AtClaim(s1, 1, ticket, false);
    var s3 := Step(env, c, s2, Tick(c.ttl)).value;
    Then(env, c, a2, s2, Tick(c.ttl));
    s := Step(env, c, s3, Expire(KeyName(u, "c"))).value;
    Then(env, c, a2 + [Tick(c.ttl)], s3, Expire(KeyName(u, "c")));
    actions := a2 + [Tick(c.ttl)] + [Expire(KeyName(u, "c"))];
    assert s.kv == map[] && s.workers == s2.workers;
  }

  lemma ShadowIsLonger(t: string, u: string)
    requires Shadows(t, u)
    ensures |t| < |u|
  {
  }

  /**
   Two tenants whose keys meet: a worker of one holds a key longer than the bucket remembers it, another tenant's
   event claims and commits under that key, and the first worker's failure releases it.
  */
  lemma MeetingKeysDuplicate(c: Setting, tenants: set<string>, t: string, u: string)
    requires t in tenants && u in tenants && t != "" && Shadows(t, u)
    ensures !Safe(c, tenants)
  {
    hide KeyName, Obliging, WellFormed, Shadows, Twin, Reaches;
    var env := OneAfterTheOther(c, tenants, u);
    var id := Twin(t, u, "c");
    TwinHasTheKey(t, u, "c");
    ShadowIsLonger(t, u);
    var a4, s4 := OutlivesItsKey(env, c, u, SampleMessage(env, t, id));
    var a5, s5 := HandleAndDie(env, c, a4, s4, 2, 1, t, id, false);
    var a6, s6 := FailAndDie(env, c, a5, s5, 1, SampleTicket(env, 0, u, "c", 0), Claim(u, "c", 0), Broken);
    var a7, s7 := HandleAndDie(env, c, a6, s6, 2, 1, t, id, false);
    assert s7.instances[0] == s7.instances[..1][0] == s5.instances[0];
    ObligingIsWellFormed(env);
    TwiceIsUnsafe(env, c, a7, s7, 0, 1);
  }

  // ------------------------------------------------------------------ the exact condition

  /** A tenant without an id starts nothing. */
  lemma NobodyServed(env: Env, c: Setting, actions: seq<Action>)
    requires WellFormed(env) && env.tenants <= {""} && Run(env, c, INITIAL, actions).Some?
    ensures Run(env, c, INITIAL, actions).value.instances == []
  {
    hide Run;
    assert DedupAgreement.Provenance(env, c, INITIAL);
    DedupAgreement.EveryInstanceIsEarned(env, c, INITIAL, actions);
    var s := Run(env, c, INITIAL, actions).value;
    if s.instances != [] {
      var made := s.instances[0];
      assert DedupAgreement.Earned(env, c, s, made);
      NoTenantNoAccept(env, c, made.ticket.checkedAt, s.stream[made.ticket.seqNo].subject, made.ticket.event);
    }
  }

  lemma NoTenantNoAccept(env: Env, c: Setting, now: nat, subject: string, e: Event)
    ensures Screen(env, c, now, subject, e) == Accept ==> e.tenantId != ""
  {
    hide ExtractTenant;
  }

  /**
   At-most-once in every environment of these tenants and every run, if and only if the key outlives two replay
   windows and the claim lag, the bucket always answers, nothing raises after a commit, and no tenant's id
   followed by a hyphen begins another's.
  */
  lemma SafeExactlyWhen(c: Setting, tenants: set<string>)
    ensures Safe(c, tenants) <==>
            tenants <= {""} || (LongEnough(c) && !c.outages && !c.lateErrors && PrefixFree(tenants))
  {
    hide Run, WellFormed, AtMostOnce, PrefixFree;
    if tenants <= {""} {
      forall env: Env, actions | env.tenants == tenants && WellFormed(env) && Run(env, c, INITIAL, actions).Some?
        ensures AtMostOnce(Run(env, c, INITIAL, actions).value)
      {
        NobodyServed(env, c, actions);
        NothingTwice(Run(env, c, INITIAL, actions).value);
      }
    } else if LongEnough(c) && Reliable(c) && PrefixFree(tenants) {
      forall env: Env, actions | env.tenants == tenants && WellFormed(env) && Run(env, c, INITIAL, actions).Some?
        ensures AtMostOnce(Run(env, c, INITIAL, actions).value)
      {
        EveryRunIsAtMostOnce(env, c, actions);
      }
    } else {
      var t :| t in tenants && t != "";
      if !LongEnough(c) { ShortMemoryDuplicates(c, tenants, t); }
      else if c.outages { OutagesDuplicate(c, tenants, t); }
      else if c.lateErrors { LateErrorsDuplicate(c, tenants, t); }
      else {
        var x, y := Shadowed(tenants);
        MeetingKeysDuplicate(c, tenants, x, y);
      }
    }
  }

  lemma NothingTwice(s: State)
    requires s.instances == []
    ensures AtMostOnce(s)
  {
  }

  lemma Shadowed(tenants: set<string>) returns (t: string, u: string)
    requires !PrefixFree(tenants)
    ensures t in tenants && u in tenants && t != "" && Shadows(t, u)
  {
    t, u :| t in tenants && u in tenants && t != "" && Shadows(t, u);
  }

  /**
   Under the documented defaults, 300 seconds of replay window and a day of memory, the claim may lag by most
   of a day, for the seeded base tenant and any organizations whose ids are UUIDs.
  */
  lemma DocumentedDefaults(lag: nat, tenants: set<string>)
    requires tenants != {} && forall t | t in tenants :: t == BASE_TENANT || IsUuid(t)
    ensures Safe(Setting(300, lag, 86400, false, false), tenants) <==> lag < 85800
  {
    SafeExactlyWhen(Setting(300, lag, 86400, false, false), tenants);
    UuidsAndTheBaseTenantArePrefixFree(tenants);
    assert !(tenants <= {""}) by {
      var t :| t in tenants;
      assert t != "";
    }
  }

  // ------------------------------------------------------------------ a lost event

  /** A worker that dies holding the key can make its redelivery look like a duplicate, in any setting. */
  lemma CrashCanLoseAnEvent(c: Setting, tenants: set<string>, t: string)
    returns (env: Env, actions: seq<Action>, s: State)
    requires t in tenants && t != ""
    ensures Obliging(env) && env.tenants == tenants && Reaches(env, c, actions, s)
    ensures s.stream == [SampleMessage(env, t, "e")] && s.acked == {0} && s.workers == map[] && s.instances == []
  {
    hide KeyName, Obliging, WellFormed, Reaches, RecordDuplicate;
    env := EndOfWindow(c, tenants);
    var s0 := INITIAL.(stream := [SampleMessage(env, t, "e")]);
    var a0 := Published(env, c, s0.stream);
    EndOfWindowIssues(c, tenants, t, "e");
    var a1 := DeliveryPasses(env, c, a0, s0, 0, 0, t, "e");
    var s1, ticket := AtScope(env, s0, 0, 0, t, "e"), SampleTicket(env, 0, t, "e", 0);
    Claims(env, c, a1, s1, 0, ticket, false);
    var a2, s2 := a1 + [Acquire(0, false)], AtClaim(s1, 0, ticket, false);
    var s3 := Step(env, c, s2, Crash(0)).value;
    Then(env, c, a2, s2, Crash(0));
    var a4 := DeliveryPasses(env, c, a2 + [Crash(0)], s3, 0, 0, t, "e");
    var s4 := AtScope(env, s3, 0, 0, t, "e");
    actions, s := RepeatAndAck(env, c, a4, s4, 0, ticket);
    assert s.workers == map[];
  }

  lemma RepeatAndAck(env: Env, c: Setting, actions: seq<Action>, s: State, w: nat, t: Ticket)
    returns (more: seq<Action>, s': State)
    requires Reaches(env, c, actions, s) && w in s.workers && s.workers[w] == Scoped(t) && t.event.id != ""
    requires t.checkedAt <= s.now <= t.checkedAt + c.lag && ClaimedName(t) in s.kv
    ensures Reaches(env, c, more, s') && s'.workers == s.workers - {w} && s'.acked == s.acked + {t.seqNo}
    ensures s'.stream == s.stream && s'.instances == s.instances
  {
    hide KeyName, Reaches, RecordDuplicate;
    var s1 := Step(env, c, s, Acquire(w, false)).value;
    Then(env, c, actions, s, Acquire(w, false));
    assert s1.workers[w] == Repeated(t);
    var s2 := Step(env, c, s1, CountDuplicate(w, true, false)).value;
    Then(env, c, actions + [Acquire(w, false)], s1, CountDuplicate(w, true, false));
    s' := Step(env, c, s2, Ack(w)).value;
    Then(env, c, actions + [Acquire(w, false)] + [CountDuplicate(w, true, false)], s2, Ack(w));
    more := actions + [Acquire(w, false)] + [CountDuplicate(w, true, false)] + [Ack(w)];
    assert s'.workers == s.workers - {w};
  }
}
