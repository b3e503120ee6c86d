/**
 What the dedup bucket, the database and the audit table say about each other: their agreement
 in calm runs, where every instance comes from, and that nothing handled is lost count of.
*/
module DedupAgreement {
  import opened Wrappers
  import opened Subject
  import opened TriggerProtocol
  import opened DedupSafety

  // ------------------------------------------------------------------ bucket and database

  predicate NothingExpires(actions: seq<Action>) { forall i | 0 <= i < |actions| :: !actions[i].Expire? }

  predicate NobodyCrashes(actions: seq<Action>) { forall i | 0 <= i < |actions| :: !actions[i].Crash? }

  /** The key that a worker takes with it when it crashes. */
  function LostBy(s: State, a: Action): set<string> {
    if a.Crash? && a.w in s.workers && Held(s.workers[a.w]).Some? then {NameOf(Held(s.workers[a.w]).value)} else {}
  }

  /** The keys held by workers when they crashed, over a run. */
  function Lost(env: Env, c: Setting, s: State, actions: seq<Action>): set<string>
    requires Run(env, c, s, actions).Some?
    decreases |actions|
  {
    if actions == [] then {}
    else LostBy(s, actions[0]) + Lost(env, c, Step(env, c, s, actions[0]).value, actions[1..])
  }

  lemma {:induction false} NobodyCrashesNothingLost(env: Env, c: Setting, s: State, actions: seq<Action>)
    requires Run(env, c, s, actions).Some? && NobodyCrashes(actions)
    ensures Lost(env, c, s, actions) == {}
    decreases |actions|
  {
    hide Step;
    if actions != [] { NobodyCrashesNothingLost(env, c, Step(env, c, s, actions[0]).value, actions[1..]); }
  }

  ghost predicate AnsweredFor(s: State, name: string) {
    (exists w :: HoldsName(s, w, name)) || (exists i :: SpentName(s, i, name))
  }

  /** The bucket's keys are exactly the lost ones and those some worker or instance answers for, each once. */
  ghost predicate Agrees(s: State, lost: set<string>) {
    && Exclusive(s)
    && (forall name :: name in s.kv <==> AnsweredFor(s, name) || name in lost)
    && (forall name | name in lost :: !AnsweredFor(s, name))
  }

  lemma AgreesAcquire(env: Env, c: Setting, s: State, w: nat, lost: set<string>)
    requires Agrees(s, lost) && Step(env, c, s, Acquire(w, false)).Some?
    ensures Agrees(Step(env, c, s, Acquire(w, false)).value, lost)
  {
    var s' := Step(env, c, s, Acquire(w, false)).value;
    var t := s.workers[w].ticket;
    if NewClaim(s, Acquire(w, false)) && s'.workers[w].Claimed? {
      assert !AnsweredFor(s, ClaimedName(t));
      assert HoldsName(s', w, ClaimedName(t));
    }
    ExclusiveAcquire(env, c, s, w, false);
    assert forall i, name :: SpentName(s', i, name) == SpentName(s, i, name);
    assert forall v, name | v != w :: HoldsName(s', v, name) == HoldsName(s, v, name);
    assert forall name :: !HoldsName(s, w, name);
    assert forall name | HoldsName(s', w, name) :: name == ClaimedName(t);
  }

  lemma AgreesCommit(env: Env, c: Setting, s: State, w: nat, written: bool, lost: set<string>)
    requires Agrees(s, lost) && Step(env, c, s, Start(w, Committed, written)).Some?
    ensures Agrees(Step(env, c, s, Start(w, Committed, written)).value, lost)
  {
    var s' := Step(env, c, s, Start(w, Committed, written)).value;
    var last := |s.instances|;
    ExclusiveCommit(env, c, s, w, written);
    assert forall v, name | v != w :: HoldsName(s', v, name) == HoldsName(s, v, name);
    assert forall i: nat, name | i != last :: SpentName(s', i, name) == SpentName(s, i, name);
    assert forall name :: SpentName(s', last, name) == HoldsName(s, w, name);
  }

  lemma AgreesRelease(env: Env, c: Setting, s: State, w: nat, lost: set<string>)
    requires Agrees(s, lost) && Step(env, c, s, Release(w, false)).Some?
    ensures Agrees(Step(env, c, s, Release(w, false)).value, lost)
  {
    var s' := Step(env, c, s, Release(w, false)).value;
    var freed := NameOf(s.workers[w].held);
    assert HoldsName(s, w, freed);
    assert forall v, name | v != w :: HoldsName(s', v, name) == HoldsName(s, v, name);
    assert forall i, name :: SpentName(s', i, name) == SpentName(s, i, name);
    assert forall name :: HoldsName(s, w, name) ==> name == freed;
    assert forall name :: !HoldsName(s', w, name);
    ExclusiveFrame(s, s');
  }

  /** A worker that crashes leaves the key it holds to nobody. */
  lemma AgreesCrash(env: Env, c: Setting, s: State, w: nat, lost: set<string>)
    requires Agrees(s, lost) && Step(env, c, s, Crash(w)).Some?
    ensures Agrees(Step(env, c, s, Crash(w)).value, lost + LostBy(s, Crash(w)))
  {
    var s', held := Step(env, c, s, Crash(w)).value, LostBy(s, Crash(w));
    assert forall v, name | v != w :: HoldsName(s', v, name) == HoldsName(s, v, name);
    assert forall i, name :: SpentName(s', i, name) == SpentName(s, i, name);
    assert forall name :: HoldsName(s, w, name) <==> name in held;
    assert forall name :: !HoldsName(s', w, name);
    ExclusiveFrame(s, s');
  }

  lemma AgreesStep(env: Env, c: Setting, s: State, a: Action, lost: set<string>)
    requires Reliable(c) && !a.Expire? && Agrees(s, lost) && Step(env, c, s, a).Some?
    ensures Agrees(Step(env, c, s, a).value, lost + LostBy(s, a))
  {
    assert !a.Crash? ==> lost + LostBy(s, a) == lost;
    if a.Acquire? {
      AgreesAcquire(env, c, s, a.w, lost);
    } else if Commits(a) {
      AgreesCommit(env, c, s, a.w, a.written, lost);
    } else if a.Release? {
      AgreesRelease(env, c, s, a.w, lost);
    } else if a.Crash? {
      AgreesCrash(env, c, s, a.w, lost);
    } else {
      StepTouchesOneWorker(env, c, s, a);
      ExclusiveStep(env, c, s, a);
      var s' := Step(env, c, s, a).value;
      KeepsHolding(env, c, s, a);
      assert forall i, name :: SpentName(s', i, name) == SpentName(s, i, name);
    }
  }

  /** Between claiming and releasing, a worker carries its claim from state to state. */
  lemma KeepsHolding(env: Env, c: Setting, s: State, a: Action)
    requires Step(env, c, s, a).Some? && !a.Crash? && !a.Acquire? && !Commits(a) && !a.Release?
    ensures forall w, name :: HoldsName(Step(env, c, s, a).value, w, name) == HoldsName(s, w, name)
  {
    StepTouchesOneWorker(env, c, s, a);
    var s' := Step(env, c, s, a).value;
    forall w, name ensures HoldsName(s', w, name) == HoldsName(s, w, name) {
      if ByWorker(a) && w == a.w {
        assert a.w in s.workers && Held(s.workers[w]).Some? ==>
               a.w in s'.workers && Held(s'.workers[w]) == Held(s.workers[w]);
      }
    }
  }

  lemma {:induction false} AgreesRun(env: Env, c: Setting, s: State, actions: seq<Action>, lost: set<string>)
    requires Reliable(c) && NothingExpires(actions) && Agrees(s, lost) && Run(env, c, s, actions).Some?
    ensures Agrees(Run(env, c, s, actions).value, lost + Lost(env, c, s, actions))
    decreases |actions|
  {
    hide Agrees, Step, LostBy;
    if actions != [] {
      var next, more := Step(env, c, s, actions[0]).value, LostBy(s, actions[0]);
      AgreesStep(env, c, s, actions[0], lost);
      AgreesRun(env, c, next, actions[1..], lost + more);
      assert lost + more + Lost(env, c, next, actions[1..]) == lost + (more + Lost(env, c, next, actions[1..]));
    } else {
      assert lost + {} == lost;
    }
  }

  predicate Quiet(s: State) { s.workers == map[] }

  function SpentNames(s: State): set<string> {
    set i | 0 <= i < |s.instances| && s.instances[i].claim.Some? :: NameOf(s.instances[i].claim.value)
  }

  /**
   With nobody at work after a run in which nothing expired, the live dedup keys are the keys of committed
   instances and those held by workers that crashed, and none is both.
  */
  lemma BucketMatchesDatabase(env: Env, c: Setting, actions: seq<Action>)
    requires Reliable(c) && NothingExpires(actions)
    requires Run(env, c, INITIAL, actions).Some? && Quiet(Run(env, c, INITIAL, actions).value)
    ensures var s, lost := Run(env, c, INITIAL, actions).value, Lost(env, c, INITIAL, actions);
            s.kv.Keys == SpentNames(s) + lost && SpentNames(s) !! lost
  {
    hide Run, Lost;
    assert Agrees(INITIAL, {});
    AgreesRun(env, c, INITIAL, actions, {});
    var s, lost := Run(env, c, INITIAL, actions).value, Lost(env, c, INITIAL, actions);
    assert {} + lost == lost;
    forall name ensures name in SpentNames(s) <==> AnsweredFor(s, name) {
      if name in SpentNames(s) {
        var i: nat :| i < |s.instances| && s.instances[i].claim.Some? && NameOf(s.instances[i].claim.value) == name;
        assert SpentName(s, i, name);
      }
      if i: nat :| SpentName(s, i, name) {
        assert name in SpentNames(s);
      }
    }
  }

  lemma {:induction false} TimelineRun(env: Env, c: Setting, s: State, actions: seq<Action>, lost: set<string>)
    requires WellFormed(env) && Reliable(c) && NothingExpires(actions) && Agrees(s, lost) && Timeline(env, c, s)
    requires Run(env, c, s, actions).Some?
    ensures Timeline(env, c, Run(env, c, s, actions).value)
    decreases |actions|
  {
    hide Step, LostBy, Timeline, WellFormed;
    if actions != [] {
      AgreesStep(env, c, s, actions[0], lost);
      TimelineStep(env, c, s, actions[0]);
      TimelineRun(env, c, Step(env, c, s, actions[0]).value, actions[1..], lost + LostBy(s, actions[0]));
    }
  }

  /** A committed instance of another event never has this event's key. */
  lemma SpentByItsOwnInstance(env: Env, c: Setting, s: State, t: Ticket)
    requires Timeline(env, c, s) && PrefixFree(env.tenants) && Serves(env, t.event.tenantId)
    requires forall made | made in s.instances ::
               made.tenant != t.event.tenantId || made.ticket.event.id != t.event.id
    ensures ClaimedName(t) !in SpentNames(s)
  {
    hide KeyName;
    if ClaimedName(t) in SpentNames(s) {
      var i :| 0 <= i < |s.instances| && s.instances[i].claim.Some?
        && NameOf(s.instances[i].claim.value) == ClaimedName(t);
      assert Labelled(s.instances[i]) && Timely(env, c, s, s.instances[i].claim.value);
      var claim := s.instances[i].claim.value;
      assert s.instances[i] in s.instances;
      KeyNameInjective(claim.tenant, claim.eventId, t.event.tenantId, t.event.id);
    }
  }

  /**
   A failed attempt frees its key: at rest, with nothing expired, an event without an instance can be claimed again
   exactly when no worker crashed holding its key.
  */
  lemma FailedAttemptFreesItsKey(env: Env, c: Setting, actions: seq<Action>, w: nat, t: Ticket)
    requires WellFormed(env) && PrefixFree(env.tenants) && Reliable(c) && NothingExpires(actions)
    requires Run(env, c, INITIAL, actions).Some? && Quiet(Run(env, c, INITIAL, actions).value)
    requires Serves(env, t.event.tenantId) && t.event.id != ""
    requires forall made | made in Run(env, c, INITIAL, actions).value.instances ::
               made.tenant != t.event.tenantId || made.ticket.event.id != t.event.id
    ensures ClaimKey(Run(env, c, INITIAL, actions).value, w, t, false).workers[w].Claimed? <==>
            ClaimedName(t) !in Lost(env, c, INITIAL, actions)
  {
    hide Run, Lost, WellFormed, SpentNames, KeyName;
    BucketMatchesDatabase(env, c, actions);
    assert Agrees(INITIAL, {}) && Timeline(env, c, INITIAL);
    TimelineRun(env, c, INITIAL, actions, {});
    SpentByItsOwnInstance(env, c, Run(env, c, INITIAL, actions).value, t);
  }

  // ------------------------------------------------------------------ provenance

  /** The ticket's message is in the stream, passed every gate up to the key, and the key's tenant is the event's. */
  predicate Genuine(env: Env, c: Setting, s: State, t: Ticket) {
    && ScreenedAt(env, c, s, t.seqNo, t.event, t.checkedAt)
    && t.checkedAt <= t.resolvedAt <= s.now
    && env.resolve(t.event.apiKeyId, t.resolvedAt) == Some(t.key)
    && t.key.tenantId == t.event.tenantId
  }

  predicate ScreenedAt(env: Env, c: Setting, s: State, seqNo: nat, e: Event, at: nat) {
    && seqNo < |s.stream| && at <= s.now
    && s.stream[seqNo].body == Some(e)
    && Screen(env, c, at, s.stream[seqNo].subject, e) == Accept
  }

  predicate InScope(env: Env, t: Ticket) { env.scopeAllows(t.key.scope, t.event.process) }

  predicate SoundPc(env: Env, c: Setting, s: State, pc: Pc) {
    match pc
    case Screened(n, _, e, at) => ScreenedAt(env, c, s, n, e, at)
    case Verified(t) => Genuine(env, c, s, t)
    case Scoped(t) => Genuine(env, c, s, t) && InScope(env, t)
    case Claimed(t, _) => Genuine(env, c, s, t) && InScope(env, t)
    case Repeated(t) => Genuine(env, c, s, t) && InScope(env, t)
    case _ => true
  }

  /** The instance runs in its key's tenant, as its key's owner, for a message that passed every gate. */
  predicate Earned(env: Env, c: Setting, s: State, made: Instance) {
    && Genuine(env, c, s, made.ticket) && InScope(env, made.ticket)
    && made.tenant == made.ticket.key.tenantId
    && made.initiator == made.ticket.key.owner
    && made.process == made.ticket.event.process
  }

  ghost predicate Provenance(env: Env, c: Setting, s: State) {
    && (forall w | w in s.workers :: SoundPc(env, c, s, s.workers[w]))
    && (forall i | 0 <= i < |s.instances| :: Earned(env, c, s, s.instances[i]))
  }

  lemma SoundLater(env: Env, c: Setting, s: State, s': State)
    requires s.now <= s'.now && s.stream <= s'.stream
    ensures forall pc | SoundPc(env, c, s, pc) :: SoundPc(env, c, s', pc)
    ensures forall made | Earned(env, c, s, made) :: Earned(env, c, s', made)
  {
  }

  /** The worker that acts stays sound: each stage follows from the one before. */
  lemma ActorSound(env: Env, c: Setting, s: State, a: Action)
    requires ByWorker(a) && Step(env, c, s, a).Some?
    requires a.w in s.workers ==> SoundPc(env, c, s, s.workers[a.w])
    ensures a.w in Step(env, c, s, a).value.workers ==> SoundPc(env, c, s, Step(env, c, s, a).value.workers[a.w])
  {
    hide RecordOutcome, RecordDuplicate, RecordQueued, Screen, Unverified, VerifiedReport, KeyName;
  }

  lemma CommitEarns(env: Env, c: Setting, s: State, a: Action)
    requires Commits(a) && Step(env, c, s, a).Some? && SoundPc(env, c, s, s.workers[a.w])
    ensures var s' := Step(env, c, s, a).value;
            |s'.instances| == |s.instances| + 1 && s.instances <= s'.instances &&
            Earned(env, c, s, s'.instances[|s.instances|])
  {
  }

  lemma ProvenanceStep(env: Env, c: Setting, s: State, a: Action)
    requires Provenance(env, c, s) && Step(env, c, s, a).Some?
    ensures Provenance(env, c, Step(env, c, s, a).value)
  {
    hide RecordOutcome, RecordDuplicate, RecordQueued, Screen, Unverified, VerifiedReport, KeyName;
    StepTouchesOneWorker(env, c, s, a);
    var s' := Step(env, c, s, a).value;
    SoundLater(env, c, s, s');
    if ByWorker(a) { ActorSound(env, c, s, a); }
    if Commits(a) { CommitEarns(env, c, s, a); }
  }

  /** In every reachable state, whatever the setting, every instance was earned. */
  lemma {:induction false} EveryInstanceIsEarned(env: Env, c: Setting, s: State, actions: seq<Action>)
    requires Provenance(env, c, s) && Run(env, c, s, actions).Some?
    ensures Provenance(env, c, Run(env, c, s, actions).value)
    decreases |actions|
  {
    if actions != [] {
      ProvenanceStep(env, c, s, actions[0]);
      EveryInstanceIsEarned(env, c, Step(env, c, s, actions[0]).value, actions[1..]);
    }
  }

  // ------------------------------------------------------------------ unverified senders

  /** A worker that has not got past the key lookup. */
  predicate Anonymous(pc: Pc) {
    match pc
    case Unreadable(_, _) => true
    case Screened(_, _, _, _) => true
    case Failed(_, report, claim) => claim.None? && (report.insertOnly || report.eventId == "")
    case Acking(_) => true
    case _ => false
  }

  ghost predicate AllAnonymous(s: State) { forall w | w in s.workers :: Anonymous(s.workers[w]) }

  predicate NobodyVerified(s: State) { forall w | w in s.workers :: !s.workers[w].Verified? }

  predicate NeverVerifies(env: Env, c: Setting, s: State, actions: seq<Action>)
    decreases |actions|
  {
    actions == [] ||
    (var next := Step(env, c, s, actions[0]);
     next.Some? ==> NobodyVerified(next.value) && NeverVerifies(env, c, next.value, actions[1..]))
  }

  function PrunedSlots(actions: seq<Action>): set<(string, string)> {
    if actions == [] then {}
    else (if actions[0].Prune? then actions[0].slots else {}) + PrunedSlots(actions[1..])
  }

  function PrunedRows(actions: seq<Action>): nat {
    if actions == [] then 0 else (if actions[0].Prune? then actions[0].n else 0) + PrunedRows(actions[1..])
  }

  lemma PrunedOneByOne(actions: seq<Action>)
    requires actions != []
    ensures PrunedSlots(actions) == PrunedSlots([actions[0]]) + PrunedSlots(actions[1..])
    ensures PrunedRows(actions) == PrunedRows([actions[0]]) + PrunedRows(actions[1..])
  {
    assert [actions[0]][1..] == [];
  }

  lemma PruneStep(env: Env, c: Setting, s: State, a: Action)
    requires a.Prune? && Step(env, c, s, a).Some?
    ensures PrunedSlots([a]) == a.slots && PrunedRows([a]) == a.n <= |s.audit.anonymous|
    ensures Step(env, c, s, a).value == s.(audit := PruneRows(s.audit, a.slots, a.n))
    ensures KeepsRows(s.audit, PruneRows(s.audit, a.slots, a.n), a.slots, a.n)
  {
    assert [a][1..] == [];
  }

  lemma NothingPruned(a: Action)
    requires !a.Prune?
    ensures PrunedSlots([a]) == {} && PrunedRows([a]) == 0
  {
    assert [a][1..] == [];
  }

  function Rest<T>(s: seq<T>, n: nat): seq<T> { if n <= |s| then s[n..] else [] }

  /** Rows that were not pruned are as before. */
  predicate KeepsRows(before: Audit, after: Audit, slots: set<(string, string)>, n: nat) {
    && (forall slot | slot in before.rows && slot !in slots ::
          slot in after.rows && after.rows[slot] == before.rows[slot])
    && Rest(before.anonymous, n) <= after.anonymous
  }

  lemma KeepsRowsTwice(a: Audit, b: Audit, c: Audit, slots: set<(string, string)>, more: set<(string, string)>, n: nat,
                       k: nat)
    requires KeepsRows(a, b, slots, n) && KeepsRows(b, c, more, k)
    ensures KeepsRows(a, c, slots + more, n + k)
  {
    var x, y := Rest(a.anonymous, n), Rest(b.anonymous, k);
    if n + k <= |a.anonymous| {
      assert Rest(a.anonymous, n + k) == x[k..] && y == b.anonymous[k..];
      assert x == b.anonymous[..|x|];
    }
  }

  /** Where an anonymous worker goes, and what it does to the shared state. */
  lemma AnonymousActor(env: Env, c: Setting, s: State, a: Action)
    requires ByWorker(a) && Step(env, c, s, a).Some? && NobodyVerified(Step(env, c, s, a).value)
    requires a.w in s.workers ==> Anonymous(s.workers[a.w])
    ensures var s' := Step(env, c, s, a).value;
            && (a.w in s'.workers ==> Anonymous(s'.workers[a.w])) && s'.instances == s.instances && s'.kv == s.kv
            && KeepsRows(s.audit, s'.audit, {}, 0)
  {
    hide Screen, VerifiedReport, KeyName;
    assert s.audit.anonymous[0..] == s.audit.anonymous;
  }

  lemma AnonymousStep(env: Env, c: Setting, s: State, a: Action)
    requires AllAnonymous(s) && Step(env, c, s, a).Some? && NobodyVerified(Step(env, c, s, a).value)
    ensures var s' := Step(env, c, s, a).value;
            && AllAnonymous(s') && s'.instances == s.instances && s'.kv.Keys <= s.kv.Keys
            && KeepsRows(s.audit, s'.audit, PrunedSlots([a]), PrunedRows([a]))
  {
    hide RecordOutcome, RecordDuplicate, PruneRows, Anonymous, PrunedSlots, PrunedRows;
    StepTouchesOneWorker(env, c, s, a);
    if a.Prune? {
      PruneStep(env, c, s, a);
    } else {
      NothingPruned(a);
      KeepsItself(s.audit);
      if ByWorker(a) { AnonymousActor(env, c, s, a); }
    }
    var s' := Step(env, c, s, a).value;
    hide Step, KeepsRows, NobodyVerified;
    forall w | w in s'.workers ensures Anonymous(s'.workers[w]) {
      if !ByWorker(a) || w != a.w { assert Anonymous(s.workers[w]); }
    }
  }

  /** Messages whose sender is never verified start nothing, claim no key, and rewrite no audit row; rows only age. */
  lemma {:induction false} UnverifiedRunsChangeNothing(env: Env, c: Setting, s: State, actions: seq<Action>)
    requires AllAnonymous(s) && NeverVerifies(env, c, s, actions) && Run(env, c, s, actions).Some?
    ensures var s' := Run(env, c, s, actions).value;
            && s'.instances == s.instances && s'.kv.Keys <= s.kv.Keys
            && KeepsRows(s.audit, s'.audit, PrunedSlots(actions), PrunedRows(actions))
    decreases |actions|
  {
    hide Step, KeepsRows, AllAnonymous;
    if actions != [] {
      var a, next, rest := actions[0], Step(env, c, s, actions[0]).value, actions[1..];
      AnonymousStep(env, c, s, a);
      UnverifiedRunsChangeNothing(env, c, next, rest);
      KeepsRowsTwice(s.audit, next.audit, Run(env, c, s, actions).value.audit, PrunedSlots([a]), PrunedSlots(rest),
                     PrunedRows([a]), PrunedRows(rest));
      PrunedOneByOne(actions);
    } else {
      KeepsItself(s.audit);
    }
  }

  lemma KeepsItself(audit: Audit)
    ensures KeepsRows(audit, audit, {}, 0)
  {
    assert audit.anonymous[0..] == audit.anonymous;
  }

  // ------------------------------------------------------------------ the audit trail

  /** A row that records a success points at a committed instance of that tenant and event. */
  predicate Backed(s: State, slot: (string, string), row: Row) {
    (row.outcome == Instantiated ==> row.instance.Some?) &&
    (row.instance.Some? ==>
       && row.instance.value < |s.instances|
       && s.instances[row.instance.value].tenant == slot.0
       && s.instances[row.instance.value].ticket.event.id == slot.1)
  }

  predicate HonestPc(pc: Pc) { pc.Failed? ==> pc.report.outcome != Instantiated }

  ghost predicate AuditBacked(s: State) {
    && (forall slot | slot in s.audit.rows :: Backed(s, slot, s.audit.rows[slot]))
    && (forall w | w in s.workers :: HonestPc(s.workers[w]))
  }

  /** A recorded success stays one, unless its row was pruned. */
  ghost predicate SuccessKept(before: State, after: State, pruned: set<(string, string)>) {
    forall slot | slot in before.audit.rows && before.audit.rows[slot].outcome == Instantiated && slot !in pruned ::
      slot in after.audit.rows && after.audit.rows[slot].outcome == Instantiated
  }

  /** Filing an outcome never replaces a success, and touches the report's own row at most. */
  lemma RecordKeepsSuccess(audit: Audit, report: Report, instance: Option<nat>)
    ensures var slot := (Attributed(report.tenant), report.eventId);
            var after := RecordOutcome(audit, report, instance).rows;
            && (forall other | other in audit.rows :: other in after)
            && (forall other | other in after && other != slot ::
              other in audit.rows && after[other] == audit.rows[other])
            && (slot in after && report.outcome != Instantiated ==>
                  (slot in audit.rows && after[slot] == audit.rows[slot]) ||
                  (after[slot].outcome == report.outcome
                   && (slot in audit.rows ==> audit.rows[slot].outcome != Instantiated)
                   && (after[slot].instance == instance
                     || (slot in audit.rows && after[slot].instance == audit.rows[slot].instance))))
  {
  }

  lemma CommitFiles(env: Env, c: Setting, s: State, a: Action)
    requires Commits(a) && Step(env, c, s, a).Some?
    ensures var s', t := Step(env, c, s, a).value, s.workers[a.w].ticket;
            && |s'.instances| == |s.instances| + 1 && s.instances <= s'.instances
            && s'.instances[|s.instances|].tenant == t.event.tenantId && s'.instances[|s.instances|].ticket == t
            && s'.audit == if a.written
                           then RecordOutcome(s.audit, VerifiedReport(t, Instantiated), Some(|s.instances|))
                           else s.audit
  {
    hide RecordOutcome, VerifiedReport;
  }

  lemma VerifiedTenant(env: Env, c: Setting, s: State, t: Ticket)
    requires Genuine(env, c, s, t)
    ensures t.event.tenantId != ""
  {
    hide ExtractTenant;
  }

  /** A success is always written over what was there. */
  lemma RecordOfSuccess(audit: Audit, t: Ticket, index: nat)
    requires t.event.tenantId != ""
    ensures var slot, after := (t.event.tenantId, t.event.id),
                               RecordOutcome(audit, VerifiedReport(t, Instantiated), Some(index)).rows;
            && (forall other | other != slot :: other in after <==> other in audit.rows)
            && (forall other | other != slot && other in audit.rows :: after[other] == audit.rows[other])
            && if t.event.id == "" then after == audit.rows
               else slot in after && after[slot].outcome == Instantiated && after[slot].instance == Some(index)
  {
  }

  /** Rows stay backed by the instances there were, and the new row is backed by the new one. */
  lemma BackedAfterCommit(s: State, s': State, t: Ticket)
    requires forall slot | slot in s.audit.rows :: Backed(s, slot, s.audit.rows[slot])
    requires |s'.instances| == |s.instances| + 1 && s.instances <= s'.instances
    requires s'.instances[|s.instances|].tenant == t.event.tenantId != "" && s'.instances[|s.instances|].ticket == t
    requires s'.audit == s.audit
             || s'.audit == RecordOutcome(s.audit, VerifiedReport(t, Instantiated), Some(|s.instances|))
    ensures (forall slot | slot in s'.audit.rows :: Backed(s', slot, s'.audit.rows[slot])) && SuccessKept(s, s', {})
  {
    hide RecordOutcome;
    RecordOfSuccess(s.audit, t, |s.instances|);
    forall slot | slot in s'.audit.rows ensures Backed(s', slot, s'.audit.rows[slot]) {
      if slot in s.audit.rows { assert Backed(s, slot, s.audit.rows[slot]); }
    }
  }

  lemma AuditOfCommit(env: Env, c: Setting, s: State, a: Action)
    requires Commits(a) && Step(env, c, s, a).Some? && AuditBacked(s)
    requires SoundPc(env, c, s, s.workers[a.w])
    ensures var s' := Step(env, c, s, a).value;
            (forall slot | slot in s'.audit.rows :: Backed(s', slot, s'.audit.rows[slot])) && SuccessKept(s, s', {})
  {
    var t := s.workers[a.w].ticket;
    CommitFiles(env, c, s, a);
    VerifiedTenant(env, c, s, t);
    hide RecordOutcome, Backed, SuccessKept, Step;
    BackedAfterCommit(s, Step(env, c, s, a).value, t);
  }

  lemma AuditOfFailure(env: Env, c: Setting, s: State, w: nat, written: bool)
    requires Step(env, c, s, File(w, written)).Some? && AuditBacked(s)
    ensures var s' := Step(env, c, s, File(w, written)).value;
            (forall slot | slot in s'.audit.rows :: Backed(s', slot, s'.audit.rows[slot])) && SuccessKept(s, s', {})
  {
    assert HonestPc(s.workers[w]);
    var s' := Step(env, c, s, File(w, written)).value;
    RecordKeepsSuccess(s.audit, s.workers[w].report, None);
    forall slot | slot in s'.audit.rows ensures Backed(s', slot, s'.audit.rows[slot]) {
      if slot in s.audit.rows { assert Backed(s, slot, s.audit.rows[slot]); }
    }
  }

  lemma HonestStep(env: Env, c: Setting, s: State, a: Action)
    requires ByWorker(a) && Step(env, c, s, a).Some? && (a.w in s.workers ==> HonestPc(s.workers[a.w]))
    ensures a.w in Step(env, c, s, a).value.workers ==> HonestPc(Step(env, c, s, a).value.workers[a.w])
  {
  }

  /** Other steps leave outcomes and instances of rows alone, or add a row that claims no success. */
  lemma OutcomesStay(env: Env, c: Setting, s: State, a: Action)
    requires !Commits(a) && !a.File? && !a.Prune? && Step(env, c, s, a).Some?
    ensures var rows, rows' := s.audit.rows, Step(env, c, s, a).value.audit.rows;
            && (forall slot | slot in rows :: slot in rows' && rows'[slot].outcome == rows[slot].outcome
                                              && rows'[slot].instance == rows[slot].instance)
            && (forall slot | slot in rows' && slot !in rows ::
                  rows'[slot].outcome != Instantiated && rows'[slot].instance.None?)
  {
    hide Screen, VerifiedReport, KeyName, ExtractTenant;
  }

  lemma AuditOfOthers(env: Env, c: Setting, s: State, a: Action)
    requires !Commits(a) && !a.File? && Step(env, c, s, a).Some? && AuditBacked(s)
    ensures var s' := Step(env, c, s, a).value;
            && (forall slot | slot in s'.audit.rows :: Backed(s, slot, s'.audit.rows[slot]))
            && SuccessKept(s, s', PrunedSlots([a]))
  {
    var s' := Step(env, c, s, a).value;
    if a.Prune? {
      PruneStep(env, c, s, a);
    } else {
      OutcomesStay(env, c, s, a);
      NothingPruned(a);
    }
    hide Step, PrunedSlots;
    forall slot | slot in s'.audit.rows ensures Backed(s, slot, s'.audit.rows[slot]) {
      if slot in s.audit.rows { assert Backed(s, slot, s.audit.rows[slot]); }
    }
  }

  lemma AuditStep(env: Env, c: Setting, s: State, a: Action)
    requires Provenance(env, c, s) && AuditBacked(s) && Step(env, c, s, a).Some?
    ensures AuditBacked(Step(env, c, s, a).value) && SuccessKept(s, Step(env, c, s, a).value, PrunedSlots([a]))
  {
    var s' := Step(env, c, s, a).value;
    if ByWorker(a) { HonestStep(env, c, s, a); }
    StepTouchesOneWorker(env, c, s, a);
    assert forall w | w in s'.workers :: HonestPc(s'.workers[w]);
    if Commits(a) {
      assert SoundPc(env, c, s, s.workers[a.w]);
      AuditOfCommit(env, c, s, a);
    } else if a.File? {
      AuditOfFailure(env, c, s, a.w, a.written);
    } else {
      AuditOfOthers(env, c, s, a);
    }
  }

  /**
   Over every run a recorded success stays recorded until its row is pruned, and every success row is backed by an
   instance.
  */
  lemma {:induction false} AuditTrail(env: Env, c: Setting, s: State, actions: seq<Action>)
    requires Provenance(env, c, s) && AuditBacked(s) && Run(env, c, s, actions).Some?
    ensures AuditBacked(Run(env, c, s, actions).value)
    ensures SuccessKept(s, Run(env, c, s, actions).value, PrunedSlots(actions))
    decreases |actions|
  {
    hide Step, Provenance, AuditBacked;
    if actions != [] {
      var next := Step(env, c, s, actions[0]).value;
      ProvenanceStep(env, c, s, actions[0]);
      AuditStep(env, c, s, actions[0]);
      AuditTrail(env, c, next, actions[1..]);
      PrunedOneByOne(actions);
    }
  }

  // ------------------------------------------------------------------ conservation

  predicate SettlesWorker(pc: Pc) { pc.Acking? || pc.Releasing? }

  function Settled(workers: map<nat, Pc>): set<nat> { set w | w in workers && SettlesWorker(workers[w]) }

  /** The steps after which a message already counted goes on to the failure handler, which counts it again. */
  predicate CountsTwice(a: Action) {
    || (a.Start? && a.result.CommittedThenRaised?)
    || (a.CountDuplicate? && a.breaks)
    || (a.FileUnreadable? && a.breaks)
  }

  function Twice(actions: seq<Action>): nat {
    if actions == [] then 0 else One(CountsTwice(actions[0])) + Twice(actions[1..])
  }

  /** Every delivery is in progress or acked; every acked or nearly acked one had one outcome, but for `twice`. */
  predicate Balanced(s: State, twice: nat) {
    && s.tally.delivered == s.tally.acked + |s.workers|
    && Outcomes(s.tally) == s.tally.acked + |Settled(s.workers)| + twice
    && s.tally.instantiated == |s.instances|
  }

  function One(b: bool): nat { if b then 1 else 0 }

  lemma SizeWithout(all: set<nat>, w: nat)
    ensures |all| == |all - {w}| + One(w in all)
  {
    if w in all {
      assert all == (all - {w}) + {w};
    } else {
      assert all == all - {w};
    }
  }

  lemma DifferAtOne(before: set<nat>, after: set<nat>, w: nat)
    requires before - {w} == after - {w}
    ensures |after| + One(w in before) == |before| + One(w in after)
  {
    SizeWithout(before, w);
    SizeWithout(after, w);
  }

  predicate Settles(workers: map<nat, Pc>, w: nat) { w in workers && SettlesWorker(workers[w]) }

  /** Changing one worker changes the two head counts by that worker alone. */
  lemma HeadCount(before: map<nat, Pc>, after: map<nat, Pc>, w: nat)
    requires forall v | v != w :: v in after <==> v in before
    requires forall v | v != w && v in before :: after[v] == before[v]
    ensures |after| + One(w in before) == |before| + One(w in after)
    ensures |Settled(after)| + One(Settles(before, w)) == |Settled(before)| + One(Settles(after, w))
  {
    DifferAtOne(before.Keys, after.Keys, w);
    assert |before| == |before.Keys| && |after| == |after.Keys|;
    DifferAtOne(Settled(before), Settled(after), w);
  }

  function Outcomes(t: Tally): nat { t.instantiated + t.duplicates + t.failures }

  /**
   The tally moves with the acting worker: a delivery when it starts, an outcome when it settles or is about to be
   counted twice, an ack when it ends.
  */
  lemma TallyStep(env: Env, c: Setting, s: State, a: Action)
    requires ByWorker(a) && Step(env, c, s, a).Some? && !a.Crash?
    ensures var s' := Step(env, c, s, a).value;
            && s'.tally.delivered + s.tally.acked + One(a.w in s.workers) ==
               s.tally.delivered + s'.tally.acked + One(a.w in s'.workers)
            && Outcomes(s'.tally) + s.tally.acked + One(Settles(s.workers, a.w)) ==
               Outcomes(s.tally) + s'.tally.acked + One(Settles(s'.workers, a.w)) + One(CountsTwice(a))
            && s'.tally.instantiated + |s.instances| == s.tally.instantiated + |s'.instances|
  {
    hide RecordOutcome, RecordDuplicate, RecordQueued, Screen, Unverified, VerifiedReport, KeyName;
  }

  lemma BalancedStep(env: Env, c: Setting, s: State, a: Action, twice: nat)
    requires Balanced(s, twice) && Step(env, c, s, a).Some? && !a.Crash?
    ensures Balanced(Step(env, c, s, a).value, twice + One(CountsTwice(a)))
  {
    hide Step, HoldsName, Settled;
    var s' := Step(env, c, s, a).value;
    if ByWorker(a) {
      TallyStep(env, c, s, a);
      OthersStay(env, c, s, a);
      HeadCount(s.workers, s'.workers, a.w);
    } else {
      NobodyMoves(env, c, s, a);
    }
  }

  lemma OthersStay(env: Env, c: Setting, s: State, a: Action)
    requires ByWorker(a) && Step(env, c, s, a).Some?
    ensures var s' := Step(env, c, s, a).value;
            forall v | v != a.w ::
              (v in s'.workers <==> v in s.workers) && (v in s.workers ==> s'.workers[v] == s.workers[v])
  {
    StepTouchesOneWorker(env, c, s, a);
  }

  lemma NobodyMoves(env: Env, c: Setting, s: State, a: Action)
    requires !ByWorker(a) && Step(env, c, s, a).Some?
    ensures var s' := Step(env, c, s, a).value;
            s'.workers == s.workers && s'.tally == s.tally && s'.instances == s.instances && !CountsTwice(a)
  {
    hide RecordQueued;
  }

  lemma {:induction false} BalancedRun(env: Env, c: Setting, s: State, actions: seq<Action>, twice: nat)
    requires Balanced(s, twice) && Run(env, c, s, actions).Some? && NobodyCrashes(actions)
    ensures Balanced(Run(env, c, s, actions).value, twice + Twice(actions))
    decreases |actions|
  {
    hide Step, Balanced;
    if actions != [] {
      BalancedStep(env, c, s, actions[0], twice);
      BalancedRun(env, c, Step(env, c, s, actions[0]).value, actions[1..], twice + One(CountsTwice(actions[0])));
    }
  }

  /**
   Conservation: in a crash-free run that has come to rest, instances, duplicates and failures add up to the acks and
   the messages that were counted before something raised and sent them to the failure handler.
  */
  lemma NothingIsLostCountOf(env: Env, c: Setting, actions: seq<Action>)
    requires Run(env, c, INITIAL, actions).Some? && NobodyCrashes(actions)
    requires Quiet(Run(env, c, INITIAL, actions).value)
    ensures var s := Run(env, c, INITIAL, actions).value;
            && s.tally.delivered == s.tally.acked
            && |s.instances| + s.tally.duplicates + s.tally.failures == s.tally.acked + Twice(actions)
  {
    hide Run, Twice, Balanced;
    StartsBalanced();
    BalancedRun(env, c, INITIAL, actions, 0);
    BalancedAtRest(Run(env, c, INITIAL, actions).value, Twice(actions));
  }

  lemma StartsBalanced()
    ensures Balanced(INITIAL, 0)
  {
    assert Settled(INITIAL.workers) == {};
  }

  lemma BalancedAtRest(s: State, twice: nat)
    requires Balanced(s, twice) && Quiet(s)
    ensures s.tally.delivered == s.tally.acked
    ensures |s.instances| + s.tally.duplicates + s.tally.failures == s.tally.acked + twice
  {
    assert Settled(s.workers) == {};
  }
}
