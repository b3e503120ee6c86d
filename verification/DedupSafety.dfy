/**
 Timed at-most-once: with any number of workers, redeliveries, crashes and expiries, one
 event commits at most one instance, if the dedup bucket outlives the replay window and no two tenants'
 keys can meet.
*/
module DedupSafety {
  import opened Wrappers
  import opened Subject
  import opened TriggerProtocol

  ghost predicate AtMostOnce(s: State) {
    forall i, j | 0 <= i < j < |s.instances| && s.instances[i].ticket.event.id != "" ::
      s.instances[i].tenant != s.instances[j].tenant ||
      s.instances[i].ticket.event.id != s.instances[j].ticket.event.id
  }

  /** Each signed event id has one issue time, and every active key is some tenant's. */
  ghost predicate WellFormed(env: Env) {
    && (forall e: Event | env.verifies(e) && e.issuedAt.Some? ::
          e.issuedAt.value == env.issuedAt(e.tenantId, e.id))
    && (forall id, now: nat | env.resolve(id, now).Some? :: env.resolve(id, now).value.tenantId in env.tenants)
  }

  // ------------------------------------------------------------------ dedup keys

  /** A key of the second tenant can read as one of the first. */
  predicate Shadows(t: string, u: string) { t + "-" <= u }

  /** No tenant shadows another. An empty id is no tenant's: the gates refuse it. */
  ghost predicate PrefixFree(tenants: set<string>) {
    forall t, u | t in tenants && u in tenants && t != "" :: !Shadows(t, u)
  }

  predicate Serves(env: Env, tenant: string) { tenant in env.tenants && tenant != "" }

  lemma LongerTenantIsShadowed(t1: string, e1: string, t2: string, e2: string)
    requires KeyName(t1, e1) == KeyName(t2, e2) && |t1| < |t2|
    ensures Shadows(t1, t2)
  {
    var k := KeyName(t1, e1);
    assert k[..|t1| + 1] == t1 + "-" && k[..|t2|] == t2;
    assert k[..|t1| + 1] == k[..|t2|][..|t1| + 1];
  }

  /** Unless one tenant shadows the other, a key names one tenant and one event. */
  lemma KeyNameInjective(t1: string, e1: string, t2: string, e2: string)
    requires !Shadows(t1, t2) && !Shadows(t2, t1) && KeyName(t1, e1) == KeyName(t2, e2)
    ensures t1 == t2 && e1 == e2
  {
    if |t1| < |t2| {
      LongerTenantIsShadowed(t1, e1, t2, e2);
    } else if |t2| < |t1| {
      LongerTenantIsShadowed(t2, e2, t1, e1);
    } else {
      var k1, k2 := KeyName(t1, e1), KeyName(t2, e2);
      assert k1[..|t1|] == t1 && k2[..|t2|] == t2;
      assert k1[|t1| + 1..] == e1 && k2[|t2| + 1..] == e2;
    }
  }

  /** The event of tenant `t` that has the key of `(u, eventId)`. */
  function Twin(t: string, u: string, eventId: string): string
    requires Shadows(t, u)
  {
    u[|t| + 1..] + "-" + eventId
  }

  lemma TwinHasTheKey(t: string, u: string, eventId: string)
    requires Shadows(t, u)
    ensures KeyName(t, Twin(t, u, eventId)) == KeyName(u, eventId) && Twin(t, u, eventId) != ""
  {
    assert u == t + "-" + u[|t| + 1..];
  }

  /** Two tenants can have events with one key exactly when one of them shadows the other. */
  lemma KeysMeetExactlyWhen(t1: string, t2: string)
    requires t1 != t2
    ensures (exists e1, e2 :: KeyName(t1, e1) == KeyName(t2, e2)) <==> Shadows(t1, t2) || Shadows(t2, t1)
  {
    if e1, e2 :| KeyName(t1, e1) == KeyName(t2, e2) {
      if !Shadows(t1, t2) && !Shadows(t2, t1) { KeyNameInjective(t1, e1, t2, e2); }
    }
    if Shadows(t1, t2) { TwinHasTheKey(t1, t2, ""); }
    if Shadows(t2, t1) { TwinHasTheKey(t2, t1, ""); }
  }

  const BASE_TENANT := "m8flow"

  predicate IsUuid(id: string) { |id| == 36 && forall ch | ch in id :: ch in "0123456789abcdef-" }

  /** The seeded base tenant beside organizations whose ids are UUIDs. */
  lemma UuidsAndTheBaseTenantArePrefixFree(tenants: set<string>)
    requires forall t | t in tenants :: t == BASE_TENANT || IsUuid(t)
    ensures PrefixFree(tenants)
  {
    forall t, u | t in tenants && u in tenants ensures !Shadows(t, u) {
      if t == BASE_TENANT && IsUuid(u) {
        assert u[0] in u;
        assert (t + "-")[0] == 'm' != u[0];
      }
    }
  }

  // ------------------------------------------------------------------ tokens

  /** The claim a worker still has to answer for. */
  function Held(pc: Pc): Option<Claim> {
    match pc
    case Claimed(_, claim) => claim
    case Failed(_, _, claim) => claim
    case Releasing(_, held) => Some(held)
    case _ => None
  }

  ghost predicate HoldsName(s: State, w: nat, name: string) {
    w in s.workers && Held(s.workers[w]).Some? && NameOf(Held(s.workers[w]).value) == name
  }

  ghost predicate SpentName(s: State, i: nat, name: string) {
    i < |s.instances| && s.instances[i].claim.Some? && NameOf(s.instances[i].claim.value) == name
  }

  ghost predicate NameUnused(s: State, name: string) {
    (forall w :: !HoldsName(s, w, name)) && (forall i :: !SpentName(s, i, name))
  }

  /** No dedup key is answered for twice, by workers or by committed instances. */
  ghost predicate Exclusive(s: State) {
    && (forall v, w, name | v != w && HoldsName(s, v, name) :: !HoldsName(s, w, name))
    && (forall w, i, name | HoldsName(s, w, name) :: !SpentName(s, i, name))
    && (forall i, j, name | i != j && SpentName(s, i, name) :: !SpentName(s, j, name))
  }

  ghost predicate NewClaim(s: State, a: Action) {
    a.Acquire? && a.w in s.workers && s.workers[a.w].Scoped? && s.workers[a.w].ticket.event.id != ""
  }

  function ClaimedName(t: Ticket): string { KeyName(t.event.tenantId, t.event.id) }

  predicate Commits(a: Action) { a.Start? && (a.result.Committed? || a.result.CommittedThenRaised?) }

  predicate ByWorker(a: Action) { !a.Tick? && !a.Publish? && !a.Enqueue? && !a.Expire? && !a.Prune? }

  /** Only commits add instances, only three actions touch the bucket, and time and stream only grow. */
  lemma StepFrame(env: Env, c: Setting, s: State, a: Action)
    requires Step(env, c, s, a).Some?
    ensures var s' := Step(env, c, s, a).value;
            && (!Commits(a) ==> s'.instances == s.instances)
            && (!a.Acquire? && !a.Release? && !a.Expire? ==> s'.kv == s.kv)
            && s.now <= s'.now && s.stream <= s'.stream
  {
    hide RecordOutcome, RecordDuplicate, RecordQueued, PruneRows, FirstPc, Unverified, KeyName, VerifiedReport;
  }

  /** A step touches at most one worker, and only a claim gives it something new to hold. */
  lemma StepTouchesOneWorker(env: Env, c: Setting, s: State, a: Action)
    requires Step(env, c, s, a).Some?
    ensures var s' := Step(env, c, s, a).value;
            && (forall v | !ByWorker(a) || v != a.w :: v in s'.workers <==> v in s.workers)
            && (forall v | v in s.workers && (!ByWorker(a) || v != a.w) :: s'.workers[v] == s.workers[v])
            && (ByWorker(a) && a.w in s'.workers && Held(s'.workers[a.w]).Some? && !a.Acquire? ==>
                  a.w in s.workers && Held(s'.workers[a.w]) == Held(s.workers[a.w]))
            && (!Commits(a) ==> s'.instances == s.instances)
            && (!a.Acquire? && !a.Release? && !a.Expire? ==> s'.kv == s.kv)
            && s.now <= s'.now && s.stream <= s'.stream
  {
    hide RecordOutcome, RecordDuplicate, RecordQueued, PruneRows, Screen, Unverified, KeyName, VerifiedReport;
    StepFrame(env, c, s, a);
  }

  /** Exclusiveness survives every step whose new claim, if any, is on an unused key. */
  lemma ExclusiveStep(env: Env, c: Setting, s: State, a: Action)
    requires Exclusive(s) && Step(env, c, s, a).Some? && !c.lateErrors
    requires NewClaim(s, a) && Step(env, c, s, a).value.workers[a.w].Claimed? ==>
               NameUnused(s, ClaimedName(s.workers[a.w].ticket))
    ensures Exclusive(Step(env, c, s, a).value)
  {
    if a.Acquire? {
      ExclusiveAcquire(env, c, s, a.w, a.outage);
    } else if Commits(a) {
      ExclusiveCommit(env, c, s, a.w, a.written);
    } else {
      StepTouchesOneWorker(env, c, s, a);
      var s' := Step(env, c, s, a).value;
      assert forall w, name | HoldsName(s', w, name) :: HoldsName(s, w, name) by {
        assert forall w | w in s'.workers && Held(s'.workers[w]).Some? ::
               w in s.workers && Held(s.workers[w]) == Held(s'.workers[w]);
      }
      ExclusiveFrame(s, s');
    }
  }

  lemma ExclusiveAcquire(env: Env, c: Setting, s: State, w: nat, outage: bool)
    requires Exclusive(s) && Step(env, c, s, Acquire(w, outage)).Some?
    requires NewClaim(s, Acquire(w, outage)) && Step(env, c, s, Acquire(w, outage)).value.workers[w].Claimed? ==>
               NameUnused(s, ClaimedName(s.workers[w].ticket))
    ensures Exclusive(Step(env, c, s, Acquire(w, outage)).value)
  {
    var s' := Step(env, c, s, Acquire(w, outage)).value;
    var t := s.workers[w].ticket;
    assert forall v, name | HoldsName(s', v, name) ::
        HoldsName(s, v, name) || (v == w && name == ClaimedName(t) && s'.workers[w].Claimed? && t.event.id != "");
    assert forall i, name :: SpentName(s', i, name) == SpentName(s, i, name);
  }

  lemma ExclusiveCommit(env: Env, c: Setting, s: State, w: nat, written: bool)
    requires Exclusive(s) && Step(env, c, s, Start(w, Committed, written)).Some?
    ensures Exclusive(Step(env, c, s, Start(w, Committed, written)).value)
  {
    var s' := Step(env, c, s, Start(w, Committed, written)).value;
    var last := |s.instances|;
    assert forall name | SpentName(s', last, name) :: HoldsName(s, w, name);
    assert forall i: nat, name | SpentName(s', i, name) && i != last :: SpentName(s, i, name);
    assert forall v, name | HoldsName(s', v, name) :: v != w && HoldsName(s, v, name);
  }

  lemma ExclusiveFrame(s: State, s': State)
    requires Exclusive(s)
    requires forall w, name :: HoldsName(s', w, name) ==> HoldsName(s, w, name)
    requires forall i, name :: SpentName(s', i, name) ==> SpentName(s, i, name)
    ensures Exclusive(s')
  {
  }

  // ------------------------------------------------------------------ timing

  /** A claim's key is still in the bucket, unless the claim is older than the bucket remembers. */
  predicate Remembered(c: Setting, s: State, claim: Claim) {
    (NameOf(claim) in s.kv && s.kv[NameOf(claim)] == claim.at) || s.now >= claim.at + c.ttl
  }

  predicate Timely(env: Env, c: Setting, s: State, claim: Claim) {
    && claim.at <= s.now
    && claim.eventId != ""
    && Serves(env, claim.tenant)
    && env.issuedAt(claim.tenant, claim.eventId) <= claim.at + c.maxAge
    && Remembered(c, s, claim)
  }

  /** The event passed the freshness check at `checkedAt`, with the issue time its id was signed with. */
  predicate Dated(env: Env, c: Setting, e: Event, checkedAt: nat, now: nat) {
    && checkedAt <= now && e.tenantId != ""
    && -(c.maxAge as int) <= checkedAt - env.issuedAt(e.tenantId, e.id) <= c.maxAge
  }

  predicate DatedPc(env: Env, c: Setting, pc: Pc, now: nat) {
    match pc
    case Screened(_, _, e, at) => Dated(env, c, e, at, now)
    case Verified(t) => Dated(env, c, t.event, t.checkedAt, now) && Serves(env, t.event.tenantId)
    case Scoped(t) => Dated(env, c, t.event, t.checkedAt, now) && Serves(env, t.event.tenantId)
    case Claimed(t, claim) =>
      (claim.None? <==> t.event.id == "") &&
      (claim.Some? ==> claim.value.tenant == t.event.tenantId && claim.value.eventId == t.event.id)
    case _ => true
  }

  ghost predicate Timeline(env: Env, c: Setting, s: State) {
    && (forall w | w in s.workers :: DatedPc(env, c, s.workers[w], s.now))
    && (forall w | w in s.workers && Held(s.workers[w]).Some? :: Timely(env, c, s, Held(s.workers[w]).value))
    && (forall i | 0 <= i < |s.instances| && s.instances[i].claim.Some? ::
      Timely(env, c, s, s.instances[i].claim.value))
    && (forall i | 0 <= i < |s.instances| :: Labelled(s.instances[i]))
  }

  predicate Labelled(made: Instance) {
    && made.tenant == made.ticket.event.tenantId
    && (made.claim.None? <==> made.ticket.event.id == "")
    && (made.claim.Some? ==> made.claim.value.tenant == made.tenant && made.claim.value.eventId == made.ticket.event.id)
  }

  predicate LongEnough(c: Setting) { c.ttl > 2 * c.maxAge + c.lag }

  predicate Reliable(c: Setting) { !c.outages && !c.lateErrors }

  /** The heart: a key that can be created was never claimed before, by anyone. */
  lemma CreatedKeyWasUnused(env: Env, c: Setting, s: State, t: Ticket)
    requires Timeline(env, c, s) && LongEnough(c) && PrefixFree(env.tenants)
    requires Dated(env, c, t.event, t.checkedAt, s.now) && Serves(env, t.event.tenantId)
    requires s.now <= t.checkedAt + c.lag
    requires ClaimedName(t) !in s.kv
    ensures NameUnused(s, ClaimedName(t))
  {
    var name := ClaimedName(t);
    forall w ensures !HoldsName(s, w, name) {
      if HoldsName(s, w, name) { OldClaimIsAlive(env, c, s, t, Held(s.workers[w]).value); }
    }
    forall i: nat ensures !SpentName(s, i, name) {
      if SpentName(s, i, name) { OldClaimIsAlive(env, c, s, t, s.instances[i].claim.value); }
    }
  }

  lemma OldClaimIsAlive(env: Env, c: Setting, s: State, t: Ticket, claim: Claim)
    requires Timely(env, c, s, claim) && LongEnough(c) && PrefixFree(env.tenants)
    requires Dated(env, c, t.event, t.checkedAt, s.now) && Serves(env, t.event.tenantId)
    requires s.now <= t.checkedAt + c.lag && NameOf(claim) == ClaimedName(t)
    ensures ClaimedName(t) in s.kv
  {
    KeyNameInjective(claim.tenant, claim.eventId, t.event.tenantId, t.event.id);
  }

  lemma DatedDelivery(env: Env, c: Setting, s: State, w: nat, seqNo: nat)
    requires WellFormed(env) && Step(env, c, s, Deliver(w, seqNo)).Some?
    ensures DatedPc(env, c, FirstPc(env, c, s.now, s.stream[seqNo], seqNo), s.now)
    ensures Step(env, c, s, Deliver(w, seqNo)).value.workers[w] == FirstPc(env, c, s.now, s.stream[seqNo], seqNo)
  {
    hide Unverified, ExtractTenant;
  }

  lemma DatedLookup(env: Env, c: Setting, s: State, w: nat, broken: bool)
    requires WellFormed(env) && Step(env, c, s, Lookup(w, broken)).Some? && DatedPc(env, c, s.workers[w], s.now)
    ensures DatedPc(env, c, Step(env, c, s, Lookup(w, broken)).value.workers[w], s.now)
  {
    hide Unverified;
  }

  lemma DatedActor(env: Env, c: Setting, s: State, a: Action)
    requires ByWorker(a) && !a.Deliver? && !a.Lookup? && Step(env, c, s, a).Some?
             && DatedPc(env, c, s.workers[a.w], s.now)
    ensures var s' := Step(env, c, s, a).value; a.w in s'.workers ==> DatedPc(env, c, s'.workers[a.w], s'.now)
  {
    hide RecordOutcome, RecordDuplicate, RecordQueued, KeyName, VerifiedReport;
  }

  lemma DatedStep(env: Env, c: Setting, s: State, a: Action)
    requires WellFormed(env) && Step(env, c, s, a).Some?
    requires forall w | w in s.workers :: DatedPc(env, c, s.workers[w], s.now)
    ensures var s' := Step(env, c, s, a).value; forall w | w in s'.workers :: DatedPc(env, c, s'.workers[w], s'.now)
  {
    StepTouchesOneWorker(env, c, s, a);
    if a.Deliver? {
      DatedDelivery(env, c, s, a.w, a.seqNo);
      assert Step(env, c, s, a).value.now == s.now;
    } else if a.Lookup? {
      DatedLookup(env, c, s, a.w, a.broken);
      assert Step(env, c, s, a).value.now == s.now;
    } else if ByWorker(a) {
      DatedActor(env, c, s, a);
    }
    hide Step;
    var s' := Step(env, c, s, a).value;
    forall w | w in s'.workers ensures DatedPc(env, c, s'.workers[w], s'.now) {
      if !ByWorker(a) || w != a.w {
        assert DatedPc(env, c, s.workers[w], s.now);
        DatedLater(env, c, s.workers[w], s.now, s'.now);
      }
    }
  }

  lemma DatedLater(env: Env, c: Setting, pc: Pc, now: nat, later: nat)
    requires DatedPc(env, c, pc, now) && now <= later
    ensures DatedPc(env, c, pc, later)
  {
  }

  /** What a step does to one key of the bucket: nothing, unless it claims, releases or expires that key. */
  lemma BucketStep(env: Env, c: Setting, s: State, a: Action, claim: Claim)
    requires Reliable(c) && Step(env, c, s, a).Some? && Remembered(c, s, claim)
    requires a.Release? ==> !HoldsName(s, a.w, NameOf(claim))
    ensures Remembered(c, Step(env, c, s, a).value, claim)
  {
    StepTouchesOneWorker(env, c, s, a);
  }

  lemma TimelyStep(env: Env, c: Setting, s: State, a: Action)
    requires WellFormed(env) && Reliable(c) && Exclusive(s) && Timeline(env, c, s) && Step(env, c, s, a).Some?
    ensures var s' := Step(env, c, s, a).value;
            forall w | w in s'.workers && Held(s'.workers[w]).Some? :: Timely(env, c, s', Held(s'.workers[w]).value)
  {
    StepTouchesOneWorker(env, c, s, a);
    var s' := Step(env, c, s, a).value;
    forall w | w in s'.workers && Held(s'.workers[w]).Some? ensures Timely(env, c, s', Held(s'.workers[w]).value) {
      var claim := Held(s'.workers[w]).value;
      if w in s.workers && Held(s.workers[w]) == Some(claim) {
        assert HoldsName(s, w, NameOf(claim));
        assert a.Release? ==> a.w != w;
        BucketStep(env, c, s, a, claim);
      } else {
        assert a.Acquire? && w == a.w;
        assert DatedPc(env, c, s.workers[w], s.now);
      }
    }
  }

  lemma InstancesStep(env: Env, c: Setting, s: State, a: Action)
    requires WellFormed(env) && Reliable(c) && Exclusive(s) && Timeline(env, c, s) && Step(env, c, s, a).Some?
    ensures var s' := Step(env, c, s, a).value;
            && (forall i | 0 <= i < |s'.instances| && s'.instances[i].claim.Some? ::
              Timely(env, c, s', s'.instances[i].claim.value))
            && (forall i | 0 <= i < |s'.instances| :: Labelled(s'.instances[i]))
  {
    StepTouchesOneWorker(env, c, s, a);
    var s' := Step(env, c, s, a).value;
    if Commits(a) {
      assert DatedPc(env, c, s.workers[a.w], s.now);
    }
    forall i | 0 <= i < |s'.instances| && s'.instances[i].claim.Some?
      ensures Timely(env, c, s', s'.instances[i].claim.value)
    {
      var claim := s'.instances[i].claim.value;
      if i < |s.instances| {
        assert SpentName(s, i, NameOf(claim));
        BucketStep(env, c, s, a, claim);
      } else {
        assert Held(s.workers[a.w]) == Some(claim);
      }
    }
  }

  lemma TimelineStep(env: Env, c: Setting, s: State, a: Action)
    requires WellFormed(env) && Reliable(c) && Exclusive(s) && Timeline(env, c, s) && Step(env, c, s, a).Some?
    ensures Timeline(env, c, Step(env, c, s, a).value)
  {
    DatedStep(env, c, s, a);
    TimelyStep(env, c, s, a);
    InstancesStep(env, c, s, a);
  }

  ghost predicate Guarded(env: Env, c: Setting, s: State) { Exclusive(s) && Timeline(env, c, s) }

  lemma GuardedStep(env: Env, c: Setting, s: State, a: Action)
    requires WellFormed(env) && PrefixFree(env.tenants) && Reliable(c) && LongEnough(c)
    requires Guarded(env, c, s) && Step(env, c, s, a).Some?
    ensures Guarded(env, c, Step(env, c, s, a).value)
  {
    if NewClaim(s, a) && Step(env, c, s, a).value.workers[a.w].Claimed? {
      CreatedKeyWasUnused(env, c, s, s.workers[a.w].ticket);
    }
    ExclusiveStep(env, c, s, a);
    TimelineStep(env, c, s, a);
  }

  lemma {:induction false} GuardedRun(env: Env, c: Setting, s: State, actions: seq<Action>)
    requires WellFormed(env) && PrefixFree(env.tenants) && Reliable(c) && LongEnough(c)
    requires Guarded(env, c, s) && Run(env, c, s, actions).Some?
    ensures Guarded(env, c, Run(env, c, s, actions).value)
    decreases |actions|
  {
    if actions != [] {
      GuardedStep(env, c, s, actions[0]);
      GuardedRun(env, c, Step(env, c, s, actions[0]).value, actions[1..]);
    }
  }

  lemma GuardedIsAtMostOnce(env: Env, c: Setting, s: State)
    requires Guarded(env, c, s)
    ensures AtMostOnce(s)
  {
    forall i, j | 0 <= i < j < |s.instances| && s.instances[i].ticket.event.id != ""
      ensures s.instances[i].tenant != s.instances[j].tenant ||
              s.instances[i].ticket.event.id != s.instances[j].ticket.event.id
    {
      assert Labelled(s.instances[i]) && Labelled(s.instances[j]);
      if s.instances[i].tenant == s.instances[j].tenant &&
         s.instances[i].ticket.event.id == s.instances[j].ticket.event.id {
        var name := NameOf(s.instances[i].claim.value);
        assert SpentName(s, i, name) && SpentName(s, j, name);
      }
    }
  }

  /** Main safety result: every run of any number of workers commits each event at most once. */
  lemma EveryRunIsAtMostOnce(env: Env, c: Setting, actions: seq<Action>)
    requires WellFormed(env) && PrefixFree(env.tenants) && Reliable(c) && LongEnough(c)
    requires Run(env, c, INITIAL, actions).Some?
    ensures AtMostOnce(Run(env, c, INITIAL, actions).value)
  {
    assert Guarded(env, c, INITIAL);
    GuardedRun(env, c, INITIAL, actions);
    GuardedIsAtMostOnce(env, c, Run(env, c, INITIAL, actions).value);
  }
}
