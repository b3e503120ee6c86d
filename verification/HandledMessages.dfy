/**
 What handling one message leaves, in terms of the message, the answers and the tables alone: the gates in
 order, the audit row of every outcome, the instance, the dedup key and the counts.
*/
module HandledMessages {
  import opened Wrappers
  import opened Subject
  import opened TriggerProtocol
  import opened TriggerTransaction
  import opened TriggerConsumer

  // ------------------------------------------------------------------ the gates

  /** The subject is `m8flow.events.<slug>.trigger`. */
  predicate Names(subject: string, slug: string) {
    slug != "" && '.' !in slug && subject == "m8flow.events." + slug + ".trigger"
  }

  /** The subject and the payload both name a tenant, and the payload's slug, if there is one, is the subject's. */
  ghost predicate Addressed(subject: string, e: Event) {
    (exists slug :: Names(subject, slug)) && e.tenantId != "" && (e.tenantSlug == "" || Names(subject, e.tenantSlug))
  }

  /** It also names a process and carries a valid signature. */
  ghost predicate Signed(env: Env, subject: string, e: Event) {
    Addressed(subject, e) && e.process != "" && e.apiKeyId != "" && env.verifies(e)
  }

  /** And it was issued within the window, before or after now. */
  ghost predicate Timely(env: Env, c: Setting, now: nat, subject: string, e: Event) {
    && Signed(env, subject, e)
    && e.issuedAt.Some? && e.issuedAt.value <= now + c.maxAge && now <= e.issuedAt.value + c.maxAge
  }

  lemma SlugIsNamed(subject: string, slug: string)
    ensures ExtractTenant(subject) == Some(slug) <==> Names(subject, slug)
    ensures ExtractTenant(subject).Some? <==> exists named :: Names(subject, named)
  {
    SlugFits(subject, slug);
    if ExtractTenant(subject).Some? { SlugFits(subject, ExtractTenant(subject).value); }
    if named :| Names(subject, named) { SlugFits(subject, named); }
  }

  lemma SlugFits(subject: string, slug: string)
    ensures ExtractTenant(subject) == Some(slug) <==> Names(subject, slug)
  {
    hide ExtractTenant;
    ExtractTenantExactly(subject, slug);
    assert Dotted("m8flow", "events", slug, "trigger") == "m8flow.events." + slug + ".trigger";
  }

  /** Which gate refuses a readable message: each outcome in terms of the fields, the clock and the services. */
  lemma GatesInOrder(env: Env, c: Setting, now: nat, m: Message, ans: Answers)
    requires m.body.Some?
    ensures var e, key := m.body.value, env.resolve(m.body.value.apiKeyId, now);
            var refusal, timely := Refusal(env, c, now, m, ans), Timely(env, c, now, m.subject, m.body.value);
            && (refusal == Some(InvalidPayload) <==>
                || !(exists slug :: Names(m.subject, slug)) || e.tenantId == ""
                || (Addressed(m.subject, e) && e.process == ""))
            && (refusal == Some(RejectedStale) <==> Signed(env, m.subject, e) && !timely)
            && (refusal == Some(TransientError) <==> timely && ans.lookupBroken)
            && (refusal == Some(RejectedAuth) <==>
                || (Addressed(m.subject, e) && e.process != "" && !Signed(env, m.subject, e))
                || (timely && !ans.lookupBroken && key.None?))
            && (refusal == Some(TenantMismatch) <==>
                || ((exists slug :: Names(m.subject, slug)) && e.tenantId != "" && !Addressed(m.subject, e))
                || (timely && !ans.lookupBroken && key.Some? && key.value.tenantId != e.tenantId))
            && (refusal == Some(RejectedScope) <==>
                && timely && !ans.lookupBroken && key.Some? && key.value.tenantId == e.tenantId
                && !env.scopeAllows(key.value.scope, e.process))
            && (refusal == None <==>
                && timely && !ans.lookupBroken && key.Some? && key.value.tenantId == e.tenantId
                && env.scopeAllows(key.value.scope, e.process))
            && (SenderVerified(env, c, now, m, ans) <==>
                timely && !ans.lookupBroken && key.Some? && key.value.tenantId == e.tenantId)
  {
    hide ExtractTenant, Names;
    SlugIsNamed(m.subject, m.body.value.tenantSlug);
  }

  // ------------------------------------------------------------------ the audit row

  /**
   A report was filed under `tenant`. Without an event id it is a new row. With one it takes its slot: if that was
   free; or if the sender is verified, and the row holds this outcome already or no final one. Else nothing changes.
  */
  ghost predicate Filed(before: Audit, after: Audit, tenant: string, id: string, outcome: Outcome,
      instance: Option<nat>, verified: bool)
  {
    var slot := (tenant, id);
    if id == "" then
      after.rows == before.rows && after.anonymous == before.anonymous + [(tenant, Row(outcome, instance, 0))]
    else if slot !in before.rows then
      after == before.(rows := before.rows[slot := Row(outcome, instance, 0)])
    else
      var row := before.rows[slot];
      if verified && (row.outcome == outcome || (row.outcome != Instantiated && outcome != Queued)) then
        after == before.(rows := before.rows[slot :=
          Row(outcome, if instance == None then row.instance else instance, row.duplicates)])
      else after == before
  }

  /** A repetition was counted on the row of its event, which keeps its outcome, or on a new row. */
  ghost predicate Repetition(before: Audit, after: Audit, tenant: string, id: string) {
    && after.anonymous == before.anonymous
    && after.rows == before.rows[(tenant, id) :=
         if (tenant, id) in before.rows
         then before.rows[(tenant, id)].(duplicates := before.rows[(tenant, id)].duplicates + 1)
         else Row(Duplicate, None, 1)]
  }

  ghost predicate Counts(before: Audit, after: Audit, e: Event, noted: bool) {
    if noted then Repetition(before, after, e.tenantId, e.id) else after == before
  }

  ghost predicate Succeeds(before: Audit, after: Audit, e: Event, index: nat, written: bool) {
    if written then Filed(before, after, e.tenantId, e.id, Instantiated, Some(index), true) else after == before
  }

  ghost predicate ThenFails(before: Audit, after: Audit, e: Event, written: bool) {
    if written then Filed(before, after, e.tenantId, e.id, TransientError, None, true) else after == before
  }

  /** The host's tenant for the slug in the subject or, without one, the common tenant of what is unattributed. */
  ghost predicate OfSubject(env: Env, subject: string, tenant: string) {
    if slug :| Names(subject, slug) && env.tenantOfSlug(slug).Some? && env.tenantOfSlug(slug).value != ""
    then env.tenantOfSlug(slug) == Some(tenant) else tenant == "__unattributed__"
  }

  lemma OfSubjectIsReported(env: Env, subject: string, id: string, outcome: Outcome, tenant: string)
    requires OfSubject(env, subject, tenant)
    ensures Attributed(Unverified(env, subject, id, outcome).tenant) == tenant
    ensures Unverified(env, subject, id, outcome).eventId == id
    ensures Unverified(env, subject, id, outcome).outcome == outcome
    ensures Unverified(env, subject, id, outcome).insertOnly == (id != "")
  {
    hide ExtractTenant, Names;
    forall slug | Names(subject, slug)
      ensures ExtractTenant(subject) == Some(slug)
    {
      SlugIsNamed(subject, slug);
    }
    if ExtractTenant(subject).Some? { SlugIsNamed(subject, ExtractTenant(subject).value); }
  }

  lemma RecordFiles(before: Audit, report: Report, instance: Option<nat>, verified: bool)
    requires report.eventId != "" ==> verified == !report.insertOnly
    ensures Filed(before, RecordOutcome(before, report, instance), Attributed(report.tenant), report.eventId,
                  report.outcome, instance, verified)
  {
  }

  lemma FiledWhen(before: Audit, after: Audit, tenant: string, id: string, outcome: Outcome, instance: Option<nat>,
      verified: bool)
    requires Filed(before, after, tenant, id, outcome, instance, verified) && id != "" && outcome != Queued
    ensures (tenant, id) in after.rows
    ensures after.rows[(tenant, id)].outcome == outcome <==>
            || (tenant, id) !in before.rows || before.rows[(tenant, id)].outcome == outcome
            || (verified && before.rows[(tenant, id)].outcome != Instantiated)
  {
  }

  // ------------------------------------------------------------------ the messages that start nothing

  /** A message that cannot be parsed leaves a row under its subject's tenant, and a second one if its ack raises. */
  lemma UnreadableMessage(env: Env, c: Setting, s: State, w: nat, seqNo: nat, ans: Answers, tenant: string)
    requires seqNo < |s.stream| && w !in s.workers && s.stream[seqNo].body.None?
    requires OfSubject(env, s.stream[seqNo].subject, tenant)
    ensures Handle(env, c, s, w, seqNo, ans) ==
            s.(acked := s.acked + {seqNo},
               audit := Audit(s.audit.rows, s.audit.anonymous
                 + (if ans.noted then [(tenant, Row(InvalidPayload, None, 0))] else [])
                 + (if ans.ackBreaks && ans.written then [(tenant, Row(TransientError, None, 0))] else [])),
               tally := Tally(s.tally.delivered + 1, s.tally.acked + 1, s.tally.instantiated, s.tally.duplicates,
                 s.tally.failures + if ans.ackBreaks then 2 else 1))
  {
    hide Drive, Unverified, OfSubject;
    var m, s1 := s.stream[seqNo], Delivered(s);
    assert Receive(env, c, s, w, seqNo) == Move(s1, w, Unreadable(seqNo, m.subject));
    DriveUnreadable(env, s1, w, seqNo, m.subject, ans);
    var noted := Noted(env, s1, m.subject, ans);
    if ans.ackBreaks { DriveFailed(env, noted, w, seqNo, Unverified(env, m.subject, "", TransientError), None, ans); }
    OfSubjectIsReported(env, m.subject, "", InvalidPayload, tenant);
    OfSubjectIsReported(env, m.subject, "", TransientError, tenant);
    assert s.audit.anonymous + [] == s.audit.anonymous;
  }

  /**
   A refused message changes one audit row at most. A verified sender's failure is on record afterwards unless the
   event had started an instance; anyone else's only if the event had no row or one of the same outcome.
  */
  lemma RefusedMessage(env: Env, c: Setting, s: State, w: nat, seqNo: nat, ans: Answers, tenant: string)
    requires seqNo < |s.stream| && w !in s.workers && s.stream[seqNo].body.Some?
    requires Refusal(env, c, s.now, s.stream[seqNo], ans).Some?
    requires if SenderVerified(env, c, s.now, s.stream[seqNo], ans) then tenant == s.stream[seqNo].body.value.tenantId
             else OfSubject(env, s.stream[seqNo].subject, tenant)
    ensures var s', slot := Handle(env, c, s, w, seqNo, ans), (tenant, s.stream[seqNo].body.value.id);
            var outcome := Refusal(env, c, s.now, s.stream[seqNo], ans).value;
            var verified := SenderVerified(env, c, s.now, s.stream[seqNo], ans);
            && s' == s.(acked := s.acked + {seqNo}, audit := s'.audit,
                        tally := Tally(s.tally.delivered + 1, s.tally.acked + 1, s.tally.instantiated,
                          s.tally.duplicates, s.tally.failures + 1))
            && (if ans.written then Filed(s.audit, s'.audit, tenant, slot.1, outcome, None, verified)
                else s'.audit == s.audit)
            && (ans.written && slot.1 != "" ==>
                  slot in s'.audit.rows
                  && (s'.audit.rows[slot].outcome == outcome <==>
                      || slot !in s.audit.rows || s.audit.rows[slot].outcome == outcome
                      || (verified && s.audit.rows[slot].outcome != Instantiated)))
  {
    hide Drive, Unverified, OfSubject, RecordOutcome, Filed, Screen;
    var m, e, s1 := s.stream[seqNo], s.stream[seqNo].body.value, Delivered(s);
    var outcome := Refusal(env, c, s.now, m, ans).value;
    var report := ReportOn(env, c, s.now, m, ans, outcome);
    RefusedEnds(env, c, s, w, seqNo, ans);
    if SenderVerified(env, c, s.now, m, ans) {
      TenantIsThere(env, c, s.now, m, ans);
    } else {
      OfSubjectIsReported(env, m.subject, e.id, outcome, tenant);
    }
    RecordFiles(s.audit, report, None, SenderVerified(env, c, s.now, m, ans));
    NeverQueued(env, c, s.now, m, ans);
    var s' := Handle(env, c, s, w, seqNo, ans);
    if ans.written && e.id != "" {
      FiledWhen(s.audit, s'.audit, tenant, e.id, outcome, None, SenderVerified(env, c, s.now, m, ans));
    }
  }

  lemma TenantIsThere(env: Env, c: Setting, now: nat, m: Message, ans: Answers)
    requires SenderVerified(env, c, now, m, ans)
    ensures Attributed(Some(m.body.value.tenantId)) == m.body.value.tenantId
  {
    hide ExtractTenant;
  }

  lemma NeverQueued(env: Env, c: Setting, now: nat, m: Message, ans: Answers)
    ensures Refusal(env, c, now, m, ans) != Some(Queued)
  {
    hide ExtractTenant;
  }

  lemma RefusedEnds(env: Env, c: Setting, s: State, w: nat, seqNo: nat, ans: Answers)
    requires seqNo < |s.stream| && w !in s.workers && s.stream[seqNo].body.Some?
    requires Refusal(env, c, s.now, s.stream[seqNo], ans).Some?
    ensures var m := s.stream[seqNo];
            Handle(env, c, s, w, seqNo, ans) ==
            Acked(Reported(Delivered(s), ReportOn(env, c, s.now, m, ans, Refusal(env, c, s.now, m, ans).value), None,
                           ans), seqNo)
  {
    hide Drive, Unverified, Screen, Acked, Reported;
    var m, s1 := s.stream[seqNo], Delivered(s);
    var e := m.body.value;
    var report := ReportOn(env, c, s.now, m, ans, Refusal(env, c, s.now, m, ans).value);
    assert Receive(env, c, s, w, seqNo) == Move(s1, w, FirstPc(env, c, s.now, m, seqNo));
    if Screen(env, c, s.now, m.subject, e) == Accept {
      DriveScreened(env, s1, w, seqNo, m.subject, e, ans);
      if SenderVerified(env, c, s.now, m, ans) { DriveVerified(env, s1, w, TicketOf(env, c, s, seqNo, ans), ans); }
    }
    DriveFailed(env, s1, w, seqNo, report, None, ans);
  }

  /**
   A message whose key is in the bucket starts nothing and is counted on its event's row. If its ack raises, a
   transient failure is filed after that.
  */
  lemma RepeatedMessage(env: Env, c: Setting, s: State, w: nat, seqNo: nat, ans: Answers)
    requires seqNo < |s.stream| && w !in s.workers && Refusal(env, c, s.now, s.stream[seqNo], ans).None?
    requires var e := s.stream[seqNo].body.value; e.id != "" && e.tenantId + "-" + e.id in s.kv && !ans.claimOutage
    ensures var s', e := Handle(env, c, s, w, seqNo, ans), s.stream[seqNo].body.value;
            && s' == s.(now := s.now + ans.lag, acked := s.acked + {seqNo}, audit := s'.audit,
                        tally := Tally(s.tally.delivered + 1, s.tally.acked + 1, s.tally.instantiated,
                          s.tally.duplicates + 1, s.tally.failures + if ans.ackBreaks then 1 else 0))
            && exists mid: Audit ::
                 && Counts(s.audit, mid, e, ans.noted)
                 && ThenFails(mid, s'.audit, e, ans.ackBreaks && ans.written)
  {
    hide Drive, RecordOutcome, Filed, Screen;
    var s1, t := Delivered(s), TicketOf(env, c, s, seqNo, ans);
    PassedScreens(env, c, s, w, seqNo, ans);
    DriveScoped(env, s1, w, t, ans);
    var later := s1.(now := s1.now + ans.lag);
    assert AfterClaim(s1, t, ans) == (later, Repeated(t));
    DriveRepeated(env, later, w, t, ans);
    TenantIsThere(env, c, s.now, s.stream[seqNo], ans);
    var mid := Counted(later, t, ans).audit;
    assert Counts(s.audit, mid, t.event, ans.noted);
    if ans.ackBreaks {
      DriveFailed(env, Counted(later, t, ans), w, t.seqNo, VerifiedReport(t, TransientError), None, ans);
      RecordFiles(mid, VerifiedReport(t, TransientError), None, true);
    }
  }

  lemma PassedScreens(env: Env, c: Setting, s: State, w: nat, seqNo: nat, ans: Answers)
    requires seqNo < |s.stream| && w !in s.workers && Refusal(env, c, s.now, s.stream[seqNo], ans).None?
    ensures Handle(env, c, s, w, seqNo, ans) ==
            Drive(env, Move(Delivered(s), w, Scoped(TicketOf(env, c, s, seqNo, ans))), w, ans)
  {
    hide Drive, Screen, Unverified;
    var m, s1, t := s.stream[seqNo], Delivered(s), TicketOf(env, c, s, seqNo, ans);
    assert Receive(env, c, s, w, seqNo) == Move(s1, w, Screened(seqNo, m.subject, m.body.value, s.now));
    DriveScreened(env, s1, w, seqNo, m.subject, m.body.value, ans);
    DriveVerified(env, s1, w, t, ans);
  }

  // ------------------------------------------------------------------ the messages that start a process

  /** The claim: a key named after tenant and event, made at the time of the claim, unless the bucket did not answer. */
  function Held(s: State, e: Event, ans: Answers): map<string, nat> {
    if e.id == "" || ans.claimOutage then s.kv else s.kv[e.tenantId + "-" + e.id := s.now + ans.lag]
  }

  /** And after the release: the key is gone whoever made it. */
  function Freed(s: State, e: Event, ans: Answers): map<string, nat> {
    if e.id == "" then s.kv else if ans.releaseOutage then Held(s, e, ans) else s.kv - {e.tenantId + "-" + e.id}
  }

  /** A first message of a verified sender and what its key's lookup gave. */
  ghost predicate First(env: Env, c: Setting, s: State, m: Message, ans: Answers, e: Event, key: Key) {
    && Refusal(env, c, s.now, m, ans).None? && m.body == Some(e) && env.resolve(e.apiKeyId, s.now) == Some(key)
    && (e.id == "" || e.tenantId + "-" + e.id !in s.kv || ans.claimOutage)
  }

  /**
   A start that commits makes one instance, of the event's process and tenant, owned by the key's owner, and
   files the success under its index. If anything raises after the commit, the event is also filed as a
   transient failure, which a success on record withstands, and its key is released.
  */
  lemma StartedMessage(env: Env, c: Setting, s: State, w: nat, seqNo: nat, ans: Answers, e: Event, key: Key)
    requires seqNo < |s.stream| && w !in s.workers && First(env, c, s, s.stream[seqNo], ans, e, key)
    requires StartOf(ans).Committed? || StartOf(ans).CommittedThenRaised?
    ensures var s', raised := Handle(env, c, s, w, seqNo, ans), StartOf(ans).CommittedThenRaised?;
            && s' == s.(now := s.now + ans.lag, acked := s.acked + {seqNo}, audit := s'.audit,
                        kv := if raised then Freed(s, e, ans) else Held(s, e, ans),
                        instances := s.instances + [Instance(e.tenantId, e.process, key.owner,
                          Ticket(seqNo, e, s.now, key, s.now),
                          if e.id == "" then None else Some(Claim(e.tenantId, e.id, s.now + ans.lag)))],
                        tally := Tally(s.tally.delivered + 1, s.tally.acked + 1, s.tally.instantiated + 1,
                          s.tally.duplicates, s.tally.failures + if raised then 1 else 0))
            && (exists mid: Audit ::
                  && Succeeds(s.audit, mid, e, |s.instances|, AuditStays(ans.course))
                  && ThenFails(mid, s'.audit, e, raised && ans.written))
            && (AuditStays(ans.course) && e.id != "" ==>
                  && (e.tenantId, e.id) in s'.audit.rows
                  && s'.audit.rows[(e.tenantId, e.id)].outcome == Instantiated
                  && s'.audit.rows[(e.tenantId, e.id)].instance == Some(|s.instances|))
  {
    hide Handle, RecordOutcome, Filed, Screen, StartOf, AuditStays;
    var t := TicketOf(env, c, s, seqNo, ans);
    StartedEnds(env, c, s, w, seqNo, ans, e, key);
    TenantIsThere(env, c, s.now, s.stream[seqNo], ans);
    var s' := Handle(env, c, s, w, seqNo, ans);
    var success := VerifiedReport(t, Instantiated);
    var mid := if AuditStays(ans.course) then RecordOutcome(s.audit, success, Some(|s.instances|)) else s.audit;
    RecordFiles(s.audit, success, Some(|s.instances|), true);
    RecordFiles(mid, VerifiedReport(t, TransientError), None, true);
    KeyGoes(s, e, ans);
    assert Succeeds(s.audit, mid, e, |s.instances|, AuditStays(ans.course));
    assert ThenFails(mid, s'.audit, e, StartOf(ans).CommittedThenRaised? && ans.written);
    if AuditStays(ans.course) && e.id != "" {
      SuccessStays(s.audit, mid, s'.audit, e, |s.instances|, StartOf(ans).CommittedThenRaised? && ans.written);
    }
  }

  lemma SuccessStays(before: Audit, mid: Audit, after: Audit, e: Event, index: nat, failed: bool)
    requires e.id != "" && Succeeds(before, mid, e, index, true) && ThenFails(mid, after, e, failed)
    ensures (e.tenantId, e.id) in after.rows && after.rows[(e.tenantId, e.id)].outcome == Instantiated
    ensures after.rows[(e.tenantId, e.id)].instance == Some(index)
  {
  }

  lemma StartedEnds(env: Env, c: Setting, s: State, w: nat, seqNo: nat, ans: Answers, e: Event, key: Key)
    requires seqNo < |s.stream| && w !in s.workers && First(env, c, s, s.stream[seqNo], ans, e, key)
    requires StartOf(ans).Committed? || StartOf(ans).CommittedThenRaised?
    ensures var t := TicketOf(env, c, s, seqNo, ans);
            var claim := if e.id == "" then None else Some(Claim(e.tenantId, e.id, s.now + ans.lag));
            var made := Commit(Delivered(s).(now := s.now + ans.lag, kv := Held(s, e, ans)), t, claim,
                               AuditStays(ans.course));
            Handle(env, c, s, w, seqNo, ans) ==
            Acked(if StartOf(ans).Committed? then made
                  else Reported(made, VerifiedReport(t, TransientError), claim, ans), seqNo)
  {
    hide Drive, Screen, StartOf, AuditStays, Commit, Held, Reported, Acked;
    var t := TicketOf(env, c, s, seqNo, ans);
    var claim := if e.id == "" then None else Some(Claim(e.tenantId, e.id, s.now + ans.lag));
    var held := Delivered(s).(now := s.now + ans.lag, kv := Held(s, e, ans));
    ClaimsFirst(env, c, s, w, seqNo, ans, e, key);
    DriveClaimed(env, held, w, t, claim, ans);
    var made := Commit(held, t, claim, AuditStays(ans.course));
    assert made.workers == s.workers by { CommitMovesNobody(held, t, claim, AuditStays(ans.course)); }
    if StartOf(ans).Committed? {
      DriveAcking(env, made, w, seqNo, ans);
    } else {
      DriveFailed(env, made, w, seqNo, VerifiedReport(t, TransientError), claim, ans);
    }
  }

  lemma CommitMovesNobody(s: State, t: Ticket, claim: Option<Claim>, written: bool)
    ensures Commit(s, t, claim, written).workers == s.workers
  {
  }

  lemma ClaimsFirst(env: Env, c: Setting, s: State, w: nat, seqNo: nat, ans: Answers, e: Event, key: Key)
    requires seqNo < |s.stream| && w !in s.workers && First(env, c, s, s.stream[seqNo], ans, e, key)
    ensures Handle(env, c, s, w, seqNo, ans) ==
            Drive(env, Move(Delivered(s).(now := s.now + ans.lag, kv := Held(s, e, ans)), w,
              Claimed(TicketOf(env, c, s, seqNo, ans),
                      if e.id == "" then None else Some(Claim(e.tenantId, e.id, s.now + ans.lag)))), w, ans)
  {
    hide Drive, Screen;
    PassedScreens(env, c, s, w, seqNo, ans);
    DriveScoped(env, Delivered(s), w, TicketOf(env, c, s, seqNo, ans), ans);
  }

  lemma KeyGoes(s: State, e: Event, ans: Answers)
    ensures e.id != "" && !ans.releaseOutage ==> Held(s, e, ans) - {e.tenantId + "-" + e.id} == Freed(s, e, ans)
  {
  }

  /** A start that fails makes nothing, is filed under what failed, and its key is released. */
  lemma FailedMessage(env: Env, c: Setting, s: State, w: nat, seqNo: nat, ans: Answers, e: Event, key: Key)
    requires seqNo < |s.stream| && w !in s.workers && First(env, c, s, s.stream[seqNo], ans, e, key)
    requires StartOf(ans).NoInitiator? || StartOf(ans).NoModel? || StartOf(ans).Broken?
    ensures var s', slot := Handle(env, c, s, w, seqNo, ans), (e.tenantId, e.id);
            var outcome := if StartOf(ans).NoInitiator? then UserNotFound
                           else if StartOf(ans).NoModel? then ModelNotFound else TransientError;
            && s' == s.(now := s.now + ans.lag, acked := s.acked + {seqNo}, audit := s'.audit,
                        kv := Freed(s, e, ans),
                        tally := Tally(s.tally.delivered + 1, s.tally.acked + 1, s.tally.instantiated,
                          s.tally.duplicates, s.tally.failures + 1))
            && (if ans.written then Filed(s.audit, s'.audit, slot.0, slot.1, outcome, None, true)
                else s'.audit == s.audit)
            && (ans.written && slot.1 != "" ==>
                  slot in s'.audit.rows
                  && (s'.audit.rows[slot].outcome == outcome <==>
                      slot !in s.audit.rows || s.audit.rows[slot].outcome != Instantiated))
  {
    hide Handle, RecordOutcome, Filed, Screen, StartOf;
    var t := TicketOf(env, c, s, seqNo, ans);
    var outcome := if StartOf(ans).NoInitiator? then UserNotFound
                   else if StartOf(ans).NoModel? then ModelNotFound else TransientError;
    FailedEnds(env, c, s, w, seqNo, ans, e, key, outcome);
    TenantIsThere(env, c, s.now, s.stream[seqNo], ans);
    RecordFiles(s.audit, VerifiedReport(t, outcome), None, true);
    KeyGoes(s, e, ans);
    if ans.written && e.id != "" {
      FiledWhen(s.audit, Handle(env, c, s, w, seqNo, ans).audit, e.tenantId, e.id, outcome, None, true);
    }
  }

  lemma FailedEnds(env: Env, c: Setting, s: State, w: nat, seqNo: nat, ans: Answers, e: Event, key: Key,
      outcome: Outcome)
    requires seqNo < |s.stream| && w !in s.workers && First(env, c, s, s.stream[seqNo], ans, e, key)
    requires match StartOf(ans)
             case NoInitiator => outcome == UserNotFound
             case NoModel => outcome == ModelNotFound
             case Broken => outcome == TransientError
             case _ => false
    ensures Handle(env, c, s, w, seqNo, ans) ==
            Acked(Reported(Delivered(s).(now := s.now + ans.lag, kv := Held(s, e, ans)),
                           VerifiedReport(TicketOf(env, c, s, seqNo, ans), outcome),
                           if e.id == "" then None else Some(Claim(e.tenantId, e.id, s.now + ans.lag)), ans), seqNo)
  {
    hide Drive, Screen, StartOf, Held, Reported, Acked;
    var t := TicketOf(env, c, s, seqNo, ans);
    var claim := if e.id == "" then None else Some(Claim(e.tenantId, e.id, s.now + ans.lag));
    var held := Delivered(s).(now := s.now + ans.lag, kv := Held(s, e, ans));
    ClaimsFirst(env, c, s, w, seqNo, ans, e, key);
    DriveClaimed(env, held, w, t, claim, ans);
    DriveFailed(env, held, w, seqNo, VerifiedReport(t, outcome), claim, ans);
  }

  // ------------------------------------------------------------------ how a start ends

  /**
   How an attempt ends, step by step: the start is reached when initiator and model are found and the membership is
   there or granted. The instance is there when the start placed it and it was committed: on its own, by the commit,
   or by the revert of a grant after a rollback that kept it pending. Only a revert that raises leaves the grant.
  */
  lemma StartInSteps(ans: Answers)
    ensures var a := ans.course;
            var reached := a.user.Found? && a.model.Found? && (a.member.Found? || (a.member.Absent? && a.grant));
            var there := reached && (a.start.Started? || a.start.placed);
            var done := reached && a.start.Started? && a.flush && a.commit;
            var kept := reached && !done && a.rollback.RaisesKeeping? && a.member.Absent? && a.revert;
            var clean := done && (a.member.Absent? ==> a.revert) && a.close && !ans.ackBreaks;
            && (StartOf(ans) == Committed <==> clean)
            && (StartOf(ans) == CommittedThenRaised <==>
                there && (a.placement.OwnSession? || done || kept) && !clean)
            && (StartOf(ans) == NoInitiator <==> a.user.Absent? && a.outerRollback && a.close)
            && (StartOf(ans) == NoModel <==> a.user.Found? && a.model.Absent? && a.outerRollback && a.close)
            && (AuditStays(a) <==> reached && a.start.Started? && a.flush && a.audit && (done || kept))
            && (GrantStays(a) <==> a.user.Found? && a.model.Found? && a.member.Absent? && a.grant && !a.revert)
  {
  }

  // ------------------------------------------------------------------ rows that come and go without a delivery

  /** Publishing adds a queued row where the event has none. */
  lemma PublishedRow(env: Env, c: Setting, s: State, tenant: string, id: string)
    requires id != ""
    ensures var slot := (if tenant == "" then "__unattributed__" else tenant, id);
            Step(env, c, s, Enqueue(tenant, id)) ==
            Some(if slot in s.audit.rows then s
                 else s.(audit := s.audit.(rows := s.audit.rows[slot := Row(Queued, None, 0)])))
  {
  }

  /** Pruning never takes a queued row, and takes the oldest of those without an id. */
  lemma PrunedRows(env: Env, c: Setting, s: State, slots: set<(string, string)>, n: nat, slot: (string, string))
    requires n <= |s.audit.anonymous|
    ensures var after := Step(env, c, s, Prune(slots, n));
            && after.Some? && after.value == s.(audit := after.value.audit)
            && after.value.audit.anonymous == s.audit.anonymous[n..]
            && (slot in after.value.audit.rows <==>
                slot in s.audit.rows && (slot in slots ==> s.audit.rows[slot].outcome == Queued))
            && (slot in after.value.audit.rows ==> after.value.audit.rows[slot] == s.audit.rows[slot])
  {
  }
}
