/**
 The consumer as it is written: one worker that handles a message from parsing to ack with early
 exits, and a loop over a fetched batch. Both are shown to be runs of the protocol.
*/
module TriggerConsumer {
  import opened Wrappers
  import opened Subject
  import opened TriggerProtocol
  import opened TriggerTransaction
  import opened DedupSafety
  import opened DedupAgreement

  /**
   What the outside world does while one message is handled. `noted`: an audit write before the failure handler
   succeeds; `course`: how the attempt to start goes; `ackBreaks`: the ack before the handler, or what follows it,
   raises; `written` and `releaseOutage` are the handler's own.
  */
  datatype Answers = Answers(
    lookupBroken: bool, lag: nat, claimOutage: bool, noted: bool, course: Course, ackBreaks: bool, written: bool,
    releaseOutage: bool)

  /** What the protocol sees of the attempt. */
  function StartOf(ans: Answers): StartResult {
    var a := ans.course;
    if Returns(a) then (if ans.ackBreaks then CommittedThenRaised else Committed)
    else if InstanceStays(a) then CommittedThenRaised
    else
      match FailureOf(a)
      case InitiatorNotFound => NoInitiator
      case ModelNotFoundError => NoModel
      case OtherError => Broken
  }

  /** Something raises with the instance committed, exactly in these ways: what the setting calls late errors. */
  lemma LateExactlyWhen(ans: Answers)
    ensures StartOf(ans).CommittedThenRaised? <==>
            var a := ans.course;
            || (CommitDone(a) && (ans.ackBreaks || (Granted(a) && !a.revert) || !a.close))
            || (a.placement.OwnSession? && Placed(a) && !CommitDone(a))
            || (Placed(a) && KeptAndCommitted(a))
  {
    RaisesWithInstanceExactlyWhen(ans.course);
  }

  predicate Allowed(c: Setting, ans: Answers) {
    && ans.lag <= c.lag
    && (ans.claimOutage ==> c.outages)
    && (ans.releaseOutage ==> c.outages)
    && (StartOf(ans).CommittedThenRaised? ==> c.lateErrors)
  }

  /**
   If the start commits the instance on its own, a step that raises before the outer commit leaves the instance
   without its audit row, and the failure handler will release the key of a committed event.
  */
  lemma OwnSessionOutlivesTheRollback(ans: Answers, m: Making, before: Store)
    requires ans.course.placement.OwnSession? && Placed(ans.course) && !CommitDone(ans.course)
             && !ans.course.rollback.RaisesKeeping?
    ensures Left(ans.course, m, before).instances == before.instances + [m.made]
            && Left(ans.course, m, before).audit == before.audit
    ensures StartOf(ans).CommittedThenRaised?
  {
  }

  function Rank(pc: Pc): nat {
    match pc
    case Unreadable(_, _) => 7
    case Screened(_, _, _, _) => 7
    case Verified(_) => 6
    case Scoped(_) => 5
    case Claimed(_, _) => 4
    case Repeated(_) => 4
    case Failed(_, _, _) => 3
    case Releasing(_, _) => 2
    case Acking(_) => 1
  }

  function RankOf(s: State, w: nat): nat { if w in s.workers then Rank(s.workers[w]) else 0 }

  /** The next await of worker `w`, answered. */
  function Advance(env: Env, s: State, w: nat, ans: Answers): State
    requires w in s.workers
    ensures RankOf(Advance(env, s, w, ans), w) < RankOf(s, w)
  {
    var pc := s.workers[w];
    match pc
    case Unreadable(_, _) => NoteUnreadable(env, s, w, pc, ans.noted, ans.ackBreaks)
    case Screened(_, _, _, _) => ResolveKey(env, s, w, pc, ans.lookupBroken)
    case Verified(t) => ReviewScope(env, s, w, t)
    case Scoped(t) => ClaimKey(s.(now := s.now + ans.lag), w, t, ans.claimOutage)
    case Claimed(_, _) => StartProcess(s, w, pc, StartOf(ans), AuditStays(ans.course))
    case Repeated(t) => NoteDuplicate(s, w, t, ans.noted, ans.ackBreaks)
    case Failed(_, _, _) => FileReport(s, w, pc, ans.written)
    case Releasing(_, _) => ReleaseKey(s, w, pc, ans.releaseOutage)
    case Acking(n) => AckMessage(s, w, n)
  }

  /** Worker `w` runs on, undisturbed, until it is idle. */
  function Drive(env: Env, s: State, w: nat, ans: Answers): State
    decreases RankOf(s, w)
  {
    if w in s.workers then Drive(env, Advance(env, s, w, ans), w, ans) else s
  }

  /** The freshness check, if it still matters, was made at the present time. */
  predicate Punctual(s: State, w: nat) {
    w in s.workers ==>
      match s.workers[w]
      case Screened(_, _, _, at) => at == s.now
      case Verified(t) => t.checkedAt == s.now
      case Scoped(t) => t.checkedAt == s.now
      case _ => true
  }

  function Turn(w: nat, pc: Pc, ans: Answers): seq<Action> {
    match pc
    case Unreadable(_, _) => [FileUnreadable(w, ans.noted, ans.ackBreaks)]
    case Screened(_, _, _, _) => [Lookup(w, ans.lookupBroken)]
    case Verified(_) => [CheckScope(w)]
    case Scoped(_) => [Tick(ans.lag)] + [Acquire(w, ans.claimOutage)]
    case Claimed(_, _) => [Start(w, StartOf(ans), AuditStays(ans.course))]
    case Repeated(_) => [CountDuplicate(w, ans.noted, ans.ackBreaks)]
    case Failed(_, _, _) => [File(w, ans.written)]
    case Releasing(_, _) => [Release(w, ans.releaseOutage)]
    case Acking(_) => [Ack(w)]
  }

  function Script(env: Env, s: State, w: nat, ans: Answers): seq<Action>
    decreases RankOf(s, w)
  {
    if w in s.workers then Turn(w, s.workers[w], ans) + Script(env, Advance(env, s, w, ans), w, ans) else []
  }

  predicate Undisturbed(actions: seq<Action>) { NobodyCrashes(actions) && NothingExpires(actions) }

  lemma RunOne(env: Env, c: Setting, s: State, a: Action)
    ensures Run(env, c, s, [a]) == Step(env, c, s, a)
  {
    assert [a][1..] == [];
  }

  lemma ClaimTurn(env: Env, c: Setting, s: State, w: nat, ans: Answers)
    requires w in s.workers && s.workers[w].Scoped? && Punctual(s, w) && Allowed(c, ans)
    ensures Run(env, c, s, [Tick(ans.lag)] + [Acquire(w, ans.claimOutage)]) == Some(Advance(env, s, w, ans))
  {
    hide ClaimKey, Run, StartOf;
    var later := s.(now := s.now + ans.lag);
    RunOne(env, c, s, Tick(ans.lag));
    RunConcat(env, c, s, [Tick(ans.lag)], [Acquire(w, ans.claimOutage)]);
    RunOne(env, c, later, Acquire(w, ans.claimOutage));
  }

  lemma OtherTurn(env: Env, c: Setting, s: State, w: nat, ans: Answers)
    requires w in s.workers && !s.workers[w].Scoped? && Allowed(c, ans)
    ensures var turn := Turn(w, s.workers[w], ans);
            |turn| == 1 && Step(env, c, s, turn[0]) == Some(Advance(env, s, w, ans))
  {
    hide ResolveKey, ReviewScope, StartProcess, NoteDuplicate, NoteUnreadable, FileReport, ReleaseKey, AckMessage;
    hide StartOf, AuditStays;
  }

  lemma TurnIsAdvance(env: Env, c: Setting, s: State, w: nat, ans: Answers)
    requires w in s.workers && Punctual(s, w) && Allowed(c, ans)
    ensures Run(env, c, s, Turn(w, s.workers[w], ans)) == Some(Advance(env, s, w, ans))
    ensures Undisturbed(Turn(w, s.workers[w], ans))
  {
    hide Advance, Step, Run, StartOf, AuditStays, Punctual, Allowed;
    if s.workers[w].Scoped? {
      ClaimTurn(env, c, s, w, ans);
    } else {
      OtherTurn(env, c, s, w, ans);
      var turn := Turn(w, s.workers[w], ans);
      RunOne(env, c, s, turn[0]);
      assert turn == [turn[0]];
    }
  }

  lemma StaysPunctual(env: Env, s: State, w: nat, ans: Answers)
    requires w in s.workers && Punctual(s, w)
    ensures Punctual(Advance(env, s, w, ans), w)
  {
    hide RecordOutcome, RecordDuplicate, Unverified;
  }

  /** The undisturbed worker is one run of the protocol, with no crash and no expiry in it. */
  lemma {:induction false} DriveIsARun(env: Env, c: Setting, s: State, w: nat, ans: Answers)
    requires Punctual(s, w) && Allowed(c, ans)
    ensures Run(env, c, s, Script(env, s, w, ans)) == Some(Drive(env, s, w, ans))
    ensures Undisturbed(Script(env, s, w, ans))
    decreases RankOf(s, w)
  {
    if w in s.workers {
      var turn, next := Turn(w, s.workers[w], ans), Advance(env, s, w, ans);
      TurnIsAdvance(env, c, s, w, ans);
      StaysPunctual(env, s, w, ans);
      DriveIsARun(env, c, next, w, ans);
      RunConcat(env, c, s, turn, Script(env, next, w, ans));
    }
  }

  /** All of one message's handling: delivery, then the undisturbed worker. */
  function Handle(env: Env, c: Setting, s: State, w: nat, seqNo: nat, ans: Answers): State
    requires seqNo < |s.stream|
  {
    Drive(env, Receive(env, c, s, w, seqNo), w, ans)
  }

  function HandleScript(env: Env, c: Setting, s: State, w: nat, seqNo: nat, ans: Answers): seq<Action>
    requires seqNo < |s.stream|
  {
    [Deliver(w, seqNo)] + Script(env, Receive(env, c, s, w, seqNo), w, ans)
  }

  lemma HandleIsARun(env: Env, c: Setting, s: State, w: nat, seqNo: nat, ans: Answers)
    requires seqNo < |s.stream| && seqNo !in s.acked && w !in s.workers && Allowed(c, ans)
    ensures Run(env, c, s, HandleScript(env, c, s, w, seqNo, ans)) == Some(Handle(env, c, s, w, seqNo, ans))
    ensures Undisturbed(HandleScript(env, c, s, w, seqNo, ans))
  {
    var received := Receive(env, c, s, w, seqNo);
    RunOne(env, c, s, Deliver(w, seqNo));
    DriveIsARun(env, c, received, w, ans);
    RunConcat(env, c, s, [Deliver(w, seqNo)], Script(env, received, w, ans));
  }

  /** Which message worker `w` is busy with. */
  function MessageOf(pc: Pc): nat {
    match pc
    case Unreadable(n, _) => n
    case Screened(n, _, _, _) => n
    case Verified(t) => t.seqNo
    case Scoped(t) => t.seqNo
    case Claimed(t, _) => t.seqNo
    case Repeated(t) => t.seqNo
    case Failed(n, _, _) => n
    case Releasing(n, _) => n
    case Acking(n) => n
  }

  // ------------------------------------------------------------------ one worker over a resting state

  lemma MoveTwice(s: State, w: nat, p: Pc, q: Pc)
    ensures Move(Move(s, w, p), w, q) == Move(s, w, q)
  {
    assert s.workers[w := p][w := q] == s.workers[w := q];
  }

  function AuditAfter(before: Audit, report: Report, instance: Option<nat>, written: bool): Audit {
    if written then RecordOutcome(before, report, instance) else before
  }

  function Acked(s: State, seqNo: nat): State {
    s.(acked := s.acked + {seqNo}, tally := s.tally.(acked := s.tally.acked + 1))
  }

  function Reported(s: State, report: Report, claim: Option<Claim>, ans: Answers): State {
    s.(audit := if ans.written then RecordOutcome(s.audit, report, None) else s.audit,
       kv := if claim.Some? && !ans.releaseOutage then s.kv - {NameOf(claim.value)} else s.kv,
       tally := s.tally.(failures := s.tally.failures + 1))
  }

  function Counted(s: State, t: Ticket, ans: Answers): State {
    s.(audit := if ans.noted then RecordDuplicate(s.audit, t.event.tenantId, t.event.id) else s.audit,
       tally := s.tally.(duplicates := s.tally.duplicates + 1))
  }

  lemma DriveAcking(env: Env, s: State, w: nat, seqNo: nat, ans: Answers)
    requires w !in s.workers
    ensures Drive(env, Move(s, w, Acking(seqNo)), w, ans) == Acked(s, seqNo)
  {
    assert s.workers[w := Acking(seqNo)] - {w} == s.workers;
  }

  lemma DriveReleasing(env: Env, s: State, w: nat, seqNo: nat, held: Claim, ans: Answers)
    requires w !in s.workers
    ensures Drive(env, Move(s, w, Releasing(seqNo, held)), w, ans) ==
            Acked(s.(kv := if ans.releaseOutage then s.kv else s.kv - {NameOf(held)}), seqNo)
  {
    var freed := s.(kv := if ans.releaseOutage then s.kv else s.kv - {NameOf(held)});
    MoveTwice(s, w, Releasing(seqNo, held), Acking(seqNo));
    assert Advance(env, Move(s, w, Releasing(seqNo, held)), w, ans) == Move(freed, w, Acking(seqNo));
    DriveAcking(env, freed, w, seqNo, ans);
  }

  lemma DriveRepeated(env: Env, s: State, w: nat, t: Ticket, ans: Answers)
    requires w !in s.workers
    ensures Drive(env, Move(s, w, Repeated(t)), w, ans) ==
            if ans.ackBreaks
            then Drive(env, Move(Counted(s, t, ans), w, Failed(t.seqNo, VerifiedReport(t, TransientError), None)), w,
                       ans)
            else Acked(Counted(s, t, ans), t.seqNo)
  {
    var next := if ans.ackBreaks then Failed(t.seqNo, VerifiedReport(t, TransientError), None) else Acking(t.seqNo);
    MoveTwice(s, w, Repeated(t), next);
    assert Advance(env, Move(s, w, Repeated(t)), w, ans) == Move(Counted(s, t, ans), w, next);
    if !ans.ackBreaks { DriveAcking(env, Counted(s, t, ans), w, t.seqNo, ans); }
  }

  /** The row of a message that cannot be parsed. */
  function Noted(env: Env, s: State, subject: string, ans: Answers): State {
    s.(audit := AuditAfter(s.audit, Unverified(env, subject, "", InvalidPayload), None, ans.noted),
       tally := s.tally.(failures := s.tally.failures + 1))
  }

  lemma DriveUnreadable(env: Env, s: State, w: nat, seqNo: nat, subject: string, ans: Answers)
    requires w !in s.workers
    ensures Drive(env, Move(s, w, Unreadable(seqNo, subject)), w, ans) ==
            var noted := Noted(env, s, subject, ans);
            if ans.ackBreaks
            then Drive(env, Move(noted, w, Failed(seqNo, Unverified(env, subject, "", TransientError), None)), w, ans)
            else Acked(noted, seqNo)
  {
    var pc, noted := Unreadable(seqNo, subject), Noted(env, s, subject, ans);
    var next :=
      if ans.ackBreaks then Failed(seqNo, Unverified(env, subject, "", TransientError), None) else Acking(seqNo);
    MoveTwice(s, w, pc, next);
    assert Advance(env, Move(s, w, pc), w, ans) == Move(noted, w, next);
    if !ans.ackBreaks { DriveAcking(env, noted, w, seqNo, ans); }
  }

  lemma DriveFailed(env: Env, s: State, w: nat, seqNo: nat, report: Report, claim: Option<Claim>, ans: Answers)
    requires w !in s.workers
    ensures Drive(env, Move(s, w, Failed(seqNo, report, claim)), w, ans) ==
            Acked(Reported(s, report, claim, ans), seqNo)
  {
    var pc := Failed(seqNo, report, claim);
    var filed := Reported(s, report, None, ans);
    if claim.None? {
      MoveTwice(s, w, pc, Acking(seqNo));
      assert Advance(env, Move(s, w, pc), w, ans) == Move(filed, w, Acking(seqNo));
    } else {
      var next := Releasing(seqNo, claim.value);
      MoveTwice(s, w, pc, next);
      assert Advance(env, Move(s, w, pc), w, ans) == Move(filed, w, next);
      MoveTwice(filed, w, next, Acking(seqNo));
      assert Advance(env, Move(filed, w, next), w, ans) == Move(Reported(s, report, claim, ans), w, Acking(seqNo));
    }
    DriveAcking(env, Reported(s, report, claim, ans), w, seqNo, ans);
  }

  /** Where the key lookup leads. */
  function AfterLookup(env: Env, now: nat, seqNo: nat, subject: string, e: Event, ans: Answers): Pc {
    var key := env.resolve(e.apiKeyId, now);
    if ans.lookupBroken then Failed(seqNo, Unverified(env, subject, e.id, TransientError), None)
    else if key.None? then Failed(seqNo, Unverified(env, subject, e.id, RejectedAuth), None)
    else if key.value.tenantId != e.tenantId then Failed(seqNo, Unverified(env, subject, e.id, TenantMismatch), None)
    else Verified(Ticket(seqNo, e, now, key.value, now))
  }

  lemma DriveScreened(env: Env, s: State, w: nat, seqNo: nat, subject: string, e: Event, ans: Answers)
    requires w !in s.workers
    ensures Drive(env, Move(s, w, Screened(seqNo, subject, e, s.now)), w, ans) ==
            Drive(env, Move(s, w, AfterLookup(env, s.now, seqNo, subject, e, ans)), w, ans)
  {
    hide Unverified;
    var pc := Screened(seqNo, subject, e, s.now);
    MoveTwice(s, w, pc, AfterLookup(env, s.now, seqNo, subject, e, ans));
    assert Advance(env, Move(s, w, pc), w, ans) == Move(s, w, AfterLookup(env, s.now, seqNo, subject, e, ans));
  }

  lemma DriveVerified(env: Env, s: State, w: nat, t: Ticket, ans: Answers)
    requires w !in s.workers
    ensures Drive(env, Move(s, w, Verified(t)), w, ans) ==
            Drive(env, Move(s, w,
              if env.scopeAllows(t.key.scope, t.event.process) then Scoped(t)
              else Failed(t.seqNo, VerifiedReport(t, RejectedScope), None)), w, ans)
  {
    var after := Advance(env, Move(s, w, Verified(t)), w, ans);
    MoveTwice(s, w, Verified(t), after.workers[w]);
  }

  /** The claim, seen from outside the worker: the new shared state and where the worker stands. */
  function AfterClaim(s: State, t: Ticket, ans: Answers): (State, Pc) {
    var later := s.(now := s.now + ans.lag);
    var claim := Claim(t.event.tenantId, t.event.id, later.now);
    if t.event.id == "" then (later, Claimed(t, None))
    else if ans.claimOutage then (later, Claimed(t, Some(claim)))
    else if NameOf(claim) in s.kv then (later, Repeated(t))
    else (later.(kv := s.kv[NameOf(claim) := later.now]), Claimed(t, Some(claim)))
  }

  lemma DriveScoped(env: Env, s: State, w: nat, t: Ticket, ans: Answers)
    requires w !in s.workers
    ensures var next := AfterClaim(s, t, ans);
            Drive(env, Move(s, w, Scoped(t)), w, ans) == Drive(env, Move(next.0, w, next.1), w, ans)
  {
    var after := Advance(env, Move(s, w, Scoped(t)), w, ans);
    var next := AfterClaim(s, t, ans);
    MoveTwice(s, w, Scoped(t), next.1);
    assert after == Move(next.0, w, next.1);
  }

  /** The start, seen from outside the worker. */
  function AfterStart(s: State, t: Ticket, claim: Option<Claim>, ans: Answers): (State, Pc) {
    match StartOf(ans)
    case Committed => (Commit(s, t, claim, AuditStays(ans.course)), Acking(t.seqNo))
    case CommittedThenRaised => (Commit(s, t, claim, AuditStays(ans.course)),
      Failed(t.seqNo, VerifiedReport(t, TransientError), claim))
    case NoInitiator => (s, Failed(t.seqNo, VerifiedReport(t, UserNotFound), claim))
    case NoModel => (s, Failed(t.seqNo, VerifiedReport(t, ModelNotFound), claim))
    case Broken => (s, Failed(t.seqNo, VerifiedReport(t, TransientError), claim))
  }

  lemma DriveClaimed(env: Env, s: State, w: nat, t: Ticket, claim: Option<Claim>, ans: Answers)
    requires w !in s.workers
    ensures var next := AfterStart(s, t, claim, ans);
            Drive(env, Move(s, w, Claimed(t, claim)), w, ans) == Drive(env, Move(next.0, w, next.1), w, ans)
  {
    var pc := Claimed(t, claim);
    var after := Advance(env, Move(s, w, pc), w, ans);
    var next := AfterStart(s, t, claim, ans);
    MoveTwice(s, w, pc, next.1);
    assert after == Move(next.0, w, next.1);
  }

  /** Handling a message leaves the workers as they were and acks that message, once. */
  lemma HandleAcksOnce(env: Env, c: Setting, s: State, w: nat, seqNo: nat, ans: Answers)
    requires seqNo < |s.stream| && w !in s.workers
    ensures var s' := Handle(env, c, s, w, seqNo, ans);
            && s'.acked == s.acked + {seqNo} && s'.workers == s.workers && s'.stream == s.stream
            && s'.tally.acked == s.tally.acked + 1 && s'.tally.delivered == s.tally.delivered + 1
  {
    var s1 := s.(tally := s.tally.(delivered := s.tally.delivered + 1));
    AcksFrom(env, s1, w, FirstPc(env, c, s.now, s.stream[seqNo], seqNo), ans);
  }

  /** The message is acked once, and the workers are as before. */
  predicate AckedOnce(s: State, s': State, seqNo: nat) {
    && s'.acked == s.acked + {seqNo} && s'.workers == s.workers && s'.stream == s.stream
    && s'.tally.acked == s.tally.acked + 1 && s'.tally.delivered == s.tally.delivered
  }

  /** Nothing was delivered or acked in between. */
  predicate SameDeliveries(s: State, r: State) {
    && r.acked == s.acked && r.workers == s.workers && r.stream == s.stream && r.now >= s.now
    && r.tally.acked == s.tally.acked && r.tally.delivered == s.tally.delivered
  }

  lemma AckedOnceAfter(s: State, r: State, s': State, seqNo: nat)
    requires SameDeliveries(s, r) && AckedOnce(r, s', seqNo)
    ensures AckedOnce(s, s', seqNo)
  {
  }

  lemma ClaimDeliversNothing(s: State, w: nat, t: Ticket, ans: Answers)
    ensures var next := AfterClaim(s, t, ans);
            && SameDeliveries(s, next.0) && MessageOf(next.1) == t.seqNo && Rank(next.1) < 5
            && Punctual(Move(next.0, w, next.1), w)
  {
    hide KeyName;
  }

  lemma StartDeliversNothing(s: State, w: nat, t: Ticket, claim: Option<Claim>, ans: Answers)
    ensures var next := AfterStart(s, t, claim, ans);
            && SameDeliveries(s, next.0) && MessageOf(next.1) == t.seqNo && Rank(next.1) < 4
            && Punctual(Move(next.0, w, next.1), w)
  {
    hide RecordOutcome, StartOf, AuditStays, VerifiedReport;
  }

  lemma LookupDeliversNothing(env: Env, s: State, w: nat, n: nat, subject: string, e: Event, ans: Answers)
    ensures var next := AfterLookup(env, s.now, n, subject, e, ans);
            MessageOf(next) == n && Rank(next) < 7 && Punctual(Move(s, w, next), w)
  {
    hide Unverified;
  }

  lemma AcksFromTheEnd(env: Env, s: State, w: nat, pc: Pc, ans: Answers)
    requires w !in s.workers && (pc.Acking? || pc.Releasing? || pc.Failed?)
    ensures AckedOnce(s, Drive(env, Move(s, w, pc), w, ans), MessageOf(pc))
  {
    hide Drive, RecordOutcome, KeyName;
    match pc
    case Acking(n) => DriveAcking(env, s, w, n, ans);
    case Releasing(n, held) => DriveReleasing(env, s, w, n, held, ans);
    case Failed(n, report, claim) => DriveFailed(env, s, w, n, report, claim, ans);
  }

  lemma {:induction false} AcksFrom(env: Env, s: State, w: nat, pc: Pc, ans: Answers)
    requires w !in s.workers && Punctual(Move(s, w, pc), w)
    ensures AckedOnce(s, Drive(env, Move(s, w, pc), w, ans), MessageOf(pc))
    decreases Rank(pc)
  {
    hide Drive, RecordOutcome, RecordDuplicate, Unverified, VerifiedReport, AckedOnce, AfterStart, AfterClaim;
    hide AfterLookup;
    match pc
    case Acking(_) => AcksFromTheEnd(env, s, w, pc, ans);
    case Releasing(_, _) => AcksFromTheEnd(env, s, w, pc, ans);
    case Failed(_, _, _) => AcksFromTheEnd(env, s, w, pc, ans);
    case Repeated(t) =>
      DriveRepeated(env, s, w, t, ans);
      var counted, failed := Counted(s, t, ans), Failed(t.seqNo, VerifiedReport(t, TransientError), None);
      AcksFrom(env, counted, w, failed, ans);
      AckedOnceAfter(s, counted, Drive(env, Move(counted, w, failed), w, ans), t.seqNo);
      DriveAcking(env, counted, w, t.seqNo, ans);
      AcksFromTheEnd(env, counted, w, Acking(t.seqNo), ans);
      AckedOnceAfter(s, counted, Acked(counted, t.seqNo), t.seqNo);
    case Unreadable(n, subject) =>
      DriveUnreadable(env, s, w, n, subject, ans);
      var noted, failed := Noted(env, s, subject, ans), Failed(n, Unverified(env, subject, "", TransientError), None);
      AcksFrom(env, noted, w, failed, ans);
      AckedOnceAfter(s, noted, Drive(env, Move(noted, w, failed), w, ans), n);
      DriveAcking(env, noted, w, n, ans);
      AcksFromTheEnd(env, noted, w, Acking(n), ans);
      AckedOnceAfter(s, noted, Acked(noted, n), n);
    case Claimed(t, claim) =>
      DriveClaimed(env, s, w, t, claim, ans);
      StartDeliversNothing(s, w, t, claim, ans);
      var next := AfterStart(s, t, claim, ans);
      AcksFrom(env, next.0, w, next.1, ans);
      AckedOnceAfter(s, next.0, Drive(env, Move(next.0, w, next.1), w, ans), t.seqNo);
    case Scoped(t) =>
      DriveScoped(env, s, w, t, ans);
      ClaimDeliversNothing(s, w, t, ans);
      var next := AfterClaim(s, t, ans);
      AcksFrom(env, next.0, w, next.1, ans);
      AckedOnceAfter(s, next.0, Drive(env, Move(next.0, w, next.1), w, ans), t.seqNo);
    case Verified(t) =>
      DriveVerified(env, s, w, t, ans);
      AcksFrom(env, s, w, if env.scopeAllows(t.key.scope, t.event.process) then Scoped(t)
                          else Failed(t.seqNo, VerifiedReport(t, RejectedScope), None), ans);
    case Screened(n, subject, e, at) =>
      DriveScreened(env, s, w, n, subject, e, ans);
      LookupDeliversNothing(env, s, w, n, subject, e, ans);
      AcksFrom(env, s, w, AfterLookup(env, s.now, n, subject, e, ans), ans);
  }

  // ------------------------------------------------------------------ one message, one effect

  /** One more outcome; acks are counted elsewhere. */
  predicate Adds(before: Tally, after: Tally, instantiated: nat, duplicates: nat, failures: nat) {
    && after.instantiated == before.instantiated + instantiated
    && after.duplicates == before.duplicates + duplicates
    && after.failures == before.failures + failures
  }

  predicate Failing(s: State, s': State, report: Report, written: bool) {
    && s'.instances == s.instances && Adds(s.tally, s'.tally, 0, 0, 1)
    && s'.audit == AuditAfter(s.audit, report, None, written)
  }

  predicate Repeating(s: State, s': State, t: Ticket, written: bool) {
    && s'.instances == s.instances && Adds(s.tally, s'.tally, 0, 1, 0)
    && s'.audit == if written then RecordDuplicate(s.audit, t.event.tenantId, t.event.id) else s.audit
  }

  function Made(t: Ticket, claim: Option<Claim>): Instance {
    Instance(t.event.tenantId, t.event.process, t.key.owner, t, claim)
  }

  /** A claim of the ticket's own event, or none when it has no id. */
  predicate ClaimFits(t: Ticket, claim: Option<Claim>) {
    if t.event.id == "" then claim.None?
    else claim.Some? && claim.value.tenant == t.event.tenantId && claim.value.eventId == t.event.id
  }

  ghost predicate Committing(s: State, s': State, t: Ticket, written: bool) {
    && Adds(s.tally, s'.tally, 1, 0, 0)
    && (exists claim: Option<Claim> :: s'.instances == s.instances + [Made(t, claim)] && ClaimFits(t, claim))
    && s'.audit == AuditAfter(s.audit, VerifiedReport(t, Instantiated), Some(|s.instances|), written)
  }

  // ------------------------------------------------------------------ which effect it is

  /** The first gate that refuses, and how. */
  function Refusal(env: Env, c: Setting, now: nat, m: Message, ans: Answers): Option<Outcome> {
    if m.body.None? then Some(InvalidPayload)
    else if Screen(env, c, now, m.subject, m.body.value).Refuse? then
      Some(Screen(env, c, now, m.subject, m.body.value).outcome)
    else if ans.lookupBroken then Some(TransientError)
    else
      var e := m.body.value;
      match env.resolve(e.apiKeyId, now)
      case None => Some(RejectedAuth)
      case Some(key) =>
        if key.tenantId != e.tenantId then Some(TenantMismatch)
        else if !env.scopeAllows(key.scope, e.process) then Some(RejectedScope)
        else None
  }

  /** The gates up to the key all pass: from then on the payload's tenant and event id are the sender's. */
  predicate SenderVerified(env: Env, c: Setting, now: nat, m: Message, ans: Answers) {
    && m.body.Some? && Screen(env, c, now, m.subject, m.body.value) == Accept && !ans.lookupBroken
    && env.resolve(m.body.value.apiKeyId, now).Some?
    && env.resolve(m.body.value.apiKeyId, now).value.tenantId == m.body.value.tenantId
  }

  function TicketOf(env: Env, c: Setting, s: State, seqNo: nat, ans: Answers): Ticket
    requires seqNo < |s.stream| && SenderVerified(env, c, s.now, s.stream[seqNo], ans)
  {
    var e := s.stream[seqNo].body.value;
    Ticket(seqNo, e, s.now, env.resolve(e.apiKeyId, s.now).value, s.now)
  }

  function EventIdOf(m: Message): string { if m.body.Some? then m.body.value.id else "" }

  /** The report of a failure: under the subject's tenant until the sender is verified, then under the payload's. */
  function ReportOn(env: Env, c: Setting, now: nat, m: Message, ans: Answers, outcome: Outcome): Report {
    if SenderVerified(env, c, now, m, ans) then Report(outcome, Some(m.body.value.tenantId), m.body.value.id, false)
    else Unverified(env, m.subject, EventIdOf(m), outcome)
  }

  predicate Repeats(s: State, t: Ticket, ans: Answers) {
    t.event.id != "" && !ans.claimOutage && ClaimedName(t) in s.kv
  }

  /** What the failure handler files a start under. */
  function StartOutcome(result: StartResult): Outcome {
    match result
    case Committed => Instantiated
    case NoInitiator => UserNotFound
    case NoModel => ModelNotFound
    case _ => TransientError
  }

  /** What happens before the failure handler: nothing that counts, a repetition, or a commit. */
  ghost predicate FirstEffect(env: Env, c: Setting, s: State, s': State, seqNo: nat, ans: Answers)
    requires seqNo < |s.stream| && Refusal(env, c, s.now, s.stream[seqNo], ans).None?
  {
    var t := TicketOf(env, c, s, seqNo, ans);
    if Repeats(s, t, ans) then Repeating(s, s', t, ans.noted)
    else if StartOf(ans).Committed? || StartOf(ans).CommittedThenRaised?
    then Committing(s, s', t, AuditStays(ans.course))
    else Failing(s, s', VerifiedReport(t, StartOutcome(StartOf(ans))), ans.written)
  }

  /**
   The one effect of the message at `seqNo`: the first refusing gate's failure; else a repetition exactly when its key
   is there; else its instance or the failure of its start.
  */
  ghost predicate OneEffect(env: Env, c: Setting, s: State, s': State, seqNo: nat, ans: Answers)
    requires seqNo < |s.stream|
  {
    var m := s.stream[seqNo];
    match Refusal(env, c, s.now, m, ans)
    case Some(outcome) =>
      Failing(s, s', ReportOn(env, c, s.now, m, ans, outcome), if m.body.None? then ans.noted else ans.written)
    case None => FirstEffect(env, c, s, s', seqNo, ans)
  }

  /** The first effect, and after it a transient failure of the same message. */
  ghost predicate TwoEffects(env: Env, c: Setting, s: State, s': State, seqNo: nat, ans: Answers)
    requires seqNo < |s.stream|
  {
    exists mid: State ::
      && OneEffect(env, c, s, mid, seqNo, ans)
      && Failing(mid, s', ReportOn(env, c, s.now, s.stream[seqNo], ans, TransientError), ans.written)
  }

  /**
   Something raises after the message was counted: the ack of an unreadable message or of a duplicate, or anything
   after a commit.
  */
  predicate CountedTwice(env: Env, c: Setting, s: State, seqNo: nat, ans: Answers)
    requires seqNo < |s.stream|
  {
    var m := s.stream[seqNo];
    if m.body.None? then ans.ackBreaks
    else
      && Refusal(env, c, s.now, m, ans).None?
      && if Repeats(s, TicketOf(env, c, s, seqNo, ans), ans) then ans.ackBreaks else StartOf(ans).CommittedThenRaised?
  }

  ghost predicate ItsEffect(env: Env, c: Setting, s: State, s': State, seqNo: nat, ans: Answers)
    requires seqNo < |s.stream|
  {
    if CountedTwice(env, c, s, seqNo, ans) then TwoEffects(env, c, s, s', seqNo, ans)
    else OneEffect(env, c, s, s', seqNo, ans)
  }

  lemma FailureEffect(env: Env, s: State, w: nat, n: nat, report: Report, claim: Option<Claim>, ans: Answers)
    requires w !in s.workers
    ensures Failing(s, Drive(env, Move(s, w, Failed(n, report, claim)), w, ans), report, ans.written)
  {
    hide Drive, RecordOutcome;
    DriveFailed(env, s, w, n, report, claim, ans);
  }

  /** The clock and the bucket do not matter to an effect on the books. */
  predicate SameBooks(s: State, r: State) {
    s.instances == r.instances && s.audit == r.audit && s.tally == r.tally
  }

  /** What the claim and the start of a verified sender's message do. */
  ghost predicate TicketEffect(s: State, s': State, t: Ticket, repeats: bool, ans: Answers) {
    var report := VerifiedReport(t, TransientError);
    if repeats then
      if ans.ackBreaks
      then exists mid: State :: Repeating(s, mid, t, ans.noted) && Failing(mid, s', report, ans.written)
      else Repeating(s, s', t, ans.noted)
    else
      match StartOf(ans)
      case Committed => Committing(s, s', t, AuditStays(ans.course))
      case CommittedThenRaised =>
        exists mid: State :: Committing(s, mid, t, AuditStays(ans.course)) && Failing(mid, s', report, ans.written)
      case result => Failing(s, s', VerifiedReport(t, StartOutcome(result)), ans.written)
  }

  lemma StartEffect(env: Env, s: State, w: nat, t: Ticket, claim: Option<Claim>, ans: Answers)
    requires w !in s.workers && ClaimFits(t, claim)
    ensures TicketEffect(s, Drive(env, Move(s, w, Claimed(t, claim)), w, ans), t, false, ans)
  {
    hide Drive, RecordOutcome, RecordDuplicate, StartOf, AuditStays;
    DriveClaimed(env, s, w, t, claim, ans);
    var next := AfterStart(s, t, claim, ans);
    if StartOf(ans).Committed? || StartOf(ans).CommittedThenRaised? {
      assert next.0.instances == s.instances + [Made(t, claim)];
      assert Committing(s, next.0, t, AuditStays(ans.course));
    }
    if StartOf(ans).Committed? {
      DriveAcking(env, next.0, w, t.seqNo, ans);
    } else {
      FailureEffect(env, next.0, w, t.seqNo, next.1.report, claim, ans);
    }
  }

  lemma RepeatEffect(env: Env, s: State, w: nat, t: Ticket, ans: Answers)
    requires w !in s.workers
    ensures TicketEffect(s, Drive(env, Move(s, w, Repeated(t)), w, ans), t, true, ans)
  {
    hide Drive, RecordOutcome, RecordDuplicate;
    DriveRepeated(env, s, w, t, ans);
    assert Repeating(s, Counted(s, t, ans), t, ans.noted);
    if ans.ackBreaks {
      FailureEffect(env, Counted(s, t, ans), w, t.seqNo, VerifiedReport(t, TransientError), None, ans);
    }
  }

  lemma ClaimEffect(env: Env, s: State, w: nat, t: Ticket, ans: Answers)
    requires w !in s.workers
    ensures TicketEffect(s, Drive(env, Move(s, w, Scoped(t)), w, ans), t, Repeats(s, t, ans), ans)
  {
    hide Drive, RecordOutcome, RecordDuplicate, StartOf, AuditStays, KeyName, TicketEffect;
    DriveScoped(env, s, w, t, ans);
    var next := AfterClaim(s, t, ans);
    if next.1.Repeated? {
      RepeatEffect(env, next.0, w, t, ans);
    } else {
      StartEffect(env, next.0, w, t, next.1.claim, ans);
    }
    BooksDecide(next.0, s, Drive(env, Move(next.0, w, next.1), w, ans), t, Repeats(s, t, ans), ans);
  }

  lemma BooksDecide(r: State, s: State, s': State, t: Ticket, repeats: bool, ans: Answers)
    requires SameBooks(r, s) && TicketEffect(r, s', t, repeats, ans)
    ensures TicketEffect(s, s', t, repeats, ans)
  {
    hide RecordOutcome, RecordDuplicate, StartOf, AuditStays;
  }

  /** From the lookup on, for a sender that turns out to be verified and allowed. */
  lemma PassedEffect(env: Env, c: Setting, s: State, w: nat, seqNo: nat, ans: Answers)
    requires w !in s.workers && seqNo < |s.stream| && Refusal(env, c, s.now, s.stream[seqNo], ans).None?
    ensures var m := s.stream[seqNo];
            ItsEffect(env, c, s, Drive(env, Move(s, w, Screened(seqNo, m.subject, m.body.value, s.now)), w, ans),
                      seqNo, ans)
  {
    hide Drive, Screen, StartOf, Failing, Repeating, Committing;
    var m, t := s.stream[seqNo], TicketOf(env, c, s, seqNo, ans);
    DriveScreened(env, s, w, seqNo, m.subject, m.body.value, ans);
    DriveVerified(env, s, w, t, ans);
    ClaimEffect(env, s, w, t, ans);
    assert ReportOn(env, c, s.now, m, ans, TransientError) == VerifiedReport(t, TransientError);
  }

  /** From the lookup on, for a sender that is refused. */
  lemma RefusedEffect(env: Env, c: Setting, s: State, w: nat, seqNo: nat, ans: Answers)
    requires w !in s.workers && seqNo < |s.stream| && s.stream[seqNo].body.Some?
    requires Screen(env, c, s.now, s.stream[seqNo].subject, s.stream[seqNo].body.value) == Accept
    requires Refusal(env, c, s.now, s.stream[seqNo], ans).Some?
    ensures var m := s.stream[seqNo];
            OneEffect(env, c, s, Drive(env, Move(s, w, Screened(seqNo, m.subject, m.body.value, s.now)), w, ans),
                      seqNo, ans)
  {
    hide Drive, Screen, Failing, Unverified;
    var m := s.stream[seqNo];
    var report := ReportOn(env, c, s.now, m, ans, Refusal(env, c, s.now, m, ans).value);
    DriveScreened(env, s, w, seqNo, m.subject, m.body.value, ans);
    if SenderVerified(env, c, s.now, m, ans) { DriveVerified(env, s, w, TicketOf(env, c, s, seqNo, ans), ans); }
    FailureEffect(env, s, w, seqNo, report, None, ans);
  }

  lemma UnreadableEffect(env: Env, c: Setting, s: State, w: nat, seqNo: nat, ans: Answers)
    requires w !in s.workers && seqNo < |s.stream| && s.stream[seqNo].body.None?
    ensures ItsEffect(env, c, s, Drive(env, Move(s, w, Unreadable(seqNo, s.stream[seqNo].subject)), w, ans), seqNo, ans)
  {
    hide Drive, Unverified, RecordOutcome;
    var subject := s.stream[seqNo].subject;
    var noted := Noted(env, s, subject, ans);
    DriveUnreadable(env, s, w, seqNo, subject, ans);
    assert OneEffect(env, c, s, noted, seqNo, ans);
    if ans.ackBreaks {
      FailureEffect(env, noted, w, seqNo, Unverified(env, subject, "", TransientError), None, ans);
    }
  }

  function Delivered(s: State): State { s.(tally := s.tally.(delivered := s.tally.delivered + 1)) }

  /** A message has its own one effect, or that and a transient failure when something raises after it was counted. */
  lemma HandleHasItsEffect(env: Env, c: Setting, s: State, w: nat, seqNo: nat, ans: Answers)
    requires seqNo < |s.stream| && w !in s.workers
    ensures ItsEffect(env, c, Delivered(s), Handle(env, c, s, w, seqNo, ans), seqNo, ans)
  {
    hide Drive, Screen, StartOf, Failing, OneEffect, TwoEffects, FirstEffect, Unverified;
    var s1, m := Delivered(s), s.stream[seqNo];
    assert Receive(env, c, s, w, seqNo) == Move(s1, w, FirstPc(env, c, s.now, m, seqNo));
    if m.body.None? {
      UnreadableEffect(env, c, s1, w, seqNo, ans);
    } else if Screen(env, c, s.now, m.subject, m.body.value).Refuse? {
      ScreenedOutEffect(env, c, s1, w, seqNo, ans);
    } else if Refusal(env, c, s.now, m, ans).Some? {
      RefusedEffect(env, c, s1, w, seqNo, ans);
    } else {
      PassedEffect(env, c, s1, w, seqNo, ans);
    }
  }

  lemma ScreenedOutEffect(env: Env, c: Setting, s: State, w: nat, seqNo: nat, ans: Answers)
    requires w !in s.workers && seqNo < |s.stream| && s.stream[seqNo].body.Some?
    requires Screen(env, c, s.now, s.stream[seqNo].subject, s.stream[seqNo].body.value).Refuse?
    ensures OneEffect(env, c, s, Drive(env, Move(s, w, FirstPc(env, c, s.now, s.stream[seqNo], seqNo)), w, ans),
                      seqNo, ans)
  {
    hide Drive, Screen, Failing, Unverified;
    var m := s.stream[seqNo];
    FailureEffect(env, s, w, seqNo, ReportOn(env, c, s.now, m, ans, Refusal(env, c, s.now, m, ans).value), None, ans);
  }

  lemma OneEffectCountsOnce(env: Env, c: Setting, s: State, s': State, seqNo: nat, ans: Answers)
    requires seqNo < |s.stream| && OneEffect(env, c, s, s', seqNo, ans)
    ensures Outcomes(s'.tally) == Outcomes(s.tally) + 1
    ensures s'.tally.instantiated + |s.instances| == s.tally.instantiated + |s'.instances|
  {
    hide Refusal, SenderVerified, ReportOn, RecordOutcome, RecordDuplicate, StartOf, AuditStays;
  }

  lemma ItsEffectCounts(env: Env, c: Setting, s: State, s': State, seqNo: nat, ans: Answers)
    requires seqNo < |s.stream| && ItsEffect(env, c, s, s', seqNo, ans)
    ensures Outcomes(s'.tally) == Outcomes(s.tally) + 1 + One(CountedTwice(env, c, s, seqNo, ans))
    ensures s'.tally.instantiated + |s.instances| == s.tally.instantiated + |s'.instances|
  {
    hide OneEffect, CountedTwice, ReportOn, AuditAfter;
    if CountedTwice(env, c, s, seqNo, ans) {
      var mid: State :| OneEffect(env, c, s, mid, seqNo, ans)
        && Failing(mid, s', ReportOn(env, c, s.now, s.stream[seqNo], ans, TransientError), ans.written);
      OneEffectCountsOnce(env, c, s, mid, seqNo, ans);
    } else {
      OneEffectCountsOnce(env, c, s, s', seqNo, ans);
    }
  }

  /**
   Each handled message has exactly one effect, its own, exactly when nothing raises after it was counted: the ack of
   a duplicate or of an unreadable message, or anything after a commit.
  */
  lemma HandleHasOneEffectExactlyWhen(env: Env, c: Setting, s: State, w: nat, seqNo: nat, ans: Answers)
    requires seqNo < |s.stream| && w !in s.workers
    ensures OneEffect(env, c, Delivered(s), Handle(env, c, s, w, seqNo, ans), seqNo, ans) <==>
            !CountedTwice(env, c, Delivered(s), seqNo, ans)
  {
    hide Handle, OneEffect, TwoEffects, CountedTwice;
    var s' := Handle(env, c, s, w, seqNo, ans);
    HandleHasItsEffect(env, c, s, w, seqNo, ans);
    ItsEffectCounts(env, c, Delivered(s), s', seqNo, ans);
    if OneEffect(env, c, Delivered(s), s', seqNo, ans) { OneEffectCountsOnce(env, c, Delivered(s), s', seqNo, ans); }
  }

  /** The states before and after each of the first `n` messages of a batch; each message had its own effect. */
  ghost predicate EachHasItsEffect(env: Env, c: Setting, stream: seq<Message>, states: seq<State>, batch: seq<nat>,
      answers: seq<Answers>, n: nat)
  {
    && n <= |batch| == |answers| && |states| == n + 1 && states[n].stream == stream
    && forall i | 0 <= i < n ::
         && states[i].stream == stream && batch[i] < |stream|
         && ItsEffect(env, c, Delivered(states[i]), states[i + 1], batch[i], answers[i])
  }

  /** How many of them were counted twice. */
  ghost function Again(env: Env, c: Setting, states: seq<State>, batch: seq<nat>, answers: seq<Answers>, n: nat): nat
    requires n <= |batch| == |answers| && n <= |states|
    requires forall i | 0 <= i < n :: batch[i] < |states[i].stream|
  {
    if n == 0 then 0
    else
      Again(env, c, states, batch, answers, n - 1)
      + One(CountedTwice(env, c, Delivered(states[n - 1]), batch[n - 1], answers[n - 1]))
  }

  lemma {:induction false} AgainBefore(env: Env, c: Setting, states: seq<State>, batch: seq<nat>, answers: seq<Answers>,
      n: nat, s: State)
    requires n <= |batch| == |answers| && n <= |states|
    requires forall i | 0 <= i < n :: batch[i] < |states[i].stream|
    ensures Again(env, c, states + [s], batch, answers, n) == Again(env, c, states, batch, answers, n)
  {
    hide CountedTwice;
    if n > 0 { AgainBefore(env, c, states, batch, answers, n - 1, s); }
  }

  lemma OneState(env: Env, c: Setting, states: seq<State>, batch: seq<nat>, answers: seq<Answers>)
    requires |states| == 1 && |batch| == |answers|
    ensures EachHasItsEffect(env, c, states[0].stream, states, batch, answers, 0)
    ensures Again(env, c, states, batch, answers, 0) == 0
  {
  }

  lemma OneMoreEffect(env: Env, c: Setting, stream: seq<Message>, states: seq<State>, batch: seq<nat>,
      answers: seq<Answers>, n: nat, s: State)
    requires EachHasItsEffect(env, c, stream, states, batch, answers, n)
    requires n < |batch| && batch[n] < |stream| && s.stream == stream
    requires ItsEffect(env, c, Delivered(states[n]), s, batch[n], answers[n])
    ensures EachHasItsEffect(env, c, stream, states + [s], batch, answers, n + 1)
    ensures Again(env, c, states + [s], batch, answers, n + 1) ==
            Again(env, c, states, batch, answers, n)
            + One(CountedTwice(env, c, Delivered(states[n]), batch[n], answers[n]))
  {
    hide ItsEffect, CountedTwice, Delivered;
    assert forall i | 0 <= i <= n :: (states + [s])[i] == states[i];
    AgainBefore(env, c, states, batch, answers, n, s);
  }

  /** What the transaction leaves is what the protocol's start does. */
  lemma LeftIsAfterStart(s: State, t: Ticket, claim: Option<Claim>, ans: Answers, before: Store)
    requires before.instances == s.instances && before.audit == s.audit
    ensures var left := Left(ans.course, Making(t.event.tenantId, Made(t, claim)), before);
            var more := if |left.instances| > |s.instances| then 1 else 0;
            AfterStart(s, t, claim, ans).0 ==
            s.(instances := left.instances, audit := left.audit,
               tally := s.tally.(instantiated := s.tally.instantiated + more))
  {
    hide RecordOutcome;
    assert s.instances + [] == s.instances;
  }

  function GrantedTo(memberships: map<string, string>, owner: string): Option<string> {
    if owner in memberships then Some(memberships[owner]) else None
  }

  function Granting(memberships: map<string, string>, owner: string, tenant: Option<string>): map<string, string> {
    if tenant.Some? then memberships[owner := tenant.value] else memberships - {owner}
  }

  lemma GrantingBack(memberships: map<string, string>, owner: string)
    ensures Granting(memberships, owner, GrantedTo(memberships, owner)) == memberships
  {
  }

  lemma LeftMembership(a: Course, m: Making, before: Store)
    ensures Left(a, m, before).membership == if GrantStays(a) then Some(m.tenant) else before.membership
  {
  }

  /** The outcome that a failed attempt is filed under. */
  function FiledUnder(failure: Failure): Outcome {
    match failure
    case InitiatorNotFound => UserNotFound
    case ModelNotFoundError => ModelNotFound
    case OtherError => TransientError
  }

  /** Where the worker stands after the attempt. With the instance there, a failure is never of the first two kinds. */
  lemma StandsAfterStart(s: State, t: Ticket, claim: Option<Claim>, ans: Answers)
    ensures AfterStart(s, t, claim, ans).1 ==
            if Returns(ans.course) then
              (if ans.ackBreaks then Failed(t.seqNo, VerifiedReport(t, TransientError), claim) else Acking(t.seqNo))
            else Failed(t.seqNo, VerifiedReport(t, FiledUnder(FailureOf(ans.course))), claim)
  {
    hide RecordOutcome;
  }

  class Consumer {
    const env: Env
    const setting: Setting
    const me: nat

    var now: nat
    var stream: seq<Message>
    var acked: set<nat>
    var kv: map<string, nat>
    var instances: seq<Instance>
    var audit: Audit
    var tally: Tally
    /** The tenant each initiator is granted, if any. */
    var memberships: map<string, string>

    /** The other workers over the same bucket and database. */
    ghost var others: map<nat, Pc>

    constructor (env: Env, setting: Setting, me: nat)
      ensures this.env == env && this.setting == setting && this.me == me && View() == INITIAL
    {
      this.env, this.setting, this.me := env, setting, me;
      now, stream, acked, kv, instances := 0, [], {}, map[], [];
      audit, tally := Audit(map[], []), Tally(0, 0, 0, 0, 0);
      memberships, others := map[], map[];
    }

    ghost function View(): State
      reads this
    {
      State(now, stream, acked, kv, instances, audit, others, tally)
    }

    /** The shared state while this worker waits at `pc`. */
    ghost function At(pc: Pc): State
      reads this
    {
      View().(workers := others[me := pc])
    }

    ghost predicate Idle()
      reads this
    {
      me !in others
    }

    method CheckIdempotency(tenant: string, eventId: string, outage: bool) returns (claim: Option<Claim>)
      requires outage ==> setting.outages
      modifies this`kv
      ensures claim == if !outage && KeyName(tenant, eventId) in old(kv) then None
              else Some(Claim(tenant, eventId, now))
      ensures kv == if outage || claim.None? then old(kv) else old(kv)[KeyName(tenant, eventId) := now]
    {
      if outage { return Some(Claim(tenant, eventId, now)); }
      if KeyName(tenant, eventId) in kv { return None; }
      kv := kv[KeyName(tenant, eventId) := now];
      return Some(Claim(tenant, eventId, now));
    }

    method RecordAudit(report: Report, written: bool)
      modifies this`audit
      ensures audit == if written then RecordOutcome(old(audit), report, None) else old(audit)
    {
      if written { audit := RecordOutcome(audit, report, None); }
    }

    method AckAndCount(seqNo: nat)
      modifies this`acked, this`tally
      ensures acked == old(acked) + {seqNo}
      ensures tally == old(tally).(acked := old(tally).acked + 1)
    {
      acked := acked + {seqNo};
      tally := tally.(acked := tally.acked + 1);
    }

    /** The gates before the claim: None when all pass, else the outcome and whether the sender was verified by then. */
    method PassGates(seqNo: nat, subject: string, data: Event, ans: Answers)
      returns (failure: Option<Outcome>, senderVerified: bool, t: Ticket)
      requires Idle()
      ensures t.seqNo == seqNo && t.event == data
      ensures Drive(env, At(FirstPc(env, setting, now, Message(subject, Some(data)), seqNo)), me, ans) ==
              Drive(env, At(if failure.None? then Scoped(t)
                            else Failed(seqNo, ReportOf(subject, data, failure.value, senderVerified), None)), me, ans)
      ensures failure.None? ==> senderVerified
    {
      t := Ticket(seqNo, data, now, Key("", "", ""), now);
      var verdict := Screen(env, setting, now, subject, data);
      if verdict.Refuse? { return Some(verdict.outcome), false, t; }
      DriveScreened(env, View(), me, seqNo, subject, data, ans);
      if ans.lookupBroken { return Some(TransientError), false, t; }
      var authenticated := env.resolve(data.apiKeyId, now);
      if authenticated.None? { return Some(RejectedAuth), false, t; }
      if authenticated.value.tenantId != data.tenantId { return Some(TenantMismatch), false, t; }
      t := Ticket(seqNo, data, now, authenticated.value, now);
      DriveVerified(env, View(), me, t, ans);
      if !env.scopeAllows(t.key.scope, data.process) { return Some(RejectedScope), true, t; }
      return None, true, t;
    }

    function ReportOf(subject: string, data: Event, outcome: Outcome, senderVerified: bool): Report {
      if senderVerified then Report(outcome, Some(data.tenantId), data.id, false)
      else Unverified(env, subject, data.id, outcome)
    }

    /**
     One message, from parsing to ack. A failure carried past the attempt is the source's
     exception; the last lines are its handler, which reports, releases the key and acks.
    */
    method ProcessMessage(seqNo: nat, ans: Answers)
      requires Idle() && seqNo < |stream|
      requires Allowed(setting, ans)
      modifies this`now, this`acked, this`kv, this`instances, this`audit, this`tally, this`memberships
      ensures View() == Handle(env, setting, old(View()), me, seqNo, ans)
    {
      ghost var target := Handle(env, setting, View(), me, seqNo, ans);
      var msg := stream[seqNo];
      tally := tally.(delivered := tally.delivered + 1);
      assert target == Drive(env, At(FirstPc(env, setting, now, msg, seqNo)), me, ans);
      if msg.body.None? {
        NoteUnreadableAndAck(seqNo, msg.subject, ans);
        if ans.ackBreaks { ReportReleaseAndAck(seqNo, Unverified(env, msg.subject, "", TransientError), None, ans); }
        return;
      }
      var data := msg.body.value;
      var dedupKey: Option<Claim> := None;
      var failure, senderVerified, t := PassGates(seqNo, msg.subject, data, ans);
      assert msg == Message(msg.subject, Some(data));
      if failure.None? {
        dedupKey, failure := Attempt(t, ans);
        if failure.None? { return; }
      }
      var report := ReportOf(msg.subject, data, failure.value, senderVerified);
      assert target == Drive(env, At(Failed(seqNo, report, dedupKey)), me, ans);
      ReportReleaseAndAck(seqNo, report, dedupKey, ans);
    }

    /** Claim, start and ack. Without a failure the message is done with; with one, the claim it holds is returned. */
    method Attempt(t: Ticket, ans: Answers) returns (dedupKey: Option<Claim>, failure: Option<Outcome>)
      requires Idle() && Allowed(setting, ans)
      modifies this`now, this`acked, this`kv, this`instances, this`audit, this`tally, this`memberships
      ensures failure.None? ==> View() == Drive(env, old(At(Scoped(t))), me, ans)
      ensures failure.Some? ==>
              Drive(env, At(Failed(t.seqNo, VerifiedReport(t, failure.value), dedupKey)), me, ans) ==
              Drive(env, old(At(Scoped(t))), me, ans)
    {
      ghost var target := Drive(env, At(Scoped(t)), me, ans);
      DriveScoped(env, View(), me, t, ans);
      var duplicate;
      dedupKey, duplicate := ClaimOnce(t, ans);
      if duplicate {
        assert target == Drive(env, At(Repeated(t)), me, ans);
        CountDuplicateAndAck(t, ans);
        return None, if ans.ackBreaks then Some(TransientError) else None;
      }
      assert target == Drive(env, At(Claimed(t, dedupKey)), me, ans);
      DriveClaimed(env, View(), me, t, dedupKey, ans);
      failure := InstantiateProcess(t, dedupKey, ans);
      if failure.None? {
        assert target == Drive(env, At(Acking(t.seqNo)), me, ans);
        DriveAcking(env, View(), me, t.seqNo, ans);
        AckAndCount(t.seqNo);
      }
    }

    /** `instantiate_process` and the ack's fate: None on success, else the outcome the failure is filed under. */
    method InstantiateProcess(t: Ticket, claim: Option<Claim>, ans: Answers) returns (failure: Option<Outcome>)
      modifies this`instances, this`audit, this`tally, this`memberships
      ensures (View(), if failure.None? then Acking(t.seqNo)
                       else Failed(t.seqNo, VerifiedReport(t, failure.value), claim))
              == AfterStart(old(View()), t, claim, ans)
      ensures memberships == if GrantStays(ans.course) then old(memberships)[t.key.owner := t.event.tenantId]
                             else old(memberships)
    {
      hide Left, AfterStart, Returns, FailureOf, GrantStays, RecordOutcome;
      var making := Making(t.event.tenantId, Made(t, claim));
      var before := Store(GrantedTo(memberships, t.key.owner), instances, audit);
      var session := new Session(before);
      var raised := session.InstantiateProcess(ans.course, making, audit);
      LeftIsAfterStart(View(), t, claim, ans, before);
      StandsAfterStart(View(), t, claim, ans);
      LeftMembership(ans.course, making, before);
      GrantingBack(memberships, t.key.owner);
      memberships := Granting(memberships, t.key.owner, session.committed.membership);
      if |session.committed.instances| > |instances| { tally := tally.(instantiated := tally.instantiated + 1); }
      instances, audit := session.committed.instances, session.committed.audit;
      failure := if raised.Some? then Some(FiledUnder(raised.value))
                 else if ans.ackBreaks then Some(TransientError) else None;
    }

    /** The claim before the start: skipped for an event without an id. */
    method ClaimOnce(t: Ticket, ans: Answers) returns (dedupKey: Option<Claim>, duplicate: bool)
      requires Idle() && (ans.claimOutage ==> setting.outages)
      modifies this`now, this`kv
      ensures (View(), if duplicate then Repeated(t) else Claimed(t, dedupKey)) == AfterClaim(old(View()), t, ans)
    {
      now := now + ans.lag;
      if t.event.id == "" { return None, false; }
      dedupKey := CheckIdempotency(t.event.tenantId, t.event.id, ans.claimOutage);
      duplicate := dedupKey.None?;
    }

    /** If its ack raises, the duplicate is left to the failure handler. */
    method CountDuplicateAndAck(t: Ticket, ans: Answers)
      requires Idle()
      modifies this`acked, this`audit, this`tally
      ensures (if ans.ackBreaks then Drive(env, At(Failed(t.seqNo, VerifiedReport(t, TransientError), None)), me, ans)
               else View()) == Drive(env, old(At(Repeated(t))), me, ans)
    {
      hide Drive, RecordDuplicate;
      DriveRepeated(env, View(), me, t, ans);
      if ans.noted { audit := RecordDuplicate(audit, t.event.tenantId, t.event.id); }
      tally := tally.(duplicates := tally.duplicates + 1);
      if !ans.ackBreaks { AckAndCount(t.seqNo); }
    }

    /** So is a message that cannot be parsed. */
    method NoteUnreadableAndAck(seqNo: nat, subject: string, ans: Answers)
      requires Idle()
      modifies this`acked, this`audit, this`tally
      ensures (if ans.ackBreaks
               then Drive(env, At(Failed(seqNo, Unverified(env, subject, "", TransientError), None)), me, ans)
               else View()) == Drive(env, old(At(Unreadable(seqNo, subject))), me, ans)
    {
      hide Drive, RecordOutcome, Unverified;
      DriveUnreadable(env, View(), me, seqNo, subject, ans);
      RecordAudit(Unverified(env, subject, "", InvalidPayload), ans.noted);
      tally := tally.(failures := tally.failures + 1);
      if !ans.ackBreaks { AckAndCount(seqNo); }
    }

    method ReportReleaseAndAck(seqNo: nat, report: Report, dedupKey: Option<Claim>, ans: Answers)
      requires Idle()
      modifies this`acked, this`kv, this`audit, this`tally
      ensures View() == Drive(env, old(At(Failed(seqNo, report, dedupKey))), me, ans)
    {
      DriveFailed(env, View(), me, seqNo, report, dedupKey, ans);
      RecordAudit(report, ans.written);
      tally := tally.(failures := tally.failures + 1);
      if dedupKey.Some? && !ans.releaseOutage { kv := kv - {NameOf(dedupKey.value)}; }
      AckAndCount(seqNo);
    }

    /**
     The fetch loop over one batch. Every message is acked once and has its own effect, in turn; the books balance
     but for the messages counted twice, the bucket changes by the workers' own hands, and instances stay earned.
    */
    method HandleBatch(batch: seq<nat>, answers: seq<Answers>, ghost twice: nat, ghost lost: set<string>)
      returns (ghost states: seq<State>)
      requires Idle() && |answers| == |batch|
      requires forall i | 0 <= i < |batch| :: batch[i] < |stream| && batch[i] !in acked && Allowed(setting, answers[i])
      requires forall i, j | 0 <= i < j < |batch| :: batch[i] != batch[j]
      modifies this`now, this`acked, this`kv, this`instances, this`audit, this`tally, this`memberships
      ensures acked == old(acked) + (set i | 0 <= i < |batch| :: batch[i])
      ensures tally.acked == old(tally).acked + |batch| && tally.delivered == old(tally).delivered + |batch|
      ensures EachHasItsEffect(env, setting, stream, states, batch, answers, |batch|)
      ensures states[0] == old(View()) && states[|batch|] == View()
      ensures Balanced(old(View()), twice) ==>
                Balanced(View(), twice + Again(env, setting, states, batch, answers, |batch|))
      ensures Reliable(setting) && Agrees(old(View()), lost) ==> Agrees(View(), lost)
      ensures Provenance(env, setting, old(View())) ==> Provenance(env, setting, View())
    {
      hide Agrees, Provenance, Balanced, ItsEffect, CountedTwice, Allowed, Reliable, Again, One;
      states := [View()];
      OneState(env, setting, states, batch, answers);
      for i := 0 to |batch|
        invariant acked == old(acked) + (set k | 0 <= k < i :: batch[k])
        invariant tally.acked == old(tally).acked + i && tally.delivered == old(tally).delivered + i
        invariant EachHasItsEffect(env, setting, stream, states, batch, answers, i)
        invariant |states| == i + 1 && states[0] == old(View()) && states[i] == View()
        invariant Balanced(old(View()), twice) ==>
                    Balanced(View(), twice + Again(env, setting, states, batch, answers, i))
        invariant Reliable(setting) && Agrees(old(View()), lost) ==> Agrees(View(), lost)
        invariant Provenance(env, setting, old(View())) ==> Provenance(env, setting, View())
      {
        ghost var again := Again(env, setting, states, batch, answers, i);
        HandleOne(batch[i], answers[i], twice + again, lost);
        OneMoreEffect(env, setting, stream, states, batch, answers, i, View());
        states := states + [View()];
      }
    }

    /** One turn of the loop. */
    method HandleOne(seqNo: nat, ans: Answers, ghost twice: nat, ghost lost: set<string>)
      requires Idle() && seqNo < |stream| && seqNo !in acked && Allowed(setting, ans)
      modifies this`now, this`acked, this`kv, this`instances, this`audit, this`tally, this`memberships
      ensures acked == old(acked) + {seqNo}
      ensures tally.acked == old(tally).acked + 1 && tally.delivered == old(tally).delivered + 1
      ensures ItsEffect(env, setting, Delivered(old(View())), View(), seqNo, ans)
      ensures Balanced(old(View()), twice) ==>
                Balanced(View(), twice + One(old(CountedTwice(env, setting, Delivered(View()), seqNo, ans))))
      ensures Reliable(setting) && Agrees(old(View()), lost) ==> Agrees(View(), lost)
      ensures Provenance(env, setting, old(View())) ==> Provenance(env, setting, View())
    {
      hide Handle, HandleScript, Run, Lost, Agrees, Provenance, ItsEffect, CountedTwice, StartOf;
      ghost var before := View();
      ghost var script := HandleScript(env, setting, before, me, seqNo, ans);
      HandleIsARun(env, setting, before, me, seqNo, ans);
      HandleAcksOnce(env, setting, before, me, seqNo, ans);
      ProcessMessage(seqNo, ans);
      HandleHasItsEffect(env, setting, before, me, seqNo, ans);
      ItsEffectCounts(env, setting, Delivered(before), View(), seqNo, ans);
      if Reliable(setting) && Agrees(before, lost) {
        AgreesRun(env, setting, before, script, lost);
        NobodyCrashesNothingLost(env, setting, before, script);
        assert lost + {} == lost;
      }
      if Provenance(env, setting, before) { EveryInstanceIsEarned(env, setting, before, script); }
    }
  }
}
