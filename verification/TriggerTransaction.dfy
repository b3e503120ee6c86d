/**
 The transaction inside `instantiate_process`: one session with pending rows and a savepoint, a
 membership grant that commits that session before the start and again when it is reverted, and a
 start that may keep the instance in the session or commit it in one of its own.
*/
module TriggerTransaction {
  import opened Wrappers
  import opened TriggerProtocol

  /** What a transaction can see or leave behind: the initiator's granted tenant, instances, audit rows. */
  datatype Store = Store(membership: Option<string>, instances: seq<Instance>, audit: Audit)

  /** Where `workflow.start` puts the instance: with the caller's pending rows, or committed before it returns. */
  datatype Placement = SharedSession | OwnSession

  datatype Lookup = Found | Absent | LookupBreaks

  /** `placed`: it raised only after the instance was there. */
  datatype StartAnswer = Started | StartBreaks(placed: bool)

  datatype RollbackAnswer = Discards | RaisesDiscarding | RaisesKeeping

  /**
   The course of one attempt: how every step turns out. `member`: whether the core already counts the initiator as a
   member, so that nothing is granted. A flag is true when its step goes through.
  */
  datatype Course = Course(
    placement: Placement, user: Lookup, model: Lookup, member: Lookup, grant: bool, start: StartAnswer, flush: bool,
    audit: bool, commit: bool, rollback: RollbackAnswer, revert: bool, outerRollback: bool, close: bool)

  datatype Failure = InitiatorNotFound | ModelNotFoundError | OtherError

  /** The instance an attempt makes, and the audit row that goes with it. */
  datatype Making = Making(tenant: string, made: Instance)

  function AuditRow(m: Making, audit: Audit, index: nat): Audit {
    RecordOutcome(audit, VerifiedReport(m.made.ticket, Instantiated), Some(index))
  }

  // ------------------------------------------------------------------ which steps are reached

  predicate Granted(a: Course) { a.member.Absent? && a.grant }

  /** The initiator and the model are there and the membership is settled, so the start is called. */
  predicate StartCalled(a: Course) {
    a.user.Found? && a.model.Found? && (a.member.Found? || Granted(a))
  }

  predicate Placed(a: Course) { StartCalled(a) && (a.start.Started? || a.start.placed) }

  predicate CommitDone(a: Course) { StartCalled(a) && a.start.Started? && a.flush && a.commit }

  /** The inner rollback raised with the rows still pending, and the grant's revert then committed them. */
  predicate KeptAndCommitted(a: Course) {
    StartCalled(a) && !CommitDone(a) && a.rollback.RaisesKeeping? && Granted(a) && a.revert
  }

  predicate InstanceStays(a: Course) {
    Placed(a) && (a.placement.OwnSession? || CommitDone(a) || KeptAndCommitted(a))
  }

  predicate AuditStays(a: Course) {
    StartCalled(a) && a.start.Started? && a.flush && a.audit && (CommitDone(a) || KeptAndCommitted(a))
  }

  /** Only a revert that raises leaves the grant behind. */
  predicate GrantStays(a: Course) { a.user.Found? && a.model.Found? && Granted(a) && !a.revert }

  predicate Returns(a: Course) { CommitDone(a) && (Granted(a) ==> a.revert) && a.close }

  function FailureOf(a: Course): Failure {
    if !a.outerRollback || !a.close then OtherError
    else if a.user.Absent? then InitiatorNotFound
    else if a.user.Found? && a.model.Absent? then ModelNotFoundError
    else OtherError
  }

  /** What the whole call leaves in the database. */
  function Left(a: Course, m: Making, before: Store): Store {
    Store(if GrantStays(a) then Some(m.tenant) else before.membership,
          before.instances + (if InstanceStays(a) then [m.made] else []),
          if AuditStays(a) then AuditRow(m, before.audit, |before.instances|) else before.audit)
  }

  /**
   The whole call, step by step: the start is reached when initiator and model are found and the membership is there
   or granted. The instance stays when the start placed it and it was committed: on its own, by the commit, or by the
   revert of a grant after a rollback that kept it pending. Its audit row needs the flush and the write as well.
   Only a revert that raises leaves the grant.
  */
  lemma AttemptInSteps(a: Course, m: Making, before: Store)
    ensures var found := a.user.Found? && a.model.Found?;
            var reached := found && (a.member.Found? || (a.member.Absent? && a.grant));
            var done := reached && a.start.Started? && a.flush && a.commit;
            var kept := reached && !done && a.rollback.RaisesKeeping? && a.member.Absent? && a.revert;
            var placed := reached && (a.start.Started? || a.start.placed);
            var row := VerifiedReport(m.made.ticket, Instantiated);
            && Left(a, m, before).membership ==
               (if found && a.member.Absent? && a.grant && !a.revert then Some(m.tenant) else before.membership)
            && Left(a, m, before).instances ==
               before.instances + (if placed && (a.placement.OwnSession? || done || kept) then [m.made] else [])
            && Left(a, m, before).audit ==
               (if reached && a.start.Started? && a.flush && a.audit && (done || kept)
                then RecordOutcome(before.audit, row, Some(|before.instances|)) else before.audit)
            && (Returns(a) <==> done && (a.member.Absent? ==> a.revert) && a.close)
            && (FailureOf(a) == InitiatorNotFound <==> a.user.Absent? && a.outerRollback && a.close)
            && (FailureOf(a) == ModelNotFoundError <==>
                a.user.Found? && a.model.Absent? && a.outerRollback && a.close)
  {
    hide RecordOutcome, VerifiedReport;
  }

  // ------------------------------------------------------------------ what an attempt can leave behind

  /**
   If any step up to and including the commit raises, neither the instance nor its audit row is left and the
   grant is gone, exactly when a placed instance was not committed on its own, the revert went through, and it
   did not commit rows that the rollback had failed to discard.
  */
  lemma FailureLeavesNothingExactlyWhen(a: Course, m: Making, before: Store)
    requires !CommitDone(a) && before.membership != Some(m.tenant)
    ensures Left(a, m, before) == before <==>
            && (Placed(a) ==> a.placement.SharedSession?)
            && (a.user.Found? && a.model.Found? && Granted(a) ==> a.revert)
            && (Placed(a) && Granted(a) ==> !a.rollback.RaisesKeeping?)
  {
    var after := Left(a, m, before);
    assert |after.instances| == |before.instances| + if InstanceStays(a) then 1 else 0;
    if !InstanceStays(a) { assert after.instances == before.instances; }
  }

  /** The inner rollback is what does it: with it, a start in the caller's session that fails midway is undone. */
  lemma FailedStartIsUndone(a: Course, m: Making, before: Store)
    requires !CommitDone(a) && a.placement.SharedSession? && !a.rollback.RaisesKeeping? && a.revert
    ensures Left(a, m, before) == before
  {
    assert before.instances + [] == before.instances;
  }

  /** An audit write that fails alone costs the row, not the instance. */
  lemma AuditFailureKeepsTheInstance(a: Course, m: Making, before: Store)
    requires CommitDone(a) && !a.audit
    ensures Left(a, m, before).instances == before.instances + [m.made] && Left(a, m, before).audit == before.audit
  {
  }

  /**
   The call raises although the instance is there exactly when the revert or the close after the commit raised,
   when the start had committed it on its own before a later step raised, or when the revert committed it.
  */
  lemma RaisesWithInstanceExactlyWhen(a: Course)
    ensures !Returns(a) && InstanceStays(a) <==>
            || (CommitDone(a) && ((Granted(a) && !a.revert) || !a.close))
            || (a.placement.OwnSession? && Placed(a) && !(a.start.Started? && a.flush && a.commit))
            || (Placed(a) && Granted(a) && a.revert && a.rollback.RaisesKeeping?
                && !(a.start.Started? && a.flush && a.commit))
  {
  }

  /** A row that records the success is never left without the instance it names. */
  lemma NoAuditWithoutInstance(a: Course)
    ensures AuditStays(a) ==> InstanceStays(a)
  {
  }

  // ------------------------------------------------------------------ the session

  class Session {
    /** What everyone sees, and what this session sees and may still commit. */
    var committed: Store
    var working: Store

    constructor (store: Store)
      ensures committed == store && working == store
    {
      committed, working := store, store;
    }

    /** A commit that raises has written nothing. */
    method Commit(goes: bool) returns (raised: bool)
      modifies this`committed
      ensures raised == !goes && committed == if goes then working else old(committed)
    {
      if goes { committed := working; }
      raised := !goes;
    }

    method Rollback(answer: RollbackAnswer) returns (raised: bool)
      modifies this`working
      ensures raised == !answer.Discards? && working == if answer.RaisesKeeping? then old(working) else committed
    {
      if !answer.RaisesKeeping? { working := committed; }
      raised := !answer.Discards?;
    }

    /** `_write_tenant_field_3`: sets the column and commits, with whatever else is pending. */
    method WriteMembership(value: Option<string>, goes: bool) returns (raised: bool)
      modifies this
      ensures working == old(working).(membership := value)
      ensures raised == !goes && committed == if goes then working else old(committed)
    {
      working := working.(membership := value);
      raised := Commit(goes);
    }

    method Start(placement: Placement, made: Instance, answer: StartAnswer) returns (raised: bool)
      modifies this
      ensures raised == !answer.Started?
      ensures var there := answer.Started? || answer.placed;
              && working == (if there then old(working).(instances := old(working).instances + [made])
                             else old(working))
              && committed == (if there && placement.OwnSession?
                               then old(committed).(instances := old(committed).instances + [made])
                               else old(committed))
    {
      if answer.Started? || answer.placed {
        working := working.(instances := working.instances + [made]);
        if placement.OwnSession? { committed := committed.(instances := committed.instances + [made]); }
      }
      raised := !answer.Started?;
    }

    /** `record_outcome` in a SAVEPOINT: a write that fails, even halfway, is undone alone and raises nothing. */
    method RecordInSavepoint(m: Making, index: nat, goes: bool, halfway: Audit)
      modifies this`working
      ensures working == if goes then old(working).(audit := AuditRow(m, old(working).audit, index)) else old(working)
    {
      var savepoint := working;
      working := working.(audit := halfway);
      if goes {
        working := working.(audit := AuditRow(m, savepoint.audit, index));
      } else {
        working := savepoint;
      }
    }

    /** What is pending when the inner attempt ends. */
    ghost function Pending(a: Course, m: Making, before: Store): Store {
      Store(before.membership,
            before.instances + (if a.start.Started? || a.start.placed then [m.made] else []),
            if a.start.Started? && a.flush && a.audit then AuditRow(m, before.audit, |before.instances|)
            else before.audit)
    }

    /** The inner `try`: start, flush, audit row, commit, and the rollback when one of them raises. */
    method StartAndCommit(a: Course, m: Making, halfway: Audit) returns (raised: bool)
      requires working == committed
      modifies this
      ensures raised <==> !(a.start.Started? && a.flush && a.commit)
      ensures !raised ==> committed == working == Pending(a, m, old(working))
      ensures raised ==> committed == if a.placement.OwnSession? && (a.start.Started? || a.start.placed)
                                      then old(committed).(instances := old(committed).instances + [m.made])
                                      else old(committed)
      ensures raised ==> working == if a.rollback.RaisesKeeping? then Pending(a, m, old(working)) else committed
    {
      ghost var before := working;
      assert before.instances + [] == before.instances;
      raised := Start(a.placement, m.made, a.start);
      if !raised {
        raised := !a.flush;
        if !raised {
          RecordInSavepoint(m, |working.instances| - 1, a.audit, halfway);
          raised := Commit(a.commit);
        }
      }
      assert working == Pending(a, m, before);
      if raised { var lost := Rollback(a.rollback); }
    }

    /** `temporary_tenant_membership` around it: grant, attempt, and the revert whichever way the attempt ended. */
    method UnderGrant(a: Course, m: Making, halfway: Audit) returns (raised: bool)
      requires working == committed && a.user.Found? && a.model.Found?
      modifies this
      ensures committed == Left(a, m, old(committed))
      ensures raised <==> !(CommitDone(a) && (Granted(a) ==> a.revert))
    {
      ghost var before := committed;
      assert before.instances + [] == before.instances;
      if a.member.LookupBreaks? { return true; }
      if a.member.Found? {
        raised := StartAndCommit(a, m, halfway);
        return;
      }
      var previous := working.membership;
      raised := WriteMembership(Some(m.tenant), a.grant);
      if raised { return; }
      raised := StartAndCommit(a, m, halfway);
      var lost := WriteMembership(previous, a.revert);
      raised := raised || lost;
    }

    /** The whole call: None when it returns, else the class of what it raises. */
    method InstantiateProcess(a: Course, m: Making, halfway: Audit) returns (failure: Option<Failure>)
      requires working == committed
      modifies this
      ensures committed == Left(a, m, old(committed))
      ensures failure == if Returns(a) then None else Some(FailureOf(a))
    {
      ghost var before := committed;
      assert before.instances + [] == before.instances;
      failure := None;
      if !a.user.Found? {
        failure := Some(if a.user.Absent? then InitiatorNotFound else OtherError);
      } else if !a.model.Found? {
        failure := Some(if a.model.Absent? then ModelNotFoundError else OtherError);
      } else {
        var raised := UnderGrant(a, m, halfway);
        if raised { failure := Some(OtherError); }
      }
      if failure.Some? {
        var lost := Rollback(if a.outerRollback then Discards else RaisesDiscarding);
        if lost { failure := Some(OtherError); }
      }
      working := committed;
      if !a.close { failure := Some(OtherError); }
    }
  }
}
