/**
 The trigger consumer as a protocol: any number of workers handle deliveries of an
 at-least-once stream, one await at a time, over a shared dedup bucket, database and clock.
 `Step` says what one action does to the shared state, and None when it cannot happen.
*/
module TriggerProtocol {
  import opened Wrappers
  import opened Subject

  /** The parsed payload. "" stands for a string field that is absent or empty. */
  datatype Event = Event(
    id: string, tenantId: string, tenantSlug: string, process: string,
    apiKeyId: string, issuedAt: Option<int>, signature: string)

  /** A stream message; its body is None when it is not a readable JSON object. */
  datatype Message = Message(subject: string, body: Option<Event>)

  /** What a public key id resolves to while the key is active. */
  datatype Key = Key(tenantId: string, owner: string, scope: string)

  /** The services the consumer asks, the issue time signed for each event, and the host's tenant ids. */
  datatype Env = Env(
    verifies: Event -> bool,
    resolve: (string, nat) -> Option<Key>,
    scopeAllows: (string, string) -> bool,
    tenantOfSlug: string -> Option<string>,
    issuedAt: (string, string) -> int,
    tenants: set<string>)

  /**
   `maxAge`: the replay window, either way. `lag`: the longest time between the freshness
   check and the dedup claim. `ttl`: how long the bucket remembers a key. `outages`: the
   bucket may fail to answer. `lateErrors`: something may raise after the commit.
  */
  datatype Setting = Setting(maxAge: nat, lag: nat, ttl: nat, outages: bool, lateErrors: bool)

  datatype Outcome =
    | Queued | Instantiated | Duplicate | InvalidPayload | RejectedAuth | RejectedStale
    | RejectedScope | TenantMismatch | UserNotFound | ModelNotFound | TransientError

  // ------------------------------------------------------------------ audit table

  datatype Row = Row(outcome: Outcome, instance: Option<nat>, duplicates: nat)

  /** Rows of one worker kind: unique by (tenant, event id) when there is an id, else free. */
  datatype Audit = Audit(rows: map<(string, string), Row>, anonymous: seq<(string, Row)>)

  const UNATTRIBUTED := "__unattributed__"

  function Attributed(tenant: Option<string>): string {
    if tenant.Some? && tenant.value != "" then tenant.value else UNATTRIBUTED
  }

  predicate MayOverwrite(current: Outcome, incoming: Outcome) {
    current == incoming || (current != Instantiated && incoming != Queued)
  }

  function RecordOutcome(audit: Audit, report: Report, instance: Option<nat>): Audit {
    var tenant := Attributed(report.tenant);
    var slot := (tenant, report.eventId);
    if report.eventId == "" then
      audit.(anonymous := audit.anonymous + [(tenant, Row(report.outcome, instance, 0))])
    else if slot !in audit.rows then
      audit.(rows := audit.rows[slot := Row(report.outcome, instance, 0)])
    else
      var row := audit.rows[slot];
      if report.insertOnly || !MayOverwrite(row.outcome, report.outcome) then audit
      else
        audit.(rows := audit.rows[slot := Row(report.outcome, if instance.Some? then instance
          else row.instance, row.duplicates)])
  }

  function RecordDuplicate(audit: Audit, tenant: string, eventId: string): Audit {
    var slot := (tenant, eventId);
    if slot in audit.rows then
      var row := audit.rows[slot];
      audit.(rows := audit.rows[slot := row.(duplicates := row.duplicates + 1)])
    else audit.(rows := audit.rows[slot := Row(Duplicate, None, 1)])
  }

  function RecordQueued(audit: Audit, tenant: string, eventId: string): Audit {
    var slot := (tenant, eventId);
    if slot in audit.rows then audit else audit.(rows := audit.rows[slot := Row(Queued, None, 0)])
  }

  /** `prune`: completed rows go once they are old enough; the rows without an id are in the order they were made. */
  function PruneRows(audit: Audit, slots: set<(string, string)>, n: nat): Audit
    requires n <= |audit.anonymous|
  {
    Audit(map slot | slot in audit.rows && (slot !in slots || audit.rows[slot].outcome.Queued?) :: audit.rows[slot],
          audit.anonymous[n..])
  }

  // ------------------------------------------------------------------ gates

  datatype Verdict = Accept | Refuse(outcome: Outcome)

  predicate Fresh(c: Setting, e: Event, now: nat) {
    e.issuedAt.Some? && -(c.maxAge as int) <= now - e.issuedAt.value <= c.maxAge
  }

  /** The gates before the first await, in the source's order. */
  function Screen(env: Env, c: Setting, now: nat, subject: string, e: Event): Verdict {
    var slug := ExtractTenant(subject);
    if slug.None? then Refuse(InvalidPayload)
    else if e.tenantId == "" then Refuse(InvalidPayload)
    else if e.tenantSlug != "" && e.tenantSlug != slug.value then Refuse(TenantMismatch)
    else if e.process == "" then Refuse(InvalidPayload)
    else if e.apiKeyId == "" || !env.verifies(e) then Refuse(RejectedAuth)
    else if !Fresh(c, e, now) then Refuse(RejectedStale)
    else Accept
  }

  function KeyName(tenant: string, eventId: string): string {
    tenant + "-" + eventId
  }

  // ------------------------------------------------------------------ workers

  /** What a verified delivery knows: the message, the key it named, and when both were checked. */
  datatype Ticket = Ticket(seqNo: nat, event: Event, checkedAt: nat, key: Key, resolvedAt: nat)

  /** A dedup key a worker believes it holds. */
  datatype Claim = Claim(tenant: string, eventId: string, at: nat)

  function NameOf(claim: Claim): string { KeyName(claim.tenant, claim.eventId) }

  datatype Report = Report(outcome: Outcome, tenant: Option<string>, eventId: string, insertOnly: bool)

  /** Where a worker waits between two awaits of `process_message`; an idle worker has no entry. */
  datatype Pc =
    | Unreadable(seqNo: nat, subject: string)
    | Screened(seqNo: nat, subject: string, event: Event, checkedAt: nat)
    | Verified(ticket: Ticket)
    | Scoped(ticket: Ticket)
    | Claimed(ticket: Ticket, claim: Option<Claim>)
    | Repeated(ticket: Ticket)
    | Failed(seqNo: nat, report: Report, claim: Option<Claim>)
    | Releasing(seqNo: nat, held: Claim)
    | Acking(seqNo: nat)

  datatype Instance = Instance(
    tenant: string, process: string, initiator: string, ticket: Ticket, claim: Option<Claim>)

  datatype Tally = Tally(delivered: nat, acked: nat, instantiated: nat, duplicates: nat, failures: nat)

  datatype State = State(
    now: nat, stream: seq<Message>, acked: set<nat>, kv: map<string, nat>,
    instances: seq<Instance>, audit: Audit, workers: map<nat, Pc>, tally: Tally)

  const INITIAL := State(0, [], {}, map[], [], Audit(map[], []), map[], Tally(0, 0, 0, 0, 0))

  datatype StartResult = Committed | NoInitiator | NoModel | Broken | CommittedThenRaised

  datatype Action =
    | Tick(d: nat)
    | Publish(message: Message)
    | Enqueue(tenant: string, eventId: string)
    | Deliver(w: nat, seqNo: nat)
    | Lookup(w: nat, broken: bool)
    | CheckScope(w: nat)
    | Acquire(w: nat, outage: bool)
    | Start(w: nat, result: StartResult, written: bool)
    | CountDuplicate(w: nat, written: bool, breaks: bool)
    | FileUnreadable(w: nat, written: bool, breaks: bool)
    | File(w: nat, written: bool)
    | Release(w: nat, outage: bool)
    | Ack(w: nat)
    | Crash(w: nat)
    | Expire(name: string)
    | Prune(slots: set<(string, string)>, n: nat)

  // ------------------------------------------------------------------ steps

  function Move(s: State, w: nat, pc: Pc): State { s.(workers := s.workers[w := pc]) }

  /** An unverified sender's report goes under the subject's tenant and may only add a row. */
  function Unverified(env: Env, subject: string, eventId: string, outcome: Outcome): Report {
    var slug := ExtractTenant(subject);
    Report(outcome, if slug.Some? then env.tenantOfSlug(slug.value) else None, eventId, eventId != "")
  }

  /** Where a delivery stands at its first await: past the gates, or about to be reported. */
  function FirstPc(env: Env, c: Setting, now: nat, m: Message, seqNo: nat): Pc {
    match m.body
    case None => Unreadable(seqNo, m.subject)
    case Some(e) =>
      match Screen(env, c, now, m.subject, e)
      case Refuse(outcome) => Failed(seqNo, Unverified(env, m.subject, e.id, outcome), None)
      case Accept => Screened(seqNo, m.subject, e, now)
  }

  function Receive(env: Env, c: Setting, s: State, w: nat, seqNo: nat): State
    requires seqNo < |s.stream|
  {
    Move(s, w, FirstPc(env, c, s.now, s.stream[seqNo], seqNo)).(
      tally := s.tally.(delivered := s.tally.delivered + 1))
  }

  function ResolveKey(env: Env, s: State, w: nat, pc: Pc, broken: bool): State
    requires pc.Screened?
  {
    var key := env.resolve(pc.event.apiKeyId, s.now);
    var refuse :=
      (outcome: Outcome) => Move(s, w, Failed(pc.seqNo, Unverified(env, pc.subject, pc.event.id, outcome), None));
    if broken then refuse(TransientError)
    else if key.None? then refuse(RejectedAuth)
    else if key.value.tenantId != pc.event.tenantId then refuse(TenantMismatch)
    else Move(s, w, Verified(Ticket(pc.seqNo, pc.event, pc.checkedAt, key.value, s.now)))
  }

  function VerifiedReport(t: Ticket, outcome: Outcome): Report {
    Report(outcome, Some(t.event.tenantId), t.event.id, false)
  }

  function ReviewScope(env: Env, s: State, w: nat, t: Ticket): State {
    if env.scopeAllows(t.key.scope, t.event.process) then Move(s, w, Scoped(t))
    else Move(s, w, Failed(t.seqNo, VerifiedReport(t, RejectedScope), None))
  }

  /** `check_idempotency`: create the key, or find it taken; an unanswered create goes ahead unguarded. */
  function ClaimKey(s: State, w: nat, t: Ticket, outage: bool): State {
    var claim := Claim(t.event.tenantId, t.event.id, s.now);
    if t.event.id == "" then Move(s, w, Claimed(t, None))
    else if outage then Move(s, w, Claimed(t, Some(claim)))
    else if NameOf(claim) in s.kv then Move(s, w, Repeated(t))
    else Move(s, w, Claimed(t, Some(claim))).(kv := s.kv[NameOf(claim) := s.now])
  }

  /** The transaction of `instantiate_process`: the instance and, if writable, its audit row. */
  function Commit(s: State, t: Ticket, claim: Option<Claim>, written: bool): State {
    var made := Instance(t.event.tenantId, t.event.process, t.key.owner, t, claim);
    s.(instances := s.instances + [made],
       audit := if written then RecordOutcome(s.audit, VerifiedReport(t, Instantiated), Some(|s.instances|))
         else s.audit,
       tally := s.tally.(instantiated := s.tally.instantiated + 1))
  }

  function StartProcess(s: State, w: nat, pc: Pc, result: StartResult, written: bool): State
    requires pc.Claimed?
  {
    var t := pc.ticket;
    match result
    case Committed => Move(Commit(s, t, pc.claim, written), w, Acking(t.seqNo))
    case CommittedThenRaised =>
      Move(Commit(s, t, pc.claim, written), w, Failed(t.seqNo, VerifiedReport(t, TransientError), pc.claim))
    case NoInitiator => Move(s, w, Failed(t.seqNo, VerifiedReport(t, UserNotFound), pc.claim))
    case NoModel => Move(s, w, Failed(t.seqNo, VerifiedReport(t, ModelNotFound), pc.claim))
    case Broken => Move(s, w, Failed(t.seqNo, VerifiedReport(t, TransientError), pc.claim))
  }

  /** If its own ack raises, a duplicate goes on to the failure handler, holding no key. */
  function NoteDuplicate(s: State, w: nat, t: Ticket, written: bool, breaks: bool): State {
    Move(s, w, if breaks then Failed(t.seqNo, VerifiedReport(t, TransientError), None) else Acking(t.seqNo)).(
      audit := if written then RecordDuplicate(s.audit, t.event.tenantId, t.event.id) else s.audit,
      tally := s.tally.(duplicates := s.tally.duplicates + 1))
  }

  /** So does a message that cannot be parsed. */
  function NoteUnreadable(env: Env, s: State, w: nat, pc: Pc, written: bool, breaks: bool): State
    requires pc.Unreadable?
  {
    var refused := (outcome: Outcome) => Unverified(env, pc.subject, "", outcome);
    Move(s, w, if breaks then Failed(pc.seqNo, refused(TransientError), None) else Acking(pc.seqNo)).(
      audit := if written then RecordOutcome(s.audit, refused(InvalidPayload), None) else s.audit,
      tally := s.tally.(failures := s.tally.failures + 1))
  }

  function FileReport(s: State, w: nat, pc: Pc, written: bool): State
    requires pc.Failed?
  {
    Move(s, w, if pc.claim.Some? then Releasing(pc.seqNo, pc.claim.value) else Acking(pc.seqNo)).(
      audit := if written then RecordOutcome(s.audit, pc.report, None) else s.audit,
      tally := s.tally.(failures := s.tally.failures + 1))
  }

  function ReleaseKey(s: State, w: nat, pc: Pc, outage: bool): State
    requires pc.Releasing?
  {
    Move(s, w, Acking(pc.seqNo)).(kv := if outage then s.kv else s.kv - {NameOf(pc.held)})
  }

  function AckMessage(s: State, w: nat, seqNo: nat): State {
    s.(workers := s.workers - {w}, acked := s.acked + {seqNo},
       tally := s.tally.(acked := s.tally.acked + 1))
  }

  function WorkerStep(env: Env, c: Setting, s: State, a: Action): Option<State>
    requires !a.Tick? && !a.Publish? && !a.Enqueue? && !a.Deliver? && !a.Expire? && !a.Prune?
  {
    if a.w !in s.workers then None
    else
      var pc := s.workers[a.w];
      match a
      case Crash(w) => Some(s.(workers := s.workers - {w}))
      case Lookup(w, broken) => if pc.Screened? then Some(ResolveKey(env, s, w, pc, broken)) else None
      case CheckScope(w) => if pc.Verified? then Some(ReviewScope(env, s, w, pc.ticket)) else None
      case Acquire(w, outage) =>
        if pc.Scoped? && s.now <= pc.ticket.checkedAt + c.lag && (outage ==> c.outages)
        then Some(ClaimKey(s, w, pc.ticket, outage)) else None
      case Start(w, result, written) =>
        if pc.Claimed? && (result.CommittedThenRaised? ==> c.lateErrors)
        then Some(StartProcess(s, w, pc, result, written)) else None
      case CountDuplicate(w, written, breaks) =>
        if pc.Repeated? then Some(NoteDuplicate(s, w, pc.ticket, written, breaks)) else None
      case FileUnreadable(w, written, breaks) =>
        if pc.Unreadable? then Some(NoteUnreadable(env, s, w, pc, written, breaks)) else None
      case File(w, written) => if pc.Failed? then Some(FileReport(s, w, pc, written)) else None
      case Release(w, outage) =>
        if pc.Releasing? && (outage ==> c.outages) then Some(ReleaseKey(s, w, pc, outage)) else None
      case Ack(w) => if pc.Acking? then Some(AckMessage(s, w, pc.seqNo)) else None
  }

  function Step(env: Env, c: Setting, s: State, a: Action): Option<State> {
    match a
    case Tick(d) => Some(s.(now := s.now + d))
    case Publish(m) => Some(s.(stream := s.stream + [m]))
    case Enqueue(tenant, eventId) =>
      if eventId == "" then None else Some(s.(audit := RecordQueued(s.audit, Attributed(Some(tenant)), eventId)))
    case Expire(name) =>
      if name in s.kv && s.now >= s.kv[name] + c.ttl then Some(s.(kv := s.kv - {name})) else None
    case Prune(slots, n) =>
      if n <= |s.audit.anonymous| then Some(s.(audit := PruneRows(s.audit, slots, n))) else None
    case Deliver(w, n) =>
      if w !in s.workers && n < |s.stream| && n !in s.acked then Some(Receive(env, c, s, w, n)) else None
    case _ => WorkerStep(env, c, s, a)
  }

  /** The state a list of actions leads to, if each of them can happen in turn. */
  function Run(env: Env, c: Setting, s: State, actions: seq<Action>): Option<State>
    decreases |actions|
  {
    if actions == [] then Some(s)
    else
      var next := Step(env, c, s, actions[0]);
      if next.None? then None else Run(env, c, next.value, actions[1..])
  }

  lemma {:induction false} RunConcat(env: Env, c: Setting, s: State, first: seq<Action>, rest: seq<Action>)
    requires Run(env, c, s, first).Some?
    ensures Run(env, c, s, first + rest) == Run(env, c, Run(env, c, s, first).value, rest)
    decreases |first|
  {
    if first == [] {
      assert first + rest == rest;
    } else {
      assert (first + rest)[0] == first[0] && (first + rest)[1..] == first[1..] + rest;
      RunConcat(env, c, Step(env, c, s, first[0]).value, first[1..], rest);
    }
  }
}
