# M8Flow: verified models of its protocol, migrations and editors

Dafny models of the parts of M8Flow whose correctness spans many steps, and proofs about them. Each module
follows one component; `dafny verify dfyconfig.toml` checks all of them.

| component | modules |
|---|---|
| The NATS trigger consumer, as small steps of any number of workers over a stream, a dedup bucket with expiry, a database, an audit table and a clock; the session inside one start, with its savepoint, rollback and committing grant; and the imperative worker that is a run of it | `Subject`, `TriggerProtocol`, `DedupSafety`, `ReplayWindow`, `DedupAgreement`, `TriggerTransaction`, `TriggerConsumer`, `HandledMessages` |
| The schema and data migrations, statement by statement on tables of nullable cells, with SQL's three-valued conditions | `Relational`, `TimestampRevisions`, `TimestampChain`, `TimestampCells`, `TimestampMigration`, `JsonRekey`, `WorkItems`, `PermissionTargets`, `CoreHandoff`, `UpgradePath`, `PermissionRevisions`, `PermissionMigration`, `PermissionRows` |
| The ZIP writer with its CRC-32, an independent reader, and the BPMN builder | `Crc32`, `ZipArchive`, `ZipReader`, `ZipBytes`, `FlowGraph`, `FlowPlan` |
| The designer's authenticated fetch, as interleaved requests over three module variables | `AuthFetch`, `AuthHistory` |
| The service-task panel: shared parameter lists, profile restoring over the same lists, JSON quoting, and task auto-sizing | `OperatorMemory`, `JsonString`, `JsonGrammar`, `ProfileBinding`, `ServiceTaskPanel`, `PanelCells`, `TaskSizing` |

`HandledMessages`, `TimestampCells`, `PermissionRows`, `ZipBytes`, `FlowPlan`, `AuthHistory`, `JsonGrammar` and `PanelCells`
say what their components leave cell by cell, in literal names and values and without the functions that the other
modules share with the code they specify.

Standards: PKWARE APPNOTE.TXT sections 4.3.7, 4.3.12 and 4.3.16 for the archive, section 8 of RFC 1952 for the
CRC, section 7 of RFC 8259 for JSON strings.

## What the proofs found

- The consumer is at-most-once exactly when the dedup TTL exceeds twice the replay window plus the time between
  the freshness check and the claim, the bucket always answers, nothing raises after the commit, and no tenant id
  followed by a hyphen begins another tenant's id. For each condition there is a run that duplicates an event
  without it. The seeded tenant `m8flow` beside organizations with UUIDs meets the last one; tenants `a` and `a-b`
  do not, since event `b-c` of the first and event `c` of the second have one key.
- A worker that crashes while it holds a key can lose its event. At rest, with nothing expired, the live keys are
  those of committed instances and those that crashed workers held, so an event without an instance can be claimed
  again exactly when no worker crashed holding its key.
- A message can be counted twice: when the ack of a duplicate or of an unreadable message raises, or anything after
  a commit does, the failure handler files a transient failure on top.
- The docstring of `instantiate_process` (`trigger_event_consumer.py:204-207`) has the instance and its audit row
  commit together. `workflow.start` documents otherwise (`workflow/__init__.py:620-627`): the core commits the
  instance in its own session. Both placements are modelled. In the shared one the inner rollback is what keeps the
  grant's committing revert from committing a failed start. With a session of its own, a step that raises before the
  outer commit leaves the instance without its audit row, and the handler then releases the key of a committed
  event: one of the errors after the commit that break at-most-once.
- Over b2c3, c3d4 and d4e5 no timestamp is lost, except from a `work_item` table that already existed: d4e5 drops
  its epoch columns but no revision backfills them. `upgrade` of c4d5 then refuses wherever the human task still
  has the value. c3d4 and d4e5 on their own also lose what was written between the revisions with an epoch value
  only; c3d4 repairs a table only when one of its native columns is missing.
- `upgrade` of c4d5 calls `_validate_process_digests` but never `_migrate_process_digests`; the latter is modelled,
  and proved, as what would have to follow the check.
- After b2c3's re-keying a reference resolves under its stripped cells; looked up as stored it resolves exactly
  when neither cell is padded.
- Reselecting the operator a freshly imported task shows replaces its list by a blank one; in the first diagram of a
  page every other switch keeps the list it leaves. The memory of lists outlives the diagram, though: under a later
  one, leaving an imported list for an operator that the memory knows brings up the older diagram's values and drops
  the imported ones. But each rendering of the panel reconciles the shown list with the profile remembered for the
  element: a name typed for one HTTP action is gone after choosing a profile under another and coming back. A list
  is as it was left exactly when no profile was restored into it meanwhile.
- Recentring rounds half pixels to the right: a label that grows by one step and shrinks back leaves its task one
  pixel to the right, and n edits move the centre by one half pixel per change of the width's parity.
- A profile restored from memory is blanked at once if the supplied fields include the profile parameter itself.

## Assumptions

Each is a hypothesis of the lemmas that need it, or a choice of the model:

- Trigger consumer: an event id is signed with one `issued_at`, and every active key belongs to a tenant. The
  consumers share one clock in whole seconds; a publisher's may be off by as much as the replay window. Bucket outages
  and exceptions after the commit are switches of the setting, on in the lemmas that show what they break. The bucket
  exists; `kv` being None is the outage of every call. An ack that raises in the failure handler itself leaves the
  message unacked, as a crash there does.
- Signature checks, key lookup, scope checks and slug lookup are uninterpreted functions of the environment.
- Each step of a start may raise; `workflow.start` may have placed the instance by then, among the caller's pending
  rows or committed (in a session of its own, or by a commit of the caller's). A commit that raises has written
  nothing, the user's row is still there when the grant is reverted, and no other worker writes between the grant
  and its revert.
- A payload's string fields are strings: absent and empty are one case, as the source's truth tests make them.
- Migrations: one connection runs them, on PostgreSQL; table and column sets outside those listed are untouched.
- Unique and primary keys that the schema declares hold before a revision runs.

## Model

| member | source | states |
|---|---|---|
| Subject.ExtractTenantExactly | m8flow-nats-consumer/trigger_event_consumer.py:307-317 | a subject yields a slug exactly when it is `m8flow.events.<slug>.trigger` with a non-empty dot-free slug, and it yields that slug |
| DedupSafety.KeyNameInjective | m8flow-nats-consumer/trigger_event_consumer.py:292-292 | unless one tenant's id and a hyphen begin the other's id, a dedup key names one tenant and one event |
| DedupSafety.KeysMeetExactlyWhen | m8flow-nats-consumer/trigger_event_consumer.py:292-292 | two tenants can have events with one key exactly when one's id and a hyphen begin the other's |
| DedupSafety.UuidsAndTheBaseTenantArePrefixFree | m8flow-backend/migrations/versions/1518b05122bc_create_m8flow_tables.py:63-66 | the seeded base tenant and organizations whose ids are UUIDs never share a key |
| DedupSafety.ExclusiveStep | m8flow-nats-consumer/trigger_event_consumer.py:468-508 | no dedup key is answered for twice, by workers or committed instances, as long as claims are made on unused keys |
| DedupSafety.CreatedKeyWasUnused | m8flow-nats-consumer/trigger_event_consumer.py:424-469 | when the bucket outlives two replay windows and the lag and no tenant shadows another, a key that can be created was never claimed before by anyone |
| DedupSafety.GuardedStep | m8flow-nats-consumer/trigger_event_consumer.py:334-568 | every step of every worker, crash, redelivery or expiry keeps exclusive keys and the timing bounds |
| DedupSafety.EveryRunIsAtMostOnce | m8flow-nats-consumer/trigger_event_consumer.py:290-305 | then in every run, with any number of workers, redeliveries, crashes and expiries, an event commits at most one instance |
| ReplayWindow.SafeExactlyWhen | m8flow-nats-consumer/trigger_event_consumer.py:290-305 | for any set of tenants: at-most-once over all environments and runs, if and only if TTL > 2·window + lag, the bucket answers, nothing raises after the commit, and no tenant's id and a hyphen begin another's |
| ReplayWindow.ShortMemoryDuplicates | m8flow-backend/src/m8flow_backend/services/nats_token_service.py:290-302 | with a shorter TTL some run commits a fresh event twice |
| ReplayWindow.OutagesDuplicate | m8flow-nats-consumer/trigger_event_consumer.py:302-305 | failing open on a bucket error lets a redelivery commit again |
| ReplayWindow.LateErrorsDuplicate | m8flow-nats-consumer/trigger_event_consumer.py:554-558 | an exception after the commit releases the key of a committed event, which then commits again |
| ReplayWindow.MeetingKeysDuplicate | m8flow-nats-consumer/trigger_event_consumer.py:292-300 | of two tenants whose keys meet, one's failed worker releases the key under which the other's event was committed, which then commits again |
| ReplayWindow.CrashCanLoseAnEvent | m8flow-nats-consumer/trigger_event_consumer.py:468-483 | in every setting there is a run in which a worker that died holding the key makes its redelivery an acked duplicate of nothing |
| ReplayWindow.DocumentedDefaults | m8flow-backend/src/m8flow_backend/config.py:138-148 | with 300 seconds and a day of memory the consumer is safe exactly for lags under 85800 seconds, for the base tenant and UUIDs |
| DedupAgreement.BucketMatchesDatabase | m8flow-nats-consumer/trigger_event_consumer.py:554-558 | at rest, with nothing expired, the live keys are those of committed instances and those held by workers that crashed, and none is both |
| DedupAgreement.FailedAttemptFreesItsKey | m8flow-nats-consumer/trigger_event_consumer.py:525-568 | then an event without an instance can be claimed again exactly when no worker crashed holding its key |
| DedupAgreement.EveryInstanceIsEarned | m8flow-nats-consumer/trigger_event_consumer.py:377-466 | in every reachable state each instance comes from a message of the stream that passed every gate, in its key's tenant, with the key's owner as initiator |
| DedupAgreement.UnverifiedRunsChangeNothing | m8flow-nats-consumer/trigger_event_consumer.py:538-552 | messages whose sender is never verified start no instance, claim no key and change no audit row; rows only go by being pruned |
| DedupAgreement.RecordKeepsSuccess | m8flow-backend/src/m8flow_backend/services/nats_event_audit_service.py:62-69 | filing an outcome never replaces a recorded success and touches its own row at most |
| DedupAgreement.AuditTrail | m8flow-backend/src/m8flow_backend/services/nats_event_audit_service.py:134-321 | over any run successes stay recorded until their row is pruned, and a row that names an instance names one of that tenant and event |
| DedupAgreement.NothingIsLostCountOf | m8flow-nats-consumer/trigger_event_consumer.py:689-693 | in a crash-free run at rest, delivered = acked, and instances + duplicates + failures = acked + the messages that went to the failure handler after being counted |
| TriggerTransaction.FailureLeavesNothingExactlyWhen | m8flow-nats-consumer/trigger_event_consumer.py:242-288 | an attempt that raises up to its commit leaves neither instance, audit row nor grant, exactly when no placed instance was committed on its own, the revert went through, and it committed no rows that the rollback had failed to discard |
| TriggerTransaction.FailedStartIsUndone | m8flow-nats-consumer/trigger_event_consumer.py:272-274 | in the caller's session the inner rollback keeps a start that failed at any step from being committed by the revert |
| TriggerTransaction.AttemptInSteps | m8flow-nats-consumer/trigger_event_consumer.py:222-288 | which rows, membership and exception the whole call leaves, from the answer of each of its steps |
| TriggerTransaction.AuditFailureKeepsTheInstance | m8flow-nats-consumer/trigger_event_consumer.py:253-271 | an audit row that cannot be written costs the row and not the instance |
| TriggerTransaction.RaisesWithInstanceExactlyWhen | m8flow-backend/src/m8flow_backend/identity/__init__.py:256-287 | the call raises with the instance committed exactly when the revert or the close raises after the commit, when the start had committed it on its own, or when the revert committed rows a rollback had kept |
| TriggerTransaction.NoAuditWithoutInstance | m8flow-nats-consumer/trigger_event_consumer.py:253-271 | a recorded success always has its instance |
| TriggerTransaction.Session.RecordInSavepoint | m8flow-nats-consumer/trigger_event_consumer.py:253-269 | a write that fails halfway is undone alone |
| TriggerTransaction.Session.StartAndCommit | m8flow-nats-consumer/trigger_event_consumer.py:243-274 | what the inner attempt leaves committed and pending, step by step |
| TriggerTransaction.Session.UnderGrant | m8flow-backend/src/m8flow_backend/identity/__init__.py:225-287 | grant, attempt and revert, each committing the one session, leave what the closed form says |
| TriggerTransaction.Session.InstantiateProcess | m8flow-nats-consumer/trigger_event_consumer.py:222-288 | the whole call leaves what the closed form says, and raises the class of its first or last failure |
| TriggerConsumer.HandleIsARun | m8flow-nats-consumer/trigger_event_consumer.py:334-568 | handling one message undisturbed is a run of the protocol without crash or expiry |
| TriggerConsumer.HandleAcksOnce | m8flow-nats-consumer/trigger_event_consumer.py:334-568 | whatever happens to a message it is acked once, and no worker is left behind |
| TriggerConsumer.HandleHasOneEffectExactlyWhen | m8flow-nats-consumer/trigger_event_consumer.py:334-568 | each handled message has one effect, its own: the failure of the first gate that refuses, under its subject's tenant or once the sender is verified under its payload's; a repetition exactly when its key is there; else its instance or its start's failure; exactly when no ack or later step raises after it was counted |
| TriggerConsumer.HandleHasItsEffect | m8flow-nats-consumer/trigger_event_consumer.py:334-568 | and otherwise that effect and then a transient failure of the same message |
| TriggerConsumer.LateExactlyWhen | m8flow-nats-consumer/trigger_event_consumer.py:242-288 | the errors after the commit are exactly those of the ack, the revert, the close, a start that committed on its own, and a revert that committed kept rows |
| TriggerConsumer.OwnSessionOutlivesTheRollback | m8flow-backend/src/m8flow_backend/workflow/__init__.py:620-627 | with the core's own session a step that raises before the outer commit leaves the instance without audit row and is such a late error |
| TriggerConsumer.LeftIsAfterStart | m8flow-nats-consumer/trigger_event_consumer.py:242-288 | what the transaction leaves in instances and audit is what the protocol's start step does |
| TriggerConsumer.Consumer.CheckIdempotency | m8flow-nats-consumer/trigger_event_consumer.py:290-305 | a claim is refused exactly when the bucket answers and has the key; otherwise the key is written unless there was an outage |
| TriggerConsumer.Consumer.PassGates | m8flow-nats-consumer/trigger_event_consumer.py:377-466 | the gates in order, with the outcome of the first that refuses and whether the sender was verified by then |
| TriggerConsumer.Consumer.InstantiateProcess | m8flow-nats-consumer/trigger_event_consumer.py:191-288 | the session above leaves the instances and audit rows of the protocol's start, and the grant only if its revert raised |
| TriggerConsumer.Consumer.Attempt | m8flow-nats-consumer/trigger_event_consumer.py:468-508 | claim, start and ack end where the protocol's worker ends, and a failure hands on the claim it holds |
| TriggerConsumer.Consumer.CountDuplicateAndAck | m8flow-nats-consumer/trigger_event_consumer.py:470-483 | a duplicate is noted and acked, and left to the failure handler if its ack raises |
| TriggerConsumer.Consumer.NoteUnreadableAndAck | m8flow-nats-consumer/trigger_event_consumer.py:359-373 | so is a message that cannot be parsed |
| TriggerConsumer.Consumer.ReportReleaseAndAck | m8flow-nats-consumer/trigger_event_consumer.py:525-568 | the failure path files the report, releases the key and acks |
| TriggerConsumer.Consumer.ProcessMessage | m8flow-nats-consumer/trigger_event_consumer.py:334-568 | the imperative handler refines the protocol's undisturbed worker |
| TriggerConsumer.Consumer.HandleOne | m8flow-nats-consumer/trigger_event_consumer.py:334-568 | one turn of the loop: the ack, the message's own effect, the balance with the messages counted twice, and the two invariants |
| TriggerConsumer.Consumer.HandleBatch | m8flow-nats-consumer/trigger_event_consumer.py:689-693 | a fetched batch is acked message by message, each with its own effect in turn; the balance is off by exactly the messages counted twice, and the bucket's agreement with the database and provenance are kept |
| HandledMessages.GatesInOrder | m8flow-nats-consumer/trigger_event_consumer.py:377-466 | which gate refuses a readable message, each outcome in terms of the subject, the payload fields, the clock and the services, and when its sender is verified |
| HandledMessages.RecordFiles | m8flow-backend/src/m8flow_backend/services/nats_event_audit_service.py:200-241 | filing an outcome adds a row when there is no id or no row; otherwise it updates the row exactly if the sender is verified and the row has that outcome, or no final one |
| HandledMessages.UnreadableMessage | m8flow-nats-consumer/trigger_event_consumer.py:355-373 | the whole state after a message that cannot be parsed: one anonymous row under its subject's tenant, and a second if its ack raises |
| HandledMessages.RefusedMessage | m8flow-nats-consumer/trigger_event_consumer.py:525-568 | the whole state after a refused message: a written failure is on record afterwards exactly when its slot was free, held that outcome, or the sender was verified and the row was no success; nothing else changes |
| HandledMessages.RepeatedMessage | m8flow-nats-consumer/trigger_event_consumer.py:468-483 | the whole state after a message whose key is in the bucket: it is counted on its event's row, which keeps its outcome, and starts nothing |
| HandledMessages.StartedMessage | m8flow-nats-consumer/trigger_event_consumer.py:485-508 | the whole state after a start that commits: one instance of the event's tenant and process with the key's owner, its success filed under its index for good, and its key held, or released if something raises later |
| HandledMessages.FailedMessage | m8flow-nats-consumer/trigger_event_consumer.py:497-568 | the whole state after a start that fails: no instance, the failure's own outcome on record unless a success is, and the key released |
| HandledMessages.StartInSteps | m8flow-nats-consumer/trigger_event_consumer.py:191-288 | how an attempt ends, from the answer of each of its steps |
| HandledMessages.PublishedRow | m8flow-backend/src/m8flow_backend/services/nats_event_audit_service.py:102-132 | publishing adds a queued row where the event has none |
| HandledMessages.PrunedRows | m8flow-backend/src/m8flow_backend/services/nats_event_audit_service.py:283-321 | pruning never takes a queued row, and changes no row that it leaves |
| Crc32.MakeTable | m8flow-designer/e2e/helpers/processFlow.ts:220-228 | entry n of the table is eight reflected polynomial steps of n |
| Crc32.ComputeCrc | m8flow-designer/e2e/helpers/processFlow.ts:230-234 | the table-driven loop computes the bit-serial CRC-32 of every byte string |
| Crc32.CheckValue | m8flow-designer/e2e/helpers/processFlow.ts:220-234 | the CRC-32 of a known text is the published one |
| Crc32.TableStep | m8flow-designer/e2e/helpers/processFlow.ts:232-232 | one table lookup does what eight serial bit steps do |
| Crc32.FeedIsInjective | m8flow-designer/e2e/helpers/processFlow.ts:230-234 | over the same bytes different registers never meet |
| Crc32.BurstsAreDetected | m8flow-designer/e2e/helpers/processFlow.ts:230-234 | two inputs that differ only within four consecutive bytes never share a CRC, so no single damaged byte goes unseen |
| ZipArchive.WriteUInt32LE | m8flow-designer/e2e/helpers/processFlow.ts:245-252 | four little-endian bytes, nothing else touched, refused exactly when the number does not fit |
| ZipArchive.MakeLocal | m8flow-designer/e2e/helpers/processFlow.ts:244-254 | the filled buffer is the local header of APPNOTE section 4.3.7 |
| ZipArchive.MakeCentral | m8flow-designer/e2e/helpers/processFlow.ts:256-267 | the filled buffer is the central header of section 4.3.12 |
| ZipArchive.MakeEnd | m8flow-designer/e2e/helpers/processFlow.ts:272-278 | the filled buffer is the end record of section 4.3.16 |
| ZipArchive.AppendFile | m8flow-designer/e2e/helpers/processFlow.ts:240-270 | one turn of the loop extends both parts and the offset, and refuses only archives that do not fit |
| ZipArchive.ZipFiles | m8flow-designer/e2e/helpers/processFlow.ts:236-280 | succeeds exactly on the lists whose every recorded number fits its field |
| ZipBytes.ArchiveInBytes | m8flow-designer/e2e/helpers/processFlow.ts:240-270 | byte by byte, where each file's two records stand in the archive and what is in them: signature, version, flags, method, times, checksum, sizes, lengths, offset, name and data |
| ZipBytes.ArchiveEnds | m8flow-designer/e2e/helpers/processFlow.ts:271-280 | the archive's length, and the bytes of its end record |
| ZipReader.UnzipOfArchive | m8flow-designer/e2e/helpers/processFlow.ts:236-280 | a reader that finds the end record, walks the central directory and follows each offset gets back the same names and bytes in order, with matching sizes and CRCs |
| ZipReader.ArchivesAreDistinct | m8flow-designer/e2e/helpers/processFlow.ts:236-280 | different file lists never give the same bytes |
| FlowGraph.Builder.Connect | m8flow-designer/e2e/helpers/processFlow.ts:91-102 | a flow takes the pending condition, and the incoming and outgoing lists stay exactly those of the flows |
| FlowGraph.Builder.AppendGateway | m8flow-designer/e2e/helpers/processFlow.ts:123-138 | the first branch is connected and the condition of the second waits |
| FlowGraph.Builder.Build | m8flow-designer/e2e/helpers/processFlow.ts:104-155 | the nodes and flows are those of the chain start, steps, gateway, script, end, and no condition is left pending |
| FlowPlan.NodesInOrder | m8flow-designer/e2e/helpers/processFlow.ts:104-155 | every node by position, with its id, tag and lane, and how many there are |
| FlowPlan.FlowsInOrder | m8flow-designer/e2e/helpers/processFlow.ts:91-152 | every flow by position, with its ends and condition, and how many there are |
| FlowGraph.Builder.Lanes | m8flow-designer/e2e/helpers/processFlow.ts:157-159 | each lane lists its own nodes in order, and no lane is empty |
| FlowGraph.ListedExactlyAtItsEnds | m8flow-designer/e2e/helpers/processFlow.ts:100-101 | a flow is listed as incoming and outgoing at exactly its two ends |
| FlowPlan.ListsAscend | m8flow-designer/e2e/helpers/processFlow.ts:100-101 | a node's incoming and outgoing lists are in the order of the flows |
| FlowPlan.LaneGrows | m8flow-designer/e2e/helpers/processFlow.ts:157-158 | a lane's list grows at the end, by its own nodes only |
| FlowGraph.InItsLaneOnly | m8flow-designer/e2e/helpers/processFlow.ts:157-158 | every node is in its own lane and in no other |
| FlowGraph.NodesAreDistinct | m8flow-designer/e2e/helpers/processFlow.ts:104-155 | for distinct, non-reserved step ids no two nodes share an id |
| FlowGraph.FlowsAreBetweenNodes | m8flow-designer/e2e/helpers/processFlow.ts:91-99 | both ends of every flow are nodes, and a flow has a condition exactly when it leaves the gateway |
| FlowGraph.EveryNodeIsReachable | m8flow-designer/e2e/helpers/processFlow.ts:104-155 | every node can be reached from the start |
| FlowGraph.GatewayHasTwoFlows | m8flow-designer/e2e/helpers/processFlow.ts:128-136 | the gateway's flows are the rejecting one to the other end and the accepting one along the chain |
| FlowGraph.OnlyTheGatewayBranches | m8flow-designer/e2e/helpers/processFlow.ts:91-154 | counted in the outgoing lists, the gateway has two flows, the end none, every other node one |
| FlowGraph.BranchesExclude | m8flow-designer/e2e/helpers/processFlow.ts:129-135 | the two conditions never both hold, and over an amount one always does |
| Relational.BackfillFills | m8flow-backend/migrations/versions/b2c3d4e5f6a7_upgrade_core_0_2_0_compatibility.py:178-182 | the update fills exactly the null native cells, from the converted legacy cell |
| TimestampRevisions.PairsAreApart | m8flow-backend/migrations/versions/b2c3d4e5f6a7_upgrade_core_0_2_0_compatibility.py:39-100 | in no table does a column serve two pairs or both roles |
| TimestampRevisions.StampKeeps | m8flow-backend/migrations/versions/b2c3d4e5f6a7_upgrade_core_0_2_0_compatibility.py:132-182 | after b2c3 each native cell is its old value, else the converted legacy value, else null |
| TimestampRevisions.RetireReads | m8flow-backend/migrations/versions/c3d4e5f6a7b8_remove_host_epoch_timestamp_columns.py:87-111 | c3d4 backfills all of a table's pairs if one native column was missing, and otherwise none |
| TimestampChain.EveryDroppedColumnIsPaired | m8flow-backend/migrations/versions/d4e5f6a7b8c9_remove_core_epoch_timestamp_columns.py:24-54 | every dropped legacy column has its native partner, and c3d4's suffix rule names the same one |
| TimestampChain.StampedTablesKeepEverything | m8flow-backend/migrations/versions/c3d4e5f6a7b8_remove_host_epoch_timestamp_columns.py:130-132 | over the chain, for every table, row and pair of b2c3, the final native value is the old one, else the converted legacy value, else null |
| TimestampCells.StartsAndEnds | m8flow-backend/migrations/versions/b2c3d4e5f6a7_upgrade_core_0_2_0_compatibility.py:43-53 | over the chain, by column name: `started_at` and `ended_at` of processes, tasks and instances end as they were, else as the instants of `start_in_seconds` and `end_in_seconds`, else null, and those two columns are gone |
| TimestampCells.CreatedAndUpdated | m8flow-backend/migrations/versions/b2c3d4e5f6a7_upgrade_core_0_2_0_compatibility.py:39-100 | the same of `created_at` and `updated_at`, in the tables that have both |
| TimestampCells.CreatedOnly | m8flow-backend/migrations/versions/b2c3d4e5f6a7_upgrade_core_0_2_0_compatibility.py:39-100 | and in those that have only the first |
| TimestampCells.InstanceMoments | m8flow-backend/migrations/versions/b2c3d4e5f6a7_upgrade_core_0_2_0_compatibility.py:39-100 | the same of the instances' `task_updated_at` |
| TimestampCells.EventMoments | m8flow-backend/migrations/versions/b2c3d4e5f6a7_upgrade_core_0_2_0_compatibility.py:39-100 | the same of the events' `occurred_at`, from `timestamp` |
| TimestampCells.FutureMoments | m8flow-backend/migrations/versions/b2c3d4e5f6a7_upgrade_core_0_2_0_compatibility.py:39-100 | the same of the future tasks' `run_at`, `queued_to_run_at` and `updated_at` |
| TimestampCells.JobMoments | m8flow-backend/migrations/versions/b2c3d4e5f6a7_upgrade_core_0_2_0_compatibility.py:39-100 | the same of the scheduler jobs' `locked_at` and `run_at` |
| TimestampCells.NothingElseChanges | m8flow-backend/migrations/versions/d4e5f6a7b8c9_remove_core_epoch_timestamp_columns.py:64-87 | no row comes or goes and no cell but these changes |
| TimestampCells.OldWorkItems | m8flow-backend/migrations/versions/d4e5f6a7b8c9_remove_core_epoch_timestamp_columns.py:41-41 | an older `work_item` table loses its epoch columns, whatever is in them |
| TimestampCells.NewWorkItems | m8flow-backend/migrations/versions/b2c3d4e5f6a7_upgrade_core_0_2_0_compatibility.py:244-256 | a created one has every human task, column by column |
| TimestampCells.CompletesExactlyWhen | m8flow-backend/migrations/versions/b2c3d4e5f6a7_upgrade_core_0_2_0_compatibility.py:202-257 | the chain completes exactly unless `work_item` has to be created from human tasks that lack a column or a value that may not be null |
| TimestampCells.RetireAlone | m8flow-backend/migrations/versions/c3d4e5f6a7b8_remove_host_epoch_timestamp_columns.py:87-111 | c3d4 alone, by column name: it backfills both timestamps or neither |
| TimestampChain.OnlyLegacyColumnsGo | m8flow-backend/migrations/versions/d4e5f6a7b8c9_remove_core_epoch_timestamp_columns.py:64-87 | the listed legacy columns are gone and every other cell is unchanged |
| TimestampChain.NewWorkItemsAreTheHumanTasks | m8flow-backend/migrations/versions/b2c3d4e5f6a7_upgrade_core_0_2_0_compatibility.py:244-256 | a created `work_item` table ends equal to `human_task`, row by row and cell by cell |
| TimestampChain.NewWorkItemsHaveTheirColumns | m8flow-backend/migrations/versions/b2c3d4e5f6a7_upgrade_core_0_2_0_compatibility.py:202-257 | both tables end with every copied column that is not a dropped legacy one |
| TimestampChain.LosslessExactlyWhen | m8flow-backend/migrations/versions/d4e5f6a7b8c9_remove_core_epoch_timestamp_columns.py:85-87 | the chain loses nothing exactly when an older `work_item` table has no row with an epoch value and no native one |
| TimestampChain.OldWorkItemCanLoseItsTimestamp | m8flow-backend/migrations/versions/d4e5f6a7b8c9_remove_core_epoch_timestamp_columns.py:41-41 | a database on which it does, with every not-null column filled |
| TimestampChain.RetireKeepsExactlyWhen | m8flow-backend/migrations/versions/c3d4e5f6a7b8_remove_host_epoch_timestamp_columns.py:87-111 | c3d4 alone loses nothing exactly when some native column is missing or every row has its native value |
| TimestampChain.DiscardKeepsExactlyWhen | m8flow-backend/migrations/versions/d4e5f6a7b8c9_remove_core_epoch_timestamp_columns.py:64-82 | d4e5 alone loses nothing exactly when every row has its native value |
| TimestampMigration.Migrator.AddTimestampColumns | m8flow-backend/migrations/versions/b2c3d4e5f6a7_upgrade_core_0_2_0_compatibility.py:132-182 | the two loops stamp every listed table, in whatever order they visit them |
| TimestampMigration.Migrator.CreateWorkItem | m8flow-backend/migrations/versions/b2c3d4e5f6a7_upgrade_core_0_2_0_compatibility.py:202-257 | the table is created from `human_task` exactly when it is absent and the copy is accepted |
| TimestampMigration.Migrator.RetireColumns | m8flow-backend/migrations/versions/c3d4e5f6a7b8_remove_host_epoch_timestamp_columns.py:87-111 | the missing columns are added once, and the table ends as specified |
| TimestampMigration.Migrator.RemoveHostColumns | m8flow-backend/migrations/versions/c3d4e5f6a7b8_remove_host_epoch_timestamp_columns.py:130-132 | every host table goes through c3d4 |
| TimestampMigration.Migrator.RemoveCoreColumns | m8flow-backend/migrations/versions/d4e5f6a7b8c9_remove_core_epoch_timestamp_columns.py:85-87 | every core table goes through d4e5 |
| TimestampMigration.Migrator.Upgrade | m8flow-backend/migrations/versions/d4e5f6a7b8c9_remove_core_epoch_timestamp_columns.py:85-87 | the three revisions in order are the chain, lossless exactly on the databases above |
| JsonRekey.StripIsTheMiddle | m8flow-backend/migrations/versions/b2c3d4e5f6a7_upgrade_core_0_2_0_compatibility.py:317-318 | stripping removes the spaces at both ends and nothing else |
| JsonRekey.SpacesAre | m8flow-backend/migrations/versions/b2c3d4e5f6a7_upgrade_core_0_2_0_compatibility.py:317-318 | the characters that stripping removes, one by one |
| JsonRekey.StripKeepsExactlyTheBare | m8flow-backend/migrations/versions/b2c3d4e5f6a7_upgrade_core_0_2_0_compatibility.py:317-318 | stripping changes exactly the texts with space at an end |
| JsonRekey.JsonData.GroupReferences | m8flow-backend/migrations/versions/b2c3d4e5f6a7_upgrade_core_0_2_0_compatibility.py:311-319 | the dictionary holds, for each stripped hash, exactly the stripped tenants that refer to it, and a null is noticed |
| JsonRekey.JsonData.TenantScopeJsonData | m8flow-backend/migrations/versions/b2c3d4e5f6a7_upgrade_core_0_2_0_compatibility.py:283-362 | re-keys exactly when no hash of a process and neither of a task dangles (its tenant null or unknown, or its payload missing); every such cell then resolves to the last row with its hash and there is nothing else in the table; otherwise, and on a second run, the table is unchanged |
| JsonRekey.LookupsArePreserved | m8flow-backend/migrations/versions/b2c3d4e5f6a7_upgrade_core_0_2_0_compatibility.py:355-359 | each hash that a process or a task names resolves, under its tenant and stripped, to the payload the bare hash had |
| JsonRekey.StoredReferencesResolveExactlyWhen | m8flow-backend/migrations/versions/b2c3d4e5f6a7_upgrade_core_0_2_0_compatibility.py:317-319 | looked up as stored it resolves exactly when neither cell is padded |
| JsonRekey.NoPayloadCrossesTenants | m8flow-backend/migrations/versions/b2c3d4e5f6a7_upgrade_core_0_2_0_compatibility.py:355-359 | a tenant reaches no payload that none of its rows refers to |
| WorkItems.DiffersExactlyWhenUnequal | m8flow-backend/migrations/versions/c4d5e6f7a8b9_breaking_core_0_2_1_contract.py:516-526 | the three-valued comparison holds exactly for unequal cells, null equal to null only |
| WorkItems.QueriesAreExact | m8flow-backend/migrations/versions/c4d5e6f7a8b9_breaking_core_0_2_1_contract.py:504-533 | both queries are empty exactly when every legacy row has its work item with all ten fields equal |
| WorkItems.AcceptedExactlyWhen | m8flow-backend/migrations/versions/c4d5e6f7a8b9_breaking_core_0_2_1_contract.py:626-665 | the insert of assignments is accepted exactly when no new key lacks its user or tenant |
| WorkItems.ValidateWorkItemBackfill | m8flow-backend/migrations/versions/c4d5e6f7a8b9_breaking_core_0_2_1_contract.py:460-539 | passes exactly when there is nothing legacy or the columns are there and the work items are faithful |
| WorkItems.InsertKeepsKeyUnique | m8flow-backend/migrations/versions/c4d5e6f7a8b9_breaking_core_0_2_1_contract.py:626-665 | inserting the distinct variants whose key is free keeps (work item, user) unique |
| WorkItems.EveryRowIsCarriedOver | m8flow-backend/migrations/versions/c4d5e6f7a8b9_breaking_core_0_2_1_contract.py:634-652 | every legacy assignment is there with its metadata, or its key was there before |
| CoreHandoff.Handoff.MigrateWorkItems | m8flow-backend/migrations/versions/c4d5e6f7a8b9_breaking_core_0_2_1_contract.py:324-457 | completes exactly when the human tasks fit a new table, or agree with the old one, column by column; then every legacy row has its work item, and rows that were there keep their cells but for three dropped columns |
| CoreHandoff.Handoff.MigrateAssignments | m8flow-backend/migrations/versions/c4d5e6f7a8b9_breaking_core_0_2_1_contract.py:542-665 | completes exactly on transferable assignments; then all are carried over, nothing else is added, old rows stay, keys stay unique |
| CoreHandoff.Handoff.Upgrade | m8flow-backend/migrations/versions/c4d5e6f7a8b9_breaking_core_0_2_1_contract.py:925-953 | completes exactly when every step's condition holds; the legacy tables are dropped only when everything in them is in the new ones; every permission target then has its full, distinct pair, complete ones unchanged |
| UpgradePath.CreatedWorkItemsPassTheCheck | m8flow-backend/migrations/versions/c4d5e6f7a8b9_breaking_core_0_2_1_contract.py:460-539 | a `work_item` table that b2c3 created has, after the chain, the columns and the rows that the handoff's check asks for |
| UpgradePath.MissingTimestampStopsTheHandoff | m8flow-backend/migrations/versions/c4d5e6f7a8b9_breaking_core_0_2_1_contract.py:513-539 | where the human task had a timestamp and an older work item has no native one, the handoff refuses |
| PermissionTargets.MigratePermissionTargets | m8flow-backend/migrations/versions/c4d5e6f7a8b9_breaking_core_0_2_1_contract.py:668-733 | completes exactly on migratable tables; every target then has a full pair, unique by (type, id, command or empty), with ids and complete pairs unchanged |
| PermissionTargets.UniqueExactlyWhen | m8flow-backend/migrations/versions/c4d5e6f7a8b9_breaking_core_0_2_1_contract.py:705-731 | the grouped keys are unique exactly when no two rows mean the same type, resource and command |
| PermissionTargets.ValidateProcessDigests | m8flow-backend/migrations/versions/c4d5e6f7a8b9_breaking_core_0_2_1_contract.py:243-279 | passes exactly when the digest column is there or the canonical digests are unique per tenant |
| PermissionTargets.CanonicalIs | m8flow-backend/migrations/versions/c4d5e6f7a8b9_breaking_core_0_2_1_contract.py:256-266 | the canonical digest is the full model's hash or, in a table or row without one, the single process's |
| PermissionTargets.MigrateProcessDigests | m8flow-backend/migrations/versions/c4d5e6f7a8b9_breaking_core_0_2_1_contract.py:282-321 | completes exactly when every definition has a digest in some form, and keeps the ones that are set |
| PermissionTargets.ValidateAndMigrateDigests | m8flow-backend/migrations/versions/c4d5e6f7a8b9_breaking_core_0_2_1_contract.py:243-321 | checked and migrated, every digest is full-model-else-single, non-null and unique in its tenant |
| PermissionRevisions.QualifiedIsInjective | m8flow-backend/migrations/versions/c1e4f5a6b7d8_revoke_editor_viewer_tenant_wide_instance_read.py:69-75 | a qualified identifier names one tenant and one role |
| PermissionRevisions.OtherRolesAreUntouched | m8flow-backend/migrations/versions/c1e4f5a6b7d8_revoke_editor_viewer_tenant_wide_instance_read.py:62-80 | a query for some roles never selects a tenant's group of another |
| PermissionRevisions.BackfillIsComplete | m8flow-backend/migrations/versions/e7f8a9b0c1d2_backfill_lifecycle_execute_permissions.py:86-106 | the "backfill is incomplete" error cannot be raised |
| PermissionRevisions.BackfillOnlyFillsFreeSlots | m8flow-backend/migrations/versions/e7f8a9b0c1d2_backfill_lifecycle_execute_permissions.py:59-85 | the insert meets no row in its slots, copies grant types and leaves every row |
| PermissionRevisions.RevokeKeepsDenies | m8flow-backend/migrations/versions/f6a7b8c9d0e1_revoke_editor_home_task_count.py:95-102 | a revoke removes no deny |
| PermissionRevisions.RestoreKeepsDenies | m8flow-backend/migrations/versions/c1e4f5a6b7d8_revoke_editor_viewer_tenant_wide_instance_read.py:133-160 | a downgrade adds no second row to a slot and no deny |
| PermissionRevisions.UpDownUpIsUp | m8flow-backend/migrations/versions/b9d2e3f4a5c6_revoke_submitter_tenant_wide_instance_read.py:101-149 | upgrade after downgrade after upgrade is upgrade |
| PermissionRevisions.RevokesAddUp | m8flow-backend/migrations/versions/b9d2e3f4a5c6_revoke_submitter_tenant_wide_instance_read.py:101-113 | revoking from some roles and then from others, in either order, is revoking from all of them |
| PermissionRevisions.AfterBothRevokes | m8flow-backend/migrations/versions/c1e4f5a6b7d8_revoke_editor_viewer_tenant_wide_instance_read.py:103-121 | the two revokes are one revoke from all three roles, after which no submitter, editor or viewer principal holds a read or all permit on the tenant-wide instance targets |
| PermissionRevisions.DowngradeUndoesExactlyWhen | m8flow-backend/migrations/versions/c1e4f5a6b7d8_revoke_editor_viewer_tenant_wide_instance_read.py:124-160 | a downgrade gives the former state back exactly when only seeded rows were revoked and no seeded row was missing |
| PermissionRows.RolesOf | m8flow-backend/migrations/versions/c1e4f5a6b7d8_revoke_editor_viewer_tenant_wide_instance_read.py:62-80 | the selected principals are exactly those whose group is a known tenant's of one of the roles or, where they count, a global one |
| PermissionRows.SubmittersLose | m8flow-backend/migrations/versions/b9d2e3f4a5c6_revoke_submitter_tenant_wide_instance_read.py:101-113 | exactly the permits to read or do all on the two tenant-wide instance resources go, of principals whose group is a tenant's submitters or the global ones; no other table changes |
| PermissionRows.ReadersLose | m8flow-backend/migrations/versions/c1e4f5a6b7d8_revoke_editor_viewer_tenant_wide_instance_read.py:103-121 | the same of editors and viewers |
| PermissionRows.EditorsLoseTheCount | m8flow-backend/migrations/versions/f6a7b8c9d0e1_revoke_editor_home_task_count.py:88-102 | exactly the editors' permits to read the home task count go |
| PermissionRows.NobodyReadsTenantWide | m8flow-backend/migrations/versions/c1e4f5a6b7d8_revoke_editor_viewer_tenant_wide_instance_read.py:103-121 | after both revokes no submitter, editor or viewer of any tenant has one, and every other row is left |
| PermissionRows.SubmittersRegain | m8flow-backend/migrations/versions/b9d2e3f4a5c6_revoke_submitter_tenant_wide_instance_read.py:116-149 | the downgrade adds exactly the two seeded reads, to submitters without a row in the slot |
| PermissionRows.ReadersRegain | m8flow-backend/migrations/versions/c1e4f5a6b7d8_revoke_editor_viewer_tenant_wide_instance_read.py:124-160 | and to tenants' editors and viewers, the global ones left out |
| PermissionRows.LifecycleGains | m8flow-backend/migrations/versions/e7f8a9b0c1d2_backfill_lifecycle_execute_permissions.py:59-85 | the backfill adds exactly an `execute` row of the same grant type beside each `create` row on a lifecycle command, where there is none |
| PermissionMigration.Authorization.UpgradeLifecycle | m8flow-backend/migrations/versions/e7f8a9b0c1d2_backfill_lifecycle_execute_permissions.py:44-107 | the backfill always completes |
| PermissionMigration.Authorization.DowngradeInstances | m8flow-backend/migrations/versions/b9d2e3f4a5c6_revoke_submitter_tenant_wide_instance_read.py:116-149 | the loop over targets restores what the set-based specification says |
| PermissionMigration.Authorization.TargetId | m8flow-backend/migrations/versions/b8c9d0e1f2a3_backfill_task_review_home_permissions.py:64-81 | the one target is found or made, and fails exactly when there are two |
| PermissionMigration.Authorization.EnsureGroupPrincipal | m8flow-backend/migrations/versions/b8c9d0e1f2a3_backfill_task_review_home_permissions.py:84-113 | a principal of the tenant's role group is found or made, failing exactly when there are two such groups |
| PermissionMigration.Authorization.EnsureAssignment | m8flow-backend/migrations/versions/b8c9d0e1f2a3_backfill_task_review_home_permissions.py:116-142 | a permit is added exactly to a free slot |
| PermissionMigration.Authorization.UpgradeSeed | m8flow-backend/migrations/versions/b8c9d0e1f2a3_backfill_task_review_home_permissions.py:145-203 | every stale tenant has every seed grant of every role or an older row in its slot, only such rows are added, and only existing markers advance |
| PermissionRows.CoveredTenantsHaveRows | m8flow-backend/migrations/versions/b8c9d0e1f2a3_backfill_task_review_home_permissions.py:24-31 | a covered tenant has a row for its admins, reviewers and submitters on each of the four targets, by command, resource and permission |
| PermissionRows.SeededRowsAre | m8flow-backend/migrations/versions/b8c9d0e1f2a3_backfill_task_review_home_permissions.py:179-188 | every added row is such a permit, for a tenant without a marker of version 3 |
| PermissionMigration.Authorization.Take | m8flow-backend/migrations/versions/b9d2e3f4a5c6_revoke_submitter_tenant_wide_instance_read.py:101-149 | which change each revision of a walk makes, with its roles |
| PermissionMigration.Authorization.Walk | m8flow-backend/migrations/versions/b9d2e3f4a5c6_revoke_submitter_tenant_wide_instance_read.py:81-149 | over any walk up and down the revisions slots stay unique and no deny is removed or replaced |
| AuthFetch.OneRefreshInFlight | m8flow-designer/src/lib/api.ts:121-140 | in every interleaving at most one refresh is on the wire |
| AuthFetch.AtMostTwoFetches | m8flow-designer/src/lib/api.ts:165-193 | a call requests its path at most twice, the second time only after the very refresh it waited for has worked |
| AuthFetch.SecondFetchFollowsOwnRefresh | m8flow-designer/src/lib/api.ts:175-187 | the second request is the call's own resumption from that refresh, settled true |
| AuthFetch.RedirectBeforeAnyUnauthorized | m8flow-designer/src/lib/api.ts:142-153 | the page redirects at most once, and a caller sees a 401 only after that |
| AuthFetch.OneGetPerPath | m8flow-designer/src/lib/api.ts:236-258 | at most one GET of a path is unsettled |
| AuthFetch.JoinedCallersShareOneResult | m8flow-designer/src/lib/api.ts:242-258 | callers that joined one request get its one outcome |
| AuthHistory.CallHistory | m8flow-designer/src/lib/api.ts:165-193 | in every interleaving a call has returned exactly when its last answer is no 401, or is the second, or the refresh it waited for failed, and it returned that last answer; after a first 401 it waits, and a refresh that worked makes it ask again |
| AuthHistory.RefreshHistory | m8flow-designer/src/lib/api.ts:127-140 | a refresh ends with the verdict of its own answer |
| AuthHistory.GetterHistory | m8flow-designer/src/lib/api.ts:236-258 | a caller of a shared GET is handed the last answer to the request it holds, once that has returned |
| AuthHistory.UnauthorizedWaits | m8flow-designer/src/lib/api.ts:183-187 | a first 401 makes the call wait for the refresh in flight, or for one that it sends, and redirects nobody |
| AuthHistory.RedirectsExactlyWhen | m8flow-designer/src/lib/api.ts:146-153 | the page is redirected exactly by the first call that is refused again or whose refresh failed |
| AuthHistory.GetStartsOrJoins | m8flow-designer/src/lib/api.ts:242-258 | a GET joins the one of its path that is under way, and otherwise starts a call of its own |
| AuthHistory.SettledGetsServe | m8flow-designer/src/lib/api.ts:253-256 | a GET whose call has returned leaves its path free, and serves those who hold it |
| AuthFetch.NoCallIsStuck | m8flow-designer/src/lib/api.ts:165-193 | until a call returns, an event of its own can happen |
| AuthFetch.EveryMoveIsProgress | m8flow-designer/src/lib/api.ts:165-193 | each event of its own brings a call nearer to its return, and no other event sets it back |
| AuthFetch.EveryCallCanReturn | m8flow-designer/src/lib/api.ts:165-193 | from every reachable state at most five more events bring a call to its return |
| AuthFetch.EveryRunKeepsInv | m8flow-designer/src/lib/api.ts:121-258 | every event keeps the invariant of the three variables and all calls |
| AuthFetch.Api.AttemptRefresh | m8flow-designer/src/lib/api.ts:127-140 | the shared promise is joined, or made with one new request |
| AuthFetch.Api.HandleResponse | m8flow-designer/src/lib/api.ts:175-187 | what a response does to its call and to the variables |
| AuthFetch.Api.GetPath | m8flow-designer/src/lib/api.ts:242-258 | an in-flight GET is joined, otherwise one is started and entered |
| AuthFetch.Api.Live | m8flow-designer/src/lib/api.ts:121-258 | the imperative module, over any events, is the state machine and keeps its invariant |
| OperatorMemory.WrittenValues | m8flow-bpmn/lib/features/serviceTaskOperatorCatalog.ts:201-204 | after a write there is one operator, the last value, and the others keep their order |
| OperatorMemory.OthersGrow | m8flow-bpmn/lib/features/serviceTaskOperatorCatalog.ts:201-203 | the values that are no operator keep their order |
| OperatorMemory.FirstOperatorIs | m8flow-bpmn/lib/features/serviceTaskOperatorCatalog.ts:181-181 | the operator a task shows is the first one among its values |
| OperatorMemory.ComingBackRestores | m8flow-bpmn/lib/features/serviceTaskOperatorCatalog.ts:165-172 | as far as this file goes: in the first diagram of a page, whatever is selected and typed elsewhere, reselecting an operator shows the values it was left with |
| OperatorMemory.WhatComesBack | m8flow-bpmn/lib/features/serviceTaskOperatorCatalog.ts:173-205 | in any diagram: those values, unless the task left its imported list for a known operator; then those of the earlier diagram |
| OperatorMemory.OldListReturnsExactlyWhen | m8flow-bpmn/lib/features/serviceTaskOperatorCatalog.ts:185-199 | of an imported list and an older one for the same operator, the older comes back exactly when the task first leaves the imported one for a known operator |
| OperatorMemory.SelectNew | m8flow-bpmn/lib/features/serviceTaskOperatorCatalog.ts:185-199 | a first selection keeps every list in one place and puts the shown list into the memory |
| OperatorMemory.OpeningIsValid | m8flow-bpmn/lib/features/serviceTaskConnectorPanel.ts:108-115 | after another diagram is imported no list is in two places either |
| OperatorMemory.Editor.WriteServiceTaskOperator | m8flow-bpmn/lib/features/serviceTaskOperatorCatalog.ts:173-205 | the very list that the memory has, or else a new one with every catalog parameter and nothing typed, is shown; then the memory also gets the list that was shown; other tasks and their memories are untouched |
| OperatorMemory.Editor.ViewIs | m8flow-bpmn/lib/features/serviceTaskOperatorCatalog.ts:173-205 | what the objects show and remember, task by task and slot by slot; a list counts as imported as long as the memory does not have the object |
| PanelCells.SelectionInTerms | m8flow-bpmn/lib/features/serviceTaskOperatorCatalog.ts:182-199 | a selection brings the memory's list back or makes one with every catalog parameter and nothing typed, which goes into the memory with the imported list that was shown |
| PanelCells.TypingInTerms | m8flow-bpmn/lib/features/serviceTaskOperatorCatalog.ts:162-163 | typing sets one value of the shown list, and nothing else anywhere |
| PanelCells.OpeningInTerms | m8flow-bpmn/lib/features/serviceTaskConnectorPanel.ts:108-115 | another diagram brings its own operators and lists, and the memory of lists stays |
| OperatorMemory.Editor.TypeValue | m8flow-bpmn/lib/features/serviceTaskOperatorCatalog.ts:162-163 | typing changes one value of the one list that the task shows |
| OperatorMemory.Editor.SetShownList | m8flow-bpmn/lib/features/connectorProfileBinding.ts:130-142 | a write by the profile code changes the one list the task shows, or gives it one, and no other slot |
| OperatorMemory.Editor.OpenDiagram | m8flow-bpmn/lib/features/serviceTaskConnectorPanel.ts:115-115 | importing another diagram makes new lists throughout and leaves the memory |
| OperatorMemory.Editor.Session | m8flow-bpmn/lib/features/serviceTaskOperatorCatalog.ts:173-205 | over any session the shared objects behave as if every place had its own list |
| JsonString.ParseOfStringify | m8flow-bpmn/lib/features/connectorProfileBinding.ts:41-43 | every JavaScript string, lone surrogates included, survives writing and reading |
| JsonGrammar.ParsesExactlyWhen | m8flow-bpmn/lib/features/connectorProfileBinding.ts:79-89 | a text parses to a string exactly when, spaces at its ends apart, it is a quote and a literal of the JSON grammar that means it |
| JsonGrammar.LettersAreUsed | m8flow-bpmn/lib/features/connectorProfileBinding.ts:41-43 | which units are written with a short escape |
| JsonGrammar.DigitsAreUsed | m8flow-bpmn/lib/features/connectorProfileBinding.ts:41-43 | other control characters and lone surrogates are written with four small digits |
| JsonGrammar.OthersStandForThemselves | m8flow-bpmn/lib/features/connectorProfileBinding.ts:41-43 | everything else stands for itself, surrogate pairs included |
| JsonString.TrimIsTheMiddle | m8flow-bpmn/lib/features/connectorProfileBinding.ts:49-49 | trimming removes the spaces at both ends and nothing else |
| JsonString.UrlIsNoJsonString | m8flow-bpmn/lib/features/connectorProfileBinding.ts:53-60 | a URL-like text is never a JSON string, so that branch is never taken |
| JsonGrammar.UrlishExactlyWhen | m8flow-bpmn/lib/features/connectorProfileBinding.ts:45-46 | a text is URL-like exactly when it starts with a scheme and `://` |
| JsonGrammar.QuotesExactlyUrls | m8flow-bpmn/lib/features/connectorProfileBinding.ts:48-62 | a URL-like value is quoted without the spaces around it, and every other is left as it is |
| JsonString.DisplayOfQuoted | m8flow-bpmn/lib/features/connectorProfileBinding.ts:64-77 | displaying a quoted URL gives the trimmed text back; for other input quoting does not change the display |
| JsonString.QuotingIsStable | m8flow-bpmn/lib/features/connectorProfileBinding.ts:48-62 | quoting again changes nothing |
| ProfileBinding.UnquoteOfQuoted | m8flow-bpmn/lib/features/connectorProfileBinding.ts:79-89 | a quoted profile name reads back as itself |
| ProfileBinding.WrittenIsSelected | m8flow-bpmn/lib/features/connectorProfileBinding.ts:144-169 | a written profile is the selected one, and no other parameter moves or changes |
| ProfileBinding.CountAfterWrite | m8flow-bpmn/lib/features/connectorProfileBinding.ts:144-169 | a write never adds a second profile parameter, and an empty one removes one |
| PanelCells.WriteInTerms | m8flow-bpmn/lib/features/connectorProfileBinding.ts:144-169 | a profile is written into the first parameter `m8flow_profile`, or at the end as one of type `any`; an empty one takes that parameter out |
| PanelCells.SelectedIs | m8flow-bpmn/lib/features/connectorProfileBinding.ts:108-110 | the selected profile is the JSON string in that parameter |
| ProfileBinding.ReconciledIsSelected | m8flow-bpmn/lib/features/connectorProfileBinding.ts:205-234 | a returned profile is the operator's selected one, exactly unless it was restored and the supplied fields include the profile parameter |
| ProfileBinding.RestoringBlanksTheFields | m8flow-bpmn/lib/features/connectorProfileBinding.ts:171-185 | restoring blanks every supplied field, leaves the others, and adds at most the one parameter |
| ProfileBinding.RestoresExactlyWhen | m8flow-bpmn/lib/features/connectorProfileBinding.ts:212-233 | a profile is restored exactly when none is selected and one is remembered under the same family; otherwise the operator is unchanged |
| ProfileBinding.ReconcileIsIdempotent | m8flow-bpmn/lib/features/connectorProfileBinding.ts:205-234 | reconciling again changes nothing and answers the same |
| PanelCells.ReconcileInTerms | m8flow-bpmn/lib/features/connectorProfileBinding.ts:205-234 | a selected profile is remembered with its family; else a remembered one is written and the supplied fields cleared if the family is the same, and forgotten if it is another |
| PanelCells.ReconcileWithoutAList | m8flow-bpmn/lib/features/connectorProfileBinding.ts:130-142 | an operator without a list is treated like one with an empty list |
| ProfileBinding.FamilyChangeForgets | m8flow-bpmn/lib/features/connectorProfileBinding.ts:222-226 | under another connector family nothing is restored, then or later |
| ProfileBinding.RestoredWasChosen | m8flow-bpmn/lib/features/connectorProfileBinding.ts:192-240 | over any session a profile is restored only to an element and family it was chosen for |
| ProfileBinding.BoundOperator.WriteProfileParameter | m8flow-bpmn/lib/features/connectorProfileBinding.ts:130-169 | the list is made if needed and ends as the specification says |
| ProfileBinding.BoundOperator.BlankSuppliedParameters | m8flow-bpmn/lib/features/connectorProfileBinding.ts:171-185 | exactly the supplied fields lose their values |
| ProfileBinding.ProfileMemory.ReconcileOperator | m8flow-bpmn/lib/features/connectorProfileBinding.ts:205-234 | memory, operator and answer are those of the specification |
| ServiceTaskPanel.WhatBecomesOfIt | m8flow-bpmn/lib/features/serviceTaskConnectorPanel.ts:549-561 | over any session that leaves a list alone, be it the memory's or an imported one, each of its parameters is as it was left, or blank if some rendering restored a profile into the list with that parameter among the supplied fields |
| ServiceTaskPanel.ComingBackShowsItExactlyWhen | m8flow-bpmn/lib/features/serviceTaskConnectorPanel.ts:549-561 | a typed value is still there exactly when no such rendering came between |
| ServiceTaskPanel.ListStaysExactlyWhen | m8flow-bpmn/lib/features/serviceTaskConnectorPanel.ts:549-561 | the whole list is as it was left exactly when no profile was restored into it |
| ServiceTaskPanel.AProfileOfTheOtherActionBlanksIt | m8flow-bpmn/lib/features/serviceTaskConnectorPanel.ts:366-381 | a session in which a typed name is lost: another action of the family, a profile chosen there, and back |
| ServiceTaskPanel.OldListReturnsExactlyWhen | m8flow-bpmn/lib/features/serviceTaskConnectorPanel.ts:544-547 | under a later diagram a selection shows the list of an earlier one exactly for the operators that the memory knew when it was opened, with the values of that time but for restored fields; others come up blank |
| ServiceTaskPanel.AnOldListReturns | m8flow-bpmn/lib/features/serviceTaskConnectorPanel.ts:544-547 | a name typed in one diagram comes up in the next, whose own list is dropped |
| ServiceTaskPanel.ConnectorEndsAtTheSlash | m8flow-bpmn/lib/features/connectorProfileBinding.ts:33-39 | the connector of an operator id is what comes before its first slash |
| PanelCells.RenderingInTerms | m8flow-bpmn/lib/features/serviceTaskConnectorPanel.ts:549-561 | a rendering reconciles the shown list under the connector of its operator, and replaces no other |
| PanelCells.ChoiceInTerms | m8flow-bpmn/lib/features/serviceTaskConnectorPanel.ts:366-381 | a choice writes the profile, clears the supplied fields and is remembered; the empty one is taken out and forgotten |
| PanelCells.OtherEventsInTerms | m8flow-bpmn/lib/features/serviceTaskConnectorPanel.ts:108-115 | edits and diagrams leave the remembered profiles, but for the end of a diagram, which empties them |
| ServiceTaskPanel.PanelProvider.RenderPanel | m8flow-bpmn/lib/features/serviceTaskConnectorPanel.ts:549-561 | a rendering reconciles the shown list, in place, with the remembered profile |
| ServiceTaskPanel.PanelProvider.ChooseProfile | m8flow-bpmn/lib/features/serviceTaskConnectorPanel.ts:366-381 | a choice writes or removes the profile parameter, blanks the supplied fields, and is remembered or forgotten |
| ServiceTaskPanel.PanelProvider.Session | m8flow-bpmn/lib/features/serviceTaskConnectorPanel.ts:266-381 | over any session, of several diagrams, the two memories and the shared lists are the panel of the lemmas above |
| TaskSizing.RatioIsExactExactlyWhen | m8flow-bpmn/lib/features/taskSizing.ts:69-71 | 5·height = 2·width exactly for widths of at least 150 that are multiples of five |
| TaskSizing.HeightIs | m8flow-bpmn/lib/features/taskSizing.ts:69-71 | the height is two fifths of the width to the nearest pixel, and at least 60 |
| TaskSizing.CandidatesAscend | m8flow-bpmn/lib/features/taskSizing.ts:77-88 | the candidates ascend strictly and end with the cap |
| TaskSizing.CandidatesAreSteps | m8flow-bpmn/lib/features/taskSizing.ts:83-85 | below the cap they are one step apart |
| TaskSizing.EveryStepIsACandidate | m8flow-bpmn/lib/features/taskSizing.ts:83-85 | and no step below the cap is left out |
| TaskSizing.FitTaskSize | m8flow-bpmn/lib/features/taskSizing.ts:98-127 | the smallest candidate that fits, or the cap when none does |
| TaskSizing.FitIsLeast | m8flow-bpmn/lib/features/taskSizing.ts:98-127 | the chosen width is the least candidate that fits, or the cap when none fits |
| TaskSizing.FitIsMonotone | m8flow-bpmn/lib/features/taskSizing.ts:98-127 | a text nowhere larger, in a gutter no wider, never gets a larger box |
| TaskSizing.DefaultRatioIsExact | m8flow-bpmn/lib/features/taskSizing.ts:11-20 | with the default limits the ratio is exact and heights are even |
| TaskSizing.DefaultFitIs | m8flow-bpmn/lib/features/taskSizing.ts:11-33 | the default fit is the least multiple of 25 from 150 to 600 in which the label has seven pixels around it and 32 beside the icon, else 600 |
| TaskSizing.ResizeDrift | m8flow-bpmn/lib/features/taskSizingBehavior.ts:94-100 | one resize moves the centre right and down by half a pixel exactly when the size changes by an odd number |
| TaskSizing.DriftCountsParityChanges | m8flow-bpmn/lib/features/taskSizingBehavior.ts:87-100 | after n edits the centre is right by one half pixel per change of parity, between 0 and n |
| TaskSizing.EvenHeightsDoNotDrift | m8flow-bpmn/lib/features/taskSizingBehavior.ts:94-100 | even heights never move the centre vertically |
| TaskSizing.ThereAndBack | m8flow-bpmn/lib/features/taskSizingBehavior.ts:94-100 | going to a width of other parity and back leaves the task one pixel to the right |
| TaskSizing.TwoLabelsDrift | m8flow-bpmn/lib/features/taskSizingBehavior.ts:94-100 | two labels that need 150 and 175 pixels do that |
| TaskSizing.Shape.UpdateLabel | m8flow-bpmn/lib/features/taskSizingBehavior.ts:81-101 | an edit gives the task the least such size, about the same centre but for a rounded half pixel to the right and down |
| TaskSizing.Shape.EditLabels | m8flow-bpmn/lib/features/taskSizingBehavior.ts:81-101 | any number of edits: no vertical drift, and a horizontal one of 0 to n half pixels |

## Left out

- NATS, Flask, SQLAlchemy, Alembic and Keycloak themselves: only the effects of their calls are modelled.
- Replies to publishers, telemetry, logging and broker metrics in the consumer: they do not touch the modelled state.
- `_resolve_tenant_initiator` and the model catalog: their failures are answers of `instantiate_process`.
- DedupAgreement.AuditTrail: a prune is one step that takes any completed rows, and of the rows without an id the oldest ones; which are past their retention is not modelled.
- The audit row's error text, stream position, user and completion time; the rows of the notification worker.
- Payload fields of other types than the source expects, and clocks that differ between consumers.
- `Object.entries` order and UTF-8 encoding of names in `zipFiles`: files are a list of byte strings.
- XML text, escaping and display names in `flowBpmn`, and the numbering and order of lanes; flow numbers stand for `Flow_<n>`.
- ZipArchive.ZipFiles: the error of a number that does not fit is one reason, not Node's message.
- Row-level security, constraint and index maintenance, type widening and the SQLite and MySQL branches of the migrations.
- TimestampMigration.Migrator.Upgrade: says nothing of the database after a failed copy, which the revision's transaction rolls back.
- The event category and authorization schema of b2c3, the event, name and marker steps of c4d5, and the downgrades that only restore columns.
- Foreign keys of copied rows in b2c3 and c4d5: the source rows satisfy the same ones.
- JsonRekey.StripIsTheMiddle: spaces are those of ASCII.
- CoreHandoff.Handoff.Upgrade: the core marker is a parameter, and a mixed or wrong marker is not modelled.
- Missing authorization tables in the permission revisions, which refuse before any statement.
- `getAccessToken` and request headers in the fetch, and parsing of bodies: a GET's result is its outcome.
- AuthFetch.EveryCallCanReturn: that the network answers is not stated, only that a call returns if it does.
- Catalog loading and labels of `serviceTaskOperatorCatalog.ts`, which hold no shared state with the memory.
- OperatorMemory.Editor.WriteServiceTaskOperator: undo is outside the session.
- ServiceTaskPanel.PanelProvider.Session: loading of the catalogs is not modelled; the supplied fields are a parameter of each rendering and choice. A typed value is stored as given; its quoting is stated in `JsonString`.
- Parameter objects shared by identity within one list in `connectorProfileBinding.ts`: a parameter is a value.
- Text measuring and non-integer coordinates of imported shapes in task sizing; rounding of `width / 2.5` is exact, as it is for the sizes used.
- The notification worker, the MCP server, licensing scripts and the user interface.
