# Organization invitations: a verified model

The PostgreSQL plugin of the repository keeps organization invitations in five tables: invitations, outbox
commands, an idempotency ledger, an activity log and per-organization sequences. About fifteen transactions change
them; around those run unlocked reads, calls to membership, directory and notification providers, and a dispatch
loop with leases, retries and backoff. This project states what those tables mean together and proves that every
transaction, every process that crashes or acts on an old read, and every run of them keeps it so.

`dafny verify dfyconfig.toml` checks everything.

## How the model is built

- `Schema` holds the rows and tables as values; `Ordering` is `ORDER BY ... LIMIT`.
- `Storage` gives each transaction as a function from the database it finds to its answer and the database it
  leaves; a transaction that ends before its commit leaves the database it found. `Store.InvitationStore` is the
  imperative form, statement by statement over table fields with rollback, and each method is proved to have exactly
  the effect `Storage` states.
- `Consistency` is the invariant across the tables: row CHECKs, the revision law, the census of command keys, delivery
  state against notification command, ledger rows against membership commands, numbering, pending addresses,
  activity. `Preservation`, `Effects` and `Outbox` prove that every transaction keeps it.
- `Evolution` is the two-state relation no transaction leaves: what a later state of a row may differ in.
- `Protocol` is the plugin as a state machine. A world is the database plus what processes know: claims, rows read
  without a lock, verdicts reached on them, the provider's memberships and its answers. Knowledge is never taken
  away, so a process may act on it at any later moment or never, which is a crash. The membership provider is an
  idempotent keyed map, and applying a call and learning its answer are two steps.
- `Leases` and `Safety` carry the invariant of the whole world through every step and every run. `Conservation`,
  `Saga`, `Runs`, `Replays`, `Tokens` and `Memberships` draw the results from it.
- `Writes` says column by column what each client transaction refuses, answers and writes, apart from the helper
  functions of `Storage`; `Outcomes` does so for what one execution of a command comes to. `Traces` has one call of each
  operation as a trace among other processes, and what its answer then means.
- `Worker` is the decision a worker takes on one command, and `Attempts` the bound on attempts over runs; `Dispatch` is
  a batch as a trace with other processes in between.
- `Service.Plugin` is the imperative orchestration (`invite`, `resend`, `revoke`, `accept`, `list_invitations`,
  `expire_due`, `dispatch_due`). It keeps a ghost world whose database is its store; between two of its transactions
  other processes do any run of the protocol, and each of its own transactions and provider calls is a step
  (`Processes`). So every method starts in a reachable world, ends in one a run leads to, and every result about
  reachable worlds holds of its tables. What it relies on meanwhile, `Dispatch.Rely`, is proved of such runs.
- `Drain`, `Paging`, `Backoff` and `Email` are the expiry drain, keyset pagination, the retry delay and address
  normalisation with the advisory-lock text.

Fresh UUIDs, lease tokens, rows skipped as locked, provider replies and the clock are parameters or nondeterministic.
Token derivation is injective in invitation and generation, and a verifier opens exactly for the token it was made of.

## A place where the code and its promise part

A resend is meant to invalidate every older token. `resend` derives the new token from a generation it reads before its
transaction, and the transaction only compares the revision the caller expects. If that read is older than the expected
revision, the transaction still commits: the stored verifier is then of an older generation, the token handed to the
caller does not open the invitation, and one that rotation had invalidated does. The model keeps the code as it is;
`Tokens.ResendAgreesIff` and `Traces.HandedTokenOpensIff` give the exact condition, `Tokens.StaleResendsDisagree` a
run, and `Tokens.DisciplinedRunsAgree` what holds when the condition is met.

## Model

| member | source | states |
|---|---|---|
| Store.InvitationStore.ReserveMutation | crates/lenso-organization-invitation-postgres-plugin/src/storage.rs:1260-1317 | Reserves a new idempotency key as `started`; answers replay, in progress or conflict for a known one and writes nothing. |
| Store.InvitationStore.CompleteMutation | crates/lenso-organization-invitation-postgres-plugin/src/storage.rs:1319-1347 | Turns the reservation of this transaction into a finished row with its response, and touches no other row. |
| Store.InvitationStore.InsertOutboxCommand | crates/lenso-organization-invitation-postgres-plugin/src/storage.rs:1349-1382 | Inserts a command unless its key exists, and answers the id of the command that holds the key. |
| Store.InvitationStore.SupersedeActiveNotifications | crates/lenso-organization-invitation-postgres-plugin/src/storage.rs:446-452 | Supersedes exactly the active notification commands of one invitation. |
| Store.InvitationStore.FinishCommandRow | crates/lenso-organization-invitation-postgres-plugin/src/storage.rs:1384-1411 | Finishes the command if and only if it is in flight under exactly this lease; the lease deadline is not consulted. |
| Store.InvitationStore.ExpireLockedInvitation | crates/lenso-organization-invitation-postgres-plugin/src/storage.rs:1413-1444 | Supersedes notifications, expires the row, inserts the lifecycle command and the activity of the caller. |
| Store.InvitationStore.Create | crates/lenso-organization-invitation-postgres-plugin/src/storage.rs:188-311 | Every outcome of creation with the whole database it leaves; refused and failed creations leave the database they found, sequence included; a disclosed one leaves a pending row with its deadline `ttl` from now, as the answer shows. |
| Store.InvitationStore.Resend | crates/lenso-organization-invitation-postgres-plugin/src/storage.rs:378-503 | Every outcome of a resend, in the order of its checks, with the whole database it leaves. |
| Store.InvitationStore.Revoke | crates/lenso-organization-invitation-postgres-plugin/src/storage.rs:506-607 | Every outcome of a revocation, in the order of its checks, with the whole database it leaves. |
| Store.InvitationStore.LookupAcceptReplay | crates/lenso-organization-invitation-postgres-plugin/src/storage.rs:610-649 | The unlocked look at the ledger gives the verdict the reservation would give on the same ledger. |
| Store.InvitationStore.StartAcceptance | crates/lenso-organization-invitation-postgres-plugin/src/storage.rs:652-805 | Every outcome of `begin_accept` with the whole database it leaves: the path past the deadline commits the expiry and drops the reservation, the others that refuse write nothing. |
| Store.InvitationStore.ConsumeToken | crates/lenso-organization-invitation-postgres-plugin/src/storage.rs:743-791 | Consumes the token, inserts the membership command already claimed, and binds the ledger row to it; notification commands are left alone. |
| Store.InvitationStore.CompleteAcceptance | crates/lenso-organization-invitation-postgres-plugin/src/storage.rs:807-899 | Completion through the fence, the read-only replay for a completed command under any lease, and the refusals; what it answers is the receipt of the row it leaves, column by column. |
| Store.InvitationStore.ExpireBatch | crates/lenso-organization-invitation-postgres-plugin/src/storage.rs:935-957 | The loop leaves the database of expiring the locked rows one after another, and lists each once. |
| Store.InvitationStore.ExpireDue | crates/lenso-organization-invitation-postgres-plugin/src/storage.rs:902-983 | Every outcome of a batch with the whole database it leaves, for any set of rows skipped as locked; a new request changes exactly the rows it answers with, each overdue, and reports more iff an overdue row is left. |
| Store.InvitationStore.ReserveDispatch | crates/lenso-organization-invitation-postgres-plugin/src/storage.rs:985-1019 | The reservation of a batch commits before any command is claimed; a known key is refused or replayed. |
| Store.InvitationStore.RecordDispatch | crates/lenso-organization-invitation-postgres-plugin/src/storage.rs:1021-1045 | Finishes exactly a started dispatch reservation; anything else is an error that writes nothing. |
| Store.InvitationStore.LeaseBatch | crates/lenso-organization-invitation-postgres-plugin/src/storage.rs:1062-1075 | The claim loop leases each locked command once under its own token and hands out its record. |
| Store.InvitationStore.Claim | crates/lenso-organization-invitation-postgres-plugin/src/storage.rs:1047-1078 | Claims the first `limit` due commands by time and id, for any set skipped as locked. |
| Store.InvitationStore.MatchCommand | crates/lenso-organization-invitation-postgres-plugin/src/storage.rs:1093-1111 | Returns the row if and only if it still wants the command. |
| Store.InvitationStore.CompleteNotificationCommand | crates/lenso-organization-invitation-postgres-plugin/src/storage.rs:1113-1141 | Fenced completion; the row takes the receipt only while pending at the command's generation. |
| Store.InvitationStore.CompleteLifecycleCommand | crates/lenso-organization-invitation-postgres-plugin/src/storage.rs:1143-1159 | Fenced completion that touches no invitation. |
| Store.InvitationStore.Retry | crates/lenso-organization-invitation-postgres-plugin/src/storage.rs:1161-1185 | Fenced return to the queue after a delay, keeping the attempts. |
| Store.InvitationStore.Fail | crates/lenso-organization-invitation-postgres-plugin/src/storage.rs:1187-1235 | Fenced failure; a failed membership expires its waiting invitation and releases its ledger row, a missing invitation rolls back. |
| Store.InvitationStore.Supersede | crates/lenso-organization-invitation-postgres-plugin/src/storage.rs:1237-1257 | Fenced supersession of one command. |
| Store.InvitationStore.SelectInvitations | crates/lenso-organization-invitation-postgres-plugin/src/storage.rs:353-375 | The filtered rows past the cursor, newest first, `limit` at most; each is of the organization with the state and address asked for, as its row shows it. |
| Outbox.CreateIsConsistent | crates/lenso-organization-invitation-postgres-plugin/src/storage.rs:257-291 | Creation keeps the cross-table invariant. |
| Effects.MovedOnIsConsistent | crates/lenso-organization-invitation-postgres-plugin/src/storage.rs:439-483 | The row, outbox and activity writes shared by resend, revoke and expiry keep it; the ON CONFLICT arm does not fire. |
| Outbox.ResendIsConsistent | crates/lenso-organization-invitation-postgres-plugin/src/storage.rs:378-503 | A resend keeps it, whatever verifier it stores. |
| Outbox.RevokeIsConsistent | crates/lenso-organization-invitation-postgres-plugin/src/storage.rs:506-607 | A revocation keeps it. |
| Outbox.BeginAcceptIsConsistent | crates/lenso-organization-invitation-postgres-plugin/src/storage.rs:652-805 | Starting an acceptance keeps it: one started ledger row is bound to the one membership command. |
| Outbox.CompleteAcceptIsConsistent | crates/lenso-organization-invitation-postgres-plugin/src/storage.rs:807-899 | Completing an acceptance keeps it: the bound ledger row answers the receipt of the accepted row. |
| Outbox.FailIsConsistent | crates/lenso-organization-invitation-postgres-plugin/src/storage.rs:1187-1235 | A failure keeps it: the released ledger row, the expired row and the failed command agree. |
| Outbox.NotificationCompletionIsConsistent | crates/lenso-organization-invitation-postgres-plugin/src/storage.rs:1113-1141 | The delivery state and the notification command of the current generation move together. |
| Outbox.SupersedeIsConsistent | crates/lenso-organization-invitation-postgres-plugin/src/storage.rs:1237-1257 | Superseding keeps it exactly because the invitation no longer wants the command. |
| Outbox.ExpireRowsIsConsistent | crates/lenso-organization-invitation-postgres-plugin/src/storage.rs:935-957 | The expiry loop keeps it after every row. |
| Outbox.ClaimRowsIsConsistent | crates/lenso-organization-invitation-postgres-plugin/src/storage.rs:1062-1075 | The claim loop keeps it after every command. |
| Safety.StepKeepsWorld | crates/lenso-organization-invitation-postgres-plugin/src/storage.rs:188-1257 | Every step of every process keeps the invariant of database, claims, unlocked reads and provider, and moves the database only as rows may evolve. |
| Safety.RunKeepsWorld | crates/lenso-organization-invitation-postgres-plugin/src/storage.rs:188-1257 | So does every run, with crashes and stale processes at any point. |
| Safety.ReachableIsOk | crates/lenso-organization-invitation-postgres-plugin/migrations/001_create_organization_invitations.sql:1-104 | Every state any run reaches from the migrated schema satisfies the invariant, which contains the CHECK and UNIQUE constraints. |
| Saga.AcceptanceSaga | crates/lenso-organization-invitation-postgres-plugin/src/storage.rs:652-899 | In every reachable state: subject set iff one membership command; pending iff that command is active iff exactly one started ledger row is bound; accepted iff completed iff exactly one finished row, whose answer states the accepted row's number, organization, membership and revision; expired iff failed iff none bound; never superseded, never revoked. |
| Saga.StoredReceipts | crates/lenso-organization-invitation-postgres-plugin/src/storage.rs:888-896 | Every acceptance the ledger answers with states the columns of its row as it stands: accepted, its number, organization, membership and revision, for the subject that asked. |
| Saga.StartedRows | crates/lenso-organization-invitation-postgres-plugin/src/storage.rs:1260-1317 | Committed `started` ledger rows belong to an acceptance in progress or to a dispatch batch only. |
| Saga.NotificationOutbox | crates/lenso-organization-invitation-postgres-plugin/src/storage.rs:446-475 | One notification per generation 1..G; an active one only for G and never on a revoked or expired row; on a pending unaccepted row the delivery state is pending, queued or failed exactly as that command is active, completed or failed. |
| Saga.LifecycleAlwaysMatches | crates/lenso-organization-invitation-postgres-plugin/src/storage.rs:1093-1111 | Lifecycle commands always match their invitation and are never superseded. |
| Conservation.RevisionLaw | crates/lenso-organization-invitation-postgres-plugin/src/storage.rs:1349-1382 | revision = generation + [subject set] + [not pending] = number of command rows = number of activity rows, which carry 1..revision once each. |
| Conservation.InsertNeverConflicts | crates/lenso-organization-invitation-postgres-plugin/src/storage.rs:1349-1382 | Every client mutation, completion and failure that writes an activity adds exactly its own new command id, creation included; one that writes none adds none. |
| Conservation.NumberingIsGapFree | crates/lenso-organization-invitation-postgres-plugin/src/storage.rs:243-271 | An organization's numbers are exactly 1..next-1, each once. |
| Conservation.PendingAddressIsUnique | crates/lenso-organization-invitation-postgres-plugin/migrations/001_create_organization_invitations.sql:37-39 | At most one pending invitation per organization and normalised address. |
| Runs.StaleForever | crates/lenso-organization-invitation-postgres-plugin/src/storage.rs:1093-1111 | A claimed command its invitation does not want is wanted at no later moment of any run; lifecycle commands never get there. |
| Runs.NeverDiscardsAWantedCommand | crates/lenso-organization-invitation-postgres-plugin/src/lib.rs:1513-1518 | Whenever a process supersedes a command on its earlier unlocked read, the invitation does not want it at that moment. |
| Runs.TerminalFreeze | crates/lenso-organization-invitation-postgres-plugin/src/storage.rs:430-438 | Terminal invitations, settled commands and finished ledger rows are unchanged in every column by every later step; activity is only appended to. |
| Runs.LeaseFence | crates/lenso-organization-invitation-postgres-plugin/src/storage.rs:1384-1411 | In flight iff leased; attempts counts the claims; the fence lets exactly the latest claim of an in-flight command through. |
| Runs.LostLeaseStaysLost | crates/lenso-organization-invitation-postgres-plugin/src/storage.rs:1384-1411 | A process that lost its lease never gets it back. |
| Runs.UnfencedChangesNothing | crates/lenso-organization-invitation-postgres-plugin/src/storage.rs:1161-1257 | Every finishing step under a lost lease changes nothing. |
| Runs.FinishingSpendsTheLease | crates/lenso-organization-invitation-postgres-plugin/src/storage.rs:1113-1257 | After a finishing step the claim is fenced out. |
| Runs.OneFinishPerClaim | crates/lenso-organization-invitation-postgres-plugin/src/storage.rs:1113-1257 | One claim finishes its command at most once over any run. |
| Runs.RevisionUsedOnce | crates/lenso-organization-invitation-postgres-plugin/src/storage.rs:430-438 | At most one client mutation commits against one revision of one invitation. |
| Runs.AcceptedOnce | crates/lenso-organization-invitation-postgres-plugin/src/storage.rs:708-742 | At most one acceptance of an invitation ever starts. |
| Runs.DisclosedOnce | crates/lenso-organization-invitation-postgres-plugin/src/lib.rs:500-530 | Each (invitation, generation) token is disclosed at most once over a run. |
| Replays.ReplayAnswersAndStutters | crates/lenso-organization-invitation-postgres-plugin/src/storage.rs:201-225 | A request already committed is answered from the ledger and changes nothing anywhere. |
| Replays.AnswersPersist | crates/lenso-organization-invitation-postgres-plugin/src/storage.rs:1260-1317 | A stored answer is stored for ever. |
| Replays.RepeatIsExact | crates/lenso-organization-invitation-postgres-plugin/src/storage.rs:296-310 | Repeating an answered request at any later moment gives the same answer and changes nothing. |
| Replays.KeysAreBound | crates/lenso-organization-invitation-postgres-plugin/src/storage.rs:1260-1317 | A known key under another operation, actor or hash is refused by every operation; one still running is refused too, or told to be in progress if it is an acceptance. Neither changes anything. |
| Replays.AcceptanceAnswersItsRequest | crates/lenso-organization-invitation-postgres-plugin/src/storage.rs:875-887 | A completed acceptance is the stored answer of the request bound to it. |
| Replays.CompletionReplays | crates/lenso-organization-invitation-postgres-plugin/src/storage.rs:824-829 | A repeated completion returns an equal record, under any lease, at any later moment. |
| Replays.DuplicatesDoNotMatter | crates/lenso-organization-invitation-postgres-plugin/src/storage.rs:1260-1317 | Deleting every replayed duplicate from a run leaves a run that ends in the same world. |
| Tokens.ResendAgreesIff | crates/lenso-organization-invitation-postgres-plugin/src/lib.rs:424-456 | A committed resend stores the verifier of its own generation's token if and only if its unlocked read had reached the expected revision. |
| Tokens.StaleResendMisrotates | crates/lenso-organization-invitation-postgres-plugin/src/lib.rs:424-456 | Otherwise the token handed out does not open the invitation and one that rotation was to invalidate does. |
| Tokens.StaleResendsDisagree | crates/lenso-organization-invitation-postgres-plugin/src/lib.rs:424-456 | A concrete run of two resends on one read after which the stored verifier is of an older generation. |
| Tokens.DisciplinedRunsAgree | crates/lenso-organization-invitation-postgres-plugin/src/lib.rs:424-456 | On runs whose resends meet that condition every pending unaccepted row stores the verifier of exactly its generation. |
| Tokens.MismatchIsUnreachable | crates/lenso-organization-invitation-postgres-plugin/src/lib.rs:1640-1671 | On such runs the `token_derivation_mismatch` branch is unreachable. |
| Tokens.EmailedLinkStaysValid | crates/lenso-organization-invitation-postgres-plugin/src/lib.rs:1917-1933 | A mailed token and revision start an acceptance as long as the invitation is pending, unaccepted, not rotated and not past its deadline. |
| Tokens.AcceptanceProvesTheToken | crates/lenso-organization-invitation-postgres-plugin/src/lib.rs:1235-1304 | An acceptance starts only on a token that verifies against the row as it is at that moment, at its revision and before its deadline. |
| Writes.InviteRefusals | crates/lenso-organization-invitation-postgres-plugin/src/storage.rs:234-244 | Creation is refused iff an invitation is pending for the same organization and normalised address; otherwise it commits. |
| Writes.InviteWrites | crates/lenso-organization-invitation-postgres-plugin/src/storage.rs:245-310 | All 22 columns of a new row, its deadline `ttl` from now among them, the answered view, the queued notification, the activity, the number and the ledger row. |
| Writes.ResendRefusals | crates/lenso-organization-invitation-postgres-plugin/src/storage.rs:418-438 | Not found, moved revision, ended and running acceptance are refused in this order, each iff its condition holds, and change nothing. |
| Writes.ResendWrites | crates/lenso-organization-invitation-postgres-plugin/src/storage.rs:439-502 | The columns a resend moves, its deadline `ttl` from now, the superseded and the queued notification, activity, ledger row and answered view; nothing else. |
| Writes.RevokeRefusals | crates/lenso-organization-invitation-postgres-plugin/src/storage.rs:540-560 | The same order of refusals for a revocation. |
| Writes.RevokeWrites | crates/lenso-organization-invitation-postgres-plugin/src/storage.rs:561-607 | The columns a revocation moves, the superseded notification, the queued lifecycle notice, activity, ledger row and answered view; nothing else. |
| Writes.AcceptRefusals | crates/lenso-organization-invitation-postgres-plugin/src/storage.rs:694-742 | Each refusal of `begin_accept` iff its condition on revision, state, subject, deadline and observed token, in order; only a late token changes anything. |
| Writes.OpenUntilDeadline | crates/lenso-organization-invitation-postgres-plugin/src/storage.rs:705-742 | On an open row presented with its own token an acceptance starts strictly before the deadline and expires the row from then on. |
| Writes.AcceptStartWrites | crates/lenso-organization-invitation-postgres-plugin/src/storage.rs:743-804 | The consumed row, the membership command already claimed for the lease time, the bound ledger row and the activity of a started acceptance; nothing else. |
| Writes.ExpiryRowWrites | crates/lenso-organization-invitation-postgres-plugin/src/storage.rs:1413-1444 | The columns of an expired row, its superseded notification, its lifecycle notice and its activity; nothing else. |
| Writes.LateAcceptExpires | crates/lenso-organization-invitation-postgres-plugin/src/storage.rs:717-737 | An acceptance past the deadline commits exactly that expiry under `system:accept` and leaves no ledger row. |
| Writes.CompletionAnswersReceipt | crates/lenso-organization-invitation-postgres-plugin/src/storage.rs:1459-1480 | Whatever `complete_accept` answers states the columns of the accepted row it leaves; a first completion is one revision on and carries the provider's membership. |
| Writes.CompletionWrites | crates/lenso-organization-invitation-postgres-plugin/src/storage.rs:846-898 | The accepted row, the settled command, the queued lifecycle notice, the member's activity and the answers of the bound ledger rows; nothing else. |
| Memberships.CallsAreTheSame | crates/lenso-organization-invitation-postgres-plugin/src/lib.rs:1430-1445 | All membership calls for one invitation, by any claim, carry the same key, organization and subject. |
| Memberships.NeverAKeyConflict | crates/lenso-organization-invitation-postgres-plugin/src/lib.rs:1459-1468 | An idempotent provider never answers such a call with a key conflict. |
| Memberships.AtMostOneMembership | crates/lenso-organization-invitation-postgres-plugin/src/lib.rs:1430-1496 | At most one membership results per invitation, across crashes, retries and reclaimed leases; an accepted row carries exactly the provider's. |
| Memberships.AcceptanceBecomesDue | crates/lenso-organization-invitation-postgres-plugin/src/storage.rs:1055-1066 | Every acceptance in progress has a time from which its command is claimable, even if every process that held it is gone. |
| Memberships.ClaimSpacingHolds | crates/lenso-organization-invitation-postgres-plugin/src/storage.rs:1055-1066 | Consecutive claims of a command are at least the shorter of lease and retry delay apart. |
| Memberships.ClaimsInAWindow | crates/lenso-organization-invitation-postgres-plugin/src/storage.rs:1161-1172 | So the number of claims in any window is bounded. |
| Backoff.DelayClosedForm | crates/lenso-organization-invitation-postgres-plugin/src/lib.rs:1899-1915 | On configured bounds the delay is min(base * 2^min(attempts-1,12), 86400) and nothing saturates. |
| Backoff.DelayMonotone | crates/lenso-organization-invitation-postgres-plugin/src/lib.rs:1899-1915 | The delay never decreases and is never below the base nor above a day. |
| Backoff.DelayDoubles | crates/lenso-organization-invitation-postgres-plugin/src/lib.rs:1899-1915 | The first delay is the base, each of the next twelve doubles the one before up to a day, and from the thirteenth on it stays. |
| Backoff.DelayReachesCap | crates/lenso-organization-invitation-postgres-plugin/src/lib.rs:1899-1915 | The cap is reached by some attempt if and only if the base is at least 22 seconds. |
| Worker.OnlyUnknownIsBounded | crates/lenso-organization-invitation-postgres-plugin/src/lib.rs:1883-1897 | Of the open outcomes only `Unknown` is bounded, exactly from the attempt limit on; an unreachable provider is always retried. |
| Worker.WantedCommandsReachTheirProvider | crates/lenso-organization-invitation-postgres-plugin/src/lib.rs:1640-1671 | On runs whose resends meet the condition no bad-data branch is taken: a held and wanted command reaches its provider. |
| Worker.CarrySettles | crates/lenso-organization-invitation-postgres-plugin/src/storage.rs:1113-1257 | What each committed decision leaves of its command: state, attempts, delay, error, and no lease. |
| Worker.CarryLeasesNothing | crates/lenso-organization-invitation-postgres-plugin/src/storage.rs:1384-1411 | Carrying out one command never puts another under a lease its holder had lost. |
| Attempts.OnlyFinishingEnds | crates/lenso-organization-invitation-postgres-plugin/src/storage.rs:1113-1257 | Nothing but a finishing step through the fence on a command completes or fails it. |
| Attempts.FailsAtFirstUnclearAttempt | crates/lenso-organization-invitation-postgres-plugin/src/lib.rs:1883-1897 | On every run whose workers act on the rounds of a command, it is failed iff an `Unknown` claim at or past the limit was acted on, that claim being its last and the first such; otherwise it is active or superseded. |
| Attempts.UnclearOnlyFailsAtTheLimit | crates/lenso-organization-invitation-postgres-plugin/src/lib.rs:1883-1897 | On runs where it sees only `Unknown`, and each claim is acted on, a command is claimed at most `max_command_attempts` times and fails exactly at that attempt. |
| Worker.RoundIsCarried | crates/lenso-organization-invitation-postgres-plugin/src/lib.rs:1899-1915 | Such a round is what the worker's fenced transaction does to the command it holds. |
| Outcomes.NoticeOutcomes | crates/lenso-organization-invitation-postgres-plugin/src/lib.rs:1593-1767 | A wanted notification is completed, with the provider's intent and delivery id, iff the directory answered active, the token derives and verifies, the link is valid and the notice was created; it waits iff a provider was unreachable or left it open below the limit; otherwise it fails, each cause with its code. |
| Outcomes.NoticeDelivery | crates/lenso-organization-invitation-postgres-plugin/src/storage.rs:1113-1141 | With it move only the delivery columns of the invitation pending at that generation: queued with exactly those ids, or failed. |
| Outcomes.ObservationOutcomes | crates/lenso-organization-invitation-postgres-plugin/src/lib.rs:1769-1879 | A wanted lifecycle notice is completed, with the observer's flag, iff observed; it waits or fails, each cause with its code; nothing but its command moves. |
| Outcomes.MembershipOutcomes | crates/lenso-organization-invitation-postgres-plugin/src/lib.rs:1521-1592 | A wanted membership command is completed, with the provider's receipt, iff a membership was answered, waits iff the provider was unreachable, and fails iff it conflicted or rejected. |
| Outcomes.AcceptanceRows | crates/lenso-organization-invitation-postgres-plugin/src/storage.rs:1187-1235 | With it the invitation is accepted with that membership, or expired and its request released, or as it was, with the activity of each. |
| Outcomes.UnwantedIsDiscarded | crates/lenso-organization-invitation-postgres-plugin/src/lib.rs:1513-1518 | A command the row read does not want is superseded, and nothing else moves. |
| Outcomes.LeaseSuffices | crates/lenso-organization-invitation-postgres-plugin/src/storage.rs:1384-1411 | On a consistent schema every execution that finds its lease commits. |
| Outcomes.LeaseIsNeeded | crates/lenso-organization-invitation-postgres-plugin/src/storage.rs:824-829 | Without it only a membership already completed is answered, and nothing changes. |
| Outcomes.TallyByState | crates/lenso-organization-invitation-postgres-plugin/src/lib.rs:1399-1416 | The counters of a batch are the numbers of executions that left their command completed or superseded, waiting, and failed. |
| Dispatch.BatchAccounting | crates/lenso-organization-invitation-postgres-plugin/src/lib.rs:1386-1416 | A batch that returns: processed = completed + retried + failed = claimed <= limit, over distinct commands, none left under the batch's lease. |
| Dispatch.BatchSpendsItsLeases | crates/lenso-organization-invitation-postgres-plugin/src/lib.rs:1399-1410 | However others interfere, no executed command is held under the batch's lease again. |
| Dispatch.BatchKeepsConsistency | crates/lenso-organization-invitation-postgres-plugin/src/lib.rs:1399-1410 | A batch keeps the invariant whatever providers answer and others commit, stale matches included. |
| Dispatch.OneClaimPerKey | crates/lenso-organization-invitation-postgres-plugin/src/storage.rs:985-1019 | A reserved dispatch key is never new again, whatever any run does. |
| Dispatch.AbortedStaysReserved | crates/lenso-organization-invitation-postgres-plugin/src/lib.rs:1386-1427 | A reservation an aborted batch left started is refused after every run in which nobody completes it. |
| Dispatch.BatchIsFirstClaimable | crates/lenso-organization-invitation-postgres-plugin/src/storage.rs:1047-1066 | A claim takes the first `limit` due commands nobody has locked, by the time they became available and id. |
| Dispatch.ClaimWrites | crates/lenso-organization-invitation-postgres-plugin/src/storage.rs:1047-1078 | Each claimed command belongs to the organization and waited past its time or was in flight past its lease; its record counts one more attempt; it is leased for the configured time; no other command changes. |
| Dispatch.MoreIsDue | crates/lenso-organization-invitation-postgres-plugin/src/storage.rs:1080-1091 | `has_more` iff a command of the organization waits past its time or is in flight past its lease. |
| Dispatch.DispatchIsRecorded | crates/lenso-organization-invitation-postgres-plugin/src/storage.rs:1021-1045 | A batch that returns leaves its request answered with its result, for the caller, organization and time it was reserved by. |
| Dispatch.RunsAreReliedOn | crates/lenso-organization-invitation-postgres-plugin/src/storage.rs:188-1257 | Any run of the other processes' steps satisfies what a batch relies on between its transactions. |
| Service.Plugin.ExecuteCommand | crates/lenso-organization-invitation-postgres-plugin/src/lib.rs:1507-1881 | One unlocked match, the provider replies and one transaction, each a step of the protocol; on the tables it leaves, command, delivery, invitation and disposition are what the row read and the replies call for, or the lease was lost and nothing changed. |
| Service.Plugin.Work | crates/lenso-organization-invitation-postgres-plugin/src/lib.rs:1399-1410 | The loop executes the records in order and counts each by its disposition; it stops at the first storage error with the reservation standing. |
| Processes.DecisionIsAStep | crates/lenso-organization-invitation-postgres-plugin/src/lib.rs:1507-1881 | The transaction of a worker that holds its claim, discards only what it found stale and reports only a membership the provider answered is a step of the protocol. |
| Processes.WhileOthersRun | crates/lenso-organization-invitation-postgres-plugin/src/storage.rs:188-1257 | While other processes run, a process keeps its reservation and all it knows, and leases it lost stay lost. |
| Processes.Surroundings.AddMember | crates/lenso-organization-invitation-postgres-plugin/src/lib.rs:1430-1445 | The provider stores one membership per key, answers a known key with it or, for another organization or subject, with a conflict, and may lose its answer before or after taking effect. |
| Service.Plugin.DispatchDue | crates/lenso-organization-invitation-postgres-plugin/src/lib.rs:1352-1428 | Every outcome of a dispatch request; the counters are the executions by the state they left their command in, `has_more` iff a due command is left, and that answer is stored for the request; the world goes from a reachable one to one a run leads to. |
| Service.Plugin.RetryOrFailCommand | crates/lenso-organization-invitation-postgres-plugin/src/lib.rs:1883-1897 | Fails the command from the attempt limit on, and schedules a retry before it. |
| Service.Plugin.Accept | crates/lenso-organization-invitation-postgres-plugin/src/lib.rs:1235-1318 | Every outcome of an acceptance request, with the states its reads and transactions saw; success states the columns of an invitation the caller has accepted; the world goes from a reachable one to one a run leads to. |
| Traces.SuccessIsTheReceipt | crates/lenso-organization-invitation-postgres-plugin/src/lib.rs:1235-1318 | From a reachable state every success of `accept`, replayed or not, states number, organization, membership and revision of an accepted row whose subject is the caller; run by itself, of the row asked for. |
| Traces.AcceptIsRefused | crates/lenso-organization-invitation-postgres-plugin/src/lib.rs:1274-1304 | Each refusal of a new acceptance iff its condition on the row read, then on the row of its transaction, in order; only the expiry changes anything. |
| Traces.KnownAcceptIsAnswered | crates/lenso-organization-invitation-postgres-plugin/src/storage.rs:610-649 | A known key is answered with the stored receipt, as in progress, or refused for another request, and changes nothing. |
| Traces.AcceptanceConcludes | crates/lenso-organization-invitation-postgres-plugin/src/lib.rs:1430-1505 | A started acceptance that still has its lease succeeds iff the provider answered a membership, and leaves command, invitation, activity and ledger as that answer demands. |
| Service.Plugin.Resend | crates/lenso-organization-invitation-postgres-plugin/src/lib.rs:399-457 | The unlocked read, the derivation, the transaction and the disclosed token of a resend, as a run of the protocol; a token is handed out with a row, and a view of it, whose deadline is the configured time from the transaction. |
| Traces.HandedTokenOpensIff | crates/lenso-organization-invitation-postgres-plugin/src/lib.rs:424-456 | The token a resend hands out opens the invitation it leaves if and only if its unlocked read was at the expected revision. |
| Traces.ResentTokenWorks | crates/lenso-organization-invitation-postgres-plugin/src/storage.rs:453-464 | If so, at any later time at which the row is at the resend's revision, that token and revision start an acceptance strictly before the resend's time plus the configured time, and expire the row from then on. |
| Service.Plugin.Invite | crates/lenso-organization-invitation-postgres-plugin/src/lib.rs:262-309 | Creation for the normal form of the address, with the token of generation 1, as a step of the protocol; a token is handed out with a row, and a view of it, whose deadline is the configured time from now. |
| Traces.InvitedTokenOpens | crates/lenso-organization-invitation-postgres-plugin/src/lib.rs:262-309 | The token handed out opens the new invitation, at revision and generation 1 with its deadline the configured time from now, as the answer shows; no other pending invitation of the organization has an address with that normal form. |
| Traces.InvitedTokenWorks | crates/lenso-organization-invitation-postgres-plugin/src/storage.rs:258-271 | At any later time at which the row is at its first revision, that token and revision 1 start an acceptance strictly before the deadline and expire the row from then on. |
| Service.Plugin.Revoke | crates/lenso-organization-invitation-postgres-plugin/src/lib.rs:459-497 | A first request is refused in the order of the checks, or leaves the row revoked without a token and answers a view of it; a step of the protocol. |
| Service.Plugin.ExpireDue | crates/lenso-organization-invitation-postgres-plugin/src/lib.rs:1320-1350 | A first request changes exactly the rows it answers with, each pending, unaccepted and overdue in the organization, and reports more iff such a row is left; a step of the protocol. |
| Service.Plugin.ListInvitations | crates/lenso-organization-invitation-postgres-plugin/src/lib.rs:342-397 | At most `limit` invitations of the organization, with the state and normalised address asked for, as their rows show them, newest first; the cursor names the last of a full page; no such row is left out but those behind a cursor. |
| Drain.BatchIsFirstDue | crates/lenso-organization-invitation-postgres-plugin/src/storage.rs:931-940 | A batch is the first `limit` due rows nobody has locked, by deadline and id. |
| Drain.OneBatch | crates/lenso-organization-invitation-postgres-plugin/src/storage.rs:902-983 | It takes as many due rows as it may, leaves exactly the others due, and `has_more` is false iff none is left, locked or not. |
| Drain.ExpiresTheOverdue | crates/lenso-organization-invitation-postgres-plugin/src/storage.rs:931-957 | A batch changes a row iff it answers with it; such a row was in the organization, pending, unaccepted and past its deadline, and every one nobody locked is taken while there is room. |
| Drain.ReportsTheRest | crates/lenso-organization-invitation-postgres-plugin/src/storage.rs:958-983 | `has_more` iff a row of the organization is left pending, unaccepted and past its deadline; the answer is recorded for the request. |
| Drain.BatchWrites | crates/lenso-organization-invitation-postgres-plugin/src/storage.rs:941-957 | For each of its rows one terminal row, one lifecycle command, one activity and one item, in order; nothing else but their superseded notifications. |
| Drain.DrainTerminates | crates/lenso-organization-invitation-postgres-plugin/src/storage.rs:958-983 | With nothing skipped and a fixed clock, repeated batches under fresh keys empty the due rows after their count divided by the limit, rounded up, and `has_more` turns false exactly then. |
| Paging.WalkDescends | crates/lenso-organization-invitation-postgres-plugin/src/lib.rs:373-396 | Following the cursor over a changing table yields strictly descending (created_at, id), no row twice. |
| Paging.FinishedWalkIsComplete | crates/lenso-organization-invitation-postgres-plugin/src/storage.rs:353-375 | A finished walk returns exactly once every row that was there with the organization, state and address asked for throughout. |
| Paging.WalkStaysInScope | crates/lenso-organization-invitation-postgres-plugin/src/storage.rs:353-375 | Every row a walk has returned was, when its page was read, of the organization with the state and address asked for, and is of that organization ever after. |
| Paging.StaticWalkEnds | crates/lenso-organization-invitation-postgres-plugin/src/lib.rs:373-396 | On a static table the walk ends within as many pages as rows, with the sorted filtered list. |
| Paging.StaticWalk | crates/lenso-organization-invitation-postgres-plugin/src/lib.rs:373-396 | After n pages it has returned exactly as much of that list as the limits add up to, and is finished exactly when that is all. |
| Paging.StaticWalkReturns | crates/lenso-organization-invitation-postgres-plugin/src/storage.rs:353-375 | On a static table a walk over as many pages as wanted rows is finished, and a finished one has returned exactly the rows of the organization with the state and address asked for, newest first. |
| Paging.RunsAreSuccessive | crates/lenso-organization-invitation-postgres-plugin/src/storage.rs:353-375 | The tables read at any moments of any run are such changing tables. |
| Email.NormalizingIsIdempotent | crates/lenso-organization-invitation-postgres-plugin/src/lib.rs:746-779 | A normal form is its own normal form. |
| Email.AcceptsAddresses | crates/lenso-organization-invitation-postgres-plugin/src/lib.rs:746-779 | A text is accepted iff it is an address with blanks around it: atoms of listed characters joined by single dots, at most 64, an at sign, host labels of at most 63, at most 255. |
| Email.AddressIsAccepted | crates/lenso-organization-invitation-postgres-plugin/src/lib.rs:746-779 | It then becomes that address with its upper case ASCII letters lowered. |
| Email.LocalMeansAtoms | crates/lenso-organization-invitation-postgres-plugin/src/lib.rs:757-763 | The character checks of a local part mean that it is atoms joined by single dots. |
| Email.SpacesDoNotMatter | crates/lenso-organization-invitation-postgres-plugin/src/lib.rs:746-747 | Surrounding whitespace does not matter. |
| Email.CaseDoesNotMatter | crates/lenso-organization-invitation-postgres-plugin/src/lib.rs:746-779 | ASCII case does not matter, to acceptance or to the result. |
| Email.SameAddressIff | crates/lenso-organization-invitation-postgres-plugin/src/lib.rs:746-779 | Two accepted texts have one normal form iff they are blanks around texts of the same letters, ASCII case aside. |
| Email.LabelsMeanDomain | crates/lenso-organization-invitation-postgres-plugin/src/lib.rs:765-777 | The label-by-label check is exactly a condition on the positions of dots, hyphens and runs of 64 characters. |
| Email.NormalFormsAreText | crates/lenso-organization-invitation-postgres-plugin/src/storage.rs:226-228 | No normal form contains the separator. |
| Email.LockKeyIsInjective | crates/lenso-organization-invitation-postgres-plugin/src/storage.rs:226-228 | On validated organizations the advisory-lock text determines organization and address. |

## Left out

- Authorization, actor assertions, caller allowlists, secret resolution and activation: they gate requests and carry no state; of the configuration only the numeric bounds are kept.
- Request syntax other than the page and batch limits and the address: UUID texts, revision texts, idempotency keys and token texts are taken as parsed.
- Requests about organizations the directory reports inactive: `invite` and `resend` stop before any state is read.
- SQL text, pools, row decoding and JSON: each statement is its effect, and a database or commit failure is a transaction without effect.
- Row-lock waiting, deadlocks and lock order: transactions are atomic steps, and `SKIP LOCKED` is any set of skipped rows; the advisory lock and its hash are therefore only modelled as the text they lock.
- Transaction timestamps: `CURRENT_TIMESTAMP` is when a transaction began; the model reads one non-decreasing clock at the step itself.
- HMAC, Argon2id and SHA-256: derivation, verification and request hashes are abstract as described above.
- Base64, RFC 3339 and URL encoding: a cursor is its (time, id) pair, an identifier `INV-n` its number, a link its (invitation, token, revision).
- 64-bit overflow of revisions, generations, attempts and sequence numbers: the model counts without bound, so the overflow errors do not occur in it.
- Notification and directory providers: any reply at any time; no bound on attempts under runtime failures is claimed, and a provider call of a stale worker may still succeed after another worker recorded a rejection.
- Activity evidence documents, display fields of notification requests, `get_invitation` and audit reading: no state depends on them.
- Other processes inside `Service.Plugin`: the method `Others` stands for them; its contract, any run of the protocol that leaves this process's reservation alone, is all a caller knows, and its body is only the case where none of them does anything.
- Ownership of dispatch reservations: in `Protocol` any process may complete any reservation; `Dispatch.RunsAreReliedOn` takes the runs in which only its owner completes this one, as the code does.
- The generated capability code, the agent-tools adapter, operator and schema modules: plumbing without state of their own.
