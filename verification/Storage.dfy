/** The committed effect of every storage transaction, as a function of the database it starts
    from: what it answers and the database it leaves. A transaction that ends before its commit
    leaves the database it found. Fresh UUIDs and the rows skipped as locked are parameters. */
module Storage {
  import opened Schema
  import opened Ordering

  // ------------------------------------------------------ idempotency ledger

  datatype Begin = New | Replay(response: Response) | Running | Conflict

  function BeginMutation(mutations: Mutations, r: Request): Begin {
    if r.key !in mutations then
      New
    else
      var m := mutations[r.key];
      if m.operation != r.operation || m.actor != r.actor || m.hash != r.hash then Conflict
      else if m.response.Some? then Replay(m.response.value)
      else Running
  }

  function StartedMutation(r: Request, organization: Name, now: Time): Mutation {
    Mutation(r.operation, r.actor, r.hash, organization, None, None, Started, None, now)
  }

  function CompletedMutation(r: Request, organization: Name, invitation: Option<Uuid>, response: Response,
                             now: Time): Mutation {
    Mutation(r.operation, r.actor, r.hash, organization, invitation, None, Finished, Some(response), now)
  }

  // ------------------------------------------------------------ row updates

  function NewInvitation(organization: Name, number: int, email: Name, emailNormalized: Name, inviter: Name,
                         tokenHash: Verifier, ttl: int, now: Time): Invitation
  {
    Invitation(organization, number, email, emailNormalized, Pending, inviter, None, None,
               Some(tokenHash), 1, now + ttl, None, 1, DeliveryPending, None, None,
               now, now, None, None, None, None)
  }

  function Rotated(row: Invitation, tokenHash: Verifier, ttl: int, now: Time): Invitation {
    row.(tokenHash := Some(tokenHash), tokenGeneration := row.tokenGeneration + 1, tokenExpiresAt := now + ttl,
         revision := row.revision + 1, delivery := DeliveryPending, intentId := None, deliveryId := None,
         updatedAt := now)
  }

  function StopDelivery(delivery: DeliveryState): DeliveryState {
    if delivery.DeliveryPending? then DeliverySuperseded else delivery
  }

  function RevokedRow(row: Invitation, reason: Name, now: Time): Invitation {
    row.(state := Revoked, tokenHash := None, revision := row.revision + 1, delivery := StopDelivery(row.delivery),
         revokeReason := Some(reason), revokedAt := Some(now), updatedAt := now)
  }

  function ExpiredRow(row: Invitation, now: Time): Invitation {
    row.(state := Expired, tokenHash := None, revision := row.revision + 1, delivery := StopDelivery(row.delivery),
         expiredAt := Some(now), updatedAt := now)
  }

  function ConsumedRow(row: Invitation, subject: Name, now: Time): Invitation {
    row.(acceptanceSubject := Some(subject), tokenHash := None, tokenConsumedAt := Some(now),
         revision := row.revision + 1, updatedAt := now)
  }

  function AcceptedRow(row: Invitation, membershipId: Name, now: Time): Invitation {
    row.(state := Accepted, membershipId := Some(membershipId), revision := row.revision + 1,
         acceptedAt := Some(now), updatedAt := now)
  }

  function NewCommand(organization: Name, invitation: Uuid, kind: CommandKind, now: Time): Command {
    Command(organization, invitation, kind, KeyOf(invitation, kind), Waiting, 0, now, None, None, None, now, now, None)
  }

  function ClaimedCommand(command: Command, lease: Uuid, leaseSeconds: int, now: Time): Command {
    command.(state := InFlight, attempts := command.attempts + 1, lease := Some(Lease(lease, now + leaseSeconds)),
             updatedAt := now)
  }

  function FinishedCommand(command: Command, state: CommandState, receipt: Option<Receipt>, error: Option<Name>,
                           now: Time): Command {
    command.(state := state, receipt := receipt, lastError := error, lease := None, updatedAt := now,
             completedAt := Some(now))
  }

  function SupersededCommand(command: Command, now: Time): Command {
    command.(state := Superseded, lease := None, updatedAt := now, completedAt := Some(now))
  }

  function RetriedCommand(command: Command, error: Name, delay: int, now: Time): Command {
    command.(state := Waiting, availableAt := now + delay, lease := None, lastError := Some(error), updatedAt := now)
  }

  predicate NotifiesActively(command: Command, id: Uuid) {
    command.invitation == id && command.kind.NotifyInvitation? && Active(command)
  }

  function SupersedeNotifications(commands: Commands, id: Uuid, now: Time): Commands {
    map c | c in commands ::
      if NotifiesActively(commands[c], id) then SupersededCommand(commands[c], now) else commands[c]
  }

  // ------------------------------------------------ insert with a unique key

  predicate HasKey(commands: Commands, key: CommandKey) {
    exists c :: c in commands && commands[c].key == key
  }

  ghost function KeyHolder(commands: Commands, key: CommandKey): (c: Uuid)
    requires HasKey(commands, key)
    ensures c in commands && commands[c].key == key
  {
    var c :| c in commands && commands[c].key == key;
    c
  }

  /** `INSERT ... ON CONFLICT(command_key) DO NOTHING`. */
  function InsertCommand(commands: Commands, id: Uuid, command: Command): Commands {
    if HasKey(commands, command.key) then commands else commands[id := command]
  }

  /** `SELECT command_id ... WHERE command_key=$1` after the insert. */
  ghost function InsertedId(commands: Commands, id: Uuid, key: CommandKey): Uuid {
    if HasKey(commands, key) then KeyHolder(commands, key) else id
  }

  /** The part every revision-moving transaction ends with: the row, its new outbox command and its
      activity are written together. */
  function Advance(db: Database, commands: Commands, id: Uuid, row: Invitation, commandId: Uuid, kind: CommandKind,
                   activity: ActivityKind, actor: Name): Database
  {
    db.(invitations := db.invitations[id := row],
        commands := InsertCommand(commands, commandId, NewCommand(row.organization, id, kind, db.now)),
        activity := db.activity + [Activity(row.organization, id, activity, actor, row.revision, db.now)])
  }

  function PutMutation(db: Database, key: MutationKey, m: Mutation): Database {
    db.(mutations := db.mutations[key := m])
  }

  // ------------------------------------------------------- client mutations

  predicate PendingEmail(invitations: Invitations, organization: Name, emailNormalized: Name) {
    exists i :: i in invitations && invitations[i].organization == organization &&
                invitations[i].emailNormalized == emailNormalized && invitations[i].state.Pending?
  }

  function NextNumber(sequences: Sequences, organization: Name): int {
    if organization in sequences then sequences[organization] else 1
  }

  function TokenReplay(response: Response): Outcome<TokenResult> {
    if response.TokenResponse? then Done(TokenResult(response.view, response.generation, false)) else Broken
  }

  ghost function CreateInvitation(db: Database, r: Request, id: Uuid, organization: Name, email: Name,
                                  emailNormalized: Name,
                                  tokenHash: Verifier, ttl: int, commandId: Uuid): (Database, Outcome<TokenResult>)
  {
    match BeginMutation(db.mutations, r)
    case Conflict => (db, Rejected(IdempotencyConflict))
    case Running => (db, Rejected(IdempotencyConflict))
    case Replay(response) => (db, TokenReplay(response))
    case New =>
      var number := NextNumber(db.sequences, organization);
      if PendingEmail(db.invitations, organization, emailNormalized) then (db, Rejected(InvitationExists))
      else if number <= 0 || id in db.invitations then (db, Broken)
      else
        var row := NewInvitation(organization, number, email, emailNormalized, r.actor, tokenHash, ttl, db.now);
        (Created(db, r, id, row, commandId), Done(TokenResult(View(id, row), 1, true)))
  }

  function Created(db: Database, r: Request, id: Uuid, row: Invitation, commandId: Uuid): Database {
    PutMutation(
      Advance(db.(sequences := db.sequences[row.organization := row.number + 1]), db.commands, id, row, commandId,
              NotifyInvitation(1), InvitationCreated, r.actor),
      r.key, CompletedMutation(r, row.organization, Some(id), TokenResponse(View(id, row), 1), db.now))
  }

  /** The checks a mutation makes on the row it has locked, in their order. */
  function Guard(invitations: Invitations, organization: Name, id: Uuid, expectedRevision: int): Option<DomainFailure> {
    if id !in invitations || invitations[id].organization != organization then Some(InvitationNotFound)
    else GuardRow(invitations[id], expectedRevision)
  }

  function GuardRow(row: Invitation, expectedRevision: int): Option<DomainFailure> {
    if row.revision != expectedRevision then Some(RevisionConflict)
    else if !row.state.Pending? then Some(InvalidTransition)
    else if row.acceptanceSubject.Some? then Some(AcceptanceInProgress)
    else None
  }

  ghost function ResendInvitation(db: Database, r: Request, organization: Name, id: Uuid, expectedRevision: int,
                                  tokenHash: Verifier, ttl: int, commandId: Uuid): (Database, Outcome<TokenResult>)
  {
    match BeginMutation(db.mutations, r)
    case Conflict => (db, Rejected(IdempotencyConflict))
    case Running => (db, Rejected(IdempotencyConflict))
    case Replay(response) => (db, TokenReplay(response))
    case New =>
      var failure := Guard(db.invitations, organization, id, expectedRevision);
      if failure.Some? then (db, Rejected(failure.value))
      else
        var row := Rotated(db.invitations[id], tokenHash, ttl, db.now);
        (Resent(db, r, id, row, commandId), Done(TokenResult(View(id, row), row.tokenGeneration, true)))
  }

  function Resent(db: Database, r: Request, id: Uuid, row: Invitation, commandId: Uuid): Database {
    PutMutation(
      Advance(db, SupersedeNotifications(db.commands, id, db.now), id, row, commandId,
              NotifyInvitation(row.tokenGeneration), InvitationResent, r.actor),
      r.key, CompletedMutation(r, row.organization, Some(id), TokenResponse(View(id, row), row.tokenGeneration),
                               db.now))
  }

  ghost function RevokeInvitation(db: Database, r: Request, organization: Name, id: Uuid, expectedRevision: int,
                                  reason: Name, commandId: Uuid): (Database, Outcome<InvitationView>)
  {
    match BeginMutation(db.mutations, r)
    case Conflict => (db, Rejected(IdempotencyConflict))
    case Running => (db, Rejected(IdempotencyConflict))
    case Replay(response) => (db, if response.ViewResponse? then Done(response.view) else Broken)
    case New =>
      var failure := Guard(db.invitations, organization, id, expectedRevision);
      if failure.Some? then (db, Rejected(failure.value))
      else
        var row := RevokedRow(db.invitations[id], reason, db.now);
        (RevokedDb(db, r, id, row, commandId), Done(View(id, row)))
  }

  function RevokedDb(db: Database, r: Request, id: Uuid, row: Invitation, commandId: Uuid): Database {
    PutMutation(
      Advance(db, SupersedeNotifications(db.commands, id, db.now), id, row, commandId,
              NotifyLifecycle(Revoked), InvitationRevoked, r.actor),
      r.key, CompletedMutation(r, row.organization, Some(id), ViewResponse(View(id, row)), db.now))
  }

  // -------------------------------------------------------------- acceptance

  /** `expire_locked_invitation` and the activity its callers add. `commands` is the command table as the
      transaction has it at that point. */
  function Expire(db: Database, commands: Commands, id: Uuid, commandId: Uuid, activity: ActivityKind,
                  actor: Name): Database
    requires id in db.invitations
  {
    Advance(db, SupersedeNotifications(commands, id, db.now), id, ExpiredRow(db.invitations[id], db.now), commandId,
            NotifyLifecycle(Expired), activity, actor)
  }

  const SYSTEM_ACCEPT: Name := "system:accept"
  const SYSTEM_MEMBERSHIP_FAILURE: Name := "system:membership-failure"

  ghost function BeginAccept(db: Database, r: Request, id: Uuid, expectedRevision: int, observedGeneration: int,
                             observedHash: Verifier, leaseSeconds: int, commandId: Uuid, lease: Uuid)
    : (Database, Outcome<AcceptStart>)
  {
    match BeginMutation(db.mutations, r)
    case Conflict => (db, Rejected(IdempotencyConflict))
    case Running => (db, Done(InProgress))
    case Replay(response) => (db, if response.AcceptedResponse? then Done(AcceptReplay(response.record)) else Broken)
    case New =>
      if id !in db.invitations then (db, Rejected(InvitationNotFound))
      else
        var row := db.invitations[id];
        var failure := GuardRow(row, expectedRevision);
        if failure.Some? then (db, Rejected(failure.value))
        else if row.tokenExpiresAt <= db.now then
          (Expire(db, db.commands, id, commandId, InvitationExpired, SYSTEM_ACCEPT), Rejected(InvitationExpiredFailure))
        else if row.tokenGeneration != observedGeneration || row.tokenHash != Some(observedHash) then
          (db, Rejected(TokenInvalid))
        else
          var holder := InsertedId(db.commands, commandId, MembershipKey(id));
          (AcceptStarted(db, r, id, leaseSeconds, commandId, holder, lease),
           Done(Execute(CommandRecord(holder, row.organization, id, AddMember(r.actor), MembershipKey(id), 1, lease))))
  }

  function AcceptStarted(db: Database, r: Request, id: Uuid, leaseSeconds: int, commandId: Uuid, holder: Uuid,
                         lease: Uuid): Database
    requires id in db.invitations
  {
    var row := db.invitations[id];
    var db' := Advance(db, db.commands, id, ConsumedRow(row, r.actor, db.now), commandId, AddMember(r.actor),
                       AcceptanceStarted, r.actor);
    var m := Mutation(Accept, r.actor, r.hash, row.organization, Some(id), Some(holder), Started, None, db.now);
    PutMutation(
      if holder in db'.commands then
        db'.(commands := db'.commands[holder := ClaimedCommand(db'.commands[holder], lease, leaseSeconds, db.now)])
      else db',
      r.key, m)
  }

  /** The lease fence: the row is in flight under exactly this record's lease. */
  predicate Fenced(commands: Commands, record: CommandRecord) {
    record.command in commands &&
    commands[record.command].state.InFlight? &&
    commands[record.command].lease.Some? &&
    commands[record.command].lease.value.token == record.lease
  }

  function SubjectOf(kind: CommandKind): Option<Name> {
    if kind.AddMember? then Some(kind.subject) else None
  }

  predicate BoundTo(m: Mutation, command: Uuid) {
    m.command == Some(command) && m.operation.Accept? && m.status.Started?
  }

  function CompleteBound(mutations: Mutations, command: Uuid, response: Response): Mutations {
    map k | k in mutations ::
      if BoundTo(mutations[k], command)
      then mutations[k].(status := Finished, response := Some(response))
      else mutations[k]
  }

  function ReleaseBound(mutations: Mutations, command: Uuid): Mutations {
    map k | k in mutations && !BoundTo(mutations[k], command) :: mutations[k]
  }

  ghost function CompleteAccept(db: Database, record: CommandRecord, membershipId: Name, providerRevision: Name,
                                commandId: Uuid): (Database, Outcome<AcceptedRecord>)
  {
    if record.command !in db.commands || record.invitation !in db.invitations then (db, Broken)
    else
      var row := db.invitations[record.invitation];
      if db.commands[record.command].state.Completed? then
        (db, var accepted := AcceptedRecordOf(record.invitation, row);
             if accepted.Some? then Done(accepted.value) else Broken)
      else if !Fenced(db.commands, record) then (db, Broken)
      else if !row.state.Pending? || row.acceptanceSubject != SubjectOf(record.kind) then (db, Broken)
      else
        var row' := AcceptedRow(row, membershipId, db.now);
        (AcceptanceCompleted(db, record, row', MembershipReceipt(membershipId, providerRevision), commandId),
         Done(AcceptedRecordOf(record.invitation, row').value))
  }

  const SYSTEM_MEMBERSHIP: Name := "system:membership"

  function AcceptanceCompleted(db: Database, record: CommandRecord, row: Invitation, receipt: Receipt,
                               commandId: Uuid): Database
    requires record.command in db.commands && AcceptedRecordOf(record.invitation, row).Some?
  {
    var finished := FinishedCommand(db.commands[record.command], Completed, Some(receipt), None, db.now);
    var actor := if row.acceptanceSubject.Some? then row.acceptanceSubject.value else SYSTEM_MEMBERSHIP;
    var response := AcceptedResponse(AcceptedRecordOf(record.invitation, row).value);
    Advance(db, db.commands[record.command := finished], record.invitation, row, commandId,
            NotifyLifecycle(Accepted), InvitationAccepted, actor)
    .(mutations := CompleteBound(db.mutations, record.command, response))
  }

  // ------------------------------------------------------------------ expiry

  predicate Due(row: Invitation, organization: Name, now: Time) {
    row.organization == organization && row.state.Pending? && row.acceptanceSubject.None? && row.tokenExpiresAt <= now
  }

  function DueDeadlines(invitations: Invitations, organization: Name, now: Time, locked: set<Uuid>): map<Uuid, Time> {
    map i | i in invitations && i !in locked && Due(invitations[i], organization, now) :: invitations[i].tokenExpiresAt
  }

  predicate AnyDue(invitations: Invitations, organization: Name, now: Time) {
    exists i :: i in invitations && Due(invitations[i], organization, now)
  }

  /** The rows `expire_due` locks: the first `limit` due rows it does not find locked. */
  function ExpiryBatch(db: Database, organization: Name, limit: int, locked: set<Uuid>): seq<Uuid> {
    Limited(Sorted(DueDeadlines(db.invitations, organization, db.now, locked)), limit)
  }

  /** The database after the first `n` rows of the batch are expired. */
  function ExpireRows(db: Database, ids: seq<Uuid>, newIds: seq<Uuid>, n: nat, actor: Name): Database
    requires n <= |ids| && n <= |newIds|
  {
    if n == 0 then db
    else
      var db' := ExpireRows(db, ids, newIds, n - 1, actor);
      if ids[n - 1] in db'.invitations
      then Expire(db', db'.commands, ids[n - 1], newIds[n - 1], InvitationExpired, actor)
      else db'
  }

  function ExpiredItems(invitations: Invitations, ids: seq<Uuid>): seq<ExpiredItem>
    requires forall n | 0 <= n < |ids| :: ids[n] in invitations
  {
    seq(|ids|, n requires 0 <= n < |ids| => ExpiredItem(ids[n], invitations[ids[n]].number,
                                                        invitations[ids[n]].revision + 1))
  }

  lemma {:induction false} BatchIsDue(db: Database, organization: Name, limit: int, locked: set<Uuid>)
    ensures var ids := ExpiryBatch(db, organization, limit, locked);
      && (forall n | 0 <= n < |ids| ::
            ids[n] in db.invitations && ids[n] !in locked && Due(db.invitations[ids[n]], organization, db.now))
      && (forall m, n | 0 <= m < n < |ids| :: ids[m] != ids[n])
      && |ids| <= (if limit <= 0 then 0 else limit)
  {
    var keys := DueDeadlines(db.invitations, organization, db.now, locked);
    SortedLists(keys);
  }

  ghost function ExpireDueInvitations(db: Database, r: Request, organization: Name, limit: int, locked: set<Uuid>,
                                      newIds: seq<Uuid>): (Database, Outcome<ExpireResult>)
    requires limit <= |newIds|
  {
    match BeginMutation(db.mutations, r)
    case Conflict => (db, Rejected(IdempotencyConflict))
    case Running => (db, Rejected(IdempotencyConflict))
    case Replay(response) => (db, if response.ExpireResponse? then Done(response.expiry) else Broken)
    case New =>
      BatchIsDue(db, organization, limit, locked);
      var ids := ExpiryBatch(db, organization, limit, locked);
      var db' := ExpireRows(db, ids, newIds, |ids|, r.actor);
      var result := ExpireResult(|ids|, ExpiredItems(db.invitations, ids),
                                 AnyDue(db'.invitations, organization, db.now));
      (PutMutation(db', r.key, CompletedMutation(r, organization, None, ExpireResponse(result), db.now)), Done(result))
  }

  // ---------------------------------------------------------------- dispatch

  ghost function BeginDispatch(db: Database, r: Request,
                               organization: Name): (Database, Outcome<Option<DispatchResult>>) {
    match BeginMutation(db.mutations, r)
    case Conflict => (db, Rejected(IdempotencyConflict))
    case Running => (db, Rejected(IdempotencyConflict))
    case Replay(response) => (db, if response.DispatchResponse? then Done(Some(response.dispatch)) else Broken)
    case New => (PutMutation(db, r.key, StartedMutation(r, organization, db.now)), Done(None))
  }

  function CompleteDispatch(db: Database, key: MutationKey, result: DispatchResult): (Database, Outcome<()>) {
    if key in db.mutations && db.mutations[key].operation.DispatchDue? && db.mutations[key].status.Started? then
      (PutMutation(db, key, db.mutations[key].(status := Finished, response := Some(DispatchResponse(result)))),
       Done(()))
    else (db, Broken)
  }

  /** Waiting and due, or in flight past its lease. */
  predicate Takeable(command: Command, now: Time) {
    (command.state.Waiting? && command.availableAt <= now) ||
    (command.state.InFlight? && command.lease.Some? && command.lease.value.until < now)
  }

  predicate Claimable(command: Command, organization: Name, now: Time) {
    command.organization == organization && Takeable(command, now)
  }

  function ClaimTimes(commands: Commands, organization: Name, now: Time, locked: set<Uuid>): map<Uuid, Time> {
    map c | c in commands && c !in locked && Claimable(commands[c], organization, now) :: commands[c].availableAt
  }

  function ClaimBatch(db: Database, organization: Name, limit: int, locked: set<Uuid>): seq<Uuid> {
    Limited(Sorted(ClaimTimes(db.commands, organization, db.now, locked)), limit)
  }

  lemma {:induction false} BatchIsClaimable(db: Database, organization: Name, limit: int, locked: set<Uuid>)
    ensures var ids := ClaimBatch(db, organization, limit, locked);
      && (forall n | 0 <= n < |ids| ::
            ids[n] in db.commands && ids[n] !in locked && Claimable(db.commands[ids[n]], organization, db.now))
      && (forall m, n | 0 <= m < n < |ids| :: ids[m] != ids[n])
      && |ids| <= (if limit <= 0 then 0 else limit)
  {
    SortedLists(ClaimTimes(db.commands, organization, db.now, locked));
  }

  /** The command table after the first `n` commands of the batch are leased. */
  function ClaimRows(commands: Commands, ids: seq<Uuid>, leases: seq<Uuid>, n: nat, leaseSeconds: int,
                     now: Time): Commands
    requires n <= |ids| && n <= |leases|
  {
    if n == 0 then commands
    else
      var commands' := ClaimRows(commands, ids, leases, n - 1, leaseSeconds, now);
      if ids[n - 1] in commands'
      then commands'[ids[n - 1] := ClaimedCommand(commands'[ids[n - 1]], leases[n - 1], leaseSeconds, now)]
      else commands'
  }

  function RecordOf(id: Uuid, command: Command, lease: Uuid): CommandRecord {
    CommandRecord(id, command.organization, command.invitation, command.kind, command.key, command.attempts, lease)
  }

  function ClaimRecords(commands: Commands, ids: seq<Uuid>, leases: seq<Uuid>): seq<CommandRecord>
    requires forall n | 0 <= n < |ids| :: ids[n] in commands
    requires |ids| <= |leases|
  {
    seq(|ids|, n requires 0 <= n < |ids| =>
      RecordOf(ids[n], commands[ids[n]].(attempts := commands[ids[n]].attempts + 1), leases[n]))
  }

  function ClaimDueCommands(db: Database, organization: Name, limit: int, leaseSeconds: int, locked: set<Uuid>,
                            leases: seq<Uuid>): (Database, seq<CommandRecord>)
    requires limit <= |leases|
  {
    BatchIsClaimable(db, organization, limit, locked);
    var ids := ClaimBatch(db, organization, limit, locked);
    (db.(commands := ClaimRows(db.commands, ids, leases, |ids|, leaseSeconds, db.now)),
     ClaimRecords(db.commands, ids, leases))
  }

  predicate HasDueCommands(db: Database, organization: Name) {
    exists c :: c in db.commands && Claimable(db.commands[c], organization, db.now)
  }

  /** `command_matches_invitation`: does the row read still want this command? */
  predicate Matches(kind: CommandKind, row: Invitation) {
    match kind
    case NotifyInvitation(generation) => row.state.Pending? && row.tokenHash.Some? && generation == row.tokenGeneration
    case NotifyLifecycle(lifecycle) => lifecycle == row.state
    case AddMember(subject) => row.state.Pending? && row.acceptanceSubject == Some(subject)
  }

  // ------------------------------------------------------ command completion

  predicate TakesReceipt(invitations: Invitations, record: CommandRecord) {
    record.kind.NotifyInvitation? && record.invitation in invitations &&
    invitations[record.invitation].state.Pending? &&
    invitations[record.invitation].tokenGeneration == record.kind.generation
  }

  function DeliveryUpdated(row: Invitation, delivery: DeliveryState, now: Time): Invitation {
    row.(delivery := delivery, updatedAt := now)
  }

  function CompleteNotification(db: Database, record: CommandRecord, intentId: Name,
                                deliveryId: Name): (Database, Outcome<()>) {
    if !Fenced(db.commands, record) then (db, Broken)
    else
      var finished := FinishedCommand(db.commands[record.command], Completed,
                                      Some(NotificationReceipt(intentId, deliveryId)), None, db.now);
      var invitations :=
        if TakesReceipt(db.invitations, record)
        then db.invitations[record.invitation :=
               DeliveryUpdated(db.invitations[record.invitation], DeliveryQueued,
                               db.now).(intentId := Some(intentId), deliveryId := Some(deliveryId))]
        else db.invitations;
      (db.(invitations := invitations, commands := db.commands[record.command := finished]), Done(()))
  }

  function CompleteLifecycle(db: Database, record: CommandRecord, recorded: bool): (Database, Outcome<()>) {
    if !Fenced(db.commands, record) then (db, Broken)
    else
      var finished := FinishedCommand(db.commands[record.command], Completed, Some(LifecycleReceipt(recorded)), None,
                                      db.now);
      (db.(commands := db.commands[record.command := finished]), Done(()))
  }

  function RetryCommand(db: Database, record: CommandRecord, error: Name, delay: int): (Database, Outcome<()>) {
    if !Fenced(db.commands, record) then (db, Broken)
    else
      var retried := RetriedCommand(db.commands[record.command], error, delay, db.now);
      (db.(commands := db.commands[record.command := retried]), Done(()))
  }

  function SupersedeCommand(db: Database, record: CommandRecord): (Database, Outcome<()>) {
    if !Fenced(db.commands, record) then (db, Broken)
    else (db.(commands := db.commands[record.command := SupersededCommand(db.commands[record.command], db.now)]),
          Done(()))
  }

  ghost function FailCommand(db: Database, record: CommandRecord, error: Name,
                             commandId: Uuid): (Database, Outcome<()>) {
    if !Fenced(db.commands, record) then (db, Broken)
    else
      var finished := FinishedCommand(db.commands[record.command], Failed, None, Some(error), db.now);
      var commands := db.commands[record.command := finished];
      match record.kind
      case NotifyInvitation(_) =>
        var invitations :=
          if TakesReceipt(db.invitations, record)
          then db.invitations[record.invitation :=
                 DeliveryUpdated(db.invitations[record.invitation], DeliveryFailed, db.now)]
          else db.invitations;
        (db.(invitations := invitations, commands := commands), Done(()))
      case NotifyLifecycle(_) => (db.(commands := commands), Done(()))
      case AddMember(_) =>
        if record.invitation !in db.invitations then (db, Broken)
        else if Matches(record.kind, db.invitations[record.invitation]) then
          (MembershipFailed(db, record, commands, commandId), Done(()))
        else (db.(commands := commands), Done(()))
  }

  function MembershipFailed(db: Database, record: CommandRecord, commands: Commands, commandId: Uuid): Database
    requires record.invitation in db.invitations
  {
    Expire(db, commands, record.invitation, commandId, AcceptanceFailed, SYSTEM_MEMBERSHIP_FAILURE)
    .(mutations := ReleaseBound(db.mutations, record.command))
  }
}
