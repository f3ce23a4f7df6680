/** The five tables of the plugin-owned schema as values: rows, table maps and the
    projections of a row that leave the database. A UUID is its 128-bit number, a
    timestamp a number of seconds, and an `INV-n` identifier its number `n`. */
module Schema {

  datatype Option<+T> = None | Some(value: T)

  type Uuid = nat
  type Time = int
  type Name = string

  // ------------------------------------------------------------------ tokens

  /** A token text: the one derived for an invitation and a generation, or any other text.
      Derivation is injective, so the pair stands for the derived text. */
  datatype Token = Derived(invitation: Uuid, generation: int) | Foreign(text: Name)

  /** A salted verifier of a token. */
  datatype Verifier = Verifier(token: Token, salt: nat)

  predicate Verifies(token: Token, verifier: Verifier) {
    token == verifier.token
  }

  // ------------------------------------------------------------- invitations

  datatype InvitationState = Pending | Accepted | Revoked | Expired

  datatype DeliveryState = DeliveryPending | DeliveryQueued | DeliveryFailed | DeliverySuperseded

  datatype Invitation = Invitation(
    organization: Name,
    number: int,
    email: Name,
    emailNormalized: Name,
    state: InvitationState,
    inviter: Name,
    acceptanceSubject: Option<Name>,
    membershipId: Option<Name>,
    tokenHash: Option<Verifier>,
    tokenGeneration: int,
    tokenExpiresAt: Time,
    tokenConsumedAt: Option<Time>,
    revision: int,
    delivery: DeliveryState,
    intentId: Option<Name>,
    deliveryId: Option<Name>,
    createdAt: Time,
    updatedAt: Time,
    acceptedAt: Option<Time>,
    revokedAt: Option<Time>,
    expiredAt: Option<Time>,
    revokeReason: Option<Name>)

  type Invitations = map<Uuid, Invitation>

  /** What a caller sees of an invitation. */
  datatype InvitationView = InvitationView(
    invitation: Uuid,
    number: int,
    organization: Name,
    email: Name,
    state: InvitationState,
    inviter: Name,
    acceptedSubject: Option<Name>,
    revision: int,
    tokenExpiresAt: Time,
    acceptancePending: bool,
    delivery: DeliveryState,
    createdAt: Time,
    updatedAt: Time,
    acceptedAt: Option<Time>,
    revokedAt: Option<Time>,
    expiredAt: Option<Time>)

  function View(id: Uuid, row: Invitation): InvitationView {
    InvitationView(id, row.number, row.organization, row.email, row.state, row.inviter,
                   if row.state.Accepted? then row.acceptanceSubject else None,
                   row.revision, row.tokenExpiresAt,
                   row.acceptanceSubject.Some? && row.state.Pending?,
                   row.delivery, row.createdAt, row.updatedAt, row.acceptedAt, row.revokedAt, row.expiredAt)
  }

  /** The view shows the row: who accepted it only once it is accepted, and whether somebody is accepting it. */
  predicate Shows(view: InvitationView, id: Uuid, row: Invitation) {
    && view.invitation == id && view.number == row.number && view.organization == row.organization
    && view.email == row.email && view.state == row.state && view.inviter == row.inviter
    && view.revision == row.revision && view.tokenExpiresAt == row.tokenExpiresAt && view.delivery == row.delivery
    && view.acceptedSubject == (if row.state == Accepted then row.acceptanceSubject else None)
    && (view.acceptancePending <==> row.state == Pending && row.acceptanceSubject.Some?)
    && view.createdAt == row.createdAt && view.updatedAt == row.updatedAt
    && view.acceptedAt == row.acceptedAt && view.revokedAt == row.revokedAt && view.expiredAt == row.expiredAt
  }

  datatype AcceptedRecord = AcceptedRecord(
    invitation: Uuid, number: int, organization: Name, membershipId: Name, revision: int)

  /** The acceptance receipt of a row; no receipt for a row that is not accepted. */
  function AcceptedRecordOf(id: Uuid, row: Invitation): Option<AcceptedRecord> {
    if row.state.Accepted? && row.membershipId.Some?
    then Some(AcceptedRecord(id, row.number, row.organization, row.membershipId.value, row.revision))
    else None
  }

  /** The record states the columns of an accepted row. */
  predicate ReceiptOf(record: AcceptedRecord, id: Uuid, row: Invitation) {
    && row.state.Accepted?
    && record.invitation == id && record.number == row.number && record.organization == row.organization
    && Some(record.membershipId) == row.membershipId && record.revision == row.revision
  }

  predicate IsReceipt(record: AcceptedRecord, invitations: Invitations) {
    record.invitation in invitations && ReceiptOf(record, record.invitation, invitations[record.invitation])
  }

  // ---------------------------------------------------------------- commands

  /** The `kind` column with the one payload column its CHECK constraint lets be set. */
  datatype CommandKind =
    | NotifyInvitation(generation: int)
    | NotifyLifecycle(lifecycle: InvitationState)
    | AddMember(subject: Name)

  /** The text of `command_key`, which is also the idempotency key sent to the provider. */
  datatype CommandKey =
    | NotifyKey(invitation: Uuid, generation: int)
    | LifecycleKey(invitation: Uuid, lifecycle: InvitationState)
    | MembershipKey(invitation: Uuid)

  function KeyOf(invitation: Uuid, kind: CommandKind): CommandKey {
    match kind
    case NotifyInvitation(generation) => NotifyKey(invitation, generation)
    case NotifyLifecycle(lifecycle) => LifecycleKey(invitation, lifecycle)
    case AddMember(_) => MembershipKey(invitation)
  }

  datatype CommandState = Waiting | InFlight | Completed | Failed | Superseded

  datatype Lease = Lease(token: Uuid, until: Time)

  datatype Receipt =
    | MembershipReceipt(membershipId: Name, revision: Name)
    | NotificationReceipt(intentId: Name, deliveryId: Name)
    | LifecycleReceipt(recorded: bool)

  datatype Command = Command(
    organization: Name,
    invitation: Uuid,
    kind: CommandKind,
    key: CommandKey,
    state: CommandState,
    attempts: int,
    availableAt: Time,
    lease: Option<Lease>,
    lastError: Option<Name>,
    receipt: Option<Receipt>,
    createdAt: Time,
    updatedAt: Time,
    completedAt: Option<Time>)

  type Commands = map<Uuid, Command>

  /** `state IN ('pending','in_flight')`. */
  predicate Active(command: Command) {
    command.state.Waiting? || command.state.InFlight?
  }

  /** What a worker holds after a claim. */
  datatype CommandRecord = CommandRecord(
    command: Uuid, organization: Name, invitation: Uuid, kind: CommandKind, key: CommandKey,
    attempts: int, lease: Uuid)

  // --------------------------------------------------------------- mutations

  datatype Operation = Invite | Resend | Revoke | Accept | ExpireDue | DispatchDue

  datatype MutationKey = MutationKey(caller: Name, key: Name)

  /** The identity of a client request: its ledger key and the three fields a replay must repeat. */
  datatype Request = Request(key: MutationKey, operation: Operation, actor: Name, hash: int)

  datatype ExpiredItem = ExpiredItem(invitation: Uuid, number: int, revision: int)

  datatype ExpireResult = ExpireResult(expired: int, items: seq<ExpiredItem>, hasMore: bool)

  datatype DispatchResult = DispatchResult(
    processed: int, completed: int, retryScheduled: int, permanentFailed: int, hasMore: bool)

  datatype Response =
    | TokenResponse(view: InvitationView, generation: int)
    | ViewResponse(view: InvitationView)
    | AcceptedResponse(record: AcceptedRecord)
    | ExpireResponse(expiry: ExpireResult)
    | DispatchResponse(dispatch: DispatchResult)

  datatype Status = Started | Finished

  datatype Mutation = Mutation(
    operation: Operation,
    actor: Name,
    hash: int,
    organization: Name,
    invitation: Option<Uuid>,
    command: Option<Uuid>,
    status: Status,
    response: Option<Response>,
    createdAt: Time)

  type Mutations = map<MutationKey, Mutation>

  // ---------------------------------------------------------------- activity

  datatype ActivityKind =
    | InvitationCreated | InvitationResent | AcceptanceStarted | InvitationAccepted
    | InvitationRevoked | InvitationExpired | AcceptanceFailed

  datatype Activity = Activity(
    organization: Name, invitation: Uuid, kind: ActivityKind, actor: Name, revision: int, createdAt: Time)

  // ---------------------------------------------------------------- database

  type Sequences = map<Name, int>

  /** One committed state of the owned schema, with the clock its transactions read. */
  datatype Database = Database(
    invitations: Invitations,
    commands: Commands,
    mutations: Mutations,
    activity: seq<Activity>,
    sequences: Sequences,
    now: Time)

  // ---------------------------------------------------------------- outcomes

  datatype DomainFailure =
    | InvitationNotFound | InvitationExists | RevisionConflict | IdempotencyConflict
    | InvalidTransition | TokenInvalid | InvitationExpiredFailure | AcceptanceInProgress

  /** `Ok(Ok(v))`, `Ok(Err(failure))` and `Err(StorageError)` of a storage function. */
  datatype Outcome<+T> = Done(value: T) | Rejected(failure: DomainFailure) | Broken

  datatype TokenResult = TokenResult(view: InvitationView, generation: int, disclose: bool)

  datatype AcceptStart = AcceptReplay(record: AcceptedRecord) | Execute(claimed: CommandRecord) | InProgress
}
