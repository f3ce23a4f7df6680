/** The invariant of the owned schema across its tables, and the facts a reader takes from it. */
module Consistency {
  import opened Schema
  import opened Storage

  // ------------------------------------------------------------------- rows

  function Bit(b: bool): int {
    if b then 1 else 0
  }

  /** One invitation row: the CHECK constraints of its table, the revision law, and where the verifier,
      the membership and the delivery state may stand. */
  predicate RowOk(row: Invitation) {
    && row.number >= 1
    && row.tokenGeneration >= 1
    && row.revision == row.tokenGeneration + Bit(row.acceptanceSubject.Some?) + Bit(!row.state.Pending?)
    && (row.tokenHash.Some? <==> row.state.Pending? && row.acceptanceSubject.None?)
    && (row.membershipId.Some? <==> row.state.Accepted?)
    && (row.state.Accepted? ==> row.acceptanceSubject.Some? && row.acceptedAt.Some?)
    && (row.state.Revoked? ==> row.acceptanceSubject.None? && row.revokedAt.Some?)
    && (row.state.Expired? ==> row.expiredAt.Some?)
    && (row.state.Revoked? || row.state.Expired? ==> !row.delivery.DeliveryPending?)
  }

  predicate RowsOk(invitations: Invitations) {
    forall i | i in invitations :: RowOk(invitations[i])
  }

  // ---------------------------------------------------- numbers and addresses

  predicate HasNumber(invitations: Invitations, organization: Name, n: int) {
    exists i :: i in invitations && invitations[i].organization == organization && invitations[i].number == n
  }

  /** The numbers of an organization are 1 .. next-1, each used once. */
  ghost predicate NumbersOk(invitations: Invitations, sequences: Sequences) {
    && (forall o | o in sequences :: sequences[o] >= 1)
    && (forall i | i in invitations :: 1 <= invitations[i].number < NextNumber(sequences, invitations[i].organization))
    && (forall i, j | i in invitations && j in invitations &&
        invitations[i].organization == invitations[j].organization &&
                      invitations[i].number == invitations[j].number :: i == j)
    && (forall o: Name, n: int | 1 <= n < NextNumber(sequences, o) :: HasNumber(invitations, o, n))
  }

  /** The partial unique index on pending addresses. */
  predicate EmailsOk(invitations: Invitations) {
    forall i, j | i in invitations && j in invitations &&
                  invitations[i].state.Pending? && invitations[j].state.Pending? &&
                  invitations[i].organization == invitations[j].organization &&
                  invitations[i].emailNormalized == invitations[j].emailNormalized :: i == j
  }

  // ---------------------------------------------------------------- commands

  /** The command keys an invitation row has caused so far. */
  predicate Owed(row: Invitation, key: CommandKey) {
    match key
    case NotifyKey(_, generation) => 1 <= generation <= row.tokenGeneration
    case MembershipKey(_) => row.acceptanceSubject.Some?
    case LifecycleKey(_, lifecycle) => lifecycle == row.state && !row.state.Pending?
  }

  /** A notification command against its invitation. */
  predicate NotificationOk(generation: int, state: CommandState, row: Invitation) {
    && (state.Waiting? || state.InFlight? ==>
          generation == row.tokenGeneration && (row.state.Pending? || row.state.Accepted?))
    && (generation == row.tokenGeneration && row.state.Pending? && row.acceptanceSubject.None? ==>
          && (row.delivery.DeliveryPending? <==> state.Waiting? || state.InFlight?)
          && (row.delivery.DeliveryQueued? <==> state.Completed?)
          && (row.delivery.DeliveryFailed? <==> state.Failed?)
          && !state.Superseded?)
  }

  /** A membership command against its invitation. */
  predicate MembershipCommandOk(subject: Name, state: CommandState, row: Invitation) {
    && row.acceptanceSubject == Some(subject)
    && !state.Superseded?
    && (row.state.Pending? <==> state.Waiting? || state.InFlight?)
    && (row.state.Accepted? <==> state.Completed?)
    && (row.state.Expired? <==> state.Failed?)
  }

  predicate KindOk(kind: CommandKind, state: CommandState, row: Invitation) {
    match kind
    case NotifyInvitation(generation) => NotificationOk(generation, state, row)
    case NotifyLifecycle(_) => !state.Superseded?
    case AddMember(subject) => MembershipCommandOk(subject, state, row)
  }

  predicate CommandOk(command: Command, row: Invitation) {
    && command.organization == row.organization
    && command.key == KeyOf(command.invitation, command.kind)
    && Owed(row, command.key)
    && (command.state.InFlight? <==> command.lease.Some?)
    && command.attempts >= 0
    && (command.state.InFlight? || command.state.Completed? || command.state.Failed? ==> command.attempts >= 1)
    && KindOk(command.kind, command.state, row)
  }

  predicate CommandsOk(invitations: Invitations, commands: Commands) {
    forall c | c in commands ::
      commands[c].invitation in invitations && CommandOk(commands[c], invitations[commands[c].invitation])
  }

  predicate UniqueKeys(commands: Commands) {
    forall c, d | c in commands && d in commands && commands[c].key == commands[d].key :: c == d
  }

  /** Exactly the owed keys are in the outbox. */
  ghost predicate Census(invitations: Invitations, commands: Commands) {
    forall k: CommandKey :: HasKey(commands, k) <==> k.invitation in invitations && Owed(invitations[k.invitation], k)
  }

  // --------------------------------------------------------------- mutations

  predicate ResponseFits(operation: Operation, response: Response) {
    match operation
    case Invite => response.TokenResponse?
    case Resend => response.TokenResponse?
    case Revoke => response.ViewResponse?
    case Accept => response.AcceptedResponse?
    case ExpireDue => response.ExpireResponse?
    case DispatchDue => response.DispatchResponse?
  }

  /** An accept mutation is bound to a membership command, and stands where that command stands. */
  predicate BindingOk(m: Mutation, invitations: Invitations, commands: Commands) {
    && m.command.Some? && m.command.value in commands
    && var command := commands[m.command.value];
    && command.kind == AddMember(m.actor)
    && m.invitation == Some(command.invitation)
    && command.invitation in invitations
    && m.organization == invitations[command.invitation].organization
    && (m.status.Started? ==> Active(command))
    && (m.status.Finished? ==>
          && command.state.Completed?
          && m.response.Some? && m.response.value.AcceptedResponse?
          && ReceiptOf(m.response.value.record, command.invitation, invitations[command.invitation]))
  }

  predicate MutationOk(m: Mutation, invitations: Invitations, commands: Commands) {
    && (m.status.Finished? <==> m.response.Some?)
    && (m.status.Started? ==> m.operation.Accept? || m.operation.DispatchDue?)
    && (m.response.Some? ==> ResponseFits(m.operation, m.response.value))
    && (m.invitation.Some? ==> m.invitation.value in invitations)
    && (if m.operation.Accept? then BindingOk(m, invitations, commands) else m.command.None?)
  }

  predicate MutationsOk(mutations: Mutations, invitations: Invitations, commands: Commands) {
    forall k | k in mutations :: MutationOk(mutations[k], invitations, commands)
  }

  predicate Bound(mutations: Mutations, c: Uuid) {
    exists k :: k in mutations && mutations[k].command == Some(c)
  }

  /** One accept mutation at most for a membership command; one exactly while the command is not failed. */
  predicate BindingsOk(mutations: Mutations, commands: Commands) {
    && (forall k, l | k in mutations && l in mutations && mutations[k].command.Some? &&
        mutations[k].command == mutations[l].command :: k == l)
    && (forall c | c in commands && commands[c].kind.AddMember? :: Bound(mutations, c) <==> !commands[c].state.Failed?)
  }

  // ---------------------------------------------------------------- activity

  /** The revisions in an invitation's activity, oldest first. */
  function Revisions(activity: seq<Activity>, id: Uuid): seq<int> {
    if activity == [] then []
    else
      var last := activity[|activity| - 1];
      Revisions(activity[..|activity| - 1], id) + (if last.invitation == id then [last.revision] else [])
  }

  function UpTo(n: int): seq<int> {
    if n <= 0 then [] else UpTo(n - 1) + [n]
  }

  ghost predicate ActivityOk(invitations: Invitations, activity: seq<Activity>) {
    forall i: Uuid :: Revisions(activity, i) == UpTo(if i in invitations then invitations[i].revision else 0)
  }

  // --------------------------------------------------------------- the whole

  /** Invitations, outbox, activity and numbering agree. */
  ghost predicate RecordsOk(db: Database) {
    && RowsOk(db.invitations)
    && NumbersOk(db.invitations, db.sequences)
    && EmailsOk(db.invitations)
    && CommandsOk(db.invitations, db.commands)
    && UniqueKeys(db.commands)
    && Census(db.invitations, db.commands)
    && ActivityOk(db.invitations, db.activity)
  }

  /** The idempotency ledger agrees with them. */
  ghost predicate LedgerOk(db: Database) {
    && MutationsOk(db.mutations, db.invitations, db.commands)
    && BindingsOk(db.mutations, db.commands)
  }

  ghost predicate Consistent(db: Database) {
    RecordsOk(db) && LedgerOk(db)
  }

  const EMPTY := Database(map[], map[], map[], [], map[], 0)

  lemma EmptyIsConsistent(now: Time)
    ensures Consistent(EMPTY.(now := now))
  {
  }
}
