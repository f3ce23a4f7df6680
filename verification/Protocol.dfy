/** The plugin as a state machine. A world is the database together with what its processes know: the
    claims they hold, the rows they read without a lock, the verdicts they reached on them, and the
    answers of the membership provider. Knowledge only grows, so a process may act on it at any later
    moment, or never: a crash is a step that is not taken. */
module Protocol {
  import opened Schema
  import opened Storage
  import opened Outbox
  import opened Backoff

  datatype Config = Config(tokenTtl: int, leaseSeconds: int, maxAttempts: int, retryBase: int)

  /** The configured bounds. */
  predicate ValidConfig(config: Config) {
    300 <= config.tokenTtl <= 2_592_000 && 30 <= config.leaseSeconds <= 3_600 &&
    1 <= config.maxAttempts <= 20 && ValidBase(config.retryBase)
  }

  datatype ClaimId = ClaimId(command: Uuid, attempt: int)

  /** A record handed out, and when. */
  datatype Claim = Claim(record: CommandRecord, at: Time)

  /** An invitation row read outside any transaction. */
  datatype Snapshot = Snapshot(invitation: Uuid, row: Invitation)

  /** A row on which the holder of a claim found its command still wanted. */
  datatype Matched = Matched(claim: ClaimId, row: Invitation)

  datatype Membership = Membership(organization: Name, subject: Name, id: Name)

  datatype Answer = Answer(claim: ClaimId, membershipId: Name)

  datatype World = World(
    db: Database,
    config: Config,
    claims: map<ClaimId, Claim>,
    snapshots: set<Snapshot>,
    matched: set<Matched>,
    stale: set<ClaimId>,
    memberships: map<CommandKey, Membership>,
    answers: set<Answer>)

  datatype Step =
    | Tick(to: Time)
    | StepInvite(r: Request, invitation: Uuid, organization: Name, email: Name, salt: nat, newId: Uuid)
    | StepRead(invitation: Uuid)
    | StepResend(r: Request, organization: Name, expectedRevision: int, snapshot: Snapshot, salt: nat, newId: Uuid)
    | StepRevoke(r: Request, organization: Name, invitation: Uuid, expectedRevision: int, reason: Name, newId: Uuid)
    | StepBeginAccept(r: Request, expectedRevision: int, token: Token, snapshot: Snapshot, newId: Uuid, lease: Uuid)
    | StepClaim(organization: Name, limit: int, locked: set<Uuid>, leases: seq<Uuid>)
    | StepMatch(claim: ClaimId)
    | StepSupersede(claim: ClaimId)
    | StepAddMember(claim: ClaimId, membershipId: Name)
    | StepAnswer(claim: ClaimId)
    | StepCompleteAccept(claim: ClaimId, membershipId: Name, providerRevision: Name, newId: Uuid)
    | StepCompleteNotification(claim: ClaimId, intentId: Name, deliveryId: Name)
    | StepCompleteLifecycle(claim: ClaimId, recorded: bool)
    | StepRetry(claim: ClaimId, error: Name)
    | StepFail(claim: ClaimId, error: Name, newId: Uuid)
    | StepExpireDue(r: Request, organization: Name, limit: int, locked: set<Uuid>, newIds: seq<Uuid>)
    | StepBeginDispatch(r: Request, organization: Name)
    | StepCompleteDispatch(key: MutationKey, result: DispatchResult)

  // ------------------------------------------------------------------- guards

  predicate UnusedLease(claims: map<ClaimId, Claim>, lease: Uuid) {
    forall id | id in claims :: claims[id].record.lease != lease
  }

  predicate UnusedLeases(claims: map<ClaimId, Claim>, leases: seq<Uuid>) {
    Distinct(leases) && forall n | 0 <= n < |leases| :: UnusedLease(claims, leases[n])
  }

  predicate HoldsClaim(w: World, id: ClaimId) {
    id in w.claims
  }

  predicate HoldsAddMember(w: World, id: ClaimId) {
    id in w.claims && w.claims[id].record.kind.AddMember?
  }

  /** What a process must know, and which identifiers must be new, before it takes a step. */
  predicate Enabled(w: World, s: Step) {
    match s
    case Tick(to) => w.db.now <= to
    case StepInvite(r, _, _, _, _, newId) => r.operation.Invite? && newId !in w.db.commands
    case StepRead(_) => true
    case StepResend(r, organization, _, snapshot, _, newId) =>
      r.operation.Resend? && newId !in w.db.commands && snapshot in w.snapshots &&
      snapshot.row.organization == organization
    case StepRevoke(r, _, _, _, _, newId) => r.operation.Revoke? && newId !in w.db.commands
    case StepBeginAccept(r, _, token, snapshot, newId, lease) =>
      r.operation.Accept? && newId !in w.db.commands && UnusedLease(w.claims, lease) && snapshot in w.snapshots &&
      snapshot.row.state.Pending? && snapshot.row.tokenHash.Some? && Verifies(token, snapshot.row.tokenHash.value)
    case StepClaim(_, limit, _, leases) => limit <= |leases| && UnusedLeases(w.claims, leases)
    case StepMatch(claim) => HoldsClaim(w, claim)
    case StepSupersede(claim) => HoldsClaim(w, claim) && claim in w.stale
    case StepAddMember(claim, _) => HoldsAddMember(w, claim)
    case StepAnswer(claim) => HoldsAddMember(w, claim)
    case StepCompleteAccept(claim, membershipId, _, newId) =>
      HoldsAddMember(w, claim) && Answer(claim, membershipId) in w.answers && newId !in w.db.commands
    case StepCompleteNotification(claim, _, _) => HoldsClaim(w, claim) && w.claims[claim].record.kind.NotifyInvitation?
    case StepCompleteLifecycle(claim, _) => HoldsClaim(w, claim) && w.claims[claim].record.kind.NotifyLifecycle?
    case StepRetry(claim, _) => HoldsClaim(w, claim)
    case StepFail(claim, _, newId) => HoldsClaim(w, claim) && newId !in w.db.commands
    case StepExpireDue(r, _, limit, _, newIds) =>
      r.operation.ExpireDue? && limit <= |newIds| && FreshIn(w.db.commands, newIds)
    case StepBeginDispatch(r, _) => r.operation.DispatchDue?
    case StepCompleteDispatch(_, _) => true
  }

  // ------------------------------------------------------------------ effects

  /** The verifier `invite` and `resend` store: of the token they derive. */
  function VerifierFor(invitation: Uuid, generation: int, salt: nat): Verifier {
    Verifier(Derived(invitation, generation), salt)
  }

  ghost function InviteOutcome(w: World, s: Step): (Database, Outcome<TokenResult>)
    requires s.StepInvite?
  {
    CreateInvitation(w.db, s.r, s.invitation, s.organization, s.email, s.email, VerifierFor(s.invitation, 1, s.salt),
                     w.config.tokenTtl, s.newId)
  }

  /** `resend` derives the token from the generation it read before the transaction. */
  ghost function ResendOutcome(w: World, s: Step): (Database, Outcome<TokenResult>)
    requires s.StepResend?
  {
    ResendInvitation(w.db, s.r, s.organization, s.snapshot.invitation, s.expectedRevision,
                     VerifierFor(s.snapshot.invitation, s.snapshot.row.tokenGeneration + 1,
                                 s.salt), w.config.tokenTtl, s.newId)
  }

  ghost function RevokeOutcome(w: World, s: Step): (Database, Outcome<InvitationView>)
    requires s.StepRevoke?
  {
    RevokeInvitation(w.db, s.r, s.organization, s.invitation, s.expectedRevision, s.reason, s.newId)
  }

  ghost function AcceptOutcome(w: World, s: Step): (Database, Outcome<AcceptStart>)
    requires s.StepBeginAccept? && s.snapshot.row.tokenHash.Some?
  {
    BeginAccept(w.db, s.r, s.snapshot.invitation, s.expectedRevision, s.snapshot.row.tokenGeneration,
                s.snapshot.row.tokenHash.value, w.config.leaseSeconds, s.newId, s.lease)
  }

  ghost function CompletionOutcome(w: World, s: Step): (Database, Outcome<AcceptedRecord>)
    requires s.StepCompleteAccept? && HoldsClaim(w, s.claim)
  {
    CompleteAccept(w.db, w.claims[s.claim].record, s.membershipId, s.providerRevision, s.newId)
  }

  function ClaimIdOf(record: CommandRecord): ClaimId {
    ClaimId(record.command, record.attempts)
  }

  function WithClaim(w: World, record: CommandRecord): World {
    w.(claims := w.claims[ClaimIdOf(record) := Claim(record, w.db.now)])
  }

  /** Hand out the first `n` records of a claimed batch. */
  function WithClaims(w: World, records: seq<CommandRecord>, n: nat): World
    requires n <= |records|
  {
    if n == 0 then w else WithClaim(WithClaims(w, records, n - 1), records[n - 1])
  }

  ghost function AfterAccept(w: World, s: Step): World
    requires s.StepBeginAccept? && s.snapshot.row.tokenHash.Some?
  {
    var (db, outcome) := AcceptOutcome(w, s);
    var w' := w.(db := db);
    if outcome.Done? && outcome.value.Execute? then WithClaim(w', outcome.value.claimed) else w'
  }

  function AfterClaim(w: World, organization: Name, limit: int, locked: set<Uuid>, leases: seq<Uuid>): World
    requires limit <= |leases|
  {
    var (db, records) := ClaimDueCommands(w.db, organization, limit, w.config.leaseSeconds, locked, leases);
    WithClaims(w.(db := db), records, |records|)
  }

  /** The unlocked `command_matches_invitation`. */
  function AfterMatch(w: World, id: ClaimId): World
    requires HoldsClaim(w, id)
  {
    var record := w.claims[id].record;
    if record.invitation in w.db.invitations && Matches(record.kind, w.db.invitations[record.invitation])
    then w.(matched := w.matched + {Matched(id, w.db.invitations[record.invitation])})
    else w.(stale := w.stale + {id})
  }

  /** The provider applies `add_member` under its idempotency key, once. */
  function AfterAddMember(w: World, id: ClaimId, membershipId: Name): World
    requires HoldsAddMember(w, id)
  {
    var record := w.claims[id].record;
    if record.key in w.memberships then w
    else
      w.(memberships := w.memberships[record.key :=
        Membership(record.organization, record.kind.subject, membershipId)])
  }

  /** The provider's verdict on a call: a stored membership for the same request is replayed, for another one
      it is an idempotency conflict, and without a membership there is nothing to answer yet. */
  datatype Verdict = NotApplied | Member(id: Name) | KeyConflict

  function VerdictOn(w: World, id: ClaimId): Verdict
    requires HoldsAddMember(w, id)
  {
    var record := w.claims[id].record;
    if record.key !in w.memberships then NotApplied
    else
      var m := w.memberships[record.key];
      if m.organization == record.organization && m.subject == record.kind.subject then Member(m.id) else KeyConflict
  }

  function AfterAnswer(w: World, id: ClaimId): World
    requires HoldsAddMember(w, id)
  {
    var verdict := VerdictOn(w, id);
    if verdict.Member? then w.(answers := w.answers + {Answer(id, verdict.id)}) else w
  }

  function RetryDelay(w: World, id: ClaimId): int
    requires HoldsClaim(w, id)
  {
    Delay(w.config.retryBase, w.claims[id].record.attempts)
  }

  ghost function Next(w: World, s: Step): World
    requires Enabled(w, s)
  {
    match s
    case Tick(to) => w.(db := w.db.(now := to))
    case StepInvite(_, _, _, _, _, _) => w.(db := InviteOutcome(w, s).0)
    case StepRead(id) =>
      if id in w.db.invitations then w.(snapshots := w.snapshots + {Snapshot(id, w.db.invitations[id])}) else w
    case StepResend(_, _, _, _, _, _) => w.(db := ResendOutcome(w, s).0)
    case StepRevoke(_, _, _, _, _, _) => w.(db := RevokeOutcome(w, s).0)
    case StepBeginAccept(_, _, _, _, _, _) => AfterAccept(w, s)
    case StepClaim(organization, limit, locked, leases) => AfterClaim(w, organization, limit, locked, leases)
    case StepMatch(id) => AfterMatch(w, id)
    case StepSupersede(id) => w.(db := SupersedeCommand(w.db, w.claims[id].record).0)
    case StepAddMember(id, membershipId) => AfterAddMember(w, id, membershipId)
    case StepAnswer(id) => AfterAnswer(w, id)
    case StepCompleteAccept(id, membershipId, providerRevision, newId) =>
      w.(db := CompleteAccept(w.db, w.claims[id].record, membershipId, providerRevision, newId).0)
    case StepCompleteNotification(id, intentId, deliveryId) =>
      w.(db := CompleteNotification(w.db, w.claims[id].record, intentId, deliveryId).0)
    case StepCompleteLifecycle(id, recorded) => w.(db := CompleteLifecycle(w.db, w.claims[id].record, recorded).0)
    case StepRetry(id, error) => w.(db := RetryCommand(w.db, w.claims[id].record, error, RetryDelay(w, id)).0)
    case StepFail(id, error, newId) => w.(db := FailCommand(w.db, w.claims[id].record, error, newId).0)
    case StepExpireDue(r, organization, limit, locked, newIds) =>
      w.(db := ExpireDueInvitations(w.db, r, organization, limit, locked, newIds).0)
    case StepBeginDispatch(r, organization) => w.(db := BeginDispatch(w.db, r, organization).0)
    case StepCompleteDispatch(key, result) => w.(db := CompleteDispatch(w.db, key, result).0)
  }

  // -------------------------------------------------------------- step kinds

  /** The mutations of clients. */
  predicate Mutates(s: Step) {
    s.StepInvite? || s.StepResend? || s.StepRevoke? || s.StepBeginAccept?
  }

  /** The steps by which the holder of a claim finishes with its command. */
  predicate Finishes(s: Step) {
    s.StepSupersede? || s.StepCompleteAccept? || s.StepCompleteNotification? || s.StepCompleteLifecycle? ||
    s.StepRetry? || s.StepFail?
  }

  lemma FinisherHoldsItsClaim(w: World, s: Step)
    requires Enabled(w, s) && Finishes(s)
    ensures HoldsClaim(w, s.claim)
  {
  }

  /** The batch operations and their reservations. */
  predicate Batches(s: Step) {
    s.StepClaim? || s.StepExpireDue? || s.StepBeginDispatch? || s.StepCompleteDispatch?
  }

  /** Clock, reads and provider calls: no table changes. */
  predicate Observes(s: Step) {
    s.Tick? || s.StepRead? || s.StepMatch? || s.StepAddMember? || s.StepAnswer?
  }

  lemma ObservingChangesNoTable(w: World, s: Step)
    requires Enabled(w, s) && Observes(s)
    ensures w.db.now <= Next(w, s).db.now && Next(w, s).db == w.db.(now := Next(w, s).db.now)
  {
  }

  // --------------------------------------------------------------------- runs

  ghost predicate CanRun(w: World, steps: seq<Step>)
    decreases |steps|
  {
    steps == [] || (Enabled(w, steps[0]) && CanRun(Next(w, steps[0]), steps[1..]))
  }

  ghost function Run(w: World, steps: seq<Step>): World
    requires CanRun(w, steps)
    decreases |steps|
  {
    if steps == [] then w else Run(Next(w, steps[0]), steps[1..])
  }

  /** A freshly migrated schema. */
  function Init(config: Config, now: Time): World {
    World(Database(map[], map[], map[], [], map[], now), config, map[], {}, {}, {}, map[], {})
  }
}
