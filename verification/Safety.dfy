/** The invariant of the whole plugin and the two facts every run rests on: each step keeps it, and each
    step moves the database along `Evolves`. */
module Safety {
  import opened Schema
  import opened Storage
  import opened Consistency
  import opened Effects
  import opened Outbox
  import opened Evolution
  import opened Protocol
  import opened Leases
  import opened Backoff

  // --------------------------------------------------------------- knowledge

  /** A row read earlier is a past of the row that stands now. */
  predicate PastOf(id: Uuid, row: Invitation, invitations: Invitations) {
    id in invitations && RowOk(row) && RowEvolves(row, invitations[id])
  }

  predicate SnapshotsOk(snapshots: set<Snapshot>, invitations: Invitations) {
    forall s | s in snapshots :: PastOf(s.invitation, s.row, invitations)
  }

  predicate MatchedOk(matched: set<Matched>, claims: Claims, invitations: Invitations) {
    forall m | m in matched :: m.claim in claims && Matches(claims[m.claim].record.kind, m.row) &&
                               PastOf(claims[m.claim].record.invitation, m.row, invitations)
  }

  /** A record once found stale does not match its invitation now either. */
  predicate StaleOk(stale: set<ClaimId>, claims: Claims, invitations: Invitations) {
    forall id | id in stale :: id in claims && claims[id].record.invitation in invitations &&
                               !Matches(claims[id].record.kind, invitations[claims[id].record.invitation])
  }

  /** The provider's ledger and the answers taken from it. */
  predicate MembershipOk(key: CommandKey, m: Membership, invitations: Invitations) {
    key.MembershipKey? && key.invitation in invitations &&
    invitations[key.invitation].organization == m.organization &&
    invitations[key.invitation].acceptanceSubject == Some(m.subject)
  }

  predicate MembershipsOk(memberships: map<CommandKey, Membership>, invitations: Invitations) {
    forall k | k in memberships :: MembershipOk(k, memberships[k], invitations)
  }

  predicate AnswersOk(w: World) {
    forall a | a in w.answers :: a.claim in w.claims && w.claims[a.claim].record.key in w.memberships &&
                                 w.memberships[w.claims[a.claim].record.key].id == a.membershipId
  }

  /** An accepted invitation carries the provider's membership for its key. */
  predicate AcceptedOk(memberships: map<CommandKey, Membership>, invitations: Invitations) {
    forall i | i in invitations && invitations[i].state.Accepted? ::
      MembershipKey(i) in memberships && invitations[i].membershipId == Some(memberships[MembershipKey(i)].id)
  }

  ghost predicate KnowledgeOk(w: World) {
    && SnapshotsOk(w.snapshots, w.db.invitations)
    && MatchedOk(w.matched, w.claims, w.db.invitations)
    && StaleOk(w.stale, w.claims, w.db.invitations)
  }

  ghost predicate ProviderOk(w: World) {
    && MembershipsOk(w.memberships, w.db.invitations)
    && AnswersOk(w)
    && AcceptedOk(w.memberships, w.db.invitations)
  }

  ghost predicate WorldOk(w: World) {
    && ValidConfig(w.config)
    && Consistent(w.db)
    && ClaimsOk(w.db.commands, w.claims, w.config, w.db.now)
    && KnowledgeOk(w)
    && ProviderOk(w)
  }

  // ------------------------------------------------------ staleness is permanent

  /** Once an invitation no longer wants a command of its outbox, no later state of it does. */
  lemma StalenessIsPermanent(db: Database, db': Database, c: Uuid)
    requires Consistent(db) && Consistent(db') && Evolves(db, db') && c in db.commands
    requires !Matches(db.commands[c].kind, db.invitations[db.commands[c].invitation])
    ensures !db.commands[c].kind.NotifyLifecycle?
    ensures !Matches(db.commands[c].kind, db'.invitations[db.commands[c].invitation])
  {
    hide NumbersOk, EmailsOk, Census, UniqueKeys, ActivityOk, LedgerOk;
    CommandIsOk(db, c);
    CommandIsOk(db', c);
    var id := db.commands[c].invitation;
    assert CommandEvolves(db.commands[c], db'.commands[c]);
    assert RowEvolves(db.invitations[id], db'.invitations[id]);
  }

  // -------------------------------------------------------- the database part

  lemma ClaimIsHeld(w: World, id: ClaimId)
    requires WorldOk(w) && id in w.claims
    ensures Held(w.db.commands, w.claims[id].record)
    ensures w.claims[id].record.command == id.command && w.claims[id].record.attempts == id.attempt
    ensures w.claims[id].record.invitation in w.db.invitations
  {
    assert ClaimOk(id, w.claims[id], w.db.commands, w.db.now);
    CommandIsOk(w.db, id.command);
  }

  lemma StaleNow(w: World, id: ClaimId)
    requires WorldOk(w) && id in w.stale && id in w.claims
    ensures !Matches(w.claims[id].record.kind, w.db.invitations[w.claims[id].record.invitation])
    ensures w.claims[id].record.invitation in w.db.invitations
  {
  }

  // --------------------------------------------- what a client step commits, if anything

  function InvitedRow(w: World, s: Step): Invitation
    requires s.StepInvite?
  {
    NewInvitation(s.organization, NextNumber(w.db.sequences, s.organization), s.email, s.email, s.r.actor,
                  VerifierFor(s.invitation, 1, s.salt), w.config.tokenTtl, w.db.now)
  }

  lemma InviteCommits(w: World, s: Step)
    requires Enabled(w, s) && s.StepInvite?
    ensures Next(w, s).db == w.db ||
            (s.r.key !in w.db.mutations && s.invitation !in w.db.invitations &&
             Next(w, s).db == Created(w.db, s.r, s.invitation, InvitedRow(w, s), s.newId))
  {
    hide Created, PendingEmail, NewInvitation;
  }

  function ResentRow(w: World, s: Step): Invitation
    requires s.StepResend? && s.snapshot.invitation in w.db.invitations
  {
    Rotated(w.db.invitations[s.snapshot.invitation],
            VerifierFor(s.snapshot.invitation, s.snapshot.row.tokenGeneration + 1, s.salt),
            w.config.tokenTtl, w.db.now)
  }

  lemma ResendCommits(w: World, s: Step)
    requires Enabled(w, s) && s.StepResend?
    ensures Next(w, s).db == w.db ||
            (s.r.key !in w.db.mutations && s.snapshot.invitation in w.db.invitations &&
             Unaccepted(w.db.invitations[s.snapshot.invitation]) &&
             Next(w, s).db == Resent(w.db, s.r, s.snapshot.invitation, ResentRow(w, s), s.newId))
  {
    hide Resent, Rotated;
  }

  lemma RevokeCommits(w: World, s: Step)
    requires Enabled(w, s) && s.StepRevoke?
    ensures Next(w, s).db == w.db ||
            (s.r.key !in w.db.mutations && s.invitation in w.db.invitations &&
             Unaccepted(w.db.invitations[s.invitation]) &&
             Next(w, s).db == RevokedDb(w.db, s.r, s.invitation,
                                        RevokedRow(w.db.invitations[s.invitation], s.reason, w.db.now), s.newId))
  {
    hide RevokedDb, RevokedRow;
  }

  lemma AcceptCommits(w: World, s: Step)
    requires Enabled(w, s) && s.StepBeginAccept?
    ensures var db, id := w.db, s.snapshot.invitation;
      var holder := InsertedId(db.commands, s.newId, MembershipKey(id));
      Next(w, s).db == db ||
      (s.r.key !in db.mutations && id in db.invitations && Unaccepted(db.invitations[id]) &&
       (Next(w, s).db == Expire(db, db.commands, id, s.newId, InvitationExpired, SYSTEM_ACCEPT) ||
        Next(w, s).db == AcceptStarted(db, s.r, id, w.config.leaseSeconds, s.newId, holder, s.lease)))
  {
    hide Expire, AcceptStarted, InsertedId;
  }

  // ------------------------------------------------------------ the three kinds

  lemma MutationKeepsConsistency(w: World, s: Step)
    requires Consistent(w.db) && Enabled(w, s) && Mutates(s)
    ensures Consistent(Next(w, s).db)
  {
    hide Consistent, CreateInvitation, ResendInvitation, RevokeInvitation, BeginAccept;
    if s.StepInvite? {
      CreateIsConsistent(w.db, s.r, s.invitation, s.organization, s.email, s.email,
                         VerifierFor(s.invitation, 1, s.salt),
                         w.config.tokenTtl, s.newId);
    } else if s.StepResend? {
      ResendIsConsistent(w.db, s.r, s.organization, s.snapshot.invitation, s.expectedRevision,
                         VerifierFor(s.snapshot.invitation, s.snapshot.row.tokenGeneration + 1,
                                     s.salt), w.config.tokenTtl, s.newId);
    } else if s.StepRevoke? {
      RevokeIsConsistent(w.db, s.r, s.organization, s.invitation, s.expectedRevision, s.reason, s.newId);
    } else {
      BeginAcceptIsConsistent(w.db, s.r, s.snapshot.invitation, s.expectedRevision, s.snapshot.row.tokenGeneration,
                              s.snapshot.row.tokenHash.value, w.config.leaseSeconds, s.newId, s.lease);
    }
  }

  lemma FinishKeepsConsistency(w: World, s: Step)
    requires WorldOk(w) && Enabled(w, s) && Finishes(s)
    ensures Consistent(Next(w, s).db)
  {
    hide Consistent, KnowledgeOk, ProviderOk, ClaimsOk, CompleteAccept, FailCommand, CompleteNotification,
         CompleteLifecycle,
         RetryCommand, SupersedeCommand;
    var record := w.claims[s.claim].record;
    ClaimIsHeld(w, s.claim);
    if s.StepSupersede? {
      StaleNow(w, s.claim);
      SupersedeIsConsistent(w.db, record);
    } else if s.StepCompleteAccept? {
      CompleteAcceptIsConsistent(w.db, record, s.membershipId, s.providerRevision, s.newId);
    } else if s.StepCompleteNotification? {
      NotificationCompletionIsConsistent(w.db, record, s.intentId, s.deliveryId);
    } else if s.StepCompleteLifecycle? {
      LifecycleCompletionIsConsistent(w.db, record, s.recorded);
    } else if s.StepRetry? {
      RetryIsConsistent(w.db, record, s.error, RetryDelay(w, s.claim));
    } else {
      FailIsConsistent(w.db, record, s.error, s.newId);
    }
  }

  lemma BatchStepKeepsConsistency(w: World, s: Step)
    requires Consistent(w.db) && Enabled(w, s) && Batches(s)
    ensures Consistent(Next(w, s).db)
  {
    hide Consistent, BeginDispatch, CompleteDispatch, ExpireDueInvitations, ClaimDueCommands, AfterClaim;
    if s.StepClaim? {
      ClaimDueIsConsistent(w.db, s.organization, s.limit, w.config.leaseSeconds, s.locked, s.leases);
      ClaimDb(w, s.organization, s.limit, s.locked, s.leases);
    } else if s.StepExpireDue? {
      ExpireDueIsConsistent(w.db, s.r, s.organization, s.limit, s.locked, s.newIds);
    } else if s.StepBeginDispatch? {
      BeginDispatchIsConsistent(w.db, s.r, s.organization);
    } else {
      CompleteDispatchIsConsistent(w.db, s.key, s.result);
    }
  }

  /** Every step keeps the schema consistent. */
  lemma StepKeepsConsistency(w: World, s: Step)
    requires WorldOk(w) && Enabled(w, s)
    ensures Consistent(Next(w, s).db)
  {
    hide Consistent, KnowledgeOk, ProviderOk, ClaimsOk, Next, Enabled;
    if Mutates(s) {
      MutationKeepsConsistency(w, s);
    } else if Finishes(s) {
      FinishKeepsConsistency(w, s);
    } else if Batches(s) {
      BatchStepKeepsConsistency(w, s);
    } else {
      ObservingChangesNoTable(w, s);
      TickIsConsistent(w.db, Next(w, s).db.now);
    }
  }

  lemma TickIsConsistent(db: Database, to: Time)
    requires Consistent(db)
    ensures Consistent(db.(now := to))
  {
  }

  lemma {:induction false} HandedOut(w: World, records: seq<CommandRecord>, n: nat)
    requires n <= |records|
    ensures WithClaims(w, records, n) == w.(claims := WithClaims(w, records, n).claims)
  {
    if n > 0 { HandedOut(w, records, n - 1); }
  }

  lemma ClaimDb(w: World, organization: Name, limit: int, locked: set<Uuid>, leases: seq<Uuid>)
    requires limit <= |leases|
    ensures var claimed := ClaimDueCommands(w.db, organization, limit, w.config.leaseSeconds, locked, leases);
      var w' := AfterClaim(w, organization, limit, locked, leases);
      && w' == w.(db := claimed.0, claims := w'.claims)
  {
    hide ClaimDueCommands;
    var claimed := ClaimDueCommands(w.db, organization, limit, w.config.leaseSeconds, locked, leases);
    HandedOut(w.(db := claimed.0), claimed.1, |claimed.1|);
  }

  lemma MutationEvolvesDb(w: World, s: Step)
    requires Consistent(w.db) && Enabled(w, s) && Mutates(s)
    ensures Evolves(w.db, Next(w, s).db)
  {
    hide Consistent, CreateInvitation, ResendInvitation, RevokeInvitation, BeginAccept, Evolves;
    if s.StepInvite? {
      CreateEvolves(w.db, s.r, s.invitation, s.organization, s.email, s.email, VerifierFor(s.invitation, 1, s.salt),
                    w.config.tokenTtl, s.newId);
    } else if s.StepResend? {
      ResendEvolves(w.db, s.r, s.organization, s.snapshot.invitation, s.expectedRevision,
                    VerifierFor(s.snapshot.invitation, s.snapshot.row.tokenGeneration + 1,
                                s.salt), w.config.tokenTtl, s.newId);
    } else if s.StepRevoke? {
      RevokeEvolves(w.db, s.r, s.organization, s.invitation, s.expectedRevision, s.reason, s.newId);
    } else {
      BeginAcceptEvolves(w.db, s.r, s.snapshot.invitation, s.expectedRevision, s.snapshot.row.tokenGeneration,
                         s.snapshot.row.tokenHash.value, w.config.leaseSeconds, s.newId, s.lease);
    }
  }

  lemma FinishEvolvesDb(w: World, s: Step)
    requires WorldOk(w) && Enabled(w, s) && Finishes(s)
    ensures Evolves(w.db, Next(w, s).db)
  {
    hide Consistent, KnowledgeOk, ProviderOk, ClaimsOk, CompleteAccept, FailCommand, CompleteNotification,
         CompleteLifecycle,
         RetryCommand, SupersedeCommand, Evolves;
    var record := w.claims[s.claim].record;
    ClaimIsHeld(w, s.claim);
    if s.StepSupersede? {
      RetriesEvolve(w.db, record, "", 0);
    } else if s.StepCompleteAccept? {
      CompleteAcceptEvolves(w.db, record, s.membershipId, s.providerRevision, s.newId);
    } else if s.StepCompleteNotification? {
      CompletionsEvolve(w.db, record, s.intentId, s.deliveryId, false);
    } else if s.StepCompleteLifecycle? {
      CompletionsEvolve(w.db, record, "", "", s.recorded);
    } else if s.StepRetry? {
      RetriesEvolve(w.db, record, s.error, RetryDelay(w, s.claim));
    } else {
      FailEvolves(w.db, record, s.error, s.newId);
    }
  }

  lemma BatchEvolvesDb(w: World, s: Step)
    requires Consistent(w.db) && Enabled(w, s) && Batches(s)
    ensures Evolves(w.db, Next(w, s).db)
  {
    hide Consistent, BeginDispatch, CompleteDispatch, ExpireDueInvitations, ClaimDueCommands, AfterClaim, Evolves;
    if s.StepClaim? {
      ClaimDueEvolves(w.db, s.organization, s.limit, w.config.leaseSeconds, s.locked, s.leases);
      ClaimDb(w, s.organization, s.limit, s.locked, s.leases);
    } else if s.StepExpireDue? {
      ExpireDueEvolves(w.db, s.r, s.organization, s.limit, s.locked, s.newIds);
    } else if s.StepBeginDispatch? {
      DispatchEvolves(w.db, s.r, s.organization, DispatchResult(0, 0, 0, 0, false));
    } else {
      DispatchEvolves(w.db, Request(s.key, DispatchDue, "", 0), "", s.result);
    }
  }

  /** Every step moves the database along `Evolves`. */
  lemma StepEvolves(w: World, s: Step)
    requires WorldOk(w) && Enabled(w, s)
    ensures Evolves(w.db, Next(w, s).db)
  {
    hide Consistent, KnowledgeOk, ProviderOk, ClaimsOk, Next, Enabled, Evolves;
    if Mutates(s) {
      MutationEvolvesDb(w, s);
    } else if Finishes(s) {
      FinishEvolvesDb(w, s);
    } else if Batches(s) {
      BatchEvolvesDb(w, s);
    } else {
      ObservingChangesNoTable(w, s);
      TickEvolves(w.db, Next(w, s).db.now);
    }
  }

  lemma TickEvolves(db: Database, to: Time)
    requires db.now <= to
    ensures Evolves(db, db.(now := to))
  {
  }

  // ----------------------------------------------------------- the claims part

  /** Every step keeps claims and commands in agreement, and no step forgets a claim. */
  lemma StepKeepsClaims(w: World, s: Step)
    requires WorldOk(w) && Enabled(w, s)
    ensures var w' := Next(w, s);
      && ClaimsOk(w'.db.commands, w'.claims, w'.config, w'.db.now)
      && w'.config == w.config
      && forall id | id in w.claims :: id in w'.claims && w'.claims[id] == w.claims[id]
  {
    hide RecordsOk, LedgerOk, KnowledgeOk, ProviderOk, ClaimsOk, CreateInvitation, ResendInvitation, RevokeInvitation,
         BeginAccept,
         CompleteAccept, FailCommand, CompleteNotification, CompleteLifecycle, RetryCommand, SupersedeCommand,
         BeginDispatch, CompleteDispatch, ExpireDueInvitations, ClaimDueCommands, Quiet, AfterAccept, AfterClaim, Delay;
    QuietReflexive(w.db.commands);
    match s
    case StepBeginAccept(_, _, _, _, _, _) => AcceptStepKeepsClaims(w, s);
    case StepClaim(organization, limit, locked, leases) => ClaimStepKeepsClaims(w, organization, limit, locked, leases);
    case StepRetry(id, error) =>
      RetryKeepsClaims(w.db, w.claims, w.config, id, error);
      RetriesEvolve(w.db, w.claims[id].record, error, RetryDelay(w, id));
      RetryClock(w.db, w.claims[id].record, error, RetryDelay(w, id));
    case _ =>
      QuietStep(w, s);
      QuietKeepsClaims(w.db.commands, Next(w, s).db.commands, w.claims, w.config, w.db.now, Next(w, s).db.now);
  }

  lemma RetryClock(db: Database, record: CommandRecord, error: Name, delay: int)
    ensures RetryCommand(db, record, error, delay).0.now == db.now
  {
  }

  predicate ClaimsNothing(s: Step) {
    !s.StepBeginAccept? && !s.StepClaim? && !s.StepRetry?
  }

  lemma QuietStep(w: World, s: Step)
    requires WorldOk(w) && Enabled(w, s) && ClaimsNothing(s)
    ensures Quiet(w.db.commands, Next(w, s).db.commands) && w.db.now <= Next(w, s).db.now
    ensures Next(w, s).claims == w.claims && Next(w, s).config == w.config
  {
    hide RecordsOk, LedgerOk, KnowledgeOk, ProviderOk, ClaimsOk, CreateInvitation, ResendInvitation, RevokeInvitation,
         CompleteAccept, FailCommand, CompleteNotification, CompleteLifecycle, SupersedeCommand,
         ExpireDueInvitations, Quiet, CompleteDispatch, BeginDispatch;
    QuietReflexive(w.db.commands);
    StepEvolves(w, s);
    match s
    case StepInvite(_, _, _, _, _, _) => MutationsAreQuiet(w, s);
    case StepResend(_, _, _, _, _, _) => MutationsAreQuiet(w, s);
    case StepRevoke(_, _, _, _, _, _) => MutationsAreQuiet(w, s);
    case StepSupersede(id) => CompletionsAreQuiet(w.db, w.claims[id].record, "", "", false);
    case StepCompleteAccept(id, membershipId, providerRevision, newId) =>
      CompleteAcceptIsQuiet(w.db, w.claims[id].record, membershipId, providerRevision, newId);
    case StepCompleteNotification(id, intentId, deliveryId) =>
      CompletionsAreQuiet(w.db, w.claims[id].record, intentId, deliveryId, false);
    case StepCompleteLifecycle(id, recorded) => CompletionsAreQuiet(w.db, w.claims[id].record, "", "", recorded);
    case StepFail(id, error, newId) => FailIsQuiet(w.db, w.claims[id].record, error, newId);
    case StepExpireDue(r, organization, limit, locked, newIds) =>
      ExpireDueIsQuiet(w.db, r, organization, limit, locked, newIds);
    case StepBeginDispatch(r, organization) => DispatchCommands(w.db, r, organization,
                                                                DispatchResult(0, 0, 0, 0, false));
    case StepCompleteDispatch(key, result) => DispatchCommands(w.db, Request(key, DispatchDue, "", 0), "", result);
    case _ =>
  }

  lemma DispatchCommands(db: Database, r: Request, organization: Name, result: DispatchResult)
    ensures BeginDispatch(db, r, organization).0.commands == db.commands
    ensures CompleteDispatch(db, r.key, result).0.commands == db.commands
  {
  }

  lemma AcceptStepKeepsClaims(w: World, s: Step)
    requires WorldOk(w) && Enabled(w, s) && s.StepBeginAccept?
    ensures var w' := Next(w, s);
      && ClaimsOk(w'.db.commands, w'.claims, w'.config, w'.db.now)
      && w'.config == w.config
      && forall id | id in w.claims :: id in w'.claims && w'.claims[id] == w.claims[id]
  {
    hide RecordsOk, LedgerOk, KnowledgeOk, ProviderOk, ClaimsOk, Quiet, HasKey, Expire, CommandOk;
    var db, id := w.db, s.snapshot.invitation;
    QuietReflexive(db.commands);
    QuietKeepsClaims(db.commands, db.commands, w.claims, w.config, db.now, db.now);
    if BeginMutation(db.mutations, s.r).New? && id in db.invitations &&
       GuardRow(db.invitations[id], s.expectedRevision).None?
    {
      if db.invitations[id].tokenExpiresAt <= db.now {
        ExpireIsQuiet(db, db.commands, id, s.newId, InvitationExpired, SYSTEM_ACCEPT);
        ExpireClock(db, db.commands, id, s.newId, InvitationExpired, SYSTEM_ACCEPT);
        QuietKeepsClaims(db.commands, Next(w, s).db.commands, w.claims, w.config, db.now, db.now);
      } else if AcceptOutcome(w, s).1.Done? {
        AcceptStartedIsConsistent(db, s.r, id, w.config.leaseSeconds, s.newId, s.lease);
        var command := NewCommand(db.invitations[id].organization, id, AddMember(s.r.actor), db.now);
        AcceptKeepsClaims(db.commands, w.claims, w.config, db.now, s.newId, command, s.lease);
        FirstClaimIsNew(w, s.newId);
        var claimed := ClaimedCommand(command, s.lease, w.config.leaseSeconds, db.now);
        assert db.commands[s.newId := command][s.newId := claimed] == db.commands[s.newId := claimed];
      }
    }
  }

  lemma FirstClaimIsNew(w: World, c: Uuid)
    requires ClaimsOk(w.db.commands, w.claims, w.config, w.db.now) && c !in w.db.commands
    ensures ClaimId(c, 1) !in w.claims
  {
  }

  lemma ExpireClock(db: Database, commands: Commands, id: Uuid, commandId: Uuid, activity: ActivityKind, actor: Name)
    requires id in db.invitations
    ensures Expire(db, commands, id, commandId, activity, actor).now == db.now
  {
  }

  lemma ClaimStepKeepsClaims(w: World, organization: Name, limit: int, locked: set<Uuid>, leases: seq<Uuid>)
    requires WorldOk(w) && limit <= |leases| && UnusedLeases(w.claims, leases)
    ensures var w' := AfterClaim(w, organization, limit, locked, leases);
      && ClaimsOk(w'.db.commands, w'.claims, w'.config, w'.db.now)
      && w'.config == w.config
      && forall id | id in w.claims :: id in w'.claims && w'.claims[id] == w.claims[id]
  {
    hide RecordsOk, LedgerOk, KnowledgeOk, ProviderOk, ClaimsOk, ValidConfig;
    BatchIsClaimable(w.db, organization, limit, locked);
    var ids := ClaimBatch(w.db, organization, limit, locked);
    BatchKeepsClaims(w, ids, leases, |ids|,
                     ClaimDueCommands(w.db, organization, limit, w.config.leaseSeconds, locked, leases).0);
  }

  // -------------------------------------------------------- the knowledge part

  lemma PastStaysPast(id: Uuid, row: Invitation, db: Database, db': Database)
    requires PastOf(id, row, db.invitations) && Evolves(db, db')
    ensures PastOf(id, row, db'.invitations)
  {
    assert RowEvolves(db.invitations[id], db'.invitations[id]);
  }

  /** Knowledge about an earlier database is still true of a later one. */
  lemma KnowledgeKept(w: World, w': World)
    requires WorldOk(w) && Consistent(w'.db) && Evolves(w.db, w'.db)
    requires forall id | id in w.claims :: id in w'.claims && w'.claims[id] == w.claims[id]
    requires w'.snapshots == w.snapshots && w'.matched == w.matched && w'.stale == w.stale
    ensures KnowledgeOk(w')
  {
    hide Consistent, Evolves, RowEvolves, RowOk, ClaimsOk, ProviderOk, Matches;
    forall s | s in w'.snapshots ensures PastOf(s.invitation, s.row, w'.db.invitations) {
      PastStaysPast(s.invitation, s.row, w.db, w'.db);
    }
    forall m | m in w'.matched ensures PastOf(w'.claims[m.claim].record.invitation, m.row, w'.db.invitations) {
      PastStaysPast(w.claims[m.claim].record.invitation, m.row, w.db, w'.db);
    }
    forall id | id in w'.stale ensures w'.claims[id].record.invitation in w'.db.invitations &&
                                       !Matches(w'.claims[id].record.kind,
                                                w'.db.invitations[w'.claims[id].record.invitation]) {
      ClaimIsHeld(w, id);
      StaleNow(w, id);
      StalenessIsPermanent(w.db, w'.db, id.command);
      RowsPersist(w.db, w'.db, w.claims[id].record.invitation);
    }
  }

  lemma RowsPersist(db: Database, db': Database, i: Uuid)
    requires Evolves(db, db') && i in db.invitations
    ensures i in db'.invitations && RowEvolves(db.invitations[i], db'.invitations[i])
  {
  }

  lemma NowIsPast(w: World, i: Uuid)
    requires WorldOk(w) && i in w.db.invitations
    ensures PastOf(i, w.db.invitations[i], w.db.invitations)
  {
  }

  predicate Reads(s: Step) {
    s.StepRead? || s.StepMatch?
  }

  lemma StepKeepsKnowledge(w: World, s: Step)
    requires WorldOk(w) && Enabled(w, s)
    ensures KnowledgeOk(Next(w, s))
  {
    hide Consistent, Evolves, ClaimsOk, ProviderOk, Matches, RowOk, RowEvolves;
    StepKeepsConsistency(w, s);
    StepEvolves(w, s);
    StepKeepsClaims(w, s);
    match s
    case StepRead(id) => if id in w.db.invitations { NowIsPast(w, id); }
    case StepMatch(id) => ClaimIsHeld(w, id); NowIsPast(w, w.claims[id].record.invitation);
    case _ => StepReadsNothing(w, s); KnowledgeKept(w, Next(w, s));
  }

  lemma StepReadsNothing(w: World, s: Step)
    requires Enabled(w, s) && !Reads(s)
    ensures var w' := Next(w, s); w'.snapshots == w.snapshots && w'.matched == w.matched && w'.stale == w.stale
  {
    hide CreateInvitation, ResendInvitation, RevokeInvitation, BeginAccept, CompleteAccept, FailCommand,
         CompleteNotification,
         CompleteLifecycle, RetryCommand, SupersedeCommand, BeginDispatch, CompleteDispatch, ExpireDueInvitations,
         ClaimDueCommands;
    match s
    case StepClaim(organization, limit, locked, leases) => ClaimDb(w, organization, limit, locked, leases);
    case _ =>
  }

  // --------------------------------------------------------- the provider part

  /** No invitation is newly accepted. */
  predicate NoneAccepted(a: Invitations, b: Invitations) {
    forall i | i in b && b[i].state.Accepted? :: i in a && a[i].state.Accepted?
  }

  lemma ExpiryAcceptsNone(db: Database, r: Request, organization: Name, limit: int, locked: set<Uuid>,
                          newIds: seq<Uuid>)
    requires Consistent(db) && limit <= |newIds| && FreshIn(db.commands, newIds)
    ensures NoneAccepted(db.invitations, ExpireDueInvitations(db, r, organization, limit, locked, newIds).0.invitations)
  {
    hide Consistent, ExpireRows, ExpiryBatch, Due, AnyDue;
    BatchIsDue(db, organization, limit, locked);
    AfterRows(db, ExpiryBatch(db, organization, limit, locked), newIds, r.actor);
  }

  lemma IssuingAcceptsNone(w: World, s: Step)
    requires Enabled(w, s)
    ensures s.StepInvite? ==> NoneAccepted(w.db.invitations, InviteOutcome(w, s).0.invitations)
    ensures s.StepResend? ==> NoneAccepted(w.db.invitations, ResendOutcome(w, s).0.invitations)
  {
    hide PendingEmail, HasKey, SupersedeNotifications, InsertCommand, BeginMutation;
  }

  lemma RevokingAcceptsNone(w: World, s: Step)
    requires Enabled(w, s) && s.StepRevoke?
    ensures NoneAccepted(w.db.invitations, RevokeOutcome(w, s).0.invitations)
  {
    hide HasKey, SupersedeNotifications, InsertCommand, BeginMutation;
  }

  lemma StartingAcceptsNone(w: World, s: Step)
    requires Enabled(w, s) && s.StepBeginAccept?
    ensures NoneAccepted(w.db.invitations, AcceptOutcome(w, s).0.invitations)
  {
    hide InsertedId, BeginMutation, Expire, AcceptStarted;
    var db, id := w.db, s.snapshot.invitation;
    if id in db.invitations {
      AcceptWrites(db, s.r, id, w.config.leaseSeconds, s.newId, InsertedId(db.commands, s.newId, MembershipKey(id)),
                   s.lease);
    }
  }

  /** The row `begin_accept` writes, on either of its paths. */
  lemma AcceptWrites(db: Database, r: Request, id: Uuid, leaseSeconds: int, commandId: Uuid, holder: Uuid, lease: Uuid)
    requires id in db.invitations
    ensures AcceptStarted(db, r, id, leaseSeconds, commandId, holder, lease).invitations
              == db.invitations[id := ConsumedRow(db.invitations[id], r.actor, db.now)]
    ensures Expire(db, db.commands, id, commandId, InvitationExpired, SYSTEM_ACCEPT).invitations
              == db.invitations[id := ExpiredRow(db.invitations[id], db.now)]
  {
    hide HasKey, SupersedeNotifications, InsertCommand;
  }

  lemma SameAcceptsNone(invitations: Invitations)
    ensures NoneAccepted(invitations, invitations)
  {
  }

  lemma CompletingAcceptsNone(db: Database, record: CommandRecord, a: Name, b: Name, flag: bool, delay: int)
    ensures NoneAccepted(db.invitations, CompleteNotification(db, record, a, b).0.invitations)
    ensures CompleteLifecycle(db, record, flag).0.invitations == db.invitations
    ensures RetryCommand(db, record, a, delay).0.invitations == db.invitations
    ensures SupersedeCommand(db, record).0.invitations == db.invitations
  {
    hide Fenced;
  }

  lemma FailingAcceptsNone(db: Database, record: CommandRecord, error: Name, newId: Uuid)
    ensures NoneAccepted(db.invitations, FailCommand(db, record, error, newId).0.invitations)
  {
    hide HasKey, SupersedeNotifications, InsertCommand, Fenced;
  }

  lemma StepAcceptsNone(w: World, s: Step)
    requires WorldOk(w) && Enabled(w, s) && !s.StepCompleteAccept?
    ensures NoneAccepted(w.db.invitations, Next(w, s).db.invitations)
  {
    hide Consistent, KnowledgeOk, ProviderOk, ClaimsOk, InviteOutcome, ResendOutcome, RevokeOutcome, BeginAccept,
         NoneAccepted,
         CompleteAccept, FailCommand, CompleteNotification, CompleteLifecycle, RetryCommand, SupersedeCommand,
         ExpireDueInvitations;
    SameAcceptsNone(w.db.invitations);
    match s
    case StepInvite(_, _, _, _, _, _) => IssuingAcceptsNone(w, s);
    case StepResend(_, _, _, _, _, _) => IssuingAcceptsNone(w, s);
    case StepRevoke(_, _, _, _, _, _) => RevokingAcceptsNone(w, s);
    case StepBeginAccept(_, _, _, _, _, _) => StartingAcceptsNone(w, s);
    case StepClaim(organization, limit, locked, leases) => ClaimDb(w, organization, limit, locked, leases);
    case StepSupersede(id) => CompletingAcceptsNone(w.db, w.claims[id].record, "", "", false, 0);
    case StepCompleteNotification(id, a, b) => CompletingAcceptsNone(w.db, w.claims[id].record, a, b, false, 0);
    case StepCompleteLifecycle(id, flag) => CompletingAcceptsNone(w.db, w.claims[id].record, "", "", flag, 0);
    case StepRetry(id, error) => CompletingAcceptsNone(w.db, w.claims[id].record, error, "", false, RetryDelay(w, id));
    case StepFail(id, error, newId) => FailingAcceptsNone(w.db, w.claims[id].record, error, newId);
    case StepExpireDue(r, organization, limit, locked, newIds) =>
      ExpiryAcceptsNone(w.db, r, organization, limit, locked, newIds);
    case _ =>
  }

  /** What the holder of a membership claim sends: the invitation's own organization and subject, under its key. */
  lemma MembershipCall(w: World, id: ClaimId)
    requires WorldOk(w) && HoldsAddMember(w, id)
    ensures var record := w.claims[id].record;
      && record.invitation in w.db.invitations
      && record.key == MembershipKey(record.invitation)
      && record.organization == w.db.invitations[record.invitation].organization
      && w.db.invitations[record.invitation].acceptanceSubject == Some(record.kind.subject)
  {
    hide ClaimsOk, KnowledgeOk, ProviderOk;
    ClaimIsHeld(w, id);
    CommandIsOk(w.db, id.command);
  }

  lemma MembershipsKept(w: World, db': Database)
    requires WorldOk(w) && Evolves(w.db, db')
    ensures MembershipsOk(w.memberships, db'.invitations)
  {
    hide Consistent, ClaimsOk, KnowledgeOk;
    forall k | k in w.memberships ensures MembershipOk(k, w.memberships[k], db'.invitations) {
      assert MembershipOk(k, w.memberships[k], w.db.invitations);
      RowsPersist(w.db, db', k.invitation);
    }
  }

  lemma AcceptedKept(w: World, db': Database, memberships: map<CommandKey, Membership>)
    requires WorldOk(w) && Evolves(w.db, db') && NoneAccepted(w.db.invitations, db'.invitations)
    requires forall k | k in w.memberships :: k in memberships && memberships[k] == w.memberships[k]
    ensures AcceptedOk(memberships, db'.invitations)
  {
    hide Consistent, ClaimsOk, KnowledgeOk;
    forall i | i in db'.invitations && db'.invitations[i].state.Accepted?
      ensures MembershipKey(i) in memberships
      ensures db'.invitations[i].membershipId == Some(memberships[MembershipKey(i)].id)
    {
      RowsPersist(w.db, db', i);
    }
  }

  lemma AddingKeepsProvider(w: World, s: Step)
    requires WorldOk(w) && Enabled(w, s) && s.StepAddMember?
    ensures ProviderOk(Next(w, s))
  {
    hide Consistent, Evolves, ClaimsOk, KnowledgeOk;
    MembershipCall(w, s.claim);
    EvolvesReflexive(w.db);
    SameAcceptsNone(w.db.invitations);
    AcceptedKept(w, w.db, Next(w, s).memberships);
  }

  lemma AnsweringKeepsProvider(w: World, s: Step)
    requires WorldOk(w) && Enabled(w, s) && s.StepAnswer?
    ensures ProviderOk(Next(w, s))
  {
    hide Consistent, ClaimsOk, KnowledgeOk;
  }

  lemma AnswersKept(w: World, w': World)
    requires ProviderOk(w) && w'.answers == w.answers && w'.memberships == w.memberships
    requires forall id | id in w.claims :: id in w'.claims && w'.claims[id] == w.claims[id]
    ensures AnswersOk(w')
  {
  }

  lemma StepKeepsProvider(w: World, s: Step)
    requires WorldOk(w) && Enabled(w, s)
    ensures ProviderOk(Next(w, s))
  {
    hide Consistent, Evolves, ClaimsOk, KnowledgeOk, Next, Enabled, MembershipsOk, AnswersOk, AcceptedOk, NoneAccepted;
    if s.StepAddMember? {
      AddingKeepsProvider(w, s);
    } else if s.StepAnswer? {
      AnsweringKeepsProvider(w, s);
    } else {
      StepEvolves(w, s);
      MembershipsKept(w, Next(w, s).db);
      if s.StepCompleteAccept? {
        CompleteAcceptKeepsProvider(w, s);
      } else {
        StepKeepsClaims(w, s);
        StepAcceptsNone(w, s);
        AcceptedKept(w, Next(w, s).db, w.memberships);
        StepAsksNobody(w, s);
        AnswersKept(w, Next(w, s));
      }
    }
  }

  lemma StepAsksNobody(w: World, s: Step)
    requires Enabled(w, s) && !s.StepAddMember? && !s.StepAnswer?
    ensures Next(w, s).memberships == w.memberships && Next(w, s).answers == w.answers
  {
    hide CreateInvitation, ResendInvitation, RevokeInvitation, BeginAccept, CompleteAccept, FailCommand,
         CompleteNotification,
         CompleteLifecycle, RetryCommand, SupersedeCommand, BeginDispatch, CompleteDispatch, ExpireDueInvitations,
         ClaimDueCommands;
    match s
    case StepClaim(organization, limit, locked, leases) => ClaimDb(w, organization, limit, locked, leases);
    case _ =>
  }

  lemma CompleteAcceptKeepsProvider(w: World, s: Step)
    requires WorldOk(w) && Enabled(w, s) && s.StepCompleteAccept?
    requires Evolves(w.db, Next(w, s).db)
    requires MembershipsOk(w.memberships, Next(w, s).db.invitations)
    ensures ProviderOk(Next(w, s))
  {
    hide Consistent, Evolves, ClaimsOk, KnowledgeOk, HasKey, InsertCommand;
    MembershipCall(w, s.claim);
    var record := w.claims[s.claim].record;
    assert Answer(s.claim, s.membershipId) in w.answers;
    assert w.memberships[record.key].id == s.membershipId;
    var invitations := Next(w, s).db.invitations;
    forall i | i in invitations && invitations[i].state.Accepted?
      ensures MembershipKey(i) in w.memberships
      ensures invitations[i].membershipId == Some(w.memberships[MembershipKey(i)].id)
    {
    }
  }

  // ------------------------------------------------------------------ every run

  /** One step. */
  lemma StepKeepsWorld(w: World, s: Step)
    requires WorldOk(w) && Enabled(w, s)
    ensures WorldOk(Next(w, s)) && Evolves(w.db, Next(w, s).db)
  {
    hide Consistent, Evolves, ClaimsOk, KnowledgeOk, ProviderOk, Next, Enabled;
    StepKeepsConsistency(w, s);
    StepEvolves(w, s);
    StepKeepsClaims(w, s);
    StepKeepsKnowledge(w, s);
    StepKeepsProvider(w, s);
  }

  /** Every run, from any good world. */
  lemma {:induction false} RunKeepsWorld(w: World, steps: seq<Step>)
    requires WorldOk(w) && CanRun(w, steps)
    ensures WorldOk(Run(w, steps)) && Evolves(w.db, Run(w, steps).db)
    decreases |steps|
  {
    hide WorldOk, Evolves, Next, Enabled;
    if steps == [] {
      EvolvesReflexive(w.db);
    } else {
      StepKeepsWorld(w, steps[0]);
      RunKeepsWorld(Next(w, steps[0]), steps[1..]);
      EvolvesTransitive(w.db, Next(w, steps[0]).db, Run(w, steps).db);
    }
  }

  lemma InitIsOk(config: Config, now: Time)
    requires ValidConfig(config)
    ensures WorldOk(Init(config, now))
  {
    EmptyIsConsistent(now);
  }

  /** Every world a run reaches from a freshly migrated schema. */
  lemma ReachableIsOk(config: Config, now: Time, steps: seq<Step>)
    requires ValidConfig(config) && CanRun(Init(config, now), steps)
    ensures WorldOk(Run(Init(config, now), steps))
  {
    hide WorldOk;
    InitIsOk(config, now);
    RunKeepsWorld(Init(config, now), steps);
  }

  // ------------------------------------------------------------ reachable worlds

  ghost predicate ReachedBy(w: World, config: Config, now: Time, steps: seq<Step>) {
    ValidConfig(config) && CanRun(Init(config, now), steps) && Run(Init(config, now), steps) == w
  }

  /** Some run from a freshly migrated schema ends here. */
  ghost predicate Reachable(w: World) {
    exists config: Config, now: Time, steps: seq<Step> :: ReachedBy(w, config, now, steps)
  }

  /** The database of a reachable world. */
  ghost predicate Visited(db: Database) {
    exists w: World :: Reachable(w) && w.db == db
  }

  lemma ReachableWorld(w: World)
    requires Reachable(w)
    ensures WorldOk(w)
  {
    hide WorldOk, CanRun, Run;
    var config: Config, now: Time, steps: seq<Step> :| ReachedBy(w, config, now, steps);
    ReachableIsOk(config, now, steps);
  }

  lemma VisitedIsConsistent(db: Database)
    requires Visited(db)
    ensures Consistent(db)
  {
    hide Consistent, ClaimsOk, KnowledgeOk, ProviderOk, Reachable;
    var w: World :| Reachable(w) && w.db == db;
    ReachableWorld(w);
  }

  lemma {:induction false} RunOn(w: World, steps: seq<Step>, more: seq<Step>)
    requires CanRun(w, steps) && CanRun(Run(w, steps), more)
    ensures CanRun(w, steps + more) && Run(w, steps + more) == Run(Run(w, steps), more)
    decreases |steps|
  {
    hide Next, Enabled;
    if steps == [] {
      assert steps + more == more;
    } else {
      RunOn(Next(w, steps[0]), steps[1..], more);
      assert (steps + more)[1..] == steps[1..] + more;
    }
  }

  /** Running on from a reachable world reaches worlds only. */
  lemma ReachableRun(w: World, steps: seq<Step>)
    requires Reachable(w) && CanRun(w, steps)
    ensures Reachable(Run(w, steps))
  {
    hide CanRun, Run;
    var config: Config, now: Time, before: seq<Step> :| ReachedBy(w, config, now, before);
    RunOn(Init(config, now), before, steps);
    assert ReachedBy(Run(w, steps), config, now, before + steps);
  }

  lemma ReachableStep(w: World, s: Step)
    requires Reachable(w) && Enabled(w, s)
    ensures Reachable(Next(w, s))
  {
    hide Next, Enabled, Reachable;
    assert [s][1..] == [];
    assert CanRun(Next(w, s), []);
    ReachableRun(w, [s]);
  }
}
