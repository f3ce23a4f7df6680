/** Tokens, generations and links. `resend` derives the new token from a generation read before its
    transaction; this module says exactly when that is the generation it commits, and what follows. */
module Tokens {
  import opened Schema
  import opened Storage
  import opened Consistency
  import opened Effects
  import opened Outbox
  import opened Evolution
  import opened Protocol
  import opened Safety

  /** The stored verifier is of the token derived for the row's own generation. */
  predicate Agrees(id: Uuid, row: Invitation) {
    row.tokenHash.Some? && row.tokenHash.value.token == Derived(id, row.tokenGeneration)
  }

  predicate TokensAgree(invitations: Invitations) {
    forall i | i in invitations && Unaccepted(invitations[i]) :: Agrees(i, invitations[i])
  }

  /** The resend's snapshot is no older than the revision it was asked to move. */
  predicate Disciplined(s: Step) {
    s.StepResend? ==> s.snapshot.row.revision >= s.expectedRevision
  }

  // ------------------------------------------------------- the exact condition

  ghost predicate Rotates(w: World, s: Step)
    requires Enabled(w, s)
  {
    s.StepResend? && ResendOutcome(w, s).1.Done? && ResendOutcome(w, s).1.value.disclose
  }

  lemma RotationMeetsItsSnapshot(w: World, s: Step)
    requires WorldOk(w) && Enabled(w, s) && Rotates(w, s)
    ensures var id := s.snapshot.invitation;
      && id in w.db.invitations && Unaccepted(w.db.invitations[id])
      && w.db.invitations[id].revision == s.expectedRevision == w.db.invitations[id].tokenGeneration
      && s.snapshot.row.tokenGeneration == s.snapshot.row.revision <= s.expectedRevision
      && id in Next(w, s).db.invitations
      && Next(w, s).db.invitations[id].tokenGeneration == s.expectedRevision + 1
      && Next(w, s).db.invitations[id].tokenHash == Some(VerifierFor(id, s.snapshot.row.tokenGeneration + 1, s.salt))
      && ResendOutcome(w, s).1.value.generation == s.expectedRevision + 1
  {
    hide Consistent, ProviderOk, Leases.ClaimsOk, HasKey, InsertCommand, SupersedeNotifications;
    var id := s.snapshot.invitation;
    RowIsOk(w.db, id);
    assert PastOf(id, s.snapshot.row, w.db.invitations);
  }

  /** A resend that commits stores the verifier of its own generation's token if and only if its snapshot's
      revision had reached the expected revision. */
  lemma ResendAgreesIff(w: World, s: Step)
    requires Reachable(w) && Enabled(w, s) && Rotates(w, s)
    ensures s.snapshot.invitation in Next(w, s).db.invitations
    ensures Agrees(s.snapshot.invitation, Next(w, s).db.invitations[s.snapshot.invitation]) <==>
      s.snapshot.row.revision >= s.expectedRevision
  {
    hide WorldOk, Rotates, Next, Enabled;
    ReachableWorld(w);
    RotationMeetsItsSnapshot(w, s);
  }

  /** When it had not, the token the caller is handed does not open the invitation, and the token of the
      snapshot's next generation, which rotation was to invalidate, does. */
  lemma StaleResendMisrotates(w: World, s: Step)
    requires Reachable(w) && Enabled(w, s) && Rotates(w, s) && s.snapshot.row.revision < s.expectedRevision
    ensures var id := s.snapshot.invitation;
      var handed := Derived(id, ResendOutcome(w, s).1.value.generation);
      var rotatedAway := Derived(id, s.snapshot.row.tokenGeneration + 1);
      && id in Next(w, s).db.invitations && Next(w, s).db.invitations[id].tokenHash.Some?
      && !Verifies(handed, Next(w, s).db.invitations[id].tokenHash.value)
      && Verifies(rotatedAway, Next(w, s).db.invitations[id].tokenHash.value)
      && s.snapshot.row.tokenGeneration + 1 <= w.db.invitations[id].tokenGeneration
  {
    hide WorldOk, Rotates, Next, Enabled;
    ReachableWorld(w);
    RotationMeetsItsSnapshot(w, s);
  }

  // ------------------------------------------------------- disciplined runs

  /** Unaccepted invitations are old ones with their generation and verifier. */
  predicate KeepsTokens(a: Invitations, b: Invitations) {
    forall i | i in b && Unaccepted(b[i]) ::
      i in a && Unaccepted(a[i]) && b[i].tokenGeneration == a[i].tokenGeneration && b[i].tokenHash == a[i].tokenHash
  }

  lemma KeptTokensAgree(a: Invitations, b: Invitations)
    requires TokensAgree(a) && KeepsTokens(a, b)
    ensures TokensAgree(b)
  {
  }

  lemma ExpiryKeepsTokens(db: Database, r: Request, organization: Name, limit: int, locked: set<Uuid>,
                          newIds: seq<Uuid>)
    requires Consistent(db) && limit <= |newIds| && FreshIn(db.commands, newIds)
    ensures KeepsTokens(db.invitations, ExpireDueInvitations(db, r, organization, limit, locked, newIds).0.invitations)
  {
    hide Consistent, ExpireRows, ExpiryBatch, Due, AnyDue;
    BatchIsDue(db, organization, limit, locked);
    AfterRows(db, ExpiryBatch(db, organization, limit, locked), newIds, r.actor);
  }

  lemma RevokeKeepsTokens(db: Database, r: Request, organization: Name, id: Uuid, expectedRevision: int, reason: Name,
                          commandId: Uuid)
    ensures KeepsTokens(db.invitations,
                        RevokeInvitation(db, r, organization, id, expectedRevision, reason, commandId).0.invitations)
  {
    hide HasKey, SupersedeNotifications, InsertCommand, BeginMutation;
  }

  lemma AcceptKeepsTokens(db: Database, r: Request, id: Uuid, expectedRevision: int, generation: int, hash: Verifier,
                          leaseSeconds: int,
                          commandId: Uuid, lease: Uuid)
    ensures KeepsTokens(db.invitations,
                        BeginAccept(db, r, id, expectedRevision, generation, hash, leaseSeconds, commandId,
                                    lease).0.invitations)
  {
    hide InsertedId, BeginMutation, Expire, AcceptStarted;
    if id in db.invitations {
      AcceptWrites(db, r, id, leaseSeconds, commandId, InsertedId(db.commands, commandId, MembershipKey(id)), lease);
    }
  }

  lemma ClientStepsKeepTokens(w: World, s: Step)
    requires Enabled(w, s)
    ensures s.StepRevoke? ==> KeepsTokens(w.db.invitations, RevokeOutcome(w, s).0.invitations)
    ensures s.StepBeginAccept? ==> KeepsTokens(w.db.invitations, AcceptOutcome(w, s).0.invitations)
  {
    hide RevokeInvitation, BeginAccept, KeepsTokens;
    match s
    case StepRevoke(r, organization, id, expectedRevision, reason, newId) =>
      RevokeKeepsTokens(w.db, r, organization, id, expectedRevision, reason, newId);
    case StepBeginAccept(r, expectedRevision, token, snapshot, newId, lease) =>
      AcceptKeepsTokens(w.db, r, snapshot.invitation, expectedRevision, snapshot.row.tokenGeneration,
                        snapshot.row.tokenHash.value,
                        w.config.leaseSeconds, newId, lease);
    case _ =>
  }

  lemma OutcomesKeepTokens(db: Database, record: CommandRecord, a: Name, b: Name, newId: Uuid)
    ensures KeepsTokens(db.invitations, CompleteNotification(db, record, a, b).0.invitations)
    ensures KeepsTokens(db.invitations, CompleteAccept(db, record, a, b, newId).0.invitations)
  {
    hide HasKey, SupersedeNotifications, InsertCommand, Fenced;
  }

  lemma FailureKeepsTokens(db: Database, record: CommandRecord, a: Name, newId: Uuid)
    ensures KeepsTokens(db.invitations, FailCommand(db, record, a, newId).0.invitations)
  {
    hide HasKey, SupersedeNotifications, InsertCommand, Fenced;
  }

  lemma FinishKeepsTokens(w: World, s: Step)
    requires Enabled(w, s) && Finishes(s)
    ensures KeepsTokens(w.db.invitations, Next(w, s).db.invitations)
  {
    hide CompleteAccept, FailCommand, CompleteNotification, CompleteLifecycle, RetryCommand, SupersedeCommand;
    var record := w.claims[s.claim].record;
    if s.StepCompleteAccept? {
      OutcomesKeepTokens(w.db, record, s.membershipId, s.providerRevision, s.newId);
    } else if s.StepCompleteNotification? {
      OutcomesKeepTokens(w.db, record, s.intentId, s.deliveryId, 0);
    } else if s.StepFail? {
      FailureKeepsTokens(w.db, record, s.error, s.newId);
    } else {
      CompletingAcceptsNone(w.db, record, if s.StepRetry? then s.error else "", "",
                            s.StepCompleteLifecycle? && s.recorded,
                            RetryDelay(w, s.claim));
    }
  }

  lemma BatchKeepsTokens(w: World, s: Step)
    requires Consistent(w.db) && Enabled(w, s) && Batches(s)
    ensures KeepsTokens(w.db.invitations, Next(w, s).db.invitations)
  {
    hide Consistent, ExpireDueInvitations;
    if s.StepClaim? {
      ClaimDb(w, s.organization, s.limit, s.locked, s.leases);
    } else if s.StepExpireDue? {
      ExpiryKeepsTokens(w.db, s.r, s.organization, s.limit, s.locked, s.newIds);
    }
  }

  lemma StepKeepsTokens(w: World, s: Step)
    requires WorldOk(w) && Enabled(w, s) && !s.StepInvite? && !s.StepResend?
    ensures KeepsTokens(w.db.invitations, Next(w, s).db.invitations)
  {
    hide Consistent, KnowledgeOk, ProviderOk, Leases.ClaimsOk, RevokeOutcome, AcceptOutcome, Enabled;
    if Mutates(s) {
      ClientStepsKeepTokens(w, s);
    } else if Finishes(s) {
      FinishKeepsTokens(w, s);
    } else if Batches(s) {
      BatchKeepsTokens(w, s);
    } else {
      ObservingChangesNoTable(w, s);
    }
  }

  /** `invite` and `resend` touch one invitation, the one they answer for. */
  lemma IssuingTouchesOne(w: World, s: Step)
    requires Enabled(w, s) && (s.StepInvite? || s.StepResend?)
    ensures var id := if s.StepInvite? then s.invitation else s.snapshot.invitation;
      var b := Next(w, s).db.invitations;
      && (forall i | i in b && i != id :: i in w.db.invitations && b[i] == w.db.invitations[i])
      && (Next(w, s).db == w.db || (s.StepResend? && Rotates(w, s)) || (s.StepInvite? && id in b && Agrees(id, b[id])))
  {
    hide HasKey, InsertCommand, SupersedeNotifications, PendingEmail;
  }

  lemma RotationAgrees(w: World, s: Step)
    requires WorldOk(w) && Enabled(w, s) && Rotates(w, s) && s.snapshot.row.revision >= s.expectedRevision
    ensures s.snapshot.invitation in Next(w, s).db.invitations
    ensures Agrees(s.snapshot.invitation, Next(w, s).db.invitations[s.snapshot.invitation])
  {
    hide WorldOk, Rotates, Next, Enabled;
    RotationMeetsItsSnapshot(w, s);
  }

  lemma StepKeepsAgreement(w: World, s: Step)
    requires WorldOk(w) && Enabled(w, s) && TokensAgree(w.db.invitations) && Disciplined(s)
    ensures TokensAgree(Next(w, s).db.invitations)
  {
    hide WorldOk, Next, Enabled, Unaccepted, Agrees, Rotates;
    if s.StepInvite? || s.StepResend? {
      IssuingTouchesOne(w, s);
      if s.StepResend? && Rotates(w, s) { RotationAgrees(w, s); }
    } else {
      StepKeepsTokens(w, s);
      KeptTokensAgree(w.db.invitations, Next(w, s).db.invitations);
    }
  }

  /** Rows on which a notification was found wanted carry the token that notification derives. */
  predicate MatchedAgree(w: World) {
    forall m | m in w.matched && m.claim in w.claims && w.claims[m.claim].record.kind.NotifyInvitation? ::
      Agrees(w.claims[m.claim].record.invitation, m.row)
  }

  lemma MatchingAgrees(w: World, s: Step)
    requires WorldOk(w) && Enabled(w, s) && s.StepMatch? && TokensAgree(w.db.invitations) && MatchedAgree(w)
    ensures MatchedAgree(Next(w, s))
  {
    hide Consistent, KnowledgeOk, ProviderOk, Leases.ClaimsOk, Agrees;
    ClaimIsHeld(w, s.claim);
    RowIsOk(w.db, w.claims[s.claim].record.invitation);
  }

  lemma MatchedAgreementKept(w: World, w': World)
    requires WorldOk(w) && MatchedAgree(w) && w'.matched == w.matched
    requires forall id | id in w.claims :: id in w'.claims && w'.claims[id] == w.claims[id]
    ensures MatchedAgree(w')
  {
    hide Consistent, ProviderOk, Leases.ClaimsOk, Agrees, Matches;
  }

  lemma StepKeepsMatchedAgreement(w: World, s: Step)
    requires WorldOk(w) && Enabled(w, s) && TokensAgree(w.db.invitations) && MatchedAgree(w)
    ensures MatchedAgree(Next(w, s))
  {
    hide WorldOk, Next, Enabled, MatchedAgree, TokensAgree;
    if s.StepMatch? {
      MatchingAgrees(w, s);
    } else {
      StepKeepsClaims(w, s);
      StepReadsMore(w, s);
      MatchedAgreementKept(w, Next(w, s));
    }
  }

  lemma StepReadsMore(w: World, s: Step)
    requires Enabled(w, s) && !s.StepMatch?
    ensures Next(w, s).matched == w.matched
  {
    if s.StepRead? {
    } else {
      StepReadsNothing(w, s);
    }
  }

  ghost predicate AllDisciplined(steps: seq<Step>) {
    forall n | 0 <= n < |steps| :: Disciplined(steps[n])
  }

  /** On every disciplined run, every pending invitation nobody is accepting stores a verifier for exactly the
      token of its generation. */
  lemma {:induction false} DisciplinedRunsAgree(w: World, steps: seq<Step>)
    requires WorldOk(w) && CanRun(w, steps) && AllDisciplined(steps)
    requires TokensAgree(w.db.invitations) && MatchedAgree(w)
    ensures WorldOk(Run(w, steps)) && TokensAgree(Run(w, steps).db.invitations) && MatchedAgree(Run(w, steps))
    decreases |steps|
  {
    hide WorldOk, Next, Enabled, TokensAgree, MatchedAgree, Disciplined, Evolves;
    if steps != [] {
      assert Disciplined(steps[0]);
      assert forall n | 0 <= n < |steps[1..]| :: steps[1..][n] == steps[n + 1];
      StepKeepsWorld(w, steps[0]);
      StepKeepsAgreement(w, steps[0]);
      StepKeepsMatchedAgreement(w, steps[0]);
      DisciplinedRunsAgree(Next(w, steps[0]), steps[1..]);
    }
  }

  /** On a disciplined run from a fresh schema the `token_derivation_mismatch` branch is unreachable: the token a
      worker derives for a notification it found wanted verifies against the row it found. */
  lemma MismatchIsUnreachable(config: Config, now: Time, steps: seq<Step>, m: Matched)
    requires ValidConfig(config) && CanRun(Init(config, now), steps) && AllDisciplined(steps)
    requires var w := Run(Init(config, now), steps);
      m in w.matched && m.claim in w.claims && w.claims[m.claim].record.kind.NotifyInvitation?
    ensures var record := Run(Init(config, now), steps).claims[m.claim].record;
      m.row.tokenHash.Some? && Verifies(Derived(record.invitation, record.kind.generation), m.row.tokenHash.value)
  {
    hide Consistent, ProviderOk, Leases.ClaimsOk, CanRun, Run;
    InitIsOk(config, now);
    DisciplinedRunsAgree(Init(config, now), steps);
  }

  // ------------------------------------------------------------ emailed links

  /** A worker that found its notification wanted on `m.row`, and whose derived token verifies there, mails the
      token with that row's revision. As long as the invitation has not been accepted, ended or rotated since,
      that link still starts an acceptance: receipts, failures and retries do not move the revision. */
  lemma EmailedLinkStaysValid(w: World, m: Matched, r: Request, commandId: Uuid, lease: Uuid)
    requires Reachable(w) && m in w.matched && m.claim in w.claims && w.claims[m.claim].record.kind.NotifyInvitation?
    requires w.claims[m.claim].record.invitation in w.db.invitations
    requires var record := w.claims[m.claim].record;
      var token := Derived(record.invitation, record.kind.generation);
      m.row.tokenHash.Some? && Verifies(token, m.row.tokenHash.value)
    requires var row := w.db.invitations[w.claims[m.claim].record.invitation];
      Unaccepted(row) && row.tokenGeneration == w.claims[m.claim].record.kind.generation &&
      row.tokenExpiresAt > w.db.now
    requires r.operation.Accept? && r.key !in w.db.mutations && commandId !in w.db.commands
    ensures var id := w.claims[m.claim].record.invitation;
      var row := w.db.invitations[id];
      && row.revision == m.row.revision && row.tokenHash == m.row.tokenHash
      && BeginAccept(w.db, r, id, m.row.revision, row.tokenGeneration, row.tokenHash.value, w.config.leaseSeconds,
                     commandId, lease).1
           == Done(Execute(CommandRecord(commandId, row.organization, id, AddMember(r.actor), MembershipKey(id), 1,
                                         lease)))
  {
    hide RecordsOk, LedgerOk, ProviderOk, Leases.ClaimsOk, HasKey, AcceptStarted, Expire;
    ReachableWorld(w);
    var id := w.claims[m.claim].record.invitation;
    RowIsOk(w.db, id);
    assert PastOf(id, m.row, w.db.invitations);
    AcceptStartedIsConsistent(w.db, r, id, w.config.leaseSeconds, commandId, lease);
  }

  /** An acceptance starts only on the verifier that stands at that moment: the presented token verifies it, its
      generation is current and its deadline has not passed. */
  lemma AcceptanceProvesTheToken(w: World, s: Step)
    requires Reachable(w) && Enabled(w, s) && s.StepBeginAccept?
    requires AcceptOutcome(w, s).1.Done? && AcceptOutcome(w, s).1.value.Execute?
    ensures var id := s.snapshot.invitation;
      && id in w.db.invitations && Unaccepted(w.db.invitations[id])
      && w.db.invitations[id].tokenHash.Some? && Verifies(s.token, w.db.invitations[id].tokenHash.value)
      && w.db.invitations[id].revision == s.expectedRevision
      && w.db.invitations[id].tokenExpiresAt > w.db.now
      && (TokensAgree(w.db.invitations) ==> s.token == Derived(id, w.db.invitations[id].tokenGeneration))
  {
    hide Consistent, KnowledgeOk, ProviderOk, Leases.ClaimsOk, HasKey, AcceptStarted, Expire;
    ReachableWorld(w);
  }

  // ---------------------------------------------------- the hypothesis is needed

  const CONFIG := Config(604_800, 120, 8, 30)

  function AdminRequest(key: Name, operation: Operation): Request {
    Request(MutationKey("admin-api", key), operation, "usr_admin", 0)
  }

  function FirstRow(): Invitation {
    NewInvitation("org", 1, "member@example.com", "member@example.com", "usr_admin", VerifierFor(1, 1, 0), 604_800, 0)
  }

  function StaleResends(): seq<Step> {
    [StepInvite(AdminRequest("invite", Invite), 1, "org", "member@example.com", 0, 10),
     StepRead(1),
     StepResend(AdminRequest("resend-1", Resend), "org", 1, Snapshot(1, FirstRow()), 0, 11),
     StepResend(AdminRequest("resend-2", Resend), "org", 2, Snapshot(1, FirstRow()), 0, 12)]
  }

  /** Two resends that read the same row, the second asked for the revision the first makes, both commit: the
      invitation is then at generation 3 with a verifier of the token of generation 2. */
  lemma StaleResendsDisagree()
    ensures CanRun(Init(CONFIG, 0), StaleResends())
    ensures var row := Run(Init(CONFIG, 0), StaleResends()).db.invitations;
      1 in row && Unaccepted(row[1]) && row[1].tokenGeneration == 3 && row[1].tokenHash == Some(VerifierFor(1, 2, 0))
    ensures !TokensAgree(Run(Init(CONFIG, 0), StaleResends()).db.invitations)
  {
    hide Next, Enabled, CanRun, Run;
    var steps := StaleResends();
    var w0 := Init(CONFIG, 0);
    var w2 := FirstRead();
    var w3, w4 := ResentTwice(w2);
    RunFour(w0, Next(w0, steps[0]), w2, w3, w4, steps);
  }

  /** After the first two steps the row is there and has been read. */
  lemma FirstRead() returns (w2: World)
    ensures var w0, steps := Init(CONFIG, 0), StaleResends();
      && Enabled(w0, steps[0]) && Enabled(Next(w0, steps[0]), steps[1]) && w2 == Next(Next(w0, steps[0]), steps[1])
    ensures Snapshot(1, FirstRow()) in w2.snapshots && w2.db.invitations == map[1 := FirstRow()]
    ensures w2.db.commands.Keys <= {10}
    ensures w2.config == CONFIG && w2.db.now == 0 && w2.db.mutations.Keys == {AdminRequest("invite", Invite).key}
  {
    hide InviteOutcome, PendingEmail;
    var w0, steps := Init(CONFIG, 0), StaleResends();
    FirstInvite();
    IssuingAddsOne(w0, steps[0]);
    w2 := Next(Next(w0, steps[0]), steps[1]);
  }

  /** Both resends then commit on that one read. */
  lemma ResentTwice(w2: World) returns (w3: World, w4: World)
    requires Snapshot(1, FirstRow()) in w2.snapshots && w2.db.invitations == map[1 := FirstRow()]
    requires w2.db.commands.Keys <= {10}
    requires w2.config == CONFIG && w2.db.now == 0 && w2.db.mutations.Keys == {AdminRequest("invite", Invite).key}
    ensures var steps := StaleResends();
      && Enabled(w2, steps[2]) && w3 == Next(w2, steps[2]) && Enabled(w3, steps[3]) && w4 == Next(w3, steps[3])
    ensures var row := w4.db.invitations;
      1 in row && Unaccepted(row[1]) && row[1].tokenGeneration == 3 && row[1].tokenHash == Some(VerifierFor(1, 2, 0))
  {
    hide ResendOutcome;
    var steps := StaleResends();
    w3 := ResentOnce(w2, steps[2], FirstRow());
    w4 := ResentOnce(w3, steps[3], w3.db.invitations[1]);
  }

  /** A resend on the first row that was read, against the revision that stands. */
  lemma ResentOnce(w: World, s: Step, row: Invitation) returns (w': World)
    requires s.StepResend? && s.r.operation.Resend? && s.snapshot == Snapshot(1, FirstRow()) && s.organization == "org"
    requires s.snapshot in w.snapshots && s.newId !in w.db.commands && s.r.key !in w.db.mutations
    requires w.db.invitations == map[1 := row] && row.organization == "org" && Unaccepted(row) &&
             row.revision == s.expectedRevision
    ensures Enabled(w, s) && w' == Next(w, s)
    ensures w'.db.invitations == map[1 := Rotated(row, VerifierFor(1, 2, s.salt), w.config.tokenTtl, w.db.now)]
    ensures w'.snapshots == w.snapshots && w'.db.mutations.Keys == w.db.mutations.Keys + {s.r.key}
    ensures w'.db.commands.Keys <= w.db.commands.Keys + {s.newId}
  {
    hide ResendOutcome, Rotated;
    w' := Next(w, s);
    IssuingAddsOne(w, s);
    FreshResend(w, s);
  }

  lemma RunFour(w0: World, w1: World, w2: World, w3: World, w4: World, steps: seq<Step>)
    requires |steps| == 4
    requires Enabled(w0, steps[0]) && w1 == Next(w0, steps[0]) && Enabled(w1, steps[1]) && w2 == Next(w1, steps[1])
    requires Enabled(w2, steps[2]) && w3 == Next(w2, steps[2]) && Enabled(w3, steps[3]) && w4 == Next(w3, steps[3])
    ensures CanRun(w0, steps) && Run(w0, steps) == w4
  {
    hide Next, Enabled;
    assert steps[1..][1..][1..][1..] == [];
    assert CanRun(w3, steps[1..][1..][1..]) && Run(w3, steps[1..][1..][1..]) == w4;
    assert CanRun(w2, steps[1..][1..]) && Run(w2, steps[1..][1..]) == w4;
    assert CanRun(w1, steps[1..]) && Run(w1, steps[1..]) == w4;
  }

  lemma FirstInvite()
    ensures var db := Next(Init(CONFIG, 0), StaleResends()[0]).db;
      db.invitations == map[1 := FirstRow()] && db.mutations.Keys == {AdminRequest("invite", Invite).key} && db.now == 0
  {
    hide HasKey, InsertCommand;
    assert !PendingEmail(map[], "org", "member@example.com");
  }

  /** A resend under a new key that passes its checks rotates its row. */
  lemma FreshResend(w: World, s: Step)
    requires Enabled(w, s) && s.StepResend? && s.r.key !in w.db.mutations
    requires Guard(w.db.invitations, s.organization, s.snapshot.invitation, s.expectedRevision).None?
    ensures var id := s.snapshot.invitation;
      var db := Next(w, s).db;
      && db.invitations == w.db.invitations[id := Rotated(w.db.invitations[id],
                                                          VerifierFor(id, s.snapshot.row.tokenGeneration + 1, s.salt),
                                                          w.config.tokenTtl, w.db.now)]
      && db.mutations.Keys == w.db.mutations.Keys + {s.r.key}
  {
    hide HasKey, InsertCommand, SupersedeNotifications;
  }

  lemma IssuingAddsOne(w: World, s: Step)
    requires Enabled(w, s) && (s.StepInvite? || s.StepResend?)
    ensures Next(w, s).db.commands.Keys <= w.db.commands.Keys + {s.newId}
  {
    hide HasKey, PendingEmail;
  }
}
