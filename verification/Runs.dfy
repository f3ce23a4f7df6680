/** What holds between two moments of a run: terminal rows are frozen, an invitation is accepted once, a
    revision is used once, a token is disclosed once, a lost lease stays lost, staleness is permanent, and a
    committed request replays exactly. */
module Runs {
  import opened Schema
  import opened Storage
  import opened Consistency
  import opened Preservation
  import opened Effects
  import opened Outbox
  import opened Evolution
  import opened Protocol
  import opened Leases
  import opened Safety

  // ------------------------------------------------------------ terminal freeze

  /** Accepted, revoked and expired invitations, settled commands and finished ledger rows never change again, in
      any column; the activity log is only ever appended to. */
  lemma TerminalFreeze(w: World, steps: seq<Step>)
    requires Reachable(w) && CanRun(w, steps)
    ensures var db, db' := w.db, Run(w, steps).db;
      && (forall i | i in db.invitations && !db.invitations[i].state.Pending? ::
            i in db'.invitations && db'.invitations[i] == db.invitations[i])
      && (forall c | c in db.commands && !Active(db.commands[c]) ::
            c in db'.commands && db'.commands[c] == db.commands[c])
      && (forall k | k in db.mutations && db.mutations[k].status.Finished? ::
            k in db'.mutations && db'.mutations[k] == db.mutations[k])
      && db.activity <= db'.activity
  {
    hide WorldOk, CanRun, Run, SameIdentity, SameCommand;
    ReachableWorld(w);
    RunKeepsWorld(w, steps);
    var db, db' := w.db, Run(w, steps).db;
    forall k | k in db.mutations && db.mutations[k].status.Finished?
      ensures k in db'.mutations && db'.mutations[k] == db.mutations[k]
    {
      assert MutationEvolves(db.mutations[k], k, db'.mutations);
    }
  }

  /** Once stale, a claim's command matches its invitation at no later moment of any run. */
  lemma StaleForever(w: World, steps: seq<Step>, id: ClaimId)
    requires Reachable(w) && CanRun(w, steps) && id in w.claims
    requires w.claims[id].record.invitation in w.db.invitations ==>
      !Matches(w.claims[id].record.kind, w.db.invitations[w.claims[id].record.invitation])
    ensures w.claims[id].record.invitation in Run(w, steps).db.invitations
    ensures !Matches(w.claims[id].record.kind, Run(w, steps).db.invitations[w.claims[id].record.invitation])
    ensures !w.claims[id].record.kind.NotifyLifecycle?
  {
    hide Consistent, ClaimsOk, KnowledgeOk, ProviderOk, Evolves, CanRun, Run;
    ReachableWorld(w);
    RunKeepsWorld(w, steps);
    ClaimIsHeld(w, id);
    StalenessIsPermanent(w.db, Run(w, steps).db, id.command);
    RowsPersist(w.db, Run(w, steps).db, w.claims[id].record.invitation);
  }

  /** The unlocked verdict is still right when it is acted on: whenever a process supersedes a command, the
      invitation at that moment does not want it. */
  lemma NeverDiscardsAWantedCommand(w: World, s: Step)
    requires Reachable(w) && Enabled(w, s) && s.StepSupersede?
    ensures w.claims[s.claim].record.invitation in w.db.invitations
    ensures !Matches(w.claims[s.claim].record.kind, w.db.invitations[w.claims[s.claim].record.invitation])
  {
    hide Consistent, ClaimsOk, ProviderOk;
    ReachableWorld(w);
    StaleNow(w, s.claim);
  }

  // --------------------------------------------------------------- lease fencing

  lemma LeaseIffInFlight(w: World, c: Uuid)
    requires WorldOk(w) && c in w.db.commands
    ensures w.db.commands[c].state.InFlight? <==> w.db.commands[c].lease.Some?
  {
    hide RecordsOk, LedgerOk, ClaimsOk, KnowledgeOk, ProviderOk;
    CommandIsOk(w.db, c);
  }

  /** The fence lets exactly the latest claimant of an in-flight command through, and `attempts` counts the claims. */
  lemma LeaseFence(w: World, c: Uuid)
    requires Reachable(w) && c in w.db.commands
    ensures w.db.commands[c].state.InFlight? <==> w.db.commands[c].lease.Some?
    ensures forall n: int :: ClaimId(c, n) in w.claims <==> 1 <= n <= w.db.commands[c].attempts
    ensures forall n: int | 1 <= n <= w.db.commands[c].attempts ::
      Fenced(w.db.commands, w.claims[ClaimId(c, n)].record) <==>
        w.db.commands[c].state.InFlight? && n == w.db.commands[c].attempts
  {
    hide Consistent, KnowledgeOk, ProviderOk, Fenced, LatestOk, Spaced;
    ReachableWorld(w);
    LeaseIffInFlight(w, c);
    assert AllClaimed(c, w.db.commands[c], w.claims);
    forall n: int | ClaimId(c, n) in w.claims ensures 1 <= n <= w.db.commands[c].attempts {
      assert ClaimOk(ClaimId(c, n), w.claims[ClaimId(c, n)], w.db.commands, w.db.now);
    }
    forall n: int | 1 <= n <= w.db.commands[c].attempts
      ensures Fenced(w.db.commands, w.claims[ClaimId(c, n)].record) <==>
                w.db.commands[c].state.InFlight? && n == w.db.commands[c].attempts
    {
      FenceIsLatest(w.db.commands, w.claims, w.config, w.db.now, ClaimId(c, n));
    }
  }

  lemma ClaimsPersist(w: World, steps: seq<Step>, id: ClaimId)
    requires WorldOk(w) && CanRun(w, steps) && id in w.claims
    ensures id in Run(w, steps).claims && Run(w, steps).claims[id] == w.claims[id]
    decreases |steps|
  {
    hide WorldOk, Next, Enabled;
    if steps != [] {
      StepKeepsClaims(w, steps[0]);
      StepKeepsWorld(w, steps[0]);
      ClaimsPersist(Next(w, steps[0]), steps[1..], id);
    }
  }

  /** A process that has lost its lease, by settling, retrying or being overtaken, never gets it back. */
  lemma LostLeaseStaysLost(w: World, steps: seq<Step>, id: ClaimId)
    requires Reachable(w) && CanRun(w, steps) && id in w.claims
    requires !Fenced(w.db.commands, w.claims[id].record)
    ensures !Fenced(Run(w, steps).db.commands, w.claims[id].record)
  {
    hide Consistent, KnowledgeOk, ProviderOk, CanRun, Run, LatestOk, Spaced, InvitationsEvolve, MutationsEvolve,
         SameCommand;
    ReachableWorld(w);
    RunKeepsWorld(w, steps);
    ClaimsPersist(w, steps, id);
    var w' := Run(w, steps);
    assert ClaimOk(id, w.claims[id], w.db.commands, w.db.now);
    assert CommandEvolves(w.db.commands[id.command], w'.db.commands[id.command]);
    LeaseIffInFlight(w, id.command);
    LeaseIffInFlight(w', id.command);
    FenceIsLatest(w'.db.commands, w'.claims, w'.config, w'.db.now, id);
  }

  /** Behind the fence nothing changes: a finishing step under a lost lease leaves the database as it is. */
  lemma UnfencedChangesNothing(w: World, s: Step)
    requires Enabled(w, s) && Finishes(s) && !Fenced(w.db.commands, w.claims[s.claim].record)
    ensures Next(w, s) == w
  {
    hide Fenced, AcceptanceCompleted, MembershipFailed;
  }

  /** Through the fence the lease is spent: whatever the finishing step did, the claim is no longer fenced in. */
  lemma FinishingSpendsTheLease(w: World, s: Step)
    requires Reachable(w) && Enabled(w, s) && Finishes(s)
    ensures !Fenced(Next(w, s).db.commands, w.claims[s.claim].record)
  {
    hide Reachable, Consistent, KnowledgeOk, ProviderOk, ClaimsOk, HasKey, FailCommand, Next, Enabled, Fenced;
    ReachableWorld(w);
    FinisherHoldsItsClaim(w, s);
    if Fenced(w.db.commands, w.claims[s.claim].record) {
      if s.StepFail? {
        FailingSpendsTheLease(w, s);
      } else {
        CompletingSpendsTheLease(w, s);
      }
    } else {
      UnfencedChangesNothing(w, s);
    }
  }

  lemma CompletingSpendsTheLease(w: World, s: Step)
    requires WorldOk(w) && Enabled(w, s) && Finishes(s) && !s.StepFail?
    requires Fenced(w.db.commands, w.claims[s.claim].record)
    ensures !Fenced(Next(w, s).db.commands, w.claims[s.claim].record)
  {
    hide RecordsOk, LedgerOk, KnowledgeOk, ProviderOk, ClaimsOk, HasKey;
    ClaimIsHeld(w, s.claim);
    CommandIsOk(w.db, s.claim.command);
  }

  lemma FailingSpendsTheLease(w: World, s: Step)
    requires WorldOk(w) && Enabled(w, s) && s.StepFail? && Fenced(w.db.commands, w.claims[s.claim].record)
    ensures !Fenced(Next(w, s).db.commands, w.claims[s.claim].record)
  {
    hide RecordsOk, LedgerOk, KnowledgeOk, ProviderOk, ClaimsOk, Expire;
    ClaimIsHeld(w, s.claim);
    var db, record := w.db, w.claims[s.claim].record;
    var failed := db.commands[record.command := FinishedCommand(db.commands[record.command], Failed, None,
                                                                Some(s.error), db.now)];
    QuietReflexive(failed);
    ExpireIsQuiet(db.(commands := failed), failed, record.invitation, s.newId, AcceptanceFailed,
                  SYSTEM_MEMBERSHIP_FAILURE);
    ExpireIgnoresCommands(db, failed, record.invitation, s.newId, AcceptanceFailed, SYSTEM_MEMBERSHIP_FAILURE);
  }

  /** A claim finishes its command at most once: after any finishing step under it and any further run, another
      finishing step under the same claim changes nothing at all. */
  lemma OneFinishPerClaim(w: World, s: Step, steps: seq<Step>, s': Step)
    requires Reachable(w) && Enabled(w, s) && Finishes(s)
    requires CanRun(Next(w, s), steps) && Enabled(Run(Next(w, s), steps), s')
    requires Finishes(s') && s'.claim == s.claim
    ensures Next(Run(Next(w, s), steps), s') == Run(Next(w, s), steps)
  {
    hide Reachable, WorldOk, Next, Enabled, Fenced, CanRun, Run, Evolves;
    ReachableWorld(w);
    FinisherHoldsItsClaim(w, s);
    StepKeepsWorld(w, s);
    FinishingSpendsTheLease(w, s);
    StepKeepsClaims(w, s);
    ReachableStep(w, s);
    LostLeaseStaysLost(Next(w, s), steps, s.claim);
    ClaimsPersist(Next(w, s), steps, s.claim);
    UnfencedChangesNothing(Run(Next(w, s), steps), s');
  }

  // ------------------------------------------------------------------ single use

  /** The step commits a mutation of invitation `id` against revision `revision`. */
  ghost predicate UsesRevision(w: World, s: Step, id: Uuid, revision: int)
    requires Enabled(w, s)
  {
    match s
    case StepResend(r, _, expected, snapshot, _, _) =>
      id == snapshot.invitation && revision == expected && ResendOutcome(w, s).1.Done? &&
      ResendOutcome(w, s).1.value.disclose
    case StepRevoke(r, _, invitation, expected, _, _) =>
      id == invitation && revision == expected && RevokeOutcome(w, s).1.Done? && BeginMutation(w.db.mutations, r).New?
    case StepBeginAccept(r, expected, _, snapshot, _, _) =>
      id == snapshot.invitation && revision == expected && Executes(w, s)
    case _ => false
  }

  /** The step starts an acceptance. */
  ghost predicate Executes(w: World, s: Step)
    requires Enabled(w, s) && s.StepBeginAccept?
  {
    AcceptOutcome(w, s).1.Done? && AcceptOutcome(w, s).1.value.Execute?
  }

  lemma UsingMovesRevision(w: World, s: Step, id: Uuid, revision: int)
    requires WorldOk(w) && Enabled(w, s) && UsesRevision(w, s, id, revision)
    ensures id in w.db.invitations && w.db.invitations[id].revision == revision && Unaccepted(w.db.invitations[id])
    ensures id in Next(w, s).db.invitations && Next(w, s).db.invitations[id].revision == revision + 1
    ensures s.StepBeginAccept? ==> Next(w, s).db.invitations[id].acceptanceSubject.Some?
  {
    hide Consistent, KnowledgeOk, ProviderOk, ClaimsOk, HasKey, InsertCommand, SupersedeNotifications;
  }

  /** At most one mutation ever commits against one revision of one invitation. */
  lemma RevisionUsedOnce(w: World, s: Step, steps: seq<Step>, s': Step, id: Uuid, revision: int)
    requires Reachable(w) && Enabled(w, s) && UsesRevision(w, s, id, revision)
    requires CanRun(Next(w, s), steps) && Enabled(Run(Next(w, s), steps), s')
    ensures !UsesRevision(Run(Next(w, s), steps), s', id, revision)
  {
    hide WorldOk, UsesRevision, Next, Enabled, CanRun, Run, Evolves, RowEvolves;
    ReachableWorld(w);
    StepKeepsWorld(w, s);
    UsingMovesRevision(w, s, id, revision);
    RunKeepsWorld(Next(w, s), steps);
    RevisionGrows(Next(w, s).db, Run(Next(w, s), steps).db, id);
    if UsesRevision(Run(Next(w, s), steps), s', id, revision) {
      UsingMovesRevision(Run(Next(w, s), steps), s', id, revision);
    }
  }

  lemma RevisionGrows(db: Database, db': Database, id: Uuid)
    requires Evolves(db, db') && id in db.invitations
    ensures id in db'.invitations
    ensures db.invitations[id].revision <= db'.invitations[id].revision
    ensures db.invitations[id].tokenGeneration <= db'.invitations[id].tokenGeneration
    ensures db.invitations[id].acceptanceSubject.Some? ==>
      db'.invitations[id].acceptanceSubject == db.invitations[id].acceptanceSubject
  {
    assert RowEvolves(db.invitations[id], db'.invitations[id]);
  }

  /** An invitation is accepted at most once: after an acceptance has started no other ever starts, under any
      revision, token or subject. */
  lemma AcceptedOnce(w: World, s: Step, steps: seq<Step>, s': Step)
    requires Reachable(w) && Enabled(w, s) && s.StepBeginAccept? && Executes(w, s)
    requires CanRun(Next(w, s), steps) && Enabled(Run(Next(w, s), steps), s') && s'.StepBeginAccept?
    requires s'.snapshot.invitation == s.snapshot.invitation
    ensures !Executes(Run(Next(w, s), steps), s')
  {
    hide WorldOk, Next, Executes, CanRun, Run, Evolves, RowEvolves, Enabled, AcceptOutcome;
    ReachableWorld(w);
    var id := s.snapshot.invitation;
    StepKeepsWorld(w, s);
    UsingMovesRevision(w, s, id, s.expectedRevision);
    RunKeepsWorld(Next(w, s), steps);
    RevisionGrows(Next(w, s).db, Run(Next(w, s), steps).db, id);
    if Executes(Run(Next(w, s), steps), s') {
      UsingMovesRevision(Run(Next(w, s), steps), s', id, s'.expectedRevision);
    }
  }

  /** The step answers its caller with the token of generation `generation`. */
  ghost predicate Discloses(w: World, s: Step, id: Uuid, generation: int)
    requires Enabled(w, s)
  {
    match s
    case StepInvite(_, invitation, _, _, _, _) =>
      id == invitation && InviteOutcome(w, s).1.Done? && InviteOutcome(w, s).1.value.disclose &&
      generation == InviteOutcome(w, s).1.value.generation
    case StepResend(_, _, _, snapshot, _, _) =>
      id == snapshot.invitation && ResendOutcome(w, s).1.Done? && ResendOutcome(w, s).1.value.disclose &&
      generation == ResendOutcome(w, s).1.value.generation
    case _ => false
  }

  lemma DisclosureIsNew(w: World, s: Step, id: Uuid, generation: int)
    requires WorldOk(w) && Enabled(w, s) && Discloses(w, s, id, generation)
    ensures id in w.db.invitations ==> w.db.invitations[id].tokenGeneration < generation
    ensures id in Next(w, s).db.invitations && Next(w, s).db.invitations[id].tokenGeneration == generation
  {
    hide Consistent, KnowledgeOk, ProviderOk, ClaimsOk, HasKey, InsertCommand, SupersedeNotifications, PendingEmail;
  }

  /** The token of one generation of one invitation is disclosed at most once in a run. */
  lemma DisclosedOnce(w: World, s: Step, steps: seq<Step>, s': Step, id: Uuid, generation: int)
    requires Reachable(w) && Enabled(w, s) && Discloses(w, s, id, generation)
    requires CanRun(Next(w, s), steps) && Enabled(Run(Next(w, s), steps), s')
    ensures !Discloses(Run(Next(w, s), steps), s', id, generation)
  {
    hide WorldOk, Discloses, Next, Enabled, CanRun, Run, Evolves, RowEvolves;
    ReachableWorld(w);
    StepKeepsWorld(w, s);
    DisclosureIsNew(w, s, id, generation);
    RunKeepsWorld(Next(w, s), steps);
    RevisionGrows(Next(w, s).db, Run(Next(w, s), steps).db, id);
    if Discloses(Run(Next(w, s), steps), s', id, generation) {
      DisclosureIsNew(Run(Next(w, s), steps), s', id, generation);
    }
  }
}
