/** What any later state may differ in: the preorder every committed effect stays inside. */
module Evolution {
  import opened Schema
  import opened Storage
  import opened Consistency
  import opened Preservation
  import opened Effects
  import opened Outbox

  /** An invitation row over time. A row that has left `pending` is frozen in every column; a row whose
      revision has not moved differs at most in its delivery receipt. */
  predicate RowEvolves(row: Invitation, row': Invitation) {
    && SameIdentity(row, row')
    && row.revision <= row'.revision
    && row.tokenGeneration <= row'.tokenGeneration
    && (row.acceptanceSubject.Some? ==> row'.acceptanceSubject == row.acceptanceSubject)
    && (!row.state.Pending? ==> row' == row)
    && (row'.revision == row.revision ==>
          row' == row.(delivery := row'.delivery, intentId := row'.intentId, deliveryId := row'.deliveryId,
                       updatedAt := row'.updatedAt))
  }

  /** A command row over time. A settled command is frozen; a lease is only ever replaced by a new claim. */
  predicate CommandEvolves(c: Command, c': Command) {
    && SameCommand(c, c') && c.createdAt == c'.createdAt
    && c.attempts <= c'.attempts
    && (!Active(c) ==> c' == c)
    && (c'.attempts == c.attempts && c'.lease.Some? ==> c.lease == c'.lease)
  }

  /** A ledger row over time. Only a started acceptance can disappear; a finished row is immutable. */
  predicate MutationEvolves(m: Mutation, key: MutationKey, mutations: Mutations) {
    && (m.status.Finished? ==> key in mutations && mutations[key] == m)
    && (!m.operation.Accept? ==>
          && key in mutations
          && mutations[key].operation == m.operation && mutations[key].actor == m.actor &&
             mutations[key].hash == m.hash)
  }

  ghost predicate InvitationsEvolve(a: Invitations, b: Invitations) {
    forall i | i in a :: i in b && RowEvolves(a[i], b[i])
  }

  ghost predicate CommandsEvolve(a: Commands, b: Commands) {
    forall c | c in a :: c in b && CommandEvolves(a[c], b[c])
  }

  ghost predicate MutationsEvolve(a: Mutations, b: Mutations) {
    forall k | k in a :: MutationEvolves(a[k], k, b)
  }

  ghost predicate Evolves(db: Database, db': Database) {
    && InvitationsEvolve(db.invitations, db'.invitations)
    && CommandsEvolve(db.commands, db'.commands)
    && MutationsEvolve(db.mutations, db'.mutations)
    && db.activity <= db'.activity
    && db.now <= db'.now
  }

  lemma EvolvesReflexive(db: Database)
    ensures Evolves(db, db)
  {
  }

  lemma EvolvesTransitive(a: Database, b: Database, c: Database)
    requires Evolves(a, b) && Evolves(b, c)
    ensures Evolves(a, c)
  {
    forall i | i in a.invitations ensures i in c.invitations && RowEvolves(a.invitations[i], c.invitations[i]) {
      assert RowEvolves(a.invitations[i], b.invitations[i]) && RowEvolves(b.invitations[i], c.invitations[i]);
    }
    forall d | d in a.commands ensures d in c.commands && CommandEvolves(a.commands[d], c.commands[d]) {
      assert CommandEvolves(a.commands[d], b.commands[d]) && CommandEvolves(b.commands[d], c.commands[d]);
    }
    forall k | k in a.mutations ensures MutationEvolves(a.mutations[k], k, c.mutations) {
      assert MutationEvolves(a.mutations[k], k, b.mutations);
      if k in b.mutations { assert MutationEvolves(b.mutations[k], k, c.mutations); }
    }
  }

  // ------------------------------------------------------------- the effects

  lemma CommandUpdateEvolves(db: Database, c: Uuid, command: Command)
    requires c in db.commands && CommandEvolves(db.commands[c], command)
    ensures Evolves(db, db.(commands := db.commands[c := command]))
  {
  }

  lemma PutEvolves(db: Database, key: MutationKey, m: Mutation)
    requires key in db.mutations ==>
      !db.mutations[key].status.Finished? && m.operation == db.mutations[key].operation &&
      m.actor == db.mutations[key].actor && m.hash == db.mutations[key].hash
    ensures Evolves(db, PutMutation(db, key, m))
  {
  }

  /** A revision step of one row beside an evolving outbox. */
  lemma AdvanceEvolves(db: Database, commands: Commands, id: Uuid, row: Invitation, commandId: Uuid, kind: CommandKind,
                       activity: ActivityKind, actor: Name)
    requires commandId !in db.commands
    requires id in db.invitations ==> RowEvolves(db.invitations[id], row)
    requires commands.Keys == db.commands.Keys && CommandsEvolve(db.commands, commands)
    ensures Evolves(db, Advance(db, commands, id, row, commandId, kind, activity, actor))
  {
    hide HasKey;
  }

  lemma SupersedingEvolves(commands: Commands, id: Uuid, now: Time)
    ensures CommandsEvolve(commands, SupersedeNotifications(commands, id, now))
  {
  }

  lemma CommandsEvolveTransitive(a: Commands, b: Commands, c: Commands)
    requires CommandsEvolve(a, b) && CommandsEvolve(b, c)
    ensures CommandsEvolve(a, c)
  {
    forall d | d in a ensures d in c && CommandEvolves(a[d], c[d]) {
      assert CommandEvolves(a[d], b[d]) && CommandEvolves(b[d], c[d]);
    }
  }

  lemma ExpireEvolves(db: Database, commands: Commands, id: Uuid, commandId: Uuid, activity: ActivityKind, actor: Name)
    requires commandId !in db.commands && id in db.invitations && db.invitations[id].state.Pending?
    requires commands.Keys == db.commands.Keys && CommandsEvolve(db.commands, commands)
    ensures Evolves(db, Expire(db, commands, id, commandId, activity, actor))
  {
    hide CommandEvolves, Advance;
    SupersedingEvolves(commands, id, db.now);
    CommandsEvolveTransitive(db.commands, commands, SupersedeNotifications(commands, id, db.now));
    AdvanceEvolves(db, SupersedeNotifications(commands, id, db.now), id, ExpiredRow(db.invitations[id], db.now),
                   commandId,
                   NotifyLifecycle(Expired), activity, actor);
  }

  // ------------------------------------------------------- whole operations

  lemma CreateEvolves(db: Database, r: Request, id: Uuid, organization: Name, email: Name, emailNormalized: Name,
                      tokenHash: Verifier, ttl: int, commandId: Uuid)
    requires commandId !in db.commands
    ensures Evolves(db, CreateInvitation(db, r, id, organization, email, emailNormalized, tokenHash, ttl, commandId).0)
  {
    hide PendingEmail, Advance, HasKey;
    EvolvesReflexive(db);
    if BeginMutation(db.mutations, r).New? && id !in db.invitations {
      var number := NextNumber(db.sequences, organization);
      var row := NewInvitation(organization, number, email, emailNormalized, r.actor, tokenHash, ttl, db.now);
      var db0 := db.(sequences := db.sequences[organization := number + 1]);
      AdvanceEvolves(db0, db0.commands, id, row, commandId, NotifyInvitation(1), InvitationCreated, r.actor);
      var db1 := Advance(db0, db0.commands, id, row, commandId, NotifyInvitation(1), InvitationCreated, r.actor);
      AdvanceFrame(db0, db0.commands, id, row, commandId, NotifyInvitation(1), InvitationCreated, r.actor);
      var m := CompletedMutation(r, organization, Some(id), TokenResponse(View(id, row), 1), db.now);
      PutEvolves(db1, r.key, m);
      EvolvesTransitive(db0, db1, PutMutation(db1, r.key, m));
    }
  }

  lemma ResendEvolves(db: Database, r: Request, organization: Name, id: Uuid, expectedRevision: int,
                      tokenHash: Verifier, ttl: int, commandId: Uuid)
    requires commandId !in db.commands
    ensures Evolves(db, ResendInvitation(db, r, organization, id, expectedRevision, tokenHash, ttl, commandId).0)
  {
    hide Advance;
    EvolvesReflexive(db);
    if BeginMutation(db.mutations, r).New? && Guard(db.invitations, organization, id, expectedRevision).None? {
      var row := Rotated(db.invitations[id], tokenHash, ttl, db.now);
      MovedOnEvolves(db, id, row, commandId, NotifyInvitation(row.tokenGeneration), InvitationResent, r.actor,
                     r, CompletedMutation(r, row.organization, Some(id),
                                          TokenResponse(View(id, row), row.tokenGeneration), db.now));
    }
  }

  lemma MovedOnEvolves(db: Database, id: Uuid, row: Invitation, commandId: Uuid, kind: CommandKind,
                       activity: ActivityKind, actor: Name,
                       r: Request, m: Mutation)
    requires commandId !in db.commands && id in db.invitations && RowEvolves(db.invitations[id], row)
    requires r.key !in db.mutations
    ensures Evolves(db, PutMutation(MovedOn(db, id, row, commandId, kind, activity, actor), r.key, m))
  {
    hide RowEvolves, CommandEvolves, Advance;
    SupersedingEvolves(db.commands, id, db.now);
    AdvanceEvolves(db, SupersedeNotifications(db.commands, id, db.now), id, row, commandId, kind, activity, actor);
    var db1 := MovedOn(db, id, row, commandId, kind, activity, actor);
    AdvanceFrame(db, SupersedeNotifications(db.commands, id, db.now), id, row, commandId, kind, activity, actor);
    PutEvolves(db1, r.key, m);
    EvolvesTransitive(db, db1, PutMutation(db1, r.key, m));
  }

  lemma RevokeEvolves(db: Database, r: Request, organization: Name, id: Uuid, expectedRevision: int, reason: Name,
                      commandId: Uuid)
    requires commandId !in db.commands
    ensures Evolves(db, RevokeInvitation(db, r, organization, id, expectedRevision, reason, commandId).0)
  {
    hide Advance;
    EvolvesReflexive(db);
    if BeginMutation(db.mutations, r).New? && Guard(db.invitations, organization, id, expectedRevision).None? {
      var row := RevokedRow(db.invitations[id], reason, db.now);
      MovedOnEvolves(db, id, row, commandId, NotifyLifecycle(Revoked), InvitationRevoked, r.actor,
                     r, CompletedMutation(r, row.organization, Some(id), ViewResponse(View(id, row)), db.now));
    }
  }

  lemma BeginAcceptEvolves(db: Database, r: Request, id: Uuid, expectedRevision: int, observedGeneration: int,
                           observedHash: Verifier, leaseSeconds: int, commandId: Uuid, lease: Uuid)
    requires Consistent(db) && r.operation.Accept? && commandId !in db.commands
    ensures Evolves(db, BeginAccept(db, r, id, expectedRevision, observedGeneration, observedHash, leaseSeconds,
                                    commandId, lease).0)
  {
    hide RecordsOk, LedgerOk, Advance, Expire, HasKey, AcceptStarted;
    EvolvesReflexive(db);
    if BeginMutation(db.mutations, r).New? && id in db.invitations &&
       GuardRow(db.invitations[id], expectedRevision).None?
    {
      ExpireEvolves(db, db.commands, id, commandId, InvitationExpired, SYSTEM_ACCEPT);
      AcceptStartedIsConsistent(db, r, id, leaseSeconds, commandId, lease);
      AcceptStartedEvolves(db, r, id, leaseSeconds, commandId, lease);
    }
  }

  lemma AcceptStartedEvolves(db: Database, r: Request, id: Uuid, leaseSeconds: int, commandId: Uuid, lease: Uuid)
    requires r.key !in db.mutations && commandId !in db.commands && !HasKey(db.commands, MembershipKey(id))
    requires id in db.invitations && Unaccepted(db.invitations[id])
    ensures Evolves(db, AcceptStarted(db, r, id, leaseSeconds, commandId, commandId, lease))
  {
    hide HasKey;
  }

  lemma CompleteAcceptEvolves(db: Database, record: CommandRecord, membershipId: Name, providerRevision: Name,
                              commandId: Uuid)
    requires Consistent(db) && Held(db.commands, record) && commandId !in db.commands
    ensures Evolves(db, CompleteAccept(db, record, membershipId, providerRevision, commandId).0)
  {
    hide RecordsOk, LedgerOk, HasKey;
    EvolvesReflexive(db);
    CommandIsOk(db, record.command);
    if Fenced(db.commands, record) {
      var row := AcceptedRow(db.invitations[record.invitation], membershipId, db.now);
      var receipt := MembershipReceipt(membershipId, providerRevision);
      var finished := db.commands[record.command :=
        FinishedCommand(db.commands[record.command], Completed, Some(receipt), None, db.now)];
      if db.invitations[record.invitation].state.Pending? {
        AdvanceEvolves(db, finished, record.invitation, row, commandId, NotifyLifecycle(Accepted), InvitationAccepted,
                       if row.acceptanceSubject.Some? then row.acceptanceSubject.value else SYSTEM_MEMBERSHIP);
      }
    }
  }

  lemma FailEvolves(db: Database, record: CommandRecord, error: Name, commandId: Uuid)
    requires Consistent(db) && Held(db.commands, record) && commandId !in db.commands
    ensures Evolves(db, FailCommand(db, record, error, commandId).0)
  {
    hide RecordsOk, LedgerOk, Advance;
    EvolvesReflexive(db);
    CommandIsOk(db, record.command);
    if Fenced(db.commands, record) {
      var failed := db.commands[record.command := FinishedCommand(db.commands[record.command], Failed, None,
                                                                  Some(error), db.now)];
      if record.kind.AddMember? && Matches(record.kind, db.invitations[record.invitation]) {
        ExpireEvolves(db, failed, record.invitation, commandId, AcceptanceFailed, SYSTEM_MEMBERSHIP_FAILURE);
        ReleaseEvolves(db, Expire(db, failed, record.invitation, commandId, AcceptanceFailed,
                                  SYSTEM_MEMBERSHIP_FAILURE), record.command);
      }
    }
  }

  lemma ReleaseEvolves(db: Database, db': Database, c: Uuid)
    requires Evolves(db, db')
    ensures Evolves(db, db'.(mutations := ReleaseBound(db.mutations, c)))
  {
  }

  lemma CompletionsEvolve(db: Database, record: CommandRecord, intentId: Name, deliveryId: Name, recorded: bool)
    ensures Evolves(db, CompleteNotification(db, record, intentId, deliveryId).0)
    ensures Evolves(db, CompleteLifecycle(db, record, recorded).0)
  {
    hide CommandsEvolve, MutationsEvolve;
    EvolvesReflexive(db);
    if Fenced(db.commands, record) {
      var command := db.commands[record.command];
      CommandUpdateEvolves(db, record.command,
                           FinishedCommand(command, Completed, Some(NotificationReceipt(intentId, deliveryId)), None,
                                           db.now));
      CommandUpdateEvolves(db, record.command,
                           FinishedCommand(command, Completed, Some(LifecycleReceipt(recorded)), None, db.now));
    }
  }

  lemma RetriesEvolve(db: Database, record: CommandRecord, error: Name, delay: int)
    ensures Evolves(db, RetryCommand(db, record, error, delay).0)
    ensures Evolves(db, SupersedeCommand(db, record).0)
  {
    hide Evolves;
    EvolvesReflexive(db);
    if Fenced(db.commands, record) {
      CommandUpdateEvolves(db, record.command, RetriedCommand(db.commands[record.command], error, delay, db.now));
      CommandUpdateEvolves(db, record.command, SupersededCommand(db.commands[record.command], db.now));
    }
  }

  lemma {:induction false} ExpireRowsEvolve(db: Database, ids: seq<Uuid>, newIds: seq<Uuid>, n: nat, actor: Name)
    requires Consistent(db)
    requires n <= |ids| && n <= |newIds| && Distinct(ids) && FreshIn(db.commands, newIds)
    requires forall m | 0 <= m < |ids| :: ids[m] in db.invitations && Unaccepted(db.invitations[ids[m]])
    ensures Evolves(db, ExpireRows(db, ids, newIds, n, actor))
  {
    hide Consistent, Expire, Evolves, FreshIn, Distinct;
    if n == 0 {
      EvolvesReflexive(db);
    } else {
      ExpireRowsEvolve(db, ids, newIds, n - 1, actor);
      BeforeRow(db, ids, newIds, n, actor);
      var before := ExpireRows(db, ids, newIds, n - 1, actor);
      ExpireEvolves(before, before.commands, ids[n - 1], newIds[n - 1], InvitationExpired, actor);
      EvolvesTransitive(db, before,
                        Expire(before, before.commands, ids[n - 1], newIds[n - 1], InvitationExpired, actor));
    }
  }

  lemma ExpireDueEvolves(db: Database, r: Request, organization: Name, limit: int, locked: set<Uuid>, newIds: seq<Uuid>)
    requires Consistent(db) && limit <= |newIds| && FreshIn(db.commands, newIds)
    ensures Evolves(db, ExpireDueInvitations(db, r, organization, limit, locked, newIds).0)
  {
    hide RecordsOk, LedgerOk;
    EvolvesReflexive(db);
    if BeginMutation(db.mutations, r).New? {
      BatchIsDue(db, organization, limit, locked);
      var ids := ExpiryBatch(db, organization, limit, locked);
      ExpireRowsEvolve(db, ids, newIds, |ids|, r.actor);
      ExpireRowsIsConsistent(db, ids, newIds, |ids|, r.actor);
      var db' := ExpireRows(db, ids, newIds, |ids|, r.actor);
      var response := ExpireResponse(ExpireResult(|ids|, ExpiredItems(db.invitations, ids),
                                                  AnyDue(db'.invitations, organization, db.now)));
      var m := CompletedMutation(r, organization, None, response, db.now);
      PutEvolves(db', r.key, m);
      EvolvesTransitive(db, db', PutMutation(db', r.key, m));
    }
  }

  lemma ClaimDueEvolves(db: Database, organization: Name, limit: int, leaseSeconds: int, locked: set<Uuid>,
                        leases: seq<Uuid>)
    requires Consistent(db) && limit <= |leases|
    ensures Evolves(db, ClaimDueCommands(db, organization, limit, leaseSeconds, locked, leases).0)
  {
    hide Consistent, ClaimedSoFar, ClaimRows, InvitationsEvolve, CommandsEvolve, MutationsEvolve;
    BatchIsClaimable(db, organization, limit, locked);
    var ids := ClaimBatch(db, organization, limit, locked);
    ClaimRowsIsConsistent(db, ids, leases, |ids|, leaseSeconds);
    EvolvesReflexive(db);
    ClaimedEvolve(db.commands, ClaimRows(db.commands, ids, leases, |ids|, leaseSeconds, db.now), ids, leases,
                  leaseSeconds, db.now);
  }

  lemma ClaimedEvolve(commands: Commands, commands': Commands, ids: seq<Uuid>, leases: seq<Uuid>, leaseSeconds: int,
                      now: Time)
    requires |ids| <= |leases| && forall m | 0 <= m < |ids| :: ids[m] in commands && Active(commands[ids[m]])
    requires ClaimedSoFar(commands, commands', ids, leases, |ids|, leaseSeconds, now)
    ensures CommandsEvolve(commands, commands')
  {
    forall c | c in commands ensures c in commands' && CommandEvolves(commands[c], commands'[c]) {
      if c in ids[..|ids|] {
        var m :| 0 <= m < |ids| && ids[m] == c;
        assert commands'[ids[m]] == ClaimedCommand(commands[ids[m]], leases[m], leaseSeconds, now);
      }
    }
  }

  lemma DispatchEvolves(db: Database, r: Request, organization: Name, result: DispatchResult)
    ensures Evolves(db, BeginDispatch(db, r, organization).0)
    ensures Evolves(db, CompleteDispatch(db, r.key, result).0)
  {
    hide Evolves;
    EvolvesReflexive(db);
    if r.key !in db.mutations {
      PutEvolves(db, r.key, StartedMutation(r, organization, db.now));
    } else if db.mutations[r.key].operation.DispatchDue? && db.mutations[r.key].status.Started? {
      PutEvolves(db, r.key, db.mutations[r.key].(status := Finished, response := Some(DispatchResponse(result))));
    }
  }
}
