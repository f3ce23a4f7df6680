/** Claims, completions, retries, failures, supersession and the two batch operations keep the schema consistent. */
module Outbox {
  import opened Schema
  import opened Storage
  import opened Consistency
  import opened Preservation
  import opened Effects

  /** A record describes the command it was made from. */
  predicate Describes(record: CommandRecord, command: Command) {
    && record.organization == command.organization && record.invitation == command.invitation
    && record.kind == command.kind && record.key == command.key
  }

  predicate Held(commands: Commands, record: CommandRecord) {
    record.command in commands && Describes(record, commands[record.command])
  }

  /** One command row changes in place. */
  lemma CommandUpdateIsConsistent(db: Database, c: Uuid, command: Command)
    requires Consistent(db)
    requires c in db.commands && SameCommand(db.commands[c], command)
    requires db.commands[c].invitation in db.invitations ==> CommandOk(command, db.invitations[command.invitation])
    requires command.kind.AddMember? ==>
      KeepsBinding(db.commands[c], command) && (command.state.Failed? <==> db.commands[c].state.Failed?)
    ensures Consistent(db.(commands := db.commands[c := command]))
  {
    hide NumbersOk, EmailsOk, Census, UniqueKeys, ActivityOk, MutationsOk, BindingsOk, RowOk;
    UpdateCommand(db.invitations, db.commands, c, command);
    LedgerFrame(db, db.(commands := db.commands[c := command]));
  }

  lemma CommandIsOk(db: Database, c: Uuid)
    requires Consistent(db) && c in db.commands
    ensures db.commands[c].invitation in db.invitations
    ensures CommandOk(db.commands[c], db.invitations[db.commands[c].invitation])
    ensures RowOk(db.invitations[db.commands[c].invitation])
  {
  }

  lemma ClaimIsConsistent(db: Database, c: Uuid, lease: Uuid, leaseSeconds: int)
    requires Consistent(db) && c in db.commands && Active(db.commands[c])
    ensures Consistent(db.(commands := db.commands[c := ClaimedCommand(db.commands[c], lease, leaseSeconds, db.now)]))
  {
    hide RecordsOk, LedgerOk;
    CommandIsOk(db, c);
    CommandUpdateIsConsistent(db, c, ClaimedCommand(db.commands[c], lease, leaseSeconds, db.now));
  }

  lemma RetryIsConsistent(db: Database, record: CommandRecord, error: Name, delay: int)
    requires Consistent(db)
    ensures Consistent(RetryCommand(db, record, error, delay).0)
  {
    hide RecordsOk, LedgerOk;
    if Fenced(db.commands, record) {
      CommandIsOk(db, record.command);
      CommandUpdateIsConsistent(db, record.command, RetriedCommand(db.commands[record.command], error, delay, db.now));
    }
  }

  /** Superseding is consistent exactly because a worker only supersedes what its invitation no longer wants. */
  lemma SupersedeIsConsistent(db: Database, record: CommandRecord)
    requires Consistent(db) && Held(db.commands, record)
    requires record.invitation in db.invitations && !Matches(record.kind, db.invitations[record.invitation])
    ensures Consistent(SupersedeCommand(db, record).0)
  {
    hide RecordsOk, LedgerOk;
    if Fenced(db.commands, record) {
      CommandIsOk(db, record.command);
      CommandUpdateIsConsistent(db, record.command, SupersededCommand(db.commands[record.command], db.now));
    }
  }

  lemma LifecycleCompletionIsConsistent(db: Database, record: CommandRecord, recorded: bool)
    requires Consistent(db) && Held(db.commands, record) && record.kind.NotifyLifecycle?
    ensures Consistent(CompleteLifecycle(db, record, recorded).0)
  {
    hide RecordsOk, LedgerOk;
    if Fenced(db.commands, record) {
      CommandIsOk(db, record.command);
      CommandUpdateIsConsistent(db, record.command,
        FinishedCommand(db.commands[record.command], Completed, Some(LifecycleReceipt(recorded)), None, db.now));
    }
  }

  // ------------------------------------------------------ notification outcomes

  lemma OneNotification(db: Database, c: Uuid, d: Uuid)
    requires RecordsOk(db) && c in db.commands && d in db.commands
    requires db.commands[c].kind.NotifyInvitation? && db.commands[c].kind == db.commands[d].kind
    requires db.commands[c].invitation == db.commands[d].invitation
    ensures c == d
  {
    assert CommandOk(db.commands[c], db.invitations[db.commands[c].invitation]);
    assert CommandOk(db.commands[d], db.invitations[db.commands[d].invitation]);
  }

  /** The delivery state and the notification command move together. */
  lemma DeliveryOutbox(db: Database, c: Uuid, row: Invitation, command: Command)
    requires RecordsOk(db) && c in db.commands && SameCommand(db.commands[c], command)
    requires command.kind.NotifyInvitation? && command.invitation in db.invitations
    requires db.invitations[command.invitation].state.Pending?
    requires command.kind.generation == db.invitations[command.invitation].tokenGeneration
    requires row == db.invitations[command.invitation].(delivery := row.delivery, updatedAt := row.updatedAt,
                                                        intentId := row.intentId, deliveryId := row.deliveryId)
    requires CommandOk(command, row)
    ensures CommandsOk(db.invitations[command.invitation := row], db.commands[c := command])
    ensures UniqueKeys(db.commands[c := command])
    ensures Census(db.invitations[command.invitation := row], db.commands[c := command])
  {
    hide NumbersOk, EmailsOk, ActivityOk;
    var id := command.invitation;
    var commands := db.commands[c := command];
    SameKeys(db.commands, commands);
    assert Census(db.invitations[id := row], commands) by {
      forall k: CommandKey ensures HasKey(commands, k) <==> OwedIn(db.invitations[id := row], k) {
        assert HasKey(db.commands, k) <==> OwedIn(db.invitations, k);
      }
    }
    forall d | d in commands && commands[d].invitation == id ensures CommandOk(commands[d], row) {
      assert CommandOk(db.commands[d], db.invitations[id]);
      if d != c { OtherFitsDelivery(db, c, d, row); }
    }
  }

  lemma OtherFitsDelivery(db: Database, c: Uuid, d: Uuid, row: Invitation)
    requires RecordsOk(db) && c in db.commands && d in db.commands && c != d
    requires db.commands[c].kind.NotifyInvitation? && db.commands[c].invitation == db.commands[d].invitation
    requires db.commands[c].invitation in db.invitations
    requires db.commands[c].kind.generation == db.invitations[db.commands[c].invitation].tokenGeneration
    requires var was := db.invitations[db.commands[c].invitation];
      row == was.(delivery := row.delivery, updatedAt := row.updatedAt, intentId := row.intentId,
                  deliveryId := row.deliveryId)
    ensures CommandOk(db.commands[d], row)
  {
    hide NumbersOk, EmailsOk, ActivityOk, Census;
    assert CommandOk(db.commands[d], db.invitations[db.commands[d].invitation]);
    if db.commands[d].kind == db.commands[c].kind { OneNotification(db, c, d); }
  }

  lemma DeliveryKeepsRow(db: Database, id: Uuid, row: Invitation)
    requires RecordsOk(db) && id in db.invitations && db.invitations[id].state.Pending?
    requires row == db.invitations[id].(delivery := row.delivery, updatedAt := row.updatedAt, intentId := row.intentId,
                                        deliveryId := row.deliveryId)
    ensures RowOk(row) && SameIdentity(db.invitations[id], row)
  {
    hide NumbersOk, EmailsOk, Census, UniqueKeys, CommandsOk, ActivityOk;
    assert RowOk(db.invitations[id]);
  }

  lemma DeliveryIsConsistent(db: Database, c: Uuid, row: Invitation, command: Command)
    requires Consistent(db) && c in db.commands && SameCommand(db.commands[c], command)
    requires command.kind.NotifyInvitation? && command.invitation in db.invitations
    requires db.invitations[command.invitation].state.Pending?
    requires command.kind.generation == db.invitations[command.invitation].tokenGeneration
    requires row == db.invitations[command.invitation].(delivery := row.delivery, updatedAt := row.updatedAt,
                                                        intentId := row.intentId, deliveryId := row.deliveryId)
    requires CommandOk(command, row)
    ensures Consistent(db.(invitations := db.invitations[command.invitation := row],
                           commands := db.commands[c := command]))
  {
    hide NumbersOk, EmailsOk, Census, UniqueKeys, CommandOk, CommandsOk, RowOk, ActivityOk, MutationsOk, BindingsOk;
    var db' := db.(invitations := db.invitations[command.invitation := row], commands := db.commands[c := command]);
    DeliveryKeepsRow(db, command.invitation, row);
    DeliveryOutbox(db, c, row, command);
    UpdateRow(db.invitations, db.sequences, command.invitation, row);
    SameRevision(db.invitations, db.activity, command.invitation, row);
    LedgerFrame(db, db');
  }

  lemma NotificationCompletionIsConsistent(db: Database, record: CommandRecord, intentId: Name, deliveryId: Name)
    requires Consistent(db) && Held(db.commands, record) && record.kind.NotifyInvitation?
    ensures Consistent(CompleteNotification(db, record, intentId, deliveryId).0)
  {
    hide RecordsOk, LedgerOk;
    if Fenced(db.commands, record) {
      CommandIsOk(db, record.command);
      var command := FinishedCommand(db.commands[record.command], Completed,
                                     Some(NotificationReceipt(intentId, deliveryId)), None, db.now);
      if TakesReceipt(db.invitations, record) {
        DeliveryIsConsistent(db, record.command,
          DeliveryUpdated(db.invitations[record.invitation], DeliveryQueued,
                          db.now).(intentId := Some(intentId), deliveryId := Some(deliveryId)), command);
      } else {
        CommandUpdateIsConsistent(db, record.command, command);
      }
    }
  }

  /** A permanent failure: of a notification, of a lifecycle notice, or of the membership itself. */
  lemma FailIsConsistent(db: Database, record: CommandRecord, error: Name, commandId: Uuid)
    requires Consistent(db) && Held(db.commands, record) && commandId !in db.commands
    ensures Consistent(FailCommand(db, record, error, commandId).0)
  {
    hide RecordsOk, LedgerOk;
    if Fenced(db.commands, record) {
      CommandIsOk(db, record.command);
      var command := FinishedCommand(db.commands[record.command], Failed, None, Some(error), db.now);
      if record.kind.AddMember? {
        assert Matches(record.kind, db.invitations[record.invitation]);
        MembershipFailedIsConsistent(db, record, error, commandId);
      } else if TakesReceipt(db.invitations, record) {
        DeliveryIsConsistent(db, record.command,
                             DeliveryUpdated(db.invitations[record.invitation], DeliveryFailed, db.now), command);
      } else {
        CommandUpdateIsConsistent(db, record.command, command);
      }
    }
  }

  lemma CompleteAcceptIsConsistent(db: Database, record: CommandRecord, membershipId: Name, providerRevision: Name,
                                   commandId: Uuid)
    requires Consistent(db) && Held(db.commands, record) && record.kind.AddMember? && commandId !in db.commands
    ensures Consistent(CompleteAccept(db, record, membershipId, providerRevision, commandId).0)
  {
    hide RecordsOk, LedgerOk, AcceptanceCompleted;
    if Fenced(db.commands, record) {
      CommandIsOk(db, record.command);
      AcceptanceCompletedIsConsistent(db, record, membershipId, MembershipReceipt(membershipId, providerRevision),
                                      commandId);
    }
  }

  // ------------------------------------------------------------------ batches

  predicate Distinct(ids: seq<Uuid>) {
    forall m, n | 0 <= m < n < |ids| :: ids[m] != ids[n]
  }

  predicate FreshIn(commands: Commands, ids: seq<Uuid>) {
    Distinct(ids) && forall n | 0 <= n < |ids| :: ids[n] !in commands
  }

  /** What the expiry loop has done after `n` rows, and what it has not touched yet. */
  ghost predicate ExpiredSoFar(db: Database, db': Database, ids: seq<Uuid>, newIds: seq<Uuid>, n: nat)
    requires n <= |ids| && n <= |newIds|
  {
    && db'.mutations == db.mutations && db'.now == db.now && db'.sequences == db.sequences
    && db'.invitations.Keys == db.invitations.Keys
    && (forall i | i in db.invitations && i !in ids[..n] :: db'.invitations[i] == db.invitations[i])
    && (forall i | i in ids[..n] && i in db.invitations :: db'.invitations[i] == ExpiredRow(db.invitations[i], db.now))
    && (forall c | c in db'.commands :: c in db.commands || c in newIds[..n])
  }

  /** The expiry loop touches its rows one by one, each once. */
  lemma {:induction false} ExpireRowsFrame(db: Database, ids: seq<Uuid>, newIds: seq<Uuid>, n: nat, actor: Name)
    requires n <= |ids| && n <= |newIds| && Distinct(ids)
    requires forall m | 0 <= m < |ids| :: ids[m] in db.invitations
    ensures ExpiredSoFar(db, ExpireRows(db, ids, newIds, n, actor), ids, newIds, n)
  {
    hide Expire;
    if n > 0 {
      ExpireRowsFrame(db, ids, newIds, n - 1, actor);
      assert ids[n - 1] !in ids[..n - 1];
      ExpireStep(db, ExpireRows(db, ids, newIds, n - 1, actor), ids, newIds, n, actor);
    }
  }

  lemma {:induction false} ExpireRowsIsConsistent(db: Database, ids: seq<Uuid>, newIds: seq<Uuid>, n: nat, actor: Name)
    requires Consistent(db)
    requires n <= |ids| && n <= |newIds| && Distinct(ids) && FreshIn(db.commands, newIds)
    requires forall m | 0 <= m < |ids| :: ids[m] in db.invitations && Unaccepted(db.invitations[ids[m]])
    ensures Consistent(ExpireRows(db, ids, newIds, n, actor))
    ensures ExpiredSoFar(db, ExpireRows(db, ids, newIds, n, actor), ids, newIds, n)
  {
    hide RecordsOk, LedgerOk, Expire, ExpiredSoFar, FreshIn, Distinct;
    ExpireRowsFrame(db, ids, newIds, n, actor);
    if n > 0 {
      ExpireRowsIsConsistent(db, ids, newIds, n - 1, actor);
      var before := ExpireRows(db, ids, newIds, n - 1, actor);
      RowStillThere(db, before, ids, newIds, n);
      ExpireIsConsistent(before, ids[n - 1], newIds[n - 1], InvitationExpired, actor);
    }
  }

  /** The loop has not touched its next row, nor used its next identifier. */
  lemma RowStillThere(db: Database, before: Database, ids: seq<Uuid>, newIds: seq<Uuid>, n: nat)
    requires 0 < n <= |ids| && n <= |newIds| && Distinct(ids) && FreshIn(db.commands, newIds)
    requires ids[n - 1] in db.invitations && ExpiredSoFar(db, before, ids, newIds, n - 1)
    ensures before.now == db.now
    ensures ids[n - 1] in before.invitations && before.invitations[ids[n - 1]] == db.invitations[ids[n - 1]]
    ensures newIds[n - 1] !in before.commands
  {
    assert ids[n - 1] !in ids[..n - 1];
  }

  /** Before row `n` the schema is consistent, and the row and the identifier it will use are untouched. */
  lemma BeforeRow(db: Database, ids: seq<Uuid>, newIds: seq<Uuid>, n: nat, actor: Name)
    requires Consistent(db) && 0 < n <= |ids| && n <= |newIds| && Distinct(ids) && FreshIn(db.commands, newIds)
    requires forall m | 0 <= m < |ids| :: ids[m] in db.invitations && Unaccepted(db.invitations[ids[m]])
    ensures var before := ExpireRows(db, ids, newIds, n - 1, actor);
      && Consistent(before) && before.now == db.now
      && ids[n - 1] in before.invitations && before.invitations[ids[n - 1]] == db.invitations[ids[n - 1]]
      && newIds[n - 1] !in before.commands
  {
    hide RecordsOk, LedgerOk, Expire, ExpireRows, ExpiredSoFar, FreshIn, Distinct;
    ExpireRowsIsConsistent(db, ids, newIds, n - 1, actor);
    RowStillThere(db, ExpireRows(db, ids, newIds, n - 1, actor), ids, newIds, n);
  }

  /** What the loop leaves of any row. */
  lemma AfterRows(db: Database, ids: seq<Uuid>, newIds: seq<Uuid>, actor: Name)
    requires |ids| <= |newIds| && Distinct(ids) && forall m | 0 <= m < |ids| :: ids[m] in db.invitations
    ensures var invitations := ExpireRows(db, ids, newIds, |ids|, actor).invitations;
      && invitations.Keys == db.invitations.Keys
      && forall i | i in db.invitations ::
           invitations[i] == if i in ids then ExpiredRow(db.invitations[i], db.now) else db.invitations[i]
  {
    hide ExpireRows, ExpiredRow;
    ExpireRowsFrame(db, ids, newIds, |ids|, actor);
    assert ids[..|ids|] == ids;
  }

  lemma ExpireStep(db: Database, before: Database, ids: seq<Uuid>, newIds: seq<Uuid>, n: nat, actor: Name)
    requires 0 < n <= |ids| && n <= |newIds|
    requires ExpiredSoFar(db, before, ids, newIds, n - 1) && ids[n - 1] !in ids[..n - 1] && ids[n - 1] in db.invitations
    ensures ExpiredSoFar(db, Expire(before, before.commands, ids[n - 1], newIds[n - 1], InvitationExpired, actor), ids,
                         newIds, n)
  {
    hide HasKey, ExpiredRow;
    assert ids[..n] == ids[..n - 1] + [ids[n - 1]];
    assert newIds[..n] == newIds[..n - 1] + [newIds[n - 1]];
    var id := ids[n - 1];
    assert before.invitations[id] == db.invitations[id];
  }

  lemma ExpireDueIsConsistent(db: Database, r: Request, organization: Name, limit: int, locked: set<Uuid>,
                              newIds: seq<Uuid>)
    requires Consistent(db) && r.operation.ExpireDue? && limit <= |newIds| && FreshIn(db.commands, newIds)
    ensures Consistent(ExpireDueInvitations(db, r, organization, limit, locked, newIds).0)
  {
    hide RecordsOk, LedgerOk;
    if BeginMutation(db.mutations, r).New? {
      BatchIsDue(db, organization, limit, locked);
      var ids := ExpiryBatch(db, organization, limit, locked);
      ExpireRowsIsConsistent(db, ids, newIds, |ids|, r.actor);
      var db' := ExpireRows(db, ids, newIds, |ids|, r.actor);
      var response := ExpireResponse(ExpireResult(|ids|, ExpiredItems(db.invitations, ids),
                                                  AnyDue(db'.invitations, organization, db.now)));
      UnboundFits(r, organization, None, response, db'.(now := db.now));
      PutIsConsistent(db', r.key, CompletedMutation(r, organization, None, response, db.now));
    }
  }

  /** What the claim loop has done after `n` commands. */
  predicate ClaimedSoFar(commands: Commands, commands': Commands, ids: seq<Uuid>, leases: seq<Uuid>, n: nat,
                         leaseSeconds: int, now: Time)
    requires n <= |ids| && n <= |leases|
    requires forall m | 0 <= m < n :: ids[m] in commands
  {
    && commands'.Keys == commands.Keys
    && (forall c | c in commands && c !in ids[..n] :: commands'[c] == commands[c])
    && (forall m | 0 <= m < n ::
          ids[m] in commands' && commands'[ids[m]] == ClaimedCommand(commands[ids[m]], leases[m], leaseSeconds, now))
  }

  lemma {:induction false} ClaimRowsIsConsistent(db: Database, ids: seq<Uuid>, leases: seq<Uuid>, n: nat,
                                                 leaseSeconds: int)
    requires Consistent(db)
    requires n <= |ids| && n <= |leases| && Distinct(ids)
    requires forall m | 0 <= m < |ids| :: ids[m] in db.commands && Active(db.commands[ids[m]])
    ensures var commands := ClaimRows(db.commands, ids, leases, n, leaseSeconds, db.now);
      Consistent(db.(commands := commands)) && ClaimedSoFar(db.commands, commands, ids, leases, n, leaseSeconds, db.now)
  {
    hide RecordsOk, LedgerOk, ClaimedSoFar, Distinct, ClaimedCommand;
    if n == 0 {
      assert db.(commands := db.commands) == db;
      NothingClaimed(db.commands, ids, leases, leaseSeconds, db.now);
    } else {
      ClaimRowsIsConsistent(db, ids, leases, n - 1, leaseSeconds);
      var before := ClaimRows(db.commands, ids, leases, n - 1, leaseSeconds, db.now);
      ClaimStep(db.commands, before, ids, leases, n, leaseSeconds, db.now);
      ClaimIsConsistent(db.(commands := before), ids[n - 1], leases[n - 1], leaseSeconds);
    }
  }

  lemma NothingClaimed(commands: Commands, ids: seq<Uuid>, leases: seq<Uuid>, leaseSeconds: int, now: Time)
    ensures ClaimedSoFar(commands, commands, ids, leases, 0, leaseSeconds, now)
  {
  }

  lemma ClaimStep(commands: Commands, before: Commands, ids: seq<Uuid>, leases: seq<Uuid>, n: nat, leaseSeconds: int,
                  now: Time)
    requires 0 < n <= |ids| && n <= |leases| && Distinct(ids) && forall m | 0 <= m < |ids| :: ids[m] in commands
    requires ClaimedSoFar(commands, before, ids, leases, n - 1, leaseSeconds, now)
    ensures ids[n - 1] in before && before[ids[n - 1]] == commands[ids[n - 1]]
    ensures ClaimedSoFar(commands,
                         before[ids[n - 1] := ClaimedCommand(before[ids[n - 1]], leases[n - 1], leaseSeconds, now)],
                         ids, leases, n, leaseSeconds, now)
  {
    hide ClaimedCommand;
    assert ids[..n] == ids[..n - 1] + [ids[n - 1]];
    assert ids[n - 1] !in ids[..n - 1];
  }

  lemma ClaimDueIsConsistent(db: Database, organization: Name, limit: int, leaseSeconds: int, locked: set<Uuid>,
                             leases: seq<Uuid>)
    requires Consistent(db) && limit <= |leases|
    ensures Consistent(ClaimDueCommands(db, organization, limit, leaseSeconds, locked, leases).0)
  {
    hide RecordsOk, LedgerOk;
    BatchIsClaimable(db, organization, limit, locked);
    var ids := ClaimBatch(db, organization, limit, locked);
    ClaimRowsIsConsistent(db, ids, leases, |ids|, leaseSeconds);
  }

  // ----------------------------------------------------------- whole operations

  lemma CreateIsConsistent(db: Database, r: Request, id: Uuid, organization: Name, email: Name, emailNormalized: Name,
                           tokenHash: Verifier, ttl: int, commandId: Uuid)
    requires Consistent(db) && r.operation.Invite? && commandId !in db.commands
    ensures Consistent(CreateInvitation(db, r, id, organization, email, emailNormalized, tokenHash, ttl, commandId).0)
  {
    hide RecordsOk, LedgerOk, Created, PendingEmail;
    var number := NextNumber(db.sequences, organization);
    if BeginMutation(db.mutations, r).New? && !PendingEmail(db.invitations, organization, emailNormalized) &&
       number > 0 && id !in db.invitations
    {
      CreatedIsConsistent(db, r, id,
                          NewInvitation(organization, number, email, emailNormalized, r.actor, tokenHash, ttl,
                                        db.now), commandId);
    }
  }

  lemma ResendIsConsistent(db: Database, r: Request, organization: Name, id: Uuid, expectedRevision: int,
                           tokenHash: Verifier, ttl: int, commandId: Uuid)
    requires Consistent(db) && r.operation.Resend? && commandId !in db.commands
    ensures Consistent(ResendInvitation(db, r, organization, id, expectedRevision, tokenHash, ttl, commandId).0)
  {
    hide RecordsOk, LedgerOk, Resent;
    if BeginMutation(db.mutations, r).New? && Guard(db.invitations, organization, id, expectedRevision).None? {
      ResentIsConsistent(db, r, id, tokenHash, ttl, commandId);
    }
  }

  lemma RevokeIsConsistent(db: Database, r: Request, organization: Name, id: Uuid, expectedRevision: int, reason: Name,
                           commandId: Uuid)
    requires Consistent(db) && r.operation.Revoke? && commandId !in db.commands
    ensures Consistent(RevokeInvitation(db, r, organization, id, expectedRevision, reason, commandId).0)
  {
    hide RecordsOk, LedgerOk, RevokedDb;
    if BeginMutation(db.mutations, r).New? && Guard(db.invitations, organization, id, expectedRevision).None? {
      RevokedIsConsistent(db, r, id, reason, commandId);
    }
  }

  lemma BeginAcceptIsConsistent(db: Database, r: Request, id: Uuid, expectedRevision: int, observedGeneration: int,
                                observedHash: Verifier, leaseSeconds: int, commandId: Uuid, lease: Uuid)
    requires Consistent(db) && r.operation.Accept? && commandId !in db.commands
    ensures Consistent(BeginAccept(db, r, id, expectedRevision, observedGeneration, observedHash, leaseSeconds,
                                   commandId, lease).0)
  {
    hide RecordsOk, LedgerOk, AcceptStarted, Expire, HasKey;
    if BeginMutation(db.mutations, r).New? && id in db.invitations &&
       GuardRow(db.invitations[id], expectedRevision).None?
    {
      ExpireIsConsistent(db, id, commandId, InvitationExpired, SYSTEM_ACCEPT);
      AcceptStartedIsConsistent(db, r, id, leaseSeconds, commandId, lease);
    }
  }

  lemma BeginDispatchIsConsistent(db: Database, r: Request, organization: Name)
    requires Consistent(db) && r.operation.DispatchDue?
    ensures Consistent(BeginDispatch(db, r, organization).0)
  {
    hide RecordsOk, LedgerOk;
    if BeginMutation(db.mutations, r).New? {
      PutIsConsistent(db, r.key, StartedMutation(r, organization, db.now));
    }
  }

  lemma CompleteDispatchIsConsistent(db: Database, key: MutationKey, result: DispatchResult)
    requires Consistent(db)
    ensures Consistent(CompleteDispatch(db, key, result).0)
  {
    if key in db.mutations && db.mutations[key].operation.DispatchDue? && db.mutations[key].status.Started? {
      assert MutationOk(db.mutations[key], db.invitations, db.commands);
      PutIsConsistent(db, key, db.mutations[key].(status := Finished, response := Some(DispatchResponse(result))));
    }
  }
}
