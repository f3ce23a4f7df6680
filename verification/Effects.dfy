/** The committed effects one by one: each keeps the schema consistent. */
module Effects {
  import opened Schema
  import opened Storage
  import opened Consistency
  import opened Preservation

  // ------------------------------------------------------- ledger after an effect

  /** What the acceptance ledger needs of an update: receipts and bound commands stay. */
  predicate LedgerHolds(db: Database, db': Database) {
    && (forall i | i in db.invitations ::
          i in db'.invitations && KeepsReceipt(db.invitations[i], db'.invitations[i]))
    && (forall c | c in db.commands && db.commands[c].kind.AddMember? ::
          c in db'.commands && KeepsBinding(db.commands[c], db'.commands[c]))
    && (forall c | c in db'.commands && db'.commands[c].kind.AddMember? ::
          c in db.commands && db.commands[c].kind.AddMember? &&
          (db.commands[c].state.Failed? <==> db'.commands[c].state.Failed?))
  }

  lemma LedgerFrame(db: Database, db': Database)
    requires LedgerOk(db) && LedgerHolds(db, db') && db'.mutations == db.mutations
    ensures LedgerOk(db')
  {
    MutationsFrame(db.mutations, db.invitations, db.commands, db'.invitations, db'.commands);
    BindingsFrame(db.mutations, db.commands, db'.commands);
  }

  /** A mutation that is not an acceptance may be written beside any consistent tables. */
  lemma PutIsConsistent(db: Database, key: MutationKey, m: Mutation)
    requires Consistent(db)
    requires !m.operation.Accept? && MutationOk(m, db.invitations, db.commands)
    requires key in db.mutations ==> db.mutations[key].command.None?
    ensures Consistent(PutMutation(db, key, m))
  {
    PutUnboundMutation(db.mutations, db.commands, key, m);
  }

  // ---------------------------------------------------------------- creation

  lemma CreatedIsConsistent(db: Database, r: Request, id: Uuid, row: Invitation, commandId: Uuid)
    requires Consistent(db)
    requires r.operation.Invite? && r.key !in db.mutations && id !in db.invitations && commandId !in db.commands
    requires row.number == NextNumber(db.sequences, row.organization)
    requires !PendingEmail(db.invitations, row.organization, row.emailNormalized)
    requires RowOk(row) && row.revision == 1 && Unaccepted(row) && row.delivery.DeliveryPending?
    ensures Consistent(Created(db, r, id, row, commandId))
  {
    hide RecordsOk, LedgerOk, RowOk, MutationOk, PendingEmail, NextNumber, Advance;
    var db1 := CreatedRow(db, id, row, commandId, r.actor);
    CreatedRowIsConsistent(db, id, row, commandId, r.actor);
    UnboundFits(r, row.organization, Some(id), TokenResponse(View(id, row), 1), db1);
    PutIsConsistent(db1, r.key,
                    CompletedMutation(r, row.organization, Some(id), TokenResponse(View(id, row), 1), db.now));
  }

  /** The schema `create_invitation` has written before it completes its mutation. */
  function CreatedRow(db: Database, id: Uuid, row: Invitation, commandId: Uuid, actor: Name): Database {
    Advance(db.(sequences := db.sequences[row.organization := row.number + 1]), db.commands, id, row, commandId,
            NotifyInvitation(1), InvitationCreated, actor)
  }

  lemma CreatedRowIsConsistent(db: Database, id: Uuid, row: Invitation, commandId: Uuid, actor: Name)
    requires Consistent(db)
    requires id !in db.invitations && commandId !in db.commands
    requires row.number == NextNumber(db.sequences, row.organization)
    requires !PendingEmail(db.invitations, row.organization, row.emailNormalized)
    requires RowOk(row) && row.revision == 1 && Unaccepted(row) && row.delivery.DeliveryPending?
    ensures var db1 := CreatedRow(db, id, row, commandId, actor);
      Consistent(db1) && db1.mutations == db.mutations && id in db1.invitations && db1.now == db.now
  {
    hide RecordsOk, LedgerOk, RowOk, UniqueKeys, Census, CommandsOk, PendingEmail, NextNumber, InsertCommand;
    CreatedRecords(db, id, row, commandId, actor);
    CreatedOutbox(db, id, row, commandId);
    LedgerFrame(db, CreatedRow(db, id, row, commandId, actor));
  }

  lemma CreatedRecords(db: Database, id: Uuid, row: Invitation, commandId: Uuid, actor: Name)
    requires RecordsOk(db)
    requires id !in db.invitations && commandId !in db.commands
    requires row.number == NextNumber(db.sequences, row.organization)
    requires !PendingEmail(db.invitations, row.organization, row.emailNormalized)
    requires RowOk(row) && row.revision == 1 && Unaccepted(row) && row.delivery.DeliveryPending?
    ensures RecordsOk(CreatedRow(db, id, row, commandId, actor))
  {
    hide RowOk, NumbersOk, EmailsOk, CommandOk, CommandsOk, UniqueKeys, Census, ActivityOk, PendingEmail, NextNumber,
         InsertCommand;
    CreatedOutbox(db, id, row, commandId);
    InsertRow(db.invitations, db.sequences, id, row);
    AppendActivity(db.invitations, db.activity, id, row,
                   Activity(row.organization, id, InvitationCreated, actor, row.revision, db.now));
  }

  lemma UnboundFits(r: Request, organization: Name, invitation: Option<Uuid>, response: Response, db: Database)
    requires !r.operation.Accept? && ResponseFits(r.operation, response)
    requires invitation.Some? ==> invitation.value in db.invitations
    ensures MutationOk(CompletedMutation(r, organization, invitation, response, db.now), db.invitations, db.commands)
  {
  }

  lemma CreatedOutbox(db: Database, id: Uuid, row: Invitation, commandId: Uuid)
    requires RecordsOk(db)
    requires id !in db.invitations && commandId !in db.commands
    requires RowOk(row) && row.revision == 1 && Unaccepted(row) && row.delivery.DeliveryPending?
    ensures var command := NewCommand(row.organization, id, NotifyInvitation(1), db.now);
      && InsertCommand(db.commands, commandId, command) == db.commands[commandId := command]
      && CommandsOk(db.invitations[id := row], db.commands[commandId := command])
      && UniqueKeys(db.commands[commandId := command])
      && Census(db.invitations[id := row], db.commands[commandId := command])
  {
    var command := NewCommand(row.organization, id, NotifyInvitation(1), db.now);
    assert RowsMoved(db.commands, db.commands, id, row);
    assert OwesMore(db.invitations, id, row, command.key);
    AdvanceCommands(db.invitations, db.commands, db.commands, id, row, commandId, command);
  }

  // -------------------------------------------- rotation, revocation, expiry

  predicate Unaccepted(row: Invitation) {
    row.state.Pending? && row.acceptanceSubject.None?
  }

  /** After the active notifications are superseded, every command of the invitation fits a row that moved on. */
  lemma SupersededRowsMoved(invitations: Invitations, commands: Commands, id: Uuid, row: Invitation, now: Time)
    requires CommandsOk(invitations, commands)
    requires id in invitations && Unaccepted(invitations[id]) && row.organization == invitations[id].organization
    requires row.acceptanceSubject.None? && row.tokenGeneration >= invitations[id].tokenGeneration
    requires row.state.Pending? ==> row.tokenGeneration > invitations[id].tokenGeneration
    ensures RowsMoved(commands, SupersedeNotifications(commands, id, now), id, row)
  {
    var commands' := SupersedeNotifications(commands, id, now);
    forall c | c in commands' && commands'[c].invitation == id ensures CommandOk(commands'[c], row) {
      assert CommandOk(commands[c], invitations[id]);
    }
  }

  /** A row that moves on in one of the three ways an unaccepted invitation can, without being accepted. */
  predicate MovesOn(row: Invitation, row': Invitation, kind: CommandKind) {
    && Unaccepted(row) && row'.acceptanceSubject.None?
    && SameIdentity(row, row') && RowOk(row')
    && row'.revision == row.revision + 1 >= 1
    && (row'.state.Pending? ==> row'.tokenGeneration == row.tokenGeneration + 1 && row'.delivery.DeliveryPending?)
    && kind == if row'.state.Pending? then NotifyInvitation(row'.tokenGeneration) else NotifyLifecycle(row'.state)
  }

  /** The common part of resend, revoke and expire. */
  function MovedOn(db: Database, id: Uuid, row: Invitation, commandId: Uuid, kind: CommandKind, activity: ActivityKind,
                   actor: Name): Database {
    Advance(db, SupersedeNotifications(db.commands, id, db.now), id, row, commandId, kind, activity, actor)
  }

  lemma MovedOnOutbox(db: Database, id: Uuid, row: Invitation, commandId: Uuid, kind: CommandKind)
    requires RecordsOk(db)
    requires id in db.invitations && commandId !in db.commands && MovesOn(db.invitations[id], row, kind)
    ensures var command := NewCommand(row.organization, id, kind, db.now);
      var superseded := SupersedeNotifications(db.commands, id, db.now);
      && InsertCommand(superseded, commandId, command) == superseded[commandId := command]
      && CommandsOk(db.invitations[id := row], superseded[commandId := command])
      && UniqueKeys(superseded[commandId := command])
      && Census(db.invitations[id := row], superseded[commandId := command])
  {
    hide NumbersOk, EmailsOk, ActivityOk, SupersedeNotifications;
    var command := NewCommand(row.organization, id, kind, db.now);
    SupersededRowsMoved(db.invitations, db.commands, id, row, db.now);
    assert OwesMore(db.invitations, id, row, command.key);
    AdvanceCommands(db.invitations, db.commands, SupersedeNotifications(db.commands, id, db.now), id, row, commandId,
                    command);
  }

  lemma MovedOnRecords(db: Database, id: Uuid, row: Invitation, commandId: Uuid, kind: CommandKind,
                       activity: ActivityKind, actor: Name)
    requires RecordsOk(db)
    requires id in db.invitations && commandId !in db.commands && MovesOn(db.invitations[id], row, kind)
    ensures RecordsOk(MovedOn(db, id, row, commandId, kind, activity, actor))
  {
    hide RowOk, NumbersOk, EmailsOk, CommandOk, CommandsOk, UniqueKeys, Census, ActivityOk, SupersedeNotifications,
         InsertCommand;
    MovedOnOutbox(db, id, row, commandId, kind);
    UpdateRow(db.invitations, db.sequences, id, row);
    AppendActivity(db.invitations, db.activity, id, row,
                   Activity(row.organization, id, activity, actor, row.revision, db.now));
  }

  lemma MovedOnIsConsistent(db: Database, id: Uuid, row: Invitation, commandId: Uuid, kind: CommandKind,
                            activity: ActivityKind, actor: Name)
    requires Consistent(db)
    requires id in db.invitations && commandId !in db.commands && MovesOn(db.invitations[id], row, kind)
    ensures Consistent(MovedOn(db, id, row, commandId, kind, activity, actor))
  {
    hide RecordsOk, LedgerOk, UniqueKeys, Census, CommandsOk, RowOk;
    MovedOnRecords(db, id, row, commandId, kind, activity, actor);
    MovedOnOutbox(db, id, row, commandId, kind);
    LedgerFrame(db, MovedOn(db, id, row, commandId, kind, activity, actor));
  }

  lemma ResentIsConsistent(db: Database, r: Request, id: Uuid, tokenHash: Verifier, ttl: int, commandId: Uuid)
    requires Consistent(db)
    requires r.operation.Resend? && r.key !in db.mutations && commandId !in db.commands
    requires id in db.invitations && Unaccepted(db.invitations[id])
    ensures Consistent(Resent(db, r, id, Rotated(db.invitations[id], tokenHash, ttl, db.now), commandId))
  {
    hide RecordsOk, LedgerOk, MutationOk, Advance;
    var row := Rotated(db.invitations[id], tokenHash, ttl, db.now);
    var kind := NotifyInvitation(row.tokenGeneration);
    assert MovesOn(db.invitations[id], row, kind) by { RowIsOk(db, id); }
    MovedOnIsConsistent(db, id, row, commandId, kind, InvitationResent, r.actor);
    var db1 := MovedOn(db, id, row, commandId, kind, InvitationResent, r.actor);
    AdvanceFrame(db, SupersedeNotifications(db.commands, id, db.now), id, row, commandId, kind, InvitationResent,
                 r.actor);
    UnboundFits(r, row.organization, Some(id), TokenResponse(View(id, row), row.tokenGeneration), db1);
    PutIsConsistent(db1, r.key,
                    CompletedMutation(r, row.organization, Some(id), TokenResponse(View(id, row), row.tokenGeneration),
                                      db.now));
  }

  lemma RowIsOk(db: Database, id: Uuid)
    requires Consistent(db) && id in db.invitations
    ensures RowOk(db.invitations[id])
  {
  }

  lemma AdvanceFrame(db: Database, commands: Commands, id: Uuid, row: Invitation, commandId: Uuid, kind: CommandKind,
                     activity: ActivityKind, actor: Name)
    ensures var db' := Advance(db, commands, id, row, commandId, kind, activity, actor);
      db'.invitations == db.invitations[id := row] && db'.mutations == db.mutations && db'.now == db.now &&
      db'.sequences == db.sequences
  {
  }

  lemma RevokedIsConsistent(db: Database, r: Request, id: Uuid, reason: Name, commandId: Uuid)
    requires Consistent(db)
    requires r.operation.Revoke? && r.key !in db.mutations && commandId !in db.commands
    requires id in db.invitations && Unaccepted(db.invitations[id])
    ensures Consistent(RevokedDb(db, r, id, RevokedRow(db.invitations[id], reason, db.now), commandId))
  {
    hide RecordsOk, LedgerOk, MutationOk, Advance;
    var row := RevokedRow(db.invitations[id], reason, db.now);
    var kind := NotifyLifecycle(Revoked);
    assert MovesOn(db.invitations[id], row, kind) by { RowIsOk(db, id); }
    MovedOnIsConsistent(db, id, row, commandId, kind, InvitationRevoked, r.actor);
    var db1 := MovedOn(db, id, row, commandId, kind, InvitationRevoked, r.actor);
    AdvanceFrame(db, SupersedeNotifications(db.commands, id, db.now), id, row, commandId, kind, InvitationRevoked,
                 r.actor);
    UnboundFits(r, row.organization, Some(id), ViewResponse(View(id, row)), db1);
    PutIsConsistent(db1, r.key, CompletedMutation(r, row.organization, Some(id), ViewResponse(View(id, row)), db.now));
  }

  lemma ExpireIsConsistent(db: Database, id: Uuid, commandId: Uuid, activity: ActivityKind, actor: Name)
    requires Consistent(db)
    requires commandId !in db.commands && id in db.invitations && Unaccepted(db.invitations[id])
    ensures Consistent(Expire(db, db.commands, id, commandId, activity, actor))
  {
    hide RecordsOk, LedgerOk, Advance;
    var row := ExpiredRow(db.invitations[id], db.now);
    assert MovesOn(db.invitations[id], row, NotifyLifecycle(Expired)) by { RowIsOk(db, id); }
    MovedOnIsConsistent(db, id, row, commandId, NotifyLifecycle(Expired), activity, actor);
  }

  /** The command table `Expire` reads is its argument. */
  lemma ExpireIgnoresCommands(db: Database, commands: Commands, id: Uuid, commandId: Uuid, activity: ActivityKind,
                              actor: Name)
    requires id in db.invitations
    ensures Expire(db.(commands := commands), commands, id, commandId, activity, actor) ==
      Expire(db, commands, id, commandId, activity, actor)
  {
  }

  // --------------------------------------------------------------- acceptance

  lemma ConsumedRowsMoved(db: Database, id: Uuid, subject: Name)
    requires RecordsOk(db) && id in db.invitations && Unaccepted(db.invitations[id])
    ensures RowsMoved(db.commands, db.commands, id, ConsumedRow(db.invitations[id], subject, db.now))
  {
    hide NumbersOk, EmailsOk, ActivityOk, Census, UniqueKeys;
    forall c | c in db.commands && db.commands[c].invitation == id
      ensures CommandOk(db.commands[c], ConsumedRow(db.invitations[id], subject, db.now))
    {
      assert CommandOk(db.commands[c], db.invitations[id]);
    }
  }

  lemma AcceptStartOutbox(db: Database, id: Uuid, subject: Name, commandId: Uuid, lease: Uuid, leaseSeconds: int)
    requires RecordsOk(db)
    requires commandId !in db.commands && id in db.invitations && Unaccepted(db.invitations[id])
    ensures var row := ConsumedRow(db.invitations[id], subject, db.now);
      var command := NewCommand(row.organization, id, AddMember(subject), db.now);
      var claimed := ClaimedCommand(command, lease, leaseSeconds, db.now);
      var inserted := db.commands[commandId := command];
      && !HasKey(db.commands, MembershipKey(id))
      && InsertCommand(db.commands, commandId, command) == inserted
      && CommandsOk(db.invitations[id := row], db.commands[commandId := claimed])
      && UniqueKeys(db.commands[commandId := claimed])
      && Census(db.invitations[id := row], db.commands[commandId := claimed])
  {
    hide NumbersOk, EmailsOk, ActivityOk;
    var row := ConsumedRow(db.invitations[id], subject, db.now);
    var command := NewCommand(row.organization, id, AddMember(subject), db.now);
    ConsumedRowsMoved(db, id, subject);
    assert OwesMore(db.invitations, id, row, command.key);
    AdvanceCommands(db.invitations, db.commands, db.commands, id, row, commandId, command);
    var claimed := ClaimedCommand(command, lease, leaseSeconds, db.now);
    UpdateCommand(db.invitations[id := row], db.commands[commandId := command], commandId, claimed);
    assert db.commands[commandId := command][commandId := claimed] == db.commands[commandId := claimed];
  }

  /** The accept mutation that starts is the one bound to the new membership command. */
  lemma BindNewMutation(mutations: Mutations, invitations: Invitations, commands: Commands, commandId: Uuid,
                        command: Command,
                        key: MutationKey, m: Mutation)
    requires MutationsOk(mutations, invitations, commands) && BindingsOk(mutations, commands)
    requires commandId !in commands && command.kind.AddMember? && !command.state.Failed?
    requires key !in mutations && m.command == Some(commandId)
    ensures BindingsOk(mutations[key := m], commands[commandId := command])
  {
    var after := mutations[key := m];
    var commands' := commands[commandId := command];
    forall k | k in mutations ensures mutations[k].command != Some(commandId) {
      assert MutationOk(mutations[k], invitations, commands);
    }
    forall c | c in commands' && commands'[c].kind.AddMember? ensures Bound(after, c) <==> !commands'[c].state.Failed? {
      if c == commandId {
        assert after[key].command == Some(c);
      } else {
        assert Bound(mutations, c) <==> !commands[c].state.Failed?;
        if Bound(mutations, c) {
          var k :| k in mutations && mutations[k].command == Some(c);
          assert after[k].command == Some(c);
        }
        if Bound(after, c) {
          var k :| k in after && after[k].command == Some(c);
          assert mutations[k].command == Some(c);
        }
      }
    }
  }

  lemma AcceptStartLedger(db: Database, r: Request, id: Uuid, commandId: Uuid, lease: Uuid, leaseSeconds: int)
    requires LedgerOk(db)
    requires r.operation.Accept? && r.key !in db.mutations
    requires commandId !in db.commands && id in db.invitations && Unaccepted(db.invitations[id])
    ensures var row := ConsumedRow(db.invitations[id], r.actor, db.now);
      var claimed := ClaimedCommand(NewCommand(row.organization, id, AddMember(r.actor), db.now), lease, leaseSeconds,
                                    db.now);
      var m := Mutation(Accept, r.actor, r.hash, row.organization, Some(id), Some(commandId), Started, None, db.now);
      && MutationsOk(db.mutations[r.key := m], db.invitations[id := row], db.commands[commandId := claimed])
      && BindingsOk(db.mutations[r.key := m], db.commands[commandId := claimed])
  {
    var row := ConsumedRow(db.invitations[id], r.actor, db.now);
    var claimed := ClaimedCommand(NewCommand(row.organization, id, AddMember(r.actor), db.now), lease, leaseSeconds,
                                  db.now);
    var m := Mutation(Accept, r.actor, r.hash, row.organization, Some(id), Some(commandId), Started, None, db.now);
    MutationsFrame(db.mutations, db.invitations, db.commands, db.invitations[id := row],
                   db.commands[commandId := claimed]);
    BindNewMutation(db.mutations, db.invitations, db.commands, commandId, claimed, r.key, m);
  }

  lemma AcceptStartedIsConsistent(db: Database, r: Request, id: Uuid, leaseSeconds: int, commandId: Uuid, lease: Uuid)
    requires Consistent(db)
    requires r.operation.Accept? && r.key !in db.mutations
    requires commandId !in db.commands && id in db.invitations && Unaccepted(db.invitations[id])
    ensures !HasKey(db.commands, MembershipKey(id))
    ensures Consistent(AcceptStarted(db, r, id, leaseSeconds, commandId, commandId, lease))
  {
    hide NumbersOk, EmailsOk, CommandOk, UniqueKeys, Census, MutationOk, BindingsOk, ActivityOk, HasKey;
    var row := ConsumedRow(db.invitations[id], r.actor, db.now);
    var entry := Activity(row.organization, id, AcceptanceStarted, r.actor, row.revision, db.now);
    var db' := AcceptStarted(db, r, id, leaseSeconds, commandId, commandId, lease);
    AcceptStartOutbox(db, id, r.actor, commandId, lease, leaseSeconds);
    var command := NewCommand(row.organization, id, AddMember(r.actor), db.now);
    assert db.commands[commandId := command][commandId := ClaimedCommand(command, lease, leaseSeconds, db.now)]
        == db.commands[commandId := ClaimedCommand(command, lease, leaseSeconds, db.now)];
    assert RecordsOk(db') by {
      assert RowOk(row) && row.revision >= 1;
      UpdateRow(db.invitations, db.sequences, id, row);
      AppendActivity(db.invitations, db.activity, id, row, entry);
    }
    AcceptStartLedger(db, r, id, commandId, lease, leaseSeconds);
  }

  // ------------------------------------------------- acceptance completion

  /** A held membership command whose invitation still waits for it. */
  predicate Awaited(db: Database, c: Uuid) {
    && c in db.commands && db.commands[c].kind.AddMember? && Active(db.commands[c])
    && db.commands[c].invitation in db.invitations
    && Matches(db.commands[c].kind, db.invitations[db.commands[c].invitation])
  }

  lemma OneMembershipCommand(db: Database, c: Uuid, d: Uuid)
    requires RecordsOk(db) && c in db.commands && d in db.commands
    requires db.commands[c].kind.AddMember? && db.commands[d].kind.AddMember?
    requires db.commands[c].invitation == db.commands[d].invitation
    ensures c == d
  {
    assert CommandOk(db.commands[c], db.invitations[db.commands[c].invitation]);
    assert CommandOk(db.commands[d], db.invitations[db.commands[d].invitation]);
  }

  lemma AcceptedOutbox(db: Database, c: Uuid, membershipId: Name, receipt: Receipt, commandId: Uuid)
    requires RecordsOk(db) && Awaited(db, c) && db.commands[c].attempts >= 1 && commandId !in db.commands
    ensures var id := db.commands[c].invitation;
      var row := AcceptedRow(db.invitations[id], membershipId, db.now);
      var finished := db.commands[c := FinishedCommand(db.commands[c], Completed, Some(receipt), None, db.now)];
      var command := NewCommand(row.organization, id, NotifyLifecycle(Accepted), db.now);
      && InsertCommand(finished, commandId, command) == finished[commandId := command]
      && CommandsOk(db.invitations[id := row], finished[commandId := command])
      && UniqueKeys(finished[commandId := command])
      && Census(db.invitations[id := row], finished[commandId := command])
  {
    hide NumbersOk, EmailsOk, ActivityOk;
    var id := db.commands[c].invitation;
    var row := AcceptedRow(db.invitations[id], membershipId, db.now);
    var finished := db.commands[c := FinishedCommand(db.commands[c], Completed, Some(receipt), None, db.now)];
    var command := NewCommand(row.organization, id, NotifyLifecycle(Accepted), db.now);
    AcceptedRowsMoved(db, c, membershipId, receipt);
    assert OwesMore(db.invitations, id, row, command.key) by { assert RowOk(db.invitations[id]); }
    AdvanceCommands(db.invitations, db.commands, finished, id, row, commandId, command);
  }

  lemma AcceptedRowsMoved(db: Database, c: Uuid, membershipId: Name, receipt: Receipt)
    requires RecordsOk(db) && Awaited(db, c) && db.commands[c].attempts >= 1
    ensures var id := db.commands[c].invitation;
      var finished := db.commands[c := FinishedCommand(db.commands[c], Completed, Some(receipt), None, db.now)];
      RowsMoved(db.commands, finished, id, AcceptedRow(db.invitations[id], membershipId, db.now))
  {
    hide NumbersOk, EmailsOk, ActivityOk, Census, UniqueKeys;
    var id := db.commands[c].invitation;
    var finished := db.commands[c := FinishedCommand(db.commands[c], Completed, Some(receipt), None, db.now)];
    assert RowOk(db.invitations[id]);
    forall d | d in finished && finished[d].invitation == id
      ensures CommandOk(finished[d], AcceptedRow(db.invitations[id], membershipId, db.now))
    {
      assert CommandOk(db.commands[d], db.invitations[id]);
      if db.commands[d].kind.AddMember? { OneMembershipCommand(db, c, d); }
    }
  }

  /** Completing the bound mutations along with their command. */
  lemma CompleteBoundLedger(mutations: Mutations, invitations: Invitations, commands: Commands,
                            invitations': Invitations, commands': Commands, c: Uuid, record: AcceptedRecord)
    requires MutationsOk(mutations, invitations, commands) && BindingsOk(mutations, commands)
    requires c in commands && commands[c].kind.AddMember? && Active(commands[c])
    requires forall i | i in invitations :: i in invitations' && KeepsReceipt(invitations[i], invitations'[i])
    requires forall d | d in commands && commands[d].kind.AddMember? ::
      d in commands' && SameCommand(commands[d], commands'[d]) && (d != c ==> KeepsBinding(commands[d], commands'[d]))
    requires forall d | d in commands' && commands'[d].kind.AddMember? ::
      d in commands && commands[d].kind.AddMember? && (commands[d].state.Failed? <==> commands'[d].state.Failed?)
    requires commands'[c].state.Completed? && commands[c].invitation in invitations
    requires ReceiptOf(record, commands[c].invitation, invitations'[commands[c].invitation])
    ensures MutationsOk(CompleteBound(mutations, c, AcceptedResponse(record)), invitations', commands')
    ensures BindingsOk(CompleteBound(mutations, c, AcceptedResponse(record)), commands')
  {
    var after := CompleteBound(mutations, c, AcceptedResponse(record));
    forall k | k in after ensures MutationOk(after[k], invitations', commands') {
      var m := mutations[k];
      assert MutationOk(m, invitations, commands);
      if m.operation.Accept? {
        assert BindingOk(m, invitations, commands);
        assert KeepsReceipt(invitations[m.invitation.value], invitations'[m.invitation.value]);
      }
    }
    forall d: Uuid ensures Bound(after, d) <==> Bound(mutations, d) {
      if Bound(mutations, d) {
        var k :| k in mutations && mutations[k].command == Some(d);
        assert after[k].command == Some(d);
      }
      if Bound(after, d) {
        var k :| k in after && after[k].command == Some(d);
        assert mutations[k].command == Some(d);
      }
    }
  }

  lemma AcceptanceCompletedIsConsistent(db: Database, record: CommandRecord, membershipId: Name, receipt: Receipt,
                                        commandId: Uuid)
    requires Consistent(db)
    requires Awaited(db, record.command) && db.commands[record.command].attempts >= 1 && commandId !in db.commands
    requires record.invitation == db.commands[record.command].invitation
    ensures Consistent(AcceptanceCompleted(db, record,
                                           AcceptedRow(db.invitations[record.invitation], membershipId,
                                                       db.now), receipt, commandId))
  {
    hide RecordsOk, LedgerOk;
    AcceptanceCompletedRecords(db, record, membershipId, receipt, commandId);
    AcceptanceCompletedLedger(db, record, membershipId, receipt, commandId);
  }

  lemma AcceptanceCompletedRecords(db: Database, record: CommandRecord, membershipId: Name, receipt: Receipt,
                                   commandId: Uuid)
    requires RecordsOk(db)
    requires Awaited(db, record.command) && db.commands[record.command].attempts >= 1 && commandId !in db.commands
    requires record.invitation == db.commands[record.command].invitation
    ensures RecordsOk(AcceptanceCompleted(db, record,
                                          AcceptedRow(db.invitations[record.invitation], membershipId,
                                                      db.now), receipt, commandId))
  {
    hide NumbersOk, EmailsOk, CommandOk, UniqueKeys, Census, ActivityOk, HasKey, InsertCommand;
    var id, c := record.invitation, record.command;
    var row := AcceptedRow(db.invitations[id], membershipId, db.now);
    assert RowOk(db.invitations[id]) && RowOk(row) && row.revision >= 1;
    AcceptedOutbox(db, c, membershipId, receipt, commandId);
    UpdateRow(db.invitations, db.sequences, id, row);
    var entry := Activity(row.organization, id, InvitationAccepted, row.acceptanceSubject.value, row.revision, db.now);
    AppendActivity(db.invitations, db.activity, id, row, entry);
  }

  lemma AcceptanceCompletedLedger(db: Database, record: CommandRecord, membershipId: Name, receipt: Receipt,
                                  commandId: Uuid)
    requires Consistent(db)
    requires Awaited(db, record.command) && db.commands[record.command].attempts >= 1 && commandId !in db.commands
    requires record.invitation == db.commands[record.command].invitation
    ensures LedgerOk(AcceptanceCompleted(db, record,
                                         AcceptedRow(db.invitations[record.invitation], membershipId,
                                                     db.now), receipt, commandId))
  {
    hide RecordsOk, MutationsOk, BindingsOk, CommandsOk, UniqueKeys, Census, HasKey, InsertCommand;
    var id, c := record.invitation, record.command;
    var row := AcceptedRow(db.invitations[id], membershipId, db.now);
    var db' := AcceptanceCompleted(db, record, row, receipt, commandId);
    AcceptedOutbox(db, c, membershipId, receipt, commandId);
    CompleteBoundLedger(db.mutations, db.invitations, db.commands, db'.invitations, db'.commands, c,
                        AcceptedRecordOf(id, row).value);
  }

  // ------------------------------------------------------ permanent rejection

  lemma FailedRowsMoved(db: Database, c: Uuid, error: Name)
    requires RecordsOk(db) && Awaited(db, c) && db.commands[c].attempts >= 1
    ensures var id := db.commands[c].invitation;
      var failed := db.commands[c := FinishedCommand(db.commands[c], Failed, None, Some(error), db.now)];
      RowsMoved(db.commands, SupersedeNotifications(failed, id, db.now), id, ExpiredRow(db.invitations[id], db.now))
  {
    hide NumbersOk, EmailsOk, Census, ActivityOk, UniqueKeys;
    var id := db.commands[c].invitation;
    var failed := db.commands[c := FinishedCommand(db.commands[c], Failed, None, Some(error), db.now)];
    var superseded := SupersedeNotifications(failed, id, db.now);
    forall d | d in superseded && superseded[d].invitation == id
      ensures CommandOk(superseded[d], ExpiredRow(db.invitations[id], db.now))
    {
      FailedCommandFits(db, c, d, error);
    }
  }

  lemma FailedCommandFits(db: Database, c: Uuid, d: Uuid, error: Name)
    requires RecordsOk(db) && Awaited(db, c) && db.commands[c].attempts >= 1
    requires d in db.commands && db.commands[d].invitation == db.commands[c].invitation
    ensures var id := db.commands[c].invitation;
      var failed := db.commands[c := FinishedCommand(db.commands[c], Failed, None, Some(error), db.now)];
      CommandOk(SupersedeNotifications(failed, id, db.now)[d], ExpiredRow(db.invitations[id], db.now))
  {
    hide NumbersOk, EmailsOk, Census, ActivityOk, UniqueKeys;
    var row := db.invitations[db.commands[c].invitation];
    assert RowOk(row);
    assert CommandOk(db.commands[d], row);
    if db.commands[d].kind.AddMember? { OneMembershipCommand(db, c, d); }
  }

  lemma FailedOutbox(db: Database, c: Uuid, error: Name, commandId: Uuid)
    requires RecordsOk(db) && Awaited(db, c) && db.commands[c].attempts >= 1 && commandId !in db.commands
    ensures var id := db.commands[c].invitation;
      var row := ExpiredRow(db.invitations[id], db.now);
      var failed := db.commands[c := FinishedCommand(db.commands[c], Failed, None, Some(error), db.now)];
      var superseded := SupersedeNotifications(failed, id, db.now);
      var command := NewCommand(row.organization, id, NotifyLifecycle(Expired), db.now);
      && InsertCommand(superseded, commandId, command) == superseded[commandId := command]
      && CommandsOk(db.invitations[id := row], superseded[commandId := command])
      && UniqueKeys(superseded[commandId := command])
      && Census(db.invitations[id := row], superseded[commandId := command])
  {
    var id := db.commands[c].invitation;
    var row := ExpiredRow(db.invitations[id], db.now);
    var failed := db.commands[c := FinishedCommand(db.commands[c], Failed, None, Some(error), db.now)];
    var superseded := SupersedeNotifications(failed, id, db.now);
    var command := NewCommand(row.organization, id, NotifyLifecycle(Expired), db.now);
    FailedRowsMoved(db, c, error);
    assert RowOk(db.invitations[id]);
    assert OwesMore(db.invitations, id, row, command.key);
    AdvanceCommands(db.invitations, db.commands, superseded, id, row, commandId, command);
  }

  /** Releasing the bound mutations along with their failed command. */
  lemma ReleaseBoundLedger(mutations: Mutations, invitations: Invitations, commands: Commands,
                           invitations': Invitations, commands': Commands, c: Uuid)
    requires MutationsOk(mutations, invitations, commands) && BindingsOk(mutations, commands)
    requires c in commands && commands[c].kind.AddMember? && Active(commands[c])
    requires forall i | i in invitations :: i in invitations' && KeepsReceipt(invitations[i], invitations'[i])
    requires forall d | d in commands && commands[d].kind.AddMember? ::
      d in commands' && (d != c ==> KeepsBinding(commands[d], commands'[d]))
    requires forall d | d in commands' && commands'[d].kind.AddMember? ::
      d in commands && commands[d].kind.AddMember? &&
      (d != c ==> (commands[d].state.Failed? <==> commands'[d].state.Failed?))
    requires commands'[c].state.Failed?
    ensures MutationsOk(ReleaseBound(mutations, c), invitations', commands')
    ensures BindingsOk(ReleaseBound(mutations, c), commands')
  {
    var after := ReleaseBound(mutations, c);
    forall k | k in mutations && mutations[k].command == Some(c) ensures k !in after {
      assert MutationOk(mutations[k], invitations, commands);
    }
    forall k | k in after ensures MutationOk(after[k], invitations', commands') {
      var m := mutations[k];
      assert MutationOk(m, invitations, commands);
      if m.operation.Accept? {
        assert BindingOk(m, invitations, commands);
        assert KeepsReceipt(invitations[m.invitation.value], invitations'[m.invitation.value]);
      }
    }
    forall d | d in commands' && commands'[d].kind.AddMember? ensures Bound(after, d) <==> !commands'[d].state.Failed? {
      if d != c {
        assert Bound(mutations, d) <==> !commands[d].state.Failed?;
        if Bound(mutations, d) {
          var k :| k in mutations && mutations[k].command == Some(d);
          assert after[k].command == Some(d);
        }
      }
    }
  }

  lemma MembershipFailedIsConsistent(db: Database, record: CommandRecord, error: Name, commandId: Uuid)
    requires Consistent(db)
    requires Awaited(db, record.command) && db.commands[record.command].attempts >= 1 && commandId !in db.commands
    requires record.invitation == db.commands[record.command].invitation
    ensures var failed := db.commands[record.command :=
        FinishedCommand(db.commands[record.command], Failed, None, Some(error), db.now)];
      Consistent(MembershipFailed(db, record, failed, commandId))
  {
    hide RecordsOk, LedgerOk;
    MembershipFailedRecords(db, record, error, commandId);
    MembershipFailedLedger(db, record, error, commandId);
  }

  lemma MembershipFailedRecords(db: Database, record: CommandRecord, error: Name, commandId: Uuid)
    requires RecordsOk(db)
    requires Awaited(db, record.command) && db.commands[record.command].attempts >= 1 && commandId !in db.commands
    requires record.invitation == db.commands[record.command].invitation
    ensures var failed := db.commands[record.command :=
        FinishedCommand(db.commands[record.command], Failed, None, Some(error), db.now)];
      RecordsOk(MembershipFailed(db, record, failed, commandId))
  {
    hide NumbersOk, EmailsOk, CommandOk, UniqueKeys, Census, ActivityOk, HasKey, InsertCommand;
    var id, c := record.invitation, record.command;
    var row := ExpiredRow(db.invitations[id], db.now);
    assert RowOk(db.invitations[id]) && RowOk(row) && row.revision >= 1;
    FailedOutbox(db, c, error, commandId);
    UpdateRow(db.invitations, db.sequences, id, row);
    var entry := Activity(row.organization, id, AcceptanceFailed, SYSTEM_MEMBERSHIP_FAILURE, row.revision, db.now);
    AppendActivity(db.invitations, db.activity, id, row, entry);
  }

  lemma MembershipFailedLedger(db: Database, record: CommandRecord, error: Name, commandId: Uuid)
    requires Consistent(db)
    requires Awaited(db, record.command) && db.commands[record.command].attempts >= 1 && commandId !in db.commands
    requires record.invitation == db.commands[record.command].invitation
    ensures var failed := db.commands[record.command :=
        FinishedCommand(db.commands[record.command], Failed, None, Some(error), db.now)];
      LedgerOk(MembershipFailed(db, record, failed, commandId))
  {
    hide RecordsOk, MutationsOk, BindingsOk, CommandsOk, UniqueKeys, Census, HasKey, InsertCommand;
    var c := record.command;
    var failed := db.commands[c := FinishedCommand(db.commands[c], Failed, None, Some(error), db.now)];
    var db' := MembershipFailed(db, record, failed, commandId);
    FailedOutbox(db, c, error, commandId);
    ReleaseBoundLedger(db.mutations, db.invitations, db.commands, db'.invitations, db'.commands, c);
  }
}
