/** The storage functions as they run: statements on the tables inside a transaction that commits or rolls
    back. Each is proved to have exactly the effect and the answer `Storage` states for it. */
module Store {
  import opened Schema
  import opened Ordering
  import opened Storage
  import opened Consistency
  import opened Effects
  import opened Outbox
  import opened Writes
  import opened Paging
  import opened Drain

  class InvitationStore {
    var invitations: Invitations
    var commands: Commands
    var mutations: Mutations
    var activity: seq<Activity>
    var sequences: Sequences
    var now: Time

    /** The committed tables. */
    function Tables(): Database
      reads this
    {
      Database(invitations, commands, mutations, activity, sequences, now)
    }

    /** The unique index on `command_key`. */
    predicate Valid()
      reads this
    {
      UniqueKeys(commands)
    }

    constructor (start: Time)
      ensures Valid() && Tables() == EMPTY.(now := start) && Consistent(Tables())
    {
      invitations, commands, mutations, activity, sequences, now := map[], map[], map[], [], map[], start;
    }

    // ------------------------------------------------------------- statements

    /** Drop everything the transaction has written. */
    method Rollback(saved: Database)
      modifies this
      ensures Tables() == saved
    {
      invitations, commands, mutations := saved.invitations, saved.commands, saved.mutations;
      activity, sequences, now := saved.activity, saved.sequences, saved.now;
    }

    method ReserveMutation(r: Request, organization: Name) returns (begin: Begin)
      modifies `mutations
      ensures begin == BeginMutation(old(mutations), r)
      ensures mutations == if begin.New?
                           then old(mutations)[r.key := StartedMutation(r, organization, now)]
                           else old(mutations)
    {
      if r.key !in mutations {
        mutations := mutations[r.key := StartedMutation(r, organization, now)];
        return New;
      }
      var stored := mutations[r.key];
      if stored.operation != r.operation || stored.actor != r.actor || stored.hash != r.hash {
        return Conflict;
      }
      if stored.response.Some? {
        return Replay(stored.response.value);
      }
      return Running;
    }

    method CompleteMutation(r: Request, organization: Name, invitation: Option<Uuid>, response: Response)
      requires r.key in mutations && mutations[r.key] == StartedMutation(r, organization, now)
      modifies `mutations
      ensures mutations == old(mutations)[r.key := CompletedMutation(r, organization, invitation, response, now)]
    {
      var stored := mutations[r.key];
      mutations := mutations[r.key := stored.(invitation := invitation, command := None, status := Finished,
                                              response := Some(response))];
    }

    method InsertOutboxCommand(id: Uuid, organization: Name, invitation: Uuid, kind: CommandKind) returns (holder: Uuid)
      requires Valid() && id !in commands
      modifies `commands
      ensures Valid()
      ensures commands == InsertCommand(old(commands), id, NewCommand(organization, invitation, kind, now))
      ensures holder == InsertedId(old(commands), id, KeyOf(invitation, kind))
      ensures holder in commands
    {
      var command := NewCommand(organization, invitation, kind, now);
      if HasKey(commands, command.key) {
        holder :| holder in commands && commands[holder].key == command.key;
      } else {
        commands := commands[id := command];
        holder := id;
      }
    }

    method InsertActivity(id: Uuid, kind: ActivityKind, actor: Name)
      requires id in invitations
      modifies `activity
      ensures activity == old(activity) + [Activity(invitations[id].organization, id, kind, actor,
                                                    invitations[id].revision, now)]
    {
      activity := activity + [Activity(invitations[id].organization, id, kind, actor, invitations[id].revision, now)];
    }

    method SupersedeActiveNotifications(id: Uuid)
      requires Valid()
      modifies `commands
      ensures Valid() && commands == SupersedeNotifications(old(commands), id, now)
    {
      commands := map c | c in commands ::
        if commands[c].invitation == id && commands[c].kind.NotifyInvitation? && Active(commands[c])
        then commands[c].(state := Superseded, lease := None, updatedAt := now, completedAt := Some(now))
        else commands[c];
      assert forall c | c in commands :: commands[c].key == old(commands)[c].key;
    }

    method FinishCommandRow(record: CommandRecord, state: CommandState, receipt: Option<Receipt>,
                            error: Option<Name>) returns (done: bool)
      requires Valid()
      modifies `commands
      ensures Valid()
      ensures done <==> Fenced(old(commands), record)
      ensures commands == if done
                          then old(commands)[record.command :=
                                 FinishedCommand(old(commands)[record.command], state, receipt, error, now)]
                          else old(commands)
    {
      if record.command in commands && commands[record.command].state.InFlight? &&
         commands[record.command].lease.Some? && commands[record.command].lease.value.token == record.lease
      {
        var command := commands[record.command];
        commands := commands[record.command := command.(state := state, receipt := receipt, lastError := error,
                                                        lease := None,
                                                        updatedAt := now, completedAt := Some(now))];
        return true;
      }
      return false;
    }

    method ExpireLockedInvitation(id: Uuid, commandId: Uuid, kind: ActivityKind, actor: Name)
      requires Valid() && id in invitations && commandId !in commands
      modifies `invitations, `commands, `activity
      ensures Valid() && Tables() == Expire(old(Tables()), old(commands), id, commandId, kind, actor)
    {
      SupersedeActiveNotifications(id);
      var row := invitations[id];
      invitations := invitations[id :=
        row.(state := Expired, tokenHash := None, revision := row.revision + 1,
             delivery := if row.delivery.DeliveryPending? then DeliverySuperseded else row.delivery,
             expiredAt := Some(now), updatedAt := now)];
      var _ := InsertOutboxCommand(commandId, row.organization, id, NotifyLifecycle(Expired));
      InsertActivity(id, kind, actor);
    }

    // ----------------------------------------------------------- transactions

    method Create(r: Request, id: Uuid, organization: Name, email: Name, emailNormalized: Name, tokenHash: Verifier,
                  ttl: int,
                  commandId: Uuid) returns (outcome: Outcome<TokenResult>)
      requires Valid() && r.operation.Invite? && commandId !in commands
      modifies this
      ensures Valid()
      ensures (Tables(), outcome) == old(CreateInvitation(Tables(), r, id, organization, email, emailNormalized,
                                                          tokenHash, ttl, commandId))
      ensures outcome.Done? && outcome.value.disclose ==>
        && id in invitations && invitations[id].organization == organization && invitations[id].state == Pending
        && invitations[id].tokenExpiresAt == old(now) + ttl && Shows(outcome.value.view, id, invitations[id])
    {
      hide CreateInvitation, UniqueKeys;
      ghost var before := Tables();
      outcome := TryCreate(r, id, organization, email, emailNormalized, tokenHash, ttl, commandId);
      if outcome.Done? && outcome.value.disclose {
        DisclosedDeadline(before, r, id, organization, email, emailNormalized, tokenHash, ttl, commandId);
      }
    }

    /** The reservation, the checks and the writes of a creation. */
    method TryCreate(r: Request, id: Uuid, organization: Name, email: Name, emailNormalized: Name, tokenHash: Verifier,
                     ttl: int, commandId: Uuid) returns (outcome: Outcome<TokenResult>)
      requires Valid() && r.operation.Invite? && commandId !in commands
      modifies this
      ensures Valid()
      ensures (Tables(), outcome) == old(CreateInvitation(Tables(), r, id, organization, email, emailNormalized,
                                                          tokenHash, ttl, commandId))
    {
      hide UniqueKeys, PendingEmail, HasKey, InsertCommand, Created;
      ghost var before := Tables();
      var saved := Tables();
      var begin := ReserveMutation(r, organization);
      match begin {
        case Conflict => return Rejected(IdempotencyConflict);
        case Running => return Rejected(IdempotencyConflict);
        case Replay(response) => return TokenReplay(response);
        case New =>
      }
      if PendingEmail(invitations, organization, emailNormalized) {
        Rollback(saved);
        return Rejected(InvitationExists);
      }
      var number := if organization in sequences then sequences[organization] else 1;
      sequences := sequences[organization := number + 1];
      if number <= 0 || id in invitations {
        Rollback(saved);
        return Broken;
      }
      var row := NewInvitation(organization, number, email, emailNormalized, r.actor, tokenHash, ttl, now);
      WriteInvitation(r, id, row, commandId);
      CreatedOver(before, r, StartedMutation(r, organization, before.now), id, row, commandId);
      return Done(TokenResult(View(id, row), 1, true));
    }

    /** The part of `create_invitation` that writes the new row, its command and activity, and its answer. */
    method WriteInvitation(r: Request, id: Uuid, row: Invitation, commandId: Uuid)
      requires Valid() && commandId !in commands && row.revision == 1
      requires r.key in mutations && mutations[r.key] == StartedMutation(r, row.organization, now)
      requires row.organization in sequences && sequences[row.organization] == row.number + 1
      modifies this
      ensures Valid()
      ensures Tables() == Created(old(Tables()), r, id, row, commandId)
    {
      hide UniqueKeys, HasKey, InsertCommand;
      invitations := invitations[id := row];
      var _ := InsertOutboxCommand(commandId, row.organization, id, NotifyInvitation(1));
      InsertActivity(id, InvitationCreated, r.actor);
      CompleteMutation(r, row.organization, Some(id), TokenResponse(View(id, row), 1));
    }

    method Resend(r: Request, organization: Name, id: Uuid, expectedRevision: int, tokenHash: Verifier, ttl: int,
                  commandId: Uuid)
      returns (outcome: Outcome<TokenResult>)
      requires Valid() && r.operation.Resend? && commandId !in commands
      modifies this
      ensures Valid()
      ensures (Tables(), outcome) == old(ResendInvitation(Tables(), r, organization, id, expectedRevision, tokenHash,
                                                          ttl, commandId))
    {
      hide UniqueKeys, HasKey, InsertCommand, SupersedeNotifications;
      ghost var before := Tables();
      var saved := Tables();
      var begin := ReserveMutation(r, organization);
      match begin {
        case Conflict => return Rejected(IdempotencyConflict);
        case Running => return Rejected(IdempotencyConflict);
        case Replay(response) => return TokenReplay(response);
        case New =>
      }
      if id !in invitations || invitations[id].organization != organization {
        Rollback(saved);
        return Rejected(InvitationNotFound);
      }
      var current := invitations[id];
      if current.revision != expectedRevision {
        Rollback(saved);
        return Rejected(RevisionConflict);
      }
      if !current.state.Pending? {
        Rollback(saved);
        return Rejected(InvalidTransition);
      }
      if current.acceptanceSubject.Some? {
        Rollback(saved);
        return Rejected(AcceptanceInProgress);
      }
      var generation := current.tokenGeneration + 1;
      SupersedeActiveNotifications(id);
      var row := current.(tokenHash := Some(tokenHash), tokenGeneration := generation, tokenExpiresAt := now + ttl,
                          revision := current.revision + 1, delivery := DeliveryPending, intentId := None,
                          deliveryId := None,
                          updatedAt := now);
      invitations := invitations[id := row];
      SupersededIds(before.commands, id, now);
      var _ := InsertOutboxCommand(commandId, organization, id, NotifyInvitation(generation));
      InsertActivity(id, InvitationResent, r.actor);
      CompleteMutation(r, organization, Some(id), TokenResponse(View(id, row), generation));
      SetTwice(before.mutations, r.key, StartedMutation(r, organization, now), mutations[r.key]);
      return Done(TokenResult(View(id, row), generation, true));
    }

    method Revoke(r: Request, organization: Name, id: Uuid, expectedRevision: int, reason: Name, commandId: Uuid)
      returns (outcome: Outcome<InvitationView>)
      requires Valid() && r.operation.Revoke? && commandId !in commands
      modifies this
      ensures Valid()
      ensures (Tables(), outcome) == old(RevokeInvitation(Tables(), r, organization, id, expectedRevision, reason,
                                                          commandId))
    {
      hide UniqueKeys, HasKey, RevokedDb;
      ghost var before := Tables();
      var saved := Tables();
      var begin := ReserveMutation(r, organization);
      match begin {
        case Conflict => return Rejected(IdempotencyConflict);
        case Running => return Rejected(IdempotencyConflict);
        case Replay(response) => return if response.ViewResponse? then Done(response.view) else Broken;
        case New =>
      }
      if id !in invitations || invitations[id].organization != organization {
        Rollback(saved);
        return Rejected(InvitationNotFound);
      }
      var current := invitations[id];
      if current.revision != expectedRevision {
        Rollback(saved);
        return Rejected(RevisionConflict);
      }
      if !current.state.Pending? {
        Rollback(saved);
        return Rejected(InvalidTransition);
      }
      if current.acceptanceSubject.Some? {
        Rollback(saved);
        return Rejected(AcceptanceInProgress);
      }
      var row := WriteRevocation(r, id, reason, commandId);
      RevokedOver(before, r, StartedMutation(r, organization, before.now), id, row, commandId);
      return Done(View(id, row));
    }

    /** The part of `revoke_invitation` that writes. */
    method WriteRevocation(r: Request, id: Uuid, reason: Name, commandId: Uuid) returns (row: Invitation)
      requires Valid() && commandId !in commands && id in invitations
      requires r.key in mutations && mutations[r.key] == StartedMutation(r, invitations[id].organization, now)
      modifies this
      ensures Valid()
      ensures row == RevokedRow(old(invitations[id]), reason, old(now))
      ensures Tables() == RevokedDb(old(Tables()), r, id, row, commandId)
    {
      hide UniqueKeys, HasKey, InsertCommand, SupersedeNotifications;
      var current := invitations[id];
      SupersededIds(commands, id, now);
      SupersedeActiveNotifications(id);
      row := current.(state := Revoked, tokenHash := None, revision := current.revision + 1,
                      delivery := if current.delivery.DeliveryPending? then DeliverySuperseded else current.delivery,
                      revokeReason := Some(reason), revokedAt := Some(now), updatedAt := now);
      invitations := invitations[id := row];
      var _ := InsertOutboxCommand(commandId, row.organization, id, NotifyLifecycle(Revoked));
      InsertActivity(id, InvitationRevoked, r.actor);
      CompleteMutation(r, row.organization, Some(id), ViewResponse(View(id, row)));
    }

    method StartAcceptance(r: Request, id: Uuid, expectedRevision: int, observedGeneration: int, observedHash: Verifier,
                           leaseSeconds: int, commandId: Uuid, lease: Uuid) returns (outcome: Outcome<AcceptStart>)
      requires Valid() && r.operation.Accept? && commandId !in commands
      modifies this
      ensures Valid()
      ensures (Tables(), outcome) == old(BeginAccept(Tables(), r, id, expectedRevision, observedGeneration,
                                                     observedHash, leaseSeconds, commandId, lease))
    {
      hide UniqueKeys, HasKey, InsertCommand, InsertedId, SupersedeNotifications, Expire, AcceptStarted;
      ghost var before := Tables();
      var saved := Tables();
      var begin := ReserveMutation(r, "pending-resource-lookup");
      match begin {
        case Conflict => return Rejected(IdempotencyConflict);
        case Running => return Done(InProgress);
        case Replay(response) =>
          return if response.AcceptedResponse? then Done(AcceptReplay(response.record)) else Broken;
        case New =>
      }
      if id !in invitations {
        Rollback(saved);
        return Rejected(InvitationNotFound);
      }
      var current := invitations[id];
      if current.revision != expectedRevision {
        Rollback(saved);
        return Rejected(RevisionConflict);
      }
      if !current.state.Pending? {
        Rollback(saved);
        return Rejected(InvalidTransition);
      }
      if current.acceptanceSubject.Some? {
        Rollback(saved);
        return Rejected(AcceptanceInProgress);
      }
      if current.tokenExpiresAt <= now {
        mutations := mutations - {r.key};
        assert mutations == before.mutations;
        ExpireLockedInvitation(id, commandId, InvitationExpired, SYSTEM_ACCEPT);
        return Rejected(InvitationExpiredFailure);
      }
      if current.tokenGeneration != observedGeneration || current.tokenHash != Some(observedHash) {
        Rollback(saved);
        return Rejected(TokenInvalid);
      }
      assert Tables() == PutMutation(before, r.key, StartedMutation(r, "pending-resource-lookup", now));
      var holder := ConsumeToken(r, id, leaseSeconds, commandId, lease);
      StartedOver(before, r, StartedMutation(r, "pending-resource-lookup", before.now), id, leaseSeconds, commandId,
                  holder, lease);
      return Done(Execute(CommandRecord(holder, current.organization, id, AddMember(r.actor), MembershipKey(id), 1,
                                        lease)));
    }

    /** The part of `begin_accept` that writes once the token has proved itself. */
    method ConsumeToken(r: Request, id: Uuid, leaseSeconds: int, commandId: Uuid, lease: Uuid) returns (holder: Uuid)
      requires Valid() && commandId !in commands && id in invitations
      requires r.key in mutations && mutations[r.key] == StartedMutation(r, "pending-resource-lookup", now)
      requires r.operation.Accept?
      modifies this
      ensures Valid()
      ensures holder == InsertedId(old(commands), commandId, MembershipKey(id))
      ensures Tables() == AcceptStarted(old(Tables()), r, id, leaseSeconds, commandId, holder, lease)
    {
      hide HasKey, InsertCommand, InsertedId;
      var row := invitations[id];
      row := row.(acceptanceSubject := Some(r.actor), tokenHash := None, tokenConsumedAt := Some(now),
                  revision := row.revision + 1, updatedAt := now);
      invitations := invitations[id := row];
      holder := InsertOutboxCommand(commandId, row.organization, id, AddMember(r.actor));
      var command := commands[holder];
      commands := commands[holder := command.(state := InFlight, attempts := command.attempts + 1,
                                              lease := Some(Lease(lease, now + leaseSeconds)), updatedAt := now)];
      mutations := mutations[r.key := mutations[r.key].(organization := row.organization, invitation := Some(id),
                                                        command := Some(holder))];
      InsertActivity(id, AcceptanceStarted, r.actor);
    }

    method CompleteAcceptance(record: CommandRecord, membershipId: Name, providerRevision: Name, commandId: Uuid)
      returns (outcome: Outcome<AcceptedRecord>)
      requires Valid() && commandId !in commands
      modifies this
      ensures Valid()
      ensures (Tables(), outcome) == old(CompleteAccept(Tables(), record, membershipId, providerRevision, commandId))
      ensures outcome.Done? ==>
        outcome.value.invitation == record.invitation && IsReceipt(outcome.value, invitations)
    {
      hide UniqueKeys, AcceptanceCompleted;
      ghost var _, _ := CompletionAnswersReceipt(Tables(), record, membershipId, providerRevision, commandId);
      if record.command !in commands || record.invitation !in invitations {
        return Broken;
      }
      var command := commands[record.command];
      var current := invitations[record.invitation];
      if command.state.Completed? {
        var replay := AcceptedRecordOf(record.invitation, current);
        return if replay.Some? then Done(replay.value) else Broken;
      }
      if !command.state.InFlight? || command.lease.None? || command.lease.value.token != record.lease {
        return Broken;
      }
      if !current.state.Pending? || current.acceptanceSubject != SubjectOf(record.kind) {
        return Broken;
      }
      var accepted := WriteAcceptance(record, membershipId, providerRevision, commandId);
      return Done(accepted);
    }

    /** The part of `complete_accept` that writes once the fence and the row have let it through. */
    method WriteAcceptance(record: CommandRecord, membershipId: Name, providerRevision: Name, commandId: Uuid)
      returns (accepted: AcceptedRecord)
      requires Valid() && commandId !in commands && Fenced(commands, record) && record.invitation in invitations
      modifies this
      ensures Valid()
      ensures var row := AcceptedRow(old(invitations[record.invitation]), membershipId, old(now));
        && AcceptedRecordOf(record.invitation, row) == Some(accepted)
        && Tables() == AcceptanceCompleted(old(Tables()), record, row,
                                           MembershipReceipt(membershipId, providerRevision), commandId)
    {
      hide UniqueKeys, HasKey, InsertCommand;
      ghost var before := mutations;
      var current := invitations[record.invitation];
      var row := current.(state := Accepted, membershipId := Some(membershipId), revision := current.revision + 1,
                          acceptedAt := Some(now), updatedAt := now);
      invitations := invitations[record.invitation := row];
      accepted := AcceptedRecord(record.invitation, row.number, row.organization, membershipId, row.revision);
      var _ := FinishCommandRow(record, Completed, Some(MembershipReceipt(membershipId, providerRevision)), None);
      var _ := InsertOutboxCommand(commandId, row.organization, record.invitation, NotifyLifecycle(Accepted));
      InsertActivity(record.invitation, InvitationAccepted,
                     if row.acceptanceSubject.Some? then row.acceptanceSubject.value else SYSTEM_MEMBERSHIP);
      mutations := map k | k in mutations ::
        if mutations[k].command == Some(record.command) && mutations[k].operation.Accept? &&
           mutations[k].status.Started?
        then mutations[k].(status := Finished, response := Some(AcceptedResponse(accepted)))
        else mutations[k];
      assert mutations == CompleteBound(before, record.command, AcceptedResponse(accepted));
    }

    /** The loop of `expire_due` over the rows it has locked. */
    method ExpireBatch(ids: seq<Uuid>, newIds: seq<Uuid>, actor: Name) returns (items: seq<ExpiredItem>)
      requires Valid() && |ids| <= |newIds| && FreshIn(commands, newIds) && Distinct(ids)
      requires forall n | 0 <= n < |ids| :: ids[n] in invitations
      modifies `invitations, `commands, `activity
      ensures Valid()
      ensures Tables() == ExpireRows(old(Tables()), ids, newIds, |ids|, actor)
      ensures items == ExpiredItems(old(invitations), ids)
    {
      hide UniqueKeys, Expire;
      ghost var before := Tables();
      items := [];
      for n := 0 to |ids|
        invariant Valid()
        invariant Tables() == ExpireRows(before, ids, newIds, n, actor)
        invariant |items| == n
        invariant forall m | 0 <= m < n ::
          items[m] == ExpiredItem(ids[m], before.invitations[ids[m]].number, before.invitations[ids[m]].revision + 1)
        invariant forall m | n <= m < |ids| ::
          ids[m] in invitations && invitations[ids[m]] == before.invitations[ids[m]]
        invariant forall m | n <= m < |newIds| :: newIds[m] !in commands
      {
        ExpireTouches(Tables(), ids[n], newIds[n], InvitationExpired, actor);
        var current := invitations[ids[n]];
        ExpireLockedInvitation(ids[n], newIds[n], InvitationExpired, actor);
        items := items + [ExpiredItem(ids[n], current.number, current.revision + 1)];
      }
    }

    method ExpireDue(r: Request, organization: Name, limit: int, locked: set<Uuid>, newIds: seq<Uuid>)
      returns (outcome: Outcome<ExpireResult>)
      requires Valid() && r.operation.ExpireDue? && limit <= |newIds| && FreshIn(commands, newIds)
      modifies this
      ensures Valid()
      ensures (Tables(), outcome) == old(ExpireDueInvitations(Tables(), r, organization, limit, locked, newIds))
      ensures r.key !in old(mutations) && 0 <= limit ==>
        && outcome.Done? && outcome.value.expired == |outcome.value.items| <= limit
        && (forall i | i in old(invitations) ::
              && i in invitations
              && (invitations[i] != old(invitations)[i] <==> Reported(outcome.value.items, i))
              && (Reported(outcome.value.items, i) ==>
                    Overdue(old(invitations)[i], organization, now) && invitations[i].state == Expired))
        && (outcome.value.hasMore <==>
              exists j :: j in invitations && Overdue(invitations[j], organization, now))
    {
      hide ExpireDueInvitations, UniqueKeys, Reported, Overdue, FreshIn;
      ghost var before := Tables();
      outcome := TryExpireDue(r, organization, limit, locked, newIds);
      if r.key !in before.mutations && 0 <= limit {
        BatchExpiresOverdue(before, r, organization, limit, locked, newIds);
      }
    }

    /** The reservation, the locked rows and the stored result. */
    method TryExpireDue(r: Request, organization: Name, limit: int, locked: set<Uuid>, newIds: seq<Uuid>)
      returns (outcome: Outcome<ExpireResult>)
      requires Valid() && r.operation.ExpireDue? && limit <= |newIds| && FreshIn(commands, newIds)
      modifies this
      ensures Valid()
      ensures (Tables(), outcome) == old(ExpireDueInvitations(Tables(), r, organization, limit, locked, newIds))
    {
      hide UniqueKeys, Expire, Due, AnyDue, ExpiryBatch, ExpireRows, FreshIn;
      ghost var before := Tables();
      var begin := ReserveMutation(r, organization);
      match begin {
        case Conflict => return Rejected(IdempotencyConflict);
        case Running => return Rejected(IdempotencyConflict);
        case Replay(response) => return if response.ExpireResponse? then Done(response.expiry) else Broken;
        case New =>
      }
      ghost var reserved := mutations;
      BatchIsDue(before, organization, limit, locked);
      SameBatch(before, reserved, organization, limit, locked);
      assert Tables() == before.(mutations := reserved);
      var ids := ExpiryBatch(Tables(), organization, limit, locked);
      var items := ExpireBatch(ids, newIds, r.actor);
      ExpireRowsIgnoreLedger(before, reserved, ids, newIds, |ids|, r.actor);
      ghost var expired := ExpireRows(before, ids, newIds, |ids|, r.actor);
      assert Tables() == expired.(mutations := reserved);
      var result := ExpireResult(|items|, items, AnyDue(invitations, organization, now));
      CompleteMutation(r, organization, None, ExpireResponse(result));
      SetTwice(before.mutations, r.key, StartedMutation(r, organization, now), mutations[r.key]);
      ExpireRowsIgnoreLedger(before, before.mutations, ids, newIds, |ids|, r.actor);
      assert Tables() == PutMutation(expired, r.key, mutations[r.key]);
      return Done(result);
    }

    // --------------------------------------------------------------- dispatch

    method ReserveDispatch(r: Request, organization: Name) returns (outcome: Outcome<Option<DispatchResult>>)
      requires Valid() && r.operation.DispatchDue?
      modifies this
      ensures Valid()
      ensures (Tables(), outcome) == old(BeginDispatch(Tables(), r, organization))
    {
      var begin := ReserveMutation(r, organization);
      match begin {
        case Conflict => return Rejected(IdempotencyConflict);
        case Running => return Rejected(IdempotencyConflict);
        case Replay(response) => return if response.DispatchResponse? then Done(Some(response.dispatch)) else Broken;
        case New => return Done(None);
      }
    }

    method RecordDispatch(key: MutationKey, result: DispatchResult) returns (outcome: Outcome<()>)
      requires Valid()
      modifies this
      ensures Valid()
      ensures (Tables(), outcome) == old(CompleteDispatch(Tables(), key, result))
    {
      if key in mutations && mutations[key].operation.DispatchDue? && mutations[key].status.Started? {
        mutations := mutations[key := mutations[key].(status := Finished, response := Some(DispatchResponse(result)))];
        return Done(());
      }
      return Broken;
    }

    /** The loop of `claim_due_commands` over the rows it has locked. */
    method LeaseBatch(ids: seq<Uuid>, leases: seq<Uuid>, leaseSeconds: int) returns (records: seq<CommandRecord>)
      requires Valid() && |ids| <= |leases| && Distinct(ids)
      requires forall n | 0 <= n < |ids| :: ids[n] in commands
      modifies `commands
      ensures Valid()
      ensures commands == ClaimRows(old(commands), ids, leases, |ids|, leaseSeconds, now)
      ensures records == ClaimRecords(old(commands), ids, leases)
    {
      hide UniqueKeys;
      ghost var before := commands;
      records := [];
      for n := 0 to |ids|
        invariant Valid()
        invariant commands == ClaimRows(before, ids, leases, n, leaseSeconds, now)
        invariant |records| == n
        invariant forall m | 0 <= m < n ::
          records[m] == RecordOf(ids[m], before[ids[m]].(attempts := before[ids[m]].attempts + 1), leases[m])
        invariant forall m | n <= m < |ids| :: ids[m] in commands && commands[ids[m]] == before[ids[m]]
      {
        var command := commands[ids[n]];
        var claimed := command.(state := InFlight, attempts := command.attempts + 1,
                                lease := Some(Lease(leases[n], now + leaseSeconds)), updatedAt := now);
        KeepsUniqueKeys(commands, ids[n], claimed);
        commands := commands[ids[n] := claimed];
        records := records + [RecordOf(ids[n], claimed, leases[n])];
      }
    }

    method Claim(organization: Name, limit: int, leaseSeconds: int, locked: set<Uuid>, leases: seq<Uuid>)
      returns (records: seq<CommandRecord>)
      requires Valid() && limit <= |leases|
      modifies `commands
      ensures Valid()
      ensures (Tables(), records) == old(ClaimDueCommands(Tables(), organization, limit, leaseSeconds, locked, leases))
    {
      hide UniqueKeys, Claimable, ClaimBatch;
      ghost var before := Tables();
      BatchIsClaimable(before, organization, limit, locked);
      var ids := ClaimBatch(Tables(), organization, limit, locked);
      records := LeaseBatch(ids, leases, leaseSeconds);
    }

    method HasDue(organization: Name) returns (due: bool)
      ensures due <==> HasDueCommands(Tables(), organization)
    {
      due := exists c :: c in commands && Claimable(commands[c], organization, now);
    }

    /** A version 4 UUID no command has. */
    method NewCommandId() returns (id: Uuid)
      ensures id !in commands
    {
      UnusedId(commands.Keys);
      id :| id !in commands;
    }

    method NewCommandIds(count: nat) returns (ids: seq<Uuid>)
      ensures |ids| == count && FreshIn(commands, ids)
    {
      ids := [];
      while |ids| < count
        invariant |ids| <= count && FreshIn(commands, ids)
        decreases count - |ids|
      {
        var used := commands.Keys + (set i | i in ids);
        UnusedId(used);
        var id :| id !in used;
        ids := ids + [id];
      }
    }

    method GetById(id: Uuid) returns (row: Option<Invitation>)
      ensures row == if id in invitations then Some(invitations[id]) else None
    {
      return if id in invitations then Some(invitations[id]) else None;
    }

    /** The filtered rows past the cursor, newest first, `limit` at most. */
    method SelectInvitations(filter: Filter, cursor: Option<Cursor>, limit: nat) returns (views: seq<InvitationView>)
      ensures var ids := Newest(Rows(invitations, filter, cursor));
        && |views| == Min(limit, |ids|)
        && forall n | 0 <= n < |views| :: ids[n] in invitations && views[n] == View(ids[n], invitations[ids[n]])
      ensures PageShows(invitations, filter.organization, filter.state, filter.email, limit, views, None)
    {
      hide Newest, PageShows;
      NewestAreRows(invitations, filter, cursor);
      var ids := Newest(Rows(invitations, filter, cursor));
      views := [];
      while |views| < limit && |views| < |ids|
        invariant |views| <= Min(limit, |ids|)
        invariant forall n | 0 <= n < |views| :: ids[n] in invitations && views[n] == View(ids[n], invitations[ids[n]])
        decreases |ids| - |views|
      {
        views := views + [View(ids[|views|], invitations[ids[|views|]])];
      }
      FirstRowsAreShown(invitations, filter, cursor, limit, views);
    }

    /** The unlocked look at the ledger that `accept` starts with agrees with the reservation that follows. */
    method LookupAcceptReplay(r: Request) returns (outcome: Outcome<Option<AcceptStart>>)
      requires r.operation.Accept?
      ensures match BeginMutation(mutations, r)
        case New => outcome == Done(None)
        case Conflict => outcome == Rejected(IdempotencyConflict)
        case Running => outcome == Done(Some(InProgress))
        case Replay(response) =>
          outcome == if response.AcceptedResponse? then Done(Some(AcceptReplay(response.record))) else Broken
    {
      if r.key !in mutations {
        return Done(None);
      }
      var stored := mutations[r.key];
      if !stored.operation.Accept? || stored.actor != r.actor || stored.hash != r.hash {
        return Rejected(IdempotencyConflict);
      }
      if stored.response.None? {
        return Done(Some(InProgress));
      }
      return if stored.response.value.AcceptedResponse?
             then Done(Some(AcceptReplay(stored.response.value.record)))
             else Broken;
    }

    /** The row a worker's command is about, if that row still wants the command. */
    method MatchCommand(record: CommandRecord) returns (row: Option<Invitation>)
      ensures row.Some? <==> record.invitation in invitations && Matches(record.kind, invitations[record.invitation])
      ensures row.Some? ==> row.value == invitations[record.invitation]
    {
      if record.invitation !in invitations {
        return None;
      }
      var current := invitations[record.invitation];
      var wanted;
      match record.kind {
        case NotifyInvitation(generation) =>
          wanted := current.state.Pending? && current.tokenHash.Some? && generation == current.tokenGeneration;
        case NotifyLifecycle(lifecycle) => wanted := lifecycle == current.state;
        case AddMember(subject) => wanted := current.state.Pending? && current.acceptanceSubject == Some(subject);
      }
      return if wanted then Some(current) else None;
    }

    method CompleteNotificationCommand(record: CommandRecord, intentId: Name,
                                       deliveryId: Name) returns (outcome: Outcome<()>)
      requires Valid() && record.kind.NotifyInvitation?
      modifies this
      ensures Valid()
      ensures (Tables(), outcome) == old(CompleteNotification(Tables(), record, intentId, deliveryId))
    {
      hide UniqueKeys;
      var done := FinishCommandRow(record, Completed, Some(NotificationReceipt(intentId, deliveryId)), None);
      if !done {
        return Broken;
      }
      if record.invitation in invitations {
        var row := invitations[record.invitation];
        if row.state.Pending? && row.tokenGeneration == record.kind.generation {
          invitations := invitations[record.invitation :=
            row.(delivery := DeliveryQueued, intentId := Some(intentId), deliveryId := Some(deliveryId),
                 updatedAt := now)];
        }
      }
      return Done(());
    }

    method CompleteLifecycleCommand(record: CommandRecord, recorded: bool) returns (outcome: Outcome<()>)
      requires Valid()
      modifies this
      ensures Valid()
      ensures (Tables(), outcome) == old(CompleteLifecycle(Tables(), record, recorded))
    {
      hide UniqueKeys;
      var done := FinishCommandRow(record, Completed, Some(LifecycleReceipt(recorded)), None);
      return if done then Done(()) else Broken;
    }

    method Retry(record: CommandRecord, error: Name, delay: int) returns (outcome: Outcome<()>)
      requires Valid()
      modifies this
      ensures Valid()
      ensures (Tables(), outcome) == old(RetryCommand(Tables(), record, error, delay))
    {
      if record.command in commands && commands[record.command].state.InFlight? &&
         commands[record.command].lease.Some? && commands[record.command].lease.value.token == record.lease
      {
        var command := commands[record.command];
        commands := commands[record.command :=
          command.(state := Waiting, availableAt := now + delay, lease := None, lastError := Some(error),
                   updatedAt := now)];
        return Done(());
      }
      return Broken;
    }

    method Supersede(record: CommandRecord) returns (outcome: Outcome<()>)
      requires Valid()
      modifies this
      ensures Valid()
      ensures (Tables(), outcome) == old(SupersedeCommand(Tables(), record))
    {
      if record.command in commands && commands[record.command].state.InFlight? &&
         commands[record.command].lease.Some? && commands[record.command].lease.value.token == record.lease
      {
        var command := commands[record.command];
        commands := commands[record.command := command.(state := Superseded, lease := None, updatedAt := now,
                                                        completedAt := Some(now))];
        return Done(());
      }
      return Broken;
    }

    method Fail(record: CommandRecord, error: Name, commandId: Uuid) returns (outcome: Outcome<()>)
      requires Valid() && commandId !in commands
      modifies this
      ensures Valid()
      ensures (Tables(), outcome) == old(FailCommand(Tables(), record, error, commandId))
    {
      hide UniqueKeys, Expire;
      ghost var before := Tables();
      var saved := Tables();
      var done := FinishCommandRow(record, Failed, None, Some(error));
      if !done {
        return Broken;
      }
      match record.kind {
        case NotifyInvitation(generation) =>
          if record.invitation in invitations {
            var row := invitations[record.invitation];
            if row.state.Pending? && row.tokenGeneration == generation {
              invitations := invitations[record.invitation := row.(delivery := DeliveryFailed, updatedAt := now)];
            }
          }
        case NotifyLifecycle(_) =>
        case AddMember(subject) =>
          if record.invitation !in invitations {
            Rollback(saved);
            return Broken;
          }
          var row := invitations[record.invitation];
          if row.state.Pending? && row.acceptanceSubject == Some(subject) {
            ExpireIgnoresCommands(before, commands, record.invitation, commandId, AcceptanceFailed,
                                  SYSTEM_MEMBERSHIP_FAILURE);
            ExpireLockedInvitation(record.invitation, commandId, AcceptanceFailed, SYSTEM_MEMBERSHIP_FAILURE);
            mutations := map k | k in mutations &&
              !(mutations[k].command == Some(record.command) && mutations[k].operation.Accept? &&
                mutations[k].status.Started?) :: mutations[k];
            assert mutations == ReleaseBound(before.mutations, record.command);
          }
      }
      return Done(());
    }
  }

  /** There is always another UUID. */
  lemma {:induction false} UnusedId(used: set<Uuid>)
    ensures exists id: Uuid :: id !in used
  {
    var bound := UpperBound(used);
    assert bound !in used;
  }

  lemma {:induction false} UpperBound(used: set<Uuid>) returns (bound: Uuid)
    ensures forall id | id in used :: id < bound
    decreases |used|
  {
    if used == {} {
      bound := 0;
    } else {
      var id :| id in used;
      var rest := UpperBound(used - {id});
      bound := if id < rest then rest else id + 1;
      assert used == used - {id} + {id};
      forall i | i in used ensures i < bound {
        assert i == id || i in used - {id};
      }
    }
  }

  lemma SameBatch(db: Database, mutations: Mutations, organization: Name, limit: int, locked: set<Uuid>)
    ensures ExpiryBatch(db.(mutations := mutations), organization, limit, locked) ==
      ExpiryBatch(db, organization, limit, locked)
  {
  }

  lemma {:induction false} ExpireRowsIgnoreLedger(db: Database, mutations: Mutations, ids: seq<Uuid>,
                                                  newIds: seq<Uuid>, n: nat, actor: Name)
    requires n <= |ids| && n <= |newIds|
    ensures ExpireRows(db.(mutations := mutations), ids, newIds, n, actor) ==
      ExpireRows(db, ids, newIds, n, actor).(mutations := mutations)
  {
    if n > 0 {
      ExpireRowsIgnoreLedger(db, mutations, ids, newIds, n - 1, actor);
    }
  }

  lemma ExpireTouches(db: Database, id: Uuid, commandId: Uuid, activity: ActivityKind, actor: Name)
    requires id in db.invitations
    ensures var db' := Expire(db, db.commands, id, commandId, activity, actor);
      && db'.invitations == db.invitations[id := ExpiredRow(db.invitations[id], db.now)]
      && (forall c | c in db'.commands :: c in db.commands || c == commandId)
      && db'.mutations == db.mutations && db'.now == db.now
  {
  }

  lemma KeepsUniqueKeys(commands: Commands, c: Uuid, command: Command)
    requires UniqueKeys(commands) && c in commands && command.key == commands[c].key
    ensures UniqueKeys(commands[c := command])
  {
  }

  lemma SupersededIds(commands: Commands, id: Uuid, now: Time)
    ensures SupersedeNotifications(commands, id, now).Keys == commands.Keys
  {
  }

  lemma StartedOver(db: Database, r: Request, m: Mutation, id: Uuid, leaseSeconds: int, commandId: Uuid, holder: Uuid,
                    lease: Uuid)
    requires id in db.invitations
    ensures AcceptStarted(PutMutation(db, r.key, m), r, id, leaseSeconds, commandId, holder, lease)
         == AcceptStarted(db, r, id, leaseSeconds, commandId, holder, lease)
  {
    hide InsertCommand;
    var x := Mutation(Accept, r.actor, r.hash, db.invitations[id].organization, Some(id), Some(holder), Started, None,
                      db.now);
    SetTwice(db.mutations, r.key, m, x);
  }

  lemma CreatedOver(db: Database, r: Request, m: Mutation, id: Uuid, row: Invitation, commandId: Uuid)
    ensures Created(PutMutation(db, r.key, m).(sequences := db.sequences[row.organization := row.number + 1]), r, id,
                    row, commandId)
         == Created(db, r, id, row, commandId)
  {
    hide InsertCommand;
    SetTwice(db.mutations, r.key, m,
             CompletedMutation(r, row.organization, Some(id), TokenResponse(View(id, row), 1), db.now));
    var next := row.number + 1;
    assert db.sequences[row.organization := next][row.organization := next] == db.sequences[row.organization := next];
  }

  lemma RevokedOver(db: Database, r: Request, m: Mutation, id: Uuid, row: Invitation, commandId: Uuid)
    ensures RevokedDb(PutMutation(db, r.key, m), r, id, row, commandId) == RevokedDb(db, r, id, row, commandId)
  {
    hide InsertCommand, SupersedeNotifications;
    SetTwice(db.mutations, r.key, m,
             CompletedMutation(r, row.organization, Some(id), ViewResponse(View(id, row)), db.now));
  }

  lemma SetTwice(mutations: Mutations, key: MutationKey, a: Mutation, b: Mutation)
    ensures mutations[key := a][key := b] == mutations[key := b]
  {
  }
}
