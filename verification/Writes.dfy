/** What each client transaction under a new key refuses, answers and writes, column by column. */
module Writes {
  import opened Schema
  import opened Storage
  import opened Consistency
  import opened Preservation
  import opened Effects
  import opened Conservation

  // ------------------------------------------------------- how tables may differ

  /** The table has one more command: due at once, never claimed. */
  predicate Queues(a: Commands, b: Commands, c: Uuid, organization: Name, id: Uuid, kind: CommandKind, key: CommandKey,
                   now: Time) {
    && c !in a && c in b
    && b[c] == Command(organization := organization, invitation := id, kind := kind, key := key, state := Waiting,
                       attempts := 0, availableAt := now, lease := None, lastError := None, receipt := None,
                       createdAt := now, updatedAt := now, completedAt := None)
    && b.Keys == a.Keys + {c}
  }

  /** No notification of the invitation waits or is in flight any longer; no other command has changed. */
  predicate Silences(a: Commands, b: Commands, id: Uuid, now: Time) {
    forall d | d in a ::
      d in b &&
      b[d] == if a[d].invitation == id && a[d].kind.NotifyInvitation? &&
      (a[d].state == Waiting || a[d].state == InFlight)
              then a[d].(state := Superseded, lease := None, updatedAt := now, completedAt := Some(now))
              else a[d]
  }

  predicate Keeps(a: Commands, b: Commands) {
    forall d | d in a :: d in b && b[d] == a[d]
  }

  predicate Logs(a: seq<Activity>, b: seq<Activity>, organization: Name, id: Uuid, kind: ActivityKind, actor: Name,
                 revision: int, now: Time) {
    b == a + [Activity(organization := organization, invitation := id, kind := kind, actor := actor,
                       revision := revision, createdAt := now)]
  }

  /** The ledger answers the request from now on. */
  predicate Settles(a: Mutations, b: Mutations, r: Request, organization: Name, invitation: Option<Uuid>,
                     response: Response, now: Time) {
    b == a[r.key := Mutation(operation := r.operation, actor := r.actor, hash := r.hash, organization := organization,
                             invitation := invitation, command := None, status := Finished, response := Some(response),
                             createdAt := now)]
  }

  function FailureOf<T>(outcome: Outcome<T>): Option<DomainFailure> {
    if outcome.Rejected? then Some(outcome.failure) else None
  }

  /** Nobody has accepted, ended or rotated the row since the caller saw it. */
  predicate Open(row: Invitation, expectedRevision: int) {
    row.revision == expectedRevision && row.state == Pending && row.acceptanceSubject == None
  }

  /** The refusals on a locked row: a moved revision before an ended invitation before a running acceptance. */
  predicate RefusedOnRow(failure: Option<DomainFailure>, row: Invitation, expectedRevision: int) {
    && (failure == Some(RevisionConflict) <==> row.revision != expectedRevision)
    && (failure == Some(InvalidTransition) <==> row.revision == expectedRevision && row.state != Pending)
    && (failure == Some(AcceptanceInProgress) <==>
          row.revision == expectedRevision && row.state == Pending && row.acceptanceSubject.Some?)
  }

  /** ... all of them after the invitation is found in the organization of the request. */
  predicate RefusedInOrder(failure: Option<DomainFailure>, invitations: Invitations, organization: Name, id: Uuid,
                    expectedRevision: int) {
    && (failure == Some(InvitationNotFound) <==> id !in invitations || invitations[id].organization != organization)
    && (failure != Some(InvitationNotFound) ==>
          RefusedOnRow(failure, invitations[id], expectedRevision) &&
          (failure.None? <==> Open(invitations[id], expectedRevision)))
  }

  // ------------------------------------------------------------------ creation

  predicate Taken(invitations: Invitations, organization: Name, emailNormalized: Name) {
    exists i :: i in invitations && invitations[i].state == Pending && invitations[i].organization == organization &&
                invitations[i].emailNormalized == emailNormalized
  }

  /** An invitation is refused if and only if one is pending for the same organization and address. */
  lemma InviteRefusals(db: Database, r: Request, id: Uuid, organization: Name, email: Name, emailNormalized: Name,
                       tokenHash: Verifier, ttl: int, commandId: Uuid) returns (db': Database,
                                                                                outcome: Outcome<TokenResult>)
    requires Consistent(db) && r.key !in db.mutations
    ensures (db', outcome) == CreateInvitation(db, r, id, organization, email, emailNormalized, tokenHash, ttl,
                                               commandId)
    ensures outcome == Rejected(InvitationExists) <==> Taken(db.invitations, organization, emailNormalized)
    ensures outcome.Done? <==> !Taken(db.invitations, organization, emailNormalized) && id !in db.invitations
    ensures outcome.Rejected? ==> outcome.failure == InvitationExists
    ensures !outcome.Done? ==> db' == db
  {
    hide Created, NewInvitation, RowsOk, EmailsOk, CommandsOk, UniqueKeys, Census, ActivityOk, LedgerOk;
    db', outcome :=
      CreateInvitation(db, r, id, organization, email, emailNormalized, tokenHash, ttl, commandId).0,
      CreateInvitation(db, r, id, organization, email, emailNormalized, tokenHash, ttl, commandId).1;
    assert NextNumber(db.sequences, organization) >= 1;
  }

  /** A token is disclosed only with a row whose deadline is `ttl` from now, as the answer shows. */
  lemma DisclosedDeadline(db: Database, r: Request, id: Uuid, organization: Name, email: Name, emailNormalized: Name,
                          tokenHash: Verifier, ttl: int, commandId: Uuid)
    requires var outcome := CreateInvitation(db, r, id, organization, email, emailNormalized, tokenHash, ttl,
                                             commandId).1;
      outcome.Done? && outcome.value.disclose
    ensures var (db', outcome) :=
        CreateInvitation(db, r, id, organization, email, emailNormalized, tokenHash, ttl, commandId);
      && id in db'.invitations && db'.invitations[id].organization == organization
      && db'.invitations[id].state == Pending && db'.invitations[id].tokenExpiresAt == db.now + ttl
      && Shows(outcome.value.view, id, db'.invitations[id])
  {
    hide PendingEmail, HasKey, InsertCommand;
  }

  /** A new invitation: its row with the deadline `ttl` from now, its first notification, its activity, the next
      number, and the answer, disclosed once. */
  lemma InviteWrites(db: Database, r: Request, id: Uuid, organization: Name, email: Name, emailNormalized: Name,
                     tokenHash: Verifier, ttl: int, commandId: Uuid) returns (db': Database, result: TokenResult)
    requires Consistent(db) && r.key !in db.mutations && commandId !in db.commands
    requires CreateInvitation(db, r, id, organization, email, emailNormalized, tokenHash, ttl, commandId).1.Done?
    ensures (db', Done(result)) ==
      CreateInvitation(db, r, id, organization, email, emailNormalized, tokenHash, ttl, commandId)
    ensures var number := if organization in db.sequences then db.sequences[organization] else 1;
      && id !in db.invitations
      && db'.invitations == db.invitations[id := Invitation(
           organization := organization, number := number, email := email, emailNormalized := emailNormalized,
           state := Pending, inviter := r.actor, acceptanceSubject := None, membershipId := None,
           tokenHash := Some(tokenHash), tokenGeneration := 1, tokenExpiresAt := db.now + ttl, tokenConsumedAt := None,
           revision := 1, delivery := DeliveryPending, intentId := None, deliveryId := None,
           createdAt := db.now, updatedAt := db.now, acceptedAt := None, revokedAt := None, expiredAt := None,
           revokeReason := None)]
      && db'.sequences == db.sequences[organization := number + 1]
      && db'.now == db.now
    ensures Shows(result.view, id, db'.invitations[id]) && result.generation == 1 && result.disclose
    ensures Queues(db.commands, db'.commands, commandId, organization, id, NotifyInvitation(1), NotifyKey(id, 1),
                   db.now)
    ensures Keeps(db.commands, db'.commands)
    ensures Logs(db.activity, db'.activity, organization, id, InvitationCreated, r.actor, 1, db.now)
    ensures Settles(db.mutations, db'.mutations, r, organization, Some(id), TokenResponse(result.view, 1), db.now)
  {
    hide PendingEmail, RowsOk, NumbersOk, EmailsOk, CommandsOk, UniqueKeys, Census, ActivityOk, LedgerOk, HasKey;
    UnownedKeysAreAbsent(db, id);
    db', result :=
      CreateInvitation(db, r, id, organization, email, emailNormalized, tokenHash, ttl, commandId).0,
      CreateInvitation(db, r, id, organization, email, emailNormalized, tokenHash, ttl, commandId).1.value;
    assert !HasKey(db.commands, NotifyKey(id, 1));
  }

  /** Only a request the ledger did not know is answered with a token. */
  lemma DisclosedIsNew(db: Database, r: Request, organization: Name, id: Uuid, email: Name, expectedRevision: int,
                       tokenHash: Verifier, ttl: int, commandId: Uuid)
    ensures var created := CreateInvitation(db, r, id, organization, email, email, tokenHash, ttl, commandId).1;
      created.Done? && created.value.disclose ==> r.key !in db.mutations
    ensures var resent := ResendInvitation(db, r, organization, id, expectedRevision, tokenHash, ttl, commandId).1;
      resent.Done? && resent.value.disclose ==> r.key !in db.mutations
  {
    hide Created, Resent, PendingEmail, Rotated, NewInvitation;
  }

  // ------------------------------------------------------- rotation, revocation

  /** What a row that moves on takes along. */
  lemma MoveWrites(db: Database, id: Uuid, row: Invitation, commandId: Uuid, kind: CommandKind,
                   activity: ActivityKind, actor: Name)
    requires commandId !in db.commands && !HasKey(db.commands, KeyOf(id, kind))
    ensures var db' := MovedOn(db, id, row, commandId, kind, activity, actor);
      && db'.invitations == db.invitations[id := row]
      && db'.mutations == db.mutations && db'.sequences == db.sequences && db'.now == db.now
      && Queues(db.commands, db'.commands, commandId, row.organization, id, kind, KeyOf(id, kind), db.now)
      && Silences(db.commands, db'.commands, id, db.now)
      && Logs(db.activity, db'.activity, row.organization, id, activity, actor, row.revision, db.now)
  {
    hide HasKey;
    SupersededKeysAreKept(db.commands, id, db.now);
  }

  /** A resend is refused in this order, and then changes nothing. */
  lemma ResendRefusals(db: Database, r: Request, organization: Name, id: Uuid, expectedRevision: int,
                       tokenHash: Verifier, ttl: int, commandId: Uuid) returns (db': Database,
                                                                                outcome: Outcome<TokenResult>)
    requires r.key !in db.mutations
    ensures (db', outcome) == ResendInvitation(db, r, organization, id, expectedRevision, tokenHash, ttl, commandId)
    ensures RefusedInOrder(FailureOf(outcome), db.invitations, organization, id, expectedRevision)
    ensures !outcome.Broken? && (outcome.Rejected? ==> db' == db)
  {
    hide Resent, Rotated;
    db', outcome :=
      ResendInvitation(db, r, organization, id, expectedRevision, tokenHash, ttl, commandId).0,
      ResendInvitation(db, r, organization, id, expectedRevision, tokenHash, ttl, commandId).1;
  }

  /** A resend: the next generation and revision, a deadline `ttl` from now, the delivery reset, the older notification
      superseded and the next one queued. */
  lemma ResendWrites(db: Database, r: Request, organization: Name, id: Uuid, expectedRevision: int,
                     tokenHash: Verifier, ttl: int, commandId: Uuid) returns (db': Database, result: TokenResult)
    requires Consistent(db) && r.key !in db.mutations && commandId !in db.commands
    requires ResendInvitation(db, r, organization, id, expectedRevision, tokenHash, ttl, commandId).1.Done?
    ensures (db', Done(result)) ==
      ResendInvitation(db, r, organization, id, expectedRevision, tokenHash, ttl, commandId)
    ensures id in db.invitations && db.invitations[id].organization == organization
    ensures var row := db.invitations[id];
      var generation := row.tokenGeneration + 1;
      && db'.invitations == db.invitations[id := row.(
           tokenHash := Some(tokenHash), tokenGeneration := generation, tokenExpiresAt := db.now + ttl,
           revision := expectedRevision + 1, delivery := DeliveryPending, intentId := None, deliveryId := None,
           updatedAt := db.now)]
      && result.generation == generation
      && Queues(db.commands, db'.commands, commandId, organization, id, NotifyInvitation(generation),
                NotifyKey(id, generation), db.now)
      && Settles(db.mutations, db'.mutations, r, organization, Some(id), TokenResponse(result.view, generation),
                  db.now)
    ensures Shows(result.view, id, db'.invitations[id]) && result.disclose
    ensures Silences(db.commands, db'.commands, id, db.now)
    ensures Logs(db.activity, db'.activity, organization, id, InvitationResent, r.actor, expectedRevision + 1, db.now)
    ensures db'.sequences == db.sequences && db'.now == db.now
  {
    hide RecordsOk, LedgerOk, Advance, SupersedeNotifications, HasKey, Queues, Silences, Logs;
    db', result :=
      ResendInvitation(db, r, organization, id, expectedRevision, tokenHash, ttl, commandId).0,
      ResendInvitation(db, r, organization, id, expectedRevision, tokenHash, ttl, commandId).1.value;
    UnownedKeysAreAbsent(db, id);
    var row := Rotated(db.invitations[id], tokenHash, ttl, db.now);
    MoveWrites(db, id, row, commandId, NotifyInvitation(row.tokenGeneration), InvitationResent, r.actor);
  }

  lemma RevokeRefusals(db: Database, r: Request, organization: Name, id: Uuid, expectedRevision: int, reason: Name,
                       commandId: Uuid) returns (db': Database, outcome: Outcome<InvitationView>)
    requires r.key !in db.mutations
    ensures (db', outcome) == RevokeInvitation(db, r, organization, id, expectedRevision, reason, commandId)
    ensures RefusedInOrder(FailureOf(outcome), db.invitations, organization, id, expectedRevision)
    ensures !outcome.Broken? && (outcome.Rejected? ==> db' == db)
  {
    hide RevokedDb, RevokedRow;
    db', outcome :=
      RevokeInvitation(db, r, organization, id, expectedRevision, reason, commandId).0,
      RevokeInvitation(db, r, organization, id, expectedRevision, reason, commandId).1;
  }

  /** A revocation ends the invitation, its token and its undelivered notification. */
  lemma RevokeWrites(db: Database, r: Request, organization: Name, id: Uuid, expectedRevision: int, reason: Name,
                     commandId: Uuid) returns (db': Database, view: InvitationView)
    requires Consistent(db) && r.key !in db.mutations && commandId !in db.commands
    requires RevokeInvitation(db, r, organization, id, expectedRevision, reason, commandId).1.Done?
    ensures (db', Done(view)) == RevokeInvitation(db, r, organization, id, expectedRevision, reason, commandId)
    ensures id in db.invitations && db.invitations[id].organization == organization
    ensures var row := db.invitations[id];
      db'.invitations == db.invitations[id := row.(
        state := Revoked, tokenHash := None, revision := expectedRevision + 1,
        delivery := if row.delivery == DeliveryPending then DeliverySuperseded else row.delivery,
        revokeReason := Some(reason), revokedAt := Some(db.now), updatedAt := db.now)]
    ensures Shows(view, id, db'.invitations[id])
    ensures Queues(db.commands, db'.commands, commandId, organization, id, NotifyLifecycle(Revoked),
                   LifecycleKey(id, Revoked), db.now)
    ensures Silences(db.commands, db'.commands, id, db.now)
    ensures Logs(db.activity, db'.activity, organization, id, InvitationRevoked, r.actor, expectedRevision + 1, db.now)
    ensures Settles(db.mutations, db'.mutations, r, organization, Some(id), ViewResponse(view), db.now)
    ensures db'.sequences == db.sequences && db'.now == db.now
  {
    hide RecordsOk, LedgerOk, Advance, SupersedeNotifications, HasKey, Queues, Silences, Logs;
    db', view :=
      RevokeInvitation(db, r, organization, id, expectedRevision, reason, commandId).0,
      RevokeInvitation(db, r, organization, id, expectedRevision, reason, commandId).1.value;
    UnownedKeysAreAbsent(db, id);
    var row := RevokedRow(db.invitations[id], reason, db.now);
    MoveWrites(db, id, row, commandId, NotifyLifecycle(Revoked), InvitationRevoked, r.actor);
  }

  // ---------------------------------------------------------------- acceptance

  /** An acceptance is refused in this order; a token past its deadline is the one refusal that commits something. */
  lemma AcceptRefusals(db: Database, r: Request, id: Uuid, expectedRevision: int, observedGeneration: int,
                       observedHash: Verifier, leaseSeconds: int, commandId: Uuid, lease: Uuid)
    returns (db': Database, outcome: Outcome<AcceptStart>)
    requires r.key !in db.mutations
    ensures (db', outcome) == BeginAccept(db, r, id, expectedRevision, observedGeneration, observedHash, leaseSeconds,
                                          commandId, lease)
    ensures outcome == Rejected(InvitationNotFound) <==> id !in db.invitations
    ensures id in db.invitations ==>
      var row := db.invitations[id];
      var open := Open(row, expectedRevision);
      var observed := row.tokenGeneration == observedGeneration && row.tokenHash == Some(observedHash);
      && RefusedOnRow(FailureOf(outcome), row, expectedRevision)
      && (outcome == Rejected(InvitationExpiredFailure) <==> open && row.tokenExpiresAt <= db.now)
      && (outcome == Rejected(TokenInvalid) <==> open && row.tokenExpiresAt > db.now && !observed)
      && (outcome.Done? <==> open && row.tokenExpiresAt > db.now && observed)
    ensures !outcome.Broken? && (outcome.Done? ==> outcome.value.Execute?)
    ensures outcome.Rejected? && outcome.failure != InvitationExpiredFailure ==> db' == db
  {
    hide AcceptStarted, Expire, InsertedId;
    db', outcome :=
      BeginAccept(db, r, id, expectedRevision, observedGeneration, observedHash, leaseSeconds, commandId, lease).0,
      BeginAccept(db, r, id, expectedRevision, observedGeneration, observedHash, leaseSeconds, commandId, lease).1;
  }

  /** An open row under its own verifier: an acceptance starts before its deadline and expires it from then on. */
  lemma OpenUntilDeadline(db: Database, r: Request, id: Uuid, leaseSeconds: int, commandId: Uuid, lease: Uuid)
    requires Consistent(db) && r.key !in db.mutations && commandId !in db.commands && r.operation.Accept?
    requires id in db.invitations && db.invitations[id].state == Pending && db.invitations[id].acceptanceSubject == None
    ensures var row := db.invitations[id];
      row.tokenHash.Some? &&
      BeginAccept(db, r, id, row.revision, row.tokenGeneration, row.tokenHash.value, leaseSeconds, commandId, lease).1
        == if db.now < row.tokenExpiresAt
           then Done(Execute(CommandRecord(command := commandId, organization := row.organization, invitation := id,
                                           kind := AddMember(r.actor), key := MembershipKey(id), attempts := 1,
                                           lease := lease)))
           else Rejected(InvitationExpiredFailure)
  {
    hide RecordsOk, LedgerOk, Expire, AcceptStarted, HasKey;
    RowIsOk(db, id);
    UnownedKeysAreAbsent(db, id);
  }

  /** A started acceptance: the token is consumed for the caller, the membership command is in the outbox already
      claimed, and the ledger row is bound to it. */
  lemma AcceptStartWrites(db: Database, r: Request, id: Uuid, expectedRevision: int, observedGeneration: int,
                          observedHash: Verifier, leaseSeconds: int, commandId: Uuid, lease: Uuid)
    returns (db': Database)
    requires Consistent(db) && r.key !in db.mutations && commandId !in db.commands
    requires BeginAccept(db, r, id, expectedRevision, observedGeneration, observedHash, leaseSeconds, commandId,
                         lease).1.Done?
    ensures id in db.invitations
    ensures var row := db.invitations[id];
      && (db', Done(Execute(CommandRecord(command := commandId, organization := row.organization, invitation := id,
                                          kind := AddMember(r.actor), key := MembershipKey(id), attempts := 1,
                                          lease := lease)))) ==
           BeginAccept(db, r, id, expectedRevision, observedGeneration, observedHash, leaseSeconds, commandId, lease)
      && db'.invitations == db.invitations[id := row.(
           acceptanceSubject := Some(r.actor), tokenHash := None, tokenConsumedAt := Some(db.now),
           revision := expectedRevision + 1, updatedAt := db.now)]
      && db'.commands == db.commands[commandId := Command(
           organization := row.organization, invitation := id, kind := AddMember(r.actor), key := MembershipKey(id),
           state := InFlight, attempts := 1, availableAt := db.now,
           lease := Some(Lease(lease, db.now + leaseSeconds)), lastError := None, receipt := None,
           createdAt := db.now, updatedAt := db.now, completedAt := None)]
      && db'.mutations == db.mutations[r.key := Mutation(
           operation := Accept, actor := r.actor, hash := r.hash, organization := row.organization,
           invitation := Some(id), command := Some(commandId), status := Started, response := None,
           createdAt := db.now)]
      && Logs(db.activity, db'.activity, row.organization, id, AcceptanceStarted, r.actor, expectedRevision + 1,
              db.now)
      && db'.sequences == db.sequences && db'.now == db.now
  {
    hide RecordsOk, LedgerOk, Expire, HasKey;
    db' := BeginAccept(db, r, id, expectedRevision, observedGeneration, observedHash, leaseSeconds, commandId, lease).0;
    UnownedKeysAreAbsent(db, id);
  }

  /** The expiry of one row: by an acceptance that came too late, or by a rejected membership. */
  lemma ExpiryRowWrites(db: Database, id: Uuid, commandId: Uuid, activity: ActivityKind, actor: Name)
    returns (db': Database)
    requires Consistent(db) && commandId !in db.commands && id in db.invitations && db.invitations[id].state == Pending
    ensures db' == Expire(db, db.commands, id, commandId, activity, actor)
    ensures var row := db.invitations[id];
      && db'.invitations == db.invitations[id := row.(
           state := Expired, tokenHash := None, revision := row.revision + 1,
           delivery := if row.delivery == DeliveryPending then DeliverySuperseded else row.delivery,
           expiredAt := Some(db.now), updatedAt := db.now)]
      && Queues(db.commands, db'.commands, commandId, row.organization, id, NotifyLifecycle(Expired),
                LifecycleKey(id, Expired), db.now)
      && Logs(db.activity, db'.activity, row.organization, id, activity, actor, row.revision + 1, db.now)
    ensures Silences(db.commands, db'.commands, id, db.now)
    ensures db'.mutations == db.mutations && db'.sequences == db.sequences && db'.now == db.now
  {
    hide RecordsOk, LedgerOk, Advance, SupersedeNotifications, HasKey, Queues, Silences, Logs;
    db' := Expire(db, db.commands, id, commandId, activity, actor);
    UnownedKeysAreAbsent(db, id);
    var row := ExpiredRow(db.invitations[id], db.now);
    MoveWrites(db, id, row, commandId, NotifyLifecycle(Expired), activity, actor);
  }

  /** An acceptance that comes too late commits the expiry, in nobody's name, and leaves the ledger as it was. */
  lemma LateAcceptExpires(db: Database, r: Request, id: Uuid, expectedRevision: int, observedGeneration: int,
                          observedHash: Verifier, leaseSeconds: int, commandId: Uuid, lease: Uuid)
    returns (db': Database)
    requires Consistent(db) && r.key !in db.mutations && commandId !in db.commands
    requires id in db.invitations && Open(db.invitations[id], expectedRevision)
    requires db.invitations[id].tokenExpiresAt <= db.now
    ensures (db', Rejected(InvitationExpiredFailure)) ==
      BeginAccept(db, r, id, expectedRevision, observedGeneration, observedHash, leaseSeconds, commandId, lease)
    ensures id in db'.invitations && db'.invitations[id].state == Expired
    ensures db'.invitations[id].revision == expectedRevision + 1 && db'.invitations[id].tokenHash == None
    ensures Queues(db.commands, db'.commands, commandId, db.invitations[id].organization, id, NotifyLifecycle(Expired),
                   LifecycleKey(id, Expired), db.now)
    ensures Logs(db.activity, db'.activity, db.invitations[id].organization, id, InvitationExpired, "system:accept",
                 expectedRevision + 1, db.now)
    ensures db'.mutations == db.mutations
  {
    hide Consistent, Expire, Queues, Logs;
    db' := ExpiryRowWrites(db, id, commandId, InvitationExpired, "system:accept");
  }

  // ----------------------------------------------------------------- completion

  /** A completion that answers, answers the receipt of the row it leaves; if it was not done before, that row has
      moved on by one revision and carries the membership the provider answered. */
  lemma CompletionAnswersReceipt(db: Database, record: CommandRecord, membershipId: Name, providerRevision: Name,
                                 newId: Uuid) returns (db': Database, outcome: Outcome<AcceptedRecord>)
    ensures (db', outcome) == CompleteAccept(db, record, membershipId, providerRevision, newId)
    ensures outcome.Done? ==>
      && outcome.value.invitation == record.invitation && IsReceipt(outcome.value, db'.invitations)
      && record.command in db.commands && record.invitation in db.invitations
      && (db.commands[record.command].state.Completed? ==> db' == db)
      && (!db.commands[record.command].state.Completed? ==>
            var row := db.invitations[record.invitation];
            outcome.value == AcceptedRecord(
              invitation := record.invitation, number := row.number, organization := row.organization,
              membershipId := membershipId, revision := row.revision + 1))
  {
    hide HasKey, InsertCommand;
    db', outcome := CompleteAccept(db, record, membershipId, providerRevision, newId).0,
                    CompleteAccept(db, record, membershipId, providerRevision, newId).1;
  }

  /** What a completion that was not done before writes: the accepted row, the settled command, the notice that is due
      next, the activity of the member, and the answer of the request that started it. */
  lemma CompletionWrites(db: Database, record: CommandRecord, membershipId: Name, providerRevision: Name, newId: Uuid)
    returns (db': Database, accepted: AcceptedRecord)
    requires Consistent(db) && newId !in db.commands && record.command in db.commands
    requires !db.commands[record.command].state.Completed?
    requires CompleteAccept(db, record, membershipId, providerRevision, newId).1.Done?
    ensures (db', Done(accepted)) == CompleteAccept(db, record, membershipId, providerRevision, newId)
    ensures record.invitation in db.invitations
    ensures var id, row := record.invitation, db.invitations[record.invitation];
      && row.state == Pending && row.acceptanceSubject == SubjectOf(record.kind)
      && db'.invitations == db.invitations[id := row.(
           state := Accepted, membershipId := Some(membershipId), revision := row.revision + 1,
           acceptedAt := Some(db.now), updatedAt := db.now)]
      && Queues(db.commands[record.command := db.commands[record.command].(
                  state := Completed, receipt := Some(MembershipReceipt(membershipId, providerRevision)),
                  lastError := None, lease := None, updatedAt := db.now, completedAt := Some(db.now))],
                db'.commands, newId, row.organization, id, NotifyLifecycle(Accepted), LifecycleKey(id, Accepted),
                db.now)
      && (row.acceptanceSubject.Some? ==>
            Logs(db.activity, db'.activity, row.organization, id, InvitationAccepted, row.acceptanceSubject.value,
                 row.revision + 1, db.now))
    ensures forall d | d in db.commands && d != record.command :: d in db'.commands && db'.commands[d] == db.commands[d]
    ensures db'.mutations.Keys == db.mutations.Keys
    ensures forall k | k in db.mutations ::
      db'.mutations[k] ==
        if db.mutations[k].command == Some(record.command) && db.mutations[k].operation == Accept &&
           db.mutations[k].status == Started
        then db.mutations[k].(status := Finished, response := Some(AcceptedResponse(accepted)))
        else db.mutations[k]
    ensures db'.sequences == db.sequences && db'.now == db.now
  {
    hide RecordsOk, LedgerOk, HasKey;
    db', accepted := CompleteAccept(db, record, membershipId, providerRevision, newId).0,
                     CompleteAccept(db, record, membershipId, providerRevision, newId).1.value;
    UnownedKeysAreAbsent(db, record.invitation);
    var receipt := MembershipReceipt(membershipId, providerRevision);
    SameOutboxKeys(db.commands, record.command,
                   FinishedCommand(db.commands[record.command], Completed, Some(receipt), None, db.now));
  }

  lemma SameOutboxKeys(commands: Commands, c: Uuid, command: Command)
    requires c in commands && SameCommand(commands[c], command)
    ensures forall k :: HasKey(commands[c := command], k) <==> HasKey(commands, k)
  {
    SameKeys(commands, commands[c := command]);
  }
}
