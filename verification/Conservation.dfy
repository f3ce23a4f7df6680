/** The conservation law: an invitation's revision counts its commands and its activities. */
module Conservation {
  import opened Schema
  import opened Storage
  import opened Consistency
  import opened Preservation
  import opened Effects
  import opened Protocol
  import opened Safety

  function CommandsOf(commands: Commands, id: Uuid): set<Uuid> {
    set c | c in commands && commands[c].invitation == id
  }

  function NotifyKeys(id: Uuid, n: int): set<CommandKey> {
    set g | 1 <= g <= n :: NotifyKey(id, g)
  }

  function OwedKeys(id: Uuid, row: Invitation): set<CommandKey> {
    NotifyKeys(id, row.tokenGeneration)
    + (if row.acceptanceSubject.Some? then {MembershipKey(id)} else {})
    + (if row.state.Pending? then {} else {LifecycleKey(id, row.state)})
  }

  lemma {:induction false} NotifyKeyCount(id: Uuid, n: int)
    requires n >= 0
    ensures |NotifyKeys(id, n)| == n
    decreases n
  {
    if n > 0 {
      NotifyKeyCount(id, n - 1);
      assert NotifyKeys(id, n) == NotifyKeys(id, n - 1) + {NotifyKey(id, n)};
    } else {
      assert NotifyKeys(id, n) == {};
    }
  }

  lemma OwedKeyCount(id: Uuid, row: Invitation)
    requires RowOk(row)
    ensures |OwedKeys(id, row)| == row.revision
  {
    NotifyKeyCount(id, row.tokenGeneration);
    var notify := NotifyKeys(id, row.tokenGeneration);
    var withMember := notify + (if row.acceptanceSubject.Some? then {MembershipKey(id)} else {});
    assert |withMember| == row.tokenGeneration + Bit(row.acceptanceSubject.Some?);
    assert OwedKeys(id, row) == withMember + (if row.state.Pending? then {} else {LifecycleKey(id, row.state)});
  }

  /** A map whose values are distinct has as many keys as values. */
  lemma {:induction false} DistinctKeysCount(commands: Commands, ids: set<Uuid>, keys: set<CommandKey>)
    requires UniqueKeys(commands) && ids <= commands.Keys
    requires keys == set c | c in ids :: commands[c].key
    ensures |keys| == |ids|
    decreases |ids|
  {
    if ids != {} {
      var c :| c in ids;
      var ids', keys' := ids - {c}, set d | d in ids - {c} :: commands[d].key;
      DistinctKeysCount(commands, ids', keys');
      assert keys == keys' + {commands[c].key};
      assert commands[c].key !in keys';
    }
  }


  lemma {:induction false} UpToCounts(n: int)
    requires n >= 0
    ensures |UpTo(n)| == n && forall m | 0 <= m < n :: UpTo(n)[m] == m + 1
    decreases n
  {
    if n > 0 { UpToCounts(n - 1); }
  }

  /** Revision = generation + [a subject is accepting or has accepted] + [not pending]
      = number of command rows = number of activity rows; and the activity rows carry 1, 2, .., revision. */
  lemma RevisionLaw(db: Database, id: Uuid)
    requires Visited(db) && id in db.invitations
    ensures var row := db.invitations[id];
      && row.revision == row.tokenGeneration + Bit(row.acceptanceSubject.Some?) + Bit(!row.state.Pending?)
      && |CommandsOf(db.commands, id)| == row.revision
      && |Revisions(db.activity, id)| == row.revision
      && forall n | 0 <= n < row.revision :: Revisions(db.activity, id)[n] == n + 1
  {
    hide NumbersOk, EmailsOk, LedgerOk;
    VisitedIsConsistent(db);
    var row := db.invitations[id];
    assert RowOk(row);
    UpToCounts(row.revision);
    OwedKeyCount(id, row);
    CommandsAreOwed(db, id);
  }

  lemma KeysOfCommandsAreOwed(db: Database, id: Uuid, k: CommandKey)
    requires Consistent(db) && id in db.invitations
    ensures k in OwedKeys(id, db.invitations[id]) <==> HasKey(db.commands, k) && k.invitation == id
  {
    hide NumbersOk, EmailsOk, LedgerOk, ActivityOk, CommandsOk, HasKey, UniqueKeys;
    assert HasKey(db.commands, k) <==> k.invitation in db.invitations && Owed(db.invitations[k.invitation], k);
  }

  lemma CommandsAreOwed(db: Database, id: Uuid)
    requires Consistent(db) && id in db.invitations
    ensures |CommandsOf(db.commands, id)| == |OwedKeys(id, db.invitations[id])|
  {
    hide NumbersOk, EmailsOk, LedgerOk, ActivityOk, Census, OwedKeys, KindOk, RowOk, Owed;
    var row := db.invitations[id];
    var ids := CommandsOf(db.commands, id);
    var keys := set c | c in ids :: db.commands[c].key;
    DistinctKeysCount(db.commands, ids, keys);
    forall k: CommandKey ensures k in keys <==> k in OwedKeys(id, row) {
      KeysOfCommandsAreOwed(db, id, k);
      if HasKey(db.commands, k) && k.invitation == id {
        var c :| c in db.commands && db.commands[c].key == k;
        assert CommandOk(db.commands[c], db.invitations[db.commands[c].invitation]);
        assert c in ids;
      }
      if k in keys {
        var c :| c in ids && db.commands[c].key == k;
        assert CommandOk(db.commands[c], row);
      }
    }
    assert keys == OwedKeys(id, row);
  }

  /** The keys of commands an invitation has not caused are absent: all of them before it is created, and those of
      its next generation, its acceptance and its end while it is pending. */
  lemma UnownedKeysAreAbsent(db: Database, id: Uuid)
    requires Consistent(db)
    ensures id !in db.invitations ==> forall k: CommandKey | k.invitation == id :: !HasKey(db.commands, k)
    ensures id in db.invitations && Unaccepted(db.invitations[id]) ==>
      !HasKey(db.commands, NotifyKey(id, db.invitations[id].tokenGeneration + 1)) &&
      !HasKey(db.commands, MembershipKey(id))
    ensures id in db.invitations && db.invitations[id].state.Pending? ==>
      forall lifecycle :: !HasKey(db.commands, LifecycleKey(id, lifecycle))
  {
    hide NumbersOk, EmailsOk, LedgerOk, ActivityOk, CommandsOk, HasKey, UniqueKeys;
    if id in db.invitations {
      assert RowOk(db.invitations[id]);
      forall lifecycle ensures HasKey(db.commands, LifecycleKey(id, lifecycle)) <==>
        Owed(db.invitations[id], LifecycleKey(id, lifecycle)) {
      }
    }
  }

  /** One row, one activity, and one command under exactly this id. */
  predicate AddsOne(db: Database, db': Database, commandId: Uuid) {
    |db'.activity| == |db.activity| + 1 && db'.commands.Keys == db.commands.Keys + {commandId}
  }

  predicate AddsNone(db: Database, db': Database) {
    db'.activity == db.activity && db'.commands.Keys == db.commands.Keys
  }

  lemma AdvanceAddsOne(db: Database, commands: Commands, id: Uuid, row: Invitation, commandId: Uuid, kind: CommandKind,
                       activity: ActivityKind, actor: Name)
    requires commands.Keys == db.commands.Keys && !HasKey(commands, KeyOf(id, kind))
    ensures AddsOne(db, Advance(db, commands, id, row, commandId, kind, activity, actor), commandId)
  {
    hide HasKey;
  }

  lemma ExpireAddsOne(db: Database, commands: Commands, id: Uuid, commandId: Uuid, activity: ActivityKind, actor: Name)
    requires id in db.invitations && commands.Keys == db.commands.Keys && !HasKey(commands, LifecycleKey(id, Expired))
    ensures AddsOne(db, Expire(db, commands, id, commandId, activity, actor), commandId)
  {
    hide HasKey, Advance;
    SameKeys(commands, SupersedeNotifications(commands, id, db.now));
    AdvanceAddsOne(db, SupersedeNotifications(commands, id, db.now), id, ExpiredRow(db.invitations[id], db.now),
                   commandId,
                   NotifyLifecycle(Expired), activity, actor);
  }

  lemma SupersededKeysAreKept(commands: Commands, id: Uuid, now: Time)
    ensures SupersedeNotifications(commands, id, now).Keys == commands.Keys
    ensures forall k :: HasKey(SupersedeNotifications(commands, id, now), k) <==> HasKey(commands, k)
  {
    SameKeys(commands, SupersedeNotifications(commands, id, now));
  }

  lemma CreatedAddsOne(db: Database, r: Request, id: Uuid, row: Invitation, commandId: Uuid)
    requires Consistent(db) && id !in db.invitations
    ensures AddsOne(db, Created(db, r, id, row, commandId), commandId)
  {
    hide Consistent, HasKey, Advance;
    UnownedKeysAreAbsent(db, id);
    assert !HasKey(db.commands, NotifyKey(id, 1));
    AdvanceAddsOne(db.(sequences := db.sequences[row.organization := row.number + 1]), db.commands, id, row, commandId,
                   NotifyInvitation(1), InvitationCreated, r.actor);
  }

  lemma RewrittenAddsOne(db: Database, r: Request, id: Uuid, row: Invitation, commandId: Uuid)
    requires Consistent(db) && id in db.invitations && Unaccepted(db.invitations[id])
    ensures row.tokenGeneration == db.invitations[id].tokenGeneration + 1 ==>
      AddsOne(db, Resent(db, r, id, row, commandId), commandId)
    ensures AddsOne(db, RevokedDb(db, r, id, row, commandId), commandId)
  {
    hide Consistent, HasKey, Advance, SupersedeNotifications;
    UnownedKeysAreAbsent(db, id);
    SupersededKeysAreKept(db.commands, id, db.now);
    var commands := SupersedeNotifications(db.commands, id, db.now);
    if row.tokenGeneration == db.invitations[id].tokenGeneration + 1 {
      AdvanceAddsOne(db, commands, id, row, commandId, NotifyInvitation(row.tokenGeneration), InvitationResent,
                     r.actor);
    }
    AdvanceAddsOne(db, commands, id, row, commandId, NotifyLifecycle(Revoked), InvitationRevoked, r.actor);
  }

  lemma StartedAddsOne(db: Database, r: Request, id: Uuid, leaseSeconds: int, commandId: Uuid, lease: Uuid)
    requires Consistent(db) && id in db.invitations && Unaccepted(db.invitations[id])
    ensures var holder := InsertedId(db.commands, commandId, MembershipKey(id));
      AddsOne(db, AcceptStarted(db, r, id, leaseSeconds, commandId, holder, lease), commandId)
  {
    hide Consistent, HasKey, Advance;
    UnownedKeysAreAbsent(db, id);
    AdvanceAddsOne(db, db.commands, id, ConsumedRow(db.invitations[id], r.actor, db.now), commandId, AddMember(r.actor),
                   AcceptanceStarted, r.actor);
  }

  lemma MutationInserts(w: World, s: Step)
    requires Consistent(w.db) && Enabled(w, s) && Mutates(s)
    ensures AddsNone(w.db, Next(w, s).db) || AddsOne(w.db, Next(w, s).db, s.newId)
  {
    hide Consistent, Next, Enabled, Created, Resent, RevokedDb, Expire, AcceptStarted, AddsOne, HasKey;
    var db := w.db;
    if s.StepInvite? {
      InviteCommits(w, s);
      if s.invitation !in db.invitations { CreatedAddsOne(db, s.r, s.invitation, InvitedRow(w, s), s.newId); }
    } else if s.StepResend? {
      ResendCommits(w, s);
      var id := s.snapshot.invitation;
      if id in db.invitations && Unaccepted(db.invitations[id]) {
        RewrittenAddsOne(db, s.r, id, ResentRow(w, s), s.newId);
      }
    } else if s.StepRevoke? {
      RevokeCommits(w, s);
      var id := s.invitation;
      if id in db.invitations && Unaccepted(db.invitations[id]) {
        RewrittenAddsOne(db, s.r, id, RevokedRow(db.invitations[id], s.reason, db.now), s.newId);
      }
    } else {
      AcceptCommits(w, s);
      var id := s.snapshot.invitation;
      if id in db.invitations && Unaccepted(db.invitations[id]) {
        UnownedKeysAreAbsent(db, id);
        ExpireAddsOne(db, db.commands, id, s.newId, InvitationExpired, SYSTEM_ACCEPT);
        StartedAddsOne(db, s.r, id, w.config.leaseSeconds, s.newId, s.lease);
      }
    }
  }

  lemma CompletionInserts(db: Database, record: CommandRecord, membershipId: Name, providerRevision: Name,
                          commandId: Uuid)
    requires Consistent(db)
    ensures var db' := CompleteAccept(db, record, membershipId, providerRevision, commandId).0;
      AddsNone(db, db') || AddsOne(db, db', commandId)
  {
    hide Consistent, HasKey, Advance;
    UnownedKeysAreAbsent(db, record.invitation);
    if Fenced(db.commands, record) && record.invitation in db.invitations &&
       db.invitations[record.invitation].state.Pending?
    {
      var receipt := MembershipReceipt(membershipId, providerRevision);
      var finished := db.commands[record.command :=
        FinishedCommand(db.commands[record.command], Completed, Some(receipt), None, db.now)];
      var row := AcceptedRow(db.invitations[record.invitation], membershipId, db.now);
      SameKeys(db.commands, finished);
      AdvanceAddsOne(db, finished, record.invitation, row, commandId, NotifyLifecycle(Accepted), InvitationAccepted,
                     if row.acceptanceSubject.Some? then row.acceptanceSubject.value else SYSTEM_MEMBERSHIP);
    }
  }

  lemma MembershipFailedAddsOne(db: Database, record: CommandRecord, error: Name, commandId: Uuid)
    requires Consistent(db) && record.command in db.commands && record.invitation in db.invitations
    requires db.invitations[record.invitation].state.Pending?
    ensures var failed := db.commands[record.command :=
        FinishedCommand(db.commands[record.command], Failed, None, Some(error), db.now)];
      AddsOne(db, MembershipFailed(db, record, failed, commandId), commandId)
  {
    hide Consistent, HasKey, Expire;
    UnownedKeysAreAbsent(db, record.invitation);
    var failed := db.commands[record.command := FinishedCommand(db.commands[record.command], Failed, None, Some(error),
                                                                db.now)];
    SameKeys(db.commands, failed);
    ExpireAddsOne(db, failed, record.invitation, commandId, AcceptanceFailed, SYSTEM_MEMBERSHIP_FAILURE);
  }

  lemma FailureInserts(db: Database, record: CommandRecord, error: Name, commandId: Uuid)
    requires Consistent(db)
    ensures var db' := FailCommand(db, record, error, commandId).0;
      AddsNone(db, db') || AddsOne(db, db', commandId)
  {
    hide Consistent, MembershipFailed;
    if Fenced(db.commands, record) && record.invitation in db.invitations &&
       db.invitations[record.invitation].state.Pending?
    {
      MembershipFailedAddsOne(db, record, error, commandId);
    }
  }

  lemma FinishingInserts(w: World, s: Step)
    requires Consistent(w.db) && Enabled(w, s) && (s.StepCompleteAccept? || s.StepFail?)
    ensures AddsNone(w.db, Next(w, s).db) || AddsOne(w.db, Next(w, s).db, s.newId)
  {
    hide Consistent, CompleteAccept, FailCommand, AddsOne, AddsNone;
    var record := w.claims[s.claim].record;
    if s.StepCompleteAccept? {
      CompletionInserts(w.db, record, s.membershipId, s.providerRevision, s.newId);
    } else {
      FailureInserts(w.db, record, s.error, s.newId);
    }
  }

  /** The ON CONFLICT arm of `insert_command` never fires: every transaction that inserts a command beside its
      activity adds exactly its own new id, and one that writes no activity adds none. */
  lemma InsertNeverConflicts(w: World, s: Step)
    requires Reachable(w) && Enabled(w, s) && (Mutates(s) || s.StepCompleteAccept? || s.StepFail?)
    ensures AddsNone(w.db, Next(w, s).db) || AddsOne(w.db, Next(w, s).db, s.newId)
  {
    hide Reachable, Consistent, KnowledgeOk, ProviderOk, Leases.ClaimsOk, Next, Enabled, AddsOne, AddsNone;
    ReachableWorld(w);
    if Mutates(s) {
      MutationInserts(w, s);
    } else {
      FinishingInserts(w, s);
    }
  }

  function InvitationsOf(invitations: Invitations, organization: Name): set<Uuid> {
    set i | i in invitations && invitations[i].organization == organization
  }

  predicate Numbered(invitations: Invitations, ids: set<Uuid>, n: int)
    requires ids <= invitations.Keys
  {
    exists i :: i in ids && invitations[i].number == n
  }

  /** Numbering is gap free: an organization's invitations are numbered 1 .. n, each number once. */
  lemma NumberingIsGapFree(db: Database, organization: Name)
    requires Visited(db)
    ensures var ids := InvitationsOf(db.invitations, organization);
      && |ids| == NextNumber(db.sequences, organization) - 1
      && (forall n: int :: 1 <= n <= |ids| <==> Numbered(db.invitations, ids, n))
      && (forall i, j | i in ids && j in ids && db.invitations[i].number == db.invitations[j].number :: i == j)
  {
    hide EmailsOk, LedgerOk, ActivityOk, CommandsOk, UniqueKeys, Census, RowOk;
    VisitedIsConsistent(db);
    var ids := InvitationsOf(db.invitations, organization);
    var next := NextNumber(db.sequences, organization);
    forall n: int | 1 <= n <= next - 1 ensures Numbered(db.invitations, ids, n) {
      assert HasNumber(db.invitations, organization, n);
      var i :| i in db.invitations && db.invitations[i].organization == organization && db.invitations[i].number == n;
      assert i in ids;
    }
    NumbersCount(db.invitations, ids, next - 1);
  }

  /** Rows numbered injectively by 1 .. n are n rows. */
  lemma {:induction false} NumbersCount(invitations: Invitations, ids: set<Uuid>, n: int)
    requires n >= 0 && ids <= invitations.Keys
    requires forall i | i in ids :: 1 <= invitations[i].number <= n
    requires forall i, j | i in ids && j in ids && invitations[i].number == invitations[j].number :: i == j
    requires forall m: int | 1 <= m <= n :: Numbered(invitations, ids, m)
    ensures |ids| == n
    decreases n
  {
    if n == 0 {
      assert ids == {};
    } else {
      assert Numbered(invitations, ids, n);
      var last :| last in ids && invitations[last].number == n;
      var rest := ids - {last};
      forall m: int | 1 <= m <= n - 1 ensures Numbered(invitations, rest, m) {
        assert Numbered(invitations, ids, m);
        var i :| i in ids && invitations[i].number == m;
        assert i in rest;
      }
      NumbersCount(invitations, rest, n - 1);
    }
  }

  /** At most one pending invitation per organization and address. */
  lemma PendingAddressIsUnique(db: Database, i: Uuid, j: Uuid)
    requires Visited(db) && i in db.invitations && j in db.invitations
    requires db.invitations[i].organization == db.invitations[j].organization
    requires db.invitations[i].emailNormalized == db.invitations[j].emailNormalized
    requires i != j
    ensures !db.invitations[i].state.Pending? || !db.invitations[j].state.Pending?
  {
    VisitedIsConsistent(db);
  }
}
