/** Claims against commands: who holds a lease, how often a command was claimed, and how far apart. */
module Leases {
  import opened Schema
  import opened Ordering
  import opened Storage
  import opened Consistency
  import opened Preservation
  import opened Effects
  import opened Outbox
  import opened Backoff
  import opened Protocol

  type Claims = map<ClaimId, Claim>

  predicate ClaimOk(id: ClaimId, claim: Claim, commands: Commands, now: Time) {
    && Held(commands, claim.record)
    && claim.record.command == id.command && claim.record.attempts == id.attempt
    && 1 <= id.attempt <= commands[id.command].attempts
    && claim.at <= now
  }

  /** The least time between two claims of a command. */
  function Spacing(config: Config, attempt: int): int {
    Min(config.leaseSeconds, Delay(config.retryBase, attempt))
  }

  /** A command against its latest claim: the lease is that claim's, and a retry waits out its delay. */
  predicate LatestOk(c: Uuid, command: Command, claims: Claims, config: Config) {
    && command.attempts >= 0
    && (command.attempts == 0 ==> command.lease.None?)
    && (command.attempts >= 1 ==>
          && ClaimId(c, command.attempts) in claims
          && var latest := claims[ClaimId(c, command.attempts)];
          && (command.lease.Some? ==>
                command.lease.value == Lease(latest.record.lease, latest.at + config.leaseSeconds))
          && (command.state.Waiting? ==> command.availableAt >= latest.at + Delay(config.retryBase, command.attempts)))
  }

  ghost predicate AllClaimed(c: Uuid, command: Command, claims: Claims) {
    forall n: int | 1 <= n <= command.attempts :: ClaimId(c, n) in claims
  }

  ghost predicate Spaced(claims: Claims, config: Config) {
    forall c: Uuid, n: int | ClaimId(c, n) in claims && ClaimId(c, n + 1) in claims ::
      claims[ClaimId(c, n + 1)].at >= claims[ClaimId(c, n)].at + Spacing(config, n)
  }

  ghost predicate ClaimsOk(commands: Commands, claims: Claims, config: Config, now: Time) {
    && (forall id | id in claims :: ClaimOk(id, claims[id], commands, now))
    && (forall a, b | a in claims && b in claims && claims[a].record.lease == claims[b].record.lease :: a == b)
    && (forall c | c in commands :: LatestOk(c, commands[c], claims, config))
    && (forall c | c in commands :: AllClaimed(c, commands[c], claims))
    && Spaced(claims, config)
  }

  /** The fence lets exactly the latest claimant of an in-flight command through. */
  lemma FenceIsLatest(commands: Commands, claims: Claims, config: Config, now: Time, id: ClaimId)
    requires ClaimsOk(commands, claims, config, now) && id in claims
    requires commands[id.command].state.InFlight? <==> commands[id.command].lease.Some?
    ensures Fenced(commands, claims[id].record) <==>
              commands[id.command].state.InFlight? && id.attempt == commands[id.command].attempts
  {
    assert ClaimOk(id, claims[id], commands, now);
    assert LatestOk(id.command, commands[id.command], claims, config);
    var latest := ClaimId(id.command, commands[id.command].attempts);
    assert latest in claims;
    if Fenced(commands, claims[id].record) {
      assert claims[latest].record.lease == claims[id].record.lease;
    }
  }

  // ------------------------------------------------- steps that claim nothing

  predicate QuietCommand(c: Command, c': Command) {
    && SameCommand(c, c') && c.attempts == c'.attempts
    && (c'.lease == c.lease || c'.lease.None?)
    && (c'.state.Waiting? ==> c.state.Waiting? && c'.availableAt == c.availableAt)
  }

  /** Nothing is claimed and nothing is put back. */
  predicate Quiet(commands: Commands, commands': Commands) {
    && (forall c | c in commands :: c in commands' && QuietCommand(commands[c], commands'[c]))
    && (forall c | c in commands' && c !in commands :: commands'[c].attempts == 0 && commands'[c].lease.None?)
  }

  lemma QuietTransitive(a: Commands, b: Commands, c: Commands)
    requires Quiet(a, b) && Quiet(b, c)
    ensures Quiet(a, c)
  {
    forall d | d in a ensures d in c && QuietCommand(a[d], c[d]) {
      assert QuietCommand(a[d], b[d]) && QuietCommand(b[d], c[d]);
    }
    forall d | d in c && d !in a ensures c[d].attempts == 0 && c[d].lease.None? {
      if d in b { assert QuietCommand(b[d], c[d]); }
    }
  }

  lemma QuietKeepsClaims(commands: Commands, commands': Commands, claims: Claims, config: Config, now: Time, now': Time)
    requires ClaimsOk(commands, claims, config, now) && Quiet(commands, commands') && now <= now'
    ensures ClaimsOk(commands', claims, config, now')
  {
    forall id | id in claims ensures ClaimOk(id, claims[id], commands', now') {
      assert ClaimOk(id, claims[id], commands, now);
      assert QuietCommand(commands[id.command], commands'[id.command]);
    }
    forall c | c in commands' ensures LatestOk(c, commands'[c], claims, config) && AllClaimed(c, commands'[c], claims) {
      if c in commands {
        assert QuietCommand(commands[c], commands'[c]);
        assert LatestOk(c, commands[c], claims, config) && AllClaimed(c, commands[c], claims);
      }
    }
  }

  lemma AdvanceIsQuiet(db: Database, commands: Commands, id: Uuid, row: Invitation, commandId: Uuid, kind: CommandKind,
                       activity: ActivityKind, actor: Name)
    requires Quiet(db.commands, commands) && commandId !in commands
    ensures Quiet(db.commands, Advance(db, commands, id, row, commandId, kind, activity, actor).commands)
  {
    hide HasKey;
  }

  lemma SupersedingIsQuiet(commands: Commands, id: Uuid, now: Time)
    ensures Quiet(commands, SupersedeNotifications(commands, id, now))
  {
  }

  lemma ExpireIsQuiet(db: Database, commands: Commands, id: Uuid, commandId: Uuid, activity: ActivityKind, actor: Name)
    requires id in db.invitations && Quiet(db.commands, commands) && commandId !in commands
    ensures Quiet(db.commands, Expire(db, commands, id, commandId, activity, actor).commands)
  {
    hide QuietCommand, Advance;
    SupersedingIsQuiet(commands, id, db.now);
    QuietTransitive(db.commands, commands, SupersedeNotifications(commands, id, db.now));
    AdvanceIsQuiet(db, SupersedeNotifications(commands, id, db.now), id, ExpiredRow(db.invitations[id], db.now),
                   commandId,
                   NotifyLifecycle(Expired), activity, actor);
  }

  lemma {:induction false} ExpireRowsAreQuiet(db: Database, ids: seq<Uuid>, newIds: seq<Uuid>, n: nat, actor: Name)
    requires Consistent(db)
    requires n <= |ids| && n <= |newIds| && Distinct(ids) && FreshIn(db.commands, newIds)
    requires forall m | 0 <= m < |ids| :: ids[m] in db.invitations && Unaccepted(db.invitations[ids[m]])
    ensures Quiet(db.commands, ExpireRows(db, ids, newIds, n, actor).commands)
  {
    hide Consistent, Expire, Quiet, FreshIn, Distinct;
    if n == 0 {
      QuietReflexive(db.commands);
    } else {
      ExpireRowsAreQuiet(db, ids, newIds, n - 1, actor);
      BeforeRow(db, ids, newIds, n, actor);
      var before := ExpireRows(db, ids, newIds, n - 1, actor);
      QuietReflexive(before.commands);
      ExpireIsQuiet(before, before.commands, ids[n - 1], newIds[n - 1], InvitationExpired, actor);
      QuietTransitive(db.commands, before.commands,
                      Expire(before, before.commands, ids[n - 1], newIds[n - 1], InvitationExpired, actor).commands);
    }
  }

  lemma QuietReflexive(commands: Commands)
    ensures Quiet(commands, commands)
  {
  }

  lemma MutationsAreQuiet(w: World, s: Step)
    requires Enabled(w, s)
    ensures s.StepInvite? ==> Quiet(w.db.commands, InviteOutcome(w, s).0.commands)
    ensures s.StepResend? ==> Quiet(w.db.commands, ResendOutcome(w, s).0.commands)
    ensures s.StepRevoke? ==> Quiet(w.db.commands, RevokeOutcome(w, s).0.commands)
  {
    hide PendingEmail, HasKey, QuietCommand, Advance;
    var db := w.db;
    QuietReflexive(db.commands);
    match s
    case StepInvite(r, id, organization, email, salt, newId) =>
      var number := NextNumber(db.sequences, organization);
      var row := NewInvitation(organization, number, email, email, r.actor, VerifierFor(id, 1, salt), w.config.tokenTtl,
                               db.now);
      AdvanceIsQuiet(db.(sequences := db.sequences[organization := number + 1]), db.commands, id, row, newId,
                     NotifyInvitation(1), InvitationCreated, r.actor);
    case StepResend(r, organization, expectedRevision, snapshot, salt, newId) =>
      var id := snapshot.invitation;
      SupersedingIsQuiet(db.commands, id, db.now);
      if id in db.invitations {
        var row := Rotated(db.invitations[id], VerifierFor(id, snapshot.row.tokenGeneration + 1, salt),
                           w.config.tokenTtl, db.now);
        AdvanceIsQuiet(db, SupersedeNotifications(db.commands, id, db.now), id, row, newId,
                       NotifyInvitation(row.tokenGeneration), InvitationResent, r.actor);
      }
    case StepRevoke(r, organization, id, expectedRevision, reason, newId) =>
      SupersedingIsQuiet(db.commands, id, db.now);
      if id in db.invitations {
        AdvanceIsQuiet(db, SupersedeNotifications(db.commands, id, db.now), id,
                       RevokedRow(db.invitations[id], reason, db.now), newId,
                       NotifyLifecycle(Revoked), InvitationRevoked, r.actor);
      }
    case _ =>
  }

  lemma ExpireDueIsQuiet(db: Database, r: Request, organization: Name, limit: int, locked: set<Uuid>, newIds: seq<Uuid>)
    requires Consistent(db) && limit <= |newIds| && FreshIn(db.commands, newIds)
    ensures Quiet(db.commands, ExpireDueInvitations(db, r, organization, limit, locked, newIds).0.commands)
  {
    hide RecordsOk, LedgerOk, QuietCommand;
    QuietReflexive(db.commands);
    BatchIsDue(db, organization, limit, locked);
    var ids := ExpiryBatch(db, organization, limit, locked);
    ExpireRowsAreQuiet(db, ids, newIds, |ids|, r.actor);
  }

  lemma CompleteAcceptIsQuiet(db: Database, record: CommandRecord, membershipId: Name, providerRevision: Name,
                              newId: Uuid)
    requires newId !in db.commands
    ensures Quiet(db.commands, CompleteAccept(db, record, membershipId, providerRevision, newId).0.commands)
  {
    hide HasKey;
  }

  lemma SettlingIsQuiet(commands: Commands, c: Uuid, command: Command)
    requires c in commands && QuietCommand(commands[c], command)
    ensures Quiet(commands, commands[c := command])
  {
  }

  lemma CompletionsAreQuiet(db: Database, record: CommandRecord, intentId: Name, deliveryId: Name, recorded: bool)
    ensures Quiet(db.commands, CompleteNotification(db, record, intentId, deliveryId).0.commands)
    ensures Quiet(db.commands, CompleteLifecycle(db, record, recorded).0.commands)
    ensures Quiet(db.commands, SupersedeCommand(db, record).0.commands)
  {
    hide Quiet;
    QuietReflexive(db.commands);
    if Fenced(db.commands, record) {
      var c, command := record.command, db.commands[record.command];
      SettlingIsQuiet(db.commands, c,
                      FinishedCommand(command, Completed, Some(NotificationReceipt(intentId, deliveryId)), None,
                                      db.now));
      SettlingIsQuiet(db.commands, c,
                      FinishedCommand(command, Completed, Some(LifecycleReceipt(recorded)), None, db.now));
      SettlingIsQuiet(db.commands, c, SupersededCommand(command, db.now));
    }
  }

  lemma FailIsQuiet(db: Database, record: CommandRecord, error: Name, newId: Uuid)
    requires newId !in db.commands
    ensures Quiet(db.commands, FailCommand(db, record, error, newId).0.commands)
  {
    hide Expire, Quiet;
    QuietReflexive(db.commands);
    if Fenced(db.commands, record) {
      SettlingIsQuiet(db.commands, record.command,
                      FinishedCommand(db.commands[record.command], Failed, None, Some(error), db.now));
    }
    if Fenced(db.commands, record) && record.invitation in db.invitations {
      var failed := db.commands[record.command := FinishedCommand(db.commands[record.command], Failed, None,
                                                                  Some(error), db.now)];
      ExpireIsQuiet(db, failed, record.invitation, newId, AcceptanceFailed, SYSTEM_MEMBERSHIP_FAILURE);
    }
  }

  // --------------------------------------------------------- retry and claims

  /** A retry through the fence puts the command back for its own delay. */
  lemma RetryKeepsClaims(db: Database, claims: Claims, config: Config, id: ClaimId, error: Name)
    requires Consistent(db) && ClaimsOk(db.commands, claims, config, db.now) && id in claims
    ensures ClaimsOk(RetryCommand(db, claims[id].record, error,
                                  Delay(config.retryBase,
                                        claims[id].record.attempts)).0.commands, claims, config, db.now)
  {
    hide RecordsOk, LedgerOk, Delay;
    var record := claims[id].record;
    assert ClaimOk(id, claims[id], db.commands, db.now);
    CommandIsOk(db, record.command);
    FenceIsLatest(db.commands, claims, config, db.now, id);
    if Fenced(db.commands, record) {
      var command := RetriedCommand(db.commands[record.command], error, Delay(config.retryBase, record.attempts),
                                    db.now);
      var commands := db.commands[record.command := command];
      forall d | d in claims ensures ClaimOk(d, claims[d], commands, db.now) {
        assert ClaimOk(d, claims[d], db.commands, db.now);
      }
      forall c | c in commands ensures LatestOk(c, commands[c], claims, config) && AllClaimed(c, commands[c], claims) {
        assert LatestOk(c, db.commands[c], claims, config) && AllClaimed(c, db.commands[c], claims);
      }
    }
  }

  lemma LaterUnclaimed(commands: Commands, claims: Claims, config: Config, now: Time, c: Uuid)
    requires ClaimsOk(commands, claims, config, now) && c in commands
    ensures forall n: int | n > commands[c].attempts :: ClaimId(c, n) !in claims
  {
  }

  /** A claim of a due command under a new lease. */
  lemma ClaimKeepsClaims(commands: Commands, claims: Claims, config: Config, now: Time, c: Uuid, lease: Uuid)
    requires ClaimsOk(commands, claims, config, now) && ValidConfig(config)
    requires c in commands && UnusedLease(claims, lease)
    requires Takeable(commands[c], now)
    ensures var claimed := ClaimedCommand(commands[c], lease, config.leaseSeconds, now);
      var record := RecordOf(c, claimed, lease);
      ClaimsOk(commands[c := claimed], claims[ClaimIdOf(record) := Claim(record, now)], config, now)
  {
    hide Delay;
    var claimed := ClaimedCommand(commands[c], lease, config.leaseSeconds, now);
    var record := RecordOf(c, claimed, lease);
    var id := ClaimIdOf(record);
    var commands', claims' := commands[c := claimed], claims[id := Claim(record, now)];
    assert LatestOk(c, commands[c], claims, config) && AllClaimed(c, commands[c], claims);
    forall d | d in claims' ensures ClaimOk(d, claims'[d], commands', now) {
      if d != id { assert ClaimOk(d, claims[d], commands, now); }
    }
    LaterUnclaimed(commands, claims, config, now, c);
    forall d | d in commands'
      ensures LatestOk(d, commands'[d], claims', config) && AllClaimed(d, commands'[d], claims')
    {
      assert LatestOk(d, commands[d], claims, config) && AllClaimed(d, commands[d], claims);
    }
    ClaimSpacing(commands, claims, config, now, c, lease);
  }

  lemma ClaimSpacing(commands: Commands, claims: Claims, config: Config, now: Time, c: Uuid, lease: Uuid)
    requires ClaimsOk(commands, claims, config, now) && ValidConfig(config)
    requires c in commands && Takeable(commands[c], now)
    ensures var claimed := ClaimedCommand(commands[c], lease, config.leaseSeconds, now);
      var record := RecordOf(c, claimed, lease);
      Spaced(claims[ClaimIdOf(record) := Claim(record, now)], config)
  {
    hide Delay;
    var record := RecordOf(c, ClaimedCommand(commands[c], lease, config.leaseSeconds, now), lease);
    var id := ClaimIdOf(record);
    var claims' := claims[id := Claim(record, now)];
    LaterUnclaimed(commands, claims, config, now, c);
    forall d: Uuid, n: int | ClaimId(d, n) in claims' && ClaimId(d, n + 1) in claims'
      ensures claims'[ClaimId(d, n + 1)].at >= claims'[ClaimId(d, n)].at + Spacing(config, n)
    {
      if ClaimId(d, n) == id {
        assert false;
      } else if ClaimId(d, n + 1) == id {
        assert ClaimOk(ClaimId(d, n), claims[ClaimId(d, n)], commands, now);
        assert LatestOk(c, commands[c], claims, config);
      } else {
        assert ClaimId(d, n) in claims && ClaimId(d, n + 1) in claims;
      }
    }
  }

  /** Starting an acceptance inserts the membership command already claimed. */
  lemma AcceptKeepsClaims(commands: Commands, claims: Claims, config: Config, now: Time, c: Uuid, command: Command,
                          lease: Uuid)
    requires ClaimsOk(commands, claims, config, now) && ValidConfig(config)
    requires c !in commands && UnusedLease(claims, lease)
    requires command.attempts == 0 && command.lease.None? && command.state.Waiting? && command.availableAt == now
    ensures var claimed := ClaimedCommand(command, lease, config.leaseSeconds, now);
      var record := RecordOf(c, claimed, lease);
      ClaimsOk(commands[c := claimed], claims[ClaimIdOf(record) := Claim(record, now)], config, now)
  {
    hide ClaimsOk;
    QuietInsert(commands, c, command);
    QuietKeepsClaims(commands, commands[c := command], claims, config, now, now);
    ClaimKeepsClaims(commands[c := command], claims, config, now, c, lease);
    var claimed := ClaimedCommand(command, lease, config.leaseSeconds, now);
    assert commands[c := command][c := claimed] == commands[c := claimed];
  }

  lemma QuietInsert(commands: Commands, c: Uuid, command: Command)
    requires c !in commands && command.attempts == 0 && command.lease.None?
    ensures Quiet(commands, commands[c := command])
  {
  }

  /** What the claim loop and the records it hands out have done after `n` commands, and what they left alone. */
  ghost predicate Handed(w: World, commands: Commands, claims: Claims, ids: seq<Uuid>, leases: seq<Uuid>, n: nat) {
    && ClaimsOk(commands, claims, w.config, w.db.now)
    && (forall m | n <= m < |leases| :: UnusedLease(claims, leases[m]))
    && (forall m | n <= m < |ids| ::
          ids[m] in commands && ids[m] in w.db.commands && commands[ids[m]] == w.db.commands[ids[m]])
    && (forall d | d in w.claims :: d in claims && claims[d] == w.claims[d])
  }

  lemma HandOne(w: World, commands: Commands, claims: Claims, ids: seq<Uuid>, leases: seq<Uuid>, n: nat)
    requires ValidConfig(w.config) && 0 < n <= |ids| <= |leases| && Distinct(ids) && Distinct(leases)
    requires ids[n - 1] in w.db.commands && Takeable(w.db.commands[ids[n - 1]], w.db.now)
    requires Handed(w, commands, claims, ids, leases, n - 1)
    ensures var c := ids[n - 1];
      var claimed := ClaimedCommand(commands[c], leases[n - 1], w.config.leaseSeconds, w.db.now);
      var record := RecordOf(c, claimed, leases[n - 1]);
      Handed(w, commands[c := claimed], claims[ClaimIdOf(record) := Claim(record, w.db.now)], ids, leases, n)
  {
    hide ClaimsOk, Takeable, ValidConfig;
    ClaimKeepsClaims(commands, claims, w.config, w.db.now, ids[n - 1], leases[n - 1]);
    OldClaimsStay(commands, claims, w.config, w.db.now, ids[n - 1]);
  }

  /** The claim loop and the records it hands out, in step. */
  lemma {:induction false} BatchKeepsClaims(w: World, ids: seq<Uuid>, leases: seq<Uuid>, n: nat, db': Database)
    requires ClaimsOk(w.db.commands, w.claims, w.config, w.db.now) && ValidConfig(w.config)
    requires n <= |ids| <= |leases| && Distinct(ids) && UnusedLeases(w.claims, leases)
    requires forall m | 0 <= m < |ids| :: ids[m] in w.db.commands && Takeable(w.db.commands[ids[m]], w.db.now)
    requires db'.now == w.db.now
    ensures var commands := ClaimRows(w.db.commands, ids, leases, n, w.config.leaseSeconds, w.db.now);
      var w' := WithClaims(w.(db := db'), ClaimRecords(w.db.commands, ids, leases), n);
      Handed(w, commands, w'.claims, ids, leases, n) && w' == w.(db := db', claims := w'.claims)
  {
    hide ClaimsOk, Takeable, ValidConfig, Distinct;
    if n > 0 {
      hide UnusedLease;
      BatchKeepsClaims(w, ids, leases, n - 1, db');
      var commands := ClaimRows(w.db.commands, ids, leases, n - 1, w.config.leaseSeconds, w.db.now);
      var before := WithClaims(w.(db := db'), ClaimRecords(w.db.commands, ids, leases), n - 1);
      HandOne(w, commands, before.claims, ids, leases, n);
    }
  }

  lemma OldClaimsStay(commands: Commands, claims: Claims, config: Config, now: Time, c: Uuid)
    requires ClaimsOk(commands, claims, config, now) && c in commands
    ensures ClaimId(c, commands[c].attempts + 1) !in claims
  {
    LaterUnclaimed(commands, claims, config, now, c);
  }
}
