/** The expiry drain: which rows one batch expires, what it writes for them, and that repeated batches leave no
    due row behind. */
module Drain {
  import opened Schema
  import opened Ordering
  import opened Storage
  import opened Consistency
  import opened Preservation
  import opened Effects
  import opened Outbox
  import opened Conservation
  import opened Safety
  import opened Writes

  /** The row is overdue: pending, nobody is accepting it, and its deadline has come. */
  predicate Overdue(row: Invitation, organization: Name, now: Time) {
    row.organization == organization && row.state == Pending && row.acceptanceSubject == None &&
    row.tokenExpiresAt <= now
  }

  function DueRows(db: Database, organization: Name): set<Uuid> {
    set i | i in db.invitations && Overdue(db.invitations[i], organization, db.now)
  }

  predicate Sooner(invitations: Invitations, i: Uuid, j: Uuid)
    requires i in invitations && j in invitations
  {
    invitations[i].tokenExpiresAt < invitations[j].tokenExpiresAt ||
    (invitations[i].tokenExpiresAt == invitations[j].tokenExpiresAt && i <= j)
  }

  /** A batch is the first `limit` due rows nobody has locked, by deadline and then id. */
  lemma BatchIsFirstDue(db: Database, organization: Name, limit: int, locked: set<Uuid>)
    ensures var ids := ExpiryBatch(db, organization, limit, locked);
      var due := DueRows(db, organization) - locked;
      && |ids| == Min(if limit <= 0 then 0 else limit, |due|)
      && Distinct(ids)
      && (forall n | 0 <= n < |ids| :: ids[n] in due)
      && (forall m, n | 0 <= m < n < |ids| :: Sooner(db.invitations, ids[m], ids[n]))
      && (forall n, j | 0 <= n < |ids| && j in due && j !in ids :: Sooner(db.invitations, ids[n], j))
  {
    hide Sorted, Limited;
    var keys := DueDeadlines(db.invitations, organization, db.now, locked);
    LimitedIsFirst(keys, limit);
    assert keys.Keys == DueRows(db, organization) - locked;
  }

  // -------------------------------------------------------- what a batch writes

  function ExpiryCommand(db: Database, id: Uuid): Command
    requires id in db.invitations
  {
    Command(organization := db.invitations[id].organization, invitation := id, kind := NotifyLifecycle(Expired),
            key := LifecycleKey(id, Expired), state := Waiting, attempts := 0, availableAt := db.now, lease := None,
            lastError := None, receipt := None, createdAt := db.now, updatedAt := db.now, completedAt := None)
  }

  function ExpiryActivity(db: Database, id: Uuid, actor: Name): Activity
    requires id in db.invitations
  {
    Activity(db.invitations[id].organization, id, InvitationExpired, actor, db.invitations[id].revision + 1, db.now)
  }

  /** An old command after the notifications of `expired` have been superseded. */
  function Silenced(command: Command, expired: seq<Uuid>, now: Time): Command {
    if command.invitation in expired && command.kind.NotifyInvitation? &&
       (command.state == Waiting || command.state == InFlight)
    then command.(state := Superseded, lease := None, updatedAt := now, completedAt := Some(now))
    else command
  }

  /** After `n` rows: one lifecycle command and one activity each, in order, and nothing else but the superseded
      notifications of those rows. */
  ghost predicate WroteFor(db: Database, db': Database, ids: seq<Uuid>, newIds: seq<Uuid>, n: nat, actor: Name)
    requires n <= |ids| && n <= |newIds|
  {
    && (forall c | c in db'.commands :: c in db.commands || c in newIds[..n])
    && (forall m | 0 <= m < n ::
          ids[m] in db.invitations && newIds[m] in db'.commands && db'.commands[newIds[m]] == ExpiryCommand(db, ids[m]))
    && (forall c | c in db.commands ::
          c in db'.commands && db'.commands[c] == Silenced(db.commands[c], ids[..n], db.now))
    && |db'.activity| == |db.activity| + n && db.activity <= db'.activity
    && (forall m | 0 <= m < n ::
          ids[m] in db.invitations && db'.activity[|db.activity| + m] == ExpiryActivity(db, ids[m], actor))
  }

  lemma ExpiryWrites(db: Database, id: Uuid, commandId: Uuid, actor: Name)
    requires id in db.invitations && commandId !in db.commands && !HasKey(db.commands, LifecycleKey(id, Expired))
    ensures var db' := Expire(db, db.commands, id, commandId, InvitationExpired, actor);
      && db'.commands == SupersedeNotifications(db.commands, id, db.now)[commandId := ExpiryCommand(db, id)]
      && db'.activity == db.activity + [ExpiryActivity(db, id, actor)]
  {
    hide HasKey;
    SupersededKeys(db.commands, id, db.now);
  }

  lemma SupersededKeys(commands: Commands, id: Uuid, now: Time)
    ensures forall k :: HasKey(SupersedeNotifications(commands, id, now), k) <==> HasKey(commands, k)
  {
    SameKeys(commands, SupersedeNotifications(commands, id, now));
  }

  lemma OldCommandsStep(db: Database, before: Database, after: Database, ids: seq<Uuid>, newIds: seq<Uuid>, n: nat,
                        actor: Name)
    requires 0 < n <= |ids| && n <= |newIds| && FreshIn(db.commands, newIds)
    requires WroteFor(db, before, ids, newIds, n - 1, actor) && ids[n - 1] in db.invitations
    requires after.commands == SupersedeNotifications(before.commands, ids[n - 1],
                                                      db.now)[newIds[n - 1] := ExpiryCommand(db, ids[n - 1])]
    ensures forall c | c in db.commands ::
      c in after.commands && after.commands[c] == Silenced(db.commands[c], ids[..n], db.now)
  {
    hide ExpiryCommand, ExpiryActivity;
    assert ids[..n] == ids[..n - 1] + [ids[n - 1]];
    forall c | c in db.commands
      ensures c in after.commands && after.commands[c] == Silenced(db.commands[c], ids[..n], db.now)
    {
      assert c in before.commands && before.commands[c] == Silenced(db.commands[c], ids[..n - 1], db.now);
      assert c != newIds[n - 1];
    }
  }

  lemma WriteStep(db: Database, before: Database, after: Database, ids: seq<Uuid>, newIds: seq<Uuid>, n: nat,
                  actor: Name)
    requires 0 < n <= |ids| && n <= |newIds| && FreshIn(db.commands, newIds) && Distinct(ids)
    requires forall m | 0 <= m < |ids| :: ids[m] in db.invitations
    requires WroteFor(db, before, ids, newIds, n - 1, actor)
    requires after.commands == SupersedeNotifications(before.commands, ids[n - 1],
                                                      db.now)[newIds[n - 1] := ExpiryCommand(db, ids[n - 1])]
    requires after.activity == before.activity + [ExpiryActivity(db, ids[n - 1], actor)]
    ensures WroteFor(db, after, ids, newIds, n, actor)
  {
    hide Silenced, ExpiryActivity;
    OldCommandsStep(db, before, after, ids, newIds, n, actor);
    assert newIds[..n] == newIds[..n - 1] + [newIds[n - 1]];
    forall m | 0 <= m < n
      ensures newIds[m] in after.commands && after.commands[newIds[m]] == ExpiryCommand(db, ids[m])
    {
      if m < n - 1 { assert newIds[m] != newIds[n - 1]; }
    }
  }

  lemma {:induction false} ExpireRowsWrite(db: Database, ids: seq<Uuid>, newIds: seq<Uuid>, n: nat, actor: Name)
    requires Consistent(db) && n <= |ids| && n <= |newIds| && Distinct(ids) && FreshIn(db.commands, newIds)
    requires forall m | 0 <= m < |ids| :: ids[m] in db.invitations && Unaccepted(db.invitations[ids[m]])
    ensures WroteFor(db, ExpireRows(db, ids, newIds, n, actor), ids, newIds, n, actor)
  {
    hide Consistent, Expire, WroteFor, FreshIn, HasKey, SupersedeNotifications, Distinct;
    if n == 0 {
      NothingWritten(db, ids, newIds, actor);
    } else {
      var before := ExpireRows(db, ids, newIds, n - 1, actor);
      ExpireRowsWrite(db, ids, newIds, n - 1, actor);
      BeforeRow(db, ids, newIds, n, actor);
      UnownedKeysAreAbsent(before, ids[n - 1]);
      ExpiryWrites(before, ids[n - 1], newIds[n - 1], actor);
      WriteStep(db, before, ExpireRows(db, ids, newIds, n, actor), ids, newIds, n, actor);
    }
  }

  lemma NothingWritten(db: Database, ids: seq<Uuid>, newIds: seq<Uuid>, actor: Name)
    ensures WroteFor(db, db, ids, newIds, 0, actor)
  {
  }

  // ------------------------------------------------------------- one batch

  lemma ExpiredIsNotDue(row: Invitation, organization: Name, now: Time)
    ensures !Overdue(ExpiredRow(row, now), organization, now)
  {
  }

  /** The due rows after a batch are those it did not take. */
  lemma DueAfterRows(db: Database, ids: seq<Uuid>, newIds: seq<Uuid>, actor: Name, organization: Name)
    requires |ids| <= |newIds| && Distinct(ids) && forall m | 0 <= m < |ids| :: ids[m] in db.invitations
    ensures var db' := ExpireRows(db, ids, newIds, |ids|, actor);
      && DueRows(db', organization) == DueRows(db, organization) - Elements(ids)
      && db'.now == db.now && (forall i | i in ids ::
           i in db'.invitations && db'.invitations[i] == ExpiredRow(db.invitations[i], db.now))
      && (forall i | i in db.invitations && i !in ids ::
            i in db'.invitations && db'.invitations[i] == db.invitations[i])
  {
    hide Overdue, ExpireRows, ExpiredRow;
    ExpireRowsFrame(db, ids, newIds, |ids|, actor);
    assert ids[..|ids|] == ids;
    var db' := ExpireRows(db, ids, newIds, |ids|, actor);
    forall i | i in db.invitations
      ensures i in DueRows(db', organization) <==> i in DueRows(db, organization) - Elements(ids)
    {
      ExpiredIsNotDue(db.invitations[i], organization, db.now);
    }
  }

  function Elements(ids: seq<Uuid>): set<Uuid> {
    set i | i in ids
  }

  lemma {:induction false} DistinctElements(ids: seq<Uuid>)
    requires Distinct(ids)
    ensures |Elements(ids)| == |ids|
  {
    if ids != [] {
      DistinctElements(ids[1..]);
      assert Elements(ids) == {ids[0]} + Elements(ids[1..]);
      assert ids[0] !in ids[1..];
    } else {
      assert Elements(ids) == {};
    }
  }

  /** One batch under a new request takes as many due rows as it may, lets no other go, and says whether a due
      row of the organization is left, locked or not. */
  lemma OneBatch(db: Database, r: Request, organization: Name, limit: int, locked: set<Uuid>, newIds: seq<Uuid>)
    returns (db': Database, result: ExpireResult)
    requires BeginMutation(db.mutations, r).New? && 0 <= limit <= |newIds|
    ensures ExpireDueInvitations(db, r, organization, limit, locked, newIds) == (db', Done(result))
    ensures result.expired == Min(limit, |DueRows(db, organization) - locked|)
    ensures DueRows(db', organization) ==
      DueRows(db, organization) - Elements(ExpiryBatch(db, organization, limit, locked))
    ensures |DueRows(db', organization)| == |DueRows(db, organization)| - result.expired
    ensures result.hasMore <==> DueRows(db', organization) != {}
    ensures db'.now == db.now
  {
    hide ExpiryBatch, ExpireRows, Sooner, Overdue, Due;
    BatchIsDue(db, organization, limit, locked);
    BatchIsFirstDue(db, organization, limit, locked);
    var ids := ExpiryBatch(db, organization, limit, locked);
    DueAfterRows(db, ids, newIds, r.actor, organization);
    DistinctElements(ids);
    var expired := ExpireRows(db, ids, newIds, |ids|, r.actor);
    AnyDueIsSomeDue(expired, organization);
    result := ExpireDueInvitations(db, r, organization, limit, locked, newIds).1.value;
    db' := ExpireDueInvitations(db, r, organization, limit, locked, newIds).0;
    assert DueRows(db', organization) == DueRows(expired, organization);
    assert Elements(ids) <= DueRows(db, organization);
  }

  /** What a batch under a new request writes and answers: for each of its rows the terminal row, one lifecycle
      command, one activity and one item, in order; every other invitation is untouched. */
  lemma BatchWrites(db: Database, r: Request, organization: Name, limit: int, locked: set<Uuid>, newIds: seq<Uuid>,
                    db': Database, result: ExpireResult)
    requires Visited(db) && BeginMutation(db.mutations, r).New? && 0 <= limit <= |newIds|
    requires FreshIn(db.commands, newIds)
    requires ExpireDueInvitations(db, r, organization, limit, locked, newIds) == (db', Done(result))
    ensures var ids := ExpiryBatch(db, organization, limit, locked);
      && |result.items| == |ids| <= |newIds|
      && WroteFor(db, db', ids, newIds, |ids|, r.actor)
      && (forall m | 0 <= m < |ids| ::
            && ids[m] in db.invitations && ids[m] in db'.invitations
            && db'.invitations[ids[m]] == ExpiredRow(db.invitations[ids[m]], db.now)
            && result.items[m] == ExpiredItem(ids[m], db'.invitations[ids[m]].number, db'.invitations[ids[m]].revision))
      && (forall i | i in db.invitations && i !in ids ::
            i in db'.invitations && db'.invitations[i] == db.invitations[i])
  {
    hide Consistent, ExpiryBatch, ExpireRows, DueRows, FreshIn, WroteFor, AnyDue;
    VisitedIsConsistent(db);
    BatchIsDue(db, organization, limit, locked);
    var ids := ExpiryBatch(db, organization, limit, locked);
    ExpireRowsWrite(db, ids, newIds, |ids|, r.actor);
    DueAfterRows(db, ids, newIds, r.actor, organization);
    var expired := ExpireRows(db, ids, newIds, |ids|, r.actor);
    WrittenIgnoresLedger(db, expired, db'.mutations, ids, newIds, r.actor);
  }

  lemma WrittenIgnoresLedger(db: Database, db': Database, mutations: Mutations, ids: seq<Uuid>, newIds: seq<Uuid>,
                             actor: Name)
    requires |ids| <= |newIds| && WroteFor(db, db', ids, newIds, |ids|, actor)
    ensures WroteFor(db, db'.(mutations := mutations), ids, newIds, |ids|, actor)
  {
  }

  lemma AnyDueIsSomeDue(db: Database, organization: Name)
    ensures AnyDue(db.invitations, organization, db.now) <==> DueRows(db, organization) != {}
  {
    if AnyDue(db.invitations, organization, db.now) {
      var i :| i in db.invitations && Due(db.invitations[i], organization, db.now);
      assert i in DueRows(db, organization);
    }
    if DueRows(db, organization) != {} {
      var i :| i in DueRows(db, organization);
      assert Due(db.invitations[i], organization, db.now);
    }
  }

  /** What a batch did to any one invitation. It changes a row if and only if it answers with an item for it. Such a
      row was in the organization, pending, with nobody accepting it and past its deadline; it is expired now. A batch
      that had room left has expired every such row nobody had locked. */
  lemma ExpiresTheOverdue(db: Database, r: Request, organization: Name, limit: int, locked: set<Uuid>,
                          newIds: seq<Uuid>, i: Uuid) returns (db': Database, result: ExpireResult)
    requires r.key !in db.mutations && 0 <= limit <= |newIds| && i in db.invitations
    ensures ExpireDueInvitations(db, r, organization, limit, locked, newIds) == (db', Done(result))
    ensures i in db'.invitations && (db'.invitations[i] != db.invitations[i] <==> Reported(result.items, i))
    ensures Reported(result.items, i) ==>
      var row := db.invitations[i];
      && row.organization == organization && row.state == Pending && row.acceptanceSubject == None
      && row.tokenExpiresAt <= db.now
      && db'.invitations[i] == row.(
           state := Expired, tokenHash := None, revision := row.revision + 1,
           delivery := if row.delivery == DeliveryPending then DeliverySuperseded else row.delivery,
           expiredAt := Some(db.now), updatedAt := db.now)
    ensures result.expired < limit && i !in locked && db.invitations[i].organization == organization &&
            db.invitations[i].state == Pending && db.invitations[i].acceptanceSubject == None &&
            db.invitations[i].tokenExpiresAt <= db.now ==>
      Reported(result.items, i)
  {
    hide ExpiryBatch, ExpireDueInvitations, Sooner;
    var ids := ExpiryBatch(db, organization, limit, locked);
    BatchIsFirstDue(db, organization, limit, locked);
    db', result := BatchChanges(db, r, organization, limit, locked, newIds);
    ReportedIds(result.items, ids, i);
    assert Elements(ids) <= DueRows(db, organization);
    assert i in ids ==> i in Elements(ids);
    if |ids| < limit && i in DueRows(db, organization) - locked {
      RoomForAll(ids, DueRows(db, organization) - locked, i);
    }
  }

  /** More is reported if and only if an overdue row is left, and the answer is recorded for the request. */
  lemma ReportsTheRest(db: Database, r: Request, organization: Name, limit: int, locked: set<Uuid>,
                       newIds: seq<Uuid>) returns (db': Database, result: ExpireResult)
    requires r.key !in db.mutations && 0 <= limit <= |newIds|
    ensures ExpireDueInvitations(db, r, organization, limit, locked, newIds) == (db', Done(result))
    ensures result.expired == |result.items| <= limit
    ensures result.hasMore <==>
      exists j :: j in db'.invitations && db'.invitations[j].organization == organization &&
                  db'.invitations[j].state == Pending && db'.invitations[j].acceptanceSubject == None &&
                  db'.invitations[j].tokenExpiresAt <= db.now
    ensures Settles(db.mutations, db'.mutations, r, organization, None, ExpireResponse(result), db.now)
  {
    hide ExpiryBatch, ExpireDueInvitations, Settles, Overdue;
    BatchIsFirstDue(db, organization, limit, locked);
    BatchIsRecorded(db, r, organization, limit, locked, newIds);
    db', result := OneBatch(db, r, organization, limit, locked, newIds);
    RowsLeft(db', organization);
  }

  /** Both for every row at once. */
  lemma BatchExpiresOverdue(db: Database, r: Request, organization: Name, limit: int, locked: set<Uuid>,
                            newIds: seq<Uuid>)
    requires r.key !in db.mutations && 0 <= limit <= |newIds|
    ensures var (db', outcome) := ExpireDueInvitations(db, r, organization, limit, locked, newIds);
      && outcome.Done? && outcome.value.expired == |outcome.value.items| <= limit && db'.now == db.now
      && (forall i | i in db.invitations ::
            && i in db'.invitations
            && (db'.invitations[i] != db.invitations[i] <==> Reported(outcome.value.items, i))
            && (Reported(outcome.value.items, i) ==>
                  Overdue(db.invitations[i], organization, db.now) && db'.invitations[i].state == Expired))
      && (outcome.value.hasMore <==>
            exists j :: j in db'.invitations && Overdue(db'.invitations[j], organization, db.now))
  {
    hide ExpireDueInvitations, Reported, Settles;
    var db', result := ReportsTheRest(db, r, organization, limit, locked, newIds);
    forall i | i in db.invitations
      ensures i in db'.invitations && (db'.invitations[i] != db.invitations[i] <==> Reported(result.items, i))
      ensures Reported(result.items, i) ==>
        Overdue(db.invitations[i], organization, db.now) && db'.invitations[i].state == Expired
    {
      var _, _ := ExpiresTheOverdue(db, r, organization, limit, locked, newIds, i);
    }
    var _, _ := OneBatch(db, r, organization, limit, locked, newIds);
    RowsLeft(db', organization);
  }

  lemma RowsLeft(db: Database, organization: Name)
    ensures DueRows(db, organization) != {} <==>
      exists j :: j in db.invitations && db.invitations[j].organization == organization &&
                  db.invitations[j].state == Pending && db.invitations[j].acceptanceSubject == None &&
                  db.invitations[j].tokenExpiresAt <= db.now
  {
    if j :| j in db.invitations && db.invitations[j].organization == organization &&
            db.invitations[j].state == Pending && db.invitations[j].acceptanceSubject == None &&
            db.invitations[j].tokenExpiresAt <= db.now
    {
      assert j in DueRows(db, organization);
    }
    if DueRows(db, organization) != {} {
      var j :| j in DueRows(db, organization);
      assert j in db.invitations;
    }
  }

  lemma BatchChanges(db: Database, r: Request, organization: Name, limit: int, locked: set<Uuid>, newIds: seq<Uuid>)
    returns (db': Database, result: ExpireResult)
    requires r.key !in db.mutations && 0 <= limit <= |newIds|
    ensures ExpireDueInvitations(db, r, organization, limit, locked, newIds) == (db', Done(result))
    ensures var ids := ExpiryBatch(db, organization, limit, locked);
      && result.expired == |result.items| == |ids| && (forall n | 0 <= n < |ids| ::
           result.items[n].invitation == ids[n])
      && db'.invitations.Keys == db.invitations.Keys
      && forall i | i in db.invitations ::
           db'.invitations[i] == if i in ids then ExpiredRow(db.invitations[i], db.now) else db.invitations[i]
  {
    hide ExpiryBatch, AnyDue, Expire, ExpireRows, ExpiredRow;
    BatchIsDue(db, organization, limit, locked);
    var ids := ExpiryBatch(db, organization, limit, locked);
    AfterRows(db, ids, newIds, r.actor);
    db', result := ExpireDueInvitations(db, r, organization, limit, locked, newIds).0,
                   ExpireDueInvitations(db, r, organization, limit, locked, newIds).1.value;
  }

  predicate Reported(items: seq<ExpiredItem>, i: Uuid) {
    exists n :: 0 <= n < |items| && items[n].invitation == i
  }

  lemma ReportedIds(items: seq<ExpiredItem>, ids: seq<Uuid>, i: Uuid)
    requires |items| == |ids| && forall n | 0 <= n < |ids| :: items[n].invitation == ids[n]
    ensures Reported(items, i) <==> i in ids
  {
    if i in ids {
      var n :| 0 <= n < |ids| && ids[n] == i;
      assert items[n].invitation == i;
    }
  }

  /** A listing as long as the set it is taken from lists all of it. */
  lemma RoomForAll(ids: seq<Uuid>, due: set<Uuid>, i: Uuid)
    requires Distinct(ids) && |ids| == |due| && (forall n | 0 <= n < |ids| :: ids[n] in due) && i in due
    ensures i in ids
  {
    DistinctElements(ids);
    if i !in ids {
      assert Elements(ids) <= due - {i};
      SubsetIsSmaller(Elements(ids), due - {i});
    }
  }

  lemma {:induction false} SubsetIsSmaller(a: set<Uuid>, b: set<Uuid>)
    requires a <= b
    ensures |a| <= |b|
  {
    if a != {} {
      var i :| i in a;
      SubsetIsSmaller(a - {i}, b - {i});
    }
  }

  lemma BatchIsRecorded(db: Database, r: Request, organization: Name, limit: int, locked: set<Uuid>,
                        newIds: seq<Uuid>)
    requires r.key !in db.mutations && 0 <= limit <= |newIds|
    ensures var (db', outcome) := ExpireDueInvitations(db, r, organization, limit, locked, newIds);
      && outcome.Done? && outcome.value.expired == |outcome.value.items|
      && Settles(db.mutations, db'.mutations, r, organization, None, ExpireResponse(outcome.value), db.now)
  {
    hide ExpiryBatch, AnyDue, Expire, ExpireRows;
    BatchIsDue(db, organization, limit, locked);
    var ids := ExpiryBatch(db, organization, limit, locked);
    ExpireRowsFrame(db, ids, newIds, |ids|, r.actor);
  }

  // ----------------------------------------------------------- repeated batches

  datatype Round = Round(r: Request, newIds: seq<Uuid>)

  /** The schema after the rounds of a drain on a fixed clock, with no row locked by others. */
  ghost function Drain(db: Database, organization: Name, limit: int, rounds: seq<Round>): Database
    requires forall n | 0 <= n < |rounds| :: limit <= |rounds[n].newIds|
  {
    if rounds == [] then db
    else
      var last := rounds[|rounds| - 1];
      ExpireDueInvitations(Drain(db, organization, limit, rounds[..|rounds| - 1]), last.r, organization, limit, {},
                           last.newIds).0
  }

  /** Every round comes with a key the ledger does not know and identifiers the outbox does not know. */
  ghost predicate FreshRounds(db: Database, organization: Name, limit: int, rounds: seq<Round>)
    requires forall n | 0 <= n < |rounds| :: limit <= |rounds[n].newIds|
  {
    rounds == [] ||
    var before := Drain(db, organization, limit, rounds[..|rounds| - 1]);
    var last := rounds[|rounds| - 1];
    && FreshRounds(db, organization, limit, rounds[..|rounds| - 1])
    && last.r.operation.ExpireDue? && BeginMutation(before.mutations, last.r).New? &&
       FreshIn(before.commands, last.newIds)
  }

  /** Each round takes `limit` due rows as long as there are that many: the drain is empty after the due count
      divided by the limit, rounded up, and `has_more` turns false exactly then. */
  lemma {:induction false} DrainTerminates(db: Database, organization: Name, limit: int, rounds: seq<Round>)
    requires 1 <= limit && (forall n | 0 <= n < |rounds| :: limit <= |rounds[n].newIds|)
    requires FreshRounds(db, organization, limit, rounds)
    ensures var db' := Drain(db, organization, limit, rounds);
      && db'.now == db.now
      && |DueRows(db', organization)| == if |rounds| * limit >= |DueRows(db, organization)|
                                         then 0
                                         else |DueRows(db, organization)| - |rounds| * limit
    ensures rounds != [] ==>
      var last := rounds[|rounds| - 1];
      var outcome := ExpireDueInvitations(Drain(db, organization, limit, rounds[..|rounds| - 1]), last.r, organization,
                                          limit, {}, last.newIds).1;
      outcome.Done? && (outcome.value.hasMore <==> |rounds| * limit < |DueRows(db, organization)|)
    decreases |rounds|
  {
    hide ExpireDueInvitations, DueRows, FreshIn, Elements, ExpiryBatch, BeginMutation;
    if rounds != [] {
      var earlier, last := rounds[..|rounds| - 1], rounds[|rounds| - 1];
      DrainTerminates(db, organization, limit, earlier);
      var before := Drain(db, organization, limit, earlier);
      var after, result := OneBatch(before, last.r, organization, limit, {}, last.newIds);
      assert DueRows(before, organization) - {} == DueRows(before, organization);
      assert |rounds| * limit == |earlier| * limit + limit;
    }
  }
}
