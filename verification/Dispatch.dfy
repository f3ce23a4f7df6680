/** Dispatch batches as traces: the transactions a batch ran, with whatever other processes committed in between,
    and what follows from such a trace. */
module Dispatch {
  import opened Schema
  import opened Ordering
  import opened Storage
  import opened Consistency
  import opened Outbox
  import opened Evolution
  import opened Protocol
  import opened Backoff
  import opened Leases
  import opened Safety
  import opened Runs
  import opened Store
  import opened Worker

  // ------------------------------------------------------- what others may do

  predicate Reserved(mutations: Mutations, key: MutationKey) {
    key in mutations && mutations[key].operation.DispatchDue? && mutations[key].status.Started?
  }

  predicate KeepsReservation(a: Mutations, b: Mutations, key: MutationKey) {
    Reserved(a, key) ==> key in b && b[key] == a[key]
  }

  /** A lease this process has lost does not come back: leases are fresh. */
  predicate KeepsLost(a: Commands, b: Commands, records: seq<CommandRecord>) {
    forall n | 0 <= n < |records| && records[n].command in a && !Fenced(a, records[n]) ::
      records[n].command in b && !Fenced(b, records[n])
  }

  /** What the transactions of other processes do, seen by a process that reserved `mine` and claimed `records`. */
  ghost predicate Rely(db: Database, db': Database, mine: MutationKey, records: seq<CommandRecord>) {
    && Evolves(db, db')
    && (Consistent(db) ==> Consistent(db'))
    && (UniqueKeys(db.commands) ==> UniqueKeys(db'.commands))
    && KeepsReservation(db.mutations, db'.mutations, mine)
    && KeepsLost(db.commands, db'.commands, records)
  }

  // ------------------------------------------------------------------- traces

  /** One command of a batch: the state it was matched in, the state its transaction found, and the state it left. */
  datatype Execution = Execution(record: CommandRecord, replies: Replies, read: Database, at: Database, newId: Uuid,
                                 done: Database)

  function DecisionIn(config: Config, e: Execution): Decision {
    Decide(config, e.record, MatchedRow(e.read, e.record), e.replies)
  }

  ghost predicate Executed(config: Config, e: Execution) {
    e.newId !in e.at.commands && Carry(e.at, config, e.record, DecisionIn(config, e), e.newId) == (e.done, true)
  }

  /** The executions of a batch from `start` to `end`, one per record in order, with other processes in between. */
  ghost predicate Chain(config: Config, mine: MutationKey, records: seq<CommandRecord>, start: Database,
                        trace: seq<Execution>, end: Database) {
    if trace == [] then Rely(start, end, mine, records)
    else
      var e := trace[|trace| - 1];
      && |trace| <= |records| && e.record == records[|trace| - 1]
      && Chain(config, mine, records, start, trace[..|trace| - 1], e.read)
      && Rely(e.read, e.at, mine, records)
      && Executed(config, e)
      && Rely(e.done, end, mine, records)
  }

  function CountOf(config: Config, trace: seq<Execution>, disposition: Disposition): nat {
    if trace == [] then 0
    else
      CountOf(config, trace[..|trace| - 1], disposition) +
      if DispositionOf(DecisionIn(config, trace[|trace| - 1])) == disposition then 1 else 0
  }

  /** A dispatch batch under a new reservation. */
  datatype Batch = Batch(
    reserved: Database, offered: Database, leases: seq<Uuid>, claimed: Database, records: seq<CommandRecord>,
    trace: seq<Execution>, counted: Database, recorded: Database)

  ghost predicate Ran(config: Config, r: Request, organization: Name, limit: int, locked: set<Uuid>, b: Batch) {
    && Rely(b.reserved, b.offered, r.key, [])
    && limit <= |b.leases|
    && ClaimDueCommands(b.offered, organization, limit, config.leaseSeconds, locked, b.leases) == (b.claimed, b.records)
    && Chain(config, r.key, b.records, b.claimed, b.trace, b.counted)
  }

  function Tally(config: Config, trace: seq<Execution>, hasMore: bool): DispatchResult {
    DispatchResult(|trace|, CountOf(config, trace, CommandCompleted), CountOf(config, trace, RetryScheduled),
                   CountOf(config, trace, PermanentFailure), hasMore)
  }

  datatype DispatchOutcome = Invalid | Refused(failure: DomainFailure) | Answered(result: DispatchResult) | Aborted

  lemma CarryKeepsReservation(db: Database, config: Config, record: CommandRecord, decision: Decision, newId: Uuid,
                              key: MutationKey)
    ensures KeepsReservation(db.mutations, Carry(db, config, record, decision, newId).0.mutations, key)
  {
    hide HasKey, SupersedeNotifications, InsertCommand, Fenced, Delay;
  }

  lemma UncommittedChangesNothing(db: Database, config: Config, record: CommandRecord, decision: Decision, newId: Uuid)
    requires !Carry(db, config, record, decision, newId).1
    ensures Carry(db, config, record, decision, newId).0 == db
  {
    hide Fenced, Expire, AcceptanceCompleted, Delay;
  }

  lemma RelyKeepsReserved(db: Database, db': Database, mine: MutationKey, records: seq<CommandRecord>)
    requires Rely(db, db', mine, records) && Reserved(db.mutations, mine)
    ensures Reserved(db'.mutations, mine)
  {
    hide Evolves, Consistent, UniqueKeys, KeepsLost;
  }

  lemma RelyTransitive(a: Database, b: Database, c: Database, mine: MutationKey, records: seq<CommandRecord>)
    requires Rely(a, b, mine, records) && Rely(b, c, mine, records)
    ensures Rely(a, c, mine, records)
  {
    hide Evolves, Consistent, UniqueKeys, Fenced;
    EvolvesTransitive(a, b, c);
  }

  lemma ChainGoesOn(config: Config, mine: MutationKey, records: seq<CommandRecord>, start: Database,
                    trace: seq<Execution>, end: Database, later: Database)
    requires Chain(config, mine, records, start, trace, end) && Rely(end, later, mine, records)
    ensures Chain(config, mine, records, start, trace, later)
  {
    hide Rely, Executed;
    if trace == [] {
      RelyTransitive(start, end, later, mine, records);
    } else {
      RelyTransitive(trace[|trace| - 1].done, end, later, mine, records);
    }
  }

  lemma ChainGrows(config: Config, mine: MutationKey, records: seq<CommandRecord>, start: Database,
                   trace: seq<Execution>, e: Execution, end: Database)
    requires |trace| < |records| && e.record == records[|trace|]
    requires Chain(config, mine, records, start, trace, e.read)
    requires Rely(e.read, e.at, mine, records) && Executed(config, e) && Rely(e.done, end, mine, records)
    ensures Chain(config, mine, records, start, trace + [e], end)
  {
    hide Rely, Executed;
    assert (trace + [e])[..|trace|] == trace;
  }

  lemma CountsGrow(config: Config, trace: seq<Execution>, e: Execution)
    ensures forall d: Disposition ::
      CountOf(config, trace + [e], d) ==
        CountOf(config, trace, d) + if DispositionOf(DecisionIn(config, e)) == d then 1 else 0
  {
    hide DecisionIn, DispositionOf;
    assert (trace + [e])[..|trace|] == trace;
  }

  lemma ClaimedBatch(db: Database, organization: Name, limit: int, leaseSeconds: int, locked: set<Uuid>,
                     leases: seq<Uuid>)
    requires limit <= |leases|
    ensures var (db', records) := ClaimDueCommands(db, organization, limit, leaseSeconds, locked, leases);
      && db'.mutations == db.mutations && |records| <= (if limit <= 0 then 0 else limit)
      && DistinctCommands(records) && forall n | 0 <= n < |records| :: records[n].lease in leases
  {
    hide Claimable, ClaimRows;
    BatchIsClaimable(db, organization, limit, locked);
  }

  // ------------------------------------------------------ what a trace implies

  lemma RelyKeepsHeld(db: Database, db': Database, mine: MutationKey, records: seq<CommandRecord>,
                      record: CommandRecord)
    requires Rely(db, db', mine, records) && Held(db.commands, record)
    ensures Held(db'.commands, record)
  {
    hide Consistent, UniqueKeys, KeepsLost, InvitationsEvolve, MutationsEvolve;
    assert CommandEvolves(db.commands[record.command], db'.commands[record.command]);
  }

  lemma EvolvedIsHeld(db: Database, db': Database, record: CommandRecord)
    requires Evolves(db, db') && Held(db.commands, record)
    ensures Held(db'.commands, record)
  {
    hide InvitationsEvolve, MutationsEvolve;
    assert CommandEvolves(db.commands[record.command], db'.commands[record.command]);
  }

  /** A command found unwanted is still unwanted when it is discarded. */
  lemma DiscardedIsUnwanted(config: Config, e: Execution)
    requires Consistent(e.read) && Consistent(e.at) && Evolves(e.read, e.at) && Held(e.read.commands, e.record)
    requires DecisionIn(config, e).Discard?
    ensures e.record.invitation in e.at.invitations && !Matches(e.record.kind, e.at.invitations[e.record.invitation])
  {
    hide RecordsOk, LedgerOk, CommandsEvolve, MutationsEvolve, RowEvolves;
    CommandIsOk(e.read, e.record.command);
    EvolvedIsHeld(e.read, e.at, e.record);
    CommandIsOk(e.at, e.record.command);
    StalenessIsPermanent(e.read, e.at, e.record.command);
  }

  lemma ExecutionKeepsConsistency(config: Config, mine: MutationKey, records: seq<CommandRecord>, e: Execution)
    requires Consistent(e.read) && Held(e.read.commands, e.record)
    requires Rely(e.read, e.at, mine, records) && Executed(config, e)
    ensures Consistent(e.done) && Evolves(e.read, e.done)
  {
    hide RecordsOk, LedgerOk, Carry, Decide, InvitationsEvolve, CommandsEvolve, MutationsEvolve;
    RelyKeepsHeld(e.read, e.at, mine, records, e.record);
    DecisionsSuit(config, e.record, MatchedRow(e.read, e.record), e.replies);
    var decision := DecisionIn(config, e);
    if decision.Discard? { DiscardedIsUnwanted(config, e); }
    CarryIsConsistent(e.at, config, e.record, decision, e.newId);
    CarryEvolves(e.at, config, e.record, decision, e.newId);
    EvolvesTransitive(e.read, e.at, e.done);
  }

  /** A batch keeps the schema consistent, whatever the providers answered and others committed. */
  lemma {:induction false} BatchKeepsConsistency(config: Config, mine: MutationKey, records: seq<CommandRecord>,
                                                 start: Database,
                                                 trace: seq<Execution>, end: Database)
    requires Chain(config, mine, records, start, trace, end) && Consistent(start)
    requires forall n | 0 <= n < |records| :: Held(start.commands, records[n])
    ensures Consistent(end) && Evolves(start, end)
    decreases |trace|
  {
    hide RecordsOk, LedgerOk, Executed, InvitationsEvolve, CommandsEvolve, MutationsEvolve, Held, Evolves;
    if trace != [] {
      var e := trace[|trace| - 1];
      BatchKeepsConsistency(config, mine, records, start, trace[..|trace| - 1], e.read);
      EvolvedIsHeld(start, e.read, e.record);
      ExecutionKeepsConsistency(config, mine, records, e);
      RelyEvolves(e.done, end, mine, records);
      EvolvesTransitive(start, e.read, e.done);
      EvolvesTransitive(start, e.done, end);
    }
  }

  lemma RelyEvolves(db: Database, db': Database, mine: MutationKey, records: seq<CommandRecord>)
    requires Rely(db, db', mine, records)
    ensures Evolves(db, db') && (Consistent(db) ==> Consistent(db'))
  {
  }

  predicate DistinctCommands(records: seq<CommandRecord>) {
    forall m, n | 0 <= m < n < |records| :: records[m].command != records[n].command
  }

  predicate Spent(commands: Commands, record: CommandRecord) {
    record.command in commands && !Fenced(commands, record)
  }

  /** After its execution no command of a batch is held under the batch's lease, however the others interfere. */
  lemma {:induction false} BatchSpendsItsLeases(config: Config, mine: MutationKey, records: seq<CommandRecord>,
                                                start: Database,
                                                trace: seq<Execution>, end: Database)
    requires Chain(config, mine, records, start, trace, end) && DistinctCommands(records)
    ensures |trace| <= |records| && forall n | 0 <= n < |trace| :: Spent(end.commands, records[n])
    decreases |trace|
  {
    hide Evolves, Consistent, UniqueKeys, Fenced, Carry, Decide, KeepsReservation;
    if trace != [] {
      var e := trace[|trace| - 1];
      BatchSpendsItsLeases(config, mine, records, start, trace[..|trace| - 1], e.read);
      CarrySettles(e.at, config, e.record, DecisionIn(config, e), e.newId);
      forall n | 0 <= n < |trace| ensures Spent(end.commands, records[n]) {
        if n < |trace| - 1 {
          assert Spent(e.read.commands, records[n]);
          assert Spent(e.at.commands, records[n]);
          CarryLeasesNothing(e.at, config, e.record, DecisionIn(config, e), e.newId, records[n]);
        }
        assert Spent(e.done.commands, records[n]);
      }
    }
  }

  lemma {:induction false} CountsAddUp(config: Config, trace: seq<Execution>)
    ensures CountOf(config, trace, CommandCompleted) + CountOf(config, trace, RetryScheduled) +
            CountOf(config, trace, PermanentFailure) == |trace|
    decreases |trace|
  {
    hide DecisionIn, DispositionOf;
    if trace != [] { CountsAddUp(config, trace[..|trace| - 1]); }
  }

  /** The accounting of a batch that returns: every claimed command is processed once and counted once, never more
      than the limit; the commands are pairwise distinct, and none is left under the batch's lease. */
  lemma BatchAccounting(config: Config, r: Request, organization: Name, limit: int, locked: set<Uuid>, b: Batch,
                        hasMore: bool)
    requires 1 <= limit && Ran(config, r, organization, limit, locked, b) && |b.trace| == |b.records|
    ensures var result := Tally(config, b.trace, hasMore);
      && result.processed == result.completed + result.retryScheduled + result.permanentFailed == |b.records| <= limit
    ensures DistinctCommands(b.records)
    ensures forall n | 0 <= n < |b.records| :: Spent(b.counted.commands, b.records[n])
  {
    hide Rely, Chain, CountOf, Claimable;
    BatchIsClaimable(b.offered, organization, limit, locked);
    CountsAddUp(config, b.trace);
    BatchSpendsItsLeases(config, r.key, b.records, b.claimed, b.trace, b.counted);
  }

  // ---------------------------------------------- others are the protocol's steps

  lemma MutationKeepsReservation(w: World, s: Step, key: MutationKey)
    requires Enabled(w, s) && Mutates(s)
    ensures KeepsReservation(w.db.mutations, Next(w, s).db.mutations, key)
  {
    hide Next, Enabled, HasKey, SupersedeNotifications, InsertedId;
    if s.StepInvite? {
      InviteCommits(w, s);
    } else if s.StepResend? {
      ResendCommits(w, s);
    } else if s.StepRevoke? {
      RevokeCommits(w, s);
    } else {
      AcceptCommits(w, s);
    }
  }

  lemma BatchStepsKeepReservations(db: Database, r: Request, organization: Name, limit: int, locked: set<Uuid>,
                                   newIds: seq<Uuid>, key: MutationKey)
    requires limit <= |newIds|
    ensures KeepsReservation(db.mutations, ExpireDueInvitations(db, r, organization, limit, locked, newIds).0.mutations,
                             key)
    ensures KeepsReservation(db.mutations, BeginDispatch(db, r, organization).0.mutations, key)
  {
    hide Expire, ExpireRows;
    BatchIsDue(db, organization, limit, locked);
    var ids := ExpiryBatch(db, organization, limit, locked);
    ExpireRowsIgnoreLedger(db, db.mutations, ids, newIds, |ids|, r.actor);
  }

  lemma BatchKeepsReservation(w: World, s: Step, key: MutationKey)
    requires Enabled(w, s) && Batches(s) && !(s.StepCompleteDispatch? && s.key == key)
    ensures KeepsReservation(w.db.mutations, Next(w, s).db.mutations, key)
  {
    hide ExpireDueInvitations, BeginDispatch, CompleteDispatch, ClaimDueCommands, AfterClaim, KeepsReservation;
    if s.StepClaim? {
      ClaimDb(w, s.organization, s.limit, s.locked, s.leases);
      ClaimedBatch(w.db, s.organization, s.limit, w.config.leaseSeconds, s.locked, s.leases);
      SameReservation(w.db.mutations, key);
    } else if s.StepExpireDue? {
      BatchStepsKeepReservations(w.db, s.r, s.organization, s.limit, s.locked, s.newIds, key);
    } else if s.StepBeginDispatch? {
      BatchStepsKeepReservations(w.db, s.r, s.organization, 0, {}, [], key);
    } else {
      OtherReservation(w.db, s.key, s.result, key);
    }
  }

  lemma StepKeepsReservation(w: World, s: Step, key: MutationKey)
    requires Enabled(w, s) && !(s.StepCompleteDispatch? && s.key == key)
    ensures KeepsReservation(w.db.mutations, Next(w, s).db.mutations, key)
  {
    hide Next, Enabled, Carry, KeepsReservation;
    if Finishes(s) {
      FinishIsCarry(w, s);
      CarryKeepsReservation(w.db, w.config, w.claims[s.claim].record, DecisionBehind(s), NewIdOf(s), key);
    } else if Batches(s) {
      BatchKeepsReservation(w, s, key);
    } else if Observes(s) {
      ObservingChangesNoTable(w, s);
      SameReservation(w.db.mutations, key);
    } else {
      MutationKeepsReservation(w, s, key);
    }
  }

  lemma SameReservation(mutations: Mutations, key: MutationKey)
    ensures KeepsReservation(mutations, mutations, key)
  {
  }

  lemma OtherReservation(db: Database, other: MutationKey, result: DispatchResult, key: MutationKey)
    requires other != key
    ensures KeepsReservation(db.mutations, CompleteDispatch(db, other, result).0.mutations, key)
  {
  }

  ghost predicate LeaveAlone(steps: seq<Step>, key: MutationKey) {
    forall n | 0 <= n < |steps| :: !(steps[n].StepCompleteDispatch? && steps[n].key == key)
  }

  lemma {:induction false} RunKeepsReservation(w: World, steps: seq<Step>, key: MutationKey)
    requires CanRun(w, steps) && LeaveAlone(steps, key)
    ensures KeepsReservation(w.db.mutations, Run(w, steps).db.mutations, key)
    decreases |steps|
  {
    hide Next, Enabled;
    if steps != [] {
      StepKeepsReservation(w, steps[0], key);
      assert forall n | 0 <= n < |steps[1..]| :: steps[1..][n] == steps[n + 1];
      RunKeepsReservation(Next(w, steps[0]), steps[1..], key);
    }
  }

  predicate HoldsRecord(w: World, record: CommandRecord) {
    ClaimIdOf(record) in w.claims && w.claims[ClaimIdOf(record)].record == record
  }

  predicate HoldsRecords(w: World, records: seq<CommandRecord>) {
    forall n | 0 <= n < |records| :: HoldsRecord(w, records[n])
  }

  /** Any run of the protocol in which nobody else completes the reservation is what a batch relies on. */
  lemma RunsAreReliedOn(w: World, steps: seq<Step>, mine: MutationKey, records: seq<CommandRecord>)
    requires Reachable(w) && CanRun(w, steps) && LeaveAlone(steps, mine) && HoldsRecords(w, records)
    ensures Rely(w.db, Run(w, steps).db, mine, records)
  {
    hide Reachable, WorldOk, Evolves, CanRun, Run, Fenced, UniqueKeys, LeaveAlone;
    ReachableWorld(w);
    RunKeepsWorld(w, steps);
    RunKeepsReservation(w, steps, mine);
    WorldIsConsistent(w);
    WorldIsConsistent(Run(w, steps));
    forall n | 0 <= n < |records| && records[n].command in w.db.commands && !Fenced(w.db.commands, records[n])
      ensures records[n].command in Run(w, steps).db.commands && !Fenced(Run(w, steps).db.commands, records[n])
    {
      var id := ClaimIdOf(records[n]);
      LostLeaseStaysLost(w, steps, id);
      CommandsPersist(w.db, Run(w, steps).db, records[n].command);
    }
  }

  lemma WorldIsConsistent(w: World)
    requires WorldOk(w)
    ensures Consistent(w.db) && UniqueKeys(w.db.commands)
  {
  }

  lemma CommandsPersist(db: Database, db': Database, c: Uuid)
    requires Evolves(db, db') && c in db.commands
    ensures c in db'.commands
  {
  }

  // ------------------------------------------------------- one reservation each

  /** A reserved dispatch key never claims again: whatever any run does, a request under it is refused or replayed. */
  lemma OneClaimPerKey(w: World, steps: seq<Step>, r: Request)
    requires Reachable(w) && CanRun(w, steps) && r.key in w.db.mutations && w.db.mutations[r.key].operation.DispatchDue?
    ensures !BeginMutation(Run(w, steps).db.mutations, r).New?
  {
    hide Reachable, WorldOk, CanRun, Run, InvitationsEvolve, CommandsEvolve;
    ReachableWorld(w);
    RunKeepsWorld(w, steps);
    assert MutationEvolves(w.db.mutations[r.key], r.key, Run(w, steps).db.mutations);
  }

  /** An aborted batch leaves its reservation started, and its own request is refused after every run in which nobody
      completes it. */
  lemma AbortedStaysReserved(w: World, steps: seq<Step>, r: Request, organization: Name)
    requires Reachable(w) && CanRun(w, steps) && Reserved(w.db.mutations, r.key) && LeaveAlone(steps, r.key)
    ensures BeginDispatch(Run(w, steps).db, r, organization) == (Run(w, steps).db, Rejected(IdempotencyConflict))
  {
    hide Reachable, RecordsOk, KnowledgeOk, ProviderOk, ClaimsOk, CanRun, Run, LeaveAlone;
    ReachableWorld(w);
    RunKeepsReservation(w, steps, r.key);
    assert MutationOk(w.db.mutations[r.key], w.db.invitations, w.db.commands);
  }

  // ---------------------------------------------------------- the claimed batch

  /** The command is due: it waits and its time has come, or its lease has run out. */
  predicate IsDue(command: Command, organization: Name, now: Time) {
    && command.organization == organization
    && ((command.state == Waiting && command.availableAt <= now) ||
        (command.state == InFlight && command.lease.Some? && command.lease.value.until < now))
  }

  function ClaimableRows(db: Database, organization: Name): set<Uuid> {
    set c | c in db.commands && IsDue(db.commands[c], organization, db.now)
  }

  predicate DueBefore(commands: Commands, c: Uuid, d: Uuid)
    requires c in commands && d in commands
  {
    commands[c].availableAt < commands[d].availableAt || (commands[c].availableAt == commands[d].availableAt && c <= d)
  }

  /** A batch claims the first `limit` due commands nobody has locked, by the time they became available and then id. */
  lemma BatchIsFirstClaimable(db: Database, organization: Name, limit: int, locked: set<Uuid>)
    ensures var ids := ClaimBatch(db, organization, limit, locked);
      var due := ClaimableRows(db, organization) - locked;
      && |ids| == Min(if limit <= 0 then 0 else limit, |due|)
      && Distinct(ids)
      && (forall n | 0 <= n < |ids| :: ids[n] in due)
      && (forall m, n | 0 <= m < n < |ids| :: DueBefore(db.commands, ids[m], ids[n]))
      && (forall n, c | 0 <= n < |ids| && c in due && c !in ids :: DueBefore(db.commands, ids[n], c))
  {
    hide Sorted, Limited;
    var keys := ClaimTimes(db.commands, organization, db.now, locked);
    LimitedIsFirst(keys, limit);
    assert keys.Keys == ClaimableRows(db, organization) - locked;
  }

  /** What a claim writes and answers: each record is of a due command of the organization, counts one more attempt and
      carries a lease of its own that holds for the configured time; no other command has changed. */
  lemma ClaimWrites(db: Database, organization: Name, limit: int, leaseSeconds: int, locked: set<Uuid>,
                    leases: seq<Uuid>) returns (db': Database, records: seq<CommandRecord>)
    requires Consistent(db) && limit <= |leases|
    ensures (db', records) == ClaimDueCommands(db, organization, limit, leaseSeconds, locked, leases)
    ensures db' == db.(commands := db'.commands) && db'.commands.Keys == db.commands.Keys
    ensures |records| <= |leases| && DistinctCommands(records)
    ensures forall n | 0 <= n < |records| ::
      && records[n].command in db.commands && records[n].command !in locked
      && IsDue(db.commands[records[n].command], organization, db.now)
      && IsClaimOf(records[n], db.commands[records[n].command], leases[n])
      && db'.commands[records[n].command] == db.commands[records[n].command].(
           state := InFlight, attempts := records[n].attempts, lease := Some(Lease(leases[n], db.now + leaseSeconds)),
           updatedAt := db.now)
    ensures forall c | c in db.commands && (forall n | 0 <= n < |records| :: records[n].command != c) ::
      db'.commands[c] == db.commands[c]
  {
    hide Consistent, ClaimBatch, ClaimDueCommands, ClaimedSoFar, IsDue, IsClaimOf;
    var ids := ClaimBatch(db, organization, limit, locked);
    db', records := ClaimLoop(db, organization, limit, leaseSeconds, locked, leases);
    forall n | 0 <= n < |records|
      ensures records[n].command in db.commands && IsDue(db.commands[records[n].command], organization, db.now)
      ensures IsClaimOf(records[n], db.commands[records[n].command], leases[n])
      ensures db'.commands[records[n].command] == db.commands[records[n].command].(
                state := InFlight, attempts := records[n].attempts,
                lease := Some(Lease(leases[n], db.now + leaseSeconds)), updatedAt := db.now)
    {
      ClaimedOne(db, db'.commands, organization, ids, leases, records[n], n, leaseSeconds);
    }
    forall c | c in db.commands && (forall n | 0 <= n < |records| :: records[n].command != c)
      ensures db'.commands[c] == db.commands[c]
    {
      NotClaimed(db.commands, db'.commands, ids, leases, records, leaseSeconds, db.now, c);
    }
  }

  /** The loop of a claim in terms of the batch it locked. */
  lemma ClaimLoop(db: Database, organization: Name, limit: int, leaseSeconds: int, locked: set<Uuid>,
                  leases: seq<Uuid>) returns (db': Database, records: seq<CommandRecord>)
    requires Consistent(db) && limit <= |leases|
    ensures (db', records) == ClaimDueCommands(db, organization, limit, leaseSeconds, locked, leases)
    ensures var ids := ClaimBatch(db, organization, limit, locked);
      && |records| == |ids| <= |leases| && Distinct(ids) && db' == db.(commands := db'.commands)
      && (forall n | 0 <= n < |ids| ::
            && ids[n] in db.commands && ids[n] !in locked && Claimable(db.commands[ids[n]], organization, db.now)
            && records[n] == RecordOf(ids[n], db.commands[ids[n]].(attempts := db.commands[ids[n]].attempts + 1),
                                      leases[n]))
      && ClaimedSoFar(db.commands, db'.commands, ids, leases, |ids|, leaseSeconds, db.now)
      && db'.commands.Keys == db.commands.Keys
  {
    hide RecordsOk, LedgerOk, ClaimBatch, ClaimRows, ClaimedSoFar;
    BatchIsClaimable(db, organization, limit, locked);
    var ids := ClaimBatch(db, organization, limit, locked);
    ClaimRowsIsConsistent(db, ids, leases, |ids|, leaseSeconds);
    KeepsCommandIds(db.commands, ids, leases, leaseSeconds, db.now);
    hide Claimable;
    db', records := ClaimDueCommands(db, organization, limit, leaseSeconds, locked, leases).0,
                    ClaimDueCommands(db, organization, limit, leaseSeconds, locked, leases).1;
  }

  lemma KeepsCommandIds(commands: Commands, ids: seq<Uuid>, leases: seq<Uuid>, leaseSeconds: int, now: Time)
    requires |ids| <= |leases| && forall n | 0 <= n < |ids| :: ids[n] in commands
    requires ClaimedSoFar(commands, ClaimRows(commands, ids, leases, |ids|, leaseSeconds, now), ids, leases, |ids|,
                          leaseSeconds, now)
    ensures ClaimRows(commands, ids, leases, |ids|, leaseSeconds, now).Keys == commands.Keys
  {
    hide ClaimRows;
  }

  lemma ClaimedOne(db: Database, commands: Commands, organization: Name, ids: seq<Uuid>, leases: seq<Uuid>,
                   record: CommandRecord, n: nat, leaseSeconds: int)
    requires n < |ids| <= |leases| && forall m | 0 <= m < |ids| :: ids[m] in db.commands
    requires ClaimedSoFar(db.commands, commands, ids, leases, |ids|, leaseSeconds, db.now)
    requires record == RecordOf(ids[n], db.commands[ids[n]].(attempts := db.commands[ids[n]].attempts + 1), leases[n])
    requires Claimable(db.commands[ids[n]], organization, db.now)
    ensures record.command in commands && IsDue(db.commands[record.command], organization, db.now)
    ensures IsClaimOf(record, db.commands[record.command], leases[n])
    ensures commands[record.command] == db.commands[record.command].(
              state := InFlight, attempts := record.attempts, lease := Some(Lease(leases[n], db.now + leaseSeconds)),
              updatedAt := db.now)
  {
  }

  lemma NotClaimed(commands: Commands, commands': Commands, ids: seq<Uuid>, leases: seq<Uuid>,
                   records: seq<CommandRecord>, leaseSeconds: int, now: Time, c: Uuid)
    requires |records| == |ids| <= |leases| && forall m | 0 <= m < |ids| :: ids[m] in commands
    requires ClaimedSoFar(commands, commands', ids, leases, |ids|, leaseSeconds, now)
    requires c in commands && forall n | 0 <= n < |ids| :: records[n].command == ids[n] != c
    ensures c in commands' && commands'[c] == commands[c]
  {
    assert ids[..|ids|] == ids;
  }

  /** A record of the next claim of the command. */
  predicate IsClaimOf(record: CommandRecord, command: Command, lease: Uuid) {
    && record.organization == command.organization && record.invitation == command.invitation
    && record.kind == command.kind && record.key == command.key
    && record.attempts == command.attempts + 1 && record.lease == lease
  }

  /** More is reported if and only if a command of the organization is due. */
  lemma MoreIsDue(db: Database, organization: Name)
    ensures HasDueCommands(db, organization) <==> exists c :: c in db.commands && IsDue(db.commands[c], organization,
                                                                                       db.now)
  {
    if c :| c in db.commands && IsDue(db.commands[c], organization, db.now) {
      assert Claimable(db.commands[c], organization, db.now);
    }
    if c :| c in db.commands && Claimable(db.commands[c], organization, db.now) {
      assert IsDue(db.commands[c], organization, db.now);
    }
  }

  /** A batch leaves its reservation as it made it. */
  lemma {:induction false} ChainKeepsReservation(config: Config, mine: MutationKey, records: seq<CommandRecord>,
                                                 start: Database, trace: seq<Execution>, end: Database)
    requires Chain(config, mine, records, start, trace, end)
    ensures KeepsReservation(start.mutations, end.mutations, mine)
    decreases |trace|
  {
    hide Carry, Evolves, Consistent, UniqueKeys, KeepsLost;
    if trace != [] {
      var e := trace[|trace| - 1];
      ChainKeepsReservation(config, mine, records, start, trace[..|trace| - 1], e.read);
      CarryKeepsReservation(e.at, config, e.record, DecisionIn(config, e), e.newId, mine);
    }
  }

  /** A batch that returns leaves its request answered, for the caller, organization and time it was reserved by. */
  lemma DispatchIsRecorded(config: Config, r: Request, organization: Name, limit: int, locked: set<Uuid>,
                           start: Database, b: Batch, result: DispatchResult, end: Database)
    requires r.key !in start.mutations && r.operation.DispatchDue?
    requires b.reserved == BeginDispatch(start, r, organization).0 && Ran(config, r, organization, limit, locked, b)
    requires Rely(b.counted, b.recorded, r.key, b.records)
    requires CompleteDispatch(b.recorded, r.key, result) == (end, Done(()))
    ensures r.key in end.mutations
    ensures end.mutations[r.key] == Mutation(
      operation := DispatchDue, actor := r.actor, hash := r.hash, organization := organization, invitation := None,
      command := None, status := Finished, response := Some(DispatchResponse(result)), createdAt := start.now)
  {
    hide Evolves, Consistent, UniqueKeys, KeepsLost, Chain, ClaimDueCommands;
    ClaimedBatch(b.offered, organization, limit, config.leaseSeconds, locked, b.leases);
    ChainKeepsReservation(config, r.key, b.records, b.claimed, b.trace, b.counted);
  }

  lemma {:induction false} ChainExecutes(config: Config, mine: MutationKey, records: seq<CommandRecord>,
                                         start: Database, trace: seq<Execution>, end: Database)
    requires Chain(config, mine, records, start, trace, end)
    ensures forall n | 0 <= n < |trace| :: Executed(config, trace[n])
    decreases |trace|
  {
    hide Executed, Rely;
    if trace != [] {
      ChainExecutes(config, mine, records, start, trace[..|trace| - 1], trace[|trace| - 1].read);
      assert forall n | 0 <= n < |trace| - 1 :: trace[n] == trace[..|trace| - 1][n];
    }
  }
}
