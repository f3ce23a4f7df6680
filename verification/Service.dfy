/** The orchestration around the storage transactions: the unlocked reads, the provider calls and the dispatch
    loop, while other processes commit in between. Each operation is proved to run exactly the transactions its
    trace lists. */
module Service {
  import opened Schema
  import opened Storage
  import opened Consistency
  import opened Outbox
  import opened Protocol
  import opened Backoff
  import opened Safety
  import opened Writes
  import opened Email
  import opened Paging
  import opened Drain
  import opened Store
  import opened Worker
  import opened Dispatch
  import opened Outcomes
  import opened Processes
  import opened Traces

  class Plugin {
    const config: Config
    const store: InvitationStore
    const surroundings: Surroundings
    /** The world as the protocol has it. */
    ghost var world: World

    /** The tables, the provider's ledger and the drawn leases are those of a reachable world. */
    ghost predicate Valid()
      reads this, store, surroundings
    {
      && store.Valid() && world.db == store.Tables() && world.config == config
      && world.memberships == surroundings.memberships && LeasesDrawn(world.claims, surroundings.leases)
      && Reachable(world)
    }

    /** Between two calls the tables are those of a run from a freshly migrated schema. */
    lemma TablesAreVisited()
      requires Valid()
      ensures Visited(store.Tables())
    {
      hide Reachable;
    }

    /** A plugin on a freshly migrated schema, with a provider that holds no membership yet. */
    constructor (config: Config, start: Time)
      requires ValidConfig(config)
      ensures Valid() && this.config == config && world == Init(config, start)
      ensures fresh(store) && fresh(surroundings)
    {
      this.config := config;
      store := new InvitationStore(start);
      surroundings := new Surroundings();
      world := Init(config, start);
      new;
      InitIsReachable(config, start);
    }

    /** Whatever other processes do between two transactions of this one: some run of the protocol that does not
        complete this process's reservation. Callers know its contract only; what is done here is one admissible
        case. */
    method Others(mine: MutationKey)
      requires Valid()
      modifies store, surroundings, this`world
      ensures Valid() && FollowsAlone(old(world), world, mine)
    {
      FollowsReflexive(world, mine);
    }

    /** What this process can rely on while it waits. */
    method Meanwhile(mine: MutationKey, records: seq<CommandRecord>)
      requires Valid() && HoldsRecords(world, records)
      modifies store, surroundings, this`world
      ensures Valid() && Follows(old(world), world) && Remembers(old(world), world) && HoldsRecords(world, records)
      ensures Rely(old(store.Tables()), store.Tables(), mine, records)
    {
      hide Reachable, Follows, FollowsAlone, Remembers, Rely, LeasesDrawn, HoldsRecords;
      Others(mine);
      WhileOthersRun(old(world), world, mine, records);
    }

    /** The world moves on by a step of this process. */
    ghost method Take(origin: World, s: Step)
      requires Reachable(world) && Follows(origin, world) && Enabled(world, s)
      modifies this`world
      ensures Reachable(world) && Follows(origin, world) && world == Next(old(world), s)
    {
      hide Reachable, Follows, Next, Enabled;
      FollowsStep(origin, world, s);
      world := Next(world, s);
    }

    // ------------------------------------------------------------ one command

    method ScheduleCommandRetry(record: CommandRecord, error: Name, newId: Uuid) returns (committed: bool)
      requires store.Valid()
      modifies store
      ensures store.Valid()
      ensures (store.Tables(), committed) == Carry(old(store.Tables()), config, record, Later(error), newId)
    {
      var outcome := store.Retry(record, error, Delay(config.retryBase, record.attempts));
      return outcome.Done?;
    }

    method GiveUpCommand(record: CommandRecord, error: Name, newId: Uuid) returns (committed: bool)
      requires store.Valid() && newId !in store.commands
      modifies store
      ensures store.Valid()
      ensures (store.Tables(), committed) == Carry(old(store.Tables()), config, record, GiveUp(error), newId)
    {
      var outcome := store.Fail(record, error, newId);
      return outcome.Done?;
    }

    method DiscardCommand(record: CommandRecord, newId: Uuid) returns (committed: bool)
      requires store.Valid()
      modifies store
      ensures store.Valid()
      ensures (store.Tables(), committed) == Carry(old(store.Tables()), config, record, Discard, newId)
    {
      var outcome := store.Supersede(record);
      return outcome.Done?;
    }

    method RetryOrFailCommand(record: CommandRecord, error: Name,
                              newId: Uuid) returns (committed: bool, disposition: Disposition)
      requires store.Valid() && newId !in store.commands
      modifies store
      ensures store.Valid()
      ensures var decision := RetryOrFail(config, record.attempts, error);
        (store.Tables(), committed) == Carry(old(store.Tables()), config, record, decision, newId) &&
        disposition == DispositionOf(decision)
    {
      if record.attempts >= config.maxAttempts {
        committed := GiveUpCommand(record, error, newId);
        return committed, PermanentFailure;
      }
      committed := ScheduleCommandRetry(record, error, newId);
      return committed, RetryScheduled;
    }

    method ExecuteAddMember(record: CommandRecord, reply: MemberReply, newId: Uuid) returns (committed: bool,
                            disposition: Disposition)
      requires store.Valid() && newId !in store.commands
      modifies store
      ensures store.Valid()
      ensures (store.Tables(), committed) == Carry(old(store.Tables()), config, record, DecideMember(reply), newId)
      ensures disposition == DispositionOf(DecideMember(reply))
    {
      match reply {
        case MemberAdded(membershipId, revision) =>
          var outcome := store.CompleteAcceptance(record, membershipId, revision, newId);
          return outcome.Done?, CommandCompleted;
        case MemberConflict =>
          committed := GiveUpCommand(record, "membership_idempotency_conflict", newId);
          return committed, PermanentFailure;
        case MemberRejected =>
          committed := GiveUpCommand(record, "membership_rejected", newId);
          return committed, PermanentFailure;
        case MemberUnavailable =>
          committed := ScheduleCommandRetry(record, "membership_unavailable", newId);
          return committed, RetryScheduled;
      }
    }

    method ExecuteNotice(record: CommandRecord, row: Invitation, replies: Replies, newId: Uuid)
      returns (committed: bool, disposition: Disposition)
      requires store.Valid() && newId !in store.commands && record.kind.NotifyInvitation?
      modifies store
      ensures store.Valid()
      ensures (store.Tables(), committed) == Carry(old(store.Tables()), config, record,
                                                   DecideNotice(config, record, row, replies), newId)
      ensures disposition == DispositionOf(DecideNotice(config, record, row, replies))
    {
      hide Carry;
      disposition := PermanentFailure;
      match replies.directory {
        case DirectoryActive =>
        case DirectoryInactive =>
          committed := GiveUpCommand(record, "organization_inactive", newId);
          return;
        case DirectoryUnknown =>
          committed, disposition := RetryOrFailCommand(record, "organization_directory_unknown", newId);
          return;
        case DirectoryRejected =>
          committed := GiveUpCommand(record, "organization_directory_rejected", newId);
          return;
        case DirectoryUnavailable =>
          committed := ScheduleCommandRetry(record, "organization_directory_unavailable", newId);
          disposition := RetryScheduled;
          return;
      }
      if !replies.derivable {
        committed := GiveUpCommand(record, "token_derivation_failed", newId);
        return;
      }
      var token := Derived(record.invitation, record.kind.generation);
      if row.tokenHash.None? {
        committed := DiscardCommand(record, newId);
        disposition := CommandCompleted;
        return;
      }
      if !Verifies(token, row.tokenHash.value) {
        committed := GiveUpCommand(record, "token_derivation_mismatch", newId);
        return;
      }
      if !replies.urlValid {
        committed := GiveUpCommand(record, "invalid_invitation_url", newId);
        return;
      }
      match replies.notice {
        case NoticeCreated(intentId, deliveryId) =>
          committed := FinishNotice(record, intentId, deliveryId, newId);
          disposition := CommandCompleted;
        case NoticeConflict => committed := GiveUpCommand(record, "notification_idempotency_conflict", newId);
        case NoticeUnknown => committed, disposition := RetryOrFailCommand(record, "notification_unknown", newId);
        case NoticeRejected => committed := GiveUpCommand(record, "notification_rejected", newId);
        case NoticeUnavailable =>
          committed := ScheduleCommandRetry(record, "notification_unavailable", newId);
          disposition := RetryScheduled;
      }
    }

    method FinishNotice(record: CommandRecord, intentId: Name, deliveryId: Name, newId: Uuid) returns (committed: bool)
      requires store.Valid() && record.kind.NotifyInvitation?
      modifies store
      ensures store.Valid()
      ensures (store.Tables(), committed) == Carry(old(store.Tables()), config, record,
                                                   Finish(NotificationReceipt(intentId, deliveryId)), newId)
    {
      var outcome := store.CompleteNotificationCommand(record, intentId, deliveryId);
      return outcome.Done?;
    }

    method FinishObservation(record: CommandRecord, recorded: bool, newId: Uuid) returns (committed: bool)
      requires store.Valid()
      modifies store
      ensures store.Valid()
      ensures (store.Tables(), committed) == Carry(old(store.Tables()), config, record,
                                                   Finish(LifecycleReceipt(recorded)), newId)
    {
      var outcome := store.CompleteLifecycleCommand(record, recorded);
      return outcome.Done?;
    }

    method ExecuteObservation(record: CommandRecord, row: Invitation, replies: Replies, newId: Uuid)
      returns (committed: bool, disposition: Disposition)
      requires store.Valid() && newId !in store.commands && record.kind.NotifyLifecycle?
      modifies store
      ensures store.Valid()
      ensures (store.Tables(), committed) == Carry(old(store.Tables()), config, record,
                                                   DecideObserver(config, record, row, replies), newId)
      ensures disposition == DispositionOf(DecideObserver(config, record, row, replies))
    {
      hide Carry;
      disposition := PermanentFailure;
      var observedAt: Option<Time>;
      match record.kind.lifecycle {
        case Accepted => observedAt := row.acceptedAt;
        case Revoked => observedAt := row.revokedAt;
        case Expired => observedAt := row.expiredAt;
        case Pending =>
          committed := GiveUpCommand(record, "invalid_lifecycle", newId);
          return;
      }
      if observedAt.None? {
        committed := GiveUpCommand(record, "missing_lifecycle_timestamp", newId);
        return;
      }
      match replies.observer {
        case Observed(recorded) =>
          committed := FinishObservation(record, recorded, newId);
          disposition := CommandCompleted;
        case ObserverConflict => committed := GiveUpCommand(record, "notification_observation_conflict", newId);
        case ObserverUnknown => committed, disposition := RetryOrFailCommand(record, "notification_unknown", newId);
        case ObserverRejected => committed := GiveUpCommand(record, "notification_rejected", newId);
        case ObserverUnavailable =>
          committed := ScheduleCommandRetry(record, "notification_unavailable", newId);
          disposition := RetryScheduled;
      }
    }

    /** A call to the membership provider: it takes effect, or not, and is answered, or not. */
    method CallMembership(ghost origin: World, record: CommandRecord, call: MemberCall) returns (reply: MemberReply)
      requires Valid() && Follows(origin, world) && HoldsRecord(world, record) && record.kind.AddMember?
      modifies surroundings, this`world
      ensures Valid() && Follows(origin, world)
      ensures world == old(world).(memberships := world.memberships, answers := world.answers)
      ensures old(world).answers <= world.answers
      ensures reply.MemberAdded? ==> Answer(ClaimIdOf(record), reply.membershipId) in world.answers
    {
      hide Reachable, Follows, Next, Enabled, Applied;
      reply := surroundings.AddMember(record, call);
      if call.CallDelivered? || (call.CallLost? && call.applied) {
        CallIsAStep(world, record, call.membershipId);
        Take(origin, StepAddMember(ClaimIdOf(record), call.membershipId));
      }
      if reply.MemberAdded? {
        AnswerIsAStep(world, record, reply.membershipId);
        Take(origin, StepAnswer(ClaimIdOf(record)));
      }
    }

    /** The world takes the step a worker's committed or refused decision is. */
    ghost method TakeDecision(origin: World, record: CommandRecord, decision: Decision, newId: Uuid)
      requires Reachable(world) && Follows(origin, world) && world.config == config
      requires MayDecide(world, record, decision) && newId !in world.db.commands
      modifies this`world
      ensures Reachable(world) && Follows(origin, world)
      ensures world == old(world).(db := Carry(old(world).db, config, record, decision, newId).0)
    {
      hide Reachable, Follows, Next, Enabled, MayDecide, Carry;
      DecisionIsAStep(world, record, decision, newId);
      Take(origin, StepFor(ClaimIdOf(record), decision, newId));
    }

    /** `execute_command`: it concludes as its row and its replies demand, on the tables it leaves, or its claim has
        lost the lease and nothing happens. */
    method ExecuteCommand(record: CommandRecord, call: MemberCall, replies: Replies, mine: MutationKey,
                          records: seq<CommandRecord>)
      returns (disposition: Option<Disposition>, ghost e: Execution)
      requires Valid() && HoldsRecord(world, record) && HoldsRecords(world, records)
      modifies store, surroundings, this`world
      ensures Valid() && Follows(old(world), world) && HoldsRecords(world, records)
      ensures e.record == record && e.replies == replies.(member := e.replies.member)
      ensures e.read == old(store.Tables()) && e.done == store.Tables()
      ensures Rely(e.read, e.at, mine, records) && e.newId !in e.at.commands
      ensures Carry(e.at, config, record, DecisionIn(config, e), e.newId) == (e.done, disposition.Some?)
      ensures disposition.Some? ==> disposition.value == DispositionOf(DecisionIn(config, e))
      ensures disposition.Some? ==> Concluded(config, e, disposition.value)
      ensures disposition.None? ==> !LeasedThen(e) && e.done == e.at
    {
      hide Carry, Rely, Reachable, Follows, DecisionIn, DispositionOf, Concluded, LeasedThen, Consistent, Held;
      disposition, e := TryCommand(record, call, replies, mine, records);
      Conclusion(config, e, disposition.Some?);
    }

    /** The row is read without a lock, the providers are called, and one transaction follows. */
    method TryCommand(record: CommandRecord, call: MemberCall, replies: Replies, mine: MutationKey,
                          records: seq<CommandRecord>)
      returns (disposition: Option<Disposition>, ghost e: Execution)
      requires Valid() && HoldsRecord(world, record) && HoldsRecords(world, records)
      modifies store, surroundings, this`world
      ensures Valid() && Follows(old(world), world) && HoldsRecords(world, records)
      ensures e.record == record && e.replies == replies.(member := e.replies.member)
      ensures e.read == old(store.Tables()) && e.done == store.Tables()
      ensures Rely(e.read, e.at, mine, records) && e.newId !in e.at.commands
      ensures Carry(e.at, config, record, DecisionIn(config, e), e.newId) == (e.done, disposition.Some?)
      ensures disposition.Some? ==> disposition.value == DispositionOf(DecisionIn(config, e))
      ensures Consistent(e.at) && Held(e.at.commands, record)
    {
      hide Carry, Rely, Consistent, Held, Decide, Reachable, Follows, MatchedRow, MayDecide;
      ghost var origin, read := world, store.Tables();
      FollowsReflexive(world, mine);
      var row, reply := HearCommand(origin, record, call, mine, records);
      var newId := store.NewCommandId();
      ghost var at := store.Tables();
      HoldsOnConsistent(record);
      var heard := replies.(member := reply);
      var committed, made := ConcludeCommand(record, row, heard, newId);
      e := Execution(record, heard, read, at, newId, store.Tables());
      disposition := if committed then Some(made) else None;
      DecisionMayBeTaken(record, row, heard, read, world);
      TakeDecision(origin, record, DecisionIn(config, e), newId);
    }

    /** The unlocked match and the membership call, if there is one. */
    method HearCommand(ghost origin: World, record: CommandRecord, call: MemberCall, mine: MutationKey,
                       records: seq<CommandRecord>) returns (row: Option<Invitation>, reply: MemberReply)
      requires Valid() && Follows(origin, world) && HoldsRecord(world, record) && HoldsRecords(world, records)
      modifies store, surroundings, this`world
      ensures Valid() && Follows(origin, world) && HoldsRecord(world, record) && HoldsRecords(world, records)
      ensures row == MatchedRow(old(store.Tables()), record)
      ensures Rely(old(store.Tables()), store.Tables(), mine, records)
      ensures row.None? ==> ClaimIdOf(record) in world.stale
      ensures reply.MemberAdded? ==> Answer(ClaimIdOf(record), reply.membershipId) in world.answers
    {
      hide Rely, Reachable, Follows, Next, Enabled;
      ghost var read := store.Tables();
      row := store.MatchCommand(record);
      MatchIsAStep(world, record);
      Take(origin, StepMatch(ClaimIdOf(record)));
      ghost var matched := world;
      Meanwhile(mine, records);
      FollowsTransitive(origin, matched, world);
      ghost var between := store.Tables();
      reply := MemberUnavailable;
      if row.Some? && record.kind.AddMember? {
        reply := CallMembership(origin, record, call);
      }
      ghost var called := world;
      Meanwhile(mine, records);
      FollowsTransitive(origin, called, world);
      RelyTransitive(read, between, store.Tables(), mine, records);
    }

    lemma HoldsOnConsistent(record: CommandRecord)
      requires Valid() && HoldsRecord(world, record)
      ensures Consistent(store.Tables()) && Held(store.Tables().commands, record)
    {
      hide Reachable, Consistent, Held, KnowledgeOk, ProviderOk, Leases.ClaimsOk;
      ReachableWorld(world);
      ClaimIsHeld(world, ClaimIdOf(record));
    }

    /** The one transaction after the replies. */
    method ConcludeCommand(record: CommandRecord, row: Option<Invitation>, replies: Replies, newId: Uuid)
      returns (committed: bool, disposition: Disposition)
      requires store.Valid() && newId !in store.commands
      modifies store
      ensures store.Valid()
      ensures var decision := Decide(config, record, row, replies);
        (store.Tables(), committed) == Carry(old(store.Tables()), config, record, decision, newId) &&
        disposition == DispositionOf(decision)
    {
      hide Carry, DecideMember, DecideNotice, DecideObserver;
      if row.None? {
        committed := DiscardCommand(record, newId);
        return committed, CommandCompleted;
      }
      match record.kind {
        case AddMember(_) => committed, disposition := ExecuteAddMember(record, replies.member, newId);
        case NotifyInvitation(_) => committed, disposition := ExecuteNotice(record, row.value, replies, newId);
        case NotifyLifecycle(_) => committed, disposition := ExecuteObservation(record, row.value, replies, newId);
      }
    }

    /** What was found stale when it was matched is known to be, and what the provider answered too. */
    lemma DecisionMayBeTaken(record: CommandRecord, row: Option<Invitation>, replies: Replies, read: Database,
                             now: World)
      requires row == MatchedRow(read, record) && HoldsRecord(now, record)
      requires row.None? ==> ClaimIdOf(record) in now.stale
      requires replies.member.MemberAdded? ==> Answer(ClaimIdOf(record), replies.member.membershipId) in now.answers
      ensures MayDecide(now, record, Decide(config, record, row, replies))
    {
      DecisionsSuit(config, record, row, replies);
      if Decide(config, record, row, replies).Discard? { DiscardsOnlyUnmatched(config, record, read, replies); }
    }

    // --------------------------------------------------------------- the batch

    /** The loop of `dispatch_due` and its counters; it stops at the first storage error. */
    method Work(mine: MutationKey, records: seq<CommandRecord>, calls: seq<MemberCall>, replies: seq<Replies>)
      returns (ok: bool, result: DispatchResult, ghost trace: seq<Execution>)
      requires Valid() && HoldsRecords(world, records) && Reserved(store.mutations, mine)
      requires |records| <= |replies| && |records| <= |calls|
      modifies store, surroundings, this`world
      ensures Valid() && Follows(old(world), world) && HoldsRecords(world, records) && Reserved(store.mutations, mine)
      ensures Chain(config, mine, records, old(store.Tables()), trace, store.Tables())
      ensures ok ==> |trace| == |records| && result == Tally(config, trace, false)
    {
      hide Carry, Rely, Decide, Reachable, Follows, LeasesDrawn, Concluded, LeasedThen;
      ghost var origin, start := world, store.Tables();
      trace := [];
      Meanwhile(mine, records);
      RelyKeepsReserved(start, store.Tables(), mine, records);
      result := DispatchResult(|records|, 0, 0, 0, false);
      for n := 0 to |records|
        invariant Valid() && Follows(origin, world) && HoldsRecords(world, records) && Reserved(store.mutations, mine)
        invariant |trace| == n && Chain(config, mine, records, start, trace, store.Tables())
        invariant result == Tally(config, trace, false).(processed := |records|)
      {
        ghost var before := world;
        var disposition;
        ghost var e;
        disposition, e := ExecuteCommand(records[n], calls[n], replies[n], mine, records);
        FollowsTransitive(origin, before, world);
        RelyKeepsReserved(e.read, e.at, mine, records);
        CarryKeepsReservation(e.at, config, e.record, DecisionIn(config, e), e.newId, mine);
        if disposition.None? {
          UncommittedChangesNothing(e.at, config, e.record, DecisionIn(config, e), e.newId);
          ChainGoesOn(config, mine, records, start, trace, e.read, e.at);
          return false, result, trace;
        }
        match disposition.value {
          case CommandCompleted => result := result.(completed := result.completed + 1);
          case RetryScheduled => result := result.(retryScheduled := result.retryScheduled + 1);
          case PermanentFailure => result := result.(permanentFailed := result.permanentFailed + 1);
        }
        ghost var executed := world;
        Meanwhile(mine, records);
        FollowsTransitive(origin, executed, world);
        RelyKeepsReserved(e.done, store.Tables(), mine, records);
        ChainGrows(config, mine, records, start, trace, e, store.Tables());
        CountsGrow(config, trace, e);
        trace := trace + [e];
      }
      ok := true;
    }

    /** The claim of a batch under freshly drawn leases. */
    method ClaimLeased(ghost origin: World, organization: Name, limit: nat, locked: set<Uuid>)
      returns (leases: seq<Uuid>, records: seq<CommandRecord>)
      requires Valid() && Follows(origin, world)
      modifies store, surroundings, this`world
      ensures Valid() && Follows(origin, world) && HoldsRecords(world, records)
      ensures |leases| == limit && |records| <= limit
      ensures (store.Tables(), records) ==
        old(ClaimDueCommands(store.Tables(), organization, limit, config.leaseSeconds, locked, leases))
      ensures store.mutations == old(store.mutations)
    {
      hide Reachable, Follows, ClaimDueCommands, Next, Enabled;
      leases := surroundings.DrawLeases(limit);
      ghost var before := world;
      records := store.Claim(organization, limit, config.leaseSeconds, locked, leases);
      ClaimIsAStep(world, organization, limit, locked, leases);
      Take(origin, StepClaim(organization, limit, locked, leases));
      assert LeasesDrawn(world.claims, surroundings.leases);
    }

    /** `dispatch_due`: what it answers counts the commands by the state their execution left them in, says whether the
        organization has a due command left, and is stored for the request. */
    method DispatchDue(r: Request, organization: Name, limit: int, locked: set<Uuid>, calls: seq<MemberCall>,
                       replies: seq<Replies>)
      returns (outcome: DispatchOutcome, ghost b: Batch)
      requires Valid() && r.operation.DispatchDue? && limit <= |calls| && limit <= |replies|
      modifies store, surroundings, this`world
      ensures Valid() && Follows(old(world), world)
      ensures Dispatches(config, r, organization, limit, locked, old(store.Tables()), b, store.Tables(), outcome)
      ensures r.key !in old(store.mutations) && outcome.Answered? ==>
        && Counted(outcome.result, b.trace)
        && (outcome.result.hasMore <==>
              exists c :: c in b.counted.commands && IsDue(b.counted.commands[c], organization, b.counted.now))
        && r.key in store.mutations && store.mutations[r.key].response == Some(DispatchResponse(outcome.result))
        && store.mutations[r.key].actor == r.actor && store.mutations[r.key].hash == r.hash
    {
      hide Reachable, Follows, Dispatches, Counted;
      ghost var first := store.Tables();
      outcome, b := TryDispatch(r, organization, limit, locked, calls, replies);
      if r.key !in first.mutations && outcome.Answered? {
        AnswerCounts(config, r, organization, limit, locked, first, b, store.Tables(), outcome);
      }
    }

    /** The reservation, the claim, the loop and the recorded result. */
    method TryDispatch(r: Request, organization: Name, limit: int, locked: set<Uuid>, calls: seq<MemberCall>,
                       replies: seq<Replies>)
      returns (outcome: DispatchOutcome, ghost b: Batch)
      requires Valid() && r.operation.DispatchDue? && limit <= |calls| && limit <= |replies|
      modifies store, surroundings, this`world
      ensures Valid() && Follows(old(world), world)
      ensures Dispatches(config, r, organization, limit, locked, old(store.Tables()), b, store.Tables(), outcome)
    {
      hide Carry, Rely, ClaimDueCommands, Reachable, Follows, LeasesDrawn, Next, Enabled, Chain, CountOf,
      HasDueCommands;
      ghost var origin, first := world, store.Tables();
      FollowsReflexive(world, r.key);
      b := Batch(first, first, [], first, [], [], first, first);
      if !(1 <= limit <= 100) {
        return Invalid, b;
      }
      var begun := store.ReserveDispatch(r, organization);
      DispatchIsAStep(world, r, organization);
      Take(origin, StepBeginDispatch(r, organization));
      match begun {
        case Rejected(failure) => return Refused(failure), b;
        case Broken => return Aborted, b;
        case Done(replay) => if replay.Some? { return Answered(replay.value), b; }
      }
      assert Reserved(store.mutations, r.key);
      ghost var reserved, reservedWorld := store.Tables(), world;
      Meanwhile(r.key, []);
      FollowsTransitive(origin, reservedWorld, world);
      ghost var before := store.Tables();
      RelyKeepsReserved(reserved, before, r.key, []);
      var leases, records := ClaimLeased(origin, organization, limit, locked);
      ghost var claimed, claimedWorld := store.Tables(), world;
      var ok, result;
      ghost var trace;
      ok, result, trace := Work(r.key, records, calls, replies);
      FollowsTransitive(origin, claimedWorld, world);
      ghost var counted, countedWorld := store.Tables(), world;
      b := Batch(reserved, before, leases, claimed, records, trace, counted, counted);
      if !ok {
        return Aborted, b;
      }
      ghost var recorded;
      result, recorded := Report(origin, r.key, organization, result, records);
      b := b.(recorded := recorded);
      outcome := Answered(result);
    }

    /** The end of a batch: whether more is due, and the stored result. */
    method Report(ghost origin: World, mine: MutationKey, organization: Name, counted: DispatchResult,
                  records: seq<CommandRecord>) returns (result: DispatchResult, ghost recorded: Database)
      requires Valid() && Follows(origin, world) && HoldsRecords(world, records) && Reserved(store.mutations, mine)
      modifies store, surroundings, this`world
      ensures Valid() && Follows(origin, world)
      ensures result == counted.(hasMore := HasDueCommands(old(store.Tables()), organization))
      ensures Rely(old(store.Tables()), recorded, mine, records)
      ensures CompleteDispatch(recorded, mine, result) == (store.Tables(), Done(()))
    {
      hide Rely, Reachable, Follows, Next, Enabled, HasDueCommands;
      ghost var before, start := store.Tables(), world;
      var more := store.HasDue(organization);
      result := counted.(hasMore := more);
      Meanwhile(mine, records);
      FollowsTransitive(origin, start, world);
      recorded := store.Tables();
      RelyKeepsReserved(before, recorded, mine, records);
      var outcome := store.RecordDispatch(mine, result);
      RecordIsAStep(world, mine, result);
      Take(origin, StepCompleteDispatch(mine, result));
    }

    // ------------------------------------------------------------- the clients

    /** `invite`. */
    method Invite(r: Request, id: Uuid, organization: Name, address: Name, salt: nat)
      returns (answer: InviteAnswer, ghost newId: Uuid)
      requires Valid() && r.operation.Invite?
      modifies store, this`world
      ensures Valid() && Follows(old(world), world)
      ensures Invites(config, r, id, organization, address, salt, old(store.Tables()), newId, store.Tables(), answer)
      ensures answer.InviteAnswered? && answer.handed.Some? ==>
        && id in store.invitations && Shows(answer.outcome.value.view, id, store.invitations[id])
        && NewlyOpen(store.invitations[id], organization, r.actor, old(store.now), config.tokenTtl)
    {
      hide Reachable, Follows, Invites, NewlyOpen;
      ghost var first := store.Tables();
      TablesAreVisited();
      answer, newId := TryInvite(r, id, organization, address, salt);
      if answer.InviteAnswered? && answer.handed.Some? {
        InvitedTokenOpens(config, r, id, organization, address, salt, first, newId, store.Tables(), answer, id);
      }
    }

    method TryInvite(r: Request, id: Uuid, organization: Name, address: Name, salt: nat)
      returns (answer: InviteAnswer, ghost newId: Uuid)
      requires Valid() && r.operation.Invite?
      modifies store, this`world
      ensures Valid() && Follows(old(world), world)
      ensures Invites(config, r, id, organization, address, salt, old(store.Tables()), newId, store.Tables(), answer)
    {
      hide NormalizeEmail, CreateInvitation, Reachable, Follows, Next, Enabled;
      ghost var origin := world;
      FollowsReflexive(world, r.key);
      newId := 0;
      var email := NormalizeEmail(address);
      if email.None? {
        return InviteRefused, newId;
      }
      var tokenHash := Verifier(Derived(id, 1), salt);
      var commandId := store.NewCommandId();
      newId := commandId;
      var outcome := store.Create(r, id, organization, email.value, email.value, tokenHash, config.tokenTtl, commandId);
      InviteIsAStep(world, r, id, organization, email.value, salt, commandId);
      Take(origin, StepInvite(r, id, organization, email.value, salt, commandId));
      var handed := None;
      if outcome.Done? && outcome.value.disclose {
        handed := Some(Derived(outcome.value.view.invitation, outcome.value.generation));
      }
      answer := InviteAnswered(outcome, handed);
    }

    /** `list_invitations`: one row more than the limit is fetched, and cut off again. */
    method ListInvitations(organization: Name, state: Option<InvitationState>, address: Option<Name>,
                           cursor: Option<Cursor>, limit: int)
      returns (answer: Option<(seq<InvitationView>, Option<Cursor>)>)
      ensures answer.None? <==> !(1 <= limit <= 100) || (address.Some? && NormalizeEmail(address.value).None?)
      ensures answer.Some? ==>
        var filter := Filter(organization, state, if address.Some? then NormalizeEmail(address.value) else None);
        var page := PageOf(store.invitations, filter, cursor, limit);
        answer.value.1 == page.next && ViewsOf(store.invitations, page, answer.value.0)
      ensures answer.Some? ==>
        var email := if address.Some? then NormalizeEmail(address.value) else None;
        && PageShows(store.invitations, organization, state, email, limit, answer.value.0, answer.value.1)
        && PageOmits(store.invitations, organization, state, email, cursor, answer.value.0, answer.value.1)
    {
      hide NormalizeEmail, Newest, PageShows, PageOmits;
      if !(1 <= limit <= 100) {
        return None;
      }
      var email := None;
      if address.Some? {
        email := NormalizeEmail(address.value);
        if email.None? {
          return None;
        }
      }
      var filter := Filter(organization, state, email);
      var records := store.SelectInvitations(filter, cursor, limit + 1);
      NewestAreRows(store.invitations, filter, cursor);
      var next := None;
      if |records| > limit {
        records := records[..limit];
        next := Some(Cursor(records[limit - 1].createdAt, records[limit - 1].invitation));
      }
      PageIsShown(store.invitations, filter, cursor, limit, records);
      PageOmitsOthers(store.invitations, filter, cursor, limit, records);
      return Some((records, next));
    }

    /** `revoke`: a first request is refused in the order of its checks, or ends the invitation and its token. */
    method Revoke(r: Request, organization: Name, id: Uuid, expectedRevision: int, reason: Name)
      returns (outcome: Outcome<InvitationView>, ghost newId: Uuid)
      requires Valid() && r.operation.Revoke?
      modifies store, this`world
      ensures Valid() && Follows(old(world), world)
      ensures (store.Tables(), outcome) ==
        old(RevokeInvitation(store.Tables(), r, organization, id, expectedRevision, reason, newId))
      ensures r.key !in old(store.mutations) ==>
        && RefusedInOrder(FailureOf(outcome), old(store.invitations), organization, id, expectedRevision)
        && (outcome.Rejected? ==> store.Tables() == old(store.Tables()))
        && (outcome.Done? ==>
              && id in store.invitations && Shows(outcome.value, id, store.invitations[id])
              && outcome.value.state == Revoked && store.invitations[id].tokenHash == None
              && store.invitations[id].revokeReason == Some(reason))
    {
      hide RevokeInvitation, Reachable, Follows, Next, Enabled, Consistent, RefusedInOrder, Queues, Silences, Logs,
           Settles;
      ghost var origin, first := world, store.Tables();
      TablesAreVisited();
      VisitedIsConsistent(first) by { hide Visited; }
      FollowsReflexive(world, r.key);
      var commandId := store.NewCommandId();
      newId := commandId;
      outcome := store.Revoke(r, organization, id, expectedRevision, reason, commandId);
      RevokeIsAStep(world, r, organization, id, expectedRevision, reason, commandId);
      Take(origin, StepRevoke(r, organization, id, expectedRevision, reason, commandId));
      if r.key !in first.mutations {
        ghost var _, _ := RevokeRefusals(first, r, organization, id, expectedRevision, reason, commandId);
        if outcome.Done? {
          ghost var _, _ := RevokeWrites(first, r, organization, id, expectedRevision, reason, commandId);
        }
      }
    }

    /** `expire_due`: a first request changes exactly the rows it answers with, each of them pending, overdue and
        accepted by nobody, and reports more if and only if such a row is left. */
    method ExpireDue(r: Request, organization: Name, limit: int, locked: set<Uuid>)
      returns (answer: Option<Outcome<ExpireResult>>, ghost newIds: seq<Uuid>)
      requires Valid() && r.operation.ExpireDue?
      modifies store, this`world
      ensures Valid() && Follows(old(world), world)
      ensures answer.None? <==> !(1 <= limit <= 100)
      ensures answer.None? ==> store.Tables() == old(store.Tables())
      ensures answer.Some? ==>
        limit <= |newIds| && (store.Tables(), answer.value) ==
          old(ExpireDueInvitations(store.Tables(), r, organization, limit, locked, newIds))
      ensures answer.Some? && r.key !in old(store.mutations) ==>
        && answer.value.Done? && answer.value.value.expired == |answer.value.value.items| <= limit
        && (forall i | i in old(store.invitations) ::
              && i in store.invitations
              && (store.invitations[i] != old(store.invitations)[i] <==> Reported(answer.value.value.items, i))
              && (Reported(answer.value.value.items, i) ==>
                    Overdue(old(store.invitations)[i], organization, store.now) &&
                    store.invitations[i].state == Expired))
        && (answer.value.value.hasMore <==>
              exists j :: j in store.invitations && Overdue(store.invitations[j], organization, store.now))
    {
      hide ExpireDueInvitations, Reachable, Follows, Next, Enabled, Reported, Overdue, FreshIn;
      ghost var origin, first := world, store.Tables();
      FollowsReflexive(world, r.key);
      newIds := [];
      if !(1 <= limit <= 100) {
        return None, newIds;
      }
      var commandIds := store.NewCommandIds(limit);
      newIds := commandIds;
      var outcome := store.ExpireDue(r, organization, limit, locked, commandIds);
      ExpiryIsAStep(world, r, organization, limit, locked, commandIds);
      Take(origin, StepExpireDue(r, organization, limit, locked, commandIds));
      return Some(outcome), commandIds;
    }

    /** `resend`: a token is handed out with a row, and a view of it, whose deadline is the configured time from its
        transaction; it is the one derived for the generation that row is at. */
    method Resend(r: Request, organization: Name, id: Uuid, expectedRevision: int, salt: nat)
      returns (outcome: Outcome<TokenResult>, handed: Option<Token>, ghost at: Database, ghost newId: Uuid)
      requires Valid() && r.operation.Resend?
      modifies store, surroundings, this`world
      ensures Valid() && Follows(old(world), world)
      ensures Resends(config, r, organization, id, expectedRevision, salt, old(store.Tables()), at, newId,
                      store.Tables(), outcome, handed)
      ensures handed.Some? ==>
        && id in store.invitations && Shows(outcome.value.view, id, store.invitations[id])
        && handed.value == Derived(id, store.invitations[id].tokenGeneration)
        && store.invitations[id].tokenExpiresAt == at.now + config.tokenTtl
    {
      hide Reachable, Follows, Resends;
      ghost var first := store.Tables();
      TablesAreVisited();
      outcome, handed, at, newId := TryResend(r, organization, id, expectedRevision, salt);
      if handed.Some? {
        HandedTokenOpensIff(config, r, organization, id, expectedRevision, salt, first, at, newId, store.Tables(),
                            outcome, handed);
        ResentRowIsOpen(config, r, organization, id, expectedRevision, salt, first, at, newId, store.Tables(), outcome,
                        handed);
      }
    }

    /** The unlocked read, the derivation and the transaction of a resend. */
    method TryResend(r: Request, organization: Name, id: Uuid, expectedRevision: int, salt: nat)
      returns (outcome: Outcome<TokenResult>, handed: Option<Token>, ghost at: Database, ghost newId: Uuid)
      requires Valid() && r.operation.Resend?
      modifies store, surroundings, this`world
      ensures Valid() && Follows(old(world), world)
      ensures Resends(config, r, organization, id, expectedRevision, salt, old(store.Tables()), at, newId,
                      store.Tables(), outcome, handed)
    {
      hide Rely, ResendInvitation, Reachable, Follows, Next, Enabled;
      ghost var origin := world;
      FollowsReflexive(world, r.key);
      at, newId := store.Tables(), 0;
      handed := None;
      var current := store.GetById(id);
      ReadIsAStep(world, id);
      Take(origin, StepRead(id));
      if current.None? || current.value.organization != organization {
        return Rejected(InvitationNotFound), None, at, newId;
      }
      var generation := current.value.tokenGeneration + 1;
      var tokenHash := Verifier(Derived(id, generation), salt);
      ghost var reading := world;
      Meanwhile(r.key, []);
      FollowsTransitive(origin, reading, world);
      at := store.Tables();
      var commandId := store.NewCommandId();
      newId := commandId;
      outcome := store.Resend(r, organization, id, expectedRevision, tokenHash, config.tokenTtl, commandId);
      ResendIsAStep(world, r, organization, expectedRevision, Snapshot(id, current.value), salt, commandId);
      Take(origin, StepResend(r, organization, expectedRevision, Snapshot(id, current.value), salt, commandId));
      if outcome.Done? && outcome.value.disclose {
        handed := Some(Derived(outcome.value.view.invitation, outcome.value.generation));
      }
    }

    /** `execute_acceptance_command`. */
    method ExecuteAcceptance(record: CommandRecord, reply: MemberReply, newId: Uuid) returns (result: AcceptResult)
      requires store.Valid() && newId !in store.commands
      modifies store
      ensures store.Valid()
      ensures (store.Tables(), result) == AcceptanceEnd(old(store.Tables()), config, record, reply, newId)
    {
      hide CompleteAccept;
      match reply {
        case MemberAdded(membershipId, revision) =>
          var outcome := store.CompleteAcceptance(record, membershipId, revision, newId);
          return if outcome.Done? then AcceptDone(outcome.value) else AcceptFailed;
        case MemberConflict => var _ := GiveUpCommand(record, "membership_idempotency_conflict", newId);
        case MemberRejected => var _ := GiveUpCommand(record, "membership_rejected", newId);
        case MemberUnavailable => var _ := ScheduleCommandRetry(record, "membership_unavailable", newId);
      }
      return AcceptFailed;
    }

    /** `accept`: success is reported only for an invitation that is accepted, with exactly its receipt. */
    method Accept(r: Request, id: Uuid, expectedRevision: int, token: Token, call: MemberCall)
      returns (result: AcceptResult, ghost t: AcceptTrace)
      requires Valid() && r.operation.Accept?
      modifies store, surroundings, this`world
      ensures Valid() && Follows(old(world), world)
      ensures Answers(config, r, id, expectedRevision, token, old(store.Tables()), t, store.Tables(), result)
      ensures result.AcceptDone? ==> AcceptedBy(result.record, r.actor, store.invitations)
    {
      hide Reachable, Follows, Accepts;
      ghost var first := store.Tables();
      TablesAreVisited();
      result, t := TryAccept(r, id, expectedRevision, token, call);
      if result.AcceptDone? {
        SuccessIsTheReceipt(config, r, id, expectedRevision, token, first, t, store.Tables(), result);
      }
    }

    /** The reads, the transaction and the completion of `accept`. */
    method TryAccept(r: Request, id: Uuid, expectedRevision: int, token: Token, call: MemberCall)
      returns (result: AcceptResult, ghost t: AcceptTrace)
      requires Valid() && r.operation.Accept?
      modifies store, surroundings, this`world
      ensures Valid() && Follows(old(world), world)
      ensures Answers(config, r, id, expectedRevision, token, old(store.Tables()), t, store.Tables(), result)
    {
      hide Rely, BeginAccept, AcceptanceEnd, Reachable, Follows, Next, Enabled, LeasesDrawn;
      ghost var origin, first := world, store.Tables();
      FollowsReflexive(world, r.key);
      t := AcceptTrace(first, first, 0, 0, first, Broken, MemberUnavailable, first, 0);
      var replay := store.LookupAcceptReplay(r);
      match replay {
        case Rejected(failure) => return AcceptRefused(failure), t;
        case Broken => return AcceptFailed, t;
        case Done(known) =>
          if known.Some? {
            return if known.value.AcceptReplay?
                   then AcceptDone(known.value.record)
                   else AcceptRefused(AcceptanceInProgress), t;
          }
      }
      Meanwhile(r.key, []);
      t := t.(read := store.Tables());
      var row := store.GetById(id);
      ReadIsAStep(world, id);
      Take(origin, StepRead(id));
      if row.None? {
        return AcceptRefused(InvitationNotFound), t;
      }
      if !row.value.state.Pending? {
        return AcceptRefused(InvalidTransition), t;
      }
      if row.value.tokenHash.None? || !Verifies(token, row.value.tokenHash.value) {
        return AcceptRefused(TokenInvalid), t;
      }
      ghost var reading := world;
      Meanwhile(r.key, []);
      FollowsTransitive(origin, reading, world);
      t := t.(at := store.Tables());
      var newId, lease, start := OpenAcceptance(origin, r, id, expectedRevision, token, row.value);
      t := t.(newId := newId, lease := lease, begun := store.Tables(), start := start);
      match start {
        case Rejected(failure) => return AcceptRefused(failure), t;
        case Broken => return AcceptFailed, t;
        case Done(AcceptReplay(record)) => return AcceptDone(record), t;
        case Done(InProgress) => return AcceptRefused(AcceptanceInProgress), t;
        case Done(Execute(record)) =>
          var reply, laterId;
          ghost var called;
          result, reply, called, laterId := ConcludeAcceptance(origin, r.key, record, call);
          t := t.(reply := reply, called := called, laterId := laterId);
      }
    }

    /** The transaction of `accept`. */
    method OpenAcceptance(ghost origin: World, r: Request, id: Uuid, expectedRevision: int, token: Token,
                          row: Invitation)
      returns (newId: Uuid, lease: Uuid, start: Outcome<AcceptStart>)
      requires Valid() && Follows(origin, world) && r.operation.Accept? && Snapshot(id, row) in world.snapshots
      requires row.state.Pending? && row.tokenHash.Some? && Verifies(token, row.tokenHash.value)
      modifies store, surroundings, this`world
      ensures Valid() && Follows(origin, world) && newId !in old(store.commands)
      ensures (store.Tables(), start) == old(BeginAccept(store.Tables(), r, id, expectedRevision, row.tokenGeneration,
                                                         row.tokenHash.value,
                                                         config.leaseSeconds, newId, lease))
      ensures start.Done? && start.value.Execute? ==>
        HoldsRecord(world, start.value.claimed) && start.value.claimed.kind.AddMember?
    {
      hide BeginAccept, Reachable, Follows, Next, Enabled;
      newId := store.NewCommandId();
      lease := surroundings.DrawLease();
      start := store.StartAcceptance(r, id, expectedRevision, row.tokenGeneration, row.tokenHash.value,
                                     config.leaseSeconds, newId, lease);
      AcceptIsAStep(world, r, expectedRevision, token, Snapshot(id, row), newId, lease);
      Take(origin, StepBeginAccept(r, expectedRevision, token, Snapshot(id, row), newId, lease));
    }

    /** The provider call of a started acceptance and the transaction after its reply. */
    method ConcludeAcceptance(ghost origin: World, mine: MutationKey, record: CommandRecord, call: MemberCall)
      returns (result: AcceptResult, reply: MemberReply, ghost called: Database, laterId: Uuid)
      requires Valid() && Follows(origin, world) && HoldsRecord(world, record) && record.kind.AddMember?
      modifies store, surroundings, this`world
      ensures Valid() && Follows(origin, world)
      ensures Rely(old(store.Tables()), called, mine, [record]) && laterId !in called.commands
      ensures (store.Tables(), result) == AcceptanceEnd(called, config, record, reply, laterId)
    {
      hide Rely, AcceptanceEnd, Carry, Reachable, Follows, Next, Enabled, LeasesDrawn;
      ghost var begun, beginning := store.Tables(), world;
      Meanwhile(mine, [record]);
      FollowsTransitive(origin, beginning, world);
      assert HoldsRecord(world, [record][0]);
      reply := CallMembership(origin, record, call);
      ghost var between, calling := store.Tables(), world;
      Meanwhile(mine, [record]);
      FollowsTransitive(origin, calling, world);
      RelyTransitive(begun, between, store.Tables(), mine, [record]);
      called := store.Tables();
      laterId := store.NewCommandId();
      result := ExecuteAcceptance(record, reply, laterId);
      EndIsADecision(called, config, record, reply, laterId);
      assert HoldsRecord(world, [record][0]);
      TakeDecision(origin, record, DecideMember(reply), laterId);
    }
  }
}
