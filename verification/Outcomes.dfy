/** What one execution of a claimed command comes to, read off the row it was matched against, the replies it got and
    the tables it left. */
module Outcomes {
  import opened Schema
  import opened Storage
  import opened Consistency
  import opened Outbox
  import opened Protocol
  import opened Backoff
  import opened Writes
  import opened Worker
  import opened Dispatch

  /** The row an execution read wants its command: a notification of the generation a pending invitation is at, the
      notice of the state an invitation has reached, the membership of whoever is accepting a pending invitation. */
  predicate WantedWhenRead(e: Execution) {
    e.record.invitation in e.read.invitations &&
    var row := e.read.invitations[e.record.invitation];
    match e.record.kind
    case NotifyInvitation(generation) =>
      row.state == Pending && row.tokenHash.Some? && row.tokenGeneration == generation
    case NotifyLifecycle(lifecycle) => row.state == lifecycle
    case AddMember(subject) => row.state == Pending && row.acceptanceSubject == Some(subject)
  }

  /** The transaction of the execution found its command in flight under the lease of its claim. */
  predicate LeasedThen(e: Execution) {
    e.record.command in e.at.commands &&
    var command := e.at.commands[e.record.command];
    command.state == InFlight && command.lease.Some? && command.lease.value.token == e.record.lease
  }

  // -------------------------------------------------- what is left of the command

  /** The command is settled in this state. */
  predicate LeftSettled(e: Execution, state: CommandState, receipt: Option<Receipt>, error: Option<Name>) {
    e.record.command in e.at.commands && e.record.command in e.done.commands &&
    e.done.commands[e.record.command] == e.at.commands[e.record.command].(
      state := state, receipt := receipt, lastError := error, lease := None, updatedAt := e.at.now,
      completedAt := Some(e.at.now))
  }

  predicate LeftCompleted(e: Execution, receipt: Receipt) {
    LeftSettled(e, Completed, Some(receipt), None)
  }

  predicate LeftFailed(e: Execution, error: Name) {
    LeftSettled(e, Failed, None, Some(error))
  }

  /** The command waits for its next attempt, with its attempts so far. */
  predicate LeftWaiting(config: Config, e: Execution, error: Name) {
    e.record.command in e.at.commands && e.record.command in e.done.commands &&
    e.done.commands[e.record.command] == e.at.commands[e.record.command].(
      state := Waiting, availableAt := e.at.now + Delay(config.retryBase, e.record.attempts), lease := None,
      lastError := Some(error), updatedAt := e.at.now)
  }

  predicate LeftSuperseded(e: Execution) {
    e.record.command in e.at.commands && e.record.command in e.done.commands &&
    e.done.commands[e.record.command] == e.at.commands[e.record.command].(
      state := Superseded, lease := None, updatedAt := e.at.now, completedAt := Some(e.at.now))
  }

  /** The command is left in this state. */
  predicate Left(e: Execution, state: CommandState) {
    e.record.command in e.done.commands && e.done.commands[e.record.command].state == state
  }

  /** The counter an execution goes to is the one its command's state calls for. */
  predicate Counts(e: Execution, disposition: Disposition) {
    e.record.command in e.done.commands &&
    var state := e.done.commands[e.record.command].state;
    && (disposition == CommandCompleted <==> state == Completed || state == Superseded)
    && (disposition == RetryScheduled <==> state == Waiting)
    && (disposition == PermanentFailure <==> state == Failed)
  }

  lemma CountedByState(config: Config, e: Execution)
    requires Executed(config, e)
    ensures Counts(e, DispositionOf(DecisionIn(config, e)))
  {
    hide Carry, Decide, MatchedRow, Delay, Fenced;
    CarrySettles(e.at, config, e.record, DecisionIn(config, e), e.newId);
  }

  /** What is left of a leased command tells the decision. */
  lemma LeftAsDecided(config: Config, e: Execution)
    requires Executed(config, e) && LeasedThen(e)
    ensures var decision := DecisionIn(config, e);
      && (LeftSuperseded(e) <==> decision.Discard?)
      && (forall error :: LeftFailed(e, error) <==> decision == GiveUp(error))
      && (forall error :: LeftWaiting(config, e, error) <==> decision == Later(error))
      && (forall receipt :: LeftCompleted(e, receipt) <==> decision == Finish(receipt))
  {
    hide Carry, Decide, MatchedRow, Delay;
    CarrySettles(e.at, config, e.record, DecisionIn(config, e), e.newId);
  }

  /** ... and so does its state. */
  lemma LeftStates(config: Config, e: Execution)
    requires Executed(config, e) && LeasedThen(e)
    ensures var decision := DecisionIn(config, e);
      && (Left(e, Superseded) <==> decision.Discard?) && (Left(e, Failed) <==> decision.GiveUp?)
      && (Left(e, Waiting) <==> decision.Later?) && (Left(e, Completed) <==> decision.Finish?)
  {
    hide Carry, Decide, MatchedRow, Delay;
    CarrySettles(e.at, config, e.record, DecisionIn(config, e), e.newId);
  }

  // -------------------------------------------------------------- notifications

  /** The call to the notification provider was made: the organization is active, the token derives and is the one the
      row stores, and the link is valid. */
  predicate NoticeSent(e: Execution)
    requires e.record.kind.NotifyInvitation? && WantedWhenRead(e)
  {
    e.replies.directory == DirectoryActive && e.replies.derivable && e.replies.urlValid && TokenFits(e)
  }

  predicate TokenFits(e: Execution)
    requires e.record.kind.NotifyInvitation? && WantedWhenRead(e)
  {
    e.read.invitations[e.record.invitation].tokenHash.value.token ==
      Derived(e.record.invitation, e.record.kind.generation)
  }

  /** The conclusions of a notification, by what the directory, the token, the link and the provider came to. */
  predicate NoticeConcluded(config: Config, e: Execution)
    requires e.record.kind.NotifyInvitation? && WantedWhenRead(e)
  {
    var directory, notice := e.replies.directory, e.replies.notice;
    var active := directory == DirectoryActive;
    var exhausted := e.record.attempts >= config.maxAttempts;
    && (directory == DirectoryInactive ==> LeftFailed(e, "organization_inactive"))
    && (directory == DirectoryRejected ==> LeftFailed(e, "organization_directory_rejected"))
    && (directory == DirectoryUnavailable ==> LeftWaiting(config, e, "organization_directory_unavailable"))
    && (directory == DirectoryUnknown ==>
          if exhausted then LeftFailed(e, "organization_directory_unknown")
          else LeftWaiting(config, e, "organization_directory_unknown"))
    && (active && !e.replies.derivable ==> LeftFailed(e, "token_derivation_failed"))
    && (active && e.replies.derivable && !TokenFits(e) ==> LeftFailed(e, "token_derivation_mismatch"))
    && (active && e.replies.derivable && TokenFits(e) && !e.replies.urlValid ==>
          LeftFailed(e, "invalid_invitation_url"))
    && (NoticeSent(e) && notice.NoticeCreated? ==>
          LeftCompleted(e, NotificationReceipt(intentId := notice.intentId, deliveryId := notice.deliveryId)))
    && (NoticeSent(e) && notice == NoticeConflict ==> LeftFailed(e, "notification_idempotency_conflict"))
    && (NoticeSent(e) && notice == NoticeRejected ==> LeftFailed(e, "notification_rejected"))
    && (NoticeSent(e) && notice == NoticeUnavailable ==> LeftWaiting(config, e, "notification_unavailable"))
    && (NoticeSent(e) && notice == NoticeUnknown ==>
          if exhausted then LeftFailed(e, "notification_unknown") else LeftWaiting(config, e, "notification_unknown"))
  }

  /** It is completed if and only if it was sent and created, it waits again if and only if a provider was unreachable
      or left the outcome open below the attempt limit, and everything else fails it. */
  predicate NoticeSettled(config: Config, e: Execution)
    requires e.record.kind.NotifyInvitation? && WantedWhenRead(e)
  {
    var directory, notice := e.replies.directory, e.replies.notice;
    var exhausted := e.record.attempts >= config.maxAttempts;
    var again := directory == DirectoryUnavailable || (directory == DirectoryUnknown && !exhausted) ||
                 (NoticeSent(e) && (notice == NoticeUnavailable || (notice == NoticeUnknown && !exhausted)));
    && (Left(e, Completed) <==> NoticeSent(e) && notice.NoticeCreated?)
    && (Left(e, Waiting) <==> again)
    && (Left(e, Failed) <==> !again && !(NoticeSent(e) && notice.NoticeCreated?))
  }

  /** The tables after a notification: but for the command only the delivery columns of the invitation have moved, if
      it is pending at that generation: queued with the ids the provider gave, or failed. */
  predicate DeliveryFollows(e: Execution)
    requires e.record.kind.NotifyInvitation? && e.record.command in e.done.commands
  {
    var id, before, command := e.record.invitation, e.at.invitations, e.done.commands[e.record.command];
    var current := id in before && before[id].state == Pending &&
                   before[id].tokenGeneration == e.record.kind.generation;
    && OnlyCommandMoved(e, e.done.invitations)
    && (!current || command.state == Waiting || command.state == Superseded ==> e.done.invitations == before)
    && (current && command.state == Failed ==>
          e.done.invitations == before[id := before[id].(delivery := DeliveryFailed, updatedAt := e.at.now)])
    && (current && command.state == Completed ==>
          && command.receipt.Some? && command.receipt.value.NotificationReceipt?
          && e.done.invitations == before[id := before[id].(
               delivery := DeliveryQueued, intentId := Some(command.receipt.value.intentId),
               deliveryId := Some(command.receipt.value.deliveryId), updatedAt := e.at.now)])
  }

  /** One command has moved, and these rows; nothing else. */
  predicate OnlyCommandMoved(e: Execution, invitations: Invitations)
    requires e.record.command in e.done.commands
  {
    e.done == e.at.(invitations := invitations,
                    commands := e.at.commands[e.record.command := e.done.commands[e.record.command]])
  }

  /** A notification the row wanted: which replies complete it, fail it and schedule it again, with which code. */
  lemma NoticeOutcomes(config: Config, e: Execution)
    requires e.record.kind.NotifyInvitation? && WantedWhenRead(e)
    requires Executed(config, e) && LeasedThen(e)
    ensures NoticeConcluded(config, e) && NoticeSettled(config, e)
  {
    hide Carry, Executed, LeftSettled, LeftWaiting, LeftSuperseded;
    LeftAsDecided(config, e);
    LeftStates(config, e);
  }

  lemma NoticeDelivery(config: Config, e: Execution)
    requires e.record.kind.NotifyInvitation? && Executed(config, e) && LeasedThen(e)
    ensures e.record.command in e.done.commands && DeliveryFollows(e)
  {
    hide Delay, Decide, MatchedRow;
    DecisionsSuit(config, e.record, MatchedRow(e.read, e.record), e.replies);
  }

  // ------------------------------------------------------------------ lifecycle

  /** The row tells when it reached the state. */
  predicate Dated(row: Invitation, lifecycle: InvitationState) {
    (lifecycle == Accepted && row.acceptedAt.Some?) || (lifecycle == Revoked && row.revokedAt.Some?) ||
    (lifecycle == Expired && row.expiredAt.Some?)
  }

  /** The conclusions of a lifecycle notice, by what the observer answered. */
  predicate ObservationConcluded(config: Config, e: Execution)
    requires e.record.kind.NotifyLifecycle? && WantedWhenRead(e)
  {
    var reply, lifecycle := e.replies.observer, e.record.kind.lifecycle;
    var dated := Dated(e.read.invitations[e.record.invitation], lifecycle);
    var exhausted := e.record.attempts >= config.maxAttempts;
    && (lifecycle == Pending ==> LeftFailed(e, "invalid_lifecycle"))
    && (lifecycle != Pending && !dated ==> LeftFailed(e, "missing_lifecycle_timestamp"))
    && (dated && reply.Observed? ==> LeftCompleted(e, LifecycleReceipt(recorded := reply.recorded)))
    && (dated && reply == ObserverConflict ==> LeftFailed(e, "notification_observation_conflict"))
    && (dated && reply == ObserverRejected ==> LeftFailed(e, "notification_rejected"))
    && (dated && reply == ObserverUnavailable ==> LeftWaiting(config, e, "notification_unavailable"))
    && (dated && reply == ObserverUnknown ==>
          if exhausted then LeftFailed(e, "notification_unknown") else LeftWaiting(config, e, "notification_unknown"))
  }

  predicate ObservationSettled(config: Config, e: Execution)
    requires e.record.kind.NotifyLifecycle? && WantedWhenRead(e)
  {
    var reply := e.replies.observer;
    var dated := Dated(e.read.invitations[e.record.invitation], e.record.kind.lifecycle);
    var again := dated && (reply == ObserverUnavailable ||
                           (reply == ObserverUnknown && e.record.attempts < config.maxAttempts));
    && (Left(e, Completed) <==> dated && reply.Observed?)
    && (Left(e, Waiting) <==> again)
    && (Left(e, Failed) <==> !again && !(dated && reply.Observed?))
  }

  /** A lifecycle notice the row wanted; nothing but its command moves. */
  lemma ObservationOutcomes(config: Config, e: Execution)
    requires e.record.kind.NotifyLifecycle? && WantedWhenRead(e)
    requires Executed(config, e) && LeasedThen(e)
    ensures ObservationConcluded(config, e) && ObservationSettled(config, e)
    ensures e.record.command in e.done.commands && OnlyCommandMoved(e, e.at.invitations)
  {
    hide Carry, Executed, LeftSettled, LeftWaiting, LeftSuperseded;
    LeftAsDecided(config, e);
    LeftStates(config, e);
    ObservationMoves(config, e);
  }

  lemma ObservationMoves(config: Config, e: Execution)
    requires e.record.kind.NotifyLifecycle? && Executed(config, e) && LeasedThen(e)
    ensures e.record.command in e.done.commands && OnlyCommandMoved(e, e.at.invitations)
  {
    hide Delay, Decide, MatchedRow;
    DecisionsSuit(config, e.record, MatchedRow(e.read, e.record), e.replies);
  }

  // ----------------------------------------------------------------- membership

  /** The conclusions of a membership command, by what the provider answered. */
  predicate MembershipConcluded(config: Config, e: Execution) {
    var reply := e.replies.member;
    && (reply.MemberAdded? ==>
          LeftCompleted(e, MembershipReceipt(membershipId := reply.membershipId, revision := reply.revision)))
    && (reply == MemberConflict ==> LeftFailed(e, "membership_idempotency_conflict"))
    && (reply == MemberRejected ==> LeftFailed(e, "membership_rejected"))
    && (reply == MemberUnavailable ==> LeftWaiting(config, e, "membership_unavailable"))
    && (Left(e, Completed) <==> reply.MemberAdded?)
    && (Left(e, Waiting) <==> reply == MemberUnavailable)
    && (Left(e, Failed) <==> reply == MemberConflict || reply == MemberRejected)
  }

  /** A membership command the row wanted. */
  lemma MembershipOutcomes(config: Config, e: Execution)
    requires e.record.kind.AddMember? && WantedWhenRead(e)
    requires Executed(config, e) && LeasedThen(e)
    ensures MembershipConcluded(config, e)
  {
    hide Carry, Executed, LeftSettled, LeftWaiting, LeftSuperseded;
    LeftAsDecided(config, e);
    LeftStates(config, e);
  }

  /** The invitation after its membership command: accepted with the provider's membership, expired and its request
      released, or as it was. */
  predicate AcceptanceFollows(e: Execution)
    requires e.record.command in e.done.commands && e.record.kind.AddMember?
  {
    var id, command := e.record.invitation, e.done.commands[e.record.command];
    var before, after := e.at.invitations, e.done.invitations;
    && id in before && before[id].state == Pending
    && (command.state == Waiting ==> OnlyCommandMoved(e, before))
    && (command.state == Completed ==>
          && command.receipt.Some? && command.receipt.value.MembershipReceipt?
          && after == before[id := before[id].(
               state := Accepted, membershipId := Some(command.receipt.value.membershipId),
               revision := before[id].revision + 1, acceptedAt := Some(e.at.now), updatedAt := e.at.now)]
          && Logs(e.at.activity, e.done.activity, before[id].organization, id, InvitationAccepted,
                  e.record.kind.subject, before[id].revision + 1, e.at.now))
    && (command.state == Failed ==>
          && after == before[id := before[id].(
               state := Expired, tokenHash := None, revision := before[id].revision + 1,
               delivery := if before[id].delivery == DeliveryPending then DeliverySuperseded else before[id].delivery,
               expiredAt := Some(e.at.now), updatedAt := e.at.now)]
          && Logs(e.at.activity, e.done.activity, before[id].organization, id, AcceptanceFailed,
                  "system:membership-failure", before[id].revision + 1, e.at.now)
          && (forall k | k in e.at.mutations ::
                if e.at.mutations[k].command == Some(e.record.command) && e.at.mutations[k].operation == Accept &&
                   e.at.mutations[k].status == Started
                then k !in e.done.mutations
                else k in e.done.mutations && e.done.mutations[k] == e.at.mutations[k]))
  }

  lemma AcceptanceRows(config: Config, e: Execution)
    requires e.record.kind.AddMember? && WantedWhenRead(e) && Executed(config, e) && LeasedThen(e)
    requires Consistent(e.at) && Held(e.at.commands, e.record)
    ensures e.record.command in e.done.commands && AcceptanceFollows(e)
  {
    hide Consistent, Delay, CompleteAccept, FailCommand;
    MembershipWaits(e.at, e.record);
    LeftStates(config, e) by { hide Carry; }
    LeftAsDecided(config, e) by { hide Carry; }
    match e.replies.member
    case MemberAdded(membershipId, revision) =>
      var _, _ := CompletionWrites(e.at, e.record, membershipId, revision, e.newId);
    case MemberUnavailable =>
    case MemberConflict => RejectionWrites(e.at, e.record, "membership_idempotency_conflict", e.newId);
    case MemberRejected => RejectionWrites(e.at, e.record, "membership_rejected", e.newId);
  }

  lemma MembershipWaits(db: Database, record: CommandRecord)
    requires Consistent(db) && Held(db.commands, record) && record.kind.AddMember? && Fenced(db.commands, record)
    ensures record.invitation in db.invitations && db.invitations[record.invitation].state == Pending
    ensures Matches(record.kind, db.invitations[record.invitation])
  {
    hide RecordsOk, LedgerOk;
    CommandIsOk(db, record.command);
  }

  /** A rejected membership expires the invitation and releases the request that started it. */
  lemma RejectionWrites(db: Database, record: CommandRecord, error: Name, newId: Uuid)
    requires record.kind.AddMember? && Fenced(db.commands, record) && record.invitation in db.invitations
    requires Matches(record.kind, db.invitations[record.invitation])
    ensures var (db', outcome) := FailCommand(db, record, error, newId);
      var row := db.invitations[record.invitation];
      && outcome.Done?
      && db'.invitations == db.invitations[record.invitation := row.(
           state := Expired, tokenHash := None, revision := row.revision + 1,
           delivery := if row.delivery == DeliveryPending then DeliverySuperseded else row.delivery,
           expiredAt := Some(db.now), updatedAt := db.now)]
      && Logs(db.activity, db'.activity, row.organization, record.invitation, AcceptanceFailed,
              "system:membership-failure", row.revision + 1, db.now)
      && (forall k | k in db.mutations ::
            if db.mutations[k].command == Some(record.command) && db.mutations[k].operation == Accept &&
               db.mutations[k].status == Started
            then k !in db'.mutations
            else k in db'.mutations && db'.mutations[k] == db.mutations[k])
  {
    hide InsertCommand, HasKey, SupersedeNotifications;
  }

  // ------------------------------------------------------------------- unwanted

  /** A command its row did not want is superseded, and nothing else happens. */
  lemma UnwantedIsDiscarded(config: Config, e: Execution)
    requires !WantedWhenRead(e) && Executed(config, e) && LeasedThen(e)
    ensures LeftSuperseded(e) && OnlyCommandMoved(e, e.at.invitations)
  {
    hide Delay;
  }

  // ----------------------------------------------------------------- the whole

  /** What an execution that committed has come to. Only a membership somebody else has completed meanwhile is answered
      without the lease, and changes nothing. */
  predicate Concluded(config: Config, e: Execution, disposition: Disposition) {
    && Counts(e, disposition)
    && (!LeasedThen(e) ==> Left(e, Completed) && e.done == e.at && e.record.kind.AddMember?)
    && (LeasedThen(e) && !WantedWhenRead(e) ==> LeftSuperseded(e) && OnlyCommandMoved(e, e.at.invitations))
    && (LeasedThen(e) && WantedWhenRead(e) ==>
          match e.record.kind
          case NotifyInvitation(_) => NoticeConcluded(config, e) && NoticeSettled(config, e) && DeliveryFollows(e)
          case NotifyLifecycle(_) =>
            ObservationConcluded(config, e) && ObservationSettled(config, e) && OnlyCommandMoved(e, e.at.invitations)
          case AddMember(_) => MembershipConcluded(config, e) && AcceptanceFollows(e))
  }

  /** Without the lease only a completed acceptance commits. */
  lemma LeaseIsNeeded(config: Config, e: Execution)
    requires Executed(config, e) && !LeasedThen(e)
    ensures e.record.kind.AddMember? && Left(e, Completed) && e.done == e.at
  {
    hide Delay, Decide, MatchedRow, AcceptanceCompleted;
    DecisionsSuit(config, e.record, MatchedRow(e.read, e.record), e.replies);
  }

  /** Every execution that commits on a reachable schema concludes so. */
  lemma ExecutionConcludes(config: Config, e: Execution)
    requires Executed(config, e) && Consistent(e.at) && Held(e.at.commands, e.record)
    ensures Concluded(config, e, DispositionOf(DecisionIn(config, e)))
  {
    hide Consistent, Executed, Held, WantedWhenRead, LeasedThen, Counts, NoticeConcluded, NoticeSettled,
         DeliveryFollows, ObservationConcluded, ObservationSettled, MembershipConcluded, AcceptanceFollows,
         LeftSuperseded, OnlyCommandMoved, DispositionOf, DecisionIn, Left;
    CountedByState(config, e);
    if !LeasedThen(e) {
      LeaseIsNeeded(config, e);
    } else if !WantedWhenRead(e) {
      UnwantedIsDiscarded(config, e);
    } else {
      match e.record.kind
      case NotifyInvitation(_) =>
        NoticeOutcomes(config, e);
        NoticeDelivery(config, e);
      case NotifyLifecycle(_) => ObservationOutcomes(config, e);
      case AddMember(_) =>
        MembershipOutcomes(config, e);
        AcceptanceRows(config, e);
    }
  }

  /** With the lease every execution commits. */
  lemma LeaseSuffices(config: Config, e: Execution)
    requires LeasedThen(e) && Consistent(e.at) && Held(e.at.commands, e.record)
    ensures Carry(e.at, config, e.record, DecisionIn(config, e), e.newId).1
  {
    hide Consistent, Delay, Decide, MatchedRow, AcceptanceCompleted, MembershipFailed;
    DecisionsSuit(config, e.record, MatchedRow(e.read, e.record), e.replies);
    if e.record.kind.AddMember? { MembershipWaits(e.at, e.record); }
  }

  lemma Conclusion(config: Config, e: Execution, committed: bool)
    requires e.newId !in e.at.commands && Consistent(e.at) && Held(e.at.commands, e.record)
    requires Carry(e.at, config, e.record, DecisionIn(config, e), e.newId) == (e.done, committed)
    ensures committed ==> Concluded(config, e, DispositionOf(DecisionIn(config, e)))
    ensures !committed ==> !LeasedThen(e) && e.done == e.at
  {
    hide Consistent, Held, Carry, LeasedThen, DecisionIn, Concluded;
    if committed {
      ExecutionConcludes(config, e);
    } else {
      if LeasedThen(e) { LeaseSuffices(config, e); }
      UncommittedChangesNothing(e.at, config, e.record, DecisionIn(config, e), e.newId);
    }
  }

  // ------------------------------------------------------------------ a batch

  /** The executions that left their command in one of these states. */
  function LeftIn(trace: seq<Execution>, states: set<CommandState>): set<nat> {
    set n: nat | n < |trace| && trace[n].record.command in trace[n].done.commands &&
                 trace[n].done.commands[trace[n].record.command].state in states
  }

  /** The counters of a batch: how many executions left their command in which state. */
  predicate Counted(result: DispatchResult, trace: seq<Execution>) {
    && result.processed == |trace|
    && result.completed == |LeftIn(trace, {Completed, Superseded})|
    && result.retryScheduled == |LeftIn(trace, {Waiting})|
    && result.permanentFailed == |LeftIn(trace, {Failed})|
  }

  lemma LeftInGrows(trace: seq<Execution>, states: set<CommandState>)
    requires trace != []
    ensures var last := trace[|trace| - 1];
      |LeftIn(trace, states)| == |LeftIn(trace[..|trace| - 1], states)| +
        if last.record.command in last.done.commands && last.done.commands[last.record.command].state in states
        then 1 else 0
  {
    var n := |trace| - 1;
    var rest := LeftIn(trace[..n], states);
    assert LeftIn(trace, states) == if n in LeftIn(trace, states) then rest + {n} else rest;
  }

  lemma {:induction false} TallyByState(config: Config, trace: seq<Execution>, hasMore: bool)
    requires forall n | 0 <= n < |trace| :: Executed(config, trace[n])
    ensures Counted(Tally(config, trace, hasMore), trace)
  {
    hide Executed, DecisionIn, DispositionOf;
    if trace != [] {
      hide LeftIn;
      TallyByState(config, trace[..|trace| - 1], hasMore);
      CountedByState(config, trace[|trace| - 1]);
      LeftInGrows(trace, {Completed, Superseded});
      LeftInGrows(trace, {Waiting});
      LeftInGrows(trace, {Failed});
    }
  }
}
