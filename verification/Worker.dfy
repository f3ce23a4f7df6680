/** What a worker does with one command it has claimed: the decision it takes from the row it read and the
    replies it got, the one transaction that decision runs, and what that transaction leaves behind. */
module Worker {
  import opened Schema
  import opened Storage
  import opened Consistency
  import opened Outbox
  import opened Evolution
  import opened Protocol
  import opened Backoff
  import opened Tokens
  import opened Safety

  // ------------------------------------------------------------------ replies

  datatype MemberReply =
    | MemberAdded(membershipId: Name, revision: Name)
    | MemberConflict | MemberRejected | MemberUnavailable

  datatype DirectoryReply =
    | DirectoryActive | DirectoryInactive | DirectoryUnknown | DirectoryRejected | DirectoryUnavailable

  datatype NoticeReply =
    | NoticeCreated(intentId: Name, deliveryId: Name)
    | NoticeConflict | NoticeUnknown | NoticeRejected | NoticeUnavailable

  datatype ObserverReply =
    | Observed(recorded: bool)
    | ObserverConflict | ObserverUnknown | ObserverRejected | ObserverUnavailable

  /** What the providers would answer to the calls for one command, and whether the token and the link can be made. */
  datatype Replies = Replies(
    member: MemberReply, directory: DirectoryReply, notice: NoticeReply, observer: ObserverReply,
    derivable: bool, urlValid: bool)

  datatype Disposition = CommandCompleted | RetryScheduled | PermanentFailure

  // ---------------------------------------------------------------- decisions

  /** The transaction a worker ends with. */
  datatype Decision = Discard | Finish(receipt: Receipt) | Later(error: Name) | GiveUp(error: Name)

  function DispositionOf(decision: Decision): Disposition {
    match decision
    case Discard => CommandCompleted
    case Finish(_) => CommandCompleted
    case Later(_) => RetryScheduled
    case GiveUp(_) => PermanentFailure
  }

  /** `retry_or_fail_command`: only unknown outcomes are bounded by the attempts. */
  function RetryOrFail(config: Config, attempts: int, error: Name): Decision {
    if attempts >= config.maxAttempts then GiveUp(error) else Later(error)
  }

  /** When the row reached a lifecycle state. */
  function ObservedAt(row: Invitation, lifecycle: InvitationState): Option<Time> {
    match lifecycle
    case Accepted => row.acceptedAt
    case Revoked => row.revokedAt
    case Expired => row.expiredAt
    case Pending => None
  }

  function DecideMember(reply: MemberReply): Decision {
    match reply
    case MemberAdded(membershipId, revision) => Finish(MembershipReceipt(membershipId, revision))
    case MemberConflict => GiveUp("membership_idempotency_conflict")
    case MemberRejected => GiveUp("membership_rejected")
    case MemberUnavailable => Later("membership_unavailable")
  }

  function DecideNotice(config: Config, record: CommandRecord, row: Invitation, replies: Replies): Decision
    requires record.kind.NotifyInvitation?
  {
    match replies.directory
    case DirectoryInactive => GiveUp("organization_inactive")
    case DirectoryUnknown => RetryOrFail(config, record.attempts, "organization_directory_unknown")
    case DirectoryRejected => GiveUp("organization_directory_rejected")
    case DirectoryUnavailable => Later("organization_directory_unavailable")
    case DirectoryActive =>
      if !replies.derivable then GiveUp("token_derivation_failed")
      else if row.tokenHash.None? then Discard
      else if !Verifies(Derived(record.invitation, record.kind.generation), row.tokenHash.value) then
        GiveUp("token_derivation_mismatch")
      else if !replies.urlValid then GiveUp("invalid_invitation_url")
      else
        match replies.notice
        case NoticeCreated(intentId, deliveryId) => Finish(NotificationReceipt(intentId, deliveryId))
        case NoticeConflict => GiveUp("notification_idempotency_conflict")
        case NoticeUnknown => RetryOrFail(config, record.attempts, "notification_unknown")
        case NoticeRejected => GiveUp("notification_rejected")
        case NoticeUnavailable => Later("notification_unavailable")
  }

  function DecideObserver(config: Config, record: CommandRecord, row: Invitation, replies: Replies): Decision
    requires record.kind.NotifyLifecycle?
  {
    if record.kind.lifecycle.Pending? then GiveUp("invalid_lifecycle")
    else if ObservedAt(row, record.kind.lifecycle).None? then GiveUp("missing_lifecycle_timestamp")
    else
      match replies.observer
      case Observed(recorded) => Finish(LifecycleReceipt(recorded))
      case ObserverConflict => GiveUp("notification_observation_conflict")
      case ObserverUnknown => RetryOrFail(config, record.attempts, "notification_unknown")
      case ObserverRejected => GiveUp("notification_rejected")
      case ObserverUnavailable => Later("notification_unavailable")
  }

  /** The row `command_matches_invitation` returns. */
  function MatchedRow(db: Database, record: CommandRecord): Option<Invitation> {
    if record.invitation in db.invitations && Matches(record.kind, db.invitations[record.invitation])
    then Some(db.invitations[record.invitation]) else None
  }

  function Decide(config: Config, record: CommandRecord, row: Option<Invitation>, replies: Replies): Decision {
    if row.None? then Discard
    else
      match record.kind
      case AddMember(_) => DecideMember(replies.member)
      case NotifyInvitation(_) => DecideNotice(config, record, row.value, replies)
      case NotifyLifecycle(_) => DecideObserver(config, record, row.value, replies)
  }

  /** The provider left the outcome open. */
  predicate AnswersUnknown(kind: CommandKind, replies: Replies) {
    match kind
    case AddMember(_) => false
    case NotifyInvitation(_) =>
      replies.directory.DirectoryUnknown? || (replies.directory.DirectoryActive? && replies.notice.NoticeUnknown?)
    case NotifyLifecycle(_) => replies.observer.ObserverUnknown?
  }

  /** The provider could not be reached. */
  predicate AnswersUnavailable(kind: CommandKind, replies: Replies) {
    match kind
    case AddMember(_) => replies.member.MemberUnavailable?
    case NotifyInvitation(_) =>
      replies.directory.DirectoryUnavailable? || (replies.directory.DirectoryActive? &&
                                                  replies.notice.NoticeUnavailable?)
    case NotifyLifecycle(_) => replies.observer.ObserverUnavailable?
  }

  /** A worker can make its call: the token derives, opens the row it read and fits a link. */
  predicate CanCall(record: CommandRecord, row: Invitation, replies: Replies) {
    match record.kind
    case AddMember(_) => true
    case NotifyInvitation(generation) =>
      replies.derivable && replies.urlValid && row.tokenHash.Some? &&
      Verifies(Derived(record.invitation, generation), row.tokenHash.value)
    case NotifyLifecycle(lifecycle) => ObservedAt(row, lifecycle).Some?
  }

  /** Of the open outcomes only an unknown one is bounded: it is given up exactly from the attempt limit on, while
      an unreachable provider is always retried. */
  lemma OnlyUnknownIsBounded(config: Config, record: CommandRecord, row: Invitation, replies: Replies)
    requires CanCall(record, row, replies)
    ensures AnswersUnknown(record.kind, replies) ==>
      (Decide(config, record, Some(row), replies).GiveUp? <==> record.attempts >= config.maxAttempts) &&
      (Decide(config, record, Some(row), replies).Later? <==> record.attempts < config.maxAttempts)
    ensures AnswersUnavailable(record.kind, replies) ==> Decide(config, record, Some(row), replies).Later?
    ensures Decide(config, record, Some(row), replies).Later? ==>
      AnswersUnknown(record.kind, replies) || AnswersUnavailable(record.kind, replies)
  {
  }

  /** On a run whose resends had read far enough no guard against bad data fires: a command a worker holds and
      finds wanted always reaches its provider. */
  lemma WantedCommandsReachTheirProvider(config: Config, now: Time, steps: seq<Step>, record: CommandRecord,
                                         replies: Replies)
    requires ValidConfig(config) && CanRun(Init(config, now), steps) && AllDisciplined(steps)
    requires replies.derivable && replies.urlValid
    requires var db := Run(Init(config, now), steps).db; Held(db.commands, record) && MatchedRow(db, record).Some?
    ensures CanCall(record, MatchedRow(Run(Init(config, now), steps).db, record).value, replies)
  {
    hide RecordsOk, LedgerOk, CanRun, Run, KnowledgeOk, ProviderOk, Leases.ClaimsOk;
    InitIsOk(config, now);
    DisciplinedRunsAgree(Init(config, now), steps);
    var db := Run(Init(config, now), steps).db;
    CommandIsOk(db, record.command);
  }

  // ------------------------------------------------------------- transactions

  /** The transaction of a decision, and whether it committed. */
  ghost function Carry(db: Database, config: Config, record: CommandRecord, decision: Decision,
                       newId: Uuid): (Database, bool) {
    match decision
    case Discard => (SupersedeCommand(db, record).0, SupersedeCommand(db, record).1.Done?)
    case Later(error) =>
      var retried := RetryCommand(db, record, error, Delay(config.retryBase, record.attempts));
      (retried.0, retried.1.Done?)
    case GiveUp(error) => (FailCommand(db, record, error, newId).0, FailCommand(db, record, error, newId).1.Done?)
    case Finish(MembershipReceipt(membershipId, revision)) =>
      var completed := CompleteAccept(db, record, membershipId, revision, newId);
      (completed.0, completed.1.Done?)
    case Finish(NotificationReceipt(intentId, deliveryId)) =>
      (CompleteNotification(db, record, intentId, deliveryId).0,
       CompleteNotification(db, record, intentId, deliveryId).1.Done?)
    case Finish(LifecycleReceipt(recorded)) => (CompleteLifecycle(db, record, recorded).0,
                                                CompleteLifecycle(db, record, recorded).1.Done?)
  }

  /** The decision a finishing step carries out. */
  function DecisionBehind(s: Step): Decision
    requires Finishes(s)
  {
    match s
    case StepSupersede(_) => Discard
    case StepCompleteAccept(_, membershipId, providerRevision, _) =>
      Finish(MembershipReceipt(membershipId, providerRevision))
    case StepCompleteNotification(_, intentId, deliveryId) => Finish(NotificationReceipt(intentId, deliveryId))
    case StepCompleteLifecycle(_, recorded) => Finish(LifecycleReceipt(recorded))
    case StepRetry(_, error) => Later(error)
    case StepFail(_, error, _) => GiveUp(error)
  }

  function NewIdOf(s: Step): Uuid {
    if s.StepCompleteAccept? || s.StepFail? then s.newId else 0
  }

  /** The finishing steps of the protocol are the worker's transactions. */
  lemma FinishIsCarry(w: World, s: Step)
    requires Enabled(w, s) && Finishes(s)
    ensures HoldsClaim(w, s.claim)
    ensures Next(w, s) == w.(db := Carry(w.db, w.config, w.claims[s.claim].record, DecisionBehind(s), NewIdOf(s)).0)
  {
    hide SupersedeCommand, RetryCommand, FailCommand, CompleteAccept, CompleteNotification, CompleteLifecycle, Delay;
  }

  /** The decision's receipt is the one its command's kind is finished with. */
  predicate Suits(kind: CommandKind, decision: Decision) {
    decision.Finish? ==>
      match kind
      case AddMember(_) => decision.receipt.MembershipReceipt?
      case NotifyInvitation(_) => decision.receipt.NotificationReceipt?
      case NotifyLifecycle(_) => decision.receipt.LifecycleReceipt?
  }

  lemma DecisionsSuit(config: Config, record: CommandRecord, row: Option<Invitation>, replies: Replies)
    ensures Suits(record.kind, Decide(config, record, row, replies))
  {
  }

  lemma ExpiryKeepsSettled(db: Database, commands: Commands, id: Uuid, commandId: Uuid, activity: ActivityKind,
                           actor: Name, c: Uuid)
    requires id in db.invitations && c in commands && !Active(commands[c]) && commandId !in commands
    ensures var commands' := Expire(db, commands, id, commandId, activity, actor).commands;
      c in commands' && commands'[c] == commands[c]
  {
    hide HasKey;
  }

  /** The decision may write a lifecycle command. */
  predicate Inserts(decision: Decision) {
    decision.GiveUp? || (decision.Finish? && decision.receipt.MembershipReceipt?)
  }

  /** What a committed decision leaves of its command: a retry puts it back, later and with its attempts; a
      failure settles it with its error; the others settle it as completed or superseded. */
  lemma CarrySettles(db: Database, config: Config, record: CommandRecord, decision: Decision, newId: Uuid)
    requires Carry(db, config, record, decision, newId).1 && (Inserts(decision) ==> newId !in db.commands)
    ensures var commands := Carry(db, config, record, decision, newId).0.commands;
      && record.command in commands && record.command in db.commands
      && var held, command := db.commands[record.command], commands[record.command];
      && !Fenced(commands, record)
      && (decision.Discard? ==>
            command == held.(state := Superseded, lease := None, updatedAt := db.now, completedAt := Some(db.now)))
      && (decision.Later? ==>
            command == held.(state := Waiting, availableAt := db.now + Delay(config.retryBase, record.attempts),
                             lease := None, lastError := Some(decision.error), updatedAt := db.now))
      && (decision.GiveUp? ==>
            command == held.(state := Failed, receipt := None, lastError := Some(decision.error), lease := None,
                             updatedAt := db.now, completedAt := Some(db.now)))
      && (decision.Finish? ==> command.state.Completed?)
      && (decision.Finish? && Fenced(db.commands, record) ==>
            command == held.(state := Completed, receipt := Some(decision.receipt), lastError := None, lease := None,
                             updatedAt := db.now, completedAt := Some(db.now)))
  {
    hide HasKey, Expire, Delay;
    if decision.GiveUp? && record.kind.AddMember? {
      var failed := db.commands[record.command := FinishedCommand(db.commands[record.command], Failed, None,
                                                                  Some(decision.error), db.now)];
      ExpiryKeepsSettled(db, failed, record.invitation, newId, AcceptanceFailed, SYSTEM_MEMBERSHIP_FAILURE,
                         record.command);
    }
  }

  /** Carrying out a decision on one command leases no other. */
  lemma CarryLeasesNothing(db: Database, config: Config, record: CommandRecord, decision: Decision, newId: Uuid,
                           other: CommandRecord)
    requires newId !in db.commands && other.command in db.commands && !Fenced(db.commands, other)
    ensures other.command in Carry(db, config, record, decision, newId).0.commands
    ensures !Fenced(Carry(db, config, record, decision, newId).0.commands, other)
  {
    hide Delay, FailCommand, CompleteAccept, Fenced;
    match decision
    case GiveUp(error) => FailLeasesNothing(db, record, error, newId, other);
    case Finish(MembershipReceipt(membershipId, revision)) =>
      CompletionLeasesNothing(db, record, membershipId, revision, newId, other);
    case _ => SettlingLeasesNothing(db, config, record, decision, newId, other);
  }

  lemma SettlingLeasesNothing(db: Database, config: Config, record: CommandRecord, decision: Decision, newId: Uuid,
                              other: CommandRecord)
    requires other.command in db.commands && !Fenced(db.commands, other)
    requires !decision.GiveUp? && !(decision.Finish? && decision.receipt.MembershipReceipt?)
    ensures other.command in Carry(db, config, record, decision, newId).0.commands
    ensures !Fenced(Carry(db, config, record, decision, newId).0.commands, other)
  {
    hide Delay;
  }

  lemma CompletionLeasesNothing(db: Database, record: CommandRecord, membershipId: Name, revision: Name, newId: Uuid,
                                other: CommandRecord)
    requires newId !in db.commands && other.command in db.commands && !Fenced(db.commands, other)
    ensures var commands := CompleteAccept(db, record, membershipId, revision, newId).0.commands;
      other.command in commands && !Fenced(commands, other)
  {
    hide HasKey;
  }

  lemma FailLeasesNothing(db: Database, record: CommandRecord, error: Name, newId: Uuid, other: CommandRecord)
    requires newId !in db.commands && other.command in db.commands && !Fenced(db.commands, other)
    ensures var commands := FailCommand(db, record, error, newId).0.commands;
      other.command in commands && !Fenced(commands, other)
  {
    hide HasKey;
  }

  /** Carrying out a decision keeps the schema consistent, if what is discarded is no longer wanted. */
  lemma CarryIsConsistent(db: Database, config: Config, record: CommandRecord, decision: Decision, newId: Uuid)
    requires Consistent(db) && Held(db.commands, record) && newId !in db.commands && Suits(record.kind, decision)
    requires decision.Discard? ==>
      record.invitation in db.invitations && !Matches(record.kind, db.invitations[record.invitation])
    ensures Consistent(Carry(db, config, record, decision, newId).0)
  {
    hide RecordsOk, LedgerOk, Delay, SupersedeCommand, RetryCommand, FailCommand, CompleteAccept, CompleteNotification,
         CompleteLifecycle;
    match decision
    case Discard => SupersedeIsConsistent(db, record);
    case Later(error) => RetryIsConsistent(db, record, error, Delay(config.retryBase, record.attempts));
    case GiveUp(error) => FailIsConsistent(db, record, error, newId);
    case Finish(MembershipReceipt(membershipId, revision)) =>
      CompleteAcceptIsConsistent(db, record, membershipId, revision, newId);
    case Finish(NotificationReceipt(intentId, deliveryId)) =>
      NotificationCompletionIsConsistent(db, record, intentId, deliveryId);
    case Finish(LifecycleReceipt(recorded)) => LifecycleCompletionIsConsistent(db, record, recorded);
  }

  /** ... and moves it along `Evolves`. */
  lemma CarryEvolves(db: Database, config: Config, record: CommandRecord, decision: Decision, newId: Uuid)
    requires Consistent(db) && Held(db.commands, record) && newId !in db.commands && Suits(record.kind, decision)
    ensures Evolves(db, Carry(db, config, record, decision, newId).0)
  {
    hide RecordsOk, LedgerOk, Delay, SupersedeCommand, RetryCommand, FailCommand, CompleteAccept, CompleteNotification,
         CompleteLifecycle, Evolves;
    match decision
    case Discard => RetriesEvolve(db, record, "", 0);
    case Later(error) => RetriesEvolve(db, record, error, Delay(config.retryBase, record.attempts));
    case GiveUp(error) => FailEvolves(db, record, error, newId);
    case Finish(MembershipReceipt(membershipId, revision)) =>
      CompleteAcceptEvolves(db, record, membershipId, revision, newId);
    case Finish(NotificationReceipt(intentId, deliveryId)) =>
      CompletionsEvolve(db, record, intentId, deliveryId, false);
    case Finish(LifecycleReceipt(recorded)) => CompletionsEvolve(db, record, "", "", recorded);
  }

  // ------------------------------------------------------- bounded attempts

  /** How one claim of a command ended: its worker was gone before it finished, its provider was not reached, or
      its provider left the outcome open. */
  datatype Round = Crashed | Unreachable(error: Name) | Unclear(error: Name)

  /** The decision a round that was not cut short ends with. */
  function DecisionOf(config: Config, attempts: int, round: Round): Decision
    requires !round.Crashed?
  {
    match round
    case Unreachable(error) => Later(error)
    case Unclear(error) => RetryOrFail(config, attempts, error)
  }

  function Settled(config: Config, claimed: Command, round: Round, at: Time): Command {
    if round.Crashed? then claimed
    else if DecisionOf(config, claimed.attempts, round).GiveUp? then
      FinishedCommand(claimed, Failed, None, Some(round.error), at)
    else RetriedCommand(claimed, round.error, Delay(config.retryBase, claimed.attempts), at)
  }

  /** Such a round is what the worker's transaction does to the command it holds. */
  lemma RoundIsCarried(db: Database, config: Config, record: CommandRecord, round: Round, newId: Uuid)
    requires Fenced(db.commands, record) && record.attempts == db.commands[record.command].attempts
    requires newId !in db.commands
    requires !round.Crashed? && (record.kind.AddMember? ==> !round.Unclear?)
    ensures var (db', committed) := Carry(db, config, record, DecisionOf(config, record.attempts, round), newId);
      committed && record.command in db'.commands &&
      db'.commands[record.command] == Settled(config, db.commands[record.command], round, db.now)
  {
    hide Delay;
    CarrySettles(db, config, record, DecisionOf(config, record.attempts, round), newId) by { hide Delay; }
  }
}
