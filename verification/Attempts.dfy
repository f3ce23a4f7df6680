/** The bound on attempts, over runs: among all steps of all processes, what ends a command whose provider never
    answers clearly. */
module Attempts {
  import opened Schema
  import opened Storage
  import opened Consistency
  import opened Outbox
  import opened Evolution
  import opened Protocol
  import opened Backoff
  import opened Leases
  import opened Safety
  import opened Runs
  import opened Worker

  // ------------------------------------------------ who completes or fails a row

  predicate Ended(state: CommandState) {
    state.Completed? || state.Failed?
  }

  /** A command that is completed or failed afterwards was so before. */
  predicate EndsNot(a: Commands, b: Commands, c: Uuid) {
    c in b && Ended(b[c].state) ==> c in a && a[c].state == b[c].state
  }

  lemma AdvanceEndsNot(db: Database, commands: Commands, id: Uuid, row: Invitation, commandId: Uuid, kind: CommandKind,
                       activity: ActivityKind, actor: Name, c: Uuid)
    ensures EndsNot(commands, Advance(db, commands, id, row, commandId, kind, activity, actor).commands, c)
  {
    hide HasKey;
  }

  lemma SupersedingEndsNot(commands: Commands, id: Uuid, now: Time, c: Uuid)
    ensures EndsNot(commands, SupersedeNotifications(commands, id, now), c)
  {
  }

  lemma ExpireEndsNot(db: Database, commands: Commands, id: Uuid, commandId: Uuid, activity: ActivityKind, actor: Name,
                      c: Uuid)
    requires id in db.invitations
    ensures EndsNot(commands, Expire(db, commands, id, commandId, activity, actor).commands, c)
  {
    hide Advance, SupersedeNotifications;
    SupersedingEndsNot(commands, id, db.now, c);
    AdvanceEndsNot(db, SupersedeNotifications(commands, id, db.now), id, ExpiredRow(db.invitations[id], db.now),
                   commandId,
                   NotifyLifecycle(Expired), activity, actor, c);
  }

  lemma {:induction false} ExpireRowsEndNot(db: Database, ids: seq<Uuid>, newIds: seq<Uuid>, n: nat, actor: Name,
                                            c: Uuid)
    requires n <= |ids| && n <= |newIds|
    ensures EndsNot(db.commands, ExpireRows(db, ids, newIds, n, actor).commands, c)
  {
    hide Expire;
    if n > 0 {
      ExpireRowsEndNot(db, ids, newIds, n - 1, actor, c);
      var before := ExpireRows(db, ids, newIds, n - 1, actor);
      if ids[n - 1] in before.invitations {
        ExpireEndsNot(before, before.commands, ids[n - 1], newIds[n - 1], InvitationExpired, actor, c);
      }
    }
  }

  lemma {:induction false} ClaimRowsEndNot(commands: Commands, ids: seq<Uuid>, leases: seq<Uuid>, n: nat,
                                           leaseSeconds: int,
                                           now: Time, c: Uuid)
    requires n <= |ids| && n <= |leases|
    ensures EndsNot(commands, ClaimRows(commands, ids, leases, n, leaseSeconds, now), c)
  {
    if n > 0 { ClaimRowsEndNot(commands, ids, leases, n - 1, leaseSeconds, now, c); }
  }

  lemma CreatedEndsNot(db: Database, r: Request, id: Uuid, row: Invitation, commandId: Uuid, c: Uuid)
    ensures EndsNot(db.commands, Created(db, r, id, row, commandId).commands, c)
  {
    hide Advance;
    AdvanceEndsNot(db.(sequences := db.sequences[row.organization := row.number + 1]), db.commands, id, row, commandId,
                   NotifyInvitation(1), InvitationCreated, r.actor, c);
  }

  lemma RewrittenEndsNot(db: Database, r: Request, id: Uuid, row: Invitation, commandId: Uuid, c: Uuid)
    ensures EndsNot(db.commands, Resent(db, r, id, row, commandId).commands, c)
    ensures EndsNot(db.commands, RevokedDb(db, r, id, row, commandId).commands, c)
  {
    hide Advance, SupersedeNotifications;
    var commands := SupersedeNotifications(db.commands, id, db.now);
    SupersedingEndsNot(db.commands, id, db.now, c);
    AdvanceEndsNot(db, commands, id, row, commandId, NotifyInvitation(row.tokenGeneration), InvitationResent, r.actor,
                   c);
    AdvanceEndsNot(db, commands, id, row, commandId, NotifyLifecycle(Revoked), InvitationRevoked, r.actor, c);
  }

  lemma StartedEndsNot(db: Database, r: Request, id: Uuid, leaseSeconds: int, commandId: Uuid, holder: Uuid,
                       lease: Uuid, c: Uuid)
    requires id in db.invitations
    ensures EndsNot(db.commands, AcceptStarted(db, r, id, leaseSeconds, commandId, holder, lease).commands, c)
  {
    hide Advance;
    AdvanceEndsNot(db, db.commands, id, ConsumedRow(db.invitations[id], r.actor, db.now), commandId, AddMember(r.actor),
                   AcceptanceStarted, r.actor, c);
  }

  lemma MutationEndsNot(w: World, s: Step, c: Uuid)
    requires Enabled(w, s) && Mutates(s)
    ensures EndsNot(w.db.commands, Next(w, s).db.commands, c)
  {
    hide Next, Enabled, Created, Resent, RevokedDb, AcceptStarted, Expire;
    var db := w.db;
    if s.StepInvite? {
      InviteCommits(w, s);
      CreatedEndsNot(db, s.r, s.invitation, InvitedRow(w, s), s.newId, c);
    } else if s.StepResend? {
      ResendCommits(w, s);
      if s.snapshot.invitation in db.invitations {
        RewrittenEndsNot(db, s.r, s.snapshot.invitation, ResentRow(w, s), s.newId, c);
      }
    } else if s.StepRevoke? {
      RevokeCommits(w, s);
      if s.invitation in db.invitations {
        RewrittenEndsNot(db, s.r, s.invitation, RevokedRow(db.invitations[s.invitation], s.reason, db.now), s.newId, c);
      }
    } else {
      AcceptCommits(w, s);
      var id := s.snapshot.invitation;
      if id in db.invitations {
        ExpireEndsNot(db, db.commands, id, s.newId, InvitationExpired, SYSTEM_ACCEPT, c);
        StartedEndsNot(db, s.r, id, w.config.leaseSeconds, s.newId, InsertedId(db.commands, s.newId, MembershipKey(id)),
                       s.lease, c);
      }
    }
  }

  lemma ClaimBatchEndsNot(db: Database, organization: Name, limit: int, leaseSeconds: int, locked: set<Uuid>,
                          leases: seq<Uuid>, c: Uuid)
    requires limit <= |leases|
    ensures EndsNot(db.commands, ClaimDueCommands(db, organization, limit, leaseSeconds, locked, leases).0.commands, c)
  {
    hide ClaimRows;
    var ids := ClaimBatch(db, organization, limit, locked);
    BatchIsClaimable(db, organization, limit, locked);
    ClaimRowsEndNot(db.commands, ids, leases, |ids|, leaseSeconds, db.now, c);
  }

  lemma ExpiryBatchEndsNot(db: Database, r: Request, organization: Name, limit: int, locked: set<Uuid>,
                           newIds: seq<Uuid>, c: Uuid)
    requires limit <= |newIds|
    ensures EndsNot(db.commands, ExpireDueInvitations(db, r, organization, limit, locked, newIds).0.commands, c)
  {
    hide ExpireRows, AnyDue;
    var ids := ExpiryBatch(db, organization, limit, locked);
    BatchIsDue(db, organization, limit, locked);
    ExpireRowsEndNot(db, ids, newIds, |ids|, r.actor, c);
  }

  lemma BatchEndsNot(w: World, s: Step, c: Uuid)
    requires Enabled(w, s) && Batches(s)
    ensures EndsNot(w.db.commands, Next(w, s).db.commands, c)
  {
    hide ExpireDueInvitations, ClaimDueCommands, BeginDispatch, CompleteDispatch, AfterClaim;
    if s.StepClaim? {
      ClaimDb(w, s.organization, s.limit, s.locked, s.leases);
      ClaimBatchEndsNot(w.db, s.organization, s.limit, w.config.leaseSeconds, s.locked, s.leases, c);
    } else if s.StepExpireDue? {
      ExpiryBatchEndsNot(w.db, s.r, s.organization, s.limit, s.locked, s.newIds, c);
    } else if s.StepBeginDispatch? {
      DispatchCommands(w.db, s.r, s.organization, DispatchResult(0, 0, 0, 0, false));
    } else {
      DispatchCommands(w.db, Request(s.key, DispatchDue, "", 0), "", s.result);
    }
  }

  /** The step finishes command `c` through the fence. */
  ghost predicate FinishesCommand(w: World, s: Step, c: Uuid)
    requires Enabled(w, s)
  {
    Finishes(s) && s.claim.command == c && HoldsClaim(w, s.claim) && Fenced(w.db.commands, w.claims[s.claim].record)
  }

  lemma OtherCarryEndsNot(db: Database, config: Config, record: CommandRecord, decision: Decision, newId: Uuid, c: Uuid)
    requires record.command != c
    ensures EndsNot(db.commands, Carry(db, config, record, decision, newId).0.commands, c)
  {
    hide Expire, Delay, HasKey;
    if decision.GiveUp? && record.command in db.commands && record.invitation in db.invitations {
      var failed := db.commands[record.command :=
        FinishedCommand(db.commands[record.command], Failed, None, Some(decision.error), db.now)];
      ExpireEndsNot(db, failed, record.invitation, newId, AcceptanceFailed, SYSTEM_MEMBERSHIP_FAILURE, c);
    }
  }

  /** Nothing else completes or fails a command. */
  lemma OnlyFinishingEnds(w: World, s: Step, c: Uuid)
    requires WorldOk(w) && Enabled(w, s) && !FinishesCommand(w, s, c)
    ensures EndsNot(w.db.commands, Next(w, s).db.commands, c)
  {
    hide Consistent, KnowledgeOk, ProviderOk, ClaimsOk, Next, Enabled, Fenced, Carry;
    if Mutates(s) {
      MutationEndsNot(w, s, c);
    } else if Batches(s) {
      BatchEndsNot(w, s, c);
    } else if Observes(s) {
      ObservingChangesNoTable(w, s);
    } else {
      FinisherHoldsItsClaim(w, s);
      ClaimIsHeld(w, s.claim);
      if s.claim.command == c {
        UnfencedChangesNothing(w, s);
      } else {
        FinishIsCarry(w, s);
        OtherCarryEndsNot(w.db, w.config, w.claims[s.claim].record, DecisionBehind(s), NewIdOf(s), c);
      }
    }
  }

  // ------------------------------------------------------------------ the policy

  /** Whoever finishes command `c` either discards it, or acts as a worker does on the round its claim went through:
      `rounds` says for each claim how its provider answered, if it did. */
  ghost predicate Obeys(w: World, s: Step, c: Uuid, rounds: int -> Round)
    requires Enabled(w, s)
  {
    FinishesCommand(w, s, c) ==>
      DecisionBehind(s).Discard? ||
      (!rounds(s.claim.attempt).Crashed? &&
       DecisionBehind(s) == DecisionOf(w.config, s.claim.attempt, rounds(s.claim.attempt)))
  }

  ghost predicate AllObey(w: World, steps: seq<Step>, c: Uuid, rounds: int -> Round)
    requires CanRun(w, steps)
    decreases |steps|
  {
    steps == [] || (Obeys(w, steps[0], c, rounds) && AllObey(Next(w, steps[0]), steps[1..], c, rounds))
  }

  /** The claims of `c` whose round was acted on in a run. */
  ghost function Answered(w: World, steps: seq<Step>, c: Uuid): set<int>
    requires CanRun(w, steps)
    decreases |steps|
  {
    if steps == [] then {} else AnsweredBy(w, steps[0], c) + Answered(Next(w, steps[0]), steps[1..], c)
  }

  ghost function AnsweredBy(w: World, s: Step, c: Uuid): set<int>
    requires Enabled(w, s)
  {
    if FinishesCommand(w, s, c) && !DecisionBehind(s).Discard? then {s.claim.attempt} else {}
  }

  /** An unclear round at or past the attempt limit. */
  predicate Final(config: Config, rounds: int -> Round, n: int) {
    n >= config.maxAttempts && rounds(n).Unclear?
  }

  /** The command against the rounds acted on so far. */
  ghost predicate StandsAt(w: World, c: Uuid, rounds: int -> Round, answered: set<int>) {
    if c !in w.db.commands then answered == {}
    else
      var command := w.db.commands[c];
      && (command.state.Failed? <==> exists n :: n in answered && Final(w.config, rounds, n))
      && !command.state.Completed?
      && (forall n | n in answered :: n <= command.attempts)
      && (forall n | n in answered && Final(w.config, rounds, n) :: n == command.attempts)
  }

  lemma FinishingActs(w: World, s: Step, c: Uuid, rounds: int -> Round)
    requires WorldOk(w) && Enabled(w, s) && FinishesCommand(w, s, c) && Obeys(w, s, c, rounds)
    ensures c in w.db.commands && w.db.commands[c].state.InFlight? && w.db.commands[c].attempts == s.claim.attempt
    ensures c in Next(w, s).db.commands
    ensures var command, decision := Next(w, s).db.commands[c], DecisionBehind(s);
      && command.attempts == s.claim.attempt
      && (decision.Discard? ==> command.state.Superseded?)
      && (decision.Later? ==> command.state.Waiting? && !Final(w.config, rounds, s.claim.attempt))
      && (decision.GiveUp? ==> command.state.Failed? && Final(w.config, rounds, s.claim.attempt))
      && !decision.Finish?
  {
    hide Consistent, KnowledgeOk, ProviderOk, ClaimsOk, Next, Enabled, Delay, Carry, FailCommand;
    var record := w.claims[s.claim].record;
    ClaimIsHeld(w, s.claim);
    LatestHolds(w, s.claim);
    FinishIsCarry(w, s);
    FencedCommits(w.db, w.config, record, DecisionBehind(s), NewIdOf(s));
    NewIdIsNew(w, s);
    CarrySettles(w.db, w.config, record, DecisionBehind(s), NewIdOf(s));
  }

  lemma LatestHolds(w: World, id: ClaimId)
    requires WorldOk(w) && id in w.claims && Fenced(w.db.commands, w.claims[id].record)
    ensures w.db.commands[id.command].attempts == id.attempt
  {
    hide RecordsOk, LedgerOk, KnowledgeOk, ProviderOk, LatestOk, Spaced, AllClaimed;
    ClaimIsHeld(w, id);
    CommandIsOk(w.db, id.command);
    FenceIsLatest(w.db.commands, w.claims, w.config, w.db.now, id);
  }

  lemma NewIdIsNew(w: World, s: Step)
    requires Enabled(w, s) && Finishes(s)
    ensures Inserts(DecisionBehind(s)) ==> NewIdOf(s) !in w.db.commands
  {
  }

  lemma FencedCommits(db: Database, config: Config, record: CommandRecord, decision: Decision, newId: Uuid)
    requires Fenced(db.commands, record) && record.invitation in db.invitations && !decision.Finish?
    ensures Carry(db, config, record, decision, newId).1
  {
    hide Delay, MembershipFailed;
  }

  lemma OthersKeepStanding(w: World, w': World, c: Uuid, rounds: int -> Round, answered: set<int>)
    requires StandsAt(w, c, rounds, answered) && w'.config == w.config
    requires CommandsEvolve(w.db.commands, w'.db.commands) && EndsNot(w.db.commands, w'.db.commands, c)
    ensures StandsAt(w', c, rounds, answered)
  {
    hide Final;
    if c in w.db.commands {
      assert CommandEvolves(w.db.commands[c], w'.db.commands[c]);
    }
  }

  lemma ActingKeepsStanding(w: World, w': World, c: Uuid, rounds: int -> Round, answered: set<int>, n: int,
                            decision: Decision)
    requires StandsAt(w, c, rounds, answered) && w'.config == w.config
    requires c in w.db.commands && w.db.commands[c].state.InFlight? && w.db.commands[c].attempts == n
    requires c in w'.db.commands && w'.db.commands[c].attempts == n && !decision.Finish?
    requires decision.Discard? ==> w'.db.commands[c].state.Superseded?
    requires decision.Later? ==> w'.db.commands[c].state.Waiting? && !Final(w.config, rounds, n)
    requires decision.GiveUp? ==> w'.db.commands[c].state.Failed? && Final(w.config, rounds, n)
    ensures StandsAt(w', c, rounds, answered + if decision.Discard? then {} else {n})
  {
    hide Final;
    if decision.GiveUp? {
      assert n in answered + {n};
    }
  }

  lemma StepKeepsStanding(w: World, s: Step, c: Uuid, rounds: int -> Round, answered: set<int>)
    requires WorldOk(w) && Enabled(w, s) && Obeys(w, s, c, rounds) && StandsAt(w, c, rounds, answered)
    ensures StandsAt(Next(w, s), c, rounds, answered + AnsweredBy(w, s, c))
  {
    hide WorldOk, Next, Enabled, Fenced, Obeys, Final, StandsAt, EndsNot, InvitationsEvolve, CommandsEvolve,
         MutationsEvolve;
    StepKeepsClaims(w, s);
    if FinishesCommand(w, s, c) {
      FinishingActs(w, s, c, rounds);
      ActingKeepsStanding(w, Next(w, s), c, rounds, answered, s.claim.attempt, DecisionBehind(s));
    } else {
      StepEvolves(w, s);
      OnlyFinishingEnds(w, s, c);
      OthersKeepStanding(w, Next(w, s), c, rounds, answered);
      assert answered + AnsweredBy(w, s, c) == answered;
    }
  }

  lemma {:induction false} RunKeepsStanding(w: World, steps: seq<Step>, c: Uuid, rounds: int -> Round,
                                            answered: set<int>)
    requires WorldOk(w) && CanRun(w, steps) && AllObey(w, steps, c, rounds) && StandsAt(w, c, rounds, answered)
    ensures StandsAt(Run(w, steps), c, rounds, answered + Answered(w, steps, c)) && Run(w, steps).config == w.config
    decreases |steps|
  {
    hide WorldOk, Next, Enabled, Obeys, StandsAt, AnsweredBy, Evolves;
    if steps == [] {
      assert answered + {} == answered;
    } else {
      var s, rest := steps[0], steps[1..];
      StepKeepsStanding(w, s, c, rounds, answered);
      StepKeepsWorld(w, s);
      StepKeepsClaims(w, s);
      RunKeepsStanding(Next(w, s), rest, c, rounds, answered + AnsweredBy(w, s, c));
      assert answered + AnsweredBy(w, s, c) + Answered(Next(w, s), rest, c) == answered + Answered(w, steps, c);
    }
  }

  /** On every run in which the workers of a command act on rounds that are unclear or unreachable, the command is
      failed if and only if an unclear round at or past the attempt limit was acted on; then that was the round of its
      last claim, and the first such. Otherwise it is still active or superseded: crashes, unreachable providers and
      the other transactions in between neither fail it nor extend the limit. */
  lemma FailsAtFirstUnclearAttempt(config: Config, now: Time, steps: seq<Step>, c: Uuid, rounds: int -> Round)
    requires ValidConfig(config) && CanRun(Init(config, now), steps) && AllObey(Init(config, now), steps, c, rounds)
    requires c in Run(Init(config, now), steps).db.commands
    ensures var command, answered := Run(Init(config, now),
                                         steps).db.commands[c], Answered(Init(config, now), steps, c);
      && (command.state.Failed? <==> exists n :: n in answered && Final(config, rounds, n))
      && (command.state.Failed? <==> command.attempts in answered && Final(config, rounds, command.attempts))
      && (forall n | n in answered && Final(config, rounds, n) :: n == command.attempts)
      && (!command.state.Failed? ==> Active(command) || command.state.Superseded?)
  {
    hide WorldOk, CanRun, Run, AllObey, Answered, Final;
    InitIsOk(config, now);
    RunKeepsStanding(Init(config, now), steps, c, rounds, {});
    assert {} + Answered(Init(config, now), steps, c) == Answered(Init(config, now), steps, c);
  }

  /** If moreover every round is unclear and each claim is acted on before the next, the command is never claimed more
      than `max_command_attempts` times, and it is failed exactly when that last claim has been acted on. */
  lemma UnclearOnlyFailsAtTheLimit(config: Config, now: Time, steps: seq<Step>, c: Uuid, rounds: int -> Round)
    requires ValidConfig(config) && CanRun(Init(config, now), steps) && AllObey(Init(config, now), steps, c, rounds)
    requires c in Run(Init(config, now), steps).db.commands && forall n :: rounds(n).Unclear?
    requires forall n | 1 <= n < Run(Init(config, now), steps).db.commands[c].attempts ::
      n in Answered(Init(config, now), steps, c)
    ensures var command, answered := Run(Init(config, now),
                                         steps).db.commands[c], Answered(Init(config, now), steps, c);
      && command.attempts <= config.maxAttempts
      && (command.state.Failed? <==> config.maxAttempts in answered)
  {
    hide CanRun, Run, AllObey, Answered;
    FailsAtFirstUnclearAttempt(config, now, steps, c, rounds);
    var attempts := Run(Init(config, now), steps).db.commands[c].attempts;
    assert attempts > config.maxAttempts ==> config.maxAttempts in Answered(Init(config, now), steps, c);
  }
}
