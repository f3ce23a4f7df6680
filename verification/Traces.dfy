/** One call of each operation as a trace: the states its reads and transactions saw and left while others ran, and
    what its answer then means. */
module Traces {
  import opened Schema
  import opened Storage
  import opened Consistency
  import opened Effects
  import opened Outbox
  import opened Evolution
  import opened Protocol
  import opened Backoff
  import opened Safety
  import opened Writes
  import opened Email
  import opened Worker
  import opened Dispatch
  import opened Outcomes

  // ------------------------------------------------------------------ accept

  datatype AcceptResult = AcceptDone(record: AcceptedRecord) | AcceptRefused(failure: DomainFailure) | AcceptFailed

  /** The states `accept` went through: the row it read, the state its transaction found and left, and the state
      its completion found. */
  datatype AcceptTrace = AcceptTrace(read: Database, at: Database, newId: Uuid, lease: Uuid, begun: Database,
                                     start: Outcome<AcceptStart>, reply: MemberReply, called: Database, laterId: Uuid)

  /** `execute_acceptance_command`: the transaction after the membership reply. */
  ghost function AcceptanceEnd(db: Database, config: Config, record: CommandRecord, reply: MemberReply,
                               newId: Uuid): (Database, AcceptResult) {
    match reply
    case MemberAdded(membershipId, revision) =>
      var completed := CompleteAccept(db, record, membershipId, revision, newId);
      (completed.0, if completed.1.Done? then AcceptDone(completed.1.value) else AcceptFailed)
    case _ => (Carry(db, config, record, DecideMember(reply), newId).0, AcceptFailed)
  }

  /** `accept` once its transaction has answered. */
  ghost predicate Concludes(config: Config, r: Request, t: AcceptTrace, end: Database, result: AcceptResult) {
    match t.start
    case Rejected(failure) => end == t.begun && result == AcceptRefused(failure)
    case Broken => end == t.begun && result == AcceptFailed
    case Done(AcceptReplay(record)) => end == t.begun && result == AcceptDone(record)
    case Done(InProgress) => end == t.begun && result == AcceptRefused(AcceptanceInProgress)
    case Done(Execute(record)) =>
      Rely(t.begun, t.called, r.key, [record]) && t.laterId !in t.called.commands &&
      (end, result) == AcceptanceEnd(t.called, config, record, t.reply, t.laterId)
  }

  /** `accept` behind a ledger that does not know its request yet. */
  ghost predicate Accepts(config: Config, r: Request, id: Uuid, expectedRevision: int, token: Token, start: Database,
                          t: AcceptTrace, end: Database, result: AcceptResult)
  {
    Rely(start, t.read, r.key, []) &&
    if id !in t.read.invitations then end == t.read && result == AcceptRefused(InvitationNotFound)
    else
      var row := t.read.invitations[id];
      if !row.state.Pending? then end == t.read && result == AcceptRefused(InvalidTransition)
      else if row.tokenHash.None? || !Verifies(token, row.tokenHash.value) then
        end == t.read && result == AcceptRefused(TokenInvalid)
      else
        && Rely(t.read, t.at, r.key, []) && t.newId !in t.at.commands
        && BeginAccept(t.at, r, id, expectedRevision, row.tokenGeneration, row.tokenHash.value, config.leaseSeconds,
                       t.newId, t.lease)
             == (t.begun, t.start)
        && Concludes(config, r, t, end, result)
  }

  /** Every outcome of `accept`: a known request is answered from the ledger, a new one goes its way. */
  ghost predicate Answers(config: Config, r: Request, id: Uuid, expectedRevision: int, token: Token, start: Database,
                          t: AcceptTrace, end: Database, result: AcceptResult)
  {
    match BeginMutation(start.mutations, r)
    case Conflict => result == AcceptRefused(IdempotencyConflict) && end == start
    case Running => result == AcceptRefused(AcceptanceInProgress) && end == start
    case Replay(response) =>
      result == (if response.AcceptedResponse? then AcceptDone(response.record) else AcceptFailed) && end == start
    case New => Accepts(config, r, id, expectedRevision, token, start, t, end, result)
  }

  /** A row of the ledger answers with the receipt of an accepted invitation. */
  lemma LedgerAnswersReceipt(db: Database, r: Request)
    requires Consistent(db) && r.operation.Accept? && BeginMutation(db.mutations, r).Replay?
    ensures var response := BeginMutation(db.mutations, r).response;
      response.AcceptedResponse? && AcceptedBy(response.record, r.actor, db.invitations)
  {
    hide RecordsOk, BindingsOk;
    assert MutationOk(db.mutations[r.key], db.invitations, db.commands);
    CommandIsOk(db, db.mutations[r.key].command.value);
  }

  /** The acceptance behind a record: a row of the table is accepted by that subject, and the record is its receipt. */
  predicate AcceptedBy(record: AcceptedRecord, subject: Name, invitations: Invitations) {
    IsReceipt(record, invitations) && invitations[record.invitation].acceptanceSubject == Some(subject)
  }

  /** `accept` reports success only for an invitation that its caller has accepted, and with exactly its receipt; where
      it ran an acceptance of its own, that is the invitation it was asked for. */
  lemma SuccessIsTheReceipt(config: Config, r: Request, id: Uuid, expectedRevision: int, token: Token, start: Database,
                            t: AcceptTrace, end: Database, result: AcceptResult)
    requires Visited(start) && r.operation.Accept?
    requires Answers(config, r, id, expectedRevision, token, start, t, end, result) && result.AcceptDone?
    ensures AcceptedBy(result.record, r.actor, end.invitations)
    ensures BeginMutation(start.mutations, r).New? && t.start.Done? && t.start.value.Execute? ==>
      result.record.invitation == id
  {
    hide Visited, RecordsOk, LedgerOk, Evolves, UniqueKeys, KeepsReservation, KeepsLost, AcceptStarted, Expire,
         CompleteAccept, Carry;
    VisitedIsConsistent(start);
    if BeginMutation(start.mutations, r).Replay? {
      LedgerAnswersReceipt(start, r);
    } else {
      match t.start
      case Done(AcceptReplay(record)) => LedgerAnswersReceipt(t.at, r);
      case Done(Execute(record)) =>
        var _, _ := CompletionAnswersReceipt(t.called, record, t.reply.membershipId, t.reply.revision, t.laterId);
        SubjectStays(t.at, r, id, expectedRevision, t.read.invitations[id].tokenGeneration,
                     t.read.invitations[id].tokenHash.value, config.leaseSeconds, t.newId, t.lease, t.called);
        CompletionKeepsSubject(t.called, record, t.reply.membershipId, t.reply.revision, t.laterId);
      case _ =>
    }
  }

  /** Whoever started an acceptance stays its subject. */
  lemma SubjectStays(at: Database, r: Request, id: Uuid, expectedRevision: int, generation: int, hash: Verifier,
                     leaseSeconds: int, newId: Uuid, lease: Uuid, later: Database)
    requires var (begun, start) :=
        BeginAccept(at, r, id, expectedRevision, generation, hash, leaseSeconds, newId, lease);
      start.Done? && start.value.Execute? && Evolves(begun, later)
    ensures var (begun, start) :=
        BeginAccept(at, r, id, expectedRevision, generation, hash, leaseSeconds, newId, lease);
      && start.value.claimed.invitation == id && id in later.invitations
      && later.invitations[id].acceptanceSubject == Some(r.actor)
  {
    hide HasKey, InsertCommand, CommandsEvolve, MutationsEvolve;
    var begun := BeginAccept(at, r, id, expectedRevision, generation, hash, leaseSeconds, newId, lease).0;
    assert RowEvolves(begun.invitations[id], later.invitations[id]);
  }

  lemma CompletionKeepsSubject(db: Database, record: CommandRecord, membershipId: Name, providerRevision: Name,
                               newId: Uuid)
    requires record.invitation in db.invitations
    ensures var db' := CompleteAccept(db, record, membershipId, providerRevision, newId).0;
      record.invitation in db'.invitations &&
      db'.invitations[record.invitation].acceptanceSubject == db.invitations[record.invitation].acceptanceSubject
  {
    hide HasKey, InsertCommand;
  }

  function RefusalIn(result: AcceptResult): Option<DomainFailure> {
    if result.AcceptRefused? then Some(result.failure) else None
  }

  /** How an acceptance the ledger does not know is refused: on the row it read without a lock first, on the row its
      transaction found then; and a token past its deadline is the one refusal that changes something. */
  lemma AcceptIsRefused(config: Config, r: Request, id: Uuid, expectedRevision: int, token: Token, start: Database,
                        t: AcceptTrace, end: Database, result: AcceptResult)
    requires r.operation.Accept? && r.key !in start.mutations
    requires Answers(config, r, id, expectedRevision, token, start, t, end, result)
    ensures id !in t.read.invitations ==> result == AcceptRefused(InvitationNotFound) && end == t.read
    ensures id in t.read.invitations ==>
      var seen := t.read.invitations[id];
      var fits := seen.tokenHash.Some? && seen.tokenHash.value.token == token;
      && (seen.state != Pending ==> result == AcceptRefused(InvalidTransition) && end == t.read)
      && (seen.state == Pending && !fits ==> result == AcceptRefused(TokenInvalid) && end == t.read)
      && (seen.state == Pending && fits && r.key !in t.at.mutations ==>
            && id in t.at.invitations
            && var row := t.at.invitations[id];
            var open := Open(row, expectedRevision);
            var rotated := row.tokenGeneration != seen.tokenGeneration || row.tokenHash != seen.tokenHash;
            && RefusedOnRow(RefusalIn(result), row, expectedRevision)
            && (result == AcceptRefused(InvitationExpiredFailure) <==> open && row.tokenExpiresAt <= t.at.now)
            && (result == AcceptRefused(TokenInvalid) <==> open && row.tokenExpiresAt > t.at.now && rotated)
            && (result.AcceptRefused? && result.failure != InvitationExpiredFailure ==> end == t.at)
            && (t.start.Done? <==> open && row.tokenExpiresAt > t.at.now && !rotated)
            && (t.start.Done? ==> !result.AcceptRefused?))
  {
    hide Evolves, Consistent, UniqueKeys, KeepsReservation, KeepsLost, BeginAccept, Carry, CompleteAccept,
    RefusedOnRow, Open;
    if id in t.read.invitations {
      var seen := t.read.invitations[id];
      if seen.state == Pending && seen.tokenHash.Some? && seen.tokenHash.value.token == token &&
      r.key !in t.at.mutations
      {
        RowsPersist(t.read, t.at, id);
        var _, _ := AcceptRefusals(t.at, r, id, expectedRevision, seen.tokenGeneration, seen.tokenHash.value,
                                   config.leaseSeconds, t.newId, t.lease);
      }
    }
  }

  /** An acceptance whose key the ledger knows is answered from it: with the stored receipt if it is this request and
      has been completed, as in progress if it has not, and refused if the key belongs to another request. */
  lemma KnownAcceptIsAnswered(config: Config, r: Request, id: Uuid, expectedRevision: int, token: Token,
                              start: Database, t: AcceptTrace, end: Database, result: AcceptResult)
    requires Visited(start) && r.operation.Accept? && r.key in start.mutations
    requires Answers(config, r, id, expectedRevision, token, start, t, end, result)
    ensures end == start
    ensures var m := start.mutations[r.key];
      result == if m.operation != Accept || m.actor != r.actor || m.hash != r.hash then
                  AcceptRefused(IdempotencyConflict)
                else if m.response.Some? && m.response.value.AcceptedResponse? then
                  AcceptDone(m.response.value.record)
                else
                  AcceptRefused(AcceptanceInProgress)
  {
    hide Visited, RecordsOk, BindingsOk, BindingOk, Accepts;
    VisitedIsConsistent(start);
    assert MutationOk(start.mutations[r.key], start.invitations, start.commands);
  }

  /** The end of a started acceptance, as a worker's execution that read the row its transaction found. */
  function EndOf(t: AcceptTrace, record: CommandRecord, end: Database): Execution {
    Execution(record, Replies(t.reply, DirectoryUnknown, NoticeUnknown, ObserverUnknown, false, false), t.called,
              t.called, t.laterId, end)
  }

  /** What a started acceptance comes to while it still has its lease: success if and only if the provider answered a
      membership, and the command, the invitation and the ledger as after a worker's execution with that answer. */
  lemma AcceptanceConcludes(config: Config, r: Request, id: Uuid, expectedRevision: int, token: Token, start: Database,
                            t: AcceptTrace, end: Database, result: AcceptResult)
    requires Visited(start) && r.operation.Accept? && r.key !in start.mutations
    requires Answers(config, r, id, expectedRevision, token, start, t, end, result)
    requires id in t.read.invitations && t.read.invitations[id].state == Pending
    requires t.read.invitations[id].tokenHash.Some? && Verifies(token, t.read.invitations[id].tokenHash.value)
    requires t.start.Done? && t.start.value.Execute?
    requires LeasedThen(EndOf(t, t.start.value.claimed, end))
    ensures var e := EndOf(t, t.start.value.claimed, end);
      && e.record.kind == AddMember(r.actor) && e.record.invitation == id && e.record.command in end.commands
      && (result.AcceptDone? <==> t.reply.MemberAdded?)
      && MembershipConcluded(config, e) && AcceptanceFollows(e)
  {
    hide Visited, Consistent, Evolves, UniqueKeys, KeepsReservation, KeepsLost, BeginAccept, CompleteAccept, Carry,
    Held,
         MembershipConcluded, AcceptanceFollows, LeasedThen;
    VisitedIsConsistent(start);
    var record, e := t.start.value.claimed, EndOf(t, t.start.value.claimed, end);
    StartIsHeld(t.at, r, id, expectedRevision, t.read.invitations[id].tokenGeneration,
                t.read.invitations[id].tokenHash.value, config.leaseSeconds, t.newId, t.lease);
    EvolvedIsHeld(t.begun, t.called, record);
    LeasedMatches(config, e);
    LeaseSuffices(config, e);
    EndIsADecision(t.called, config, record, t.reply, t.laterId);
    EndAnswers(t.called, config, record, t.reply, t.laterId);
    MembershipOutcomes(config, e);
    AcceptanceRows(config, e);
  }

  lemma EndAnswers(db: Database, config: Config, record: CommandRecord, reply: MemberReply, newId: Uuid)
    requires Carry(db, config, record, DecideMember(reply), newId).1
    ensures AcceptanceEnd(db, config, record, reply, newId).1.AcceptDone? <==> reply.MemberAdded?
  {
    hide CompleteAccept, FailCommand, RetryCommand, Delay;
  }

  /** A membership command in flight is wanted. */
  lemma LeasedMatches(config: Config, e: Execution)
    requires e.read == e.at && Consistent(e.at) && Held(e.at.commands, e.record)
    requires e.record.kind.AddMember? && LeasedThen(e)
    ensures WantedWhenRead(e) && DecisionIn(config, e) == DecideMember(e.replies.member)
  {
    hide Consistent, Held;
    MembershipWaits(e.at, e.record);
  }

  lemma StartIsHeld(at: Database, r: Request, id: Uuid, expectedRevision: int, generation: int, hash: Verifier,
                    leaseSeconds: int, newId: Uuid, lease: Uuid)
    requires Consistent(at) && r.operation.Accept? && newId !in at.commands
    requires var start := BeginAccept(at, r, id, expectedRevision, generation, hash, leaseSeconds, newId, lease).1;
      start.Done? && start.value.Execute?
    ensures var (begun, start) :=
        BeginAccept(at, r, id, expectedRevision, generation, hash, leaseSeconds, newId, lease);
      && Consistent(begun) && Held(begun.commands, start.value.claimed)
      && start.value.claimed.kind == AddMember(r.actor) && start.value.claimed.invitation == id
  {
    hide Consistent, BeginAccept;
    BeginAcceptIsConsistent(at, r, id, expectedRevision, generation, hash, leaseSeconds, newId, lease);
    ExecutesNewOnly(at, r, id, expectedRevision, generation, hash, leaseSeconds, newId, lease);
    var _ := AcceptStartWrites(at, r, id, expectedRevision, generation, hash, leaseSeconds, newId, lease);
  }

  lemma ExecutesNewOnly(at: Database, r: Request, id: Uuid, expectedRevision: int, generation: int, hash: Verifier,
                        leaseSeconds: int, newId: Uuid, lease: Uuid)
    requires var start := BeginAccept(at, r, id, expectedRevision, generation, hash, leaseSeconds, newId, lease).1;
      start.Done? && start.value.Execute?
    ensures r.key !in at.mutations
  {
    hide AcceptStarted, Expire, InsertedId;
  }

  /** The transaction of an acceptance is the decision a worker would take on the same reply. */
  lemma EndIsADecision(db: Database, config: Config, record: CommandRecord, reply: MemberReply, newId: Uuid)
    ensures AcceptanceEnd(db, config, record, reply, newId).0 == Carry(db, config, record, DecideMember(reply), newId).0
  {
    hide CompleteAccept, FailCommand, RetryCommand, Delay;
  }

  // ------------------------------------------------------------------ invite

  datatype InviteAnswer = InviteRefused | InviteAnswered(outcome: Outcome<TokenResult>, handed: Option<Token>)

  /** `invite`: the address is normalised, the token of generation 1 derived and its verifier stored. */
  ghost predicate Invites(config: Config, r: Request, id: Uuid, organization: Name, address: Name, salt: nat,
                          at: Database, newId: Uuid, end: Database, answer: InviteAnswer)
  {
    var email := NormalizeEmail(address);
    if email.None? then answer == InviteRefused && end == at
    else
      && newId !in at.commands && answer.InviteAnswered? && answer.handed == HandedToken(answer.outcome)
      && CreateInvitation(at, r, id, organization, email.value, email.value, VerifierFor(id, 1, salt), config.tokenTtl,
                          newId)
           == (end, answer.outcome)
  }

  /** A row nobody has touched since it was created at `now`. */
  predicate NewlyOpen(row: Invitation, organization: Name, inviter: Name, now: Time, ttl: int) {
    && row.organization == organization && row.inviter == inviter
    && row.state == Pending && row.acceptanceSubject == None && row.revision == 1 && row.tokenGeneration == 1
    && row.tokenExpiresAt == now + ttl && row.delivery == DeliveryPending && row.createdAt == now
  }

  /** The token `invite` hands out opens the invitation it made, for the normal form of the address, and no other
      invitation of the organization is pending for any address with that normal form. The invitation is at its
      first revision and generation, its deadline is the configured time from now, and the answer shows it so. */
  lemma InvitedTokenOpens(config: Config, r: Request, id: Uuid, organization: Name, address: Name, salt: nat,
                          at: Database, newId: Uuid, end: Database, answer: InviteAnswer, other: Uuid)
    requires Visited(at) && r.operation.Invite?
    requires Invites(config, r, id, organization, address, salt, at, newId, end, answer)
    requires answer.InviteAnswered? && answer.handed.Some?
    ensures id in end.invitations && end.invitations[id].tokenHash.Some?
    ensures Verifies(answer.handed.value, end.invitations[id].tokenHash.value)
    ensures Some(end.invitations[id].email) == NormalizeEmail(address) == Some(end.invitations[id].emailNormalized)
    ensures other in end.invitations && other != id && end.invitations[other].state.Pending? &&
            end.invitations[other].organization == organization ==>
      Some(end.invitations[other].emailNormalized) != NormalizeEmail(address)
    ensures NewlyOpen(end.invitations[id], organization, r.actor, at.now, config.tokenTtl)
    ensures Shows(answer.outcome.value.view, id, end.invitations[id]) && end.now == at.now
  {
    hide Visited, NormalizeEmail, RecordsOk, LedgerOk, CreateInvitation, Queues, Keeps, Logs, Settles;
    VisitedIsConsistent(at);
    var email, hash := NormalizeEmail(address).value, VerifierFor(id, 1, salt);
    DisclosedIsNew(at, r, organization, id, email, 1, hash, config.tokenTtl, newId);
    var db', result := InviteWrites(at, r, id, organization, email, email, hash, config.tokenTtl, newId);
    var _, _ := InviteRefusals(at, r, id, organization, email, email, hash, config.tokenTtl, newId);
    assert !Taken(at.invitations, organization, email);
  }

  /** An acceptance of the invitation as it stands, by somebody who presents its token and its revision. */
  ghost function Acceptance(db: Database, config: Config, r: Request, id: Uuid, commandId: Uuid,
                            lease: Uuid): Outcome<AcceptStart>
    requires id in db.invitations && db.invitations[id].tokenHash.Some?
  {
    var row := db.invitations[id];
    BeginAccept(db, r, id, row.revision, row.tokenGeneration, row.tokenHash.value, config.leaseSeconds, commandId,
                lease).1
  }

  /** Presenting the token to the invitation starts an acceptance until the deadline, and expires it from then on. */
  ghost predicate WorksUntil(deadline: Time, token: Token, db: Database, config: Config, r: Request, id: Uuid,
                             commandId: Uuid, lease: Uuid)
    requires id in db.invitations
  {
    && db.invitations[id].tokenHash.Some? && Verifies(token, db.invitations[id].tokenHash.value)
    && (db.now < deadline ==>
          var start := Acceptance(db, config, r, id, commandId, lease);
          start.Done? && start.value.Execute? && start.value.claimed.invitation == id &&
          start.value.claimed.kind == AddMember(r.actor))
    && (db.now >= deadline ==> Acceptance(db, config, r, id, commandId, lease) == Rejected(InvitationExpiredFailure))
  }

  /** Any time after an invitation was handed out, as long as its row is at its first revision, the token and that
      revision start an acceptance until the configured time is over. */
  lemma InvitedTokenWorks(config: Config, r: Request, id: Uuid, organization: Name, address: Name, salt: nat,
                          at: Database, newId: Uuid, end: Database, answer: InviteAnswer,
                          later: Database, r': Request, commandId: Uuid, lease: Uuid)
    requires Visited(at) && r.operation.Invite?
    requires Invites(config, r, id, organization, address, salt, at, newId, end, answer)
    requires answer.InviteAnswered? && answer.handed.Some?
    requires Visited(later) && Evolves(end, later) && id in later.invitations && later.invitations[id].revision == 1
    requires r'.operation.Accept? && r'.key !in later.mutations && commandId !in later.commands
    ensures WorksUntil(at.now + config.tokenTtl, answer.handed.value, later, config, r', id, commandId, lease)
  {
    hide Visited, Invites, RecordsOk, LedgerOk, BeginAccept, CommandsEvolve, MutationsEvolve;
    InvitedTokenOpens(config, r, id, organization, address, salt, at, newId, end, answer, id);
    VisitedIsConsistent(later);
    assert RowEvolves(end.invitations[id], later.invitations[id]);
    OpenUntilDeadline(later, r', id, config.leaseSeconds, commandId, lease);
  }

  // ------------------------------------------------------------------ resend

  /** `resend`: an unlocked read, the derivation of the next token, the transaction, and the token handed out. */
  ghost predicate Resends(config: Config, r: Request, organization: Name, id: Uuid, expectedRevision: int, salt: nat,
                          read: Database, at: Database, newId: Uuid, end: Database, outcome: Outcome<TokenResult>,
                          handed: Option<Token>)
  {
    && handed == HandedToken(outcome)
    && if id !in read.invitations || read.invitations[id].organization != organization then
         end == read && outcome == Rejected(InvitationNotFound)
       else
         && Rely(read, at, r.key, []) && newId !in at.commands
         && ResendInvitation(at, r, organization, id, expectedRevision,
                             VerifierFor(id, read.invitations[id].tokenGeneration + 1, salt),
                             config.tokenTtl, newId) == (end, outcome)
  }

  /** `token_response`. */
  function HandedToken(outcome: Outcome<TokenResult>): Option<Token> {
    if outcome.Done? && outcome.value.disclose
    then Some(Derived(outcome.value.view.invitation, outcome.value.generation))
    else None
  }

  /** The token `resend` hands out opens the invitation it leaves behind if and only if the row it had read before
      its transaction was already at the expected revision. */
  lemma HandedTokenOpensIff(config: Config, r: Request, organization: Name, id: Uuid, expectedRevision: int, salt: nat,
                            read: Database, at: Database, newId: Uuid, end: Database, outcome: Outcome<TokenResult>,
                            handed: Option<Token>)
    requires Visited(read)
    requires Resends(config, r, organization, id, expectedRevision, salt, read, at, newId, end, outcome, handed)
    requires handed.Some?
    ensures id in read.invitations && id in end.invitations && end.invitations[id].tokenHash.Some?
    ensures handed.value == Derived(id, end.invitations[id].tokenGeneration)
    ensures Verifies(handed.value, end.invitations[id].tokenHash.value) <==>
      read.invitations[id].revision >= expectedRevision
  {
    hide RecordsOk, LedgerOk, UniqueKeys, KeepsReservation, KeepsLost, HasKey, InsertCommand, SupersedeNotifications,
         CommandsEvolve, MutationsEvolve;
    VisitedIsConsistent(read);
    RowIsOk(read, id);
    RowIsOk(at, id);
    assert RowEvolves(read.invitations[id], at.invitations[id]);
  }

  /** Any time after such a resend, as long as its row is at the revision the resend made, the handed token and that
      revision start an acceptance until the configured time is over, counted from the resend. */
  lemma ResentTokenWorks(config: Config, r: Request, organization: Name, id: Uuid, expectedRevision: int, salt: nat,
                         read: Database, at: Database, newId: Uuid, end: Database, outcome: Outcome<TokenResult>,
                         handed: Option<Token>, later: Database, r': Request, commandId: Uuid, lease: Uuid)
    requires Visited(read) && r.operation.Resend?
    requires Resends(config, r, organization, id, expectedRevision, salt, read, at, newId, end, outcome, handed)
    requires handed.Some? && id in read.invitations && read.invitations[id].revision >= expectedRevision
    requires Visited(later) && Evolves(end, later)
    requires id in later.invitations && later.invitations[id].revision == expectedRevision + 1
    requires r'.operation.Accept? && r'.key !in later.mutations && commandId !in later.commands
    ensures id in end.invitations && Shows(outcome.value.view, id, end.invitations[id])
    ensures WorksUntil(at.now + config.tokenTtl, handed.value, later, config, r', id, commandId, lease)
  {
    hide Visited, Resends, RecordsOk, LedgerOk, BeginAccept, CommandsEvolve, MutationsEvolve;
    HandedTokenOpensIff(config, r, organization, id, expectedRevision, salt, read, at, newId, end, outcome, handed);
    ResentRowIsOpen(config, r, organization, id, expectedRevision, salt, read, at, newId, end, outcome, handed);
    VisitedIsConsistent(later);
    assert RowEvolves(end.invitations[id], later.invitations[id]);
    OpenUntilDeadline(later, r', id, config.leaseSeconds, commandId, lease);
  }

  lemma ResentRowIsOpen(config: Config, r: Request, organization: Name, id: Uuid, expectedRevision: int, salt: nat,
                        read: Database, at: Database, newId: Uuid, end: Database, outcome: Outcome<TokenResult>,
                        handed: Option<Token>)
    requires Visited(read)
    requires Resends(config, r, organization, id, expectedRevision, salt, read, at, newId, end, outcome, handed)
    requires handed.Some?
    ensures id in end.invitations && Shows(outcome.value.view, id, end.invitations[id])
    ensures var row := end.invitations[id];
      row.state == Pending && row.acceptanceSubject == None && row.revision == expectedRevision + 1 &&
      row.tokenExpiresAt == at.now + config.tokenTtl
  {
    hide RecordsOk, LedgerOk, Evolves, UniqueKeys, KeepsReservation, KeepsLost, ResendInvitation, Queues, Silences,
    Logs,
         Settles;
    VisitedIsConsistent(read);
    var hash := VerifierFor(id, read.invitations[id].tokenGeneration + 1, salt);
    DisclosedIsNew(at, r, organization, id, "", expectedRevision, hash, config.tokenTtl, newId);
    var _, _ := ResendWrites(at, r, organization, id, expectedRevision, hash, config.tokenTtl, newId);
    var _, _ := ResendRefusals(at, r, organization, id, expectedRevision, hash, config.tokenTtl, newId);
  }

  // ---------------------------------------------------------------- dispatch

  /** Every outcome of `dispatch_due`. */
  ghost predicate Dispatches(config: Config, r: Request, organization: Name, limit: int, locked: set<Uuid>,
                             start: Database, b: Batch, end: Database, outcome: DispatchOutcome)
  {
    && (outcome.Invalid? <==> !(1 <= limit <= 100))
    && (outcome.Invalid? ==> end == start)
    && (1 <= limit <= 100 ==>
          match BeginMutation(start.mutations, r)
          case Conflict => outcome == Refused(IdempotencyConflict) && end == start
          case Running => outcome == Refused(IdempotencyConflict) && end == start
          case Replay(response) =>
            outcome == (if response.DispatchResponse? then Answered(response.dispatch) else Aborted) && end == start
          case New =>
            && b.reserved == BeginDispatch(start, r, organization).0
            && Ran(config, r, organization, limit, locked, b)
            && (outcome.Aborted? ==> Reserved(end.mutations, r.key))
            && (!outcome.Aborted? ==>
                  && |b.trace| == |b.records|
                  && outcome == Answered(Tally(config, b.trace, HasDueCommands(b.counted, organization)))
                  && Rely(b.counted, b.recorded, r.key, b.records)
                  && CompleteDispatch(b.recorded, r.key, outcome.result) == (end, Done(()))))
  }

  lemma AnswerCounts(config: Config, r: Request, organization: Name, limit: int, locked: set<Uuid>, start: Database,
                     b: Batch, end: Database, outcome: DispatchOutcome)
    requires Dispatches(config, r, organization, limit, locked, start, b, end, outcome)
    requires r.operation.DispatchDue? && r.key !in start.mutations && outcome.Answered?
    ensures Counted(outcome.result, b.trace)
    ensures outcome.result.hasMore <==>
      exists c :: c in b.counted.commands && IsDue(b.counted.commands[c], organization, b.counted.now)
    ensures r.key in end.mutations
    ensures end.mutations[r.key] == Mutation(
      operation := DispatchDue, actor := r.actor, hash := r.hash, organization := organization, invitation := None,
      command := None, status := Finished, response := Some(DispatchResponse(outcome.result)), createdAt := start.now)
  {
    hide Rely, Chain, ClaimDueCommands, HasDueCommands, IsDue, CountOf, Counted, CompleteDispatch, BeginDispatch;
    DispatchIsRecorded(config, r, organization, limit, locked, start, b, outcome.result, end);
    ChainExecutes(config, r.key, b.records, b.claimed, b.trace, b.counted);
    TallyByState(config, b.trace, HasDueCommands(b.counted, organization));
    MoreIsDue(b.counted, organization);
  }
}
