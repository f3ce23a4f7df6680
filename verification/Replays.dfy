/** Exactly-once: a committed request replays its stored answer and changes nothing, at any later moment; so
    the duplicates of a run can be deleted from it. */
module Replays {
  import opened Schema
  import opened Storage
  import opened Consistency
  import opened Outbox
  import opened Evolution
  import opened Protocol
  import opened Safety
  import opened Writes

  /** The ledger row is of this very request: the operation, the actor and the request hash are its own. */
  predicate Repeats(m: Mutation, r: Request) {
    m.operation == r.operation && m.actor == r.actor && m.hash == r.hash
  }

  /** The stored answer to a request, if it has been committed. */
  function StoredAnswer(db: Database, r: Request): Option<Response> {
    if r.key in db.mutations && Repeats(db.mutations[r.key], r) then db.mutations[r.key].response else None
  }

  /** The client request a step carries. */
  function RequestOf(s: Step): Option<Request> {
    match s
    case StepInvite(r, _, _, _, _, _) => Some(r)
    case StepResend(r, _, _, _, _, _) => Some(r)
    case StepRevoke(r, _, _, _, _, _) => Some(r)
    case StepBeginAccept(r, _, _, _, _, _) => Some(r)
    case StepExpireDue(r, _, _, _, _) => Some(r)
    case StepBeginDispatch(r, _) => Some(r)
    case _ => None
  }

  /** What a client step answers, in the form the ledger stores; no answer for a refusal or a start. */
  ghost function AnswerOf(w: World, s: Step): Option<Response>
    requires Enabled(w, s)
  {
    match s
    case StepInvite(_, _, _, _, _, _) => TokenAnswer(InviteOutcome(w, s).1)
    case StepResend(_, _, _, _, _, _) => TokenAnswer(ResendOutcome(w, s).1)
    case StepRevoke(_, _, _, _, _, _) =>
      if RevokeOutcome(w, s).1.Done? then Some(ViewResponse(RevokeOutcome(w, s).1.value)) else None
    case StepBeginAccept(_, _, _, _, _, _) =>
      if AcceptOutcome(w, s).1.Done? && AcceptOutcome(w, s).1.value.AcceptReplay?
      then Some(AcceptedResponse(AcceptOutcome(w, s).1.value.record))
      else None
    case StepExpireDue(r, organization, limit, locked, newIds) =>
      var outcome := ExpireDueInvitations(w.db, r, organization, limit, locked, newIds).1;
      if outcome.Done? then Some(ExpireResponse(outcome.value)) else None
    case StepBeginDispatch(r, organization) =>
      var outcome := BeginDispatch(w.db, r, organization).1;
      if outcome.Done? && outcome.value.Some? then Some(DispatchResponse(outcome.value.value)) else None
    case _ => None
  }

  function TokenAnswer(outcome: Outcome<TokenResult>): Option<Response> {
    if outcome.Done? then Some(TokenResponse(outcome.value.view, outcome.value.generation)) else None
  }

  /** A step whose request is already committed is answered from the ledger and changes nothing, in the
      database or anywhere else. */
  lemma ReplayAnswersAndStutters(w: World, s: Step)
    requires Reachable(w) && Enabled(w, s) && RequestOf(s).Some? && StoredAnswer(w.db, RequestOf(s).value).Some?
    ensures Next(w, s) == w
    ensures AnswerOf(w, s) == StoredAnswer(w.db, RequestOf(s).value)
  {
    hide RecordsOk, BindingsOk, KnowledgeOk, ProviderOk, Leases.ClaimsOk, PendingEmail, HasKey, Advance, ExpireRows;
    ReachableWorld(w);
    var r := RequestOf(s).value;
    StoredAnswerFits(w.db, r);
  }

  /** How a client step is refused, if it is. */
  ghost function RefusalOf(w: World, s: Step): Option<DomainFailure>
    requires Enabled(w, s)
  {
    match s
    case StepInvite(_, _, _, _, _, _) => FailureOf(InviteOutcome(w, s).1)
    case StepResend(_, _, _, _, _, _) => FailureOf(ResendOutcome(w, s).1)
    case StepRevoke(_, _, _, _, _, _) => FailureOf(RevokeOutcome(w, s).1)
    case StepBeginAccept(_, _, _, _, _, _) => FailureOf(AcceptOutcome(w, s).1)
    case StepExpireDue(r, organization, limit, locked, newIds) =>
      FailureOf(ExpireDueInvitations(w.db, r, organization, limit, locked, newIds).1)
    case StepBeginDispatch(r, organization) => FailureOf(BeginDispatch(w.db, r, organization).1)
    case _ => None
  }

  /** A key is bound to the request that used it first: under another operation, actor or hash every operation refuses
      it, and one that is still running is refused to all but an acceptance, which is told that it is in progress.
      Neither changes anything. */
  lemma KeysAreBound(w: World, s: Step)
    requires Enabled(w, s) && RequestOf(s).Some? && RequestOf(s).value.key in w.db.mutations
    ensures var m := w.db.mutations[RequestOf(s).value.key];
      && (!Repeats(m, RequestOf(s).value) ==> RefusalOf(w, s) == Some(IdempotencyConflict) && Next(w, s) == w)
      && (Repeats(m, RequestOf(s).value) && m.response == None ==>
            && Next(w, s) == w
            && if s.StepBeginAccept? then AcceptOutcome(w, s).1 == Done(InProgress)
               else RefusalOf(w, s) == Some(IdempotencyConflict))
  {
    hide PendingEmail, HasKey, Advance, ExpireRows;
  }

  lemma StoredAnswerFits(db: Database, r: Request)
    requires Consistent(db) && StoredAnswer(db, r).Some?
    ensures ResponseFits(r.operation, StoredAnswer(db, r).value)
    ensures r.key in db.mutations && db.mutations[r.key].status.Finished?
  {
    hide RecordsOk, BindingsOk;
    assert MutationOk(db.mutations[r.key], db.invitations, db.commands);
  }

  /** A stored answer is stored for ever. */
  lemma AnswersPersist(w: World, steps: seq<Step>, r: Request)
    requires Reachable(w) && CanRun(w, steps) && StoredAnswer(w.db, r).Some?
    ensures StoredAnswer(Run(w, steps).db, r) == StoredAnswer(w.db, r)
  {
    hide RecordsOk, LedgerOk, KnowledgeOk, ProviderOk, Leases.ClaimsOk, InvitationsEvolve, CommandsEvolve, CanRun, Run;
    ReachableWorld(w);
    RunKeepsWorld(w, steps);
    StoredAnswerFits(w.db, r);
    assert MutationEvolves(w.db.mutations[r.key], r.key, Run(w, steps).db.mutations);
  }

  /** An answer a client was given by `invite`, `resend`, `revoke` or `expire_due` is the stored one. */
  lemma AnswersAreStored(w: World, s: Step)
    requires Reachable(w) && Enabled(w, s) && RequestOf(s).Some? && AnswerOf(w, s).Some?
    ensures StoredAnswer(Next(w, s).db, RequestOf(s).value) == AnswerOf(w, s)
  {
    hide RecordsOk, BindingsOk, KnowledgeOk, ProviderOk, Leases.ClaimsOk, PendingEmail, HasKey, Advance, ExpireRows;
    ReachableWorld(w);
    var r := RequestOf(s).value;
    if StoredAnswer(w.db, r).Some? {
      ReplayAnswersAndStutters(w, s);
    }
  }

  /** Exactly once: whatever happens after a request was answered, repeating it under any fresh identifiers
      gives the same answer and leaves the world as it is. */
  lemma RepeatIsExact(w: World, s: Step, steps: seq<Step>, s': Step)
    requires Reachable(w) && Enabled(w, s) && RequestOf(s).Some? && AnswerOf(w, s).Some?
    requires CanRun(Next(w, s), steps) && Enabled(Run(Next(w, s), steps), s') && RequestOf(s') == RequestOf(s)
    ensures Next(Run(Next(w, s), steps), s') == Run(Next(w, s), steps)
    ensures AnswerOf(Run(Next(w, s), steps), s') == AnswerOf(w, s)
  {
    hide WorldOk, Next, Enabled, CanRun, Run, AnswerOf, StoredAnswer;
    ReachableWorld(w);
    var r := RequestOf(s).value;
    AnswersAreStored(w, s);
    StepKeepsWorld(w, s);
    ReachableStep(w, s);
    AnswersPersist(Next(w, s), steps, r);
    ReachableRun(Next(w, s), steps);
    RunKeepsWorld(Next(w, s), steps);
    ReplayAnswersAndStutters(Run(Next(w, s), steps), s');
  }

  /** A completed acceptance answers every repetition of its request with the record it was completed with. */
  lemma AcceptanceAnswersItsRequest(w: World, s: Step, k: MutationKey)
    requires Reachable(w) && Enabled(w, s) && s.StepCompleteAccept?
    requires k in w.db.mutations && BoundTo(w.db.mutations[k], s.claim.command)
    requires HoldsClaim(w, s.claim) && Fenced(w.db.commands, w.claims[s.claim].record)
    ensures CompletionOutcome(w, s).1.Done? && CompletionOutcome(w, s).1.value.membershipId == s.membershipId
    ensures StoredAnswer(CompletionOutcome(w, s).0, Request(k, Accept, w.db.mutations[k].actor, w.db.mutations[k].hash))
              == Some(AcceptedResponse(CompletionOutcome(w, s).1.value))
    ensures Next(w, s).db == CompletionOutcome(w, s).0
  {
    hide WorldOk, CompleteAccept, Fenced, StoredAnswer;
    ReachableWorld(w);
    Waiting(w, s.claim);
    CompleteAcceptWrites(w.db, w.claims[s.claim].record, s.membershipId, s.providerRevision, s.newId, k);
    FinishedAnswers(CompletionOutcome(w, s).0, k);
  }

  lemma FinishedAnswers(db: Database, k: MutationKey)
    requires k in db.mutations && db.mutations[k].response.Some?
    ensures var m := db.mutations[k]; StoredAnswer(db, Request(k, m.operation, m.actor, m.hash)) == m.response
  {
  }

  lemma Waiting(w: World, id: ClaimId)
    requires WorldOk(w) && HoldsAddMember(w, id) && Fenced(w.db.commands, w.claims[id].record)
    ensures var record := w.claims[id].record;
      && record.command == id.command
      && record.invitation in w.db.invitations
      && w.db.invitations[record.invitation].state.Pending?
      && w.db.invitations[record.invitation].acceptanceSubject == SubjectOf(record.kind)
  {
    hide Consistent, KnowledgeOk, ProviderOk, Leases.ClaimsOk;
    ClaimIsHeld(w, id);
    CommandIsOk(w.db, id.command);
  }

  lemma CompleteAcceptWrites(db: Database, record: CommandRecord, membershipId: Name, providerRevision: Name,
                             newId: Uuid, k: MutationKey)
    requires Fenced(db.commands, record) && record.invitation in db.invitations
    requires db.invitations[record.invitation].state.Pending?
    requires db.invitations[record.invitation].acceptanceSubject == SubjectOf(record.kind)
    requires k in db.mutations && BoundTo(db.mutations[k], record.command)
    ensures var (db', outcome) := CompleteAccept(db, record, membershipId, providerRevision, newId);
      && outcome.Done? && outcome.value.membershipId == membershipId
      && k in db'.mutations
      && db'.mutations[k] == db.mutations[k].(status := Finished, response := Some(AcceptedResponse(outcome.value)))
  {
    hide InsertCommand;
  }

  /** A completed command is answered again with an equal record, whatever lease the caller still holds. */
  lemma CompletionReplays(w: World, s: Step, steps: seq<Step>, record: CommandRecord, membershipId: Name,
                          providerRevision: Name, newId: Uuid)
    requires Reachable(w) && Enabled(w, s) && s.StepCompleteAccept? && Fenced(w.db.commands, w.claims[s.claim].record)
    requires CanRun(Next(w, s), steps)
    requires record.command == s.claim.command && record.invitation == w.claims[s.claim].record.invitation
    ensures var first := CompleteAccept(w.db, w.claims[s.claim].record, s.membershipId, s.providerRevision, s.newId);
      var db := Run(Next(w, s), steps).db;
      first.1.Done? && CompleteAccept(db, record, membershipId, providerRevision, newId) == (db, first.1)
  {
    hide Consistent, KnowledgeOk, ProviderOk, Leases.ClaimsOk, HasKey, InsertCommand, CanRun, Run, Evolves, RowEvolves,
         CommandEvolves;
    ReachableWorld(w);
    ClaimIsHeld(w, s.claim);
    CommandIsOk(w.db, s.claim.command);
    StepKeepsWorld(w, s);
    RunKeepsWorld(Next(w, s), steps);
    var db0, db := Next(w, s).db, Run(Next(w, s), steps).db;
    CompletedRows(w, s);
    SettledStays(db0, db, s.claim.command, record.invitation);
  }

  lemma CompletedRows(w: World, s: Step)
    requires WorldOk(w) && Enabled(w, s) && s.StepCompleteAccept? && Fenced(w.db.commands, w.claims[s.claim].record)
    ensures var db := Next(w, s).db;
      var id := w.claims[s.claim].record.invitation;
      && s.claim.command in db.commands && db.commands[s.claim.command].state.Completed?
      && id in db.invitations && db.invitations[id].state.Accepted?
      && AcceptedRecordOf(id, db.invitations[id]).Some?
      && CompleteAccept(w.db, w.claims[s.claim].record, s.membershipId, s.providerRevision, s.newId).1 ==
           Done(AcceptedRecordOf(id, db.invitations[id]).value)
  {
    hide RecordsOk, LedgerOk, KnowledgeOk, ProviderOk, Leases.ClaimsOk, HasKey;
    ClaimIsHeld(w, s.claim);
    CommandIsOk(w.db, s.claim.command);
  }

  lemma SettledStays(db: Database, db': Database, c: Uuid, id: Uuid)
    requires Evolves(db, db') && c in db.commands && !Active(db.commands[c])
    requires id in db.invitations && !db.invitations[id].state.Pending?
    ensures c in db'.commands && db'.commands[c] == db.commands[c]
    ensures id in db'.invitations && db'.invitations[id] == db.invitations[id]
  {
    assert CommandEvolves(db.commands[c], db'.commands[c]);
    assert RowEvolves(db.invitations[id], db'.invitations[id]);
  }

  // ----------------------------------------------------- deleting duplicates

  /** A run without the steps whose request was already committed when they came. */
  ghost function DropReplays(w: World, steps: seq<Step>): seq<Step>
    requires CanRun(w, steps)
    decreases |steps|
  {
    if steps == [] then []
    else
      var rest := DropReplays(Next(w, steps[0]), steps[1..]);
      if RequestOf(steps[0]).Some? && StoredAnswer(w.db, RequestOf(steps[0]).value).Some?
      then rest
      else [steps[0]] + rest
  }

  /** Deleting every replayed duplicate from a run leaves a run, and it ends in the same world. */
  lemma {:induction false} DuplicatesDoNotMatter(w: World, steps: seq<Step>)
    requires Reachable(w) && CanRun(w, steps)
    ensures CanRun(w, DropReplays(w, steps))
    ensures Run(w, DropReplays(w, steps)) == Run(w, steps)
    decreases |steps|
  {
    hide WorldOk, Next, Enabled, StoredAnswer;
    ReachableWorld(w);
    if steps != [] {
      var s := steps[0];
      StepKeepsWorld(w, s);
      ReachableStep(w, s);
      DuplicatesDoNotMatter(Next(w, s), steps[1..]);
      if RequestOf(s).Some? && StoredAnswer(w.db, RequestOf(s).value).Some? {
        ReplayAnswersAndStutters(w, s);
      } else {
        var rest := DropReplays(Next(w, s), steps[1..]);
        assert ([s] + rest)[1..] == rest;
      }
    }
  }
}
