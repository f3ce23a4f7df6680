/** One process of the plugin among others: what it may count on while they run, which protocol step each of its
    transactions is, and what lies outside it: the membership provider and the source of lease tokens. */
module Processes {
  import opened Schema
  import opened Storage
  import opened Outbox
  import opened Evolution
  import opened Protocol
  import opened Backoff
  import opened Safety
  import opened Store
  import opened Worker
  import opened Dispatch

  // ------------------------------------------------------------------ succession

  ghost predicate FollowedBy(a: World, b: World, steps: seq<Step>) {
    CanRun(a, steps) && Run(a, steps) == b
  }

  /** Some run leads from one world to the other. */
  ghost predicate Follows(a: World, b: World) {
    exists steps: seq<Step> :: FollowedBy(a, b, steps)
  }

  /** Some run in which nobody completes the reservation `mine` does. */
  ghost predicate FollowsAlone(a: World, b: World, mine: MutationKey) {
    exists steps: seq<Step> :: FollowedBy(a, b, steps) && LeaveAlone(steps, mine)
  }

  lemma FollowsReflexive(a: World, mine: MutationKey)
    ensures Follows(a, a) && FollowsAlone(a, a, mine)
  {
    assert FollowedBy(a, a, []) && LeaveAlone([], mine);
  }

  lemma FollowsTransitive(a: World, b: World, c: World)
    requires Follows(a, b) && Follows(b, c)
    ensures Follows(a, c)
  {
    hide CanRun, Run;
    var first: seq<Step> :| FollowedBy(a, b, first);
    var second: seq<Step> :| FollowedBy(b, c, second);
    RunOn(a, first, second);
    assert FollowedBy(a, c, first + second);
  }

  lemma AloneFollows(a: World, b: World, mine: MutationKey)
    requires FollowsAlone(a, b, mine)
    ensures Follows(a, b)
  {
    hide FollowedBy, LeaveAlone;
  }

  /** A run goes on by one step. */
  lemma FollowsStep(a: World, b: World, s: Step)
    requires Follows(a, b) && Reachable(b) && Enabled(b, s)
    ensures Follows(a, Next(b, s)) && Reachable(Next(b, s))
  {
    hide Next, Enabled, Reachable;
    ReachableStep(b, s);
    assert [s][1..] == [];
    assert CanRun(Next(b, s), []);
    assert Run(Next(b, s), []) == Next(b, s);
    assert FollowedBy(b, Next(b, s), [s]);
    FollowsTransitive(a, b, Next(b, s));
  }

  lemma InitIsReachable(config: Config, now: Time)
    requires ValidConfig(config)
    ensures Reachable(Init(config, now))
  {
    assert ReachedBy(Init(config, now), config, now, []);
  }

  // -------------------------------------------------------- what a process keeps

  /** What the process knows it goes on knowing. */
  predicate Remembers(a: World, b: World) {
    && b.config == a.config
    && a.snapshots <= b.snapshots && a.stale <= b.stale && a.answers <= b.answers
    && forall id | id in a.claims :: id in b.claims && b.claims[id] == a.claims[id]
  }

  lemma StepRemembers(w: World, s: Step)
    requires WorldOk(w) && Enabled(w, s)
    ensures Remembers(w, Next(w, s))
  {
    hide WorldOk, Enabled;
    StepKeepsClaims(w, s);
    if s.StepRead? || s.StepMatch? || s.StepAddMember? || s.StepAnswer? {
      ObservationRemembers(w, s);
    } else {
      hide Next;
      StepReadsNothing(w, s);
      StepAsksNobody(w, s);
    }
  }

  lemma ObservationRemembers(w: World, s: Step)
    requires Enabled(w, s) && (s.StepRead? || s.StepMatch? || s.StepAddMember? || s.StepAnswer?)
    ensures var w' := Next(w, s);
      w'.config == w.config && w.snapshots <= w'.snapshots && w.stale <= w'.stale && w.answers <= w'.answers &&
      w'.claims == w.claims
  {
  }

  lemma {:induction false} RunRemembers(w: World, steps: seq<Step>)
    requires WorldOk(w) && CanRun(w, steps)
    ensures Remembers(w, Run(w, steps))
    decreases |steps|
  {
    hide WorldOk, Next, Enabled, Evolves;
    if steps != [] {
      StepRemembers(w, steps[0]);
      StepKeepsWorld(w, steps[0]);
      RunRemembers(Next(w, steps[0]), steps[1..]);
    }
  }

  /** While others run, a process can rely on its reservation, on what it knows, and on lost leases staying lost. */
  lemma WhileOthersRun(a: World, b: World, mine: MutationKey, records: seq<CommandRecord>)
    requires Reachable(a) && FollowsAlone(a, b, mine) && HoldsRecords(a, records)
    ensures Reachable(b) && Remembers(a, b) && Follows(a, b)
    ensures Rely(a.db, b.db, mine, records) && HoldsRecords(b, records)
  {
    hide Reachable, WorldOk, CanRun, Run, LeaveAlone, Rely;
    AloneFollows(a, b, mine);
    var steps: seq<Step> :| FollowedBy(a, b, steps) && LeaveAlone(steps, mine);
    ReachableWorld(a);
    ReachableRun(a, steps);
    RunRemembers(a, steps);
    RunsAreReliedOn(a, steps, mine, records);
  }

  // ------------------------------------------------------- transactions are steps

  /** The step a worker's decision on its claim is. */
  function StepFor(id: ClaimId, decision: Decision, newId: Uuid): Step {
    match decision
    case Discard => StepSupersede(id)
    case Later(error) => StepRetry(id, error)
    case GiveUp(error) => StepFail(id, error, newId)
    case Finish(MembershipReceipt(membershipId, revision)) => StepCompleteAccept(id, membershipId, revision, newId)
    case Finish(NotificationReceipt(intentId, deliveryId)) => StepCompleteNotification(id, intentId, deliveryId)
    case Finish(LifecycleReceipt(recorded)) => StepCompleteLifecycle(id, recorded)
  }

  /** The holder of a record may take that step: what it discards it found stale, and a membership it reports the
      provider has answered. */
  predicate MayDecide(w: World, record: CommandRecord, decision: Decision) {
    && HoldsRecord(w, record) && Suits(record.kind, decision)
    && (decision.Discard? ==> ClaimIdOf(record) in w.stale)
    && (decision.Finish? && decision.receipt.MembershipReceipt? ==>
          Answer(ClaimIdOf(record), decision.receipt.membershipId) in w.answers)
  }

  /** A worker's transaction is a step of the protocol. */
  lemma DecisionIsAStep(w: World, record: CommandRecord, decision: Decision, newId: Uuid)
    requires MayDecide(w, record, decision) && newId !in w.db.commands
    ensures var s := StepFor(ClaimIdOf(record), decision, newId);
      Enabled(w, s) && Next(w, s) == w.(db := Carry(w.db, w.config, record, decision, newId).0)
  {
    hide Carry, Next;
    var s := StepFor(ClaimIdOf(record), decision, newId);
    FinishIsCarry(w, s);
    SameCarry(w.db, w.config, record, decision, newId, NewIdOf(s));
  }

  lemma SameCarry(db: Database, config: Config, record: CommandRecord, decision: Decision, newId: Uuid, other: Uuid)
    requires Inserts(decision) ==> newId == other
    ensures Carry(db, config, record, decision, newId) == Carry(db, config, record, decision, other)
  {
    hide Delay, SupersedeCommand, RetryCommand, FailCommand, CompleteAccept, CompleteNotification, CompleteLifecycle;
  }

  /** A decision to discard is taken only on a command found stale. */
  lemma DiscardsOnlyUnmatched(config: Config, record: CommandRecord, db: Database, replies: Replies)
    requires Decide(config, record, MatchedRow(db, record), replies).Discard?
    ensures MatchedRow(db, record).None?
  {
  }

  lemma MatchIsAStep(w: World, record: CommandRecord)
    requires HoldsRecord(w, record)
    ensures var s := StepMatch(ClaimIdOf(record));
      && Enabled(w, s) && Next(w, s).db == w.db
      && Next(w, s) == w.(matched := Next(w, s).matched, stale := Next(w, s).stale)
      && (MatchedRow(w.db, record).None? ==> ClaimIdOf(record) in Next(w, s).stale)
  {
  }

  lemma ReadIsAStep(w: World, id: Uuid)
    ensures var s := StepRead(id);
      && Enabled(w, s) && Next(w, s) == w.(snapshots := Next(w, s).snapshots)
      && (id in w.db.invitations ==> Snapshot(id, w.db.invitations[id]) in Next(w, s).snapshots)
  {
  }

  /** The records a claim hands out are held from then on. */
  lemma {:induction false} HandedRecords(w: World, records: seq<CommandRecord>, n: nat)
    requires n <= |records| && DistinctCommands(records)
    ensures forall m | 0 <= m < n :: HoldsRecord(WithClaims(w, records, n), records[m])
    ensures forall id | id in WithClaims(w, records, n).claims ::
      (id in w.claims && WithClaims(w, records, n).claims[id] == w.claims[id]) ||
      exists m :: 0 <= m < n && WithClaims(w, records, n).claims[id].record == records[m]
  {
    if n > 0 {
      HandedRecords(w, records, n - 1);
      var before, after := WithClaims(w, records, n - 1), WithClaims(w, records, n);
      forall m | 0 <= m < n ensures HoldsRecord(after, records[m]) {
        if m < n - 1 { assert HoldsRecord(before, records[m]) && records[m].command != records[n - 1].command; }
      }
    }
  }

  lemma ClaimIsAStep(w: World, organization: Name, limit: int, locked: set<Uuid>, leases: seq<Uuid>)
    requires limit <= |leases| && UnusedLeases(w.claims, leases)
    ensures var s := StepClaim(organization, limit, locked, leases);
      var (db, records) := ClaimDueCommands(w.db, organization, limit, w.config.leaseSeconds, locked, leases);
      && Enabled(w, s) && Next(w, s) == w.(db := db, claims := Next(w, s).claims)
      && db.mutations == w.db.mutations && |records| <= (if limit <= 0 then 0 else limit)
      && HoldsRecords(Next(w, s), records)
      && (forall id | id in Next(w, s).claims ::
            (id in w.claims && Next(w, s).claims[id] == w.claims[id]) || Next(w, s).claims[id].record.lease in leases)
  {
    hide ClaimDueCommands;
    var (db, records) := ClaimDueCommands(w.db, organization, limit, w.config.leaseSeconds, locked, leases);
    ClaimDb(w, organization, limit, locked, leases);
    ClaimedBatch(w.db, organization, limit, w.config.leaseSeconds, locked, leases);
    HandedRecords(w.(db := db), records, |records|);
  }

  lemma DispatchIsAStep(w: World, r: Request, organization: Name)
    requires r.operation.DispatchDue?
    ensures var s := StepBeginDispatch(r, organization);
      Enabled(w, s) && Next(w, s) == w.(db := BeginDispatch(w.db, r, organization).0)
  {
  }

  lemma RecordIsAStep(w: World, key: MutationKey, result: DispatchResult)
    ensures var s := StepCompleteDispatch(key, result);
      Enabled(w, s) && Next(w, s) == w.(db := CompleteDispatch(w.db, key, result).0)
  {
  }

  lemma InviteIsAStep(w: World, r: Request, id: Uuid, organization: Name, email: Name, salt: nat, newId: Uuid)
    requires r.operation.Invite? && newId !in w.db.commands
    ensures var s := StepInvite(r, id, organization, email, salt, newId);
      Enabled(w, s) && Next(w, s) == w.(db :=
        CreateInvitation(w.db, r, id, organization, email, email, VerifierFor(id, 1, salt), w.config.tokenTtl, newId).0)
  {
    hide CreateInvitation;
  }

  lemma ResendIsAStep(w: World, r: Request, organization: Name, expectedRevision: int, snapshot: Snapshot, salt: nat,
                      newId: Uuid)
    requires r.operation.Resend? && newId !in w.db.commands && snapshot in w.snapshots
    requires snapshot.row.organization == organization
    ensures var s := StepResend(r, organization, expectedRevision, snapshot, salt, newId);
      Enabled(w, s) && Next(w, s) == w.(db :=
        ResendInvitation(w.db, r, organization, snapshot.invitation, expectedRevision,
                         VerifierFor(snapshot.invitation, snapshot.row.tokenGeneration + 1,
                                     salt), w.config.tokenTtl, newId).0)
  {
    hide ResendInvitation;
  }

  lemma RevokeIsAStep(w: World, r: Request, organization: Name, id: Uuid, expectedRevision: int, reason: Name,
                      newId: Uuid)
    requires r.operation.Revoke? && newId !in w.db.commands
    ensures var s := StepRevoke(r, organization, id, expectedRevision, reason, newId);
      Enabled(w, s) && Next(w, s) == w.(db :=
        RevokeInvitation(w.db, r, organization, id, expectedRevision, reason, newId).0)
  {
    hide RevokeInvitation;
  }

  lemma ExpiryIsAStep(w: World, r: Request, organization: Name, limit: int, locked: set<Uuid>, newIds: seq<Uuid>)
    requires r.operation.ExpireDue? && limit <= |newIds| && FreshIn(w.db.commands, newIds)
    ensures var s := StepExpireDue(r, organization, limit, locked, newIds);
      Enabled(w, s) && Next(w, s) == w.(db := ExpireDueInvitations(w.db, r, organization, limit, locked, newIds).0)
  {
    hide ExpireDueInvitations, FreshIn;
  }

  lemma AcceptIsAStep(w: World, r: Request, expectedRevision: int, token: Token, snapshot: Snapshot, newId: Uuid,
                      lease: Uuid)
    requires r.operation.Accept? && newId !in w.db.commands && UnusedLease(w.claims, lease) && snapshot in w.snapshots
    requires snapshot.row.state.Pending? && snapshot.row.tokenHash.Some?
    requires Verifies(token, snapshot.row.tokenHash.value)
    ensures var s := StepBeginAccept(r, expectedRevision, token, snapshot, newId, lease);
      var (db, start) := BeginAccept(w.db, r, snapshot.invitation, expectedRevision, snapshot.row.tokenGeneration,
                                     snapshot.row.tokenHash.value, w.config.leaseSeconds, newId, lease);
      && Enabled(w, s) && Next(w, s) == w.(db := db, claims := Next(w, s).claims)
      && (forall id | id in Next(w, s).claims ::
            (id in w.claims && Next(w, s).claims[id] == w.claims[id]) || Next(w, s).claims[id].record.lease == lease)
      && (start.Done? && start.value.Execute? ==>
            HoldsRecord(Next(w, s), start.value.claimed) && start.value.claimed.kind.AddMember?)
  {
    hide AcceptStarted, Expire, InsertedId, HasKey;
  }

  // ------------------------------------------------------------------ the outside

  /** How a call to the membership provider goes: it is answered, its answer is lost after or before it took effect,
      or it is refused. `membershipId` is the id a new membership would get. */
  datatype MemberCall =
    | CallDelivered(membershipId: Name, revision: Name)
    | CallLost(applied: bool, membershipId: Name)
    | CallRefused(conflict: bool)

  predicate LeasesDrawn(claims: map<ClaimId, Claim>, leases: set<Uuid>) {
    forall id | id in claims :: claims[id].record.lease in leases
  }

  /** The provider's ledger after it applied a request. */
  function Applied(memberships: map<CommandKey, Membership>, record: CommandRecord,
                   membershipId: Name): map<CommandKey, Membership>
    requires record.kind.AddMember?
  {
    if record.key in memberships then memberships
    else memberships[record.key := Membership(record.organization, record.kind.subject, membershipId)]
  }

  /** The provider holds exactly this membership for the request. */
  predicate Holds(memberships: map<CommandKey, Membership>, record: CommandRecord, membershipId: Name)
    requires record.kind.AddMember?
  {
    record.key in memberships && memberships[record.key] ==
      Membership(record.organization, record.kind.subject, membershipId)
  }

  class Surroundings {
    /** The memberships the provider holds, by idempotency key. */
    var memberships: map<CommandKey, Membership>
    /** The lease tokens anybody has drawn. */
    var leases: set<Uuid>

    constructor ()
      ensures memberships == map[] && leases == {}
    {
      memberships, leases := map[], {};
    }

    /** `add_member`: a request under a known key is answered with the stored membership, or conflicts with it. */
    method AddMember(record: CommandRecord, call: MemberCall) returns (reply: MemberReply)
      requires record.kind.AddMember?
      modifies `memberships
      ensures memberships ==
        if call.CallDelivered? || (call.CallLost? && call.applied)
        then Applied(old(memberships), record, call.membershipId)
        else old(memberships)
      ensures match call
        case CallRefused(conflict) => reply == if conflict then MemberConflict else MemberRejected
        case CallLost(_, _) => reply == MemberUnavailable
        case CallDelivered(_, revision) =>
          record.key in memberships && reply ==
            if memberships[record.key].organization == record.organization &&
               memberships[record.key].subject == record.kind.subject
            then MemberAdded(memberships[record.key].id, revision)
            else MemberConflict
      ensures reply.MemberAdded? ==> Holds(memberships, record, reply.membershipId)
    {
      match call {
        case CallRefused(conflict) => return if conflict then MemberConflict else MemberRejected;
        case CallLost(applied, membershipId) =>
          if applied && record.key !in memberships {
            memberships := memberships[record.key :=
              Membership(record.organization, record.kind.subject, membershipId)];
          }
          return MemberUnavailable;
        case CallDelivered(membershipId, revision) =>
          if record.key !in memberships {
            memberships := memberships[record.key :=
              Membership(record.organization, record.kind.subject, membershipId)];
          }
          var stored := memberships[record.key];
          return if stored.organization == record.organization && stored.subject == record.kind.subject
                 then MemberAdded(stored.id, revision) else MemberConflict;
      }
    }

    /** A version 4 UUID nobody has drawn. */
    method DrawLease() returns (lease: Uuid)
      modifies `leases
      ensures lease !in old(leases) && leases == old(leases) + {lease}
    {
      UnusedId(leases);
      lease :| lease !in leases;
      leases := leases + {lease};
    }

    method DrawLeases(count: nat) returns (drawn: seq<Uuid>)
      modifies `leases
      ensures |drawn| == count && Distinct(drawn)
      ensures forall n | 0 <= n < |drawn| :: drawn[n] !in old(leases) && drawn[n] in leases
      ensures old(leases) <= leases
    {
      drawn := [];
      while |drawn| < count
        invariant |drawn| <= count && Distinct(drawn)
        invariant forall n | 0 <= n < |drawn| :: drawn[n] !in old(leases) && drawn[n] in leases
        invariant old(leases) <= leases
        decreases count - |drawn|
      {
        var lease := DrawLease();
        drawn := drawn + [lease];
      }
    }
  }

  /** A call to the provider is the protocol's call and answer. */
  lemma CallIsAStep(w: World, record: CommandRecord, membershipId: Name)
    requires HoldsRecord(w, record) && record.kind.AddMember?
    ensures var s := StepAddMember(ClaimIdOf(record), membershipId);
      Enabled(w, s) && Next(w, s) == w.(memberships := Applied(w.memberships, record, membershipId))
  {
  }

  lemma AnswerIsAStep(w: World, record: CommandRecord, membershipId: Name)
    requires HoldsRecord(w, record) && record.kind.AddMember? && Holds(w.memberships, record, membershipId)
    ensures var s := StepAnswer(ClaimIdOf(record));
      Enabled(w, s) && Next(w, s) == w.(answers := w.answers + {Answer(ClaimIdOf(record), membershipId)})
  {
  }
}
