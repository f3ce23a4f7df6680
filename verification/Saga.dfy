/** The acceptance saga and the notification outbox, read off the tables: for every reachable world and
    every invitation, where its commands and its ledger rows stand. */
module Saga {
  import opened Schema
  import opened Storage
  import opened Consistency
  import opened Effects
  import opened Outbox
  import opened Protocol
  import opened Safety

  // ----------------------------------------------------------- acceptance saga

  predicate MembershipCommand(db: Database, id: Uuid, c: Uuid) {
    c in db.commands && db.commands[c].invitation == id && db.commands[c].kind.AddMember?
  }

  predicate BoundMutation(db: Database, c: Uuid, k: MutationKey) {
    k in db.mutations && db.mutations[k].operation.Accept? && db.mutations[k].command == Some(c)
  }

  /** Exactly one accept mutation is bound to the command, and it is in the given status. */
  ghost predicate OneBound(db: Database, c: Uuid, status: Status) {
    exists k :: BoundMutation(db, c, k) && db.mutations[k].status == status &&
                forall l :: BoundMutation(db, c, l) ==> l == k
  }

  ghost predicate NoneBound(db: Database, c: Uuid) {
    forall k :: !BoundMutation(db, c, k)
  }

  predicate HoldsReceipt(m: Mutation, id: Uuid, row: Invitation) {
    m.response.Some? && m.response.value.AcceptedResponse? && ReceiptOf(m.response.value.record, id, row)
  }

  /** The bound mutation answers with the invitation's acceptance receipt. */
  ghost predicate AnswersReceipt(db: Database, id: Uuid, c: Uuid)
    requires id in db.invitations
  {
    forall k | BoundMutation(db, c, k) :: HoldsReceipt(db.mutations[k], id, db.invitations[id])
  }

  lemma AcceptMutationIsBound(db: Database, k: MutationKey)
    requires Consistent(db) && k in db.mutations
    ensures db.mutations[k].operation.Accept? <==> db.mutations[k].command.Some?
    ensures db.mutations[k].operation.Accept? ==> BindingOk(db.mutations[k], db.invitations, db.commands)
  {
    assert MutationOk(db.mutations[k], db.invitations, db.commands);
  }

  /** The ledger side of one membership command. */
  lemma BoundLedger(db: Database, id: Uuid, c: Uuid)
    requires Consistent(db) && id in db.invitations && MembershipCommand(db, id, c)
    ensures OneBound(db, c, Started) <==> Active(db.commands[c])
    ensures OneBound(db, c, Finished) <==> db.commands[c].state.Completed?
    ensures NoneBound(db, c) <==> db.commands[c].state.Failed?
    ensures db.commands[c].state.Completed? ==> AnswersReceipt(db, id, c)
  {
    hide RecordsOk, MutationsOk, BindingOk;
    var command := db.commands[c];
    CommandIsOk(db, c);
    assert Bound(db.mutations, c) <==> !command.state.Failed?;
    forall k | BoundMutation(db, c, k)
      ensures db.mutations[k].status.Started? ==> Active(command)
      ensures db.mutations[k].status.Finished? ==>
        command.state.Completed? && HoldsReceipt(db.mutations[k], id, db.invitations[id])
    {
      BoundStatus(db, c, k);
    }
    if Bound(db.mutations, c) {
      var k :| k in db.mutations && db.mutations[k].command == Some(c);
      AcceptMutationIsBound(db, k);
      assert BoundMutation(db, c, k);
    }
  }

  lemma BoundStatus(db: Database, c: Uuid, k: MutationKey)
    requires Consistent(db) && c in db.commands && BoundMutation(db, c, k)
    requires db.commands[c].invitation in db.invitations
    ensures db.mutations[k].status.Started? ==> Active(db.commands[c])
    ensures db.mutations[k].status.Finished? ==>
      db.commands[c].state.Completed? && HoldsReceipt(db.mutations[k], db.commands[c].invitation,
                                                      db.invitations[db.commands[c].invitation])
  {
    hide RecordsOk, BindingsOk, MutationsOk;
    AcceptMutationIsBound(db, k);
  }

  lemma MembershipCommandExists(db: Database, id: Uuid)
    requires Consistent(db) && id in db.invitations
    ensures db.invitations[id].acceptanceSubject.Some? <==> exists c :: MembershipCommand(db, id, c)
  {
    hide NumbersOk, EmailsOk, ActivityOk, LedgerOk, RowsOk, UniqueKeys;
    if db.invitations[id].acceptanceSubject.Some? {
      var key := MembershipKey(id);
      assert Owed(db.invitations[id], key);
      assert HasKey(db.commands, key);
      var c :| c in db.commands && db.commands[c].key == key;
      assert CommandOk(db.commands[c], db.invitations[db.commands[c].invitation]);
      assert MembershipCommand(db, id, c);
    }
    if c :| MembershipCommand(db, id, c) {
      assert CommandOk(db.commands[c], db.invitations[id]);
    }
  }

  /** The acceptance saga across invitation, outbox and ledger. An invitation has a subject if and only if it
      has a membership command, then exactly one. While the invitation is pending that command is active and
      exactly one started accept mutation is bound to it; the invitation is accepted if and only if the command
      is completed, and then exactly one finished mutation is bound, answering the acceptance receipt; it is
      expired if and only if the command failed, and then no mutation is bound. */
  lemma AcceptanceSaga(w: World, id: Uuid)
    requires Reachable(w) && id in w.db.invitations
    ensures var db, row := w.db, w.db.invitations[id];
      && (row.acceptanceSubject.Some? <==> exists c :: MembershipCommand(db, id, c))
      && (forall c, d :: MembershipCommand(db, id, c) && MembershipCommand(db, id, d) ==> c == d)
      && (forall c :: MembershipCommand(db, id, c) ==>
            && !row.state.Revoked?
            && !db.commands[c].state.Superseded?
            && Some(db.commands[c].kind.subject) == row.acceptanceSubject
            && (row.state.Pending? <==> Active(db.commands[c])) && (row.state.Pending? <==> OneBound(db, c, Started))
            && (row.state.Accepted? <==> db.commands[c].state.Completed?) &&
                (row.state.Accepted? <==> OneBound(db, c, Finished))
            && (row.state.Expired? <==> db.commands[c].state.Failed?) && (row.state.Expired? <==> NoneBound(db, c))
            && (row.state.Accepted? ==> AnswersReceipt(db, id, c)))
  {
    hide RecordsOk, LedgerOk, KnowledgeOk, ProviderOk, Leases.ClaimsOk, OneBound, NoneBound, AnswersReceipt;
    ReachableWorld(w);
    MembershipCommandExists(w.db, id);
    forall c, d | MembershipCommand(w.db, id, c) && MembershipCommand(w.db, id, d) ensures c == d {
      OneMembershipCommand(w.db, c, d);
    }
    forall c | MembershipCommand(w.db, id, c)
      ensures KindOk(w.db.commands[c].kind, w.db.commands[c].state, w.db.invitations[id])
      ensures OneBound(w.db, c, Started) <==> Active(w.db.commands[c])
      ensures OneBound(w.db, c, Finished) <==> w.db.commands[c].state.Completed?
      ensures NoneBound(w.db, c) <==> w.db.commands[c].state.Failed?
      ensures w.db.commands[c].state.Completed? ==> AnswersReceipt(w.db, id, c)
      ensures RowOk(w.db.invitations[id])
    {
      CommandIsOk(w.db, c);
      BoundLedger(w.db, id, c);
    }
  }

  /** Committed `started` ledger rows belong to an acceptance in progress or to a dispatch batch. */
  lemma StartedRows(w: World, k: MutationKey)
    requires Reachable(w) && k in w.db.mutations && w.db.mutations[k].status.Started?
    ensures w.db.mutations[k].operation.DispatchDue? ||
            (w.db.mutations[k].operation.Accept? && w.db.mutations[k].command.Some? &&
             w.db.mutations[k].command.value in w.db.commands &&
             Active(w.db.commands[w.db.mutations[k].command.value]) && w.db.mutations[k].invitation.Some? &&
             w.db.mutations[k].invitation.value in w.db.invitations &&
             w.db.invitations[w.db.mutations[k].invitation.value].state.Pending?)
  {
    hide RecordsOk, KnowledgeOk, ProviderOk, Leases.ClaimsOk, BindingsOk;
    ReachableWorld(w);
    var m := w.db.mutations[k];
    assert MutationOk(m, w.db.invitations, w.db.commands);
    if m.operation.Accept? {
      AcceptMutationIsBound(w.db, k);
      CommandIsOk(w.db, m.command.value);
    }
  }

  // ------------------------------------------------------------------- receipts

  /** Every acceptance the ledger answers with is the receipt of the row as it stands: the accepted invitation, its
      number, organization, membership and revision, for the subject that asked. */
  lemma StoredReceipts(db: Database, k: MutationKey)
    requires Visited(db) && k in db.mutations
    requires db.mutations[k].response.Some? && db.mutations[k].response.value.AcceptedResponse?
    ensures var m, record := db.mutations[k], db.mutations[k].response.value.record;
      && IsReceipt(record, db.invitations)
      && m.operation.Accept? && m.invitation == Some(record.invitation) && m.organization == record.organization
      && db.invitations[record.invitation].acceptanceSubject == Some(m.actor)
  {
    hide Visited, NumbersOk, EmailsOk, UniqueKeys, Census, ActivityOk, BindingsOk;
    VisitedIsConsistent(db);
    assert MutationOk(db.mutations[k], db.invitations, db.commands);
    AcceptMutationIsBound(db, k);
    CommandIsOk(db, db.mutations[k].command.value);
  }

  // ------------------------------------------------------- notification outbox

  predicate NotificationCommand(db: Database, id: Uuid, generation: int, c: Uuid) {
    c in db.commands && db.commands[c].invitation == id && db.commands[c].kind == NotifyInvitation(generation)
  }

  /** Exactly one notification per generation 1 .. G and none beyond; an active one only for G, and only while
      the invitation is pending or accepted; and for a pending invitation nobody is accepting, the delivery
      state says where the command of generation G stands. */
  lemma NotificationOutbox(w: World, id: Uuid, generation: int)
    requires Reachable(w) && id in w.db.invitations
    ensures var db, row := w.db, w.db.invitations[id];
      && (1 <= generation <= row.tokenGeneration <==> exists c :: NotificationCommand(db, id, generation, c))
      && (forall c, d ::
            NotificationCommand(db, id, generation, c) && NotificationCommand(db, id, generation, d) ==> c == d)
      && (forall c :: NotificationCommand(db, id, generation, c) ==>
            && (Active(db.commands[c]) ==>
                  generation == row.tokenGeneration && !row.state.Revoked? && !row.state.Expired?)
            && (Unaccepted(row) && generation == row.tokenGeneration ==>
                  && (row.delivery.DeliveryPending? <==> Active(db.commands[c]))
                  && (row.delivery.DeliveryQueued? <==> db.commands[c].state.Completed?)
                  && (row.delivery.DeliveryFailed? <==> db.commands[c].state.Failed?)))
      && (row.state.Revoked? || row.state.Expired? ==> !row.delivery.DeliveryPending?)
  {
    hide RecordsOk, LedgerOk, KnowledgeOk, ProviderOk, Leases.ClaimsOk;
    ReachableWorld(w);
    NotificationExists(w.db, id, generation);
    forall c, d | NotificationCommand(w.db, id, generation, c) && NotificationCommand(w.db, id, generation, d)
      ensures c == d
    {
      OneNotification(w.db, c, d);
    }
    forall c | NotificationCommand(w.db, id, generation, c) ensures CommandOk(w.db.commands[c], w.db.invitations[id]) {
      CommandIsOk(w.db, c);
    }
    RowIsOk(w.db, id);
  }

  lemma NotificationExists(db: Database, id: Uuid, generation: int)
    requires Consistent(db) && id in db.invitations
    ensures 1 <= generation <= db.invitations[id].tokenGeneration <==> exists c ::
      NotificationCommand(db, id, generation, c)
  {
    hide NumbersOk, EmailsOk, ActivityOk, LedgerOk, RowsOk, UniqueKeys, KindOk;
    if 1 <= generation <= db.invitations[id].tokenGeneration {
      var key := NotifyKey(id, generation);
      assert Owed(db.invitations[id], key);
      assert HasKey(db.commands, key);
      var c :| c in db.commands && db.commands[c].key == key;
      assert CommandOk(db.commands[c], db.invitations[db.commands[c].invitation]);
      assert NotificationCommand(db, id, generation, c);
    }
    if c :| NotificationCommand(db, id, generation, c) {
      assert CommandOk(db.commands[c], db.invitations[id]);
    }
  }

  /** Lifecycle notices always match their invitation, and are never superseded. */
  lemma LifecycleAlwaysMatches(w: World, c: Uuid)
    requires Reachable(w) && c in w.db.commands && w.db.commands[c].kind.NotifyLifecycle?
    ensures w.db.commands[c].invitation in w.db.invitations
    ensures Matches(w.db.commands[c].kind, w.db.invitations[w.db.commands[c].invitation])
    ensures !w.db.commands[c].state.Superseded?
  {
    hide RecordsOk, LedgerOk, KnowledgeOk, ProviderOk, Leases.ClaimsOk;
    ReachableWorld(w);
    CommandIsOk(w.db, c);
  }
}
