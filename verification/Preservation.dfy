/** Every committed effect keeps the schema consistent. First the parts of the invariant table by
    table, then the effects one by one. */
module Preservation {
  import opened Schema
  import opened Storage
  import opened Consistency

  // ------------------------------------------------------------ outbox frames

  /** The columns of a command that no statement updates. */
  predicate SameCommand(a: Command, b: Command) {
    a.organization == b.organization && a.invitation == b.invitation && a.kind == b.kind && a.key == b.key
  }

  predicate SameCommands(commands: Commands, commands': Commands) {
    commands.Keys == commands'.Keys && forall c | c in commands :: SameCommand(commands[c], commands'[c])
  }

  lemma SameKeys(commands: Commands, commands': Commands)
    requires SameCommands(commands, commands')
    ensures forall k :: HasKey(commands, k) <==> HasKey(commands', k)
    ensures UniqueKeys(commands) ==> UniqueKeys(commands')
  {
    forall k ensures HasKey(commands, k) <==> HasKey(commands', k) {
      if HasKey(commands, k) {
        var c :| c in commands && commands[c].key == k;
        assert commands'[c].key == k;
      }
      if HasKey(commands', k) {
        var c :| c in commands' && commands'[c].key == k;
        assert commands[c].key == k;
      }
    }
  }

  predicate OwedIn(invitations: Invitations, k: CommandKey) {
    k.invitation in invitations && Owed(invitations[k.invitation], k)
  }

  lemma InsertKey(commands: Commands, c: Uuid, command: Command)
    requires c !in commands
    ensures forall k :: HasKey(commands[c := command], k) <==> HasKey(commands, k) || k == command.key
    ensures UniqueKeys(commands) && !HasKey(commands, command.key) ==> UniqueKeys(commands[c := command])
  {
    var after := commands[c := command];
    forall k ensures HasKey(after, k) <==> HasKey(commands, k) || k == command.key {
      if HasKey(commands, k) {
        var d :| d in commands && commands[d].key == k;
        assert after[d].key == k;
      }
      assert after[c].key == command.key;
    }
  }

  /** The outbox rows of one invitation fit its new row, the others are untouched. */
  predicate RowsMoved(commands: Commands, commands': Commands, id: Uuid, row: Invitation) {
    && SameCommands(commands, commands')
    && forall c | c in commands' ::
         if commands'[c].invitation == id then CommandOk(commands'[c], row) else commands'[c] == commands[c]
  }

  /** The row owes one key more than before. */
  ghost predicate OwesMore(invitations: Invitations, id: Uuid, row: Invitation, key: CommandKey) {
    && !OwedIn(invitations, key)
    && forall k: CommandKey | k.invitation == id :: Owed(row, k) <==> OwedIn(invitations, k) || k == key
  }

  /** Inserting the command that a row update newly owes: the ON CONFLICT arm does not fire and the outbox
      stays in step with the rows. */
  lemma AdvanceCommands(invitations: Invitations, commands: Commands, commands': Commands, id: Uuid, row: Invitation,
                        commandId: Uuid, command: Command)
    requires CommandsOk(invitations, commands) && UniqueKeys(commands) && Census(invitations, commands)
    requires RowsMoved(commands, commands', id, row) && commandId !in commands
    requires OwesMore(invitations, id, row, command.key)
    requires command.invitation == id && command.key.invitation == id && CommandOk(command, row)
    ensures InsertCommand(commands', commandId, command) == commands'[commandId := command]
    ensures CommandsOk(invitations[id := row], commands'[commandId := command])
    ensures UniqueKeys(commands'[commandId := command])
    ensures Census(invitations[id := row], commands'[commandId := command])
  {
    SameKeys(commands, commands');
    assert !HasKey(commands', command.key);
    InsertKey(commands', commandId, command);
    AdvanceCensus(invitations, commands, commands'[commandId := command], id, row, command.key);
  }

  lemma AdvanceCensus(invitations: Invitations, commands: Commands, after: Commands, id: Uuid, row: Invitation,
                      key: CommandKey)
    requires Census(invitations, commands) && key.invitation == id
    requires OwesMore(invitations, id, row, key)
    requires forall k :: HasKey(after, k) <==> HasKey(commands, k) || k == key
    ensures Census(invitations[id := row], after)
  {
    forall k: CommandKey ensures HasKey(after, k) <==> OwedIn(invitations[id := row], k) {
      assert HasKey(commands, k) <==> OwedIn(invitations, k);
    }
  }

  /** A command row may change in place as long as it still fits its invitation. */
  lemma UpdateCommand(invitations: Invitations, commands: Commands, c: Uuid, command: Command)
    requires CommandsOk(invitations, commands) && UniqueKeys(commands) && Census(invitations, commands)
    requires c in commands && SameCommand(commands[c], command)
    requires CommandOk(command, invitations[command.invitation])
    ensures CommandsOk(invitations, commands[c := command])
    ensures UniqueKeys(commands[c := command])
    ensures Census(invitations, commands[c := command])
  {
    SameKeys(commands, commands[c := command]);
  }

  // ------------------------------------------------------------ ledger frames

  predicate KeepsBinding(a: Command, b: Command) {
    && SameCommand(a, b)
    && (Active(a) ==> Active(b))
    && (a.state.Completed? ==> b.state.Completed?)
  }

  predicate KeepsReceipt(row: Invitation, row': Invitation) {
    && row.organization == row'.organization
    && (row.state.Accepted? ==>
          row'.state.Accepted? && row'.number == row.number && row'.membershipId == row.membershipId &&
          row'.revision == row.revision)
  }

  lemma MutationsFrame(mutations: Mutations, invitations: Invitations, commands: Commands, invitations': Invitations,
                       commands': Commands)
    requires MutationsOk(mutations, invitations, commands)
    requires forall i | i in invitations :: i in invitations' && KeepsReceipt(invitations[i], invitations'[i])
    requires forall c | c in commands && commands[c].kind.AddMember? ::
      c in commands' && KeepsBinding(commands[c], commands'[c])
    ensures MutationsOk(mutations, invitations', commands')
  {
    forall k | k in mutations ensures MutationOk(mutations[k], invitations', commands') {
      var m := mutations[k];
      assert MutationOk(m, invitations, commands);
      if m.operation.Accept? {
        assert BindingOk(m, invitations, commands);
        assert KeepsBinding(commands[m.command.value], commands'[m.command.value]);
        assert KeepsReceipt(invitations[m.invitation.value], invitations'[m.invitation.value]);
      }
    }
  }

  lemma BindingsFrame(mutations: Mutations, commands: Commands, commands': Commands)
    requires BindingsOk(mutations, commands)
    requires forall c | c in commands' && commands'[c].kind.AddMember? ::
      c in commands && commands[c].kind.AddMember? && (commands[c].state.Failed? <==> commands'[c].state.Failed?)
    ensures BindingsOk(mutations, commands')
  {
  }

  lemma PutUnboundMutation(mutations: Mutations, commands: Commands, key: MutationKey, m: Mutation)
    requires BindingsOk(mutations, commands)
    requires m.command.None? && (key in mutations ==> mutations[key].command.None?)
    ensures BindingsOk(mutations[key := m], commands)
  {
    var after := mutations[key := m];
    forall c | c in commands && commands[c].kind.AddMember? ensures Bound(after, c) <==> Bound(mutations, c) {
      if Bound(mutations, c) {
        var k :| k in mutations && mutations[k].command == Some(c);
        assert after[k].command == Some(c);
      }
      if Bound(after, c) {
        var k :| k in after && after[k].command == Some(c);
        assert mutations[k].command == Some(c);
      }
    }
  }

  // --------------------------------------------------------- activity and rows

  lemma AppendActivity(invitations: Invitations, activity: seq<Activity>, id: Uuid, row: Invitation, entry: Activity)
    requires ActivityOk(invitations, activity)
    requires entry.invitation == id && entry.revision == row.revision
    requires row.revision == (if id in invitations then invitations[id].revision else 0) + 1
    requires row.revision >= 1
    ensures ActivityOk(invitations[id := row], activity + [entry])
  {
    var after := activity + [entry];
    assert after[..|after| - 1] == activity;
    forall i: Uuid ensures Revisions(after, i) == UpTo(if i in invitations[id := row]
                                                       then invitations[id := row][i].revision
                                                       else 0) {
      assert Revisions(after, i) == Revisions(activity, i) + (if id == i then [row.revision] else []);
    }
  }

  lemma SameRevision(invitations: Invitations, activity: seq<Activity>, id: Uuid, row: Invitation)
    requires ActivityOk(invitations, activity)
    requires id in invitations && row.revision == invitations[id].revision
    ensures ActivityOk(invitations[id := row], activity)
  {
  }

  /** A row update that keeps the identity columns and never reopens an invitation. */
  predicate SameIdentity(row: Invitation, row': Invitation) {
    && row.organization == row'.organization && row.number == row'.number
    && row.email == row'.email && row.emailNormalized == row'.emailNormalized
    && row.inviter == row'.inviter && row.createdAt == row'.createdAt
  }

  lemma UpdateRow(invitations: Invitations, sequences: Sequences, id: Uuid, row: Invitation)
    requires RowsOk(invitations) && NumbersOk(invitations, sequences) && EmailsOk(invitations)
    requires id in invitations && SameIdentity(invitations[id], row) && RowOk(row)
    requires row.state.Pending? ==> invitations[id].state.Pending?
    ensures RowsOk(invitations[id := row])
    ensures NumbersOk(invitations[id := row], sequences)
    ensures EmailsOk(invitations[id := row])
  {
    var after := invitations[id := row];
    forall o: Name, n: int | 1 <= n < NextNumber(sequences, o) ensures HasNumber(after, o, n) {
      assert HasNumber(invitations, o, n);
      var i :| i in invitations && invitations[i].organization == o && invitations[i].number == n;
      assert after[i].organization == o && after[i].number == n;
    }
  }

  lemma InsertRow(invitations: Invitations, sequences: Sequences, id: Uuid, row: Invitation)
    requires RowsOk(invitations) && NumbersOk(invitations, sequences) && EmailsOk(invitations)
    requires id !in invitations && RowOk(row) && row.number == NextNumber(sequences, row.organization)
    requires !PendingEmail(invitations, row.organization, row.emailNormalized)
    ensures RowsOk(invitations[id := row])
    ensures NumbersOk(invitations[id := row], sequences[row.organization := row.number + 1])
    ensures EmailsOk(invitations[id := row])
  {
    var after := invitations[id := row];
    var sequences' := sequences[row.organization := row.number + 1];
    forall o: Name, n: int | 1 <= n < NextNumber(sequences', o) ensures HasNumber(after, o, n) {
      if o == row.organization && n == row.number {
        assert after[id].organization == o && after[id].number == n;
      } else {
        assert HasNumber(invitations, o, n);
        var i :| i in invitations && invitations[i].organization == o && invitations[i].number == n;
        assert after[i].organization == o && after[i].number == n;
      }
    }
  }
}
