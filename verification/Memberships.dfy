/** At most one membership per invitation, through crashes, retries and reclaimed leases; and every acceptance in
    progress becomes due again. */
module Memberships {
  import opened Schema
  import opened Ordering
  import opened Storage
  import opened Consistency
  import opened Effects
  import opened Outbox
  import opened Protocol
  import opened Leases
  import opened Safety
  import opened Saga

  /** All `add_member` calls for one invitation, by any claim at any time, are the same request under the same key. */
  lemma CallsAreTheSame(w: World, a: ClaimId, b: ClaimId)
    requires Reachable(w) && HoldsAddMember(w, a) && HoldsAddMember(w, b)
    requires w.claims[a].record.invitation == w.claims[b].record.invitation
    ensures var x, y := w.claims[a].record, w.claims[b].record;
      x.key == y.key && x.organization == y.organization && x.kind.subject == y.kind.subject && x.command == y.command
  {
    hide Consistent, ClaimsOk, KnowledgeOk, ProviderOk;
    ReachableWorld(w);
    MembershipCall(w, a);
    MembershipCall(w, b);
    SameMembershipCommand(w, a, b);
  }

  lemma SameMembershipCommand(w: World, a: ClaimId, b: ClaimId)
    requires WorldOk(w) && HoldsAddMember(w, a) && HoldsAddMember(w, b)
    requires w.claims[a].record.invitation == w.claims[b].record.invitation
    ensures w.claims[a].record.command == w.claims[b].record.command
  {
    hide RecordsOk, LedgerOk, ClaimsOk, KnowledgeOk, ProviderOk;
    ClaimIsHeld(w, a);
    ClaimIsHeld(w, b);
    OneMembershipCommand(w.db, a.command, b.command);
  }

  /** An idempotent provider never reports a key conflict for such a call. */
  lemma NeverAKeyConflict(w: World, id: ClaimId)
    requires Reachable(w) && HoldsAddMember(w, id)
    ensures !VerdictOn(w, id).KeyConflict?
  {
    hide Consistent, ClaimsOk, KnowledgeOk;
    ReachableWorld(w);
    MembershipCall(w, id);
    if w.claims[id].record.key in w.memberships {
      assert MembershipOk(w.claims[id].record.key, w.memberships[w.claims[id].record.key], w.db.invitations);
    }
  }

  /** The memberships the provider holds on behalf of one invitation. */
  function MembershipsOf(memberships: map<CommandKey, Membership>, id: Uuid): set<CommandKey> {
    set k | k in memberships && k.invitation == id
  }

  /** At most one membership exists on behalf of an invitation, for its own subject; an accepted invitation
      carries exactly that one, and every answer any worker ever got for it names it. */
  lemma AtMostOneMembership(w: World, id: Uuid)
    requires Reachable(w) && id in w.db.invitations
    ensures |MembershipsOf(w.memberships, id)| <= 1
    ensures forall k | k in MembershipsOf(w.memberships, id) ::
      w.db.invitations[id].acceptanceSubject == Some(w.memberships[k].subject) &&
      w.db.invitations[id].organization == w.memberships[k].organization
    ensures w.db.invitations[id].state.Accepted? ==>
      MembershipKey(id) in w.memberships &&
      w.db.invitations[id].membershipId == Some(w.memberships[MembershipKey(id)].id)
    ensures forall a, b | a in w.answers && b in w.answers && a.claim in w.claims && b.claim in w.claims &&
                          w.claims[a.claim].record.invitation == id && w.claims[b.claim].record.invitation == id &&
                          w.claims[a.claim].record.kind.AddMember? && w.claims[b.claim].record.kind.AddMember? ::
      a.membershipId == b.membershipId
  {
    hide Consistent, ClaimsOk, KnowledgeOk;
    ReachableWorld(w);
    var keys := MembershipsOf(w.memberships, id);
    forall k | k in keys ensures k == MembershipKey(id) {
      assert MembershipOk(k, w.memberships[k], w.db.invitations);
    }
    if keys != {} {
      assert keys == {MembershipKey(id)};
    }
    forall a, b | a in w.answers && b in w.answers && a.claim in w.claims && b.claim in w.claims &&
                  w.claims[a.claim].record.invitation == id && w.claims[b.claim].record.invitation == id &&
                  w.claims[a.claim].record.kind.AddMember? && w.claims[b.claim].record.kind.AddMember?
      ensures a.membershipId == b.membershipId
    {
      CallsAreTheSame(w, a.claim, b.claim);
    }
  }

  /** When a command that nobody touches becomes claimable for good. */
  function DueFrom(command: Command): Time {
    if command.state.InFlight? && command.lease.Some? then command.lease.value.until + 1 else command.availableAt
  }

  ghost predicate DueForGood(command: Command, organization: Name) {
    forall t: Time | t >= DueFrom(command) :: Claimable(command, organization, t)
  }

  /** No acceptance is stranded: while an invitation is waiting for its membership, its command is claimable at
      every time from a known one on, even if every process that ever held it is gone. */
  lemma AcceptanceBecomesDue(w: World, id: Uuid)
    requires Reachable(w) && id in w.db.invitations
    requires w.db.invitations[id].state.Pending? && w.db.invitations[id].acceptanceSubject.Some?
    ensures exists c ::
      MembershipCommand(w.db, id, c) && DueForGood(w.db.commands[c], w.db.invitations[id].organization)
  {
    hide RecordsOk, LedgerOk, ClaimsOk, KnowledgeOk, ProviderOk;
    ReachableWorld(w);
    MembershipCommandExists(w.db, id);
    var c :| MembershipCommand(w.db, id, c);
    CommandIsOk(w.db, c);
    assert DueForGood(w.db.commands[c], w.db.invitations[id].organization);
  }

  // ---------------------------------------------------------------- spacing

  /** Consecutive claims of one command are at least the shorter of the lease and the retry delay apart. */
  lemma ClaimSpacingHolds(w: World, c: Uuid, n: int)
    requires Reachable(w) && ClaimId(c, n) in w.claims && ClaimId(c, n + 1) in w.claims
    ensures w.claims[ClaimId(c, n + 1)].at >=
            w.claims[ClaimId(c, n)].at + Min(w.config.leaseSeconds, Backoff.Delay(w.config.retryBase, n))
  {
    hide Consistent, KnowledgeOk, ProviderOk, Backoff.Delay;
    ReachableWorld(w);
  }

  /** So `k` further claims take at least `k` times the shorter of the lease and the base delay. */
  lemma {:induction false} ClaimsInAWindow(w: World, c: Uuid, m: int, n: int)
    requires Reachable(w) && m <= n && ClaimId(c, m) in w.claims && ClaimId(c, n) in w.claims
    ensures w.claims[ClaimId(c, n)].at - w.claims[ClaimId(c, m)].at >=
            (n - m) * Min(w.config.leaseSeconds, w.config.retryBase)
    decreases n - m
  {
    hide Consistent, KnowledgeOk, ProviderOk, ClaimsOk, Backoff.Delay;
    ReachableWorld(w);
    if m < n {
      EarlierClaims(w, c, n);
      EarlierClaims(w, c, m);
      ClaimsInAWindow(w, c, m, n - 1);
      ClaimSpacingHolds(w, c, n - 1);
      Backoff.DelayMonotone(w.config.retryBase, n - 1, n - 1);
      Distribute(n - m, Min(w.config.leaseSeconds, w.config.retryBase));
    }
  }

  lemma Distribute(k: int, d: int)
    ensures k * d == (k - 1) * d + d
  {
  }

  lemma EarlierClaims(w: World, c: Uuid, n: int)
    requires WorldOk(w) && ClaimId(c, n) in w.claims
    ensures n >= 1 && forall k: int | 1 <= k <= n :: ClaimId(c, k) in w.claims
  {
    hide Consistent, KnowledgeOk, ProviderOk, Spaced, LatestOk;
    assert ClaimOk(ClaimId(c, n), w.claims[ClaimId(c, n)], w.db.commands, w.db.now);
    assert AllClaimed(c, w.db.commands[c], w.claims);
  }
}
