/** Every formation and deadline transaction on one group keeps that group's invariant. */
module FormationProofs {
  import opened Wrappers
  import opened Tables
  import opened Invariants
  import Formation
  import Payment

  /** An unlocked group stays unlocked with whatever of its rows remain. */
  lemma RecomputedState(before: Group, after: Group)
    requires StateInv(before) && !Locked(before.state)
    requires after.rounds == before.rounds && after.state == Tally(|Roster(after.members)|)
    requires forall d :: d in Roster(after.members) ==>
               d in Roster(before.members) && after.members[d] == before.members[d]
    ensures StateInv(after)
    ensures Coupled(before) ==> Coupled(after)
  {
  }

  lemma RecomputeSound(before: Group, moved: Group)
    requires GroupInv(before) && !Locked(before.state)
    requires moved.rounds == before.rounds
    requires forall d :: d in Roster(moved.members) ==>
               d in Roster(before.members) && moved.members[d] == before.members[d]
    ensures Fits(Roster(moved.members))
    ensures GroupInv(moved.(state := Tally(|Roster(moved.members)|)))
    ensures Coupled(before) ==> Coupled(moved.(state := Tally(|Roster(moved.members)|)))
  {
    hide RoundInv, Fits;
    assert forall d :: d in Roster(moved.members) ==> Roster(moved.members)[d] == Roster(before.members)[d];
    FitsSubset(Roster(moved.members), Roster(before.members));
    RecomputedState(before, moved.(state := Tally(|Roster(moved.members)|)));
  }

  lemma LeaveGroupSound(group: Group, user: UserId)
    requires GroupInv(group)
    requires Formation.LeaveGroup(group, user).Ok?
    ensures Sound(group, Formation.LeaveGroup(group, user).value)
  {
    hide RoundInv, Fits;
    var d := Formation.RowOf(Roster(group.members), user);
    var moved := group.(members := group.members[d := group.members[d].(status := LEFT)]);
    var after := moved.(state := Tally(|Roster(moved.members)|));
    RecomputeSound(group, moved);
    RowEnded(group, d, LEFT, after.state, group.rounds);
    RefundsKeptUntouched(group, after);
  }

  // ----- starting ----------------------------------------------------------------------------

  lemma NewRoundInv(roster: map<DemandId, Seat>, policy: nat, confirmBy: int)
    requires Fits(roster) && |roster| >= 2
    ensures RoundInv(Round(roster, policy, RoundState.CONFIRMING, confirmBy, None, map[], map[], map[], {}))
  {
    var d :| d in roster;
    assert roster[d].user in Users(roster);
  }

  lemma StartedState(group: Group, after: Group)
    requires StateInv(group) && !Locked(group.state) && !HasOpenRound(group)
    requires |after.rounds| == |group.rounds| + 1 && after.rounds[..|group.rounds|] == group.rounds
    requires after.state.CONFIRMING? && after.members == group.members
    requires var round := after.rounds[|group.rounds|];
             round.state.CONFIRMING? && round.snapshot == Roster(group.members) && round.decisions == map[]
    ensures StateInv(after)
    ensures Coupled(group) ==> Coupled(after)
  {
    assert forall i :: 0 <= i < |group.rounds| ==> after.rounds[i] == after.rounds[..|group.rounds|][i];
  }

  lemma StartFormationSound(
    group: Group, user: UserId, policy: Option<nat>, compatible: bool, env: Env)
    requires GroupInv(group)
    requires Formation.StartFormation(group, user, policy, compatible, env).Ok?
    ensures Sound(group, Formation.StartFormation(group, user, policy, compatible, env).value)
  {
    hide RoundInv;
    var after := Formation.StartFormation(group, user, policy, compatible, env).value.group;
    var round := after.rounds[|group.rounds|];
    NewRoundInv(round.snapshot, round.policy, round.confirmBy);
    StartedState(group, after);
    RefundsKeptUntouched(group, after);
  }

  // ----- deadlines ---------------------------------------------------------------------------

  lemma InvalidatedInv(round: Round, decisions: map<UserId, Decision>)
    requires RoundInv(round) && round.state.CONFIRMING?
    requires forall u :: u in decisions && decisions[u].ACCEPT? <==> u in Accepted(round)
    requires forall u :: u in decisions && u !in round.decisions ==> u in Users(round.snapshot)
    ensures RoundInv(round.(state := INVALIDATED, consents := RevokeAll(round.consents), decisions := decisions))
  {
    hide Fits;
  }

  /** The rows after a confirmation that fails: nobody is confirmed any more, and nobody had been asked to pay. */
  lemma ReopenedMembers(group: Group, members: map<DemandId, Member>, after: map<DemandId, Member>)
    requires StateInv(group) && group.state.CONFIRMING?
    requires forall d :: d in Roster(members) ==> d in Roster(group.members) && members[d] == group.members[d]
    requires after == Restatus(members, CONFIRMED, JOINED)
    ensures forall d :: d in Roster(after) ==> Settled(after[d].status)
    ensures Coupled(group) ==> forall d :: d in Roster(after) ==> after[d].status.JOINED?
  {
    hide PaysTogether;
    assert forall d :: d in Roster(after) ==> d in Roster(members);
  }

  /** A confirmation that fails returns the group to recruiting with its confirmed members joined again. */
  lemma ReopenedState(group: Group, after: Group, members: map<DemandId, Member>)
    requires StateInv(group) && group.state.CONFIRMING?
    requires |after.rounds| == |group.rounds|
    requires var last := |group.rounds| - 1;
             after.rounds == group.rounds[last := after.rounds[last]] && after.rounds[last].state.INVALIDATED?
    requires forall d :: d in Roster(members) ==> d in Roster(group.members) && members[d] == group.members[d]
    requires after.members == Restatus(members, CONFIRMED, JOINED)
    requires after.state == Tally(|Roster(after.members)|)
    ensures StateInv(after)
    ensures Coupled(group) ==> Coupled(after)
  {
    hide LockStep, Restatus, Roster, Settled;
    ReopenedMembers(group, members, after.members);
  }

  lemma InvalidateConfirmationSound(group: Group, i: nat, now: int)
    requires GroupInv(group)
    ensures Formation.InvalidateConfirmation(group, i, now).Ok?
    ensures Sound(group, Formation.InvalidateConfirmation(group, i, now).value)
  {
    hide RoundInv, Fits;
    if Formation.ConfirmationDue(group, i, now) {
      var after := Formation.InvalidateConfirmation(group, i, now).value.group;
      InvalidatedInv(group.rounds[i], group.rounds[i].decisions);
      RoundReplaced(group.rounds, i, after.rounds[i]);
      RefundsKeptByRound(group, after, i);
      RestatusKept(group, CONFIRMED, JOINED, after.state, after.rounds);
      KeptRoster(group, after, {});
      assert Roster(after.members) == Roster(group.members);
      assert i == |group.rounds| - 1;
      ReopenedState(group, after, group.members);
    } else {
      RefundsKeptUntouched(group, group);
    }
  }

  lemma ExpireGroupSound(group: Group, now: int)
    requires GroupInv(group)
    ensures Sound(group, Formation.ExpireGroup(group, now))
  {
    hide RoundInv, Fits;
    var after := Formation.ExpireGroup(group, now).group;
    RefundsKeptUntouched(group, after);
    if Formation.ExpiryDue(group, now) {
      assert Roster(after.members) == map[];
      RecomputeSound(group, after);
      assert after == after.(state := Tally(|Roster(after.members)|));
    }
  }

  // ----- decisions ---------------------------------------------------------------------------

  lemma RefuseFormationSound(group: Group, i: nat, user: UserId, env: Env)
    requires GroupInv(group) && Formation.ConfirmChecks(group, i, user, env).None?
    ensures Formation.ConfirmFormation(group, i, user, Formation.Refuse, env).Ok?
    ensures Sound(group, Formation.ConfirmFormation(group, i, user, Formation.Refuse, env).value)
  {
    hide RoundInv, Fits, Coupled, RefundsKept, MembersKept;
    var d := Formation.RowOf(Roster(group.members), user);
    var round := group.rounds[i];
    var members := group.members[d := group.members[d].(status := DECLINED)];
    var refused := round.(decisions := round.decisions[user := DECLINE], consents := RevokeAll(round.consents),
                          state := INVALIDATED);
    var moved := group.(members := Restatus(members, CONFIRMED, JOINED), rounds := group.rounds[i := refused]);
    var after := moved.(state := Tally(|Roster(moved.members)|));
    assert i == |group.rounds| - 1;
    assert user in Users(round.snapshot);
    InvalidatedInv(round, refused.decisions);
    RoundReplaced(group.rounds, i, refused);
    RowEnded(group, d, DECLINED, group.state, group.rounds);
    var declined := group.(members := members);
    RestatusKept(declined, CONFIRMED, JOINED, after.state, after.rounds);
    KeptTwice(group, declined, after, {d}, {});
    KeptRoster(group, after, {d});
    FitsSubset(Roster(after.members), Roster(group.members));
    RefundsKeptByRound(group, after, i);
    ReopenedState(group, after, members);
  }

  /** Counting the acceptances is the same as asking whether every snapshot member accepted. */
  lemma AcceptedAll(round: Round, roster: map<DemandId, Seat>)
    requires Fits(round.snapshot) && roster == round.snapshot
    requires Accepted(round) <= Users(round.snapshot)
    ensures |Accepted(round)| == |roster| <==> Unanimous(round)
  {
    RosterSize(round.snapshot);
    SubsetSize(Accepted(round), Users(round.snapshot));
  }

  function WithAcceptance(round: Round, user: UserId): Round {
    round.(decisions := round.decisions[user := ACCEPT],
           consents := round.consents[user := Tables.Consent(round.policy, false)])
  }

  lemma AcceptedPlus(round: Round, user: UserId)
    ensures Accepted(WithAcceptance(round, user)) == Accepted(round) + {user}
  {
  }

  lemma ConfirmingFacts(round: Round)
    requires RoundInv(round) && round.state.CONFIRMING?
    ensures Fits(round.snapshot) && Accepted(round) == round.decisions.Keys && Accepted(round) <= Users(round.snapshot)
    ensures round.orders == map[]
  {
    hide Fits, OrderInv;
  }

  lemma AcceptanceCounted(round: Round, user: UserId)
    requires RoundInv(round) && round.state.CONFIRMING? && user in Users(round.snapshot)
    ensures Accepted(WithAcceptance(round, user)) == Accepted(round) + {user}
    ensures |Accepted(WithAcceptance(round, user))| == |round.snapshot| <==> Unanimous(WithAcceptance(round, user))
    ensures round.orders == map[] && Accepted(round) == round.decisions.Keys
  {
    hide RoundInv, Fits, Accepted, Users;
    AcceptedPlus(round, user);
    ConfirmingFacts(round);
    AcceptedAll(WithAcceptance(round, user), round.snapshot);
  }

  lemma AcceptanceInv(round: Round, user: UserId, payBy: int)
    requires RoundInv(round) && round.state.CONFIRMING? && user in Users(round.snapshot)
    requires Accepted(WithAcceptance(round, user)) == Accepted(round) + {user}
    ensures var accepted := WithAcceptance(round, user);
            RoundInv(if Unanimous(accepted)
                     then accepted.(state := RoundState.PAYING, payBy := Some(payBy)) else accepted)
  {
    hide Fits;
  }

  lemma AcceptedState(group: Group, user: UserId, d: DemandId, after: Group)
    requires StateInv(group) && group.state.CONFIRMING? && DistinctUsers(Roster(group.members))
    requires d in Roster(group.members) && group.members[d].user == user
    requires |after.rounds| == |group.rounds|
    requires var last := |group.rounds| - 1;
             && after.rounds == group.rounds[last := after.rounds[last]] && after.rounds[last].state.CONFIRMING?
             && after.rounds[last].snapshot == group.rounds[last].snapshot
             && after.rounds[last].decisions == group.rounds[last].decisions[user := ACCEPT]
    requires after.members == group.members[d := group.members[d].(status := CONFIRMED)]
    requires after.state.CONFIRMING?
    ensures StateInv(after)
    ensures Coupled(group) ==> Coupled(after)
  {
    assert Roster(after.members) == Roster(group.members);
    forall e | e in Roster(group.members) && e != d ensures group.members[e].user != user {
      assert Roster(group.members)[e].user != Roster(group.members)[d].user;
    }
  }

  /** The last acceptance leaves nobody who is not waiting to pay. */
  lemma AllPending(group: Group, user: UserId, d: DemandId, members: map<DemandId, Member>)
    requires StateInv(group) && group.state.CONFIRMING? && DistinctUsers(Roster(group.members))
    requires d in Roster(group.members) && group.members[d].user == user
    requires var round := group.rounds[|group.rounds| - 1]; round.decisions.Keys + {user} == Users(round.snapshot)
    requires members == Restatus(group.members[d := group.members[d].(status := CONFIRMED)], CONFIRMED, PAYMENT_PENDING)
    ensures Roster(members) == Roster(group.members) == group.rounds[|group.rounds| - 1].snapshot
    ensures forall e :: e in Roster(members) ==> members[e].status.PAYMENT_PENDING?
  {
    hide PaysTogether;
    assert Roster(members) == Roster(group.members);
    forall e | e in Roster(group.members) ensures members[e].status.PAYMENT_PENDING? {
      assert Roster(group.members)[e].user in Users(Roster(group.members));
      assert e != d ==> Roster(group.members)[e].user != Roster(group.members)[d].user;
    }
  }

  lemma PayingState(group: Group, d: DemandId, after: Group)
    requires |after.rounds| == |group.rounds| > 0
    requires var last := |group.rounds| - 1;
             && after.rounds == group.rounds[last := after.rounds[last]] && after.rounds[last].state.PAYING?
             && after.rounds[last].snapshot == Roster(after.members)
             && after.rounds[last].orders == map[]
    requires d in Roster(after.members) && forall e :: e in Roster(after.members) ==>
               after.members[e].status.PAYMENT_PENDING?
    requires after.state.PAYING?
    ensures StateInv(after)
    ensures Coupled(group) ==> Coupled(after)
  {
    assert d in Payment.Debtors(after.members);
  }

  lemma AcceptedRefunds(group: Group, i: nat, after: Group)
    requires i < |group.rounds| && RoundInv(group.rounds[i]) && group.rounds[i].state.CONFIRMING?
    requires |after.rounds| == |group.rounds| && after.rounds == group.rounds[i := after.rounds[i]]
    requires after.rounds[i].orders == group.rounds[i].orders
    ensures RefundsKept(group, after)
  {
    RefundsKeptByRound(group, after, i);
  }

  lemma AcceptedGroupState(group: Group, i: nat, user: UserId, d: DemandId, now: int)
    requires StateInv(group) && group.state.CONFIRMING? && i == |group.rounds| - 1 && RoundInv(group.rounds[i])
    requires d in Roster(group.members) && group.members[d].user == user && DistinctUsers(Roster(group.members))
    requires group.rounds[i].state.CONFIRMING? && group.rounds[i].snapshot == Roster(group.members)
    ensures StateInv(Formation.AcceptFormation(group, i, user, d, now))
    ensures Coupled(group) ==> Coupled(Formation.AcceptFormation(group, i, user, d, now))
  {
    hide RoundInv, Fits, StateInv, Coupled;
    var after := Formation.AcceptFormation(group, i, user, d, now);
    AcceptanceCounted(group.rounds[i], user);
    if after.state.PAYING? {
      AllPending(group, user, d, after.members);
      PayingState(group, d, after);
    } else {
      AcceptedState(group, user, d, after);
    }
  }

  lemma AcceptedMembers(group: Group, d: DemandId, after: Group)
    requires d in Roster(group.members) && after.route == group.route && after.window == group.window
    requires var members := group.members[d := group.members[d].(status := CONFIRMED)];
             after.members == members || after.members == Restatus(members, CONFIRMED, PAYMENT_PENDING)
    ensures MembersKept(group, after, {})
    ensures Roster(after.members) == Roster(group.members)
  {
    KeptRoster(group, after, {});
  }

  lemma AcceptFormationSound(group: Group, i: nat, user: UserId, policy: nat, env: Env)
    requires GroupInv(group) && Formation.ConfirmChecks(group, i, user, env).None?
    requires policy == group.rounds[i].policy
    ensures Formation.ConfirmFormation(group, i, user, Formation.Consent(policy), env).Ok?
    ensures Sound(group, Formation.ConfirmFormation(group, i, user, Formation.Consent(policy), env).value)
  {
    hide RoundInv, Fits, Coupled, RefundsKept, MembersKept, PaysTogether;
    var d := Formation.RowOf(Roster(group.members), user);
    var round := group.rounds[i];
    var after := Formation.AcceptFormation(group, i, user, d, env.now);
    assert i == |group.rounds| - 1 && user in Users(round.snapshot);
    AcceptanceCounted(round, user);
    AcceptanceInv(round, user, env.now + PAYMENT_HANDOFF_LIFETIME_MS);
    RoundReplaced(group.rounds, i, after.rounds[i]);
    AcceptedRefunds(group, i, after);
    AcceptedMembers(group, d, after);
    assert DistinctUsers(Roster(group.members)) by { FitsDistinct(Roster(group.members)); }
    AcceptedGroupState(group, i, user, d, env.now);
  }
}
