/** What the start of a formation, each confirmation and each missed deadline achieve, and exactly when. */
module RoundOutcomes {
  import opened Wrappers
  import opened Tables
  import opened Runs
  import opened Invariants
  import opened Outcomes
  import opened FormationOutcomes
  import opened JoinOutcomes
  import Formation
  import FormationProofs
  import Safety

  function Seating(group: Group): map<DemandId, Seat> {
    map d | d in group.members && Active(group.members[d].status) :: Seat(group.members[d].user, group.members[d].seats)
  }

  // ----- the start ---------------------------------------------------------------------------

  /** A round as it begins. */
  predicate Begins(round: Round, group: Group, policy: nat, now: int) {
    && round.snapshot == Seating(group) && round.policy == policy && round.state == RoundState.CONFIRMING
    && round.confirmBy == (if now + 300000 < group.window.start then now + 300000 else group.window.start)
    && round.payBy.None? && round.decisions == map[] && round.consents == map[] && round.orders == map[]
    && round.unlocks == {}
  }

  /**
   * A start succeeds exactly for an eligible member of a READY group whose members are all eligible and suit each
   * other, before the trip begins, under a current policy and with no round open. It opens one round with the members
   * as they are, under that policy, to be confirmed in five minutes or by the beginning of the trip.
   */
  lemma StartOutcome(s: State, user: UserId, g: GroupId, policy: Option<nat>, env: Env)
    requires Inv(s)
    ensures var step := StartFormation(user, g, policy, env);
            var t := Next(s, step);
            && (Exec(s, step).Ok? <==>
                && user in env.eligible && g in s.book.groups && policy.Some?
                && var group := s.book.groups[g];
                   && group.state == GroupState.READY && env.now < group.window.start
                   && IsIn(group, user) && AllIn(group, env.eligible) && AllSuit(s, Seating(group))
                   && forall k :: 0 <= k < |group.rounds| ==> !Open(group.rounds[k].state))
            && (Exec(s, step).Err? ==> t == s)
            && (Exec(s, step).Ok? ==>
                  var before, after := s.book.groups[g], t.book.groups[g];
                  && OnlyGroup(s, t, g, {}, OPEN)
                  && after.route == before.route && after.window == before.window && after.members == before.members
                  && after.state == GroupState.CONFIRMING && |after.rounds| == |before.rounds| + 1
                  && after.rounds[..|before.rounds|] == before.rounds
                  && Begins(after.rounds[|before.rounds|], before, policy.value, env.now))
  {
    hide Inv, LocalChange, Next, Exec, GroupInv, Fits, Formation.Compatible, IsIn, AllIn, AllSuit,
      Formation.StartFormation;
    var step := StartFormation(user, g, policy, env);
    if g in s.book.groups {
      var group := s.book.groups[g];
      Safety.GroupIn(s, g);
      StartIs(s, step);
      AllSuitIs(s, Seating(group));
      StartAchieves(group, user, policy, AllSuit(s, Seating(group)), env);
      var change := Formation.StartFormation(group, user, policy, AllSuit(s, Seating(group)), env);
      if change.Ok? {
        Changes(s, step, change.value);
      } else {
        Fails(s, step);
      }
    } else {
      Fails(s, step);
    }
  }

  lemma StartIs(s: State, step: Step)
    requires step.StartFormation? && step.g in s.book.groups
    ensures LocalChange(s, step) ==
            Formation.StartFormation(s.book.groups[step.g], step.user, step.policy,
                                     Formation.Compatible(Seating(s.book.groups[step.g]), s.book.demands, s.genders),
                                     step.env)
  {
    hide Formation.StartFormation, Formation.Compatible;
    assert Seating(s.book.groups[step.g]) == Roster(s.book.groups[step.g].members);
  }

  lemma StartAchieves(group: Group, user: UserId, policy: Option<nat>, compatible: bool, env: Env)
    requires GroupInv(group)
    ensures Formation.StartFormation(group, user, policy, compatible, env).Ok? <==>
            && user in env.eligible && policy.Some?
            && group.state == GroupState.READY && env.now < group.window.start
            && IsIn(group, user) && AllIn(group, env.eligible) && compatible
            && forall k :: 0 <= k < |group.rounds| ==> !Open(group.rounds[k].state)
    ensures Formation.StartFormation(group, user, policy, compatible, env).Ok? ==>
              var change := Formation.StartFormation(group, user, policy, compatible, env).value;
              var after := change.group;
              && change.released == {}
              && after.route == group.route && after.window == group.window && after.members == group.members
              && after.state == GroupState.CONFIRMING && |after.rounds| == |group.rounds| + 1
              && after.rounds[..|group.rounds|] == group.rounds
              && Begins(after.rounds[|group.rounds|], group, policy.value, env.now)
  {
    hide RoundsInv, Fits, Roster, Users, IsIn, AllIn, LockStep;
    RosterIs(group);
    AllInIs(group, env.eligible);
    SeatingIs(group);
  }

  lemma SeatingIs(group: Group)
    ensures Seating(group) == Roster(group.members)
  {
  }

  // ----- confirmations -----------------------------------------------------------------------

  /** The round and its group ask for confirmations, and this member, like everybody eligible, may still decide. */
  ghost predicate MayDecide(s: State, user: UserId, g: GroupId, i: nat, env: Env) {
    && user in env.eligible && g in s.book.groups && i < |s.book.groups[g].rounds|
    && var group := s.book.groups[g];
       && group.state == GroupState.CONFIRMING && group.rounds[i].state == RoundState.CONFIRMING
       && env.now < group.rounds[i].confirmBy && IsIn(group, user) && AllIn(group, env.eligible)
       && user !in group.rounds[i].decisions
  }

  /** Whoever else is a member has accepted. */
  predicate OthersAccepted(round: Round, user: UserId) {
    forall u :: u in Users(round.snapshot) && u != user ==> u in round.decisions && round.decisions[u] == ACCEPT
  }

  /** The acceptance and the consent are recorded; with the last one everybody has five minutes to pay. */
  predicate Accepts(before: Group, after: Group, i: nat, user: UserId, now: int)
    requires i < |before.rounds|
  {
    var round := before.rounds[i];
    var last := OthersAccepted(round, user);
    && OnlyRound(before, after, i) && SameRows(before.members, after.members)
    && after.rounds[i] == round.(
         state := if last then RoundState.PAYING else RoundState.CONFIRMING,
         payBy := if last then Some(now + 300000) else round.payBy,
         decisions := round.decisions[user := ACCEPT],
         consents := round.consents[user := Tables.Consent(round.policy, false)])
    && after.state == (if last then GroupState.PAYING else GroupState.CONFIRMING)
    && forall d :: d in ActiveRows(before) ==>
         after.members[d].status == if last then PAYMENT_PENDING
                                    else if before.members[d].user == user then CONFIRMED else before.members[d].status
  }

  /** The refusal ends the round: its member is out, all consents are withdrawn, the others are joined members again. */
  predicate Refuses(before: Group, after: Group, i: nat, user: UserId)
    requires i < |before.rounds|
  {
    var round := before.rounds[i];
    && OnlyRound(before, after, i) && SameRows(before.members, after.members) && Tallied(after)
    && after.rounds[i].consents.Keys == round.consents.Keys
    && (forall u :: u in round.consents ==> after.rounds[i].consents[u] == round.consents[u].(revoked := true))
    && after.rounds[i] == round.(state := INVALIDATED, decisions := round.decisions[user := DECLINE],
                                 consents := after.rounds[i].consents)
    && forall d :: d in before.members ==>
         after.members[d].status ==
         if d in ActiveRows(before) && before.members[d].user == user then DECLINED
         else if before.members[d].status.CONFIRMED? then JOINED else before.members[d].status
  }

  lemma Decider(group: Group, i: nat, user: UserId, env: Env)
    requires GroupInv(group)
    ensures Formation.ConfirmChecks(group, i, user, env).None? <==>
            && user in env.eligible && i < |group.rounds|
            && group.state == GroupState.CONFIRMING && group.rounds[i].state == RoundState.CONFIRMING
            && env.now < group.rounds[i].confirmBy && IsIn(group, user) && AllIn(group, env.eligible)
            && user !in group.rounds[i].decisions
  {
    hide Fits, RoundInv, IsIn, AllIn, Roster, Users;
    RosterIs(group);
    AllInIs(group, env.eligible);
  }

  lemma AcceptAchieves(group: Group, i: nat, user: UserId, d: DemandId, now: int)
    requires GroupInv(group) && i < |group.rounds| && Holds(group, user, d)
    requires group.state.CONFIRMING? && group.rounds[i].state.CONFIRMING? && user !in group.rounds[i].decisions
    ensures Accepts(group, Formation.AcceptFormation(group, i, user, d, now), i, user, now)
  {
    hide GroupInv, RoundInv, Accepted, Unanimous, Roster, Users, Restatus, ActiveRows, OthersAccepted;
    var round := group.rounds[i];
    Decided(group, i, user, d);
    FormationProofs.AcceptanceCounted(round, user);
    LastAcceptance(round, user);
    ConfirmedRows(group, i, user, d);
  }

  lemma Decided(group: Group, i: nat, user: UserId, d: DemandId)
    requires GroupInv(group) && i < |group.rounds| && Holds(group, user, d)
    requires group.state.CONFIRMING? && group.rounds[i].state.CONFIRMING?
    ensures i == |group.rounds| - 1 && RoundInv(group.rounds[i]) && Roster(group.members) == group.rounds[i].snapshot
    ensures user in Users(group.rounds[i].snapshot)
  {
    hide RoundInv, Fits;
    assert d in Roster(group.members) && Roster(group.members)[d].user == user;
  }

  lemma ConfirmedRows(group: Group, i: nat, user: UserId, d: DemandId)
    requires GroupInv(group) && i == |group.rounds| - 1 && Holds(group, user, d) && group.state.CONFIRMING?
    ensures var confirmed := group.members[d := group.members[d].(status := CONFIRMED)];
            var pending := Restatus(confirmed, CONFIRMED, PAYMENT_PENDING);
            && SameRows(group.members, confirmed) && SameRows(group.members, pending)
            && (forall e :: e in ActiveRows(group) ==>
                  confirmed[e].status == if group.members[e].user == user then CONFIRMED else group.members[e].status)
            && (OthersAccepted(group.rounds[i], user) ==>
                  forall e :: e in ActiveRows(group) ==> pending[e].status == PAYMENT_PENDING)
  {
    hide RoundsInv, Fits, LockStep, OthersAccepted;
    forall e | e in ActiveRows(group) && group.members[e].user == user ensures e == d {
      OneRow(group, user, d, e);
    }
    if OthersAccepted(group.rounds[i], user) {
      AcceptedRows(group, i, user, d);
    }
  }

  lemma LastAcceptance(round: Round, user: UserId)
    requires RoundInv(round) && round.state.CONFIRMING? && user in Users(round.snapshot)
    ensures Unanimous(FormationProofs.WithAcceptance(round, user)) <==> OthersAccepted(round, user)
  {
    hide Fits, Users;
    var accepted := FormationProofs.WithAcceptance(round, user);
    FormationProofs.AcceptedPlus(round, user);
    if OthersAccepted(round, user) {
      assert Users(round.snapshot) <= Accepted(accepted);
    } else {
      var u :| u in Users(round.snapshot) && u != user && !(u in round.decisions && round.decisions[u] == ACCEPT);
      assert u !in Accepted(accepted);
    }
  }

  /** With the last acceptance every active member is confirmed. */
  lemma AcceptedRows(group: Group, i: nat, user: UserId, d: DemandId)
    requires GroupInv(group) && i == |group.rounds| - 1 && Holds(group, user, d)
    requires group.state.CONFIRMING? && OthersAccepted(group.rounds[i], user)
    ensures forall e :: e in ActiveRows(group) && e != d ==> group.members[e].status.CONFIRMED?
  {
    hide Fits, RoundInv;
    forall e | e in ActiveRows(group) && e != d ensures group.members[e].status.CONFIRMED? {
      var roster := Roster(group.members);
      assert e in roster && roster[e].user in Users(group.rounds[i].snapshot);
      if group.members[e].user == user {
        OneRow(group, user, d, e);
      }
    }
  }

  lemma RefuseAchieves(group: Group, i: nat, user: UserId, env: Env)
    requires GroupInv(group) && Formation.ConfirmChecks(group, i, user, env).None?
    ensures var change := Formation.ConfirmFormation(group, i, user, Formation.Refuse, env);
            && change.Ok? && Refuses(group, change.value.group, i, user)
            && forall d: DemandId :: Holds(group, user, d) ==> change.value.released == {d}
  {
    hide GroupInv, RoundInv, Fits, Tallied, Roster, Users;
    FormationProofs.RefuseFormationSound(group, i, user, env);
    var d := Formation.RowOf(Roster(group.members), user);
    InRoster(group, user, d);
    TalliedIs(Formation.ConfirmFormation(group, i, user, Formation.Refuse, env).value.group);
    forall e | e in ActiveRows(group) && group.members[e].user == user ensures e == d {
      OneRow(group, user, d, e) by { FitsOf(group); }
    }
    forall e: DemandId | Holds(group, user, e) ensures e == d {
      assert e in ActiveRows(group);
    }
  }

  lemma FitsOf(group: Group)
    requires GroupInv(group)
    ensures Fits(Roster(group.members))
  {
  }

  /** A consent names the round's own policy; a refusal names none. */
  predicate OwnPolicy(s: State, g: GroupId, i: nat, choice: Formation.Choice)
    requires g in s.book.groups && i < |s.book.groups[g].rounds|
  {
    choice.Consent? ==> choice.policy == s.book.groups[g].rounds[i].policy
  }

  /** What a confirmation does: an acceptance touches the group alone, a refusal also opens the user's demand again. */
  ghost predicate Confirms(s: State, t: State, user: UserId, g: GroupId, i: nat, choice: Formation.Choice, now: int)
    requires g in s.book.groups && i < |s.book.groups[g].rounds| && g in t.book.groups
  {
    && (choice.Consent? ==> OnlyGroup(s, t, g, {}, OPEN) && Accepts(s.book.groups[g], t.book.groups[g], i, user, now))
    && (choice.Refuse? ==>
          && Refuses(s.book.groups[g], t.book.groups[g], i, user)
          && forall d: DemandId :: Holds(s.book.groups[g], user, d) ==> OnlyGroup(s, t, g, {d}, OPEN))
  }

  /**
   * A confirmation is accepted exactly from an eligible, undecided member in time, with all members eligible, and a
   * consent only to the round's own policy. It does what an acceptance or a refusal does, and nothing else changes.
   */
  lemma ConfirmOutcome(s: State, user: UserId, g: GroupId, i: nat, choice: Formation.Choice, env: Env)
    requires Inv(s)
    ensures var step := ConfirmFormation(user, g, i, choice, env);
            var t := Next(s, step);
            if MayDecide(s, user, g, i, env) && OwnPolicy(s, g, i, choice)
            then Exec(s, step).Ok? && g in t.book.groups && Confirms(s, t, user, g, i, choice, env.now)
            else Exec(s, step).Err? && t == s
  {
    hide Inv, LocalChange, Next, Exec, GroupInv, Accepts, Refuses, IsIn, AllIn, Formation.ConfirmChecks,
      Formation.AcceptFormation, Formation.RefuseFormation;
    var step := ConfirmFormation(user, g, i, choice, env);
    if g in s.book.groups {
      var group := s.book.groups[g];
      Safety.GroupIn(s, g);
      ConfirmIs(s, step);
      Decider(group, i, user, env);
      var change := Formation.ConfirmFormation(group, i, user, choice, env);
      if Formation.ConfirmChecks(group, i, user, env).None? && OwnPolicy(s, g, i, choice) {
        ConfirmAchieves(group, i, user, choice, env);
      }
      if change.Ok? {
        Changes(s, step, change.value);
      } else {
        Fails(s, step);
      }
    } else {
      Fails(s, step);
    }
  }

  lemma ConfirmAchieves(group: Group, i: nat, user: UserId, choice: Formation.Choice, env: Env)
    requires GroupInv(group) && Formation.ConfirmChecks(group, i, user, env).None? && i < |group.rounds|
    requires choice.Consent? ==> choice.policy == group.rounds[i].policy
    ensures var change := Formation.ConfirmFormation(group, i, user, choice, env);
            && change.Ok?
            && (choice.Consent? ==>
                  change.value.released == {} && Accepts(group, change.value.group, i, user, env.now))
            && (choice.Refuse? ==>
                  && Refuses(group, change.value.group, i, user)
                  && forall d: DemandId :: Holds(group, user, d) ==> change.value.released == {d})
  {
    hide GroupInv, Accepts, Refuses, Formation.AcceptFormation, Formation.RefuseFormation;
    if choice.Refuse? {
      RefuseAchieves(group, i, user, env);
    } else {
      var d := Formation.RowOf(Roster(group.members), user);
      InRoster(group, user, d);
      AcceptAchieves(group, i, user, d, env.now);
    }
  }

  lemma ConfirmIs(s: State, step: Step)
    requires step.ConfirmFormation? && step.g in s.book.groups
    ensures LocalChange(s, step) ==
            Formation.ConfirmFormation(s.book.groups[step.g], step.i, step.user, step.choice, step.env)
  {
    hide Formation.ConfirmFormation;
  }

  // ----- deadlines ---------------------------------------------------------------------------

  /**
   * The round is over and all consents are withdrawn; the members are joined members of a group that recruits again.
   */
  predicate Lapses(before: Group, after: Group, i: nat)
    requires i < |before.rounds|
  {
    var round := before.rounds[i];
    && OnlyRound(before, after, i) && SameRows(before.members, after.members) && Tallied(after)
    && after.rounds[i].consents.Keys == round.consents.Keys
    && (forall u :: u in round.consents ==> after.rounds[i].consents[u] == round.consents[u].(revoked := true))
    && after.rounds[i] == round.(state := INVALIDATED, consents := after.rounds[i].consents)
    && forall d :: d in before.members ==>
         after.members[d].status ==
         if before.members[d].status.CONFIRMED? then JOINED else before.members[d].status
  }

  /**
   * A confirmation deadline takes effect exactly when it has passed and group and round still ask for confirmations.
   */
  lemma LapseOutcome(s: State, g: GroupId, i: nat, now: int)
    requires Inv(s)
    ensures var t := Next(s, ConfirmationTimeout(g, i, now));
            if && g in s.book.groups && i < |s.book.groups[g].rounds|
               && s.book.groups[g].state == GroupState.CONFIRMING
               && s.book.groups[g].rounds[i].state == RoundState.CONFIRMING
               && s.book.groups[g].rounds[i].confirmBy <= now
            then OnlyGroup(s, t, g, {}, OPEN) && Lapses(s.book.groups[g], t.book.groups[g], i)
            else t == s
  {
    hide Inv, LocalChange, Next, GroupInv, Lapses;
    var step := ConfirmationTimeout(g, i, now);
    if g in s.book.groups {
      var group := s.book.groups[g];
      Safety.GroupIn(s, g);
      LapseIs(s, step);
      LapseAchieves(group, i, now);
      var change := Formation.InvalidateConfirmation(group, i, now);
      Changes(s, step, change.value);
      if !Formation.ConfirmationDue(group, i, now) {
        NoDemand(s, Next(s, step), g, OPEN);
      }
    } else {
      Fails(s, step);
    }
  }

  lemma LapseIs(s: State, step: Step)
    requires step.ConfirmationTimeout? && step.g in s.book.groups
    ensures LocalChange(s, step) == Formation.InvalidateConfirmation(s.book.groups[step.g], step.i, step.now)
  {
    hide Formation.InvalidateConfirmation;
  }

  lemma LapseAchieves(group: Group, i: nat, now: int)
    requires GroupInv(group)
    ensures Formation.InvalidateConfirmation(group, i, now).Ok?
    ensures Formation.InvalidateConfirmation(group, i, now).value.released == {}
    ensures Formation.ConfirmationDue(group, i, now) ==>
              Lapses(group, Formation.InvalidateConfirmation(group, i, now).value.group, i)
  {
    hide GroupInv, RoundInv, Fits, Tallied;
    FormationProofs.InvalidateConfirmationSound(group, i, now);
    if Formation.ConfirmationDue(group, i, now) {
      var after := Formation.InvalidateConfirmation(group, i, now).value.group;
      assert Roster(after.members).Keys == Roster(group.members).Keys;
      assert |Roster(after.members)| == |Roster(after.members).Keys| &&
             |Roster(group.members)| == |Roster(group.members).Keys|;
      TalliedIs(after);
    }
  }

  /** A recruiting group whose trip is over expires: every member is removed, and every member's demand expires. */
  lemma ExpiryOutcome(s: State, g: GroupId, now: int)
    requires Inv(s)
    ensures var t := Next(s, GroupExpiry(g, now));
            if && g in s.book.groups && s.book.groups[g].window.end <= now
               && (s.book.groups[g].state == GroupState.RECRUITING || s.book.groups[g].state == GroupState.READY)
            then
              var before, after := s.book.groups[g], t.book.groups[g];
              && OnlyGroup(s, t, g, ActiveRows(before), DemandStatus.EXPIRED)
              && after == before.(state := GroupState.EXPIRED, members := after.members)
              && SameRows(before.members, after.members)
              && forall d :: d in before.members ==>
                   after.members[d].status == if d in ActiveRows(before) then REMOVED else before.members[d].status
            else t == s
  {
    hide Inv, LocalChange, Next, GroupInv;
    var step := GroupExpiry(g, now);
    if g in s.book.groups {
      var group := s.book.groups[g];
      ExpiryIs(s, step);
      RosterIs(group);
      Changes(s, step, Formation.ExpireGroup(group, now));
      if !Formation.ExpiryDue(group, now) {
        NoDemand(s, Next(s, step), g, DemandStatus.EXPIRED);
      }
    } else {
      Fails(s, step);
    }
  }

  lemma ExpiryIs(s: State, step: Step)
    requires step.GroupExpiry? && step.g in s.book.groups
    ensures LocalChange(s, step) == Ok(Formation.ExpireGroup(s.book.groups[step.g], step.now))
  {
    hide Formation.ExpireGroup;
  }
}
