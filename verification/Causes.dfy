/** What brought about each decision, charge, delivery and membership: the request, its user and its conditions. */
module Causes {
  import opened Wrappers
  import opened Tables
  import opened Invariants
  import opened Runs
  import Formation
  import Payment
  import BookProofs
  import RefundProofs
  import Safety

  predicate SameDecisions(before: Group, after: Group) {
    forall i :: 0 <= i < |before.rounds| && i < |after.rounds| ==>
      after.rounds[i].decisions == before.rounds[i].decisions
  }

  predicate SettledIn(round: Round, user: UserId) {
    user in round.orders && round.orders[user].settled
  }

  /** Nothing is newly charged or delivered. */
  predicate NothingSold(before: Group, after: Group) {
    forall i :: 0 <= i < |before.rounds| && i < |after.rounds| ==>
      && (after.rounds[i].state.DELIVERED? ==> before.rounds[i].state.DELIVERED?)
      && forall u :: u in after.rounds[i].orders && SettledIn(after.rounds[i], u) ==> SettledIn(before.rounds[i], u)
  }

  lemma Prefix(before: Group, after: Group)
    ensures before.rounds <= after.rounds ==> SameDecisions(before, after) && NothingSold(before, after)
  {
  }

  lemma OneOrder(group: Group, i: nat, user: UserId, order: Order)
    requires i < |group.rounds|
    requires order.settled ==> SettledIn(group.rounds[i], user)
    ensures SameDecisions(group, Payment.SetOrder(group, i, user, order)) &&
            NothingSold(group, Payment.SetOrder(group, i, user, order))
  {
  }

  lemma ConfirmSells(group: Group, i: nat, user: UserId, choice: Formation.Choice, env: Env)
    requires Formation.ConfirmFormation(group, i, user, choice, env).Ok?
    ensures NothingSold(group, Formation.ConfirmFormation(group, i, user, choice, env).value.group)
  {
    hide Fits;
  }

  lemma TimeoutSame(group: Group, i: nat, now: int)
    requires Formation.InvalidateConfirmation(group, i, now).Ok?
    ensures SameDecisions(group, Formation.InvalidateConfirmation(group, i, now).value.group)
    ensures NothingSold(group, Formation.InvalidateConfirmation(group, i, now).value.group)
  {
    hide Fits;
  }

  lemma CompensateSame(group: Group, i: nat, consents: map<UserId, Tables.Consent>, at: int)
    requires i < |group.rounds|
    ensures SameDecisions(group, Payment.Compensate(group, i, consents, at).group)
    ensures NothingSold(group, Payment.Compensate(group, i, consents, at).group)
  {
  }

  lemma RevokeSame(group: Group, i: nat, user: UserId, at: int)
    requires Payment.RevokeConsent(group, i, user, at).Ok?
    ensures SameDecisions(group, Payment.RevokeConsent(group, i, user, at).value.group)
    ensures NothingSold(group, Payment.RevokeConsent(group, i, user, at).value.group)
  {
  }

  /** Delivering or compensating charges nobody and decides nothing. */
  lemma DeliverKeeps(group: Group, i: nat, env: Env)
    ensures var after := Payment.DeliverIfComplete(group, i, env).group;
            && |after.rounds| == |group.rounds| && SameDecisions(group, after)
            && (forall k :: 0 <= k < |group.rounds| && k != i ==> after.rounds[k] == group.rounds[k])
            && (i < |group.rounds| ==>
                  forall u :: u in after.rounds[i].orders && SettledIn(after.rounds[i], u) ==>
                    SettledIn(group.rounds[i], u))
  {
    hide Payment.Deliverable, Payment.Debtors, Payment.Deliver, Payment.Compensate, SameDecisions;
    Prefix(group, group);
    if i < |group.rounds| {
      DeliveryKeeps(group, i);
      CompensationKeeps(group, i, env.at);
    }
  }

  lemma DeliveryKeeps(group: Group, i: nat)
    requires i < |group.rounds|
    ensures var after := Payment.Deliver(group, i);
            && |after.rounds| == |group.rounds| && SameDecisions(group, after)
            && (forall k :: 0 <= k < |group.rounds| && k != i ==> after.rounds[k] == group.rounds[k])
            && forall u :: u in after.rounds[i].orders && SettledIn(after.rounds[i], u) ==>
               SettledIn(group.rounds[i], u)
  {
    hide Payment.Payers, Restatus, Pairs;
  }

  lemma CompensationKeeps(group: Group, i: nat, at: int)
    requires i < |group.rounds|
    ensures var after := Payment.Compensate(group, i, group.rounds[i].consents, at).group;
            && |after.rounds| == |group.rounds| && SameDecisions(group, after)
            && (forall k :: 0 <= k < |group.rounds| && k != i ==> after.rounds[k] == group.rounds[k])
            && forall u :: u in after.rounds[i].orders && SettledIn(after.rounds[i], u) ==>
               SettledIn(group.rounds[i], u)
  {
    hide Payment.Debtors, Restatus;
  }

  lemma SettleKeeps(group: Group, i: nat, user: UserId)
    requires Payment.HasOrder(group, i, user)
    ensures var after := Payment.Settle(group, i, user);
            && |after.rounds| == |group.rounds| && SameDecisions(group, after)
            && (forall k :: 0 <= k < |group.rounds| && k != i ==> after.rounds[k] == group.rounds[k])
            && (forall u :: u in after.rounds[i].orders && u != user && SettledIn(after.rounds[i], u) ==>
                SettledIn(group.rounds[i], u))
  {
    hide Payment.RestatusUser;
  }

  lemma SameTwice(first: Group, second: Group, third: Group)
    requires |first.rounds| == |second.rounds| == |third.rounds| && SameDecisions(first, second) &&
             SameDecisions(second, third)
    ensures SameDecisions(first, third)
  {
  }

  lemma CompleteSame(group: Group, i: nat, user: UserId, intentMatches: bool, env: Env)
    requires Payment.CompletePayment(group, i, user, intentMatches, env).Ok?
    ensures SameDecisions(group, Payment.CompletePayment(group, i, user, intentMatches, env).value.group)
  {
    hide Payment.DeliverIfComplete, Payment.Settle, SameDecisions;
    Prefix(group, group);
    SettleKeeps(group, i, user);
    DeliverKeeps(Payment.Settle(group, i, user), i, env);
    SameTwice(group, Payment.Settle(group, i, user),
              Payment.DeliverIfComplete(Payment.Settle(group, i, user), i, env).group);
  }

  lemma LocalSame(s: State, step: Step)
    requires IsLocal(step) && step.g in s.book.groups && LocalChange(s, step).Ok?
    ensures !step.ConfirmFormation? ==> SameDecisions(s.book.groups[step.g], LocalChange(s, step).value.group)
    ensures !step.CompletePayment? ==> NothingSold(s.book.groups[step.g], LocalChange(s, step).value.group)
  {
    hide Fits, SameDecisions, NothingSold, Formation.ConfirmFormation, Formation.InvalidateConfirmation,
      Payment.CompletePayment, Payment.RevokeConsent, Payment.Compensate, Payment.SetOrder;
    var group := s.book.groups[step.g];
    var after := LocalChange(s, step).value.group;
    Prefix(group, after);
    match step
    case LeaveGroup(_, _) =>
    case StartFormation(_, _, _, _) =>
    case ConfirmFormation(user, _, i, choice, env) => ConfirmSells(group, i, user, choice, env);
    case ConfirmationTimeout(_, i, now) => TimeoutSame(group, i, now);
    case GroupExpiry(_, _) =>
    case CreateOrder(user, _, i, env) =>
      if !Payment.HasOrder(group, i, user) {
        OneOrder(group, i, user, Order(PRICE_FEN, group.rounds[i].payBy.value, CREATED, false, false, None));
      }
    case CreatePrepay(user, _, i, _) =>
      var order := group.rounds[i].orders[user];
      OneOrder(group, i, user,
               order.(intent := true, status := if order.status.CREATED? then OrderStatus.PAYING else order.status));
    case CompletePayment(user, _, i, intentMatches, env) => CompleteSame(group, i, user, intentMatches, env);
    case RevokeConsent(user, _, i, at) => RevokeSame(group, i, user, at);
    case PaymentTimeout(_, i, now, at) =>
      if Payment.PaymentDue(group, i, now) {
        CompensateSame(group, i, RevokeAll(group.rounds[i].consents), at);
      }
  }

  lemma ClaimSame(group: Group, i: nat, user: UserId)
    ensures SameDecisions(group, Payment.ClaimRefund(group, i, user).group) &&
            NothingSold(group, Payment.ClaimRefund(group, i, user).group)
  {
  }

  lemma RestoreSame(group: Group, i: nat, user: UserId)
    ensures SameDecisions(group, Payment.RestoreRefund(group, i, user)) &&
            NothingSold(group, Payment.RestoreRefund(group, i, user))
  {
  }

  lemma CloseSame(group: Group, i: nat, user: UserId)
    requires Payment.RefundIs(group, i, user, RefundStatus.REFUND_PENDING)
    ensures |Payment.CloseRefund(group, i, user).rounds| == |group.rounds|
    ensures SameDecisions(group, Payment.CloseRefund(group, i, user)) &&
            NothingSold(group, Payment.CloseRefund(group, i, user))
  {
  }

  lemma StateSame(before: Group, group: Group, i: nat, state: RoundState, after: Group)
    requires SameDecisions(before, group) && NothingSold(before, group) && i < |group.rounds| && !state.DELIVERED?
    ensures after.rounds == Payment.SetRound(group, i, group.rounds[i].(state := state)).rounds ==>
              SameDecisions(before, after) && NothingSold(before, after)
    ensures after.rounds == group.rounds ==> SameDecisions(before, after) && NothingSold(before, after)
  {
  }

  lemma FinishSame(group: Group, i: nat, user: UserId)
    requires Payment.FinishRefund(group, i, user).Ok?
    ensures SameDecisions(group, Payment.FinishRefund(group, i, user).value)
    ensures NothingSold(group, Payment.FinishRefund(group, i, user).value)
  {
    hide SeatSum, SameDecisions, NothingSold, Payment.CloseRefund, Payment.SomeOrder, Payment.Payers;
    Prefix(group, group);
    if Payment.RefundIs(group, i, user, RefundStatus.REFUND_PENDING) {
      var closed := Payment.CloseRefund(group, i, user);
      CloseSame(group, i, user);
      StateSame(group, closed, i, INVALIDATED, Payment.FinishRefund(group, i, user).value);
      StateSame(group, closed, i, RoundState.REFUND_RETRY, Payment.FinishRefund(group, i, user).value);
    }
  }

  lemma WorkerSame(s: State, step: Step, g: GroupId)
    requires !IsLocal(step) && !step.CreateDemand? && !step.CancelDemand? && !step.JoinGroup?
    requires g in s.book.groups && g in Next(s, step).book.groups
    ensures SameDecisions(s.book.groups[g], Next(s, step).book.groups[g])
    ensures NothingSold(s.book.groups[g], Next(s, step).book.groups[g])
  {
    hide SameDecisions, NothingSold, LocalChange, Payment.ClaimRefund, Payment.RestoreRefund, Payment.FinishRefund;
    Prefix(s.book.groups[g], s.book.groups[g]);
    if step.ClaimRefund? && step.key.group in s.book.groups {
      ClaimSame(s.book.groups[step.key.group], step.key.round, step.key.user);
    } else if (step.FinishRefund? || step.RestoreRefund?) && step.worker in s.jobs &&
      s.jobs[step.worker].key.group in s.book.groups {
      var key := s.jobs[step.worker].key;
      var group := s.book.groups[key.group];
      RestoreSame(group, key.round, key.user);
      if Payment.FinishRefund(group, key.round, key.user).Ok? {
        FinishSame(group, key.round, key.user);
      }
    }
  }

  lemma LocalNext(s: State, step: Step, g: GroupId)
    requires IsLocal(step) && g in s.book.groups && g in Next(s, step).book.groups
    ensures Next(s, step).book.groups[g] ==
            if step.g == g && LocalChange(s, step).Ok? then LocalChange(s, step).value.group else s.book.groups[g]
  {
    hide LocalChange, WorkerStep, Formation.SetDemands;
  }

  /** No step but a confirmation of this group records a decision, and none but a payment in it charges or delivers. */
  lemma OnlyCauses(s: State, step: Step, g: GroupId)
    requires g in s.book.groups && g in Next(s, step).book.groups
    ensures !(step.ConfirmFormation? && step.g == g) ==> SameDecisions(s.book.groups[g], Next(s, step).book.groups[g])
    ensures !(step.CompletePayment? && step.g == g) ==> NothingSold(s.book.groups[g], Next(s, step).book.groups[g])
  {
    hide Next, SameDecisions, NothingSold, LocalChange;
    Prefix(s.book.groups[g], Next(s, step).book.groups[g]);
    if step.CreateDemand? || step.CancelDemand? || step.JoinGroup? {
      BookRoundsNext(s, step, g);
    } else if IsLocal(step) {
      LocalNext(s, step, g);
      if step.g == g && LocalChange(s, step).Ok? {
        LocalSame(s, step);
      }
    } else {
      WorkerSame(s, step, g);
    }
  }

  lemma SameRounds(s: State, step: Step, g: GroupId)
    requires step.CreateDemand? || step.CancelDemand? || step.JoinGroup?
    requires Exec(s, step).Ok? && g in s.book.groups
    ensures g in Exec(s, step).value.book.groups
    ensures Exec(s, step).value.book.groups[g].rounds == s.book.groups[g].rounds
  {
    hide Fits, WorkerStep, LocalChange, Formation.CreateDemand, Formation.CancelDemand, Formation.JoinGroup;
    if step.CreateDemand? {
      CreateRounds(s.book, step, g);
    } else if step.CancelDemand? {
      CancelRounds(s.book, step.user, step.d, g);
    } else {
      JoinRounds(s, step, g);
    }
  }

  lemma CreateRounds(book: Book, step: Step, g: GroupId)
    requires step.CreateDemand? && g in book.groups
    ensures var after := Formation.CreateDemand(book, step.demand, step.d, step.g, step.enabled, step.env);
            after.Ok? ==> g in after.value.groups && after.value.groups[g].rounds == book.groups[g].rounds
  {
  }

  lemma CancelRounds(book: Book, user: UserId, d: DemandId, g: GroupId)
    requires g in book.groups
    ensures var after := Formation.CancelDemand(book, user, d);
            after.Ok? ==> g in after.value.groups && after.value.groups[g].rounds == book.groups[g].rounds
  {
    hide Fits;
  }

  lemma JoinRounds(s: State, step: Step, g: GroupId)
    requires step.JoinGroup? && g in s.book.groups
    ensures var after := Formation.JoinGroup(s.book, s.genders, step.user, step.g, step.d, step.env);
            after.Ok? ==> g in after.value.groups && after.value.groups[g].rounds == s.book.groups[g].rounds
  {
    hide Fits, Formation.Compatible, Formation.Transferable, Formation.OverlappingRows;
  }

  lemma BookRoundsNext(s: State, step: Step, g: GroupId)
    requires step.CreateDemand? || step.CancelDemand? || step.JoinGroup?
    requires g in s.book.groups
    ensures g in Next(s, step).book.groups && Next(s, step).book.groups[g].rounds == s.book.groups[g].rounds
  {
    hide Formation.CreateDemand, Formation.CancelDemand, Formation.JoinGroup, WorkerStep, LocalChange;
    if Exec(s, step).Ok? {
      SameRounds(s, step, g);
    }
  }

  // ----- decisions ---------------------------------------------------------------------------

  /** The one decision a confirmation records, and what held when it was recorded. */
  ghost predicate Decides(before: Group, after: Group, i: nat, user: UserId, choice: Formation.Choice, env: Env)
    requires i < |before.rounds| && i < |after.rounds|
  {
    var round := before.rounds[i];
    && round.state.CONFIRMING? && before.state.CONFIRMING?
    && Roster(before.members) == round.snapshot
    && user in Users(round.snapshot) && user !in round.decisions
    && Users(round.snapshot) <= env.eligible
    && env.now < round.confirmBy
    && after.rounds[i].decisions == round.decisions[user := if choice.Refuse? then DECLINE else ACCEPT]
    && (choice.Consent? ==> choice.policy == round.policy && user in after.rounds[i].consents &&
                            after.rounds[i].consents[user] == Tables.Consent(round.policy, false))
    && (choice.Refuse? ==> after.rounds[i].state.INVALIDATED? && forall u :: u in after.rounds[i].consents ==>
        after.rounds[i].consents[u].revoked)
    && forall k :: 0 <= k < |before.rounds| && k != i && k < |after.rounds| ==> after.rounds[k] == before.rounds[k]
  }

  lemma ConfirmDecides(group: Group, i: nat, user: UserId, choice: Formation.Choice, env: Env)
    requires Formation.ConfirmFormation(group, i, user, choice, env).Ok?
    ensures var after := Formation.ConfirmFormation(group, i, user, choice, env).value.group;
            i < |group.rounds| && i < |after.rounds| && Decides(group, after, i, user, choice, env)
  {
    hide Fits;
  }

  /**
   * A decision is recorded only by a confirmation: one decision, by a snapshot member who had none, before
   * the deadline, with every member eligible, and an acceptance only with the round's own policy version.
   */
  lemma DecisionsHaveCauses(s: State, step: Step, g: GroupId, i: nat)
    requires g in s.book.groups && g in Next(s, step).book.groups
    requires i < |s.book.groups[g].rounds| && i < |Next(s, step).book.groups[g].rounds|
    requires Next(s, step).book.groups[g].rounds[i].decisions != s.book.groups[g].rounds[i].decisions
    ensures step.ConfirmFormation? && step.g == g && step.i == i
    ensures Decides(s.book.groups[g], Next(s, step).book.groups[g], i, step.user, step.choice, step.env)
  {
    hide Next, Decides;
    OnlyCauses(s, step, g);
    var before, after := s.book.groups[g], Next(s, step).book.groups[g];
    assert !SameDecisions(before, after);
    LocalNext(s, step, g);
    ConfirmChange(s, step);
    ConfirmDecides(before, step.i, step.user, step.choice, step.env);
    DecidesOnly(before, after, step.i, step.user, step.choice, step.env, i);
  }

  lemma ConfirmChange(s: State, step: Step)
    requires step.ConfirmFormation? && step.g in s.book.groups
    ensures LocalChange(s, step) ==
            Formation.ConfirmFormation(s.book.groups[step.g], step.i, step.user, step.choice, step.env)
  {
    hide Formation.ConfirmFormation;
  }

  lemma DecidesOnly(before: Group, after: Group, i: nat, user: UserId, choice: Formation.Choice, env: Env, k: nat)
    requires i < |before.rounds| && i < |after.rounds| && Decides(before, after, i, user, choice, env)
    requires k < |before.rounds| && k < |after.rounds| && after.rounds[k].decisions != before.rounds[k].decisions
    ensures k == i
  {
  }

  // ----- charges and deliveries --------------------------------------------------------------

  /** What held when a payment settled: the payer's own open order, in time, with the right intent. */
  predicate Charges(before: Group, i: nat, user: UserId, intentMatches: bool, now: int) {
    && Payment.BothPaying(before, i) && user in before.rounds[i].orders
    && intentMatches && !before.rounds[i].orders[user].status.PAID? && !before.rounds[i].orders[user].status.DELIVERED?
    && Payment.Payable(before.rounds[i].orders[user].status) && now < before.rounds[i].orders[user].expiresAt
  }

  /** What held when contacts were unlocked: everybody else had paid, all agreed, and all could be reached. */
  predicate Delivers(before: Group, i: nat, user: UserId, env: Env)
    requires i < |before.rounds|
  {
    var round := before.rounds[i];
    && (forall u :: u in round.orders && u != user ==> round.orders[u].status.PAID?)
    && (forall u :: u in round.consents ==> !round.consents[u].revoked && round.consents[u].policy == round.policy)
    && Users(round.snapshot) <= env.contacts && Users(round.snapshot) <= env.deliverable
  }

  lemma CompleteSells(group: Group, i: nat, user: UserId, intentMatches: bool, env: Env)
    requires Payment.CompletePayment(group, i, user, intentMatches, env).Ok?
    ensures var after := Payment.CompletePayment(group, i, user, intentMatches, env).value.group;
            && |after.rounds| == |group.rounds|
            && (after == group || Charges(group, i, user, intentMatches, env.now))
            && (forall k :: 0 <= k < |group.rounds| && k != i ==> after.rounds[k] == group.rounds[k])
            && (forall u ::
                  i < |group.rounds| && u in after.rounds[i].orders && u != user && SettledIn(after.rounds[i], u) ==>
                    SettledIn(group.rounds[i], u))
  {
    hide Payment.DeliverIfComplete, Payment.Settle, SameDecisions;
    SettleKeeps(group, i, user);
    DeliverKeeps(Payment.Settle(group, i, user), i, env);
  }

  lemma CompleteDelivers(group: Group, i: nat, user: UserId, intentMatches: bool, env: Env)
    requires Payment.CompletePayment(group, i, user, intentMatches, env).Ok? && i < |group.rounds|
    requires !group.rounds[i].state.DELIVERED?
    requires Payment.CompletePayment(group, i, user, intentMatches, env).value.group.rounds[i].state.DELIVERED?
    ensures Delivers(group, i, user, env)
  {
    var settled := Payment.Settle(group, i, user);
    assert Payment.Deliverable(settled, i, env);
    forall u | u in group.rounds[i].orders && u != user ensures group.rounds[i].orders[u].status.PAID? {
      assert settled.rounds[i].orders[u] == group.rounds[i].orders[u];
    }
  }

  lemma CompleteChange(s: State, step: Step)
    requires step.CompletePayment? && step.g in s.book.groups
    ensures LocalChange(s, step) ==
            Payment.CompletePayment(s.book.groups[step.g], step.i, step.user, step.intentMatches, step.env)
  {
    hide Payment.CompletePayment;
  }

  /** An order is charged only by its own user's payment, in time, of an order still open, with the matching intent. */
  lemma ChargesHaveCauses(s: State, step: Step, g: GroupId, i: nat, user: UserId)
    requires g in s.book.groups && g in Next(s, step).book.groups
    requires i < |s.book.groups[g].rounds| && i < |Next(s, step).book.groups[g].rounds|
    requires SettledIn(Next(s, step).book.groups[g].rounds[i], user) && !SettledIn(s.book.groups[g].rounds[i], user)
    ensures step.CompletePayment? && step.g == g && step.i == i && step.user == user
    ensures Charges(s.book.groups[g], i, user, step.intentMatches, step.env.now)
  {
    hide Next, Charges;
    OnlyCauses(s, step, g);
    assert !NothingSold(s.book.groups[g], Next(s, step).book.groups[g]);
    LocalNext(s, step, g);
    CompleteChange(s, step);
    CompleteSells(s.book.groups[g], step.i, step.user, step.intentMatches, step.env);
  }

  /**
   * Contacts are unlocked only by the payment that completes the round: in time, with every other order paid,
   * no consent withdrawn, and every member verified and with a contact at that moment.
   */
  lemma DeliveriesHaveCauses(s: State, step: Step, g: GroupId, i: nat)
    requires g in s.book.groups && g in Next(s, step).book.groups
    requires i < |s.book.groups[g].rounds| && i < |Next(s, step).book.groups[g].rounds|
    requires Next(s, step).book.groups[g].rounds[i].state.DELIVERED? && !s.book.groups[g].rounds[i].state.DELIVERED?
    ensures step.CompletePayment? && step.g == g && step.i == i
    ensures Charges(s.book.groups[g], i, step.user, step.intentMatches, step.env.now)
    ensures Delivers(s.book.groups[g], i, step.user, step.env)
  {
    hide Next, Charges, Delivers;
    OnlyCauses(s, step, g);
    assert !NothingSold(s.book.groups[g], Next(s, step).book.groups[g]);
    LocalNext(s, step, g);
    CompleteChange(s, step);
    CompleteSells(s.book.groups[g], step.i, step.user, step.intentMatches, step.env);
    CompleteDelivers(s.book.groups[g], i, step.user, step.intentMatches, step.env);
  }

  // ----- rounds ------------------------------------------------------------------------------

  /** What held when a round was opened, and how it begins. */
  ghost predicate Opens(before: Group, after: Group, user: UserId, env: Env)
    requires |after.rounds| == |before.rounds| + 1
  {
    var roster := Roster(before.members);
    var round := after.rounds[|before.rounds|];
    && before.state.READY? && after.state.CONFIRMING? && after.members == before.members
    && |roster| >= 2 && SeatSum(roster) <= 4
    && user in Users(roster) && Users(roster) <= env.eligible
    && round.snapshot == roster && round.state.CONFIRMING? && round.decisions == map[] && round.orders == map[]
    && env.now < round.confirmBy <= before.window.start && round.confirmBy <= env.now + 300000
    && forall i :: 0 <= i < |before.rounds| ==> !Open(before.rounds[i].state) && after.rounds[i] == before.rounds[i]
  }

  lemma StartOpens(group: Group, user: UserId, policy: Option<nat>, compatible: bool, env: Env)
    requires Formation.StartFormation(group, user, policy, compatible, env).Ok?
    ensures var after := Formation.StartFormation(group, user, policy, compatible, env).value.group;
            |after.rounds| == |group.rounds| + 1 && Opens(group, after, user, env) && compatible
  {
    hide Roster, Users, SeatSum;
  }

  lemma LocalLength(s: State, step: Step)
    requires IsLocal(step) && step.g in s.book.groups && LocalChange(s, step).Ok? && !step.StartFormation?
    ensures |LocalChange(s, step).value.group.rounds| == |s.book.groups[step.g].rounds|
  {
    hide Fits, Payment.Deliverable, Restatus, RevokeAll, Roster, Users, Formation.ConfirmFormation,
      Payment.DeliverIfComplete;
    if step.ConfirmFormation? {
      ConfirmLength(s.book.groups[step.g], step.i, step.user, step.choice, step.env);
    } else if step.CompletePayment? {
      CompleteLength(s.book.groups[step.g], step.i, step.user, step.intentMatches, step.env);
    }
  }

  lemma ConfirmLength(group: Group, i: nat, user: UserId, choice: Formation.Choice, env: Env)
    requires Formation.ConfirmFormation(group, i, user, choice, env).Ok?
    ensures |Formation.ConfirmFormation(group, i, user, choice, env).value.group.rounds| == |group.rounds|
  {
    hide Fits;
  }

  lemma CompleteLength(group: Group, i: nat, user: UserId, intentMatches: bool, env: Env)
    requires Payment.CompletePayment(group, i, user, intentMatches, env).Ok?
    ensures |Payment.CompletePayment(group, i, user, intentMatches, env).value.group.rounds| == |group.rounds|
  {
    hide Payment.DeliverIfComplete;
    if Payment.HasOrder(group, i, user) {
      DeliverKeeps(Payment.Settle(group, i, user), i, env);
    }
  }

  lemma WorkerLength(s: State, step: Step, g: GroupId)
    requires !IsLocal(step) && !step.CreateDemand? && !step.CancelDemand? && !step.JoinGroup?
    requires g in s.book.groups && g in Next(s, step).book.groups
    ensures |Next(s, step).book.groups[g].rounds| == |s.book.groups[g].rounds|
  {
    hide LocalChange, Payment.ClaimRefund, Payment.RestoreRefund, Payment.FinishRefund;
    if step.ClaimRefund? && step.key.group in s.book.groups {
      RefundLengths(s.book.groups[step.key.group], step.key.round, step.key.user);
    } else if (step.FinishRefund? || step.RestoreRefund?) && step.worker in s.jobs &&
      s.jobs[step.worker].key.group in s.book.groups {
      var key := s.jobs[step.worker].key;
      RefundLengths(s.book.groups[key.group], key.round, key.user);
    }
  }

  lemma RefundLengths(group: Group, i: nat, user: UserId)
    ensures |Payment.ClaimRefund(group, i, user).group.rounds| == |group.rounds|
    ensures |Payment.RestoreRefund(group, i, user).rounds| == |group.rounds|
    ensures Payment.FinishRefund(group, i, user).Ok? ==>
              |Payment.FinishRefund(group, i, user).value.rounds| == |group.rounds|
  {
    hide SeatSum, Payment.SomeOrder, Payment.Payers, Restatus;
  }

  lemma StartChange(s: State, step: Step)
    requires step.StartFormation? && step.g in s.book.groups
    ensures LocalChange(s, step) ==
            Formation.StartFormation(s.book.groups[step.g], step.user, step.policy,
                                     Formation.Compatible(Roster(s.book.groups[step.g].members), s.book.demands,
                                                          s.genders), step.env)
  {
    hide Formation.StartFormation, Formation.Compatible;
  }

  /**
   * A round is opened only by a member's start of a READY group: at least two members in at most four seats,
   * all eligible and compatible at that moment, no round open, and a deadline before the trip.
   */
  lemma RoundsHaveCauses(s: State, step: Step, g: GroupId)
    requires g in s.book.groups && g in Next(s, step).book.groups
    requires |Next(s, step).book.groups[g].rounds| != |s.book.groups[g].rounds|
    ensures step.StartFormation? && step.g == g
    ensures |Next(s, step).book.groups[g].rounds| == |s.book.groups[g].rounds| + 1
    ensures Opens(s.book.groups[g], Next(s, step).book.groups[g], step.user, step.env)
    ensures Formation.Compatible(Roster(s.book.groups[g].members), s.book.demands, s.genders)
  {
    hide Next, LocalChange, Opens, Formation.Compatible;
    if step.CreateDemand? || step.CancelDemand? || step.JoinGroup? {
      BookRoundsNext(s, step, g);
    } else if IsLocal(step) {
      LocalNext(s, step, g);
      if !step.StartFormation? && step.g == g && LocalChange(s, step).Ok? {
        LocalLength(s, step);
      }
    } else {
      WorkerLength(s, step, g);
    }
    StartChange(s, step);
    StartOpens(s.book.groups[g], step.user, step.policy,
               Formation.Compatible(Roster(s.book.groups[g].members), s.book.demands, s.genders), step.env);
  }

  // ----- memberships -------------------------------------------------------------------------

  /** What held when a demand's membership of an existing group became active. */
  ghost predicate Joins(s: State, step: Step, g: GroupId, d: DemandId)
    requires g in s.book.groups
  {
    && step.JoinGroup? && step.g == g && step.d == d
    && d in s.book.demands && s.book.demands[d].user == step.user && Live(s.book.demands[d])
    && step.user in step.env.eligible
    && Recruitable(s.book.groups[g].state) && step.env.now < s.book.groups[g].window.end
    && Users(Roster(s.book.groups[g].members)) <= step.env.eligible
    && s.book.demands[d].route == s.book.groups[g].route && s.book.demands[d].window == s.book.groups[g].window
  }

  lemma LocalMembers(s: State, step: Step)
    requires IsLocal(step) && step.g in s.book.groups && GroupInv(s.book.groups[step.g]) && LocalChange(s, step).Ok?
    ensures Roster(LocalChange(s, step).value.group.members).Keys <= Roster(s.book.groups[step.g].members).Keys
  {
    hide GroupInv, Coupled, RefundsKept, LocalChange, Roster;
    Safety.LocalSound(s, step);
    KeptRoster(s.book.groups[step.g], LocalChange(s, step).value.group, LocalChange(s, step).value.released);
  }

  lemma CancelMembers(book: Book, user: UserId, d: DemandId, g: GroupId)
    requires Formation.CancelDemand(book, user, d).Ok? && g in book.groups
    ensures g in Formation.CancelDemand(book, user, d).value.groups
    ensures Roster(Formation.CancelDemand(book, user, d).value.groups[g].members).Keys <=
            Roster(book.groups[g].members).Keys
  {
    hide Fits;
  }

  lemma JoinMembers(s: State, step: Step, g: GroupId, d: DemandId)
    requires BookInv(s.book) && step.JoinGroup? && Exec(s, step).Ok?
    requires g in s.book.groups && g in Exec(s, step).value.book.groups
    requires d !in Roster(s.book.groups[g].members) && d in Roster(Exec(s, step).value.book.groups[g].members)
    ensures Joins(s, step, g, d)
  {
    hide BookInv, GroupInv, Coupled, Formation.JoinGroup;
    if Formation.AlreadyIn(s.book, step.g, step.d) {
      BookProofs.RejoinSame(s, step.user, step.g, step.d, step.env);
    } else {
      BookProofs.JoinOutcome(s, step.user, step.g, step.d, step.env);
      JoinConditions(s, step);
    }
  }

  lemma JoinConditions(s: State, step: Step)
    requires step.JoinGroup? && Exec(s, step).Ok?
    ensures step.g in s.book.groups && Joins(s, step, step.g, step.d)
  {
    hide Fits, Formation.Compatible, Formation.OverlappingRows, Formation.Vacate;
  }

  lemma RefundMembers(s: State, step: Step, g: GroupId)
    requires BookInv(s.book) && !IsLocal(step) && !step.CreateDemand? && !step.CancelDemand? && !step.JoinGroup?
    requires g in s.book.groups && g in Next(s, step).book.groups
    ensures Roster(Next(s, step).book.groups[g].members).Keys <= Roster(s.book.groups[g].members).Keys
  {
    hide BookInv, GroupInv, LocalChange, Roster, Payment.ClaimRefund, Payment.RestoreRefund, Payment.FinishRefund;
    var group := s.book.groups[g];
    Safety.GroupOf(s.book, g);
    if step.ClaimRefund? {
      RefundRoster(group, step.key.round, step.key.user);
    } else if (step.FinishRefund? || step.RestoreRefund?) && step.worker in s.jobs {
      RefundRoster(group, s.jobs[step.worker].key.round, s.jobs[step.worker].key.user);
    }
  }

  lemma RefundRoster(group: Group, i: nat, user: UserId)
    requires GroupInv(group)
    ensures Roster(Payment.ClaimRefund(group, i, user).group.members) == Roster(group.members)
    ensures Roster(Payment.RestoreRefund(group, i, user).members) == Roster(group.members)
    ensures Payment.FinishRefund(group, i, user).Ok? ==>
              Roster(Payment.FinishRefund(group, i, user).value.members) == Roster(group.members)
  {
    hide GroupInv, Coupled, RefundProofs.OthersKept, Payment.ClaimRefund, Payment.RestoreRefund, Payment.FinishRefund;
    RefundProofs.ClaimSound(group, i, user);
    RefundProofs.RestoreSound(group, i, user);
    RefundProofs.FinishSound(group, i, user);
    KeptRoster(group, Payment.ClaimRefund(group, i, user).group, {});
    KeptRoster(group, Payment.RestoreRefund(group, i, user), {});
    KeptRoster(group, Payment.FinishRefund(group, i, user).value, {});
  }

  /** An existing group gains a member only by that user's own join, while it recruits and everybody is eligible. */
  lemma MembershipsHaveCauses(s: State, step: Step, g: GroupId, d: DemandId)
    requires BookInv(s.book) && g in s.book.groups && g in Next(s, step).book.groups
    requires d !in Roster(s.book.groups[g].members) && d in Roster(Next(s, step).book.groups[g].members)
    ensures Joins(s, step, g, d)
  {
    hide BookInv, Next, LocalChange, Roster, Joins, Formation.CreateDemand, Formation.CancelDemand, Formation.JoinGroup;
    if IsLocal(step) {
      LocalNext(s, step, g);
      Safety.GroupOf(s.book, g);
      if step.g == g && LocalChange(s, step).Ok? {
        LocalMembers(s, step);
      }
    } else if step.CreateDemand? || step.CancelDemand? || step.JoinGroup? {
      BookMembers(s, step, g, d);
    } else {
      RefundMembers(s, step, g);
    }
  }

  lemma BookMembers(s: State, step: Step, g: GroupId, d: DemandId)
    requires step.CreateDemand? || step.CancelDemand? || step.JoinGroup?
    requires BookInv(s.book) && g in s.book.groups && g in Next(s, step).book.groups
    requires d !in Roster(s.book.groups[g].members) && d in Roster(Next(s, step).book.groups[g].members)
    ensures Joins(s, step, g, d)
  {
    hide BookInv, LocalChange, WorkerStep, Roster, Joins, Formation.CancelDemand, Formation.JoinGroup;
    if step.CancelDemand? && Exec(s, step).Ok? {
      CancelMembers(s.book, step.user, step.d, g);
    } else if step.JoinGroup? && Exec(s, step).Ok? {
      JoinMembers(s, step, g, d);
    }
  }
}
