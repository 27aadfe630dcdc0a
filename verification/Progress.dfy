/** Rounds, orders and refunds only move forward, whatever step is taken. */
module Progress {
  import opened Wrappers
  import opened Tables
  import opened Invariants
  import opened Runs
  import Formation
  import Payment
  import Causes
  import RefundProofs
  import Safety

  /** The order statuses reachable from a status; no closed, delivered or refunded order ever changes again. */
  predicate OrderMoves(before: OrderStatus, after: OrderStatus) {
    || before == after
    || (before.CREATED? && !after.REFUND_FAILED?)
    || (before == OrderStatus.PAYING && !after.REFUND_FAILED? && !after.CREATED?)
    || (before.PAID? && (after.DELIVERED? || after.REFUND_PENDING? || after.REFUNDED?))
    || (before.REFUND_PENDING? && after.REFUNDED?)
  }

  predicate RefundMoves(before: Refund, after: Refund) {
    && after.amountFen == before.amountFen
    && after.requestedAt == before.requestedAt
    && (before.status.REFUNDED? ==> after.status.REFUNDED?)
  }

  predicate OrderForward(before: Order, after: Order) {
    && after.amountFen == before.amountFen
    && after.expiresAt == before.expiresAt
    && OrderMoves(before.status, after.status)
    && (before.settled ==> after.settled)
    && (before.refund.Some? ==> after.refund.Some? && RefundMoves(before.refund.value, after.refund.value))
  }

  predicate RoundMoves(before: RoundState, after: RoundState) {
    || before == after
    || (before.CONFIRMING? && !after.REFUND_RETRY?)
    || (before.PAYING? && (after.DELIVERED? || after.REFUNDING? || after.INVALIDATED?))
    || (before.REFUNDING? && after.INVALIDATED?)
  }

  predicate ConsentForward(before: Tables.Consent, after: Tables.Consent) {
    after.policy == before.policy && (before.revoked ==> after.revoked)
  }

  /** A finished round is final, except that its consents can still be revoked. */
  predicate Final(before: Round, after: Round) {
    !Open(before.state) ==>
      after.orders == before.orders && after.decisions == before.decisions && after.unlocks == before.unlocks &&
      after.consents.Keys == before.consents.Keys
  }

  predicate RoundForward(before: Round, after: Round) {
    && after.snapshot == before.snapshot
    && after.policy == before.policy
    && after.confirmBy == before.confirmBy
    && (before.payBy.Some? ==> after.payBy == before.payBy)
    && RoundMoves(before.state, after.state)
    && Final(before, after)
    && (forall u :: u in before.decisions ==> u in after.decisions && after.decisions[u] == before.decisions[u])
    && (forall u :: u in before.consents ==>
        u in after.consents && ConsentForward(before.consents[u], after.consents[u]))
    && (forall u :: u in before.orders ==> u in after.orders && OrderForward(before.orders[u], after.orders[u]))
  }

  predicate GroupForward(before: Group, after: Group) {
    && |before.rounds| <= |after.rounds|
    && forall i :: 0 <= i < |before.rounds| ==> RoundForward(before.rounds[i], after.rounds[i])
  }

  predicate BookForward(before: Book, after: Book) {
    forall g :: g in before.groups ==> g in after.groups && GroupForward(before.groups[g], after.groups[g])
  }

  lemma SameForward(round: Round)
    ensures RoundForward(round, round)
  {
  }

  lemma ForwardTwice(first: Round, second: Round, third: Round)
    requires RoundForward(first, second) && RoundForward(second, third)
    ensures RoundForward(first, third)
  {
  }

  lemma GroupForwardTwice(first: Group, second: Group, third: Group)
    requires GroupForward(first, second) && GroupForward(second, third)
    ensures GroupForward(first, third)
  {
    hide RoundForward;
    forall i | 0 <= i < |first.rounds| ensures RoundForward(first.rounds[i], third.rounds[i]) {
      ForwardTwice(first.rounds[i], second.rounds[i], third.rounds[i]);
    }
  }

  /** When one round changes, only that round needs looking at. */
  lemma OneRoundForward(before: Group, after: Group, i: nat)
    requires i < |before.rounds| == |after.rounds| && after.rounds == before.rounds[i := after.rounds[i]]
    requires RoundForward(before.rounds[i], after.rounds[i])
    ensures GroupForward(before, after)
  {
    hide RoundForward;
    forall k | 0 <= k < |before.rounds|
      ensures RoundForward(before.rounds[k], after.rounds[k])
    {
      SameForward(before.rounds[k]);
    }
  }

  lemma RoundsSameForward(before: Group, after: Group)
    requires before.rounds <= after.rounds
    ensures GroupForward(before, after)
  {
    hide RoundForward;
    forall k | 0 <= k < |before.rounds|
      ensures RoundForward(before.rounds[k], after.rounds[k])
    {
      SameForward(before.rounds[k]);
    }
  }

  // ----- formation ---------------------------------------------------------------------------

  lemma ConfirmForward(group: Group, i: nat, user: UserId, choice: Formation.Choice, env: Env)
    requires GroupInv(group) && Formation.ConfirmFormation(group, i, user, choice, env).Ok?
    ensures GroupForward(group, Formation.ConfirmFormation(group, i, user, choice, env).value.group)
  {
    hide Fits, StateInv, RoundInv;
    var after := Formation.ConfirmFormation(group, i, user, choice, env).value.group;
    var round := group.rounds[i];
    assert RoundInv(round);
    ConfirmingShape(round);
    assert RoundForward(round, after.rounds[i]);
    OneRoundForward(group, after, i);
  }

  lemma ConfirmingShape(round: Round)
    requires RoundInv(round) && round.state.CONFIRMING?
    ensures round.orders == map[] && round.unlocks == {} && round.payBy.None?
    ensures round.consents.Keys <= round.decisions.Keys
  {
    hide Fits;
  }

  lemma InvalidateForward(group: Group, i: nat, now: int)
    requires Formation.InvalidateConfirmation(group, i, now).Ok?
    ensures GroupForward(group, Formation.InvalidateConfirmation(group, i, now).value.group)
  {
    hide Fits;
    var after := Formation.InvalidateConfirmation(group, i, now).value.group;
    if Formation.ConfirmationDue(group, i, now) {
      OneRoundForward(group, after, i);
    } else {
      RoundsSameForward(group, after);
    }
  }

  // ----- payments ----------------------------------------------------------------------------

  lemma OrderSetForward(group: Group, i: nat, user: UserId, order: Order)
    requires i < |group.rounds| && Open(group.rounds[i].state)
    requires user in group.rounds[i].orders ==> OrderForward(group.rounds[i].orders[user], order)
    ensures GroupForward(group, Payment.SetOrder(group, i, user, order))
  {
    OneRoundForward(group, Payment.SetOrder(group, i, user, order), i);
  }

  lemma CompensatedForward(order: Order, at: int)
    ensures OrderForward(order, Payment.Compensated(order, at))
  {
  }

  lemma CompensateForward(group: Group, i: nat, consents: map<UserId, Tables.Consent>, at: int)
    requires Payment.BothPaying(group, i)
    requires forall u :: u in group.rounds[i].consents ==>
               u in consents && ConsentForward(group.rounds[i].consents[u], consents[u])
    ensures GroupForward(group, Payment.Compensate(group, i, consents, at).group)
  {
    hide OrderForward, Payment.Compensated;
    var after := Payment.Compensate(group, i, consents, at).group;
    forall u | u in group.rounds[i].orders ensures OrderForward(group.rounds[i].orders[u], after.rounds[i].orders[u]) {
      CompensatedForward(group.rounds[i].orders[u], at);
    }
    OneRoundForward(group, after, i);
  }

  lemma DeliverForward(group: Group, i: nat)
    requires Payment.BothPaying(group, i)
    ensures GroupForward(group, Payment.Deliver(group, i))
  {
    OneRoundForward(group, Payment.Deliver(group, i), i);
  }

  lemma DeliverIfCompleteForward(group: Group, i: nat, env: Env)
    ensures GroupForward(group, Payment.DeliverIfComplete(group, i, env).group)
  {
    hide GroupForward, Payment.Deliverable, Payment.Compensate, Payment.Deliver;
    RoundsSameForward(group, group);
    if Payment.BothPaying(group, i) {
      CompensateForward(group, i, group.rounds[i].consents, env.at);
      DeliverForward(group, i);
    }
  }

  lemma CompleteForward(group: Group, i: nat, user: UserId, intentMatches: bool, env: Env)
    requires Payment.CompletePayment(group, i, user, intentMatches, env).Ok?
    ensures GroupForward(group, Payment.CompletePayment(group, i, user, intentMatches, env).value.group)
  {
    hide GroupForward, Payment.DeliverIfComplete;
    var order := group.rounds[i].orders[user];
    if order.status.DELIVERED? || order.status.PAID? {
      RoundsSameForward(group, group);
    } else {
      var paid := order.(settled := true, status := OrderStatus.PAID);
      OrderSetForward(group, i, user, paid);
      RoundsSameForward(Payment.SetOrder(group, i, user, paid), Payment.Settle(group, i, user));
      GroupForwardTwice(group, Payment.SetOrder(group, i, user, paid), Payment.Settle(group, i, user));
      DeliverIfCompleteForward(Payment.Settle(group, i, user), i, env);
      GroupForwardTwice(group, Payment.Settle(group, i, user),
                        Payment.DeliverIfComplete(Payment.Settle(group, i, user), i, env).group);
    }
  }

  lemma RevokeForward(group: Group, i: nat, user: UserId, at: int)
    requires Payment.RevokeConsent(group, i, user, at).Ok?
    ensures GroupForward(group, Payment.RevokeConsent(group, i, user, at).value.group)
  {
    hide GroupForward, Payment.Compensate;
    var round := group.rounds[i];
    if user in round.consents && !round.consents[user].revoked {
      var revoked := Payment.SetRound(group, i,
                                      round.(consents := round.consents[user :=
                                          round.consents[user].(revoked := true)]));
      OneRoundForward(group, revoked, i);
      if Payment.BothPaying(revoked, i) {
        CompensateForward(revoked, i, revoked.rounds[i].consents, at);
        GroupForwardTwice(group, revoked, Payment.Compensate(revoked, i, revoked.rounds[i].consents, at).group);
      }
    } else {
      RoundsSameForward(group, group);
    }
  }

  // ----- refunds -----------------------------------------------------------------------------

  lemma RefundStepForward(group: Group, i: nat, user: UserId)
    requires GroupInv(group)
    ensures GroupForward(group, Payment.ClaimRefund(group, i, user).group)
    ensures GroupForward(group, Payment.RestoreRefund(group, i, user))
  {
    hide GroupInv, GroupForward;
    RefundProofs.ClaimSound(group, i, user);
    RoundsSameForward(group, group);
    if Payment.RefundIs(group, i, user, REQUESTED) || Payment.RefundIs(group, i, user, RefundStatus.REFUND_PENDING) {
      RefundProofs.UnfinishedRefund(group, i, user);
      var order := group.rounds[i].orders[user];
      OrderSetForward(group, i, user,
                      order.(refund := Some(order.refund.value.(status := RefundStatus.REFUND_PENDING))));
      OrderSetForward(group, i, user, order.(refund := Some(order.refund.value.(status := REQUESTED))));
    }
  }

  lemma RecoverForward(group: Group, i: nat)
    requires i < |group.rounds| && group.rounds[i].state.REFUNDING?
    ensures GroupForward(group, Payment.Recover(group, i))
  {
    OneRoundForward(group, Payment.Recover(group, i), i);
  }

  lemma FinishForward(group: Group, i: nat, user: UserId)
    requires GroupInv(group)
    ensures Payment.FinishRefund(group, i, user).Ok?
    ensures GroupForward(group, Payment.FinishRefund(group, i, user).value)
  {
    hide GroupInv, GroupForward, Payment.Recover, Payment.SomeOrder, Payment.RecoverRound;
    RefundProofs.FinishSound(group, i, user);
    RoundsSameForward(group, group);
    if Payment.RefundIs(group, i, user, RefundStatus.REFUND_PENDING) {
      var order := group.rounds[i].orders[user];
      var closed := Payment.CloseRefund(group, i, user);
      RefundProofs.CloseSound(group, i, user);
      RefundProofs.StepInv(group, closed, i, user);
      RefundProofs.RecoverSound(closed, i, user);
      var target := order.(status := OrderStatus.REFUNDED,
                           refund := Some(order.refund.value.(status := RefundStatus.REFUNDED)));
      RefundProofs.UnfinishedRefund(group, i, user);
      RefundProofs.SetTwice(group, i, user, order.(refund := target.refund), target);
      OrderSetForward(group, i, user, target);
      RoundsSameForward(closed, closed);
      RecoverForward(closed, i);
      GroupForwardTwice(group, closed, Payment.RecoverRound(closed, i).value);
    }
  }

  // ----- every step --------------------------------------------------------------------------

  lemma LocalForward(s: State, step: Step)
    requires IsLocal(step) && step.g in s.book.groups && GroupInv(s.book.groups[step.g]) && LocalChange(s, step).Ok?
    ensures GroupForward(s.book.groups[step.g], LocalChange(s, step).value.group)
  {
    hide GroupInv, GroupForward, Formation.ConfirmFormation, Formation.InvalidateConfirmation,
      Payment.CompletePayment, Payment.RevokeConsent, Payment.Compensate;
    var group := s.book.groups[step.g];
    var after := LocalChange(s, step).value.group;
    match step
    case LeaveGroup(_, _) => RoundsSameForward(group, after);
    case StartFormation(_, _, _, _) => RoundsSameForward(group, after);
    case ConfirmFormation(user, _, i, choice, env) => ConfirmForward(group, i, user, choice, env);
    case ConfirmationTimeout(_, i, now) => InvalidateForward(group, i, now);
    case GroupExpiry(_, _) => RoundsSameForward(group, after);
    case CreateOrder(user, _, i, _) =>
      if Payment.HasOrder(group, i, user) {
        RoundsSameForward(group, group);
      } else {
        OrderSetForward(group, i, user, after.rounds[i].orders[user]);
      }
    case CreatePrepay(user, _, i, _) => OrderSetForward(group, i, user, after.rounds[i].orders[user]);
    case CompletePayment(user, _, i, intentMatches, env) => CompleteForward(group, i, user, intentMatches, env);
    case RevokeConsent(user, _, i, at) => RevokeForward(group, i, user, at);
    case PaymentTimeout(_, i, now, at) =>
      RoundsSameForward(group, group);
      if Payment.PaymentDue(group, i, now) {
        CompensateForward(group, i, RevokeAll(group.rounds[i].consents), at);
      }
  }

  lemma GroupSetForward(book: Book, g: GroupId, group: Group, demands: map<DemandId, Demand>)
    requires g in book.groups && GroupForward(book.groups[g], group)
    ensures BookForward(book, Formation.Book(demands, book.groups[g := group]))
  {
    hide GroupForward;
    forall h | h in book.groups ensures GroupForward(book.groups[h], book.groups[g := group][h]) {
      RoundsSameForward(book.groups[h], book.groups[h]);
    }
  }

  lemma RoundsUntouchedForward(before: Book, after: Book)
    requires forall h :: h in before.groups ==> h in after.groups && after.groups[h].rounds == before.groups[h].rounds
    ensures BookForward(before, after)
  {
    hide GroupForward;
    forall h | h in before.groups ensures GroupForward(before.groups[h], after.groups[h]) {
      RoundsSameForward(before.groups[h], after.groups[h]);
    }
  }

  lemma WorkerForward(s: State, step: Step)
    requires Inv(s) && WorkerStep(s, step).Ok?
    ensures BookForward(s.book, WorkerStep(s, step).value.book)
  {
    hide GroupInv, GroupForward, BookForward, GatewayInv, RefundedInv, JobsInv, Payment.ClaimRefund,
      Payment.RestoreRefund, Payment.FinishRefund;
    RoundsUntouchedForward(s.book, s.book);
    match step
    case ClaimRefund(worker, key, _) =>
      RefundStepForward(s.book.groups[key.group], key.round, key.user);
      GroupSetForward(s.book, key.group, Payment.ClaimRefund(s.book.groups[key.group], key.round, key.user).group,
                      s.book.demands);
    case RestoreRefund(worker) =>
      var key := s.jobs[worker].key;
      RefundStepForward(s.book.groups[key.group], key.round, key.user);
      GroupSetForward(s.book, key.group, Payment.RestoreRefund(s.book.groups[key.group], key.round, key.user),
                      s.book.demands);
    case FinishRefund(worker) =>
      var key := s.jobs[worker].key;
      FinishForward(s.book.groups[key.group], key.round, key.user);
      GroupSetForward(s.book, key.group, Payment.FinishRefund(s.book.groups[key.group], key.round, key.user).value,
                      s.book.demands);
    case _ =>
  }

  lemma LocalStepForward(s: State, step: Step)
    requires BookInv(s.book) && IsLocal(step) && step.g in s.book.groups && LocalChange(s, step).Ok?
    ensures BookForward(s.book, Formation.Commit(s.book, step.g, LocalChange(s, step).value, ReleasedAs(step)))
  {
    hide GroupInv, GroupForward, BookForward, LocalChange, DemandInv;
    LocalForward(s, step);
    GroupSetForward(s.book, step.g, LocalChange(s, step).value.group,
                    Formation.SetDemands(s.book.demands, LocalChange(s, step).value.released, ReleasedAs(step)));
  }

  lemma BookRoundsForward(s: State, step: Step)
    requires step.CreateDemand? || step.CancelDemand? || step.JoinGroup?
    requires Exec(s, step).Ok?
    ensures BookForward(s.book, Exec(s, step).value.book)
  {
    hide BookForward, Formation.CreateDemand, Formation.CancelDemand, Formation.JoinGroup, WorkerStep, LocalChange;
    forall h | h in s.book.groups
      ensures h in Exec(s, step).value.book.groups &&
              Exec(s, step).value.book.groups[h].rounds == s.book.groups[h].rounds
    {
      Causes.SameRounds(s, step, h);
    }
    RoundsUntouchedForward(s.book, Exec(s, step).value.book);
  }

  /** Snapshots are immutable, states and payments only advance, and what is finished stays finished. */
  lemma StepForward(s: State, step: Step)
    requires Inv(s)
    ensures BookForward(s.book, Next(s, step).book)
  {
    hide GroupInv, GroupForward, BookForward, GatewayInv, RefundedInv, JobsInv, LocalChange, WorkerStep, DemandInv,
      Formation.CreateDemand, Formation.CancelDemand, Formation.JoinGroup;
    RoundsUntouchedForward(s.book, s.book);
    if Exec(s, step).Ok? && !step.ReadContacts? {
      if step.CreateDemand? || step.CancelDemand? || step.JoinGroup? {
        BookRoundsForward(s, step);
      } else if IsLocal(step) {
        LocalStepForward(s, step);
      } else {
        WorkerForward(s, step);
      }
    }
  }

  lemma BookForwardTwice(first: Book, second: Book, third: Book)
    requires BookForward(first, second) && BookForward(second, third)
    ensures BookForward(first, third)
  {
    hide GroupForward;
    forall g | g in first.groups ensures GroupForward(first.groups[g], third.groups[g]) {
      GroupForwardTwice(first.groups[g], second.groups[g], third.groups[g]);
    }
  }

  /** Over any run from a reachable state, rounds, orders, consents and refunds only move forward. */
  lemma {:induction false} RunForward(s: State, steps: seq<Step>)
    requires Inv(s)
    ensures Inv(Run(s, steps)) && BookForward(s.book, Run(s, steps).book)
  {
    hide Inv, BookForward;
    if steps == [] {
      RoundsUntouchedForward(s.book, s.book);
    } else {
      var n := |steps| - 1;
      RunForward(s, steps[..n]);
      Safety.StepInv(Run(s, steps[..n]), steps[n]);
      StepForward(Run(s, steps[..n]), steps[n]);
      BookForwardTwice(s.book, Run(s, steps[..n]).book, Run(s, steps).book);
    }
  }
}
