/** The three transactions of settleRefund keep the group's invariant, and their failure arms are dead. */
module RefundProofs {
  import opened Wrappers
  import opened Tables
  import opened Invariants
  import Payment

  /** The changes a refund transaction makes: members keep their activity, and one order's refund moves on. */
  ghost predicate RefundStep(before: Group, after: Group, i: nat, user: UserId) {
    && GroupInv(after)
    && (Coupled(before) ==> Coupled(after))
    && MembersKept(before, after, {})
    && OthersKept(before, after, i, user)
  }

  predicate OthersKept(before: Group, after: Group, i: nat, user: UserId) {
    && |after.rounds| == |before.rounds|
    && (forall k :: 0 <= k < |before.rounds| ==>
          && after.rounds[k].orders.Keys == before.rounds[k].orders.Keys
          && forall u :: u in before.rounds[k].orders && !(k == i && u == user) ==>
               after.rounds[k].orders[u] == before.rounds[k].orders[u])
  }

  // ----- one order ---------------------------------------------------------------------------

  /** An order and its successor that only differ in how far their refund got. */
  predicate SameDebt(order: Order, after: Order) {
    && (order.status.REFUND_PENDING? || order.status.REFUNDED?)
    && (after.status.REFUND_PENDING? || after.status.REFUNDED?)
    && after.expiresAt == order.expiresAt
  }

  lemma DebtRound(round: Round, user: UserId, after: Order)
    requires RoundInv(round) && user in round.orders && round.state.REFUNDING?
    requires SameDebt(round.orders[user], after) && OrderInv(after)
    ensures RoundInv(round.(orders := round.orders[user := after]))
  {
    hide Fits;
  }

  lemma DebtState(group: Group, i: nat, user: UserId, after: Order)
    requires Payment.HasOrder(group, i, user) && SameDebt(group.rounds[i].orders[user], after)
    requires StateInv(group) && group.rounds[i].state.REFUNDING?
    ensures StateInv(Payment.SetOrder(group, i, user, after))
    ensures Coupled(group) ==> Coupled(Payment.SetOrder(group, i, user, after))
  {
    hide PaysTogether, Roster, Users;
    var round := group.rounds[i];
    var next := round.(orders := round.orders[user := after]);
    assert forall u :: HasRefundable(round, u) <==> HasRefundable(next, u);
  }

  lemma DebtStep(group: Group, i: nat, user: UserId, after: Order)
    requires GroupInv(group) && Payment.HasOrder(group, i, user)
    requires SameDebt(group.rounds[i].orders[user], after) && OrderInv(after)
    ensures group.rounds[i].state.REFUNDING? || group.rounds[i].state.INVALIDATED?
    ensures group.rounds[i].state.REFUNDING? ==> RefundStep(group, Payment.SetOrder(group, i, user, after), i, user)
  {
    hide Fits, StateInv, Coupled;
    var round := group.rounds[i];
    if round.state.REFUNDING? {
      DebtRound(round, user, after);
      RoundReplaced(group.rounds, i, round.(orders := round.orders[user := after]));
      DebtState(group, i, user, after);
      SetOrderKeeps(group, i, user, after);
    }
  }

  lemma SetOrderKeeps(group: Group, i: nat, user: UserId, order: Order)
    requires Payment.HasOrder(group, i, user)
    ensures MembersKept(group, Payment.SetOrder(group, i, user, order), {})
    ensures OthersKept(group, Payment.SetOrder(group, i, user, order), i, user)
  {
  }

  /** A refund that is not finished belongs to a 99-fen order with a settled payment, in a refunding last round. */
  lemma UnfinishedRefund(group: Group, i: nat, user: UserId)
    requires GroupInv(group)
    requires Payment.RefundIs(group, i, user, REQUESTED) ||
             Payment.RefundIs(group, i, user, RefundStatus.REFUND_PENDING)
    ensures Payment.Refundable(group.rounds[i].orders[user])
    ensures group.rounds[i].state.REFUNDING? && i == |group.rounds| - 1
    ensures user in Users(group.rounds[i].snapshot)
  {
    hide Fits, StateInv;
  }

  // ----- claim and restore -------------------------------------------------------------------

  /** Claiming a requested refund always succeeds: the review arm is never taken. */
  lemma ClaimSound(group: Group, i: nat, user: UserId)
    requires GroupInv(group)
    ensures var claim := Payment.ClaimRefund(group, i, user);
            && claim.claimed == Payment.RefundIs(group, i, user, REQUESTED)
            && (claim.claimed ==> claim.group == Payment.SetRefund(group, i, user, RefundStatus.REFUND_PENDING))
            && (!claim.claimed ==> claim.group == group)
            && RefundStep(group, claim.group, i, user)
  {
    hide GroupInv, Coupled;
    if Payment.RefundIs(group, i, user, REQUESTED) {
      UnfinishedRefund(group, i, user);
      var order := group.rounds[i].orders[user];
      assert OrderInv(order) by { OrderOf(group, i, user); }
      DebtStep(group, i, user, order.(refund := Some(order.refund.value.(status := RefundStatus.REFUND_PENDING))));
    }
  }

  lemma OrderOf(group: Group, i: nat, user: UserId)
    requires GroupInv(group) && Payment.HasOrder(group, i, user)
    ensures OrderInv(group.rounds[i].orders[user])
  {
    hide Fits, StateInv;
    assert RoundInv(group.rounds[i]);
  }

  lemma RestoreSound(group: Group, i: nat, user: UserId)
    requires GroupInv(group)
    ensures RefundStep(group, Payment.RestoreRefund(group, i, user), i, user)
  {
    hide GroupInv, Coupled;
    if Payment.RefundIs(group, i, user, RefundStatus.REFUND_PENDING) {
      UnfinishedRefund(group, i, user);
      var order := group.rounds[i].orders[user];
      assert OrderInv(order) by { OrderOf(group, i, user); }
      DebtStep(group, i, user, order.(refund := Some(order.refund.value.(status := REQUESTED))));
    }
  }

  // ----- finish and recovery -----------------------------------------------------------------

  lemma SetTwice(group: Group, i: nat, user: UserId, first: Order, second: Order)
    requires Payment.HasOrder(group, i, user)
    ensures Payment.SetOrder(Payment.SetOrder(group, i, user, first), i, user, second) ==
            Payment.SetOrder(group, i, user, second)
  {
    var orders: map<UserId, Order> := group.rounds[i].orders;
    assert orders[user := first][user := second] == orders[user := second];
    var left := Payment.SetOrder(Payment.SetOrder(group, i, user, first), i, user, second);
    assert left.rounds == Payment.SetOrder(group, i, user, second).rounds;
  }

  lemma CloseSound(group: Group, i: nat, user: UserId)
    requires GroupInv(group) && Payment.RefundIs(group, i, user, RefundStatus.REFUND_PENDING)
    ensures RefundStep(group, Payment.CloseRefund(group, i, user), i, user)
    ensures Payment.HasOrder(Payment.CloseRefund(group, i, user), i, user)
    ensures Payment.CloseRefund(group, i, user).rounds[i].orders[user].status.REFUNDED?
    ensures group.rounds[i].state.REFUNDING? && i == |group.rounds| - 1
    ensures Payment.CloseRefund(group, i, user).rounds[i].state.REFUNDING?
  {
    hide GroupInv, Coupled;
    UnfinishedRefund(group, i, user);
    var order := group.rounds[i].orders[user];
    assert OrderInv(order) by { OrderOf(group, i, user); }
    var closed := order.(status := OrderStatus.REFUNDED,
                         refund := Some(order.refund.value.(status := RefundStatus.REFUNDED)));
    DebtStep(group, i, user, closed);
    SetTwice(group, i, user, order.(refund := closed.refund), closed);
  }

  /** In a refunding group the paid rows are exactly the active rows. */
  lemma RefundingRoster(group: Group)
    requires GroupInv(group) && group.state.REFUNDING?
    ensures Payment.Payers(group.members) == Roster(group.members)
    ensures Roster(Restatus(group.members, MemberStatus.PAID, JOINED)) == Roster(group.members)
    ensures forall d :: d in Roster(group.members) ==>
              Restatus(group.members, MemberStatus.PAID, JOINED)[d].status.JOINED?
  {
    hide Fits, RoundInv;
  }

  lemma RecoveredRound(round: Round)
    requires RoundInv(round) && round.state.REFUNDING? && !Payment.SomeOrder(round, OrderStatus.REFUND_PENDING)
    ensures RoundInv(round.(state := INVALIDATED))
  {
    hide Fits;
  }

  lemma RecoveredState(group: Group, i: nat)
    requires GroupInv(group) && group.state.REFUNDING? && i == |group.rounds| - 1
    ensures StateInv(Payment.Recover(group, i))
    ensures Coupled(group) ==> Coupled(Payment.Recover(group, i))
  {
    hide Fits, RoundInv;
    RefundingRoster(group);
  }

  /** When the last refund is finished, recovery cannot throw and cannot ask for a review. */
  lemma RecoverSound(group: Group, i: nat, user: UserId)
    requires GroupInv(group) && i == |group.rounds| - 1 && group.rounds[i].state.REFUNDING?
    ensures Payment.RecoverRound(group, i).Ok?
    ensures Payment.RecoverRound(group, i).value ==
            if group.state.REFUNDING? && !Payment.SomeOrder(group.rounds[i], OrderStatus.REFUND_PENDING)
            then Payment.Recover(group, i) else group
    ensures RefundStep(group, Payment.RecoverRound(group, i).value, i, user)
  {
    hide Fits, StateInv, Coupled, MembersKept;
    var round := group.rounds[i];
    NoDeadOrders(round);
    RestatusKept(group, MemberStatus.PAID, JOINED, group.state, group.rounds);
    if group.state.REFUNDING? && !Payment.SomeOrder(round, OrderStatus.REFUND_PENDING) {
      var after := Payment.Recover(group, i);
      RefundingRoster(group);
      FitsSeats(Roster(group.members));
      RecoveredRound(round);
      RoundReplaced(group.rounds, i, after.rounds[i]);
      RecoveredState(group, i);
      RestatusKept(group, MemberStatus.PAID, JOINED, after.state, after.rounds);
    } else {
      SameKept(group);
    }
  }

  lemma SameKept(group: Group)
    ensures MembersKept(group, group, {})
  {
  }

  lemma FitsSeats(roster: map<DemandId, Seat>)
    requires Fits(roster)
    ensures SeatSum(roster) <= 4
  {
  }

  lemma NoDeadOrders(round: Round)
    requires RoundInv(round) && round.state.REFUNDING?
    ensures !Payment.SomeOrder(round, REFUND_FAILED) && !Payment.SomeOrder(round, OrderStatus.PAID)
  {
    hide Fits;
  }

  lemma RefundStepTwice(first: Group, second: Group, third: Group, i: nat, user: UserId)
    requires RefundStep(first, second, i, user) && RefundStep(second, third, i, user)
    ensures RefundStep(first, third, i, user)
  {
    hide GroupInv, Coupled;
    KeptTwice(first, second, third, {}, {});
  }

  lemma FinishSound(group: Group, i: nat, user: UserId)
    requires GroupInv(group)
    ensures Payment.FinishRefund(group, i, user).Ok?
    ensures RefundStep(group, Payment.FinishRefund(group, i, user).value, i, user)
  {
    hide GroupInv, Coupled;
    if Payment.RefundIs(group, i, user, RefundStatus.REFUND_PENDING) {
      hide RefundStep;
      var closed := Payment.CloseRefund(group, i, user);
      CloseSound(group, i, user);
      assert GroupInv(closed) && |closed.rounds| == |group.rounds| by { StepInv(group, closed, i, user); }
      RecoverSound(closed, i, user);
      RefundStepTwice(group, closed, Payment.RecoverRound(closed, i).value, i, user);
    } else {
      SameKept(group);
    }
  }

  /** A finished refund is REFUNDED, whether or not it was the one that recovered the group. */
  lemma FinishedRow(group: Group, i: nat, user: UserId)
    requires GroupInv(group) && Payment.RefundIs(group, i, user, RefundStatus.REFUND_PENDING)
    ensures Payment.FinishRefund(group, i, user).Ok?
    ensures Payment.RefundIs(Payment.FinishRefund(group, i, user).value, i, user, RefundStatus.REFUNDED)
  {
    hide GroupInv;
    FinishSound(group, i, user);
    var closed := Payment.CloseRefund(group, i, user);
    assert Payment.RefundIs(closed, i, user, RefundStatus.REFUNDED);
  }

  lemma StepInv(before: Group, after: Group, i: nat, user: UserId)
    requires RefundStep(before, after, i, user)
    ensures GroupInv(after) && |after.rounds| == |before.rounds|
  {
  }
}
