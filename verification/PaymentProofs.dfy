/** Every payment transaction on one group keeps that group's invariant. */
module PaymentProofs {
  import opened Wrappers
  import opened Tables
  import opened Invariants
  import Formation
  import Payment

  /** A group whose last round is collecting payments, also in the middle of a transaction. */
  ghost predicate Collecting(group: Group, i: nat) {
    && i == |group.rounds| - 1
    && group.state.PAYING?
    && group.rounds[i].state.PAYING?
    && Fits(Roster(group.members))
    && RoundsInv(group.rounds)
    && PaysTogether(group.members, group.rounds[i])
  }

  lemma CollectingOf(group: Group, i: nat)
    requires GroupInv(group) && Payment.BothPaying(group, i)
    ensures Collecting(group, i) && Payment.Debtors(group.members) != map[]
  {
    hide RoundInv, Fits;
  }

  lemma CollectingInv(group: Group, i: nat)
    requires Collecting(group, i) && Payment.Debtors(group.members) != map[]
    ensures GroupInv(group)
  {
    hide RoundInv, Fits;
  }

  // ----- orders ------------------------------------------------------------------------------

  lemma OrderSet(round: Round, user: UserId, order: Order)
    requires RoundInv(round) && round.state.PAYING? && user in Users(round.snapshot)
    requires OrderInv(order) && OrderFits(RoundState.PAYING, order.status) && round.payBy == Some(order.expiresAt)
    ensures RoundInv(round.(orders := round.orders[user := order]))
  {
    hide Fits;
  }

  lemma UnpaidOrderSet(group: Group, i: nat, user: UserId, order: Order)
    requires Collecting(group, i) && user in Users(group.rounds[i].snapshot)
    requires OrderInv(order) && Payment.Payable(order.status) && group.rounds[i].payBy == Some(order.expiresAt)
    requires !HasPaid(group.rounds[i], user)
    ensures Collecting(Payment.SetOrder(group, i, user, order), i)
  {
    hide RoundInv, Fits;
    OrderSet(group.rounds[i], user, order);
    RoundReplaced(group.rounds, i, group.rounds[i].(orders := group.rounds[i].orders[user := order]));
  }

  lemma UnpaidOrderSound(group: Group, i: nat, user: UserId, order: Order)
    requires GroupInv(group) && Payment.BothPaying(group, i) && user in Users(group.rounds[i].snapshot)
    requires OrderInv(order) && Payment.Payable(order.status) && group.rounds[i].payBy == Some(order.expiresAt)
    requires !HasPaid(group.rounds[i], user)
    ensures Sound(group, Formation.Change(Payment.SetOrder(group, i, user, order), {}))
  {
    hide RoundInv, Fits;
    CollectingOf(group, i);
    UnpaidOrderSet(group, i, user, order);
    var after := Payment.SetOrder(group, i, user, order);
    CollectingInv(after, i);
    StillNoRefunds(group, i, after);
  }

  /** A collecting round has no refund row, so whatever becomes of its orders disturbs none. */
  lemma NoRefundsYet(group: Group, i: nat, after: Group)
    requires i < |group.rounds| && RoundInv(group.rounds[i]) && group.rounds[i].state.PAYING?
    requires |after.rounds| == |group.rounds| && after.rounds == group.rounds[i := after.rounds[i]]
    requires forall u :: u in after.rounds[i].orders && after.rounds[i].orders[u].refund.Some? ==>
               after.rounds[i].orders[u].refund.value.status.REQUESTED?
    ensures RefundsKept(group, after)
  {
    RefundsKeptByRound(group, after, i);
  }

  lemma StillNoRefunds(group: Group, i: nat, after: Group)
    requires i < |group.rounds| && RoundInv(group.rounds[i]) && group.rounds[i].state.PAYING?
    requires |after.rounds| == |group.rounds| && after.rounds == group.rounds[i := after.rounds[i]]
    requires RoundInv(after.rounds[i]) && after.rounds[i].state.PAYING?
    ensures RefundsKept(group, after)
  {
    hide Fits;
    RefundsKeptByRound(group, after, i);
  }

  lemma UnchangedSound(group: Group)
    requires GroupInv(group)
    ensures Sound(group, Formation.Change(group, {}))
  {
    hide GroupInv, Coupled;
    RefundsKeptUntouched(group, group);
  }

  lemma CreateOrderSound(group: Group, i: nat, user: UserId, env: Env)
    requires GroupInv(group) && Payment.CreateOrder(group, i, user, env).Ok?
    ensures Sound(group, Payment.CreateOrder(group, i, user, env).value)
  {
    hide RoundInv, Fits;
    if Payment.HasOrder(group, i, user) {
      UnchangedSound(group);
    } else {
      CollectingOf(group, i);
      var d :| d in Standing(group.members, PAYMENT_PENDING) && group.members[d].user == user;
      assert Roster(group.members)[d].user in Users(Roster(group.members));
      UnpaidOrderSound(group, i, user, Order(PRICE_FEN, group.rounds[i].payBy.value, CREATED, false, false, None));
    }
  }

  lemma CreatePrepaySound(group: Group, i: nat, user: UserId, now: int)
    requires GroupInv(group) && Payment.CreatePrepay(group, i, user, now).Ok?
    ensures Sound(group, Payment.CreatePrepay(group, i, user, now).value)
  {
    hide Fits;
    var order := group.rounds[i].orders[user];
    UnpaidOrderSound(group, i, user,
      order.(intent := true, status := if order.status.CREATED? then OrderStatus.PAYING else order.status));
  }

  // ----- settling ----------------------------------------------------------------------------

  lemma SettledRows(group: Group, i: nat, user: UserId)
    requires Collecting(group, i) && Payment.HasOrder(group, i, user)
    ensures PaysTogether(Payment.Settle(group, i, user).members, Payment.Settle(group, i, user).rounds[i])
    ensures Roster(Payment.Settle(group, i, user).members) == Roster(group.members)
  {
    hide RoundInv, Fits;
    var after := Payment.Settle(group, i, user);
    assert Roster(after.members) == Roster(group.members);
  }

  lemma SettleCollects(group: Group, i: nat, user: UserId)
    requires Collecting(group, i) && Payment.HasOrder(group, i, user)
    requires Payment.Payable(group.rounds[i].orders[user].status)
    ensures Collecting(Payment.Settle(group, i, user), i)
  {
    hide Fits, PaysTogether;
    var after := Payment.Settle(group, i, user);
    SettledRows(group, i, user);
    OrderSet(group.rounds[i], user, after.rounds[i].orders[user]);
    RoundReplaced(group.rounds, i, after.rounds[i]);
  }

  lemma SettleKeeps(group: Group, i: nat, user: UserId)
    requires Payment.HasOrder(group, i, user)
    ensures MembersKept(group, Payment.Settle(group, i, user), {})
  {
  }

  // ----- compensation ------------------------------------------------------------------------

  /** A consent list a compensation may leave behind: nobody's consent is added, dropped or renamed. */
  predicate SameConsents(left: map<UserId, Tables.Consent>, right: map<UserId, Tables.Consent>) {
    left.Keys == right.Keys && forall u :: u in left ==> left[u].policy == right[u].policy
  }

  lemma CompensatedOrder(order: Order, at: int)
    requires OrderInv(order) && OrderFits(RoundState.PAYING, order.status)
    ensures OrderInv(Payment.Compensated(order, at)) &&
            OrderFits(RoundState.REFUNDING, Payment.Compensated(order, at).status)
    ensures order.status.PAID? <==> Payment.Compensated(order, at).status.REFUND_PENDING?
    ensures !Payment.Compensated(order, at).status.REFUNDED? &&
            Payment.Compensated(order, at).expiresAt == order.expiresAt
  {
  }

  lemma CompensatedRound(round: Round, consents: map<UserId, Tables.Consent>, at: int)
    requires RoundInv(round) && round.state.PAYING? && SameConsents(round.consents, consents)
    ensures RoundInv(round.(state := RoundState.REFUNDING, orders := Payment.CompensatedOrders(round.orders, at),
                            consents := consents))
    ensures forall u :: u in round.orders ==>
              (HasPaid(round, u) <==> Payment.Compensated(round.orders[u], at).status.REFUND_PENDING?) &&
              !Payment.Compensated(round.orders[u], at).status.REFUNDED?
  {
    hide Fits, OrderInv, Payment.Compensated;
    forall u | u in round.orders
      ensures OrderInv(Payment.Compensated(round.orders[u], at))
      ensures OrderFits(RoundState.REFUNDING, Payment.Compensated(round.orders[u], at).status)
      ensures HasPaid(round, u) <==> Payment.Compensated(round.orders[u], at).status.REFUND_PENDING?
      ensures !Payment.Compensated(round.orders[u], at).status.REFUNDED?
      ensures Payment.Compensated(round.orders[u], at).expiresAt == round.orders[u].expiresAt
    {
      CompensatedOrder(round.orders[u], at);
    }
  }

  /** Exactly the members with a paid order remain, and they are exactly those owed a refund. */
  lemma CompensatedRows(members: map<DemandId, Member>, round: Round, after: Round, at: int)
    requires PaysTogether(members, round)
    requires after.snapshot == round.snapshot && after.orders == Payment.CompensatedOrders(round.orders, at)
    requires forall u :: u in round.orders ==>
               (HasPaid(round, u) <==> Payment.Compensated(round.orders[u], at).status.REFUND_PENDING?) &&
               !Payment.Compensated(round.orders[u], at).status.REFUNDED?
    ensures var left := Restatus(members, PAYMENT_PENDING, PAYMENT_TIMEOUT);
            && (forall d :: d in Roster(left) ==>
                  left[d].status.PAID? && d in round.snapshot && Roster(left)[d] == round.snapshot[d])
            && (forall d :: d in round.snapshot ==>
                (d in Roster(left) <==> HasRefundable(after, round.snapshot[d].user)))
  {
    hide Payment.Compensated;
    var left := Restatus(members, PAYMENT_PENDING, PAYMENT_TIMEOUT);
    forall d | d in round.snapshot
      ensures d in Roster(left) <==> HasRefundable(after, round.snapshot[d].user)
    {
      assert d in Roster(members) && round.snapshot[d].user == members[d].user;
    }
  }

  lemma CompensatedState(group: Group, i: nat, consents: map<UserId, Tables.Consent>, at: int)
    requires Collecting(group, i)
    requires forall u :: u in group.rounds[i].orders ==>
               (HasPaid(group.rounds[i], u) <==>
                Payment.Compensated(group.rounds[i].orders[u], at).status.REFUND_PENDING?) &&
               !Payment.Compensated(group.rounds[i].orders[u], at).status.REFUNDED?
    ensures StateInv(Payment.Compensate(group, i, consents, at).group)
    ensures Coupled(group) ==> Coupled(Payment.Compensate(group, i, consents, at).group)
  {
    hide RoundInv, Fits, PaysTogether, Roster, Payment.CompensatedOrders, HasRefundable;
    CompensatedRows(group.members, group.rounds[i], Payment.Compensate(group, i, consents, at).group.rounds[i], at);
  }

  /** From a collecting group, paid up or not, a compensation leads to a refunding group. */
  lemma CompensateSound(group: Group, i: nat, consents: map<UserId, Tables.Consent>, at: int)
    requires Collecting(group, i) && SameConsents(group.rounds[i].consents, consents)
    ensures Sound(group, Payment.Compensate(group, i, consents, at))
  {
    hide RoundInv, Fits, StateInv, Coupled, RefundsKept, MembersKept, PaysTogether;
    var after := Payment.Compensate(group, i, consents, at).group;
    CompensatedRound(group.rounds[i], consents, at);
    RoundReplaced(group.rounds, i, after.rounds[i]);
    CompensatedState(group, i, consents, at);
    RestatusKept(group, PAYMENT_PENDING, PAYMENT_TIMEOUT, after.state, after.rounds);
    KeptRoster(group, after, Payment.Debtors(group.members).Keys);
    FitsSubset(Roster(after.members), Roster(group.members));
    CompensatedRefunds(group, i, consents, at);
  }

  lemma CompensatedRefunds(group: Group, i: nat, consents: map<UserId, Tables.Consent>, at: int)
    requires i < |group.rounds| && RoundInv(group.rounds[i]) && group.rounds[i].state.PAYING?
    ensures RefundsKept(group, Payment.Compensate(group, i, consents, at).group)
  {
    NoRefundsYet(group, i, Payment.Compensate(group, i, consents, at).group);
  }

  lemma InvalidatePaymentSound(group: Group, i: nat, now: int, at: int)
    requires GroupInv(group)
    ensures Payment.InvalidatePayment(group, i, now, at).Ok?
    ensures Sound(group, Payment.InvalidatePayment(group, i, now, at).value)
  {
    hide Fits, StateInv;
    if Payment.PaymentDue(group, i, now) {
      CollectingOf(group, i);
      CompensateSound(group, i, RevokeAll(group.rounds[i].consents), at);
    } else {
      UnchangedSound(group);
    }
  }

  // ----- delivery ----------------------------------------------------------------------------

  lemma DeliverableOrders(group: Group, i: nat, env: Env)
    requires Collecting(group, i) && Payment.Debtors(group.members) == map[] && Payment.Deliverable(group, i, env)
    ensures group.rounds[i].orders.Keys == Users(group.rounds[i].snapshot)
  {
    hide RoundInv, RoundsInv;
    var round := group.rounds[i];
    RosterSize(round.snapshot);
    SubsetSize(round.orders.Keys, Users(round.snapshot));
  }

  lemma DeliveredRound(round: Round)
    requires RoundInv(round) && round.state.PAYING? && round.orders.Keys == Users(round.snapshot)
    requires forall u :: u in round.orders ==> round.orders[u].status.PAID?
    ensures RoundInv(round.(
              state := RoundState.DELIVERED,
              orders := map u | u in round.orders ::
                if round.orders[u].status.PAID?
                  then round.orders[u].(status := OrderStatus.DELIVERED) else round.orders[u],
              unlocks := round.unlocks + Pairs(Users(round.snapshot))))
  {
    hide Fits;
  }

  lemma DeliveredState(group: Group, i: nat)
    requires Collecting(group, i) && Payment.Debtors(group.members) == map[]
    ensures StateInv(Payment.Deliver(group, i))
    ensures Coupled(group) ==> Coupled(Payment.Deliver(group, i))
    ensures Roster(Payment.Deliver(group, i).members) == Roster(group.members)
    ensures Payment.Payers(group.members) == group.rounds[i].snapshot
  {
    hide RoundInv, Fits;
    forall d | d in Roster(group.members) ensures group.members[d].status.PAID? {
      assert d !in Payment.Debtors(group.members);
    }
    assert Payment.Payers(group.members) == Roster(group.members);
    assert Roster(Payment.Deliver(group, i).members) == Roster(group.members);
  }

  lemma DeliverSound(group: Group, i: nat, env: Env)
    requires Collecting(group, i) && Payment.Debtors(group.members) == map[] && Payment.Deliverable(group, i, env)
    ensures Sound(group, Formation.Change(Payment.Deliver(group, i), {}))
  {
    hide RoundInv, Fits, StateInv, Coupled, RefundsKept, MembersKept, PaysTogether;
    var after := Payment.Deliver(group, i);
    DeliverableOrders(group, i, env);
    DeliveredState(group, i);
    DeliveredRound(group.rounds[i]);
    RoundReplaced(group.rounds, i, after.rounds[i]);
    RestatusKept(group, MemberStatus.PAID, CONTACT_UNLOCKED, after.state, after.rounds);
    DeliveredRefunds(group, i);
  }

  lemma DeliveredRefunds(group: Group, i: nat)
    requires i < |group.rounds| && RoundInv(group.rounds[i]) && group.rounds[i].state.PAYING?
    ensures RefundsKept(group, Payment.Deliver(group, i))
  {
    hide Fits;
    NoRefundsYet(group, i, Payment.Deliver(group, i));
  }

  lemma DeliverIfCompleteSound(group: Group, i: nat, env: Env)
    requires Collecting(group, i)
    ensures Sound(group, Payment.DeliverIfComplete(group, i, env))
  {
    hide RoundInv, Fits, PaysTogether, Coupled, RefundsKept, MembersKept, StateInv, Payment.Deliverable,
      Payment.Deliver;
    if Payment.Debtors(group.members) != map[] {
      CollectingInv(group, i);
      UnchangedSound(group);
    } else if !Payment.Deliverable(group, i, env) {
      CompensateSound(group, i, group.rounds[i].consents, env.at);
    } else {
      DeliverSound(group, i, env);
    }
  }

  lemma SoundAfter(first: Group, second: Group, change: Formation.Change)
    requires MembersKept(first, second, {}) && RefundsKept(first, second) && (Coupled(first) ==> Coupled(second))
    requires Sound(second, change)
    ensures Sound(first, change)
  {
    hide GroupInv, Coupled;
    KeptTwice(first, second, change.group, {}, change.released);
    KeptRoster(first, second, {});
  }

  lemma CompletePaymentSound(group: Group, i: nat, user: UserId, intentMatches: bool, env: Env)
    requires GroupInv(group) && Payment.CompletePayment(group, i, user, intentMatches, env).Ok?
    ensures Sound(group, Payment.CompletePayment(group, i, user, intentMatches, env).value)
  {
    hide RoundInv, Fits, StateInv, RefundsKept, MembersKept, Sound;
    var order := group.rounds[i].orders[user];
    if order.status.DELIVERED? || order.status.PAID? {
      UnchangedSound(group);
    } else {
      var settled := Payment.Settle(group, i, user);
      CollectingOf(group, i);
      SettleCollects(group, i, user);
      SettleKeeps(group, i, user);
      StillNoRefunds(group, i, settled);
      DeliverIfCompleteSound(settled, i, env);
      SoundAfter(group, settled, Payment.DeliverIfComplete(settled, i, env));
    }
  }

  // ----- consent -----------------------------------------------------------------------------

  lemma RevokedRound(round: Round, user: UserId)
    requires RoundInv(round) && user in round.consents
    ensures RoundInv(round.(consents := round.consents[user := round.consents[user].(revoked := true)]))
  {
    hide Fits;
  }

  lemma RevokedState(group: Group, i: nat, user: UserId)
    requires i < |group.rounds| && user in group.rounds[i].consents
    ensures var round := group.rounds[i];
            var after := Payment.SetRound(group, i,
                                          round.(consents := round.consents[user :=
                                              round.consents[user].(revoked := true)]));
            (StateInv(group) ==> StateInv(after)) && (Coupled(group) ==> Coupled(after)) && RefundsKept(group, after)
  {
    var round := group.rounds[i];
    var after := Payment.SetRound(group, i,
                                  round.(consents := round.consents[user := round.consents[user].(revoked := true)]));
    RevokedKept(group, i, user);
    RevokedLast(group, after, i);
  }

  lemma RevokedKept(group: Group, i: nat, user: UserId)
    requires i < |group.rounds| && user in group.rounds[i].consents
    ensures var round := group.rounds[i];
            RefundsKept(group, Payment.SetRound(group, i,
                                                round.(consents := round.consents[user :=
                                                    round.consents[user].(revoked := true)])))
  {
    var round := group.rounds[i];
    RefundsKeptByRound(group,
                       Payment.SetRound(group, i,
                                        round.(consents := round.consents[user :=
                                            round.consents[user].(revoked := true)])), i);
  }

  /** Consents do not matter to how a group and its rounds go together. */
  lemma RevokedLast(group: Group, after: Group, i: nat)
    requires i < |group.rounds| == |after.rounds|
    requires after == Payment.SetRound(group, i, group.rounds[i].(consents := after.rounds[i].consents))
    ensures (StateInv(group) ==> StateInv(after)) && (Coupled(group) ==> Coupled(after))
  {
  }

  lemma RevokeConsentSound(group: Group, i: nat, user: UserId, at: int)
    requires GroupInv(group) && Payment.RevokeConsent(group, i, user, at).Ok?
    ensures Sound(group, Payment.RevokeConsent(group, i, user, at).value)
  {
    hide RoundInv, Fits, StateInv, RefundsKept, MembersKept, Sound, Coupled, Payment.Compensate;
    var round := group.rounds[i];
    if user in round.consents && !round.consents[user].revoked {
      var revoked := Payment.SetRound(group, i,
                                      round.(consents := round.consents[user :=
                                          round.consents[user].(revoked := true)]));
      RevokedRound(round, user);
      RoundReplaced(group.rounds, i, revoked.rounds[i]);
      RevokedState(group, i, user);
      if Payment.BothPaying(revoked, i) {
        CollectingOf(revoked, i);
        CompensateSound(revoked, i, revoked.rounds[i].consents, at);
      } else {
        UnchangedSound(revoked);
      }
      assert MembersKept(group, revoked, {}) by { SameMembersKept(group, revoked); }
      SoundAfter(group, revoked, Payment.RevokeConsent(group, i, user, at).value);
    } else {
      UnchangedSound(group);
    }
  }

  lemma SameMembersKept(before: Group, after: Group)
    requires before.members == after.members && before.route == after.route && before.window == after.window
    ensures MembersKept(before, after, {})
  {
  }
}
