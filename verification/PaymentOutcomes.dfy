/** What each payment request achieves, and exactly when: orders, delivery, compensation and revocation. */
module PaymentOutcomes {
  import opened Wrappers
  import opened Tables
  import opened Runs
  import opened Invariants
  import opened Outcomes
  import Formation
  import Payment
  import PaymentProofs
  import RefundProofs
  import Safety

  /** The group and this round of it collect payments. */
  predicate Collects(s: State, g: GroupId, i: nat) {
    && g in s.book.groups && i < |s.book.groups[g].rounds|
    && s.book.groups[g].state == GroupState.PAYING && s.book.groups[g].rounds[i].state == RoundState.PAYING
  }

  predicate HoldsOrder(s: State, g: GroupId, i: nat, user: UserId) {
    g in s.book.groups && i < |s.book.groups[g].rounds| && user in s.book.groups[g].rounds[i].orders
  }

  function OrderOf(s: State, g: GroupId, i: nat, user: UserId): Order
    requires HoldsOrder(s, g, i, user)
  {
    s.book.groups[g].rounds[i].orders[user]
  }

  predicate Owes(group: Group, user: UserId) {
    exists d :: d in group.members && group.members[d].user == user && group.members[d].status.PAYMENT_PENDING?
  }

  lemma CollectsIs(s: State, g: GroupId, i: nat)
    requires Inv(s) && g in s.book.groups && i < |s.book.groups[g].rounds|
    ensures GroupInv(s.book.groups[g]) && RoundInv(s.book.groups[g].rounds[i])
    ensures Collects(s, g, i) ==> s.book.groups[g].rounds[i].payBy.Some?
  {
    hide GatewayInv, RefundedInv, JobsInv, StateInv, Fits;
    Safety.GroupOf(s.book, g);
    assert RoundInv(s.book.groups[g].rounds[i]);
  }

  // ----- orders ------------------------------------------------------------------------------

  /**
   * An order is given exactly to an eligible member who still owes, while the round collects payments: for 99 fen, due
   * at the round's deadline, once.
   */
  lemma OrderOutcome(s: State, user: UserId, g: GroupId, i: nat, env: Env)
    requires Inv(s)
    ensures var t := Next(s, Step.CreateOrder(user, g, i, env));
            && (Exec(s, Step.CreateOrder(user, g, i, env)).Ok? <==>
                user in env.eligible && Collects(s, g, i) && Owes(s.book.groups[g], user) &&
                env.now < s.book.groups[g].rounds[i].payBy.value)
            && (Exec(s, Step.CreateOrder(user, g, i, env)).Err? || HoldsOrder(s, g, i, user) ==> t == s)
            && (Exec(s, Step.CreateOrder(user, g, i, env)).Ok? && !HoldsOrder(s, g, i, user) ==>
                  var round := s.book.groups[g].rounds[i];
                  && OnlyGroup(s, t, g, {}, OPEN) && OnlyRound(s.book.groups[g], t.book.groups[g], i)
                  && t.book.groups[g].members == s.book.groups[g].members && t.book.groups[g].state.PAYING?
                  && t.book.groups[g].rounds[i] == round.(orders := round.orders[
                       user := Order(99, round.payBy.value, CREATED, false, false, None)]))
  {
    hide Inv, LocalChange, Next, Exec, GroupInv, RoundInv;
    var step := Step.CreateOrder(user, g, i, env);
    if g in s.book.groups {
      var group := s.book.groups[g];
      OrderIs(s, step);
      if i < |group.rounds| {
        CollectsIs(s, g, i);
        OwesIs(group, user);
      }
      var change := Payment.CreateOrder(group, i, user, env);
      if change.Ok? {
        Changes(s, step, change.value);
        NoDemand(s, Next(s, step), g, OPEN);
      } else {
        Fails(s, step);
      }
    } else {
      Fails(s, step);
    }
  }

  lemma OrderIs(s: State, step: Step)
    requires step.CreateOrder? && step.g in s.book.groups
    ensures LocalChange(s, step) == Payment.CreateOrder(s.book.groups[step.g], step.i, step.user, step.env)
  {
    hide Payment.CreateOrder;
  }

  lemma OwesIs(group: Group, user: UserId)
    ensures user in Users(Standing(group.members, PAYMENT_PENDING)) <==> Owes(group, user)
  {
    var standing := Standing(group.members, PAYMENT_PENDING);
    if d :| d in group.members && group.members[d].user == user && group.members[d].status.PAYMENT_PENDING? {
      assert d in standing && standing[d].user == user;
    }
  }

  /**
   * A payment is prepared exactly for the payer's own order, unpaid and in time; its intent is on record from then on.
   */
  lemma PrepayOutcome(s: State, user: UserId, g: GroupId, i: nat, now: int)
    requires Inv(s)
    ensures var step := Step.CreatePrepay(user, g, i, now);
            var t := Next(s, step);
            && (Exec(s, step).Ok? <==>
                Collects(s, g, i) && HoldsOrder(s, g, i, user) && !OrderOf(s, g, i, user).status.PAID? &&
                now < OrderOf(s, g, i, user).expiresAt)
            && (Exec(s, step).Err? ==> t == s)
            && (Exec(s, step).Ok? ==>
                  var round := s.book.groups[g].rounds[i];
                  && OnlyGroup(s, t, g, {}, OPEN) && OnlyRound(s.book.groups[g], t.book.groups[g], i)
                  && t.book.groups[g].members == s.book.groups[g].members && t.book.groups[g].state.PAYING?
                  && t.book.groups[g].rounds[i] == round.(orders := round.orders[
                       user := round.orders[user].(status := OrderStatus.PAYING, intent := true)]))
  {
    hide Inv, LocalChange, Next, Exec, GroupInv;
    var step := Step.CreatePrepay(user, g, i, now);
    if g in s.book.groups {
      var group := s.book.groups[g];
      if i < |group.rounds| {
        CollectsIs(s, g, i);
      }
      var change := Payment.CreatePrepay(group, i, user, now);
      PrepayIs(s, step);
      if change.Ok? {
        Changes(s, step, change.value);
      } else {
        Fails(s, step);
      }
    } else {
      Fails(s, step);
    }
  }

  lemma PrepayIs(s: State, step: Step)
    requires step.CreatePrepay? && step.g in s.book.groups
    ensures LocalChange(s, step) == Payment.CreatePrepay(s.book.groups[step.g], step.i, step.user, step.now)
  {
    hide Payment.CreatePrepay;
  }

  // ----- compensation ------------------------------------------------------------------------

  /** An order after a compensation: a paid one is to be refunded in full, an unpaid one is closed. */
  predicate Returned(before: Order, after: Order, at: int) {
    && after.amountFen == before.amountFen && after.expiresAt == before.expiresAt
    && (before.status.PAID? ==> after.status.REFUND_PENDING? && after.refund == Some(Refund(99, REQUESTED, at)))
    && (!before.status.PAID? ==> after.status.CLOSED? && after.refund.None?)
  }

  /** Group and round refund: paid orders are returned, and whoever had not paid is no member any more. */
  predicate Compensates(before: Group, after: Group, i: nat, at: int) {
    && OnlyRound(before, after, i) && SameTerms(before.rounds[i], after.rounds[i])
    && after.state == GroupState.REFUNDING && after.rounds[i].state == RoundState.REFUNDING
    && after.rounds[i].orders.Keys == before.rounds[i].orders.Keys
    && (forall u :: u in before.rounds[i].orders ==>
          Returned(before.rounds[i].orders[u], after.rounds[i].orders[u], at))
    && SameRows(before.members, after.members)
    && forall d :: d in before.members ==>
         after.members[d].status ==
         if before.members[d].status.PAYMENT_PENDING? then PAYMENT_TIMEOUT else before.members[d].status
  }

  /** The demands of the members who still owe. */
  function Owing(group: Group): set<DemandId> {
    set d | d in group.members && group.members[d].status.PAYMENT_PENDING?
  }

  lemma Compensated(group: Group, i: nat, consents: map<UserId, Tables.Consent>, at: int)
    requires i < |group.rounds| && RoundInv(group.rounds[i]) && group.rounds[i].state.PAYING?
    ensures Compensates(group, Payment.Compensate(group, i, consents, at).group, i, at)
    ensures Payment.Compensate(group, i, consents, at).released == Owing(group)
    ensures Payment.Compensate(group, i, consents, at).group.rounds[i].consents == consents
  {
    hide Fits;
    var orders := group.rounds[i].orders;
    forall u | u in orders ensures Returned(orders[u], Payment.Compensated(orders[u], at), at) {
      assert OrderInv(orders[u]) && OrderFits(RoundState.PAYING, orders[u].status);
    }
  }

  /**
   * A payment deadline takes effect exactly when it has passed and group and round still collect: both refund, every
   * consent is withdrawn, and the demands of those who owed are open again.
   */
  lemma DeadlineOutcome(s: State, g: GroupId, i: nat, now: int, at: int)
    requires Inv(s)
    ensures var t := Next(s, PaymentTimeout(g, i, now, at));
            if Collects(s, g, i) && s.book.groups[g].rounds[i].payBy.value <= now
            then
              && OnlyGroup(s, t, g, Owing(s.book.groups[g]), OPEN)
              && Compensates(s.book.groups[g], t.book.groups[g], i, at)
              && t.book.groups[g].rounds[i].consents.Keys == s.book.groups[g].rounds[i].consents.Keys
              && forall u :: u in t.book.groups[g].rounds[i].consents ==>
                   t.book.groups[g].rounds[i].consents[u] ==
                   s.book.groups[g].rounds[i].consents[u].(revoked := true)
            else t == s
  {
    hide Inv, LocalChange, Next, GroupInv, RoundInv, Compensates, Owing, Payment.Compensate;
    var step := PaymentTimeout(g, i, now, at);
    if g in s.book.groups {
      var group := s.book.groups[g];
      TimeoutIs(s, step);
      if i < |group.rounds| {
        CollectsIs(s, g, i);
      }
      PaymentProofs.InvalidatePaymentSound(group, i, now, at) by { Safety.GroupIn(s, g); }
      var change := Payment.InvalidatePayment(group, i, now, at);
      Changes(s, step, change.value);
      if Collects(s, g, i) && group.rounds[i].payBy.value <= now {
        Compensated(group, i, RevokeAll(group.rounds[i].consents), at);
      } else {
        NoDemand(s, Next(s, step), g, OPEN);
      }
    } else {
      Fails(s, step);
    }
  }

  lemma TimeoutIs(s: State, step: Step)
    requires step.PaymentTimeout? && step.g in s.book.groups
    ensures LocalChange(s, step) == Payment.InvalidatePayment(s.book.groups[step.g], step.i, step.now, step.at)
  {
    hide Payment.InvalidatePayment;
  }

  // ----- the completing payment --------------------------------------------------------------

  /** The payer's order is open and in time, in a round that collects. */
  predicate MayPay(s: State, user: UserId, g: GroupId, i: nat, env: Env) {
    && Collects(s, g, i) && HoldsOrder(s, g, i, user)
    && (OrderOf(s, g, i, user).status.CREATED? || OrderOf(s, g, i, user).status.PAYING?)
    && env.now < OrderOf(s, g, i, user).expiresAt
  }

  /** Everybody else has paid. */
  predicate OthersPaid(round: Round, user: UserId) {
    forall u :: u in Users(round.snapshot) && u != user ==> u in round.orders && round.orders[u].status.PAID?
  }

  /** Every member may be reached, and nobody has withdrawn. */
  predicate MayDeliver(round: Round, env: Env) {
    && (forall u :: u in round.consents ==> !round.consents[u].revoked)
    && Users(round.snapshot) <= env.contacts && Users(round.snapshot) <= env.deliverable
  }

  /** The round after a payment of one of its orders, and before anything else. */
  predicate Paid(before: Group, after: Group, i: nat, user: UserId)
    requires i < |before.rounds| && user in before.rounds[i].orders
  {
    && OnlyRound(before, after, i) && SameRows(before.members, after.members) && after.state == before.state
    && after.rounds[i] == before.rounds[i].(orders := before.rounds[i].orders[
         user := before.rounds[i].orders[user].(status := OrderStatus.PAID, settled := true)])
    && forall d :: d in before.members ==>
         after.members[d].status == if before.members[d].user == user && before.members[d].status.PAYMENT_PENDING?
                                    then MemberStatus.PAID else before.members[d].status
  }

  /** Everything is delivered: contacts of every member to every other, all orders, all memberships. */
  ghost predicate Delivered(before: Group, after: Group, i: nat) {
    && OnlyRound(before, after, i) && SameRows(before.members, after.members)
    && after.state == CONTACTS_UNLOCKED && after.rounds[i].state == RoundState.DELIVERED
    && after.rounds[i].snapshot == before.rounds[i].snapshot && after.rounds[i].consents == before.rounds[i].consents
    && after.rounds[i].decisions == before.rounds[i].decisions
    && after.rounds[i].orders.Keys == Users(before.rounds[i].snapshot)
    && (forall u :: u in after.rounds[i].orders ==>
          after.rounds[i].orders[u].status == OrderStatus.DELIVERED && after.rounds[i].orders[u].settled &&
          after.rounds[i].orders[u].amountFen == 99)
    && (forall u, v :: (u, v) in after.rounds[i].unlocks <==>
          u in Users(before.rounds[i].snapshot) && v in Users(before.rounds[i].snapshot) && u != v)
    && (forall d :: d in before.rounds[i].snapshot ==>
          d in after.members && after.members[d].status == CONTACT_UNLOCKED)
  }

  lemma Settles(group: Group, i: nat, user: UserId)
    requires Payment.HasOrder(group, i, user)
    ensures Paid(group, Payment.Settle(group, i, user), i, user)
  {
  }

  /** Once everybody has paid, nobody owes, and the payers are the snapshot. */
  lemma AllPaid(group: Group, i: nat, user: UserId)
    requires PaymentProofs.Collecting(group, i) && Payment.HasOrder(group, i, user) && HasPaid(group.rounds[i], user)
    ensures OthersPaid(group.rounds[i], user) <==> Payment.Debtors(group.members) == map[]
    ensures OthersPaid(group.rounds[i], user) ==>
              && Payment.Payers(group.members) == group.rounds[i].snapshot
              && group.rounds[i].orders.Keys == Users(group.rounds[i].snapshot)
              && forall u :: u in group.rounds[i].orders ==> group.rounds[i].orders[u].status.PAID?
  {
    hide Fits;
    var round := group.rounds[i];
    assert RoundInv(round);
    if OthersPaid(round, user) {
      forall d | d in group.members ensures !group.members[d].status.PAYMENT_PENDING? {
        if Active(group.members[d].status) {
          assert Roster(group.members)[d].user in Users(round.snapshot);
        }
      }
      assert Payment.Payers(group.members) == Roster(group.members);
    } else {
      var u :| u in Users(round.snapshot) && u != user && !HasPaid(round, u);
      var d :| d in round.snapshot && round.snapshot[d].user == u;
      assert d in Roster(group.members) && d in Payment.Debtors(group.members);
    }
  }

  lemma DeliverableIs(group: Group, i: nat, env: Env)
    requires PaymentProofs.Collecting(group, i)
    requires Payment.Payers(group.members) == group.rounds[i].snapshot
    requires group.rounds[i].orders.Keys == Users(group.rounds[i].snapshot)
    requires forall u :: u in group.rounds[i].orders ==> group.rounds[i].orders[u].status.PAID?
    ensures Payment.Deliverable(group, i, env) <==> MayDeliver(group.rounds[i], env)
  {
    var round := group.rounds[i];
    assert RoundInv(round);
    FitsDistinct(round.snapshot);
    RosterSize(round.snapshot);
    assert |round.orders| == |round.orders.Keys| && |round.consents| == |round.consents.Keys|;
  }

  lemma DeliversAll(group: Group, i: nat)
    requires PaymentProofs.Collecting(group, i)
    requires Payment.Payers(group.members) == group.rounds[i].snapshot
    requires group.rounds[i].orders.Keys == Users(group.rounds[i].snapshot)
    requires forall u :: u in group.rounds[i].orders ==> group.rounds[i].orders[u].status.PAID?
    ensures Delivered(group, Payment.Deliver(group, i), i)
  {
    hide Fits, RoundInv, Payment.Payers, Restatus;
    var round := group.rounds[i];
    DeliversRows(group, i);
    assert RoundInv(round) by { hide RoundInv; }
    DeliversRound(round, Payment.Deliver(group, i).rounds[i], Payment.Payers(group.members));
  }

  lemma DeliversRows(group: Group, i: nat)
    requires i < |group.rounds| && Payment.Payers(group.members) == group.rounds[i].snapshot
    ensures var after := Restatus(group.members, MemberStatus.PAID, CONTACT_UNLOCKED);
            && SameRows(group.members, after)
            && forall d :: d in group.rounds[i].snapshot ==> d in after && after[d].status == CONTACT_UNLOCKED
  {
    forall d | d in group.rounds[i].snapshot ensures d in group.members && group.members[d].status.PAID? {
      assert d in Payment.Payers(group.members);
    }
  }

  lemma DeliversRound(round: Round, after: Round, payers: map<DemandId, Seat>)
    requires RoundInv(round) && round.state.PAYING? && payers == round.snapshot
    requires round.orders.Keys == Users(round.snapshot) && forall u :: u in round.orders ==>
               round.orders[u].status.PAID?
    requires after == round.(state := RoundState.DELIVERED,
                             orders := map u | u in round.orders ::
                               if round.orders[u].status.PAID?
                                 then round.orders[u].(status := OrderStatus.DELIVERED) else round.orders[u],
                             unlocks := round.unlocks + Pairs(Users(payers)))
    ensures forall u :: u in after.orders ==>
              after.orders[u].status == OrderStatus.DELIVERED && after.orders[u].settled &&
                after.orders[u].amountFen == 99
    ensures forall u, v :: (u, v) in after.unlocks <==>
              u in Users(round.snapshot) && v in Users(round.snapshot) && u != v
  {
    hide Fits, ConsentsInv, Users;
  }

  /** All paid, and yet not delivered: every order is to be refunded, and every member is still a payer. */
  predicate GivenBack(before: Group, after: Group, i: nat, at: int) {
    && OnlyRound(before, after, i) && SameRows(before.members, after.members)
    && SameTerms(before.rounds[i], after.rounds[i]) && after.rounds[i].consents == before.rounds[i].consents
    && after.state == GroupState.REFUNDING && after.rounds[i].state == RoundState.REFUNDING
    && after.rounds[i].orders.Keys == Users(before.rounds[i].snapshot)
    && (forall u :: u in after.rounds[i].orders ==>
          after.rounds[i].orders[u].status == OrderStatus.REFUND_PENDING && after.rounds[i].orders[u].settled &&
          after.rounds[i].orders[u].refund == Some(Refund(99, REQUESTED, at)))
    && (forall d :: d in before.rounds[i].snapshot ==>
          d in after.members && after.members[d].status == MemberStatus.PAID)
  }

  lemma GivesAllBack(group: Group, i: nat, at: int)
    requires PaymentProofs.Collecting(group, i)
    requires Payment.Payers(group.members) == group.rounds[i].snapshot && Payment.Debtors(group.members) == map[]
    requires group.rounds[i].orders.Keys == Users(group.rounds[i].snapshot)
    requires forall u :: u in group.rounds[i].orders ==> group.rounds[i].orders[u].status.PAID?
    ensures var change := Payment.Compensate(group, i, group.rounds[i].consents, at);
            GivenBack(group, change.group, i, at) && change.released == {}
  {
    hide RoundInv, Payment.Payers, Payment.CompensatedOrders, Restatus, PaysTogether;
    GivesOrdersBack(group.rounds[i], at);
    KeepsPayers(group.members, group.rounds[i].snapshot);
  }

  lemma GivesOrdersBack(round: Round, at: int)
    requires RoundInv(round) && forall u :: u in round.orders ==> round.orders[u].status.PAID?
    ensures var after := Payment.CompensatedOrders(round.orders, at);
            && after.Keys == round.orders.Keys
            && forall u :: u in after ==>
                 after[u].status == OrderStatus.REFUND_PENDING && after[u].settled &&
                 after[u].refund == Some(Refund(99, REQUESTED, at))
  {
    hide Fits, ConsentsInv;
    forall u | u in round.orders ensures OrderInv(round.orders[u]) {
    }
  }

  lemma KeepsPayers(members: map<DemandId, Member>, snapshot: map<DemandId, Seat>)
    requires Payment.Payers(members) == snapshot
    ensures var after := Restatus(members, PAYMENT_PENDING, PAYMENT_TIMEOUT);
            && SameRows(members, after)
            && forall d :: d in snapshot ==> d in after && after[d].status == MemberStatus.PAID
  {
    forall d | d in snapshot ensures d in members && members[d].status.PAID? {
      assert d in Payment.Payers(members);
    }
  }

  lemma PaidThen(first: Group, second: Group, third: Group, i: nat, user: UserId, at: int)
    requires i < |first.rounds| && user in first.rounds[i].orders && Paid(first, second, i, user)
    ensures Delivered(second, third, i) ==> Delivered(first, third, i)
    ensures GivenBack(second, third, i, at) ==> GivenBack(first, third, i, at)
  {
  }

  /**
   * A payment in the terms of its group: it charges, and if it is the last one it delivers or gives everything back.
   */
  lemma PaymentAchieves(group: Group, i: nat, user: UserId, env: Env)
    requires GroupInv(group) && Payment.BothPaying(group, i) && Payment.HasOrder(group, i, user)
    requires Payment.Payable(group.rounds[i].orders[user].status) && env.now < group.rounds[i].orders[user].expiresAt
    ensures var change := Payment.CompletePayment(group, i, user, true, env);
            && change.Ok? && change.value.released == {}
            && var after := change.value.group;
            && (!OthersPaid(group.rounds[i], user) ==> Paid(group, after, i, user))
            && (OthersPaid(group.rounds[i], user) && MayDeliver(group.rounds[i], env) ==> Delivered(group, after, i))
            && (OthersPaid(group.rounds[i], user) && !MayDeliver(group.rounds[i], env) ==>
                  GivenBack(group, after, i, env.at))
  {
    hide GroupInv, Delivered, GivenBack, Paid, OthersPaid, MayDeliver, Payment.Deliverable, Payment.Deliver,
      Payment.Compensate, PaymentProofs.Collecting, Payment.Debtors, Payment.Payers;
    var settled := Payment.Settle(group, i, user);
    Settles(group, i, user);
    PaymentProofs.CollectingOf(group, i);
    PaymentProofs.SettleCollects(group, i, user);
    AllPaid(settled, i, user);
    SameOthers(group, i, user, env);
    if OthersPaid(group.rounds[i], user) {
      DeliverableIs(settled, i, env);
      DeliversAll(settled, i);
      GivesAllBack(settled, i, env.at);
      PaidThen(group, settled, Payment.Deliver(settled, i), i, user, env.at);
      PaidThen(group, settled, Payment.Compensate(settled, i, settled.rounds[i].consents, env.at).group, i, user,
               env.at);
    }
  }

  lemma SameOthers(group: Group, i: nat, user: UserId, env: Env)
    requires Payment.HasOrder(group, i, user)
    ensures var settled := Payment.Settle(group, i, user);
            && HasPaid(settled.rounds[i], user)
            && (OthersPaid(settled.rounds[i], user) <==> OthersPaid(group.rounds[i], user))
            && (MayDeliver(settled.rounds[i], env) <==> MayDeliver(group.rounds[i], env))
  {
  }

  /**
   * A payment succeeds exactly with the matching intent, for an order that is paid already or for an open one in time.
   * It charges the order. If everybody else has paid, it delivers the round provided that nobody has withdrawn consent
   * and everybody may be reached, and otherwise everybody is given back what they paid.
   */
  lemma PaymentOutcome(s: State, user: UserId, g: GroupId, i: nat, intentMatches: bool, env: Env)
    requires Inv(s)
    ensures var step := CompletePayment(user, g, i, intentMatches, env);
            var t := Next(s, step);
            && (Exec(s, step).Ok? <==>
                && intentMatches && HoldsOrder(s, g, i, user)
                && (OrderOf(s, g, i, user).status.PAID? || OrderOf(s, g, i, user).status.DELIVERED? ||
                    MayPay(s, user, g, i, env)))
            && (!(intentMatches && MayPay(s, user, g, i, env)) ==> t == s)
            && (intentMatches && MayPay(s, user, g, i, env) ==>
                  var before := s.book.groups[g];
                  && OnlyGroup(s, t, g, {}, OPEN)
                  && (!OthersPaid(before.rounds[i], user) ==> Paid(before, t.book.groups[g], i, user))
                  && (OthersPaid(before.rounds[i], user) && MayDeliver(before.rounds[i], env) ==>
                        Delivered(before, t.book.groups[g], i))
                  && (OthersPaid(before.rounds[i], user) && !MayDeliver(before.rounds[i], env) ==>
                        GivenBack(before, t.book.groups[g], i, env.at)))
  {
    hide Inv, LocalChange, Next, Exec, GroupInv, RoundInv, Delivered, GivenBack, Paid, OthersPaid, MayDeliver,
      Payment.DeliverIfComplete, Payment.Settle;
    var step := CompletePayment(user, g, i, intentMatches, env);
    if g in s.book.groups {
      var group := s.book.groups[g];
      PayIs(s, step);
      Safety.GroupIn(s, g);
      var change := Payment.CompletePayment(group, i, user, intentMatches, env);
      if MayPay(s, user, g, i, env) && intentMatches {
        PaymentAchieves(group, i, user, env);
      }
      if change.Ok? {
        Changes(s, step, change.value);
        if !MayPay(s, user, g, i, env) {
          NoDemand(s, Next(s, step), g, OPEN);
        }
      } else {
        Fails(s, step);
      }
    } else {
      Fails(s, step);
    }
  }

  lemma PayIs(s: State, step: Step)
    requires step.CompletePayment? && step.g in s.book.groups
    ensures LocalChange(s, step) ==
            Payment.CompletePayment(s.book.groups[step.g], step.i, step.user, step.intentMatches, step.env)
  {
    hide Payment.CompletePayment;
  }

  // ----- revocation --------------------------------------------------------------------------

  /** A standing consent of this user in this round. */
  predicate Consents(s: State, g: GroupId, i: nat, user: UserId) {
    && g in s.book.groups && i < |s.book.groups[g].rounds|
    && user in s.book.groups[g].rounds[i].consents && !s.book.groups[g].rounds[i].consents[user].revoked
  }

  function Withdrawn(consents: map<UserId, Tables.Consent>, user: UserId): map<UserId, Tables.Consent>
    requires user in consents
  {
    consents[user := Tables.Consent(consents[user].policy, true)]
  }

  predicate IsMember(s: State, g: GroupId, user: UserId) {
    g in s.book.groups && exists d :: d in s.book.groups[g].members && s.book.groups[g].members[d].user == user
  }

  /**
   * A revocation is accepted exactly from whoever is or was a member. A standing consent is withdrawn then, whatever
   * the state of the round, and no other consent is. If group and round collect, both refund; otherwise nothing else
   * changes.
   */
  lemma RevocationOutcome(s: State, user: UserId, g: GroupId, i: nat, at: int)
    requires Inv(s)
    ensures var step := Step.RevokeConsent(user, g, i, at);
            var t := Next(s, step);
            && (Exec(s, step).Ok? <==> IsMember(s, g, user) && i < |s.book.groups[g].rounds|)
            && (!(IsMember(s, g, user) && Consents(s, g, i, user)) ==> t == s)
            && (IsMember(s, g, user) && Consents(s, g, i, user) ==>
                  var before, after := s.book.groups[g], t.book.groups[g];
                  && OnlyGroup(s, t, g, if Collects(s, g, i) then Owing(before) else {}, OPEN)
                  && OnlyRound(before, after, i)
                  && after.rounds[i].consents == Withdrawn(before.rounds[i].consents, user)
                  && (Collects(s, g, i) ==> Compensates(before, after, i, at))
                  && (!Collects(s, g, i) ==>
                        && after.members == before.members && after.state == before.state
                        && after.rounds[i] == before.rounds[i].(consents := after.rounds[i].consents)))
  {
    hide Inv, LocalChange, Next, Exec, GroupInv, RoundInv, Compensates, Owing, Payment.Compensate;
    var step := Step.RevokeConsent(user, g, i, at);
    if g in s.book.groups && i < |s.book.groups[g].rounds| {
      var group := s.book.groups[g];
      var round := group.rounds[i];
      RevokeIs(s, step);
      MembersAre(group, user);
      CollectsIs(s, g, i);
      var change := Payment.RevokeConsent(group, i, user, at);
      if change.Ok? {
        Changes(s, step, change.value);
        if Consents(s, g, i, user) {
          var revoked := Payment.SetRound(group, i, round.(consents := Withdrawn(round.consents, user)));
          if Collects(s, g, i) {
            RevokedStill(round, user);
            Compensated(revoked, i, revoked.rounds[i].consents, at);
            RevokedThen(group, i, user, Payment.Compensate(revoked, i, revoked.rounds[i].consents, at).group, at);
          }
        } else {
          NoDemand(s, Next(s, step), g, OPEN);
        }
      } else {
        Fails(s, step);
      }
    } else {
      RevokeNowhere(s, step);
    }
  }

  lemma RevokedStill(round: Round, user: UserId)
    requires RoundInv(round) && user in round.consents
    ensures RoundInv(round.(consents := Withdrawn(round.consents, user)))
  {
    PaymentProofs.RevokedRound(round, user);
  }

  lemma RevokedThen(group: Group, i: nat, user: UserId, after: Group, at: int)
    requires i < |group.rounds| && user in group.rounds[i].consents
    requires var round := group.rounds[i];
             Compensates(Payment.SetRound(group, i, round.(consents := Withdrawn(round.consents, user))), after, i, at)
    ensures Compensates(group, after, i, at)
    ensures Owing(Payment.SetRound(group, i,
                                   group.rounds[i].(consents := Withdrawn(group.rounds[i].consents, user)))) ==
            Owing(group)
  {
  }

  lemma RevokeIs(s: State, step: Step)
    requires step.RevokeConsent? && step.g in s.book.groups
    ensures LocalChange(s, step) == Payment.RevokeConsent(s.book.groups[step.g], step.i, step.user, step.at)
  {
    hide Payment.RevokeConsent;
  }

  lemma RevokeNowhere(s: State, step: Step)
    requires step.RevokeConsent? && (step.g in s.book.groups ==> step.i >= |s.book.groups[step.g].rounds|)
    ensures Exec(s, step).Err? && Next(s, step) == s
  {
    hide Payment.BeginCompensation;
  }

  lemma MembersAre(group: Group, user: UserId)
    ensures user in Payment.AllUsers(group.members) <==>
            exists d :: d in group.members && group.members[d].user == user
  {
  }
}
