/** How a compensated group recovers, whatever order its refunds are settled in. */
module Recovery {
  import opened Wrappers
  import opened Tables
  import opened Invariants
  import opened Runs
  import Formation
  import Payment
  import RefundProofs
  import BookProofs
  import Safety
  import Money

  function Last(group: Group): Round
    requires group.rounds != []
  {
    group.rounds[|group.rounds| - 1]
  }

  /** The measure of a recovery: the orders whose refund is still to be paid back. */
  function Pending(round: Round): set<UserId> {
    set u | u in round.orders && round.orders[u].status.REFUND_PENDING?
  }

  predicate Waits(group: Group) {
    group.rounds != [] && group.state.REFUNDING? && Pending(Last(group)) != {}
  }

  function PaidBack(order: Order): Order {
    if order.status.REFUND_PENDING? && order.refund.Some?
    then order.(status := OrderStatus.REFUNDED, refund := Some(order.refund.value.(status := RefundStatus.REFUNDED)))
    else order
  }

  function AllPaidBack(orders: map<UserId, Order>): map<UserId, Order> {
    map u | u in orders :: PaidBack(orders[u])
  }

  predicate Claimable(order: Order, now: Order) {
    && order.status.REFUND_PENDING?
    && order.refund.Some? && now.refund.Some?
    && now == order.(refund := Some(order.refund.value.(status := now.refund.value.status)))
    && (now.refund.value.status.REQUESTED? || now.refund.value.status.REFUND_PENDING?)
  }

  /** An order on its way through the refund worker: claimed or not, or paid back. */
  predicate OrderBetween(order: Order, now: Order) {
    now == PaidBack(order) || Claimable(order, now)
  }

  predicate SameButConsents(round: Round, now: Round) {
    now == round.(consents := now.consents)
  }

  predicate RoundBetween(round: Round, now: Round) {
    && now == round.(orders := now.orders, consents := now.consents)
    && now.orders.Keys == round.orders.Keys
    && forall u :: u in round.orders ==> OrderBetween(round.orders[u], now.orders[u])
  }

  predicate EarlierKept(before: Group, now: Group) {
    |now.rounds| == |before.rounds| && forall k :: 0 <= k < |before.rounds| - 1 ==>
      SameButConsents(before.rounds[k], now.rounds[k])
  }

  /** Some refunds got further; the group, its members and its round still wait for the rest. */
  predicate Settling(before: Group, now: Group) {
    && before.rounds != []
    && now == before.(rounds := now.rounds)
    && EarlierKept(before, now)
    && RoundBetween(Last(before), Last(now))
  }

  /** Every refund is paid back, the round is over, and exactly the payers are joined members again. */
  predicate Recovered(before: Group, now: Group) {
    && before.rounds != []
    && EarlierKept(before, now)
    && now == before.(rounds := now.rounds, state := Tally(|Payment.Payers(before.members)|),
                      members := Restatus(before.members, MemberStatus.PAID, JOINED))
    && Last(now) == Last(before).(state := INVALIDATED, orders := AllPaidBack(Last(before).orders),
                                  consents := Last(now).consents)
  }

  predicate Outcome(before: Group, now: Group) {
    if now.rounds != [] && Pending(Last(now)) != {} then Settling(before, now) else Recovered(before, now)
  }

  // ----- one group ---------------------------------------------------------------------------

  lemma OrderMoved(before: Group, now: Group, user: UserId, order: Order)
    requires Settling(before, now) && user in Last(now).orders && OrderBetween(Last(before).orders[user], order)
    ensures Settling(before, Payment.SetOrder(now, |now.rounds| - 1, user, order))
  {
    hide OrderBetween;
  }

  lemma StillClaimable(order: Order, now: Order, status: RefundStatus)
    requires OrderBetween(order, now) && now.status.REFUND_PENDING? && now.refund.Some?
    requires status.REQUESTED? || status.REFUND_PENDING?
    ensures OrderBetween(order, now.(refund := Some(now.refund.value.(status := status))))
    ensures OrderBetween(order, PaidBack(now))
  {
  }

  lemma ClaimSettles(before: Group, now: Group, i: nat, user: UserId)
    requires Settling(before, now) && GroupInv(now)
    ensures Settling(before, Payment.ClaimRefund(now, i, user).group)
    ensures Pending(Last(Payment.ClaimRefund(now, i, user).group)) == Pending(Last(now))
  {
    hide GroupInv, OrderBetween, Settling;
    RefundProofs.ClaimSound(now, i, user);
    assert now.rounds != [] && |now.rounds| == |before.rounds| &&
           before.rounds != [] by { SettlingRounds(before, now); }
    if Payment.RefundIs(now, i, user, REQUESTED) {
      RefundProofs.UnfinishedRefund(now, i, user);
      SettlingOrder(before, now, user);
      StillClaimable(Last(before).orders[user], Last(now).orders[user], RefundStatus.REFUND_PENDING);
      OrderMoved(before, now, user, Payment.ClaimRefund(now, i, user).group.rounds[i].orders[user]);
    }
  }

  lemma SettlingRounds(before: Group, now: Group)
    requires Settling(before, now)
    ensures |now.rounds| == |before.rounds| > 0
  {
  }

  lemma SettlingOrder(before: Group, now: Group, user: UserId)
    requires Settling(before, now) && user in Last(now).orders
    ensures user in Last(before).orders && OrderBetween(Last(before).orders[user], Last(now).orders[user])
  {
    hide OrderBetween;
  }

  lemma RestoreSettles(before: Group, now: Group, i: nat, user: UserId)
    requires Settling(before, now) && GroupInv(now)
    ensures Settling(before, Payment.RestoreRefund(now, i, user))
    ensures Pending(Last(Payment.RestoreRefund(now, i, user))) == Pending(Last(now))
  {
    hide GroupInv, OrderBetween, Settling;
    assert |now.rounds| == |before.rounds| > 0 by { SettlingRounds(before, now); }
    if Payment.RefundIs(now, i, user, RefundStatus.REFUND_PENDING) {
      RefundProofs.UnfinishedRefund(now, i, user);
      SettlingOrder(before, now, user);
      StillClaimable(Last(before).orders[user], Last(now).orders[user], REQUESTED);
      OrderMoved(before, now, user, Payment.RestoreRefund(now, i, user).rounds[i].orders[user]);
    }
  }

  lemma CloseSettles(before: Group, now: Group, i: nat, user: UserId)
    requires Settling(before, now) && GroupInv(now) && Payment.RefundIs(now, i, user, RefundStatus.REFUND_PENDING)
    ensures Settling(before, Payment.CloseRefund(now, i, user)) && i == |now.rounds| - 1
    ensures Pending(Last(Payment.CloseRefund(now, i, user))) == Pending(Last(now)) - {user}
    ensures user in Pending(Last(now))
  {
    hide GroupInv, OrderBetween, Settling;
    assert |now.rounds| == |before.rounds| > 0 by { SettlingRounds(before, now); }
    RefundProofs.UnfinishedRefund(now, i, user);
    SettlingOrder(before, now, user);
    var order := Last(now).orders[user];
    StillClaimable(Last(before).orders[user], order, REQUESTED);
    OrderMoved(before, now, user, PaidBack(order));
    RefundProofs.SetTwice(now, i, user, order.(refund := PaidBack(order).refund), PaidBack(order));
  }

  /** Once nothing is pending any more, every order has been paid back, in whatever order that happened. */
  lemma AllBack(before: Group, now: Group)
    requires Settling(before, now) && Pending(Last(now)) == {}
    ensures Last(now).orders == AllPaidBack(Last(before).orders)
  {
    forall u | u in Last(before).orders ensures Last(now).orders[u] == PaidBack(Last(before).orders[u]) {
      assert u !in Pending(Last(now));
    }
  }

  lemma RecoverSettles(before: Group, now: Group, user: UserId)
    requires Settling(before, now) && GroupInv(now) && now.state.REFUNDING?
    ensures Payment.RecoverRound(now, |now.rounds| - 1).Ok?
    ensures Outcome(before, Payment.RecoverRound(now, |now.rounds| - 1).value)
    ensures Pending(Last(Payment.RecoverRound(now, |now.rounds| - 1).value)) == Pending(Last(now))
  {
    hide GroupInv, OrderBetween, Payment.RecoverRound;
    var i := |now.rounds| - 1;
    assert now.rounds[i].state.REFUNDING? by { RefundingRound(now); }
    RefundProofs.RecoverSound(now, i, user);
    assert Payment.SomeOrder(now.rounds[i], OrderStatus.REFUND_PENDING) <==> Pending(Last(now)) != {} by {
      PendingIsSome(now.rounds[i]);
    }
    if Pending(Last(now)) == {} {
      AllBack(before, now);
    }
  }

  lemma RefundingRound(group: Group)
    requires GroupInv(group) && group.state.REFUNDING?
    ensures group.rounds != [] && Last(group).state.REFUNDING?
  {
    hide Fits, RoundInv;
  }

  lemma PendingIsSome(round: Round)
    ensures Payment.SomeOrder(round, OrderStatus.REFUND_PENDING) <==> Pending(round) != {}
  {
    if u :| u in round.orders && round.orders[u].status.REFUND_PENDING? {
      assert u in Pending(round);
    }
    if u :| u in Pending(round) {
      assert round.orders[u].status.REFUND_PENDING?;
    }
  }

  /** One finished refund: the last one recovers the group, any other leaves it waiting. */
  lemma FinishSettles(before: Group, now: Group, i: nat, user: UserId)
    requires Settling(before, now) && GroupInv(now) && Waits(now)
    ensures Payment.FinishRefund(now, i, user).Ok?
    ensures Outcome(before, Payment.FinishRefund(now, i, user).value)
    ensures Payment.FinishRefund(now, i, user).value.rounds != []
    ensures Payment.RefundIs(now, i, user, RefundStatus.REFUND_PENDING) ==>
              i == |now.rounds| - 1 && user in Pending(Last(now)) &&
              Pending(Last(Payment.FinishRefund(now, i, user).value)) == Pending(Last(now)) - {user}
  {
    hide GroupInv, Settling, Recovered, Payment.RecoverRound, Payment.CloseRefund;
    if Payment.RefundIs(now, i, user, RefundStatus.REFUND_PENDING) {
      var closed := Payment.CloseRefund(now, i, user);
      CloseSettles(before, now, i, user);
      RefundProofs.CloseSound(now, i, user);
      RefundProofs.StepInv(now, closed, i, user);
      ClosedState(now, i, user);
      RecoverSettles(before, closed, user);
      SettlingRounds(before, closed);
      OutcomeRounds(before, Payment.RecoverRound(closed, i).value);
    }
  }

  lemma ClosedState(now: Group, i: nat, user: UserId)
    requires Payment.RefundIs(now, i, user, RefundStatus.REFUND_PENDING)
    ensures Payment.CloseRefund(now, i, user).state == now.state
  {
  }

  lemma OutcomeRounds(before: Group, now: Group)
    requires Outcome(before, now)
    ensures now.rounds != []
  {
  }

  // ----- any step ----------------------------------------------------------------------------

  /** A join that moves an ended membership out of this group. */
  ghost predicate LeftByJoin(s: State, step: Step, g: GroupId) {
    step.JoinGroup? && Exec(s, step).Ok? && LeavesLockedGroup(s, step) && Formation.HomeOf(s.book, step.d) == g
  }

  lemma RevokeSettles(before: Group, now: Group, i: nat, user: UserId, at: int)
    requires Settling(before, now) && now.state.REFUNDING? && Payment.RevokeConsent(now, i, user, at).Ok?
    ensures Settling(before, Payment.RevokeConsent(now, i, user, at).value.group)
    ensures Pending(Last(Payment.RevokeConsent(now, i, user, at).value.group)) == Pending(Last(now))
  {
    hide OrderBetween;
  }

  /** Of the one-group transactions only a revocation touches a waiting group, and it changes nothing but consents. */
  lemma LocalSettles(before: Group, s: State, step: Step)
    requires IsLocal(step) && step.g in s.book.groups && LocalChange(s, step).Ok?
    requires Settling(before, s.book.groups[step.g]) && Waits(s.book.groups[step.g])
    ensures var after := LocalChange(s, step).value.group;
            Settling(before, after) && Pending(Last(after)) == Pending(Last(s.book.groups[step.g]))
  {
    hide Settling, Pending, Fits, Payment.RevokeConsent;
    if step.RevokeConsent? {
      RevokeSettles(before, s.book.groups[step.g], step.i, step.user, step.at);
    } else {
      assert LocalChange(s, step).value.group == s.book.groups[step.g];
    }
  }

  ghost predicate GroupKept(before: Book, after: Book, g: GroupId) {
    g in before.groups && g in after.groups && after.groups[g] == before.groups[g]
  }

  /** Creations, cancellations and joins elsewhere leave a waiting group as it is. */
  lemma OthersSettle(s: State, step: Step, g: GroupId)
    requires step.CreateDemand? || step.CancelDemand? || step.JoinGroup?
    requires BookInv(s.book) && g in s.book.groups && s.book.groups[g].state.REFUNDING?
    requires !LeftByJoin(s, step, g)
    ensures GroupKept(s.book, Next(s, step).book, g)
  {
    hide BookInv, Fits, Formation.JoinGroup, Formation.Recompute, Formation.Overlapping, LeftByJoin;
    if step.JoinGroup? && Exec(s, step).Ok? {
      JoinElsewhere(s, step, g);
    }
  }

  lemma JoinElsewhere(s: State, step: Step, g: GroupId)
    requires step.JoinGroup? && Exec(s, step).Ok?
    requires BookInv(s.book) && g in s.book.groups && s.book.groups[g].state.REFUNDING?
    requires !LeftByJoin(s, step, g)
    ensures GroupKept(s.book, Exec(s, step).value.book, g)
  {
    hide BookInv, GroupInv, Coupled, Live, Formation.JoinGroup;
    if Formation.AlreadyIn(s.book, step.g, step.d) {
      BookProofs.RejoinSame(s, step.user, step.g, step.d, step.env);
    } else {
      BookProofs.JoinOutcome(s, step.user, step.g, step.d, step.env);
    }
  }

  lemma KeptSettles(before: Group, s: State, next: State, g: GroupId)
    requires g in s.book.groups && GroupKept(s.book, next.book, g)
    requires Settling(before, s.book.groups[g]) && Waits(s.book.groups[g])
    ensures g in next.book.groups && Outcome(before, next.book.groups[g])
  {
    hide Settling;
  }

  lemma WorkerSettles(before: Group, s: State, step: Step, g: GroupId)
    requires BookInv(s.book) && g in s.book.groups
    requires Settling(before, s.book.groups[g]) && Waits(s.book.groups[g])
    requires !IsLocal(step) && !step.CreateDemand? && !step.CancelDemand? && !step.JoinGroup? && !step.ReadContacts?
    ensures g in Next(s, step).book.groups && Outcome(before, Next(s, step).book.groups[g])
  {
    hide GroupInv, DemandInv, NoClash, Settling, Recovered, Pending, Payment.ClaimRefund, Payment.RestoreRefund,
      Payment.FinishRefund;
    var now := s.book.groups[g];
    assert GroupInv(now);
    SettlingRounds(before, now);
    if step.ClaimRefund? {
      ClaimSettles(before, now, step.key.round, step.key.user);
      SettlingRounds(before, Payment.ClaimRefund(now, step.key.round, step.key.user).group);
    } else if (step.FinishRefund? || step.RestoreRefund?) && step.worker in s.jobs {
      var key := s.jobs[step.worker].key;
      RestoreSettles(before, now, key.round, key.user);
      SettlingRounds(before, Payment.RestoreRefund(now, key.round, key.user));
      FinishSettles(before, now, key.round, key.user);
    }
  }

  /** Whatever step is taken, a waiting group goes on waiting or is recovered in the one possible way. */
  lemma StepSettles(before: Group, s: State, step: Step, g: GroupId)
    requires Inv(s) && g in s.book.groups
    requires Settling(before, s.book.groups[g]) && Waits(s.book.groups[g])
    requires !LeftByJoin(s, step, g)
    ensures g in Next(s, step).book.groups && Outcome(before, Next(s, step).book.groups[g])
  {
    hide BookInv, GatewayInv, RefundedInv, JobsInv, Settling, Recovered, Pending, LocalChange, LeftByJoin, WorkerStep,
      Formation.CreateDemand, Formation.CancelDemand, Formation.JoinGroup, Formation.Commit;
    if step.CreateDemand? || step.CancelDemand? || step.JoinGroup? {
      OthersSettle(s, step, g);
      KeptSettles(before, s, Next(s, step), g);
    } else if step.ReadContacts? {
      KeptSettles(before, s, Next(s, step), g);
    } else if IsLocal(step) {
      LocalStepSettles(before, s, step, g);
    } else {
      WorkerSettles(before, s, step, g);
    }
  }

  lemma LocalStepSettles(before: Group, s: State, step: Step, g: GroupId)
    requires IsLocal(step) && g in s.book.groups
    requires Settling(before, s.book.groups[g]) && Waits(s.book.groups[g])
    ensures g in Next(s, step).book.groups && Outcome(before, Next(s, step).book.groups[g])
  {
    hide Settling, Recovered, Pending, LocalChange, WorkerStep, Formation.SetDemands;
    if step.g == g && LocalChange(s, step).Ok? {
      LocalSettles(before, s, step);
      SettlingRounds(before, LocalChange(s, step).value.group);
    } else {
      KeptSettles(before, s, Next(s, step), g);
    }
  }

  /** Refunds of the group are pending in every state before the last, and no join leaves the group. */
  ghost predicate WaitsThroughout(s: State, steps: seq<Step>, g: GroupId) {
    forall k :: 0 <= k < |steps| ==>
      && g in Run(s, steps[..k]).book.groups && Waits(Run(s, steps[..k]).book.groups[g])
      && !LeftByJoin(Run(s, steps[..k]), steps[k], g)
  }

  /**
   * Recovery is exact and independent of order: interleave any workers, failures, crashes and other
   * users' steps, and while a refund is pending the group and its members stay as they were; with the
   * last one the round is over and the group is the same in every run, up to revoked consents.
   */
  lemma {:induction false} RecoveryConfluent(s: State, steps: seq<Step>, g: GroupId)
    requires Inv(s) && g in s.book.groups && Waits(s.book.groups[g])
    requires WaitsThroughout(s, steps, g)
    ensures var later := Run(s, steps).book.groups;
            g in later && Outcome(s.book.groups[g], later[g])
  {
    hide Inv, Settling, Recovered, Pending, Waits, LeftByJoin;
    if steps == [] {
      Safety.GroupIn(s, g);
      SettlingSelf(s.book.groups[g]);
    } else {
      var n := |steps| - 1;
      assert WaitsThroughout(s, steps[..n], g) by {
        assert forall k :: 0 <= k < n ==> steps[..n][..k] == steps[..k];
      }
      RecoveryConfluent(s, steps[..n], g);
      Safety.InvThrough(s, steps[..n]);
      WaitsSettling(s.book.groups[g], Run(s, steps[..n]).book.groups[g]);
      StepSettles(s.book.groups[g], Run(s, steps[..n]), steps[n], g);
    }
  }

  lemma SettlingSelf(group: Group)
    requires GroupInv(group) && Waits(group)
    ensures Outcome(group, group)
  {
    hide GroupInv;
    forall u | u in Last(group).orders ensures OrderInv(Last(group).orders[u]) {
      RefundProofs.OrderOf(group, |group.rounds| - 1, u);
    }
    assert forall u :: u in Last(group).orders ==> OrderBetween(Last(group).orders[u], Last(group).orders[u]);
  }

  lemma WaitsSettling(before: Group, now: Group)
    requires Outcome(before, now) && Waits(now)
    ensures Settling(before, now)
  {
  }

  /** Two runs that settle the same refunds in different orders end in the same group, up to revoked consents. */
  lemma OrderIrrelevant(s: State, one: seq<Step>, other: seq<Step>, g: GroupId)
    requires Inv(s) && g in s.book.groups && Waits(s.book.groups[g])
    requires WaitsThroughout(s, one, g) && WaitsThroughout(s, other, g)
    requires g in Run(s, one).book.groups ==> !Waits(Run(s, one).book.groups[g])
    requires g in Run(s, other).book.groups ==> !Waits(Run(s, other).book.groups[g])
    ensures g in Run(s, one).book.groups && g in Run(s, other).book.groups
    ensures var first := Run(s, one).book.groups[g];
            var second := Run(s, other).book.groups[g];
            && second == first.(rounds := second.rounds)
            && |second.rounds| == |first.rounds|
            && forall k :: 0 <= k < |first.rounds| ==> SameButConsents(first.rounds[k], second.rounds[k])
  {
    hide Run, Inv, WaitsThroughout;
    RecoveryConfluent(s, one, g);
    RecoveryConfluent(s, other, g);
    var before := s.book.groups[g];
    assert Recovered(before, Run(s, one).book.groups[g]) && Recovered(before, Run(s, other).book.groups[g]);
    SameRecovery(before, Run(s, one).book.groups[g], Run(s, other).book.groups[g]);
  }

  lemma SameRecovery(before: Group, first: Group, second: Group)
    requires Recovered(before, first) && Recovered(before, second)
    ensures second == first.(rounds := second.rounds) && |second.rounds| == |first.rounds|
    ensures forall k :: 0 <= k < |first.rounds| ==> SameButConsents(first.rounds[k], second.rounds[k])
  {
  }

  /** The recovered group holds exactly the members whose orders were refunded, tallied as the domain tallies them. */
  lemma RecoveredMembers(before: Group, now: Group)
    requires GroupInv(before) && Waits(before) && Recovered(before, now)
    ensures Roster(now.members) == Roster(before.members) == Payment.Payers(before.members)
    ensures forall d :: d in Roster(now.members) ==> now.members[d].status.JOINED?
    ensures now.state == Tally(|Roster(now.members)|) && Recruitable(now.state)
    ensures forall d :: d in Last(before).snapshot ==>
              (d in Roster(now.members) <==>
               Last(before).snapshot[d].user in Last(now).orders &&
                 Last(now).orders[Last(before).snapshot[d].user].status.REFUNDED?)
  {
    hide Fits, GroupInv, Pending;
    RefundProofs.RefundingRoster(before);
    WaitsPayer(before);
    RefundedPayers(before);
    RefundsComplete(before);
  }

  lemma WaitsPayer(group: Group)
    requires GroupInv(group) && Waits(group)
    ensures |Payment.Payers(group.members)| >= 1
  {
    hide GroupInv;
    var u :| u in Pending(Last(group));
    RefundProofs.OrderOf(group, |group.rounds| - 1, u);
    PendingRefund(group, u);
    Money.PayerFound(group, |group.rounds| - 1, u);
  }

  lemma PendingRefund(group: Group, u: UserId)
    requires GroupInv(group) && Waits(group) && u in Pending(Last(group))
    ensures Last(group).orders[u].refund.Some?
    ensures Payment.RefundIs(group, |group.rounds| - 1, u, REQUESTED) ||
            Payment.RefundIs(group, |group.rounds| - 1, u, RefundStatus.REFUND_PENDING)
  {
    hide GroupInv;
    RefundProofs.OrderOf(group, |group.rounds| - 1, u);
  }

  lemma RefundedPayers(group: Group)
    requires GroupInv(group) && group.state.REFUNDING?
    ensures group.rounds != []
    ensures forall d :: d in Last(group).snapshot ==>
              (d in Roster(group.members) <==> HasRefundable(Last(group), Last(group).snapshot[d].user))
  {
    hide Fits, RoundInv;
  }

  /** Paying back everything that is pending leaves refunded exactly what was refundable. */
  lemma RefundsComplete(group: Group)
    requires GroupInv(group) && group.rounds != []
    ensures forall u :: HasRefundable(Last(group), u) <==>
                        u in AllPaidBack(Last(group).orders) && AllPaidBack(Last(group).orders)[u].status.REFUNDED?
  {
    hide GroupInv;
    forall u | u in Last(group).orders ensures OrderInv(Last(group).orders[u]) {
      RefundProofs.OrderOf(group, |group.rounds| - 1, u);
    }
  }
}
