/** One settlement that nothing interrupts: its three transactions as steps, and what they do to the refunds. */
module RefundSettlement {
  import opened Wrappers
  import opened Tables
  import opened Runs
  import opened Invariants
  import opened PaymentDeadlines
  import Liveness
  import Payment
  import PaymentsServices
  import Progress
  import RefundProofs
  import Safety

  /** The steps of one settlement by a worker that nothing interrupts; a finish that is refused ends the worker. */
  ghost function Settlement(s: State, key: OrderKey, now: int, succeeds: bool): State {
    var claimed := Next(s, Step.ClaimRefund(0, key, now));
    var called := Next(claimed, Step.CallGateway(0, succeeds));
    Next(Next(called, if succeeds then Step.FinishRefund(0) else Step.RestoreRefund(0)), Crash(0))
  }

  lemma SettlementInv(s: State, key: OrderKey, now: int, succeeds: bool)
    requires Inv(s)
    ensures Inv(Settlement(s, key, now, succeeds))
    ensures Progress.BookForward(s.book, Settlement(s, key, now, succeeds).book)
  {
    hide Inv, Next, Progress.BookForward;
    var claim, call := Step.ClaimRefund(0, key, now), Step.CallGateway(0, succeeds);
    var last := if succeeds then Step.FinishRefund(0) else Step.RestoreRefund(0);
    var claimed := Next(s, claim);
    var called := Next(claimed, call);
    var done := Next(called, last);
    Safety.StepInv(s, claim);
    Safety.StepInv(claimed, call);
    Safety.StepInv(called, last);
    Safety.StepInv(done, Crash(0));
    Progress.StepForward(s, claim);
    Progress.StepForward(claimed, call);
    Progress.StepForward(called, last);
    Progress.StepForward(done, Crash(0));
    Progress.BookForwardTwice(s.book, claimed.book, called.book);
    Progress.BookForwardTwice(s.book, called.book, done.book);
    Progress.BookForwardTwice(s.book, done.book, Next(done, Crash(0)).book);
  }

  lemma NothingToSettle(s: State, key: OrderKey, now: int, succeeds: bool)
    requires Inv(s) && s.jobs == map[]
    requires key.group in s.book.groups ==> !Payment.ClaimRefund(s.book.groups[key.group], key.round, key.user).claimed
    ensures !RefundAt(s.book, key, REQUESTED) && Settlement(s, key, now, succeeds) == s
    ensures key.group in s.book.groups ==>
              Payment.ClaimRefund(s.book.groups[key.group], key.round, key.user).group == s.book.groups[key.group]
  {
    hide GatewayInv, RefundedInv, JobsInv, GroupInv, DemandInv, NoClash, Next, Payment.ClaimRefund,
      RefundProofs.RefundStep;
    if key.group in s.book.groups {
      RefundProofs.ClaimSound(s.book.groups[key.group], key.round, key.user);
      PaymentsServices.Untouched(s.book, key.group);
    }
    IdleClaim(s, key, now);
    IdleNext(s, succeeds);
  }

  lemma IdleClaim(s: State, key: OrderKey, now: int)
    requires key.group in s.book.groups ==>
               Payment.ClaimRefund(s.book.groups[key.group], key.round, key.user) ==
               Payment.Claim(s.book.groups[key.group], false)
    ensures Next(s, Step.ClaimRefund(0, key, now)) == s
  {
    hide Payment.ClaimRefund;
    if key.group in s.book.groups {
      PaymentsServices.Untouched(s.book, key.group);
    }
  }

  lemma IdleNext(s: State, succeeds: bool)
    requires s.jobs == map[]
    ensures Next(s, Step.CallGateway(0, succeeds)) == s && Next(s, Crash(0)) == s
    ensures Next(s, Step.FinishRefund(0)) == s && Next(s, Step.RestoreRefund(0)) == s
  {
    hide Payment.ClaimRefund, Payment.FinishRefund, Payment.RestoreRefund, LocalChange;
    assert s.jobs - {0} == map[];
  }

  function Once(keys: set<OrderKey>): map<OrderKey, nat> {
    map key | key in keys :: 1
  }

  lemma OnceMore(gateway: map<OrderKey, nat>, key: OrderKey)
    ensures gateway[key := 1] == gateway + Once({key})
  {
  }

  /** The three transactions one after the other, as writes to the order's group. */
  lemma SettledByOne(s: State, key: OrderKey, now: int, succeeds: bool)
    requires Inv(s) && s.jobs == map[] && key.group in s.book.groups
    requires Payment.ClaimRefund(s.book.groups[key.group], key.round, key.user).claimed
    ensures var pending := Payment.ClaimRefund(s.book.groups[key.group], key.round, key.user).group;
            var restored := Payment.RestoreRefund(pending, key.round, key.user);
            var finished := Payment.FinishRefund(pending, key.round, key.user);
            var after := Settlement(s, key, now, succeeds);
            && RefundAt(s.book, key, REQUESTED) && Settlements(s, key) == 0
            && Payment.RefundIs(pending, key.round, key.user, RefundStatus.REFUND_PENDING)
            && (Payment.TooEarly(pending, key.round, key.user, now) <==> now < RequestedAt(s.book, key))
            && restored == s.book.groups[key.group] && finished.Ok?
            && (!succeeds ==> after == s)
            && (succeeds && RequestedAt(s.book, key) <= now ==>
                  && after == WithGroup(s, key.group, finished.value).(gateway := s.gateway + Once({key}))
                  && RefundAt(after.book, key, RefundStatus.REFUNDED))
            && (succeeds && now < RequestedAt(s.book, key) ==>
                  && after == WithGroup(s, key.group, pending).(gateway := s.gateway + Once({key}))
                  && RefundAt(after.book, key, RefundStatus.REFUND_PENDING))
  {
    hide Inv, GroupInv, Once, Settlement, Payment.ClaimRefund, Payment.FinishRefund, Payment.RestoreRefund,
      Payment.TooEarly, RefundProofs.RefundStep;
    var group := s.book.groups[key.group];
    RequestedRow(s, key);
    RefundProofs.ClaimSound(group, key.round, key.user);
    var pending := Payment.ClaimRefund(group, key.round, key.user).group;
    RefundProofs.StepInv(group, pending, key.round, key.user);
    ClaimedThenRestored(group, key.round, key.user);
    EarlyIs(s, key, now);
    RefundProofs.FinishedRow(pending, key.round, key.user);
    SettledSteps(s, key, now, succeeds);
    PaymentsServices.Untouched(s.book, key.group);
  }

  /** The three steps as one write to the order's group and, if the gateway call succeeded, one to its ledger. */
  lemma SettledSteps(s: State, key: OrderKey, now: int, succeeds: bool)
    requires s.jobs == map[] && key.group in s.book.groups && Settlements(s, key) == 0
    requires Payment.ClaimRefund(s.book.groups[key.group], key.round, key.user).claimed
    requires var pending := Payment.ClaimRefund(s.book.groups[key.group], key.round, key.user).group;
             Payment.FinishRefund(pending, key.round, key.user).Ok?
    ensures var pending := Payment.ClaimRefund(s.book.groups[key.group], key.round, key.user).group;
            Settlement(s, key, now, succeeds) ==
            if !succeeds then WithGroup(s, key.group, Payment.RestoreRefund(pending, key.round, key.user))
            else if Payment.TooEarly(pending, key.round, key.user, now)
              then WithGroup(s, key.group, pending).(gateway := s.gateway + Once({key}))
            else
              WithGroup(s, key.group, Payment.FinishRefund(pending, key.round, key.user).value)
                .(gateway := s.gateway + Once({key}))
  {
    hide Next, Once, Payment.ClaimRefund, Payment.FinishRefund, Payment.RestoreRefund, Payment.TooEarly;
    var g := key.group;
    var pending := Payment.ClaimRefund(s.book.groups[g], key.round, key.user).group;
    ClaimNext(s, key, now);
    var called := CallNext(WithGroup(s, g, pending).(jobs := map[0 := Job(key, CLAIMED, now)]), key, now, succeeds);
    LastNext(called, key, now, pending);
    OnceMore(s.gateway, key);
    PaymentsServices.Overwritten(s.book.groups, g, pending, Payment.RestoreRefund(pending, key.round, key.user));
    PaymentsServices.Overwritten(s.book.groups, g, pending, Payment.FinishRefund(pending, key.round, key.user).value);
  }

  lemma EarlyIs(s: State, key: OrderKey, now: int)
    requires RefundAt(s.book, key, REQUESTED)
    ensures var pending :=
            Payment.SetRefund(s.book.groups[key.group], key.round, key.user, RefundStatus.REFUND_PENDING);
            Payment.TooEarly(pending, key.round, key.user, now) <==> now < RequestedAt(s.book, key)
  {
  }

  lemma ClaimNext(s: State, key: OrderKey, now: int)
    requires s.jobs == map[] && key.group in s.book.groups
    requires Payment.ClaimRefund(s.book.groups[key.group], key.round, key.user).claimed
    ensures Next(s, Step.ClaimRefund(0, key, now)) ==
            WithGroup(s, key.group, Payment.ClaimRefund(s.book.groups[key.group], key.round, key.user).group)
              .(jobs := map[0 := Job(key, CLAIMED, now)])
  {
    hide Payment.ClaimRefund;
  }

  lemma CallNext(s: State, key: OrderKey, now: int, succeeds: bool) returns (called: State)
    requires s.jobs == map[0 := Job(key, CLAIMED, now)]
    ensures called == Next(s, Step.CallGateway(0, succeeds))
    ensures called == s.(jobs := map[0 := Job(key, if succeeds then RETURNED else THREW, now)],
                         gateway := if succeeds then s.gateway[key := Settlements(s, key) + 1] else s.gateway)
  {
    called := Next(s, Step.CallGateway(0, succeeds));
  }

  lemma LastNext(s: State, key: OrderKey, now: int, group: Group)
    requires key.group in s.book.groups && s.book.groups[key.group] == group
    requires s.jobs == map[0 := Job(key, RETURNED, now)] || s.jobs == map[0 := Job(key, THREW, now)]
    requires Payment.FinishRefund(group, key.round, key.user).Ok?
    ensures s.jobs[0].phase.RETURNED? ==>
              Next(Next(s, Step.FinishRefund(0)), Crash(0)) ==
              (if Payment.TooEarly(group, key.round, key.user, now) then s
               else WithGroup(s, key.group, Payment.FinishRefund(group, key.round, key.user).value)).(jobs := map[])
    ensures s.jobs[0].phase.THREW? ==>
              Next(Next(s, Step.RestoreRefund(0)), Crash(0)) ==
              WithGroup(s, key.group, Payment.RestoreRefund(group, key.round, key.user)).(jobs := map[])
  {
    hide Payment.FinishRefund, Payment.RestoreRefund, Payment.TooEarly;
    assert s.jobs - {0} == map[];
    var none: map<WorkerId, Job> := map[];
    assert none - {0} == none;
  }

  lemma RequestedRow(s: State, key: OrderKey)
    requires Inv(s) && key.group in s.book.groups
    requires Payment.ClaimRefund(s.book.groups[key.group], key.round, key.user).claimed
    ensures GroupInv(s.book.groups[key.group])
    ensures RefundAt(s.book, key, REQUESTED) && Settlements(s, key) == 0
  {
    hide GroupInv, DemandInv, NoClash, JobsInv, Payment.ClaimRefund, RefundProofs.RefundStep;
    RefundProofs.ClaimSound(s.book.groups[key.group], key.round, key.user);
  }

  lemma ClaimedThenRestored(group: Group, i: nat, user: UserId)
    requires Payment.RefundIs(group, i, user, REQUESTED)
    ensures var pending := Payment.SetRefund(group, i, user, RefundStatus.REFUND_PENDING);
            && Payment.RefundIs(pending, i, user, RefundStatus.REFUND_PENDING)
            && Payment.RestoreRefund(pending, i, user) == group
  {
    var order := group.rounds[i].orders[user];
    var pending := order.(refund := Some(order.refund.value.(status := RefundStatus.REFUND_PENDING)));
    RefundProofs.SetTwice(group, i, user, pending, order);
    assert group.rounds[i].orders[user := order] == group.rounds[i].orders;
    assert group.rounds[i := group.rounds[i]] == group.rounds;
  }

  lemma ClaimsRequested(s: State, key: OrderKey)
    requires Inv(s) && RefundAt(s.book, key, REQUESTED)
    ensures key.group in s.book.groups && GroupInv(s.book.groups[key.group])
    ensures Payment.ClaimRefund(s.book.groups[key.group], key.round, key.user).claimed
  {
    hide GroupInv, DemandInv, NoClash, JobsInv, Payment.ClaimRefund, RefundProofs.RefundStep;
    RefundProofs.ClaimSound(s.book.groups[key.group], key.round, key.user);
  }

  /** A settlement moves one refund row and leaves the others, and no round starts or stops paying. */
  lemma SettledRow(s: State, key: OrderKey, now: int)
    requires Inv(s) && s.jobs == map[] && RefundAt(s.book, key, REQUESTED)
    ensures var after := Settlement(s, key, now, true);
            && Safety.OnlyRefund(s.book, after.book, key,
                                 if now < RequestedAt(s.book, key)
                                   then RefundStatus.REFUND_PENDING else RefundStatus.REFUNDED)
            && (forall other :: RefundRow(after.book, other) ==> RefundRow(s.book, other))
            && PayingRounds(after.book) == PayingRounds(s.book) && after.gateway == s.gateway + Once({key})
  {
    hide Inv, GroupInv, Settlement, Once, RefundAt, PayingRounds, Safety.OnlyRefund, Payment.ClaimRefund,
      Payment.FinishRefund, Payment.RestoreRefund, RefundProofs.RefundStep, RefundProofs.OthersKept;
    ClaimsRequested(s, key);
    SettledByOne(s, key, now, true);
    var group := s.book.groups[key.group];
    var pending := Payment.ClaimRefund(group, key.round, key.user).group;
    var finished := Payment.FinishRefund(pending, key.round, key.user).value;
    RefundProofs.ClaimSound(group, key.round, key.user);
    RefundProofs.StepInv(group, pending, key.round, key.user);
    RefundProofs.FinishSound(pending, key.round, key.user);
    RefundProofs.FinishedRow(pending, key.round, key.user);
    RefundProofs.RefundStepTwice(group, pending, finished, key.round, key.user);
    FinishedPaying(pending, key.round, key.user);
    ClaimedPaying(group, key.round, key.user);
    var after := if now < RequestedAt(s.book, key) then pending else finished;
    Safety.KeptOthers(group, after, key.round, key.user);
    Safety.RefundMovedOnly(s, key, after,
                           if now < RequestedAt(s.book, key)
                             then RefundStatus.REFUND_PENDING else RefundStatus.REFUNDED);
    NoNewRows(s, key, after);
    SamePayingRounds(s.book, key.group, after);
  }

  lemma NoNewRows(s: State, key: OrderKey, group: Group)
    requires RefundAt(s.book, key, REQUESTED)
    requires RefundProofs.OthersKept(s.book.groups[key.group], group, key.round, key.user)
    ensures forall other :: RefundRow(WithGroup(s, key.group, group).book, other) ==> RefundRow(s.book, other)
  {
    hide RefundProofs.OthersKept;
    forall other | other != key
      ensures RefundRow(WithGroup(s, key.group, group).book, other) ==> RefundRow(s.book, other)
    {
      Safety.OtherRefunds(s, key, group, other);
    }
  }

  predicate SamePaying(before: Group, after: Group) {
    && |after.rounds| == |before.rounds|
    && forall k :: 0 <= k < |before.rounds| ==>
         (before.rounds[k].state == RoundState.PAYING <==> after.rounds[k].state == RoundState.PAYING)
  }

  lemma FinishedPaying(group: Group, i: nat, user: UserId)
    requires Payment.FinishRefund(group, i, user).Ok?
    ensures SamePaying(group, Payment.FinishRefund(group, i, user).value)
  {
    hide SeatSum;
  }

  lemma ClaimedPaying(group: Group, i: nat, user: UserId)
    ensures SamePaying(group, Payment.ClaimRefund(group, i, user).group)
  {
  }

  lemma SamePayingRounds(book: Book, g: GroupId, group: Group)
    requires g in book.groups && SamePaying(book.groups[g], group)
    ensures PayingRounds(book.(groups := book.groups[g := group])) == PayingRounds(book)
  {
    hide PayingRounds;
    PayingAre(book);
    PayingAre(book.(groups := book.groups[g := group]));
  }

  // ----- what settlements do to the refunds --------------------------------------------------

  /** Between two states these refunds were paid back and recorded, and these were paid back and got stuck. */
  ghost predicate Ledger(before: State, after: State, paid: set<OrderKey>, stuck: set<OrderKey>) {
    && Refunds(after.book, RefundStatus.REFUNDED) == Refunds(before.book, RefundStatus.REFUNDED) + paid
    && Refunds(after.book, RefundStatus.REFUND_PENDING) == Refunds(before.book, RefundStatus.REFUND_PENDING) + stuck
    && Refunds(after.book, REQUESTED) == Refunds(before.book, REQUESTED) - paid - stuck
    && PayingRounds(after.book) == PayingRounds(before.book)
    && TimesKept(before.book, after.book)
    && after.gateway == before.gateway + Once(paid + stuck)
  }

  /** The same refund rows, requested when they were. */
  ghost predicate TimesKept(before: Book, after: Book) {
    forall key {:trigger RefundRow(after, key)} {:trigger RefundRow(before, key)} ::
      && (RefundRow(before, key) <==> RefundRow(after, key))
      && (RefundRow(before, key) ==> RequestedAt(after, key) == RequestedAt(before, key))
  }

  lemma ForwardTimes(before: Book, after: Book)
    requires Progress.BookForward(before, after)
    requires forall key :: RefundRow(after, key) ==> RefundRow(before, key)
    ensures TimesKept(before, after)
  {
    forall key | RefundRow(before, key)
      ensures RefundRow(after, key) && RequestedAt(after, key) == RequestedAt(before, key)
    {
      var first := before.groups[key.group].rounds[key.round];
      var second := after.groups[key.group].rounds[key.round];
      assert Progress.RoundForward(first, second);
      assert Progress.OrderForward(first.orders[key.user], second.orders[key.user]);
    }
  }

  lemma LedgerSelf(s: State)
    ensures Ledger(s, s, {}, {})
  {
    hide Refunds, PayingRounds;
  }

  lemma LedgerNext(before: State, s: State, t: State, paid: set<OrderKey>, more: set<OrderKey>, stuck: set<OrderKey>)
    requires Ledger(before, s, paid, {}) && Ledger(s, t, more, stuck)
    ensures Ledger(before, t, paid + more, stuck)
  {
    hide Refunds, PayingRounds, RefundRow;
  }

  lemma RowMoved(before: Book, after: Book, key: OrderKey, status: RefundStatus, to: RefundStatus)
    requires Safety.OnlyRefund(before, after, key, to) && RefundAt(before, key, REQUESTED)
    ensures Refunds(after, status) == Refunds(before, status) - {key} + (if status == to then {key} else {})
    ensures !status.REQUESTED? ==> key !in Refunds(before, status)
  {
    hide Refunds;
    RefundsAre(before, status);
    RefundsAre(after, status);
    assert !status.REQUESTED? ==> !RefundAt(before, key, status);
  }

  lemma SuccessRows(before: Book, after: Book, key: OrderKey, to: RefundStatus)
    requires Safety.OnlyRefund(before, after, key, to) && RefundAt(before, key, REQUESTED)
    requires to.REFUND_PENDING? || to.REFUNDED?
    ensures var paid := if to.REFUNDED? then {key} else {};
            var stuck := if to.REFUNDED? then {} else {key};
            && Refunds(after, RefundStatus.REFUNDED) == Refunds(before, RefundStatus.REFUNDED) + paid
            && Refunds(after, RefundStatus.REFUND_PENDING) == Refunds(before, RefundStatus.REFUND_PENDING) + stuck
            && Refunds(after, REQUESTED) == Refunds(before, REQUESTED) - paid - stuck
  {
    hide Refunds, RefundAt, Safety.OnlyRefund;
    RowMoved(before, after, key, REQUESTED, to);
    RowMoved(before, after, key, RefundStatus.REFUND_PENDING, to);
    RowMoved(before, after, key, RefundStatus.REFUNDED, to);
  }

  lemma LedgerOf(s: State, t: State, paid: set<OrderKey>, stuck: set<OrderKey>)
    requires Refunds(t.book, RefundStatus.REFUNDED) == Refunds(s.book, RefundStatus.REFUNDED) + paid
    requires Refunds(t.book, RefundStatus.REFUND_PENDING) == Refunds(s.book, RefundStatus.REFUND_PENDING) + stuck
    requires Refunds(t.book, REQUESTED) == Refunds(s.book, REQUESTED) - paid - stuck
    requires PayingRounds(t.book) == PayingRounds(s.book) && TimesKept(s.book, t.book)
    requires t.gateway == s.gateway + Once(paid + stuck)
    ensures Ledger(s, t, paid, stuck)
  {
  }

  /** The gateway call succeeded, in time or too early for it to be recorded. */
  lemma SuccessMoves(s: State, key: OrderKey, now: int, early: bool)
    requires Inv(s) && s.jobs == map[] && RefundAt(s.book, key, REQUESTED)
    requires early == (now < RequestedAt(s.book, key))
    ensures Ledger(s, Settlement(s, key, now, true), if early then {} else {key}, if early then {key} else {})
  {
    hide Inv, Settlement, Refunds, PayingRounds, RefundAt, RefundRow, RequestedAt, Safety.OnlyRefund, TimesKept,
      Progress.BookForward, Once, Ledger;
    var after := Settlement(s, key, now, true);
    SettlementInv(s, key, now, true);
    SettledRow(s, key, now);
    ForwardTimes(s.book, after.book);
    SuccessRows(s.book, after.book, key, if early then RefundStatus.REFUND_PENDING else RefundStatus.REFUNDED);
    var paid, stuck := if early then {} else {key}, if early then {key} else {};
    assert paid + stuck == {key};
    LedgerOf(s, after, paid, stuck);
  }

  /** One requested refund: its gateway call failed, or succeeded in time, or succeeded too early to be recorded. */
  lemma SettlementMoves(s: State, key: OrderKey, now: int, succeeds: bool)
    requires Inv(s) && s.jobs == map[] && RefundAt(s.book, key, REQUESTED)
    ensures var early := now < RequestedAt(s.book, key);
            Ledger(s, Settlement(s, key, now, succeeds),
                   if succeeds && !early then {key} else {}, if succeeds && early then {key} else {})
  {
    hide Inv, Settlement, Ledger, Payment.ClaimRefund, Payment.FinishRefund, Payment.RestoreRefund, Payment.TooEarly;
    if succeeds {
      SuccessMoves(s, key, now, now < RequestedAt(s.book, key));
    } else {
      ClaimsRequested(s, key);
      SettledByOne(s, key, now, false);
      LedgerSelf(s);
    }
  }

  /** With no worker in flight, a pending refund is abandoned. */
  lemma PendingAbandoned(s: State, key: OrderKey)
    requires s.jobs == map[] && RefundAt(s.book, key, RefundStatus.REFUND_PENDING)
    ensures Liveness.Orphaned(s, key)
  {
  }
}
