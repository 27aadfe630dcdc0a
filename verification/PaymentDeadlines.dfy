/** What the payment and refund sweep lists, and how each of its transactions changes those lists. */
module PaymentDeadlines {
  import opened Tables
  import opened Runs
  import opened Invariants
  import opened FormationTimeout
  import Formation
  import Payment
  import PaymentProofs
  import BookProofs
  import Safety

  predicate IsPaying(book: Book, id: RoundId) {
    && id.group in book.groups && id.index < |book.groups[id.group].rounds|
    && book.groups[id.group].rounds[id.index].state == RoundState.PAYING
  }

  predicate PaymentLate(book: Book, id: RoundId, now: int) {
    && IsPaying(book, id)
    && book.groups[id.group].rounds[id.index].payBy.Some? && book.groups[id.group].rounds[id.index].payBy.value <= now
  }

  function PayingRounds(book: Book): set<RoundId> {
    set g, i | g in book.groups && 0 <= i < |book.groups[g].rounds| && IsPaying(book, RoundId(g, i)) :: RoundId(g, i)
  }

  function LatePayments(book: Book, now: int): set<RoundId> {
    set id | id in PayingRounds(book) && PaymentLate(book, id, now)
  }

  function Refunds(book: Book, status: RefundStatus): set<OrderKey> {
    set g, i, u | g in book.groups && 0 <= i < |book.groups[g].rounds| && u in book.groups[g].rounds[i].orders &&
                  RefundAt(book, OrderKey(g, i, u), status) :: OrderKey(g, i, u)
  }

  lemma PayingAre(book: Book)
    ensures forall id :: id in PayingRounds(book) <==> IsPaying(book, id)
  {
    forall id ensures id in PayingRounds(book) <==> IsPaying(book, id) {
      if IsPaying(book, id) {
        assert RoundId(id.group, id.index) in PayingRounds(book);
      }
    }
  }

  lemma RefundsAre(book: Book, status: RefundStatus)
    ensures forall key :: key in Refunds(book, status) <==> RefundAt(book, key, status)
  {
    forall key ensures key in Refunds(book, status) <==> RefundAt(book, key, status) {
      if RefundAt(book, key, status) {
        assert OrderKey(key.group, key.round, key.user) in Refunds(book, status);
      }
    }
  }

  // ----- a missed payment deadline -----------------------------------------------------------

  ghost function AfterDeadline(book: Book, id: RoundId, now: int, at: int): Book
    requires id.group in book.groups && Payment.InvalidatePayment(book.groups[id.group], id.index, now, at).Ok?
  {
    Formation.Commit(book, id.group, Payment.InvalidatePayment(book.groups[id.group], id.index, now, at).value, OPEN)
  }

  lemma Compensating(group: Group, i: nat, now: int, at: int)
    requires Payment.PaymentDue(group, i, now) && Payment.InvalidatePayment(group, i, now, at).Ok?
    ensures var after := Payment.InvalidatePayment(group, i, now, at).value.group;
            && |after.rounds| == |group.rounds| && after.rounds[i].state.REFUNDING?
            && forall k :: 0 <= k < |group.rounds| && k != i ==> after.rounds[k] == group.rounds[k]
  {
  }

  /** One paying round fewer, and the refunds it requests are not paid back yet. */
  lemma DeadlineMoves(book: Book, id: RoundId, now: int, at: int)
    requires BookInv(book) && id.group in book.groups && Payment.PaymentDue(book.groups[id.group], id.index, now)
    ensures Payment.InvalidatePayment(book.groups[id.group], id.index, now, at).Ok?
    ensures var after := AfterDeadline(book, id, now, at);
            && id in PayingRounds(book) && id in LatePayments(book, now)
            && PayingRounds(after) == PayingRounds(book) - {id}
            && LatePayments(after, now) == LatePayments(book, now) - {id}
            && Refunds(after, RefundStatus.REFUNDED) == Refunds(book, RefundStatus.REFUNDED)
  {
    hide BookInv, GroupInv, Payment.InvalidatePayment, PayingRounds, Refunds, RefundAt;
    var group := book.groups[id.group];
    Safety.GroupOf(book, id.group);
    PaymentProofs.InvalidatePaymentSound(group, id.index, now, at);
    Compensating(group, id.index, now, at);
    var after := AfterDeadline(book, id, now, at);
    PayingAre(book);
    PayingAre(after);
    assert PayingRounds(after) == PayingRounds(book) - {id};
    BookProofs.CommitInv(book, id.group, Payment.InvalidatePayment(group, id.index, now, at).value, OPEN);
    RequestedOnly(book, after);
  }

  lemma RequestedOnly(before: Book, after: Book)
    requires BookProofs.BookRefundsKept(before, after)
    ensures Refunds(after, RefundStatus.REFUNDED) == Refunds(before, RefundStatus.REFUNDED)
  {
    hide Refunds;
    RefundsAre(before, RefundStatus.REFUNDED);
    RefundsAre(after, RefundStatus.REFUNDED);
    assert forall key :: RefundRow(before, key) ==> RefundRow(after, key);
  }

  predicate PaidIn(book: Book, key: OrderKey) {
    && key.group in book.groups && Payment.HasOrder(book.groups[key.group], key.round, key.user)
    && book.groups[key.group].rounds[key.round].orders[key.user].status.PAID?
  }

  function RoundOf(key: OrderKey): RoundId {
    RoundId(key.group, key.round)
  }

  /**
   * The rounds taken out of PAYING were late; their paid orders, and no others, have new refunds, requested when
   * written.
   */
  ghost predicate Compensations(before: Book, after: Book, now: int, written: RoundId -> int) {
    && PayingRounds(after) <= PayingRounds(before) && LatePayments(after, now) <= LatePayments(before, now)
    && PayingRounds(before) - PayingRounds(after) <= LatePayments(before, now)
    && (forall key {:trigger RefundRow(after, key)} {:trigger RefundRow(before, key)} ::
          RefundRow(before, key) ==> RefundRow(after, key) && OrderAt(after, key) == OrderAt(before, key))
    && (forall key :: RefundRow(after, key) && !RefundRow(before, key) <==>
          PaidIn(before, key) && RoundOf(key) in PayingRounds(before) - PayingRounds(after))
    && (forall key :: RefundRow(after, key) && !RefundRow(before, key) ==>
          RefundAt(after, key, REQUESTED) && RequestedAt(after, key) == written(RoundOf(key)))
    && (forall key :: RoundOf(key) in PayingRounds(after) ==> (PaidIn(before, key) <==> PaidIn(after, key)))
  }

  lemma CompensationsSelf(book: Book, now: int, written: RoundId -> int)
    ensures Compensations(book, book, now, written)
  {
    hide PayingRounds;
  }

  lemma CompensationsTwice(first: Book, second: Book, third: Book, now: int, written: RoundId -> int)
    requires Compensations(first, second, now, written) && Compensations(second, third, now, written)
    ensures Compensations(first, third, now, written)
  {
    hide PayingRounds, LatePayments, RefundRow, PaidIn;
    forall key | RefundRow(third, key) && !RefundRow(first, key)
      ensures RefundAt(third, key, REQUESTED) && RequestedAt(third, key) == written(RoundOf(key))
    {
      if RefundRow(second, key) {
        SameRow(second, third, key);
      }
    }
  }

  lemma SameRow(before: Book, after: Book, key: OrderKey)
    requires RefundRow(before, key) && RefundRow(after, key) && OrderAt(after, key) == OrderAt(before, key)
    ensures forall status :: RefundAt(after, key, status) <==> RefundAt(before, key, status)
    ensures RequestedAt(after, key) == RequestedAt(before, key)
  {
  }

  /** The order rows of one compensation. */
  lemma CompensatedRows(group: Group, i: nat, now: int, at: int, user: UserId)
    requires Payment.PaymentDue(group, i, now) && Payment.InvalidatePayment(group, i, now, at).Ok?
    requires GroupInv(group) && Payment.HasOrder(group, i, user)
    ensures var order := Payment.InvalidatePayment(group, i, now, at).value.group.rounds[i].orders[user];
            && Payment.HasOrder(Payment.InvalidatePayment(group, i, now, at).value.group, i, user)
            && (group.rounds[i].orders[user].status.PAID? ==> order.refund.Some?)
            && group.rounds[i].orders[user].refund.None?
            && (order.refund.Some? ==> group.rounds[i].orders[user].status.PAID? &&
                                       order.refund.value.status.REQUESTED? && order.refund.value.requestedAt == at)
  {
    hide StateInv, Fits;
    assert RoundInv(group.rounds[i]);
    assert OrderInv(group.rounds[i].orders[user]) &&
           OrderFits(group.rounds[i].state, group.rounds[i].orders[user].status);
  }

  lemma DeadlineCompensates(book: Book, id: RoundId, now: int, written: RoundId -> int)
    requires BookInv(book) && id.group in book.groups && Payment.PaymentDue(book.groups[id.group], id.index, now)
    requires Payment.InvalidatePayment(book.groups[id.group], id.index, now, written(id)).Ok?
    ensures Compensations(book, AfterDeadline(book, id, now, written(id)), now, written)
  {
    hide BookInv, GroupInv, Payment.InvalidatePayment, PayingRounds, LatePayments, Refunds;
    var group := book.groups[id.group];
    var after := AfterDeadline(book, id, now, written(id));
    Safety.GroupOf(book, id.group);
    DeadlineMoves(book, id, now, written(id));
    PaymentProofs.InvalidatePaymentSound(group, id.index, now, written(id));
    Compensating(group, id.index, now, written(id));
    BookProofs.CommitInv(book, id.group, Payment.InvalidatePayment(group, id.index, now, written(id)).value, OPEN);
    SameOrders(group, id.index, now, written(id));
    forall key
      ensures RefundRow(book, key) ==> RefundRow(after, key) && OrderAt(after, key) == OrderAt(book, key)
      ensures RefundRow(after, key) && !RefundRow(book, key) <==> PaidIn(book, key) && RoundOf(key) == id
      ensures RefundRow(after, key) && !RefundRow(book, key) ==>
                RefundAt(after, key, REQUESTED) && RequestedAt(after, key) == written(RoundOf(key))
      ensures RoundOf(key) != id ==> (PaidIn(book, key) <==> PaidIn(after, key))
    {
      if RoundOf(key) == id && Payment.HasOrder(group, key.round, key.user) {
        CompensatedRows(group, id.index, now, written(id), key.user);
      }
    }
  }

  lemma SameOrders(group: Group, i: nat, now: int, at: int)
    requires Payment.PaymentDue(group, i, now) && Payment.InvalidatePayment(group, i, now, at).Ok?
    ensures Payment.InvalidatePayment(group, i, now, at).value.group.rounds[i].orders.Keys ==
            group.rounds[i].orders.Keys
  {
  }

  /** With group and round coupled, a listed late payment is one the transaction compensates. */
  lemma CoupledLate(book: Book, id: RoundId, now: int)
    requires BookInv(book) && AllCoupled(book) && PaymentLate(book, id, now)
    ensures Payment.PaymentDue(book.groups[id.group], id.index, now)
  {
    hide DemandInv, NoClash, Fits, RoundInv;
    var group := book.groups[id.group];
    assert GroupInv(group) && Coupled(group);
    assert id.index == |group.rounds| - 1;
    assert Locked(group.state);
  }
}
