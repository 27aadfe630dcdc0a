/** Where every fen is: charged once, refunded at most once, and accounted for in every reachable state. */
module Money {
  import opened Tables
  import opened Invariants
  import opened Runs
  import Formation
  import Payment
  import RefundProofs
  import Safety
  import Progress
  import opened Sums
  import opened Theorems

  // ----- orders of the whole book ------------------------------------------------------------

  function OrderKeys(book: Book): set<OrderKey> {
    set g, i, u | g in book.groups && 0 <= i < |book.groups[g].rounds| && u in book.groups[g].rounds[i].orders ::
      OrderKey(g, i, u)
  }

  predicate HasOrderAt(book: Book, key: OrderKey) {
    key.group in book.groups && Payment.HasOrder(book.groups[key.group], key.round, key.user)
  }

  function OrderOf(book: Book, key: OrderKey): Order
    requires HasOrderAt(book, key)
  {
    book.groups[key.group].rounds[key.round].orders[key.user]
  }

  function RoundOf(book: Book, key: OrderKey): Round
    requires HasOrderAt(book, key)
  {
    book.groups[key.group].rounds[key.round]
  }

  lemma OrderKeysAre(book: Book)
    ensures forall key :: key in OrderKeys(book) <==> HasOrderAt(book, key)
  {
    forall key ensures key in OrderKeys(book) <==> HasOrderAt(book, key) {
      if HasOrderAt(book, key) {
        assert OrderKey(key.group, key.round, key.user) in OrderKeys(book);
      }
    }
  }

  /** What the succeeded payment transactions took in, order by order. */
  function Charged(book: Book): map<OrderKey, int> {
    map key | key in OrderKeys(book) && HasOrderAt(book, key) && OrderOf(book, key).settled ::
      OrderOf(book, key).amountFen
  }

  predicate Repaid(order: Order) {
    order.refund.Some? && order.refund.value.status.REFUNDED?
  }

  /** What the refund rows say was paid back. */
  function Refunded(book: Book): map<OrderKey, int> {
    map key | key in OrderKeys(book) && HasOrderAt(book, key) && Repaid(OrderOf(book, key)) ::
      OrderOf(book, key).refund.value.amountFen
  }

  predicate Holds(status: OrderStatus) {
    status.PAID? || status.DELIVERED? || status.REFUND_PENDING?
  }

  /** What is held for orders that are paid, delivered or waiting for their refund. */
  function Held(book: Book): map<OrderKey, int> {
    map key | key in OrderKeys(book) && HasOrderAt(book, key) && Holds(OrderOf(book, key).status) ::
      OrderOf(book, key).amountFen
  }

  // ----- conservation ------------------------------------------------------------------------

  lemma OrderSound(book: Book, key: OrderKey)
    requires BookInv(book) && HasOrderAt(book, key)
    ensures OrderInv(OrderOf(book, key))
    ensures OrderFits(RoundOf(book, key).state, OrderOf(book, key).status)
  {
    hide GroupInv, DemandInv, NoClash;
    RefundProofs.OrderOf(book.groups[key.group], key.round, key.user);
    OrderState(book.groups[key.group], key.round, key.user);
  }

  lemma OrderState(group: Group, i: nat, user: UserId)
    requires GroupInv(group) && Payment.HasOrder(group, i, user)
    ensures OrderFits(group.rounds[i].state, group.rounds[i].orders[user].status)
  {
    hide Fits, StateInv;
    assert RoundInv(group.rounds[i]);
  }

  lemma OrderAccounted(book: Book, key: OrderKey)
    requires BookInv(book) && HasOrderAt(book, key)
    ensures var order := OrderOf(book, key);
            && (order.settled <==> Repaid(order) || Holds(order.status)) && !(Repaid(order) && Holds(order.status))
            && order.amountFen == PRICE_FEN && (order.refund.Some? ==> order.refund.value.amountFen == PRICE_FEN)
  {
    hide BookInv, OrderFits;
    OrderSound(book, key);
  }

  lemma Ledger(book: Book)
    requires BookInv(book)
    ensures Parts(Charged(book), Refunded(book), Held(book))
    ensures forall key :: key in Charged(book) ==> Charged(book)[key] == PRICE_FEN
    ensures forall key :: key in Refunded(book) ==> Refunded(book)[key] == PRICE_FEN
    ensures forall key :: key in Held(book) ==> Held(book)[key] == PRICE_FEN
  {
    hide BookInv, OrderFits, Repaid, Holds, OrderKeys;
    OrderKeysAre(book);
    forall key | HasOrderAt(book, key)
      ensures var order := OrderOf(book, key);
              && (order.settled <==> Repaid(order) || Holds(order.status)) && !(Repaid(order) && Holds(order.status))
              && order.amountFen == PRICE_FEN && (order.refund.Some? ==> order.refund.value.amountFen == PRICE_FEN)
    {
      OrderAccounted(book, key);
    }
    assert forall key :: HasOrderAt(book, key) && Repaid(OrderOf(book, key)) ==>
             OrderOf(book, key).refund.Some? by { RepaidHasRefund(); }
  }

  lemma RepaidHasRefund()
    ensures forall order :: Repaid(order) ==> order.refund.Some?
  {
  }

  /**
   * In every reachable state, what was charged is what was refunded plus what is still held, at 99 fen
   * an order; and the gateway never paid out more than was charged.
   */
  lemma Conservation(genders: Formation.Genders, steps: seq<Step>)
    ensures var book := After(genders, steps).book;
            && Sum(Charged(book)) - Sum(Refunded(book)) == Sum(Held(book))
            && 99 * |Charged(book)| - 99 * |Refunded(book)| == 99 * |Held(book)|
  {
    hide Run, BookInv, Charged, Refunded, Held, Parts, Sum;
    var book := After(genders, steps).book;
    Safety.RunInv(genders, steps);
    Ledger(book);
    SumParts(Charged(book), Refunded(book), Held(book));
    SumUniform(Charged(book), 99);
    SumUniform(Refunded(book), 99);
    SumUniform(Held(book), 99);
  }

  /** What the gateway really paid back, each successful call counted. */
  function PaidOut(s: State): map<OrderKey, int> {
    map key | key in s.gateway :: 99 * s.gateway[key]
  }

  predicate Awaits(s: State, key: OrderKey) {
    Settlements(s, key) == 1 && RefundAt(s.book, key, RefundStatus.REFUND_PENDING)
  }

  /** What the gateway paid back and no worker has recorded yet, crashed workers included. */
  function Unrecorded(s: State): map<OrderKey, int> {
    map key | key in s.gateway && Awaits(s, key) :: 99
  }

  /**
   * The gateway's payments are the recorded refunds plus those a worker has not recorded yet, never more than was
   * charged.
   */
  lemma GatewayConservation(genders: Formation.Genders, steps: seq<Step>)
    ensures var s := After(genders, steps);
            && Sum(PaidOut(s)) == Sum(Refunded(s.book)) + Sum(Unrecorded(s))
            && Sum(PaidOut(s)) <= Sum(Charged(s.book))
  {
    hide Run, Charged, Refunded, Unrecorded, PaidOut, Parts, Inv, Sum;
    var s := After(genders, steps);
    Safety.RunInv(genders, steps);
    PayoutParts(s);
    SumParts(PaidOut(s), Done(s), Idle(s));
    SumUniform(Idle(s), 0);
    SumParts(Done(s), Refunded(s.book), Unrecorded(s));
    SumParts(Charged(s.book), Done(s), Kept(s));
    SumNonNegative(Kept(s));
  }

  /** The orders the gateway has refunded, and the calls it never completed. */
  function Done(s: State): map<OrderKey, int> {
    map key | key in s.gateway && s.gateway[key] == 1 :: 99
  }

  function Idle(s: State): map<OrderKey, int> {
    map key | key in s.gateway && s.gateway[key] != 1 :: 0
  }

  function Kept(s: State): map<OrderKey, int> {
    map key | key in Charged(s.book) && key !in Done(s) :: 99
  }

  lemma PayoutParts(s: State)
    requires Inv(s)
    ensures Parts(PaidOut(s), Done(s), Idle(s))
    ensures Parts(Done(s), Refunded(s.book), Unrecorded(s))
    ensures Parts(Charged(s.book), Done(s), Kept(s))
  {
    hide BookInv, RefundedInv, JobsInv, Charged, Refunded, Held, Parts, Done, Idle, Kept;
    Ledger(s.book);
    DoneCharged(s);
    PaidOutParts(s);
    DoneParts(s);
    ChargedParts(s);
  }

  lemma PaidOutParts(s: State)
    requires GatewayInv(s)
    ensures Parts(PaidOut(s), Done(s), Idle(s))
  {
    hide RefundAt;
  }

  lemma DoneParts(s: State)
    requires GatewayInv(s) && RefundedInv(s)
    requires forall key :: key in Refunded(s.book) ==> Refunded(s.book)[key] == PRICE_FEN
    ensures Parts(Done(s), Refunded(s.book), Unrecorded(s))
  {
    hide Refunded;
    RefundedKeys(s.book);
  }

  lemma ChargedParts(s: State)
    requires forall key :: key in Charged(s.book) ==> Charged(s.book)[key] == PRICE_FEN
    requires forall key :: key in Done(s) ==> key in Charged(s.book)
    ensures Parts(Charged(s.book), Done(s), Kept(s))
  {
    hide Charged;
  }

  lemma RefundedKeys(book: Book)
    ensures forall key :: key in Refunded(book) <==> RefundAt(book, key, RefundStatus.REFUNDED)
  {
    OrderKeysAre(book);
  }

  lemma DoneCharged(s: State)
    requires Inv(s)
    ensures forall key :: key in Done(s) ==> key in Charged(s.book)
  {
    hide BookInv, RefundedInv, JobsInv, OrderFits;
    OrderKeysAre(s.book);
    forall key | key in Done(s) ensures key in Charged(s.book) {
      assert HasOrderAt(s.book, key);
      OrderSound(s.book, key);
    }
  }

  /** No order stays unpaid and open once its round has left PAYING. */
  lemma NoOpenOrderAfterPaying(genders: Formation.Genders, steps: seq<Step>, key: OrderKey)
    requires HasOrderAt(After(genders, steps).book, key)
    ensures var book := After(genders, steps).book;
            Payment.Payable(OrderOf(book, key).status) ==> RoundOf(book, key).state.PAYING?
  {
    hide Run, BookInv;
    Safety.RunInv(genders, steps);
    OrderSound(After(genders, steps).book, key);
  }

  // ----- refunds -----------------------------------------------------------------------------

  /** Whatever workers and crashes interleave, an order is refunded at most once, and only if it was paid. */
  lemma RefundedAtMostOnce(genders: Formation.Genders, steps: seq<Step>, key: OrderKey)
    ensures var s := After(genders, steps);
            && Settlements(s, key) <= 1
            && (Settlements(s, key) == 1 ==> RefundRow(s.book, key) && OrderAt(s.book, key).settled)
            && (RefundAt(s.book, key, RefundStatus.REFUNDED) ==> Settlements(s, key) == 1)
            && (RefundAt(s.book, key, REQUESTED) ==> Settlements(s, key) == 0)
  {
    hide Run, BookInv, JobsInv, OrderFits;
    Safety.RunInv(genders, steps);
    var s := After(genders, steps);
    if RefundRow(s.book, key) {
      assert HasOrderAt(s.book, key);
      OrderSound(s.book, key);
    }
  }

  /** A refund that is done stays done, and the gateway is never asked for it again. */
  lemma RefundedForever(genders: Formation.Genders, steps: seq<Step>, more: seq<Step>, key: OrderKey)
    requires RefundAt(After(genders, steps).book, key, RefundStatus.REFUNDED)
    ensures RefundAt(Run(After(genders, steps), more).book, key, RefundStatus.REFUNDED)
    ensures Settlements(Run(After(genders, steps), more), key) == 1
  {
    hide Run, BookInv, JobsInv, Progress.RoundForward;
    var s := After(genders, steps);
    Safety.RunInv(genders, steps);
    Progress.RunForward(s, more);
    RefundKept(s.book.groups[key.group].rounds[key.round], Run(s, more).book.groups[key.group].rounds[key.round],
               key.user);
  }

  lemma RefundKept(before: Round, after: Round, user: UserId)
    requires Progress.RoundForward(before, after)
    requires user in before.orders && Repaid(before.orders[user])
    ensures user in after.orders && Repaid(after.orders[user])
  {
  }

  // ----- arms that never run -----------------------------------------------------------------

  /** A requested refund always passes the worker's check, so nothing is ever put up for manual review. */
  lemma NoManualReview(genders: Formation.Genders, steps: seq<Step>, key: OrderKey)
    ensures var book := After(genders, steps).book;
            && !RefundAt(book, key, REVIEW_REQUIRED)
            && (RefundAt(book, key, REQUESTED) ==>
                  OrderAt(book, key).refund.value.amountFen == 99 && OrderAt(book, key).status.REFUND_PENDING? &&
                  OrderAt(book, key).settled &&
                    Payment.ClaimRefund(book.groups[key.group], key.round, key.user).claimed)
  {
    hide Run, GroupInv, OrderFits, GatewayInv, RefundedInv, JobsInv;
    Safety.RunInv(genders, steps);
    var book := After(genders, steps).book;
    if RefundRow(book, key) {
      OrderSound(book, key);
      RefundProofs.ClaimSound(book.groups[key.group], key.round, key.user);
    }
  }

  lemma NoRefundRetry(genders: Formation.Genders, steps: seq<Step>, g: GroupId)
    requires g in After(genders, steps).book.groups
    ensures var group := After(genders, steps).book.groups[g];
            && !group.state.REFUND_RETRY?
            && forall i :: 0 <= i < |group.rounds| ==> !group.rounds[i].state.REFUND_RETRY?
  {
    hide Run, Fits, OrdersInv, ConsentsInv;
    Safety.RunInv(genders, steps);
    Safety.GroupOf(After(genders, steps).book, g);
  }

  /** Recovery always finds the member whose refund it finished. */
  lemma RecoveryFindsMembers(genders: Formation.Genders, steps: seq<Step>, key: OrderKey)
    requires RefundAt(After(genders, steps).book, key, RefundStatus.REFUND_PENDING)
    requires After(genders, steps).book.groups[key.group].state.REFUNDING?
    ensures var group := After(genders, steps).book.groups[key.group];
            key.user in Users(Payment.Payers(group.members)) && 1 <= |Payment.Payers(group.members)| <= 4
  {
    hide Run, GroupInv;
    Safety.RunInv(genders, steps);
    Safety.GroupOf(After(genders, steps).book, key.group);
    PayerFound(After(genders, steps).book.groups[key.group], key.round, key.user);
  }

  lemma PayerFound(group: Group, i: nat, user: UserId)
    requires GroupInv(group) && group.state.REFUNDING?
    requires Payment.RefundIs(group, i, user, REQUESTED) ||
             Payment.RefundIs(group, i, user, RefundStatus.REFUND_PENDING)
    ensures user in Users(Payment.Payers(group.members)) && 1 <= |Payment.Payers(group.members)| <= 4
  {
    hide Fits;
    RefundProofs.UnfinishedRefund(group, i, user);
    RefundProofs.RefundingRoster(group);
    var round := group.rounds[i];
    RefundProofs.OrderOf(group, i, user);
    assert user in Users(round.snapshot);
    var d :| d in round.snapshot && round.snapshot[d].user == user;
    assert HasRefundable(round, user);
    assert d in Roster(group.members);
    FitsFew(Roster(group.members));
  }

  lemma FitsFew(roster: map<DemandId, Seat>)
    requires Fits(roster)
    ensures |roster| <= 4
  {
    FitsBound(roster);
  }
}
