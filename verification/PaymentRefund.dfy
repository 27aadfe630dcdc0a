/**
 * apps/worker/src/payment-refund.ts: payment deadlines, and each refund as three transactions around a gateway call.
 */
module PaymentRefunds {
  import opened Wrappers
  import opened Tables
  import opened Runs
  import opened Store
  import opened Invariants
  import Formation
  import opened PaymentDeadlines
  import opened RefundSettlement
  import opened RefundSweeps
  import opened FormationTimeout
  import Liveness
  import Payment
  import PaymentProofs
  import PaymentsServices
  import Memberships
  import Safety

  class PaymentRefundWorker {
    const db: Database
    var gateway: map<OrderKey, nat>

    constructor (db: Database)
      requires db.View() == Empty.book
      ensures this.db == db && Valid()
    {
      this.db := db;
      this.gateway := map[];
    }

    /** The tables and the gateway's ledger between two refunds, with no other worker in flight. */
    ghost function Between(): State
      reads this, db
    {
      Empty.(book := db.View(), gateway := gateway)
    }

    ghost predicate Valid()
      reads this, db
    {
      Inv(Between())
    }

    // ----- the payment deadline ----------------------------------------------------------------

    method InvalidatePaymentRound(g: GroupId, i: nat, now: int, at: int) returns (changed: Result<bool>)
      requires Valid()
      modifies db
      ensures Valid() && (AllCoupled(old(db.View())) ==> AllCoupled(db.View()))
      ensures changed == Ok(g in old(db.groups) && Payment.PaymentDue(old(db.groups[g]), i, now))
      ensures Between() == Next(old(Between()), Step.PaymentTimeout(g, i, now, at))
      ensures g in old(db.groups) ==> Payment.InvalidatePayment(old(db.groups)[g], i, now, at).Ok?
      ensures db.View() == if changed == Ok(true) then AfterDeadline(old(db.View()), RoundId(g, i), now, at)
              else old(db.View())
    {
      hide BookInv, GroupInv, GatewayInv, RefundedInv, JobsInv, Payment.InvalidatePayment, Formation.Commit, Next,
        Coupled;
      ghost var before := Between();
      DeadlineStep(before, g, i, now, at);
      if g !in db.groups {
        return Ok(false);
      }
      changed := DeadlineTransaction(g, i, now, at);
    }

    method DeadlineTransaction(g: GroupId, i: nat, now: int, at: int) returns (changed: Result<bool>)
      requires db.Valid() && g in db.groups
      modifies db
      ensures match Payment.InvalidatePayment(old(db.groups[g]), i, now, at)
              case Err(thrown) => changed == Err(thrown) && db.View() == old(db.View())
              case Ok(committed) =>
                && changed == Ok(Payment.PaymentDue(old(db.groups[g]), i, now))
                && db.View() == Formation.Commit(old(db.View()), g, committed, OPEN)
    {
      hide BookInv, Payment.Compensate;
      ghost var before := db.View();
      PaymentsServices.Untouched(before, g);
      var group := db.groups[g];
      if i >= |group.rounds| || !group.rounds[i].state.PAYING? || group.rounds[i].payBy.None? ||
         group.rounds[i].payBy.value > now || !group.state.PAYING? {
        return Ok(false);
      }
      var thrown := Compensate(g, i, at);
      return if thrown.Some? then Err(thrown.value) else Ok(true);
    }

    /** The writes of a missed payment deadline. */
    method Compensate(g: GroupId, i: nat, at: int) returns (error: Option<Error>)
      requires db.Valid() && g in db.groups && i < |db.groups[g].rounds|
      modifies db
      ensures var group := old(db.groups[g]);
              var wrong := exists u :: u in group.rounds[i].orders && group.rounds[i].orders[u].status.PAID? &&
                                       group.rounds[i].orders[u].amountFen != PRICE_FEN;
              Commits(old(db.View()), db.View(), g,
                      if wrong then Err(INTERNAL_ERROR)
                        else Ok(Payment.Compensate(group, i, RevokeAll(group.rounds[i].consents), at)),
                      OPEN, error)
    {
      hide BookInv, Payment.CompensatedOrders, PaymentsServices.CloseUnpaid, PaymentsServices.PaidUsers, Restatus,
        RevokeAll, Standing, Roster;
      var before := Formation.Book(db.demands, db.groups);
      PaymentsServices.Untouched(before, g);
      var group := db.groups[g];
      var orders := group.rounds[i].orders;
      PaymentsServices.ClosedFirst(orders, at);
      db.UpdateRound(g, i, db.groups[g].rounds[i].(state := RoundState.REFUNDING));
      db.UpdateGroup(g, GroupState.REFUNDING);
      ActiveIsLive(before, g);
      ReleaseDebtors(g, group.members);
      db.UpdateRound(g, i, db.groups[g].rounds[i].(orders := PaymentsServices.CloseUnpaid(orders)));
      if exists u :: u in orders && orders[u].status.PAID? && orders[u].amountFen != PRICE_FEN {
        db.Rollback(before);
        return Some(INTERNAL_ERROR);
      }
      PaymentsServices.RequestRefunds(db, g, i, PaymentsServices.PaidUsers(orders), at);
      db.UpdateRound(g, i, db.groups[g].rounds[i].(consents := RevokeAll(db.groups[g].rounds[i].consents)));
      assert db.groups[g] == Payment.Compensate(group, i, RevokeAll(group.rounds[i].consents), at).group;
      assert db.groups == before.groups[g := db.groups[g]];
      return None;
    }

    /** Members who did not pay time out, and their demands are open again. */
    method ReleaseDebtors(g: GroupId, members: map<DemandId, Member>)
      requires g in db.groups && db.groups[g].members == members
      requires forall d :: d in Roster(members) ==> d in db.demands && db.demands[d].status.GROUPED?
      modifies db
      ensures db.groups ==
              old(db.groups)[g := old(db.groups[g]).(members := Restatus(members, PAYMENT_PENDING, PAYMENT_TIMEOUT))]
      ensures db.demands == Formation.SetDemands(old(db.demands), Payment.Debtors(members).Keys, OPEN)
    {
      hide Restatus;
      PaymentsServices.Untouched(db.View(), g);
      var unpaid := Payment.Debtors(members).Keys;
      if unpaid != {} {
        db.UpdateMembers(g, PAYMENT_PENDING, PAYMENT_TIMEOUT);
        var grouped := set d | d in unpaid && d in db.demands && db.demands[d].status.GROUPED?;
        db.UpdateDemands(grouped, OPEN);
        assert grouped == unpaid;
      } else {
        PaymentsServices.NobodyOwes(members);
      }
    }

    // ----- one refund --------------------------------------------------------------------------

    /** The claim of a requested refund, and the review of one that cannot be paid back. */
    method ClaimRefund(g: GroupId, i: nat, user: UserId) returns (claimed: bool)
      requires g in db.groups
      modifies db`groups
      ensures var claim := Payment.ClaimRefund(old(db.groups[g]), i, user);
              claimed == claim.claimed && db.groups == old(db.groups)[g := claim.group]
    {
      PaymentsServices.Untouched(db.View(), g);
      ghost var before := db.groups;
      if !Payment.RefundIs(db.groups[g], i, user, REQUESTED) {
        return false;
      }
      UpdateRefund(g, i, user, RefundStatus.REFUND_PENDING);
      var order := db.groups[g].rounds[i].orders[user];
      if order.refund.value.amountFen != PRICE_FEN || !order.status.REFUND_PENDING? || !order.settled {
        UpdateRefund(g, i, user, REVIEW_REQUIRED);
        MarkRoundForManualReview(g, i);
        return false;
      }
      return true;
    }

    /**
     * A whole settlement, uninterrupted. A gateway failure leaves no trace. A gateway success is recorded if and only
     * if the refund was requested by the given time; otherwise the finish throws, and the refund, although paid back,
     * is pending for ever.
     */
    method SettleRefund(key: OrderKey, now: int, succeeds: bool) returns (settled: Result<bool>)
      requires Valid()
      modifies this, db
      ensures Valid()
      ensures Between() == Settlement(old(Between()), key, now, succeeds)
      ensures !succeeds || !RefundAt(old(db.View()), key, REQUESTED) ==>
                settled == Ok(false) && db.View() == old(db.View()) && gateway == old(gateway)
      ensures succeeds && RefundAt(old(db.View()), key, REQUESTED) ==>
                && gateway == old(gateway) + Once({key})
                && if RequestedAt(old(db.View()), key) <= now
                   then settled == Ok(true) && RefundAt(db.View(), key, RefundStatus.REFUNDED)
                   else settled == Err(CHECK_VIOLATION) && Liveness.Orphaned(Between(), key)
    {
      hide Inv, Payment.ClaimRefund, Payment.RestoreRefund, Payment.FinishRefund, Payment.TooEarly, Settlement,
        RefundAt, Once, Liveness.Orphaned;
      ghost var before := Between();
      SettlementInv(before, key, now, succeeds);
      var g, i, user := key.group, key.round, key.user;
      if g !in db.groups {
        NothingToSettle(before, key, now, succeeds);
        return Ok(false);
      }
      var claimed := ClaimRefund(g, i, user);
      if !claimed {
        NothingToSettle(before, key, now, succeeds);
        PaymentsServices.Untouched(before.book, g);
        assert Between() == before;
        return Ok(false);
      }
      SettledByOne(before, key, now, succeeds);
      PaymentsServices.Overwritten(before.book.groups, g, db.groups[g], Payment.RestoreRefund(db.groups[g], i, user));
      if !succeeds {
        RestoreRefund(g, i, user);
        PaymentsServices.Untouched(before.book, g);
        assert Between() == before;
        return Ok(false);
      }
      OnceMore(gateway, key);
      gateway := gateway[key := 1];
      ghost var pending := db.groups[g];
      settled := FinishRefund(g, i, user, now);
      PaymentsServices.Overwritten(before.book.groups, g, pending, db.groups[g]);
      if settled.Err? {
        assert Between() == Settlement(before, key, now, succeeds);
        PendingAbandoned(Between(), key);
      }
    }

    // ----- the sweep ---------------------------------------------------------------------------

    /** Up to SWEEP_LIMIT paying rounds whose deadline has passed; the order in which they come does not matter. */
    method ListDuePaymentRounds(now: int) returns (list: seq<RoundId>)
      ensures DistinctList(list) && (forall k :: 0 <= k < |list| ==> list[k] in LatePayments(db.View(), now))
      ensures |list| == Least(SWEEP_LIMIT, |LatePayments(db.View(), now)|)
    {
      list := TakeSome(LatePayments(Formation.Book(db.demands, db.groups), now), SWEEP_LIMIT);
    }

    /** Up to SWEEP_LIMIT requested refunds, those requested first in front. */
    method ListRequestedRefunds() returns (list: seq<OrderKey>)
      ensures Earliest(db.View(), list)
    {
      hide Refunds, RefundAt, RefundRow, EarlierFirst;
      var book := Formation.Book(db.demands, db.groups);
      var due := Refunds(book, REQUESTED);
      list := [];
      var rest := due;
      NoneListed(book, due);
      while rest != {} && |list| < SWEEP_LIMIT
        invariant EarlierFirst(book, list, rest)
        invariant rest <= due && |rest| == |due| - |list| && |list| <= SWEEP_LIMIT
        invariant forall key :: key in due ==> key in rest || key in list
      {
        OneMore(book, list, rest);
        var first := First(rest);
        NextListed(book, list, rest, first);
        rest := rest - {first};
        list := list + [first];
      }
      AllListed(book, list, rest);
    }

    /** One of the refunds that were requested first. */
    method First(keys: set<OrderKey>) returns (first: OrderKey)
      requires keys != {} && forall key :: key in keys ==> RefundRow(db.View(), key)
      ensures first in keys && forall key :: key in keys ==>
                RequestedAt(db.View(), first) <= RequestedAt(db.View(), key)
    {
      hide RefundRow;
      var book := Formation.Book(db.demands, db.groups);
      first :| first in keys;
      var rest := keys - {first};
      while rest != {}
        invariant rest <= keys && first in keys
        invariant forall key :: key in keys - rest ==> RequestedAt(book, first) <= RequestedAt(book, key)
      {
        var key :| key in rest;
        rest := rest - {key};
        if RequestedAt(book, key) < RequestedAt(book, first) {
          first := key;
        }
      }
    }

    /**
     * One sweep; each transaction of its first loop writes at a time of its own. The first loop takes late rounds out
     * of PAYING, on coupled tables every one of up to fifty, and requests a refund for each of their paid orders. The
     * second settles up to fifty requested refunds, earliest first, and ends at the first one for which the gateway is
     * up and which was requested after the sweep began: that one is paid back and stuck, and the sweep throws.
     */
    method RunPaymentRefundSweep(now: int, written: RoundId -> int, up: set<OrderKey>)
        returns (result: Result<SweepCounts>)
      requires Valid()
      modifies this, db
      ensures Valid()
      ensures exists late, paid, stuck ::
              SweepDid(old(Between()), Between(), now, written, up, late, paid, stuck, result)
      ensures AllCoupled(old(db.View())) ==>
                |PayingRounds(old(db.View())) - PayingRounds(db.View())| ==
                Least(50, |LatePayments(old(db.View()), now)|)
    {
      hide Inv, PayingRounds, LatePayments, Refunds, AllCoupled, Compensations, Ledger, Earliest, Stop, Chosen,
        SweepDid, Liveness.Orphaned;
      ghost var before := Between();
      var count := InvalidateLate(now, written);
      ghost var middle := Between();
      var list := ListRequestedRefunds();
      Listing(db.View(), list);
      var settled := SettleListed(list, now, up);
      result := if settled.Ok? then Ok(SweepCounts(count, settled.value)) else Err(settled.error);
      SweepSays(before, middle, Between(), now, written, up, list, settled, result);
    }

    method InvalidateLate(now: int, written: RoundId -> int) returns (count: nat)
      requires Valid()
      modifies this, db
      ensures Valid() && gateway == old(gateway)
      ensures Compensations(old(db.View()), db.View(), now, written)
      ensures count == |PayingRounds(old(db.View())) - PayingRounds(db.View())| <= SWEEP_LIMIT
      ensures AllCoupled(old(db.View())) ==> count == Least(SWEEP_LIMIT, |LatePayments(old(db.View()), now)|)
    {
      hide Inv, PayingRounds, LatePayments, AllCoupled, AfterDeadline, Payment.PaymentDue, Payment.InvalidatePayment,
        Compensations;
      ghost var before, coupled := db.View(), AllCoupled(db.View());
      var list := ListDuePaymentRounds(now);
      count := 0;
      CompensationsSelf(before, now, written);
      for k := 0 to |list|
        invariant Valid() && gateway == old(gateway) && count <= k
        invariant coupled ==> AllCoupled(db.View()) && count == k
        invariant coupled ==> forall j :: k <= j < |list| ==> list[j] in LatePayments(db.View(), now)
        invariant Compensations(before, db.View(), now, written)
        invariant |PayingRounds(db.View())| + count == |PayingRounds(before)|
      {
        ghost var s := Between();
        LateRow(s, list[k], now, written);
        var changed := InvalidatePaymentRound(list[k].group, list[k].index, now, written(list[k]));
        if changed == Ok(true) {
          count := count + 1;
          CompensationsTwice(before, s.book, db.View(), now, written);
        }
      }
      FewerPaying(before, db.View(), now, written);
    }

    /**
     * Settles the listed requested refunds in turn; the gateway is up for some orders and down for the others. The loop
     * ends with the list or at the first refund that is paid back too early to be recorded.
     */
    method SettleListed(list: seq<OrderKey>, now: int, up: set<OrderKey>) returns (settled: Result<nat>)
      requires Valid() && Requested(db.View(), list)
      modifies this, db
      ensures Valid() && ListSettled(old(Between()), Between(), list, now, up, settled)
    {
      hide Inv, RefundAt, RefundRow, Settlement, Chosen, Ledger, Liveness.Orphaned, Stop;
      ghost var before := Between();
      var count := 0;
      NoneChosen(up);
      LedgerSelf(before);
      for k := 0 to |list|
        invariant Valid() && count == |Chosen(list[..k], up)|
        invariant forall j :: k <= j < |list| ==> RefundAt(db.View(), list[j], REQUESTED)
        invariant Ledger(before, Between(), Chosen(list[..k], up), {})
        invariant forall j :: 0 <= j < k && list[j] in up ==> RequestedAt(before.book, list[j]) <= now
      {
        ghost var s := Between();
        StillRequested(before, s, list, k, up);
        ghost var early := now < RequestedAt(s.book, list[k]);
        SettlementMoves(s, list[k], now, list[k] in up);
        ChosenNext(list, k, up);
        var one := SettleRefund(list[k], now, list[k] in up);
        LedgerNext(before, s, Between(), Chosen(list[..k], up), if list[k] in up && !early then {list[k]} else {},
                   if list[k] in up && early then {list[k]} else {});
        if one.Err? {
          StopIs(before.book, list, now, up, k);
          return Err(one.error);
        }
        LaterRequested(s, Between(), list, k, now, up);
        if one == Ok(true) {
          count := count + 1;
        }
      }
      StopIs(before.book, list, now, up, |list|);
      assert list[..|list|] == list;
      return Ok(count);
    }

    method UpdateRefund(g: GroupId, i: nat, user: UserId, status: RefundStatus)
      requires g in db.groups && Payment.HasOrder(db.groups[g], i, user) &&
               db.groups[g].rounds[i].orders[user].refund.Some?
      modifies db`groups
      ensures db.groups == old(db.groups)[g := Payment.SetRefund(old(db.groups[g]), i, user, status)]
    {
      var round := db.groups[g].rounds[i];
      var order := round.orders[user];
      db.UpdateRound(g, i,
                     round.(orders := round.orders[user :=
                         order.(refund := Some(order.refund.value.(status := status)))]));
    }

    method MarkRoundForManualReview(g: GroupId, i: nat)
      requires g in db.groups && i < |db.groups[g].rounds|
      modifies db`groups
      ensures db.groups == old(db.groups)[g := Payment.MarkForReview(old(db.groups[g]), i)]
    {
      PaymentsServices.Untouched(db.View(), g);
      var round := db.groups[g].rounds[i];
      if round.state.REFUNDING? || round.state.REFUND_RETRY? {
        db.UpdateRound(g, i, round.(state := RoundState.REFUND_RETRY));
      }
      var state := db.groups[g].state;
      if state.REFUNDING? || state.REFUND_RETRY? {
        db.UpdateGroup(g, GroupState.REFUND_RETRY);
      }
    }

    /** After a gateway failure the refund may be claimed again. */
    method RestoreRefund(g: GroupId, i: nat, user: UserId)
      requires g in db.groups
      modifies db`groups
      ensures db.groups == old(db.groups)[g := Payment.RestoreRefund(old(db.groups[g]), i, user)]
    {
      PaymentsServices.Untouched(db.View(), g);
      if Payment.RefundIs(db.groups[g], i, user, RefundStatus.REFUND_PENDING) {
        UpdateRefund(g, i, user, REQUESTED);
      }
    }

    /**
     * After a gateway success the refund is recorded, and the round recovered if it was the last; the schema refuses a
     * completion before the request.
     */
    method FinishRefund(g: GroupId, i: nat, user: UserId, completedAt: int) returns (finished: Result<bool>)
      requires g in db.groups
      modifies db
      ensures if Payment.TooEarly(old(db.groups[g]), i, user, completedAt)
              then finished == Err(CHECK_VIOLATION) && db.View() == old(db.View())
              else match Payment.FinishRefund(old(db.groups[g]), i, user)
              case Err(thrown) => finished == Err(thrown) && db.View() == old(db.View())
              case Ok(after) =>
                && finished == Ok(Payment.RefundIs(old(db.groups[g]), i, user, RefundStatus.REFUND_PENDING))
                && db.demands == old(db.demands) && db.groups == old(db.groups)[g := after]
    {
      hide Payment.RecoverRound;
      var before := Formation.Book(db.demands, db.groups);
      PaymentsServices.Untouched(before, g);
      if !Payment.RefundIs(db.groups[g], i, user, RefundStatus.REFUND_PENDING) {
        return Ok(false);
      }
      if completedAt < db.groups[g].rounds[i].orders[user].refund.value.requestedAt {
        return Err(CHECK_VIOLATION);
      }
      UpdateRefund(g, i, user, RefundStatus.REFUNDED);
      var round := db.groups[g].rounds[i];
      if round.orders[user].status.REFUND_PENDING? {
        db.UpdateRound(g, i,
                       round.(orders := round.orders[user := round.orders[user].(status := OrderStatus.REFUNDED)]));
      }
      assert db.groups[g] == Payment.CloseRefund(before.groups[g], i, user);
      var error := RecoverRoundIfRefunded(g, i);
      if error.Some? {
        db.Rollback(before);
        return Err(error.value);
      }
      assert db.groups == before.groups[g := db.groups[g]];
      return Ok(true);
    }

    method RecoverRoundIfRefunded(g: GroupId, i: nat) returns (error: Option<Error>)
      requires g in db.groups && i < |db.groups[g].rounds|
      modifies db`groups
      ensures match Payment.RecoverRound(old(db.groups[g]), i)
              case Err(thrown) => error == Some(thrown) && db.groups == old(db.groups)
              case Ok(after) => error.None? && db.groups == old(db.groups)[g := after]
    {
      hide Restatus, Standing;
      PaymentsServices.Untouched(db.View(), g);
      ghost var before := db.groups;
      var group := db.groups[g];
      var round := group.rounds[i];
      if !round.state.REFUNDING? || !group.state.REFUNDING? {
        return None;
      }
      if Payment.SomeOrder(round, OrderStatus.REFUND_PENDING) {
        return None;
      }
      if Payment.SomeOrder(round, REFUND_FAILED) {
        MarkRoundForManualReview(g, i);
        return None;
      }
      if Payment.SomeOrder(round, OrderStatus.PAID) {
        return None;
      }
      var remaining := Payment.Payers(group.members);
      var occupiedSeats := SumSeats(remaining);
      if occupiedSeats > 4 {
        return Some(INTERNAL_ERROR);
      }
      var recovered := if |remaining| == 0 then GroupState.EXPIRED else if |remaining| == 1 then GroupState.RECRUITING
        else GroupState.READY;
      if |remaining| > 0 {
        db.UpdateMembers(g, MemberStatus.PAID, JOINED);
      } else {
        NobodyPaid(group.members);
      }
      db.UpdateRound(g, i, db.groups[g].rounds[i].(state := INVALIDATED));
      db.UpdateGroup(g, recovered);
      error := None;
      assert db.groups[g] == Payment.Recover(group, i);
      assert db.groups == before[g := db.groups[g]];
    }
  }

  // ----- deadlines and members ---------------------------------------------------------------

  /** The deadline transaction is the timeout step, and it keeps the tables consistent and coupled. */
  lemma DeadlineStep(s: State, g: GroupId, i: nat, now: int, at: int)
    requires Inv(s)
    ensures Inv(Next(s, Step.PaymentTimeout(g, i, now, at)))
    ensures g !in s.book.groups ==> Next(s, Step.PaymentTimeout(g, i, now, at)) == s
    ensures g in s.book.groups ==>
              && Payment.InvalidatePayment(s.book.groups[g], i, now, at).Ok?
              && Next(s, Step.PaymentTimeout(g, i, now, at)) ==
                 s.(book := AfterDeadline(s.book, RoundId(g, i), now, at))
              && (!Payment.PaymentDue(s.book.groups[g], i, now) ==>
                  AfterDeadline(s.book, RoundId(g, i), now, at) == s.book)
    ensures AllCoupled(s.book) ==> AllCoupled(Next(s, Step.PaymentTimeout(g, i, now, at)).book)
  {
    hide BookInv, GroupInv, GatewayInv, RefundedInv, JobsInv, Coupled, Payment.Compensate;
    Safety.StepInv(s, Step.PaymentTimeout(g, i, now, at));
    if g in s.book.groups {
      Safety.GroupOf(s.book, g);
      Memberships.PaymentTimeoutNeverThrows(s.book.groups[g], i, now, at);
      PaymentProofs.InvalidatePaymentSound(s.book.groups[g], i, now, at);
      PaymentsServices.Untouched(s.book, g);
    }
  }

  /** A listed round: late and, if due, one paying round fewer after its transaction. */
  lemma LateRow(s: State, id: RoundId, now: int, written: RoundId -> int)
    requires Inv(s)
    ensures id.group in s.book.groups && Payment.PaymentDue(s.book.groups[id.group], id.index, now) ==>
              && Payment.InvalidatePayment(s.book.groups[id.group], id.index, now, written(id)).Ok?
              && var after := AfterDeadline(s.book, id, now, written(id));
              && id in PayingRounds(s.book) && id in LatePayments(s.book, now)
              && PayingRounds(after) == PayingRounds(s.book) - {id}
              && LatePayments(after, now) == LatePayments(s.book, now) - {id}
              && Compensations(s.book, after, now, written)
    ensures AllCoupled(s.book) && id in LatePayments(s.book, now) ==>
              id.group in s.book.groups && Payment.PaymentDue(s.book.groups[id.group], id.index, now)
  {
    hide BookInv, GatewayInv, RefundedInv, JobsInv, AllCoupled, PayingRounds, Compensations, Payment.PaymentDue,
      Payment.InvalidatePayment;
    if id.group in s.book.groups && Payment.PaymentDue(s.book.groups[id.group], id.index, now) {
      DeadlineMoves(s.book, id, now, written(id));
      DeadlineCompensates(s.book, id, now, written);
    }
    if AllCoupled(s.book) && id in LatePayments(s.book, now) {
      CoupledLate(s.book, id, now);
    }
  }

  lemma FewerPaying(before: Book, after: Book, now: int, written: RoundId -> int)
    requires Compensations(before, after, now, written)
    ensures |PayingRounds(before) - PayingRounds(after)| == |PayingRounds(before)| - |PayingRounds(after)|
  {
    hide PayingRounds;
  }

  /** remaining.reduce over the seat counts, in whatever order the rows come. */
  method SumSeats(roster: map<DemandId, Seat>) returns (total: int)
    ensures total == SeatSum(roster)
  {
    total := 0;
    var rest := roster;
    while rest != map[]
      invariant total + SeatSum(rest) == SeatSum(roster)
      decreases |rest.Keys|
    {
      var d :| d in rest;
      SeatSumWithout(rest, d);
      total := total + rest[d].seats;
      assert (rest - {d}).Keys == rest.Keys - {d};
      rest := rest - {d};
    }
  }

  lemma NobodyPaid(members: map<DemandId, Member>)
    requires |Payment.Payers(members)| == 0
    ensures Restatus(members, MemberStatus.PAID, JOINED) == members
  {
    forall d | d in members ensures members[d].status != MemberStatus.PAID {
      assert Payment.Payers(members) == map[];
      assert d !in Payment.Payers(members);
    }
  }
}
