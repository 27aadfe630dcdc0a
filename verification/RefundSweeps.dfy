/** What one sweep over late payments and requested refunds does, and exactly when it throws. */
module RefundSweeps {
  import opened Wrappers
  import opened Tables
  import opened Runs
  import opened Invariants
  import opened PaymentDeadlines
  import opened RefundSettlement
  import opened FormationTimeout
  import Liveness
  import Safety

  datatype SweepCounts = SweepCounts(roundsInvalidated: nat, refundsSettled: nat)

  // ----- the listed refunds ------------------------------------------------------------------

  /** A list of distinct requested refunds. */
  predicate Requested(book: Book, list: seq<OrderKey>) {
    DistinctList(list) && forall k :: 0 <= k < |list| ==> RefundRow(book, list[k]) && RefundAt(book, list[k], REQUESTED)
  }

  /**
   * The listed refunds up to the first that is paid back too early to be recorded: those for which the gateway is up
   * were paid back and recorded, and that one is stuck.
   */
  ghost predicate ListSettled(before: State, after: State, list: seq<OrderKey>, now: int, up: set<OrderKey>,
                              settled: Result<nat>)
    requires Requested(before.book, list)
  {
    var k := Stop(before.book, list, now, up);
    && settled == (if k == |list| then Ok(|Chosen(list, up)|) else Err(CHECK_VIOLATION))
    && Ledger(before, after, Chosen(list[..k], up), StuckAt(list, k))
    && forall key :: key in StuckAt(list, k) ==> Liveness.Orphaned(after, key)
  }

  function Chosen(list: seq<OrderKey>, up: set<OrderKey>): set<OrderKey> {
    set key | key in list && key in up
  }

  lemma NoneChosen(up: set<OrderKey>)
    ensures Chosen([], up) == {}
  {
  }

  lemma ChosenNext(list: seq<OrderKey>, k: nat, up: set<OrderKey>)
    requires k < |list| && DistinctList(list)
    ensures list[k] !in Chosen(list[..k], up)
    ensures Chosen(list[..k + 1], up) == Chosen(list[..k], up) + if list[k] in up then {list[k]} else {}
  {
    assert list[..k + 1] == list[..k] + [list[k]];
  }

  /** Where the second loop ends: the first refund that the gateway pays and that was requested after now. */
  function Stop(book: Book, list: seq<OrderKey>, now: int, up: set<OrderKey>): (k: nat)
    requires Requested(book, list)
    ensures k <= |list|
    ensures forall j :: 0 <= j < k && list[j] in up ==> RequestedAt(book, list[j]) <= now
    ensures k < |list| ==> list[k] in up && now < RequestedAt(book, list[k])
  {
    if list == [] || (list[0] in up && now < RequestedAt(book, list[0])) then 0
    else 1 + Stop(book, list[1..], now, up)
  }

  lemma StopIs(book: Book, list: seq<OrderKey>, now: int, up: set<OrderKey>, k: nat)
    requires k <= |list| && Requested(book, list)
    requires forall j :: 0 <= j < k && list[j] in up ==> RequestedAt(book, list[j]) <= now
    requires k < |list| ==> list[k] in up && now < RequestedAt(book, list[k])
    ensures Stop(book, list, now, up) == k
  {
    hide Stop, RefundRow;
  }

  function StuckAt(list: seq<OrderKey>, k: nat): set<OrderKey> {
    if k < |list| then {list[k]} else {}
  }

  /** A refund not yet reached is as it was. */
  lemma StillRequested(before: State, s: State, list: seq<OrderKey>, k: nat, up: set<OrderKey>)
    requires k < |list| && Ledger(before, s, Chosen(list[..k], up), {})
    requires RefundRow(before.book, list[k])
    ensures RefundRow(s.book, list[k]) && RequestedAt(s.book, list[k]) == RequestedAt(before.book, list[k])
  {
    hide Refunds, PayingRounds, Chosen;
  }

  lemma LaterRequested(s: State, t: State, list: seq<OrderKey>, k: nat, now: int, up: set<OrderKey>)
    requires k < |list| && DistinctList(list) && RefundRow(s.book, list[k])
    requires forall j :: k <= j < |list| ==> RefundAt(s.book, list[j], REQUESTED)
    requires Ledger(s, t, if list[k] in up && !(now < RequestedAt(s.book, list[k])) then {list[k]} else {},
                    if list[k] in up && now < RequestedAt(s.book, list[k]) then {list[k]} else {})
    ensures forall j :: k < j < |list| ==> RefundAt(t.book, list[j], REQUESTED)
  {
    hide Refunds, PayingRounds, RefundRow;
    RefundsAre(s.book, REQUESTED);
    RefundsAre(t.book, REQUESTED);
    forall j | k < j < |list| ensures RefundAt(t.book, list[j], REQUESTED) {
      assert list[j] != list[k];
      assert list[j] in Refunds(s.book, REQUESTED);
    }
  }

  /** Listed refunds in the order of their request, and others that were requested no earlier. */
  ghost predicate EarlierFirst(book: Book, list: seq<OrderKey>, rest: set<OrderKey>) {
    && Requested(book, list)
    && (forall key :: key in rest ==> RefundRow(book, key) && RefundAt(book, key, REQUESTED) && key !in list)
    && (forall j, k :: 0 <= j < k < |list| ==> RequestedAt(book, list[j]) <= RequestedAt(book, list[k]))
    && (forall k, key :: 0 <= k < |list| && key in rest ==> RequestedAt(book, list[k]) <= RequestedAt(book, key))
  }

  lemma NoneListed(book: Book, due: set<OrderKey>)
    requires due == Refunds(book, REQUESTED)
    ensures EarlierFirst(book, [], due)
  {
    hide Refunds;
    RefundsAre(book, REQUESTED);
  }

  lemma OneMore(book: Book, list: seq<OrderKey>, rest: set<OrderKey>)
    requires EarlierFirst(book, list, rest)
    ensures forall key :: key in rest ==> RefundRow(book, key)
  {
    hide RefundRow, RefundAt;
  }

  lemma NextListed(book: Book, list: seq<OrderKey>, rest: set<OrderKey>, first: OrderKey)
    requires EarlierFirst(book, list, rest) && first in rest && (forall key :: key in rest ==> RefundRow(book, key))
    requires forall key :: key in rest ==> RequestedAt(book, first) <= RequestedAt(book, key)
    ensures EarlierFirst(book, list + [first], rest - {first})
  {
    hide RefundRow, RefundAt;
  }

  lemma AllListed(book: Book, list: seq<OrderKey>, rest: set<OrderKey>)
    requires EarlierFirst(book, list, rest) && rest <= Refunds(book, REQUESTED)
    requires |rest| == |Refunds(book, REQUESTED)| - |list| && |list| <= SWEEP_LIMIT
    requires rest == {} || |list| == SWEEP_LIMIT
    requires forall key :: key in Refunds(book, REQUESTED) ==> key in rest || key in list
    ensures Earliest(book, list)
  {
    hide RefundRow, RefundAt, Refunds;
    RefundsAre(book, REQUESTED);
    forall k, key | 0 <= k < |list| && RefundAt(book, key, REQUESTED) && key !in list
      ensures RequestedAt(book, list[k]) <= RequestedAt(book, key)
    {
      assert key in rest;
    }
  }

  /** Up to fifty requested refunds, in the order of their request, and no other requested earlier. */
  ghost predicate Earliest(book: Book, list: seq<OrderKey>) {
    && Requested(book, list) && |list| == Least(50, |Refunds(book, REQUESTED)|)
    && (forall j, k :: 0 <= j < k < |list| ==> RequestedAt(book, list[j]) <= RequestedAt(book, list[k]))
    && (forall k, key :: 0 <= k < |list| && RefundRow(book, key) && RefundAt(book, key, REQUESTED) && key !in list ==>
          RequestedAt(book, list[k]) <= RequestedAt(book, key))
    && (|Refunds(book, REQUESTED)| <= 50 ==> forall key :: RefundAt(book, key, REQUESTED) ==> key in list)
  }

  lemma Listing(book: Book, list: seq<OrderKey>)
    requires Earliest(book, list)
    ensures Requested(book, list)
  {
    hide Requested;
  }

  // ----- the sweep ---------------------------------------------------------------------------

  /**
   * What one sweep did: late rounds were compensated, refunds were paid back and recorded, and at most one, requested
   * after the sweep began, was paid back and got stuck.
   */
  ghost predicate SweepDid(before: State, after: State, now: int, written: RoundId -> int, up: set<OrderKey>,
                           late: set<RoundId>, paid: set<OrderKey>, stuck: set<OrderKey>, result: Result<SweepCounts>) {
    && Expired(before.book, after.book, now, late) && RequestTimes(before.book, after.book, written)
    && Accounted(before, after, late, paid, stuck) && InTime(after, now, up, paid, stuck)
    && result == (if stuck == {} then Ok(SweepCounts(|late|, |paid|)) else Err(CHECK_VIOLATION))
    && LeftRequested(after.book, now, up, paid, stuck)
  }

  /** Late rounds, fifty at most, were taken out of PAYING. */
  ghost predicate Expired(before: Book, after: Book, now: int, late: set<RoundId>) {
    && late == PayingRounds(before) - PayingRounds(after) && late <= LatePayments(before, now)
    && PayingRounds(after) <= PayingRounds(before) && |late| <= 50
  }

  /**
   * Each refund requested before or for a paid order of these rounds is requested, or paid back once and so recorded or
   * not.
   */
  ghost predicate Accounted(before: State, after: State, late: set<RoundId>, paid: set<OrderKey>,
                            stuck: set<OrderKey>) {
    var requested := Refunds(after.book, REQUESTED);
    && (forall key :: key in requested + paid + stuck <==>
          RefundAt(before.book, key, REQUESTED) || (PaidIn(before.book, key) && RoundOf(key) in late))
    && requested !! paid + stuck
    && Refunds(after.book, RefundStatus.REFUNDED) == Refunds(before.book, RefundStatus.REFUNDED) + paid
    && Refunds(after.book, RefundStatus.REFUND_PENDING) == Refunds(before.book, RefundStatus.REFUND_PENDING) + stuck
    && after.gateway == before.gateway + Once(paid + stuck)
  }

  /** What was recorded was requested in time; at most one refund, requested too late, is stuck. */
  ghost predicate InTime(after: State, now: int, up: set<OrderKey>, paid: set<OrderKey>, stuck: set<OrderKey>) {
    && paid + stuck <= up && |paid| + |stuck| <= 50 && |stuck| <= 1
    && (forall key :: key in paid ==> RefundRow(after.book, key) && RequestedAt(after.book, key) <= now)
    && (forall key :: key in stuck ==>
          RefundRow(after.book, key) && now < RequestedAt(after.book, key) && Liveness.Orphaned(after, key))
  }

  /**
   * If nothing got stuck and all were listed, none that the gateway would pay is left, otherwise none requested in
   * time.
   */
  ghost predicate LeftRequested(after: Book, now: int, up: set<OrderKey>, paid: set<OrderKey>, stuck: set<OrderKey>) {
    var requested := Refunds(after, REQUESTED);
    && (stuck == {} && |requested| + |paid| <= 50 ==> requested !! up)
    && (stuck != {} ==> forall key :: key in requested && key in up ==>
                          RefundRow(after, key) && now < RequestedAt(after, key))
  }

  /** An older refund keeps the time of its request; one that was not there before was requested when it was written. */
  ghost predicate RequestTimes(before: Book, after: Book, written: RoundId -> int) {
    forall key {:trigger RefundRow(after, key)} {:trigger RefundRow(before, key)} ::
      && (RefundRow(before, key) ==> RefundRow(after, key))
      && (RefundRow(after, key) ==>
            RequestedAt(after, key) ==
            if RefundRow(before, key) then RequestedAt(before, key) else written(RoundOf(key)))
  }

  /** The first loop requests refunds and touches no other refund. */
  lemma FirstLoop(before: Book, middle: Book, now: int, written: RoundId -> int)
    requires Compensations(before, middle, now, written)
    ensures RequestTimes(before, middle, written)
    ensures forall status: RefundStatus :: !status.REQUESTED? ==> Refunds(middle, status) == Refunds(before, status)
    ensures forall key :: key in Refunds(middle, REQUESTED) <==>
              RefundAt(before, key, REQUESTED) ||
              (PaidIn(before, key) && RoundOf(key) in PayingRounds(before) - PayingRounds(middle))
  {
    hide Refunds, PayingRounds, LatePayments, PaidIn, RefundRow;
    RefundsAre(middle, REQUESTED);
    forall key | RefundRow(before, key) ensures RequestedAt(middle, key) == RequestedAt(before, key)
                                        ensures forall st :: RefundAt(middle, key, st) <==> RefundAt(before, key, st) {
      SameRow(before, middle, key);
    }
    forall status: RefundStatus | !status.REQUESTED? ensures Refunds(middle, status) == Refunds(before, status) {
      RefundsAre(middle, status);
      RefundsAre(before, status);
    }
  }

  lemma FewChosen(list: seq<OrderKey>, k: nat, up: set<OrderKey>)
    requires k <= |list| && DistinctList(list)
    ensures |Chosen(list[..k], up)| <= k
  {
    if k == 0 {
      NoneChosen(up);
    } else {
      FewChosen(list, k - 1, up);
      ChosenNext(list, k - 1, up);
    }
  }

  /** What the second loop leaves requested. */
  lemma NotReached(book: Book, list: seq<OrderKey>, now: int, up: set<OrderKey>, key: OrderKey)
    requires Earliest(book, list) && RefundAt(book, key, REQUESTED) && key in up
    requires Requested(book, list)
    requires var k := Stop(book, list, now, up); key !in Chosen(list[..k], up) + StuckAt(list, k)
    ensures key in list ==> Stop(book, list, now, up) < |list|
    ensures Stop(book, list, now, up) < |list| ==> now < RequestedAt(book, key)
  {
    hide Stop, Refunds, RefundRow;
    var k := Stop(book, list, now, up);
    if key in list {
      assert forall j :: 0 <= j < k ==> list[j] in list[..k];
      var j :| 0 <= j < |list| && list[j] == key;
    }
  }

  /** The refunds reached by the second loop, before it. */
  lemma Reached(book: Book, list: seq<OrderKey>, now: int, up: set<OrderKey>)
    requires Requested(book, list) && |list| <= SWEEP_LIMIT
    ensures var k := Stop(book, list, now, up);
            var paid, stuck := Chosen(list[..k], up), StuckAt(list, k);
            && paid + stuck <= up && |paid| + |stuck| <= SWEEP_LIMIT && |stuck| <= 1
            && paid + stuck <= Refunds(book, REQUESTED) && (stuck == {} <==> k == |list|)
            && (forall key :: key in paid ==> RefundRow(book, key) && RequestedAt(book, key) <= now)
            && (forall key :: key in stuck ==> RefundRow(book, key) && now < RequestedAt(book, key))
  {
    hide Refunds, RefundRow, RefundAt, RequestedAt, Stop;
    var k := Stop(book, list, now, up);
    FewChosen(list, k, up);
    RefundsAre(book, REQUESTED);
  }

  lemma SecondLoop(middle: State, after: State, list: seq<OrderKey>, now: int, up: set<OrderKey>, settled: Result<nat>)
    requires Earliest(middle.book, list) && Requested(middle.book, list)
    requires ListSettled(middle, after, list, now, up, settled)
    ensures var k := Stop(middle.book, list, now, up);
            var paid, stuck := Chosen(list[..k], up), StuckAt(list, k);
            && InTime(after, now, up, paid, stuck)
            && settled == (if stuck == {} then Ok(|paid|) else Err(CHECK_VIOLATION))
            && paid + stuck <= Refunds(middle.book, REQUESTED)
  {
    hide Refunds, RefundRow, RefundAt, RequestedAt, Liveness.Orphaned, Stop, Ledger, Earliest, Requested, Chosen,
      StuckAt, TimesKept;
    ShortList(middle.book, list);
    Reached(middle.book, list, now, up);
    LedgerTimes(middle, after, Chosen(list[..Stop(middle.book, list, now, up)], up),
                StuckAt(list, Stop(middle.book, list, now, up)));
    assert list[..|list|] == list;
  }

  lemma LedgerTimes(before: State, after: State, paid: set<OrderKey>, stuck: set<OrderKey>)
    requires Ledger(before, after, paid, stuck)
    ensures forall key :: RefundRow(before.book, key) ==>
              RefundRow(after.book, key) && RequestedAt(after.book, key) == RequestedAt(before.book, key)
  {
    hide Refunds, PayingRounds, RefundRow;
  }

  lemma ShortList(book: Book, list: seq<OrderKey>)
    requires Earliest(book, list)
    ensures |list| == Least(SWEEP_LIMIT, |Refunds(book, REQUESTED)|)
  {
    hide Refunds, RefundAt, RefundRow;
  }

  lemma AfterSecond(middle: State, after: State, list: seq<OrderKey>, now: int, up: set<OrderKey>)
    requires Earliest(middle.book, list) && Requested(middle.book, list)
    requires var k := Stop(middle.book, list, now, up); Ledger(middle, after, Chosen(list[..k], up), StuckAt(list, k))
    requires var k := Stop(middle.book, list, now, up);
             Chosen(list[..k], up) + StuckAt(list, k) <= Refunds(middle.book, REQUESTED)
    ensures var k := Stop(middle.book, list, now, up);
            LeftRequested(after.book, now, up, Chosen(list[..k], up), StuckAt(list, k))
  {
    hide Refunds, PayingRounds, RefundRow, RefundAt, Stop, Once, Earliest, Chosen;
    var k := Stop(middle.book, list, now, up);
    var requested := Refunds(after.book, REQUESTED);
    RefundsAre(middle.book, REQUESTED);
    forall key | key in requested && key in up
      ensures RefundRow(middle.book, key)
      ensures key in list ==> k < |list|
      ensures k < |list| ==> now < RequestedAt(middle.book, key)
    {
      HasRow(middle.book, key);
      NotReached(middle.book, list, now, up, key);
    }
    if StuckAt(list, k) == {} && |requested| + |Chosen(list[..k], up)| <= SWEEP_LIMIT {
      assert Refunds(middle.book, REQUESTED) == requested + Chosen(list[..k], up);
      AllIn(middle.book, list);
    }
  }

  lemma HasRow(book: Book, key: OrderKey)
    requires RefundAt(book, key, REQUESTED)
    ensures RefundRow(book, key)
  {
  }

  lemma AllIn(book: Book, list: seq<OrderKey>)
    requires Earliest(book, list) && |Refunds(book, REQUESTED)| <= SWEEP_LIMIT
    ensures forall key :: RefundAt(book, key, REQUESTED) ==> key in list
  {
    hide Refunds, RefundAt, RefundRow;
  }

  lemma SweepSays(before: State, middle: State, after: State, now: int, written: RoundId -> int, up: set<OrderKey>,
                  list: seq<OrderKey>, settled: Result<nat>, result: Result<SweepCounts>)
    requires Compensations(before.book, middle.book, now, written) && middle.gateway == before.gateway
    requires |PayingRounds(before.book) - PayingRounds(middle.book)| <= SWEEP_LIMIT && Earliest(middle.book, list)
    requires Requested(middle.book, list) && ListSettled(middle, after, list, now, up, settled)
    requires result == match settled
                       case Ok(count) => Ok(SweepCounts(|PayingRounds(before.book) - PayingRounds(middle.book)|, count))
                       case Err(error) => Err(error)
    ensures var k := Stop(middle.book, list, now, up);
            SweepDid(before, after, now, written, up, PayingRounds(before.book) - PayingRounds(after.book),
                     Chosen(list[..k], up), StuckAt(list, k), result)
    ensures PayingRounds(after.book) == PayingRounds(middle.book)
  {
    hide Refunds, PayingRounds, LatePayments, PaidIn, RefundRow, RefundAt, Liveness.Orphaned, Stop, Once, Chosen,
      StuckAt, InTime, LeftRequested, Earliest, Requested, Compensations;
    FirstLoop(before.book, middle.book, now, written);
    FewerLate(before.book, middle.book, now, written);
    SecondLoop(middle, after, list, now, up, settled);
    AfterSecond(middle, after, list, now, up);
  }

  lemma FewerLate(before: Book, after: Book, now: int, written: RoundId -> int)
    requires Compensations(before, after, now, written)
    ensures PayingRounds(after) <= PayingRounds(before)
    ensures PayingRounds(before) - PayingRounds(after) <= LatePayments(before, now)
  {
    hide PayingRounds, LatePayments, RefundRow, PaidIn;
  }

  /**
   * When a sweep throws, if it listed every requested refund: exactly when the gateway is up for an order whose refund
   * was requested after the sweep began, by another worker or by the sweep itself.
   */
  lemma SweepThrows(before: State, after: State, now: int, written: RoundId -> int, up: set<OrderKey>,
                    late: set<RoundId>, paid: set<OrderKey>, stuck: set<OrderKey>, result: Result<SweepCounts>)
    requires SweepDid(before, after, now, written, up, late, paid, stuck, result)
    requires Inv(before) && |Refunds(after.book, REQUESTED)| + |paid| <= 50
    ensures result.Err? <==> exists key :: key in up && RequestedLater(before.book, key, now, written, late)
  {
    hide Inv, Refunds, PaidIn, RefundRow, RefundAt, RequestedAt, Liveness.Orphaned, Once, Expired, RequestTimes,
      RequestedLater;
    forall key | key in paid + stuck
      ensures RequestedLater(before.book, key, now, written, late) <==> now < RequestedAt(after.book, key)
    {
      LaterIs(before, after, now, written, late, key);
    }
    if stuck != {} {
      var key :| key in stuck;
      assert RequestedLater(before.book, key, now, written, late);
    }
    forall key | key in up && RequestedLater(before.book, key, now, written, late) ensures stuck != {} {
      LaterCounts(before.book, now, written, late, key);
      assert key in Refunds(after.book, REQUESTED) + paid + stuck;
    }
  }

  lemma LaterCounts(book: Book, now: int, written: RoundId -> int, late: set<RoundId>, key: OrderKey)
    requires RequestedLater(book, key, now, written, late)
    ensures RefundAt(book, key, REQUESTED) || (PaidIn(book, key) && RoundOf(key) in late)
  {
  }

  lemma LaterIs(before: State, after: State, now: int, written: RoundId -> int, late: set<RoundId>, key: OrderKey)
    requires Inv(before) && RequestTimes(before.book, after.book, written) && RefundRow(after.book, key)
    requires RefundAt(before.book, key, REQUESTED) || (PaidIn(before.book, key) && RoundOf(key) in late)
    ensures RequestedLater(before.book, key, now, written, late) <==> now < RequestedAt(after.book, key)
  {
    hide Inv, PaidIn, RefundRow, RequestedAt;
    if RefundAt(before.book, key, REQUESTED) {
      HasRow(before.book, key);
    } else {
      PaidHasNoRefund(before, key);
    }
  }

  lemma PaidHasNoRefund(s: State, key: OrderKey)
    requires Inv(s) && PaidIn(s.book, key)
    ensures !RefundRow(s.book, key)
  {
    hide GatewayInv, RefundedInv, JobsInv, StateInv, Fits;
    Safety.GroupOf(s.book, key.group);
    assert RoundInv(s.book.groups[key.group].rounds[key.round]);
  }

  ghost predicate RequestedLater(book: Book, key: OrderKey, now: int, written: RoundId -> int, late: set<RoundId>) {
    if RefundAt(book, key, REQUESTED) then now < RequestedAt(book, key)
    else PaidIn(book, key) && RoundOf(key) in late && now < written(RoundOf(key))
  }
}
