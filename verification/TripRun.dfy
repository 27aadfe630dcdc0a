/** Two users meet and confirm; one of them pays, or neither does; the payment deadline passes. */
module TripRun {
  import opened Wrappers
  import opened Tables
  import opened Runs
  import opened Uncoupling
  import Formation
  import Payment

  const LATE: int := 300000

  /** Two users meet in group 1 and confirm its first round. */
  const CONFIRMATIONS: seq<Step> := [
    Creates(1), Creates(2), JoinGroup(2, 1, 2, NOW), StartFormation(1, 1, Some(7), NOW),
    ConfirmFormation(1, 1, 0, Formation.Consent(7), NOW), ConfirmFormation(2, 1, 0, Formation.Consent(7), NOW)
  ]

  /** Nobody pays in time. */
  const UNPAID: seq<Step> := CONFIRMATIONS + [PaymentTimeout(1, 0, LATE, LATE + 1)]

  /** User 1 pays, user 2 does not; the sweep that began at LATE writes the refund a millisecond later. */
  const HALF_PAID: seq<Step> := CONFIRMATIONS + [
    Step.CreateOrder(1, 1, 0, NOW), Step.CreatePrepay(1, 1, 0, 0), CompletePayment(1, 1, 0, true, NOW),
    PaymentTimeout(1, 0, LATE, LATE + 1)
  ]

  const SEATS: map<DemandId, Seat> := map[1 := Seat(1, 1), 2 := Seat(2, 1)]

  // ----- the states --------------------------------------------------------------------------

  function Members(first: MemberStatus, second: MemberStatus): map<DemandId, Member> {
    map[1 := Row(1, first), 2 := Row(2, second)]
  }

  function FirstRound(state: RoundState, payBy: Option<int>, accepted: map<UserId, Decision>, revoked: bool,
                      orders: map<UserId, Order>): Round {
    Round(SEATS, 7, state, LATE, payBy, accepted, map u | u in accepted :: Tables.Consent(7, revoked), orders, {})
  }

  const BOTH: map<UserId, Decision> := map[1 := ACCEPT, 2 := ACCEPT]

  function Charged(status: OrderStatus, intent: bool, settled: bool, refund: Option<Refund>): map<UserId, Order> {
    map[1 := Order(99, LATE, status, intent, settled, refund)]
  }

  /** The order of user 1 while its refund is on the way. */
  function ToRefund(status: RefundStatus): map<UserId, Order> {
    Charged(OrderStatus.REFUND_PENDING, true, true, Some(Refund(99, status, LATE + 1)))
  }

  const G3 := Trip(GroupState.READY, Members(JOINED, JOINED), [])
  const G4 := Trip(GroupState.CONFIRMING, Members(JOINED, JOINED),
                   [FirstRound(RoundState.CONFIRMING, None, map[], false, map[])])
  const G5 := Trip(GroupState.CONFIRMING, Members(CONFIRMED, JOINED),
                   [FirstRound(RoundState.CONFIRMING, None, map[1 := ACCEPT], false, map[])])

  /** The group while it pays, with the orders there are. */
  function Due(first: MemberStatus, orders: map<UserId, Order>): Group {
    Trip(GroupState.PAYING, Members(first, PAYMENT_PENDING),
         [FirstRound(RoundState.PAYING, Some(LATE), BOTH, false, orders)])
  }

  /** The group after its compensation. */
  function Compensated(first: MemberStatus, orders: map<UserId, Order>): Group {
    Trip(GroupState.REFUNDING, Members(first, PAYMENT_TIMEOUT),
         [FirstRound(RoundState.REFUNDING, Some(LATE), BOTH, true, orders)])
  }

  const DEMANDS: Formation.Demands := map[1 := Wish(1, GROUPED, 1), 2 := Wish(2, GROUPED, 1)]

  function Paired(demands: Formation.Demands, group: Group): State {
    At(demands, map[1 := group, 2 := VACATED])
  }

  // ----- each request ------------------------------------------------------------------------

  lemma Changed(demands: Formation.Demands, before: Group, step: Step, after: Group, released: set<DemandId>,
                to: Formation.Demands)
    requires IsLocal(step) && step.g == 1 && !step.GroupExpiry?
    requires LocalChange(Paired(demands, before), step) == Ok(Formation.Change(after, released))
    requires Formation.SetDemands(demands, released, OPEN) == to
    ensures Next(Paired(demands, before), step) == Paired(to, after)
  {
    hide Next, LocalChange, Formation.SetDemands;
    Committed(Paired(demands, before), step, Formation.Change(after, released));
    assert Paired(demands, before).book.groups[1 := after] == Paired(to, after).book.groups;
  }

  lemma Unreleased(demands: Formation.Demands)
    ensures Formation.SetDemands(demands, {}, OPEN) == demands
  {
  }

  lemma SeatUsers()
    ensures Users(SEATS) == {1, 2}
  {
    assert SEATS[1].user == 1 && SEATS[2].user == 2;
  }

  lemma SeatFacts()
    ensures Users(SEATS) == {1, 2} && Fits(SEATS) && |SEATS| == 2
    ensures Formation.RowOf(SEATS, 1) == 1 && Formation.RowOf(SEATS, 2) == 2
  {
    hide Fits, Users;
    SeatUsers();
    TwoFit(SEATS, 1, 2);
  }

  lemma PairRoster(first: MemberStatus, second: MemberStatus)
    requires Active(first) && Active(second)
    ensures Roster(Members(first, second)) == SEATS && Users(SEATS) == {1, 2} && Fits(SEATS) && |SEATS| == 2
    ensures Formation.RowOf(SEATS, 1) == 1 && Formation.RowOf(SEATS, 2) == 2
  {
    hide Fits, Users, Formation.RowOf;
    SeatFacts();
    assert Roster(Members(first, second)) == SEATS;
  }

  lemma Started()
    ensures Formation.StartFormation(G3, 1, Some(7), true, NOW) == Ok(Formation.Change(G4, {}))
  {
    hide Fits, Formation.StartFormation, Roster, Users;
    PairRoster(JOINED, JOINED);
    Starts(G3, 1);
    assert G4.rounds[0].consents == map[];
  }

  lemma FirstConfirms()
    ensures Formation.ConfirmFormation(G4, 0, 1, Formation.Consent(7), NOW) == Ok(Formation.Change(G5, {}))
  {
    hide Fits, Formation.RowOf;
    PairRoster(JOINED, JOINED);
    var round := G4.rounds[0];
    var accepted := round.(decisions := round.decisions[1 := ACCEPT],
                           consents := round.consents[1 := Tables.Consent(7, false)]);
    assert accepted == G5.rounds[0];
    assert Accepted(accepted) == {1};
    assert G4.members[1 := Row(1, CONFIRMED)] == G5.members;
    assert G4.rounds[0 := accepted] == G5.rounds;
  }

  lemma SecondConfirms()
    ensures Formation.ConfirmFormation(G5, 0, 2, Formation.Consent(7), NOW) ==
            Ok(Formation.Change(Due(PAYMENT_PENDING, map[]), {}))
  {
    hide Fits, Formation.RowOf;
    PairRoster(CONFIRMED, JOINED);
    var after := Due(PAYMENT_PENDING, map[]);
    var round := G5.rounds[0];
    var accepted := round.(decisions := round.decisions[2 := ACCEPT],
                           consents := round.consents[2 := Tables.Consent(7, false)]);
    assert accepted.(state := RoundState.PAYING, payBy := Some(LATE)) == after.rounds[0];
    assert Accepted(accepted) == {1, 2};
    assert Restatus(G5.members[2 := Row(2, CONFIRMED)], CONFIRMED, PAYMENT_PENDING) == after.members;
    assert G5.rounds[0 := after.rounds[0]] == after.rounds;
  }

  lemma Ordered()
    ensures Payment.CreateOrder(Due(PAYMENT_PENDING, map[]), 0, 1, NOW) ==
            Ok(Formation.Change(Due(PAYMENT_PENDING, Charged(CREATED, false, false, None)), {}))
  {
    var group := Due(PAYMENT_PENDING, map[]);
    assert Standing(group.members, PAYMENT_PENDING)[1].user == 1;
    var after := Due(PAYMENT_PENDING, Charged(CREATED, false, false, None));
    assert group.rounds[0 := after.rounds[0]] == after.rounds;
  }

  lemma Prepaid()
    ensures Payment.CreatePrepay(Due(PAYMENT_PENDING, Charged(CREATED, false, false, None)), 0, 1, 0) ==
            Ok(Formation.Change(Due(PAYMENT_PENDING, Charged(OrderStatus.PAYING, true, false, None)), {}))
  {
    var group := Due(PAYMENT_PENDING, Charged(CREATED, false, false, None));
    var after := Due(PAYMENT_PENDING, Charged(OrderStatus.PAYING, true, false, None));
    assert group.rounds[0].orders[1 := after.rounds[0].orders[1]] == after.rounds[0].orders;
    assert group.rounds[0 := after.rounds[0]] == after.rounds;
  }

  lemma Paid()
    ensures Payment.CompletePayment(Due(PAYMENT_PENDING, Charged(OrderStatus.PAYING, true, false, None)), 0, 1, true,
                                    NOW) ==
            Ok(Formation.Change(Due(MemberStatus.PAID, Charged(OrderStatus.PAID, true, true, None)), {}))
  {
    hide Payment.Deliverable, Payment.Compensate;
    var group := Due(PAYMENT_PENDING, Charged(OrderStatus.PAYING, true, false, None));
    var after := Due(MemberStatus.PAID, Charged(OrderStatus.PAID, true, true, None));
    assert group.rounds[0].orders[1 := after.rounds[0].orders[1]] == after.rounds[0].orders;
    assert group.rounds[0 := after.rounds[0]] == after.rounds;
    assert Payment.RestatusUser(group.members, 1, PAYMENT_PENDING, MemberStatus.PAID) == after.members;
    assert 2 in Payment.Debtors(after.members);
  }

  /** The deadline passes: pending members are timed out, and a paid order is to be refunded. */
  lemma TimedOut(first: MemberStatus, orders: map<UserId, Order>, late: MemberStatus,
                 closed: map<UserId, Order>, released: set<DemandId>)
    requires if first == MemberStatus.PAID then late == first && released == {2}
             else first == PAYMENT_PENDING && late == PAYMENT_TIMEOUT && released == {1, 2}
    requires forall u :: u in orders ==> orders[u].amountFen == 99
    requires Payment.CompensatedOrders(orders, LATE + 1) == closed
    ensures Payment.InvalidatePayment(Due(first, orders), 0, LATE, LATE + 1) ==
            Ok(Formation.Change(Compensated(late, closed), released))
  {
    hide Payment.CompensatedOrders;
    var group := Due(first, orders);
    var after := Compensated(late, closed);
    assert RevokeAll(group.rounds[0].consents) == after.rounds[0].consents;
    assert group.rounds[0 := after.rounds[0]] == after.rounds;
    assert Restatus(group.members, PAYMENT_PENDING, PAYMENT_TIMEOUT) == after.members;
    assert Payment.Debtors(group.members).Keys == released;
  }

  lemma ClosedOrders()
    ensures Payment.CompensatedOrders(map[], LATE + 1) == map[]
    ensures Payment.CompensatedOrders(Charged(OrderStatus.PAID, true, true, None), LATE + 1) == ToRefund(REQUESTED)
  {
  }

  // ----- the runs ----------------------------------------------------------------------------

  const FREED: Formation.Demands := map[1 := Wish(1, OPEN, 1), 2 := Wish(2, OPEN, 1)]
  const HALF_FREED: Formation.Demands := map[1 := Wish(1, GROUPED, 1), 2 := Wish(2, OPEN, 1)]

  /** The states the runs pass through. */
  function Confirming(k: nat): State {
    match k
    case 0 => Empty
    case 1 => S1
    case 2 => S2
    case 3 => Paired(DEMANDS, G3)
    case 4 => Paired(DEMANDS, G4)
    case 5 => Paired(DEMANDS, G5)
    case 6 => Paired(DEMANDS, Due(PAYMENT_PENDING, map[]))
    case 7 => Paired(DEMANDS, Due(PAYMENT_PENDING, Charged(CREATED, false, false, None)))
    case 8 => Paired(DEMANDS, Due(PAYMENT_PENDING, Charged(OrderStatus.PAYING, true, false, None)))
    case 9 => Paired(DEMANDS, Due(MemberStatus.PAID, Charged(OrderStatus.PAID, true, true, None)))
    case _ => REQUESTED_STATE
  }

  const REQUESTED_STATE := Paired(HALF_FREED, Compensated(MemberStatus.PAID, ToRefund(REQUESTED)))
  const UNPAID_STATE := Paired(FREED, Compensated(PAYMENT_TIMEOUT, map[]))

  lemma Meeting()
    ensures S3 == Paired(DEMANDS, G3)
  {
  }

  lemma ConfirmingStep(k: nat)
    requires k < 6
    ensures Next(Confirming(k), CONFIRMATIONS[k]) == Confirming(k + 1)
  {
    hide Next, Formation.StartFormation, Formation.ConfirmFormation, Formation.SetDemands, Due;
    Unreleased(DEMANDS);
    Meeting();
    match k
    case 0 => Step1();
    case 1 => Step2();
    case 2 => Step3();
    case 3 =>
      Started();
      StartChanged();
    case 4 =>
      FirstConfirms();
      Changed(DEMANDS, G4, CONFIRMATIONS[4], G5, {}, DEMANDS);
    case _ =>
      SecondConfirms();
      Changed(DEMANDS, G5, CONFIRMATIONS[5], Due(PAYMENT_PENDING, map[]), {}, DEMANDS);
  }

  lemma StartChanged()
    requires Formation.StartFormation(G3, 1, Some(7), true, NOW) == Ok(Formation.Change(G4, {}))
    ensures Next(Paired(DEMANDS, G3), CONFIRMATIONS[3]) == Paired(DEMANDS, G4)
  {
    hide Next, Formation.StartFormation, Formation.SetDemands;
    Unreleased(DEMANDS);
    assert Formation.Compatible(Roster(G3.members), DEMANDS, map[]);
    Changed(DEMANDS, G3, CONFIRMATIONS[3], G4, {}, DEMANDS);
  }

  lemma PayingStep(k: nat)
    requires 6 <= k < 10
    ensures Next(Confirming(k), HALF_PAID[k]) == Confirming(k + 1)
  {
    hide Next, Payment.CreateOrder, Payment.CreatePrepay, Payment.CompletePayment, Payment.InvalidatePayment,
      Formation.SetDemands, Due, Compensated;
    Unreleased(DEMANDS);
    match k
    case 6 =>
      Ordered();
      Changed(DEMANDS, Due(PAYMENT_PENDING, map[]), HALF_PAID[6],
              Due(PAYMENT_PENDING, Charged(CREATED, false, false, None)), {}, DEMANDS);
    case 7 =>
      Prepaid();
      Changed(DEMANDS, Due(PAYMENT_PENDING, Charged(CREATED, false, false, None)), HALF_PAID[7],
              Due(PAYMENT_PENDING, Charged(OrderStatus.PAYING, true, false, None)), {}, DEMANDS);
    case 8 =>
      Paid();
      Changed(DEMANDS, Due(PAYMENT_PENDING, Charged(OrderStatus.PAYING, true, false, None)), HALF_PAID[8],
              Due(MemberStatus.PAID, Charged(OrderStatus.PAID, true, true, None)), {}, DEMANDS);
    case _ =>
      RefundingStep();
  }

  lemma RefundingStep()
    ensures Next(Confirming(9), HALF_PAID[9]) == Confirming(10)
  {
    hide Next, Payment.InvalidatePayment, Formation.SetDemands, Due, Compensated;
    ClosedOrders();
    TimedOut(MemberStatus.PAID, Charged(OrderStatus.PAID, true, true, None), MemberStatus.PAID, ToRefund(REQUESTED),
             {2});
    Released();
    Changed(DEMANDS, Due(MemberStatus.PAID, Charged(OrderStatus.PAID, true, true, None)), HALF_PAID[9],
            Compensated(MemberStatus.PAID, ToRefund(REQUESTED)), {2}, HALF_FREED);
  }

  lemma Released()
    ensures Formation.SetDemands(DEMANDS, {2}, OPEN) == HALF_FREED
    ensures Formation.SetDemands(DEMANDS, {1, 2}, OPEN) == FREED
  {
  }

  lemma UnpaidNext()
    ensures Next(Confirming(6), UNPAID[6]) == UNPAID_STATE
  {
    hide Next, Payment.InvalidatePayment, Formation.SetDemands, Due, Compensated;
    ClosedOrders();
    TimedOut(PAYMENT_PENDING, map[], PAYMENT_TIMEOUT, map[], {1, 2});
    Released();
    Changed(DEMANDS, Due(PAYMENT_PENDING, map[]), UNPAID[6], Compensated(PAYMENT_TIMEOUT, map[]), {1, 2}, FREED);
  }

  lemma {:induction false} HalfPaidPrefix(k: nat)
    requires k <= 10
    ensures Run(Empty, HALF_PAID[..k]) == Confirming(k)
  {
    hide Next, Confirming;
    if k == 0 {
      StartsEmpty();
    } else {
      HalfPaidPrefix(k - 1);
      if k <= 6 {
        ConfirmingStep(k - 1);
      } else {
        PayingStep(k - 1);
      }
      OneMore(HALF_PAID, k - 1);
    }
  }

  lemma StartsEmpty()
    ensures Confirming(0) == Empty && HALF_PAID[..0] == []
  {
  }

  lemma OneMore(steps: seq<Step>, k: nat)
    requires k < |steps|
    ensures Run(Empty, steps[..k + 1]) == Next(Run(Empty, steps[..k]), steps[k])
  {
    hide Next;
    assert steps[..k + 1][..k] == steps[..k];
  }

  lemma HalfPaid()
    ensures Run(Empty, HALF_PAID) == REQUESTED_STATE
  {
    hide Run, Next;
    HalfPaidPrefix(10);
    assert HALF_PAID[..10] == HALF_PAID;
  }

  lemma NobodyPays()
    ensures Run(Empty, UNPAID) == UNPAID_STATE
  {
    hide Run, Next;
    HalfPaidPrefix(6);
    UnpaidNext();
    OneMore(UNPAID, 6);
    assert UNPAID[..6] == HALF_PAID[..6] && UNPAID[..7] == UNPAID;
  }
}
