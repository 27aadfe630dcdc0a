/** Runs after which a compensated round has no way out, one for each cause. */
module StuckRounds {
  import opened Wrappers
  import opened Tables
  import opened Runs
  import opened Uncoupling
  import opened TripRun
  import opened Recovery
  import opened Liveness
  import Formation
  import Payment
  import BookProofs
  import Safety
  import Stranding

  const KEY := OrderKey(1, 0, 1)

  /** The worker that claims the refund of user 1 crashes. */
  const CRASHED: seq<Step> := HALF_PAID + [Step.ClaimRefund(0, KEY, LATE + 1), Crash(0)]

  /** The sweep that requested the refund at LATE + 1 settles it, and it began at LATE. */
  const TOO_EARLY: seq<Step> := [Step.ClaimRefund(0, KEY, LATE), CallGateway(0, true), Step.FinishRefund(0), Crash(0)]

  /** Before the refund is settled, user 2 moves to another group; then the refund is paid back and recorded. */
  const LATER := Env(LATE + 2, LATE + 2, {1, 2, 3, 4}, {}, {})
  const MOVED: seq<Step> := [
    CreatesAt(4, LATER), JoinGroup(2, 4, 2, LATER),
    Step.ClaimRefund(0, KEY, LATE + 3), CallGateway(0, true), Step.FinishRefund(0)
  ]

  // ----- a refund of user 1 ------------------------------------------------------------------

  /** Group 1 in some state after its compensation, which leaves the round as it is. */
  function Left(state: GroupState, members: map<DemandId, Member>, status: RefundStatus): Group {
    Trip(state, members, [FirstRound(RoundState.REFUNDING, Some(LATE), BOTH, true, ToRefund(status))])
  }

  lemma Claimed(state: GroupState, members: map<DemandId, Member>)
    ensures Payment.ClaimRefund(Left(state, members, REQUESTED), 0, 1) ==
            Payment.Claim(Left(state, members, RefundStatus.REFUND_PENDING), true)
  {
    var group := Left(state, members, REQUESTED);
    var after := Left(state, members, RefundStatus.REFUND_PENDING);
    assert group.rounds[0].orders[1 := after.rounds[0].orders[1]] == after.rounds[0].orders;
    assert group.rounds[0 := after.rounds[0]] == after.rounds;
  }

  /** The refund is paid back: claimed at a time, and its gateway call succeeds. */
  lemma PaidBack(s: State, state: GroupState, members: map<DemandId, Member>, now: int)
    requires s.jobs == map[] && s.gateway == map[]
    requires 1 in s.book.groups && s.book.groups[1] == Left(state, members, REQUESTED)
    ensures var pending := WithGroup(s, 1, Left(state, members, RefundStatus.REFUND_PENDING));
            && Next(s, Step.ClaimRefund(0, KEY, now)) == pending.(jobs := map[0 := Job(KEY, CLAIMED, now)])
            && Next(Next(s, Step.ClaimRefund(0, KEY, now)), CallGateway(0, true)) ==
               pending.(jobs := map[0 := Job(KEY, RETURNED, now)], gateway := map[KEY := 1])
  {
    hide Left, Payment.ClaimRefund;
    Claimed(state, members);
  }

  /** The end of a settlement whose gateway call succeeded at the first worker. */
  lemma LastStep(s: State, now: int)
    requires s.jobs == map[0 := Job(KEY, RETURNED, now)] && 1 in s.book.groups
    ensures Payment.TooEarly(s.book.groups[1], 0, 1, now) ==>
              Exec(s, Step.FinishRefund(0)) == Err(CHECK_VIOLATION) && Next(s, Step.FinishRefund(0)) == s
    ensures !Payment.TooEarly(s.book.groups[1], 0, 1, now) && Payment.FinishRefund(s.book.groups[1], 0, 1).Ok? ==>
              Next(s, Step.FinishRefund(0)) ==
              WithGroup(s, 1, Payment.FinishRefund(s.book.groups[1], 0, 1).value).(jobs := map[])
    ensures Next(s, Crash(0)) == s.(jobs := map[])
  {
    hide Payment.FinishRefund, Payment.TooEarly;
    assert s.jobs - {0} == map[];
  }

  lemma Requested()
    ensures REQUESTED_STATE == Paired(HALF_FREED, Left(GroupState.REFUNDING, COMPENSATED_MEMBERS, REQUESTED))
    ensures WITH_HOST.book.groups == REQUESTED_STATE.book.groups[4 := Alone(4)]
  {
  }

  // ----- nobody paid -------------------------------------------------------------------------

  /** Compensated before anyone paid: the group and its round are refunding, and no run ever ends the round. */
  lemma UnpaidRoundIsStuck()
    ensures var s := Run(Empty, UNPAID);
            && RoundIs(s.book, 1, 0, RoundState.REFUNDING) && s.book.groups[1].state.REFUNDING?
            && Pending(s.book.groups[1].rounds[0]) == {} && !CanEnd(s, 1, 0)
  {
    hide Next, Run, Inv, CanEnd, NoOrphans;
    NobodyPays();
    Safety.RunInv(map[], UNPAID);
    RecoverableIff(UNPAID_STATE, 1, 0);
  }

  // ----- the worker crashed ------------------------------------------------------------------

  lemma CrashedNext()
    ensures Next(Next(REQUESTED_STATE, Step.ClaimRefund(0, KEY, LATE + 1)), Crash(0)) == ABANDONED
  {
    hide Left, REQUESTED_STATE, Payment.ClaimRefund;
    Requested();
    PaidBack(REQUESTED_STATE, GroupState.REFUNDING, COMPENSATED_MEMBERS, LATE + 1);
    assert ABANDONED.jobs == map[0 := Job(KEY, CLAIMED, LATE + 1)] - {0};
  }

  const COMPENSATED_MEMBERS := Members(MemberStatus.PAID, PAYMENT_TIMEOUT)
  const ABANDONED := Paired(HALF_FREED, Left(GroupState.REFUNDING, COMPENSATED_MEMBERS, RefundStatus.REFUND_PENDING))

  /** The worker crashed after its claim: the refund is orphaned, and no run ever ends the round. */
  lemma CrashedRoundIsStuck()
    ensures var s := Run(Empty, CRASHED);
            && RoundIs(s.book, 1, 0, RoundState.REFUNDING) && s.book.groups[1].state.REFUNDING?
            && Pending(s.book.groups[1].rounds[0]) == {1} && Orphaned(s, KEY) && !CanEnd(s, 1, 0)
  {
    hide Next, Run, Inv, CanEnd;
    HalfPaid();
    CrashedNext();
    RunOfTwo(REQUESTED_STATE, Step.ClaimRefund(0, KEY, LATE + 1), Crash(0));
    Safety.RunTwice(Empty, HALF_PAID, [Step.ClaimRefund(0, KEY, LATE + 1), Crash(0)]);
    Safety.RunInv(map[], CRASHED);
    AbandonedIsStuck(ABANDONED);
  }

  lemma RunOfTwo(s: State, first: Step, second: Step)
    ensures Run(s, [first, second]) == Next(Next(s, first), second)
  {
    hide Next;
    RunOne(s, first);
    assert [first, second][..1] == [first];
  }

  lemma AbandonedIsStuck(s: State)
    requires Inv(s) && s.book == ABANDONED.book && s.jobs == map[]
    ensures RoundIs(s.book, 1, 0, RoundState.REFUNDING) && s.book.groups[1].state.REFUNDING?
    ensures Pending(s.book.groups[1].rounds[0]) == {1} && Orphaned(s, KEY) && !CanEnd(s, 1, 0)
  {
    hide Next, Run, Inv, CanEnd;
    assert s.book.groups[1].rounds[0].orders == ToRefund(RefundStatus.REFUND_PENDING);
    assert Orphaned(s, KEY);
    RecoverableIff(s, 1, 0);
    assert KeyOf(s.book.groups[1], 1, 1) == KEY;
  }

  // ----- the sweep settled its own refund ----------------------------------------------------

  lemma TooEarlyNext()
    ensures var called := Next(Next(REQUESTED_STATE, TOO_EARLY[0]), TOO_EARLY[1]);
            && Exec(called, TOO_EARLY[2]) == Err(CHECK_VIOLATION) && Next(called, TOO_EARLY[2]) == called
            && Next(called, TOO_EARLY[3]) == ABANDONED.(gateway := map[KEY := 1])
  {
    hide Left, Next, Exec, Payment.TooEarly;
    Requested();
    PaidBack(REQUESTED_STATE, GroupState.REFUNDING, COMPENSATED_MEMBERS, LATE);
    Refused(COMPENSATED_MEMBERS);
    var called := Next(Next(REQUESTED_STATE, TOO_EARLY[0]), TOO_EARLY[1]);
    LastStep(called, LATE);
    assert called.book.groups == ABANDONED.book.groups;
  }

  lemma Refused(members: map<DemandId, Member>)
    ensures Payment.TooEarly(Left(GroupState.REFUNDING, members, RefundStatus.REFUND_PENDING), 0, 1, LATE)
  {
  }

  /**
   * A sweep that requests a refund and then settles it: the gateway pays back, the schema refuses the record, since it
   * says the refund was completed when the sweep began, before it was requested; and no run ever ends the round.
   */
  lemma SweepStrandsItsOwnRefund()
    ensures Exec(Run(Empty, HALF_PAID + TOO_EARLY[..2]), TOO_EARLY[2]) == Err(CHECK_VIOLATION)
    ensures var s := Run(Empty, HALF_PAID + TOO_EARLY);
            && RoundIs(s.book, 1, 0, RoundState.REFUNDING) && s.book.groups[1].state.REFUNDING?
            && s.gateway == map[KEY := 1] && RefundAt(s.book, KEY, RefundStatus.REFUND_PENDING)
            && Orphaned(s, KEY) && !CanEnd(s, 1, 0)
  {
    hide Next, Exec, Run, Inv, CanEnd;
    HalfPaid();
    TooEarlyNext();
    var called := Next(Next(REQUESTED_STATE, TOO_EARLY[0]), TOO_EARLY[1]);
    RunOfTwo(REQUESTED_STATE, TOO_EARLY[0], TOO_EARLY[1]);
    RunOfTwo(called, TOO_EARLY[2], TOO_EARLY[3]);
    assert TOO_EARLY[..2] == [TOO_EARLY[0], TOO_EARLY[1]];
    assert TOO_EARLY == TOO_EARLY[..2] + [TOO_EARLY[2], TOO_EARLY[3]];
    Safety.RunTwice(REQUESTED_STATE, TOO_EARLY[..2], [TOO_EARLY[2], TOO_EARLY[3]]);
    Safety.RunTwice(Empty, HALF_PAID, TOO_EARLY[..2]);
    Safety.RunTwice(Empty, HALF_PAID, TOO_EARLY);
    Safety.RunInv(map[], HALF_PAID + TOO_EARLY);
    AbandonedIsStuck(ABANDONED.(gateway := map[KEY := 1]));
  }

  // ----- a member moved on -------------------------------------------------------------------

  const PAYER: map<DemandId, Member> := map[1 := Row(1, MemberStatus.PAID)]
  const ARRIVED: Formation.Demands := HALF_FREED[4 := Wish(4, GROUPED, 4)]
  const DEPARTED: Formation.Demands := ARRIVED[2 := Wish(2, GROUPED, 4)]
  const HOST := Trip(GroupState.READY, Alone(4).members[2 := Row(2, JOINED)], [])

  /** Group 1 without its second member, and with it its round, whatever the refund's status. */
  function Drifting(status: RefundStatus): State {
    At(DEPARTED, map[1 := Left(GroupState.RECRUITING, PAYER, status), 2 := VACATED, 4 := HOST])
  }

  const WITH_HOST := At(ARRIVED, map[1 := Left(GroupState.REFUNDING, COMPENSATED_MEMBERS, REQUESTED), 2 := VACATED,
                                     4 := Alone(4)])

  lemma HostArrives()
    ensures Next(REQUESTED_STATE, MOVED[0]) == WITH_HOST
  {
    hide Left, FirstRound, ToRefund;
    Create(REQUESTED_STATE, 4, LATER);
    Requested();
  }

  lemma PayerLeft()
    ensures Formation.Vacate(WITH_HOST.book, 2, 4) ==
            Ok(WITH_HOST.book.groups[1 := Left(GroupState.RECRUITING, PAYER, REQUESTED)])
  {
    hide Fits;
    assert COMPENSATED_MEMBERS - {2} == PAYER;
    assert Roster(PAYER) == map[1 := Seat(1, 1)];
    assert Fits(Roster(PAYER)) && |Roster(PAYER)| == 1 by {
      AloneFits();
    }
  }

  lemma AloneFits()
    ensures Fits(map[1 := Seat(1, 1)]) && |map[1 as DemandId := Seat(1, 1)]| == 1
  {
    hide Fits;
    BookProofs.SingleFits(map[1 := Seat(1, 1)], 1);
  }

  lemma NoOtherTrip()
    ensures Formation.OverlappingRows(WITH_HOST.book, 2, TRIP) == {}
  {
    hide FirstRound, ToRefund;
    assert Alone(4).members.Keys == {4};
  }

  lemma MovesOn()
    ensures Next(WITH_HOST, MOVED[1]) == Drifting(REQUESTED)
  {
    hide Next, Formation.JoinGroup, Formation.Vacate, Left;
    NoOtherTrip();
    PayerLeft();
    Departure(WITH_HOST.book, Left(GroupState.RECRUITING, PAYER, REQUESTED), LATER);
    assert WITH_HOST.book.groups[1 := Left(GroupState.RECRUITING, PAYER, REQUESTED)][4 := HOST] ==
           Drifting(REQUESTED).book.groups;
    Joined(WITH_HOST, 2, 4, Drifting(REQUESTED).book, LATER);
  }

  const REPAID: Order :=
    Order(99, LATE, OrderStatus.REFUNDED, true, true, Some(Refund(99, RefundStatus.REFUNDED, LATE + 1)))

  /** Group 1 after its refund was recorded: the round is as it was, but for the order. */
  const RECORDED := Trip(GroupState.RECRUITING, PAYER,
                         [FirstRound(RoundState.REFUNDING, Some(LATE), BOTH, true, map[1 := REPAID])])

  lemma Recorded()
    ensures var pending := Left(GroupState.RECRUITING, PAYER, RefundStatus.REFUND_PENDING);
            Payment.FinishRefund(pending, 0, 1) == Ok(RECORDED) && !Payment.TooEarly(pending, 0, 1, LATE + 3)
  {
    var pending := Left(GroupState.RECRUITING, PAYER, RefundStatus.REFUND_PENDING);
    assert Payment.CloseRefund(pending, 0, 1).rounds[0].orders == map[1 := REPAID];
    assert Payment.CloseRefund(pending, 0, 1).rounds == RECORDED.rounds;
  }

  const SETTLED := Drifting(REQUESTED).(gateway := map[KEY := 1],
                                        book := Formation.Book(DEPARTED, map[1 := RECORDED, 2 := VACATED, 4 := HOST]))

  lemma SettledNext()
    ensures Next(Next(Next(Drifting(REQUESTED), MOVED[2]), MOVED[3]), MOVED[4]) == SETTLED
  {
    hide Left, Next, Payment.FinishRefund, Payment.TooEarly;
    PaidBack(Drifting(REQUESTED), GroupState.RECRUITING, PAYER, LATE + 3);
    Recorded();
    var called := Next(Next(Drifting(REQUESTED), MOVED[2]), MOVED[3]);
    LastStep(called, LATE + 3);
    assert called.book.groups[1 := RECORDED] == SETTLED.book.groups;
  }

  lemma MovedRun()
    ensures Run(Empty, HALF_PAID + MOVED) == SETTLED
  {
    hide Next, Run, Drifting;
    HalfPaid();
    HostArrives();
    MovesOn();
    SettledNext();
    RunOfTwo(REQUESTED_STATE, MOVED[0], MOVED[1]);
    RunOfTwo(Drifting(REQUESTED), MOVED[2], MOVED[3]);
    var called := Next(Next(Drifting(REQUESTED), MOVED[2]), MOVED[3]);
    RunOne(called, MOVED[4]);
    Safety.RunTwice(Drifting(REQUESTED), [MOVED[2], MOVED[3]], [MOVED[4]]);
    Safety.RunTwice(REQUESTED_STATE, [MOVED[0], MOVED[1]], [MOVED[2], MOVED[3]] + [MOVED[4]]);
    assert [MOVED[0], MOVED[1]] + ([MOVED[2], MOVED[3]] + [MOVED[4]]) == MOVED;
    Safety.RunTwice(Empty, HALF_PAID, MOVED);
  }

  /**
   * The member who did not pay joins another group while the first is refunding, and the first is recruiting again. The
   * refund is then paid back and recorded, yet its round refunds for ever, and the payer is not a joined member again.
   */
  lemma MovedMemberStrandsRound()
    ensures var s := Run(Empty, HALF_PAID + MOVED);
            && RoundIs(s.book, 1, 0, RoundState.REFUNDING) && s.book.groups[1].state.RECRUITING?
            && RefundAt(s.book, KEY, RefundStatus.REFUNDED) && s.gateway == map[KEY := 1]
            && s.book.groups[1].members == PAYER
            && Stranding.Adrift(s.book.groups[1], 0) && !CanEnd(s, 1, 0)
  {
    hide Next, Run, Inv, CanEnd, NoOrphans;
    MovedRun();
    Safety.RunInv(map[], HALF_PAID + MOVED);
    RecoverableIff(SETTLED, 1, 0);
  }
}
