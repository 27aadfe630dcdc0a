/** A run that delivers: two users pay, read each other's contact, and one of them withdraws. */
module DeliveredRun {
  import opened Wrappers
  import opened Tables
  import opened Runs
  import opened Invariants
  import opened Outcomes
  import opened PaymentOutcomes
  import opened TripRun
  import Uncoupling
  import Contacts
  import Formation
  import Payment
  import Safety
  import Theorems

  /** Everybody may be reached. */
  const REACHED := Env(0, 0, {1, 2, 3, 4}, {1, 2}, {1, 2})

  /** User 1 has paid already; now user 2 does. */
  const ONE_PAID := HALF_PAID[..9]
  const SECOND := [Step.CreateOrder(2, 1, 0, REACHED), Step.CreatePrepay(2, 1, 0, 0),
                   CompletePayment(2, 1, 0, true, REACHED)]

  /** User 1 reads, user 2 withdraws, user 1 reads again. */
  const READS := [ReadContacts(1, 1, REACHED), Step.RevokeConsent(2, 1, 0, 1), ReadContacts(1, 1, REACHED)]

  const HALF := Due(MemberStatus.PAID, Charged(OrderStatus.PAID, true, true, None))

  function Second(status: OrderStatus, intent: bool): Order {
    Order(99, LATE, status, intent, false, None)
  }

  lemma RunOf(s: State, a: Step, b: Step, c: Step)
    ensures Run(s, [a]) == Next(s, a) && Run(s, [a, b]) == Next(Next(s, a), b)
    ensures Run(s, [a, b, c]) == Next(Next(Next(s, a), b), c)
  {
    hide Next;
    assert [a, b, c][..2] == [a, b] && [a, b][..1] == [a] && [a][..0] == [];
  }

  lemma HalfState(s: State)
    requires s == Confirming(9)
    ensures 1 in s.book.groups && s.book.groups[1] == HALF && s.log == []
  {
  }

  lemma HalfRound()
    ensures HALF.state == GroupState.PAYING && |HALF.rounds| == 1 && HALF.rounds[0].state == RoundState.PAYING
    ensures HALF.rounds[0].payBy == Some(LATE) && HALF.rounds[0].snapshot == SEATS && Users(SEATS) == {1, 2}
    ensures HALF.rounds[0].orders == Charged(OrderStatus.PAID, true, true, None)
    ensures HALF.rounds[0].consents == map[1 := Tables.Consent(7, false), 2 := Tables.Consent(7, false)]
    ensures Owes(HALF, 2) && 2 in HALF.members && HALF.members[2].user == 2
  {
    SeatUsers();
    assert HALF.members[2].user == 2 && HALF.members[2].status.PAYMENT_PENDING?;
  }

  lemma Ordered2(s: State) returns (t: State)
    requires Inv(s) && 1 in s.book.groups && s.book.groups[1] == HALF
    ensures t == Next(s, SECOND[0]) && Inv(t) && OnlyGroup(s, t, 1, {}, OPEN)
    ensures t.book.groups[1].state == GroupState.PAYING && t.book.groups[1].members == HALF.members
    ensures |t.book.groups[1].rounds| == 1
    ensures t.book.groups[1].rounds[0] == HALF.rounds[0].(orders := HALF.rounds[0].orders[2 := Second(CREATED, false)])
  {
    hide Inv, Next, Exec, HALF, Owes;
    t := Next(s, SECOND[0]);
    HalfRound();
    OrderOutcome(s, 2, 1, 0, REACHED);
    Safety.StepInv(s, SECOND[0]);
  }

  lemma Prepaid2(s: State) returns (t: State)
    requires Inv(s) && 1 in s.book.groups && |s.book.groups[1].rounds| == 1 &&
             s.book.groups[1].state == GroupState.PAYING
    requires s.book.groups[1].rounds[0] == HALF.rounds[0].(orders := HALF.rounds[0].orders[2 := Second(CREATED, false)])
    ensures t == Next(s, SECOND[1]) && Inv(t) && OnlyGroup(s, t, 1, {}, OPEN)
    ensures t.book.groups[1].members == s.book.groups[1].members
    ensures t.book.groups[1].state == GroupState.PAYING && |t.book.groups[1].rounds| == 1
    ensures t.book.groups[1].rounds[0] ==
            HALF.rounds[0].(orders := HALF.rounds[0].orders[2 := Second(OrderStatus.PAYING, true)])
  {
    hide Inv, Next, Exec, HALF;
    t := Next(s, SECOND[1]);
    HalfRound();
    PrepayOutcome(s, 2, 1, 0, 0);
    Safety.StepInv(s, SECOND[1]);
    var orders := HALF.rounds[0].orders;
    assert orders[2 := Second(CREATED, false)][2 := Second(OrderStatus.PAYING, true)] ==
           orders[2 := Second(OrderStatus.PAYING, true)];
  }

  lemma Paid2(s: State) returns (t: State)
    requires Inv(s) && 1 in s.book.groups && |s.book.groups[1].rounds| == 1 &&
             s.book.groups[1].state == GroupState.PAYING
    requires s.book.groups[1].rounds[0] ==
             HALF.rounds[0].(orders := HALF.rounds[0].orders[2 := Second(OrderStatus.PAYING, true)])
    ensures t == Next(s, SECOND[2]) && Inv(t) && OnlyGroup(s, t, 1, {}, OPEN)
    ensures Delivered(s.book.groups[1], t.book.groups[1], 0)
  {
    hide Inv, Next, Exec, HALF, Delivered, GivenBack, PaymentOutcomes.Paid;
    t := Next(s, SECOND[2]);
    HalfRound();
    assert OthersPaid(s.book.groups[1].rounds[0], 2);
    assert MayDeliver(s.book.groups[1].rounds[0], REACHED);
    PaymentOutcome(s, 2, 1, 0, true, REACHED);
    Safety.StepInv(s, SECOND[2]);
  }

  /** Both members may read, and nobody has withdrawn yet. */
  predicate Unlocked(group: Group) {
    && group.state == CONTACTS_UNLOCKED && |group.rounds| == 1 && group.rounds[0].state == RoundState.DELIVERED
    && group.rounds[0].snapshot == SEATS && group.rounds[0].unlocks == {(1, 2), (2, 1)}
    && group.rounds[0].consents == map[1 := Tables.Consent(7, false), 2 := Tables.Consent(7, false)]
    && group.rounds[0].orders.Keys == {1, 2}
    && (forall u :: u in group.rounds[0].orders ==> group.rounds[0].orders[u].status == OrderStatus.DELIVERED)
  }

  lemma DeliveredState() returns (s: State)
    ensures s == Run(Empty, ONE_PAID + SECOND) && Inv(s) && 1 in s.book.groups && Unlocked(s.book.groups[1])
    ensures s.log == [] && exists d :: d in s.book.groups[1].members && s.book.groups[1].members[d].user == 2
  {
    hide Run, Inv, Next, Exec, HALF, Delivered, Unlocked;
    var first := Confirming(9);
    HalfPaidPrefix(9);
    Safety.RunInv(map[], ONE_PAID);
    HalfState(first);
    var ordered := Ordered2(first);
    HalfRound();
    var prepaid := Prepaid2(ordered);
    s := Paid2(prepaid);
    RunOf(first, SECOND[0], SECOND[1], SECOND[2]);
    Safety.RunTwice(Empty, ONE_PAID, SECOND);
    assert SECOND == [SECOND[0], SECOND[1], SECOND[2]];
    IsUnlocked(prepaid.book.groups[1], s.book.groups[1]);
  }

  lemma IsUnlocked(before: Group, after: Group)
    requires |before.rounds| == 1 && Delivered(before, after, 0) && before.rounds[0].snapshot == SEATS
    requires before.rounds[0].consents == map[1 := Tables.Consent(7, false), 2 := Tables.Consent(7, false)]
    requires 2 in before.members && before.members[2].user == 2
    ensures Unlocked(after) && 2 in after.members && after.members[2].user == 2
  {
    SeatUsers();
    var unlocks := after.rounds[0].unlocks;
    var expected: set<(UserId, UserId)> := {(1, 2), (2, 1)};
    forall pair: (UserId, UserId) ensures pair in unlocks <==> pair in expected {
      assert pair == (pair.0, pair.1);
      assert (pair.0, pair.1) in unlocks <==> pair.0 in {1, 2} && pair.1 in {1, 2} && pair.0 != pair.1;
    }
    assert unlocks == expected;
  }

  lemma MayRead1(group: Group)
    requires Unlocked(group)
    ensures Contacts.MayRead(group, 1, REACHED) && Users(group.rounds[0].snapshot) - {1} == {2}
  {
    SeatUsers();
  }

  lemma First(s: State)
    requires s == Run(Empty, ONE_PAID + SECOND) && 1 in s.book.groups && Unlocked(s.book.groups[1])
    ensures Next(s, READS[0]) == s.(log := s.log + [Access(1, 1, Payment.Granted({2}))])
  {
    hide Run, Next, Unlocked, Contacts.MayRead;
    MayRead1(s.book.groups[1]);
    Contacts.ReadsAreLogged(map[], ONE_PAID + SECOND, 1, 1, REACHED);
    OneRound(s.book.groups[1]);
    OnlyLogs(s);
  }

  lemma OneRound(group: Group)
    requires Unlocked(group)
    ensures |group.rounds| == 1
  {
  }

  lemma OnlyLogs(s: State)
    ensures Next(s, READS[0]) == s.(log := Next(s, READS[0]).log)
  {
    hide Payment.ReadContacts;
  }

  lemma Withdraws(s: State)
    requires Inv(s) && 1 in s.book.groups && Unlocked(s.book.groups[1])
    requires exists d :: d in s.book.groups[1].members && s.book.groups[1].members[d].user == 2
    ensures var t := Next(s, READS[1]);
            && t.log == s.log && 1 in t.book.groups && t.book.groups[1].rounds != []
            && t.book.groups[1].state == CONTACTS_UNLOCKED && |t.book.groups[1].rounds| == 1
            && t.book.groups[1].rounds[0].state == RoundState.DELIVERED
            && 2 in t.book.groups[1].rounds[0].consents && t.book.groups[1].rounds[0].consents[2].revoked
  {
    hide Inv, Next, Exec, Compensates;
    RevocationOutcome(s, 2, 1, 0, 1);
  }

  lemma Second2(s: State, t: State)
    requires s == Run(Empty, ONE_PAID + SECOND) && t == Next(Next(s, READS[0]), READS[1])
    requires 1 in t.book.groups && |t.book.groups[1].rounds| == 1
    requires t.book.groups[1].rounds[0].state == RoundState.DELIVERED
    requires 2 in t.book.groups[1].rounds[0].consents && t.book.groups[1].rounds[0].consents[2].revoked
    ensures Next(t, READS[2]).log == t.log + [Access(1, 1, Payment.Denied)]
  {
    hide Run, Next;
    var steps := ONE_PAID + SECOND + [READS[0], READS[1]];
    RunOf(s, READS[0], READS[1], READS[2]);
    Safety.RunTwice(Empty, ONE_PAID + SECOND, [READS[0], READS[1]]);
    Contacts.ReadsAreLogged(map[], steps, 1, 1, REACHED);
  }

  /**
   * Twelve steps from empty tables deliver a round to two users: each has paid 99 fen, each may read the other's
   * contact, and one does. Once the other has withdrawn consent, the next read is refused.
   */
  lemma PairDelivers()
    ensures var s := Run(Empty, ONE_PAID + SECOND); 1 in s.book.groups && Unlocked(s.book.groups[1])
    ensures Run(Empty, ONE_PAID + SECOND + READS).log ==
            [Access(1, 1, Payment.Granted({2})), Access(1, 1, Payment.Denied)]
  {
    hide Run, Inv, Next, Unlocked;
    var s := DeliveredState();
    var granted := Next(s, READS[0]);
    First(s);
    Safety.StepInv(s, READS[0]);
    Withdraws(granted);
    Second2(s, Next(granted, READS[1]));
    RunOf(s, READS[0], READS[1], READS[2]);
    assert READS == [READS[0], READS[1], READS[2]];
    Safety.RunTwice(Empty, ONE_PAID + SECOND, READS);
  }
}
