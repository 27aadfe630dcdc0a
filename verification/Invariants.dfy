/** What holds of the tables between any two transactions. */
module Invariants {
  import opened Wrappers
  import opened Tables
  import Formation
  import Payment

  // ----- orders and rounds -------------------------------------------------------------------

  predicate OrderInv(order: Order) {
    && order.amountFen == PRICE_FEN
    && !order.status.REFUND_FAILED?
    && (order.status == OrderStatus.PAYING ==> order.intent)
    && (order.settled <==>
        order.status.PAID? || order.status.DELIVERED? || order.status.REFUND_PENDING? || order.status.REFUNDED?)
    && (order.refund.Some? <==> order.status.REFUND_PENDING? || order.status.REFUNDED?)
    && (order.refund.Some? ==>
        && order.refund.value.amountFen == PRICE_FEN
        && !order.refund.value.status.REVIEW_REQUIRED?
        && (order.refund.value.status.REFUNDED? <==> order.status.REFUNDED?))
  }

  /** The statuses an order may have while its round is in a given state. */
  predicate OrderFits(state: RoundState, status: OrderStatus) {
    match state
    case CONFIRMING => false
    case PAYING => status.CREATED? || status.PAYING? || status.PAID?
    case DELIVERED => status.DELIVERED?
    case REFUNDING => status.CLOSED? || status.REFUND_PENDING? || status.REFUNDED?
    case REFUND_RETRY => false
    case INVALIDATED => status.CLOSED? || status.REFUNDED?
  }

  predicate OrdersInv(round: Round) {
    forall u :: u in round.orders ==>
      && OrderInv(round.orders[u])
      && OrderFits(round.state, round.orders[u].status)
      && round.payBy == Some(round.orders[u].expiresAt)
      && u in Users(round.snapshot)
  }

  predicate ConsentsInv(round: Round) {
    && round.decisions.Keys <= Users(round.snapshot)
    && round.consents.Keys == Accepted(round)
    && forall u :: u in round.consents ==> round.consents[u].policy == round.policy
  }

  predicate Unanimous(round: Round) {
    Accepted(round) == Users(round.snapshot)
  }

  ghost predicate RoundInv(round: Round) {
    && Fits(round.snapshot)
    && |round.snapshot| >= 2
    && ConsentsInv(round)
    && OrdersInv(round)
    && !round.state.REFUND_RETRY?
    && (round.state.CONFIRMING? ==>
        Accepted(round) == round.decisions.Keys && Accepted(round) != Users(round.snapshot) && round.payBy.None?)
    && (round.state.PAYING? || round.state.DELIVERED? || round.state.REFUNDING? ==>
        Unanimous(round) && round.payBy.Some?)
    && (round.state.DELIVERED? ==> round.orders.Keys == Users(round.snapshot))
    && round.unlocks == if round.state.DELIVERED? then Pairs(Users(round.snapshot)) else {}
  }

  // ----- groups ------------------------------------------------------------------------------

  predicate HasRefundable(round: Round, user: UserId) {
    user in round.orders && (round.orders[user].status.REFUND_PENDING? || round.orders[user].status.REFUNDED?)
  }

  predicate HasPaid(round: Round, user: UserId) {
    user in round.orders && round.orders[user].status.PAID?
  }

  /** The members are the snapshot, and whoever paid has a paid order of the round. */
  predicate PaysTogether(members: map<DemandId, Member>, round: Round) {
    && Roster(members) == round.snapshot
    && forall d :: d in Roster(members) ==>
         (members[d].status.PAYMENT_PENDING? || members[d].status.PAID?) &&
         (members[d].status.PAID? <==> HasPaid(round, members[d].user))
  }

  /** A group in a locked state agrees with its last round, member by member. */
  ghost predicate LockStep(group: Group, round: Round) {
    var members := group.members;
    match group.state
    case CONFIRMING =>
      && round.state.CONFIRMING?
      && Roster(members) == round.snapshot
      && (forall d :: d in Roster(members) ==>
            !members[d].status.PAYMENT_PENDING? && !members[d].status.PAID? &&
            (members[d].status.CONFIRMED? <==> members[d].user in round.decisions))
    case PAYING =>
      && round.state.PAYING?
      && PaysTogether(members, round)
      && Payment.Debtors(members) != map[]
    case REFUNDING =>
      && round.state.REFUNDING?
      && (forall d :: d in Roster(members) ==>
            members[d].status.PAID? && d in round.snapshot && Roster(members)[d] == round.snapshot[d])
      && (forall d :: d in round.snapshot ==> (d in Roster(members) <==> HasRefundable(round, round.snapshot[d].user)))
    case CONTACTS_UNLOCKED =>
      && round.state.DELIVERED?
      && Roster(members) == round.snapshot
      && (forall d :: d in Roster(members) ==> members[d].status.CONTACT_UNLOCKED?)
    case _ => false
  }

  predicate HasOpenRound(group: Group) {
    |group.rounds| > 0 && Open(group.rounds[|group.rounds| - 1].state)
  }

  predicate Settled(status: MemberStatus) {
    status.JOINED? || status.CONTACT_UNLOCKED?
  }

  ghost predicate RoundsInv(rounds: seq<Round>) {
    && (forall i :: 0 <= i < |rounds| ==> RoundInv(rounds[i]))
    && (forall i :: 0 <= i < |rounds| - 1 ==> !Open(rounds[i].state))
  }

  ghost predicate GroupInv(group: Group) {
    && Fits(Roster(group.members))
    && RoundsInv(group.rounds)
    && StateInv(group)
  }

  ghost predicate StateInv(group: Group) {
    && (!Locked(group.state) ==> group.state == Tally(|Roster(group.members)|))
    && (Locked(group.state) ==> |group.rounds| > 0 && LockStep(group, group.rounds[|group.rounds| - 1]))
    && (!HasOpenRound(group) ==> forall d :: d in Roster(group.members) ==> Settled(group.members[d].status))
  }

  /** The group and its rounds have not drifted apart. */
  ghost predicate Coupled(group: Group) {
    && (forall i :: 0 <= i < |group.rounds| - 1 ==> group.rounds[i].state.INVALIDATED?)
    && (!Locked(group.state) ==> !HasOpenRound(group))
    && (|group.rounds| > 0 && !Locked(group.state) ==> group.rounds[|group.rounds| - 1].state.INVALIDATED?)
    && (!Locked(group.state) ==> forall d :: d in Roster(group.members) ==> group.members[d].status.JOINED?)
    && (group.state.CONFIRMING? ==>
        forall d :: d in Roster(group.members) ==>
          group.members[d].status.JOINED? || group.members[d].status.CONFIRMED?)
  }

  // ----- one group's transaction -------------------------------------------------------------

  predicate Refunding(group: Group, i: nat, user: UserId) {
    Payment.HasOrder(group, i, user) && group.rounds[i].orders[user].refund.Some?
  }

  /** Refund rows are left alone, and a new one is only requested. */
  ghost predicate RefundsKept(before: Group, after: Group) {
    forall i: nat, u {:trigger Refunding(after, i, u)} {:trigger Refunding(before, i, u)} ::
      && (Refunding(before, i, u) ==>
          Refunding(after, i, u) && after.rounds[i].orders[u] == before.rounds[i].orders[u])
      && (Refunding(after, i, u) && !Refunding(before, i, u) ==>
          after.rounds[i].orders[u].refund.value.status.REQUESTED?)
  }

  /** Rows keep their group, user and seats; the memberships that end are the released ones; none begins. */
  predicate MembersKept(before: Group, after: Group, released: set<DemandId>) {
    && after.members.Keys == before.members.Keys
    && after.route == before.route
    && after.window == before.window
    && released <= Roster(before.members).Keys
    && (forall d :: d in before.members ==>
          && after.members[d].user == before.members[d].user
          && after.members[d].seats == before.members[d].seats
          && (Active(after.members[d].status) <==> Active(before.members[d].status) && d !in released))
  }

  ghost predicate Sound(before: Group, change: Formation.Change) {
    && GroupInv(change.group)
    && (Coupled(before) ==> Coupled(change.group))
    && MembersKept(before, change.group, change.released)
    && RefundsKept(before, change.group)
  }

  lemma RefundsKeptUntouched(before: Group, after: Group)
    requires before.rounds <= after.rounds
    requires forall i :: |before.rounds| <= i < |after.rounds| ==> after.rounds[i].orders == map[]
    ensures RefundsKept(before, after)
  {
  }

  lemma RefundsKeptByRound(before: Group, after: Group, i: nat)
    requires i < |before.rounds| == |after.rounds|
    requires after.rounds == before.rounds[i := after.rounds[i]]
    requires forall u :: u in before.rounds[i].orders && before.rounds[i].orders[u].refund.Some? ==>
               u in after.rounds[i].orders && after.rounds[i].orders[u] == before.rounds[i].orders[u]
    requires forall u :: u in after.rounds[i].orders && after.rounds[i].orders[u].refund.Some? &&
                         !(u in before.rounds[i].orders && before.rounds[i].orders[u].refund.Some?) ==>
               after.rounds[i].orders[u].refund.value.status.REQUESTED?
    ensures RefundsKept(before, after)
  {
  }

  lemma RoundReplaced(rounds: seq<Round>, i: nat, round: Round)
    requires i < |rounds| && RoundsInv(rounds) && RoundInv(round)
    requires Open(round.state) ==> i == |rounds| - 1
    ensures RoundsInv(rounds[i := round])
  {
  }

  lemma RowEnded(group: Group, d: DemandId, to: MemberStatus, state: GroupState, rounds: seq<Round>)
    requires d in Roster(group.members) && !Active(to)
    ensures MembersKept(group,
                        Group(group.route, group.window, state, group.members[d := group.members[d].(status := to)],
                              rounds), {d})
  {
  }

  lemma KeptTwice(first: Group, second: Group, third: Group, released: set<DemandId>, more: set<DemandId>)
    requires MembersKept(first, second, released) && MembersKept(second, third, more)
    ensures MembersKept(first, third, released + more)
  {
  }

  lemma RestatusKept(group: Group, from: MemberStatus, to: MemberStatus, state: GroupState, rounds: seq<Round>)
    requires Active(from)
    ensures MembersKept(group, Group(group.route, group.window, state, Restatus(group.members, from, to), rounds),
                        if Active(to) then {} else Standing(group.members, from).Keys)
  {
  }

  lemma KeptRoster(before: Group, after: Group, released: set<DemandId>)
    requires MembersKept(before, after, released)
    ensures Roster(after.members) == Roster(before.members) - released
  {
  }
}
