/**
 * What one transaction of apps/api/src/payments/payments.service.ts and of
 * apps/worker/src/payment-refund.ts does to one group.
 */
module Payment {
  import opened Wrappers
  import opened Tables
  import Formation

  type Change = Formation.Change

  predicate Payable(status: OrderStatus) {
    status.CREATED? || status.PAYING?
  }

  predicate BothPaying(group: Group, i: nat) {
    i < |group.rounds| && group.rounds[i].state.PAYING? && group.state.PAYING?
  }

  predicate HasOrder(group: Group, i: nat, user: UserId) {
    i < |group.rounds| && user in group.rounds[i].orders
  }

  function SetRound(group: Group, i: nat, round: Round): Group
    requires i < |group.rounds|
  {
    group.(rounds := group.rounds[i := round])
  }

  function SetOrder(group: Group, i: nat, user: UserId, order: Order): Group
    requires i < |group.rounds|
  {
    SetRound(group, i, group.rounds[i].(orders := group.rounds[i].orders[user := order]))
  }

  // ----- orders ------------------------------------------------------------------------------

  ghost predicate PayingMember(group: Group, i: nat, user: UserId, env: Env) {
    BothPaying(group, i) && group.rounds[i].payBy.Some? && group.rounds[i].payBy.value > env.now &&
    user in Users(Standing(group.members, PAYMENT_PENDING))
  }

  ghost function CreateOrder(group: Group, i: nat, user: UserId, env: Env): Result<Change> {
    if user !in env.eligible then Err(STUDENT_NOT_VERIFIED)
    else if !PayingMember(group, i, user, env) then Err(PAYMENT_NOT_CONFIRMED)
    else if HasOrder(group, i, user) then Ok(Formation.Change(group, {}))
    else
      Ok(Formation.Change(
        SetOrder(group, i, user, Order(PRICE_FEN, group.rounds[i].payBy.value, CREATED, false, false, None)), {}))
  }

  function CreatePrepay(group: Group, i: nat, user: UserId, now: int): Result<Change> {
    if !HasOrder(group, i, user) then Err(RESOURCE_NOT_FOUND)
    else
      var order := group.rounds[i].orders[user];
      if !BothPaying(group, i) || order.expiresAt <= now || !Payable(order.status) then Err(PAYMENT_NOT_CONFIRMED)
      else
        Ok(Formation.Change(
          SetOrder(group, i, user,
                   order.(intent := true,
                          status := if order.status.CREATED? then OrderStatus.PAYING else order.status)),
          {}))
  }

  /** The rows of one user with one status. */
  function RestatusUser(members: map<DemandId, Member>, user: UserId, from: MemberStatus, to: MemberStatus)
    : map<DemandId, Member>
  {
    map d | d in members ::
      if members[d].user == user && members[d].status == from then members[d].(status := to) else members[d]
  }

  function Settle(group: Group, i: nat, user: UserId): Group
    requires HasOrder(group, i, user)
  {
    var order := group.rounds[i].orders[user];
    SetOrder(group, i, user, order.(settled := true, status := OrderStatus.PAID))
      .(members := RestatusUser(group.members, user, PAYMENT_PENDING, MemberStatus.PAID))
  }

  ghost function CompletePayment(group: Group, i: nat, user: UserId, intentMatches: bool, env: Env): Result<Change> {
    if !HasOrder(group, i, user) || !intentMatches then Err(RESOURCE_NOT_FOUND)
    else
      var order := group.rounds[i].orders[user];
      if order.status.DELIVERED? || order.status.PAID? then Ok(Formation.Change(group, {}))
      else if !BothPaying(group, i) || order.expiresAt <= env.now || !Payable(order.status)
        then Err(PAYMENT_NOT_CONFIRMED)
      else Ok(DeliverIfComplete(Settle(group, i, user), i, env))
  }

  // ----- delivery ----------------------------------------------------------------------------

  function Payers(members: map<DemandId, Member>): map<DemandId, Seat> {
    Standing(members, MemberStatus.PAID)
  }

  function Debtors(members: map<DemandId, Member>): map<DemandId, Seat> {
    Standing(members, PAYMENT_PENDING)
  }

  predicate OrderDeliverable(order: Order, payBy: Option<int>) {
    order.status.PAID? && order.amountFen == PRICE_FEN && payBy == Some(order.expiresAt)
  }

  ghost predicate Deliverable(group: Group, i: nat, env: Env)
    requires i < |group.rounds|
  {
    var round := group.rounds[i];
    var payers := Payers(group.members);
    && |payers| >= 2
    && payers == round.snapshot
    && |round.orders| == |payers|
    && (forall u :: u in round.orders ==> u in Users(payers) && OrderDeliverable(round.orders[u], round.payBy))
    && |round.consents| == |payers|
    && (forall u :: u in round.consents ==> !round.consents[u].revoked && round.consents[u].policy == round.policy)
    && Users(payers) <= env.contacts
    && Users(payers) <= env.deliverable
  }

  ghost function DeliverIfComplete(group: Group, i: nat, env: Env): Change {
    if !BothPaying(group, i) || Debtors(group.members) != map[] then Formation.Change(group, {})
    else if !Deliverable(group, i, env) then BeginCompensation(group, i, env.at)
    else Formation.Change(Deliver(group, i), {})
  }

  function Deliver(group: Group, i: nat): Group
    requires i < |group.rounds|
  {
    var round := group.rounds[i];
    var users := Users(Payers(group.members));
    SetRound(group, i, round.(
               state := RoundState.DELIVERED,
               orders := map u | u in round.orders ::
                 if round.orders[u].status.PAID?
                   then round.orders[u].(status := OrderStatus.DELIVERED) else round.orders[u],
               unlocks := round.unlocks + Pairs(users)))
      .(state := CONTACTS_UNLOCKED, members := Restatus(group.members, MemberStatus.PAID, CONTACT_UNLOCKED))
  }

  // ----- compensation ------------------------------------------------------------------------

  /** The row keeps the time at which the database wrote it. */
  function RequestRefund(refund: Option<Refund>, at: int): Option<Refund> {
    if refund.Some? then refund else Some(Refund(PRICE_FEN, REQUESTED, at))
  }

  /** An order of a round that left PAYING undelivered: closed if unpaid, its refund requested if paid. */
  function Compensated(order: Order, at: int): Order {
    if Payable(order.status) then order.(status := CLOSED)
    else if order.status.PAID?
      then order.(status := OrderStatus.REFUND_PENDING, refund := RequestRefund(order.refund, at))
    else order
  }

  function CompensatedOrders(orders: map<UserId, Order>, at: int): map<UserId, Order> {
    map u | u in orders :: Compensated(orders[u], at)
  }

  function Compensate(group: Group, i: nat, consents: map<UserId, Tables.Consent>, at: int): Change
    requires i < |group.rounds|
  {
    var round := group.rounds[i];
    Formation.Change(
      SetRound(group, i, round.(state := RoundState.REFUNDING, orders := CompensatedOrders(round.orders, at),
                                consents := consents))
        .(state := GroupState.REFUNDING, members := Restatus(group.members, PAYMENT_PENDING, PAYMENT_TIMEOUT)),
      Debtors(group.members).Keys)
  }

  function BeginCompensation(group: Group, i: nat, at: int): Change {
    if !BothPaying(group, i) then Formation.Change(group, {})
    else Compensate(group, i, group.rounds[i].consents, at)
  }

  predicate PaymentDue(group: Group, i: nat, now: int) {
    BothPaying(group, i) && group.rounds[i].payBy.Some? && group.rounds[i].payBy.value <= now
  }

  ghost function InvalidatePayment(group: Group, i: nat, now: int, at: int): Result<Change> {
    if !PaymentDue(group, i, now) then Ok(Formation.Change(group, {}))
    else if exists u :: u in group.rounds[i].orders && group.rounds[i].orders[u].status.PAID? &&
                        group.rounds[i].orders[u].amountFen != PRICE_FEN
      then Err(INTERNAL_ERROR)
    else Ok(Compensate(group, i, RevokeAll(group.rounds[i].consents), at))
  }

  function RevokeConsent(group: Group, i: nat, user: UserId, at: int): Result<Change> {
    if i >= |group.rounds| || user !in AllUsers(group.members) then Err(RESOURCE_NOT_FOUND)
    else
      var round := group.rounds[i];
      if user !in round.consents || round.consents[user].revoked then Ok(Formation.Change(group, {}))
      else
        Ok(BeginCompensation(
          SetRound(group, i, round.(consents := round.consents[user := round.consents[user].(revoked := true)])), i,
            at))
  }

  function AllUsers(members: map<DemandId, Member>): set<UserId> {
    set d | d in members :: members[d].user
  }

  // ----- refunds -----------------------------------------------------------------------------

  predicate RefundIs(group: Group, i: nat, user: UserId, status: RefundStatus) {
    HasOrder(group, i, user) && group.rounds[i].orders[user].refund.Some? &&
    group.rounds[i].orders[user].refund.value.status == status
  }

  function SetRefund(group: Group, i: nat, user: UserId, status: RefundStatus): Group
    requires HasOrder(group, i, user) && group.rounds[i].orders[user].refund.Some?
  {
    var order := group.rounds[i].orders[user];
    SetOrder(group, i, user, order.(refund := Some(order.refund.value.(status := status))))
  }

  function MarkForReview(group: Group, i: nat): Group
    requires i < |group.rounds|
  {
    var round := group.rounds[i];
    var marked := if round.state.REFUNDING? || round.state.REFUND_RETRY?
                  then SetRound(group, i, round.(state := RoundState.REFUND_RETRY)) else group;
    if marked.state.REFUNDING? || marked.state.REFUND_RETRY? then marked.(state := GroupState.REFUND_RETRY) else marked
  }

  /** The claimed refund may go to the gateway. */
  predicate Refundable(order: Order) {
    order.refund.Some? && order.refund.value.amountFen == PRICE_FEN && order.status.REFUND_PENDING? && order.settled
  }

  datatype Claim = Claim(group: Group, claimed: bool)

  function ClaimRefund(group: Group, i: nat, user: UserId): Claim {
    if !RefundIs(group, i, user, REQUESTED) then Claim(group, false)
    else
      var pending := SetRefund(group, i, user, RefundStatus.REFUND_PENDING);
      if Refundable(pending.rounds[i].orders[user]) then Claim(pending, true)
      else Claim(MarkForReview(SetRefund(pending, i, user, REVIEW_REQUIRED), i), false)
  }

  function RestoreRefund(group: Group, i: nat, user: UserId): Group {
    if RefundIs(group, i, user, RefundStatus.REFUND_PENDING) then SetRefund(group, i, user, REQUESTED) else group
  }

  function CloseRefund(group: Group, i: nat, user: UserId): Group
    requires RefundIs(group, i, user, RefundStatus.REFUND_PENDING)
  {
    var settled := SetRefund(group, i, user, RefundStatus.REFUNDED);
    var order := settled.rounds[i].orders[user];
    if order.status.REFUND_PENDING? then SetOrder(settled, i, user, order.(status := OrderStatus.REFUNDED)) else settled
  }

  /** Refund_lifecycle_check of the schema refuses to complete a refund before the time at which it was requested. */
  predicate TooEarly(group: Group, i: nat, user: UserId, completedAt: int) {
    RefundIs(group, i, user, RefundStatus.REFUND_PENDING) &&
    completedAt < group.rounds[i].orders[user].refund.value.requestedAt
  }

  ghost function FinishRefund(group: Group, i: nat, user: UserId): Result<Group> {
    if !RefundIs(group, i, user, RefundStatus.REFUND_PENDING) then Ok(group)
    else RecoverRound(CloseRefund(group, i, user), i)
  }

  predicate SomeOrder(round: Round, status: OrderStatus) {
    exists u :: u in round.orders && round.orders[u].status == status
  }

  ghost function RecoverRound(group: Group, i: nat): Result<Group> {
    if i >= |group.rounds| || !group.rounds[i].state.REFUNDING? || !group.state.REFUNDING? then Ok(group)
    else if SomeOrder(group.rounds[i], OrderStatus.REFUND_PENDING) then Ok(group)
    else if SomeOrder(group.rounds[i], REFUND_FAILED) then Ok(MarkForReview(group, i))
    else if SomeOrder(group.rounds[i], OrderStatus.PAID) then Ok(group)
    else if SeatSum(Payers(group.members)) > 4 then Err(INTERNAL_ERROR)
    else Ok(Recover(group, i))
  }

  function Recover(group: Group, i: nat): Group
    requires i < |group.rounds|
  {
    SetRound(group, i, group.rounds[i].(state := INVALIDATED))
      .(state := Tally(|Payers(group.members)|), members := Restatus(group.members, MemberStatus.PAID, JOINED))
  }

  // ----- contact reads -----------------------------------------------------------------------

  datatype Reading = Granted(subjects: set<UserId>) | Denied

  function ReadContacts(group: Group, viewer: UserId, env: Env): Result<Reading> {
    if |group.rounds| == 0 then Err(RESOURCE_NOT_FOUND)
    else
      var round := group.rounds[|group.rounds| - 1];
      var members := Standing(group.members, CONTACT_UNLOCKED);
      var users := Users(members);
      if !round.state.DELIVERED? && round.orders == map[] then Err(RESOURCE_NOT_FOUND)
      else if !group.state.CONTACTS_UNLOCKED? || viewer !in users || |members| < 2 || |round.consents| != |members| ||
              (exists u :: u in round.consents && round.consents[u].revoked) ||
              !(users <= env.contacts) || !(users <= env.deliverable)
        then Ok(Denied)
      else
        var subjects := users - {viewer};
        if exists subject :: subject in subjects && (viewer, subject) !in round.unlocks then Ok(Denied)
        else Ok(Granted(subjects))
  }
}
