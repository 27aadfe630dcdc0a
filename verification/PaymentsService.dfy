/** apps/api/src/payments/payments.service.ts: each request as the sequence of table updates its transaction makes. */
module PaymentsServices {
  import opened Wrappers
  import opened Tables
  import opened Runs
  import opened Store
  import opened Invariants
  import Formation
  import Payment

  /** The updateMany that closes what nobody paid. */
  function CloseUnpaid(orders: map<UserId, Order>): map<UserId, Order> {
    map u | u in orders :: if Payment.Payable(orders[u].status) then orders[u].(status := CLOSED) else orders[u]
  }

  function PaidUsers(orders: map<UserId, Order>): set<UserId> {
    set u | u in orders && orders[u].status.PAID?
  }

  /** The orders after the refunds of some payers have been requested. */
  function Requested(orders: map<UserId, Order>, done: set<UserId>, at: int): map<UserId, Order> {
    map u | u in orders ::
      if u in done || !orders[u].status.PAID? then Payment.Compensated(orders[u], at) else orders[u]
  }

  /** The loop over the paid orders, shared in wording by both compensations. */
  method RequestRefunds(db: Database, g: GroupId, i: nat, paid: set<UserId>, at: int)
    requires g in db.groups && i < |db.groups[g].rounds|
    requires paid == PaidUsers(db.groups[g].rounds[i].orders)
    requires db.groups[g].rounds[i].orders == CloseUnpaid(db.groups[g].rounds[i].orders)
    modifies db`groups
    ensures db.groups == old(db.groups)[g := Payment.SetRound(
                           old(db.groups[g]), i,
                           old(db.groups[g].rounds[i]).(orders :=
                               Payment.CompensatedOrders(old(db.groups[g].rounds[i].orders), at)))]
  {
    ghost var group := db.groups[g];
    ghost var orders := db.groups[g].rounds[i].orders;
    ghost var done: set<UserId> := {};
    var rest := paid;
    NothingRequested(orders, at);
    while rest != {}
      invariant rest !! done && rest + done == paid
      invariant g in db.groups && db.groups == old(db.groups)[g := db.groups[g]]
      invariant |db.groups[g].rounds| == |group.rounds| &&
                db.groups[g] == Payment.SetRound(group, i, db.groups[g].rounds[i])
      invariant db.groups[g].rounds[i] == group.rounds[i].(orders := Requested(orders, done, at))
    {
      hide Requested;
      var user :| user in rest;
      rest := rest - {user};
      RequestedOne(orders, done, user, at);
      var round := db.groups[g].rounds[i];
      var order := round.orders[user];
      db.UpdateRound(g, i, round.(orders := round.orders[user := order.(status := OrderStatus.REFUND_PENDING)]));
      round := db.groups[g].rounds[i];
      order := round.orders[user];
      db.UpdateRound(g, i,
                     round.(orders := round.orders[user := order.(refund := Payment.RequestRefund(order.refund, at))]));
      done := done + {user};
      assert db.groups[g].rounds[i].orders == Requested(orders, done, at);
    }
    assert Requested(orders, paid, at) == Payment.CompensatedOrders(orders, at);
  }

  lemma NothingRequested(orders: map<UserId, Order>, at: int)
    requires orders == CloseUnpaid(orders)
    ensures Requested(orders, {}, at) == orders
  {
    forall u | u in orders ensures Requested(orders, {}, at)[u] == orders[u] {
      assert orders[u] == CloseUnpaid(orders)[u];
    }
  }

  lemma RequestedOne(orders: map<UserId, Order>, done: set<UserId>, user: UserId, at: int)
    requires user in PaidUsers(orders) && user !in done
    ensures user in Requested(orders, done, at) && Requested(orders, done, at)[user] == orders[user]
    ensures Requested(orders, done + {user}, at) ==
            Requested(orders, done, at)[user := Payment.Compensated(orders[user], at)]
    ensures Payment.Compensated(orders[user], at) ==
            orders[user].(status := OrderStatus.REFUND_PENDING).(refund := Payment.RequestRefund(orders[user].refund,
                at))
  {
  }

  lemma ClosedFirst(orders: map<UserId, Order>, at: int)
    ensures CloseUnpaid(CloseUnpaid(orders)) == CloseUnpaid(orders)
    ensures PaidUsers(CloseUnpaid(orders)) == PaidUsers(orders)
    ensures Payment.CompensatedOrders(CloseUnpaid(orders), at) == Payment.CompensatedOrders(orders, at)
  {
  }

  class PaymentsService {
    const db: Database
    const genders: Formation.Genders
    var log: seq<Access>

    constructor (db: Database, genders: Formation.Genders)
      ensures this.db == db && this.genders == genders && log == []
    {
      this.db := db;
      this.genders := genders;
      this.log := [];
    }

    // ----- orders ------------------------------------------------------------------------------

    method CreateOrder(user: UserId, g: GroupId, i: nat, env: Env) returns (error: Option<Error>)
      requires db.Valid()
      modifies db
      ensures db.Valid()
      ensures Performs(old(db.View()), genders, Step.CreateOrder(user, g, i, env), db.View(), error)
    {
      hide BookInv, GroupInv, Performs, LocalChange;
      ghost var before := db.View();
      if g !in db.groups {
        MissingGroup(before, genders, Step.CreateOrder(user, g, i, env));
        return Some(if user !in env.eligible then STUDENT_NOT_VERIFIED else PAYMENT_NOT_CONFIRMED);
      }
      error := OrderTransaction(user, g, i, env);
      LocalPerforms(before, genders, Step.CreateOrder(user, g, i, env), db.View(), error) by {
        OrderIs(before, genders, user, g, i, env);
      }
    }

    method OrderTransaction(user: UserId, g: GroupId, i: nat, env: Env) returns (error: Option<Error>)
      requires g in db.groups
      modifies db
      ensures Commits(old(db.View()), db.View(), g, Payment.CreateOrder(old(db.groups[g]), i, user, env), OPEN, error)
    {
      ghost var before := db.View();
      var group := db.groups[g];
      if user !in env.eligible {
        return Some(STUDENT_NOT_VERIFIED);
      }
      if i >= |group.rounds| || !group.rounds[i].state.PAYING? || !group.state.PAYING? || group.rounds[i].payBy.None? ||
         group.rounds[i].payBy.value <= env.now || user !in Users(Payment.Debtors(group.members)) {
        return Some(PAYMENT_NOT_CONFIRMED);
      }
      Untouched(before, g);
      var round := group.rounds[i];
      if user in round.orders {
        return None;
      }
      db.UpdateRound(g, i,
                     round.(orders := round.orders[user := Order(PRICE_FEN, round.payBy.value, CREATED, false, false,
                                                                 None)]));
      return None;
    }

    method CreatePrepay(user: UserId, g: GroupId, i: nat, now: int) returns (error: Option<Error>)
      requires db.Valid()
      modifies db
      ensures db.Valid()
      ensures Performs(old(db.View()), genders, Step.CreatePrepay(user, g, i, now), db.View(), error)
    {
      hide BookInv, GroupInv, Performs, LocalChange;
      ghost var before := db.View();
      if g !in db.groups {
        MissingGroup(before, genders, Step.CreatePrepay(user, g, i, now));
        return Some(RESOURCE_NOT_FOUND);
      }
      error := PrepayTransaction(user, g, i, now);
      LocalPerforms(before, genders, Step.CreatePrepay(user, g, i, now), db.View(), error) by {
        PrepayIs(before, genders, user, g, i, now);
      }
    }

    method PrepayTransaction(user: UserId, g: GroupId, i: nat, now: int) returns (error: Option<Error>)
      requires g in db.groups
      modifies db
      ensures Commits(old(db.View()), db.View(), g, Payment.CreatePrepay(old(db.groups[g]), i, user, now), OPEN, error)
    {
      ghost var before := db.View();
      var group := db.groups[g];
      if i >= |group.rounds| || user !in group.rounds[i].orders {
        return Some(RESOURCE_NOT_FOUND);
      }
      var round := group.rounds[i];
      var order := round.orders[user];
      if !round.state.PAYING? || !group.state.PAYING? || order.expiresAt <= now || !Payment.Payable(order.status) {
        return Some(PAYMENT_NOT_CONFIRMED);
      }
      Untouched(before, g);
      order := order.(intent := true);
      db.UpdateRound(g, i, round.(orders := round.orders[user := order]));
      if order.status.CREATED? {
        round := db.groups[g].rounds[i];
        db.UpdateRound(g, i, round.(orders := round.orders[user := order.(status := OrderStatus.PAYING)]));
      }
      error := None;
      assert db.groups[g].rounds[i].orders ==
             Payment.CreatePrepay(before.groups[g], i, user, now).value.group.rounds[i].orders;
      assert db.groups[g].rounds == Payment.CreatePrepay(before.groups[g], i, user, now).value.group.rounds;
      assert db.groups == before.groups[g := db.groups[g]];
    }

    method CompleteMockPayment(user: UserId, g: GroupId, i: nat, intentMatches: bool, env: Env)
        returns (error: Option<Error>)
      requires db.Valid()
      modifies db
      ensures db.Valid()
      ensures Performs(old(db.View()), genders, Step.CompletePayment(user, g, i, intentMatches, env), db.View(), error)
    {
      hide BookInv, GroupInv, Performs, LocalChange;
      ghost var before := db.View();
      if g !in db.groups {
        MissingGroup(before, genders, Step.CompletePayment(user, g, i, intentMatches, env));
        return Some(RESOURCE_NOT_FOUND);
      }
      error := PaymentTransaction(user, g, i, intentMatches, env);
      LocalPerforms(before, genders, Step.CompletePayment(user, g, i, intentMatches, env), db.View(), error) by {
        PaymentIs(before, genders, user, g, i, intentMatches, env);
      }
    }

    method PaymentTransaction(user: UserId, g: GroupId, i: nat, intentMatches: bool, env: Env)
        returns (error: Option<Error>)
      requires g in db.groups
      modifies db
      ensures Commits(old(db.View()), db.View(), g,
                      Payment.CompletePayment(old(db.groups[g]), i, user, intentMatches, env), OPEN, error)
    {
      hide Payment.DeliverIfComplete;
      ghost var before := db.View();
      var group := db.groups[g];
      if i >= |group.rounds| || user !in group.rounds[i].orders {
        return Some(RESOURCE_NOT_FOUND);
      }
      if !intentMatches {
        return Some(RESOURCE_NOT_FOUND);
      }
      Untouched(before, g);
      var round := group.rounds[i];
      var order := round.orders[user];
      if order.status.DELIVERED? || order.status.PAID? {
        return None;
      }
      if !round.state.PAYING? || !group.state.PAYING? || order.expiresAt <= env.now || !Payment.Payable(order.status) {
        return Some(PAYMENT_NOT_CONFIRMED);
      }
      RecordPayment(user, g, i);
      DeliverIfComplete(g, i, env);
      Overwritten(before.groups, g, Payment.Settle(group, i, user), db.groups[g]);
      return None;
    }

    /** The settled transaction row, the paid order and the paid membership. */
    method RecordPayment(user: UserId, g: GroupId, i: nat)
      requires g in db.groups && Payment.HasOrder(db.groups[g], i, user) &&
               Payment.Payable(db.groups[g].rounds[i].orders[user].status)
      modifies db`groups
      ensures db.groups == old(db.groups)[g := Payment.Settle(old(db.groups[g]), i, user)]
    {
      ghost var before := db.groups;
      var round := db.groups[g].rounds[i];
      db.UpdateRound(g, i, round.(orders := round.orders[user := round.orders[user].(settled := true)]));
      round := db.groups[g].rounds[i];
      db.UpdateRound(g, i, round.(orders := round.orders[user := round.orders[user].(status := OrderStatus.PAID)]));
      assert db.groups[g].rounds[i].orders == Payment.Settle(before[g], i, user).rounds[i].orders;
      db.UpdateMembersOf(g, user, PAYMENT_PENDING, MemberStatus.PAID);
      assert db.groups[g].rounds == Payment.Settle(before[g], i, user).rounds;
      assert db.groups == before[g := db.groups[g]];
    }

    // ----- delivery and compensation -----------------------------------------------------------

    method DeliverIfComplete(g: GroupId, i: nat, env: Env)
      requires g in db.groups
      modifies db
      ensures db.View() ==
              Formation.Commit(old(db.View()), g, Payment.DeliverIfComplete(old(db.groups[g]), i, env), OPEN)
    {
      hide Payment.Compensate;
      ghost var before := db.View();
      Untouched(before, g);
      var group := db.groups[g];
      if i >= |group.rounds| || !group.rounds[i].state.PAYING? || !group.state.PAYING? {
        return;
      }
      if Payment.Debtors(group.members) != map[] {
        return;
      }
      var round := group.rounds[i];
      var members := Payment.Payers(group.members);
      var users := Users(members);
      var valid :=
        |members| >= 2 && members == round.snapshot && |round.orders| == |members| &&
        (forall u :: u in round.orders ==> u in users && Payment.OrderDeliverable(round.orders[u], round.payBy)) &&
        |round.consents| == |members| &&
        (forall u :: u in round.consents ==> !round.consents[u].revoked && round.consents[u].policy == round.policy) &&
        users <= env.contacts && users <= env.deliverable;
      if !valid {
        BeginCompensation(g, i, env.at);
        return;
      }
      Unlock(g, i, users);
    }

    /** The writes of a delivery; the last one creates an unlock for every ordered pair. */
    method Unlock(g: GroupId, i: nat, users: set<UserId>)
      requires g in db.groups && i < |db.groups[g].rounds| && users == Users(Payment.Payers(db.groups[g].members))
      modifies db
      ensures db.View() ==
              Formation.Commit(old(db.View()), g, Formation.Change(Payment.Deliver(old(db.groups[g]), i), {}), OPEN)
    {
      hide Users, Standing;
      ghost var before := db.View();
      Untouched(before, g);
      db.UpdateRound(g, i, db.groups[g].rounds[i].(state := RoundState.DELIVERED));
      db.UpdateGroup(g, CONTACTS_UNLOCKED);
      var orders := db.groups[g].rounds[i].orders;
      orders := map u | u in orders ::
        if orders[u].status.PAID? then orders[u].(status := OrderStatus.DELIVERED) else orders[u];
      db.UpdateRound(g, i, db.groups[g].rounds[i].(orders := orders));
      db.UpdateMembers(g, MemberStatus.PAID, CONTACT_UNLOCKED);
      db.UpdateRound(g, i, db.groups[g].rounds[i].(unlocks := db.groups[g].rounds[i].unlocks + Pairs(users)));
      assert db.groups[g] == Payment.Deliver(before.groups[g], i);
      assert db.groups == before.groups[g := db.groups[g]];
    }

    method BeginCompensation(g: GroupId, i: nat, at: int)
      requires g in db.groups
      modifies db
      ensures db.View() ==
              Formation.Commit(old(db.View()), g, Payment.BeginCompensation(old(db.groups[g]), i, at), OPEN)
    {
      hide Payment.CompensatedOrders, CloseUnpaid, PaidUsers, Restatus, Standing;
      ghost var before := db.View();
      Untouched(before, g);
      var group := db.groups[g];
      if i >= |group.rounds| || !group.rounds[i].state.PAYING? || !group.state.PAYING? {
        return;
      }
      var orders := group.rounds[i].orders;
      ClosedFirst(orders, at);
      db.UpdateRound(g, i, db.groups[g].rounds[i].(state := RoundState.REFUNDING));
      db.UpdateGroup(g, GroupState.REFUNDING);
      db.UpdateRound(g, i, db.groups[g].rounds[i].(orders := CloseUnpaid(orders)));
      var unpaid := Payment.Debtors(group.members).Keys;
      if unpaid != {} {
        db.UpdateMembers(g, PAYMENT_PENDING, PAYMENT_TIMEOUT);
        db.UpdateDemands(unpaid, OPEN);
      } else {
        NobodyOwes(group.members);
      }
      RequestRefunds(db, g, i, PaidUsers(orders), at);
      assert db.groups[g] == Payment.Compensate(group, i, group.rounds[i].consents, at).group;
      assert db.groups == before.groups[g := db.groups[g]];
    }

    method RevokeContactConsent(user: UserId, g: GroupId, i: nat, at: int) returns (error: Option<Error>)
      requires db.Valid()
      modifies db
      ensures db.Valid()
      ensures Performs(old(db.View()), genders, Step.RevokeConsent(user, g, i, at), db.View(), error)
    {
      hide BookInv, GroupInv, Performs, LocalChange;
      ghost var before := db.View();
      if g !in db.groups {
        MissingGroup(before, genders, Step.RevokeConsent(user, g, i, at));
        return Some(RESOURCE_NOT_FOUND);
      }
      error := RevokeTransaction(user, g, i, at);
      LocalPerforms(before, genders, Step.RevokeConsent(user, g, i, at), db.View(), error) by {
        RevokeIs(before, genders, user, g, i, at);
      }
    }

    method RevokeTransaction(user: UserId, g: GroupId, i: nat, at: int) returns (error: Option<Error>)
      requires g in db.groups
      modifies db
      ensures Commits(old(db.View()), db.View(), g, Payment.RevokeConsent(old(db.groups[g]), i, user, at), OPEN, error)
    {
      hide Payment.Compensate;
      ghost var before := db.View();
      Untouched(before, g);
      var group := db.groups[g];
      if i >= |group.rounds| || user !in Payment.AllUsers(group.members) {
        return Some(RESOURCE_NOT_FOUND);
      }
      var round := group.rounds[i];
      if user !in round.consents || round.consents[user].revoked {
        return None;
      }
      db.UpdateRound(g, i, round.(consents := round.consents[user := round.consents[user].(revoked := true)]));
      ghost var revoked := db.groups[g];
      if round.state.PAYING? && group.state.PAYING? {
        BeginCompensation(g, i, at);
      }
      Overwritten(before.groups, g, revoked, db.groups[g]);
      return None;
    }

    // ----- contact reads -----------------------------------------------------------------------

    /** Answers a read of another member's contact and logs the answer. */
    method GetUnlockedContacts(user: UserId, g: GroupId, env: Env) returns (reading: Result<Payment.Reading>)
      modifies this`log
      ensures g !in db.groups ==> reading == Err(RESOURCE_NOT_FOUND)
      ensures g in db.groups ==> reading == Payment.ReadContacts(db.groups[g], user, env)
      ensures log == old(log) + if reading.Ok? then [Access(g, user, reading.value)] else []
    {
      if g !in db.groups || db.groups[g].rounds == [] {
        return Err(RESOURCE_NOT_FOUND);
      }
      var group := db.groups[g];
      var round := group.rounds[|group.rounds| - 1];
      if !round.state.DELIVERED? && round.orders == map[] {
        return Err(RESOURCE_NOT_FOUND);
      }
      var members := Standing(group.members, CONTACT_UNLOCKED);
      var users := Users(members);
      if !group.state.CONTACTS_UNLOCKED? || user !in users || |members| < 2 || |round.consents| != |members| ||
         (exists u :: u in round.consents && round.consents[u].revoked) ||
         (exists u :: u in users && (u !in env.contacts || u !in env.deliverable)) {
        log := log + [Access(g, user, Payment.Denied)];
        return Ok(Payment.Denied);
      }
      var subjects := users - {user};
      if exists subject :: subject in subjects && (user, subject) !in round.unlocks {
        log := log + [Access(g, user, Payment.Denied)];
        return Ok(Payment.Denied);
      }
      log := log + [Access(g, user, Payment.Granted(subjects))];
      return Ok(Payment.Granted(subjects));
    }
  }

  // ----- facts about the writes ----------------------------------------------------------------

  lemma Untouched(book: Book, g: GroupId)
    requires g in book.groups
    ensures Formation.SetDemands(book.demands, {}, OPEN) == book.demands
    ensures book.groups[g := book.groups[g]] == book.groups
  {
  }

  /** Two writes to one group are one. */
  lemma Overwritten(groups: map<GroupId, Group>, g: GroupId, first: Group, second: Group)
    ensures groups[g := first][g := second] == groups[g := second]
  {
  }

  lemma NobodyOwes(members: map<DemandId, Member>)
    requires Payment.Debtors(members).Keys == {}
    ensures Restatus(members, PAYMENT_PENDING, PAYMENT_TIMEOUT) == members
  {
    forall d | d in members ensures members[d].status != PAYMENT_PENDING {
      assert d !in Payment.Debtors(members).Keys;
    }
  }

  lemma OrderIs(before: Book, genders: Formation.Genders, user: UserId, g: GroupId, i: nat, env: Env)
    requires g in before.groups
    ensures LocalChange(Empty.(book := before, genders := genders), Step.CreateOrder(user, g, i, env)) ==
            Payment.CreateOrder(before.groups[g], i, user, env)
  {
    hide Payment.CreateOrder;
  }

  lemma PrepayIs(before: Book, genders: Formation.Genders, user: UserId, g: GroupId, i: nat, now: int)
    requires g in before.groups
    ensures LocalChange(Empty.(book := before, genders := genders), Step.CreatePrepay(user, g, i, now)) ==
            Payment.CreatePrepay(before.groups[g], i, user, now)
  {
    hide Payment.CreatePrepay;
  }

  lemma PaymentIs(before: Book, genders: Formation.Genders, user: UserId, g: GroupId, i: nat, intentMatches: bool,
                  env: Env)
    requires g in before.groups
    ensures LocalChange(Empty.(book := before, genders := genders),
                        Step.CompletePayment(user, g, i, intentMatches, env)) ==
            Payment.CompletePayment(before.groups[g], i, user, intentMatches, env)
  {
    hide Payment.CompletePayment;
  }

  lemma RevokeIs(before: Book, genders: Formation.Genders, user: UserId, g: GroupId, i: nat, at: int)
    requires g in before.groups
    ensures LocalChange(Empty.(book := before, genders := genders), Step.RevokeConsent(user, g, i, at)) ==
            Payment.RevokeConsent(before.groups[g], i, user, at)
  {
    hide Payment.RevokeConsent;
  }
}
