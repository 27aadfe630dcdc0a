/** Which failing condition a refused request reports. */
module Refusals {
  import opened Wrappers
  import opened Tables
  import opened Runs
  import opened Invariants
  import opened FormationOutcomes
  import opened JoinOutcomes
  import opened RoundOutcomes
  import opened PaymentOutcomes
  import BookProofs
  import Formation
  import Memberships
  import Payment
  import Safety

  /** An unverified user, an impossible window, and a second demand for the same time are told apart. */
  lemma DemandRefusals(s: State, demand: Demand, d: DemandId, g: GroupId, enabled: bool, env: Env)
    ensures var result := Exec(s, CreateDemand(demand, d, g, enabled, env));
            var possible := enabled && env.now < demand.window.start < demand.window.end;
            && (result == Err(STUDENT_NOT_VERIFIED) <==> demand.user !in env.eligible)
            && (result == Err(VALIDATION_ERROR) <==> demand.user in env.eligible && !possible)
            && (result == Err(OVERLAPPING_ACTIVE_GROUP) <==>
                demand.user in env.eligible && possible && Busy(s, demand.user, demand.window))
  {
    if e :| e in s.book.demands && Formation.Overlapping(s.book.demands[e], demand.user, demand.window) {
      assert Busy(s, demand.user, demand.window);
    }
    if Busy(s, demand.user, demand.window) {
      var e :| e in s.book.demands && s.book.demands[e].user == demand.user && Live(s.book.demands[e]) &&
               s.book.demands[e].window.start < demand.window.end && demand.window.start < s.book.demands[e].window.end;
      assert Formation.Overlapping(s.book.demands[e], demand.user, demand.window);
    }
  }

  /** The demand is open, or its user is alone in a recruiting group. */
  predicate Movable(s: State, d: DemandId)
    requires d in s.book.demands
  {
    s.book.demands[d].status.OPEN? ||
    (s.book.demands[d].home.Some? && s.book.demands[d].home.value in s.book.groups &&
     s.book.groups[s.book.demands[d].home.value].state.RECRUITING?)
  }

  /** Of a join that the group would admit: the user is busy elsewhere, seats are lacking, or preferences clash. */
  lemma JoinRefusals(s: State, user: UserId, g: GroupId, d: DemandId, env: Env)
    requires Inv(s) && Applies(s, user, g, d, env) && !GroupedIn(s, g, d)
    ensures var result := Exec(s, JoinGroup(user, g, d, env));
            var seats := SeatSum(Roster(s.book.groups[g].members)) + s.book.demands[d].seats;
            var rows := Roster(s.book.groups[g].members)[d := Seat(user, s.book.demands[d].seats)];
            && (result == Err(OVERLAPPING_ACTIVE_GROUP) <==> !Movable(s, d))
            && (result == Err(GROUP_CAPACITY_EXCEEDED) <==> Movable(s, d) && seats > 4)
            && (result == Err(GENDER_PREFERENCE_INCOMPATIBLE) <==> Movable(s, d) && seats <= 4 && !AllSuit(s, rows))
  {
    hide Inv, BookInv, Fits, Formation.OverlappingRows, Formation.Vacate, Formation.Compatible, AllSuit, Applies,
      Formation.JoinChecks, LocalChange, WorkerStep;
    AppliesTo(s, user, g, d, env);
    var group := s.book.groups[g];
    var seats := s.book.demands[d].seats;
    InvBook(s);
    Checked(s, user, g, d, env);
    RowThere(s, d);
    Memberships.VacateNeverThrows(s.book, d, g);
    OnlyItself(s, user, g, d, env);
    NotYetIn(s, user, g, d, env);
    Safety.GroupOf(s.book, g);
    assert Fits(Roster(group.members)) by { BookProofs.InvFits(group); }
    Room(Roster(group.members), d, user, seats);
    AllSuitIs(s, Roster(group.members)[d := Seat(user, seats)]);
    Alone(s, s.book.demands[d].home.value);
  }

  lemma AppliesTo(s: State, user: UserId, g: GroupId, d: DemandId, env: Env)
    requires Applies(s, user, g, d, env)
    ensures g in s.book.groups && d in s.book.demands && s.book.demands[d].user == user
    ensures s.book.demands[d].status.OPEN? || s.book.demands[d].status.GROUPED?
  {
  }

  /** A confirmation that comes too late, and a consent to another policy than the round's, are told apart. */
  lemma ConfirmRefusals(s: State, user: UserId, g: GroupId, i: nat, choice: Formation.Choice, env: Env)
    requires Inv(s)
    ensures var result := Exec(s, ConfirmFormation(user, g, i, choice, env));
            && (result == Err(FORMATION_EXPIRED) <==>
                && user in env.eligible && g in s.book.groups && i < |s.book.groups[g].rounds|
                && s.book.groups[g].state == GroupState.CONFIRMING
                && s.book.groups[g].rounds[i].state == RoundState.CONFIRMING
                && s.book.groups[g].rounds[i].confirmBy <= env.now)
            && (result == Err(CONTACT_CONSENT_VERSION_MISMATCH) <==>
                MayDecide(s, user, g, i, env) && choice.Consent? && choice.policy != s.book.groups[g].rounds[i].policy)
  {
    hide Inv, GroupInv, Fits, IsIn, AllIn, Formation.AcceptFormation, Formation.RefuseFormation, Roster, Users,
      WorkerStep;
    if g in s.book.groups {
      Safety.GroupIn(s, g);
      Decider(s.book.groups[g], i, user, env);
      RefusalNeverFails(s.book.groups[g], i, user, env);
    }
  }

  lemma RefusalNeverFails(group: Group, i: nat, user: UserId, env: Env)
    requires GroupInv(group)
    ensures Formation.ConfirmChecks(group, i, user, env).None? ==>
              Formation.ConfirmFormation(group, i, user, Formation.Refuse, env).Ok?
  {
    hide GroupInv, Formation.RefuseFormation;
    if Formation.ConfirmChecks(group, i, user, env).None? {
      RefuseAchieves(group, i, user, env);
    }
  }

  /** A payment without an order or with another intent finds nothing; one that is late or closed is not confirmed. */
  lemma PaymentRefusals(s: State, user: UserId, g: GroupId, i: nat, intentMatches: bool, env: Env)
    requires Inv(s)
    ensures var result := Exec(s, CompletePayment(user, g, i, intentMatches, env));
            && (result == Err(RESOURCE_NOT_FOUND) <==> !HoldsOrder(s, g, i, user) || !intentMatches)
            && (result == Err(PAYMENT_NOT_CONFIRMED) <==>
                && HoldsOrder(s, g, i, user) && intentMatches && !OrderOf(s, g, i, user).status.PAID?
                && !OrderOf(s, g, i, user).status.DELIVERED? && !MayPay(s, user, g, i, env))
  {
    hide Inv, WorkerStep, Payment.DeliverIfComplete, Payment.Settle;
  }
}
