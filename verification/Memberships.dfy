/** Demands, memberships and groups agree in every reachable state, and the member tally never fails. */
module Memberships {
  import opened Wrappers
  import opened Tables
  import opened Invariants
  import opened Runs
  import Formation
  import FormationProofs
  import Payment
  import RefundProofs
  import Safety
  import opened Theorems

  // ----- demands -----------------------------------------------------------------------------

  /** A demand is grouped exactly while its membership is active, in a group for the demand's own trip. */
  lemma GroupedIffMember(genders: Formation.Genders, steps: seq<Step>, d: DemandId)
    requires d in After(genders, steps).book.demands
    ensures var book := After(genders, steps).book;
            && Formation.HasRow(book, d)
            && var demand := book.demands[d];
               var home := book.groups[Formation.HomeOf(book, d)];
               && (demand.status.GROUPED? <==> Active(home.members[d].status))
               && home.window == demand.window && home.route == demand.route
               && home.members[d].user == demand.user && home.members[d].seats == demand.seats
               && (forall g :: g in book.groups && d in book.groups[g].members ==> g == Formation.HomeOf(book, d))
  {
    hide Run, Inv, NoClash, GroupInv;
    Safety.RunInv(genders, steps);
    DemandOf(After(genders, steps), d);
  }

  lemma DemandOf(s: State, d: DemandId)
    requires Inv(s) && d in s.book.demands
    ensures DemandInv(s.book, d)
    ensures forall g :: g in s.book.groups && d in s.book.groups[g].members ==> g == Formation.HomeOf(s.book, d)
  {
    hide GroupInv, NoClash;
  }

  /** No user is an active member twice in groups whose windows share an instant, the same group included. */
  lemma NoOverlappingMemberships(
    genders: Formation.Genders, steps: seq<Step>, g: GroupId, d: DemandId, h: GroupId, e: DemandId)
    requires var groups := After(genders, steps).book.groups;
             && g in groups && h in groups
             && d in Roster(groups[g].members) && e in Roster(groups[h].members)
             && d != e && groups[g].members[d].user == groups[h].members[e].user
    ensures var groups := After(genders, steps).book.groups;
            g != h && !Overlap(groups[g].window, groups[h].window)
  {
    hide Run, GroupInv;
    Safety.RunInv(genders, steps);
    NoOverlapIn(After(genders, steps).book, g, d, h, e);
  }

  lemma NoOverlapIn(book: Book, g: GroupId, d: DemandId, h: GroupId, e: DemandId)
    requires BookInv(book) && g in book.groups && h in book.groups
    requires d in Roster(book.groups[g].members) && e in Roster(book.groups[h].members)
    requires d != e && book.groups[g].members[d].user == book.groups[h].members[e].user
    ensures g != h && !Overlap(book.groups[g].window, book.groups[h].window)
  {
    hide GroupInv;
    assert DemandInv(book, d) && DemandInv(book, e);
  }

  /** No group ever seats more than four people, counts a user twice, or lists a member without a seat. */
  lemma GroupsFit(genders: Formation.Genders, steps: seq<Step>, g: GroupId)
    requires g in After(genders, steps).book.groups
    ensures var roster := Roster(After(genders, steps).book.groups[g].members);
            && SeatSum(roster) <= 4 && |roster| <= 4 && DistinctUsers(roster)
            && Formation.Recompute(After(genders, steps).book.groups[g]).Ok?
  {
    hide Run, RoundsInv, StateInv;
    Safety.RunInv(genders, steps);
    Safety.GroupOf(After(genders, steps).book, g);
    FitsBound(Roster(After(genders, steps).book.groups[g].members));
  }

  /** A READY, confirming, paying or delivered group has at least two members, each a different user. */
  lemma FormedGroupsHaveTwo(genders: Formation.Genders, steps: seq<Step>, g: GroupId)
    requires g in After(genders, steps).book.groups
    requires var state := After(genders, steps).book.groups[g].state;
             state.READY? || state.CONFIRMING? || state.PAYING? || state.CONTACTS_UNLOCKED?
    ensures |Users(Roster(After(genders, steps).book.groups[g].members))| >= 2
  {
    hide Run, GroupInv;
    Safety.RunInv(genders, steps);
    Safety.GroupOf(After(genders, steps).book, g);
    TwoUsers(After(genders, steps).book.groups[g]);
  }

  lemma TwoUsers(group: Group)
    requires GroupInv(group)
    requires group.state.READY? || group.state.CONFIRMING? || group.state.PAYING? || group.state.CONTACTS_UNLOCKED?
    ensures |Users(Roster(group.members))| >= 2
  {
    hide Fits, ConsentsInv, OrdersInv;
    FitsDistinct(Roster(group.members));
    RosterSize(Roster(group.members));
  }

  // ----- failures that cannot happen ---------------------------------------------------------

  lemma RecomputeOk(before: Group, moved: Group)
    requires GroupInv(before) && !Locked(before.state) && moved.rounds == before.rounds
    requires forall d :: d in Roster(moved.members) ==>
               d in Roster(before.members) && moved.members[d] == before.members[d]
    ensures Formation.Recompute(moved).Ok?
  {
    hide GroupInv, Fits;
    FormationProofs.RecomputeSound(before, moved);
  }

  lemma LeaveNeverThrows(group: Group, user: UserId)
    requires GroupInv(group)
    ensures Formation.LeaveGroup(group, user) != Err(INTERNAL_ERROR)
  {
    hide GroupInv, Fits, Formation.Recompute;
    var roster := Roster(group.members);
    if Recruitable(group.state) && user in Users(roster) {
      var d := Formation.RowOf(roster, user);
      RecomputeOk(group, group.(members := group.members[d := group.members[d].(status := LEFT)]));
    }
  }

  lemma CancelNeverThrows(book: Book, user: UserId, d: DemandId)
    requires BookInv(book)
    ensures Formation.CancelDemand(book, user, d) != Err(INTERNAL_ERROR)
  {
    hide GroupInv, Fits, NoClash, Formation.Recompute;
    if d in book.demands && DemandInv(book, d) {
      var group := book.groups[Formation.HomeOf(book, d)];
      if Recruitable(group.state) {
        RecomputeOk(group, group.(members := group.members[d := group.members[d].(status := LEFT)]));
      }
    }
  }

  /** The group a moved row leaves behind can always be tallied, locked or not. */
  lemma VacateNeverThrows(book: Book, d: DemandId, target: GroupId)
    requires BookInv(book)
    ensures Formation.Vacate(book, d, target).Ok?
  {
    hide Fits, NoClash, RoundsInv, StateInv, DemandInv;
    if Formation.HasRow(book, d) {
      var source := book.groups[Formation.HomeOf(book, d)];
      FitsSubset(Roster(source.members - {d}), Roster(source.members));
    }
  }

  lemma ConfirmNeverThrows(group: Group, i: nat, user: UserId, choice: Formation.Choice, env: Env)
    requires GroupInv(group)
    ensures Formation.ConfirmFormation(group, i, user, choice, env) != Err(INTERNAL_ERROR)
  {
    hide GroupInv, Formation.RefuseFormation, Formation.AcceptFormation;
    if Formation.ConfirmChecks(group, i, user, env).None? {
      FormationProofs.RefuseFormationSound(group, i, user, env);
    }
  }

  lemma PaymentTimeoutNeverThrows(group: Group, i: nat, now: int, at: int)
    requires GroupInv(group)
    ensures Payment.InvalidatePayment(group, i, now, at).Ok?
  {
    hide GroupInv;
    if Payment.PaymentDue(group, i, now) {
      forall u | u in group.rounds[i].orders ensures group.rounds[i].orders[u].amountFen == PRICE_FEN {
        RefundProofs.OrderOf(group, i, u);
      }
    }
  }

  lemma LocalNeverThrows(s: State, step: Step)
    requires IsLocal(step) && step.g in s.book.groups && GroupInv(s.book.groups[step.g])
    ensures LocalChange(s, step) == Err(INTERNAL_ERROR) ==> step.StartFormation? && step.policy.None?
  {
    hide GroupInv, Fits, Formation.ConfirmFormation, Formation.LeaveGroup, Formation.InvalidateConfirmation,
      Payment.InvalidatePayment, Payment.BeginCompensation, Payment.DeliverIfComplete, Formation.ExpireGroup;
    var group := s.book.groups[step.g];
    if step.LeaveGroup? {
      LeaveNeverThrows(group, step.user);
    } else if step.ConfirmFormation? {
      ConfirmNeverThrows(group, step.i, step.user, step.choice, step.env);
    } else if step.ConfirmationTimeout? {
      FormationProofs.InvalidateConfirmationSound(group, step.i, step.now);
    } else if step.PaymentTimeout? {
      PaymentTimeoutNeverThrows(group, step.i, step.now, step.at);
    }
  }

  /**
   * No tally, no compensation and no recovery ever throws: the one internal error left is a start
   * without a current contact policy.
   */
  lemma NeverThrows(genders: Formation.Genders, steps: seq<Step>, step: Step)
    ensures Exec(After(genders, steps), step) == Err(INTERNAL_ERROR) ==> step.StartFormation? && step.policy.None?
  {
    hide Run, GroupInv, BookInv, GatewayInv, RefundedInv, JobsInv, LocalChange, WorkerStep, Formation.CancelDemand,
      Formation.Vacate, Formation.Commit;
    var s := After(genders, steps);
    Safety.RunInv(genders, steps);
    if step.CancelDemand? {
      CancelNeverThrows(s.book, step.user, step.d);
    } else if step.JoinGroup? {
      VacateNeverThrows(s.book, step.d, step.g);
    } else if IsLocal(step) {
      if step.g in s.book.groups {
        Safety.GroupOf(s.book, step.g);
        LocalNeverThrows(s, step);
      }
    } else if !step.CreateDemand? && !step.ReadContacts? {
      WorkerNeverThrows(s, step);
    }
  }

  lemma WorkerNeverThrows(s: State, step: Step)
    requires Inv(s) && !IsLocal(step)
    requires !step.CreateDemand? && !step.CancelDemand? && !step.JoinGroup? && !step.ReadContacts?
    ensures WorkerStep(s, step) != Err(INTERNAL_ERROR)
  {
    hide GroupInv, GatewayInv, RefundedInv, JobsInv, Payment.FinishRefund, Payment.ClaimRefund, Payment.RestoreRefund;
    if step.FinishRefund? && step.worker in s.jobs && s.jobs[step.worker].key.group in s.book.groups {
      var key := s.jobs[step.worker].key;
      RefundProofs.FinishSound(s.book.groups[key.group], key.round, key.user);
    }
  }
}
