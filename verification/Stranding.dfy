/** What becomes of an unfinished round whose group a join has taken out of its locked state. */
module Stranding {
  import opened Tables
  import opened Invariants
  import opened Runs
  import Formation
  import Payment
  import RefundProofs
  import Safety
  import Causes

  /** The round is unfinished, its group is not locked by it. */
  predicate Adrift(group: Group, i: nat) {
    i < |group.rounds| && Open(group.rounds[i].state) && !Locked(group.state)
  }

  /** The round keeps its state, no round is added, and the group is not locked again. */
  predicate StillAdrift(before: Group, after: Group, i: nat)
    requires Adrift(before, i)
  {
    Adrift(after, i) && |after.rounds| == |before.rounds| && after.rounds[i].state == before.rounds[i].state
  }

  lemma RevokedAdrift(group: Group, k: nat, user: UserId, i: nat, at: int)
    requires Adrift(group, i) && Payment.RevokeConsent(group, k, user, at).Ok?
    ensures StillAdrift(group, Payment.RevokeConsent(group, k, user, at).value.group, i)
  {
    hide Payment.Compensate;
  }

  /**
   * Whatever asks for the group's locked state fails or does nothing, and no new round can be opened beside this one.
   */
  lemma LocalAdrift(s: State, step: Step, i: nat)
    requires IsLocal(step) && step.g in s.book.groups && Adrift(s.book.groups[step.g], i) && LocalChange(s, step).Ok?
    ensures StillAdrift(s.book.groups[step.g], LocalChange(s, step).value.group, i)
  {
    hide Fits, Payment.RevokeConsent, Formation.Compatible;
    var group := s.book.groups[step.g];
    match step
    case LeaveGroup(user, _) => LeftAdrift(group, user, i);
    case StartFormation(_, _, _, _) =>
    case ConfirmFormation(_, _, _, _, _) =>
    case ConfirmationTimeout(_, _, _) =>
    case GroupExpiry(_, _) =>
    case CreateOrder(_, _, _, _) =>
    case CreatePrepay(_, _, _, _) =>
    case CompletePayment(_, _, _, _, _) =>
    case RevokeConsent(user, _, k, at) => RevokedAdrift(group, k, user, i, at);
    case PaymentTimeout(_, _, _, _) =>
  }

  lemma LeftAdrift(group: Group, user: UserId, i: nat)
    requires Adrift(group, i) && Formation.LeaveGroup(group, user).Ok?
    ensures StillAdrift(group, Formation.LeaveGroup(group, user).value.group, i)
  {
    hide Fits;
  }

  /** A worker may still pay refunds back, but recovers only a refunding group. */
  lemma WorkerAdrift(group: Group, k: nat, user: UserId, i: nat)
    requires GroupInv(group) && Adrift(group, i)
    ensures StillAdrift(group, Payment.ClaimRefund(group, k, user).group, i)
    ensures StillAdrift(group, Payment.RestoreRefund(group, k, user), i)
    ensures Payment.FinishRefund(group, k, user).Ok? &&
            StillAdrift(group, Payment.FinishRefund(group, k, user).value, i)
  {
    hide GroupInv, RefundProofs.RefundStep;
    RefundProofs.ClaimSound(group, k, user);
    RefundProofs.FinishSound(group, k, user);
  }

  lemma BookAdrift(s: State, step: Step, g: GroupId, i: nat)
    requires step.CreateDemand? || step.CancelDemand? || step.JoinGroup?
    requires Exec(s, step).Ok? && g in s.book.groups && Adrift(s.book.groups[g], i)
    ensures g in Exec(s, step).value.book.groups && StillAdrift(s.book.groups[g], Exec(s, step).value.book.groups[g], i)
  {
    hide Formation.CreateDemand, Formation.CancelDemand, Formation.JoinGroup, WorkerStep, LocalChange;
    Causes.SameRounds(s, step, g);
    BookUnlocked(s, step, g);
  }

  lemma BookUnlocked(s: State, step: Step, g: GroupId)
    requires step.CreateDemand? || step.CancelDemand? || step.JoinGroup?
    requires Exec(s, step).Ok? && g in s.book.groups && !Locked(s.book.groups[g].state)
    ensures g in Exec(s, step).value.book.groups && !Locked(Exec(s, step).value.book.groups[g].state)
  {
    hide WorkerStep, LocalChange, Formation.CreateDemand, Formation.CancelDemand, Formation.JoinGroup;
    if step.CreateDemand? {
      CreateUnlocked(s.book, step, g);
    } else if step.CancelDemand? {
      CancelUnlocked(s.book, step.user, step.d, g);
    } else {
      JoinUnlocked(s, step, g);
    }
  }

  lemma CreateUnlocked(book: Book, step: Step, g: GroupId)
    requires step.CreateDemand? && g in book.groups && !Locked(book.groups[g].state)
    ensures var after := Formation.CreateDemand(book, step.demand, step.d, step.g, step.enabled, step.env);
            after.Ok? ==> g in after.value.groups && !Locked(after.value.groups[g].state)
  {
  }

  lemma CancelUnlocked(book: Book, user: UserId, d: DemandId, g: GroupId)
    requires g in book.groups && !Locked(book.groups[g].state)
    ensures var after := Formation.CancelDemand(book, user, d);
            after.Ok? ==> g in after.value.groups && !Locked(after.value.groups[g].state)
  {
    hide Fits;
  }

  lemma JoinUnlocked(s: State, step: Step, g: GroupId)
    requires step.JoinGroup? && g in s.book.groups && !Locked(s.book.groups[g].state)
    ensures var after := Formation.JoinGroup(s.book, s.genders, step.user, step.g, step.d, step.env);
            after.Ok? ==> g in after.value.groups && !Locked(after.value.groups[g].state)
  {
    hide Fits, Formation.JoinChecks, Formation.Compatible, Formation.Transferable, Formation.OverlappingRows,
      Formation.Vacate;
    VacateUnlocked(s.book, step.d, step.g, g);
  }

  lemma VacateUnlocked(book: Book, d: DemandId, target: GroupId, g: GroupId)
    requires g in book.groups && !Locked(book.groups[g].state)
    ensures var after := Formation.Vacate(book, d, target);
            after.Ok? ==> g in after.value && !Locked(after.value[g].state)
  {
    hide Fits;
  }

  lemma WorkersAdrift(s: State, step: Step, g: GroupId, i: nat)
    requires BookInv(s.book) && g in s.book.groups && Adrift(s.book.groups[g], i)
    requires !IsLocal(step) && !step.CreateDemand? && !step.CancelDemand? && !step.JoinGroup? && !step.ReadContacts?
    ensures g in Next(s, step).book.groups && StillAdrift(s.book.groups[g], Next(s, step).book.groups[g], i)
  {
    hide BookInv, GroupInv, LocalChange, Adrift, Payment.ClaimRefund, Payment.RestoreRefund, Payment.FinishRefund;
    var group := s.book.groups[g];
    Safety.GroupOf(s.book, g);
    if step.ClaimRefund? {
      WorkerAdrift(group, step.key.round, step.key.user, i);
    } else if (step.FinishRefund? || step.RestoreRefund?) && step.worker in s.jobs {
      WorkerAdrift(group, s.jobs[step.worker].key.round, s.jobs[step.worker].key.user, i);
    }
  }

  lemma StepAdrift(s: State, step: Step, g: GroupId, i: nat)
    requires Inv(s) && g in s.book.groups && Adrift(s.book.groups[g], i)
    ensures g in Next(s, step).book.groups && StillAdrift(s.book.groups[g], Next(s, step).book.groups[g], i)
  {
    hide BookInv, GroupInv, GatewayInv, RefundedInv, JobsInv, LocalChange, Adrift, Formation.SetDemands,
      Formation.CreateDemand, Formation.CancelDemand, Formation.JoinGroup, WorkerStep;
    if step.CreateDemand? || step.CancelDemand? || step.JoinGroup? {
      if Exec(s, step).Ok? {
        BookAdrift(s, step, g, i);
      }
    } else if IsLocal(step) {
      if step.g == g && LocalChange(s, step).Ok? {
        LocalAdrift(s, step, i);
      }
    } else if !step.ReadContacts? {
      WorkersAdrift(s, step, g, i);
    }
  }

  /**
   * An unfinished round adrift of its group is so for ever: under every further run it keeps its state, no round is
   * opened beside it, and the group is never locked again.
   */
  lemma {:induction false} AdriftForever(s: State, steps: seq<Step>, g: GroupId, i: nat)
    requires Inv(s) && g in s.book.groups && Adrift(s.book.groups[g], i)
    ensures g in Run(s, steps).book.groups && StillAdrift(s.book.groups[g], Run(s, steps).book.groups[g], i)
  {
    hide Inv, Next;
    if steps != [] {
      var n := |steps| - 1;
      AdriftForever(s, steps[..n], g, i);
      Safety.InvThrough(s, steps[..n]);
      StepAdrift(Run(s, steps[..n]), steps[n], g, i);
    }
  }

  /** An unfinished round is the last one, and its group is in the same state or adrift. */
  lemma OpenRound(s: State, g: GroupId, i: nat)
    requires Inv(s) && g in s.book.groups && i < |s.book.groups[g].rounds| && Open(s.book.groups[g].rounds[i].state)
    ensures i == |s.book.groups[g].rounds| - 1
    ensures s.book.groups[g].rounds[i].state.REFUNDING? ==>
              s.book.groups[g].state.REFUNDING? || Adrift(s.book.groups[g], i)
  {
    hide BookInv, GatewayInv, RefundedInv, JobsInv, RoundInv, Fits;
    Safety.GroupOf(s.book, g);
  }
}
