/** Exactly when a compensated round can still be recovered, by any steps at all. */
module Liveness {
  import opened Wrappers
  import opened Tables
  import opened Invariants
  import opened Runs
  import Formation
  import Payment
  import RefundProofs
  import BookProofs
  import Safety
  import Causes
  import Stranding
  import opened Recovery

  predicate RoundIs(book: Book, g: GroupId, i: nat, state: RoundState) {
    g in book.groups && i < |book.groups[g].rounds| && book.groups[g].rounds[i].state == state
  }

  // ----- a round nobody paid for -------------------------------------------------------------

  predicate Exhausted(group: Group, i: nat) {
    i < |group.rounds| && group.rounds[i].state.REFUNDING? && Pending(group.rounds[i]) == {}
  }

  /** A transaction that leaves refunding rounds alone, but for revoked consents. */
  predicate RefundingKept(before: Group, after: Group) {
    forall i :: 0 <= i < |before.rounds| && before.rounds[i].state.REFUNDING? ==>
      i < |after.rounds| && SameButConsents(before.rounds[i], after.rounds[i])
  }

  ghost predicate ExhaustedKept(before: Group, after: Group) {
    forall i: nat :: Exhausted(before, i) ==> Exhausted(after, i)
  }

  lemma KeptExhausted(before: Group, after: Group)
    ensures RefundingKept(before, after) ==> ExhaustedKept(before, after)
  {
  }

  lemma PrefixKept(before: Group, after: Group)
    ensures before.rounds <= after.rounds ==> RefundingKept(before, after)
  {
  }

  lemma ConfirmKept(group: Group, i: nat, user: UserId, choice: Formation.Choice, env: Env)
    requires Formation.ConfirmFormation(group, i, user, choice, env).Ok?
    ensures RefundingKept(group, Formation.ConfirmFormation(group, i, user, choice, env).value.group)
  {
    hide Fits;
  }

  lemma PaymentsKept(group: Group, i: nat, user: UserId, env: Env)
    requires Payment.BothPaying(group, i)
    ensures forall order :: RefundingKept(group, Payment.SetOrder(group, i, user, order))
    ensures forall consents, at :: RefundingKept(group, Payment.Compensate(group, i, consents, at).group)
    ensures user in group.rounds[i].orders ==>
              RefundingKept(group, Payment.DeliverIfComplete(Payment.Settle(group, i, user), i, env).group)
  {
    hide Payment.Deliverable;
  }

  lemma RevokeKept(group: Group, i: nat, user: UserId, at: int)
    requires Payment.RevokeConsent(group, i, user, at).Ok?
    ensures RefundingKept(group, Payment.RevokeConsent(group, i, user, at).value.group)
  {
  }

  lemma LocalKept(s: State, step: Step)
    requires IsLocal(step) && step.g in s.book.groups && LocalChange(s, step).Ok?
    ensures RefundingKept(s.book.groups[step.g], LocalChange(s, step).value.group)
  {
    hide Fits, RefundingKept, Formation.ConfirmFormation, Payment.RevokeConsent, Payment.Compensate, Payment.SetOrder,
      Payment.DeliverIfComplete, Payment.Settle;
    var group := s.book.groups[step.g];
    PrefixKept(group, LocalChange(s, step).value.group);
    if step.ConfirmFormation? {
      ConfirmKept(group, step.i, step.user, step.choice, step.env);
    } else if step.ConfirmationTimeout? {
      TimeoutKept(group, step.i, step.now);
    } else if step.CreateOrder? && Payment.BothPaying(group, step.i) {
      PaymentsKept(group, step.i, step.user, step.env);
    } else if step.CreatePrepay? && Payment.BothPaying(group, step.i) {
      PaymentsKept(group, step.i, step.user, Env(0, 0, {}, {}, {}));
    } else if step.CompletePayment? && Payment.BothPaying(group, step.i) {
      PaymentsKept(group, step.i, step.user, step.env);
    } else if step.RevokeConsent? {
      RevokeKept(group, step.i, step.user, step.at);
    } else if step.PaymentTimeout? && Payment.PaymentDue(group, step.i, step.now) {
      PaymentsKept(group, step.i, 1, Env(0, 0, {}, {}, {}));
    }
  }

  lemma TimeoutKept(group: Group, i: nat, now: int)
    requires Formation.InvalidateConfirmation(group, i, now).Ok?
    ensures RefundingKept(group, Formation.InvalidateConfirmation(group, i, now).value.group)
  {
    hide Fits;
  }

  /** A worker only ever touches a round in which some refund is pending. */
  lemma WorkerKept(group: Group, i: nat, user: UserId)
    requires GroupInv(group)
    ensures ExhaustedKept(group, Payment.ClaimRefund(group, i, user).group)
    ensures ExhaustedKept(group, Payment.RestoreRefund(group, i, user))
    ensures Payment.FinishRefund(group, i, user).Ok? ==>
              ExhaustedKept(group, Payment.FinishRefund(group, i, user).value)
  {
    hide GroupInv, ExhaustedKept, Payment.FinishRefund;
    KeptExhausted(group, group);
    PrefixKept(group, group);
    if Payment.RefundIs(group, i, user, REQUESTED) || Payment.RefundIs(group, i, user, RefundStatus.REFUND_PENDING) {
      RefundProofs.UnfinishedRefund(group, i, user);
      PendingRound(group, i, user);
      RefundProofs.ClaimSound(group, i, user);
      var order := group.rounds[i].orders[user];
      OtherOrders(group, i, user, order.(refund := Some(order.refund.value.(status := RefundStatus.REFUND_PENDING))));
      OtherOrders(group, i, user, order.(refund := Some(order.refund.value.(status := REQUESTED))));
    }
    if Payment.FinishRefund(group, i, user).Ok? {
      FinishKept(group, i, user);
    }
  }

  lemma PendingRound(group: Group, i: nat, user: UserId)
    requires Payment.HasOrder(group, i, user) && group.rounds[i].orders[user].status.REFUND_PENDING?
    ensures !Exhausted(group, i)
  {
    assert user in Pending(group.rounds[i]);
  }

  lemma OtherOrders(group: Group, i: nat, user: UserId, order: Order)
    requires i < |group.rounds| && !Exhausted(group, i)
    ensures ExhaustedKept(group, Payment.SetOrder(group, i, user, order))
  {
    hide Pending;
  }

  lemma FinishKept(group: Group, i: nat, user: UserId)
    requires GroupInv(group) && Payment.FinishRefund(group, i, user).Ok?
    ensures ExhaustedKept(group, Payment.FinishRefund(group, i, user).value)
  {
    hide GroupInv, Pending, SeatSum;
    if Payment.RefundIs(group, i, user, RefundStatus.REFUND_PENDING) {
      RefundProofs.UnfinishedRefund(group, i, user);
      PendingRound(group, i, user);
      var after := Payment.FinishRefund(group, i, user).value;
      assert forall k :: 0 <= k < |group.rounds| && k != i ==> k < |after.rounds| && after.rounds[k] == group.rounds[k];
    }
  }

  lemma StepExhausted(s: State, step: Step, g: GroupId, i: nat)
    requires Inv(s) && g in s.book.groups && Exhausted(s.book.groups[g], i)
    ensures g in Next(s, step).book.groups && Exhausted(Next(s, step).book.groups[g], i)
  {
    hide BookInv, GatewayInv, RefundedInv, JobsInv, LocalChange, WorkerStep, RefundingKept, Exhausted,
      Formation.SetDemands, Formation.CreateDemand, Formation.CancelDemand, Formation.JoinGroup;
    if step.CreateDemand? || step.CancelDemand? || step.JoinGroup? {
      BookExhausted(s, step, g, i);
    } else if IsLocal(step) {
      if step.g == g && LocalChange(s, step).Ok? {
        LocalKept(s, step);
        KeptExhausted(s.book.groups[g], LocalChange(s, step).value.group);
      }
    } else if !step.ReadContacts? {
      WorkerExhausted(s, step, g, i);
    }
  }

  lemma BookExhausted(s: State, step: Step, g: GroupId, i: nat)
    requires step.CreateDemand? || step.CancelDemand? || step.JoinGroup?
    requires g in s.book.groups && Exhausted(s.book.groups[g], i)
    ensures g in Next(s, step).book.groups && Exhausted(Next(s, step).book.groups[g], i)
  {
    hide Exhausted, Fits, Formation.Compatible, Formation.Transferable, WorkerStep, LocalChange;
    if Exec(s, step).Ok? {
      Causes.SameRounds(s, step, g);
      PrefixKept(s.book.groups[g], Next(s, step).book.groups[g]);
      KeptExhausted(s.book.groups[g], Next(s, step).book.groups[g]);
    }
  }

  lemma WorkerExhausted(s: State, step: Step, g: GroupId, i: nat)
    requires BookInv(s.book) && g in s.book.groups && Exhausted(s.book.groups[g], i)
    requires !IsLocal(step) && !step.CreateDemand? && !step.CancelDemand? && !step.JoinGroup? && !step.ReadContacts?
    ensures g in Next(s, step).book.groups && Exhausted(Next(s, step).book.groups[g], i)
  {
    hide BookInv, GroupInv, Exhausted, ExhaustedKept, LocalChange, Payment.ClaimRefund, Payment.RestoreRefund,
      Payment.FinishRefund;
    var group := s.book.groups[g];
    Safety.GroupOf(s.book, g);
    if step.ClaimRefund? {
      WorkerKept(group, step.key.round, step.key.user);
      ExhaustedAfter(group, Payment.ClaimRefund(group, step.key.round, step.key.user).group, i);
    } else if step.FinishRefund? && step.worker in s.jobs {
      var key := s.jobs[step.worker].key;
      WorkerKept(group, key.round, key.user);
      if Payment.FinishRefund(group, key.round, key.user).Ok? {
        ExhaustedAfter(group, Payment.FinishRefund(group, key.round, key.user).value, i);
      }
    } else if step.RestoreRefund? && step.worker in s.jobs {
      var key := s.jobs[step.worker].key;
      WorkerKept(group, key.round, key.user);
      ExhaustedAfter(group, Payment.RestoreRefund(group, key.round, key.user), i);
    }
  }

  lemma ExhaustedAfter(before: Group, after: Group, i: nat)
    requires ExhaustedKept(before, after) && Exhausted(before, i)
    ensures Exhausted(after, i)
  {
  }

  /** A compensated round in which nobody paid is REFUNDING for ever, whatever steps are taken. */
  lemma {:induction false} NothingToRefund(s: State, steps: seq<Step>, g: GroupId, i: nat)
    requires Inv(s) && g in s.book.groups && Exhausted(s.book.groups[g], i)
    ensures g in Run(s, steps).book.groups && Exhausted(Run(s, steps).book.groups[g], i)
  {
    hide Inv, Exhausted, Next;
    if steps != [] {
      var n := |steps| - 1;
      NothingToRefund(s, steps[..n], g, i);
      Safety.InvThrough(s, steps[..n]);
      StepExhausted(Run(s, steps[..n]), steps[n], g, i);
    }
  }

  // ----- a refund whose worker crashed -------------------------------------------------------

  /** The gateway has paid, and the schema refuses to record it at the worker's time. */
  predicate Doomed(s: State, job: Job) {
    job.phase.RETURNED? && RefundRow(s.book, job.key) && job.now < RequestedAt(s.book, job.key)
  }

  /** Some worker can still record the refund or give it back. */
  ghost predicate Carried(s: State, key: OrderKey) {
    exists w :: w in s.jobs && s.jobs[w].key == key && !Doomed(s, s.jobs[w])
  }

  /** Claimed by a worker that is gone or doomed: no list of requested refunds shows it any more. */
  ghost predicate Orphaned(s: State, key: OrderKey) {
    RefundAt(s.book, key, RefundStatus.REFUND_PENDING) && !Carried(s, key)
  }

  /** What keeps a refund orphaned: its row, and every worker that has it. */
  lemma OrphanKept(s: State, t: State, key: OrderKey)
    requires Orphaned(s, key) && RefundRow(t.book, key) && OrderAt(t.book, key) == OrderAt(s.book, key)
    requires forall w :: w in t.jobs && t.jobs[w].key == key ==> w in s.jobs && t.jobs[w] == s.jobs[w]
    ensures Orphaned(t, key)
  {
    forall w | w in t.jobs && t.jobs[w].key == key ensures Doomed(t, t.jobs[w]) {
      assert Doomed(s, s.jobs[w]);
    }
  }

  lemma UndisturbedOrphan(s: State, after: Book, key: OrderKey)
    requires Orphaned(s, key) && BookProofs.BookRefundsKept(s.book, after)
    ensures Orphaned(s.(book := after), key)
  {
    assert RefundRow(s.book, key);
    OrphanKept(s, s.(book := after), key);
  }

  /** Only the worker that carries a refund, or a claim of a requested one, moves its row. */
  lemma WorkerMoves(s: State, step: Step, key: OrderKey)
    requires BookInv(s.book) && JobsInv(s) && !IsLocal(step)
    requires !step.CreateDemand? && !step.CancelDemand? && !step.JoinGroup? && !step.ReadContacts?
    requires Orphaned(s, key)
    ensures Orphaned(Next(s, step), key)
  {
    hide BookInv, GroupInv, JobsInv, RefundAt, RefundRow, Orphaned, LocalChange, Payment.ClaimRefund,
      Payment.RestoreRefund, Payment.FinishRefund;
    OrphanRow(s, key);
    if step.ClaimRefund? && step.key.group in s.book.groups {
      ClaimedElsewhere(s, step.key, key);
    } else if (step.FinishRefund? || step.RestoreRefund?) && step.worker in s.jobs &&
      s.jobs[step.worker].key.group in s.book.groups {
      if s.jobs[step.worker].key == key {
        DoomedFinish(s, step.worker, key);
      } else {
        MovedElsewhere(s, s.jobs[step.worker].key, key);
      }
    }
    if step.CallGateway? && step.worker in s.jobs && s.jobs[step.worker].phase.CLAIMED? {
      NotCalling(s, step.worker, key);
    }
    OrphanKept(s, Next(s, step), key);
  }

  lemma OrphanRow(s: State, key: OrderKey)
    requires Orphaned(s, key)
    ensures RefundRow(s.book, key) && RefundAt(s.book, key, RefundStatus.REFUND_PENDING) && key.group in s.book.groups
  {
  }

  /** A doomed worker neither finishes nor restores its refund. */
  lemma DoomedFinish(s: State, worker: WorkerId, key: OrderKey)
    requires Orphaned(s, key) && worker in s.jobs && s.jobs[worker].key == key
    ensures s.jobs[worker].phase.RETURNED?
    ensures Payment.TooEarly(s.book.groups[key.group], key.round, key.user, s.jobs[worker].now)
  {
    assert Doomed(s, s.jobs[worker]);
  }

  lemma NotCalling(s: State, worker: WorkerId, key: OrderKey)
    requires Orphaned(s, key) && worker in s.jobs && s.jobs[worker].phase.CLAIMED?
    ensures s.jobs[worker].key != key
  {
  }

  lemma ClaimedElsewhere(s: State, claimed: OrderKey, key: OrderKey)
    requires BookInv(s.book) && Orphaned(s, key) && claimed.group in s.book.groups
    ensures var claim := Payment.ClaimRefund(s.book.groups[claimed.group], claimed.round, claimed.user);
            && (claim.claimed ==> claimed != key)
            && var after := WithGroup(s, claimed.group, claim.group).book;
            RefundRow(s.book, key) && RefundRow(after, key) && OrderAt(after, key) == OrderAt(s.book, key)
  {
    hide BookInv, GroupInv, RefundProofs.RefundStep, RefundProofs.OthersKept, Payment.ClaimRefund;
    var group := s.book.groups[claimed.group];
    Safety.GroupOf(s.book, claimed.group);
    RefundProofs.ClaimSound(group, claimed.round, claimed.user);
    Safety.KeptOthers(group, Payment.ClaimRefund(group, claimed.round, claimed.user).group, claimed.round,
                      claimed.user);
    if claimed != key {
      Safety.OtherRefunds(s, claimed, Payment.ClaimRefund(group, claimed.round, claimed.user).group, key);
    } else {
      Safety.UnclaimedSame(s, key);
    }
  }

  lemma MovedElsewhere(s: State, moved: OrderKey, key: OrderKey)
    requires BookInv(s.book) && RefundRow(s.book, key) && moved.group in s.book.groups && moved != key
    ensures var group := s.book.groups[moved.group];
            && var finished := Payment.FinishRefund(group, moved.round, moved.user);
            && finished.Ok?
            && var after := WithGroup(s, moved.group, finished.value).book;
               var restored := WithGroup(s, moved.group, Payment.RestoreRefund(group, moved.round, moved.user)).book;
            && RefundRow(after, key) && OrderAt(after, key) == OrderAt(s.book, key)
            && RefundRow(restored, key) && OrderAt(restored, key) == OrderAt(s.book, key)
  {
    hide BookInv, GroupInv, RefundProofs.RefundStep, RefundProofs.OthersKept, Payment.RestoreRefund,
      Payment.FinishRefund;
    var group := s.book.groups[moved.group];
    Safety.GroupOf(s.book, moved.group);
    RefundProofs.FinishSound(group, moved.round, moved.user);
    RefundProofs.RestoreSound(group, moved.round, moved.user);
    Safety.KeptOthers(group, Payment.FinishRefund(group, moved.round, moved.user).value, moved.round, moved.user);
    Safety.KeptOthers(group, Payment.RestoreRefund(group, moved.round, moved.user), moved.round, moved.user);
    Safety.OtherRefunds(s, moved, Payment.FinishRefund(group, moved.round, moved.user).value, key);
    Safety.OtherRefunds(s, moved, Payment.RestoreRefund(group, moved.round, moved.user), key);
  }

  lemma StepOrphan(s: State, step: Step, key: OrderKey)
    requires Inv(s) && Orphaned(s, key)
    ensures Orphaned(Next(s, step), key)
  {
    hide BookInv, GatewayInv, RefundedInv, JobsInv, Orphaned, LocalChange, WorkerStep, BookProofs.BookRefundsKept,
      Formation.CreateDemand, Formation.CancelDemand, Formation.JoinGroup;
    if step.CreateDemand? || step.CancelDemand? || step.JoinGroup? || step.ReadContacts? {
      if Exec(s, step).Ok? {
        BookOrphan(s, step, key);
      }
    } else if IsLocal(step) {
      if Exec(s, step).Ok? {
        LocalOrphan(s, step, key);
      }
    } else {
      WorkerMoves(s, step, key);
    }
  }

  lemma LocalOrphan(s: State, step: Step, key: OrderKey)
    requires Inv(s) && Orphaned(s, key) && IsLocal(step) && Exec(s, step).Ok?
    ensures Orphaned(Exec(s, step).value, key)
  {
    hide GatewayInv, RefundedInv, JobsInv, Orphaned, LocalChange, WorkerStep, BookProofs.BookRefundsKept, GroupInv,
      DemandInv, Sound, Formation.Commit;
    assert step.g in s.book.groups;
    Safety.LocalSound(s, step);
    BookProofs.CommitInv(s.book, step.g, LocalChange(s, step).value, ReleasedAs(step));
    UndisturbedOrphan(s, Formation.Commit(s.book, step.g, LocalChange(s, step).value, ReleasedAs(step)), key);
  }

  lemma BookOrphan(s: State, step: Step, key: OrderKey)
    requires step.CreateDemand? || step.CancelDemand? || step.JoinGroup? || step.ReadContacts?
    requires Inv(s) && Orphaned(s, key) && Exec(s, step).Ok?
    ensures Orphaned(Exec(s, step).value, key)
  {
    hide BookInv, GatewayInv, RefundedInv, JobsInv, BookProofs.BookRefundsKept, AllCoupled, RefundAt,
      Formation.CreateDemand, Formation.CancelDemand, Formation.JoinGroup;
    if step.CreateDemand? {
      BookProofs.CreateInv(s.book, step.demand, step.d, step.g, step.enabled, step.env);
      UndisturbedOrphan(s, Exec(s, step).value.book, key);
    } else if step.CancelDemand? {
      BookProofs.CancelInv(s.book, step.user, step.d);
      UndisturbedOrphan(s, Exec(s, step).value.book, key);
    } else if step.JoinGroup? {
      BookProofs.JoinInv(s, step.user, step.g, step.d, step.env);
      UndisturbedOrphan(s, Exec(s, step).value.book, key);
    }
  }

  /** A refund abandoned by a crash or by a doomed worker stays pending for ever, and keeps its round REFUNDING. */
  lemma {:induction false} AbandonedForever(s: State, steps: seq<Step>, key: OrderKey)
    requires Inv(s) && Orphaned(s, key)
    ensures Orphaned(Run(s, steps), key)
    ensures RoundIs(Run(s, steps).book, key.group, key.round, RoundState.REFUNDING)
  {
    hide Inv, Orphaned, Next;
    if steps != [] {
      var n := |steps| - 1;
      AbandonedForever(s, steps[..n], key);
      Safety.InvThrough(s, steps[..n]);
      StepOrphan(Run(s, steps[..n]), steps[n], key);
    }
    Safety.InvThrough(s, steps);
    OrphanRefunding(Run(s, steps), key);
  }

  lemma OrphanRefunding(s: State, key: OrderKey)
    requires Inv(s) && Orphaned(s, key)
    ensures RoundIs(s.book, key.group, key.round, RoundState.REFUNDING)
  {
    hide GroupInv, GatewayInv, RefundedInv, JobsInv;
    RefundProofs.UnfinishedRefund(s.book.groups[key.group], key.round, key.user);
  }

  // ----- every other round can be recovered --------------------------------------------------

  function KeyOf(group: Group, g: GroupId, user: UserId): OrderKey
    requires group.rounds != []
  {
    OrderKey(g, |group.rounds| - 1, user)
  }

  /** No pending refund of the group's last round is orphaned. */
  ghost predicate NoOrphans(s: State, g: GroupId)
    requires g in s.book.groups && s.book.groups[g].rounds != []
  {
    forall u :: u in Pending(Last(s.book.groups[g])) ==> !Orphaned(s, KeyOf(s.book.groups[g], g, u))
  }

  /** Refunds other than one, and their workers, are as they were. */
  ghost predicate OthersStay(s: State, t: State, key: OrderKey) {
    && (forall other {:trigger RefundRow(t.book, other)} {:trigger RefundRow(s.book, other)} :: other != key ==>
          && (RefundRow(t.book, other) <==> RefundRow(s.book, other))
          && (RefundRow(s.book, other) ==> OrderAt(t.book, other) == OrderAt(s.book, other)))
    && (forall w :: w in s.jobs && s.jobs[w].key != key ==> w in t.jobs && t.jobs[w] == s.jobs[w])
  }

  ghost predicate StillWaits(s: State, t: State, g: GroupId) {
    && g in s.book.groups && g in t.book.groups
    && Waits(s.book.groups[g]) && Waits(t.book.groups[g])
    && |t.book.groups[g].rounds| == |s.book.groups[g].rounds|
    && Pending(Last(t.book.groups[g])) == Pending(Last(s.book.groups[g]))
  }

  ghost predicate Toward(s: State, t: State, g: GroupId, key: OrderKey) {
    OthersStay(s, t, key) && StillWaits(s, t, g)
  }

  /** A worker back from a successful gateway call in time to record it. */
  predicate Returned(s: State, w: WorkerId, key: OrderKey) {
    w in s.jobs && s.jobs[w].key == key && s.jobs[w].phase.RETURNED? && !Doomed(s, s.jobs[w])
  }

  lemma DoClaim(s: State, w: WorkerId, g: GroupId, key: OrderKey, now: int)
    requires Inv(s) && g in s.book.groups && Waits(s.book.groups[g]) && key.group == g
    requires RefundAt(s.book, key, REQUESTED) && w !in s.jobs
    ensures var t := Next(s, ClaimRefund(w, key, now));
            && Toward(s, t, g, key) && w in t.jobs && t.jobs[w] == Job(key, CLAIMED, now)
            && RefundRow(t.book, key) && RequestedAt(t.book, key) == RequestedAt(s.book, key)
  {
    hide BookInv, GroupInv, GatewayInv, RefundedInv, JobsInv, RefundAt, Pending, Settling, RefundProofs.RefundStep,
      RefundProofs.OthersKept, Payment.ClaimRefund, LocalChange;
    var group := s.book.groups[g];
    Safety.GroupOf(s.book, g);
    SettlingSelf(group);
    WaitsSettling(group, group);
    ClaimSettles(group, group, key.round, key.user);
    var claim := Payment.ClaimRefund(group, key.round, key.user);
    SettlingRounds(group, claim.group);
    SettlingState(group, claim.group);
    ClaimedRow(s, key);
    RefundProofs.ClaimSound(group, key.round, key.user);
    Safety.KeptOthers(group, claim.group, key.round, key.user);
    MovedOthers(s, key, claim.group, s.jobs[w := Job(key, CLAIMED, now)]);
  }

  lemma SettlingState(before: Group, now: Group)
    requires Settling(before, now)
    ensures now.state == before.state
  {
  }

  lemma ClaimedRow(s: State, key: OrderKey)
    requires RefundAt(s.book, key, REQUESTED)
    ensures Payment.RefundIs(s.book.groups[key.group], key.round, key.user, REQUESTED)
    ensures var claimed :=
            Payment.SetRefund(s.book.groups[key.group], key.round, key.user, RefundStatus.REFUND_PENDING);
            var after := WithGroup(s, key.group, claimed).book;
            RefundRow(after, key) && RequestedAt(after, key) == RequestedAt(s.book, key)
  {
  }

  lemma MovedOthers(s: State, key: OrderKey, group: Group, jobs: map<WorkerId, Job>)
    requires key.group in s.book.groups
    requires RefundProofs.OthersKept(s.book.groups[key.group], group, key.round, key.user)
    requires forall w :: w in s.jobs && s.jobs[w].key != key ==> w in jobs && jobs[w] == s.jobs[w]
    ensures OthersStay(s, WithGroup(s, key.group, group).(jobs := jobs), key)
  {
    hide RefundProofs.OthersKept;
    var after := WithGroup(s, key.group, group).book;
    forall other | other != key
      ensures RefundRow(after, other) <==> RefundRow(s.book, other)
      ensures RefundRow(s.book, other) ==> OrderAt(after, other) == OrderAt(s.book, other)
    {
      Safety.OtherRefunds(s, key, group, other);
    }
  }

  lemma DoGateway(s: State, w: WorkerId, g: GroupId, succeeds: bool)
    requires w in s.jobs && s.jobs[w].phase.CLAIMED? && g in s.book.groups && Waits(s.book.groups[g])
    ensures var t := Next(s, CallGateway(w, succeeds));
            && Toward(s, t, g, s.jobs[w].key) && t.book == s.book
            && w in t.jobs && t.jobs[w] == s.jobs[w].(phase := if succeeds then RETURNED else THREW)
  {
    hide RefundAt, Pending, LocalChange;
  }

  lemma DoRestore(s: State, w: WorkerId, g: GroupId)
    requires Inv(s) && g in s.book.groups && Waits(s.book.groups[g])
    requires w in s.jobs && s.jobs[w].phase.THREW? && s.jobs[w].key.group == g
    ensures var t := Next(s, RestoreRefund(w));
            Toward(s, t, g, s.jobs[w].key) && w !in t.jobs && RefundAt(t.book, s.jobs[w].key, REQUESTED)
  {
    hide BookInv, GroupInv, GatewayInv, RefundedInv, JobsInv, Pending, Settling, RefundProofs.RefundStep,
      RefundProofs.OthersKept, Payment.SetOrder, LocalChange;
    var group := s.book.groups[g];
    var key := s.jobs[w].key;
    Safety.GroupOf(s.book, g);
    SettlingSelf(group);
    WaitsSettling(group, group);
    Safety.DroppedJobs(s, w);
    RestoreSettles(group, group, key.round, key.user);
    var after := Payment.RestoreRefund(group, key.round, key.user);
    SettlingRounds(group, after);
    SettlingState(group, after);
    Safety.SetRefundIs(group, key.round, key.user, REQUESTED);
    RefundProofs.RestoreSound(group, key.round, key.user);
    Safety.KeptOthers(group, after, key.round, key.user);
    MovedOthers(s, key, after, s.jobs - {w});
  }

  lemma DoFinish(s: State, w: WorkerId, g: GroupId)
    requires Inv(s) && g in s.book.groups && Waits(s.book.groups[g])
    requires w in s.jobs && s.jobs[w].key.group == g && Returned(s, w, s.jobs[w].key)
    ensures var t := Next(s, FinishRefund(w));
            && OthersStay(s, t, s.jobs[w].key) && g in t.book.groups
            && var after := t.book.groups[g];
            && after.rounds != [] && |after.rounds| == |s.book.groups[g].rounds|
            && s.jobs[w].key.user in Pending(Last(s.book.groups[g]))
            && Pending(Last(after)) == Pending(Last(s.book.groups[g])) - {s.jobs[w].key.user}
            && (if Pending(Last(after)) == {} then Last(after).state.INVALIDATED? else Waits(after))
  {
    hide BookInv, GroupInv, GatewayInv, RefundedInv, JobsInv, Pending, Waits, Outcome, Settling, OthersStay,
      RefundProofs.RefundStep, RefundProofs.OthersKept, Payment.FinishRefund, LocalChange;
    var group := s.book.groups[g];
    var key := s.jobs[w].key;
    Safety.GroupOf(s.book, g);
    SettlingSelf(group);
    WaitsSettling(group, group);
    Safety.DroppedJobs(s, w);
    FinishSettles(group, group, key.round, key.user);
    RefundProofs.FinishSound(group, key.round, key.user);
    var after := Payment.FinishRefund(group, key.round, key.user).value;
    Safety.KeptOthers(group, after, key.round, key.user);
    MovedOthers(s, key, after, s.jobs - {w});
    FinishedOutcome(group, after);
  }

  lemma FinishedOutcome(before: Group, now: Group)
    requires Waits(before) && Outcome(before, now)
    ensures now.rounds != [] && |now.rounds| == |before.rounds|
    ensures if Pending(Last(now)) == {} then Last(now).state.INVALIDATED? else Waits(now)
  {
  }

  lemma TowardTwice(s: State, t: State, u: State, g: GroupId, key: OrderKey)
    requires Toward(s, t, g, key) && Toward(t, u, g, key)
    ensures Toward(s, u, g, key)
  {
    hide RefundAt, Pending, Waits;
  }

  lemma {:induction false} FreshWorker(jobs: set<WorkerId>) returns (w: WorkerId)
    ensures forall v :: v in jobs ==> v < w
  {
    if jobs == {} {
      w := 0;
    } else {
      var v :| v in jobs;
      w := FreshWorker(jobs - {v});
      assert forall x :: x in jobs ==> x == v || x in jobs - {v};
      w := if v < w then w else v + 1;
    }
  }

  lemma RunOne(s: State, step: Step)
    ensures Run(s, [step]) == Next(s, step)
  {
    hide Next;
    assert [step][..0] == [];
    assert Run(s, [step][..0]) == s;
  }

  /** A requested refund, or one that a worker carries, can be brought to a worker whose gateway call succeeded. */
  lemma Return(s: State, g: GroupId, key: OrderKey) returns (w: WorkerId, steps: seq<Step>)
    requires Inv(s) && g in s.book.groups && Waits(s.book.groups[g]) && key.group == g
    requires RefundAt(s.book, key, REQUESTED) || Carried(s, key)
    ensures var t := Run(s, steps);
            Inv(t) && (t == s || Toward(s, t, g, key)) && Returned(t, w, key)
  {
    hide Inv, Toward, RefundAt, Waits, Next, Doomed;
    if c :| c in s.jobs && s.jobs[c].key == key && !Doomed(s, s.jobs[c]) {
      if s.jobs[c].phase.RETURNED? {
        w, steps := c, [];
      } else if s.jobs[c].phase.CLAIMED? {
        var t := Next(s, CallGateway(c, false));
        DoGateway(s, c, g, false);
        Safety.StepInv(s, CallGateway(c, false));
        RunOne(s, CallGateway(c, false));
        TowardWaits(s, t, g, key);
        w, steps := RestoreAndPay(t, c, g, key);
        TowardTwice(s, t, Run(t, steps), g, key);
        Safety.RunTwice(s, [CallGateway(c, false)], steps);
        steps := [CallGateway(c, false)] + steps;
      } else {
        w, steps := RestoreAndPay(s, c, g, key);
      }
    } else {
      w, steps := ClaimAndPay(s, g, key);
    }
  }

  lemma RestoreAndPay(s: State, c: WorkerId, g: GroupId, key: OrderKey) returns (w: WorkerId, steps: seq<Step>)
    requires Inv(s) && g in s.book.groups && Waits(s.book.groups[g]) && key.group == g
    requires c in s.jobs && s.jobs[c].key == key && s.jobs[c].phase.THREW?
    ensures var t := Run(s, steps);
            Inv(t) && Toward(s, t, g, key) && Returned(t, w, key)
  {
    hide Inv, Toward, RefundAt, Waits, Next, Doomed;
    var t := Next(s, Step.RestoreRefund(c));
    DoRestore(s, c, g);
    Safety.StepInv(s, Step.RestoreRefund(c));
    RunOne(s, Step.RestoreRefund(c));
    TowardWaits(s, t, g, key);
    w, steps := ClaimAndPay(t, g, key);
    TowardTwice(s, t, Run(t, steps), g, key);
    Safety.RunTwice(s, [Step.RestoreRefund(c)], steps);
    steps := [Step.RestoreRefund(c)] + steps;
  }

  lemma TowardWaits(s: State, t: State, g: GroupId, key: OrderKey)
    requires Toward(s, t, g, key)
    ensures g in t.book.groups && Waits(t.book.groups[g])
  {
  }

  /** A claim made late enough can be recorded. */
  lemma ClaimAndPay(s: State, g: GroupId, key: OrderKey) returns (w: WorkerId, steps: seq<Step>)
    requires Inv(s) && g in s.book.groups && Waits(s.book.groups[g]) && key.group == g
    requires RefundAt(s.book, key, REQUESTED)
    ensures var t := Run(s, steps);
            Inv(t) && Toward(s, t, g, key) && Returned(t, w, key)
  {
    hide Inv, Toward, RefundRow, Waits, Next;
    w := FreshWorker(s.jobs.Keys);
    var now := RequestedAt(s.book, key);
    var claim := Step.ClaimRefund(w, key, now);
    var t := Next(s, claim);
    DoClaim(s, w, g, key, now);
    Safety.StepInv(s, claim);
    TowardWaits(s, t, g, key);
    DoGateway(t, w, g, true);
    Safety.StepInv(t, CallGateway(w, true));
    TowardTwice(s, t, Next(t, CallGateway(w, true)), g, key);
    steps := [claim] + [CallGateway(w, true)];
    RunOne(s, claim);
    RunOne(t, CallGateway(w, true));
    Safety.RunTwice(s, [claim], [CallGateway(w, true)]);
  }

  /** Settling the pending refunds one after the other recovers the round. */
  lemma {:induction false} Escape(s: State, g: GroupId) returns (steps: seq<Step>)
    requires Inv(s) && g in s.book.groups && Waits(s.book.groups[g]) && NoOrphans(s, g)
    ensures RoundIs(Run(s, steps).book, g, |s.book.groups[g].rounds| - 1, INVALIDATED)
    decreases |Pending(Last(s.book.groups[g]))|
  {
    hide Inv, Toward, RefundAt, Waits, Next, Pending, NoOrphans, OthersStay;
    var group := s.book.groups[g];
    var u := PickPending(s, g);
    var key := KeyOf(group, g, u);
    var w;
    w, steps := Return(s, g, key);
    var t := Run(s, steps);
    if t != s {
      TowardParts(s, t, g, key);
    } else {
      OthersStayHere(s, key);
    }
    DoFinish(t, w, g);
    Safety.StepInv(t, Step.FinishRefund(w));
    RunOne(t, Step.FinishRefund(w));
    Safety.RunTwice(s, steps, [Step.FinishRefund(w)]);
    steps := steps + [Step.FinishRefund(w)];
    var v := Next(t, Step.FinishRefund(w));
    if Pending(Last(v.book.groups[g])) != {} {
      OrphansStay(s, t, v, g, u);
      var rest := Escape(v, g);
      Safety.RunTwice(s, steps, rest);
      steps := steps + rest;
    }
  }

  lemma PickPending(s: State, g: GroupId) returns (u: UserId)
    requires Inv(s) && g in s.book.groups && Waits(s.book.groups[g]) && NoOrphans(s, g)
    ensures var key := KeyOf(s.book.groups[g], g, u);
            u in Pending(Last(s.book.groups[g])) && (RefundAt(s.book, key, REQUESTED) || Carried(s, key))
  {
    hide GatewayInv, RefundedInv, JobsInv, GroupInv, Pending;
    u :| u in Pending(Last(s.book.groups[g]));
    Safety.GroupOf(s.book, g);
    PendingRefund(s.book.groups[g], u);
  }

  lemma TowardParts(s: State, t: State, g: GroupId, key: OrderKey)
    requires Toward(s, t, g, key)
    ensures OthersStay(s, t, key) && g in s.book.groups && g in t.book.groups
    ensures Waits(s.book.groups[g]) && Waits(t.book.groups[g])
    ensures |t.book.groups[g].rounds| == |s.book.groups[g].rounds|
    ensures Pending(Last(t.book.groups[g])) == Pending(Last(s.book.groups[g]))
  {
  }

  lemma OthersStayHere(s: State, key: OrderKey)
    ensures OthersStay(s, s, key)
  {
  }

  lemma OrphansStay(s: State, t: State, v: State, g: GroupId, u: UserId)
    requires g in s.book.groups && s.book.groups[g].rounds != [] && NoOrphans(s, g)
    requires OthersStay(s, t, KeyOf(s.book.groups[g], g, u)) && OthersStay(t, v, KeyOf(s.book.groups[g], g, u))
    requires g in v.book.groups && v.book.groups[g].rounds != [] &&
             |v.book.groups[g].rounds| == |s.book.groups[g].rounds|
    requires Pending(Last(v.book.groups[g])) == Pending(Last(s.book.groups[g])) - {u}
    ensures NoOrphans(v, g)
  {
    hide RefundRow, Pending;
    forall other | other in Pending(Last(v.book.groups[g])) ensures !Orphaned(v, KeyOf(v.book.groups[g], g, other)) {
      var key := KeyOf(s.book.groups[g], g, other);
      assert !Orphaned(s, key);
      if RefundAt(v.book, key, RefundStatus.REFUND_PENDING) {
        assert RefundAt(t.book, key, RefundStatus.REFUND_PENDING);
        var w :| w in s.jobs && s.jobs[w].key == key && !Doomed(s, s.jobs[w]);
        assert w in t.jobs && t.jobs[w] == s.jobs[w];
        assert w in v.jobs && v.jobs[w] == s.jobs[w];
      }
    }
  }

  ghost predicate CanEnd(s: State, g: GroupId, i: nat) {
    exists steps :: RoundIs(Run(s, steps).book, g, i, INVALIDATED)
  }

  /**
   * A refunding round can still end exactly when its group is refunding with it, some refund is pending and each
   * pending one is either requested or carried by a worker: neither a round that a join set adrift, nor one nobody
   * paid for, nor one with a refund whose worker crashed or came too early has any way out.
   */
  lemma RecoverableIff(s: State, g: GroupId, i: nat)
    requires Inv(s) && RoundIs(s.book, g, i, RoundState.REFUNDING)
    ensures CanEnd(s, g, i) <==>
            s.book.groups[g].state.REFUNDING? && Pending(Last(s.book.groups[g])) != {} && NoOrphans(s, g)
  {
    hide Inv, Run, Pending, Orphaned;
    Stranding.OpenRound(s, g, i);
    if !s.book.groups[g].state.REFUNDING? {
      forall steps ensures !RoundIs(Run(s, steps).book, g, i, INVALIDATED) {
        Stranding.AdriftForever(s, steps, g, i);
      }
    } else if Pending(Last(s.book.groups[g])) == {} {
      forall steps ensures !RoundIs(Run(s, steps).book, g, i, INVALIDATED) {
        NothingToRefund(s, steps, g, i);
      }
    } else if !NoOrphans(s, g) {
      var u :| u in Pending(Last(s.book.groups[g])) && Orphaned(s, KeyOf(s.book.groups[g], g, u));
      forall steps ensures !RoundIs(Run(s, steps).book, g, i, INVALIDATED) {
        AbandonedForever(s, steps, KeyOf(s.book.groups[g], g, u));
      }
    } else {
      var steps := Escape(s, g);
    }
  }
}
