/** Every step of every run keeps the invariant, and keeps groups coupled to rounds unless a join breaks them. */
module Safety {
  import opened Wrappers
  import opened Tables
  import opened Invariants
  import opened Runs
  import Formation
  import Payment
  import FormationProofs
  import PaymentProofs
  import RefundProofs
  import BookProofs

  // ----- steps on one group ------------------------------------------------------------------

  lemma LocalSound(s: State, step: Step)
    requires IsLocal(step) && step.g in s.book.groups && GroupInv(s.book.groups[step.g])
    requires LocalChange(s, step).Ok?
    ensures Sound(s.book.groups[step.g], LocalChange(s, step).value)
  {
    hide GroupInv, Sound, Formation.StartFormation, Formation.ConfirmFormation, Formation.InvalidateConfirmation,
      Formation.LeaveGroup, Formation.ExpireGroup, Payment.CreateOrder, Payment.CreatePrepay, Payment.CompletePayment,
      Payment.RevokeConsent, Payment.InvalidatePayment;
    var group := s.book.groups[step.g];
    match step
    case LeaveGroup(user, _) => FormationProofs.LeaveGroupSound(group, user);
    case StartFormation(user, _, policy, env) =>
      FormationProofs.StartFormationSound(group, user, policy,
                                          Formation.Compatible(Roster(group.members), s.book.demands, s.genders), env);
    case ConfirmFormation(user, _, i, choice, env) => ConfirmSound(group, i, user, choice, env);
    case ConfirmationTimeout(_, i, now) => FormationProofs.InvalidateConfirmationSound(group, i, now);
    case GroupExpiry(_, now) => FormationProofs.ExpireGroupSound(group, now);
    case CreateOrder(user, _, i, env) => PaymentProofs.CreateOrderSound(group, i, user, env);
    case CreatePrepay(user, _, i, now) => PaymentProofs.CreatePrepaySound(group, i, user, now);
    case CompletePayment(user, _, i, intentMatches, env) =>
      PaymentProofs.CompletePaymentSound(group, i, user, intentMatches, env);
    case RevokeConsent(user, _, i, at) => PaymentProofs.RevokeConsentSound(group, i, user, at);
    case PaymentTimeout(_, i, now, at) => PaymentProofs.InvalidatePaymentSound(group, i, now, at);
  }

  lemma ConfirmSound(group: Group, i: nat, user: UserId, choice: Formation.Choice, env: Env)
    requires GroupInv(group) && Formation.ConfirmFormation(group, i, user, choice, env).Ok?
    ensures Sound(group, Formation.ConfirmFormation(group, i, user, choice, env).value)
  {
    hide GroupInv, Sound, Formation.ConfirmChecks;
    match choice
    case Refuse => FormationProofs.RefuseFormationSound(group, i, user, env);
    case Consent(policy) => FormationProofs.AcceptFormationSound(group, i, user, policy, env);
  }

  // ----- refund rows -------------------------------------------------------------------------

  /** Workers and gateway are undisturbed by a step that leaves refund rows alone. */
  lemma WorkersUndisturbed(s: State, after: Book)
    requires Inv(s) && BookInv(after) && BookProofs.BookRefundsKept(s.book, after)
    ensures Inv(s.(book := after))
  {
    hide BookInv;
    var t := s.(book := after);
    forall key, status | RefundAt(s.book, key, status) ensures RefundAt(after, key, status) {
      assert RefundRow(s.book, key);
    }
    forall key | RefundAt(after, key, RefundStatus.REFUNDED) ensures RefundAt(s.book, key, RefundStatus.REFUNDED) {
      assert RefundRow(after, key);
    }
  }

  /** A refund transaction on one order leaves every other refund row as it was. */
  lemma OtherRefunds(s: State, key: OrderKey, group: Group, other: OrderKey)
    requires key.group in s.book.groups && other != key
    requires RefundProofs.OthersKept(s.book.groups[key.group], group, key.round, key.user)
    ensures RefundRow(WithGroup(s, key.group, group).book, other) <==> RefundRow(s.book, other)
    ensures RefundRow(s.book, other) ==> OrderAt(WithGroup(s, key.group, group).book, other) == OrderAt(s.book, other)
  {
  }

  lemma RefundStepBook(s: State, key: OrderKey, group: Group)
    requires BookInv(s.book) && key.group in s.book.groups
    requires RefundProofs.RefundStep(s.book.groups[key.group], group, key.round, key.user)
    ensures BookInv(WithGroup(s, key.group, group).book)
    ensures AllCoupled(s.book) ==> AllCoupled(WithGroup(s, key.group, group).book)
  {
    hide GroupInv, Coupled;
    var after := WithGroup(s, key.group, group).book;
    assert after.demands == Formation.SetDemands(s.book.demands, {}, OPEN);
    forall d | d in after.demands ensures DemandInv(after, d) {
      BookProofs.CommitDemand(s.book, key.group, Formation.Change(group, {}), OPEN, d);
    }
  }

  lemma KeptOthers(before: Group, after: Group, i: nat, user: UserId)
    requires RefundProofs.RefundStep(before, after, i, user)
    ensures RefundProofs.OthersKept(before, after, i, user)
  {
  }

  /** Only one refund row differs between two books, and it now has the given status. */
  ghost predicate OnlyRefund(before: Book, after: Book, key: OrderKey, status: RefundStatus) {
    && (forall other, st {:trigger RefundAt(after, other, st)} {:trigger RefundAt(before, other, st)} ::
        other != key ==>
          (RefundAt(after, other, st) <==> RefundAt(before, other, st)))
    && (forall st :: RefundAt(after, key, st) <==> st == status)
  }

  lemma RefundMovedOnly(s: State, key: OrderKey, group: Group, status: RefundStatus)
    requires key.group in s.book.groups
    requires RefundProofs.OthersKept(s.book.groups[key.group], group, key.round, key.user)
    requires Payment.RefundIs(group, key.round, key.user, status)
    ensures OnlyRefund(s.book, WithGroup(s, key.group, group).book, key, status)
  {
    hide RefundProofs.OthersKept;
    var after := WithGroup(s, key.group, group).book;
    forall other, st | other != key ensures RefundAt(after, other, st) <==> RefundAt(s.book, other, st) {
      OtherRefunds(s, key, group, other);
    }
  }

  lemma GatewayMoved(s: State, next: State, key: OrderKey, status: RefundStatus)
    requires GatewayInv(s) && RefundedInv(s) && OnlyRefund(s.book, next.book, key, status)
    requires next.gateway == s.gateway
    requires status.REFUNDED? ==> Settlements(s, key) == 1
    requires status.REQUESTED? ==> Settlements(s, key) == 0
    requires !status.REVIEW_REQUIRED?
    ensures GatewayInv(next) && RefundedInv(next)
  {
    hide RefundAt;
  }

  lemma JobsMoved(s: State, next: State, key: OrderKey, status: RefundStatus)
    requires JobsInv(s) && OnlyRefund(s.book, next.book, key, status)
    requires next.gateway == s.gateway
    requires forall w :: w in next.jobs && next.jobs[w].key != key ==> w in s.jobs && next.jobs[w] == s.jobs[w]
    requires forall w :: w in next.jobs && next.jobs[w].key == key ==>
               status.REFUND_PENDING? && Settlements(s, key) == (if next.jobs[w].phase.RETURNED? then 1 else 0)
    requires forall w, v :: w in next.jobs && v in next.jobs && w != v ==> next.jobs[w].key != next.jobs[v].key
    ensures JobsInv(next)
  {
    hide RefundAt;
  }

  /** The invariant after one refund row moved to a status that fits the gateway count and its worker. */
  lemma RefundMoved(s: State, key: OrderKey, group: Group, jobs: map<WorkerId, Job>, status: RefundStatus)
    requires Inv(s) && key.group in s.book.groups
    requires RefundProofs.RefundStep(s.book.groups[key.group], group, key.round, key.user)
    requires Payment.RefundIs(group, key.round, key.user, status)
    requires status.REFUNDED? ==> Settlements(s, key) == 1
    requires status.REQUESTED? ==> Settlements(s, key) == 0
    requires !status.REVIEW_REQUIRED?
    requires forall w :: w in jobs && jobs[w].key != key ==> w in s.jobs && jobs[w] == s.jobs[w]
    requires forall w :: w in jobs && jobs[w].key == key ==>
               status.REFUND_PENDING? && Settlements(s, key) == (if jobs[w].phase.RETURNED? then 1 else 0)
    requires forall w, v :: w in jobs && v in jobs && w != v ==> jobs[w].key != jobs[v].key
    ensures Inv(WithGroup(s, key.group, group).(jobs := jobs))
  {
    hide BookInv, RefundProofs.RefundStep, OnlyRefund, GatewayInv, RefundedInv, JobsInv, Payment.RefundIs;
    var next := WithGroup(s, key.group, group).(jobs := jobs);
    RefundStepBook(s, key, group);
    KeptOthers(s.book.groups[key.group], group, key.round, key.user);
    RefundMovedOnly(s, key, group, status);
    GatewayMoved(s, next, key, status);
    JobsMoved(s, next, key, status);
  }

  // ----- refund workers ----------------------------------------------------------------------

  /** A requested refund has no worker and has not been settled, so one worker may claim it. */
  lemma ClaimedJobs(s: State, worker: WorkerId, key: OrderKey, now: int)
    requires GatewayInv(s) && JobsInv(s) && worker !in s.jobs && RefundAt(s.book, key, REQUESTED)
    ensures Settlements(s, key) == 0
    ensures var jobs := s.jobs[worker := Job(key, CLAIMED, now)];
            && (forall w :: w in jobs && jobs[w].key != key ==> w in s.jobs && jobs[w] == s.jobs[w])
            && (forall w :: w in jobs && jobs[w].key == key ==> jobs[w].phase.CLAIMED?)
            && (forall w, v :: w in jobs && v in jobs && w != v ==> jobs[w].key != jobs[v].key)
  {
    hide RefundedInv;
    assert forall w :: w in s.jobs ==> s.jobs[w].key != key;
  }

  lemma ClaimInv(s: State, worker: WorkerId, key: OrderKey, now: int, claim: Payment.Claim)
    requires Inv(s) && worker !in s.jobs && RefundAt(s.book, key, REQUESTED)
    requires claim == Payment.ClaimRefund(s.book.groups[key.group], key.round, key.user)
    ensures claim.claimed
    ensures Inv(WithGroup(s, key.group, claim.group).(jobs := s.jobs[worker := Job(key, CLAIMED, now)]))
    ensures AllCoupled(s.book) ==> AllCoupled(WithGroup(s, key.group, claim.group).book)
  {
    hide BookInv, GatewayInv, RefundedInv, JobsInv, RefundProofs.RefundStep, Payment.SetRefund, AllCoupled,
      Payment.ClaimRefund, Settlements;
    var group := s.book.groups[key.group];
    GroupOf(s.book, key.group);
    RefundProofs.ClaimSound(group, key.round, key.user);
    RefundStepBook(s, key, claim.group);
    SetRefundIs(group, key.round, key.user, RefundStatus.REFUND_PENDING);
    ClaimedJobs(s, worker, key, now);
    RefundMoved(s, key, claim.group, s.jobs[worker := Job(key, CLAIMED, now)], RefundStatus.REFUND_PENDING);
  }

  lemma SetRefundIs(group: Group, i: nat, user: UserId, status: RefundStatus)
    requires Payment.HasOrder(group, i, user) && group.rounds[i].orders[user].refund.Some?
    ensures Payment.RefundIs(Payment.SetRefund(group, i, user, status), i, user, status)
  {
  }

  lemma GroupOf(book: Book, g: GroupId)
    requires BookInv(book) && g in book.groups
    ensures GroupInv(book.groups[g])
  {
  }

  lemma GroupIn(s: State, g: GroupId)
    requires Inv(s) && g in s.book.groups
    ensures GroupInv(s.book.groups[g])
  {
  }

  lemma GatewayCallInv(s: State, worker: WorkerId, next: State)
    requires Inv(s) && worker in s.jobs && s.jobs[worker].phase.CLAIMED?
    requires var job := s.jobs[worker];
             || next == s.(jobs := s.jobs[worker := job.(phase := THREW)])
             || next == s.(jobs := s.jobs[worker := job.(phase := RETURNED)],
                           gateway := s.gateway[job.key := Settlements(s, job.key) + 1])
    ensures Inv(next)
  {
    hide BookInv, RefundAt;
  }

  /** A worker in flight is the only one with its refund. */
  lemma DroppedJobs(s: State, worker: WorkerId)
    requires JobsInv(s) && worker in s.jobs
    ensures RefundAt(s.book, s.jobs[worker].key, RefundStatus.REFUND_PENDING)
    ensures Settlements(s, s.jobs[worker].key) == (if s.jobs[worker].phase.RETURNED? then 1 else 0)
    ensures forall w :: w in s.jobs - {worker} ==> s.jobs[w].key != s.jobs[worker].key
    ensures forall w, v :: w in s.jobs && v in s.jobs && w != v ==> s.jobs[w].key != s.jobs[v].key
  {
  }

  lemma RestoreInv(s: State, worker: WorkerId, after: Group)
    requires Inv(s) && worker in s.jobs && s.jobs[worker].phase.THREW? && s.jobs[worker].key.group in s.book.groups
    requires var key := s.jobs[worker].key;
             after == Payment.RestoreRefund(s.book.groups[key.group], key.round, key.user)
    ensures Inv(WithGroup(s, s.jobs[worker].key.group, after).(jobs := s.jobs - {worker}))
    ensures AllCoupled(s.book) ==> AllCoupled(WithGroup(s, s.jobs[worker].key.group, after).book)
  {
    hide BookInv, GatewayInv, RefundedInv, JobsInv, RefundProofs.RefundStep, Payment.SetRefund, AllCoupled;
    var key := s.jobs[worker].key;
    var group := s.book.groups[key.group];
    DroppedJobs(s, worker);
    GroupOf(s.book, key.group);
    RefundProofs.RestoreSound(group, key.round, key.user);
    RefundStepBook(s, key, after);
    SetRefundIs(group, key.round, key.user, REQUESTED);
    RefundMoved(s, key, after, s.jobs - {worker}, REQUESTED);
  }

  /** The finish of a worker back from a successful gateway call never throws by itself. */
  lemma FinishInv(s: State, worker: WorkerId, finished: Result<Group>)
    requires Inv(s) && worker in s.jobs && s.jobs[worker].phase.RETURNED? && s.jobs[worker].key.group in s.book.groups
    requires var key := s.jobs[worker].key;
             finished == Payment.FinishRefund(s.book.groups[key.group], key.round, key.user)
    ensures finished.Ok?
    ensures Inv(WithGroup(s, s.jobs[worker].key.group, finished.value).(jobs := s.jobs - {worker}))
    ensures AllCoupled(s.book) ==> AllCoupled(WithGroup(s, s.jobs[worker].key.group, finished.value).book)
  {
    hide BookInv, GatewayInv, RefundedInv, JobsInv, RefundProofs.RefundStep, Payment.FinishRefund, AllCoupled;
    var key := s.jobs[worker].key;
    var group := s.book.groups[key.group];
    DroppedJobs(s, worker);
    GroupOf(s.book, key.group);
    RefundProofs.FinishSound(group, key.round, key.user);
    RefundStepBook(s, key, finished.value);
    RefundProofs.FinishedRow(group, key.round, key.user);
    RefundMoved(s, key, finished.value, s.jobs - {worker}, RefundStatus.REFUNDED);
  }

  lemma CrashInv(s: State, worker: WorkerId)
    requires Inv(s)
    ensures Inv(s.(jobs := s.jobs - {worker}))
  {
    hide BookInv;
  }

  lemma UnclaimedSame(s: State, key: OrderKey)
    requires key.group in s.book.groups && !RefundAt(s.book, key, REQUESTED)
    ensures Payment.ClaimRefund(s.book.groups[key.group], key.round, key.user) ==
            Payment.Claim(s.book.groups[key.group], false)
    ensures WithGroup(s, key.group, s.book.groups[key.group]) == s
  {
  }

  lemma WorkerStepInv(s: State, step: Step)
    requires Inv(s) && WorkerStep(s, step).Ok?
    ensures Inv(WorkerStep(s, step).value)
    ensures AllCoupled(s.book) ==> AllCoupled(WorkerStep(s, step).value.book)
  {
    hide Inv, AllCoupled, RefundAt, Payment.ClaimRefund, Payment.FinishRefund, Payment.RestoreRefund;
    match step
    case ClaimRefund(worker, key, now) =>
      if RefundAt(s.book, key, REQUESTED) {
        ClaimInv(s, worker, key, now, Payment.ClaimRefund(s.book.groups[key.group], key.round, key.user));
      } else {
        UnclaimedSame(s, key);
      }
    case CallGateway(worker, _) => GatewayCallInv(s, worker, WorkerStep(s, step).value);
    case FinishRefund(worker) =>
      var key := s.jobs[worker].key;
      FinishInv(s, worker, Payment.FinishRefund(s.book.groups[key.group], key.round, key.user));
    case RestoreRefund(worker) =>
      var key := s.jobs[worker].key;
      RestoreInv(s, worker, Payment.RestoreRefund(s.book.groups[key.group], key.round, key.user));
    case Crash(worker) => CrashInv(s, worker);
    case _ =>
  }

  // ----- every step, every run ---------------------------------------------------------------

  lemma LocalStepInv(s: State, step: Step)
    requires Inv(s) && IsLocal(step) && step.g in s.book.groups && LocalChange(s, step).Ok?
    ensures var after := Formation.Commit(s.book, step.g, LocalChange(s, step).value, ReleasedAs(step));
            Inv(s.(book := after)) && (AllCoupled(s.book) ==> AllCoupled(after))
  {
    hide GroupInv, Coupled, MembersKept, RefundsKept, BookProofs.BookRefundsKept, LocalChange, GatewayInv,
      RefundedInv, JobsInv;
    GroupOf(s.book, step.g);
    LocalSound(s, step);
    BookProofs.CommitInv(s.book, step.g, LocalChange(s, step).value, ReleasedAs(step));
    WorkersUndisturbed(s, Formation.Commit(s.book, step.g, LocalChange(s, step).value, ReleasedAs(step)));
  }

  /** Safety of one step, with no hypothesis on the step. */
  lemma StepInv(s: State, step: Step)
    requires Inv(s)
    ensures Inv(Next(s, step))
  {
    hide BookInv, GatewayInv, RefundedInv, JobsInv, LocalChange, WorkerStep, BookProofs.BookRefundsKept,
      Formation.CreateDemand, Formation.CancelDemand, Formation.JoinGroup;
    if Exec(s, step).Ok? {
      match step
      case CreateDemand(demand, d, g, enabled, env) =>
        BookProofs.CreateInv(s.book, demand, d, g, enabled, env);
        WorkersUndisturbed(s, Exec(s, step).value.book);
      case CancelDemand(user, d) =>
        BookProofs.CancelInv(s.book, user, d);
        WorkersUndisturbed(s, Exec(s, step).value.book);
      case JoinGroup(user, g, d, env) =>
        BookProofs.JoinInv(s, user, g, d, env);
        WorkersUndisturbed(s, Exec(s, step).value.book);
      case ReadContacts(_, _, _) => ReadInv(s, Exec(s, step).value);
      case _ =>
        if IsLocal(step) {
          LocalStepInv(s, step);
        } else {
          WorkerStepInv(s, step);
        }
    }
  }

  lemma ReadInv(s: State, next: State)
    requires Inv(s) && next == s.(log := next.log)
    ensures Inv(next)
  {
    hide BookInv;
  }

  /** From a coupled state, the one step that uncouples a group from its rounds is a join out of a locked group. */
  lemma StepCoupling(s: State, step: Step)
    requires Inv(s) && AllCoupled(s.book)
    ensures AllCoupled(Next(s, step).book) <==> !(Exec(s, step).Ok? && LeavesLockedGroup(s, step))
  {
    hide BookInv, AllCoupled, GatewayInv, RefundedInv, JobsInv, LocalChange, WorkerStep, BookProofs.BookRefundsKept,
      Formation.CreateDemand, Formation.CancelDemand, Formation.JoinGroup;
    if Exec(s, step).Ok? {
      match step
      case CreateDemand(demand, d, g, enabled, env) => BookProofs.CreateInv(s.book, demand, d, g, enabled, env);
      case CancelDemand(user, d) => BookProofs.CancelInv(s.book, user, d);
      case JoinGroup(user, g, d, env) => BookProofs.JoinCoupling(s, user, g, d, env);
      case ReadContacts(_, _, _) =>
      case _ =>
        if IsLocal(step) {
          LocalStepInv(s, step);
        } else {
          WorkerStepInv(s, step);
        }
    }
  }

  /** The invariant holds in every state any run reaches. */
  lemma {:induction false} RunInv(genders: Formation.Genders, steps: seq<Step>)
    ensures Inv(Run(Empty.(genders := genders), steps))
  {
    if steps == [] {
    } else {
      RunInv(genders, steps[..|steps| - 1]);
      StepInv(Run(Empty.(genders := genders), steps[..|steps| - 1]), steps[|steps| - 1]);
    }
  }

  /** A run continued is one longer run. */
  lemma {:induction false} RunTwice(s: State, first: seq<Step>, second: seq<Step>)
    ensures Run(Run(s, first), second) == Run(s, first + second)
  {
    hide Next;
    if second == [] {
      assert first + second == first;
    } else {
      var n := |second| - 1;
      RunTwice(s, first, second[..n]);
      assert (first + second)[..|first + second| - 1] == first + second[..n];
    }
  }

  lemma {:induction false} InvThrough(s: State, steps: seq<Step>)
    requires Inv(s)
    ensures Inv(Run(s, steps))
  {
    if steps == [] {
    } else {
      InvThrough(s, steps[..|steps| - 1]);
      StepInv(Run(s, steps[..|steps| - 1]), steps[|steps| - 1]);
    }
  }

  /** A run in which no join succeeded out of a locked group. */
  ghost predicate KeepsCoupling(s: State, steps: seq<Step>) {
    forall k :: 0 <= k < |steps| ==>
      !(Exec(Run(s, steps[..k]), steps[k]).Ok? && LeavesLockedGroup(Run(s, steps[..k]), steps[k]))
  }

  /** Group and round states agree in every state of every run without such a join. */
  lemma {:induction false} RunCoupling(genders: Formation.Genders, steps: seq<Step>)
    requires KeepsCoupling(Empty.(genders := genders), steps)
    ensures AllCoupled(Run(Empty.(genders := genders), steps).book)
  {
    if steps == [] {
    } else {
      var n := |steps| - 1;
      var s := Empty.(genders := genders);
      forall k | 0 <= k < n
        ensures !(Exec(Run(s, steps[..n][..k]), steps[..n][k]).Ok? &&
                  LeavesLockedGroup(Run(s, steps[..n][..k]), steps[..n][k]))
      {
        assert steps[..n][..k] == steps[..k];
      }
      RunCoupling(genders, steps[..n]);
      RunInv(genders, steps[..n]);
      StepCoupling(Run(s, steps[..n]), steps[n]);
    }
  }
}
