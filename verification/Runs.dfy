/** The whole system as a state machine: every API action and worker job is one atomic step. */
module Runs {
  import opened Wrappers
  import opened Tables
  import opened Invariants
  import Formation
  import Payment

  type Book = Formation.Book
  type WorkerId = nat

  datatype OrderKey = OrderKey(group: GroupId, round: nat, user: UserId)

  /** Where a worker is inside settleRefund: claimed, or back from a gateway that settled or threw. */
  datatype Phase = CLAIMED | RETURNED | THREW
  datatype Job = Job(key: OrderKey, phase: Phase, now: int)

  datatype Access = Access(group: GroupId, viewer: UserId, reading: Payment.Reading)

  /** The tables, the workers in flight, the refunds the gateway carried out and the contact access log. */
  datatype State =
    State(book: Book, genders: Formation.Genders, jobs: map<WorkerId, Job>, gateway: map<OrderKey, nat>,
          log: seq<Access>)

  datatype Step =
    | CreateDemand(demand: Demand, d: DemandId, g: GroupId, enabled: bool, env: Env)
    | CancelDemand(user: UserId, d: DemandId)
    | JoinGroup(user: UserId, g: GroupId, d: DemandId, env: Env)
    | LeaveGroup(user: UserId, g: GroupId)
    | StartFormation(user: UserId, g: GroupId, policy: Option<nat>, env: Env)
    | ConfirmFormation(user: UserId, g: GroupId, i: nat, choice: Formation.Choice, env: Env)
    | ConfirmationTimeout(g: GroupId, i: nat, now: int)
    | GroupExpiry(g: GroupId, now: int)
    | CreateOrder(user: UserId, g: GroupId, i: nat, env: Env)
    | CreatePrepay(user: UserId, g: GroupId, i: nat, now: int)
    | CompletePayment(user: UserId, g: GroupId, i: nat, intentMatches: bool, env: Env)
    | RevokeConsent(user: UserId, g: GroupId, i: nat, at: int)
    | PaymentTimeout(g: GroupId, i: nat, now: int, at: int)
    | ReadContacts(user: UserId, g: GroupId, env: Env)
    | ClaimRefund(worker: WorkerId, key: OrderKey, now: int)
    | CallGateway(worker: WorkerId, succeeds: bool)
    | FinishRefund(worker: WorkerId)
    | RestoreRefund(worker: WorkerId)
    | Crash(worker: WorkerId)

  const Empty: State := State(Formation.Book(map[], map[]), map[], map[], map[], [])

  // ----- steps on one group ------------------------------------------------------------------

  predicate IsLocal(step: Step) {
    step.LeaveGroup? || step.StartFormation? || step.ConfirmFormation? || step.ConfirmationTimeout? ||
      step.GroupExpiry? ||
    step.CreateOrder? || step.CreatePrepay? || step.CompletePayment? || step.RevokeConsent? || step.PaymentTimeout?
  }

  ghost function LocalChange(s: State, step: Step): Result<Formation.Change>
    requires IsLocal(step) && step.g in s.book.groups
  {
    var group := s.book.groups[step.g];
    match step
    case LeaveGroup(user, _) => Formation.LeaveGroup(group, user)
    case StartFormation(user, _, policy, env) =>
      Formation.StartFormation(group, user, policy,
                               Formation.Compatible(Roster(group.members), s.book.demands, s.genders), env)
    case ConfirmFormation(user, _, i, choice, env) => Formation.ConfirmFormation(group, i, user, choice, env)
    case ConfirmationTimeout(_, i, now) => Formation.InvalidateConfirmation(group, i, now)
    case GroupExpiry(_, now) => Ok(Formation.ExpireGroup(group, now))
    case CreateOrder(user, _, i, env) => Payment.CreateOrder(group, i, user, env)
    case CreatePrepay(user, _, i, now) => Payment.CreatePrepay(group, i, user, now)
    case CompletePayment(user, _, i, intentMatches, env) => Payment.CompletePayment(group, i, user, intentMatches, env)
    case RevokeConsent(user, _, i, at) => Payment.RevokeConsent(group, i, user, at)
    case PaymentTimeout(_, i, now, at) => Payment.InvalidatePayment(group, i, now, at)
  }

  /** The error for a group or round that does not exist; eligibility is checked before either is read. */
  function NoSuchGroup(step: Step): Error {
    if step.StartFormation? && step.user !in step.env.eligible then STUDENT_NOT_VERIFIED
    else if step.ConfirmFormation? && step.user !in step.env.eligible then STUDENT_NOT_VERIFIED
    else if step.CreateOrder? then if step.user !in step.env.eligible
      then STUDENT_NOT_VERIFIED else PAYMENT_NOT_CONFIRMED
    else RESOURCE_NOT_FOUND
  }

  /** What becomes of the demands whose membership a step ends. */
  function ReleasedAs(step: Step): DemandStatus {
    if step.GroupExpiry? then DemandStatus.EXPIRED else OPEN
  }

  // ----- refund workers ----------------------------------------------------------------------

  function WithGroup(s: State, g: GroupId, group: Group): State {
    s.(book := s.book.(groups := s.book.groups[g := group]))
  }

  function Settlements(s: State, key: OrderKey): nat {
    if key in s.gateway then s.gateway[key] else 0
  }

  ghost function WorkerStep(s: State, step: Step): Result<State> {
    match step
    case ClaimRefund(worker, key, now) =>
      if worker in s.jobs || key.group !in s.book.groups then Err(RESOURCE_NOT_FOUND)
      else
        var claim := Payment.ClaimRefund(s.book.groups[key.group], key.round, key.user);
        var next := WithGroup(s, key.group, claim.group);
        Ok(if claim.claimed then next.(jobs := s.jobs[worker := Job(key, CLAIMED, now)]) else next)
    case CallGateway(worker, succeeds) =>
      if worker !in s.jobs || !s.jobs[worker].phase.CLAIMED? then Err(RESOURCE_NOT_FOUND)
      else
        var job := s.jobs[worker];
        if succeeds
        then Ok(s.(jobs := s.jobs[worker := job.(phase := RETURNED)],
                   gateway := s.gateway[job.key := Settlements(s, job.key) + 1]))
        else Ok(s.(jobs := s.jobs[worker := job.(phase := THREW)]))
    case FinishRefund(worker) =>
      if worker !in s.jobs || !s.jobs[worker].phase.RETURNED? || s.jobs[worker].key.group !in s.book.groups
      then Err(RESOURCE_NOT_FOUND)
      else
        var key := s.jobs[worker].key;
        if Payment.TooEarly(s.book.groups[key.group], key.round, key.user, s.jobs[worker].now) then Err(CHECK_VIOLATION)
        else (match Payment.FinishRefund(s.book.groups[key.group], key.round, key.user)
         case Err(error) => Err(error)
         case Ok(group) => Ok(WithGroup(s, key.group, group).(jobs := s.jobs - {worker})))
    case RestoreRefund(worker) =>
      if worker !in s.jobs || !s.jobs[worker].phase.THREW? || s.jobs[worker].key.group !in s.book.groups
      then Err(RESOURCE_NOT_FOUND)
      else
        var key := s.jobs[worker].key;
        Ok(WithGroup(s, key.group, Payment.RestoreRefund(s.book.groups[key.group], key.round, key.user))
           .(jobs := s.jobs - {worker}))
    case Crash(worker) => Ok(s.(jobs := s.jobs - {worker}))
    case _ => Err(INTERNAL_ERROR)
  }

  // ----- steps -------------------------------------------------------------------------------

  ghost function WithBook(s: State, book: Result<Book>): Result<State> {
    match book
    case Err(error) => Err(error)
    case Ok(next) => Ok(s.(book := next))
  }

  ghost function Exec(s: State, step: Step): Result<State> {
    match step
    case CreateDemand(demand, d, g, enabled, env) =>
      WithBook(s, Formation.CreateDemand(s.book, demand, d, g, enabled, env))
    case CancelDemand(user, d) => WithBook(s, Formation.CancelDemand(s.book, user, d))
    case JoinGroup(user, g, d, env) => WithBook(s, Formation.JoinGroup(s.book, s.genders, user, g, d, env))
    case ReadContacts(user, g, env) =>
      if g !in s.book.groups then Err(RESOURCE_NOT_FOUND)
      else
        (match Payment.ReadContacts(s.book.groups[g], user, env)
         case Err(error) => Err(error)
         case Ok(reading) => Ok(s.(log := s.log + [Access(g, user, reading)])))
    case _ =>
      if IsLocal(step) then
        if step.g !in s.book.groups then Err(NoSuchGroup(step))
        else
          (match LocalChange(s, step)
           case Err(error) => Err(error)
           case Ok(change) => Ok(s.(book := Formation.Commit(s.book, step.g, change, ReleasedAs(step)))))
      else WorkerStep(s, step)
  }

  /** A step that fails is an aborted transaction. */
  ghost function Next(s: State, step: Step): State {
    match Exec(s, step)
    case Ok(next) => next
    case Err(_) => s
  }

  ghost function Run(s: State, steps: seq<Step>): State {
    if steps == [] then s else Next(Run(s, steps[..|steps| - 1]), steps[|steps| - 1])
  }

  // ----- what every run keeps ----------------------------------------------------------------

  /** A demand, its membership row and the group holding that row agree. */
  ghost predicate DemandInv(book: Book, d: DemandId) {
    && d in book.demands
    && Formation.HasRow(book, d)
    && var demand := book.demands[d];
       var group := book.groups[Formation.HomeOf(book, d)];
       var row := Formation.RowFor(book, d);
       && row.user == demand.user
       && row.seats == demand.seats
       && 1 <= demand.seats <= 3
       && group.window == demand.window
       && group.route == demand.route
       && demand.window.start < demand.window.end
       && (demand.status.GROUPED? <==> Active(row.status))
  }

  predicate Live(demand: Demand) {
    demand.status.OPEN? || demand.status.GROUPED?
  }

  predicate NoClash(demands: map<DemandId, Demand>) {
    forall d, e :: d in demands && e in demands && d != e && demands[d].user == demands[e].user &&
                   Live(demands[d]) && Live(demands[e]) ==>
      !Overlap(demands[d].window, demands[e].window)
  }

  ghost predicate BookInv(book: Book) {
    && (forall d :: d in book.demands ==> DemandInv(book, d))
    && (forall g, d :: g in book.groups && d in book.groups[g].members ==>
          d in book.demands && book.demands[d].home == Some(g))
    && NoClash(book.demands)
    && (forall g :: g in book.groups ==> GroupInv(book.groups[g]))
  }

  predicate RefundRow(book: Book, key: OrderKey) {
    key.group in book.groups && Refunding(book.groups[key.group], key.round, key.user)
  }

  function OrderAt(book: Book, key: OrderKey): Order
    requires RefundRow(book, key)
  {
    book.groups[key.group].rounds[key.round].orders[key.user]
  }

  function RequestedAt(book: Book, key: OrderKey): int
    requires RefundRow(book, key)
  {
    OrderAt(book, key).refund.value.requestedAt
  }

  predicate RefundAt(book: Book, key: OrderKey, status: RefundStatus) {
    RefundRow(book, key) && OrderAt(book, key).refund.value.status == status
  }

  /** The gateway settles a refund at most once, and exactly when the row says so or a worker got no further. */
  ghost predicate GatewayInv(s: State) {
    forall key :: key in s.gateway ==>
      && s.gateway[key] <= 1
      && (s.gateway[key] == 1 ==>
          RefundAt(s.book, key, RefundStatus.REFUND_PENDING) || RefundAt(s.book, key, RefundStatus.REFUNDED))
  }

  ghost predicate RefundedInv(s: State) {
    forall key :: RefundAt(s.book, key, RefundStatus.REFUNDED) ==> key in s.gateway && s.gateway[key] == 1
  }

  ghost predicate JobsInv(s: State) {
    && (forall w :: w in s.jobs ==>
          && RefundAt(s.book, s.jobs[w].key, RefundStatus.REFUND_PENDING)
          && Settlements(s, s.jobs[w].key) == (if s.jobs[w].phase.RETURNED? then 1 else 0))
    && (forall w, v :: w in s.jobs && v in s.jobs && w != v ==> s.jobs[w].key != s.jobs[v].key)
  }

  ghost predicate Inv(s: State) {
    BookInv(s.book) && GatewayInv(s) && RefundedInv(s) && JobsInv(s)
  }

  ghost predicate AllCoupled(book: Book) {
    forall g :: g in book.groups ==> Coupled(book.groups[g])
  }

  /** A join that moves an ended membership out of a group that is locked by a round. */
  ghost predicate LeavesLockedGroup(s: State, step: Step) {
    && step.JoinGroup?
    && Formation.HasRow(s.book, step.d)
    && Formation.HomeOf(s.book, step.d) != step.g
    && Locked(s.book.groups[Formation.HomeOf(s.book, step.d)].state)
  }
}
