/**
 * What one transaction of apps/api/src/grouping/grouping.service.ts and of
 * apps/worker/src/formation-timeout.ts does to the tables.
 */
module Formation {
  import opened Wrappers
  import opened Tables
  import GroupingRules

  type Genders = map<UserId, GroupingRules.Gender>
  type Demands = map<DemandId, Demand>
  type Groups = map<GroupId, Group>
  datatype Book = Book(demands: Demands, groups: Groups)

  /** The group after a transaction on it alone, and the demands whose membership that transaction ended. */
  datatype Change = Change(group: Group, released: set<DemandId>)

  /** What accompanies a confirmation: a refusal, or a consent naming a policy version. */
  datatype Choice = Refuse | Consent(policy: nat)

  function GenderOf(genders: Genders, user: UserId): GroupingRules.Gender {
    if user in genders then genders[user] else GroupingRules.UNDISCLOSED
  }

  /** isGenderPreferenceCompatible, independent of the order of the list. */
  predicate Compatible(roster: map<DemandId, Seat>, demands: Demands, genders: Genders) {
    forall d, e :: d in roster && e in roster && d in demands && demands[d].preference.SAME_GENDER_ONLY? ==>
      GenderOf(genders, roster[d].user) != GroupingRules.UNDISCLOSED &&
      GenderOf(genders, roster[e].user) == GenderOf(genders, roster[d].user)
  }

  ghost function RowOf(roster: map<DemandId, Seat>, user: UserId): (d: DemandId)
    requires user in Users(roster)
    ensures d in roster && roster[d].user == user
  {
    var d :| d in roster && roster[d].user == user; d
  }

  /** The set-valued part of every transaction that ends memberships. */
  function SetDemands(demands: Demands, ids: set<DemandId>, status: DemandStatus): Demands {
    map d | d in demands :: if d in ids then demands[d].(status := status) else demands[d]
  }

  function Commit(book: Book, g: GroupId, change: Change, status: DemandStatus): Book {
    Book(SetDemands(book.demands, change.released, status), book.groups[g := change.group])
  }

  ghost function Recompute(group: Group): Result<Group> {
    if Fits(Roster(group.members))
    then Ok(group.(state := Tally(|Roster(group.members)|)))
    else Err(INTERNAL_ERROR)
  }

  predicate Overlapping(demand: Demand, user: UserId, window: Window) {
    demand.user == user && (demand.status.OPEN? || demand.status.GROUPED?) && Overlap(demand.window, window)
  }

  // ----- demands -----------------------------------------------------------------------------

  ghost function CreateDemand(book: Book, demand: Demand, d: DemandId, g: GroupId, enabled: bool,
                              env: Env): Result<Book> {
    if demand.user !in env.eligible then Err(STUDENT_NOT_VERIFIED)
    else if demand.window.start <= env.now || demand.window.end <= demand.window.start || !enabled
      then Err(VALIDATION_ERROR)
    else if exists e :: e in book.demands && Overlapping(book.demands[e], demand.user, demand.window)
      then Err(OVERLAPPING_ACTIVE_GROUP)
    else if demand.seats < 1 || demand.seats > 3 then Err(CHECK_VIOLATION)
    else if d in book.demands || g in book.groups then Err(UNIQUE_VIOLATION)
    else
      Ok(Book(
        book.demands[d := demand.(status := GROUPED, home := Some(g))],
        book.groups[g := Group(demand.route, demand.window, GroupState.RECRUITING,
                               map[d := Member(demand.user, demand.seats, JOINED)], [])]))
  }

  ghost function CancelDemand(book: Book, user: UserId, d: DemandId): Result<Book> {
    if d !in book.demands || book.demands[d].user != user then Err(RESOURCE_NOT_FOUND)
    else if book.demands[d].status.CANCELLED? then Ok(book)
    else if book.demands[d].status == DemandStatus.EXPIRED then Err(GROUP_NOT_JOINABLE)
    else
      var cancelled := book.demands[d := book.demands[d].(status := CANCELLED)];
      match book.demands[d].home
      case None => Ok(book.(demands := cancelled))
      case Some(g) =>
        if g !in book.groups || d !in book.groups[g].members then Err(RESOURCE_NOT_FOUND)
        else if !Recruitable(book.groups[g].state) then Err(GROUP_NOT_JOINABLE)
        else
          var group := book.groups[g];
          match Recompute(group.(members := group.members[d := group.members[d].(status := LEFT)]))
          case Err(error) => Err(error)
          case Ok(after) => Ok(Book(cancelled, book.groups[g := after]))
  }

  // ----- membership --------------------------------------------------------------------------

  /** The membership row of a demand, found through its group. */
  predicate HasRow(book: Book, d: DemandId) {
    d in book.demands && book.demands[d].home.Some? && book.demands[d].home.value in book.groups &&
    d in book.groups[book.demands[d].home.value].members
  }

  function HomeOf(book: Book, d: DemandId): GroupId
    requires HasRow(book, d)
  {
    book.demands[d].home.value
  }

  function RowFor(book: Book, d: DemandId): Member
    requires HasRow(book, d)
  {
    book.groups[HomeOf(book, d)].members[d]
  }

  /** The user's active rows whose group overlaps a window. */
  function OverlappingRows(book: Book, user: UserId, window: Window): set<DemandId> {
    set d | d in book.demands && HasRow(book, d) && RowFor(book, d).user == user && Active(RowFor(book, d).status) &&
            Overlap(book.groups[HomeOf(book, d)].window, window)
  }

  predicate Transferable(book: Book, user: UserId, d: DemandId, window: Window) {
    OverlappingRows(book, user, window) == {d} && HasRow(book, d) &&
    book.groups[HomeOf(book, d)].state.RECRUITING? && |Roster(book.groups[HomeOf(book, d)].members)| == 1
  }

  /** The group a moved row leaves behind is recomputed in whatever state it is. */
  ghost function Vacate(book: Book, d: DemandId, target: GroupId): Result<Groups> {
    if !HasRow(book, d) || HomeOf(book, d) == target then Ok(book.groups)
    else
      var source := book.groups[HomeOf(book, d)];
      match Recompute(source.(members := source.members - {d}))
      case Err(error) => Err(error)
      case Ok(after) => Ok(book.groups[HomeOf(book, d) := after])
  }

  ghost function JoinChecks(book: Book, genders: Genders, user: UserId, g: GroupId, d: DemandId,
                            env: Env): Option<Error> {
    if user !in env.eligible then Some(STUDENT_NOT_VERIFIED)
    else if g !in book.groups then Some(RESOURCE_NOT_FOUND)
    else
      var target := book.groups[g];
      var roster := Roster(target.members);
      if !Recruitable(target.state) || target.window.end <= env.now then Some(GROUP_NOT_JOINABLE)
      else if !(Users(roster) <= env.eligible) then Some(GROUP_NOT_JOINABLE)
      else if d !in book.demands || book.demands[d].user != user then Some(RESOURCE_NOT_FOUND)
      else if book.demands[d].status.CANCELLED? || book.demands[d].status == DemandStatus.EXPIRED
        then Some(GROUP_NOT_JOINABLE)
      else if book.demands[d].route != target.route || book.demands[d].window != target.window
        then Some(GROUP_NOT_JOINABLE)
      else None
  }

  predicate AlreadyIn(book: Book, g: GroupId, d: DemandId) {
    HasRow(book, d) && HomeOf(book, d) == g && Active(RowFor(book, d).status)
  }

  ghost function JoinGroup(book: Book, genders: Genders, user: UserId, g: GroupId, d: DemandId,
                           env: Env): Result<Book> {
    var failed := JoinChecks(book, genders, user, g, d, env);
    if failed.Some? then Err(failed.value)
    else if AlreadyIn(book, g, d) then Ok(book)
    else
      var target := book.groups[g];
      var demand := book.demands[d];
      var prospective := Roster(target.members)[d := Seat(user, demand.seats)];
      if OverlappingRows(book, user, target.window) != {} && !Transferable(book, user, d, target.window)
        then Err(OVERLAPPING_ACTIVE_GROUP)
      else if !Fits(prospective) then Err(GROUP_CAPACITY_EXCEEDED)
      else if !Compatible(prospective, book.demands, genders) then Err(GENDER_PREFERENCE_INCOMPATIBLE)
      else if exists e :: e in target.members && e != d && target.members[e].user == user then Err(UNIQUE_VIOLATION)
      else
        match Vacate(book, d, g)
        case Err(error) => Err(error)
        case Ok(groups) =>
          Ok(Book(
            book.demands[d := demand.(status := GROUPED, home := Some(g))],
            groups[g := target.(members := target.members[d := Member(user, demand.seats, JOINED)],
                                state := Tally(|prospective|))]))
  }

  ghost function LeaveGroup(group: Group, user: UserId): Result<Change> {
    var roster := Roster(group.members);
    if !Recruitable(group.state) then Err(GROUP_NOT_JOINABLE)
    else if user !in Users(roster) then Err(RESOURCE_NOT_FOUND)
    else if |roster| == 1 then Err(GROUP_NOT_JOINABLE)
    else
      var d := RowOf(roster, user);
      match Recompute(group.(members := group.members[d := group.members[d].(status := LEFT)]))
      case Err(error) => Err(error)
      case Ok(after) => Ok(Change(after, {d}))
  }

  // ----- rounds ------------------------------------------------------------------------------

  function Min(a: int, b: int): int {
    if a < b then a else b
  }

  ghost function StartFormation(group: Group, user: UserId, policy: Option<nat>, compatible: bool,
                                env: Env): Result<Change> {
    var roster := Roster(group.members);
    var confirmBy := Min(env.now + CONFIRMATION_LIFETIME_MS, group.window.start);
    if user !in env.eligible then Err(STUDENT_NOT_VERIFIED)
    else if !group.state.READY? || group.window.start <= env.now then Err(FORMATION_NOT_READY)
    else if user !in Users(roster) then Err(RESOURCE_NOT_FOUND)
    else if !(Users(roster) <= env.eligible) then Err(STUDENT_NOT_VERIFIED)
    else if !Fits(roster) || |roster| < 2 then Err(FORMATION_NOT_READY)
    else if !compatible then Err(GENDER_PREFERENCE_INCOMPATIBLE)
    else if policy.None? then Err(INTERNAL_ERROR)
    else if confirmBy <= env.now then Err(FORMATION_NOT_READY)
    else if exists i :: 0 <= i < |group.rounds| && Open(group.rounds[i].state) then Err(UNIQUE_VIOLATION)
    else
      Ok(Change(
        group.(state := GroupState.CONFIRMING,
               rounds := group.rounds + [Round(roster, policy.value, RoundState.CONFIRMING, confirmBy, None,
                                               map[], map[], map[], {})]),
        {}))
  }

  ghost function ConfirmChecks(group: Group, i: nat, user: UserId, env: Env): Option<Error> {
    var roster := Roster(group.members);
    if user !in env.eligible then Some(STUDENT_NOT_VERIFIED)
    else if i >= |group.rounds| then Some(RESOURCE_NOT_FOUND)
    else
      var round := group.rounds[i];
      if !round.state.CONFIRMING? || !group.state.CONFIRMING? then Some(GROUP_NOT_JOINABLE)
      else if round.confirmBy <= env.now then Some(FORMATION_EXPIRED)
      else if user !in Users(roster) then Some(RESOURCE_NOT_FOUND)
      else if roster != round.snapshot then Some(GROUP_NOT_JOINABLE)
      else if !(Users(roster) <= env.eligible) then Some(STUDENT_NOT_VERIFIED)
      else if user in round.decisions then Some(GROUP_NOT_JOINABLE)
      else None
  }

  ghost function ConfirmFormation(group: Group, i: nat, user: UserId, choice: Choice, env: Env): Result<Change> {
    var failed := ConfirmChecks(group, i, user, env);
    if failed.Some? then Err(failed.value)
    else
      var d := RowOf(Roster(group.members), user);
      match choice
      case Refuse => RefuseFormation(group, i, user, d)
      case Consent(policy) =>
        if policy != group.rounds[i].policy then Err(CONTACT_CONSENT_VERSION_MISMATCH)
        else Ok(Change(AcceptFormation(group, i, user, d, env.now), {}))
  }

  ghost function RefuseFormation(group: Group, i: nat, user: UserId, d: DemandId): Result<Change>
    requires i < |group.rounds| && d in group.members
  {
    var round := group.rounds[i];
    var members := group.members[d := group.members[d].(status := DECLINED)];
    var refused := round.(decisions := round.decisions[user := DECLINE], consents := RevokeAll(round.consents),
                          state := INVALIDATED);
    match Recompute(group.(members := Restatus(members, CONFIRMED, JOINED), rounds := group.rounds[i := refused]))
    case Err(error) => Err(error)
    case Ok(after) => Ok(Change(after, {d}))
  }

  ghost function AcceptFormation(group: Group, i: nat, user: UserId, d: DemandId, now: int): Group
    requires i < |group.rounds| && d in group.members
  {
    var round := group.rounds[i];
    var members := group.members[d := group.members[d].(status := CONFIRMED)];
    var accepted := round.(decisions := round.decisions[user := ACCEPT],
                           consents := round.consents[user := Tables.Consent(round.policy, false)]);
    if |Accepted(accepted)| == |Roster(group.members)|
    then
      group.(state := GroupState.PAYING,
             members := Restatus(members, CONFIRMED, PAYMENT_PENDING),
             rounds := group.rounds[i := accepted.(state := RoundState.PAYING,
                                                   payBy := Some(now + PAYMENT_HANDOFF_LIFETIME_MS))])
    else group.(members := members, rounds := group.rounds[i := accepted])
  }

  // ----- deadlines ---------------------------------------------------------------------------

  ghost predicate ConfirmationDue(group: Group, i: nat, now: int) {
    i < |group.rounds| && group.rounds[i].state.CONFIRMING? && group.rounds[i].confirmBy <= now &&
      group.state.CONFIRMING?
  }

  ghost function InvalidateConfirmation(group: Group, i: nat, now: int): Result<Change> {
    if !ConfirmationDue(group, i, now) then Ok(Change(group, {}))
    else if !Fits(Roster(group.members)) then Err(INTERNAL_ERROR)
    else
      var round := group.rounds[i];
      Ok(Change(
        group.(state := Tally(|Roster(group.members)|), members := Restatus(group.members, CONFIRMED, JOINED),
               rounds := group.rounds[i := round.(state := INVALIDATED, consents := RevokeAll(round.consents))]),
        {}))
  }

  predicate ExpiryDue(group: Group, now: int) {
    Recruitable(group.state) && group.window.end <= now
  }

  function ExpireGroup(group: Group, now: int): Change {
    if !ExpiryDue(group, now) then Change(group, {})
    else
      Change(group.(state := GroupState.EXPIRED,
                    members := map d | d in group.members ::
                      if Active(group.members[d].status)
                        then group.members[d].(status := REMOVED) else group.members[d]),
             Roster(group.members).Keys)
  }
}
