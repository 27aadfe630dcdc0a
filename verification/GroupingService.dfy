/** apps/api/src/grouping/grouping.service.ts: each request as the sequence of table updates its transaction makes. */
module GroupingServices {
  import opened Wrappers
  import opened Tables
  import opened Runs
  import opened Store
  import opened Invariants
  import Formation
  import GroupingRules
  import BookProofs
  import Safety

  class GroupingService {
    const db: Database
    const genders: Formation.Genders

    constructor (db: Database, genders: Formation.Genders)
      ensures this.db == db && this.genders == genders
    {
      this.db := db;
      this.genders := genders;
    }

    /** Tallies the active members anew, in whatever state the group is. */
    method RecomputeRecruitableGroup(g: GroupId) returns (error: Option<Error>)
      requires g in db.groups
      modifies db`groups
      ensures Formation.Recompute(old(db.groups[g])).Ok? ==>
                error.None? && db.groups == old(db.groups)[g := Formation.Recompute(old(db.groups[g])).value]
      ensures Formation.Recompute(old(db.groups[g])).Err? ==>
                error == Some(Formation.Recompute(old(db.groups[g])).error) && db.groups == old(db.groups)
    {
      var ids, rules := db.MembersForRules(g, genders);
      var summary := GroupingRules.SummarizeGroupingMembers(rules);
      ListedFits(ids, rules, Roster(db.groups[g].members));
      if summary.Err? {
        return Some(INTERNAL_ERROR);
      }
      db.UpdateGroup(g, StateOf(summary.value.state));
      return None;
    }

    // ----- demands -----------------------------------------------------------------------------

    /** The overlap query of rejectOverlappingDemand, over the user's open and grouped demands. */
    predicate Rejected(user: UserId, window: Window)
      reads db
    {
      exists e :: e in db.demands && Formation.Overlapping(db.demands[e], user, window)
    }

    method CreateDemand(demand: Demand, d: DemandId, g: GroupId, enabled: bool, env: Env) returns (error: Option<Error>)
      requires db.Valid()
      modifies db
      ensures db.Valid()
      ensures Performs(old(db.View()), genders, Step.CreateDemand(demand, d, g, enabled, env), db.View(), error)
    {
      hide BookInv, GroupInv, Formation.CreateDemand;
      ghost var before := db.View();
      error := CreateTransaction(demand, d, g, enabled, env);
      if Formation.CreateDemand(before, demand, d, g, enabled, env).Ok? {
        BookProofs.CreateInv(before, demand, d, g, enabled, env);
      }
    }

    method CreateTransaction(demand: Demand, d: DemandId, g: GroupId, enabled: bool, env: Env)
        returns (error: Option<Error>)
      modifies db
      ensures match Formation.CreateDemand(old(db.View()), demand, d, g, enabled, env)
              case Err(thrown) => error == Some(thrown) && db.View() == old(db.View())
              case Ok(after) => error.None? && db.View() == after
    {
      ghost var before := db.View();
      if demand.user !in env.eligible {
        return Some(STUDENT_NOT_VERIFIED);
      }
      if demand.window.start <= env.now || demand.window.end <= demand.window.start {
        return Some(VALIDATION_ERROR);
      }
      if !enabled {
        return Some(VALIDATION_ERROR);
      }
      if Rejected(demand.user, demand.window) {
        return Some(OVERLAPPING_ACTIVE_GROUP);
      }
      if demand.seats < 1 || demand.seats > 3 {
        return Some(CHECK_VIOLATION);
      }
      if d in db.demands || g in db.groups {
        return Some(UNIQUE_VIOLATION);
      }
      db.CreateDemand(d, demand.(status := OPEN, home := None));
      db.CreateGroup(g, Group(demand.route, demand.window, GroupState.RECRUITING, map[], []));
      db.PlaceMember(d, g, Member(demand.user, demand.seats, JOINED));
      db.UpdateDemand(d, GROUPED);
      error := None;
      assert db.demands == before.demands[d := demand.(status := GROUPED, home := Some(g))];
      assert db.groups == before.groups[g := db.groups[g]];
    }

    method CancelDemand(user: UserId, d: DemandId) returns (error: Option<Error>)
      requires db.Valid()
      modifies db
      ensures db.Valid()
      ensures Performs(old(db.View()), genders, Step.CancelDemand(user, d), db.View(), error)
    {
      hide BookInv, GroupInv, Fits;
      var before := Formation.Book(db.demands, db.groups);
      if Formation.CancelDemand(before, user, d).Ok? {
        BookProofs.CancelInv(before, user, d);
      }
      if d !in db.demands || db.demands[d].user != user {
        return Some(RESOURCE_NOT_FOUND);
      }
      var demand := db.demands[d];
      if demand.status.CANCELLED? {
        return None;
      }
      if demand.status == DemandStatus.EXPIRED {
        return Some(GROUP_NOT_JOINABLE);
      }
      if demand.home.Some? {
        var g := demand.home.value;
        if g !in db.groups || d !in db.groups[g].members {
          return Some(RESOURCE_NOT_FOUND);
        }
        if !Recruitable(db.groups[g].state) {
          return Some(GROUP_NOT_JOINABLE);
        }
        db.UpdateMember(g, d, LEFT);
        error := RecomputeRecruitableGroup(g);
        if error.Some? {
          db.Rollback(before);
          return;
        }
        assert db.groups == before.groups[g := db.groups[g]];
      }
      db.UpdateDemand(d, CANCELLED);
      error := None;
    }

    // ----- membership --------------------------------------------------------------------------

    method JoinGroup(user: UserId, g: GroupId, d: DemandId, env: Env) returns (error: Option<Error>)
      requires db.Valid()
      modifies db
      ensures db.Valid()
      ensures Performs(old(db.View()), genders, Step.JoinGroup(user, g, d, env), db.View(), error)
    {
      hide BookInv, GroupInv, Formation.JoinGroup;
      ghost var before := db.View();
      error := JoinTransaction(user, g, d, env);
      var s := Empty.(book := before, genders := genders);
      if Formation.JoinGroup(before, genders, user, g, d, env).Ok? {
        BookProofs.JoinInv(s, user, g, d, env);
      }
    }

    method JoinRejection(user: UserId, g: GroupId, d: DemandId, env: Env) returns (error: Option<Error>)
      ensures error == Formation.JoinChecks(db.View(), genders, user, g, d, env)
    {
      if user !in env.eligible {
        return Some(STUDENT_NOT_VERIFIED);
      }
      if g !in db.groups {
        return Some(RESOURCE_NOT_FOUND);
      }
      var target := db.groups[g];
      if !Recruitable(target.state) || target.window.end <= env.now {
        return Some(GROUP_NOT_JOINABLE);
      }
      if exists member :: member in Users(Roster(target.members)) && member !in env.eligible {
        return Some(GROUP_NOT_JOINABLE);
      }
      if d !in db.demands || db.demands[d].user != user {
        return Some(RESOURCE_NOT_FOUND);
      }
      var demand := db.demands[d];
      if demand.status.CANCELLED? || demand.status == DemandStatus.EXPIRED {
        return Some(GROUP_NOT_JOINABLE);
      }
      if demand.route != target.route || demand.window.start != target.window.start ||
        demand.window.end != target.window.end {
        return Some(GROUP_NOT_JOINABLE);
      }
      return None;
    }

    /** Whether the members and the newcomer fit, and the state the target takes. */
    method Prospects(user: UserId, g: GroupId, d: DemandId) returns (summary: Result<GroupState>)
      requires g in db.groups && d in db.demands && db.demands[d].user == user && d !in Roster(db.groups[g].members)
      ensures var prospective := Roster(db.groups[g].members)[d := Seat(user, db.demands[d].seats)];
              summary == if !Fits(prospective) then Err(GROUP_CAPACITY_EXCEEDED)
                         else if !Formation.Compatible(prospective, db.demands, genders)
                           then Err(GENDER_PREFERENCE_INCOMPATIBLE)
                         else Ok(Tally(|prospective|))
    {
      hide Fits, Formation.Compatible;
      var ids, rules := db.MembersForRules(g, genders);
      var demand := db.demands[d];
      ids := ids + [d];
      rules := rules + [GroupingRules.GroupingMember(user, demand.seats, Formation.GenderOf(genders, user),
                                                     demand.preference)];
      ghost var prospective := Roster(db.groups[g].members)[d := Seat(user, demand.seats)];
      assert Lists(ids, rules, prospective) by {
        Enlisted(ids[..|ids| - 1], rules[..|rules| - 1], Roster(db.groups[g].members), d, rules[|rules| - 1],
                 prospective);
      }
      ListedFits(ids, rules, prospective);
      ListedCompatible(ids, rules, prospective, db.demands, genders);
      var tallied := GroupingRules.SummarizeGroupingMembers(rules);
      if tallied.Err? {
        return Err(GROUP_CAPACITY_EXCEEDED);
      }
      if !GroupingRules.IsGenderPreferenceCompatible(rules) {
        return Err(GENDER_PREFERENCE_INCOMPATIBLE);
      }
      return Ok(StateOf(tallied.value.state));
    }

    method JoinTransaction(user: UserId, g: GroupId, d: DemandId, env: Env) returns (error: Option<Error>)
      requires db.Valid()
      modifies db
      ensures match Formation.JoinGroup(old(db.View()), genders, user, g, d, env)
              case Err(thrown) => error == Some(thrown) && db.View() == old(db.View())
              case Ok(after) => error.None? && db.View() == after
    {
      hide BookInv, GroupInv, Fits, Formation.Compatible, Formation.JoinChecks, Formation.OverlappingRows;
      var before := Formation.Book(db.demands, db.groups);
      error := JoinRejection(user, g, d, env);
      if error.Some? {
        return;
      }
      JoinChecked(before, genders, user, g, d, env);
      if Formation.AlreadyIn(before, g, d) {
        return None;
      }
      var target := db.groups[g];
      var demand := db.demands[d];
      var overlapping := Formation.OverlappingRows(before, user, target.window);
      if overlapping != {} && !Formation.Transferable(before, user, d, target.window) {
        return Some(OVERLAPPING_ACTIVE_GROUP);
      }
      NotListed(before, g, d);
      var summary := Prospects(user, g, d);
      if summary.Err? {
        return Some(summary.error);
      }
      if exists e :: e in target.members && e != d && target.members[e].user == user {
        return Some(UNIQUE_VIOLATION);
      }
      error := MoveMembership(user, g, d, summary.value);
    }

    /** The writes of a join; the group a moved row leaves is tallied before the target's state is set. */
    method MoveMembership(user: UserId, g: GroupId, d: DemandId, state: GroupState) returns (error: Option<Error>)
      requires g in db.groups && d in db.demands
      modifies db
      ensures match Formation.Vacate(old(db.View()), d, g)
              case Err(thrown) => error == Some(thrown) && db.View() == old(db.View())
              case Ok(groups) =>
                && error.None?
                && var demand := old(db.demands)[d];
                   var target := old(db.groups)[g];
                   && db.demands == old(db.demands)[d := demand.(status := GROUPED, home := Some(g))]
                   && db.groups == groups[g := target.(members := target.members[d := Member(user, demand.seats,
                        JOINED)], state := state)]
    {
      hide Fits;
      var before := Formation.Book(db.demands, db.groups);
      var source := if Formation.HasRow(before, d) then Some(Formation.HomeOf(before, d)) else None;
      db.PlaceMember(d, g, Member(user, db.demands[d].seats, JOINED));
      if source.Some? && source.value != g {
        error := RecomputeRecruitableGroup(source.value);
        if error.Some? {
          db.Rollback(before);
          return;
        }
      }
      db.UpdateDemand(d, GROUPED);
      db.UpdateGroup(g, state);
      error := None;
    }

    method LeaveGroup(user: UserId, g: GroupId) returns (error: Option<Error>)
      requires db.Valid()
      modifies db
      ensures db.Valid()
      ensures Performs(old(db.View()), genders, Step.LeaveGroup(user, g), db.View(), error)
    {
      hide BookInv, GroupInv, Performs, LocalChange;
      ghost var before := db.View();
      if g !in db.groups {
        MissingGroup(before, genders, Step.LeaveGroup(user, g));
        return Some(RESOURCE_NOT_FOUND);
      }
      error := LeaveTransaction(user, g);
      LocalPerforms(before, genders, Step.LeaveGroup(user, g), db.View(), error)
        by { LeaveIs(before, genders, user, g); }
    }

    method LeaveTransaction(user: UserId, g: GroupId) returns (error: Option<Error>)
      requires db.Valid() && g in db.groups
      modifies db
      ensures Commits(old(db.View()), db.View(), g, Formation.LeaveGroup(old(db.groups[g]), user), OPEN, error)
    {
      hide BookInv, GroupInv, Fits;
      var before := Formation.Book(db.demands, db.groups);
      var group := db.groups[g];
      if !Recruitable(group.state) {
        return Some(GROUP_NOT_JOINABLE);
      }
      var members := Roster(group.members);
      if user !in Users(members) {
        return Some(RESOURCE_NOT_FOUND);
      }
      var membership :| membership in members && members[membership].user == user;
      OnlyRowOf(before, g, membership, user);
      if |members| == 1 {
        return Some(GROUP_NOT_JOINABLE);
      }
      db.UpdateMember(g, membership, LEFT);
      db.UpdateDemand(membership, OPEN);
      error := RecomputeRecruitableGroup(g);
      if error.Some? {
        db.Rollback(before);
        return;
      }
      assert db.groups == before.groups[g := db.groups[g]];
    }

    // ----- rounds ------------------------------------------------------------------------------

    method StartFormation(user: UserId, g: GroupId, policy: Option<nat>, env: Env) returns (error: Option<Error>)
      requires db.Valid()
      modifies db
      ensures db.Valid()
      ensures Performs(old(db.View()), genders, Step.StartFormation(user, g, policy, env), db.View(), error)
    {
      hide BookInv, GroupInv, Performs, LocalChange;
      ghost var before := db.View();
      if g !in db.groups {
        MissingGroup(before, genders, Step.StartFormation(user, g, policy, env));
        return Some(if user !in env.eligible then STUDENT_NOT_VERIFIED else RESOURCE_NOT_FOUND);
      }
      error := StartTransaction(user, g, policy, env);
      LocalPerforms(before, genders, Step.StartFormation(user, g, policy, env), db.View(), error) by {
        StartIs(before, genders, user, g, policy, env);
      }
    }

    method StartTransaction(user: UserId, g: GroupId, policy: Option<nat>, env: Env) returns (error: Option<Error>)
      requires g in db.groups
      modifies db
      ensures Commits(
                old(db.View()), db.View(), g,
                Formation.StartFormation(
                  old(db.groups[g]), user, policy,
                  Formation.Compatible(Roster(old(db.groups[g].members)), old(db.demands), genders), env),
                OPEN, error)
    {
      hide Fits, Formation.Compatible, GroupingRules.Admissible, Roster, Users;
      ghost var before := db.View();
      if user !in env.eligible {
        return Some(STUDENT_NOT_VERIFIED);
      }
      var group := db.groups[g];
      if !group.state.READY? || group.window.start <= env.now {
        return Some(FORMATION_NOT_READY);
      }
      var members := Roster(group.members);
      if user !in Users(members) {
        return Some(RESOURCE_NOT_FOUND);
      }
      if exists member :: member in Users(members) && member !in env.eligible {
        return Some(STUDENT_NOT_VERIFIED);
      }
      var ids, rules := db.MembersForRules(g, genders);
      ListedFits(ids, rules, members);
      ListedCompatible(ids, rules, members, db.demands, genders);
      var ready := GroupingRules.AssertFormationReady(rules);
      if ready.Err? {
        return Some(if ready.error == GENDER_PREFERENCE_INCOMPATIBLE
                    then GENDER_PREFERENCE_INCOMPATIBLE else FORMATION_NOT_READY);
      }
      if policy.None? {
        return Some(INTERNAL_ERROR);
      }
      var confirmBy := Formation.Min(env.now + CONFIRMATION_LIFETIME_MS, group.window.start);
      if confirmBy <= env.now {
        return Some(FORMATION_NOT_READY);
      }
      if exists i :: 0 <= i < |group.rounds| && Open(group.rounds[i].state) {
        return Some(UNIQUE_VIOLATION);
      }
      var _ := db.CreateRound(
        g, Round(members, policy.value, RoundState.CONFIRMING, confirmBy, None, map[], map[], map[], {}));
      db.UpdateGroup(g, GroupState.CONFIRMING);
      error := None;
      assert db.demands == Formation.SetDemands(before.demands, {}, OPEN);
      assert db.groups == before.groups[g := db.groups[g]];
    }

    method ConfirmFormation(user: UserId, g: GroupId, i: nat, choice: Formation.Choice, env: Env)
        returns (error: Option<Error>)
      requires db.Valid()
      modifies db
      ensures db.Valid()
      ensures Performs(old(db.View()), genders, Step.ConfirmFormation(user, g, i, choice, env), db.View(), error)
    {
      hide BookInv, GroupInv, Performs, LocalChange;
      ghost var before := db.View();
      if g !in db.groups {
        MissingGroup(before, genders, Step.ConfirmFormation(user, g, i, choice, env));
        return Some(if user !in env.eligible then STUDENT_NOT_VERIFIED else RESOURCE_NOT_FOUND);
      }
      error := ConfirmTransaction(user, g, i, choice, env);
      LocalPerforms(before, genders, Step.ConfirmFormation(user, g, i, choice, env), db.View(), error) by {
        ConfirmIs(before, genders, user, g, i, choice, env);
      }
    }

    method ConfirmTransaction(user: UserId, g: GroupId, i: nat, choice: Formation.Choice, env: Env)
        returns (error: Option<Error>)
      requires db.Valid() && g in db.groups
      modifies db
      ensures Commits(old(db.View()), db.View(), g, Formation.ConfirmFormation(old(db.groups[g]), i, user, choice, env),
                      OPEN, error)
    {
      hide BookInv, GroupInv, Fits, Formation.RefuseFormation, Formation.AcceptFormation;
      var before := Formation.Book(db.demands, db.groups);
      if user !in env.eligible {
        return Some(STUDENT_NOT_VERIFIED);
      }
      var group := db.groups[g];
      if i >= |group.rounds| {
        return Some(RESOURCE_NOT_FOUND);
      }
      var round := group.rounds[i];
      if !round.state.CONFIRMING? || !group.state.CONFIRMING? {
        return Some(GROUP_NOT_JOINABLE);
      }
      if round.confirmBy <= env.now {
        return Some(FORMATION_EXPIRED);
      }
      var members := Roster(group.members);
      if user !in Users(members) {
        return Some(RESOURCE_NOT_FOUND);
      }
      var membership :| membership in members && members[membership].user == user;
      OnlyRowOf(before, g, membership, user);
      if members != round.snapshot {
        return Some(GROUP_NOT_JOINABLE);
      }
      if exists member :: member in Users(members) && member !in env.eligible {
        return Some(STUDENT_NOT_VERIFIED);
      }
      if user in round.decisions {
        return Some(GROUP_NOT_JOINABLE);
      }
      assert Formation.ConfirmChecks(group, i, user, env).None?;
      db.UpdateRound(g, i, round.(decisions := round.decisions[user := if choice.Refuse? then DECLINE else ACCEPT]));
      if choice.Refuse? {
        error := Decline(before, g, i, user, membership);
        return;
      }
      if choice.policy != round.policy {
        db.Rollback(before);
        return Some(CONTACT_CONSENT_VERSION_MISMATCH);
      }
      Accept(before, g, i, user, membership, env.now);
      error := None;
    }

    /** The writes after a recorded refusal. */
    method Decline(before: Book, g: GroupId, i: nat, user: UserId, membership: DemandId) returns (error: Option<Error>)
      requires g in before.groups && i < |before.groups[g].rounds|
      requires membership in before.groups[g].members && membership in before.demands
      requires db.demands == before.demands
      requires var group := before.groups[g];
               var round := group.rounds[i];
               db.groups == before.groups[g :=
                   group.(rounds := group.rounds[i := round.(decisions := round.decisions[user := DECLINE])])]
      modifies db
      ensures Commits(before, db.View(), g, Formation.RefuseFormation(before.groups[g], i, user, membership), OPEN,
                      error)
    {
      hide Fits;
      db.UpdateMember(g, membership, DECLINED);
      db.UpdateDemand(membership, OPEN);
      db.UpdateMembers(g, CONFIRMED, JOINED);
      db.UpdateRound(g, i, db.groups[g].rounds[i].(consents := RevokeAll(db.groups[g].rounds[i].consents)));
      db.UpdateRound(g, i, db.groups[g].rounds[i].(state := INVALIDATED));
      assert db.groups[g] == Refused(before.groups[g], i, user, membership);
      assert db.demands == Formation.SetDemands(before.demands, {membership}, OPEN);
      error := RecomputeRecruitableGroup(g);
      if error.Some? {
        db.Rollback(before);
        return;
      }
      assert db.groups == before.groups[g := db.groups[g]];
    }

    /** The writes after a recorded acceptance. */
    method Accept(ghost before: Book, g: GroupId, i: nat, user: UserId, membership: DemandId, now: int)
      requires g in before.groups && i < |before.groups[g].rounds|
      requires membership in before.groups[g].members
      requires db.demands == before.demands
      requires var group := before.groups[g];
               var round := group.rounds[i];
               db.groups == before.groups[g :=
                   group.(rounds := group.rounds[i := round.(decisions := round.decisions[user := ACCEPT])])]
      modifies db
      ensures db.View() == Formation.Commit(
                before, g, Formation.Change(Formation.AcceptFormation(before.groups[g], i, user, membership, now), {}),
                  OPEN)
    {
      hide Roster;
      var snapshotCount := |Roster(db.groups[g].members)|;
      var round := db.groups[g].rounds[i];
      db.UpdateRound(g, i, round.(consents := round.consents[user := Tables.Consent(round.policy, false)]));
      db.UpdateMember(g, membership, CONFIRMED);
      if |Accepted(db.groups[g].rounds[i])| == snapshotCount {
        db.UpdateRound(g, i,
                       db.groups[g].rounds[i].(state := RoundState.PAYING,
                                               payBy := Some(now + PAYMENT_HANDOFF_LIFETIME_MS)));
        db.UpdateGroup(g, GroupState.PAYING);
        db.UpdateMembers(g, CONFIRMED, PAYMENT_PENDING);
      }
      assert db.demands == Formation.SetDemands(before.demands, {}, OPEN);
      assert db.groups[g] == Formation.AcceptFormation(before.groups[g], i, user, membership, now);
      assert db.groups == before.groups[g := db.groups[g]];
    }
  }

  lemma LeaveIs(before: Book, genders: Formation.Genders, user: UserId, g: GroupId)
    requires g in before.groups
    ensures LocalChange(Empty.(book := before, genders := genders), Step.LeaveGroup(user, g)) ==
            Formation.LeaveGroup(before.groups[g], user)
  {
    hide Formation.LeaveGroup;
  }

  /** A user has one active row in a group, so any row found is the row. */
  lemma OnlyRowOf(book: Book, g: GroupId, d: DemandId, user: UserId)
    requires BookInv(book) && g in book.groups
    requires d in Roster(book.groups[g].members) && Roster(book.groups[g].members)[d].user == user
    ensures Formation.RowOf(Roster(book.groups[g].members), user) == d
    ensures d in book.demands
  {
    hide RoundsInv, StateInv, DemandInv, NoClash;
    Safety.GroupOf(book, g);
    FitsDistinct(Roster(book.groups[g].members));
  }

  lemma JoinChecked(book: Book, genders: Formation.Genders, user: UserId, g: GroupId, d: DemandId, env: Env)
    requires Formation.JoinChecks(book, genders, user, g, d, env).None?
    ensures g in book.groups && d in book.demands && book.demands[d].user == user
    ensures Recruitable(book.groups[g].state)
  {
  }

  /** A demand that is not already an active member has no active row in the group. */
  lemma NotListed(book: Book, g: GroupId, d: DemandId)
    requires BookInv(book) && g in book.groups && d in book.demands && !Formation.AlreadyIn(book, g, d)
    ensures d !in Roster(book.groups[g].members)
  {
    hide GroupInv, NoClash;
    if d in book.groups[g].members {
      assert DemandInv(book, d);
    }
  }

  lemma Enlisted(
    ids: seq<DemandId>, rules: seq<GroupingRules.GroupingMember>, roster: map<DemandId, Seat>,
    d: DemandId, rule: GroupingRules.GroupingMember, larger: map<DemandId, Seat>)
    requires Lists(ids, rules, roster) && d !in roster
    requires d in larger && larger == roster[d := larger[d]]
    requires rule.userId == larger[d].user && rule.seatCount == larger[d].seats
    ensures Lists(ids + [d], rules + [rule], larger)
  {
    assert (ids + [d])[|ids|] == d;
    forall e | e in larger ensures e in ids + [d] {
      if e != d {
        assert e in ids;
      }
    }
  }

  function Refused(group: Group, i: nat, user: UserId, d: DemandId): Group
    requires i < |group.rounds| && d in group.members
  {
    var round := group.rounds[i];
    group.(members := Restatus(group.members[d := group.members[d].(status := DECLINED)], CONFIRMED, JOINED),
           rounds := group.rounds[i := round.(decisions := round.decisions[user := DECLINE],
                                              consents := RevokeAll(round.consents),
                                             state := INVALIDATED)])
  }

  lemma StartIs(before: Book, genders: Formation.Genders, user: UserId, g: GroupId, policy: Option<nat>, env: Env)
    requires g in before.groups
    ensures LocalChange(Empty.(book := before, genders := genders), Step.StartFormation(user, g, policy, env)) ==
            Formation.StartFormation(before.groups[g], user, policy,
                                     Formation.Compatible(Roster(before.groups[g].members), before.demands, genders),
                                       env)
  {
    hide Formation.StartFormation, Formation.Compatible;
  }

  lemma ConfirmIs(before: Book, genders: Formation.Genders, user: UserId, g: GroupId, i: nat, choice: Formation.Choice,
                  env: Env)
    requires g in before.groups
    ensures LocalChange(Empty.(book := before, genders := genders), Step.ConfirmFormation(user, g, i, choice, env)) ==
            Formation.ConfirmFormation(before.groups[g], i, user, choice, env)
  {
    hide Formation.ConfirmFormation;
  }
}
