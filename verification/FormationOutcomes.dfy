/** What each grouping request and deadline achieves, and exactly when: demands, memberships and confirmations. */
module FormationOutcomes {
  import opened Wrappers
  import opened Tables
  import opened Runs
  import opened Invariants
  import opened Outcomes
  import BookProofs
  import Formation
  import FormationProofs
  import GroupingRules
  import Memberships
  import Payment
  import Safety

  // ----- demands -----------------------------------------------------------------------------

  /** The stored demand is the requested one, grouped in this group. */
  predicate Stores(t: State, demand: Demand, d: DemandId, g: GroupId) {
    && d in t.book.demands
    && var stored := t.book.demands[d];
       && stored.user == demand.user && stored.route == demand.route && stored.window == demand.window
       && stored.seats == demand.seats && stored.preference == demand.preference
       && stored.status.GROUPED? && stored.home == Some(g)
  }

  /** A new group around this demand: its user is the one member. */
  predicate Founded(t: State, demand: Demand, d: DemandId, g: GroupId) {
    && g in t.book.groups
    && var group := t.book.groups[g];
       && group.route == demand.route && group.window == demand.window && group.state == GroupState.RECRUITING
       && group.rounds == [] && group.members == map[d := Member(demand.user, demand.seats, JOINED)]
  }

  /** The user has a demand, open or grouped, for a time that this window shares. */
  predicate Busy(s: State, user: UserId, window: Window) {
    exists e :: e in s.book.demands && s.book.demands[e].user == user && Live(s.book.demands[e]) &&
                s.book.demands[e].window.start < window.end && window.start < s.book.demands[e].window.end
  }

  /**
   * A demand is accepted exactly from an eligible user without another one for the time, for an enabled future window
   * and one to three seats; it is stored as requested, together with a group of its own, and nothing else changes.
   */
  lemma DemandOutcome(s: State, demand: Demand, d: DemandId, g: GroupId, enabled: bool, env: Env)
    ensures var step := CreateDemand(demand, d, g, enabled, env);
            var t := Next(s, step);
            && (Exec(s, step).Ok? <==>
                && demand.user in env.eligible && enabled
                && env.now < demand.window.start < demand.window.end && 1 <= demand.seats <= 3
                && !Busy(s, demand.user, demand.window) && d !in s.book.demands && g !in s.book.groups)
            && (Exec(s, step).Err? ==> t == s)
            && (Exec(s, step).Ok? ==>
                  && Stores(t, demand, d, g) && Founded(t, demand, d, g)
                  && t == s.(book := t.book)
                  && t.book.demands == s.book.demands[d := t.book.demands[d]]
                  && t.book.groups == s.book.groups[g := t.book.groups[g]])
  {
    if e :| e in s.book.demands && Formation.Overlapping(s.book.demands[e], demand.user, demand.window) {
      assert Busy(s, demand.user, demand.window);
    }
    if Busy(s, demand.user, demand.window) {
      var e :| e in s.book.demands && s.book.demands[e].user == demand.user && Live(s.book.demands[e]) &&
               s.book.demands[e].window.start < demand.window.end && demand.window.start < s.book.demands[e].window.end;
      assert Formation.Overlapping(s.book.demands[e], demand.user, demand.window);
    }
  }

  /** The state that goes with this many active members. */
  predicate Tallied(group: Group) {
    var members := set d | d in group.members && Active(group.members[d].status);
    && (|members| == 0 ==> group.state == GroupState.EXPIRED)
    && (|members| == 1 ==> group.state == GroupState.RECRUITING)
    && (|members| >= 2 ==> group.state == GroupState.READY)
  }

  lemma TalliedIs(group: Group)
    requires group.state == Tally(|Roster(group.members)|)
    ensures Tallied(group)
  {
    assert Roster(group.members).Keys == set d | d in group.members && Active(group.members[d].status);
    assert |Roster(group.members)| == |Roster(group.members).Keys|;
  }

  /** One row ends, and the group is tallied anew. */
  predicate RowEnds(before: Group, after: Group, d: DemandId, status: MemberStatus) {
    && d in before.members && Tallied(after)
    && after.route == before.route && after.window == before.window && after.rounds == before.rounds
    && after.members == before.members[d := before.members[d].(status := status)]
  }

  /**
   * A cancellation succeeds exactly for the user's own demand that has not expired, while its group recruits or after
   * an earlier cancellation. The demand is cancelled, its membership is left, its group tallied; nothing else changes.
   */
  lemma CancelOutcome(s: State, user: UserId, d: DemandId)
    requires Inv(s)
    ensures var step := CancelDemand(user, d);
            var t := Next(s, step);
            && (Exec(s, step).Ok? <==>
                && d in s.book.demands && s.book.demands[d].user == user
                && (s.book.demands[d].status.CANCELLED? ||
                    (s.book.demands[d].status != DemandStatus.EXPIRED &&
                     Recruitable(s.book.groups[s.book.demands[d].home.value].state))))
            && (Exec(s, step).Err? || s.book.demands[d].status.CANCELLED? ==> t == s)
            && (Exec(s, step).Ok? && !s.book.demands[d].status.CANCELLED? ==>
                  var g := s.book.demands[d].home.value;
                  && OnlyGroup(s, t, g, {d}, CANCELLED)
                  && RowEnds(s.book.groups[g], t.book.groups[g], d, LEFT))
  {
    hide Inv, Formation.CancelDemand, Recruitable, LocalChange, WorkerStep;
    var step := CancelDemand(user, d);
    InvBook(s);
    CancelSucceeds(s.book, user, d);
    if Exec(s, step).Ok? {
      CancelAchieves(s.book, user, d);
    }
  }

  lemma InvBook(s: State)
    requires Inv(s)
    ensures BookInv(s.book)
    ensures forall d :: d in s.book.demands ==> Formation.HasRow(s.book, d)
  {
    hide GroupInv, NoClash, GatewayInv, RefundedInv, JobsInv;
    forall d | d in s.book.demands ensures Formation.HasRow(s.book, d) {
      assert DemandInv(s.book, d);
    }
  }

  lemma CancelSucceeds(book: Book, user: UserId, d: DemandId)
    requires BookInv(book)
    ensures Formation.CancelDemand(book, user, d).Ok? <==>
            && d in book.demands && book.demands[d].user == user
            && (book.demands[d].status.CANCELLED? ||
                (book.demands[d].status != DemandStatus.EXPIRED && Formation.HasRow(book, d) &&
                 Recruitable(book.groups[book.demands[d].home.value].state)))
  {
    hide GroupInv, NoClash, Fits, Formation.Recompute;
    Memberships.CancelNeverThrows(book, user, d);
    if d in book.demands {
      assert DemandInv(book, d);
    }
    FailsInternally(book, user, d);
  }

  lemma FailsInternally(book: Book, user: UserId, d: DemandId)
    ensures forall group :: Formation.Recompute(group).Err? ==> Formation.Recompute(group) == Err(INTERNAL_ERROR)
  {
  }

  lemma CancelAchieves(book: Book, user: UserId, d: DemandId)
    requires Formation.CancelDemand(book, user, d).Ok?
    ensures var after := Formation.CancelDemand(book, user, d).value;
            if book.demands[d].status.CANCELLED? then after == book
            else
              && after.demands == book.demands[d := book.demands[d].(status := CANCELLED)]
              && (book.demands[d].home.Some? ==>
                    var g := book.demands[d].home.value;
                    && g in book.groups && g in after.groups
                    && after.groups == book.groups[g := after.groups[g]]
                    && RowEnds(book.groups[g], after.groups[g], d, LEFT))
  {
    hide Fits, Tallied;
    if !book.demands[d].status.CANCELLED? && book.demands[d].home.Some? {
      TalliedIs(Formation.CancelDemand(book, user, d).value.groups[book.demands[d].home.value]);
    }
  }

  // ----- membership --------------------------------------------------------------------------

  /** The user is an active member of the group, through this demand. */
  predicate Holds(group: Group, user: UserId, d: DemandId) {
    d in group.members && group.members[d].user == user && Active(group.members[d].status)
  }

  ghost predicate IsIn(group: Group, user: UserId) {
    exists d: DemandId :: Holds(group, user, d)
  }

  function ActiveRows(group: Group): set<DemandId> {
    set d | d in group.members && Active(group.members[d].status)
  }

  lemma RosterIs(group: Group)
    ensures Roster(group.members).Keys == ActiveRows(group) && |Roster(group.members)| == |ActiveRows(group)|
    ensures forall user :: user in Users(Roster(group.members)) <==> IsIn(group, user)
  {
    var roster := Roster(group.members);
    assert roster.Keys == ActiveRows(group);
    assert |roster| == |roster.Keys|;
    forall user ensures user in Users(roster) <==> IsIn(group, user) {
      if d :| Holds(group, user, d) {
        assert d in roster && roster[d].user == user;
      }
      if user in Users(roster) {
        var d :| d in roster && roster[d].user == user;
        assert Holds(group, user, d);
      }
    }
  }

  /** Every active member is one of these users. */
  predicate AllIn(group: Group, users: set<UserId>) {
    forall d :: d in ActiveRows(group) ==> group.members[d].user in users
  }

  lemma AllInIs(group: Group, users: set<UserId>)
    ensures Users(Roster(group.members)) <= users <==> AllIn(group, users)
  {
    var roster := Roster(group.members);
    assert roster.Keys == ActiveRows(group);
    if AllIn(group, users) {
      forall user | user in Users(roster) ensures user in users {
        var d :| d in roster && roster[d].user == user;
        assert d in ActiveRows(group);
      }
    }
    if Users(roster) <= users {
      forall d | d in ActiveRows(group) ensures group.members[d].user in users {
        assert d in roster && roster[d].user in Users(roster);
      }
    }
  }

  /** A member has one active row. */
  lemma OneRow(group: Group, user: UserId, d: DemandId, e: DemandId)
    requires Fits(Roster(group.members)) && Holds(group, user, d) && Holds(group, user, e)
    ensures d == e
  {
    var roster := Roster(group.members);
    FitsDistinct(roster);
    assert d in roster && e in roster && roster[d].user == roster[e].user;
  }

  /**
   * A member may leave exactly while the group recruits and somebody else stays. The caller's own membership is left
   * and its demand open again; the group is tallied, and nothing else changes.
   */
  lemma LeaveOutcome(s: State, user: UserId, g: GroupId)
    requires Inv(s)
    ensures var step := LeaveGroup(user, g);
            var t := Next(s, step);
            && (Exec(s, step).Ok? <==>
                g in s.book.groups && Recruitable(s.book.groups[g].state) && IsIn(s.book.groups[g], user) &&
                |ActiveRows(s.book.groups[g])| >= 2)
            && (Exec(s, step).Err? ==> t == s)
            && (Exec(s, step).Ok? ==>
                  forall d: DemandId :: Holds(s.book.groups[g], user, d) ==>
                    OnlyGroup(s, t, g, {d}, OPEN) && RowEnds(s.book.groups[g], t.book.groups[g], d, LEFT))
  {
    hide Inv, LocalChange, Next, Exec, GroupInv, Fits, Formation.LeaveGroup, RowEnds, ActiveRows, Recruitable;
    var step := LeaveGroup(user, g);
    if g in s.book.groups {
      var group := s.book.groups[g];
      Safety.GroupIn(s, g);
      LeaveIs(s, step);
      LeaveAchieves(group, user);
      var change := Formation.LeaveGroup(group, user);
      if change.Ok? {
        Changes(s, step, change.value);
      } else {
        Fails(s, step);
      }
    } else {
      Fails(s, step);
    }
  }

  lemma LeaveIs(s: State, step: Step)
    requires step.LeaveGroup? && step.g in s.book.groups
    ensures LocalChange(s, step) == Formation.LeaveGroup(s.book.groups[step.g], step.user)
  {
    hide Formation.LeaveGroup;
  }

  lemma LeaveAchieves(group: Group, user: UserId)
    requires GroupInv(group)
    ensures Formation.LeaveGroup(group, user).Ok? <==>
            Recruitable(group.state) && IsIn(group, user) && |ActiveRows(group)| >= 2
    ensures Formation.LeaveGroup(group, user).Ok? ==>
              var change := Formation.LeaveGroup(group, user).value;
              forall d: DemandId :: Holds(group, user, d) ==>
                change.released == {d} && RowEnds(group, change.group, d, LEFT)
  {
    hide RoundsInv, StateInv, Fits, Roster, ActiveRows, IsIn, Users, Tallied;
    RosterIs(group);
    if Recruitable(group.state) && IsIn(group, user) && |ActiveRows(group)| >= 2 {
      var d := Formation.RowOf(Roster(group.members), user);
      InRoster(group, user, d);
      var left := group.(members := group.members[d := group.members[d].(status := LEFT)]);
      LeaveFits(group, d);
      TalliedIs(left.(state := Tally(|Roster(left.members)|)));
      forall e | Holds(group, user, e) ensures e == d {
        OneRow(group, user, d, e);
      }
    } else {
      SomebodyIn(group, user);
    }
  }

  lemma SomebodyIn(group: Group, user: UserId)
    ensures user in Users(Roster(group.members)) ==> |Roster(group.members)| >= 1
  {
    if user in Users(Roster(group.members)) {
      var d :| d in Roster(group.members);
      assert Roster(group.members) != map[];
    }
  }

  lemma InRoster(group: Group, user: UserId, d: DemandId)
    requires d in Roster(group.members) && Roster(group.members)[d].user == user
    ensures Holds(group, user, d)
  {
  }

  lemma LeaveFits(group: Group, d: DemandId)
    requires GroupInv(group) && d in group.members
    ensures Fits(Roster(group.members[d := group.members[d].(status := LEFT)]))
  {
    hide RoundsInv, StateInv, Fits;
    var left := Roster(group.members[d := group.members[d].(status := LEFT)]);
    FitsSubset(left, Roster(group.members));
  }
}
