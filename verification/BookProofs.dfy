/** Transactions on demands and groups keep what relates the two. */
module BookProofs {
  import opened Wrappers
  import opened Tables
  import opened Invariants
  import opened Runs
  import Formation
  import FormationProofs

  /** Refund rows survive a step unchanged, and a new one is only requested. */
  ghost predicate BookRefundsKept(before: Book, after: Book) {
    forall key {:trigger RefundRow(after, key)} {:trigger RefundRow(before, key)} ::
      && (RefundRow(before, key) ==> RefundRow(after, key) && OrderAt(after, key) == OrderAt(before, key))
      && (RefundRow(after, key) && !RefundRow(before, key) ==> OrderAt(after, key).refund.value.status.REQUESTED?)
  }

  // ----- one group ---------------------------------------------------------------------------

  lemma CommitRefunds(book: Book, g: GroupId, change: Formation.Change, status: DemandStatus)
    requires g in book.groups && RefundsKept(book.groups[g], change.group)
    ensures BookRefundsKept(book, Formation.Commit(book, g, change, status))
  {
    var after := Formation.Commit(book, g, change, status);
    forall key ensures
      && (RefundRow(book, key) ==> RefundRow(after, key) && OrderAt(after, key) == OrderAt(book, key))
      && (RefundRow(after, key) && !RefundRow(book, key) ==> OrderAt(after, key).refund.value.status.REQUESTED?)
    {
      if key.group == g {
        assert Refunding(book.groups[g], key.round, key.user) ==> Refunding(change.group, key.round, key.user);
      }
    }
  }

  lemma CommitDemand(book: Book, g: GroupId, change: Formation.Change, status: DemandStatus, d: DemandId)
    requires g in book.groups && MembersKept(book.groups[g], change.group, change.released)
    requires forall e :: e in book.groups[g].members ==> e in book.demands && book.demands[e].home == Some(g)
    requires status.OPEN? || status.EXPIRED?
    requires DemandInv(book, d)
    ensures DemandInv(Formation.Commit(book, g, change, status), d)
    ensures Live(Formation.Commit(book, g, change, status).demands[d]) ==> Live(book.demands[d])
  {
    if d in change.released {
      assert d in Roster(book.groups[g].members);
    }
  }

  lemma CommitInv(book: Book, g: GroupId, change: Formation.Change, status: DemandStatus)
    requires BookInv(book) && g in book.groups && Sound(book.groups[g], change)
    requires status.OPEN? || status.EXPIRED?
    ensures BookInv(Formation.Commit(book, g, change, status))
    ensures BookRefundsKept(book, Formation.Commit(book, g, change, status))
  {
    hide GroupInv, Coupled, RefundsKept, DemandInv, BookRefundsKept, Live;
    var after := Formation.Commit(book, g, change, status);
    CommitRefunds(book, g, change, status);
    forall d | d in after.demands ensures DemandInv(after, d) && (Live(after.demands[d]) ==> Live(book.demands[d])) {
      CommitDemand(book, g, change, status, d);
    }
  }

  // ----- one demand --------------------------------------------------------------------------

  /** Apart from the row of one demand, which ends up in group g, no row changes. */
  ghost predicate OnlyRow(before: Book, after: Book, d: DemandId, g: GroupId) {
    && after.groups.Keys == before.groups.Keys + {g}
    && (forall h :: h in before.groups ==>
          && after.groups[h].route == before.groups[h].route
          && after.groups[h].window == before.groups[h].window
          && after.groups[h].members - {d} == before.groups[h].members - {d})
    && (g !in before.groups ==> after.groups[g].members - {d} == map[])
    && (forall h :: h in after.groups && d in after.groups[h].members ==> h == g)
  }

  lemma OtherRow(before: Book, after: Book, d: DemandId, g: GroupId, h: GroupId, e: DemandId)
    requires OnlyRow(before, after, d, g) && e != d
    ensures h in after.groups && e in after.groups[h].members <==> h in before.groups && e in before.groups[h].members
    ensures h in after.groups && e in after.groups[h].members ==>
              after.groups[h].members[e] == before.groups[h].members[e]
  {
    if h in before.groups {
      assert e in after.groups[h].members - {d} <==> e in before.groups[h].members - {d};
      if e in after.groups[h].members {
        assert (after.groups[h].members - {d})[e] == (before.groups[h].members - {d})[e];
      }
    } else if h == g {
      assert h in after.groups ==> (e in after.groups[h].members <==> e in after.groups[h].members - {d});
    }
  }

  lemma OtherDemand(before: Book, after: Book, d: DemandId, g: GroupId, e: DemandId)
    requires OnlyRow(before, after, d, g) && e != d && DemandInv(before, e)
    requires e in after.demands && after.demands[e] == before.demands[e]
    ensures DemandInv(after, e)
  {
    OtherRow(before, after, d, g, Formation.HomeOf(before, e), e);
  }

  lemma PatchedInv(before: Book, after: Book, d: DemandId, g: GroupId)
    requires BookInv(before) && OnlyRow(before, after, d, g)
    requires d in after.demands && after.demands == before.demands[d := after.demands[d]]
    requires after.demands[d].home == Some(g) && DemandInv(after, d) && NoClash(after.demands)
    requires forall h :: h in after.groups ==> GroupInv(after.groups[h])
    ensures BookInv(after)
  {
    hide GroupInv, DemandInv, OnlyRow, NoClash;
    forall e | e in after.demands ensures DemandInv(after, e) {
      if e != d {
        OtherDemand(before, after, d, g, e);
      }
    }
    forall h, e | h in after.groups && e in after.groups[h].members
      ensures e in after.demands && after.demands[e].home == Some(h)
    {
      if e != d {
        OtherRow(before, after, d, g, h, e);
      } else {
        assert h == g by { OnlyHome(before, after, d, g, h); }
      }
    }
  }

  lemma OnlyHome(before: Book, after: Book, d: DemandId, g: GroupId, h: GroupId)
    requires OnlyRow(before, after, d, g) && h in after.groups && d in after.groups[h].members
    ensures h == g
  {
  }

  /** A step that touches no round disturbs no refund. */
  lemma RoundsUntouched(before: Book, after: Book)
    requires forall h :: h in before.groups ==> h in after.groups && after.groups[h].rounds == before.groups[h].rounds
    requires forall h :: h in after.groups && h !in before.groups ==> after.groups[h].rounds == []
    ensures BookRefundsKept(before, after)
  {
  }

  /** Giving a live demand another live status, or ending it, cannot make windows clash. */
  lemma StillNoClash(demands: map<DemandId, Demand>, d: DemandId, demand: Demand)
    requires NoClash(demands) && d in demands
    requires demand.user == demands[d].user && demand.window == demands[d].window && (Live(demand) ==> Live(demands[d]))
    ensures NoClash(demands[d := demand])
  {
  }

  // ----- create ------------------------------------------------------------------------------

  lemma {:induction false} SingleFits(roster: map<DemandId, Seat>, d: DemandId)
    requires roster.Keys == {d} && 1 <= roster[d].seats <= 3
    ensures Fits(roster) && |roster| == 1
  {
    SeatSumWithout(roster, d);
    assert roster - {d} == map[];
    assert |roster.Keys| == 1;
  }

  lemma NewGroupInv(route: nat, window: Window, d: DemandId, user: UserId, seats: int)
    requires 1 <= seats <= 3
    ensures var group := Group(route, window, GroupState.RECRUITING, map[d := Member(user, seats, JOINED)], []);
            GroupInv(group) && Coupled(group)
  {
    SingleFits(Roster(map[d := Member(user, seats, JOINED)]), d);
  }

  lemma CreateNoClash(demands: map<DemandId, Demand>, d: DemandId, demand: Demand)
    requires NoClash(demands) && d !in demands
    requires forall e :: e in demands ==> !Formation.Overlapping(demands[e], demand.user, demand.window)
    ensures NoClash(demands[d := demand])
  {
  }

  lemma CreateInv(book: Book, demand: Demand, d: DemandId, g: GroupId, enabled: bool, env: Env)
    requires BookInv(book) && Formation.CreateDemand(book, demand, d, g, enabled, env).Ok?
    ensures var after := Formation.CreateDemand(book, demand, d, g, enabled, env).value;
            && BookInv(after) && BookRefundsKept(book, after)
            && (AllCoupled(book) ==> AllCoupled(after))
  {
    hide GroupInv, Coupled, NoClash, BookRefundsKept;
    var after := Formation.CreateDemand(book, demand, d, g, enabled, env).value;
    NewGroupInv(demand.route, demand.window, d, demand.user, demand.seats);
    CreateNoClash(book.demands, d, after.demands[d]);
    assert OnlyRow(book, after, d, g);
    PatchedInv(book, after, d, g);
    RoundsUntouched(book, after);
  }

  // ----- cancel ------------------------------------------------------------------------------

  lemma CancelledGroup(book: Book, d: DemandId, g: GroupId, group: Group, status: DemandStatus)
    requires BookInv(book) && DemandInv(book, d) && Formation.HomeOf(book, d) == g
    requires status.OPEN? || status.CANCELLED?
    requires Live(book.demands[d]) || status.CANCELLED?
    requires group.members == book.groups[g].members[d := book.groups[g].members[d].(status := LEFT)]
    requires group.rounds == book.groups[g].rounds && group.route == book.groups[g].route &&
             group.window == book.groups[g].window
    requires GroupInv(group)
    ensures var after := Formation.Book(book.demands[d := book.demands[d].(status := status)], book.groups[g := group]);
            BookInv(after) && BookRefundsKept(book, after)
  {
    hide GroupInv, NoClash, BookRefundsKept;
    var after := Formation.Book(book.demands[d := book.demands[d].(status := status)], book.groups[g := group]);
    StillNoClash(book.demands, d, after.demands[d]);
    assert OnlyRow(book, after, d, g);
    PatchedInv(book, after, d, g);
    RoundsUntouched(book, after);
  }

  lemma CancelInv(book: Book, user: UserId, d: DemandId)
    requires BookInv(book) && Formation.CancelDemand(book, user, d).Ok?
    ensures var after := Formation.CancelDemand(book, user, d).value;
            && BookInv(after) && BookRefundsKept(book, after)
            && (AllCoupled(book) ==> AllCoupled(after))
  {
    hide GroupInv, Coupled, NoClash, Fits, BookRefundsKept;
    assert DemandInv(book, d);
    if book.demands[d].status.CANCELLED? {
      RoundsUntouched(book, book);
    } else {
      var g := Formation.HomeOf(book, d);
      var group := book.groups[g];
      var moved := group.(members := group.members[d := group.members[d].(status := LEFT)]);
      FormationProofs.RecomputeSound(group, moved);
      CancelledGroup(book, d, g, moved.(state := Tally(|Roster(moved.members)|)), CANCELLED);
    }
  }

  // ----- join --------------------------------------------------------------------------------

  /** A group recomputed without a row that had ended keeps the invariant; it stays coupled unless a round locks it. */
  lemma EndedRowGone(source: Group, d: DemandId)
    requires GroupInv(source) && d in source.members && !Active(source.members[d].status)
    ensures var after := source.(members := source.members - {d}, state := Tally(|Roster(source.members - {d})|));
            && Roster(source.members - {d}) == Roster(source.members)
            && GroupInv(after)
            && (Coupled(source) ==> (Coupled(after) <==> !Locked(source.state)))
  {
    hide Fits, RoundInv, PaysTogether;
    var after := source.(members := source.members - {d}, state := Tally(|Roster(source.members - {d})|));
    assert Roster(after.members) == Roster(source.members);
    assert !Locked(after.state);
    if Locked(source.state) {
      assert !source.rounds[|source.rounds| - 1].state.INVALIDATED?;
    }
  }

  /** A sole member that moves away leaves an expired group behind. */
  lemma SoleRowGone(source: Group, d: DemandId)
    requires GroupInv(source) && !Locked(source.state) && d in source.members && Active(source.members[d].status)
    ensures var after := source.(members := source.members - {d}, state := Tally(|Roster(source.members - {d})|));
            && Fits(Roster(source.members - {d}))
            && GroupInv(after)
            && (Coupled(source) ==> Coupled(after))
  {
    hide Fits, RoundInv;
    FormationProofs.RecomputeSound(source, source.(members := source.members - {d}));
  }

  lemma JoinedTarget(target: Group, d: DemandId, user: UserId, seats: int)
    requires GroupInv(target) && !Locked(target.state)
    requires d in target.members ==> !Active(target.members[d].status)
    requires Fits(Roster(target.members)[d := Seat(user, seats)])
    ensures var after := target.(members := target.members[d := Member(user, seats, JOINED)],
                                 state := Tally(|Roster(target.members)[d := Seat(user, seats)]|));
            GroupInv(after) && (Coupled(target) ==> Coupled(after))
  {
    hide Fits, RoundInv;
    assert Roster(target.members[d := Member(user, seats, JOINED)]) == Roster(target.members)[d := Seat(user, seats)];
  }

  /** The book after a row of one demand moved from group h into group g. */
  ghost predicate Moved(book: Book, after: Book, g: GroupId, d: DemandId) {
    && g in book.groups && g in after.groups && DemandInv(book, d) && Live(book.demands[d])
    && var demand := book.demands[d];
       var h := Formation.HomeOf(book, d);
       && 1 <= demand.seats <= 3
       && after.demands == book.demands[d := demand.(status := GROUPED, home := Some(g))]
       && after.groups[g].rounds == book.groups[g].rounds
       && after.groups[g].members == book.groups[g].members[d := Member(demand.user, demand.seats, JOINED)]
       && after.groups[g].route == book.groups[g].route == demand.route
       && after.groups[g].window == book.groups[g].window == demand.window
       && (h == g ==> after.groups == book.groups[g := after.groups[g]])
       && (h != g ==>
             && h in after.groups
             && after.groups == book.groups[h := after.groups[h]][g := after.groups[g]]
             && after.groups[h].rounds == book.groups[h].rounds
             && after.groups[h].members == book.groups[h].members - {d}
             && after.groups[h].route == book.groups[h].route && after.groups[h].window == book.groups[h].window)
  }

  /**
   * What a join that moves or adds a row writes: the row, and the tallies of the group it enters and of the one it
   * leaves.
   */
  lemma JoinMoves(s: State, user: UserId, g: GroupId, d: DemandId, env: Env)
    requires BookInv(s.book) && Formation.JoinGroup(s.book, s.genders, user, g, d, env).Ok?
    requires !Formation.AlreadyIn(s.book, g, d)
    ensures var after := Formation.JoinGroup(s.book, s.genders, user, g, d, env).value;
            && Moved(s.book, after, g, d) && s.book.demands[d].user == user
            && var h := Formation.HomeOf(s.book, d);
            && var target := Roster(s.book.groups[g].members)[d := Seat(user, s.book.demands[d].seats)];
            && Recruitable(s.book.groups[g].state) && Fits(target) && after.groups[g].state == Tally(|target|)
            && (h != g ==> after.groups[h].state == Tally(|Roster(after.groups[h].members)|))
  {
    hide GroupInv, Coupled, Fits, NoClash, Formation.Compatible, Formation.OverlappingRows, Formation.Transferable;
    assert DemandInv(s.book, d);
  }

  /**
   * A join that moves or adds a row keeps the two groups' invariants, and uncouples the one it leaves if a round locks
   * it.
   */
  lemma JoinOutcome(s: State, user: UserId, g: GroupId, d: DemandId, env: Env)
    requires BookInv(s.book) && Formation.JoinGroup(s.book, s.genders, user, g, d, env).Ok?
    requires !Formation.AlreadyIn(s.book, g, d)
    ensures var after := Formation.JoinGroup(s.book, s.genders, user, g, d, env).value;
            && Moved(s.book, after, g, d)
            && var h := Formation.HomeOf(s.book, d);
            && Recruitable(s.book.groups[g].state)
            && GroupInv(after.groups[g]) && GroupInv(after.groups[h])
            && (Coupled(s.book.groups[g]) ==> Coupled(after.groups[g]))
            && (h != g && Coupled(s.book.groups[h]) ==> (Coupled(after.groups[h]) <==> !Locked(s.book.groups[h].state)))
  {
    hide GroupInv, Coupled, Fits, NoClash, Formation.JoinGroup;
    var book := s.book;
    JoinMoves(s, user, g, d, env);
    var h := Formation.HomeOf(book, d);
    JoinedTarget(book.groups[g], d, user, book.demands[d].seats);
    if h != g {
      if Active(book.groups[h].members[d].status) {
        TransferOnlyFromRecruiting(s, user, g, d, env);
        SoleRowGone(book.groups[h], d);
      } else {
        EndedRowGone(book.groups[h], d);
        assert Fits(Roster(book.groups[h].members)) by { InvFits(book.groups[h]); }
      }
    }
  }

  lemma InvFits(group: Group)
    requires GroupInv(group)
    ensures Fits(Roster(group.members))
  {
  }

  lemma TransferOnlyFromRecruiting(s: State, user: UserId, g: GroupId, d: DemandId, env: Env)
    requires Formation.JoinGroup(s.book, s.genders, user, g, d, env).Ok?
    requires DemandInv(s.book, d) && s.book.demands[d].user == user && g in s.book.groups
    requires s.book.groups[g].window == s.book.demands[d].window
    requires Active(Formation.RowFor(s.book, d).status) && !Formation.AlreadyIn(s.book, g, d)
    ensures s.book.groups[Formation.HomeOf(s.book, d)].state.RECRUITING?
  {
    hide GroupInv, Coupled, Fits;
    assert d in Formation.OverlappingRows(s.book, user, s.book.groups[g].window);
  }

  lemma MovedOnlyRow(book: Book, after: Book, g: GroupId, d: DemandId)
    requires Moved(book, after, g, d)
    requires forall h :: h in book.groups && d in book.groups[h].members ==> h == Formation.HomeOf(book, d)
    ensures OnlyRow(book, after, d, g)
  {
    hide Live;
  }

  lemma MovedDemand(book: Book, after: Book, g: GroupId, d: DemandId)
    requires Moved(book, after, g, d)
    ensures DemandInv(after, d)
  {
  }

  lemma MovedRefunds(book: Book, after: Book, g: GroupId, d: DemandId)
    requires Moved(book, after, g, d)
    ensures BookRefundsKept(book, after)
  {
    RoundsUntouched(book, after);
  }

  lemma MovedInv(book: Book, after: Book, g: GroupId, d: DemandId)
    requires BookInv(book) && Moved(book, after, g, d)
    requires GroupInv(after.groups[g]) && GroupInv(after.groups[Formation.HomeOf(book, d)])
    ensures BookInv(after) && BookRefundsKept(book, after)
  {
    hide GroupInv, NoClash, BookRefundsKept, OnlyRow;
    MovedOnlyRow(book, after, g, d);
    MovedDemand(book, after, g, d);
    MovedRefunds(book, after, g, d);
    StillNoClash(book.demands, d, after.demands[d]);
    PatchedInv(book, after, d, g);
  }

  lemma JoinInv(s: State, user: UserId, g: GroupId, d: DemandId, env: Env)
    requires BookInv(s.book) && Formation.JoinGroup(s.book, s.genders, user, g, d, env).Ok?
    ensures var after := Formation.JoinGroup(s.book, s.genders, user, g, d, env).value;
            && BookInv(after) && BookRefundsKept(s.book, after)
  {
    hide GroupInv, Coupled, Fits, NoClash, BookRefundsKept, Moved, DemandInv, Formation.JoinGroup;
    var after := Formation.JoinGroup(s.book, s.genders, user, g, d, env).value;
    if Formation.AlreadyIn(s.book, g, d) {
      RejoinSame(s, user, g, d, env);
      RoundsUntouched(s.book, s.book);
    } else {
      JoinOutcome(s, user, g, d, env);
      MovedInv(s.book, after, g, d);
    }
  }

  lemma RejoinSame(s: State, user: UserId, g: GroupId, d: DemandId, env: Env)
    requires Formation.JoinGroup(s.book, s.genders, user, g, d, env).Ok? && Formation.AlreadyIn(s.book, g, d)
    ensures Formation.JoinGroup(s.book, s.genders, user, g, d, env).value == s.book
  {
  }

  /** A join keeps every group coupled to its rounds exactly when it takes no row out of a locked group. */
  lemma JoinCoupling(s: State, user: UserId, g: GroupId, d: DemandId, env: Env)
    requires BookInv(s.book) && AllCoupled(s.book) && Formation.JoinGroup(s.book, s.genders, user, g, d, env).Ok?
    ensures AllCoupled(Formation.JoinGroup(s.book, s.genders, user, g, d, env).value) <==>
            !LeavesLockedGroup(s, JoinGroup(user, g, d, env))
  {
    hide GroupInv, Coupled, Fits, NoClash, Formation.JoinGroup;
    var after := Formation.JoinGroup(s.book, s.genders, user, g, d, env).value;
    if Formation.AlreadyIn(s.book, g, d) {
      RejoinSame(s, user, g, d, env);
    } else {
      JoinOutcome(s, user, g, d, env);
      var h := Formation.HomeOf(s.book, d);
      assert h in after.groups && g in after.groups;
      if h != g && Locked(s.book.groups[h].state) {
        assert !Coupled(after.groups[h]);
      }
    }
  }
}
