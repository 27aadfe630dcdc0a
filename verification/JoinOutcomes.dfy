/** Exactly when a join succeeds, and what it achieves. */
module JoinOutcomes {
  import opened Wrappers
  import opened Tables
  import opened Runs
  import opened Invariants
  import opened Outcomes
  import opened FormationOutcomes
  import BookProofs
  import Formation
  import GroupingRules
  import Memberships
  import Safety

  /** These two members of a group may share it, as far as the first one's preference goes. */
  predicate Suits(s: State, d: DemandId, user: UserId, other: UserId) {
    d in s.book.demands && s.book.demands[d].preference.SAME_GENDER_ONLY? ==>
      && user in s.genders && s.genders[user] != GroupingRules.UNDISCLOSED
      && other in s.genders && s.genders[other] == s.genders[user]
  }

  /** Any two rows of this list suit each other. */
  ghost predicate AllSuit(s: State, rows: map<DemandId, Seat>) {
    forall d, e :: d in rows && e in rows ==> Suits(s, d, rows[d].user, rows[e].user)
  }

  lemma AllSuitIs(s: State, rows: map<DemandId, Seat>)
    ensures AllSuit(s, rows) <==> Formation.Compatible(rows, s.book.demands, s.genders)
  {
    if AllSuit(s, rows) {
      forall d, e | d in rows && e in rows && d in s.book.demands && s.book.demands[d].preference.SAME_GENDER_ONLY?
        ensures Formation.GenderOf(s.genders, rows[d].user) != GroupingRules.UNDISCLOSED
        ensures Formation.GenderOf(s.genders, rows[e].user) == Formation.GenderOf(s.genders, rows[d].user)
      {
        assert Suits(s, d, rows[d].user, rows[e].user);
      }
    }
  }

  /** The user's own demand, for this group's route and window, may still be grouped; the group admits it. */
  predicate Applies(s: State, user: UserId, g: GroupId, d: DemandId, env: Env) {
    && user in env.eligible && g in s.book.groups
    && var group := s.book.groups[g];
       && Recruitable(group.state) && env.now < group.window.end && AllIn(group, env.eligible)
       && d in s.book.demands && s.book.demands[d].user == user
       && (s.book.demands[d].status.OPEN? || s.book.demands[d].status.GROUPED?)
       && s.book.demands[d].route == group.route && s.book.demands[d].window == group.window
  }

  predicate GroupedIn(s: State, g: GroupId, d: DemandId) {
    d in s.book.demands && s.book.demands[d].status.GROUPED? && s.book.demands[d].home == Some(g)
  }

  /** The demand is open, or its user is alone in its group; and there is room in the target for the two to suit. */
  ghost predicate FitsIn(s: State, user: UserId, g: GroupId, d: DemandId)
    requires g in s.book.groups && d in s.book.demands
  {
    var group := s.book.groups[g];
    var seats := s.book.demands[d].seats;
    && (s.book.demands[d].status.OPEN? ||
        exists h :: s.book.demands[d].home == Some(h) && h in s.book.groups && s.book.groups[h].state.RECRUITING?)
    && SeatSum(Roster(group.members)) + seats <= 4
    && AllSuit(s, Roster(group.members)[d := Seat(user, seats)])
    && forall e :: e in group.members && e != d ==> group.members[e].user != user
  }

  /** The user's row is in the group, and where it was before it is no more. */
  predicate Enters(s: State, t: State, user: UserId, g: GroupId, d: DemandId)
    requires g in s.book.groups && d in s.book.demands && s.book.demands[d].home.Some?
  {
    var h := s.book.demands[d].home.value;
    && t == s.(book := t.book) && g in t.book.groups && h in s.book.groups && h in t.book.groups
    && t.book.demands == s.book.demands[d := s.book.demands[d].(status := GROUPED, home := Some(g))]
    && t.book.groups[g] == s.book.groups[g].(
         state := GroupState.READY,
         members := s.book.groups[g].members[d := Member(user, s.book.demands[d].seats, JOINED)])
    && (h == g ==> t.book.groups == s.book.groups[g := t.book.groups[g]])
    && (h != g ==>
          && t.book.groups == s.book.groups[h := t.book.groups[h]][g := t.book.groups[g]]
          && t.book.groups[h] == s.book.groups[h].(state := t.book.groups[h].state,
                                                   members := s.book.groups[h].members - {d})
          && Tallied(t.book.groups[h]))
  }

  // ----- overlapping memberships -------------------------------------------------------------

  /** In consistent tables no other active membership of the user overlaps the demand it joins with. */
  lemma OnlyItself(s: State, user: UserId, g: GroupId, d: DemandId, env: Env)
    requires BookInv(s.book) && Applies(s, user, g, d, env)
    ensures var rows := Formation.OverlappingRows(s.book, user, s.book.groups[g].window);
            rows == if s.book.demands[d].status.GROUPED? then {d} else {}
  {
    hide GroupInv;
    var window := s.book.groups[g].window;
    var rows := Formation.OverlappingRows(s.book, user, window);
    assert DemandInv(s.book, d);
    forall e | e in rows ensures e == d {
      assert DemandInv(s.book, e);
      assert s.book.demands[e].user == user && Overlap(s.book.demands[e].window, s.book.demands[d].window);
    }
  }

  /** Nor is the user in the target already under another demand. */
  lemma NotYetIn(s: State, user: UserId, g: GroupId, d: DemandId, env: Env)
    requires BookInv(s.book) && Applies(s, user, g, d, env)
    ensures forall e :: e in s.book.groups[g].members && e != d && s.book.groups[g].members[e].user == user ==>
              !Active(s.book.groups[g].members[e].status)
    ensures d in Roster(s.book.groups[g].members) <==> GroupedIn(s, g, d)
  {
    hide GroupInv;
    assert DemandInv(s.book, d);
    OnlyItself(s, user, g, d, env);
    var rows := Formation.OverlappingRows(s.book, user, s.book.groups[g].window);
    forall e | e in s.book.groups[g].members && e != d && s.book.groups[g].members[e].user == user
      ensures !Active(s.book.groups[g].members[e].status)
    {
      assert DemandInv(s.book, e);
      assert e !in rows;
    }
  }

  lemma Alone(s: State, h: GroupId)
    requires BookInv(s.book) && h in s.book.groups
    ensures s.book.groups[h].state.RECRUITING? ==> |Roster(s.book.groups[h].members)| == 1
  {
    hide RoundsInv, Fits, LockStep, DemandInv, NoClash;
  }

  /** There is room for one more row exactly if the seats suffice and the user is not there yet. */
  lemma Room(roster: map<DemandId, Seat>, d: DemandId, user: UserId, seats: int)
    requires Fits(roster) && d !in roster && 1 <= seats <= 3
    ensures Fits(roster[d := Seat(user, seats)]) <==>
            SeatSum(roster) + seats <= 4 && forall e :: e in roster ==> roster[e].user != user
    ensures |roster[d := Seat(user, seats)]| == |roster| + 1
  {
    var more := roster[d := Seat(user, seats)];
    SeatSumWithout(more, d);
    assert more - {d} == roster;
    assert more.Keys == roster.Keys + {d};
    if Fits(more) {
      forall e | e in roster ensures roster[e].user != user {
        assert more[e].user != more[d].user;
      }
    }
  }

  // ----- the join ----------------------------------------------------------------------------

  lemma JoinSucceeds(s: State, user: UserId, g: GroupId, d: DemandId, env: Env)
    requires BookInv(s.book) && Applies(s, user, g, d, env) && !GroupedIn(s, g, d)
    ensures Formation.JoinGroup(s.book, s.genders, user, g, d, env).Ok? <==> FitsIn(s, user, g, d)
  {
    hide BookInv, Fits, Formation.OverlappingRows, Formation.Vacate, Formation.Compatible, AllSuit,
      Formation.JoinChecks;
    var group := s.book.groups[g];
    var seats := s.book.demands[d].seats;
    Checked(s, user, g, d, env);
    RowThere(s, d);
    Memberships.VacateNeverThrows(s.book, d, g);
    OnlyItself(s, user, g, d, env);
    NotYetIn(s, user, g, d, env);
    Safety.GroupOf(s.book, g);
    assert Fits(Roster(group.members)) by { BookProofs.InvFits(group); }
    Room(Roster(group.members), d, user, seats);
    AllSuitIs(s, Roster(group.members)[d := Seat(user, seats)]);
    Alone(s, s.book.demands[d].home.value);
    if s.book.groups[s.book.demands[d].home.value].state.RECRUITING? {
      assert exists h :: s.book.demands[d].home == Some(h) && h in s.book.groups && s.book.groups[h].state.RECRUITING?;
    }
  }

  lemma RowThere(s: State, d: DemandId)
    requires BookInv(s.book) && d in s.book.demands
    ensures Formation.HasRow(s.book, d) && 1 <= s.book.demands[d].seats <= 3
    ensures s.book.demands[d].status.GROUPED? <==> Active(Formation.RowFor(s.book, d).status)
  {
    hide GroupInv, NoClash;
    assert DemandInv(s.book, d);
  }

  lemma Checked(s: State, user: UserId, g: GroupId, d: DemandId, env: Env)
    ensures Formation.JoinChecks(s.book, s.genders, user, g, d, env).None? <==> Applies(s, user, g, d, env)
  {
    if g in s.book.groups {
      AllInIs(s.book.groups[g], env.eligible);
    }
  }

  lemma JoinAchieves(s: State, user: UserId, g: GroupId, d: DemandId, env: Env)
    requires BookInv(s.book) && Applies(s, user, g, d, env) && !GroupedIn(s, g, d)
    requires Formation.JoinGroup(s.book, s.genders, user, g, d, env).Ok?
    ensures s.book.demands[d].home.Some?
    ensures var after := Formation.JoinGroup(s.book, s.genders, user, g, d, env).value;
            Enters(s, s.(book := after), user, g, d)
  {
    hide BookInv, Fits, Tallied, Formation.JoinGroup;
    RowThere(s, d);
    BookProofs.JoinMoves(s, user, g, d, env);
    var after := Formation.JoinGroup(s.book, s.genders, user, g, d, env).value;
    var h := s.book.demands[d].home.value;
    Busier(s, user, g, d, env);
    if h != g {
      TalliedIs(after.groups[h]);
    }
  }

  /** The joined group has at least two members. */
  lemma Busier(s: State, user: UserId, g: GroupId, d: DemandId, env: Env)
    requires BookInv(s.book) && Applies(s, user, g, d, env) && !GroupedIn(s, g, d)
    ensures |Roster(s.book.groups[g].members)[d := Seat(user, s.book.demands[d].seats)]| >= 2
  {
    hide RoundsInv, Fits, LockStep, DemandInv, NoClash;
    NotYetIn(s, user, g, d, env);
    var roster := Roster(s.book.groups[g].members);
    var more := roster[d := Seat(user, s.book.demands[d].seats)];
    Safety.GroupOf(s.book, g);
    assert |roster| >= 1;
    assert more.Keys == roster.Keys + {d} && |more| == |more.Keys| && |roster| == |roster.Keys|;
  }

  /**
   * A join succeeds exactly for the user's own demand for this trip, while the group recruits and all are eligible, if
   * it is there already or else if it is open or alone in a recruiting group, there are seats for it, everybody suits
   * and no other row of the user is left in the group. Then the row is there, READY to start, and no longer where it
   * was.
   */
  lemma JoinOutcome(s: State, user: UserId, g: GroupId, d: DemandId, env: Env)
    requires Inv(s)
    ensures var step := JoinGroup(user, g, d, env);
            var t := Next(s, step);
            && (Exec(s, step).Ok? <==> Applies(s, user, g, d, env) && (GroupedIn(s, g, d) || FitsIn(s, user, g, d)))
            && (Exec(s, step).Err? || GroupedIn(s, g, d) ==> t == s)
            && (Exec(s, step).Ok? && !GroupedIn(s, g, d) ==>
                  s.book.demands[d].home.Some? && Enters(s, t, user, g, d))
  {
    hide Inv, BookInv, Applies, FitsIn, Enters, LocalChange, WorkerStep, Formation.JoinGroup;
    var step := JoinGroup(user, g, d, env);
    InvBook(s);
    if Applies(s, user, g, d, env) {
      if GroupedIn(s, g, d) {
        JoinedAlready(s, user, g, d, env);
      } else {
        JoinSucceeds(s, user, g, d, env);
        if Exec(s, step).Ok? {
          JoinAchieves(s, user, g, d, env);
        }
      }
    } else {
      Unchecked(s, user, g, d, env);
    }
  }

  lemma JoinedAlready(s: State, user: UserId, g: GroupId, d: DemandId, env: Env)
    requires BookInv(s.book) && Applies(s, user, g, d, env) && GroupedIn(s, g, d)
    ensures Formation.JoinGroup(s.book, s.genders, user, g, d, env) == Ok(s.book)
  {
    hide BookInv, Formation.JoinChecks;
    Checked(s, user, g, d, env);
    RowThere(s, d);
  }

  lemma Unchecked(s: State, user: UserId, g: GroupId, d: DemandId, env: Env)
    requires !Applies(s, user, g, d, env)
    ensures Formation.JoinGroup(s.book, s.genders, user, g, d, env).Err?
  {
    hide Formation.JoinChecks;
    Checked(s, user, g, d, env);
  }
}
