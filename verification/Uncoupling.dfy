/** A run of nine requests after which a group and its round have drifted apart. */
module Uncoupling {
  import opened Wrappers
  import opened Tables
  import opened Invariants
  import opened Runs
  import Formation
  import GroupingRules
  import BookProofs
  import Safety
  import Stranding

  const TRIP := Window(3600000, 7200000)
  const NOW := Env(0, 0, {1, 2, 3, 4}, {}, {})

  function Wish(user: UserId, status: DemandStatus, home: GroupId): Demand {
    Demand(user, 0, TRIP, 1, GroupingRules.ANY, status, Some(home))
  }

  function Trip(state: GroupState, members: map<DemandId, Member>, rounds: seq<Round>): Group {
    Group(0, TRIP, state, members, rounds)
  }

  function Row(user: UserId, status: MemberStatus): Member {
    Member(user, 1, status)
  }

  function Alone(user: UserId): Group {
    Trip(GroupState.RECRUITING, map[user as DemandId := Row(user, JOINED)], [])
  }

  const VACATED := Trip(GroupState.EXPIRED, map[], [])

  function At(demands: map<DemandId, Demand>, groups: map<GroupId, Group>): State {
    Empty.(book := Formation.Book(demands, groups))
  }

  const CHOSEN: map<DemandId, Seat> := map[1 := Seat(1, 1), 3 := Seat(3, 1)]
  const OPENED := Round(CHOSEN, 7, RoundState.CONFIRMING, 300000, None, map[], map[], map[], {})

  const PAIR: map<DemandId, Member> := map[1 := Row(1, JOINED), 2 := Row(2, JOINED)]
  const PARTED: map<DemandId, Member> := map[1 := Row(1, JOINED), 2 := Row(2, LEFT)]
  const TRIO: map<DemandId, Member> := map[1 := Row(1, JOINED), 2 := Row(2, LEFT), 3 := Row(3, JOINED)]
  const REST: map<DemandId, Member> := map[1 := Row(1, JOINED), 3 := Row(3, JOINED)]

  const S1 := At(map[1 := Wish(1, GROUPED, 1)], map[1 := Alone(1)])
  const S2 := At(map[1 := Wish(1, GROUPED, 1), 2 := Wish(2, GROUPED, 2)], map[1 := Alone(1), 2 := Alone(2)])
  const S3 := At(map[1 := Wish(1, GROUPED, 1), 2 := Wish(2, GROUPED, 1)],
                 map[1 := Trip(GroupState.READY, PAIR, []), 2 := VACATED])
  const S4 := At(map[1 := Wish(1, GROUPED, 1), 2 := Wish(2, OPEN, 1)],
                 map[1 := Trip(GroupState.RECRUITING, PARTED, []), 2 := VACATED])
  const S5 := At(map[1 := Wish(1, GROUPED, 1), 2 := Wish(2, OPEN, 1), 3 := Wish(3, GROUPED, 3)],
                 map[1 := Trip(GroupState.RECRUITING, PARTED, []), 2 := VACATED, 3 := Alone(3)])
  const S6 := At(map[1 := Wish(1, GROUPED, 1), 2 := Wish(2, OPEN, 1), 3 := Wish(3, GROUPED, 1)],
                 map[1 := Trip(GroupState.READY, TRIO, []), 2 := VACATED, 3 := VACATED])
  const S7 := At(map[1 := Wish(1, GROUPED, 1), 2 := Wish(2, OPEN, 1), 3 := Wish(3, GROUPED, 1)],
                 map[1 := Trip(GroupState.CONFIRMING, TRIO, [OPENED]), 2 := VACATED, 3 := VACATED])
  const S8 := At(map[1 := Wish(1, GROUPED, 1), 2 := Wish(2, OPEN, 1), 3 := Wish(3, GROUPED, 1),
                     4 := Wish(4, GROUPED, 4)],
                 map[1 := Trip(GroupState.CONFIRMING, TRIO, [OPENED]), 2 := VACATED, 3 := VACATED, 4 := Alone(4)])

  function CreatesAt(user: UserId, env: Env): Step {
    CreateDemand(Demand(user, 0, TRIP, 1, GroupingRules.ANY, OPEN, None), user, user, true, env)
  }

  function Creates(user: UserId): Step {
    CreatesAt(user, NOW)
  }

  const STEPS: seq<Step> := [
    Creates(1), Creates(2), JoinGroup(2, 1, 2, NOW), LeaveGroup(2, 1), Creates(3), JoinGroup(3, 1, 3, NOW),
    StartFormation(1, 1, Some(7), NOW), Creates(4), JoinGroup(2, 4, 2, NOW)
  ]

  lemma TwoFit(roster: map<DemandId, Seat>, d: DemandId, e: DemandId)
    requires d != e && roster.Keys == {d, e} && roster[d].seats == roster[e].seats == 1 &&
             roster[d].user != roster[e].user
    ensures Fits(roster) && |roster| == 2
  {
    SeatSumWithout(roster, d);
    SeatSumWithout(roster - {d}, e);
    assert roster - {d} - {e} == map[];
    assert |roster| == |roster.Keys|;
  }

  lemma Create(s: State, user: UserId, env: Env)
    requires user in env.eligible && env.now < TRIP.start && user !in s.book.demands && user !in s.book.groups
    requires forall e :: e in s.book.demands ==> s.book.demands[e].user != user
    ensures Next(s, CreatesAt(user, env)) ==
            s.(book := Formation.Book(s.book.demands[user as DemandId := Wish(user, GROUPED, user)],
                                      s.book.groups[user as GroupId := Alone(user)]))
  {
  }

  /** Only this user's own demand and row carry the user, and nobody prefers a gender. */
  predicate Sole(book: Book, user: UserId) {
    && (user as DemandId) in book.demands
    && (forall e :: e in book.demands ==> book.demands[e].preference.ANY?)
    && (forall g, e :: g in book.groups && e in book.groups[g].members && e != user ==>
        book.groups[g].members[e].user != user)
  }

  /** A sole member about to move into group 1, which has one active member. */
  predicate Ready(book: Book, user: UserId, before: map<DemandId, Member>) {
    && user in {2, 3} && Sole(book, user) && (user as GroupId) in book.groups && 1 in book.groups
    && book.demands[user] == Wish(user, GROUPED, user) && book.groups[user] == Alone(user)
    && book.groups[1] == Trip(GroupState.RECRUITING, before, [])
    && (user as DemandId) !in before && Roster(before) == map[1 := Seat(1, 1)]
  }

  lemma EmptyFits()
    ensures Roster(map[]) == map[] && Fits(map[]) && |Roster(map[])| == 0
  {
    assert Roster(map[]) == map[];
  }

  lemma AloneRoster(user: UserId)
    ensures Roster(Alone(user).members) == map[user as DemandId := Seat(user, 1)]
    ensures |Roster(Alone(user).members)| == 1
  {
    assert Roster(Alone(user).members).Keys == {user as DemandId};
  }

  lemma OwnRow(book: Book, user: UserId, before: map<DemandId, Member>)
    requires Ready(book, user, before)
    ensures Formation.Transferable(book, user, user, TRIP)
  {
    AloneRoster(user);
    assert Formation.OverlappingRows(book, user, TRIP) == {user as DemandId};
  }

  lemma Left(book: Book, user: UserId, before: map<DemandId, Member>)
    requires Ready(book, user, before)
    ensures Formation.Vacate(book, user, 1) == Ok(book.groups[user as GroupId := VACATED])
  {
    var d: DemandId := user;
    assert Alone(user).members - {d} == map[];
    EmptyFits();
  }

  lemma Transfer(book: Book, user: UserId, before: map<DemandId, Member>)
    requires Ready(book, user, before)
    ensures Formation.JoinGroup(book, map[], user, 1, user, NOW) ==
            Ok(Formation.Book(
              book.demands[user as DemandId := Wish(user, GROUPED, 1)],
              book.groups[user as GroupId := VACATED][1 := Trip(GroupState.READY,
                                                                before[user as DemandId := Row(user, JOINED)], [])]))
  {
    hide Fits, Formation.Vacate, Formation.Transferable;
    var d: DemandId := user;
    var prospective := Roster(before)[d := Seat(user, 1)];
    TwoFit(prospective, 1, d);
    OwnRow(book, user, before);
    Left(book, user, before);
    assert Users(Roster(before)) == {1} by {
      assert Roster(before)[1].user == 1;
    }
    assert Formation.JoinChecks(book, map[], user, 1, d, NOW).None?;
    assert forall e :: e in prospective && e in book.demands ==> book.demands[e].preference.ANY?;
  }

  /** Group 1 is confirming, yet taking an ended row away tallies it anew. */
  lemma Recounted(book: Book)
    requires 2 in book.demands && book.demands[2].home == Some(1)
    requires 1 in book.groups && book.groups[1] == Trip(GroupState.CONFIRMING, TRIO, [OPENED])
    ensures Formation.Vacate(book, 2, 4) == Ok(book.groups[1 := Trip(GroupState.READY, REST, [OPENED])])
  {
    hide Fits, Roster;
    RestRoster();
    assert book.groups[1].members - {2} == REST;
  }

  lemma RestRoster()
    ensures TRIO - {2} == REST && Roster(REST) == CHOSEN && Fits(CHOSEN) && |CHOSEN| == 2
  {
    hide Fits;
    assert TRIO - {2} == REST;
    assert Roster(REST) == CHOSEN;
    TwoFit(CHOSEN, 1, 3);
  }

  /** User 2 takes the row left in group 1, whatever has become of that group, into group 4. */
  lemma Departure(book: Book, home: Group, env: Env)
    requires 2 in book.demands && book.demands[2] == Wish(2, OPEN, 1)
    requires Formation.Vacate(book, 2, 4) == Ok(book.groups[1 := home])
    requires 4 in book.groups && book.groups[4] == Alone(4)
    requires forall e :: e in book.demands ==> book.demands[e].preference.ANY?
    requires Formation.OverlappingRows(book, 2, TRIP) == {}
    requires {2, 4} <= env.eligible && env.now < TRIP.end
    ensures Formation.JoinGroup(book, map[], 2, 4, 2, env) ==
            Ok(Formation.Book(
              book.demands[2 := Wish(2, GROUPED, 4)],
              book.groups[1 := home][4 := Trip(GroupState.READY, Alone(4).members[2 := Row(2, JOINED)], [])]))
  {
    hide Fits, Formation.Vacate, Formation.Transferable, Formation.OverlappingRows;
    var prospective := Roster(Alone(4).members)[2 := Seat(2, 1)];
    AloneRoster(4);
    TwoFit(prospective, 2, 4);
    assert Users(Roster(Alone(4).members)) == {4} by {
      assert Roster(Alone(4).members)[4].user == 4;
    }
    assert Formation.JoinChecks(book, map[], 2, 4, 2, env).None?;
    assert forall e :: e in prospective && e in book.demands ==> book.demands[e].preference.ANY?;
  }

  lemma Leaves()
    ensures Formation.LeaveGroup(Trip(GroupState.READY, PAIR, []), 2) ==
            Ok(Formation.Change(Trip(GroupState.RECRUITING, PARTED, []), {2}))
  {
    hide Fits;
    var roster := Roster(PAIR);
    assert roster == map[1 := Seat(1, 1), 2 := Seat(2, 1)];
    TwoFit(roster, 1, 2);
    assert roster[2].user == 2;
    assert PAIR[2 := PAIR[2].(status := LEFT)] == PARTED;
    PartedRoster();
  }

  lemma PartedRoster()
    ensures Roster(PARTED) == map[1 := Seat(1, 1)] && Fits(Roster(PARTED)) && |Roster(PARTED)| == 1
  {
    hide Fits;
    assert Roster(PARTED) == map[1 := Seat(1, 1)];
    BookProofs.SingleFits(Roster(PARTED), 1);
  }

  lemma Starts(group: Group, user: UserId)
    requires group.state.READY? && group.rounds == [] && group.window == TRIP
    requires Fits(Roster(group.members)) && |Roster(group.members)| == 2
    requires user in Users(Roster(group.members)) && Users(Roster(group.members)) <= NOW.eligible
    ensures Formation.StartFormation(group, user, Some(7), true, NOW) ==
            Ok(Formation.Change(
              group.(state := GroupState.CONFIRMING,
                     rounds := [Round(Roster(group.members), 7, RoundState.CONFIRMING, 300000, None, map[], map[],
                                      map[],
                                      {})]), {}))
  {
    hide Fits, Roster, Users;
    var round := Round(Roster(group.members), 7, RoundState.CONFIRMING, 300000, None, map[], map[], map[], {});
    assert group.rounds + [round] == [round];
  }

  lemma Chosen()
    ensures Roster(TRIO) == CHOSEN && Fits(CHOSEN) && |CHOSEN| == 2
    ensures 1 in Users(CHOSEN) && Users(CHOSEN) <= NOW.eligible
  {
    hide Fits;
    assert Roster(TRIO) == CHOSEN;
    TwoFit(CHOSEN, 1, 3);
    assert CHOSEN[1].user == 1;
  }

  lemma Opens()
    ensures Formation.StartFormation(Trip(GroupState.READY, TRIO, []), 1, Some(7), true, NOW) ==
            Ok(Formation.Change(Trip(GroupState.CONFIRMING, TRIO, [OPENED]), {}))
  {
    hide Fits, Formation.StartFormation, Roster, Users;
    Chosen();
    Starts(Trip(GroupState.READY, TRIO, []), 1);
  }

  // ----- the run -----------------------------------------------------------------------------

  /** One more step of a run from the empty tables; a step that changes something succeeded. */
  lemma RunNext(steps: seq<Step>, k: nat, s: State, t: State)
    requires k < |steps| && Run(Empty, steps[..k]) == s && Next(s, steps[k]) == t && s != t
    ensures Run(Empty, steps[..k + 1]) == t && Exec(Run(Empty, steps[..k]), steps[k]).Ok?
  {
    hide Exec;
    assert steps[..k + 1][..k] == steps[..k];
  }

  lemma Step1()
    ensures Next(Empty, Creates(1)) == S1
  {
    Create(Empty, 1, NOW);
  }

  lemma Step2()
    ensures Next(S1, Creates(2)) == S2
  {
    Create(S1, 2, NOW);
  }

  lemma Joined(s: State, user: UserId, g: GroupId, book: Book, env: Env)
    requires s.genders == map[] && Formation.JoinGroup(s.book, map[], user, g, user, env) == Ok(book)
    ensures Next(s, JoinGroup(user, g, user, env)) == s.(book := book)
  {
    hide Formation.JoinGroup;
  }

  lemma Step3()
    ensures Next(S2, JoinGroup(2, 1, 2, NOW)) == S3
  {
    hide Next, Formation.JoinGroup;
    assert Roster(Alone(1).members) == map[1 := Seat(1, 1)] by { AloneRoster(1); }
    Transfer(S2.book, 2, Alone(1).members);
    assert Alone(1).members[2 := Row(2, JOINED)] == PAIR;
    assert S2.book.groups[2 := VACATED][1 := Trip(GroupState.READY, PAIR, [])] == S3.book.groups;
    assert S2.book.demands[2 := Wish(2, GROUPED, 1)] == S3.book.demands;
    Joined(S2, 2, 1, S3.book, NOW);
  }

  lemma Committed(s: State, step: Step, change: Formation.Change)
    requires IsLocal(step) && step.g in s.book.groups && LocalChange(s, step) == Ok(change) && !step.GroupExpiry?
    ensures Next(s, step) == s.(book := Formation.Commit(s.book, step.g, change, OPEN))
  {
    hide LocalChange, Formation.Commit;
  }

  lemma Step4()
    ensures Next(S3, LeaveGroup(2, 1)) == S4
  {
    hide Next, Formation.LeaveGroup;
    Leaves();
    Committed(S3, LeaveGroup(2, 1), Formation.Change(Trip(GroupState.RECRUITING, PARTED, []), {2}));
    assert Formation.SetDemands(S3.book.demands, {2}, OPEN) == S4.book.demands;
  }

  lemma Step5()
    ensures Next(S4, Creates(3)) == S5
  {
    Create(S4, 3, NOW);
  }

  lemma Step6()
    ensures Next(S5, JoinGroup(3, 1, 3, NOW)) == S6
  {
    hide Next, Formation.JoinGroup, Fits;
    PartedRoster();
    assert PARTED[3 := Row(3, JOINED)] == TRIO;
    Transfer(S5.book, 3, PARTED);
    assert S5.book.groups[3 := VACATED][1 := Trip(GroupState.READY, TRIO, [])] == S6.book.groups;
    assert S5.book.demands[3 := Wish(3, GROUPED, 1)] == S6.book.demands;
    Joined(S5, 3, 1, S6.book, NOW);
  }

  lemma Step7()
    ensures Next(S6, StartFormation(1, 1, Some(7), NOW)) == S7
  {
    hide Next, Formation.StartFormation;
    Opens();
    assert Formation.Compatible(Roster(TRIO), S6.book.demands, map[]);
    Committed(S6, StartFormation(1, 1, Some(7), NOW),
              Formation.Change(Trip(GroupState.CONFIRMING, TRIO, [OPENED]), {}));
    assert Formation.SetDemands(S6.book.demands, {}, OPEN) == S6.book.demands;
  }

  lemma Step8()
    ensures Next(S7, Creates(4)) == S8
  {
    Create(S7, 4, NOW);
  }

  const S9 := S8.(book := Formation.Book(
    S8.book.demands[2 := Wish(2, GROUPED, 4)],
    S8.book.groups[1 := Trip(GroupState.READY, REST, [OPENED])]
      [4 := Trip(GroupState.READY, Alone(4).members[2 := Row(2, JOINED)], [])]))

  lemma Step9()
    ensures Next(S8, JoinGroup(2, 4, 2, NOW)) == S9
  {
    hide Next, Formation.JoinGroup;
    assert Formation.OverlappingRows(S8.book, 2, TRIP) == {};
    Recounted(S8.book);
    Departure(S8.book, Trip(GroupState.READY, REST, [OPENED]), NOW);
    Joined(S8, 2, 4, S9.book, NOW);
  }

  ghost predicate Successful(steps: seq<Step>) {
    forall k :: 0 <= k < |steps| ==> Exec(Run(Empty, steps[..k]), steps[k]).Ok?
  }

  /** The states the run passes through. */
  function Passed(k: nat): State {
    match k
    case 0 => Empty
    case 1 => S1
    case 2 => S2
    case 3 => S3
    case 4 => S4
    case 5 => S5
    case 6 => S6
    case 7 => S7
    case 8 => S8
    case _ => S9
  }

  lemma EachStep(k: nat)
    requires k < 9
    ensures Next(Passed(k), STEPS[k]) == Passed(k + 1)
  {
    hide Next;
    match k
    case 0 => Step1();
    case 1 => Step2();
    case 2 => Step3();
    case 3 => Step4();
    case 4 => Step5();
    case 5 => Step6();
    case 6 => Step7();
    case 7 => Step8();
    case _ => Step9();
  }

  /**
   * A run from the empty tables that passes through given states, each step changing something, succeeds throughout.
   */
  lemma {:induction false} Traced(steps: seq<Step>, states: seq<State>, k: nat)
    requires |states| == |steps| + 1 && states[0] == Empty && k <= |steps|
    requires forall j :: 0 <= j < |steps| ==> Next(states[j], steps[j]) == states[j + 1] && states[j] != states[j + 1]
    ensures Run(Empty, steps[..k]) == states[k]
    ensures forall j :: 0 <= j < k ==> Exec(Run(Empty, steps[..j]), steps[j]).Ok?
  {
    hide Next, Exec;
    if k == 0 {
      assert steps[..0] == [];
    } else {
      hide Run;
      Traced(steps, states, k - 1);
      RunNext(steps, k - 1, states[k - 1], states[k]);
    }
  }

  lemma SuccessfulRun()
    ensures Run(Empty, STEPS) == S9 && Successful(STEPS)
  {
    hide Next, Exec, Run;
    var states := seq(10, k requires 0 <= k < 10 => Passed(k));
    forall j | 0 <= j < 9 ensures Next(states[j], STEPS[j]) == states[j + 1] && states[j] != states[j + 1] {
      EachStep(j);
      Different(j);
    }
    Traced(STEPS, states, 9);
    assert STEPS[..9] == STEPS;
  }

  lemma Different(k: nat)
    requires k < 9
    ensures Passed(k) != Passed(k + 1)
  {
    assert 1 in S1.book.groups && 2 in S2.book.groups && 3 in S5.book.groups && 4 in S8.book.groups;
    assert S3.book.groups[2].state.EXPIRED? && S2.book.groups[2].state.RECRUITING?;
    assert S4.book.groups[1].state.RECRUITING? && S3.book.groups[1].state.READY?;
    assert S6.book.groups[1].state.READY? && S5.book.groups[1].state.RECRUITING?;
    assert S7.book.groups[1].state.CONFIRMING? && S6.book.groups[1].state.READY?;
    assert S9.book.groups[1].state.READY? && S8.book.groups[1].state.CONFIRMING?;
  }

  /**
   * Every request of this run succeeds, and afterwards group 1 is READY although its round is still CONFIRMING. The
   * round can neither be confirmed nor time out, no new round can be opened, and no further run changes any of that.
   */
  lemma JoinCanUncouple()
    ensures Successful(STEPS) && Run(Empty, STEPS) == S9
    ensures !AllCoupled(S9.book)
    ensures S9.book.groups[1].state.READY? && S9.book.groups[1].rounds[0].state.CONFIRMING?
    ensures forall user, choice, env :: Formation.ConfirmFormation(S9.book.groups[1], 0, user, choice, env).Err?
    ensures forall now :: !Formation.ConfirmationDue(S9.book.groups[1], 0, now)
    ensures forall user, policy, compatible, env ::
            Formation.StartFormation(S9.book.groups[1], user, policy, compatible, env).Err?
    ensures forall steps :: 1 in Run(S9, steps).book.groups && ForeverConfirming(Run(S9, steps).book.groups[1])
  {
    hide Run, Inv;
    SuccessfulRun();
    Uncoupled(S9.book.groups[1]);
    Safety.RunInv(map[], STEPS);
    forall steps ensures 1 in Run(S9, steps).book.groups && ForeverConfirming(Run(S9, steps).book.groups[1]) {
      Stranding.AdriftForever(S9, steps, 1, 0);
    }
  }

  /** One round, still CONFIRMING, of a group that is not locked. */
  predicate ForeverConfirming(group: Group) {
    |group.rounds| == 1 && group.rounds[0].state.CONFIRMING? && !Locked(group.state)
  }

  lemma Uncoupled(group: Group)
    requires group.state.READY? && |group.rounds| == 1 && group.rounds[0].state.CONFIRMING?
    ensures !Coupled(group)
    ensures forall user, choice, env :: Formation.ConfirmFormation(group, 0, user, choice, env).Err?
    ensures forall now :: !Formation.ConfirmationDue(group, 0, now)
    ensures forall user, policy, compatible, env :: Formation.StartFormation(group, user, policy, compatible, env).Err?
  {
    assert HasOpenRound(group);
  }
}
