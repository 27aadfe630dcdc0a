/** The database client: tables updated in place, one row or one set of rows at a time. */
module Store {
  import opened Wrappers
  import opened Tables
  import opened Invariants
  import opened Runs
  import Formation
  import GroupingRules
  import Payment
  import BookProofs
  import Safety

  class Database {
    var demands: map<DemandId, Demand>
    var groups: map<GroupId, Group>

    constructor ()
      ensures View() == Empty.book && Valid()
    {
      demands := map[];
      groups := map[];
    }

    ghost function View(): Book
      reads this
    {
      Formation.Book(demands, groups)
    }

    /** Between transactions every demand, membership, group, round, order and refund is consistent. */
    ghost predicate Valid()
      reads this
    {
      BookInv(View())
    }

    method UpdateMember(g: GroupId, d: DemandId, status: MemberStatus)
      requires g in groups && d in groups[g].members
      modifies this`groups
      ensures groups == old(groups)[g :=
                old(groups[g]).(members := old(groups[g].members)[d := old(groups[g].members[d]).(status := status)])]
    {
      groups := groups[g := groups[g].(members := groups[g].members[d := groups[g].members[d].(status := status)])];
    }

    method UpdateMembers(g: GroupId, from: MemberStatus, to: MemberStatus)
      requires g in groups
      modifies this`groups
      ensures groups == old(groups)[g := old(groups[g]).(members := Restatus(old(groups[g].members), from, to))]
    {
      groups := groups[g := groups[g].(members := Restatus(groups[g].members, from, to))];
    }

    method UpdateMembersOf(g: GroupId, user: UserId, from: MemberStatus, to: MemberStatus)
      requires g in groups
      modifies this`groups
      ensures groups == old(groups)[g := old(groups[g]).(members := Payment.RestatusUser(old(groups[g].members), user,
                from, to))]
    {
      groups := groups[g := groups[g].(members := Payment.RestatusUser(groups[g].members, user, from, to))];
    }

    method RemoveMembers(g: GroupId, ids: set<DemandId>)
      requires g in groups
      modifies this`groups
      ensures groups == old(groups)[g := old(groups[g]).(members :=
                          map d | d in old(groups[g].members) ::
                            if d in ids then old(groups[g].members)[d].(status := REMOVED)
                              else old(groups[g].members)[d])]
    {
      groups := groups[g := groups[g].(members :=
        map d | d in groups[g].members ::
          if d in ids then groups[g].members[d].(status := REMOVED) else groups[g].members[d])];
    }

    method UpdateGroup(g: GroupId, state: GroupState)
      requires g in groups
      modifies this`groups
      ensures groups == old(groups)[g := old(groups[g]).(state := state)]
    {
      groups := groups[g := groups[g].(state := state)];
    }

    method UpdateRound(g: GroupId, i: nat, round: Round)
      requires g in groups && i < |groups[g].rounds|
      modifies this`groups
      ensures groups == old(groups)[g := old(groups[g]).(rounds := old(groups[g].rounds)[i := round])]
    {
      groups := groups[g := groups[g].(rounds := groups[g].rounds[i := round])];
    }

    method CreateRound(g: GroupId, round: Round) returns (i: nat)
      requires g in groups
      modifies this`groups
      ensures i == |old(groups[g].rounds)|
      ensures groups == old(groups)[g := old(groups[g]).(rounds := old(groups[g].rounds) + [round])]
    {
      i := |groups[g].rounds|;
      groups := groups[g := groups[g].(rounds := groups[g].rounds + [round])];
    }

    method CreateGroup(g: GroupId, group: Group)
      requires g !in groups
      modifies this`groups
      ensures groups == old(groups)[g := group]
    {
      groups := groups[g := group];
    }

    method CreateDemand(d: DemandId, demand: Demand)
      requires d !in demands
      modifies this`demands
      ensures demands == old(demands)[d := demand]
    {
      demands := demands[d := demand];
    }

    /** A membership row is created in a group, or moved into it with a new seat count and status. */
    method PlaceMember(d: DemandId, g: GroupId, member: Member)
      requires d in demands && g in groups
      modifies this
      ensures demands == old(demands)[d := old(demands[d]).(home := Some(g))]
      ensures !Formation.HasRow(old(View()), d) || Formation.HomeOf(old(View()), d) == g ==>
                groups == old(groups)[g := old(groups[g]).(members := old(groups[g].members)[d := member])]
      ensures Formation.HasRow(old(View()), d) && Formation.HomeOf(old(View()), d) != g ==>
                var h := Formation.HomeOf(old(View()), d);
                groups == old(groups)[h := old(groups[h]).(members := old(groups[h].members) - {d})]
                                     [g := old(groups[g]).(members := old(groups[g].members)[d := member])]
    {
      if Formation.HasRow(Formation.Book(demands, groups), d) {
        var home := Formation.HomeOf(Formation.Book(demands, groups), d);
        groups := groups[home := groups[home].(members := groups[home].members - {d})];
      }
      assert (groups[g].members)[d := member] == old(groups[g].members)[d := member];
      groups := groups[g := groups[g].(members := groups[g].members[d := member])];
      demands := demands[d := demands[d].(home := Some(g))];
    }

    method UpdateDemand(d: DemandId, status: DemandStatus)
      requires d in demands
      modifies this`demands
      ensures demands == old(demands)[d := old(demands[d]).(status := status)]
    {
      demands := demands[d := demands[d].(status := status)];
    }

    method UpdateDemands(ids: set<DemandId>, status: DemandStatus)
      modifies this`demands
      ensures demands == Formation.SetDemands(old(demands), ids, status)
    {
      demands := Formation.SetDemands(demands, ids, status);
    }

    /** What the database does when a transaction's function throws. */
    method Rollback(book: Book)
      modifies this
      ensures View() == book
    {
      demands, groups := book.demands, book.groups;
    }

    /** The active rows of a group in some order, as the domain rules want them. */
    method MembersForRules(g: GroupId, genders: Formation.Genders)
      returns (ids: seq<DemandId>, rules: seq<GroupingRules.GroupingMember>)
      requires g in groups
      ensures Lists(ids, rules, Roster(groups[g].members))
      ensures forall i :: 0 <= i < |ids| ==>
                rules[i].gender == Formation.GenderOf(genders, Roster(groups[g].members)[ids[i]].user) &&
                rules[i].preference == (if ids[i] in demands then demands[ids[i]].preference else GroupingRules.ANY)
    {
      ids, rules := ListMembers(Roster(groups[g].members), demands, genders);
    }
  }

  /** Lists a roster in the order in which its rows happen to be found. */
  method ListMembers(roster: map<DemandId, Seat>, demands: map<DemandId, Demand>, genders: Formation.Genders)
    returns (ids: seq<DemandId>, rules: seq<GroupingRules.GroupingMember>)
    ensures Lists(ids, rules, roster)
    ensures forall i :: 0 <= i < |ids| ==>
              rules[i].gender == Formation.GenderOf(genders, roster[ids[i]].user) &&
              rules[i].preference == (if ids[i] in demands then demands[ids[i]].preference else GroupingRules.ANY)
  {
    ids, rules := [], [];
    var rest := roster.Keys;
    while rest != {}
      invariant |ids| == |rules|
      invariant forall i :: 0 <= i < |ids| ==> ids[i] in roster && ids[i] !in rest
      invariant forall i :: 0 <= i < |ids| ==>
                  rules[i].userId == roster[ids[i]].user && rules[i].seatCount == roster[ids[i]].seats &&
                  rules[i].gender == Formation.GenderOf(genders, roster[ids[i]].user) &&
                  rules[i].preference == (if ids[i] in demands then demands[ids[i]].preference else GroupingRules.ANY)
      invariant forall i, j :: 0 <= i < j < |ids| ==> ids[i] != ids[j]
      invariant rest <= roster.Keys
      invariant forall d :: d in roster ==> d in rest || d in ids
    {
      var d :| d in rest;
      rest := rest - {d};
      ids := ids + [d];
      rules := rules + [GroupingRules.GroupingMember(
        roster[d].user, roster[d].seats, Formation.GenderOf(genders, roster[d].user),
        if d in demands then demands[d].preference else GroupingRules.ANY)];
    }
  }

  /** The rules see the same preferences and genders whatever the order of the list. */
  lemma ListedCompatible(
    ids: seq<DemandId>, rules: seq<GroupingRules.GroupingMember>, roster: map<DemandId, Seat>,
    demands: map<DemandId, Demand>, genders: Formation.Genders)
    requires Lists(ids, rules, roster)
    requires forall i :: 0 <= i < |ids| ==>
               rules[i].gender == Formation.GenderOf(genders, roster[ids[i]].user) &&
               rules[i].preference == (if ids[i] in demands then demands[ids[i]].preference else GroupingRules.ANY)
    ensures GroupingRules.IsGenderPreferenceCompatible(rules) <==> Formation.Compatible(roster, demands, genders)
  {
    GroupingRules.CompatibleIsSymmetric(rules);
    if !Formation.Compatible(roster, demands, genders) {
      var d, e :| d in roster && e in roster && d in demands && demands[d].preference.SAME_GENDER_ONLY? &&
                  (Formation.GenderOf(genders, roster[d].user) == GroupingRules.UNDISCLOSED ||
                   Formation.GenderOf(genders, roster[e].user) != Formation.GenderOf(genders, roster[d].user));
      var i :| 0 <= i < |ids| && ids[i] == d;
      var j :| 0 <= j < |ids| && ids[j] == e;
      assert rules[i].preference == GroupingRules.SAME_GENDER_ONLY;
      assert rules[j].gender != rules[i].gender || rules[i].gender == GroupingRules.UNDISCLOSED;
    }
    if Formation.Compatible(roster, demands, genders) {
      forall i, j | 0 <= i < |rules| && 0 <= j < |rules| && rules[i].preference == GroupingRules.SAME_GENDER_ONLY
        ensures rules[i].gender != GroupingRules.UNDISCLOSED && rules[j].gender == rules[i].gender
      {
        assert ids[i] in roster && ids[j] in roster && ids[i] in demands;
      }
    }
  }

  /** A request carries out one step of the state machine: its new tables, or nothing changed and its error. */
  ghost predicate Performs(before: Book, genders: Formation.Genders, step: Step, after: Book, error: Option<Error>) {
    match Exec(Empty.(book := before, genders := genders), step)
    case Err(thrown) => error == Some(thrown) && after == before
    case Ok(next) => error.None? && after == next.book
  }

  /** The outcome of a transaction on one group: its change committed, or nothing changed and the error returned. */
  ghost predicate Commits(
    before: Book, after: Book, g: GroupId, change: Result<Formation.Change>, status: DemandStatus, error: Option<Error>)
  {
    match change
    case Err(thrown) => error == Some(thrown) && after == before
    case Ok(committed) => error.None? && after == Formation.Commit(before, g, committed, status)
  }

  lemma LocalPerforms(before: Book, genders: Formation.Genders, step: Step, after: Book, error: Option<Error>)
    requires IsLocal(step) && step.g in before.groups && BookInv(before)
    requires Commits(before, after, step.g, LocalChange(Empty.(book := before, genders := genders), step),
                     ReleasedAs(step), error)
    ensures Performs(before, genders, step, after, error)
    ensures BookInv(after)
  {
    hide GroupInv, LocalChange, BookInv, Formation.Commit;
    var s := Empty.(book := before, genders := genders);
    Safety.GroupOf(before, step.g);
    if LocalChange(s, step).Ok? {
      Safety.LocalSound(s, step);
      BookProofs.CommitInv(before, step.g, LocalChange(s, step).value, ReleasedAs(step));
    }
  }

  lemma MissingGroup(before: Book, genders: Formation.Genders, step: Step)
    requires IsLocal(step) && step.g !in before.groups
    ensures Performs(before, genders, step, before, Some(NoSuchGroup(step)))
  {
    hide LocalChange;
  }
}
