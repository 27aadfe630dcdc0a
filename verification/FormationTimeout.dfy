/** apps/worker/src/formation-timeout.ts: confirmation and expiry deadlines, and the sweep that drains them. */
module FormationTimeout {
  import opened Wrappers
  import opened Tables
  import opened Runs
  import opened Store
  import opened Invariants
  import Formation
  import FormationProofs
  import GroupingRules
  import BookProofs
  import Safety

  const SWEEP_LIMIT: nat := 50

  datatype RoundId = RoundId(group: GroupId, index: nat)

  // ----- what is due -------------------------------------------------------------------------

  predicate RoundDue(book: Book, id: RoundId, now: int) {
    && id.group in book.groups && id.index < |book.groups[id.group].rounds|
    && book.groups[id.group].rounds[id.index].state.CONFIRMING?
    && book.groups[id.group].rounds[id.index].confirmBy <= now
  }

  predicate GroupDue(book: Book, g: GroupId, now: int) {
    g in book.groups && Formation.ExpiryDue(book.groups[g], now)
  }

  function DueRounds(book: Book, now: int): set<RoundId> {
    set g, i | g in book.groups && 0 <= i < |book.groups[g].rounds| && RoundDue(book, RoundId(g, i), now) ::
      RoundId(g, i)
  }

  function DueGroups(book: Book, now: int): set<GroupId> {
    set g | g in book.groups && GroupDue(book, g, now)
  }

  /** A round may still have to be invalidated and its group then expired, so it counts twice. */
  function Backlog(book: Book, now: int): nat {
    2 * |DueRounds(book, now)| + |DueGroups(book, now)|
  }

  lemma DueRoundsAre(book: Book, now: int)
    ensures forall id :: id in DueRounds(book, now) <==> RoundDue(book, id, now)
  {
    forall id ensures id in DueRounds(book, now) <==> RoundDue(book, id, now) {
      if RoundDue(book, id, now) {
        assert RoundId(id.group, id.index) in DueRounds(book, now);
      }
    }
  }

  function InvalidatedRounds(book: Book): set<RoundId> {
    set g, i | g in book.groups && 0 <= i < |book.groups[g].rounds| && book.groups[g].rounds[i].state.INVALIDATED? ::
      RoundId(g, i)
  }

  function ExpiredGroups(book: Book): set<GroupId> {
    set g | g in book.groups && book.groups[g].state == GroupState.EXPIRED
  }

  function PastEnd(book: Book, now: int): set<GroupId> {
    set g | g in book.groups && book.groups[g].window.end <= now
  }

  predicate IsInvalidated(book: Book, id: RoundId) {
    && id.group in book.groups && id.index < |book.groups[id.group].rounds|
    && book.groups[id.group].rounds[id.index].state.INVALIDATED?
  }

  lemma InvalidatedAre(book: Book)
    ensures forall id :: id in InvalidatedRounds(book) <==> IsInvalidated(book, id)
  {
    forall id ensures id in InvalidatedRounds(book) <==> IsInvalidated(book, id) {
      if IsInvalidated(book, id) {
        assert RoundId(id.group, id.index) in InvalidatedRounds(book);
      }
    }
  }

  // ----- one transaction ---------------------------------------------------------------------

  ghost function AfterTimeout(book: Book, id: RoundId, now: int): Book
    requires id.group in book.groups && Formation.InvalidateConfirmation(book.groups[id.group], id.index, now).Ok?
  {
    Formation.Commit(book, id.group, Formation.InvalidateConfirmation(book.groups[id.group], id.index, now).value, OPEN)
  }

  ghost function AfterExpiry(book: Book, g: GroupId, now: int): Book
    requires g in book.groups
  {
    Formation.Commit(book, g, Formation.ExpireGroup(book.groups[g], now), DemandStatus.EXPIRED)
  }

  /** With group and round coupled, the row a sweep lists as due is one the transaction changes. */
  lemma CoupledDue(book: Book, id: RoundId, now: int)
    requires BookInv(book) && AllCoupled(book) && RoundDue(book, id, now)
    ensures Formation.ConfirmationDue(book.groups[id.group], id.index, now)
  {
    hide DemandInv, NoClash, Fits, RoundInv;
    var group := book.groups[id.group];
    assert GroupInv(group) && Coupled(group);
    assert id.index == |group.rounds| - 1;
    assert Locked(group.state);
  }

  /** An invalidated round is no longer due; its group may become due, no other row changes. */
  lemma TimeoutClears(book: Book, id: RoundId, now: int)
    requires BookInv(book) && id.group in book.groups && Formation.ConfirmationDue(book.groups[id.group], id.index, now)
    ensures Formation.InvalidateConfirmation(book.groups[id.group], id.index, now).Ok?
    ensures forall other :: RoundDue(AfterTimeout(book, id, now), other, now) <==>
            RoundDue(book, other, now) && other != id
    ensures forall g :: GroupDue(AfterTimeout(book, id, now), g, now) && g != id.group <==> GroupDue(book, g, now)
    ensures RoundDue(book, id, now)
  {
    hide BookInv, GroupInv, Fits;
    Safety.GroupOf(book, id.group);
    FormationProofs.InvalidateConfirmationSound(book.groups[id.group], id.index, now);
  }

  lemma ExpiryClears(book: Book, g: GroupId, now: int)
    requires GroupDue(book, g, now)
    ensures forall id :: RoundDue(AfterExpiry(book, g, now), id, now) <==> RoundDue(book, id, now)
    ensures forall h :: GroupDue(AfterExpiry(book, g, now), h, now) <==> GroupDue(book, h, now) && h != g
  {
  }

  lemma TimeoutCounts(book: Book, id: RoundId, now: int)
    requires BookInv(book) && id.group in book.groups && Formation.ConfirmationDue(book.groups[id.group], id.index, now)
    ensures Formation.InvalidateConfirmation(book.groups[id.group], id.index, now).Ok?
    ensures var after := AfterTimeout(book, id, now);
            && id in DueRounds(book, now)
            && DueRounds(after, now) == DueRounds(book, now) - {id}
            && |DueRounds(after, now)| == |DueRounds(book, now)| - 1
            && |DueGroups(after, now)| <= |DueGroups(book, now)| + 1
  {
    hide BookInv, Formation.InvalidateConfirmation, Formation.ConfirmationDue, RoundDue, GroupDue, DueRounds;
    TimeoutClears(book, id, now);
    DueRoundsAre(book, now);
    DueRoundsAre(AfterTimeout(book, id, now), now);
    assert DueRounds(AfterTimeout(book, id, now), now) == DueRounds(book, now) - {id};
    GroupsAre(book, now);
    GroupsAre(AfterTimeout(book, id, now), now);
    SubsetSize(DueGroups(AfterTimeout(book, id, now), now), DueGroups(book, now) + {id.group});
  }

  /** A confirming group has the two members of its snapshot, so that it reopens as READY. */
  lemma Reopens(group: Group, i: nat, now: int)
    requires GroupInv(group) && Formation.ConfirmationDue(group, i, now)
    ensures Formation.InvalidateConfirmation(group, i, now).Ok?
    ensures var after := Formation.InvalidateConfirmation(group, i, now).value.group;
            && after.state.READY? && after.window == group.window && |after.rounds| == |group.rounds| &&
               after.rounds[i].state.INVALIDATED?
            && forall k :: 0 <= k < |group.rounds| && k != i ==> after.rounds[k] == group.rounds[k]
  {
    hide Fits;
    assert RoundInv(group.rounds[|group.rounds| - 1]);
  }

  /** A timeout ends one round and expires no group. */
  lemma TimeoutMoves(book: Book, id: RoundId, now: int)
    requires BookInv(book) && id.group in book.groups && Formation.ConfirmationDue(book.groups[id.group], id.index, now)
    ensures Formation.InvalidateConfirmation(book.groups[id.group], id.index, now).Ok?
    ensures id !in InvalidatedRounds(book)
    ensures InvalidatedRounds(AfterTimeout(book, id, now)) == InvalidatedRounds(book) + {id}
    ensures ExpiredGroups(AfterTimeout(book, id, now)) == ExpiredGroups(book)
    ensures PastEnd(AfterTimeout(book, id, now), now) == PastEnd(book, now)
  {
    hide BookInv, GroupInv, Fits, Formation.InvalidateConfirmation, InvalidatedRounds;
    Safety.GroupOf(book, id.group);
    Reopens(book.groups[id.group], id.index, now);
    InvalidatedAre(book);
    InvalidatedAre(AfterTimeout(book, id, now));
  }

  /** An expiry expires one group and ends no round. */
  lemma ExpiryMoves(book: Book, g: GroupId, now: int)
    requires GroupDue(book, g, now)
    ensures g !in ExpiredGroups(book) && g in PastEnd(book, now)
    ensures PastEnd(AfterExpiry(book, g, now), now) == PastEnd(book, now)
    ensures ExpiredGroups(AfterExpiry(book, g, now)) == ExpiredGroups(book) + {g}
    ensures InvalidatedRounds(AfterExpiry(book, g, now)) == InvalidatedRounds(book)
  {
    hide InvalidatedRounds;
    InvalidatedAre(book);
    InvalidatedAre(AfterExpiry(book, g, now));
  }

  lemma GroupsAre(book: Book, now: int)
    ensures forall g :: g in DueGroups(book, now) <==> GroupDue(book, g, now)
  {
  }

  lemma ExpiryCounts(book: Book, g: GroupId, now: int)
    requires GroupDue(book, g, now)
    ensures DueRounds(AfterExpiry(book, g, now), now) == DueRounds(book, now)
    ensures DueGroups(AfterExpiry(book, g, now), now) == DueGroups(book, now) - {g}
    ensures g in DueGroups(book, now)
  {
    assert g in book.groups;
    hide RoundDue, GroupDue, DueRounds, DueGroups, Formation.ExpireGroup;
    ExpiryClears(book, g, now);
    DueRoundsAre(book, now);
    DueRoundsAre(AfterExpiry(book, g, now), now);
    GroupsAre(book, now);
    GroupsAre(AfterExpiry(book, g, now), now);
  }

  lemma TimeoutKeeps(book: Book, id: RoundId, now: int)
    requires BookInv(book) && id.group in book.groups
    ensures Formation.InvalidateConfirmation(book.groups[id.group], id.index, now).Ok?
    ensures BookInv(AfterTimeout(book, id, now))
    ensures AllCoupled(book) ==> AllCoupled(AfterTimeout(book, id, now))
  {
    hide BookInv, GroupInv, Coupled, Formation.InvalidateConfirmation;
    Safety.GroupOf(book, id.group);
    FormationProofs.InvalidateConfirmationSound(book.groups[id.group], id.index, now);
    BookProofs.CommitInv(book, id.group, Formation.InvalidateConfirmation(book.groups[id.group], id.index, now).value,
                         OPEN);
  }

  lemma ExpiryKeeps(book: Book, g: GroupId, now: int)
    requires BookInv(book) && g in book.groups
    ensures BookInv(AfterExpiry(book, g, now))
    ensures AllCoupled(book) ==> AllCoupled(AfterExpiry(book, g, now))
  {
    hide BookInv, GroupInv, Coupled, Formation.ExpireGroup;
    Safety.GroupOf(book, g);
    FormationProofs.ExpireGroupSound(book.groups[g], now);
    BookProofs.CommitInv(book, g, Formation.ExpireGroup(book.groups[g], now), DemandStatus.EXPIRED);
  }

  lemma ActiveIsLive(book: Book, g: GroupId)
    requires BookInv(book) && g in book.groups
    ensures forall d :: d in Roster(book.groups[g].members) ==> d in book.demands && book.demands[d].status.GROUPED?
  {
    hide GroupInv, NoClash;
    forall d | d in Roster(book.groups[g].members) ensures d in book.demands && book.demands[d].status.GROUPED? {
      assert DemandInv(book, d);
    }
  }

  class FormationDeadlines {
    const db: Database
    const genders: Formation.Genders

    constructor (db: Database, genders: Formation.Genders)
      ensures this.db == db && this.genders == genders
    {
      this.db := db;
      this.genders := genders;
    }

    method InvalidateConfirmationRound(id: RoundId, now: int) returns (changed: bool)
      requires db.Valid()
      modifies db
      ensures db.Valid() && (AllCoupled(old(db.View())) ==> AllCoupled(db.View()))
      ensures changed <==>
              id.group in old(db.groups) && Formation.ConfirmationDue(old(db.groups[id.group]), id.index, now)
      ensures id.group in old(db.groups) ==>
                Formation.InvalidateConfirmation(old(db.groups)[id.group], id.index, now).Ok?
      ensures db.View() == if changed then AfterTimeout(old(db.View()), id, now) else old(db.View())
    {
      hide BookInv, GroupInv, AllCoupled, Fits, Formation.Commit;
      var g, i := id.group, id.index;
      if g !in db.groups {
        return false;
      }
      ghost var before := db.View();
      TimeoutKeeps(before, id, now);
      var group := db.groups[g];
      if i >= |group.rounds| || !group.rounds[i].state.CONFIRMING? || group.rounds[i].confirmBy > now ||
        !group.state.CONFIRMING? {
        return false;
      }
      Timeout(g, i, now);
      return true;
    }

    /** The writes of a confirmation timeout. */
    method Timeout(g: GroupId, i: nat, now: int)
      requires g in db.groups && Formation.ConfirmationDue(db.groups[g], i, now)
      requires Formation.InvalidateConfirmation(db.groups[g], i, now).Ok?
      modifies db
      ensures db.View() == AfterTimeout(old(db.View()), RoundId(g, i), now)
    {
      hide Fits, GroupingRules.Admissible, Roster, Restatus, RevokeAll;
      ghost var before := db.View();
      var members := Roster(db.groups[g].members);
      db.UpdateRound(g, i, db.groups[g].rounds[i].(state := INVALIDATED));
      db.UpdateMembers(g, CONFIRMED, JOINED);
      db.UpdateRound(g, i, db.groups[g].rounds[i].(consents := RevokeAll(db.groups[g].rounds[i].consents)));
      var ids, rules := ListMembers(members, db.demands, genders);
      ListedFits(ids, rules, members);
      var summary := GroupingRules.SummarizeGroupingMembers(rules);
      db.UpdateGroup(g, StateOf(summary.value.state));
      assert db.demands == Formation.SetDemands(before.demands, {}, OPEN);
      ghost var after := Formation.InvalidateConfirmation(before.groups[g], i, now).value.group;
      assert db.groups[g].rounds == after.rounds;
      assert db.groups[g] == after;
      assert db.groups == before.groups[g := db.groups[g]];
    }

    method ExpireRecruitableGroup(g: GroupId, now: int) returns (changed: bool)
      requires db.Valid()
      modifies db
      ensures db.Valid() && (AllCoupled(old(db.View())) ==> AllCoupled(db.View()))
      ensures changed <==> GroupDue(old(db.View()), g, now)
      ensures db.View() == if changed then AfterExpiry(old(db.View()), g, now) else old(db.View())
    {
      hide BookInv, GroupInv, AllCoupled;
      if g !in db.groups {
        return false;
      }
      var group := db.groups[g];
      ghost var before := db.View();
      ExpiryKeeps(before, g, now);
      if !Recruitable(group.state) || group.window.end > now {
        return false;
      }
      db.UpdateGroup(g, GroupState.EXPIRED);
      var members := Roster(group.members).Keys;
      db.RemoveMembers(g, members);
      var published := set d | d in members && d in db.demands && Live(db.demands[d]);
      db.UpdateDemands(published, DemandStatus.EXPIRED);
      assert published == members by { ActiveIsLive(before, g); }
      assert db.groups[g] == Formation.ExpireGroup(group, now).group;
      assert db.groups == before.groups[g := db.groups[g]];
      return true;
    }

    /** Up to SWEEP_LIMIT due rounds; which of them come first does not matter to what follows. */
    method ListDueConfirmationRounds(now: int) returns (list: seq<RoundId>)
      ensures DistinctList(list) && (forall k :: 0 <= k < |list| ==> RoundDue(db.View(), list[k], now))
      ensures |list| == Least(SWEEP_LIMIT, |DueRounds(db.View(), now)|)
    {
      var due := DueRounds(Formation.Book(db.demands, db.groups), now);
      DueRoundsAre(db.View(), now);
      list := TakeSome(due, SWEEP_LIMIT);
    }

    method ListExpiredRecruitableGroups(now: int) returns (list: seq<GroupId>)
      ensures DistinctList(list) && (forall k :: 0 <= k < |list| ==> GroupDue(db.View(), list[k], now))
      ensures |list| == Least(SWEEP_LIMIT, |DueGroups(db.View(), now)|)
    {
      list := TakeSome(DueGroups(Formation.Book(db.demands, db.groups), now), SWEEP_LIMIT);
    }

    /**
     * One sweep: the counts are exactly the rounds that became INVALIDATED, all of them due, and the groups
     * that became EXPIRED, at most fifty of each; the backlog shrinks by at least as much.
     */
    method RunFormationDeadlineSweep(now: int) returns (roundsInvalidated: nat, groupsExpired: nat)
      requires db.Valid() && AllCoupled(db.View())
      modifies db
      ensures db.Valid() && AllCoupled(db.View())
      ensures roundsInvalidated == Least(50, |DueRounds(old(db.View()), now)|)
      ensures |DueRounds(db.View(), now)| == |DueRounds(old(db.View()), now)| - roundsInvalidated
      ensures InvalidatedRounds(old(db.View())) <= InvalidatedRounds(db.View())
      ensures InvalidatedRounds(db.View()) - InvalidatedRounds(old(db.View())) <= DueRounds(old(db.View()), now)
      ensures roundsInvalidated == |InvalidatedRounds(db.View()) - InvalidatedRounds(old(db.View()))|
      ensures ExpiredGroups(old(db.View())) <= ExpiredGroups(db.View())
      ensures ExpiredGroups(db.View()) - ExpiredGroups(old(db.View())) <= PastEnd(db.View(), now)
      ensures groupsExpired == |ExpiredGroups(db.View()) - ExpiredGroups(old(db.View()))| <= 50
      ensures Backlog(db.View(), now) + roundsInvalidated + groupsExpired <= Backlog(old(db.View()), now)
      ensures groupsExpired < 50 ==> DueGroups(db.View(), now) == {}
    {
      hide BookInv, AllCoupled, DueRounds, DueGroups, InvalidatedRounds, ExpiredGroups, PastEnd;
      roundsInvalidated := InvalidateListed(now);
      groupsExpired := ExpireListed(now);
    }

    method InvalidateListed(now: int) returns (count: nat)
      requires db.Valid() && AllCoupled(db.View())
      modifies db
      ensures db.Valid() && AllCoupled(db.View())
      ensures count == Least(SWEEP_LIMIT, |DueRounds(old(db.View()), now)|)
      ensures |DueRounds(db.View(), now)| == |DueRounds(old(db.View()), now)| - count
      ensures |DueGroups(db.View(), now)| <= |DueGroups(old(db.View()), now)| + count
      ensures InvalidatedRounds(old(db.View())) <= InvalidatedRounds(db.View())
      ensures InvalidatedRounds(db.View()) - InvalidatedRounds(old(db.View())) <= DueRounds(old(db.View()), now)
      ensures count == |InvalidatedRounds(db.View()) - InvalidatedRounds(old(db.View()))|
      ensures ExpiredGroups(db.View()) == ExpiredGroups(old(db.View()))
    {
      hide BookInv, AllCoupled, DueRounds, DueGroups, AfterTimeout, Formation.ConfirmationDue,
        Formation.InvalidateConfirmation, RoundDue, InvalidatedRounds, ExpiredGroups, PastEnd;
      ghost var ended := InvalidatedRounds(db.View());
      DueRoundsAre(db.View(), now);
      var list := ListDueConfirmationRounds(now);
      count := 0;
      for k := 0 to |list|
        invariant db.Valid() && AllCoupled(db.View())
        invariant count == k
        invariant forall j :: k <= j < |list| ==> RoundDue(db.View(), list[j], now)
        invariant |DueRounds(db.View(), now)| == |DueRounds(old(db.View()), now)| - k
        invariant |DueGroups(db.View(), now)| <= |DueGroups(old(db.View()), now)| + k
        invariant ended <= InvalidatedRounds(db.View())
        invariant |InvalidatedRounds(db.View())| == |ended| + k
        invariant InvalidatedRounds(db.View()) - ended <= DueRounds(old(db.View()), now)
        invariant ExpiredGroups(db.View()) == ExpiredGroups(old(db.View()))
      {
        ghost var before := db.View();
        DueRow(before, list[k], now);
        TimeoutClears(before, list[k], now);
        TimeoutCounts(before, list[k], now);
        TimeoutMoves(before, list[k], now);
        var changed := InvalidateConfirmationRound(list[k], now);
        if changed {
          count := count + 1;
        }
      }
    }

    method ExpireListed(now: int) returns (count: nat)
      requires db.Valid() && AllCoupled(db.View())
      modifies db
      ensures db.Valid() && AllCoupled(db.View())
      ensures count == Least(SWEEP_LIMIT, |DueGroups(old(db.View()), now)|)
      ensures DueRounds(db.View(), now) == DueRounds(old(db.View()), now)
      ensures |DueGroups(db.View(), now)| == |DueGroups(old(db.View()), now)| - count
      ensures ExpiredGroups(old(db.View())) <= ExpiredGroups(db.View())
      ensures count == |ExpiredGroups(db.View()) - ExpiredGroups(old(db.View()))|
      ensures InvalidatedRounds(db.View()) == InvalidatedRounds(old(db.View()))
      ensures ExpiredGroups(db.View()) - ExpiredGroups(old(db.View())) <= PastEnd(db.View(), now)
    {
      hide BookInv, AllCoupled, DueRounds, DueGroups, AfterExpiry, GroupDue, InvalidatedRounds, ExpiredGroups, PastEnd;
      ghost var ended := ExpiredGroups(db.View());
      var list := ListExpiredRecruitableGroups(now);
      count := 0;
      for k := 0 to |list|
        invariant db.Valid() && AllCoupled(db.View())
        invariant count == k
        invariant forall j :: k <= j < |list| ==> GroupDue(db.View(), list[j], now)
        invariant DueRounds(db.View(), now) == DueRounds(old(db.View()), now)
        invariant |DueGroups(db.View(), now)| == |DueGroups(old(db.View()), now)| - k
        invariant ended <= ExpiredGroups(db.View())
        invariant |ExpiredGroups(db.View())| == |ended| + k
        invariant ExpiredGroups(db.View()) - ended <= PastEnd(db.View(), now)
        invariant InvalidatedRounds(db.View()) == InvalidatedRounds(old(db.View()))
      {
        ghost var before := db.View();
        DueGroup(before, list[k], now);
        ExpiryClears(before, list[k], now);
        ExpiryCounts(before, list[k], now);
        ExpiryMoves(before, list[k], now);
        var changed := ExpireRecruitableGroup(list[k], now);
        if changed {
          count := count + 1;
        }
      }
    }

    /** Sweeps repeated at one instant, with nothing in between, end, and leave nothing due. */
    method Drain(now: int) returns (sweeps: nat)
      requires db.Valid() && AllCoupled(db.View())
      modifies db
      ensures db.Valid() && AllCoupled(db.View())
      ensures forall g, i :: g in db.groups && 0 <= i < |db.groups[g].rounds| ==>
                !db.groups[g].rounds[i].state.CONFIRMING? || now < db.groups[g].rounds[i].confirmBy
      ensures forall g :: g in db.groups && Recruitable(db.groups[g].state) ==> now < db.groups[g].window.end
      ensures sweeps <= Backlog(old(db.View()), now) + 1
    {
      hide BookInv, AllCoupled, DueRounds, DueGroups, RoundDue, GroupDue;
      var rounds, groups := RunFormationDeadlineSweep(now);
      sweeps := 1;
      while rounds != 0 || groups != 0
        invariant db.Valid() && AllCoupled(db.View())
        invariant rounds == 0 && groups == 0 ==> DueRounds(db.View(), now) == {} && DueGroups(db.View(), now) == {}
        invariant sweeps + Backlog(db.View(), now) <= Backlog(old(db.View()), now) + 1
        decreases Backlog(db.View(), now) + rounds + groups
      {
        rounds, groups := RunFormationDeadlineSweep(now);
        sweeps := sweeps + if rounds == 0 && groups == 0 then 0 else 1;
      }
      NothingDue(Formation.Book(db.demands, db.groups), now);
    }
  }

  lemma NothingDue(book: Book, now: int)
    requires DueRounds(book, now) == {} && DueGroups(book, now) == {}
    ensures forall g, i :: g in book.groups && 0 <= i < |book.groups[g].rounds| ==>
              !book.groups[g].rounds[i].state.CONFIRMING? || now < book.groups[g].rounds[i].confirmBy
    ensures forall g :: g in book.groups && Recruitable(book.groups[g].state) ==> now < book.groups[g].window.end
  {
    hide DueRounds, DueGroups;
    DueRoundsAre(book, now);
    GroupsAre(book, now);
    forall g, i | g in book.groups && 0 <= i < |book.groups[g].rounds| && book.groups[g].rounds[i].state.CONFIRMING?
      ensures now < book.groups[g].rounds[i].confirmBy
    {
      assert !RoundDue(book, RoundId(g, i), now);
    }
    forall g | g in book.groups && Recruitable(book.groups[g].state) ensures now < book.groups[g].window.end {
      assert !GroupDue(book, g, now);
    }
  }

  function Least(a: nat, b: nat): nat {
    if a < b then a else b
  }

  predicate DistinctList<T(==)>(list: seq<T>) {
    forall i, j :: 0 <= i < j < |list| ==> list[i] != list[j]
  }

  method TakeSome<T(==)>(due: set<T>, limit: nat) returns (list: seq<T>)
    ensures DistinctList(list) && (forall k :: 0 <= k < |list| ==> list[k] in due)
    ensures |list| == Least(limit, |due|)
  {
    list := [];
    var rest := due;
    while rest != {} && |list| < limit
      invariant rest <= due && |rest| == |due| - |list| && |list| <= limit
      invariant DistinctList(list)
      invariant forall k :: 0 <= k < |list| ==> list[k] in due && list[k] !in rest
    {
      var one :| one in rest;
      rest := rest - {one};
      list := list + [one];
    }
  }

  lemma DueRow(book: Book, id: RoundId, now: int)
    requires BookInv(book) && AllCoupled(book) && RoundDue(book, id, now)
    ensures id.group in book.groups && Formation.ConfirmationDue(book.groups[id.group], id.index, now)
  {
    hide BookInv, AllCoupled;
    CoupledDue(book, id, now);
  }

  lemma DueGroup(book: Book, g: GroupId, now: int)
    requires GroupDue(book, g, now)
    ensures g in book.groups
  {
  }
}
