/** What the protocol promises, stated over every run from an empty database. */
module Theorems {
  import opened Wrappers
  import opened Tables
  import opened Invariants
  import opened Runs
  import Formation
  import Safety
  import Progress
  import Causes

  ghost function After(genders: Formation.Genders, steps: seq<Step>): State {
    Run(Empty.(genders := genders), steps)
  }

  // ----- delivery ----------------------------------------------------------------------------

  predicate DeliveredTo(round: Round, user: UserId) {
    && user in round.decisions && round.decisions[user].ACCEPT?
    && user in round.consents && round.consents[user].policy == round.policy
    && user in round.orders && round.orders[user].status.DELIVERED? && round.orders[user].amountFen == 99
  }

  /**
   * Contacts are unlocked for nobody or for every ordered pair of snapshot members, and then everybody agreed and paid.
   */
  lemma DeliveryAllOrNothing(genders: Formation.Genders, steps: seq<Step>, g: GroupId, i: nat)
    requires g in After(genders, steps).book.groups && i < |After(genders, steps).book.groups[g].rounds|
    ensures var round := After(genders, steps).book.groups[g].rounds[i];
            && (round.unlocks == {} || round.unlocks == Pairs(Users(round.snapshot)))
            && (round.unlocks != {} <==> round.state.DELIVERED?)
            && (round.state.DELIVERED? ==>
                  round.orders.Keys == Users(round.snapshot) && forall u :: u in Users(round.snapshot) ==>
                    DeliveredTo(round, u))
  {
    hide Run;
    Safety.RunInv(genders, steps);
    RoundOf(After(genders, steps).book, g, i);
    DeliveredShape(After(genders, steps).book.groups[g].rounds[i]);
  }

  lemma RoundOf(book: Book, g: GroupId, i: nat)
    requires BookInv(book) && g in book.groups && i < |book.groups[g].rounds|
    ensures GroupInv(book.groups[g]) && RoundInv(book.groups[g].rounds[i])
  {
    hide RoundInv, Fits, StateInv;
  }

  lemma DeliveredShape(round: Round)
    requires RoundInv(round)
    ensures round.unlocks != {} <==> round.state.DELIVERED?
    ensures round.state.DELIVERED? ==>
              round.unlocks == Pairs(Users(round.snapshot)) && round.orders.Keys == Users(round.snapshot) &&
              forall u :: u in Users(round.snapshot) ==> DeliveredTo(round, u)
  {
    if round.state.DELIVERED? {
      RosterSize(round.snapshot);
      var d :| d in round.snapshot;
      var viewer := round.snapshot[d].user;
      SubsetSize({viewer}, Users(round.snapshot));
      var subject :| subject in Users(round.snapshot) && subject != viewer;
      assert (viewer, subject) in round.unlocks;
      assert forall u :: u in Users(round.snapshot) ==> u in Accepted(round);
    }
  }

  /** A delivery is never taken back: no later step changes the round's unlocks, decisions or orders. */
  lemma DeliveryIsFinal(genders: Formation.Genders, steps: seq<Step>, more: seq<Step>, g: GroupId, i: nat)
    requires g in After(genders, steps).book.groups && i < |After(genders, steps).book.groups[g].rounds|
    requires After(genders, steps).book.groups[g].rounds[i].state.DELIVERED?
    ensures var later := Run(After(genders, steps), more).book.groups;
            && g in later && i < |later[g].rounds|
            && var before := After(genders, steps).book.groups[g].rounds[i];
            && later[g].rounds[i].state.DELIVERED?
            && later[g].rounds[i].unlocks == before.unlocks
            && later[g].rounds[i].orders == before.orders
            && later[g].rounds[i].decisions == before.decisions
            && later[g].rounds[i].snapshot == before.snapshot
  {
    hide Run, Inv;
    Safety.RunInv(genders, steps);
    Progress.RunForward(After(genders, steps), more);
  }

  // ----- decisions and snapshots -------------------------------------------------------------

  /** Nothing is decided, and nothing delivered, against members other than those of the snapshot. */
  lemma SnapshotExact(genders: Formation.Genders, steps: seq<Step>, step: Step, g: GroupId, i: nat)
    requires g in After(genders, steps).book.groups && i < |After(genders, steps).book.groups[g].rounds|
    ensures var s := After(genders, steps);
            var later := Next(s, step).book.groups;
            && g in later && i < |later[g].rounds|
            && var round := s.book.groups[g].rounds[i];
            && (later[g].rounds[i].decisions != round.decisions || later[g].rounds[i].unlocks != round.unlocks ==>
                  Roster(s.book.groups[g].members) == round.snapshot)
            && later[g].rounds[i].snapshot == round.snapshot
            && later[g].rounds[i].decisions.Keys <= Users(round.snapshot)
  {
    hide Next, Run, Inv, RoundInv, GroupInv, Progress.RoundForward, Causes.Decides, Causes.Charges, Causes.Delivers,
      Pairs;
    var s := After(genders, steps);
    Safety.RunInv(genders, steps);
    Progress.StepForward(s, step);
    Safety.StepInv(s, step);
    var before, after := s.book.groups[g].rounds[i], Next(s, step).book.groups[g].rounds[i];
    RoundIn(s, g, i);
    RoundIn(Next(s, step), g, i);
    SameSnapshot(before, after);
    DecidersListed(before);
    DecidersListed(after);
    if after.decisions != before.decisions {
      Causes.DecisionsHaveCauses(s, step, g, i);
      DecidedRoster(s.book.groups[g], Next(s, step).book.groups[g], i, step.user, step.choice, step.env);
    } else if after.unlocks != before.unlocks {
      UnlocksFollow(before, after);
      Causes.DeliveriesHaveCauses(s, step, g, i);
      ChargedRoster(s.book.groups[g], i, step.user, step.intentMatches, step.env.now);
    }
  }

  lemma RoundIn(s: State, g: GroupId, i: nat)
    requires Inv(s) && g in s.book.groups && i < |s.book.groups[g].rounds|
    ensures GroupInv(s.book.groups[g]) && RoundInv(s.book.groups[g].rounds[i])
  {
    hide GroupInv, RoundInv;
    RoundOf(s.book, g, i);
  }

  lemma DecidedRoster(before: Group, after: Group, i: nat, user: UserId, choice: Formation.Choice, env: Env)
    requires i < |before.rounds| && i < |after.rounds| && Causes.Decides(before, after, i, user, choice, env)
    ensures Roster(before.members) == before.rounds[i].snapshot
  {
  }

  /** The unlocks of a finished round stay, so they change only when it is delivered. */
  lemma UnlocksFollow(before: Round, after: Round)
    requires RoundInv(before) && RoundInv(after) && Progress.RoundForward(before, after) &&
             after.unlocks != before.unlocks
    ensures after.state.DELIVERED? && !before.state.DELIVERED?
  {
    hide Fits, ConsentsInv, OrdersInv, Pairs;
  }

  /** A group that pays for a round has that round's snapshot as its members. */
  lemma ChargedRoster(group: Group, i: nat, user: UserId, intentMatches: bool, now: int)
    requires GroupInv(group) && Causes.Charges(group, i, user, intentMatches, now)
    ensures Roster(group.members) == group.rounds[i].snapshot
  {
    hide Fits, RoundInv;
    assert i == |group.rounds| - 1;
  }

  lemma SameSnapshot(before: Round, after: Round)
    requires Progress.RoundForward(before, after)
    ensures after.snapshot == before.snapshot
  {
  }

  lemma DecidersListed(round: Round)
    requires RoundInv(round)
    ensures round.decisions.Keys <= Users(round.snapshot)
  {
  }

  // ----- groups and rounds -------------------------------------------------------------------

  predicate StatusAllowed(state: GroupState, status: MemberStatus) {
    match state
    case RECRUITING => status.JOINED?
    case READY => status.JOINED?
    case CONFIRMING => status.JOINED? || status.CONFIRMED?
    case PAYING => status.PAYMENT_PENDING? || status.PAID?
    case REFUNDING => status.PAID?
    case REFUND_RETRY => false
    case CONTACTS_UNLOCKED => status.CONTACT_UNLOCKED?
    case EXPIRED => false
  }

  function LastState(group: Group): Option<RoundState> {
    if group.rounds == [] then None else Some(group.rounds[|group.rounds| - 1].state)
  }

  /** The group state and the state of its last round determine each other as far as they say the same thing. */
  predicate StatesAgree(group: Group) {
    && (group.state.CONFIRMING? <==> LastState(group) == Some(RoundState.CONFIRMING))
    && (group.state.PAYING? <==> LastState(group) == Some(RoundState.PAYING))
    && (group.state.REFUNDING? <==> LastState(group) == Some(RoundState.REFUNDING))
    && (group.state.CONTACTS_UNLOCKED? <==> LastState(group) == Some(RoundState.DELIVERED))
    && !group.state.REFUND_RETRY? && LastState(group) != Some(RoundState.REFUND_RETRY)
    && (forall i :: 0 <= i < |group.rounds| - 1 ==> group.rounds[i].state.INVALIDATED?)
    && (Recruitable(group.state) || group.state.EXPIRED? ==> group.state == Tally(|Roster(group.members)|))
    && (forall d :: d in Roster(group.members) ==> StatusAllowed(group.state, group.members[d].status))
  }

  /** The active members of a confirming or paying group are its snapshot, so the acceptance count is unanimity. */
  predicate CountsItsSnapshot(group: Group) {
    group.state.CONFIRMING? || group.state.PAYING? ==>
      && group.rounds != []
      && var round := group.rounds[|group.rounds| - 1];
         && Roster(group.members) == round.snapshot
         && (|Accepted(round)| == |round.snapshot| <==>
             forall u :: u in Users(round.snapshot) ==> u in round.decisions && round.decisions[u].ACCEPT?)
         && (group.state.PAYING? <==> |Accepted(round)| == |round.snapshot|)
  }

  /** In a run without a join out of a locked group, every group agrees with its rounds. */
  lemma GroupAndRoundAgree(genders: Formation.Genders, steps: seq<Step>, g: GroupId)
    requires Safety.KeepsCoupling(Empty.(genders := genders), steps)
    requires g in After(genders, steps).book.groups
    ensures StatesAgree(After(genders, steps).book.groups[g])
    ensures CountsItsSnapshot(After(genders, steps).book.groups[g])
  {
    hide Run, Safety.KeepsCoupling, GroupInv, Coupled;
    var s := After(genders, steps);
    Safety.RunInv(genders, steps);
    Safety.RunCoupling(genders, steps);
    CoupledAgree(s.book.groups[g]);
    SnapshotCounted(s.book.groups[g]);
  }

  lemma CoupledAgree(group: Group)
    requires GroupInv(group) && Coupled(group)
    ensures StatesAgree(group)
  {
    hide Fits, ConsentsInv, OrdersInv, PaysTogether;
    if group.state.EXPIRED? {
      assert |Roster(group.members)| == 0;
    }
    if group.state.PAYING? {
      PayingMembers(group);
    }
  }

  lemma PayingMembers(group: Group)
    requires GroupInv(group) && group.state.PAYING?
    ensures forall d :: d in Roster(group.members) ==>
              group.members[d].status.PAYMENT_PENDING? || group.members[d].status.PAID?
  {
  }

  lemma SnapshotCounted(group: Group)
    requires GroupInv(group)
    ensures CountsItsSnapshot(group)
  {
    if group.state.CONFIRMING? || group.state.PAYING? {
      var round := group.rounds[|group.rounds| - 1];
      AcceptanceCount(round);
      SameRoster(group);
    }
  }

  lemma SameRoster(group: Group)
    requires GroupInv(group) && (group.state.CONFIRMING? || group.state.PAYING?)
    ensures group.rounds != [] && Roster(group.members) == group.rounds[|group.rounds| - 1].snapshot
    ensures group.state.PAYING? ==> group.rounds[|group.rounds| - 1].state.PAYING?
    ensures group.state.CONFIRMING? ==> group.rounds[|group.rounds| - 1].state.CONFIRMING?
  {
    hide Fits, RoundInv;
  }

  lemma AcceptanceCount(round: Round)
    requires RoundInv(round)
    ensures |Accepted(round)| == |round.snapshot| <==> Accepted(round) == Users(round.snapshot)
    ensures Accepted(round) == Users(round.snapshot) <==>
            forall u :: u in Users(round.snapshot) ==> u in round.decisions && round.decisions[u].ACCEPT?
    ensures round.state.CONFIRMING? ==> Accepted(round) != Users(round.snapshot)
    ensures round.state.PAYING? ==> Accepted(round) == Users(round.snapshot)
  {
    FitsDistinct(round.snapshot);
    RosterSize(round.snapshot);
    SubsetSize(Accepted(round), Users(round.snapshot));
  }
}
