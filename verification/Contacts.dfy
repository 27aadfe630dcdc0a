/** What a contact read discloses, over whole runs. */
module Contacts {
  import opened Wrappers
  import opened Tables
  import opened Invariants
  import opened Runs
  import Formation
  import Payment
  import PaymentOutcomes
  import Safety
  import Progress
  import opened Theorems

  /** What a read needs once the delivery invariant is known: no unlock is looked up, no count compared. */
  predicate MayRead(group: Group, viewer: UserId, env: Env) {
    && group.rounds != []
    && group.state.CONTACTS_UNLOCKED?
    && var round := group.rounds[|group.rounds| - 1];
       var users := Users(round.snapshot);
       && viewer in users
       && (forall u :: u in round.consents ==> !round.consents[u].revoked)
       && users <= env.contacts
       && users <= env.deliverable
  }

  function Granted(reading: Result<Payment.Reading>): Option<set<UserId>> {
    if reading.Ok? && reading.value.Granted? then Some(reading.value.subjects) else None
  }

  lemma UnlockedGroup(group: Group)
    requires GroupInv(group) && group.state.CONTACTS_UNLOCKED?
    ensures group.rounds != []
    ensures var round := group.rounds[|group.rounds| - 1];
            && RoundInv(round) && round.state.DELIVERED?
            && Standing(group.members, CONTACT_UNLOCKED) == round.snapshot
  {
    hide Fits, RoundInv;
    var round := group.rounds[|group.rounds| - 1];
    var standing := Standing(group.members, CONTACT_UNLOCKED);
    assert standing == Roster(group.members);
  }

  /** In a delivered round the stored unlocks and consents already say what the read checks one by one. */
  lemma DeliveredCounts(round: Round)
    requires RoundInv(round) && round.state.DELIVERED?
    ensures |round.snapshot| >= 2 && |round.consents| == |round.snapshot|
    ensures forall viewer, subject :: viewer in Users(round.snapshot) && subject in Users(round.snapshot) - {viewer} ==>
              (viewer, subject) in round.unlocks
  {
    FitsDistinct(round.snapshot);
    RosterSize(round.snapshot);
    assert |round.consents| == |round.consents.Keys|;
  }

  /** A granted read returns exactly the other snapshot members, and is granted exactly when MayRead holds. */
  lemma GrantIsExact(group: Group, viewer: UserId, env: Env)
    requires GroupInv(group)
    ensures Granted(Payment.ReadContacts(group, viewer, env)) ==
            if MayRead(group, viewer, env)
              then Some(Users(group.rounds[|group.rounds| - 1].snapshot) - {viewer}) else None
  {
    hide GroupInv, RoundInv, Standing, Users, Pairs;
    if group.state.CONTACTS_UNLOCKED? {
      UnlockedGroup(group);
      DeliveredCounts(group.rounds[|group.rounds| - 1]);
    }
  }

  /** Something was ordered in the last round, or it was delivered: then a read is answered, if only by a refusal. */
  predicate Sold(group: Group) {
    group.rounds != [] &&
    (group.rounds[|group.rounds| - 1].state.DELIVERED? || group.rounds[|group.rounds| - 1].orders.Keys != {})
  }

  lemma ReadAnswers(group: Group, viewer: UserId, env: Env)
    ensures Payment.ReadContacts(group, viewer, env).Ok? <==> Sold(group)
    ensures MayRead(group, viewer, env) && GroupInv(group) ==> Sold(group)
  {
    hide Fits;
  }

  /**
   * A read of a group that has sold something is granted or refused, and writes its one log row in the step that
   * answers it; a read of any other fails. Nothing else changes.
   */
  lemma ReadsAreLogged(genders: Formation.Genders, steps: seq<Step>, g: GroupId, viewer: UserId, env: Env)
    requires g in After(genders, steps).book.groups
    ensures var s := After(genders, steps);
            var group := s.book.groups[g];
            var next := Next(s, ReadContacts(viewer, g, env));
            && next.book == s.book && next.gateway == s.gateway && next.jobs == s.jobs
            && (MayRead(group, viewer, env) ==>
                  var subjects := Users(group.rounds[|group.rounds| - 1].snapshot) - {viewer};
                  next.log == s.log + [Access(g, viewer, Payment.Granted(subjects))])
            && (!MayRead(group, viewer, env) && Sold(group) ==>
                  next.log == s.log + [Access(g, viewer, Payment.Denied)])
            && (!Sold(group) ==> next == s)
  {
    hide Run, GroupInv, MayRead, Payment.ReadContacts;
    ReadAnswers(After(genders, steps).book.groups[g], viewer, env);
    Safety.RunInv(genders, steps);
    Safety.GroupOf(After(genders, steps).book, g);
    GrantIsExact(After(genders, steps).book.groups[g], viewer, env);
  }

  predicate Withdrawn(round: Round) {
    round.state.DELIVERED? && exists u :: u in round.consents && round.consents[u].revoked
  }

  lemma WithdrawnStays(before: Round, after: Round)
    requires Progress.RoundForward(before, after) && Withdrawn(before)
    ensures Withdrawn(after)
  {
    var u :| u in before.consents && before.consents[u].revoked;
    assert after.consents[u].revoked;
  }

  /**
   * Once any member of a delivered round has revoked, no later read of the group by anyone is granted,
   * in any run that keeps groups and rounds coupled.
   */
  lemma RevocationClosesReads(
    genders: Formation.Genders, steps: seq<Step>, more: seq<Step>, g: GroupId, i: nat, viewer: UserId, env: Env)
    requires Safety.KeepsCoupling(Empty.(genders := genders), steps + more)
    requires g in After(genders, steps).book.groups && i < |After(genders, steps).book.groups[g].rounds|
    requires Withdrawn(After(genders, steps).book.groups[g].rounds[i])
    ensures g in After(genders, steps + more).book.groups
    ensures Granted(Payment.ReadContacts(After(genders, steps + more).book.groups[g], viewer, env)).None?
  {
    hide Run, Inv, Safety.KeepsCoupling, GroupInv, Withdrawn, Coupled, Progress.RoundForward, Payment.ReadContacts,
      MayRead;
    var s := After(genders, steps);
    Safety.RunInv(genders, steps);
    Progress.RunForward(s, more);
    Safety.RunTwice(Empty.(genders := genders), steps, more);
    Safety.RunInv(genders, steps + more);
    Safety.RunCoupling(genders, steps + more);
    var later := After(genders, steps + more).book.groups[g];
    WithdrawnStays(s.book.groups[g].rounds[i], later.rounds[i]);
    assert GroupInv(later) by { Safety.GroupIn(After(genders, steps + more), g); }
    GrantIsExact(later, viewer, env);
    NoReading(later, i, viewer, env);
  }

  lemma NoReading(group: Group, i: nat, viewer: UserId, env: Env)
    requires Coupled(group) && i < |group.rounds| && Withdrawn(group.rounds[i])
    ensures !MayRead(group, viewer, env)
  {
    assert i == |group.rounds| - 1;
  }

  /**
   * A member of a delivered round revokes: whatever follows, every read of the group by anyone is refused, and the
   * refusal is logged, in any run that keeps groups and rounds coupled.
   */
  lemma RevocationRefusesReads(
    genders: Formation.Genders, steps: seq<Step>, more: seq<Step>, user: UserId, g: GroupId, i: nat, at: int,
    viewer: UserId, env: Env)
    requires Safety.KeepsCoupling(Empty.(genders := genders), steps + [Step.RevokeConsent(user, g, i, at)] + more)
    requires Exec(After(genders, steps), Step.RevokeConsent(user, g, i, at)).Ok?
    requires g in After(genders, steps).book.groups && i < |After(genders, steps).book.groups[g].rounds|
    requires After(genders, steps).book.groups[g].rounds[i].state.DELIVERED?
    requires user in After(genders, steps).book.groups[g].rounds[i].consents
    ensures var later := After(genders, steps + [Step.RevokeConsent(user, g, i, at)] + more);
            Next(later, ReadContacts(viewer, g, env)).log == later.log + [Access(g, viewer, Payment.Denied)]
  {
    hide Run, Inv, Next, Exec, Safety.KeepsCoupling, GroupInv, Withdrawn, Coupled, Payment.ReadContacts, MayRead, Sold;
    var step := Step.RevokeConsent(user, g, i, at);
    var first := steps + [step];
    RevocationWithdraws(genders, steps, user, g, i, at);
    RevocationClosesReads(genders, first, more, g, i, viewer, env);
    RevocationLeavesSold(genders, first, more, g, i);
    var later := After(genders, first + more);
    Safety.RunInv(genders, first + more);
    assert GroupInv(later.book.groups[g]) by { Safety.GroupIn(later, g); }
    GrantIsExact(later.book.groups[g], viewer, env);
    ReadsAreLogged(genders, first + more, g, viewer, env);
  }

  lemma RevocationWithdraws(genders: Formation.Genders, steps: seq<Step>, user: UserId, g: GroupId, i: nat, at: int)
    requires Exec(After(genders, steps), Step.RevokeConsent(user, g, i, at)).Ok?
    requires g in After(genders, steps).book.groups && i < |After(genders, steps).book.groups[g].rounds|
    requires After(genders, steps).book.groups[g].rounds[i].state.DELIVERED?
    requires user in After(genders, steps).book.groups[g].rounds[i].consents
    ensures var later := After(genders, steps + [Step.RevokeConsent(user, g, i, at)]).book.groups;
            g in later && i < |later[g].rounds| && Withdrawn(later[g].rounds[i]) && later[g].rounds[i].state.DELIVERED?
  {
    hide Inv, Next, Exec;
    var step := Step.RevokeConsent(user, g, i, at);
    var s := After(genders, steps);
    Safety.RunInv(genders, steps);
    PaymentOutcomes.RevocationOutcome(s, user, g, i, at);
    assert (steps + [step])[..|steps|] == steps;
    assert Next(s, step).book.groups[g].rounds[i].consents[user].revoked;
  }

  /** A delivered round is the last one of a coupled group for ever. */
  lemma RevocationLeavesSold(genders: Formation.Genders, steps: seq<Step>, more: seq<Step>, g: GroupId, i: nat)
    requires Safety.KeepsCoupling(Empty.(genders := genders), steps + more)
    requires g in After(genders, steps).book.groups && i < |After(genders, steps).book.groups[g].rounds|
    requires After(genders, steps).book.groups[g].rounds[i].state.DELIVERED?
    ensures g in After(genders, steps + more).book.groups && Sold(After(genders, steps + more).book.groups[g])
  {
    hide Run, Inv, Safety.KeepsCoupling, GroupInv, Progress.RoundForward;
    DeliveryIsFinal(genders, steps, more, g, i);
    Safety.RunTwice(Empty.(genders := genders), steps, more);
    Safety.RunCoupling(genders, steps + more);
    assert Coupled(After(genders, steps + more).book.groups[g]);
  }
}
