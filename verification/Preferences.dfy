/** No group of two or more ever goes against a member's companion preference. */
module Preferences {
  import opened Wrappers
  import opened Tables
  import opened Invariants
  import opened Runs
  import Formation
  import Payment
  import RefundProofs
  import BookProofs
  import FormationOutcomes
  import Safety
  import opened Theorems
  import GroupingRules

  ghost predicate Respected(book: Book, genders: Formation.Genders, g: GroupId)
    requires g in book.groups
  {
    |Roster(book.groups[g].members)| >= 2 ==>
      Formation.Compatible(Roster(book.groups[g].members), book.demands, genders)
  }

  ghost predicate AllRespected(book: Book, genders: Formation.Genders) {
    forall g :: g in book.groups ==> Respected(book, genders, g)
  }

  predicate SamePreferences(before: Book, after: Book) {
    forall d :: d in before.demands ==>
      d in after.demands && after.demands[d].preference == before.demands[d].preference
  }

  /** A part of a compatible roster is compatible. */
  lemma PartRespected(before: Book, after: Book, genders: Formation.Genders, g: GroupId)
    requires g in before.groups && g in after.groups && Respected(before, genders, g) && SamePreferences(before, after)
    requires var small := Roster(after.groups[g].members);
             var large := Roster(before.groups[g].members);
             forall d :: d in small ==> d in large && small[d] == large[d] && d in before.demands
    ensures Respected(after, genders, g)
  {
    var small := Roster(after.groups[g].members);
    var large := Roster(before.groups[g].members);
    SubsetSize(small.Keys, large.Keys);
  }

  lemma ListedDemands(book: Book, g: GroupId)
    requires BookInv(book) && g in book.groups
    ensures forall d :: d in Roster(book.groups[g].members) ==> d in book.demands
  {
    hide DemandInv, GroupInv, NoClash;
  }

  lemma LocalRespected(s: State, step: Step)
    requires BookInv(s.book) && AllRespected(s.book, s.genders)
    requires IsLocal(step) && step.g in s.book.groups && LocalChange(s, step).Ok?
    ensures AllRespected(Formation.Commit(s.book, step.g, LocalChange(s, step).value, ReleasedAs(step)), s.genders)
  {
    hide BookInv, GroupInv, Coupled, RefundsKept, Respected, LocalChange, Roster;
    var change := LocalChange(s, step).value;
    var after := Formation.Commit(s.book, step.g, change, ReleasedAs(step));
    Safety.GroupOf(s.book, step.g);
    Safety.LocalSound(s, step);
    KeptRoster(s.book.groups[step.g], change.group, change.released);
    forall g | g in after.groups ensures Respected(after, s.genders, g) {
      ListedDemands(s.book, g);
      PartRespected(s.book, after, s.genders, g);
    }
  }

  lemma RefundRespected(s: State, key: OrderKey, group: Group)
    requires BookInv(s.book) && AllRespected(s.book, s.genders) && key.group in s.book.groups
    requires MembersKept(s.book.groups[key.group], group, {})
    ensures AllRespected(WithGroup(s, key.group, group).book, s.genders)
  {
    hide BookInv, Respected, Roster;
    KeptRoster(s.book.groups[key.group], group, {});
    var after := WithGroup(s, key.group, group).book;
    forall g | g in after.groups ensures Respected(after, s.genders, g) {
      ListedDemands(s.book, g);
      PartRespected(s.book, after, s.genders, g);
    }
  }

  lemma StepMembers(before: Group, after: Group, i: nat, user: UserId)
    requires RefundProofs.RefundStep(before, after, i, user)
    ensures MembersKept(before, after, {})
  {
    hide GroupInv, Coupled;
  }

  lemma WorkerRespected(s: State, step: Step)
    requires BookInv(s.book) && AllRespected(s.book, s.genders) && WorkerStep(s, step).Ok?
    ensures AllRespected(WorkerStep(s, step).value.book, s.genders)
  {
    hide BookInv, GroupInv, AllRespected, RefundProofs.RefundStep, MembersKept, Payment.ClaimRefund,
      Payment.RestoreRefund, Payment.FinishRefund;
    if step.ClaimRefund? {
      var key := step.key;
      var group := s.book.groups[key.group];
      Safety.GroupOf(s.book, key.group);
      RefundProofs.ClaimSound(group, key.round, key.user);
      StepMembers(group, Payment.ClaimRefund(group, key.round, key.user).group, key.round, key.user);
      RefundRespected(s, key, Payment.ClaimRefund(group, key.round, key.user).group);
    } else if step.FinishRefund? || step.RestoreRefund? {
      var key := s.jobs[step.worker].key;
      var group := s.book.groups[key.group];
      Safety.GroupOf(s.book, key.group);
      RefundProofs.FinishSound(group, key.round, key.user);
      RefundProofs.RestoreSound(group, key.round, key.user);
      StepMembers(group, Payment.FinishRefund(group, key.round, key.user).value, key.round, key.user);
      StepMembers(group, Payment.RestoreRefund(group, key.round, key.user), key.round, key.user);
      RefundRespected(s, key, Payment.FinishRefund(group, key.round, key.user).value);
      RefundRespected(s, key, Payment.RestoreRefund(group, key.round, key.user));
    }
  }

  lemma CreateRespected(book: Book, genders: Formation.Genders, demand: Demand, d: DemandId, g: GroupId, enabled: bool,
                        env: Env)
    requires BookInv(book) && AllRespected(book, genders) &&
             Formation.CreateDemand(book, demand, d, g, enabled, env).Ok?
    ensures AllRespected(Formation.CreateDemand(book, demand, d, g, enabled, env).value, genders)
  {
    hide BookInv, Respected;
    var after := Formation.CreateDemand(book, demand, d, g, enabled, env).value;
    forall h | h in after.groups ensures Respected(after, genders, h) {
      if h == g {
        assert Roster(after.groups[g].members).Keys == {d};
        AloneRespected(after, genders, g, d);
      } else {
        ListedDemands(book, h);
        PartRespected(book, after, genders, h);
      }
    }
  }

  lemma AloneRespected(book: Book, genders: Formation.Genders, g: GroupId, d: DemandId)
    requires g in book.groups && Roster(book.groups[g].members).Keys == {d}
    ensures Respected(book, genders, g)
  {
    assert |Roster(book.groups[g].members)| == |Roster(book.groups[g].members).Keys|;
  }

  lemma CancelRespected(book: Book, genders: Formation.Genders, user: UserId, d: DemandId)
    requires BookInv(book) && AllRespected(book, genders) && Formation.CancelDemand(book, user, d).Ok?
    ensures AllRespected(Formation.CancelDemand(book, user, d).value, genders)
  {
    hide BookInv, Respected, Fits;
    var after := Formation.CancelDemand(book, user, d).value;
    forall h | h in after.groups ensures Respected(after, genders, h) {
      ListedDemands(book, h);
      PartRespected(book, after, genders, h);
    }
  }

  /** The newcomer and the members of a joined group were checked together. */
  lemma JoinedRespected(s: State, user: UserId, g: GroupId, d: DemandId, env: Env)
    requires Formation.JoinGroup(s.book, s.genders, user, g, d, env).Ok? && !Formation.AlreadyIn(s.book, g, d)
    requires BookProofs.Moved(s.book, Formation.JoinGroup(s.book, s.genders, user, g, d, env).value, g, d)
    ensures Respected(Formation.JoinGroup(s.book, s.genders, user, g, d, env).value, s.genders, g)
  {
    hide Fits, Formation.OverlappingRows, Formation.Transferable, Formation.Recompute;
    var after := Formation.JoinGroup(s.book, s.genders, user, g, d, env).value;
    var target := s.book.groups[g];
    var prospective := Roster(target.members)[d := Seat(user, s.book.demands[d].seats)];
    assert Formation.Compatible(prospective, s.book.demands, s.genders);
    assert Roster(after.groups[g].members) == prospective;
  }

  lemma JoinRespected(s: State, user: UserId, g: GroupId, d: DemandId, env: Env)
    requires BookInv(s.book) && AllRespected(s.book, s.genders) &&
             Formation.JoinGroup(s.book, s.genders, user, g, d, env).Ok?
    ensures AllRespected(Formation.JoinGroup(s.book, s.genders, user, g, d, env).value, s.genders)
  {
    hide BookInv, GroupInv, Coupled, Respected, Formation.JoinGroup;
    var after := Formation.JoinGroup(s.book, s.genders, user, g, d, env).value;
    if Formation.AlreadyIn(s.book, g, d) {
      BookProofs.RejoinSame(s, user, g, d, env);
    } else {
      BookProofs.JoinOutcome(s, user, g, d, env);
      JoinedRespected(s, user, g, d, env);
      forall h | h in after.groups && h != g ensures Respected(after, s.genders, h) {
        ListedDemands(s.book, h);
        PartRespected(s.book, after, s.genders, h);
      }
    }
  }

  lemma StepRespected(s: State, step: Step)
    requires BookInv(s.book) && AllRespected(s.book, s.genders)
    ensures AllRespected(Next(s, step).book, s.genders) && Next(s, step).genders == s.genders
  {
    hide BookInv, AllRespected, LocalChange, WorkerStep, Formation.Commit, Formation.CreateDemand,
      Formation.CancelDemand, Formation.JoinGroup;
    WorkerGenders(s, step);
    if Exec(s, step).Ok? {
      if step.CreateDemand? {
        CreateRespected(s.book, s.genders, step.demand, step.d, step.g, step.enabled, step.env);
      } else if step.CancelDemand? {
        CancelRespected(s.book, s.genders, step.user, step.d);
      } else if step.JoinGroup? {
        JoinRespected(s, step.user, step.g, step.d, step.env);
      } else if IsLocal(step) {
        LocalRespected(s, step);
      } else if !step.ReadContacts? {
        WorkerRespected(s, step);
      }
    }
  }

  lemma WorkerGenders(s: State, step: Step)
    ensures WorkerStep(s, step).Ok? ==> WorkerStep(s, step).value.genders == s.genders
  {
    hide Payment.ClaimRefund, Payment.RestoreRefund, Payment.FinishRefund;
  }

  lemma {:induction false} RunRespected(genders: Formation.Genders, steps: seq<Step>)
    ensures AllRespected(After(genders, steps).book, genders) && After(genders, steps).genders == genders
  {
    hide AllRespected, Next, Inv;
    if steps == [] {
      NobodyYet(genders);
    } else {
      var n := |steps| - 1;
      RunRespected(genders, steps[..n]);
      Safety.RunInv(genders, steps[..n]);
      BookOf(After(genders, steps[..n]));
      StepRespected(After(genders, steps[..n]), steps[n]);
    }
  }

  lemma BookOf(s: State)
    requires Inv(s)
    ensures BookInv(s.book)
  {
  }

  lemma NobodyYet(genders: Formation.Genders)
    ensures AllRespected(Empty.(genders := genders).book, genders)
  {
  }

  /**
   * In every reachable state, any member of a group of two or more who asked for companions of the same
   * gender has declared one, and every member of the group has declared the same.
   */
  lemma PreferencesHold(genders: Formation.Genders, steps: seq<Step>, g: GroupId, d: DemandId, e: DemandId)
    requires var book := After(genders, steps).book;
             && g in book.groups && d in Roster(book.groups[g].members) && e in Roster(book.groups[g].members) && d != e
             && d in book.demands && book.demands[d].preference.SAME_GENDER_ONLY?
    ensures var roster := Roster(After(genders, steps).book.groups[g].members);
            && Formation.GenderOf(genders, roster[d].user) != GroupingRules.UNDISCLOSED
            && Formation.GenderOf(genders, roster[e].user) == Formation.GenderOf(genders, roster[d].user)
  {
    hide Run;
    RunRespected(genders, steps);
    var roster := Roster(After(genders, steps).book.groups[g].members);
    SubsetSize({d, e}, roster.Keys);
    assert Respected(After(genders, steps).book, genders, g);
  }

  // ----- from the request --------------------------------------------------------------------

  /** What a user asked for; no later step touches it. */
  predicate SameRequest(before: Demand, after: Demand) {
    && after.user == before.user && after.route == before.route && after.window == before.window
    && after.seats == before.seats && after.preference == before.preference
  }

  ghost predicate RequestsKept(before: Book, after: Book) {
    forall d :: d in before.demands ==> d in after.demands && SameRequest(before.demands[d], after.demands[d])
  }

  lemma StepRequests(s: State, step: Step)
    ensures RequestsKept(s.book, Next(s, step).book)
  {
    hide LocalChange, WorkerStep, Formation.CreateDemand, Formation.CancelDemand, Formation.JoinGroup;
    if Exec(s, step).Ok? {
      if step.CreateDemand? {
        CreateRequests(s.book, step);
      } else if step.CancelDemand? {
        CancelRequests(s.book, step.user, step.d);
      } else if step.JoinGroup? {
        JoinRequests(s, step);
      } else if !IsLocal(step) && !step.ReadContacts? {
        WorkerRequests(s, step);
      }
    }
  }

  lemma CreateRequests(book: Book, step: Step)
    requires step.CreateDemand?
    ensures var after := Formation.CreateDemand(book, step.demand, step.d, step.g, step.enabled, step.env);
            after.Ok? ==> RequestsKept(book, after.value)
  {
  }

  lemma CancelRequests(book: Book, user: UserId, d: DemandId)
    ensures var after := Formation.CancelDemand(book, user, d); after.Ok? ==> RequestsKept(book, after.value)
  {
    hide Formation.Recompute;
  }

  lemma JoinRequests(s: State, step: Step)
    requires step.JoinGroup?
    ensures var after := Formation.JoinGroup(s.book, s.genders, step.user, step.g, step.d, step.env);
            after.Ok? ==> RequestsKept(s.book, after.value)
  {
    hide Fits, Formation.Compatible, Formation.Transferable, Formation.OverlappingRows, Formation.Vacate;
  }

  lemma WorkerRequests(s: State, step: Step)
    ensures WorkerStep(s, step).Ok? ==> WorkerStep(s, step).value.book.demands == s.book.demands
  {
    hide Payment.ClaimRefund, Payment.RestoreRefund, Payment.FinishRefund;
  }

  /** A demand keeps its user, route, window, seats and preference over any run. */
  lemma {:induction false} RequestedForever(s: State, steps: seq<Step>)
    ensures RequestsKept(s.book, Run(s, steps).book)
  {
    hide Next;
    if steps != [] {
      var n := |steps| - 1;
      RequestedForever(s, steps[..n]);
      StepRequests(Run(s, steps[..n]), steps[n]);
    }
  }

  /**
   * Whoever asked for companions of the same gender, when creating a demand, and shares a group through it has declared
   * a gender, and so has everybody else in the group, the same one.
   */
  lemma RequestedPreferencesHold(genders: Formation.Genders, first: seq<Step>, request: Step, more: seq<Step>,
                                 g: GroupId,
                                 e: DemandId)
    requires request.CreateDemand? && request.demand.preference.SAME_GENDER_ONLY?
    requires Exec(After(genders, first), request).Ok?
    requires var book := After(genders, first + [request] + more).book;
             && g in book.groups && request.d in Roster(book.groups[g].members) && e in Roster(book.groups[g].members)
             && e != request.d
    ensures var other := After(genders, first + [request] + more).book.groups[g].members[e].user;
            && request.demand.user in genders && genders[request.demand.user] != GroupingRules.UNDISCLOSED
            && other in genders && genders[other] == genders[request.demand.user]
  {
    hide Run, Exec, Next, Inv;
    var s := After(genders, first);
    var created := After(genders, first + [request]);
    var last := After(genders, first + [request] + more);
    FormationOutcomes.DemandOutcome(s, request.demand, request.d, request.g, request.enabled, request.env);
    assert created == Next(s, request) by { RunLast(genders, first, request); }
    Safety.RunTwice(Empty.(genders := genders), first + [request], more);
    RequestedForever(created, more);
    Safety.RunInv(genders, first + [request] + more);
    OwnRow(last, g, request.d);
    PreferencesHold(genders, first + [request] + more, g, request.d, e);
  }

  lemma RunLast(genders: Formation.Genders, first: seq<Step>, step: Step)
    ensures After(genders, first + [step]) == Next(After(genders, first), step)
  {
    hide Next;
    assert (first + [step])[..|first|] == first;
  }

  /** A membership row belongs to its demand's user. */
  lemma OwnRow(s: State, g: GroupId, d: DemandId)
    requires Inv(s) && g in s.book.groups && d in s.book.groups[g].members
    ensures d in s.book.demands && s.book.groups[g].members[d].user == s.book.demands[d].user
  {
    hide GroupInv, NoClash, GatewayInv, RefundedInv, JobsInv;
    assert DemandInv(s.book, d);
  }
}
