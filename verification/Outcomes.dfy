/** The vocabulary in which the outcome of a step is stated: what else stays as it was. */
module Outcomes {
  import opened Wrappers
  import opened Tables
  import opened Runs
  import Formation

  /** The same demands, but that these have another status. */
  predicate DemandsBecome(before: map<DemandId, Demand>, after: map<DemandId, Demand>, ids: set<DemandId>,
                          status: DemandStatus) {
    && after.Keys == before.Keys
    && forall d :: d in before ==> after[d] == if d in ids then before[d].(status := status) else before[d]
  }

  /** Nothing changes but this group and the status of these demands. */
  predicate OnlyGroup(s: State, t: State, g: GroupId, ids: set<DemandId>, status: DemandStatus) {
    && g in s.book.groups && g in t.book.groups
    && t == s.(book := t.book)
    && t.book.groups == s.book.groups[g := t.book.groups[g]]
    && DemandsBecome(s.book.demands, t.book.demands, ids, status)
  }

  /** Of the group, only its state, its members and this round change. */
  predicate OnlyRound(before: Group, after: Group, i: nat) {
    && after.route == before.route && after.window == before.window
    && i < |before.rounds| == |after.rounds|
    && forall k :: 0 <= k < |before.rounds| && k != i ==> after.rounds[k] == before.rounds[k]
  }

  /** Membership rows keep their users and seats. */
  predicate SameRows(before: map<DemandId, Member>, after: map<DemandId, Member>) {
    after.Keys == before.Keys && forall d :: d in before ==> after[d] == before[d].(status := after[d].status)
  }

  /** What was agreed in a round stays: members, policy, deadlines, decisions and unlocks. */
  predicate SameTerms(before: Round, after: Round) {
    && after.snapshot == before.snapshot && after.policy == before.policy && after.confirmBy == before.confirmBy
    && after.payBy == before.payBy && after.decisions == before.decisions && after.unlocks == before.unlocks
  }

  lemma Changes(s: State, step: Step, change: Formation.Change)
    requires IsLocal(step) && step.g in s.book.groups && LocalChange(s, step) == Ok(change)
    ensures Exec(s, step).Ok? && Next(s, step).book.groups == s.book.groups[step.g := change.group]
    ensures OnlyGroup(s, Next(s, step), step.g, change.released, ReleasedAs(step))
  {
    hide LocalChange;
  }

  lemma Fails(s: State, step: Step)
    requires IsLocal(step) && (step.g in s.book.groups ==> LocalChange(s, step).Err?)
    ensures Exec(s, step).Err? && Next(s, step) == s
  {
    hide LocalChange;
  }

  lemma NoDemand(s: State, t: State, g: GroupId, status: DemandStatus)
    requires OnlyGroup(s, t, g, {}, status)
    ensures t.book.demands == s.book.demands
    ensures t.book.groups[g] == s.book.groups[g] ==> t == s
  {
    assert t.book.groups[g] == s.book.groups[g] ==> t.book.groups == s.book.groups;
  }
}
