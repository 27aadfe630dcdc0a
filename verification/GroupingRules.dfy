/** packages/domain/src/index.ts: who may share a group. */
module GroupingRules {
  import opened Wrappers

  /** User ids are numbers here; 0 stands for the empty text the domain rejects. */
  datatype Gender = MALE | FEMALE | UNDISCLOSED
  datatype Preference = ANY | SAME_GENDER_ONLY
  datatype RecruitState = EXPIRED | RECRUITING | READY
  datatype GroupingMember = GroupingMember(userId: nat, seatCount: int, gender: Gender, preference: Preference)
  datatype GroupingSummary =
    GroupingSummary(accountCount: nat, occupiedSeats: int, remainingSeats: int, state: RecruitState)

  function Tally(accounts: nat): RecruitState {
    if accounts == 0 then EXPIRED else if accounts == 1 then RECRUITING else READY
  }

  function Seats(members: seq<GroupingMember>): int {
    if members == [] then 0 else Seats(members[..|members| - 1]) + members[|members| - 1].seatCount
  }

  predicate Distinct(members: seq<GroupingMember>) {
    forall i, j :: 0 <= i < j < |members| ==> members[i].userId != members[j].userId
  }

  predicate WellFormed(member: GroupingMember) {
    member.userId != 0 && 1 <= member.seatCount <= 3
  }

  predicate Admissible(members: seq<GroupingMember>) {
    (forall i :: 0 <= i < |members| ==> WellFormed(members[i])) && Distinct(members) && Seats(members) <= 4
  }

  lemma NothingCounted(members: seq<GroupingMember>)
    ensures Seats(members[..0]) == 0 && UserIdsOf({}, members, 0) && Distinct(members[..0])
  {
  }

  lemma SeatsNext(members: seq<GroupingMember>, i: nat)
    requires i < |members|
    ensures Seats(members[..i + 1]) == Seats(members[..i]) + members[i].seatCount
  {
    assert members[..i + 1][..i] == members[..i];
  }

  ghost predicate UserIdsOf(userIds: set<nat>, members: seq<GroupingMember>, i: nat)
    requires i <= |members|
  {
    forall u :: u in userIds <==> exists j :: 0 <= j < i && members[j].userId == u
  }

  lemma UserIdsNext(userIds: set<nat>, members: seq<GroupingMember>, i: nat)
    requires i < |members| && UserIdsOf(userIds, members, i)
    ensures UserIdsOf(userIds + {members[i].userId}, members, i + 1)
    ensures members[i].userId in userIds ==> !Distinct(members)
    ensures members[i].userId !in userIds && Distinct(members[..i]) ==> Distinct(members[..i + 1])
  {
  }

  /** Throws exactly on a list that is not admissible, and otherwise counts it. */
  method SummarizeGroupingMembers(members: seq<GroupingMember>) returns (summary: Result<GroupingSummary>)
    ensures summary == Err(VALIDATION_ERROR) || summary.Ok?
    ensures summary.Ok? <==> Admissible(members)
    ensures summary.Ok? ==>
              summary.value == GroupingSummary(|members|, Seats(members), 4 - Seats(members), Tally(|members|))
  {
    hide Seats, UserIdsOf, Distinct;
    var userIds: set<nat> := {};
    var occupiedSeats := 0;
    NothingCounted(members);
    for i := 0 to |members|
      invariant |userIds| == i && UserIdsOf(userIds, members, i)
      invariant forall j :: 0 <= j < i ==> WellFormed(members[j])
      invariant Distinct(members[..i])
      invariant occupiedSeats == Seats(members[..i])
    {
      var member := members[i];
      SeatsNext(members, i);
      UserIdsNext(userIds, members, i);
      if member.userId == 0 || member.userId in userIds {
        return Err(VALIDATION_ERROR);
      }
      if member.seatCount < 1 || member.seatCount > 3 {
        return Err(VALIDATION_ERROR);
      }
      userIds := userIds + {member.userId};
      occupiedSeats := occupiedSeats + member.seatCount;
    }
    assert members[..|members|] == members;
    if occupiedSeats > 4 {
      return Err(VALIDATION_ERROR);
    }
    return Ok(GroupingSummary(|userIds|, occupiedSeats, 4 - occupiedSeats,
                              if |userIds| == 0 then EXPIRED else if |userIds| == 1 then RECRUITING else READY));
  }

  /** The preference check, with the first listed member as the reference. */
  predicate IsGenderPreferenceCompatible(members: seq<GroupingMember>) {
    var constrained := exists i :: 0 <= i < |members| && members[i].preference == SAME_GENDER_ONLY;
    !constrained ||
    (members[0].gender != UNDISCLOSED &&
     forall i :: 0 <= i < |members| ==> members[i].gender == members[0].gender)
  }

  /** Which member is listed first does not matter: the check is symmetric between any two members. */
  lemma CompatibleIsSymmetric(members: seq<GroupingMember>)
    ensures IsGenderPreferenceCompatible(members) <==>
            forall i, j :: 0 <= i < |members| && 0 <= j < |members| && members[i].preference == SAME_GENDER_ONLY ==>
              members[i].gender != UNDISCLOSED && members[j].gender == members[i].gender
  {
    if i, j :| 0 <= i < |members| && 0 <= j < |members| && members[i].preference == SAME_GENDER_ONLY &&
               (members[i].gender == UNDISCLOSED || members[j].gender != members[i].gender) {
      assert members[i].gender == members[0].gender ==>
               members[j].gender != members[0].gender || members[0].gender == UNDISCLOSED;
    }
  }

  method AssertFormationReady(members: seq<GroupingMember>) returns (summary: Result<GroupingSummary>)
    ensures summary.Ok? <==> Admissible(members) && |members| >= 2 && IsGenderPreferenceCompatible(members)
    ensures summary.Err? ==>
              (summary.error == GENDER_PREFERENCE_INCOMPATIBLE <==> Admissible(members) && |members| >= 2)
    ensures summary.Ok? ==> summary.value.state == READY && summary.value.occupiedSeats == Seats(members)
  {
    summary := SummarizeGroupingMembers(members);
    if summary.Err? {
      return;
    }
    if summary.value.state != READY {
      return Err(FORMATION_NOT_READY);
    }
    if !IsGenderPreferenceCompatible(members) {
      return Err(GENDER_PREFERENCE_INCOMPATIBLE);
    }
  }
}
