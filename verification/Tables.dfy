/**
 * The rows of the grouping and payment tables, each stored under the row that owns it.
 *
 * Nesting stands for the unique keys of packages/database/prisma/schema.prisma: a membership row is
 * kept under its demand id (demandId is unique), the k-th round of a group is the one with sequence
 * k + 1, and confirmations, consents, orders and refunds are kept under their user within their round.
 */
module Tables {
  import opened Wrappers
  import GroupingRules

  type UserId = n: nat | 0 < n witness 1
  type DemandId = nat
  type GroupId = nat

  datatype Window = Window(start: int, end: int)

  /** packages/domain/src/index.ts: half-open windows share an instant. */
  predicate Overlap(left: Window, right: Window) {
    left.start < right.end && right.start < left.end
  }

  datatype DemandStatus = OPEN | GROUPED | CANCELLED | EXPIRED
  datatype GroupState =
    | RECRUITING | READY | CONFIRMING | PAYING | REFUNDING | REFUND_RETRY | CONTACTS_UNLOCKED | EXPIRED
  datatype MemberStatus =
    | JOINED | CONFIRMED | PAYMENT_PENDING | PAID | CONTACT_UNLOCKED
    | LEFT | DECLINED | PAYMENT_TIMEOUT | REMOVED
  datatype RoundState = CONFIRMING | PAYING | DELIVERED | REFUNDING | REFUND_RETRY | INVALIDATED
  datatype Decision = ACCEPT | DECLINE
  datatype OrderStatus = CREATED | PAYING | PAID | DELIVERED | CLOSED | REFUND_PENDING | REFUNDED | REFUND_FAILED
  datatype RefundStatus = REQUESTED | REVIEW_REQUIRED | REFUND_PENDING | REFUNDED

  datatype Demand =
    Demand(user: UserId, route: nat, window: Window, seats: int, preference: GroupingRules.Preference,
           status: DemandStatus, home: Option<GroupId>)
  datatype Member = Member(user: UserId, seats: int, status: MemberStatus)
  datatype Seat = Seat(user: UserId, seats: int)
  datatype Consent = Consent(policy: nat, revoked: bool)
  datatype Refund = Refund(amountFen: int, status: RefundStatus, requestedAt: int)

  /** Mock gateway ids are injective in the order, so an order has at most one intent row and one settlement row. */
  datatype Order =
    Order(amountFen: int, expiresAt: int, status: OrderStatus, intent: bool, settled: bool, refund: Option<Refund>)

  /** The snapshot hash is represented by the rows it digests. */
  datatype Round =
    Round(snapshot: map<DemandId, Seat>, policy: nat, state: RoundState, confirmBy: int, payBy: Option<int>,
          decisions: map<UserId, Decision>, consents: map<UserId, Consent>, orders: map<UserId, Order>,
          unlocks: set<(UserId, UserId)>)
  datatype Group =
    Group(route: nat, window: Window, state: GroupState, members: map<DemandId, Member>, rounds: seq<Round>)

  const PRICE_FEN: int := 99
  const CONFIRMATION_LIFETIME_MS: int := 300000
  const PAYMENT_HANDOFF_LIFETIME_MS: int := 300000

  /**
   * What one transaction reads outside these tables: the time the request began, the database's time when it writes,
   * the users who are active, verified and not deleted, those who are active and verified, and those with a contact.
   */
  datatype Env = Env(now: int, at: int, eligible: set<UserId>, deliverable: set<UserId>, contacts: set<UserId>)

  predicate Active(status: MemberStatus) {
    status.JOINED? || status.CONFIRMED? || status.PAYMENT_PENDING? || status.PAID? || status.CONTACT_UNLOCKED?
  }

  predicate Recruitable(state: GroupState) {
    state.RECRUITING? || state.READY?
  }

  /** The states a group holds while one of its rounds is unfinished or delivered. */
  predicate Locked(state: GroupState) {
    !Recruitable(state) && !state.EXPIRED?
  }

  predicate Open(state: RoundState) {
    state.CONFIRMING? || state.PAYING? || state.REFUNDING? || state.REFUND_RETRY?
  }

  function Roster(members: map<DemandId, Member>): map<DemandId, Seat> {
    map d | d in members && Active(members[d].status) :: Seat(members[d].user, members[d].seats)
  }

  /** The rows with one given status, as seats. */
  function Standing(members: map<DemandId, Member>, status: MemberStatus): map<DemandId, Seat> {
    map d | d in members && members[d].status == status :: Seat(members[d].user, members[d].seats)
  }

  function Users(roster: map<DemandId, Seat>): set<UserId> {
    set d | d in roster :: roster[d].user
  }

  /** updateMany where status = from. */
  function Restatus(members: map<DemandId, Member>, from: MemberStatus, to: MemberStatus): map<DemandId, Member> {
    map d | d in members :: if members[d].status == from then members[d].(status := to) else members[d]
  }

  function RevokeAll(consents: map<UserId, Consent>): map<UserId, Consent> {
    map u | u in consents :: consents[u].(revoked := true)
  }

  function Accepted(round: Round): set<UserId> {
    set u | u in round.decisions && round.decisions[u].ACCEPT?
  }

  function Pairs(users: set<UserId>): set<(UserId, UserId)> {
    set viewer, subject | viewer in users && subject in users && viewer != subject :: (viewer, subject)
  }

  function StateOf(summary: GroupingRules.RecruitState): GroupState {
    match summary
    case EXPIRED => GroupState.EXPIRED
    case RECRUITING => GroupState.RECRUITING
    case READY => GroupState.READY
  }

  function Tally(accounts: nat): GroupState {
    StateOf(GroupingRules.Tally(accounts))
  }

  predicate DistinctUsers(roster: map<DemandId, Seat>) {
    forall d, e :: d in roster && e in roster && d != e ==> roster[d].user != roster[e].user
  }

  ghost function SeatSum(roster: map<DemandId, Seat>): int {
    if roster == map[] then 0
    else
      var d :| d in roster;
      roster[d].seats + SeatSum(roster - {d})
  }

  /** The roster summarizeGroupingMembers accepts, in whatever order it is listed. */
  ghost predicate Fits(roster: map<DemandId, Seat>) {
    DistinctUsers(roster) && (forall d :: d in roster ==> 1 <= roster[d].seats <= 3) && SeatSum(roster) <= 4
  }

  lemma FitsDistinct(roster: map<DemandId, Seat>)
    requires Fits(roster)
    ensures DistinctUsers(roster)
  {
  }

  lemma {:induction false} SeatSumWithout(roster: map<DemandId, Seat>, d: DemandId)
    requires d in roster
    ensures SeatSum(roster) == roster[d].seats + SeatSum(roster - {d})
  {
    var e :| e in roster && SeatSum(roster) == roster[e].seats + SeatSum(roster - {e});
    if e != d {
      SeatSumWithout(roster - {e}, d);
      SeatSumWithout(roster - {d}, e);
      assert roster - {e} - {d} == roster - {d} - {e};
    }
  }

  /** A group that loses members still fits. */
  lemma {:induction false} FitsSubset(small: map<DemandId, Seat>, large: map<DemandId, Seat>)
    requires Fits(large)
    requires forall d :: d in small ==> d in large && small[d] == large[d]
    ensures Fits(small)
    decreases |large|
  {
    if d :| d in large && d !in small {
      SeatSumWithout(large, d);
      FitsSubset(small, large - {d});
    } else {
      assert small.Keys == large.Keys;
      assert small == large;
    }
  }

  /** Distinct users make users and rows equally many. */
  lemma RosterSize(roster: map<DemandId, Seat>)
    requires DistinctUsers(roster)
    ensures |Users(roster)| == |roster|
  {
    InjectiveImageSize(roster.Keys, Users(roster), d => if d in roster then roster[d].user else 1);
  }

  /** A roster of at least one seat each holds at most four rows. */
  lemma {:induction false} FitsBound(roster: map<DemandId, Seat>)
    requires forall d :: d in roster ==> 1 <= roster[d].seats
    ensures |roster| <= SeatSum(roster)
  {
    if d :| d in roster {
      SeatSumWithout(roster, d);
      FitsBound(roster - {d});
      assert |roster - {d}| == |roster| - 1 by { assert (roster - {d}).Keys == roster.Keys - {d}; }
    } else {
      assert roster == map[];
    }
  }

  /** A list of rules the services may build from a roster, its rows in whatever order. */
  ghost predicate Lists(ids: seq<DemandId>, rules: seq<GroupingRules.GroupingMember>, roster: map<DemandId, Seat>) {
    |ids| == |rules| &&
    (forall i :: 0 <= i < |ids| ==>
      ids[i] in roster && rules[i].userId == roster[ids[i]].user && rules[i].seatCount == roster[ids[i]].seats) &&
    (forall i, j :: 0 <= i < j < |ids| ==> ids[i] != ids[j]) &&
    (forall d :: d in roster ==> d in ids)
  }

  lemma {:induction false} ListedSeats(
    ids: seq<DemandId>, rules: seq<GroupingRules.GroupingMember>, roster: map<DemandId, Seat>)
    requires Lists(ids, rules, roster)
    ensures |rules| == |roster| && GroupingRules.Seats(rules) == SeatSum(roster)
  {
    if ids == [] {
      assert roster == map[];
    } else {
      hide SeatSum, Lists;
      var n := |ids| - 1;
      ListedButLast(ids, rules, roster);
      ListedSeats(ids[..n], rules[..n], roster - {ids[n]});
      SeatSumWithout(roster, ids[n]);
    }
  }

  lemma ListedButLast(ids: seq<DemandId>, rules: seq<GroupingRules.GroupingMember>, roster: map<DemandId, Seat>)
    requires Lists(ids, rules, roster) && ids != []
    ensures |rules| == |ids|
    ensures var n := |ids| - 1;
            && ids[n] in roster && roster[ids[n]].seats == rules[n].seatCount
            && Lists(ids[..n], rules[..n], roster - {ids[n]}) && |roster - {ids[n]}| == |roster| - 1
  {
    var n := |ids| - 1;
    var rest := roster - {ids[n]};
    forall d | d in rest ensures d in ids[..n] {
      var i :| 0 <= i < |ids| && ids[i] == d;
      assert ids[..n][i] == d;
    }
    assert rest.Keys == roster.Keys - {ids[n]};
  }

  /** The listing order is irrelevant: the domain accepts a listing exactly when the roster fits. */
  lemma ListedFits(ids: seq<DemandId>, rules: seq<GroupingRules.GroupingMember>, roster: map<DemandId, Seat>)
    requires Lists(ids, rules, roster)
    ensures GroupingRules.Admissible(rules) <==> Fits(roster)
    ensures |rules| == |roster|
  {
    ListedSeats(ids, rules, roster);
    if GroupingRules.Admissible(rules) {
      forall d, e | d in roster && e in roster && d != e ensures roster[d].user != roster[e].user {
        var i :| 0 <= i < |ids| && ids[i] == d;
        var j :| 0 <= j < |ids| && ids[j] == e;
        assert rules[i].userId != rules[j].userId;
      }
      forall d | d in roster ensures 1 <= roster[d].seats <= 3 {
        var i :| 0 <= i < |ids| && ids[i] == d;
        assert GroupingRules.WellFormed(rules[i]);
      }
    }
    if Fits(roster) {
      forall i | 0 <= i < |rules| ensures GroupingRules.WellFormed(rules[i]) {
        assert ids[i] in roster;
      }
    }
  }
}
