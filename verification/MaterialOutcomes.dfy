/** What each request about verification material achieves, and exactly when. */
module MaterialOutcomes {
  import opened Wrappers
  import opened AssetDeletion
  import opened MaterialSafety

  /** Only this verification changes. */
  predicate OnlyVerification(s: State, t: State, v: VerificationId) {
    v in t.verifications && t == s.(verifications := s.verifications[v := t.verifications[v]])
  }

  /** Every row that is neither deleted nor claimed gets this deadline; nothing else about the rows changes. */
  predicate LiveRowsDue(before: Assets, after: Assets, deadline: int) {
    && after.Keys == before.Keys
    && forall k :: k in before ==>
         after[k] == if before[k].deletedAt.None? && before[k].claimedAt.None?
                     then before[k].(deleteAfter := Some(deadline)) else before[k]
  }

  predicate StatusIs(s: State, v: VerificationId, status: Status) {
    v in s.verifications && s.verifications[v].status == status
  }

  // ----- reviews -----------------------------------------------------------------------------

  /**
   * A review is accepted exactly for a verification that is pending, for the first time or again. It is then verified
   * if approved, rejected if rejected, and to be submitted again if that was required; its live rows are kept for one
   * more day.
   */
  lemma ReviewOutcome(s: State, v: VerificationId, decision: Decision, now: int)
    ensures var t := Next(s, Review(v, decision, now));
            if && now <= s.clock && (StatusIs(s, v, PENDING) || StatusIs(s, v, RESUBMISSION_PENDING))
               && forall k :: k in s.verifications[v].assets && Live(s.verifications[v].assets[k]) ==>
                    s.verifications[v].assets[k].uploadExpiresAt <= now + 86400000
            then
              && OnlyVerification(s, t, v)
              && (StatusIs(t, v, VERIFIED) <==> decision == APPROVE)
              && (StatusIs(t, v, REJECTED) <==> decision == REJECT)
              && (StatusIs(t, v, REQUIRE_RESUBMISSION) <==> decision == REQUIRE)
              && LiveRowsDue(s.verifications[v].assets, t.verifications[v].assets, now + 86400000)
            else t == s
  {
    if v in s.verifications {
      LiveAre(s.verifications[v].assets);
    }
  }

  lemma LiveAre(assets: Assets)
    ensures forall k :: k in LiveKinds(assets) <==> k in assets && Live(assets[k])
  {
  }

  /** The status a step gives a verification. */
  predicate Becomes(before: Option<Status>, after: Status, step: Step, v: VerificationId) {
    match after
    case AWAITING_UPLOAD =>
      step.Create? && step.v == v &&
      (before.None? || before == Some(REJECTED) || before == Some(VERIFICATION_EXPIRED))
    case RESUBMISSION_AWAITING_UPLOAD =>
      step.CreateResubmission? && step.v == v && before == Some(REQUIRE_RESUBMISSION)
    case UPLOAD_EXPIRED => step.ExpireUploads? && before == Some(AWAITING_UPLOAD)
    case PENDING => step.Submit? && before == Some(AWAITING_UPLOAD)
    case RESUBMISSION_PENDING => step.Submit? && before == Some(RESUBMISSION_AWAITING_UPLOAD)
    case VERIFIED => Reviews(before, step, v, APPROVE)
    case REJECTED => Reviews(before, step, v, REJECT)
    case REQUIRE_RESUBMISSION => Reviews(before, step, v, REQUIRE)
    case VERIFICATION_EXPIRED => step.CredentialExpires? && step.v == v && before == Some(VERIFIED)
  }

  predicate Reviews(before: Option<Status>, step: Step, v: VerificationId, decision: Decision) {
    && step.Review? && step.v == v && step.decision == decision
    && (before == Some(PENDING) || before == Some(RESUBMISSION_PENDING))
  }

  function StatusOf(s: State, v: VerificationId): Option<Status> {
    if v in s.verifications then Some(s.verifications[v].status) else None
  }

  /** A verification's status changes only along its life cycle, and each change is due to its own kind of step. */
  lemma StatusHasCause(s: State, step: Step, v: VerificationId)
    requires StatusOf(Next(s, step), v) != StatusOf(s, v)
    ensures v in Next(s, step).verifications && Becomes(StatusOf(s, v), Next(s, step).verifications[v].status, step, v)
  {
    hide Next;
    if Rowless(step) {
      RowlessSame(s, step);
    } else if step.Claim? || step.MarkDeleted? || step.ReleaseClaim? {
      JobKeepsStatus(s, step, v);
    } else {
      RequestMovesStatus(s, step, v);
    }
  }

  lemma JobKeepsStatus(s: State, step: Step, v: VerificationId)
    requires step.Claim? || step.MarkDeleted? || step.ReleaseClaim?
    ensures StatusOf(Next(s, step), v) == StatusOf(s, v)
  {
    hide Reissue, FreshKeys, LiveKinds, Due, Record, Deadline, DeadlineAllowed, RetireAllowed;
  }

  lemma RequestMovesStatus(s: State, step: Step, v: VerificationId)
    requires step.Create? || step.CreateResubmission? || step.ExpireUploads? || step.Submit? || step.Review? ||
             step.CredentialExpires?
    requires StatusOf(Next(s, step), v) != StatusOf(s, v)
    ensures v in Next(s, step).verifications && Becomes(StatusOf(s, v), Next(s, step).verifications[v].status, step, v)
  {
    hide Replace, Retired, NewEvents, FreshKeys, RetireAllowed, DeadlineAllowed, Record, Deadline, LiveKinds;
  }

  /** A verified student was approved while a submission was pending, and has been verified ever since. */
  predicate ApprovedAt(steps: seq<Step>, k: nat, v: VerificationId) {
    && k < |steps| && Reviews(StatusOf(Run(Empty, steps[..k]), v), steps[k], v, APPROVE)
    && forall j :: k < j <= |steps| ==> StatusIs(Run(Empty, steps[..j]), v, VERIFIED)
  }

  lemma {:induction false} VerifiedByApproval(steps: seq<Step>, v: VerificationId)
    requires StatusIs(Run(Empty, steps), v, VERIFIED)
    ensures exists k: nat :: ApprovedAt(steps, k, v)
  {
    hide Next;
    assert steps != [] by { NobodyVerified(v); }
    var n := |steps| - 1;
    var s := Run(Empty, steps[..n]);
    assert steps[..n + 1] == steps;
    if StatusIs(s, v, VERIFIED) {
      VerifiedByApproval(steps[..n], v);
      var k: nat :| ApprovedAt(steps[..n], k, v);
      assert steps[..n][..k] == steps[..k];
      forall j | k < j <= |steps| ensures StatusIs(Run(Empty, steps[..j]), v, VERIFIED) {
        if j <= n {
          assert steps[..n][..j] == steps[..j];
        }
      }
      assert ApprovedAt(steps, k, v);
    } else {
      StatusHasCause(s, steps[n], v);
      assert ApprovedAt(steps, n, v);
    }
  }

  lemma NobodyVerified(v: VerificationId)
    ensures !StatusIs(Run(Empty, []), v, VERIFIED)
  {
  }

  // ----- issuing and submitting --------------------------------------------------------------

  /** New keys, one for each upload. */
  predicate NewKeys(s: State, uploads: map<AssetType, Key>) {
    && uploads != map[] && (forall k :: k in uploads ==> uploads[k] !in s.issued)
    && forall k, l :: k in uploads && l in uploads && k != l ==> uploads[k] != uploads[l]
  }

  /** The rows of a new draft: fifteen minutes for each upload, and the end of every row that is not replaced. */
  predicate Issues(before: Assets, after: Assets, uploads: map<AssetType, Key>, now: int) {
    && after.Keys == before.Keys + uploads.Keys
    && (forall k :: k in uploads ==>
          after[k] == Asset(uploads[k], now + 900000, Some(now + 900000), None, None, false))
    && forall k :: k in before && k !in uploads ==>
         after[k] == before[k].(deleteAfter := Some(now), claimedAt := None, deletedAt := Some(now))
  }

  /** Exactly the objects of undeleted rows are given up to delete events. */
  ghost predicate GivesUp(s: State, t: State, before: Assets) {
    forall key ::
      if exists k :: k in before && before[k].deletedAt.None? && before[k].objectKey == key
      then key in t.events && !t.events[key]
      else (key in t.events <==> key in s.events) && (key in s.events ==> t.events[key] == s.events[key])
  }

  predicate RowsEnded(before: Assets, uploads: map<AssetType, Key>, now: int) {
    forall k :: k in before && k !in uploads ==> before[k].uploadExpiresAt <= now
  }

  function AssetsOf(s: State, v: VerificationId): Assets {
    if v in s.verifications then s.verifications[v].assets else map[]
  }

  /**
   * A draft is created exactly for new keys, by a user without a verification or after a rejection or expiry; a
   * resubmission exactly after it was required. Either waits for its uploads then.
   */
  lemma CreateOutcome(s: State, v: VerificationId, uploads: map<AssetType, Key>, now: int, again: bool)
    ensures var t := Next(s, if again then CreateResubmission(v, uploads, now) else Create(v, uploads, now));
            var before := AssetsOf(s, v);
            if && now <= s.clock && NewKeys(s, uploads) && RowsEnded(before, uploads, now)
               && (if again then StatusIs(s, v, REQUIRE_RESUBMISSION)
                   else v !in s.verifications || StatusIs(s, v, REJECTED) || StatusIs(s, v, VERIFICATION_EXPIRED))
            then
              && StatusIs(t, v, if again then RESUBMISSION_AWAITING_UPLOAD else AWAITING_UPLOAD)
              && Issues(before, t.verifications[v].assets, uploads, now) && GivesUp(s, t, before)
              && t == s.(verifications := s.verifications[v := t.verifications[v]], events := t.events,
                         issued := t.issued)
              && t.issued == s.issued + uploads.Values
            else t == s
  {
    hide Replace, Retired, NewEvents, GivesUp;
    var before := AssetsOf(s, v);
    ReplaceIssues(before, uploads, now);
    RetiredGivesUp(s, before);
  }

  lemma ReplaceIssues(before: Assets, uploads: map<AssetType, Key>, now: int)
    ensures Issues(before, Replace(before, uploads, now), uploads, now)
  {
  }

  lemma RetiredGivesUp(s: State, before: Assets)
    ensures forall t: State :: t.events == s.events + NewEvents(Retired(before)) ==> GivesUp(s, t, before)
  {
    forall t: State | t.events == s.events + NewEvents(Retired(before)) ensures GivesUp(s, t, before) {
    }
  }

  /** Exactly these kinds are live. */
  predicate LiveAreExactly(assets: Assets, kinds: set<AssetType>) {
    forall k :: k in kinds <==> k in assets && Live(assets[k])
  }

  /**
   * A submission that read an unexpired draft is recorded exactly if the live rows are still those it read and the
   * draft still waits: the first time it is pending, after a request to resubmit it is pending again. Its live rows
   * are submitted and kept without a deadline; the request is over in any case.
   */
  lemma SubmitOutcome(s: State, r: RequestId)
    requires r in s.submissions && !s.submissions[r].expired && s.submissions[r].v in s.verifications
    ensures var t := Next(s, Submit(r));
            var v := s.submissions[r].v;
            var closed := s.(submissions := s.submissions - {r});
            var before := s.verifications[v].assets;
            if LiveAreExactly(before, s.submissions[r].kinds) &&
               (StatusIs(s, v, AWAITING_UPLOAD) || StatusIs(s, v, RESUBMISSION_AWAITING_UPLOAD))
            then
              && OnlyVerification(closed, t, v)
              && (StatusIs(t, v, PENDING) <==> StatusIs(s, v, AWAITING_UPLOAD))
              && (StatusIs(t, v, RESUBMISSION_PENDING) <==> StatusIs(s, v, RESUBMISSION_AWAITING_UPLOAD))
              && t.verifications[v].assets.Keys == before.Keys
              && forall k :: k in before ==>
                   t.verifications[v].assets[k] ==
                   if Live(before[k]) then before[k].(deleteAfter := None, submitted := true) else before[k]
            else t == closed
  {
    LiveAre(s.verifications[s.submissions[r].v].assets);
  }

  /**
   * A row is claimed exactly when it is due: past its deadline, undeleted, and not claimed in the last five minutes.
   */
  lemma ClaimOutcome(s: State, w: WorkerId, v: VerificationId, kind: AssetType, key: Key, now: int)
    ensures var t := Next(s, Claim(w, v, kind, key, now));
            if && now <= s.clock && w !in s.jobs && kind in AssetsOf(s, v) && AssetsOf(s, v)[kind].objectKey == key
               && var row := AssetsOf(s, v)[kind];
                  && row.deletedAt.None? && row.deleteAfter.Some? && row.deleteAfter.value <= now
                  && (row.claimedAt.None? || row.claimedAt.value + 300000 <= now)
            then
              && t == s.(verifications := t.verifications, jobs := s.jobs[w := Job(v, kind, key, now, CLAIMED)])
              && v in t.verifications && t.verifications == s.verifications[v := t.verifications[v]]
              && t.verifications[v] == s.verifications[v].(
                   assets := s.verifications[v].assets[kind := AssetsOf(s, v)[kind].(claimedAt := Some(now))])
            else t == s
  {
  }

  /** A submission reads the live rows as they are; it fails from then on if one of them has expired. */
  lemma ReadOutcome(s: State, r: RequestId, v: VerificationId, kinds: set<AssetType>, now: int)
    ensures var t := Next(s, ReadForSubmit(r, v, kinds, now));
            if now <= s.clock && r !in s.submissions && v in s.verifications && kinds != {} &&
               LiveAreExactly(s.verifications[v].assets, kinds)
            then
              && r in t.submissions && t == s.(submissions := s.submissions[r := t.submissions[r]])
              && t.submissions[r].v == v && t.submissions[r].kinds == kinds && t.submissions[r].now == now
              && (t.submissions[r].expired <==>
                  exists k :: k in kinds && s.verifications[v].assets[k].uploadExpiresAt <= now)
            else t == s
  {
    if v in s.verifications {
      var assets := s.verifications[v].assets;
      LiveAre(assets);
      if LiveAreExactly(assets, kinds) {
        assert kinds == LiveKinds(assets);
      }
    }
  }

  /**
   * A submission of an expired draft ends the draft if it had never been submitted, and puts the time of the request
   * as a deadline on every live row, whatever the status; for a resubmission that still waits it achieves nothing.
   */
  lemma ExpireOutcome(s: State, r: RequestId)
    requires r in s.submissions && s.submissions[r].expired && s.submissions[r].v in s.verifications
    ensures var t := Next(s, ExpireUploads(r));
            var v := s.submissions[r].v;
            var now := s.submissions[r].now;
            var before := s.verifications[v].assets;
            var closed := s.(submissions := s.submissions - {r});
            if StatusIs(s, v, RESUBMISSION_AWAITING_UPLOAD) ||
               exists k :: k in before && Live(before[k]) && now < before[k].uploadExpiresAt
            then t == closed
            else
              && OnlyVerification(closed, t, v)
              && StatusIs(t, v, if StatusIs(s, v, AWAITING_UPLOAD) then UPLOAD_EXPIRED else s.verifications[v].status)
              && LiveRowsDue(before, t.verifications[v].assets, now)
  {
    LiveAre(s.verifications[s.submissions[r].v].assets);
  }

  /** The worker still has the row it claimed. */
  predicate StillClaims(s: State, w: WorkerId) {
    && w in s.jobs && s.jobs[w].kind in AssetsOf(s, s.jobs[w].v)
    && var row := AssetsOf(s, s.jobs[w].v)[s.jobs[w].kind];
       row.objectKey == s.jobs[w].key && row.deletedAt.None? && row.claimedAt == Some(s.jobs[w].now)
  }

  /** Only this row changes. */
  predicate OnlyRow(s: State, t: State, v: VerificationId, kind: AssetType, row: Asset) {
    && v in s.verifications
    && t == s.(verifications := s.verifications[v := s.verifications[v].(
         assets := s.verifications[v].assets[kind := row])])
  }

  /** A delete takes exactly the claimed row's object out of the store, or leaves everything if it fails. */
  lemma DeleteOutcome(s: State, w: WorkerId, succeeds: bool)
    ensures var t := Next(s, DeleteObject(w, succeeds));
            if w in s.jobs && s.jobs[w].phase == CLAIMED
            then
              && t == s.(store := t.store,
                         jobs := s.jobs[w := s.jobs[w].(phase := if succeeds then ERASED else FAILED)])
              && t.store == if succeeds then s.store - {s.jobs[w].key} else s.store
            else t == s
  {
  }

  /**
   * Recording a deletion marks the row the worker still claims as deleted when it was claimed; giving it up frees the
   * row. A worker that has lost its claim changes no row.
   */
  lemma RecordOutcome(s: State, w: WorkerId, marks: bool)
    ensures var t := Next(s, if marks then MarkDeleted(w) else ReleaseClaim(w));
            var done := s.(jobs := s.jobs - {w});
            if w in s.jobs && (if marks then s.jobs[w].phase == ERASED else s.jobs[w].phase != CLAIMED)
            then
              if StillClaims(s, w)
              then
                var row := AssetsOf(s, s.jobs[w].v)[s.jobs[w].kind];
                OnlyRow(done, t, s.jobs[w].v, s.jobs[w].kind,
                        row.(claimedAt := None, deletedAt := if marks then Some(s.jobs[w].now) else None))
              else t == done
            else t == s
  {
  }

  /**
   * A pending event is listed; its object is erased once; then the event is published, or given up and listed again.
   */
  lemma EventOutcome(s: State, l: ListingId, key: Key)
    ensures Next(s, ListEvent(l, key)) ==
            if l !in s.listed && key in s.events && !s.events[key]
            then s.(listed := s.listed[l := Listing(key, false)]) else s
    ensures l in s.listed && !s.listed[l].gone ==>
              && Next(s, EraseEvent(l)).store == s.store - {s.listed[l].key}
              && Next(s, EraseEvent(l)).listed == s.listed[l := Listing(s.listed[l].key, true)]
              && Next(s, PublishEvent(l)) == s
    ensures l in s.listed && s.listed[l].gone && s.listed[l].key in s.events ==>
              && Next(s, EraseEvent(l)) == s
              && Next(s, PublishEvent(l)).events == s.events[s.listed[l].key := true]
              && Next(s, PublishEvent(l)).listed == s.listed - {l}
    ensures Next(s, FailEvent(l)) == s.(listed := s.listed - {l})
  {
  }

  // ----- a verified student ------------------------------------------------------------------

  const APPROVED: seq<Step> := [
    Create(1, map[STUDENT_CARD := 7], 0), Upload(7), ReadForSubmit(1, 1, {STUDENT_CARD}, 0), Submit(1),
    Review(1, APPROVE, 0), CredentialExpires(1)
  ]

  /** Five steps from the empty state to a verified student, and one more to an expired one. */
  lemma StudentIsVerified()
    ensures StatusIs(Run(Empty, APPROVED[..4]), 1, PENDING)
    ensures StatusIs(Run(Empty, APPROVED[..5]), 1, VERIFIED)
    ensures StatusIs(Run(Empty, APPROVED), 1, VERIFICATION_EXPIRED)
  {
    hide Next, Draft, Card;
    assert APPROVED[..0] == [] && APPROVED[..6] == APPROVED;
    var s1 := Draft(AWAITING_UPLOAD, Card(Some(900000), None, None, false)).(store := {});
    var s2 := s1.(store := {7});
    var s3 := s2.(submissions := map[1 := Submission(1, {STUDENT_CARD}, 0, false)]);
    var s4 := Draft(PENDING, Card(None, None, None, true));
    Submitting(s1, s2, s3, s4);
    RunNext(APPROVED, 0, Empty, s1);
    RunNext(APPROVED, 1, s1, s2);
    RunNext(APPROVED, 2, s2, s3);
    RunNext(APPROVED, 3, s3, s4);
    RunNext(APPROVED, 4, s4, Next(s4, APPROVED[4]));
    RunNext(APPROVED, 5, Next(s4, APPROVED[4]), Next(Next(s4, APPROVED[4]), APPROVED[5]));
    Approving(s4);
  }

  lemma Approving(s4: State)
    requires s4 == Draft(PENDING, Card(None, None, None, true))
    ensures StatusIs(s4, 1, PENDING) && StatusIs(Next(s4, APPROVED[4]), 1, VERIFIED)
    ensures StatusIs(Next(Next(s4, APPROVED[4]), APPROVED[5]), 1, VERIFICATION_EXPIRED)
  {
    hide Deadline, LiveKinds;
    CardRows(None, true, 86400000);
  }
}
