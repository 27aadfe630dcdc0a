/** Which drafts can still lead to a review: those whose material is not deleted, and in practice not expired. */
module DraftFates {
  import opened Wrappers
  import opened AssetDeletion
  import opened MaterialSafety

  predicate UnderReview(s: State, v: VerificationId) {
    v in s.verifications && Reviewable(s.verifications[v].status)
  }

  /** A draft that still waits for uploads, or whose upload has expired. */
  predicate Unsubmitted(s: State, v: VerificationId) {
    v in s.verifications && (Awaiting(s.verifications[v].status) || s.verifications[v].status.UPLOAD_EXPIRED?)
  }

  predicate Undeleted(s: State, v: VerificationId, t: AssetType) {
    HasRow(s, v, t) && RowOf(s, v, t).deletedAt.None?
  }

  /** A draft whose upload has expired is a dead end: no request, review or sweep ever changes its status again. */
  lemma {:induction false} ExpiredDraftIsFinal(s: State, steps: seq<Step>, v: VerificationId)
    requires v in s.verifications && s.verifications[v].status.UPLOAD_EXPIRED?
    ensures v in Run(s, steps).verifications && Run(s, steps).verifications[v].status.UPLOAD_EXPIRED?
  {
    hide Next;
    if steps != [] {
      var n := |steps| - 1;
      ExpiredDraftIsFinal(s, steps[..n], v);
      ExpiredStays(Run(s, steps[..n]), steps[n], v);
    }
  }

  lemma ExpiredStays(s: State, step: Step, v: VerificationId)
    requires v in s.verifications && s.verifications[v].status.UPLOAD_EXPIRED?
    ensures v in Next(s, step).verifications && Next(s, step).verifications[v].status.UPLOAD_EXPIRED?
  {
    hide Replace, Retired, NewEvents, Record, Deadline, LiveKinds;
  }

  /** A draft that waits for uploads or has expired, and whose material has been deleted. */
  predicate DeadDraft(s: State, v: VerificationId) {
    Unsubmitted(s, v) && forall t :: !Undeleted(s, v, t)
  }

  /** Every submission under way read at least one live row. */
  predicate RowsRead(s: State) {
    forall r :: r in s.submissions ==> s.submissions[r].kinds != {}
  }

  lemma StepRowsRead(s: State, step: Step)
    requires RowsRead(s)
    ensures RowsRead(Next(s, step))
  {
    hide Replace, Retired, NewEvents, FreshKeys, Record, Deadline, Due, LiveKinds;
  }

  lemma DeadKinds(assets: Assets)
    requires forall t :: t in assets ==> assets[t].deletedAt.Some?
    ensures LiveKinds(assets) == {}
  {
  }

  /** A reissue leaves the other verifications, and a draft not yet submitted, as they are. */
  lemma OthersKept(s: State, step: Step, v: VerificationId)
    requires (step.Create? || step.CreateResubmission?) && v in s.verifications && (step.v != v || Unsubmitted(s, v))
    ensures v in Next(s, step).verifications && Next(s, step).verifications[v] == s.verifications[v]
    ensures Next(s, step).submissions == s.submissions && Next(s, step).clock == s.clock
  {
    hide Replace, Retired, NewEvents, FreshKeys, RetireAllowed;
  }

  lemma NotSubmitted(s: State, step: Step, v: VerificationId)
    requires RowsRead(s) && Unsubmitted(s, v) && LiveKinds(s.verifications[v].assets) == {}
    requires !step.Create? && !step.CreateResubmission?
    ensures Unsubmitted(Next(s, step), v)
  {
    hide LiveKinds, Record, Deadline, DeadlineAllowed, Due, Holds, Reissue, FreshKeys;
  }

  lemma DeadStays(s: State, step: Step, v: VerificationId)
    requires RowsRead(s) && DeadDraft(s, v)
    ensures DeadDraft(Next(s, step), v)
  {
    hide Next, LiveKinds;
    var t := Next(s, step);
    forall k | k in s.verifications[v].assets ensures s.verifications[v].assets[k].deletedAt.Some? {
      assert !Undeleted(s, v, k);
    }
    DeadKinds(s.verifications[v].assets);
    if step.Create? || step.CreateResubmission? {
      OthersKept(s, step, v);
      assert forall k :: Undeleted(t, v, k) <==> Undeleted(s, v, k);
    } else {
      StepRowsKept(s, step);
      NotSubmitted(s, step, v);
      assert forall k :: Undeleted(t, v, k) ==> Undeleted(s, v, k);
    }
  }

  /**
   * A draft that was not submitted before its material was deleted is a dead end: whatever requests, reviews and sweeps
   * follow, it is never submitted, and no new draft can take its place.
   */
  lemma {:induction false} DeadDraftIsFinal(steps: seq<Step>, more: seq<Step>, v: VerificationId)
    requires DeadDraft(Run(Empty, steps), v)
    ensures DeadDraft(Run(Run(Empty, steps), more), v) && RowsRead(Run(Run(Empty, steps), more))
  {
    hide DeadDraft, RowsRead, Next;
    if more == [] {
      AllRowsRead(steps);
    } else {
      var n := |more| - 1;
      DeadDraftIsFinal(steps, more[..n], v);
      StepRowsRead(Run(Run(Empty, steps), more[..n]), more[n]);
      DeadStays(Run(Run(Empty, steps), more[..n]), more[n], v);
    }
  }

  lemma {:induction false} AllRowsRead(steps: seq<Step>)
    ensures RowsRead(Run(Empty, steps))
  {
    hide Next;
    if steps != [] {
      hide RowsRead;
      AllRowsRead(steps[..|steps| - 1]);
      StepRowsRead(Run(Empty, steps[..|steps| - 1]), steps[|steps| - 1]);
    }
  }

  // ----- exactly when a draft can lead on ----------------------------------------------------

  ghost predicate LeadsOn(s: State, v: VerificationId) {
    exists more :: UnderReview(Run(s, more), v)
  }

  /** A submission that reads the live rows as they are, before they expire, and commits at once. */
  lemma Submits(s: State, v: VerificationId, now: int) returns (r: RequestId)
    requires v in s.verifications && Awaiting(s.verifications[v].status) && now <= s.clock
    requires LiveKinds(s.verifications[v].assets) != {}
    requires forall t :: t in LiveKinds(s.verifications[v].assets) ==>
               s.verifications[v].assets[t].uploadExpiresAt > now
    ensures UnderReview(Next(Next(s, ReadForSubmit(r, v, LiveKinds(s.verifications[v].assets), now)), Submit(r)), v)
  {
    hide LiveKinds;
    r := Bound(s.submissions.Keys);
  }

  /** A time before any of these rows expires. */
  lemma Early(assets: Assets, clock: int) returns (now: int)
    ensures now <= clock && forall t :: t in assets ==> assets[t].uploadExpiresAt > now
  {
    now := clock;
    assert forall t :: t in assets ==> t == STUDENT_CARD || t == WECOM_SCREENSHOT;
    if STUDENT_CARD in assets && assets[STUDENT_CARD].uploadExpiresAt <= now {
      now := assets[STUDENT_CARD].uploadExpiresAt - 1;
    }
    if WECOM_SCREENSHOT in assets && assets[WECOM_SCREENSHOT].uploadExpiresAt <= now {
      now := assets[WECOM_SCREENSHOT].uploadExpiresAt - 1;
    }
  }

  lemma LiveLeadsOn(s: State, v: VerificationId)
    requires v in s.verifications && Awaiting(s.verifications[v].status) && LiveKinds(s.verifications[v].assets) != {}
    ensures LeadsOn(s, v)
  {
    hide LiveKinds, Next;
    var assets := s.verifications[v].assets;
    var now := Early(assets, s.clock);
    KindsAre(assets);
    var r := Submits(s, v, now);
    RunOfTwo(s, ReadForSubmit(r, v, LiveKinds(assets), now), Submit(r));
  }

  lemma KindsAre(assets: Assets)
    ensures forall t :: t in LiveKinds(assets) <==> t in assets && Live(assets[t])
  {
  }

  lemma RunOfTwo(s: State, first: Step, second: Step)
    ensures Run(s, [first, second]) == Next(Next(s, first), second)
  {
    hide Next;
    assert [first, second][..1] == [first] && [first][..0] == [];
    assert Run(s, [first]) == Next(Run(s, []), first);
  }

  lemma {:induction false} RunTwice(s: State, first: seq<Step>, second: seq<Step>)
    ensures Run(Run(s, first), second) == Run(s, first + second)
  {
    hide Next;
    if second == [] {
      assert first + second == first;
    } else {
      var n := |second| - 1;
      RunTwice(s, first, second[..n]);
      assert (first + second)[..|first| + n] == first + second[..n];
    }
  }

  /** A claimed row is live again once its claim is stale, is taken over, and the deletion fails. */
  lemma Regained(s: State, v: VerificationId, t: AssetType) returns (steps: seq<Step>)
    requires Inv(s, true) && Undeleted(s, v, t) && Awaiting(s.verifications[v].status) && RowOf(s, v, t).claimedAt.Some?
    ensures v in Run(s, steps).verifications && Run(s, steps).verifications[v].status == s.verifications[v].status
    ensures t in LiveKinds(Run(s, steps).verifications[v].assets)
  {
    hide IssuedInv, OneRowPerKey, JobsInv, ListedInv;
    var row := RowOf(s, v, t);
    assert RowInv(s, v, t);
    var first := row.claimedAt.value + STALE_CLAIM_MS;
    var second := if first < row.uploadExpiresAt then row.uploadExpiresAt else first;
    var time := if second <= s.clock then s.clock + 1 else second;
    var w := Bound(s.jobs.Keys);
    steps := [Tick(time), Claim(w, v, t, row.objectKey, time)] + [DeleteObject(w, false), ReleaseClaim(w)];
    TakenOver(s, v, t, time, w);
    var claimed := Next(Next(s, Tick(time)), Claim(w, v, t, row.objectKey, time));
    RunOfTwo(s, Tick(time), Claim(w, v, t, row.objectKey, time));
    RunOfTwo(claimed, DeleteObject(w, false), ReleaseClaim(w));
    RunTwice(s, [Tick(time), Claim(w, v, t, row.objectKey, time)], [DeleteObject(w, false), ReleaseClaim(w)]);
  }

  lemma TakenOver(s: State, v: VerificationId, t: AssetType, time: int, w: WorkerId)
    requires Undeleted(s, v, t) && Due(RowOf(s, v, t), time) && time > s.clock && w !in s.jobs
    ensures var claimed := Next(Next(s, Tick(time)), Claim(w, v, t, RowOf(s, v, t).objectKey, time));
            var after := Next(Next(claimed, DeleteObject(w, false)), ReleaseClaim(w));
            && v in after.verifications && after.verifications[v].status == s.verifications[v].status
            && t in LiveKinds(after.verifications[v].assets)
  {
    hide Due;
    var claimed := Next(Next(s, Tick(time)), Claim(w, v, t, RowOf(s, v, t).objectKey, time));
    GivenUp(claimed, w);
  }

  lemma GivenUp(s: State, w: WorkerId)
    requires w in s.jobs && s.jobs[w].phase.CLAIMED? && Holds(s, s.jobs[w])
    ensures var after := Next(Next(s, DeleteObject(w, false)), ReleaseClaim(w));
            var v := s.jobs[w].v;
            && v in after.verifications && after.verifications[v].status == s.verifications[v].status
            && s.jobs[w].kind in LiveKinds(after.verifications[v].assets)
  {
  }

  /** Rows are consistent in every reachable state, with any number of sweepers. */
  lemma {:induction false} Reached(steps: seq<Step>)
    ensures Inv(Run(Empty, steps), true)
  {
    hide Inv, Next;
    if steps == [] {
      EmptyInv(true);
    } else {
      Reached(steps[..|steps| - 1]);
      StepInv(Run(Empty, steps[..|steps| - 1]), steps[|steps| - 1], true);
    }
  }

  /**
   * From any reachable state, a draft not yet submitted can still come under review if and only if it waits for uploads
   * and some row of it is undeleted.
   */
  lemma DraftLeadsOn(steps: seq<Step>, v: VerificationId)
    requires Unsubmitted(Run(Empty, steps), v)
    ensures LeadsOn(Run(Empty, steps), v) <==>
            Awaiting(Run(Empty, steps).verifications[v].status) && exists t :: Undeleted(Run(Empty, steps), v, t)
  {
    hide Next, Inv, Run, RowsRead, LiveKinds;
    var s := Run(Empty, steps);
    Reached(steps);
    if !Awaiting(s.verifications[v].status) {
      forall more ensures !UnderReview(Run(s, more), v) {
        ExpiredDraftIsFinal(s, more, v);
      }
    } else if t :| Undeleted(s, v, t) {
      KindsAre(s.verifications[v].assets);
      if RowOf(s, v, t).claimedAt.None? {
        LiveLeadsOn(s, v);
      } else {
        var first := Regained(s, v, t);
        LiveLeadsOn(Run(s, first), v);
        var second :| UnderReview(Run(Run(s, first), second), v);
        RunTwice(s, first, second);
      }
    } else {
      forall more ensures !UnderReview(Run(s, more), v) {
        DeadDraftIsFinal(steps, more, v);
      }
    }
  }

  // ----- requests that begin from now on -----------------------------------------------------

  /** The rows of a waiting draft were issued together, and none is claimed before it expires. */
  predicate DraftRows(s: State, v: VerificationId) {
    v in s.verifications && Awaiting(s.verifications[v].status) ==>
      forall t, u :: Undeleted(s, v, t) && Undeleted(s, v, u) ==>
        && RowOf(s, v, t).uploadExpiresAt == RowOf(s, v, u).uploadExpiresAt
        && (RowOf(s, v, t).claimedAt.Some? ==> RowOf(s, v, t).uploadExpiresAt <= s.clock)
  }

  lemma StepDraftRows(s: State, step: Step, v: VerificationId)
    requires RowsInv(s) && DraftRows(s, v)
    ensures DraftRows(Next(s, step), v)
  {
    hide Next;
    if step.Create? || step.CreateResubmission? {
      ReissuedDraftRows(s, step, v);
    } else {
      StepRowsKept(s, step);
      KeptDraftRows(s, Next(s, step), v);
    }
  }

  lemma KeptDraftRows(s: State, t: State, v: VerificationId)
    requires RowsInv(s) && DraftRows(s, v) && RowsKept(s, t) && t.clock >= s.clock
    ensures DraftRows(t, v)
  {
    if v in t.verifications && Awaiting(t.verifications[v].status) {
      forall k | Undeleted(t, v, k) ensures Undeleted(s, v, k) && RowInv(s, v, k) {
      }
    }
  }

  lemma ReissuedDraftRows(s: State, step: Step, v: VerificationId)
    requires DraftRows(s, v) && (step.Create? || step.CreateResubmission?)
    ensures DraftRows(Next(s, step), v)
  {
    hide Replace, Retired, NewEvents, FreshKeys;
    var t := Next(s, step);
    if step.v == v && t != s {
      NewDraftRows(if v in s.verifications then s.verifications[v].assets else map[], step.uploads, step.now);
    } else if t != s && v in s.verifications {
      OthersKept(s, step, v);
      assert forall k :: Undeleted(t, v, k) <==> Undeleted(s, v, k);
    }
  }

  lemma NewDraftRows(assets: Assets, uploads: map<AssetType, Key>, now: int)
    ensures var rows := Replace(assets, uploads, now);
            forall t :: t in rows && rows[t].deletedAt.None? ==>
              rows[t].uploadExpiresAt == now + UPLOAD_LIFETIME_MS && rows[t].claimedAt.None?
  {
  }

  lemma {:induction false} ReachedDraftRows(steps: seq<Step>, v: VerificationId)
    ensures DraftRows(Run(Empty, steps), v)
  {
    hide Inv, Next;
    if steps != [] {
      hide DraftRows;
      var s := Run(Empty, steps[..|steps| - 1]);
      ReachedDraftRows(steps[..|steps| - 1], v);
      Reached(steps[..|steps| - 1]);
      assert RowsInv(s) by { InvRows(s); }
      StepDraftRows(s, steps[|steps| - 1], v);
    }
  }

  lemma InvRows(s: State)
    requires Inv(s, true)
    ensures RowsInv(s)
  {
  }

  /** Requests that read nothing earlier than a time. */
  predicate FromNow(steps: seq<Step>, start: int) {
    forall k :: 0 <= k < |steps| ==> (steps[k].ReadForSubmit? ==> start <= steps[k].now)
  }

  /** No submission of this draft is under way that read it in time. */
  predicate NoneInTime(s: State, v: VerificationId) {
    forall r :: r in s.submissions && s.submissions[r].v == v ==> s.submissions[r].expired
  }

  /** Every undeleted row had expired by a time, and no submission in time is under way. */
  predicate TooLate(s: State, v: VerificationId, start: int) {
    && Unsubmitted(s, v) && NoneInTime(s, v)
    && forall t :: Undeleted(s, v, t) ==> RowOf(s, v, t).uploadExpiresAt <= start
  }

  lemma StaysTooLate(s: State, step: Step, v: VerificationId, start: int)
    requires TooLate(s, v, start) && (step.ReadForSubmit? ==> start <= step.now)
    ensures TooLate(Next(s, step), v, start)
  {
    hide Next;
    var t := Next(s, step);
    if step.Create? || step.CreateResubmission? {
      OthersKept(s, step, v);
      assert forall k :: Undeleted(t, v, k) <==> Undeleted(s, v, k);
    } else {
      StepRowsKept(s, step);
      assert forall k :: Undeleted(t, v, k) ==> Undeleted(s, v, k);
      RequestsKept(s, step);
      StaysUnsubmitted(s, step, v);
      if step.ReadForSubmit? {
        ReadTooLate(s, step, v, start);
      }
    }
  }

  lemma StaysUnsubmitted(s: State, step: Step, v: VerificationId)
    requires Unsubmitted(s, v) && NoneInTime(s, v) && !step.Create? && !step.CreateResubmission?
    ensures Unsubmitted(Next(s, step), v)
  {
    hide LiveKinds, Record, Deadline, Due, Holds, Reissue, FreshKeys;
  }

  lemma ReadTooLate(s: State, step: Step, v: VerificationId, start: int)
    requires TooLate(s, v, start) && step.ReadForSubmit? && start <= step.now
    ensures NoneInTime(Next(s, step), v)
  {
    hide LiveKinds;
    var t := Next(s, step);
    if step.v == v && t != s {
      KindsAre(s.verifications[v].assets);
      var k :| k in step.kinds;
      assert Undeleted(s, v, k);
    }
  }

  lemma {:induction false} TooLateForever(s: State, steps: seq<Step>, v: VerificationId, start: int)
    requires TooLate(s, v, start) && FromNow(steps, start)
    ensures TooLate(Run(s, steps), v, start)
  {
    hide Next, TooLate;
    if steps != [] {
      var n := |steps| - 1;
      TooLateForever(s, steps[..n], v, start);
      StaysTooLate(Run(s, steps[..n]), steps[n], v, start);
    }
  }

  /**
   * From any reachable state in which no submission of the draft is under way that read it in time: requests that
   * begin from now on can bring it under review if and only if it waits for uploads and an undeleted row of it has not
   * expired.
   */
  lemma DraftLeadsOnFromNow(steps: seq<Step>, v: VerificationId)
    requires Unsubmitted(Run(Empty, steps), v) && NoneInTime(Run(Empty, steps), v)
    ensures var s := Run(Empty, steps);
            (exists more :: FromNow(more, s.clock) && UnderReview(Run(s, more), v)) <==>
            Awaiting(s.verifications[v].status) &&
            exists t :: Undeleted(s, v, t) && RowOf(s, v, t).uploadExpiresAt > s.clock
  {
    hide Next, Run, LiveKinds;
    var s := Run(Empty, steps);
    ReachedDraftRows(steps, v);
    if !Awaiting(s.verifications[v].status) {
      forall more ensures !UnderReview(Run(s, more), v) {
        ExpiredDraftIsFinal(s, more, v);
      }
    } else if t :| Undeleted(s, v, t) && RowOf(s, v, t).uploadExpiresAt > s.clock {
      var assets := s.verifications[v].assets;
      KindsAre(assets);
      assert forall u :: u in assets && Live(assets[u]) ==> Undeleted(s, v, u);
      assert t in LiveKinds(assets);
      var r := Submits(s, v, s.clock);
      var more := [ReadForSubmit(r, v, LiveKinds(assets), s.clock), Submit(r)];
      RunOfTwo(s, more[0], more[1]);
      assert FromNow(more, s.clock);
    } else {
      forall more | FromNow(more, s.clock) ensures !UnderReview(Run(s, more), v) {
        TooLateForever(s, more, v, s.clock);
      }
    }
  }

  // ----- a dead draft ------------------------------------------------------------------------

  const UNUSED: seq<Step> := [
    Create(1, map[STUDENT_CARD := 7], 0), Tick(900000), Claim(0, 1, STUDENT_CARD, 7, 900000), DeleteObject(0, true),
    MarkDeleted(0)
  ]

  const DELETED: Verification := Verification(AWAITING_UPLOAD, Card(Some(900000), None, Some(900000), false))

  /** A draft that is never submitted: a sweep deletes its material when its upload expires, and it waits for ever. */
  lemma UnusedDraftDies()
    ensures OrderlyRun(UNUSED, false)
    ensures var s := Run(Empty, UNUSED);
            && s.verifications == map[1 := DELETED] && DeadDraft(s, 1) && !LeadsOn(s, 1)
  {
    hide Next, Draft, Card, Run, LeadsOn;
    assert UNUSED[..0] == [] && UNUSED[..5] == UNUSED;
    var s1 := Draft(AWAITING_UPLOAD, Card(Some(900000), None, None, false)).(store := {});
    var s2 := s1.(clock := 900000);
    var job := Job(1, STUDENT_CARD, 7, 900000, CLAIMED);
    var s3 := Draft(AWAITING_UPLOAD, Card(Some(900000), Some(900000), None, false))
                .(store := {}, clock := 900000, jobs := map[0 := job]);
    var s4 := s3.(jobs := map[0 := job.(phase := ERASED)]);
    var s5 := Draft(AWAITING_UPLOAD, Card(Some(900000), None, Some(900000), false)).(store := {}, clock := 900000);
    Created();
    assert Run(Empty, UNUSED[..0]) == Empty by { Nothing(); }
    RunNext(UNUSED, 0, Empty, s1);
    Claimed(s1, s2, s3);
    RunNext(UNUSED, 1, s1, s2);
    RunNext(UNUSED, 2, s2, s3);
    Erased(s3, s4, s5);
    RunNext(UNUSED, 3, s3, s4);
    RunNext(UNUSED, 4, s4, s5);
    Orderly();
    Dead(s5);
    DraftLeadsOn(UNUSED, 1);
  }

  lemma Nothing()
    ensures Run(Empty, []) == Empty
  {
  }

  lemma Claimed(s1: State, s2: State, s3: State)
    requires s1 == Draft(AWAITING_UPLOAD, Card(Some(900000), None, None, false)).(store := {})
    requires s2 == s1.(clock := 900000)
    requires s3 == Draft(AWAITING_UPLOAD, Card(Some(900000), Some(900000), None, false))
                     .(store := {}, clock := 900000, jobs := map[0 := Job(1, STUDENT_CARD, 7, 900000, CLAIMED)])
    ensures Next(s1, UNUSED[1]) == s2 && Next(s2, UNUSED[2]) == s3 && s2.jobs == map[] && s2.listed == map[]
  {
    assert s2.verifications[1].assets[STUDENT_CARD := s3.verifications[1].assets[STUDENT_CARD]] ==
           s3.verifications[1].assets;
  }

  lemma Erased(s3: State, s4: State, s5: State)
    requires var job := Job(1, STUDENT_CARD, 7, 900000, CLAIMED);
             && s3 == Draft(AWAITING_UPLOAD, Card(Some(900000), Some(900000), None, false))
                        .(store := {}, clock := 900000, jobs := map[0 := job])
             && s4 == s3.(jobs := map[0 := job.(phase := ERASED)])
    requires s5 == Draft(AWAITING_UPLOAD, Card(Some(900000), None, Some(900000), false))
                     .(store := {}, clock := 900000)
    ensures Next(s3, UNUSED[3]) == s4 && Next(s4, UNUSED[4]) == s5
  {
    assert s4.jobs - {0} == map[];
    assert s4.verifications[1].assets[STUDENT_CARD := s5.verifications[1].assets[STUDENT_CARD]] ==
           s5.verifications[1].assets;
  }

  lemma Orderly()
    requires Run(Empty, UNUSED[..2]).jobs == map[] && Run(Empty, UNUSED[..2]).listed == map[]
    ensures OrderlyRun(UNUSED, false)
  {
    hide Run;
  }

  lemma Dead(s5: State)
    requires s5 == Draft(AWAITING_UPLOAD, Card(Some(900000), None, Some(900000), false))
                     .(store := {}, clock := 900000)
    ensures s5.verifications == map[1 := DELETED] && DeadDraft(s5, 1)
  {
  }
}
