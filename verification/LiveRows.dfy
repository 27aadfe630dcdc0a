/** Rows of a reviewable verification that are live, submitted or not: when a worker in flight may name one. */
module LiveRows {
  import opened Wrappers
  import opened AssetDeletion
  import opened MaterialSafety

  predicate LiveUnderReview(s: State, v: VerificationId, k: AssetType) {
    HasRow(s, v, k) && Reviewable(s.verifications[v].status) && Live(RowOf(s, v, k))
  }

  predicate Unnamed(s: State, v: VerificationId, k: AssetType)
    requires HasRow(s, v, k)
  {
    && RowOf(s, v, k).objectKey !in s.events
    && forall w :: w in s.jobs ==> s.jobs[w].key != RowOf(s, v, k).objectKey
  }

  ghost predicate NoneNamed(s: State) {
    forall v, k :: LiveUnderReview(s, v, k) ==> Unnamed(s, v, k)
  }

  /** A worker releases its claim on a row under review while another, overtaken worker still has the row's key. */
  predicate ReleasedToAnother(s: State, step: Step) {
    && step.ReleaseClaim? && step.w in s.jobs && !s.jobs[step.w].phase.CLAIMED? && Holds(s, s.jobs[step.w])
    && Reviewable(s.verifications[s.jobs[step.w].v].status)
    && exists x :: x in s.jobs && x != step.w && s.jobs[x].key == s.jobs[step.w].key
  }

  lemma CreateUnnamed(s: State, step: Step)
    requires OneRowPerKey(s) && RowsInv(s) && NoneNamed(s) && (step.Create? || step.CreateResubmission?)
    ensures NoneNamed(Next(s, step))
  {
    hide Replace, Retired, NewEvents, EventsAdded, OneRowPerKey;
    var v, t := step.v, Next(s, step);
    if t != s {
      var assets := if v in s.verifications then s.verifications[v].assets else map[];
      var status := if step.Create? then AWAITING_UPLOAD else RESUBMISSION_AWAITING_UPLOAD;
      ReissueRows(s, v, assets, step.uploads, step.now, status);
      forall u, k | LiveUnderReview(t, u, k) ensures Unnamed(t, u, k) {
        assert u != v && LiveUnderReview(s, u, k);
        OthersEvents(s, t, v, u, k);
      }
    }
  }

  lemma OthersEvents(s: State, t: State, v: VerificationId, u: VerificationId, k: AssetType)
    requires OneRowPerKey(s) && EventsAdded(s, t, v)
    requires u != v && HasRow(s, u, k) && RowOf(s, u, k).objectKey !in s.events
    ensures RowOf(s, u, k).objectKey !in t.events
  {
    assert forall q :: !Ending(s, v, q, RowOf(s, u, k).objectKey);
  }

  lemma SubmitUnnamed(s: State, r: RequestId, many: bool)
    requires Inv(s, many) && NoneNamed(s) && (many ==> RequestsInv(s) && Prompt(s, Submit(r)))
    ensures NoneNamed(Next(s, Submit(r)))
  {
    hide IssuedInv, OneRowPerKey, JobsInv, RequestsInv;
    var t := Next(s, Submit(r));
    forall u, k | LiveUnderReview(t, u, k) ensures Unnamed(t, u, k) {
      assert HasRow(s, u, k) && RowInv(s, u, k);
      if LiveUnderReview(s, u, k) {
        assert Unnamed(s, u, k);
      } else {
        assert Live(RowOf(s, u, k));
        forall w | w in s.jobs ensures s.jobs[w].key != RowOf(s, u, k).objectKey {
          SubmitUnclaimed(s, r, k, w, many);
        }
      }
    }
  }

  /** A claimed row is not live, and no other row has its key. */
  lemma ClaimUnnamed(s: State, step: Step)
    requires OneRowPerKey(s) && NoneNamed(s) && step.Claim?
    ensures NoneNamed(Next(s, step))
  {
    var t := Next(s, step);
    forall u, k | LiveUnderReview(t, u, k) ensures Unnamed(t, u, k) {
      assert LiveUnderReview(s, u, k);
    }
  }

  lemma ReleaseUnnamed(s: State, step: Step)
    requires RowsInv(s) && NoneNamed(s) && step.ReleaseClaim?
    ensures NoneNamed(Next(s, step)) <==> !ReleasedToAnother(s, step)
  {
    hide Reissue, FreshKeys, LiveKinds, Due, Record, Deadline;
    var t := Next(s, step);
    if ReleasedToAnother(s, step) {
      var job := s.jobs[step.w];
      var x :| x in s.jobs && x != step.w && s.jobs[x].key == job.key;
      assert x in t.jobs && LiveUnderReview(t, job.v, job.kind);
    } else {
      forall u, k | LiveUnderReview(t, u, k) ensures Unnamed(t, u, k) {
        assert RowInv(s, u, k);
        assert LiveUnderReview(s, u, k) || (step.w in s.jobs && s.jobs[step.w].v == u && s.jobs[step.w].kind == k);
      }
    }
  }

  lemma OtherUnnamed(s: State, step: Step)
    requires NoneNamed(s)
    requires Rowless(step) || step.MarkDeleted? || step.ExpireUploads? || step.Review? || step.CredentialExpires?
    ensures NoneNamed(Next(s, step))
  {
    hide Next;
    var t := Next(s, step);
    if Rowless(step) {
      RowlessSame(s, step);
      forall u, k | LiveUnderReview(t, u, k) ensures Unnamed(t, u, k) {
        assert LiveUnderReview(s, u, k);
      }
    } else {
      EndedUnnamed(s, step);
    }
  }

  lemma EndedUnnamed(s: State, step: Step)
    requires NoneNamed(s) && (step.MarkDeleted? || step.ExpireUploads? || step.Review? || step.CredentialExpires?)
    ensures NoneNamed(Next(s, step))
  {
    hide NoneNamed, Next;
    if step.MarkDeleted? {
      MarkUnnamed(s, step.w);
    } else {
      DeadlinesUnnamed(s, step);
    }
  }

  lemma MarkUnnamed(s: State, w: WorkerId)
    requires NoneNamed(s)
    ensures NoneNamed(Next(s, MarkDeleted(w)))
  {
    hide WithRow;
    var t := Next(s, MarkDeleted(w));
    if w in s.jobs && s.jobs[w].phase.ERASED? && Holds(s, s.jobs[w]) {
      var job := s.jobs[w];
      var done := s.(jobs := s.jobs - {w});
      WithRowOnly(done, job.v, job.kind,
                  RowOf(done, job.v, job.kind).(deletedAt := Some(job.now), claimedAt := None));
    }
    assert forall u, k :: HasRow(t, u, k) <==> HasRow(s, u, k);
    forall u, k | LiveUnderReview(t, u, k) ensures Unnamed(t, u, k) {
      assert LiveUnderReview(s, u, k);
    }
  }

  lemma DeadlinesUnnamed(s: State, step: Step)
    requires NoneNamed(s) && (step.ExpireUploads? || step.Review? || step.CredentialExpires?)
    ensures NoneNamed(Next(s, step))
  {
    hide Next;
    var t := Next(s, step);
    var v := DeadlineFrame(s, step);
    NoNewReview(s, step);
    assert forall u, k :: HasRow(t, u, k) <==> HasRow(s, u, k);
    forall u, k | LiveUnderReview(t, u, k) ensures Unnamed(t, u, k) {
      assert LiveUnderReview(s, u, k);
    }
  }

  lemma NoNewReview(s: State, step: Step)
    requires step.ExpireUploads? || step.Review? || step.CredentialExpires?
    ensures forall v :: v in Next(s, step).verifications && Reviewable(Next(s, step).verifications[v].status) ==>
              v in s.verifications && Reviewable(s.verifications[v].status)
  {
    hide LiveKinds, Deadline, DeadlineAllowed;
  }

  /** From a state in which no live row under review is named by a worker or an event, one step alone changes that. */
  lemma StepNamesNoLiveRow(s: State, step: Step, many: bool)
    requires Inv(s, many) && NoneNamed(s) && (many ==> RequestsInv(s)) && Orderly(s, step, many)
    ensures NoneNamed(Next(s, step)) <==> !ReleasedToAnother(s, step)
  {
    hide OneRowPerKey, IssuedInv, RowsInv, JobsInv, NoneNamed, RequestsInv, Next;
    match step
    case Create(_, _, _) => CreateUnnamed(s, step);
    case CreateResubmission(_, _, _) => CreateUnnamed(s, step);
    case Submit(r) => SubmitUnnamed(s, r, many);
    case Claim(_, _, _, _, _) => ClaimUnnamed(s, step);
    case ReleaseClaim(_) => ReleaseUnnamed(s, step);
    case _ => OtherUnnamed(s, step);
  }

  // ----- the run -----------------------------------------------------------------------------

  const LEFTOVER: seq<Step> := [
    Create(1, map[STUDENT_CARD := 7, WECOM_SCREENSHOT := 8], 0), Tick(900000), Claim(0, 1, WECOM_SCREENSHOT, 8, 900000),
    ReadForSubmit(1, 1, {STUDENT_CARD}, 899999), Submit(1), Tick(1200000), Claim(1, 1, WECOM_SCREENSHOT, 8, 1200000),
    DeleteObject(1, false), ReleaseClaim(1)
  ]

  function Both(submitted: bool, claimedAt: Option<int>): Assets {
    map[STUDENT_CARD := Asset(7, 900000, if submitted then None else Some(900000), None, None, submitted),
        WECOM_SCREENSHOT := Asset(8, 900000, Some(900000), claimedAt, None, false)]
  }

  function At(status: Status, assets: Assets, clock: int): State {
    Empty.(verifications := map[1 := Verification(status, assets)], issued := {7, 8}, clock := clock)
  }

  lemma Creating()
    ensures Next(Empty, LEFTOVER[0]) == At(AWAITING_UPLOAD, Both(false, None), 0)
  {
    var uploads: map<AssetType, Key> := map[STUDENT_CARD := 7, WECOM_SCREENSHOT := 8];
    assert uploads[STUDENT_CARD] == 7 && uploads[WECOM_SCREENSHOT] == 8;
    assert 7 in uploads.Values && 8 in uploads.Values && forall key :: key in uploads.Values ==> key == 7 || key == 8;
    assert uploads.Values == {7, 8};
    assert FreshKeys(Empty, uploads);
    assert Replace(map[], uploads, 0) == Both(false, None);
    assert NewEvents(Retired(map[])) == map[];
  }

  lemma Claiming(status: Status, submitted: bool, before: Option<int>, jobs: map<WorkerId, Job>, w: WorkerId, now: int)
    requires w !in jobs && now >= 900000 && (before.Some? ==> before.value <= now - STALE_CLAIM_MS)
    ensures Next(At(status, Both(submitted, before), now).(jobs := jobs), Claim(w, 1, WECOM_SCREENSHOT, 8, now)) ==
            At(status, Both(submitted, Some(now)), now).(jobs := jobs[w := Job(1, WECOM_SCREENSHOT, 8, now, CLAIMED)])
  {
    assert Both(submitted, before)[WECOM_SCREENSHOT := Both(submitted, Some(now))[WECOM_SCREENSHOT]] ==
           Both(submitted, Some(now));
  }

  lemma Submitting(s: State)
    requires s == At(AWAITING_UPLOAD, Both(false, Some(900000)),
                     900000).(jobs := map[0 := Job(1, WECOM_SCREENSHOT, 8, 900000, CLAIMED)])
    ensures var read := s.(submissions := map[1 := Submission(1, {STUDENT_CARD}, 899999, false)]);
            && Next(s, LEFTOVER[3]) == read
            && Next(read, LEFTOVER[4]) == s.(verifications := map[1 := Verification(PENDING, Both(true, Some(900000)))])
  {
    hide Record, LiveKinds;
    BothRows();
    assert map[1 := Submission(1, {STUDENT_CARD}, 899999, false)] - {1} == map[];
  }

  lemma BothRows()
    ensures LiveKinds(Both(false, Some(900000))) == {STUDENT_CARD}
    ensures Record(Both(false, Some(900000))) == Both(true, Some(900000))
  {
  }

  lemma Releasing(s: State)
    requires s == At(PENDING, Both(true, Some(1200000)), 1200000).(
      jobs := map[0 := Job(1, WECOM_SCREENSHOT, 8, 900000, CLAIMED),
                  1 := Job(1, WECOM_SCREENSHOT, 8, 1200000, CLAIMED)])
    ensures var failed := s.(jobs := s.jobs[1 := s.jobs[1].(phase := FAILED)]);
            && Next(s, LEFTOVER[7]) == failed
            && Next(failed, LEFTOVER[8]) ==
               At(PENDING, Both(true, None), 1200000).(jobs := map[0 := Job(1, WECOM_SCREENSHOT, 8, 900000, CLAIMED)])
  {
    var failed := s.(jobs := s.jobs[1 := s.jobs[1].(phase := FAILED)]);
    assert failed.jobs - {1} == map[0 := Job(1, WECOM_SCREENSHOT, 8, 900000, CLAIMED)];
    assert Both(true, Some(1200000))[WECOM_SCREENSHOT := Both(true, None)[WECOM_SCREENSHOT]] == Both(true, None);
  }

  /**
   * An unsubmitted live row under review, with a worker in flight that names it: a submission read while the row was
   * claimed leaves it out, and an overtaken worker is still at it when a second one releases the row.
   */
  lemma LeftoverRowNamed()
    ensures OrderlyRun(LEFTOVER, true)
    ensures var s := Run(Empty, LEFTOVER);
            && LiveUnderReview(s, 1, WECOM_SCREENSHOT) && !RowOf(s, 1, WECOM_SCREENSHOT).submitted
            && 0 in s.jobs && s.jobs[0].key == RowOf(s, 1, WECOM_SCREENSHOT).objectKey
  {
    hide Next, Both;
    assert LEFTOVER[..0] == [] && LEFTOVER[..9] == LEFTOVER;
    var first := map[0 := Job(1, WECOM_SCREENSHOT, 8, 900000, CLAIMED)];
    var s1 := At(AWAITING_UPLOAD, Both(false, None), 0);
    var s2 := At(AWAITING_UPLOAD, Both(false, None), 900000);
    var s3 := At(AWAITING_UPLOAD, Both(false, Some(900000)), 900000).(jobs := first);
    var s4 := s3.(submissions := map[1 := Submission(1, {STUDENT_CARD}, 899999, false)]);
    var s5 := At(PENDING, Both(true, Some(900000)), 900000).(jobs := first);
    var s6 := At(PENDING, Both(true, Some(900000)), 1200000).(jobs := first);
    var s7 := At(PENDING, Both(true, Some(1200000)),
                 1200000).(jobs := first[1 := Job(1, WECOM_SCREENSHOT, 8, 1200000, CLAIMED)]);
    var s8 := s7.(jobs := s7.jobs[1 := s7.jobs[1].(phase := FAILED)]);
    var s9 := At(PENDING, Both(true, None), 1200000).(jobs := first);
    Creating();
    RunNext(LEFTOVER, 0, Empty, s1);
    Ticking(s1, s2, s5, s6);
    RunNext(LEFTOVER, 1, s1, s2);
    Claiming(AWAITING_UPLOAD, false, None, map[], 0, 900000);
    RunNext(LEFTOVER, 2, s2, s3);
    Submitting(s3);
    RunNext(LEFTOVER, 3, s3, s4);
    RunNext(LEFTOVER, 4, s4, s5);
    RunNext(LEFTOVER, 5, s5, s6);
    Claiming(PENDING, true, Some(900000), first, 1, 1200000);
    RunNext(LEFTOVER, 6, s6, s7);
    Releasing(s7);
    RunNext(LEFTOVER, 7, s7, s8);
    RunNext(LEFTOVER, 8, s8, s9);
    InTime(s4);
    Leftover(s9);
  }

  lemma Ticking(s1: State, s2: State, s5: State, s6: State)
    requires s1 == At(AWAITING_UPLOAD, Both(false, None), 0) && s2 == At(AWAITING_UPLOAD, Both(false, None), 900000)
    requires s5 == At(PENDING, Both(true, Some(900000)), 900000).(jobs := s5.jobs)
    requires s6 == At(PENDING, Both(true, Some(900000)), 1200000).(jobs := s5.jobs)
    ensures Next(s1, LEFTOVER[1]) == s2 && Next(s5, LEFTOVER[5]) == s6
  {
  }

  lemma InTime(s4: State)
    requires s4.clock == 900000 && s4.submissions == map[1 := Submission(1, {STUDENT_CARD}, 899999, false)]
    requires Run(Empty, LEFTOVER[..4]) == s4 && Run(Empty, LEFTOVER[..0]).clock == 0
    ensures OrderlyRun(LEFTOVER, true)
  {
    hide Run;
  }

  lemma Leftover(s9: State)
    requires s9 == At(PENDING, Both(true, None),
                      1200000).(jobs := map[0 := Job(1, WECOM_SCREENSHOT, 8, 900000, CLAIMED)])
    ensures LiveUnderReview(s9, 1, WECOM_SCREENSHOT) && !RowOf(s9, 1, WECOM_SCREENSHOT).submitted
    ensures s9.jobs[0].key == RowOf(s9, 1, WECOM_SCREENSHOT).objectKey
  {
  }
}
