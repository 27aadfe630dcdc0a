/** What the deletion protocol promises about submitted material, and exactly when it keeps the promise. */
module MaterialSafety {
  import opened Wrappers
  import opened AssetDeletion

  /** An expired resubmission of a draft that has meanwhile been submitted puts a deadline on its material. */
  predicate LateExpiry(s: State, step: Step) {
    && step.ExpireUploads? && step.r in s.submissions && s.submissions[step.r].expired
    && s.submissions[step.r].v in s.verifications
    && var verification := s.verifications[s.submissions[step.r].v];
       && Reviewable(verification.status) && DeadlineAllowed(verification.assets, s.submissions[step.r].now)
       && exists t ::
            t in verification.assets && verification.assets[t].deletedAt.None? && verification.assets[t].submitted
  }

  /** A request commits before a claim made when it began would be stale. */
  predicate Prompt(s: State, step: Step) {
    && (step.Create? ==> s.clock < step.now + STALE_CLAIM_MS)
    && (step.CreateResubmission? ==> s.clock < step.now + STALE_CLAIM_MS)
    && (step.Submit? && step.r in s.submissions ==> s.clock < s.submissions[step.r].now + STALE_CLAIM_MS)
  }

  /** One sweeper, or any number of sweepers and prompt requests. */
  predicate Orderly(s: State, step: Step, many: bool) {
    if many then Prompt(s, step) else OneSweeper(s, step)
  }

  ghost predicate RequestsInv(s: State) {
    && SubmissionsInv(s)
    && forall r :: r in s.submissions ==> s.submissions[r].now <= s.clock
  }

  // ----- requests ----------------------------------------------------------------------------

  lemma ReissueRequests(s: State, t: State, v: VerificationId, uploads: map<AssetType, Key>, now: int)
    requires RequestsInv(s) && Reissued(s, t, v, uploads) && t.submissions == s.submissions
    requires s.clock < now + STALE_CLAIM_MS
    requires forall k :: k in uploads ==> RowOf(t, v, k).uploadExpiresAt == now + UPLOAD_LIFETIME_MS
    ensures RequestsInv(t)
  {
    forall r, k | r in t.submissions && !t.submissions[r].expired && k in t.submissions[r].kinds
      ensures HasRow(t, t.submissions[r].v, k) && RowOf(t, t.submissions[r].v, k).uploadExpiresAt > t.submissions[r].now
    {
      assert HasRow(s, s.submissions[r].v, k);
    }
  }

  lemma ReissuedExpiry(s: State, v: VerificationId, assets: Assets, uploads: map<AssetType, Key>, now: int,
                       status: Status)
    ensures var t := Reissue(s, v, assets, uploads, now, status);
            t.submissions == s.submissions && forall k :: k in uploads ==>
              HasRow(t, v, k) && RowOf(t, v, k).uploadExpiresAt == now + UPLOAD_LIFETIME_MS
  {
  }

  lemma StepRequests(s: State, step: Step)
    requires RequestsInv(s) && Prompt(s, step)
    ensures RequestsInv(Next(s, step))
  {
    hide Next;
    if step.Create? || step.CreateResubmission? {
      CreateRequests(s, step);
    } else {
      StepRowsKept(s, step);
      RequestsKept(s, step);
      if step.ReadForSubmit? {
        ReadRequests(s, step);
      }
    }
  }

  lemma CreateRequests(s: State, step: Step)
    requires RequestsInv(s) && Prompt(s, step) && (step.Create? || step.CreateResubmission?)
    ensures RequestsInv(Next(s, step))
  {
    hide Reissue, Reissued, RequestsInv;
    var v := step.v;
    if Next(s, step) != s {
      var assets := if v in s.verifications then s.verifications[v].assets else map[];
      var status := if step.Create? then AWAITING_UPLOAD else RESUBMISSION_AWAITING_UPLOAD;
      ReissueRows(s, v, assets, step.uploads, step.now, status);
      ReissuedExpiry(s, v, assets, step.uploads, step.now, status);
      ReissueRequests(s, Reissue(s, v, assets, step.uploads, step.now, status), v, step.uploads, step.now);
    }
  }

  predicate PastDeadline(row: Asset, clock: int) {
    row.deleteAfter.Some? && row.deleteAfter.value <= clock
  }

  /**
   * Rows keep their keys, upload deadlines and deletion marks, no draft comes to wait, and only a due row is claimed.
   */
  ghost predicate RowsKept(s: State, t: State) {
    && (forall v :: v in s.verifications <==> v in t.verifications)
    && (forall v :: v in t.verifications && Awaiting(t.verifications[v].status) ==>
          t.verifications[v].status == s.verifications[v].status)
    && (forall v, k :: HasRow(s, v, k) <==> HasRow(t, v, k))
    && (forall v, k :: HasRow(s, v, k) ==>
          && RowOf(t, v, k).objectKey == RowOf(s, v, k).objectKey
          && RowOf(t, v, k).uploadExpiresAt == RowOf(s, v, k).uploadExpiresAt
          && (RowOf(s, v, k).deletedAt.Some? ==> RowOf(t, v, k).deletedAt.Some?)
          && (RowOf(t, v, k).claimedAt.Some? ==>
              RowOf(s, v, k).claimedAt.Some? || PastDeadline(RowOf(s, v, k), s.clock)))
  }

  lemma DeadlinesKeep(s: State, step: Step)
    requires step.ExpireUploads? || step.Submit? || step.Review? || step.CredentialExpires?
    ensures RowsKept(s, Next(s, step))
  {
    hide Next;
    var v := DeadlineFrame(s, step);
    var t := Next(s, step);
    assert forall u, k :: HasRow(t, u, k) <==> HasRow(s, u, k);
  }

  lemma RowKeeps(s: State, t: State, v: VerificationId, k: AssetType, row: Asset)
    requires HasRow(s, v, k) && t.verifications == WithRow(s, v, k, row).verifications
    requires row.objectKey == RowOf(s, v, k).objectKey && row.uploadExpiresAt == RowOf(s, v, k).uploadExpiresAt
    requires RowOf(s, v, k).deletedAt.Some? ==> row.deletedAt.Some?
    requires row.claimedAt.None? || PastDeadline(RowOf(s, v, k), s.clock)
    ensures RowsKept(s, t)
  {
    assert forall u, q :: HasRow(t, u, q) <==> HasRow(s, u, q);
  }

  lemma JobKeeps(s: State, step: Step)
    requires step.Claim? || step.MarkDeleted? || step.ReleaseClaim?
    ensures RowsKept(s, Next(s, step))
  {
    hide Reissue, FreshKeys, LiveKinds, WithRow, RowsKept, Replace, Record, Deadline;
    var t := Next(s, step);
    if t.verifications == s.verifications {
      SameRowsKept(s, t);
    } else if step.Claim? {
      RowKeeps(s, t, step.v, step.kind, RowOf(s, step.v, step.kind).(claimedAt := Some(step.now)));
    } else {
      var job := s.jobs[step.w];
      var row := RowOf(s, job.v, job.kind);
      var done := s.(jobs := s.jobs - {step.w});
      RowKeeps(done, t, job.v, job.kind,
               if step.MarkDeleted?
                 then row.(deletedAt := Some(job.now), claimedAt := None) else row.(claimedAt := None));
      SameStart(s, done, t);
    }
  }

  lemma SameStart(s: State, done: State, t: State)
    requires RowsKept(done, t) && done.verifications == s.verifications && done.clock == s.clock
    ensures RowsKept(s, t)
  {
  }

  /** Every step but a reissue. */
  lemma StepRowsKept(s: State, step: Step)
    requires !step.Create? && !step.CreateResubmission?
    ensures RowsKept(s, Next(s, step)) && Next(s, step).clock >= s.clock
  {
    hide Next, RowsKept;
    if Rowless(step) {
      RowlessSame(s, step);
      SameRowsKept(s, Next(s, step));
    } else {
      SameClock(s, step);
      if step.Claim? || step.MarkDeleted? || step.ReleaseClaim? {
        JobKeeps(s, step);
      } else {
        DeadlinesKeep(s, step);
      }
    }
  }

  lemma SameRowsKept(s: State, t: State)
    requires t.verifications == s.verifications
    ensures RowsKept(s, t)
  {
  }

  lemma SameClock(s: State, step: Step)
    requires !step.Tick?
    ensures Next(s, step).clock == s.clock
  {
    hide FreshKeys, LiveKinds, Due, Holds, Record, Deadline, Replace;
  }

  lemma RequestsKept(s: State, step: Step)
    ensures Next(s, step).submissions.Keys <= s.submissions.Keys + (if step.ReadForSubmit? then {step.r} else {})
    ensures forall r :: r in Next(s, step).submissions && r in s.submissions ==>
              Next(s, step).submissions[r] == s.submissions[r]
  {
    hide FreshKeys, LiveKinds, Due, Holds, Record, Deadline, Replace;
  }

  lemma ReadRequests(s: State, step: Step)
    requires step.ReadForSubmit?
    ensures var t := Next(s, step);
            t.submissions == s.submissions ||
            (step.r in t.submissions && t.submissions[step.r].now <= s.clock &&
             (!t.submissions[step.r].expired ==>
                forall k :: k in t.submissions[step.r].kinds ==>
                  HasRow(s, t.submissions[step.r].v, k) &&
                    RowOf(s, t.submissions[step.r].v, k).uploadExpiresAt > t.submissions[step.r].now))
  {
  }

  // ----- needed material ---------------------------------------------------------------------

  ghost predicate SafeRow(s: State, v: VerificationId, k: AssetType)
    requires HasRow(s, v, k)
  {
    var row := RowOf(s, v, k);
    && row.deleteAfter.None? && row.claimedAt.None? && row.objectKey !in s.events
    && forall w :: w in s.jobs ==> s.jobs[w].key != row.objectKey
  }

  /** At its own commit a submission finds no worker with a key it submits. */
  lemma SubmitUnclaimed(s: State, r: RequestId, k: AssetType, w: WorkerId, many: bool)
    requires Inv(s, many) && (many ==> RequestsInv(s) && Prompt(s, Submit(r)))
    requires r in s.submissions && !s.submissions[r].expired && k in s.submissions[r].kinds && w in s.jobs
    requires var v := s.submissions[r].v;
             HasRow(s, v, k) && Awaiting(s.verifications[v].status) && Live(RowOf(s, v, k))
    ensures s.jobs[w].key != RowOf(s, s.submissions[r].v, k).objectKey
  {
    hide IssuedInv, OneRowPerKey, RowsInv;
    assert JobInv(s, s.jobs[w], many);
  }

  lemma SubmitSafe(s: State, r: RequestId, many: bool)
    requires Inv(s, many) && MaterialSafe(s) && (many ==> RequestsInv(s) && Prompt(s, Submit(r)))
    ensures MaterialSafe(Next(s, Submit(r)))
  {
    hide IssuedInv, OneRowPerKey, JobsInv, RequestsInv;
    var t := Next(s, Submit(r));
    forall u, k | Needed(t, u, k) ensures SafeRow(t, u, k) {
      assert HasRow(s, u, k) && RowInv(s, u, k);
      if Needed(s, u, k) && u in t.verifications && t.verifications[u] == s.verifications[u] {
      } else {
        assert Live(RowOf(s, u, k));
        forall w | w in s.jobs ensures s.jobs[w].key != RowOf(s, u, k).objectKey {
          SubmitUnclaimed(s, r, k, w, many);
        }
      }
    }
  }

  lemma ReissueSafe(s: State, t: State, v: VerificationId, uploads: map<AssetType, Key>)
    requires OneRowPerKey(s) && MaterialSafe(s) && Reissued(s, t, v, uploads)
    requires v in t.verifications ==> Awaiting(t.verifications[v].status)
    ensures MaterialSafe(t)
  {
    forall u, k | Needed(t, u, k) ensures SafeRow(t, u, k) {
      assert u != v && Needed(s, u, k);
      assert forall q :: !Ending(s, v, q, RowOf(s, u, k).objectKey);
    }
  }

  lemma CreateSafe(s: State, step: Step)
    requires OneRowPerKey(s) && MaterialSafe(s) && (step.Create? || step.CreateResubmission?)
    ensures MaterialSafe(Next(s, step))
  {
    hide Reissued, OneRowPerKey, MaterialSafe, Replace, Retired, NewEvents;
    var v := step.v;
    if Next(s, step) != s {
      var assets := if v in s.verifications then s.verifications[v].assets else map[];
      var status := if step.Create? then AWAITING_UPLOAD else RESUBMISSION_AWAITING_UPLOAD;
      ReissueRows(s, v, assets, step.uploads, step.now, status);
      ReissueSafe(s, Reissue(s, v, assets, step.uploads, step.now, status), v, step.uploads);
    }
  }

  lemma ClaimSafe(s: State, step: Step, many: bool)
    requires Inv(s, many) && MaterialSafe(s) && step.Claim?
    ensures MaterialSafe(Next(s, step))
  {
    hide IssuedInv, RowsInv, JobsInv;
    var t := Next(s, step);
    forall u, k | Needed(t, u, k) ensures SafeRow(t, u, k) {
      assert Needed(s, u, k);
    }
  }

  lemma MarkSafe(s: State, w: WorkerId)
    requires MaterialSafe(s)
    ensures MaterialSafe(Next(s, MarkDeleted(w)))
  {
    hide WithRow;
    var t := Next(s, MarkDeleted(w));
    if w in s.jobs && s.jobs[w].phase.ERASED? && Holds(s, s.jobs[w]) {
      var job := s.jobs[w];
      var done := s.(jobs := s.jobs - {w});
      WithRowOnly(done, job.v, job.kind, RowOf(done, job.v, job.kind).(deletedAt := Some(job.now), claimedAt := None));
    }
    assert forall u, k :: HasRow(t, u, k) <==> HasRow(s, u, k);
    forall u, k | Needed(t, u, k) ensures SafeRow(t, u, k) {
      assert Needed(s, u, k);
    }
  }

  lemma ReleaseSafe(s: State, w: WorkerId)
    requires MaterialSafe(s)
    ensures MaterialSafe(Next(s, ReleaseClaim(w)))
  {
    hide WithRow;
    var t := Next(s, ReleaseClaim(w));
    if w in s.jobs && !s.jobs[w].phase.CLAIMED? && Holds(s, s.jobs[w]) {
      var job := s.jobs[w];
      var done := s.(jobs := s.jobs - {w});
      WithRowOnly(done, job.v, job.kind, RowOf(done, job.v, job.kind).(claimedAt := None));
    }
    assert forall u, k :: HasRow(t, u, k) <==> HasRow(s, u, k);
    forall u, k | Needed(t, u, k) ensures SafeRow(t, u, k) {
      assert Needed(s, u, k);
    }
  }

  lemma OtherSafe(s: State, step: Step)
    requires MaterialSafe(s) && Rowless(step)
    ensures MaterialSafe(Next(s, step))
  {
    hide Next;
    var t := Next(s, step);
    RowlessSame(s, step);
    forall u, k | Needed(t, u, k) ensures SafeRow(t, u, k) {
      assert Needed(s, u, k);
    }
  }

  lemma StatusSafe(s: State, step: Step)
    requires MaterialSafe(s) && (step.ExpireUploads? || step.Review? || step.CredentialExpires?)
    ensures MaterialSafe(Next(s, step)) <==> !LateExpiry(s, step)
  {
    hide Next, LateExpiry, MaterialSafe;
    if LateExpiry(s, step) {
      LateUnsafe(s, step);
    } else {
      DeadlinesSafe(s, step);
    }
  }

  lemma LateUnsafe(s: State, step: Step)
    requires LateExpiry(s, step)
    ensures !MaterialSafe(Next(s, step))
  {
    var t := Next(s, step);
    var v := s.submissions[step.r].v;
    var k :| k in s.verifications[v].assets && s.verifications[v].assets[k].deletedAt.None? &&
      s.verifications[v].assets[k].submitted;
    assert Needed(s, v, k);
    assert Needed(t, v, k) && (RowOf(t, v, k).deleteAfter.Some? || RowOf(t, v, k).claimedAt.Some?);
  }

  lemma DeadlinesSafe(s: State, step: Step)
    requires MaterialSafe(s) && (step.ExpireUploads? || step.Review? || step.CredentialExpires?) && !LateExpiry(s, step)
    ensures MaterialSafe(Next(s, step))
  {
    hide Reissue, FreshKeys, LiveKinds, Due, Record, WithRow, Holds;
    var t := Next(s, step);
    forall u, k | Needed(t, u, k) ensures SafeRow(t, u, k) {
      assert Needed(s, u, k);
    }
  }

  /**
   * From a state in which submitted material is safe, the one step that endangers it is the late expiry:
   * for one sweeper, and for several as long as requests commit promptly.
   */
  lemma StepSafe(s: State, step: Step, many: bool)
    requires Inv(s, many) && MaterialSafe(s) && (many ==> RequestsInv(s)) && Orderly(s, step, many)
    ensures MaterialSafe(Next(s, step)) <==> !LateExpiry(s, step)
  {
    hide Inv, MaterialSafe, RequestsInv, Next;
    match step
    case Create(_, _, _) => OneRow(s, many); CreateSafe(s, step);
    case CreateResubmission(_, _, _) => OneRow(s, many); CreateSafe(s, step);
    case ExpireUploads(_) => StatusSafe(s, step);
    case Review(_, _, _) => StatusSafe(s, step);
    case CredentialExpires(_) => StatusSafe(s, step);
    case Submit(r) => SubmitSafe(s, r, many);
    case Claim(_, _, _, _, _) => ClaimSafe(s, step, many);
    case MarkDeleted(w) => MarkSafe(s, w);
    case ReleaseClaim(w) => ReleaseSafe(s, w);
    case _ => OtherSafe(s, step);
  }

  lemma OneRow(s: State, many: bool)
    requires Inv(s, many)
    ensures OneRowPerKey(s)
  {
  }

  // ----- runs --------------------------------------------------------------------------------

  ghost predicate OrderlyRun(steps: seq<Step>, many: bool) {
    forall k :: 0 <= k < |steps| ==> Orderly(Run(Empty, steps[..k]), steps[k], many)
  }

  ghost predicate NoLateExpiry(steps: seq<Step>) {
    forall k :: 0 <= k < |steps| ==> !LateExpiry(Run(Empty, steps[..k]), steps[k])
  }

  lemma {:induction false} RunInv(steps: seq<Step>, many: bool)
    requires OrderlyRun(steps, many)
    ensures Inv(Run(Empty, steps), many)
    ensures many ==> RequestsInv(Run(Empty, steps))
  {
    hide Inv, RequestsInv, Next;
    if steps == [] {
      EmptyInv(many);
    } else {
      var n := |steps| - 1;
      assert forall k :: 0 <= k < n ==> steps[..n][..k] == steps[..k];
      RunInv(steps[..n], many);
      assert Orderly(Run(Empty, steps[..n]), steps[n], many);
      StepInv(Run(Empty, steps[..n]), steps[n], many);
      if many {
        StepRequests(Run(Empty, steps[..n]), steps[n]);
      }
    }
  }

  lemma EmptyInv(many: bool)
    ensures Inv(Empty, many) && RequestsInv(Empty)
  {
  }

  /**
   * While a verification is reviewable its submitted material has no deletion deadline, and no worker in
   * flight and no delete event names its key: for one sweeper, or for any number of them when requests
   * commit within the five minutes after which a claim is stale.
   */
  lemma {:induction false} SubmittedMaterialSafe(steps: seq<Step>, many: bool)
    requires OrderlyRun(steps, many) && NoLateExpiry(steps)
    ensures MaterialSafe(Run(Empty, steps))
  {
    hide Inv, RequestsInv, MaterialSafe, Next;
    if steps == [] {
      assert MaterialSafe(Empty) by { EmptySafe(); }
    } else {
      var n := |steps| - 1;
      assert forall k :: 0 <= k < n ==> steps[..n][..k] == steps[..k];
      SubmittedMaterialSafe(steps[..n], many);
      RunInv(steps[..n], many);
      StepSafe(Run(Empty, steps[..n]), steps[n], many);
    }
  }

  lemma EmptySafe()
    ensures MaterialSafe(Empty)
  {
  }

  /** Whatever deletion step a sweeper takes, the objects of needed material stay in the store. */
  lemma NeededObjectsStay(steps: seq<Step>, many: bool, step: Step, v: VerificationId, k: AssetType)
    requires OrderlyRun(steps, many) && NoLateExpiry(steps)
    requires Needed(Run(Empty, steps), v, k)
    ensures var s := Run(Empty, steps);
            RowOf(s, v, k).objectKey in s.store ==> RowOf(s, v, k).objectKey in Next(s, step).store
  {
    hide Run, Next;
    SubmittedMaterialSafe(steps, many);
    RunInv(steps, many);
    StoreKeeps(Run(Empty, steps), step, RowOf(Run(Empty, steps), v, k).objectKey, many);
  }

  /** Only a worker's delete and a delete event take an object out of the store, and only the one they name. */
  lemma StoreKeeps(s: State, step: Step, key: Key, many: bool)
    requires key !in s.events && (forall w :: w in s.jobs ==> s.jobs[w].key != key) && ListedInv(s, many)
    ensures key in s.store ==> key in Next(s, step).store
  {
    hide Replace, Retired, NewEvents, Record, Deadline;
  }

  /**
   * With one sweeper no worker in flight ever names a live row, whatever the row's verification and whatever the
   * requests do.
   */
  lemma OneSweeperNamesNoLiveRow(steps: seq<Step>, w: WorkerId, v: VerificationId, k: AssetType)
    requires OrderlyRun(steps, false)
    requires w in Run(Empty, steps).jobs && HasRow(Run(Empty, steps), v, k) && Live(RowOf(Run(Empty, steps), v, k))
    ensures Run(Empty, steps).jobs[w].key != RowOf(Run(Empty, steps), v, k).objectKey
    ensures RowOf(Run(Empty, steps), v, k).objectKey !in Run(Empty, steps).events
  {
    hide IssuedInv, OneRowPerKey, Run;
    var s := Run(Empty, steps);
    RunInv(steps, false);
    assert JobInv(s, s.jobs[w], false);
    assert RowInv(s, v, k);
  }

  // ----- the promise that fails --------------------------------------------------------------

  const DRAFT: seq<Step> := [
    Create(1, map[STUDENT_CARD := 7], 0), Upload(7), ReadForSubmit(1, 1, {STUDENT_CARD}, 0), Submit(1),
    Tick(900000), ReadForSubmit(2, 1, {STUDENT_CARD}, 900000), ExpireUploads(2),
    Claim(0, 1, STUDENT_CARD, 7, 900000), DeleteObject(0, true), MarkDeleted(0)
  ]

  function Card(deleteAfter: Option<int>, claimedAt: Option<int>, deletedAt: Option<int>, submitted: bool): Assets {
    map[STUDENT_CARD := Asset(7, 900000, deleteAfter, claimedAt, deletedAt, submitted)]
  }

  function Draft(status: Status, assets: Assets): State {
    Empty.(verifications := map[1 := Verification(status, assets)], issued := {7}, store := {7})
  }

  lemma RunNext(steps: seq<Step>, k: nat, s: State, t: State)
    requires k < |steps| && Run(Empty, steps[..k]) == s && Next(s, steps[k]) == t
    ensures Run(Empty, steps[..k + 1]) == t
  {
    hide Next;
    assert steps[..k + 1][..k] == steps[..k];
  }

  lemma CardReplaced()
    ensures Replace(map[], map[STUDENT_CARD := 7], 0) == Card(Some(900000), None, None, false)
    ensures Retired(map[]) == {} && NewEvents({}) == map[]
  {
  }

  lemma CardRows(deleteAfter: Option<int>, submitted: bool, next: int)
    ensures var assets := Card(deleteAfter, None, None, submitted);
            && LiveKinds(assets) == {STUDENT_CARD}
            && Record(assets) == Card(None, None, None, true)
            && Deadline(assets, Some(next)) == Card(Some(next), None, None, submitted)
  {
  }

  /**
   * One sweeper, every request carried out at once: a second submission of a pending draft, made after the
   * upload grant expired, fails, and yet the pending verification's material is deleted.
   */
  lemma LateExpiryDeletesNeededMaterial()
    ensures OrderlyRun(DRAFT, false) && !NoLateExpiry(DRAFT)
    ensures Run(Empty, DRAFT[..4]) == Draft(PENDING, Card(None, None, None, true))
    ensures Run(Empty, DRAFT) ==
            Draft(PENDING, Card(Some(900000), None, Some(900000), true)).(clock := 900000, store := {})
  {
    hide Next, Draft, Card;
    assert DRAFT[..0] == [] && DRAFT[..10] == DRAFT;
    var s1 := Draft(AWAITING_UPLOAD, Card(Some(900000), None, None, false)).(store := {});
    var s2 := s1.(store := {7});
    var s3 := s2.(submissions := map[1 := Submission(1, {STUDENT_CARD}, 0, false)]);
    var s4 := Draft(PENDING, Card(None, None, None, true));
    var s5 := s4.(clock := 900000);
    var s6 := s5.(submissions := map[2 := Submission(1, {STUDENT_CARD}, 900000, true)]);
    var s7 := Draft(PENDING, Card(Some(900000), None, None, true)).(clock := 900000);
    var job := Job(1, STUDENT_CARD, 7, 900000, CLAIMED);
    var s8 := Draft(PENDING, Card(Some(900000), Some(900000), None, true)).(clock := 900000, jobs := map[0 := job]);
    var s9 := s8.(store := {}, jobs := map[0 := job.(phase := ERASED)]);
    var s10 := Draft(PENDING, Card(Some(900000), None, Some(900000), true)).(clock := 900000, store := {});
    Submitting(s1, s2, s3, s4);
    RunNext(DRAFT, 0, Empty, s1);
    RunNext(DRAFT, 1, s1, s2);
    RunNext(DRAFT, 2, s2, s3);
    RunNext(DRAFT, 3, s3, s4);
    Expiring(s4, s5, s6, s7);
    RunNext(DRAFT, 4, s4, s5);
    RunNext(DRAFT, 5, s5, s6);
    RunNext(DRAFT, 6, s6, s7);
    Erasing(s7, s8, s9, s10);
    RunNext(DRAFT, 7, s7, s8);
    RunNext(DRAFT, 8, s8, s9);
    RunNext(DRAFT, 9, s9, s10);
    assert Run(Empty, DRAFT[..7]).jobs == map[] && Run(Empty, DRAFT[..7]).listed == map[] by { NoJobs(); }
    assert LateExpiry(Run(Empty, DRAFT[..6]), DRAFT[6]) by { ExpiryIsLate(); }
    OneClaim();
  }

  lemma NoJobs()
    ensures forall status, assets :: Draft(status, assets).jobs == map[] && Draft(status, assets).listed == map[]
  {
  }

  lemma OneClaim()
    requires Run(Empty, DRAFT[..7]).jobs == map[] && Run(Empty, DRAFT[..7]).listed == map[]
    ensures OrderlyRun(DRAFT, false)
  {
    hide Run;
  }

  lemma ExpiryIsLate()
    ensures LateExpiry(
              Draft(PENDING, Card(None, None, None, true))
                .(clock := 900000, submissions := map[2 := Submission(1, {STUDENT_CARD}, 900000, true)]),
              DRAFT[6])
  {
    var assets := Card(None, None, None, true);
    assert STUDENT_CARD in assets && assets[STUDENT_CARD].deletedAt.None? && assets[STUDENT_CARD].submitted;
  }

  lemma Created()
    ensures Next(Empty, DRAFT[0]) == Draft(AWAITING_UPLOAD, Card(Some(900000), None, None, false)).(store := {})
  {
    hide Replace, Retired, NewEvents;
    CardReplaced();
    var uploads: map<AssetType, Key> := map[STUDENT_CARD := 7];
    assert uploads[STUDENT_CARD] == 7;
    assert 7 in uploads.Values && forall key :: key in uploads.Values ==> key == 7;
    assert uploads.Values == {7};
    assert FreshKeys(Empty, uploads);
  }

  lemma Submitting(s1: State, s2: State, s3: State, s4: State)
    requires s1 == Draft(AWAITING_UPLOAD, Card(Some(900000), None, None, false)).(store := {}) &&
             s2 == s1.(store := {7})
    requires s3 == s2.(submissions := map[1 := Submission(1, {STUDENT_CARD}, 0, false)])
    requires s4 == Draft(PENDING, Card(None, None, None, true))
    ensures Next(Empty, DRAFT[0]) == s1 && Next(s1, DRAFT[1]) == s2 && Next(s2, DRAFT[2]) == s3 &&
            Next(s3, DRAFT[3]) == s4
  {
    hide Record, LiveKinds, Reissue, FreshKeys;
    Created();
    CardRows(Some(900000), false, 0);
    assert s3.submissions - {1} == map[];
  }

  lemma Expiring(s4: State, s5: State, s6: State, s7: State)
    requires s4 == Draft(PENDING, Card(None, None, None, true)) && s5 == s4.(clock := 900000)
    requires s6 == s5.(submissions := map[2 := Submission(1, {STUDENT_CARD}, 900000, true)])
    requires s7 == Draft(PENDING, Card(Some(900000), None, None, true)).(clock := 900000)
    ensures Next(s4, DRAFT[4]) == s5 && Next(s5, DRAFT[5]) == s6 && Next(s6, DRAFT[6]) == s7
  {
    hide Deadline, LiveKinds;
    CardRows(None, true, 900000);
    assert STUDENT_CARD in s5.verifications[1].assets &&
           s5.verifications[1].assets[STUDENT_CARD].uploadExpiresAt <= 900000;
    assert s6.submissions - {2} == map[];
  }

  lemma Erasing(s7: State, s8: State, s9: State, s10: State)
    requires s7 == Draft(PENDING, Card(Some(900000), None, None, true)).(clock := 900000)
    requires var job := Job(1, STUDENT_CARD, 7, 900000, CLAIMED);
             && s8 == Draft(PENDING, Card(Some(900000), Some(900000), None, true)).(clock := 900000,
                  jobs := map[0 := job])
             && s9 == s8.(store := {}, jobs := map[0 := job.(phase := ERASED)])
    requires s10 == Draft(PENDING, Card(Some(900000), None, Some(900000), true)).(clock := 900000, store := {})
    ensures Next(s7, DRAFT[7]) == s8 && Next(s8, DRAFT[8]) == s9 && Next(s9, DRAFT[9]) == s10
  {
    assert s9.jobs - {0} == map[];
    assert s7.verifications[1].assets[STUDENT_CARD := s8.verifications[1].assets[STUDENT_CARD]] ==
           s8.verifications[1].assets;
    assert s9.verifications[1].assets[STUDENT_CARD := s10.verifications[1].assets[STUDENT_CARD]] ==
           s10.verifications[1].assets;
  }
}
