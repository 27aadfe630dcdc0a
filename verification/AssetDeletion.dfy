/**
 * Verification material: uploads, submissions, reviews and replacements of
 * apps/api/src/verification/verification.service.ts and apps/api/src/admin/admin-verification.service.ts
 * interleaved with the claim / delete / compare-and-set protocol of
 * apps/worker/src/verification-asset-deletion.ts.
 */
module AssetDeletion {
  import opened Wrappers

  type Key = nat
  type VerificationId = nat
  type WorkerId = nat
  type RequestId = nat
  type ListingId = nat

  const STALE_CLAIM_MS: int := 300000
  const UPLOAD_LIFETIME_MS: int := 900000
  const REVIEW_MATERIAL_RETENTION_MS: int := 86400000

  datatype Status =
    | AWAITING_UPLOAD | UPLOAD_EXPIRED | PENDING | VERIFIED | REJECTED
    | REQUIRE_RESUBMISSION | RESUBMISSION_AWAITING_UPLOAD | RESUBMISSION_PENDING | VERIFICATION_EXPIRED
  datatype AssetType = STUDENT_CARD | WECOM_SCREENSHOT
  /** A submitted asset is one whose content digest has been recorded. */
  datatype Asset =
    Asset(objectKey: Key, uploadExpiresAt: int, deleteAfter: Option<int>, claimedAt: Option<int>,
          deletedAt: Option<int>,
          submitted: bool)
  type Assets = map<AssetType, Asset>
  datatype Verification = Verification(status: Status, assets: Assets)
  datatype Decision = APPROVE | REJECT | REQUIRE

  /** A worker between the claim of a due asset and the end of its deletion. */
  datatype Phase = CLAIMED | ERASED | FAILED
  datatype Job = Job(v: VerificationId, kind: AssetType, key: Key, now: int, phase: Phase)

  /** A delete event a sweeper has listed, until it is recorded; a sweeper that lists several has one for each. */
  datatype Listing = Listing(key: Key, gone: bool)

  /** A submission between its first read and its transaction. */
  datatype Submission = Submission(v: VerificationId, kinds: set<AssetType>, now: int, expired: bool)

  /** Delete events are kept under the object key they name; true means published. */
  datatype State = State(
    verifications: map<VerificationId, Verification>, events: map<Key, bool>, listed: map<ListingId, Listing>,
    store: set<Key>, issued: set<Key>, jobs: map<WorkerId, Job>, submissions: map<RequestId, Submission>, clock: int)

  datatype Step =
    | Create(v: VerificationId, uploads: map<AssetType, Key>, now: int)
    | CreateResubmission(v: VerificationId, uploads: map<AssetType, Key>, now: int)
    | ReadForSubmit(r: RequestId, v: VerificationId, kinds: set<AssetType>, now: int)
    | ExpireUploads(r: RequestId)
    | Submit(r: RequestId)
    | Review(v: VerificationId, decision: Decision, now: int)
    | CredentialExpires(v: VerificationId)
    | Claim(w: WorkerId, v: VerificationId, kind: AssetType, key: Key, now: int)
    | DeleteObject(w: WorkerId, succeeds: bool)
    | MarkDeleted(w: WorkerId)
    | ReleaseClaim(w: WorkerId)
    | Crash(w: WorkerId)
    | ListEvent(l: ListingId, key: Key)
    | EraseEvent(l: ListingId)
    | PublishEvent(l: ListingId)
    | FailEvent(l: ListingId)
    | Upload(key: Key)
    | Tick(time: int)

  const Empty: State := State(map[], map[], map[], {}, {}, map[], map[], 0)

  // ----- rows --------------------------------------------------------------------------------

  predicate Live(asset: Asset) {
    asset.deletedAt.None? && asset.claimedAt.None?
  }

  function LiveKinds(assets: Assets): set<AssetType> {
    set t | t in assets && Live(assets[t])
  }

  predicate Awaiting(status: Status) {
    status.AWAITING_UPLOAD? || status.RESUBMISSION_AWAITING_UPLOAD?
  }

  predicate Reviewable(status: Status) {
    status.PENDING? || status.RESUBMISSION_PENDING?
  }

  predicate CanCreateAfter(status: Status) {
    status.REJECTED? || status.VERIFICATION_EXPIRED?
  }

  function Issued(key: Key, now: int): Asset {
    Asset(key, now + UPLOAD_LIFETIME_MS, Some(now + UPLOAD_LIFETIME_MS), None, None, false)
  }

  /** retireAndReplaceAssets: replaced rows take the new upload, the others end. */
  function Replace(assets: Assets, uploads: map<AssetType, Key>, now: int): Assets {
    map t | t in assets.Keys + uploads.Keys ::
      if t in uploads then Issued(uploads[t], now)
      else assets[t].(deleteAfter := Some(now), claimedAt := None, deletedAt := Some(now))
  }

  /** The keys for which retireAndReplaceAssets creates delete events. */
  function Retired(assets: Assets): set<Key> {
    set t | t in assets && assets[t].deletedAt.None? :: assets[t].objectKey
  }

  function NewEvents(keys: set<Key>): map<Key, bool> {
    map k | k in keys :: false
  }

  function Deadline(assets: Assets, deleteAfter: Option<int>): Assets {
    map t | t in assets :: if Live(assets[t]) then assets[t].(deleteAfter := deleteAfter) else assets[t]
  }

  /** What a submission's transaction does to each live row. */
  function Record(assets: Assets): Assets {
    map t | t in assets :: if Live(assets[t]) then assets[t].(deleteAfter := None, submitted := true) else assets[t]
  }

  function Submitted(status: Status): Option<Status> {
    match status
    case AWAITING_UPLOAD => Some(PENDING)
    case RESUBMISSION_AWAITING_UPLOAD => Some(RESUBMISSION_PENDING)
    case _ => None
  }

  function Reviewed(decision: Decision): Status {
    match decision
    case APPROVE => VERIFIED
    case REJECT => REJECTED
    case REQUIRE => REQUIRE_RESUBMISSION
  }

  predicate Due(asset: Asset, now: int) {
    && asset.deletedAt.None?
    && asset.deleteAfter.Some? && asset.deleteAfter.value <= now
    && (asset.claimedAt.None? || asset.claimedAt.value <= now - STALE_CLAIM_MS)
  }

  // ----- steps -------------------------------------------------------------------------------

  predicate HasRow(s: State, v: VerificationId, t: AssetType) {
    v in s.verifications && t in s.verifications[v].assets
  }

  function RowOf(s: State, v: VerificationId, t: AssetType): Asset
    requires HasRow(s, v, t)
  {
    s.verifications[v].assets[t]
  }

  function WithRow(s: State, v: VerificationId, t: AssetType, asset: Asset): State
    requires HasRow(s, v, t)
  {
    s.(verifications := s.verifications[v := s.verifications[v].(assets := s.verifications[v].assets[t := asset])])
  }

  /** One row is replaced, and no other, and no status. */
  lemma WithRowOnly(s: State, v: VerificationId, t: AssetType, asset: Asset)
    requires HasRow(s, v, t)
    ensures var after := WithRow(s, v, t, asset);
            && after == s.(verifications := after.verifications)
            && (forall u, k :: HasRow(after, u, k) <==> HasRow(s, u, k))
            && (forall u, k :: HasRow(after, u, k) ==>
                  RowOf(after, u, k) == if u == v && k == t then asset else RowOf(s, u, k))
            && after.verifications.Keys == s.verifications.Keys
            && (forall u :: u in s.verifications ==> after.verifications[u].status == s.verifications[u].status)
  {
  }

  /** Object keys are random: each issued key is new. */
  predicate FreshKeys(s: State, uploads: map<AssetType, Key>) {
    uploads != map[] && (forall t :: t in uploads ==> uploads[t] !in s.issued) &&
    (forall t, u :: t in uploads && u in uploads && t != u ==> uploads[t] != uploads[u])
  }

  /** VerificationAsset_upload_window_check: no row's deletion is due before its upload expires. */
  predicate DeadlineAllowed(assets: Assets, deadline: int) {
    forall t :: t in LiveKinds(assets) ==> assets[t].uploadExpiresAt <= deadline
  }

  /** The same check on the rows that retireAndReplaceAssets ends without replacing them. */
  predicate RetireAllowed(assets: Assets, replaced: set<AssetType>, now: int) {
    forall t :: t in assets && t !in replaced ==> assets[t].uploadExpiresAt <= now
  }

  function Reissue(s: State, v: VerificationId, assets: Assets, uploads: map<AssetType, Key>, now: int,
                   status: Status): State {
    s.(verifications := s.verifications[v := Verification(status, Replace(assets, uploads, now))],
       events := s.events + NewEvents(Retired(assets)),
       issued := s.issued + uploads.Values)
  }

  predicate PendingEvent(s: State, key: Key) {
    key in s.events && !s.events[key]
  }

  /**
   * One step. A claim is released when deleting or marking fails, an event given up likewise or by a crash. What the
   * schema refuses is an aborted transaction: a deadline before the upload expires, and the expiry of a resubmission,
   * since StudentVerification_state_time_check allows UPLOAD_EXPIRED only to a verification that was never submitted.
   */
  function Next(s: State, step: Step): State {
    match step
    case Create(v, uploads, now) =>
      if now > s.clock || !FreshKeys(s, uploads) then s
      else if v !in s.verifications then Reissue(s, v, map[], uploads, now, AWAITING_UPLOAD)
      else if !CanCreateAfter(s.verifications[v].status) then s
      else if !RetireAllowed(s.verifications[v].assets, uploads.Keys, now) then s
      else Reissue(s, v, s.verifications[v].assets, uploads, now, AWAITING_UPLOAD)
    case CreateResubmission(v, uploads, now) =>
      if now > s.clock || !FreshKeys(s, uploads) || v !in s.verifications ||
        !s.verifications[v].status.REQUIRE_RESUBMISSION? then s
      else if !RetireAllowed(s.verifications[v].assets, uploads.Keys, now) then s
      else Reissue(s, v, s.verifications[v].assets, uploads, now, RESUBMISSION_AWAITING_UPLOAD)
    case ReadForSubmit(r, v, kinds, now) =>
      if now > s.clock || r in s.submissions || v !in s.verifications then s
      else
        var assets := s.verifications[v].assets;
        if LiveKinds(assets) == {} || kinds != LiveKinds(assets) then s
        else
          var expired := exists t :: t in kinds && assets[t].uploadExpiresAt <= now;
          s.(submissions := s.submissions[r := Submission(v, kinds, now, expired)])
    case ExpireUploads(r) =>
      if r !in s.submissions || !s.submissions[r].expired || s.submissions[r].v !in s.verifications then s
      else
        var submission := s.submissions[r];
        var verification := s.verifications[submission.v];
        var closed := s.(submissions := s.submissions - {r});
        var status := if Awaiting(verification.status) then UPLOAD_EXPIRED else verification.status;
        if verification.status.RESUBMISSION_AWAITING_UPLOAD? || !DeadlineAllowed(verification.assets, submission.now)
        then closed
        else
          closed.(verifications := s.verifications[
            submission.v := Verification(status, Deadline(verification.assets, Some(submission.now)))])
    case Submit(r) =>
      if r !in s.submissions || s.submissions[r].expired || s.submissions[r].v !in s.verifications then s
      else
        var submission := s.submissions[r];
        var verification := s.verifications[submission.v];
        var closed := s.(submissions := s.submissions - {r});
        if LiveKinds(verification.assets) != submission.kinds || Submitted(verification.status).None? then closed
        else
          closed.(verifications := s.verifications[
            submission.v := Verification(Submitted(verification.status).value, Record(verification.assets))])
    case Review(v, decision, now) =>
      if now > s.clock || v !in s.verifications || !Reviewable(s.verifications[v].status) ||
        !DeadlineAllowed(s.verifications[v].assets, now + REVIEW_MATERIAL_RETENTION_MS) then s
      else
        s.(verifications := s.verifications[
          v := Verification(Reviewed(decision),
                            Deadline(s.verifications[v].assets, Some(now + REVIEW_MATERIAL_RETENTION_MS)))])
    case CredentialExpires(v) =>
      if v !in s.verifications || !s.verifications[v].status.VERIFIED? then s
      else s.(verifications := s.verifications[v := s.verifications[v].(status := VERIFICATION_EXPIRED)])
    case Claim(w, v, kind, key, now) =>
      if now > s.clock || w in s.jobs || !HasRow(s, v, kind) || RowOf(s, v, kind).objectKey != key ||
        !Due(RowOf(s, v, kind), now)
      then s
      else WithRow(s, v, kind,
                   RowOf(s, v, kind).(claimedAt := Some(now))).(jobs := s.jobs[w := Job(v, kind, key, now, CLAIMED)])
    case DeleteObject(w, succeeds) =>
      if w !in s.jobs || !s.jobs[w].phase.CLAIMED? then s
      else if !succeeds then s.(jobs := s.jobs[w := s.jobs[w].(phase := FAILED)])
      else s.(store := s.store - {s.jobs[w].key}, jobs := s.jobs[w := s.jobs[w].(phase := ERASED)])
    case MarkDeleted(w) =>
      if w !in s.jobs || !s.jobs[w].phase.ERASED? then s
      else
        var job := s.jobs[w];
        var done := s.(jobs := s.jobs - {w});
        if Holds(s, job) then WithRow(done, job.v, job.kind,
                                      RowOf(s, job.v, job.kind).(deletedAt := Some(job.now), claimedAt := None))
        else done
    case ReleaseClaim(w) =>
      if w !in s.jobs || s.jobs[w].phase.CLAIMED? then s
      else
        var job := s.jobs[w];
        var done := s.(jobs := s.jobs - {w});
        if Holds(s, job) then WithRow(done, job.v, job.kind, RowOf(s, job.v, job.kind).(claimedAt := None)) else done
    case Crash(w) => s.(jobs := s.jobs - {w})
    case ListEvent(l, key) =>
      if l in s.listed || !PendingEvent(s, key) then s else s.(listed := s.listed[l := Listing(key, false)])
    case EraseEvent(l) =>
      if l !in s.listed || s.listed[l].gone then s
      else s.(store := s.store - {s.listed[l].key}, listed := s.listed[l := s.listed[l].(gone := true)])
    case PublishEvent(l) =>
      if l !in s.listed || !s.listed[l].gone then s
      else
        var key := s.listed[l].key;
        s.(events := if key in s.events then s.events[key := true] else s.events, listed := s.listed - {l})
    case FailEvent(l) => s.(listed := s.listed - {l})
    case Upload(key) =>
      if key !in s.issued then s else s.(store := s.store + {key})
    case Tick(time) =>
      if time <= s.clock then s else s.(clock := time)
  }

  /** The compare-and-set of markAssetDeleted and releaseAssetClaim: the row still carries this very claim. */
  predicate Holds(s: State, job: Job) {
    && HasRow(s, job.v, job.kind)
    && var row := RowOf(s, job.v, job.kind);
       row.objectKey == job.key && row.deletedAt.None? && row.claimedAt == Some(job.now)
  }

  function Run(s: State, steps: seq<Step>): State {
    if steps == [] then s else Next(Run(s, steps[..|steps| - 1]), steps[|steps| - 1])
  }

  // ----- what every run keeps ----------------------------------------------------------------

  ghost predicate IssuedInv(s: State) {
    && (forall v, t :: HasRow(s, v, t) ==> RowOf(s, v, t).objectKey in s.issued)
    && s.events.Keys <= s.issued && s.store <= s.issued
    && (forall w :: w in s.jobs ==> s.jobs[w].key in s.issued)
  }

  ghost predicate OneRowPerKey(s: State) {
    forall v, t, u, q :: HasRow(s, v, t) && HasRow(s, u, q) && RowOf(s, v, t).objectKey == RowOf(s, u, q).objectKey ==>
      v == u && t == q
  }

  /** An event names a key only once its row has ended or moved on; in an awaiting draft nothing is submitted yet. */
  predicate RowInv(s: State, v: VerificationId, t: AssetType)
    requires HasRow(s, v, t)
  {
    var row := RowOf(s, v, t);
    && (row.deletedAt.None? ==> row.objectKey !in s.events)
    && (row.deletedAt.Some? ==> row.claimedAt.None?)
    && (Awaiting(s.verifications[v].status) && row.deletedAt.None? ==>
          row.deleteAfter == Some(row.uploadExpiresAt) && !row.submitted)
  }

  ghost predicate RowsInv(s: State) {
    forall v, t :: HasRow(s, v, t) ==> RowInv(s, v, t)
  }

  /** The job's key is still on an undeleted row. */
  predicate Names(s: State, job: Job) {
    HasRow(s, job.v, job.kind) && RowOf(s, job.v, job.kind).objectKey == job.key &&
      RowOf(s, job.v, job.kind).deletedAt.None?
  }

  predicate Overtaken(s: State, job: Job) {
    s.clock >= job.now + STALE_CLAIM_MS
  }

  ghost predicate JobInv(s: State, job: Job, many: bool) {
    && job.now <= s.clock
    && (forall v, t :: HasRow(s, v, t) && RowOf(s, v, t).objectKey == job.key ==> v == job.v && t == job.kind)
    && (Names(s, job) && Awaiting(s.verifications[job.v].status) ==>
        job.now >= RowOf(s, job.v, job.kind).uploadExpiresAt)
    && (Names(s, job) ==> RowOf(s, job.v, job.kind).claimedAt == Some(job.now) || (many && Overtaken(s, job)))
  }

  /** One sweeper has one claim at a time; of several sweepers with one key, all but one were overtaken as stale. */
  ghost predicate JobsInv(s: State, many: bool) {
    && (forall w :: w in s.jobs ==> JobInv(s, s.jobs[w], many))
    && (forall w, x :: w in s.jobs && x in s.jobs && w != x ==> many)
    && (forall w, x :: w in s.jobs && x in s.jobs && w != x && s.jobs[w].key == s.jobs[x].key && Names(s, s.jobs[w]) ==>
          Overtaken(s, s.jobs[w]) || Overtaken(s, s.jobs[x]))
  }

  /** One sweeper lists each event once and handles its list before it claims a row. */
  ghost predicate ListedInv(s: State, many: bool) {
    && (forall l :: l in s.listed ==> s.listed[l].key in s.events)
    && (many || s.listed == map[] || s.jobs == map[])
    && (forall l :: l in s.listed ==> many || PendingEvent(s, s.listed[l].key))
    && (forall l, m :: l in s.listed && m in s.listed && l != m ==> many || s.listed[l].key != s.listed[m].key)
  }

  ghost predicate Inv(s: State, many: bool) {
    IssuedInv(s) && OneRowPerKey(s) && RowsInv(s) && JobsInv(s, many) && ListedInv(s, many)
  }

  /** A request that read an unexpired draft: what it will submit does not expire before its own time. */
  ghost predicate SubmissionsInv(s: State) {
    forall r, t :: r in s.submissions && !s.submissions[r].expired && t in s.submissions[r].kinds ==>
      HasRow(s, s.submissions[r].v, t) && RowOf(s, s.submissions[r].v, t).uploadExpiresAt > s.submissions[r].now
  }

  /** The material a review may need. */
  predicate Needed(s: State, v: VerificationId, t: AssetType) {
    HasRow(s, v, t) && Reviewable(s.verifications[v].status) && RowOf(s, v, t).deletedAt.None? &&
      RowOf(s, v, t).submitted
  }

  /** Needed material has no deadline and no claim, and neither a worker in flight nor an event names it. */
  ghost predicate MaterialSafe(s: State) {
    forall v, t :: Needed(s, v, t) ==>
      && RowOf(s, v, t).deleteAfter.None? && RowOf(s, v, t).claimedAt.None?
      && RowOf(s, v, t).objectKey !in s.events
      && forall w :: w in s.jobs ==> s.jobs[w].key != RowOf(s, v, t).objectKey
  }

  // ----- the steps that touch rows -----------------------------------------------------------

  /** What a change of one verification's rows may do to each row; used for every such step. */
  predicate RowMoved(before: Asset, after: Asset) {
    && after.objectKey == before.objectKey && after.uploadExpiresAt == before.uploadExpiresAt
    && after.deletedAt == before.deletedAt && after.claimedAt == before.claimedAt
  }

  /** Deadlines and status move; keys, claims and deletions stay. */
  predicate OnlyDeadlines(s: State, t: State, v: VerificationId) {
    && v in s.verifications && v in t.verifications
    && t.verifications == s.verifications[v := t.verifications[v]]
    && t.verifications[v].assets.Keys == s.verifications[v].assets.Keys
    && (forall k :: k in s.verifications[v].assets ==>
        RowMoved(s.verifications[v].assets[k], t.verifications[v].assets[k]))
    && !Awaiting(t.verifications[v].status)
    && t.events == s.events && t.store == s.store && t.issued == s.issued && t.jobs == s.jobs && t.listed == s.listed
    && t.clock == s.clock
  }

  lemma DeadlinesInv(s: State, t: State, v: VerificationId, many: bool)
    requires Inv(s, many) && OnlyDeadlines(s, t, v)
    ensures Inv(t, many)
  {
    assert forall u, k :: HasRow(t, u, k) <==> HasRow(s, u, k);
    assert forall u, k :: HasRow(t, u, k) ==> RowMoved(RowOf(s, u, k), RowOf(t, u, k));
    assert forall w :: w in s.jobs ==> (Names(t, s.jobs[w]) <==> Names(s, s.jobs[w]));
  }

  /** The rows after a reissue: new uploads, ended rows, and everybody else's rows as they were. */
  ghost predicate Reissued(s: State, t: State, v: VerificationId, uploads: map<AssetType, Key>) {
    && (forall u, k :: HasRow(t, u, k) <==> HasRow(s, u, k) || (u == v && k in uploads))
    && (forall u, k :: HasRow(t, u, k) && u != v ==>
        RowOf(t, u, k) == RowOf(s, u, k) && t.verifications[u] == s.verifications[u])
    && (forall k :: k in uploads ==>
          var row := RowOf(t, v, k);
          && row.objectKey == uploads[k] && row.objectKey !in s.issued && Live(row) && !row.submitted
          && row.deleteAfter == Some(row.uploadExpiresAt))
    && (forall k :: HasRow(t, v, k) && k !in uploads ==>
          var row := RowOf(t, v, k);
          && row.objectKey == RowOf(s, v, k).objectKey && row.uploadExpiresAt == RowOf(s, v, k).uploadExpiresAt
          && row.deletedAt.Some? && row.claimedAt.None?)
    && (forall k, l :: k in uploads && l in uploads && k != l ==> uploads[k] != uploads[l])
    && t.issued == s.issued + uploads.Values && t.store == s.store && t.listed == s.listed && t.jobs == s.jobs &&
       t.clock == s.clock
    && EventsAdded(s, t, v)
  }

  predicate Ending(s: State, v: VerificationId, k: AssetType, key: Key) {
    HasRow(s, v, k) && RowOf(s, v, k).deletedAt.None? && RowOf(s, v, k).objectKey == key
  }

  ghost predicate EventsAdded(s: State, t: State, v: VerificationId) {
    && (forall key :: key in s.events ==> key in t.events)
    && (forall key :: key in t.events && key !in s.events ==> exists k :: Ending(s, v, k, key))
    && (forall k, key :: Ending(s, v, k, key) ==> key in t.events && !t.events[key])
    && (forall key :: key in s.events && (forall k :: !Ending(s, v, k, key)) ==> t.events[key] == s.events[key])
  }

  lemma ReissueRows(s: State, v: VerificationId, assets: Assets, uploads: map<AssetType, Key>, now: int, status: Status)
    requires FreshKeys(s, uploads)
    requires assets == if v in s.verifications then s.verifications[v].assets else map[]
    ensures Reissued(s, Reissue(s, v, assets, uploads, now, status), v, uploads)
  {
    hide EventsAdded;
    ReissueEvents(s, v, assets, uploads, now, status);
  }

  lemma ReissueEvents(s: State, v: VerificationId, assets: Assets, uploads: map<AssetType, Key>, now: int,
                      status: Status)
    requires assets == if v in s.verifications then s.verifications[v].assets else map[]
    ensures EventsAdded(s, Reissue(s, v, assets, uploads, now, status), v)
  {
    hide Replace;
    var t := Reissue(s, v, assets, uploads, now, status);
    assert t.events == s.events + NewEvents(Retired(assets));
    forall k, key | Ending(s, v, k, key) ensures key in Retired(assets) {
    }
    forall key | key in Retired(assets) ensures exists k :: Ending(s, v, k, key) {
      var k :| k in assets && assets[k].deletedAt.None? && assets[k].objectKey == key;
      assert Ending(s, v, k, key);
    }
  }

  lemma ReissuedOneRow(s: State, t: State, v: VerificationId, uploads: map<AssetType, Key>)
    requires IssuedInv(s) && OneRowPerKey(s) && Reissued(s, t, v, uploads)
    ensures OneRowPerKey(t)
  {
    forall u, k, w, q | HasRow(t, u, k) && HasRow(t, w, q) && RowOf(t, u, k).objectKey == RowOf(t, w, q).objectKey
      ensures u == w && k == q
    {
      var left := u == v && k in uploads;
      var right := w == v && q in uploads;
      if !left {
        assert HasRow(s, u, k) && RowOf(s, u, k).objectKey == RowOf(t, u, k).objectKey;
      }
      if !right {
        assert HasRow(s, w, q) && RowOf(s, w, q).objectKey == RowOf(t, w, q).objectKey;
      }
    }
  }

  lemma ReissuedIssued(s: State, t: State, v: VerificationId, uploads: map<AssetType, Key>)
    requires IssuedInv(s) && Reissued(s, t, v, uploads)
    ensures IssuedInv(t)
  {
    forall u, k | HasRow(t, u, k) ensures RowOf(t, u, k).objectKey in t.issued {
      if u == v && k in uploads {
        assert uploads[k] in uploads.Values;
      } else {
        assert HasRow(s, u, k);
      }
    }
  }

  lemma ReissuedRows(s: State, t: State, v: VerificationId, uploads: map<AssetType, Key>)
    requires IssuedInv(s) && OneRowPerKey(s) && RowsInv(s) && Reissued(s, t, v, uploads)
    ensures RowsInv(t)
  {
    forall u, k | HasRow(t, u, k) ensures RowInv(t, u, k) {
      var row := RowOf(t, u, k);
      if u != v {
        assert RowInv(s, u, k);
      }
      if row.deletedAt.None? {
        assert forall q :: !Ending(s, v, q, row.objectKey);
      }
    }
  }

  lemma ReissuedJobs(s: State, t: State, v: VerificationId, uploads: map<AssetType, Key>, many: bool)
    requires IssuedInv(s) && JobsInv(s, many) && Reissued(s, t, v, uploads)
    ensures JobsInv(t, many)
  {
    forall w | w in t.jobs ensures JobInv(t, t.jobs[w], many) && (Names(t, t.jobs[w]) ==> Names(s, t.jobs[w])) {
      var job := t.jobs[w];
      assert JobInv(s, job, many);
      forall u, k | HasRow(t, u, k) && RowOf(t, u, k).objectKey == job.key ensures u == job.v && k == job.kind {
        assert !(u == v && k in uploads);
        assert HasRow(s, u, k) && RowOf(s, u, k).objectKey == job.key;
      }
    }
  }

  lemma ReissueInv(s: State, v: VerificationId, assets: Assets, uploads: map<AssetType, Key>, now: int, status: Status,
                   many: bool)
    requires Inv(s, many) && FreshKeys(s, uploads)
    requires assets == if v in s.verifications then s.verifications[v].assets else map[]
    ensures Inv(Reissue(s, v, assets, uploads, now, status), many)
  {
    hide Reissue, Reissued, IssuedInv, OneRowPerKey, RowsInv, JobsInv, ListedInv, FreshKeys;
    var t := Reissue(s, v, assets, uploads, now, status);
    ReissueRows(s, v, assets, uploads, now, status);
    ReissuedOneRow(s, t, v, uploads);
    ReissuedIssued(s, t, v, uploads);
    ReissuedRows(s, t, v, uploads);
    ReissuedJobs(s, t, v, uploads, many);
    ReissuedListed(s, t, v, uploads, many);
  }

  /** An event stays pending, and the new ones are. */
  lemma ReissuedListed(s: State, t: State, v: VerificationId, uploads: map<AssetType, Key>, many: bool)
    requires ListedInv(s, many) && Reissued(s, t, v, uploads)
    ensures ListedInv(t, many)
  {
    forall key | key in s.events ensures key in t.events && (PendingEvent(s, key) ==> PendingEvent(t, key)) {
      if k :| Ending(s, v, k, key) {
      }
    }
  }

  /** The compare-and-set steps change the claim or deletion mark of one row. */
  predicate OneRow(s: State, t: State, v: VerificationId, k: AssetType, claimedAt: Option<int>,
                   deletedAt: Option<int>) {
    && HasRow(s, v, k)
    && t == WithRow(s, v, k, RowOf(s, v, k).(claimedAt := claimedAt, deletedAt := deletedAt)).(jobs := t.jobs)
  }

  lemma OneRowKeeps(s: State, t: State, v: VerificationId, k: AssetType, claimedAt: Option<int>, deletedAt: Option<int>)
    requires OneRow(s, t, v, k, claimedAt, deletedAt) && IssuedInv(s) && OneRowPerKey(s) && RowsInv(s)
    requires RowOf(s, v, k).deletedAt.None? && (deletedAt.Some? ==> claimedAt.None?)
    requires forall w :: w in t.jobs ==> t.jobs[w].key in s.issued
    ensures IssuedInv(t) && OneRowPerKey(t) && RowsInv(t)
    ensures forall u, q :: HasRow(t, u, q) <==> HasRow(s, u, q)
    ensures forall u, q :: HasRow(t, u, q) && !(u == v && q == k) ==> RowOf(t, u, q) == RowOf(s, u, q)
    ensures RowOf(t, v, k) == RowOf(s, v, k).(claimedAt := claimedAt, deletedAt := deletedAt)
    ensures forall u :: u in t.verifications <==> u in s.verifications
    ensures forall u :: u in t.verifications ==> t.verifications[u].status == s.verifications[u].status
  {
    assert forall u, q :: HasRow(t, u, q) <==> HasRow(s, u, q);
    assert forall u, q :: HasRow(t, u, q) ==> RowOf(t, u, q).objectKey == RowOf(s, u, q).objectKey;
    forall u, q | HasRow(t, u, q) ensures RowInv(t, u, q) {
      assert RowInv(s, u, q);
    }
  }

  lemma ClaimInv(s: State, w: WorkerId, v: VerificationId, kind: AssetType, key: Key, now: int, many: bool)
    requires Inv(s, many) && (!many ==> s.jobs == map[] && s.listed == map[])
    ensures Inv(Next(s, Claim(w, v, kind, key, now)), many)
  {
    hide IssuedInv, OneRowPerKey, RowsInv;
    var t := Next(s, Claim(w, v, kind, key, now));
    if t != s {
      KeyIssued(s, v, kind);
      OneRowKeeps(s, t, v, kind, Some(now), None);
      assert RowOf(s, v, kind) == RowOf(s, v, kind).(deletedAt := None);
      ClaimedJobs(s, t, w, v, kind, now, many);
    }
  }

  lemma KeyIssued(s: State, v: VerificationId, k: AssetType)
    requires IssuedInv(s) && HasRow(s, v, k)
    ensures RowOf(s, v, k).objectKey in s.issued
    ensures forall w :: w in s.jobs ==> s.jobs[w].key in s.issued
  {
  }

  lemma ClaimedJobs(s: State, t: State, w: WorkerId, v: VerificationId, kind: AssetType, now: int, many: bool)
    requires JobsInv(s, many) && OneRowPerKey(t) && RowsInv(s) && (!many ==> s.jobs == map[])
    requires w !in s.jobs && HasRow(s, v, kind) && Due(RowOf(s, v, kind), now) && now <= s.clock == t.clock
    requires t.jobs == s.jobs[w := Job(v, kind, RowOf(s, v, kind).objectKey, now, CLAIMED)]
    requires forall u, q :: HasRow(t, u, q) <==> HasRow(s, u, q)
    requires forall u, q :: HasRow(t, u, q) && !(u == v && q == kind) ==> RowOf(t, u, q) == RowOf(s, u, q)
    requires RowOf(t, v, kind) == RowOf(s, v, kind).(claimedAt := Some(now))
    requires forall u :: u in t.verifications <==> u in s.verifications
    requires forall u :: u in t.verifications ==> t.verifications[u].status == s.verifications[u].status
    ensures JobsInv(t, many)
  {
    var row := RowOf(s, v, kind);
    assert RowInv(s, v, kind);
    forall x | x in s.jobs ensures JobInv(t, s.jobs[x], many) && (Names(t, s.jobs[x]) <==> Names(s, s.jobs[x]))
      && (s.jobs[x].key == row.objectKey ==> Overtaken(s, s.jobs[x]))
    {
      assert JobInv(s, s.jobs[x], many);
    }
    forall u, q | HasRow(t, u, q) && RowOf(t, u, q).objectKey == row.objectKey ensures u == v && q == kind {
      assert RowOf(t, v, kind).objectKey == row.objectKey;
    }
    assert JobInv(t, t.jobs[w], many);
  }

  /** When the holder of a claim gives it up, every other worker with that key has been overtaken. */
  lemma ClaimDropped(s: State, t: State, w: WorkerId, claimedAt: Option<int>, deletedAt: Option<int>, many: bool)
    requires JobsInv(s, many) && w in s.jobs && Holds(s, s.jobs[w])
    requires var job := s.jobs[w];
             && RowOfIs(s, t, job.v, job.kind, claimedAt, deletedAt)
             && t.jobs == s.jobs - {w} && t.clock == s.clock
    ensures JobsInv(t, many)
  {
    var job := s.jobs[w];
    assert Names(s, job);
    forall x | x in t.jobs ensures JobInv(t, t.jobs[x], many) && (Names(t, t.jobs[x]) ==> Names(s, t.jobs[x])) {
      assert JobInv(s, s.jobs[x], many);
    }
  }

  ghost predicate RowOfIs(s: State, t: State, v: VerificationId, k: AssetType, claimedAt: Option<int>,
                          deletedAt: Option<int>)
    requires HasRow(s, v, k)
  {
    && (forall u, q :: HasRow(t, u, q) <==> HasRow(s, u, q))
    && (forall u, q :: HasRow(t, u, q) && !(u == v && q == k) ==> RowOf(t, u, q) == RowOf(s, u, q))
    && RowOf(t, v, k) == RowOf(s, v, k).(claimedAt := claimedAt, deletedAt := deletedAt)
    && (forall u :: u in t.verifications <==> u in s.verifications)
    && (forall u :: u in t.verifications ==> t.verifications[u].status == s.verifications[u].status)
  }

  lemma MarkInv(s: State, w: WorkerId, many: bool)
    requires Inv(s, many)
    ensures Inv(Next(s, MarkDeleted(w)), many)
  {
    hide IssuedInv, OneRowPerKey, RowsInv, JobsInv;
    var t := Next(s, MarkDeleted(w));
    if w in s.jobs && s.jobs[w].phase.ERASED? {
      FewerJobs(s, w, many);
      var done := s.(jobs := s.jobs - {w});
      var job := s.jobs[w];
      if Holds(s, job) {
        KeyIssued(s, job.v, job.kind);
        OneRowKeeps(s, t, job.v, job.kind, None, Some(job.now));
        ClaimDropped(s, t, w, None, Some(job.now), many);
      }
    }
  }

  lemma ReleaseInv(s: State, w: WorkerId, many: bool)
    requires Inv(s, many)
    ensures Inv(Next(s, ReleaseClaim(w)), many)
  {
    hide IssuedInv, OneRowPerKey, RowsInv, JobsInv;
    var t := Next(s, ReleaseClaim(w));
    if w in s.jobs && !s.jobs[w].phase.CLAIMED? {
      FewerJobs(s, w, many);
      var job := s.jobs[w];
      if Holds(s, job) {
        KeyIssued(s, job.v, job.kind);
        OneRowKeeps(s, t, job.v, job.kind, None, None);
        assert RowOf(s, job.v, job.kind) == RowOf(s, job.v, job.kind).(deletedAt := None);
        ClaimDropped(s, t, w, None, None, many);
      }
    }
  }

  /** Rows and events stay, jobs only end or change phase, time only advances. */
  predicate SameRows(s: State, t: State) {
    && t.verifications == s.verifications && t.events.Keys == s.events.Keys && t.issued == s.issued
    && t.clock >= s.clock && t.store <= s.store + s.issued
    && (forall w :: w in t.jobs ==> w in s.jobs && t.jobs[w] == s.jobs[w].(phase := t.jobs[w].phase))
  }

  lemma SameRowsInv(s: State, t: State, many: bool)
    requires Inv(s, many) && SameRows(s, t) && ListedInv(t, many)
    ensures Inv(t, many)
  {
    hide ListedInv;
    assert forall v, k :: HasRow(t, v, k) <==> HasRow(s, v, k);
    forall v, k | HasRow(t, v, k) ensures RowInv(t, v, k) {
      assert RowInv(s, v, k);
    }
    SameRowsJobs(s, t, many);
  }

  lemma SameRowsJobs(s: State, t: State, many: bool)
    requires JobsInv(s, many) && SameRows(s, t)
    ensures JobsInv(t, many)
  {
    assert forall v, k :: HasRow(t, v, k) <==> HasRow(s, v, k);
    forall w | w in t.jobs ensures JobInv(t, t.jobs[w], many) && (Names(t, t.jobs[w]) <==> Names(s, s.jobs[w])) {
      assert JobInv(s, s.jobs[w], many);
    }
  }

  lemma FewerJobs(s: State, w: WorkerId, many: bool)
    requires Inv(s, many)
    ensures Inv(s.(jobs := s.jobs - {w}), many)
  {
    hide OneRowPerKey, RowsInv, JobsInv;
    SameRowsInv(s, s.(jobs := s.jobs - {w}), many);
  }

  predicate Rowless(step: Step) {
    step.ReadForSubmit? || step.DeleteObject? || step.Crash? || step.ListEvent? || step.EraseEvent? ||
    step.PublishEvent? || step.FailEvent? || step.Upload? || step.Tick?
  }

  /** Steps that change no row and at most the phase of one job. */
  lemma RowlessSame(s: State, step: Step)
    requires Rowless(step)
    ensures SameRows(s, Next(s, step))
  {
    hide Reissue, FreshKeys, LiveKinds, Record, Deadline, Due, WithRow, Holds;
  }

  lemma NoRowInv(s: State, step: Step, many: bool)
    requires Inv(s, many) && (!many ==> OneSweeper(s, step)) && Rowless(step)
    ensures Inv(Next(s, step), many)
  {
    hide OneRowPerKey, IssuedInv, RowsInv, JobsInv, ListedInv, Next;
    ListedSteps(s, step, many);
    RowlessSame(s, step);
    SameRowsInv(s, Next(s, step), many);
  }

  lemma ListedSteps(s: State, step: Step, many: bool)
    requires ListedInv(s, many) && (!many ==> OneSweeper(s, step)) && Rowless(step)
    ensures ListedInv(Next(s, step), many)
  {
    hide Next;
    match step
    case ListEvent(l, key) => ListOne(s, l, key, many);
    case EraseEvent(l) => EraseOne(s, l, many);
    case PublishEvent(l) => PublishOne(s, l, many);
    case _ => ListedStays(s, step);
  }

  lemma ListOne(s: State, l: ListingId, key: Key, many: bool)
    requires ListedInv(s, many) && (!many ==> OneSweeper(s, ListEvent(l, key)))
    ensures ListedInv(Next(s, ListEvent(l, key)), many)
  {
  }

  lemma EraseOne(s: State, l: ListingId, many: bool)
    requires ListedInv(s, many)
    ensures ListedInv(Next(s, EraseEvent(l)), many)
  {
  }

  lemma PublishOne(s: State, l: ListingId, many: bool)
    requires ListedInv(s, many)
    ensures ListedInv(Next(s, PublishEvent(l)), many)
  {
  }

  lemma ListedStays(s: State, step: Step)
    requires Rowless(step) && !step.ListEvent? && !step.EraseEvent? && !step.PublishEvent?
    ensures var t := Next(s, step);
            && t.events == s.events && t.listed.Keys <= s.listed.Keys && t.jobs.Keys <= s.jobs.Keys
            && forall l :: l in t.listed ==> t.listed[l] == s.listed[l]
  {
    hide Reissue, FreshKeys, LiveKinds, Replace, Record, Deadline, Due, WithRow, Holds;
  }

  /** A submission or an expiry ends one request, and like a review moves one verification's status and deadlines. */
  lemma DeadlineFrame(s: State, step: Step) returns (v: VerificationId)
    requires step.ExpireUploads? || step.Submit? || step.Review? || step.CredentialExpires?
    ensures var t := Next(s, step);
            var closed := s.(submissions := t.submissions);
            t == closed || OnlyDeadlines(closed, t, v)
  {
    hide FreshKeys, Replace, Retired, NewEvents, WithRow, Due, Holds;
    v := if step.Review? || step.CredentialExpires? then step.v
    else if step.r in s.submissions then s.submissions[step.r].v else 0;
  }

  lemma DeadlineSteps(s: State, step: Step, many: bool)
    requires Inv(s, many)
    requires step.ExpireUploads? || step.Submit? || step.Review? || step.CredentialExpires?
    ensures Inv(Next(s, step), many)
  {
    hide Inv, Next, OnlyDeadlines;
    var t := Next(s, step);
    RequestsFree(s, t.submissions, many);
    var closed := s.(submissions := t.submissions);
    var v := DeadlineFrame(s, step);
    if t != closed {
      DeadlinesInv(closed, t, v, many);
    }
  }

  lemma RequestsFree(s: State, submissions: map<RequestId, Submission>, many: bool)
    requires Inv(s, many)
    ensures Inv(s.(submissions := submissions), many)
  {
    hide OneRowPerKey, RowsInv, JobsInv;
    SameRowsInv(s, s.(submissions := submissions), many);
  }

  /**
   * One sweeper, as the deployed worker guards it: it claims a row when nothing is in flight, and lists events but
   * once.
   */
  predicate OneSweeper(s: State, step: Step) {
    && (step.Claim? ==> s.jobs == map[] && s.listed == map[])
    && (step.ListEvent? ==> s.jobs == map[] && forall l :: l in s.listed ==> s.listed[l].key != step.key)
  }

  lemma StepInv(s: State, step: Step, many: bool)
    requires Inv(s, many) && (!many ==> OneSweeper(s, step))
    ensures Inv(Next(s, step), many)
  {
    hide Inv, Reissue, FreshKeys, WithRow, Due;
    match step
    case Create(v, uploads, now) =>
      if FreshKeys(s, uploads) {
        ReissueInv(s, v, if v in s.verifications then s.verifications[v].assets else map[], uploads, now,
                   AWAITING_UPLOAD, many);
      }
    case CreateResubmission(v, uploads, now) =>
      if FreshKeys(s, uploads) && v in s.verifications {
        ReissueInv(s, v, s.verifications[v].assets, uploads, now, RESUBMISSION_AWAITING_UPLOAD, many);
      }
    case ExpireUploads(_) => DeadlineSteps(s, step, many);
    case Submit(_) => DeadlineSteps(s, step, many);
    case Review(_, _, _) => DeadlineSteps(s, step, many);
    case CredentialExpires(_) => DeadlineSteps(s, step, many);
    case Claim(w, v, kind, key, now) => ClaimInv(s, w, v, kind, key, now, many);
    case MarkDeleted(w) => MarkInv(s, w, many);
    case ReleaseClaim(w) => ReleaseInv(s, w, many);
    case _ => NoRowInv(s, step, many);
  }
}
