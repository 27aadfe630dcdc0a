/** Which stored objects somebody will still delete, and exactly which uploads are forgotten. */
module ForgottenObjects {
  import opened Wrappers
  import opened AssetDeletion
  import opened MaterialSafety

  // ----- no object is forgotten --------------------------------------------------------------

  ghost predicate OnRow(s: State, key: Key) {
    exists v, k :: HasRow(s, v, k) && RowOf(s, v, k).objectKey == key && RowOf(s, v, k).deletedAt.None?
  }

  /** Every stored object is the current one of an undeleted row, or a delete event for it is still to be handled. */
  ghost predicate Remembered(s: State) {
    forall key :: key in s.store ==> OnRow(s, key) || PendingEvent(s, key)
  }

  /** What has been erased but not yet recorded is gone from the store. */
  ghost predicate ErasedInv(s: State) {
    && (forall w :: w in s.jobs && s.jobs[w].phase.ERASED? && Names(s, s.jobs[w]) ==> s.jobs[w].key !in s.store)
    && (forall l :: l in s.listed && s.listed[l].gone ==> s.listed[l].key !in s.store)
  }

  /** The object is gone, and the row or the event that named it is about to be recorded as done. */
  ghost predicate BeingRecorded(s: State, key: Key) {
    || (exists l :: l in s.listed && s.listed[l].gone && s.listed[l].key == key)
    || exists w :: w in s.jobs && s.jobs[w].phase.ERASED? && s.jobs[w].key == key && Names(s, s.jobs[w])
  }

  /** An upload of an object that no row and no event will have deleted, or whose deletion is already under way. */
  ghost predicate StrayUpload(s: State, step: Step) {
    && step.Upload? && step.key in s.issued
    && (BeingRecorded(s, step.key) || !(OnRow(s, step.key) || PendingEvent(s, step.key)))
  }

  ghost predicate Complete(s: State) {
    Remembered(s) && ErasedInv(s)
  }

  lemma UploadComplete(s: State, key: Key)
    requires Complete(s)
    ensures Complete(Next(s, Upload(key))) <==> !StrayUpload(s, Upload(key))
  {
    var t := Next(s, Upload(key));
    forall other ensures OnRow(t, other) <==> OnRow(s, other) {
      SameOnRow(s, t, other);
    }
    assert forall job :: Names(t, job) <==> Names(s, job);
  }

  lemma SameOnRow(s: State, t: State, key: Key)
    requires t.verifications == s.verifications
    ensures OnRow(s, key) <==> OnRow(t, key)
  {
    if OnRow(s, key) {
      RowsStay(s, t, key);
    }
    if OnRow(t, key) {
      RowsStay(t, s, key);
    }
  }

  lemma RowsStay(s: State, t: State, key: Key)
    requires OnRow(s, key)
    requires forall v, k :: HasRow(s, v, k) && RowOf(s, v, k).objectKey == key && RowOf(s, v, k).deletedAt.None? ==>
               HasRow(t, v, k) && RowOf(t, v, k).objectKey == key && RowOf(t, v, k).deletedAt.None?
    ensures OnRow(t, key)
  {
    var v, k :| HasRow(s, v, k) && RowOf(s, v, k).objectKey == key && RowOf(s, v, k).deletedAt.None?;
    assert HasRow(t, v, k);
  }

  lemma ReissueComplete(s: State, t: State, v: VerificationId, uploads: map<AssetType, Key>)
    requires IssuedInv(s) && Complete(s) && Reissued(s, t, v, uploads)
    ensures Complete(t)
  {
    forall key | key in t.store ensures OnRow(t, key) || PendingEvent(t, key) {
      if k :| Ending(s, v, k, key) {
        assert PendingEvent(t, key);
      } else if OnRow(s, key) {
        var u, k :| HasRow(s, u, k) && RowOf(s, u, k).objectKey == key && RowOf(s, u, k).deletedAt.None?;
        assert u == v ==> Ending(s, v, k, key);
        assert HasRow(t, u, k);
      }
    }
    forall w | w in t.jobs && t.jobs[w].phase.ERASED? && Names(t, t.jobs[w]) ensures t.jobs[w].key !in t.store {
      var job := t.jobs[w];
      assert !(job.v == v && job.kind in uploads);
      assert Names(s, job);
    }
  }

  /** Steps that leave keys and deletion marks of rows, events and the store as they are. */
  lemma QuietComplete(s: State, t: State)
    requires Complete(s) && t.store <= s.store && t.listed == s.listed
    requires forall key :: PendingEvent(s, key) ==> PendingEvent(t, key)
    requires forall v, k :: HasRow(s, v, k) <==> HasRow(t, v, k)
    requires forall v, k :: HasRow(s, v, k) ==>
               RowOf(t, v, k).objectKey == RowOf(s, v, k).objectKey &&
                 RowOf(t, v, k).deletedAt == RowOf(s, v, k).deletedAt
    requires forall w :: w in t.jobs ==> t.jobs[w].phase.CLAIMED? || t.jobs[w].phase.FAILED? ||
                                         (w in s.jobs && t.jobs[w] == s.jobs[w]) || t.jobs[w].key !in t.store
    ensures Complete(t)
  {
    forall key | key in t.store ensures OnRow(t, key) || PendingEvent(t, key) {
      if OnRow(s, key) {
        RowsStay(s, t, key);
      }
    }
  }

  lemma CreateComplete(s: State, step: Step)
    requires IssuedInv(s) && Complete(s) && (step.Create? || step.CreateResubmission?)
    ensures Complete(Next(s, step))
  {
    hide Reissued, Complete, Replace, Retired, NewEvents, IssuedInv;
    var v := step.v;
    if Next(s, step) != s {
      var assets := if v in s.verifications then s.verifications[v].assets else map[];
      var status := if step.Create? then AWAITING_UPLOAD else RESUBMISSION_AWAITING_UPLOAD;
      ReissueRows(s, v, assets, step.uploads, step.now, status);
      ReissueComplete(s, Reissue(s, v, assets, step.uploads, step.now, status), v, step.uploads);
    }
  }

  /** The mark is set only after the object is gone. */
  lemma MarkComplete(s: State, w: WorkerId)
    requires Complete(s)
    ensures Complete(Next(s, MarkDeleted(w)))
  {
    var t := Next(s, MarkDeleted(w));
    if w in s.jobs && s.jobs[w].phase.ERASED? && Holds(s, s.jobs[w]) {
      assert Names(s, s.jobs[w]);
      forall key | key in t.store ensures OnRow(t, key) || PendingEvent(t, key) {
        if OnRow(s, key) {
          assert key != s.jobs[w].key;
          RowsStay(s, t, key);
        }
      }
      forall x | x in t.jobs && t.jobs[x].phase.ERASED? && Names(t, t.jobs[x]) ensures t.jobs[x].key !in t.store {
        assert Names(s, t.jobs[x]);
      }
    } else {
      QuietComplete(s, t);
    }
  }

  lemma EventComplete(s: State, step: Step)
    requires Complete(s) && (step.ListEvent? || step.EraseEvent? || step.PublishEvent? || step.FailEvent?)
    ensures Complete(Next(s, step))
  {
    var t := Next(s, step);
    forall key | key in t.store ensures OnRow(t, key) || PendingEvent(t, key) {
      if OnRow(s, key) {
        RowsStay(s, t, key);
      }
    }
    forall w | w in t.jobs && t.jobs[w].phase.ERASED? && Names(t, t.jobs[w]) ensures t.jobs[w].key !in t.store {
      assert Names(s, t.jobs[w]);
    }
  }

  lemma RestComplete(s: State, step: Step)
    requires Complete(s)
    requires !step.Create? && !step.CreateResubmission? && !step.MarkDeleted? && !step.ListEvent? && !step.EraseEvent?
    requires !step.PublishEvent? && !step.FailEvent? && !step.Upload?
    ensures Complete(Next(s, step))
  {
    hide Complete, Next;
    match step
    case Claim(w, v, kind, key, now) => ClaimComplete(s, w, v, kind, key, now);
    case ReleaseClaim(w) => ReleaseComplete(s, w);
    case DeleteObject(w, succeeds) => DeleteComplete(s, w, succeeds);
    case Crash(w) => QuietCrash(s, w);
    case ExpireUploads(_) => DeadlinesComplete(s, step);
    case Submit(_) => DeadlinesComplete(s, step);
    case Review(_, _, _) => DeadlinesComplete(s, step);
    case CredentialExpires(_) => DeadlinesComplete(s, step);
    case ReadForSubmit(_, _, _, _) => SameComplete(s, step);
    case Tick(_) => SameComplete(s, step);
  }

  lemma ClaimComplete(s: State, w: WorkerId, v: VerificationId, kind: AssetType, key: Key, now: int)
    requires Complete(s)
    ensures Complete(Next(s, Claim(w, v, kind, key, now)))
  {
    hide Complete;
    QuietComplete(s, Next(s, Claim(w, v, kind, key, now)));
  }

  lemma ReleaseComplete(s: State, w: WorkerId)
    requires Complete(s)
    ensures Complete(Next(s, ReleaseClaim(w)))
  {
    hide Complete;
    QuietComplete(s, Next(s, ReleaseClaim(w)));
  }

  lemma DeleteComplete(s: State, w: WorkerId, succeeds: bool)
    requires Complete(s)
    ensures Complete(Next(s, DeleteObject(w, succeeds)))
  {
    hide Complete;
    QuietComplete(s, Next(s, DeleteObject(w, succeeds)));
  }

  lemma QuietCrash(s: State, w: WorkerId)
    requires Complete(s)
    ensures Complete(Next(s, Crash(w)))
  {
    hide Complete;
    QuietComplete(s, Next(s, Crash(w)));
  }

  lemma SameComplete(s: State, step: Step)
    requires Complete(s) && (step.ReadForSubmit? || step.Tick?)
    ensures Complete(Next(s, step))
  {
    hide Complete, LiveKinds;
    QuietComplete(s, Next(s, step));
  }

  lemma DeadlinesComplete(s: State, step: Step)
    requires Complete(s) && (step.ExpireUploads? || step.Submit? || step.Review? || step.CredentialExpires?)
    ensures Complete(Next(s, step))
  {
    hide Complete, Next;
    var v := DeadlineFrame(s, step);
    var t := Next(s, step);
    assert forall u, k :: HasRow(t, u, k) <==> HasRow(s, u, k);
    QuietComplete(s, t);
  }

  /** The one step that lets go of an object, at once or when a deletion under way is recorded, is a stray upload. */
  lemma StepComplete(s: State, step: Step, many: bool)
    requires Inv(s, many) && Complete(s)
    ensures Complete(Next(s, step)) <==> !StrayUpload(s, step)
  {
    hide IssuedInv, OneRowPerKey, RowsInv, JobsInv, Complete, Next, BeingRecorded;
    if step.Create? || step.CreateResubmission? {
      CreateComplete(s, step);
    } else if step.MarkDeleted? {
      MarkComplete(s, step.w);
    } else if step.ListEvent? || step.EraseEvent? || step.PublishEvent? || step.FailEvent? {
      EventComplete(s, step);
    } else if step.Upload? {
      UploadComplete(s, step.key);
    } else {
      RestComplete(s, step);
    }
  }

  ghost predicate NoStrayUpload(steps: seq<Step>) {
    forall k :: 0 <= k < |steps| ==> !StrayUpload(Run(Empty, steps[..k]), steps[k])
  }

  /** With any number of sweepers and no stray upload, every stored object stays scheduled for deletion or in use. */
  lemma {:induction false} NoObjectForgotten(steps: seq<Step>)
    requires NoStrayUpload(steps)
    ensures Inv(Run(Empty, steps), true) && Complete(Run(Empty, steps))
  {
    hide Inv, Next;
    if steps == [] {
      EmptyInv(true);
    } else {
      hide Complete, StrayUpload;
      var n := |steps| - 1;
      assert forall k :: 0 <= k < n ==> steps[..n][..k] == steps[..k];
      NoObjectForgotten(steps[..n]);
      assert !StrayUpload(Run(Empty, steps[..n]), steps[n]);
      StepInv(Run(Empty, steps[..n]), steps[n], true);
      StepComplete(Run(Empty, steps[..n]), steps[n], true);
    }
  }

  // ----- objects that are forgotten ----------------------------------------------------------

  /** A stored object that no undeleted row, no pending event and no sweeper about to delete has. */
  ghost predicate Forgotten(s: State, key: Key) {
    && key in s.store && key in s.issued && !OnRow(s, key) && !PendingEvent(s, key)
    && (forall w :: w in s.jobs && s.jobs[w].key == key ==> !s.jobs[w].phase.CLAIMED?)
    && (forall l :: l in s.listed && s.listed[l].key == key ==> s.listed[l].gone)
  }

  lemma UndeletedRow(s: State, v: VerificationId, k: AssetType)
    requires HasRow(s, v, k)
    ensures RowOf(s, v, k).deletedAt.None? ==> OnRow(s, RowOf(s, v, k).objectKey)
  {
  }

  /** A reissue brings new keys only. */
  lemma NoReissuedRow(s: State, step: Step, key: Key)
    requires key in s.issued && OnRow(Next(s, step), key) && (step.Create? || step.CreateResubmission?)
    ensures OnRow(s, key)
  {
    hide Replace, Retired, NewEvents, EventsAdded;
    var v, t := step.v, Next(s, step);
    if t != s {
      var assets := if v in s.verifications then s.verifications[v].assets else map[];
      ReissueRows(s, v, assets, step.uploads, step.now,
                  if step.Create? then AWAITING_UPLOAD else RESUBMISSION_AWAITING_UPLOAD);
      var u, k :| HasRow(t, u, k) && RowOf(t, u, k).objectKey == key && RowOf(t, u, k).deletedAt.None?;
      UndeletedRow(s, u, k);
    }
  }

  /** A deletion mark, once set, stays, and no other step gives a row another key. */
  lemma NoNewRow(s: State, step: Step, key: Key)
    requires OnRow(Next(s, step), key) && !step.Create? && !step.CreateResubmission?
    ensures OnRow(s, key)
  {
    hide Next;
    var t := Next(s, step);
    var v, k :| HasRow(t, v, k) && RowOf(t, v, k).objectKey == key && RowOf(t, v, k).deletedAt.None?;
    StepRowsKept(s, step);
    UndeletedRow(s, v, k);
  }

  lemma NoNewEvent(s: State, step: Step, key: Key)
    requires PendingEvent(Next(s, step), key)
    ensures PendingEvent(s, key) || OnRow(s, key)
  {
    hide Replace, Record, Deadline, LiveKinds;
    if step.Create? || step.CreateResubmission? {
      var v := step.v;
      var assets := if v in s.verifications then s.verifications[v].assets else map[];
      if !PendingEvent(s, key) {
        assert key in Retired(assets);
        var k :| k in assets && assets[k].deletedAt.None? && assets[k].objectKey == key;
        assert HasRow(s, v, k);
      }
    }
  }

  lemma StepForgotten(s: State, step: Step, key: Key)
    requires Forgotten(s, key)
    ensures Forgotten(Next(s, step), key)
  {
    hide OnRow, PendingEvent, Next;
    var t := Next(s, step);
    if OnRow(t, key) {
      if step.Create? || step.CreateResubmission? {
        NoReissuedRow(s, step, key);
      } else {
        NoNewRow(s, step, key);
      }
    }
    if PendingEvent(t, key) {
      NoNewEvent(s, step, key);
    }
    NotErased(s, step, key);
    NoNewSweeper(s, step, key);
  }

  /** An object that no sweeper is about to delete stays. */
  lemma NotErased(s: State, step: Step, key: Key)
    requires key in s.store && key in s.issued
    requires forall w :: w in s.jobs && s.jobs[w].key == key ==> !s.jobs[w].phase.CLAIMED?
    requires forall l :: l in s.listed && s.listed[l].key == key ==> s.listed[l].gone
    ensures key in Next(s, step).store && key in Next(s, step).issued
  {
    hide Replace, Retired, NewEvents, Record, Deadline, LiveKinds, FreshKeys, Due, Holds;
  }

  /** A sweeper begins to delete an object only if an undeleted row or a pending event has it. */
  lemma NoNewSweeper(s: State, step: Step, key: Key)
    requires !OnRow(s, key) && !PendingEvent(s, key)
    ensures var t := Next(s, step);
            && (forall w :: w in t.jobs && t.jobs[w].key == key && t.jobs[w].phase.CLAIMED? ==>
                  w in s.jobs && s.jobs[w] == t.jobs[w])
            && (forall l :: l in t.listed && t.listed[l].key == key && !t.listed[l].gone ==>
                  l in s.listed && s.listed[l] == t.listed[l])
  {
    hide OnRow, PendingEvent, Next;
    match step
    case Claim(w, v, kind, claimed, now) => ClaimsUndeleted(s, w, v, kind, claimed, now);
    case ListEvent(l, listed) => ListsPending(s, l, listed);
    case _ => SameSweepers(s, step);
  }

  lemma ClaimsUndeleted(s: State, w: WorkerId, v: VerificationId, kind: AssetType, key: Key, now: int)
    ensures var t := Next(s, Claim(w, v, kind, key, now));
            t.listed == s.listed &&
              (t.jobs == s.jobs || (OnRow(s, key) && t.jobs == s.jobs[w := Job(v, kind, key, now, CLAIMED)]))
  {
    if HasRow(s, v, kind) {
      UndeletedRow(s, v, kind);
    }
  }

  lemma ListsPending(s: State, l: ListingId, key: Key)
    ensures var t := Next(s, ListEvent(l, key));
            t.jobs == s.jobs && (t == s || (PendingEvent(s, key) && t.listed == s.listed[l := Listing(key, false)]))
  {
  }

  lemma SameSweepers(s: State, step: Step)
    requires !step.Claim? && !step.ListEvent?
    ensures var t := Next(s, step);
            && (forall w :: w in t.jobs && t.jobs[w].phase.CLAIMED? ==> w in s.jobs && s.jobs[w] == t.jobs[w])
            && (forall l :: l in t.listed && !t.listed[l].gone ==> l in s.listed && s.listed[l] == t.listed[l])
  {
    hide Next;
    SameListings(s, step);
    if step.DeleteObject? {
      NoNewClaim(s, step.w, step.succeeds);
    } else {
      FewerJobs(s, step);
    }
  }

  lemma SameListings(s: State, step: Step)
    requires !step.ListEvent?
    ensures forall l :: l in Next(s, step).listed && !Next(s, step).listed[l].gone ==>
              l in s.listed && s.listed[l] == Next(s, step).listed[l]
  {
    hide Replace, Retired, NewEvents, Record, Deadline, LiveKinds, DeadlineAllowed, FreshKeys, Holds, Due;
  }

  lemma NoNewClaim(s: State, w: WorkerId, succeeds: bool)
    ensures forall x :: x in Next(s, DeleteObject(w, succeeds)).jobs &&
                        Next(s, DeleteObject(w, succeeds)).jobs[x].phase.CLAIMED? ==>
              x in s.jobs && s.jobs[x] == Next(s, DeleteObject(w, succeeds)).jobs[x]
  {
  }

  lemma FewerJobs(s: State, step: Step)
    requires !step.Claim? && !step.DeleteObject?
    ensures forall w :: w in Next(s, step).jobs ==> w in s.jobs && s.jobs[w] == Next(s, step).jobs[w]
  {
    hide Replace, Retired, NewEvents, Record, Deadline, LiveKinds, DeadlineAllowed, FreshKeys, Holds, Due;
  }

  /** A forgotten object stays in the store whatever happens afterwards. */
  lemma {:induction false} ForgottenForever(s: State, steps: seq<Step>, key: Key)
    requires Forgotten(s, key)
    ensures Forgotten(Run(s, steps), key)
  {
    hide Forgotten, Next;
    if steps != [] {
      ForgottenForever(s, steps[..|steps| - 1], key);
      StepForgotten(Run(s, steps[..|steps| - 1]), steps[|steps| - 1], key);
    }
  }

  /** A continuation without uploads, and with one sweeper. */
  ghost predicate Quiet(s: State, steps: seq<Step>) {
    forall k :: 0 <= k < |steps| ==> !steps[k].Upload? && OneSweeper(Run(s, steps[..k]), steps[k])
  }

  lemma {:induction false} CompleteThrough(s: State, steps: seq<Step>)
    requires Inv(s, false) && Complete(s) && Quiet(s, steps)
    ensures Inv(Run(s, steps), false) && Complete(Run(s, steps))
  {
    hide Inv, Complete, Next;
    if steps != [] {
      var n := |steps| - 1;
      assert forall k :: 0 <= k < n ==> steps[..n][..k] == steps[..k];
      CompleteThrough(s, steps[..n]);
      StepInv(Run(s, steps[..n]), steps[n], false);
      StepComplete(Run(s, steps[..n]), steps[n], false);
    }
  }

  lemma RunTwo(s: State, first: Step, second: Step)
    ensures Run(s, [first]) == Next(s, first) && Run(s, [first, second]) == Next(Next(s, first), second)
  {
    hide Next;
    assert [first][..0] == [] && [first, second][..1] == [first];
  }

  /** The worker marks the row, after which nothing names the object. */
  lemma MarkForgets(s: State, key: Key, w: WorkerId)
    requires Inv(s, false) && key in s.issued
    requires w in s.jobs && s.jobs[w].phase.ERASED? && s.jobs[w].key == key && Names(s, s.jobs[w])
    ensures Forgotten(Next(Next(s, Upload(key)), MarkDeleted(w)), key)
  {
    hide IssuedInv;
    var job := s.jobs[w];
    assert JobInv(s, job, false) && RowInv(s, job.v, job.kind);
    var t := Next(Next(s, Upload(key)), MarkDeleted(w));
    assert forall v, k :: HasRow(t, v, k) ==>
      HasRow(s, v, k) && RowOf(t, v, k).objectKey == RowOf(s, v, k).objectKey && RowOf(t, v, k).deletedAt.None? ==>
        RowOf(s, v, k).deletedAt.None? && !(v == job.v && k == job.kind);
  }

  /** The event is recorded as handled, after which nothing names the object. */
  lemma PublishForgets(s: State, key: Key, l: ListingId)
    requires Inv(s, false) && key in s.issued && l in s.listed && s.listed[l].gone && s.listed[l].key == key
    ensures Forgotten(Next(Next(s, Upload(key)), PublishEvent(l)), key)
  {
    var t := Next(Next(s, Upload(key)), PublishEvent(l));
    SameOnRow(s, t, key);
    if OnRow(s, key) {
      EventEnded(s, key);
    }
  }

  /** Nothing names the object once the sweeper, if it has claimed its row, is gone. */
  lemma CrashForgets(s: State, key: Key, w: WorkerId)
    requires Inv(s, false) && key in s.issued && !OnRow(s, key) && !PendingEvent(s, key)
    requires s.jobs != map[] ==> w in s.jobs
    ensures Forgotten(Next(Next(s, Upload(key)), Crash(w)), key)
  {
    var t := Next(Next(s, Upload(key)), Crash(w));
    forall x ensures x !in t.jobs {
    }
    SameOnRow(s, t, key);
  }

  lemma EventEnded(s: State, key: Key)
    requires RowsInv(s) && OnRow(s, key)
    ensures key !in s.events
  {
    var v, k :| HasRow(s, v, k) && RowOf(s, v, k).objectKey == key && RowOf(s, v, k).deletedAt.None?;
    assert RowInv(s, v, k);
  }

  /**
   * With one sweeper and every stored object in somebody's care, an upload can end up forgotten for ever, without
   * any further upload, if and only if it is stray.
   */
  lemma UploadForgotten(s: State, key: Key)
    requires Inv(s, false) && Complete(s)
    ensures StrayUpload(s, Upload(key)) <==>
            exists steps :: Quiet(Next(s, Upload(key)), steps) && Forgotten(Run(Next(s, Upload(key)), steps), key)
  {
    hide Inv, Complete, Forgotten, Next, BeingRecorded;
    var t := Next(s, Upload(key));
    if StrayUpload(s, Upload(key)) {
      ForgottenSoon(s, key);
    } else {
      StepInv(s, Upload(key), false);
      StepComplete(s, Upload(key), false);
      forall steps | Quiet(t, steps) ensures !Forgotten(Run(t, steps), key) {
        CompleteThrough(t, steps);
        CompleteForgets(Run(t, steps), key);
      }
    }
  }

  lemma CompleteForgets(s: State, key: Key)
    requires Complete(s)
    ensures !Forgotten(s, key)
  {
  }

  lemma ForgottenSoon(s: State, key: Key)
    requires Inv(s, false) && StrayUpload(s, Upload(key))
    ensures exists steps :: Quiet(Next(s, Upload(key)), steps) && Forgotten(Run(Next(s, Upload(key)), steps), key)
  {
    hide Inv, Forgotten, Next;
    var t := Next(s, Upload(key));
    if w :| w in s.jobs && s.jobs[w].phase.ERASED? && s.jobs[w].key == key && Names(s, s.jobs[w]) {
      MarkForgets(s, key, w);
      RunTwo(t, MarkDeleted(w), MarkDeleted(w));
      assert Quiet(t, [MarkDeleted(w)]);
    } else if l :| l in s.listed && s.listed[l].gone && s.listed[l].key == key {
      PublishForgets(s, key, l);
      RunTwo(t, PublishEvent(l), PublishEvent(l));
      assert Quiet(t, [PublishEvent(l)]);
    } else {
      var w := if x :| x in s.jobs then x else 0;
      CrashForgets(s, key, w);
      RunTwo(t, Crash(w), Crash(w));
      assert Quiet(t, [Crash(w)]);
    }
  }

  // ----- a forgotten object ------------------------------------------------------------------

  const REUPLOAD: seq<Step> := [
    Create(1, map[STUDENT_CARD := 7], 0), Upload(7), ReadForSubmit(1, 1, {STUDENT_CARD}, 0), Submit(1),
    Review(1, REJECT, 0), Create(1, map[STUDENT_CARD := 8], 0),
    ListEvent(0, 7), EraseEvent(0), Upload(7), PublishEvent(0)
  ]

  const REPLACED: State := Empty.(
    verifications := map[1 := Verification(AWAITING_UPLOAD, map[STUDENT_CARD := Issued(8, 0)])],
    events := map[7 := false], issued := {7, 8}, store := {7})

  lemma Rejecting(s4: State, s5: State)
    requires s4 == Draft(PENDING, Card(None, None, None, true))
    requires s5 == Draft(REJECTED, Card(Some(86400000), None, None, true))
    ensures Next(s4, REUPLOAD[4]) == s5
  {
    hide Deadline;
    CardRows(None, true, 86400000);
  }

  lemma Replacing(s5: State)
    requires s5 == Draft(REJECTED, Card(Some(86400000), None, None, true))
    ensures Next(s5, REUPLOAD[5]) == REPLACED
  {
    var assets := Card(Some(86400000), None, None, true);
    var uploads: map<AssetType, Key> := map[STUDENT_CARD := 8];
    assert uploads[STUDENT_CARD] == 8;
    assert 8 in uploads.Values && forall key :: key in uploads.Values ==> key == 8;
    assert uploads.Values == {8};
    assert FreshKeys(s5, uploads);
    assert Replace(assets, uploads, 0) == map[STUDENT_CARD := Issued(8, 0)];
    assert assets[STUDENT_CARD].objectKey == 7;
    assert Retired(assets) == {7};
    assert NewEvents({7}) == map[7 := false];
  }

  /**
   * A replaced object is uploaded again, with its still valid grant, after its delete event erased it and before
   * the event is recorded: the object is then forgotten.
   */
  lemma ReuploadIsForgotten()
    ensures OrderlyRun(REUPLOAD, false)
    ensures forall k :: 0 <= k < |REUPLOAD| && k != 8 ==> !StrayUpload(Run(Empty, REUPLOAD[..k]), REUPLOAD[k])
    ensures StrayUpload(Run(Empty, REUPLOAD[..8]), REUPLOAD[8])
    ensures PendingEvent(Run(Empty, REUPLOAD[..8]), 7) && Forgotten(Run(Empty, REUPLOAD), 7)
  {
    hide Next, Draft, Card;
    assert REUPLOAD[..0] == [] && REUPLOAD[..10] == REUPLOAD;
    var s1 := Draft(AWAITING_UPLOAD, Card(Some(900000), None, None, false)).(store := {});
    var s2 := s1.(store := {7});
    var s3 := s2.(submissions := map[1 := Submission(1, {STUDENT_CARD}, 0, false)]);
    var s4 := Draft(PENDING, Card(None, None, None, true));
    var s5 := Draft(REJECTED, Card(Some(86400000), None, None, true));
    var s7 := REPLACED.(listed := map[0 := Listing(7, false)]);
    var s8 := s7.(store := {}, listed := map[0 := Listing(7, true)]);
    var s9 := s8.(store := {7});
    var s10 := s9.(events := map[7 := true], listed := map[]);
    Submitting(s1, s2, s3, s4);
    RunNext(REUPLOAD, 0, Empty, s1);
    RunNext(REUPLOAD, 1, s1, s2);
    RunNext(REUPLOAD, 2, s2, s3);
    RunNext(REUPLOAD, 3, s3, s4);
    Rejecting(s4, s5);
    RunNext(REUPLOAD, 4, s4, s5);
    Replacing(s5);
    RunNext(REUPLOAD, 5, s5, REPLACED);
    Erasing(s7, s8);
    Reuploading(s8, s9, s10);
    RunNext(REUPLOAD, 6, REPLACED, s7);
    RunNext(REUPLOAD, 7, s7, s8);
    RunNext(REUPLOAD, 8, s8, s9);
    RunNext(REUPLOAD, 9, s9, s10);
    FirstUpload(s1);
    NoSweeper();
    OneUpload(s1);
  }

  lemma OneUpload(s1: State)
    requires Run(Empty, REUPLOAD[..1]) == s1 && !StrayUpload(s1, REUPLOAD[1])
    ensures forall k :: 0 <= k < |REUPLOAD| && k != 8 ==> !StrayUpload(Run(Empty, REUPLOAD[..k]), REUPLOAD[k])
  {
    hide Run;
  }

  lemma FirstUpload(s1: State)
    requires s1 == Draft(AWAITING_UPLOAD, Card(Some(900000), None, None, false)).(store := {})
    ensures !StrayUpload(s1, REUPLOAD[1])
  {
    assert HasRow(s1, 1, STUDENT_CARD) && RowOf(s1, 1, STUDENT_CARD).objectKey == 7;
    UndeletedRow(s1, 1, STUDENT_CARD);
  }

  lemma Erasing(s7: State, s8: State)
    requires s7 == REPLACED.(listed := map[0 := Listing(7, false)])
    requires s8 == s7.(store := {}, listed := map[0 := Listing(7, true)])
    ensures Next(REPLACED, REUPLOAD[6]) == s7 && Next(s7, REUPLOAD[7]) == s8
  {
  }

  lemma Reuploading(s8: State, s9: State, s10: State)
    requires s8 == REPLACED.(store := {}, listed := map[0 := Listing(7, true)])
    requires s9 == s8.(store := {7}) && s10 == s9.(events := map[7 := true], listed := map[])
    ensures Next(s8, REUPLOAD[8]) == s9 && Next(s9, REUPLOAD[9]) == s10
    ensures StrayUpload(s8, REUPLOAD[8]) && PendingEvent(s8, 7) && Forgotten(s10, 7)
  {
    assert s9.listed - {0} == map[];
  }

  lemma NoSweeper()
    requires Run(Empty, REUPLOAD[..6]) == REPLACED
    ensures OrderlyRun(REUPLOAD, false)
  {
    hide Run;
  }
}
