/**
 * The loops of the verification services and of the deletion sweep, over tables and an object store changed in place.
 */
module MaterialServices {
  import opened Wrappers
  import opened AssetDeletion

  datatype Outcome = SKIPPED | DELETED | KEPT
  datatype AssetId = AssetId(v: VerificationId, kind: AssetType, key: Key)

  class MaterialTables {
    var verifications: map<VerificationId, Verification>
    var events: map<Key, bool>
    var store: set<Key>

    constructor ()
      ensures View() == Empty
    {
      verifications, events, store := map[], map[], {};
    }

    /** The tables and the object store, with nothing else in flight. */
    ghost function View(): State
      reads this
    {
      Empty.(verifications := verifications, events := events, store := store)
    }

    function Row(id: AssetId): Asset
      requires id.v in verifications && id.kind in verifications[id.v].assets
      reads this
    {
      verifications[id.v].assets[id.kind]
    }

    predicate Has(id: AssetId)
      reads this
    {
      id.v in verifications && id.kind in verifications[id.v].assets && Row(id).objectKey == id.key
    }

    method UpdateRow(id: AssetId, row: Asset)
      requires id.v in verifications && id.kind in verifications[id.v].assets
      modifies this`verifications
      ensures View() == WithRow(old(View()), id.v, id.kind, row)
    {
      verifications := verifications[id.v :=
          verifications[id.v].(assets := verifications[id.v].assets[id.kind := row])];
    }

    // ----- verification.service.ts -------------------------------------------------------------

    /**
     * Ends what is not replaced, replaces the rest, and leaves a delete event for every object given up. Ending a row
     * before its upload expires is refused by the schema, and then nothing is written.
     */
    method RetireAndReplaceAssets(v: VerificationId, uploads: map<AssetType, Key>, now: int)
      returns (error: Option<Error>)
      requires v in verifications
      modifies this`verifications, this`events
      ensures error ==
              if RetireAllowed(old(verifications[v].assets), uploads.Keys, now) then None else Some(CHECK_VIOLATION)
      ensures error.Some? ==> verifications == old(verifications) && events == old(events)
      ensures error.None? ==>
                && verifications ==
                   old(verifications)[v := old(verifications[v]).(assets := Replace(old(verifications[v].assets),
                       uploads,
                       now))]
                && events == old(events) + NewEvents(Retired(old(verifications[v].assets)))
    {
      var before := events;
      var assets;
      assets, error := RetireAssets(verifications[v].assets, uploads.Keys, now);
      if error.Some? {
        events := before;
        return;
      }
      assets := ReplaceAssets(assets, uploads, now);
      assert assets == Replace(verifications[v].assets, uploads, now);
      verifications := verifications[v := verifications[v].(assets := assets)];
    }

    method RetireAssets(before: Assets, replaced: set<AssetType>, now: int)
        returns (assets: Assets, error: Option<Error>)
      modifies this`events
      ensures error == if RetireAllowed(before, replaced, now) then None else Some(CHECK_VIOLATION)
      ensures error.None? ==>
                && assets.Keys == before.Keys
                && (forall t :: t in before ==> assets[t] == if t in replaced then before[t] else Ended(before[t], now))
                && events == old(events) + NewEvents(Retired(before))
    {
      hide NewEvents;
      assets := before;
      var rest := before.Keys;
      EventsOf(before, rest);
      while rest != {}
        invariant rest <= before.Keys == assets.Keys
        invariant forall t :: t in before.Keys - rest && t !in replaced ==> before[t].uploadExpiresAt <= now
        invariant forall t :: t in before ==>
                    assets[t] == if t in rest || t in replaced then before[t] else Ended(before[t], now)
        invariant events == old(events) + NewEvents(Retired(before - rest))
      {
        var t :| t in rest;
        RetiredOne(old(events), before, rest, t);
        rest := rest - {t};
        if before[t].deletedAt.None? {
          events := events[before[t].objectKey := false];
        }
        if t !in replaced {
          if now < assets[t].uploadExpiresAt {
            return assets, Some(CHECK_VIOLATION);
          }
          assets := assets[t := assets[t].(deleteAfter := Some(now), claimedAt := None, deletedAt := Some(now))];
        }
      }
      assert before - rest == before;
      error := None;
    }

    method ReplaceAssets(before: Assets, uploads: map<AssetType, Key>, now: int) returns (assets: Assets)
      ensures assets.Keys == before.Keys + uploads.Keys
      ensures forall t :: t in assets ==> assets[t] == if t in uploads then Issued(uploads[t], now) else before[t]
    {
      assets := before;
      var rest := uploads.Keys;
      while rest != {}
        invariant rest <= uploads.Keys
        invariant assets.Keys == before.Keys + (uploads.Keys - rest)
        invariant forall t :: t in assets ==>
                    assets[t] == if t in uploads && t !in rest then Issued(uploads[t], now) else before[t]
      {
        var t :| t in rest;
        rest := rest - {t};
        assets := assets[t := Issued(uploads[t], now)];
      }
    }

    /** The compare-and-set loop of a submission; inside its transaction every live row is still as it was read. */
    method RecordSubmission(v: VerificationId, kinds: set<AssetType>) returns (error: Option<Error>)
      requires v in verifications
      modifies this`verifications
      ensures error.None? <==>
              LiveKinds(old(verifications[v].assets)) == kinds && Submitted(old(verifications[v].status)).Some?
      ensures error.Some? ==> verifications == old(verifications)
      ensures error.None? ==>
                verifications == old(verifications)[
                  v := Verification(Submitted(old(verifications[v].status)).value,
                                    Record(old(verifications[v].assets)))]
    {
      ghost var before := verifications[v].assets;
      var assets := verifications[v].assets;
      if LiveKinds(assets) != kinds {
        return Some(VERIFICATION_ASSET_INVALID);
      }
      var next := Submitted(verifications[v].status);
      if next.None? {
        return Some(IDEMPOTENCY_CONFLICT);
      }
      var rest := LiveKinds(assets);
      while rest != {}
        invariant rest <= LiveKinds(before) && assets.Keys == before.Keys
        invariant forall t :: t in before ==> assets[t] == if t in rest then before[t] else Record(before)[t]
      {
        var t :| t in rest;
        rest := rest - {t};
        assets := assets[t := assets[t].(deleteAfter := None, submitted := true)];
      }
      assert assets == Record(before);
      verifications := verifications[v := Verification(next.value, assets)];
      error := None;
    }

    // ----- verification-asset-deletion.ts ------------------------------------------------------

    method ClaimAsset(id: AssetId, now: int) returns (claimed: bool)
      modifies this`verifications
      ensures claimed <==> old(Has(id)) && Due(old(Row(id)), now)
      ensures View() == if claimed then WithRow(old(View()), id.v, id.kind, old(Row(id)).(claimedAt := Some(now)))
              else old(View())
    {
      if !Has(id) || !Due(Row(id), now) {
        return false;
      }
      UpdateRow(id, Row(id).(claimedAt := Some(now)));
      return true;
    }

    method MarkAssetDeleted(id: AssetId, claimedAt: int) returns (marked: bool)
      modifies this`verifications
      ensures marked <==> Holds(old(View()), Job(id.v, id.kind, id.key, claimedAt, ERASED))
      ensures View() == if marked
                        then WithRow(old(View()), id.v, id.kind,
                                     old(Row(id)).(deletedAt := Some(claimedAt), claimedAt := None))
                        else old(View())
    {
      if !Has(id) || Row(id).deletedAt.Some? || Row(id).claimedAt != Some(claimedAt) {
        return false;
      }
      UpdateRow(id, Row(id).(deletedAt := Some(claimedAt), claimedAt := None));
      return true;
    }

    method ReleaseAssetClaim(id: AssetId, claimedAt: int)
      modifies this`verifications
      ensures View() == if Holds(old(View()), Job(id.v, id.kind, id.key, claimedAt, FAILED))
                        then WithRow(old(View()), id.v, id.kind, old(Row(id)).(claimedAt := None))
                        else old(View())
    {
      if Has(id) && Row(id).deletedAt.None? && Row(id).claimedAt == Some(claimedAt) {
        UpdateRow(id, Row(id).(claimedAt := None));
      }
    }

    /**
     * One listed asset: skipped unless it can be claimed; else its object is deleted and the row marked, or released
     * again.
     */
    method DeleteDueAsset(id: AssetId, now: int, fails: bool) returns (outcome: Outcome)
      modifies this`verifications, this`store
      ensures outcome == if !Claimable(old(View()), id, now) then SKIPPED else if fails then KEPT else DELETED
      ensures store == if outcome.DELETED? then old(store) - {id.key} else old(store)
      ensures verifications == if outcome.SKIPPED? then old(verifications)
                               else WithRow(old(View()), id.v, id.kind, Swept(old(Row(id)), fails, now)).verifications
    {
      ghost var before := verifications;
      var claimed := ClaimAsset(id, now);
      if !claimed {
        return SKIPPED;
      }
      if fails {
        ReleaseAssetClaim(id, now);
        outcome := KEPT;
      } else {
        store := store - {id.key};
        var marked := MarkAssetDeleted(id, now);
        outcome := if marked then DELETED else SKIPPED;
      }
      assert verifications[id.v].assets == before[id.v].assets[id.kind := verifications[id.v].assets[id.kind]];
      assert verifications == before[id.v := verifications[id.v]];
    }

    /**
     * The second loop of a sweep that nothing interrupts, over any list of different rows: what can be claimed is
     * marked deleted after its object is gone, or is due again if deleting failed; everything else stays as it was.
     */
    method SweepDueAssets(list: seq<AssetId>, now: int, failing: set<Key>) returns (assetsDeleted: nat, failures: nat)
      requires forall k, l :: 0 <= k < l < |list| ==> (list[k].v, list[k].kind) != (list[l].v, list[l].kind)
      modifies this`verifications, this`store
      ensures assetsDeleted == |Taken(old(View()), list, failing, now, true)|
      ensures failures == |Taken(old(View()), list, failing, now, false)|
      ensures SweptTo(old(View()), View(), list, failing, now)
    {
      hide SweptTo, Claimable, Swept, Taken;
      assetsDeleted, failures := 0, 0;
      ghost var before := View();
      NothingTaken(before, failing, now);
      NothingSwept(before, failing, now);
      for i := 0 to |list|
        invariant assetsDeleted == |Taken(before, list[..i], failing, now, true)|
        invariant failures == |Taken(before, list[..i], failing, now, false)|
        invariant SweptTo(before, View(), list[..i], failing, now)
        invariant events == old(events)
      {
        ghost var s := View();
        assert list[..i + 1] == list[..i] + [list[i]];
        StillClaimable(before, s, list[..i], list[i], failing, now);
        TakenNext(before, list[..i], list[i], failing, now, true);
        TakenNext(before, list[..i], list[i], failing, now, false);
        var outcome := DeleteDueAsset(list[i], now, list[i].key in failing);
        SweptOne(before, s, View(), list[..i], list[i], failing, now);
        match outcome
        case SKIPPED =>
        case DELETED => assetsDeleted := assetsDeleted + 1;
        case KEPT => failures := failures + 1;
      }
      assert list[..|list|] == list;
    }

    /** The first loop of a sweep: an event is published once its object is gone, and tried again if deleting failed. */
    method SweepExactEvents(list: seq<Key>, failing: set<Key>) returns (exactObjectsDeleted: nat, failures: nat)
      requires forall k :: 0 <= k < |list| ==> list[k] in events && !events[list[k]]
      requires forall k, l :: 0 <= k < l < |list| ==> list[k] != list[l]
      modifies this`events, this`store
      ensures exactObjectsDeleted + failures == |list|
      ensures events.Keys == old(events).Keys
      ensures forall key :: key in events ==> events[key] == (old(events)[key] || (key in list && key !in failing))
      ensures store == set key | key in old(store) && !(key in list && key !in failing)
      ensures verifications == old(verifications)
    {
      exactObjectsDeleted, failures := 0, 0;
      for i := 0 to |list|
        invariant exactObjectsDeleted + failures == i
        invariant events.Keys == old(events).Keys
        invariant forall key :: key in events ==>
                    events[key] == (old(events)[key] || (key in list[..i] && key !in failing))
        invariant store == set key | key in old(store) && !(key in list[..i] && key !in failing)
      {
        assert list[..i + 1] == list[..i] + [list[i]];
        if list[i] in failing {
          failures := failures + 1;
        } else {
          store := store - {list[i]};
          events := events[list[i] := true];
          exactObjectsDeleted := exactObjectsDeleted + 1;
        }
      }
      assert list[..|list|] == list;
    }
  }

  function Ended(row: Asset, now: int): Asset {
    row.(deleteAfter := Some(now), claimedAt := None, deletedAt := Some(now))
  }

  lemma EventsOf(before: Assets, rest: set<AssetType>)
    requires rest == before.Keys
    ensures forall events: map<Key, bool> :: events + NewEvents(Retired(before - rest)) == events
  {
    assert before - rest == map[];
    assert Retired(map[]) == {};
  }

  lemma RetiredOne(events: map<Key, bool>, before: Assets, rest: set<AssetType>, t: AssetType)
    requires rest <= before.Keys && t in rest
    ensures events + NewEvents(Retired(before - (rest - {t}))) ==
            if before[t].deletedAt.None? then (events + NewEvents(Retired(before - rest)))[before[t].objectKey := false]
            else events + NewEvents(Retired(before - rest))
  {
    var less := before - rest;
    var more := before - (rest - {t});
    assert more == less[t := before[t]];
    assert Retired(more) == if before[t].deletedAt.None? then Retired(less) + {before[t].objectKey}
           else Retired(less) by {
      forall q | q in less && less[q].deletedAt.None? ensures less[q].objectKey in Retired(more) {
        assert q in more && more[q] == less[q];
      }
      assert t in more;
    }
  }

  /** A row after a sweep in which deleting its object failed or not. */
  function Swept(row: Asset, fails: bool, now: int): Asset {
    if fails then row.(claimedAt := None) else row.(deletedAt := Some(now), claimedAt := None)
  }

  predicate Claimable(s: State, id: AssetId, now: int) {
    && HasRow(s, id.v, id.kind) && RowOf(s, id.v, id.kind).objectKey == id.key
    && Due(RowOf(s, id.v, id.kind), now)
  }

  predicate Claims(s: State, list: seq<AssetId>, v: VerificationId, kind: AssetType, now: int) {
    exists k :: 0 <= k < |list| && list[k].v == v && list[k].kind == kind && Claimable(s, list[k], now)
  }

  predicate Erased(s: State, list: seq<AssetId>, failing: set<Key>, key: Key, now: int) {
    key !in failing && exists k :: 0 <= k < |list| && list[k].key == key && Claimable(s, list[k], now)
  }

  /**
   * The claimable rows of a list are swept, all others as they were, and exactly the objects of the deleted ones are
   * gone.
   */
  ghost predicate SweptTo(before: State, after: State, list: seq<AssetId>, failing: set<Key>, now: int) {
    && (forall v, kind :: HasRow(after, v, kind) <==> HasRow(before, v, kind))
    && (forall v, kind :: HasRow(before, v, kind) ==>
          RowOf(after, v, kind) ==
          if Claims(before, list, v, kind, now)
          then Swept(RowOf(before, v, kind), RowOf(before, v, kind).objectKey in failing, now)
          else RowOf(before, v, kind))
    && after.verifications.Keys == before.verifications.Keys
    && (forall v :: v in before.verifications ==> after.verifications[v].status == before.verifications[v].status)
    && (forall key :: key in after.store <==> key in before.store && !Erased(before, list, failing, key, now))
    && after.events == before.events
  }

  lemma NothingSwept(s: State, failing: set<Key>, now: int)
    ensures SweptTo(s, s, [], failing, now)
  {
  }

  predicate Unlisted(list: seq<AssetId>, id: AssetId) {
    forall k :: 0 <= k < |list| ==> (list[k].v, list[k].kind) != (id.v, id.kind)
  }

  /** A row that is not among those already swept can be claimed if it could be at the start. */
  lemma StillClaimable(before: State, s: State, list: seq<AssetId>, id: AssetId, failing: set<Key>, now: int)
    requires SweptTo(before, s, list, failing, now) && Unlisted(list, id)
    ensures Claimable(s, id, now) <==> Claimable(before, id, now)
    ensures HasRow(s, id.v, id.kind) <==> HasRow(before, id.v, id.kind)
    ensures HasRow(s, id.v, id.kind) ==> RowOf(s, id.v, id.kind) == RowOf(before, id.v, id.kind)
  {
    hide Due, Swept, Erased;
    assert !Claims(before, list, id.v, id.kind, now);
  }

  lemma ClaimsNext(s: State, list: seq<AssetId>, id: AssetId, now: int)
    ensures forall v, kind :: Claims(s, list + [id], v, kind, now) <==>
                              Claims(s, list, v, kind, now) || (v == id.v && kind == id.kind && Claimable(s, id, now))
  {
    hide Claimable;
    forall v, kind ensures Claims(s, list + [id], v, kind, now) <==>
                           Claims(s, list, v, kind, now) || (v == id.v && kind == id.kind && Claimable(s, id, now))
    {
      if Claims(s, list, v, kind, now) {
        var k :| 0 <= k < |list| && list[k].v == v && list[k].kind == kind && Claimable(s, list[k], now);
        assert (list + [id])[k] == list[k];
      }
      assert (list + [id])[|list|] == id;
    }
  }

  lemma ErasedNext(s: State, list: seq<AssetId>, id: AssetId, failing: set<Key>, now: int)
    ensures forall key :: Erased(s, list + [id], failing, key, now) <==>
                          Erased(s, list, failing, key, now) ||
                            (key == id.key && key !in failing && Claimable(s, id, now))
  {
    hide Claimable;
    forall key ensures Erased(s, list + [id], failing, key, now) <==>
                       Erased(s, list, failing, key, now) || (key == id.key && key !in failing && Claimable(s, id, now))
    {
      if Erased(s, list, failing, key, now) {
        var k :| 0 <= k < |list| && list[k].key == key && Claimable(s, list[k], now);
        assert (list + [id])[k] == list[k];
      }
      assert (list + [id])[|list|] == id;
    }
  }

  lemma SweptOne(before: State, s: State, t: State, list: seq<AssetId>, id: AssetId, failing: set<Key>, now: int)
    requires SweptTo(before, s, list, failing, now) && Unlisted(list, id)
    requires Claimable(s, id, now) <==> Claimable(before, id, now)
    requires var fails := id.key in failing;
             if !Claimable(s, id, now) then t.verifications == s.verifications && t.store == s.store
             else
               && t.verifications == WithRow(s, id.v, id.kind, Swept(RowOf(s, id.v, id.kind), fails, now)).verifications
               && t.store == if fails then s.store else s.store - {id.key}
    requires t.events == s.events
    ensures SweptTo(before, t, list + [id], failing, now)
  {
    hide Erased, Claims, Due, Swept;
    ClaimsNext(before, list, id, now);
    ErasedNext(before, list, id, failing, now);
    assert forall v, kind :: HasRow(t, v, kind) <==> HasRow(s, v, kind);
    NotYet(before, list, id, now);
  }

  lemma NotYet(s: State, list: seq<AssetId>, id: AssetId, now: int)
    requires Unlisted(list, id)
    ensures !Claims(s, list, id.v, id.kind, now)
  {
  }

  /** The listed rows that are claimed and deleted, or claimed and released again. */
  function Taken(s: State, list: seq<AssetId>, failing: set<Key>, now: int, deleted: bool): set<AssetId> {
    set id | id in list && Claimable(s, id, now) && deleted == (id.key !in failing)
  }

  lemma NothingTaken(s: State, failing: set<Key>, now: int)
    ensures forall deleted :: Taken(s, [], failing, now, deleted) == {}
  {
  }

  lemma TakenNext(s: State, list: seq<AssetId>, id: AssetId, failing: set<Key>, now: int, deleted: bool)
    requires Unlisted(list, id)
    ensures |Taken(s, list + [id], failing, now, deleted)| ==
            |Taken(s, list, failing, now, deleted)| +
            if Claimable(s, id, now) && deleted == (id.key !in failing) then 1 else 0
  {
    hide Claimable;
    assert id !in list;
    var before := Taken(s, list, failing, now, deleted);
    assert Taken(s, list + [id], failing, now, deleted) ==
           if Claimable(s, id, now) && deleted == (id.key !in failing) then before + {id} else before;
  }
}
