/**
 * apps/api/src/m2/idempotency.service.ts: a keyed wrapper that runs an action at most once per record
 * lifetime, under concurrent requests, serialization failures, retries and key rotation.
 */
module Idempotency {
  import opened Wrappers
  import CanonicalJson
  import Numerals

  type RequestId = nat

  const IDEMPOTENCY_LIFETIME_MS: int := 86400000

  /** Exactly one identity, with or without a campus. */
  datatype Actor = User(id: nat, campus: Option<nat>) | Admin(id: nat, campus: Option<nat>)
  datatype Slot = Slot(operation: string, key: string)
  datatype Reply = Reply(status: nat, body: string)
  datatype Record = Record(actor: Actor, digest: Numerals.Text, reply: Reply, keyVersion: nat, expiresAt: int)
  datatype Outcome = Done(reply: Reply, replayed: bool) | Failed(error: Error)

  /** A request in flight: running its transactions, looking for the record that beat it, or finished. */
  datatype Phase = Running | Looking | Finished(outcome: Outcome)
  datatype Request = Request(slot: Slot, actor: Actor, digest: Numerals.Text, now: int, attempts: nat, phase: Phase)

  /** A committed action, in the order of commits. */
  datatype Effect = Effect(id: RequestId, slot: Slot, actor: Actor, digest: Numerals.Text, now: int, reply: Reply)

  datatype State = State(records: map<Slot, Record>, effects: seq<Effect>, requests: map<RequestId, Request>,
                         keyVersion: nat)

  datatype Step =
    | Begin(id: RequestId, slot: Slot, actor: Actor, request: CanonicalJson.Json, now: int, attempts: nat)
    | Transact(id: RequestId, action: Result<Reply>)
    | Conflict(id: RequestId)
    | Duplicate(id: RequestId)
    | Look(id: RequestId)
    | Rotate(keyVersion: nat)

  const Empty: State := State(map[], [], map[], 0)

  /** The digest is represented by the canonical text it digests. */
  function Digest(request: CanonicalJson.Json): Numerals.Text {
    CanonicalJson.Print(request)
  }

  function Replay(record: Record, actor: Actor, digest: Numerals.Text, keyVersion: nat): Outcome {
    if record.actor != actor || record.digest != digest then Failed(IDEMPOTENCY_CONFLICT)
    else if record.keyVersion != keyVersion then Failed(IDEMPOTENCY_CONFLICT)
    else Done(record.reply, true)
  }

  predicate Valid(records: map<Slot, Record>, slot: Slot, now: int) {
    slot in records && records[slot].expiresAt > now
  }

  function Recorded(actor: Actor, digest: Numerals.Text, reply: Reply, keyVersion: nat, now: int): Record {
    Record(actor, digest, reply, keyVersion, now + IDEMPOTENCY_LIFETIME_MS)
  }

  function Finish(s: State, id: RequestId, outcome: Outcome): State
    requires id in s.requests
  {
    s.(requests := s.requests[id := s.requests[id].(phase := Finished(outcome))])
  }

  /**
   * One serializable transaction that commits: a replay, or the action with its record; an action that throws aborts
   * it.
   */
  function Transacted(s: State, id: RequestId, action: Result<Reply>): State
    requires id in s.requests
  {
    var request := s.requests[id];
    if Valid(s.records, request.slot, request.now)
    then Finish(s, id, Replay(s.records[request.slot], request.actor, request.digest, s.keyVersion))
    else
      match action
      case Err(error) => Finish(s, id, Failed(error))
      case Ok(reply) =>
        Finish(s, id, Done(reply, false))
          .(records := s.records[request.slot := Recorded(request.actor, request.digest, reply, s.keyVersion,
                                                          request.now)],
            effects := s.effects + [Effect(id, request.slot, request.actor, request.digest, request.now, reply)])
  }

  function Next(s: State, step: Step): State {
    match step
    case Begin(id, slot, actor, request, now, attempts) =>
      if id in s.requests || attempts < 1 || attempts > 8 then s
      else s.(requests := s.requests[id := Request(slot, actor, Digest(request), now, attempts, Running)])
    case Transact(id, action) =>
      if id !in s.requests || !s.requests[id].phase.Running? then s else Transacted(s, id, action)
    case Conflict(id) =>
      if id !in s.requests || !s.requests[id].phase.Running? then s
      else if s.requests[id].attempts <= 1 then Finish(s, id, Failed(INTERNAL_ERROR))
      else s.(requests := s.requests[id := s.requests[id].(attempts := s.requests[id].attempts - 1)])
    case Duplicate(id) =>
      if id !in s.requests || !s.requests[id].phase.Running? then s
      else s.(requests := s.requests[id := s.requests[id].(phase := Looking)])
    case Look(id) =>
      if id !in s.requests || !s.requests[id].phase.Looking? then s
      else
        var request := s.requests[id];
        Finish(s, id,
               if Valid(s.records, request.slot, request.now)
               then Replay(s.records[request.slot], request.actor, request.digest, s.keyVersion)
               else Failed(UNIQUE_VIOLATION))
    case Rotate(keyVersion) => s.(keyVersion := keyVersion)
  }

  function Run(s: State, steps: seq<Step>): State {
    if steps == [] then s else Next(Run(s, steps[..|steps| - 1]), steps[|steps| - 1])
  }

  // ----- invariants --------------------------------------------------------------------------

  predicate OfSlot(s: State, i: nat, slot: Slot) {
    i < |s.effects| && s.effects[i].slot == slot
  }

  predicate LastOfSlot(s: State, i: nat, slot: Slot) {
    OfSlot(s, i, slot) && forall j :: i < j < |s.effects| ==> s.effects[j].slot != slot
  }

  predicate Backs(record: Record, effect: Effect) {
    && record.actor == effect.actor && record.digest == effect.digest && record.reply == effect.reply
    && record.expiresAt == effect.now + IDEMPOTENCY_LIFETIME_MS
  }

  /** A record is that of the last effect of its slot. */
  ghost predicate RecordsInv(s: State) {
    && (forall slot :: slot in s.records ==>
        exists i: nat :: LastOfSlot(s, i, slot) && Backs(s.records[slot], s.effects[i]))
    && (forall i :: 0 <= i < |s.effects| ==> s.effects[i].slot in s.records)
  }

  /** Two effects of one slot are at least a record lifetime apart. */
  predicate SpacedInv(s: State) {
    forall i, j :: 0 <= i < j < |s.effects| && s.effects[i].slot == s.effects[j].slot ==>
      s.effects[j].now >= s.effects[i].now + IDEMPOTENCY_LIFETIME_MS
  }

  predicate Made(request: Request, effect: Effect) {
    effect.slot == request.slot && effect.actor == request.actor && effect.digest == request.digest
  }

  /** The effect a successful request answers with: its own, or one made earlier whose record it found valid. */
  predicate Answers(s: State, id: RequestId, i: nat)
    requires id in s.requests && s.requests[id].phase.Finished? && s.requests[id].phase.outcome.Done?
  {
    && i < |s.effects|
    && var request := s.requests[id];
       var effect := s.effects[i];
       && Made(request, effect) && request.phase.outcome.reply == effect.reply
       && (if request.phase.outcome.replayed then request.now < effect.now + IDEMPOTENCY_LIFETIME_MS
           else effect.id == id && effect.now == request.now)
  }

  predicate Succeeded(s: State, id: RequestId) {
    id in s.requests && s.requests[id].phase.Finished? && s.requests[id].phase.outcome.Done?
  }

  ghost predicate AnswersInv(s: State) {
    forall id :: Succeeded(s, id) ==> exists i: nat :: Answers(s, id, i)
  }

  predicate EffectInv(s: State, i: nat)
    requires i < |s.effects|
  {
    var effect := s.effects[i];
    Succeeded(s, effect.id) && !s.requests[effect.id].phase.outcome.replayed && Answers(s, effect.id, i)
  }

  /** Every effect was made by one request that reported it, and by no other effect's. */
  predicate EffectsInv(s: State) {
    && (forall i :: 0 <= i < |s.effects| ==> EffectInv(s, i))
    && (forall i, j :: 0 <= i < j < |s.effects| ==> s.effects[i].id != s.effects[j].id)
  }

  ghost predicate Inv(s: State) {
    RecordsInv(s) && SpacedInv(s) && AnswersInv(s) && EffectsInv(s)
  }

  // ----- steps -------------------------------------------------------------------------------

  /** A step that commits no effect: records stay, at most one unfinished request moves on. */
  ghost predicate NoEffect(s: State, t: State, id: RequestId) {
    && t.records == s.records && t.effects == s.effects
    && (id in s.requests ==> !s.requests[id].phase.Finished?)
    && (forall other :: other != id ==> (other in t.requests <==> other in s.requests))
    && (forall other :: other in s.requests && other != id ==> t.requests[other] == s.requests[other])
  }

  lemma NoEffectInv(s: State, t: State, id: RequestId)
    requires Inv(s) && NoEffect(s, t, id)
    requires Succeeded(t, id) ==> exists i: nat :: Answers(t, id, i)
    ensures Inv(t)
  {
    forall other | Succeeded(t, other) ensures exists i: nat :: Answers(t, other, i) {
      if other != id {
        assert Succeeded(s, other);
        var i: nat :| Answers(s, other, i);
        assert Answers(t, other, i);
      }
    }
    forall slot | slot in t.records
      ensures exists i: nat :: LastOfSlot(t, i, slot) && Backs(t.records[slot], t.effects[i]) {
      var i: nat :| LastOfSlot(s, i, slot) && Backs(s.records[slot], s.effects[i]);
      assert LastOfSlot(t, i, slot);
    }
    forall i | 0 <= i < |t.effects| ensures EffectInv(t, i) {
      assert EffectInv(s, i);
    }
  }

  /** A replayed success answers with the effect behind the record it found. */
  lemma ReplayAnswers(s: State, id: RequestId)
    requires Inv(s) && id in s.requests && !s.requests[id].phase.Finished?
    requires var request := s.requests[id];
             Valid(s.records, request.slot, request.now)
    ensures var request := s.requests[id];
            Inv(Finish(s, id, Replay(s.records[request.slot], request.actor, request.digest, s.keyVersion)))
  {
    var request := s.requests[id];
    var record := s.records[request.slot];
    var t := Finish(s, id, Replay(record, request.actor, request.digest, s.keyVersion));
    var i: nat :| LastOfSlot(s, i, request.slot) && Backs(record, s.effects[i]);
    if Succeeded(t, id) {
      assert Answers(t, id, i);
    }
    NoEffectInv(s, t, id);
  }

  lemma CommitInv(s: State, id: RequestId, reply: Reply)
    requires Inv(s) && id in s.requests && s.requests[id].phase.Running?
    requires !Valid(s.records, s.requests[id].slot, s.requests[id].now)
    ensures Inv(Transacted(s, id, Ok(reply)))
  {
    var t := Transacted(s, id, Ok(reply));
    CommitRecords(s, t, id, reply);
    CommitSpaced(s, t, id, reply);
    CommitEffects(s, t, id, reply);
    CommitAnswers(s, t, id, reply);
  }

  predicate Committed(s: State, t: State, id: RequestId, reply: Reply) {
    && id in s.requests && s.requests[id].phase.Running?
    && var request := s.requests[id];
       && !Valid(s.records, request.slot, request.now)
       && t == Transacted(s, id, Ok(reply))
  }

  lemma TransactedRecords(s: State, t: State, id: RequestId, reply: Reply)
    requires Committed(s, t, id, reply)
    ensures var request := s.requests[id];
            && t.effects == s.effects + [Effect(id, request.slot, request.actor, request.digest, request.now, reply)]
            && t.records == s.records[request.slot := Recorded(request.actor, request.digest, reply, s.keyVersion,
                                                               request.now)]
  {
  }

  lemma CommitRecords(s: State, t: State, id: RequestId, reply: Reply)
    requires RecordsInv(s) && Committed(s, t, id, reply)
    ensures RecordsInv(t)
  {
    hide Transacted;
    TransactedRecords(s, t, id, reply);
    var mine := s.requests[id].slot;
    forall slot | slot in t.records
      ensures exists i: nat :: LastOfSlot(t, i, slot) && Backs(t.records[slot], t.effects[i]) {
      if slot == mine {
        assert LastOfSlot(t, |s.effects|, slot);
      } else {
        var i := RecordOf(s, slot);
        assert LastOfSlot(t, i, slot);
      }
    }
  }

  lemma RecordOf(s: State, slot: Slot) returns (last: nat)
    requires RecordsInv(s) && slot in s.records
    ensures LastOfSlot(s, last, slot) && Backs(s.records[slot], s.effects[last])
  {
    last :| LastOfSlot(s, last, slot) && Backs(s.records[slot], s.effects[last]);
  }

  lemma SlotRecorded(s: State, i: nat)
    requires RecordsInv(s) && i < |s.effects|
    ensures s.effects[i].slot in s.records
  {
  }

  /** Once the record of a slot has expired, every effect of the slot is a lifetime old. */
  lemma LastExpired(s: State, slot: Slot, now: int, i: nat)
    requires RecordsInv(s) && SpacedInv(s) && OfSlot(s, i, slot) && !Valid(s.records, slot, now)
    ensures now >= s.effects[i].now + IDEMPOTENCY_LIFETIME_MS
  {
    hide RecordsInv;
    SlotRecorded(s, i);
    var last := RecordOf(s, slot);
    assert i <= last;
  }

  lemma CommitSpaced(s: State, t: State, id: RequestId, reply: Reply)
    requires RecordsInv(s) && SpacedInv(s) && Committed(s, t, id, reply)
    ensures SpacedInv(t)
  {
    hide RecordsInv;
    var request := s.requests[id];
    forall i | 0 <= i < |s.effects| && s.effects[i].slot == request.slot
      ensures request.now >= s.effects[i].now + IDEMPOTENCY_LIFETIME_MS
    {
      LastExpired(s, request.slot, request.now, i);
    }
  }

  lemma CommitEffects(s: State, t: State, id: RequestId, reply: Reply)
    requires EffectsInv(s) && Committed(s, t, id, reply)
    ensures EffectsInv(t)
  {
    forall i | 0 <= i < |s.effects| ensures EffectInv(t, i) && t.effects[i].id != id {
      assert EffectInv(s, i);
    }
    assert EffectInv(t, |s.effects|);
  }

  lemma CommitAnswers(s: State, t: State, id: RequestId, reply: Reply)
    requires AnswersInv(s) && Committed(s, t, id, reply)
    ensures AnswersInv(t)
  {
    forall other | Succeeded(t, other) ensures exists i: nat :: Answers(t, other, i) {
      if other == id {
        assert Answers(t, id, |s.effects|);
      } else {
        assert Succeeded(s, other);
        var i: nat :| Answers(s, other, i);
        assert Answers(t, other, i);
      }
    }
  }

  lemma StepInv(s: State, step: Step)
    requires Inv(s)
    ensures Inv(Next(s, step))
  {
    hide Inv;
    match step
    case Begin(id, _, _, _, _, _) => if Next(s, step) != s { NoEffectInv(s, Next(s, step), id); }
    case Transact(id, action) =>
      if id in s.requests && s.requests[id].phase.Running? {
        if Valid(s.records, s.requests[id].slot, s.requests[id].now) {
          ReplayAnswers(s, id);
        } else if action.Ok? {
          CommitInv(s, id, action.value);
        } else {
          NoEffectInv(s, Next(s, step), id);
        }
      }
    case Conflict(id) => if Next(s, step) != s { NoEffectInv(s, Next(s, step), id); }
    case Duplicate(id) => if Next(s, step) != s { NoEffectInv(s, Next(s, step), id); }
    case Look(id) =>
      if id in s.requests && s.requests[id].phase.Looking? {
        if Valid(s.records, s.requests[id].slot, s.requests[id].now) {
          ReplayAnswers(s, id);
        } else {
          NoEffectInv(s, Next(s, step), id);
        }
      }
    case Rotate(_) => RotateInv(s, Next(s, step));
  }

  lemma RotateInv(s: State, t: State)
    requires Inv(s) && t == s.(keyVersion := t.keyVersion)
    ensures Inv(t)
  {
    FreshId(s.requests.Keys);
    var unused: RequestId :| unused !in s.requests.Keys;
    NoEffectInv(s, t, unused);
  }

  lemma {:induction false} FreshId(ids: set<RequestId>)
    ensures exists id: RequestId :: id !in ids
  {
    var bound := Above(ids);
    assert bound !in ids;
  }

  ghost function Above(ids: set<RequestId>): (bound: nat)
    ensures forall id :: id in ids ==> id < bound
  {
    if ids == {} then 0
    else
      var id :| id in ids;
      var rest := Above(ids - {id});
      assert forall other :: other in ids ==> other == id || other in ids - {id};
      if id < rest then rest else id + 1
  }

  lemma {:induction false} RunInv(steps: seq<Step>)
    ensures Inv(Run(Empty, steps))
  {
    hide Next;
    if steps == [] {
    } else {
      RunInv(steps[..|steps| - 1]);
      StepInv(Run(Empty, steps[..|steps| - 1]), steps[|steps| - 1]);
    }
  }

  // ----- exactly once ------------------------------------------------------------------------

  /** Every request with this operation and key was made within one record lifetime. */
  ghost predicate WithinLifetime(s: State, slot: Slot, start: int) {
    forall id :: id in s.requests && s.requests[id].slot == slot ==>
      start <= s.requests[id].now < start + IDEMPOTENCY_LIFETIME_MS
  }

  /**
   * However attempts, conflicts, duplicates and retries interleave, an action commits at most once per record lifetime.
   */
  lemma AtMostOnePerLifetime(steps: seq<Step>, i: nat, j: nat)
    requires var s := Run(Empty, steps);
             i < j < |s.effects| && s.effects[i].slot == s.effects[j].slot
    ensures Run(Empty, steps).effects[j].now >= Run(Empty, steps).effects[i].now + IDEMPOTENCY_LIFETIME_MS
    ensures Run(Empty, steps).effects[j].id != Run(Empty, steps).effects[i].id
  {
    RunInv(steps);
  }

  lemma OneEffect(s: State, slot: Slot, start: int, i: nat, j: nat)
    requires Inv(s) && WithinLifetime(s, slot, start) && OfSlot(s, i, slot) && OfSlot(s, j, slot)
    ensures i == j
  {
    assert EffectInv(s, i) && EffectInv(s, j);
  }

  /** Another request with the same operation and key, by another actor or with another value. */
  predicate Differs(s: State, a: RequestId, c: RequestId) {
    && a in s.requests && c in s.requests && s.requests[a].slot == s.requests[c].slot
    && (s.requests[a].actor != s.requests[c].actor || s.requests[a].digest != s.requests[c].digest)
  }

  /** The step that answers a request which is still in flight. */
  predicate Answering(s: State, step: Step, c: RequestId) {
    && c in s.requests
    && ((step.Transact? && step.id == c && s.requests[c].phase.Running?) ||
        (step.Look? && step.id == c && s.requests[c].phase.Looking?))
  }

  /** The request conflicts, and no record or effect changes. */
  predicate Refused(s: State, step: Step, c: RequestId) {
    var t := Next(s, step);
    && c in t.requests && t.requests[c].phase == Finished(Failed(IDEMPOTENCY_CONFLICT))
    && t.records == s.records && t.effects == s.effects
  }

  /**
   * Within a record lifetime all successful requests with one operation and key come from one actor and one
   * request value, return one status and body, and only one of them carried the action out. A request by another
   * actor or with another value has neither succeeded nor taken effect, and conflicts whenever it is answered.
   */
  lemma ExactlyOnce(steps: seq<Step>, slot: Slot, start: int, a: RequestId, b: RequestId)
    requires var s := Run(Empty, steps);
             && WithinLifetime(s, slot, start) && Succeeded(s, a) && Succeeded(s, b)
             && s.requests[a].slot == slot && s.requests[b].slot == slot
    ensures var s := Run(Empty, steps);
            && s.requests[a].phase.outcome.reply == s.requests[b].phase.outcome.reply
            && s.requests[a].actor == s.requests[b].actor && s.requests[a].digest == s.requests[b].digest
            && (!s.requests[a].phase.outcome.replayed && !s.requests[b].phase.outcome.replayed ==> a == b)
            && exists i: nat :: OfSlot(s, i, slot) && forall j: nat :: OfSlot(s, j, slot) ==> j == i
    ensures var s := Run(Empty, steps);
            forall c :: Differs(s, a, c) ==> !Succeeded(s, c) && forall i :: 0 <= i < |s.effects| ==>
              s.effects[i].id != c
    ensures var s := Run(Empty, steps);
            forall c, step :: Differs(s, a, c) && Answering(s, step, c) ==> Refused(s, step, c)
  {
    hide Run, Inv, Refused, Answering, Differs;
    RunInv(steps);
    var s := Run(Empty, steps);
    OneAnswer(s, slot, start, a, b);
    forall c | Differs(s, a, c)
      ensures !Succeeded(s, c) && forall i :: 0 <= i < |s.effects| ==> s.effects[i].id != c
    {
      OthersFail(s, slot, start, a, c);
    }
    forall c, step | Differs(s, a, c) && Answering(s, step, c) ensures Refused(s, step, c) {
      OthersConflict(s, slot, start, a, c, step);
    }
  }

  lemma OneAnswer(s: State, slot: Slot, start: int, a: RequestId, b: RequestId)
    requires Inv(s) && WithinLifetime(s, slot, start) && Succeeded(s, a) && Succeeded(s, b)
    requires s.requests[a].slot == slot && s.requests[b].slot == slot
    ensures s.requests[a].phase.outcome.reply == s.requests[b].phase.outcome.reply
    ensures s.requests[a].actor == s.requests[b].actor && s.requests[a].digest == s.requests[b].digest
    ensures !s.requests[a].phase.outcome.replayed && !s.requests[b].phase.outcome.replayed ==> a == b
    ensures exists i: nat :: OfSlot(s, i, slot) && forall j: nat :: OfSlot(s, j, slot) ==> j == i
  {
    hide RecordsInv, SpacedInv;
    var i: nat :| Answers(s, a, i);
    var j: nat :| Answers(s, b, j);
    OneEffect(s, slot, start, i, j);
    forall k: nat | OfSlot(s, k, slot) ensures k == i {
      OneEffect(s, slot, start, k, i);
    }
    assert OfSlot(s, i, slot);
  }

  lemma OthersFail(s: State, slot: Slot, start: int, a: RequestId, c: RequestId)
    requires Inv(s) && WithinLifetime(s, slot, start) && Succeeded(s, a) && s.requests[a].slot == slot &&
             Differs(s, a, c)
    ensures !Succeeded(s, c) && forall i :: 0 <= i < |s.effects| ==> s.effects[i].id != c
  {
    hide RecordsInv, SpacedInv;
    if Succeeded(s, c) {
      OneAnswer(s, slot, start, a, c);
    }
    forall i | 0 <= i < |s.effects| ensures s.effects[i].id != c {
      assert EffectInv(s, i);
    }
  }

  /** The record of the one effect is valid for every request made within the lifetime. */
  lemma OthersConflict(s: State, slot: Slot, start: int, a: RequestId, c: RequestId, step: Step)
    requires Inv(s) && WithinLifetime(s, slot, start) && Succeeded(s, a) && s.requests[a].slot == slot
    requires Differs(s, a, c) && Answering(s, step, c)
    ensures Refused(s, step, c)
  {
    hide SpacedInv;
    var i: nat :| Answers(s, a, i);
    assert EffectInv(s, i) && s.effects[i].slot in s.records;
    var j: nat :| LastOfSlot(s, j, slot) && Backs(s.records[slot], s.effects[j]);
    OneEffect(s, slot, start, i, j);
  }

  /** A request is recognised again exactly when it is the same JSON value, whatever the order of its members. */
  lemma SameRequestSameDigest(a: CanonicalJson.Json, b: CanonicalJson.Json)
    requires CanonicalJson.Proper(a) && CanonicalJson.Proper(b)
    ensures Digest(a) == Digest(b) <==> CanonicalJson.MeaningOf(a) == CanonicalJson.MeaningOf(b)
  {
    CanonicalJson.PrintInjective(a, b);
  }

  // ----- one request -------------------------------------------------------------------------

  /** What the database makes of one transaction. */
  datatype Fate = COMMITS | CONFLICTS | COLLIDES

  function FirstSettled(fates: seq<Fate>): (k: nat)
    ensures k <= |fates|
    ensures forall i :: 0 <= i < k ==> fates[i].CONFLICTS?
    ensures k < |fates| ==> !fates[k].CONFLICTS?
  {
    if fates == [] then 0 else if fates[0].CONFLICTS? then 1 + FirstSettled(fates[1..]) else 0
  }

  class IdempotencyService {
    var records: map<Slot, Record>
    var effects: seq<Effect>
    var keyVersion: nat

    constructor ()
      ensures View() == Empty
    {
      records, effects, keyVersion := map[], [], 0;
    }

    ghost function View(): State
      reads this
    {
      State(records, effects, map[], keyVersion)
    }

    method ReplayRecord(record: Record, actor: Actor, digest: Numerals.Text) returns (outcome: Outcome)
      ensures outcome == Replay(record, actor, digest, keyVersion)
    {
      if record.actor != actor || record.digest != digest {
        return Failed(IDEMPOTENCY_CONFLICT);
      }
      if record.keyVersion != keyVersion {
        return Failed(IDEMPOTENCY_CONFLICT);
      }
      return Done(record.reply, true);
    }

    /** The transaction: an expired record is deleted, the action run, and its record created. */
    method Attempt(id: RequestId, request: Request, action: Result<Reply>) returns (outcome: Outcome)
      modifies this`records, this`effects
      ensures var before := old(View()).(requests := map[id := request]);
              Finish(View().(requests := map[id := request]), id, outcome) == Transacted(before, id, action)
      ensures Valid(old(records), request.slot, request.now) ==>
                View() == old(View()) &&
                outcome == Replay(old(records)[request.slot], request.actor, request.digest, keyVersion)
    {
      var slot := request.slot;
      var saved := records;
      if slot in records {
        if records[slot].expiresAt > request.now {
          outcome := ReplayRecord(records[slot], request.actor, request.digest);
          return;
        }
        records := records - {slot};
      }
      if action.Err? {
        records := saved;
        return Failed(action.error);
      }
      effects := effects + [Effect(id, slot, request.actor, request.digest, request.now, action.value)];
      records := records[slot := Recorded(request.actor, request.digest, action.value, keyVersion, request.now)];
      assert records == saved[slot := records[slot]];
      return Done(action.value, false);
    }

    /**
     * The whole request: serialization conflicts are retried up to the limit, and a collision with another
     * request's record is answered from that record.
     */
    method Execute(id: RequestId, request: Request, action: Result<Reply>, fates: seq<Fate>) returns (outcome: Outcome)
      requires 1 <= request.attempts <= 8 && |fates| == request.attempts
      modifies this`records, this`effects
      ensures FirstSettled(fates) < |fates| && request.slot in old(records) &&
              request.now < old(records)[request.slot].expiresAt ==>
                var record := old(records)[request.slot];
                && View() == old(View())
                && outcome == if record.actor == request.actor && record.digest == request.digest &&
                                 record.keyVersion == keyVersion
                              then Done(record.reply, true) else Failed(IDEMPOTENCY_CONFLICT)
      ensures var k := FirstSettled(fates);
              var before := old(View()).(requests := map[id := request]);
              var after := Finish(View().(requests := map[id := request]), id, outcome);
              && (k == |fates| ==> outcome == Failed(INTERNAL_ERROR) && View() == old(View()))
              && (k < |fates| && fates[k].COMMITS? ==> after == Transacted(before, id, action))
              && (k < |fates| && fates[k].COLLIDES? ==>
                    View() == old(View()) &&
                    outcome == if Valid(records, request.slot, request.now)
                               then Replay(records[request.slot], request.actor, request.digest, keyVersion)
                               else Failed(UNIQUE_VIOLATION))
    {
      for attempt := 0 to request.attempts
        invariant View() == old(View()) && attempt <= FirstSettled(fates)
      {
        match fates[attempt] {
          case COMMITS =>
            outcome := Attempt(id, request, action);
            return;
          case COLLIDES =>
            if request.slot !in records || records[request.slot].expiresAt <= request.now {
              return Failed(UNIQUE_VIOLATION);
            }
            outcome := ReplayRecord(records[request.slot], request.actor, request.digest);
            return;
          case CONFLICTS =>
        }
      }
      return Failed(INTERNAL_ERROR);
    }
  }
}
