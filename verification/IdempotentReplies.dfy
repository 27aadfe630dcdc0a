/** How a request is answered, told from the history of committed actions alone. */
module IdempotentReplies {
  import opened Wrappers
  import opened Idempotency

  /** The last of these steps committed an action for the slot. */
  predicate Commits(steps: seq<Step>, slot: Slot) {
    && steps != []
    && var before, after := Run(Empty, steps[..|steps| - 1]).effects, Run(Empty, steps).effects;
       |after| == |before| + 1 && after[|before|].slot == slot
  }

  /** The first k steps of a run end with the slot's last action so far. */
  predicate LastCommit(steps: seq<Step>, k: nat, slot: Slot) {
    && 0 < k <= |steps| && Commits(steps[..k], slot)
    && forall j :: k < j <= |steps| ==> !Commits(steps[..j], slot)
  }

  /** The action committed by the last of the first k steps. */
  function Committed(steps: seq<Step>, k: nat): Effect
    requires k <= |steps| && Run(Empty, steps[..k]).effects != []
  {
    var effects := Run(Empty, steps[..k]).effects;
    effects[|effects| - 1]
  }

  /** What a step does to actions and records. */
  lemma StepCommits(s: State, step: Step)
    ensures var t := Next(s, step);
            || (t.effects == s.effects && t.records == s.records)
            || (exists effect ::
                  && t.effects == s.effects + [effect] && t.keyVersion == s.keyVersion
                  && t.records == s.records[effect.slot := Record(effect.actor, effect.digest, effect.reply,
                                                                  s.keyVersion, effect.now + 86400000)])
  {
  }

  /** The record of the last action of a slot is still there, under the key version of its time. */
  lemma {:induction false} RecordKept(steps: seq<Step>, k: nat, slot: Slot)
    requires LastCommit(steps, k, slot)
    ensures var effect := Committed(steps, k);
            && effect.slot == slot && slot in Run(Empty, steps).records
            && Run(Empty, steps).records[slot] ==
               Record(effect.actor, effect.digest, effect.reply, Run(Empty, steps[..k]).keyVersion,
                      effect.now + 86400000)
  {
    hide Next;
    var n := |steps| - 1;
    assert steps[..n + 1] == steps;
    if k == |steps| {
      StepCommits(Run(Empty, steps[..n]), steps[n]);
    } else {
      hide Run;
      assert forall j :: k <= j <= n ==> steps[..n][..j] == steps[..j];
      RecordKept(steps[..n], k, slot);
      NotCommitted(steps, slot);
    }
  }

  lemma NotCommitted(steps: seq<Step>, slot: Slot)
    requires steps != [] && !Commits(steps, slot)
    ensures var before, after := Run(Empty, steps[..|steps| - 1]), Run(Empty, steps);
            (slot in before.records <==> slot in after.records) &&
            (slot in before.records ==> after.records[slot] == before.records[slot])
  {
    hide Next;
    var n := |steps| - 1;
    StepCommits(Run(Empty, steps[..n]), steps[n]);
  }

  /** Only the answered request changes. */
  predicate AnswersOnly(s: State, t: State, c: RequestId, outcome: Outcome)
    requires c in s.requests
  {
    t == s.(requests := s.requests[c := s.requests[c].(phase := Finished(outcome))])
  }

  /**
   * A request for an operation and key whose last action is less than a day old, whenever it is answered: it gets that
   * action's status and body if it comes from the same actor with the same value and the encryption key has not been
   * changed since, and conflicts otherwise. No action is carried out, and no record changes.
   */
  lemma RepeatIsAnswered(steps: seq<Step>, k: nat, slot: Slot, step: Step, c: RequestId)
    requires LastCommit(steps, k, slot) && Answering(Run(Empty, steps), step, c)
    requires Run(Empty, steps).requests[c].slot == slot
    requires Run(Empty, steps).requests[c].now < Committed(steps, k).now + 86400000
    ensures var s := Run(Empty, steps);
            var request, effect := s.requests[c], Committed(steps, k);
            AnswersOnly(s, Next(s, step), c,
                        if request.actor == effect.actor && request.digest == effect.digest &&
                           s.keyVersion == Run(Empty, steps[..k]).keyVersion
                        then Done(effect.reply, true) else Failed(IDEMPOTENCY_CONFLICT))
  {
    hide Run;
    RecordKept(steps, k, slot);
  }

  predicate NoRotation(steps: seq<Step>) {
    forall k :: 0 <= k < |steps| ==> !steps[k].Rotate?
  }

  lemma {:induction false} SameKey(steps: seq<Step>)
    requires NoRotation(steps)
    ensures Run(Empty, steps).keyVersion == 0
  {
    if steps != [] {
      SameKey(steps[..|steps| - 1]);
    }
  }

  /** While the encryption key stays, a repeated request always gets the first one's status and body. */
  lemma RepeatIsReplayed(steps: seq<Step>, k: nat, slot: Slot, step: Step, c: RequestId)
    requires LastCommit(steps, k, slot) && Answering(Run(Empty, steps), step, c) && NoRotation(steps)
    requires Run(Empty, steps).requests[c].slot == slot
    requires Run(Empty, steps).requests[c].now < Committed(steps, k).now + 86400000
    requires Run(Empty, steps).requests[c].actor == Committed(steps, k).actor
    requires Run(Empty, steps).requests[c].digest == Committed(steps, k).digest
    ensures AnswersOnly(Run(Empty, steps), Next(Run(Empty, steps), step), c, Done(Committed(steps, k).reply, true))
  {
    hide Run, Next, Answering;
    RepeatIsAnswered(steps, k, slot, step, c);
    SameKey(steps);
    SameKey(steps[..k]);
  }

  /**
   * A request for which no action of its operation and key is less than a day old is carried out by its transaction:
   * the action's answer is returned and committed with it once, and an action that throws leaves nothing behind. If
   * another request was said to have beaten it, there is nothing to find, and it fails.
   */
  lemma FreshIsCarriedOut(steps: seq<Step>, step: Step, c: RequestId)
    requires Answering(Run(Empty, steps), step, c)
    requires var s := Run(Empty, steps);
             forall i :: 0 <= i < |s.effects| && s.effects[i].slot == s.requests[c].slot ==>
               s.effects[i].now + 86400000 <= s.requests[c].now
    ensures var s := Run(Empty, steps);
            var t := Next(s, step);
            var request := s.requests[c];
            && (step.Transact? && step.action.Ok? ==>
                  && t.requests == s.requests[c := request.(phase := Finished(Done(step.action.value, false)))]
                  && t.effects == s.effects + [Effect(c, request.slot, request.actor, request.digest, request.now,
                                                      step.action.value)])
            && (step.Transact? && step.action.Err? ==> AnswersOnly(s, t, c, Failed(step.action.error)))
            && (step.Look? ==> AnswersOnly(s, t, c, Failed(UNIQUE_VIOLATION)))
  {
    hide Run;
    RunInv(steps);
    NothingValid(Run(Empty, steps), Run(Empty, steps).requests[c].slot, Run(Empty, steps).requests[c].now);
  }

  lemma NothingValid(s: State, slot: Slot, now: int)
    requires Inv(s)
    requires forall i :: 0 <= i < |s.effects| && s.effects[i].slot == slot ==> s.effects[i].now + 86400000 <= now
    ensures slot in s.records ==> s.records[slot].expiresAt <= now
  {
    hide SpacedInv, AnswersInv, EffectsInv;
    if slot in s.records {
      var i := RecordOf(s, slot);
    }
  }
}
