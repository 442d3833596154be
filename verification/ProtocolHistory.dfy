/** What the history of a run records, in terms of the steps that were taken: which rows are stranded, which
    dead letters are missing, and which deliveries a publish confirms. */
module ProtocolHistory {
  import opened Types
  import opened QueueModel
  import opened Tables
  import opened Ledger
  import opened Protocol
  import opened ProtocolInvariant
  import opened ProtocolSteps
  import opened ProtocolFrames
  import opened ProtocolTheorems

  // ---------------------------------------------------------------- missing dead letters

  /** A saved delivery has neither row nor dead letter, was not acknowledged, and no call is about to write its
      letter, exactly when some earlier step lost it: a delete whose reply was lost, a letter refused, or a
      crash between the two. */
  lemma LetterMissingExactlyWhen(states: seq<State>, limit: int, steps: seq<Step>, i: nat, id: Id)
    requires IsRun(states, limit, steps) && i < |states| && id in states[i].h.saved
    ensures var s := states[i];
      id !in s.db.deliveries && !Maps(s.h.deleted, id, ByAck) && !HasLetter(s, id) && !LetterPending(s, id) <==>
      exists j :: 0 <= j < i && Drops(states[j], steps[j], id)
  {
    hide IsRun, Drops, Inv;
    RunKeepsInv(states, limit, steps, i);
    PendingLetter(states[i], id);
    var fate := EveryDeliveryAccountedFor(states, limit, steps, i, id);
    DroppedExactlyWhen(states, limit, steps, i, id);
    MissingIsDropped(states[i], id, fate);
  }

  lemma MissingIsDropped(s: State, id: Id, fate: Fate)
    requires HasFate(s, id, fate) && (forall other :: HasFate(s, id, other) ==> other == fate)
    requires fate.DeadLettered? ==> HasLetter(s, id)
    ensures id !in s.db.deliveries && !Maps(s.h.deleted, id, ByAck) && !HasLetter(s, id) && !LetterPending(s, id) ==>
      id in s.h.dropped
    ensures id in s.h.dropped && !LetterPending(s, id) ==>
      id !in s.db.deliveries && !Maps(s.h.deleted, id, ByAck) && !HasLetter(s, id)
    ensures id in s.h.dropped ==> HasFate(s, id, LetterMissing)
  {
    hide LetterPending;
    if id in s.h.dropped {
      assert HasFate(s, id, LetterMissing);
      assert !HasFate(s, id, Stored) && !HasFate(s, id, Acknowledged) && !HasFate(s, id, DeadLettered);
    }
  }

  // ---------------------------------------------------------------- stranded rows

  /** The steps that leave a row of delivery `id` without a queue or a call to look after it. */
  ghost predicate Strands(s: State, step: Step, id: Id) {
    match step
    case PublishSave(t, x, _, reply) => reply.Lost? && x == id
    case DeleteAcked(t, reply) => t in s.calls && reply.Refused? && Held(s.calls[t]) == Some(id)
    case DeleteRejected(t, reply) => t in s.calls && reply.Refused? && Held(s.calls[t]) == Some(id)
    case _ => false
  }

  lemma SaveStrands(s: State, t: nat, x: Id, now: nat, reply: Reply)
    requires CanOffer(s, t, x, true)
    ensures forall id :: id in DoPublishSave(s, t, x, now, reply).h.stranded <==>
      id in s.h.stranded || (reply.Lost? && x == id)
  {
  }

  lemma DeleteStrands(s: State, t: nat, reply: Reply)
    requires t in s.calls
    ensures s.calls[t].Deleting? ==> forall id :: id in DoDeleteAcked(s, t, reply).h.stranded <==>
      id in s.h.stranded || (reply.Refused? && Held(s.calls[t]) == Some(id))
    ensures s.calls[t].Burying? ==> forall id :: id in DoDeleteRejected(s, t, reply).h.stranded <==>
      id in s.h.stranded || (reply.Refused? && Held(s.calls[t]) == Some(id))
  {
  }

  lemma FailuresStrand(s: State, limit: int, step: Step, id: Id)
    requires Enabled(s, limit, step) && (step.PublishSave? || step.DeleteAcked? || step.DeleteRejected?)
    ensures id in Apply(s, limit, step).h.stranded <==> id in s.h.stranded || Strands(s, step, id)
  {
    hide DoPublishSave, DoDeleteAcked, DoDeleteRejected, Held;
    match step
    case PublishSave(t, x, now, reply) => SaveStrands(s, t, x, now, reply);
    case DeleteAcked(t, reply) => DeleteStrands(s, t, reply);
    case DeleteRejected(t, reply) => DeleteStrands(s, t, reply);
  }

  lemma OthersStrandNothing(s: State, limit: int, step: Step)
    requires Enabled(s, limit, step) && !step.PublishSave? && !step.DeleteAcked? && !step.DeleteRejected?
    ensures Apply(s, limit, step).phase.Serving? ==> Apply(s, limit, step).h.stranded == s.h.stranded
  {
    hide Enabled, Apply;
    if IsPublishing(step) {
      PublishingStrandsNothing(s, limit, step);
    } else if IsSettling(step) {
      SettlingStrandsNothing(s, limit, step);
    } else if IsQuiet(step) {
      QuietSteps(s, limit, step);
    } else {
      RestartingStrandsNothing(s, limit, step);
    }
  }

  lemma PublishingStrandsNothing(s: State, limit: int, step: Step)
    requires Enabled(s, limit, step) && IsPublishing(step) && !step.PublishSave?
    ensures Apply(s, limit, step).h.stranded == s.h.stranded
  {
    hide IsRoute, Enqueue, IsReturnOrder, IsDeliveryOrder, CanFetch, GivesUp, CanSaveLetter;
  }

  lemma SettlingStrandsNothing(s: State, limit: int, step: Step)
    requires Enabled(s, limit, step) && IsSettling(step) && !step.DeleteAcked? && !step.DeleteRejected?
    ensures Apply(s, limit, step).h.stranded == s.h.stranded
  {
    hide DoAck, DoNack, DoSaveLetter, CanSettle, CanSaveLetter;
    match step
    case AckStep(t, key, id, consumer) => TakingStrandsNothing(s, t, key, id, consumer);
    case NackStep(t, key, id, consumer) => TakingStrandsNothing(s, t, key, id, consumer);
    case SaveLetter(t, letterId, reply) => LetterStrandsNothing(s, t, letterId, reply);
  }

  lemma TakingStrandsNothing(s: State, t: nat, key: QueueKey, id: Id, consumer: string)
    requires CanSettle(s, t, key, id, consumer)
    ensures DoAck(s, t, key, id, consumer).h.stranded == s.h.stranded
    ensures DoNack(s, t, key, id, consumer).h.stranded == s.h.stranded
  {
    hide GivesUp, Settle, Requeue;
  }

  lemma LetterStrandsNothing(s: State, t: nat, letterId: Id, reply: Reply)
    requires t in s.calls && s.calls[t].Lettering?
    ensures DoSaveLetter(s, t, letterId, reply).h.stranded == s.h.stranded
  {
  }

  lemma RestartingStrandsNothing(s: State, limit: int, step: Step)
    requires Enabled(s, limit, step) && IsRestarting(step)
    ensures Apply(s, limit, step).phase.Serving? ==> Apply(s, limit, step).h.stranded == s.h.stranded
  {
    hide RestoreReady, IsReturnOrder, IsDeliveryOrder, CanFetch, IsRoute, GivesUp, CanSaveLetter;
  }

  lemma StepStrands(s: State, limit: int, step: Step, id: Id)
    requires Inv(s) && Enabled(s, limit, step) && Apply(s, limit, step).phase.Serving?
    ensures id in Apply(s, limit, step).h.stranded <==> s.phase.Serving? && (id in s.h.stranded || Strands(s, step, id))
  {
    assert !s.phase.Serving? ==> s.h.stranded == {} && s.calls == map[];
    hide Inv, Apply, Strands;
    hide Enabled;
    if step.PublishSave? || step.DeleteAcked? || step.DeleteRejected? {
      NeedsCall(s, limit, step);
      FailuresStrand(s, limit, step, id);
    } else {
      OthersStrandNothing(s, limit, step);
      QuietOnStranding(s, step, id);
    }
  }

  lemma NeedsCall(s: State, limit: int, step: Step)
    requires Enabled(s, limit, step) && (step.PublishSave? || step.DeleteAcked? || step.DeleteRejected?)
    ensures s.calls != map[]
  {
    assert step.t in s.calls;
  }

  lemma QuietOnStranding(s: State, step: Step, id: Id)
    requires !step.PublishSave? && !step.DeleteAcked? && !step.DeleteRejected?
    ensures !Strands(s, step, id)
  {
  }

  /** A row is stranded exactly when an earlier step of this process run stranded it: a publish that lost the
      reply to its save, or an Ack or a giving-up NAck whose delete was refused. */
  lemma {:induction false} StrandedExactlyWhen(states: seq<State>, limit: int, steps: seq<Step>, i: nat, id: Id)
    requires IsRun(states, limit, steps) && i < |states| && states[i].phase.Serving?
    ensures id in states[i].h.stranded <==>
      exists j :: 0 <= j < i && Strands(states[j], steps[j], id) && forall m :: j <= m <= i ==> states[m].phase.Serving?
  {
    hide Enabled, Apply, Inv, Strands;
    if i > 0 {
      RunKeepsInv(states, limit, steps, i - 1);
      StepStrands(states[i - 1], limit, steps[i - 1], id);
      if states[i - 1].phase.Serving? { StrandedExactlyWhen(states, limit, steps, i - 1, id); }
    }
  }

  // ---------------------------------------------------------------- what a dead letter says

  ghost predicate BuriesOrLetters(s: State, t: nat) {
    t in s.calls && (s.calls[t].Burying? || s.calls[t].Lettering?)
  }

  /** Step `step` is the NAck by which call `c` gave up its delivery. */
  ghost predicate GaveUp(s: State, step: Step, t: nat, c: Call)
    requires c.Burying? || c.Lettering?
  {
    && step.NackStep? && step.t == t && step.key == c.key
    && CanSettle(s, t, step.key, step.id, step.consumer)
    && c.delivery == s.mem[step.key].inFlight[step.id] && GivesUp(s.mem[step.key], c.delivery)
  }

  lemma NackGivesUp(s: State, t: nat, key: QueueKey, id: Id, consumer: string, u: nat)
    requires CanSettle(s, t, key, id, consumer) && BuriesOrLetters(DoNack(s, t, key, id, consumer), u)
    ensures var c := DoNack(s, t, key, id, consumer).calls[u];
      if u == t then GaveUp(s, NackStep(t, key, id, consumer), t, c) else u in s.calls && s.calls[u] == c
  {
    hide GivesUp;
  }

  lemma DeleteHandsOn(s: State, t: nat, reply: Reply, u: nat)
    requires t in s.calls && s.calls[t].Burying? && BuriesOrLetters(DoDeleteRejected(s, t, reply), u)
    ensures var c := DoDeleteRejected(s, t, reply).calls[u];
      && BuriesOrLetters(s, u) && s.calls[u].key == c.key && s.calls[u].delivery == c.delivery
  {
  }

  lemma OthersLeaveLetters(s: State, limit: int, step: Step, t: nat)
    requires Enabled(s, limit, step) && !step.NackStep? && !step.DeleteRejected?
    requires BuriesOrLetters(Apply(s, limit, step), t)
    ensures t in s.calls && s.calls[t] == Apply(s, limit, step).calls[t]
  {
    hide Enabled, Apply, SameTopology;
    if IsPublishing(step) {
      PublishingSteps(s, limit, step);
    } else if IsSettling(step) {
      SettlingSteps(s, limit, step);
    } else if IsQuiet(step) {
      QuietSteps(s, limit, step);
    } else {
      RestartingSteps(s, limit, step);
    }
  }

  lemma LetterBefore(s: State, limit: int, step: Step, t: nat)
    requires Enabled(s, limit, step) && BuriesOrLetters(Apply(s, limit, step), t)
    ensures var c := Apply(s, limit, step).calls[t];
      || GaveUp(s, step, t, c)
      || (BuriesOrLetters(s, t) && s.calls[t].key == c.key && s.calls[t].delivery == c.delivery)
  {
    hide DoNack, DoDeleteRejected, GaveUp, CanSettle;
    if step.NackStep? {
      NackGivesUp(s, step.t, step.key, step.id, step.consumer, t);
    } else if step.DeleteRejected? {
      DeleteHandsOn(s, step.t, step.reply, t);
    } else {
      OthersLeaveLetters(s, limit, step, t);
    }
  }

  /** A dead letter on its way was given up by an earlier NAck, just as it was in flight then. */
  lemma {:induction false} LetterCameFrom(states: seq<State>, limit: int, steps: seq<Step>, i: nat, t: nat)
        returns (j: nat)
    requires IsRun(states, limit, steps) && i < |states| && BuriesOrLetters(states[i], t)
    ensures j < i && GaveUp(states[j], steps[j], t, states[i].calls[t])
  {
    hide Enabled, Apply, GaveUp;
    assert i > 0;
    assert Enabled(states[i - 1], limit, steps[i - 1]) && states[i] == Apply(states[i - 1], limit, steps[i - 1]);
    hide IsRun;
    LetterBefore(states[i - 1], limit, steps[i - 1], t);
    if GaveUp(states[i - 1], steps[i - 1], t, states[i].calls[t]) {
      j := i - 1;
    } else {
      j := LetterCameFrom(states, limit, steps, i - 1, t);
      SameGiveUp(states[j], steps[j], t, states[i - 1].calls[t], states[i].calls[t]);
    }
  }

  lemma SameGiveUp(s: State, step: Step, t: nat, c: Call, c': Call)
    requires (c.Burying? || c.Lettering?) && (c'.Burying? || c'.Lettering?) && c.key == c'.key
      && c.delivery == c'.delivery
    requires GaveUp(s, step, t, c)
    ensures GaveUp(s, step, t, c')
  {
  }

  /** A dead letter that is written says what its delivery was when its owner's NAck gave it up: message, attempts,
      queue and exchange. */
  lemma LetterSaysWhatWasRejected(states: seq<State>, limit: int, steps: seq<Step>, i: nat) returns (j: nat)
    requires IsRun(states, limit, steps) && i < |steps| && steps[i].SaveLetter? && !steps[i].reply.Refused?
    ensures j < i && BuriesOrLetters(states[i], steps[i].t)
    ensures GaveUp(states[j], steps[j], steps[i].t, states[i].calls[steps[i].t])
    ensures TakenByOwner(states[j].mem[steps[j].key], steps[j].id, steps[j].consumer, true)
    ensures
      var d, key := states[j].mem[steps[j].key].inFlight[steps[j].id], steps[j].key;
      && steps[i].letterId !in states[i].db.letters && steps[i].letterId in states[i + 1].db.letters
      && states[i + 1].db.letters[steps[i].letterId]
           == LetterRow(key.exchange, DeadLetter(d.message, key.name, d.attempts))
  {
    var s, step := states[i], steps[i];
    assert Enabled(s, limit, step) && states[i + 1] == DoSaveLetter(s, step.t, step.letterId, step.reply);
    hide Enabled, Apply, GivesUp;
    j := LetterCameFrom(states, limit, steps, i, step.t);
    hide IsRun;
  }
}
