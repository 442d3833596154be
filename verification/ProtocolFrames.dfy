/** What the steps of the concurrent broker leave alone, by kind of step: publishing, taking out of memory for
    good, restarting, and the quiet rest. */
module ProtocolFrames {
  import opened Types
  import opened QueueModel
  import opened Tables
  import opened Ledger
  import opened Protocol

  ghost predicate IsPublishing(step: Step) {
    step.BeginPublish? || step.PublishTransient? || step.PublishMissing? || step.PublishSave? || step.PublishEnqueue? ||
    step.PublishDone?
  }

  ghost predicate IsSettling(step: Step) {
    step.AckStep? || step.DeleteAcked? || step.NackStep? || step.DeleteRejected? || step.SaveLetter?
  }

  ghost predicate IsRestarting(step: Step) {
    step.Crash? || step.RestoreNext? || step.RestoreMark?
  }

  ghost predicate IsQuiet(step: Step) {
    step.FetchStep? || step.MarkStep? || step.DisconnectStep? || step.ReleaseStep? || step.JoinStep? ||
    step.AddTransient? || step.DropTransient? || step.Load? || step.Open?
  }

  /** Exchanges, queues and filters never change. */
  ghost predicate SameTopology(s: State, s': State) {
    s'.db.exchanges == s.db.exchanges && s'.db.queues == s.db.queues && s'.db.filters == s.db.filters
  }

  datatype Kind = Publish | Mark | Delete | Bury | Letter | Release

  function KindOf(c: Call): Kind {
    match c
    case Publishing(_, _, _) => Publish
    case Saved(_, _, _, _, _) => Publish
    case Marking(_, _, _) => Mark
    case Deleting(_) => Delete
    case Burying(_, _) => Bury
    case Lettering(_, _, _) => Letter
    case Releasing(_) => Release
  }

  /** Only calls of these kinds may be new or have moved. */
  ghost predicate OldCalls(s: State, s': State, kinds: set<Kind>) {
    forall u :: u in s'.calls && KindOf(s'.calls[u]) !in kinds ==> u in s.calls && s.calls[u] == s'.calls[u]
  }

  // ---------------------------------------------------------------- quiet steps

  /** Fetches, marks, disconnects and releases write no history, and no row comes or goes. */
  ghost predicate QuietEffect(s: State, s': State) {
    && s'.h == s.h && SameTopology(s, s') && s'.db.letters == s.db.letters
    && s'.db.deliveries.Keys == s.db.deliveries.Keys
    && OldCalls(s, s', {Mark, Release})
  }

  lemma FetchIsQuiet(s: State, t: nat, key: QueueKey, consumer: string)
    requires key in s.mem && s.mem[key].ready != []
    ensures QuietEffect(s, DoFetch(s, t, key, consumer)) && DoFetch(s, t, key, consumer).db == s.db
  {
  }

  lemma MarkIsQuiet(s: State, t: nat, reply: Reply)
    requires t in s.calls && s.calls[t].Marking?
    ensures QuietEffect(s, DoMark(s, t, reply)) && OldCalls(s, DoMark(s, t, reply), {Release})
  {
  }

  lemma DisconnectIsQuiet(s: State, t: nat, key: QueueKey, consumer: string, returned: seq<Delivery>)
    requires key in s.mem
    ensures QuietEffect(s, DoDisconnect(s, t, key, consumer, returned))
    ensures DoDisconnect(s, t, key, consumer, returned).db == s.db
    ensures OldCalls(s, DoDisconnect(s, t, key, consumer, returned), {Release})
  {
    hide Disconnect;
  }

  lemma ReleaseIsQuiet(s: State, t: nat, reply: Reply)
    requires t in s.calls && s.calls[t].Releasing? && s.calls[t].pending != []
    ensures QuietEffect(s, DoRelease(s, t, reply)) && OldCalls(s, DoRelease(s, t, reply), {Release})
  {
  }

  /** So do the steps that touch memory alone. */
  lemma MemoryStepsAreQuiet(s: State, limit: int, step: Step)
    requires Enabled(s, limit, step)
    requires step.JoinStep? || step.AddTransient? || step.DropTransient? || step.Load? || step.Open?
    ensures QuietEffect(s, Apply(s, limit, step)) && OldCalls(s, Apply(s, limit, step), {Release})
  {
    hide Enabled, Apply;
    MemoryStepsChangeMemory(s, limit, step);
  }

  lemma MemoryStepsChangeMemory(s: State, limit: int, step: Step)
    requires Enabled(s, limit, step)
    requires step.JoinStep? || step.AddTransient? || step.DropTransient? || step.Load? || step.Open?
    ensures var s' := Apply(s, limit, step); s'.h == s.h && s'.db == s.db && s'.calls == s.calls
  {
    hide IsDeliveryOrder, Join, NewQueue;
  }

  lemma CallStepsAreQuiet(s: State, limit: int, step: Step)
    requires Enabled(s, limit, step)
    requires step.FetchStep? || step.MarkStep? || step.DisconnectStep? || step.ReleaseStep?
    ensures QuietEffect(s, Apply(s, limit, step))
    ensures !step.FetchStep? ==> OldCalls(s, Apply(s, limit, step), {Release})
  {
    hide DoFetch, DoMark, DoDisconnect, DoRelease, IsReturnOrder, Owned, QuietEffect, OldCalls;
    match step
    case FetchStep(t, key, consumer) => FetchIsQuiet(s, t, key, consumer);
    case MarkStep(t, reply) => MarkIsQuiet(s, t, reply);
    case DisconnectStep(t, key, consumer, returned) => DisconnectIsQuiet(s, t, key, consumer, returned);
    case ReleaseStep(t, reply) => ReleaseIsQuiet(s, t, reply);
  }

  lemma QuietSteps(s: State, limit: int, step: Step)
    requires Enabled(s, limit, step) && IsQuiet(step)
    ensures QuietEffect(s, Apply(s, limit, step))
    ensures !step.FetchStep? ==> OldCalls(s, Apply(s, limit, step), {Release})
  {
    hide Enabled, Apply, QuietEffect, OldCalls;
    if step.FetchStep? || step.MarkStep? || step.DisconnectStep? || step.ReleaseStep? {
      CallStepsAreQuiet(s, limit, step);
    } else {
      MemoryStepsAreQuiet(s, limit, step);
    }
  }

  // ---------------------------------------------------------------- publishing

  /** A publish adds: IDs, rows, entries in memory and confirmations. */
  ghost predicate PublishingEffect(s: State, s': State) {
    && s'.phase == s.phase && SameTopology(s, s') && s'.db.letters == s.db.letters
    && Extends(s.h.home, s'.h.home) && s.h.saved.Keys <= s'.h.saved.Keys && s.h.entered <= s'.h.entered
    && s.h.confirmed <= s'.h.confirmed
    && s'.h.settled == s.h.settled && s'.h.deleted == s.h.deleted && s'.h.acked == s.h.acked
    && s'.h.lettered == s.h.lettered && s'.h.dropped == s.h.dropped
    && Extends(s.db.deliveries, s'.db.deliveries)
    && OldCalls(s, s', {Publish})
  }

  lemma TransientPublishes(s: State, t: nat, id: Id)
    requires CanOffer(s, t, id, false)
    ensures PublishingEffect(s, DoPublishTransient(s, t, id))
  {
    hide Enqueue;
  }

  lemma SavePublishes(s: State, t: nat, id: Id, now: nat, reply: Reply)
    requires CanOffer(s, t, id, true) && (!reply.Refused? ==> id !in s.db.deliveries)
    ensures PublishingEffect(s, DoPublishSave(s, t, id, now, reply))
  {
  }

  lemma EnqueuePublishes(s: State, t: nat)
    requires t in s.calls && s.calls[t].Saved? && s.calls[t].key in s.mem
    ensures PublishingEffect(s, DoPublishEnqueue(s, t))
  {
    hide Enqueue;
  }

  lemma PublishingSteps(s: State, limit: int, step: Step)
    requires Enabled(s, limit, step) && IsPublishing(step)
    ensures PublishingEffect(s, Apply(s, limit, step))
  {
    hide DoPublishTransient, DoPublishSave, DoPublishEnqueue, IsRoute, CanOffer;
    match step
    case PublishTransient(t, id) => TransientPublishes(s, t, id);
    case PublishSave(t, id, now, reply) => SavePublishes(s, t, id, now, reply);
    case PublishEnqueue(t) => EnqueuePublishes(s, t);
    case _ =>
  }

  // ---------------------------------------------------------------- settling

  /** Acks and NAcks remove: nothing is minted, saved, entered or confirmed. */
  ghost predicate SettlingEffect(s: State, s': State) {
    && s'.phase == s.phase && SameTopology(s, s')
    && s'.h.home == s.h.home && s'.h.saved == s.h.saved && s'.h.entered == s.h.entered
    && s'.h.confirmed == s.h.confirmed
    && s.h.deleted.Keys <= s'.h.deleted.Keys && s.h.acked <= s'.h.acked
    && s.h.lettered.Keys <= s'.h.lettered.Keys && s.h.dropped <= s'.h.dropped
    && OldCalls(s, s', {Delete, Bury, Letter, Release})
  }

  lemma AckSettles(s: State, t: nat, key: QueueKey, id: Id, consumer: string)
    requires CanSettle(s, t, key, id, consumer)
    ensures SettlingEffect(s, DoAck(s, t, key, id, consumer)) && DoAck(s, t, key, id, consumer).h.dropped == s.h.dropped
    ensures OldCalls(s, DoAck(s, t, key, id, consumer), {Delete})
  {
    hide Settle;
  }

  lemma NackSettles(s: State, t: nat, key: QueueKey, id: Id, consumer: string)
    requires CanSettle(s, t, key, id, consumer)
    ensures SettlingEffect(s, DoNack(s, t, key, id, consumer))
    ensures DoNack(s, t, key, id, consumer).h.dropped == s.h.dropped
  {
    hide Settle, Requeue, GivesUp;
  }

  lemma DeleteSettles(s: State, t: nat, reply: Reply)
    requires t in s.calls
    ensures s.calls[t].Deleting? ==> SettlingEffect(s, DoDeleteAcked(s, t, reply))
    ensures s.calls[t].Deleting? ==>
      DoDeleteAcked(s, t, reply).h.dropped == s.h.dropped && OldCalls(s, DoDeleteAcked(s, t, reply), {})
    ensures s.calls[t].Deleting? ==> DoDeleteAcked(s, t, reply).h.settled == s.h.settled
    ensures s.calls[t].Burying? ==>
      SettlingEffect(s, DoDeleteRejected(s, t, reply)) && DoDeleteRejected(s, t, reply).h.settled == s.h.settled
  {
  }

  lemma LetterSettles(s: State, t: nat, letterId: Id, reply: Reply)
    requires t in s.calls && s.calls[t].Lettering?
    ensures SettlingEffect(s, DoSaveLetter(s, t, letterId, reply))
    ensures DoSaveLetter(s, t, letterId, reply).h.settled == s.h.settled
    ensures OldCalls(s, DoSaveLetter(s, t, letterId, reply), {})
  {
  }

  lemma SettlingSteps(s: State, limit: int, step: Step)
    requires Enabled(s, limit, step) && IsSettling(step)
    ensures SettlingEffect(s, Apply(s, limit, step))
    ensures !step.AckStep? && !step.NackStep? ==> Apply(s, limit, step).h.settled == s.h.settled
    ensures step.AckStep? || step.NackStep? || step.DeleteAcked? ==> Apply(s, limit, step).h.dropped == s.h.dropped
    ensures step.AckStep? || step.DeleteAcked? || step.SaveLetter? ==> OldCalls(s, Apply(s, limit, step), {Delete})
  {
    hide DoAck, DoNack, DoDeleteAcked, DoDeleteRejected, DoSaveLetter, CanSettle, CanSaveLetter;
    match step
    case AckStep(t, key, id, consumer) => AckSettles(s, t, key, id, consumer);
    case NackStep(t, key, id, consumer) => NackSettles(s, t, key, id, consumer);
    case DeleteAcked(t, reply) => DeleteSettles(s, t, reply);
    case DeleteRejected(t, reply) => DeleteSettles(s, t, reply);
    case SaveLetter(t, letterId, reply) => LetterSettles(s, t, letterId, reply);
  }

  // ---------------------------------------------------------------- restarting

  /** A crash forgets calls, entries and settlements; a restore adds entries. */
  ghost predicate RestartingEffect(s: State, s': State) {
    && SameTopology(s, s') && s'.db.letters == s.db.letters && s'.db.deliveries.Keys == s.db.deliveries.Keys
    && s'.h.home == s.h.home && s'.h.saved == s.h.saved && s'.h.deleted == s.h.deleted && s'.h.acked == s.h.acked
    && s'.h.confirmed == s.h.confirmed && s'.h.lettered == s.h.lettered && s.h.dropped <= s'.h.dropped
    && (s'.h.settled == s.h.settled || s'.h.settled == map[])
    && OldCalls(s, s', {})
  }

  lemma CrashRestarts(s: State, db: Tables)
    requires db == s.db.(deliveries := db.deliveries) && db.deliveries.Keys == s.db.deliveries.Keys
    ensures RestartingEffect(s, DoCrash(s.(db := db)))
  {
  }

  lemma RestoreRestarts(s: State)
    requires CanRestore(s)
    ensures RestartingEffect(s, DoRestoreNext(s)) && DoRestoreNext(s).h.dropped == s.h.dropped
  {
    hide RestoreReady;
  }

  lemma MarkRestarts(s: State, reply: Reply)
    requires s.phase.Restoring? && s.phase.unmarked.Some?
    ensures RestartingEffect(s, DoRestoreMark(s, reply))
  {
    var db := if reply.Refused? then s.db else MarkReady(s.db, s.phase.unmarked.value);
    CrashRestarts(s, db);
    hide DoCrash;
  }

  lemma RestartingSteps(s: State, limit: int, step: Step)
    requires Enabled(s, limit, step) && IsRestarting(step)
    ensures RestartingEffect(s, Apply(s, limit, step))
    ensures step.RestoreNext? ==> Apply(s, limit, step).h.dropped == s.h.dropped
  {
    hide DoCrash, DoRestoreNext, DoRestoreMark, CanRestore;
    match step
    case Crash => CrashRestarts(s, s.db);
    case RestoreNext => RestoreRestarts(s);
    case RestoreMark(reply) => MarkRestarts(s, reply);
  }
}
