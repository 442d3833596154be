/** What the concurrent broker guarantees, for every run: any number of calls interleaved
    step by step, failing repository calls, and crashes between any two steps. */
module ProtocolTheorems {
  import opened Types
  import opened QueueModel
  import opened Tables
  import opened Ledger
  import opened Protocol
  import opened ProtocolInvariant
  import opened ProtocolSteps
  import opened ProtocolFrames

  /** `id` is ready or in flight in queue `key`. */
  ghost predicate InQueue(s: State, key: QueueKey, id: Id) {
    key in s.mem && id in Live(s.mem[key])
  }

  /** A call in progress that has yet to finish with the row of `id`: a publish that has stored
      but not enqueued it, or an Ack or giving-up NAck that has not deleted it yet. */
  ghost predicate HoldsRow(c: Call, id: Id) {
    Held(c) == Some(id) && !c.Lettering?
  }

  lemma SeenInLedger(s: State, key: QueueKey, id: Id)
    requires Inv(s)
    ensures InQueue(s, key, id) ==> Maps(s.h.home, id, key) && (s.mem[key].durable <==> key in s.db.queues)
    ensures InQueue(s, key, id) && s.mem[key].durable ==> Maps(DurableLive(s), id, Live(s.mem[key])[id])
    ensures id in DurableLive(s) ==>
      id in s.h.home && InQueue(s, s.h.home[id], id) && DurableLive(s)[id] == Live(s.mem[s.h.home[id]])[id]
  {
    if InQueue(s, key, id) {
      assert QueueOk(s.db, s.h.home, key, s.mem[key]);
    }
  }

  // ---------------------------------------------------------------- write-ahead

  /** Whatever a durable queue holds was stored first: same queue, same message. The attempts on
      record, and those any late MarkInFlight will write, never exceed the attempts in memory. */
  lemma StoredBeforeHeld(states: seq<State>, limit: int, steps: seq<Step>, i: nat, key: QueueKey, id: Id)
    requires IsRun(states, limit, steps) && i < |states|
    requires InQueue(states[i], key, id) && states[i].mem[key].durable
    ensures var s := states[i]; var d := Live(s.mem[key])[id];
      && id in s.db.deliveries
      && s.db.deliveries[id].queue == key && s.db.deliveries[id].message == d.message
      && s.db.deliveries[id].attempts <= d.attempts
      && forall t :: t in s.calls && s.calls[t].Marking? && s.calls[t].id == id ==> s.calls[t].attempts <= d.attempts
  {
    var s := states[i];
    RunKeepsInv(states, limit, steps, i);
    SeenInLedger(s, key, id);
    assert EntryOk(LedgerOf(s), id);
    forall t | t in s.calls && s.calls[t].Marking? && s.calls[t].id == id
      ensures s.calls[t].attempts <= Live(s.mem[key])[id].attempts
    {
      assert CallOk(LedgerOf(s), s.calls[t]);
    }
  }

  /** While serving, a stored delivery is in its queue, or stranded by a failed repository call,
      or held by a call in progress; exactly one of the three, and by one call only. */
  lemma RowsAccountedFor(states: seq<State>, limit: int, steps: seq<Step>, i: nat, id: Id)
    requires IsRun(states, limit, steps) && i < |states| && states[i].phase.Serving?
    requires id in states[i].db.deliveries
    ensures var s := states[i]; var key := s.db.deliveries[id].queue;
      && (InQueue(s, key, id) || id in s.h.stranded || exists t :: t in s.calls && HoldsRow(s.calls[t], id))
      && !(InQueue(s, key, id) && id in s.h.stranded)
      && (forall t :: t in s.calls && HoldsRow(s.calls[t], id) ==> !InQueue(s, key, id) && id !in s.h.stranded)
      && (forall t, u ::
            t in s.calls && u in s.calls && HoldsRow(s.calls[t], id) && HoldsRow(s.calls[u], id) ==> t == u)
  {
    var s := states[i];
    var l := LedgerOf(s);
    RunKeepsInv(states, limit, steps, i);
    SeenInLedger(s, s.db.deliveries[id].queue, id);
    assert EntryOk(l, id);
    HeldIsNotLive(l, id);
    assert QueueOk(s.db, s.h.home, s.h.home[id], s.mem[s.h.home[id]]);
    if id in l.h.holder {
      var t := l.h.holder[id];
      assert CallOk(l, l.calls[t]);
      assert t in s.calls && HoldsRow(s.calls[t], id);
    }
    forall t | t in s.calls && HoldsRow(s.calls[t], id) ensures Maps(l.h.holder, id, t) {}
  }

  /** A publisher that has stored its delivery always finds the queue to enqueue it in. */
  lemma EnqueueFindsItsQueue(states: seq<State>, limit: int, steps: seq<Step>, i: nat, t: nat)
    requires IsRun(states, limit, steps) && i < |states| && t in states[i].calls && states[i].calls[t].Saved?
    ensures Enabled(states[i], limit, PublishEnqueue(t))
  {
    var s := states[i];
    RunKeepsInv(states, limit, steps, i);
    CallsMeanServing(s);
    assert CallOk(LedgerOf(s), s.calls[t]) && EntryOk(LedgerOf(s), s.calls[t].delivery.id);
  }

  // ---------------------------------------------------------------- crash and restore

  /** Queue `k` holds `id` exactly if it was saved for that queue and never deleted, and then as its row says. */
  ghost predicate HoldsExactly(s: State, k: QueueKey, id: Id) {
    && (InQueue(s, k, id) <==> id in s.h.saved && id !in s.h.deleted && Maps(s.h.home, id, k))
    && (InQueue(s, k, id) ==> id in s.db.deliveries && Live(s.mem[k])[id] == LoadedDelivery(id, s.db.deliveries[id]))
  }

  /** Restore always finds the queue of the row it is about to put back: it can be stopped by a failing repository
      call or a crash, and by nothing else. */
  lemma RestoreNeverStuck(states: seq<State>, limit: int, steps: seq<Step>, i: nat)
    requires IsRun(states, limit, steps) && i < |states| && states[i].phase.Restoring?
    ensures var s := states[i];
      if s.phase.unmarked.Some? then Enabled(s, limit, RestoreMark(Success))
      else if s.phase.next < |s.phase.order| then Enabled(s, limit, RestoreNext)
      else Enabled(s, limit, Open)
  {
    hide *;
    RunKeepsInv(states, limit, steps, i);
    NextIsRestorable(states[i]);
    RestoringEnables(states[i], limit);
  }

  lemma RestoringEnables(s: State, limit: int)
    ensures CanRestore(s) <==> Enabled(s, limit, RestoreNext)
    ensures s.phase.Restoring? && s.phase.unmarked.Some? ==> Enabled(s, limit, RestoreMark(Success))
    ensures s.phase.Restoring? && s.phase.unmarked.None? && s.phase.next == |s.phase.order| ==> Enabled(s, limit, Open)
  {
    hide CanRestore;
  }

  lemma NextIsRestorable(s: State)
    requires Inv(s) && s.phase.Restoring?
    ensures s.phase.next <= |s.phase.order|
    ensures s.phase.unmarked.None? && s.phase.next < |s.phase.order| ==> CanRestore(s)
  {
    hide Live, WellFormed;
    var l := LedgerOf(s);
    assert RestoreOk(l);
    if s.phase.next < |s.phase.order| {
      var id := s.phase.order[s.phase.next];
      assert id in l.rows && SameContents(s.phase.snapshot[id], l.rows[id]) && EntryOk(l, id);
    }
  }

  /** Whatever happened before, when Restore has finished the durable queues hold exactly the
      deliveries saved and never deleted: all ready, none owned, as their rows say; and no
      consumer or transient queue is left. */
  lemma RestoreIsExact(states: seq<State>, limit: int, steps: seq<Step>, i: nat)
    requires IsRun(states, limit, steps) && i < |steps| && steps[i].Open?
    ensures var s := states[i + 1];
      && s.mem.Keys == s.db.queues.Keys
      && (forall k :: k in s.mem ==> WellFormed(s.mem[k]) && s.mem[k].inFlight == map[] && s.mem[k].consumers == {})
      && (forall k, id :: k in s.mem ==> HoldsExactly(s, k, id))
  {
    var s, s' := states[i], states[i + 1];
    assert s' == s.(phase := Serving) && s.phase.Restoring? && s.phase.next == |s.phase.order|;
    hide Apply, Enabled, Inv;
    RunKeepsInv(states, limit, steps, i);
    AllRestored(s);
    hide *;
    SameMemory(s, s');
  }

  lemma SameMemory(s: State, s': State)
    requires s'.mem == s.mem && s'.db == s.db && s'.h == s.h
    requires forall k, id :: k in s.mem ==> HoldsExactly(s, k, id)
    ensures forall k, id :: k in s'.mem ==> HoldsExactly(s', k, id)
  {
    forall k, id | k in s'.mem ensures HoldsExactly(s', k, id) { assert HoldsExactly(s, k, id); }
  }

  lemma AllRestored(s: State)
    requires Inv(s) && s.phase.Restoring? && s.phase.next == |s.phase.order|
    ensures s.mem.Keys == s.db.queues.Keys && forall k, id :: k in s.mem ==> HoldsExactly(s, k, id)
    ensures forall k :: k in s.mem ==> WellFormed(s.mem[k]) && s.mem[k].inFlight == map[] && s.mem[k].consumers == {}
  {
    forall k | k in s.mem ensures WellFormed(s.mem[k]) { assert QueueOk(s.db, s.h.home, k, s.mem[k]); }
    hide Live, LedgerOk;
    forall k, id | k in s.mem ensures HoldsExactly(s, k, id) { RestoredEntry(s, k, id); }
  }

  lemma RestoredEntry(s: State, k: QueueKey, id: Id)
    requires Inv(s) && s.phase.Restoring? && s.phase.next == |s.phase.order| && k in s.mem
    ensures InQueue(s, k, id) <==> id in s.h.saved && id !in s.h.deleted && Maps(s.h.home, id, k)
    ensures InQueue(s, k, id) ==> id in s.db.deliveries && Live(s.mem[k])[id] == LoadedDelivery(id, s.db.deliveries[id])
  {
    var l := LedgerOf(s);
    SeenInLedger(s, k, id);
    assert EntryOk(l, id) && QueueOk(s.db, s.h.home, k, s.mem[k]);
    if id in l.rows {
      assert id in l.phase.order;
      var j :| 0 <= j < |l.phase.order| && l.phase.order[j] == id;
      assert id in l.live;
    }
  }

  // ---------------------------------------------------------------- accounting

  /** A call has deleted the rejected delivery and is about to write its dead letter. */
  ghost predicate LetterPending(s: State, id: Id) {
    exists t :: t in s.calls && s.calls[t].Lettering? && Held(s.calls[t]) == Some(id)
  }

  datatype Fate = Stored | Acknowledged | DeadLettered | LetterMissing

  ghost predicate HasFate(s: State, id: Id, fate: Fate) {
    match fate
    case Stored => id in s.db.deliveries
    case Acknowledged => Maps(s.h.deleted, id, ByAck)
    case DeadLettered => id in s.h.lettered
    case LetterMissing => LetterPending(s, id) || id in s.h.dropped
  }

  lemma PendingLetter(s: State, id: Id)
    requires Inv(s)
    ensures LetterPending(s, id) ==> Maps(s.h.deleted, id, ByReject) && id !in s.h.lettered && id !in s.h.dropped
    ensures id in s.h.holder && id !in s.db.deliveries ==> LetterPending(s, id)
  {
    var l := LedgerOf(s);
    if LetterPending(s, id) {
      var t :| t in s.calls && s.calls[t].Lettering? && Held(s.calls[t]) == Some(id);
      assert CallOk(l, l.calls[t]);
    }
    if id in s.h.holder && id !in s.db.deliveries {
      assert EntryOk(l, id);
      var t := s.h.holder[id];
      assert CallOk(l, l.calls[t]);
      assert t in s.calls && s.calls[t].Lettering?;
    }
  }

  /** The dead letter of `id` is stored, with its message, its exchange and the queue it came from. */
  ghost predicate HasLetter(s: State, id: Id) {
    && id in s.h.lettered && s.h.lettered[id] in s.db.letters && id in s.h.saved && id in s.h.home
    && var row := s.db.letters[s.h.lettered[id]];
       row.letter.message == s.h.saved[id] && QueueKey(row.exchange, row.letter.sourceQueue) == s.h.home[id]
  }

  /** Every delivery ever saved has exactly one fate: stored; removed for an Ack; removed and written
      as a dead letter with its message and origin; or removed by a rejection whose dead letter is missing. */
  lemma EveryDeliveryAccountedFor(states: seq<State>, limit: int, steps: seq<Step>, i: nat, id: Id) returns (fate: Fate)
    requires IsRun(states, limit, steps) && i < |states| && id in states[i].h.saved
    ensures HasFate(states[i], id, fate)
    ensures forall other :: HasFate(states[i], id, other) ==> other == fate
    ensures fate.Stored? ==>
      id in states[i].db.deliveries && states[i].db.deliveries[id].message == states[i].h.saved[id]
    ensures fate.DeadLettered? ==> HasLetter(states[i], id)
  {
    hide *;
    RunKeepsInv(states, limit, steps, i);
    fate := AccountedFor(states[i], id);
  }

  lemma AccountedFor(s: State, id: Id) returns (fate: Fate)
    requires Inv(s) && id in s.h.saved
    ensures HasFate(s, id, fate) && forall other :: HasFate(s, id, other) ==> other == fate
    ensures fate.Stored? ==> id in s.db.deliveries && s.db.deliveries[id].message == s.h.saved[id]
    ensures fate.DeadLettered? ==> HasLetter(s, id)
  {
    PendingLetter(s, id);
    assert EntryOk(LedgerOf(s), id);
    hide LetterPending;
    fate := if id in s.db.deliveries then Stored
            else if s.h.deleted[id] == ByAck then Acknowledged
            else if id in s.h.lettered then DeadLettered else LetterMissing;
  }

  /** Two deliveries never share a dead letter. */
  lemma LettersAreDistinct(states: seq<State>, limit: int, steps: seq<Step>, i: nat, a: Id, b: Id)
    requires IsRun(states, limit, steps) && i < |states| && a != b
    requires a in states[i].h.lettered && b in states[i].h.lettered
    ensures states[i].h.lettered[a] != states[i].h.lettered[b]
  {
    RunKeepsInv(states, limit, steps, i);
  }

  // ---------------------------------------------------------------- no resurrection

  ghost predicate Recorded(h: History, h': History) {
    && h.saved.Keys <= h'.saved.Keys && h.deleted.Keys <= h'.deleted.Keys
    && h.acked <= h'.acked && h.confirmed <= h'.confirmed
    && h.lettered.Keys <= h'.lettered.Keys && h.dropped <= h'.dropped
  }

  /** Only an Ack or a NAck settles a delivery; a crash forgets who settled what. */
  ghost predicate SettlesNothing(h: History, h': History) {
    h'.settled == h.settled || h'.settled == map[]
  }

  /** The dead letters that a step leaves unwritten for good. */
  ghost predicate Drops(s: State, step: Step, id: Id) {
    match step
    case DeleteRejected(t, reply) => t in s.calls && reply.Lost? && Held(s.calls[t]) == Some(id)
    case SaveLetter(t, _, reply) => t in s.calls && reply.Refused? && Held(s.calls[t]) == Some(id)
    case Crash => LetterPending(s, id)
    case _ => false
  }

  /** Nothing written down is ever taken back. */
  lemma StepRecords(s: State, limit: int, step: Step)
    requires Enabled(s, limit, step)
    ensures Recorded(s.h, Apply(s, limit, step).h)
    ensures !step.AckStep? && !step.NackStep? ==> SettlesNothing(s.h, Apply(s, limit, step).h)
  {
    hide Enabled, Apply, OldCalls, SameTopology, Extends;
    if IsPublishing(step) {
      PublishingSteps(s, limit, step);
    } else if IsSettling(step) {
      SettlingSteps(s, limit, step);
    } else if IsQuiet(step) {
      QuietSteps(s, limit, step);
    } else {
      RestartingSteps(s, limit, step);
    }
  }

  lemma {:induction false} RunRecords(states: seq<State>, limit: int, steps: seq<Step>, i: nat, j: nat)
    requires IsRun(states, limit, steps) && i <= j < |states|
    ensures Recorded(states[i].h, states[j].h)
  {
    hide Enabled, Apply, Init;
    if i < j {
      RunRecords(states, limit, steps, i, j - 1);
      StepRecords(states[j - 1], limit, steps[j - 1]);
    }
  }

  /** Once an Ack has returned success, its delivery never reappears: not in the table, not in any
      queue, not in a call that could put it back, whatever happens afterwards. */
  lemma AckedNeverReturns(states: seq<State>, limit: int, steps: seq<Step>, i: nat, j: nat, id: Id)
    requires IsRun(states, limit, steps) && i <= j < |states| && id in states[i].h.acked
    ensures var s := states[j];
      && id !in s.db.deliveries
      && (forall k :: !InQueue(s, k, id))
      && (forall t :: t in s.calls ==> !HoldsRow(s.calls[t], id))
  {
    var s := states[j];
    var l := LedgerOf(s);
    RunRecords(states, limit, steps, i, j);
    RunKeepsInv(states, limit, steps, j);
    assert EntryOk(l, id);
    forall k ensures !InQueue(s, k, id) {
      SeenInLedger(s, k, id);
    }
    forall t | t in s.calls ensures !HoldsRow(s.calls[t], id) { assert CallOk(l, l.calls[t]); }
  }

  /** A confirmed publish is never forgotten: ever after, each of its durable deliveries is stored,
      or was acknowledged, or was rejected (and then has a dead letter, or lost it). */
  lemma ConfirmedIsKept(states: seq<State>, limit: int, steps: seq<Step>, i: nat, j: nat, id: Id)
    requires IsRun(states, limit, steps) && i <= j < |states| && id in states[i].h.confirmed
    ensures var s := states[j];
      && id in s.h.saved
      && (id in s.db.deliveries || id in s.h.deleted)
      && (Maps(s.h.deleted, id, ByReject) ==> id in s.h.lettered || id in s.h.dropped || LetterPending(s, id))
  {
    var s := states[j];
    RunRecords(states, limit, steps, i, j);
    RunKeepsInv(states, limit, steps, j);
    assert EntryOk(LedgerOf(s), id);
    PendingLetter(s, id);
  }

  // ---------------------------------------------------------------- only settled deliveries are deleted

  lemma NoRowsInAck(s: State, limit: int, step: Step, id: Id)
    requires Enabled(s, limit, step) && (step.AckStep? || step.DeleteAcked?)
    requires id in s.db.deliveries && id !in Apply(s, limit, step).db.deliveries
    ensures step.DeleteAcked? && s.calls[step.t] == Deleting(id)
  {
    hide CanSettle;
  }

  lemma NoRowsInNack(s: State, limit: int, step: Step, id: Id)
    requires Enabled(s, limit, step) && (step.NackStep? || step.DeleteRejected? || step.SaveLetter?)
    requires id in s.db.deliveries && id !in Apply(s, limit, step).db.deliveries
    ensures step.DeleteRejected? && Held(s.calls[step.t]) == Some(id)
  {
    hide GivesUp, CanSaveLetter;
  }

  lemma OtherStepsKeepRows(s: State, limit: int, step: Step)
    requires Enabled(s, limit, step) && !IsSettling(step)
    ensures s.db.deliveries.Keys <= Apply(s, limit, step).db.deliveries.Keys
  {
    hide Enabled, Apply, OldCalls, SameTopology;
    if IsPublishing(step) {
      PublishingSteps(s, limit, step);
    } else if IsQuiet(step) {
      QuietSteps(s, limit, step);
    } else {
      RestartingSteps(s, limit, step);
    }
  }

  /** The delivery is in flight to `c`; and if `c` rejects it, its attempts are spent under a positive limit or nobody
      else is registered. */
  ghost predicate TakenByOwner(q: QueueState, id: Id, c: string, rejected: bool) {
    && id in q.inFlight && q.inFlight[id].consumer == c
    && (rejected ==>
          (q.maxAttempts > 0 && q.inFlight[id].attempts >= q.maxAttempts) || forall o :: o in q.consumers ==> o == c)
  }

  lemma SettlerOwns(s: State, step: Step, id: Id)
    requires Settles(s, step, id) && CanSettle(s, step.t, step.key, id, step.consumer)
    ensures TakenByOwner(s.mem[step.key], id, step.consumer, step.NackStep?)
  {
  }

  /** Who took a delivery out of memory: an earlier Ack by its owner, or an earlier NAck by its owner
      that gave up, in this very process run. */
  lemma {:induction false} SettledBecause(states: seq<State>, limit: int, steps: seq<Step>, i: nat,
                                          id: Id) returns (j: nat)
    requires IsRun(states, limit, steps) && i < |states| && id in states[i].h.settled
    ensures j < i && (steps[j].AckStep? || steps[j].NackStep?) && steps[j].id == id
    ensures CanSettle(states[j], steps[j].t, steps[j].key, id, steps[j].consumer)
    ensures states[i].h.settled[id] == (steps[j].consumer, if steps[j].AckStep? then ByAck else ByReject)
    ensures TakenByOwner(states[j].mem[steps[j].key], id, steps[j].consumer, steps[j].NackStep?)
    ensures forall m :: j <= m <= i ==> states[m].phase.Serving?
  {
    hide Enabled, Apply, Live;
    RunKeepsInv(states, limit, steps, i);
    assert LedgerOk(LedgerOf(states[i])) && states[i].phase.Serving?;
    assert i > 0;
    hide Inv, Settles;
    var s, step := states[i - 1], steps[i - 1];
    if Settles(s, step, id) {
      j := i - 1;
      SettleStep(s, limit, step, id);
      SettlerOwns(s, step, id);
    } else {
      NotSettledHere(s, limit, step, id);
      j := SettledBecause(states, limit, steps, i - 1, id);
    }
  }

  ghost predicate Settles(s: State, step: Step, id: Id) {
    && (step.AckStep? || step.NackStep?) && step.id == id && step.key in s.mem && s.mem[step.key].durable
    && (step.NackStep? ==> id in s.mem[step.key].inFlight && GivesUp(s.mem[step.key], s.mem[step.key].inFlight[id]))
  }

  lemma SettleStep(s: State, limit: int, step: Step, id: Id)
    requires Enabled(s, limit, step) && Settles(s, step, id)
    ensures CanSettle(s, step.t, step.key, id, step.consumer) && s.phase.Serving?
    ensures Maps(Apply(s, limit, step).h.settled, id, (step.consumer, if step.AckStep? then ByAck else ByReject))
  {
    hide GivesUp;
  }

  lemma NotSettledHere(s: State, limit: int, step: Step, id: Id)
    requires Enabled(s, limit, step) && !Settles(s, step, id) && id in Apply(s, limit, step).h.settled
    ensures id in s.h.settled && s.h.settled[id] == Apply(s, limit, step).h.settled[id]
  {
    if step.AckStep? || step.NackStep? {
      hide GivesUp;
    } else {
      StepRecords(s, limit, step);
      hide Apply, Enabled;
    }
  }

  /** A row is deleted only after its delivery has left memory, on behalf of the owner who
      acknowledged it or whose rejection gave it up, with no crash in between. */
  lemma DeletedOnlyAfterSettled(states: seq<State>, limit: int, steps: seq<Step>, i: nat, id: Id) returns (j: nat)
    requires IsRun(states, limit, steps) && i < |steps|
    requires id in states[i].db.deliveries && id !in states[i + 1].db.deliveries
    ensures !InQueue(states[i], states[i].db.deliveries[id].queue, id)
    ensures j < i && (steps[j].AckStep? || steps[j].NackStep?) && steps[j].id == id
    ensures CanSettle(states[j], steps[j].t, steps[j].key, id, steps[j].consumer)
    ensures TakenByOwner(states[j].mem[steps[j].key], id, steps[j].consumer, steps[j].NackStep?)
    ensures forall m :: j <= m <= i ==> states[m].phase.Serving?
  {
    var s, step := states[i], steps[i];
    assert Enabled(s, limit, step) && states[i + 1] == Apply(s, limit, step);
    RunKeepsInv(states, limit, steps, i);
    DeletingStep(s, limit, step, id);
    j := SettledBecause(states, limit, steps, i, id);
  }

  lemma DeletingStep(s: State, limit: int, step: Step, id: Id)
    requires Inv(s) && Enabled(s, limit, step)
    requires id in s.db.deliveries && id !in Apply(s, limit, step).db.deliveries
    ensures id in s.h.settled && !InQueue(s, s.db.deliveries[id].queue, id)
  {
    HolderOfDeleted(s, limit, step, id);
    hide Apply, Enabled;
    var l := LedgerOf(s);
    assert CallOk(l, l.calls[step.t]) && EntryOk(l, id);
    SeenInLedger(s, s.db.deliveries[id].queue, id);
  }

  lemma HolderOfDeleted(s: State, limit: int, step: Step, id: Id)
    requires Enabled(s, limit, step)
    requires id in s.db.deliveries && id !in Apply(s, limit, step).db.deliveries
    ensures (step.DeleteAcked? || step.DeleteRejected?) && step.t in s.calls && Held(s.calls[step.t]) == Some(id)
    ensures s.calls[step.t].Deleting? || s.calls[step.t].Burying?
  {
    if step.AckStep? || step.DeleteAcked? {
      NoRowsInAck(s, limit, step, id);
    } else if step.NackStep? || step.DeleteRejected? || step.SaveLetter? {
      NoRowsInNack(s, limit, step, id);
    } else {
      OtherStepsKeepRows(s, limit, step);
    }
  }

  // ---------------------------------------------------------------- when a dead letter goes missing

  lemma SettlingDrops(s: State, limit: int, step: Step, id: Id)
    requires Enabled(s, limit, step) && (step.DeleteRejected? || step.SaveLetter?)
    ensures id in Apply(s, limit, step).h.dropped <==> id in s.h.dropped || Drops(s, step, id)
  {
    hide CanSaveLetter, DoDeleteRejected, DoSaveLetter, Held;
    match step
    case DeleteRejected(t, reply) => BuryDrops(s, t, reply);
    case SaveLetter(t, letterId, reply) => LetterDrops(s, t, letterId, reply);
  }

  lemma BuryDrops(s: State, t: nat, reply: Reply)
    requires t in s.calls && s.calls[t].Burying?
    ensures forall id :: id in DoDeleteRejected(s, t, reply).h.dropped <==>
      id in s.h.dropped || (reply.Lost? && Held(s.calls[t]) == Some(id))
  {
  }

  lemma LetterDrops(s: State, t: nat, letterId: Id, reply: Reply)
    requires t in s.calls && s.calls[t].Lettering?
    ensures forall id :: id in DoSaveLetter(s, t, letterId, reply).h.dropped <==>
      id in s.h.dropped || (reply.Refused? && Held(s.calls[t]) == Some(id))
  {
  }

  lemma CrashDrops(s: State, limit: int, step: Step, id: Id)
    requires Inv(s) && Enabled(s, limit, step) && (step.Crash? || step.RestoreMark?)
    ensures id in Apply(s, limit, step).h.dropped <==> id in s.h.dropped || Drops(s, step, id)
  {
    hide Inv, DoCrash, LetterPending;
    CallsMeanServing(s);
    LostInCrash(s, id);
    if step.RestoreMark? { LostInCrash(s.(db := MarkReady(s.db, s.phase.unmarked.value)), id); }
  }

  lemma LostInCrash(s: State, id: Id)
    ensures id in DoCrash(s).h.dropped <==> id in s.h.dropped || LetterPending(s, id)
    ensures s.calls == map[] ==> !LetterPending(s, id)
  {
  }

  lemma OthersDropNothing(s: State, limit: int, step: Step)
    requires Enabled(s, limit, step)
    requires !step.DeleteRejected? && !step.SaveLetter? && !step.Crash? && !step.RestoreMark?
    ensures Apply(s, limit, step).h.dropped == s.h.dropped
  {
    hide Enabled, Apply, OldCalls, SameTopology, Extends;
    if IsPublishing(step) {
      PublishingSteps(s, limit, step);
    } else if IsSettling(step) {
      SettlingSteps(s, limit, step);
    } else if IsQuiet(step) {
      QuietSteps(s, limit, step);
    } else {
      RestartingSteps(s, limit, step);
    }
  }

  lemma StepDrops(s: State, limit: int, step: Step, id: Id)
    requires Inv(s) && Enabled(s, limit, step)
    ensures id in Apply(s, limit, step).h.dropped <==> id in s.h.dropped || Drops(s, step, id)
  {
    hide Inv, Enabled, Apply;
    if step.DeleteRejected? || step.SaveLetter? {
      SettlingDrops(s, limit, step, id);
    } else if step.Crash? || step.RestoreMark? {
      CrashDrops(s, limit, step, id);
    } else {
      OthersDropNothing(s, limit, step);
    }
  }

  /** A rejected delivery ends without a dead letter exactly when the reply to its delete was lost,
      or writing the letter was refused, or the process crashed between the two. */
  lemma {:induction false} DroppedExactlyWhen(states: seq<State>, limit: int, steps: seq<Step>, i: nat, id: Id)
    requires IsRun(states, limit, steps) && i < |states|
    ensures id in states[i].h.dropped <==> exists j :: 0 <= j < i && Drops(states[j], steps[j], id)
  {
    hide Enabled, Apply, Inv, Drops;
    if i > 0 {
      DroppedExactlyWhen(states, limit, steps, i - 1, id);
      RunKeepsInv(states, limit, steps, i - 1);
      StepDrops(states[i - 1], limit, steps[i - 1], id);
    }
  }
}
