/** When the attempts on record agree with those in memory: exactly when the delivery has not been fetched in
    this process run, or the last mark that landed is that of its latest fetch. */
module ProtocolLag {
  import opened Types
  import opened QueueModel
  import opened Tables
  import opened Ledger
  import opened Protocol
  import opened ProtocolInvariant
  import opened ProtocolSteps
  import opened ProtocolFrames
  import opened ProtocolTheorems
  import ProtocolPublish

  /** The attempts with which a step hands out delivery `id` of queue `key`, if it does. */
  ghost function FetchOf(s: State, step: Step, key: QueueKey, id: Id): Option<nat> {
    if step.FetchStep? && step.key == key && key in s.mem && s.mem[key].ready != [] && s.mem[key].ready[0].id == id
    then Some(Taken(s.mem[key], step.consumer).attempts)
    else None
  }

  /** The attempts that a step writes to the row of `id`, if a mark for `id` takes effect in it. */
  ghost function MarkOf(s: State, step: Step, id: Id): Option<nat> {
    if step.MarkStep? && step.t in s.calls && s.calls[step.t].Marking? && s.calls[step.t].id == id
      && !step.reply.Refused?
    then Some(s.calls[step.t].attempts)
    else None
  }

  /** The attempts of the latest fetch in the process run that state `i` belongs to. */
  ghost function LastFetch(states: seq<State>, steps: seq<Step>, i: nat, key: QueueKey, id: Id): Option<nat>
    requires i <= |steps| < |states|
  {
    if i == 0 || !states[i - 1].phase.Serving? then None
    else if FetchOf(states[i - 1], steps[i - 1], key, id).Some? then FetchOf(states[i - 1], steps[i - 1], key, id)
    else LastFetch(states, steps, i - 1, key, id)
  }

  /** The attempts written by the last mark that took effect in that process run. */
  ghost function LastMark(states: seq<State>, steps: seq<Step>, i: nat, id: Id): Option<nat>
    requires i <= |steps| < |states|
  {
    if i == 0 || !states[i - 1].phase.Serving? then None
    else if MarkOf(states[i - 1], steps[i - 1], id).Some? then MarkOf(states[i - 1], steps[i - 1], id)
    else LastMark(states, steps, i - 1, id)
  }

  ghost predicate MarkPending(s: State, id: Id) {
    exists t :: t in s.calls && s.calls[t].Marking? && s.calls[t].id == id
  }

  /** Memory carries the latest fetch; the row carries the last mark, or what it said when the delivery entered. */
  ghost predicate LagOk(s: State, fetched: Option<nat>, marked: Option<nat>, key: QueueKey, id: Id) {
    && (fetched.Some? ==> id in s.h.entered)
    && (marked.Some? || MarkPending(s, id) ==> fetched.Some?)
    && (InQueue(s, key, id) ==>
          && id in s.db.deliveries
          && var held, row := Live(s.mem[key])[id].attempts, s.db.deliveries[id].attempts;
             && (fetched.Some? ==> held == fetched.value) && (marked.Some? ==> row == marked.value)
             && (marked.None? ==> if fetched.None? then row == held else row < held))
  }

  // ---------------------------------------------------------------- memory, step by step

  /** If the delivery is in the queue now, it was before, with the same attempts. */
  ghost predicate Unfetched(s: State, s': State, key: QueueKey, id: Id) {
    InQueue(s', key, id) ==> InQueue(s, key, id) && Live(s'.mem[key])[id].attempts == Live(s.mem[key])[id].attempts
  }

  lemma SameMemoryUnfetched(s: State, limit: int, step: Step, key: QueueKey, id: Id)
    requires Enabled(s, limit, step)
    requires step.BeginPublish? || step.PublishMissing? || step.PublishSave? || step.PublishDone? || step.MarkStep? ||
             step.DeleteAcked? || step.DeleteRejected? || step.SaveLetter? || step.ReleaseStep?
    ensures Unfetched(s, Apply(s, limit, step), key, id)
  {
    hide IsRoute, CanSaveLetter, Live;
    assert Apply(s, limit, step).mem == s.mem;
  }

  lemma TransientUnfetched(s: State, limit: int, step: Step, key: QueueKey, id: Id)
    requires Inv(s) && s.phase.Serving? && Enabled(s, limit, step) && key in s.db.queues
    requires step.PublishTransient? || step.AddTransient? || step.DropTransient?
    ensures Unfetched(s, Apply(s, limit, step), key, id)
  {
    assert key in s.mem && s.mem[key].durable by { assert QueueOk(s.db, s.h.home, key, s.mem[key]); }
    hide Inv, Unfetched;
    TransientMemory(s, limit, step, key);
    hide Enabled, Apply;
    SameQueueUnfetched(s, Apply(s, limit, step), key, id);
  }

  lemma TransientMemory(s: State, limit: int, step: Step, key: QueueKey)
    requires Enabled(s, limit, step) && key in s.mem && s.mem[key].durable
    requires step.PublishTransient? || step.AddTransient? || step.DropTransient?
    ensures var s' := Apply(s, limit, step); key in s'.mem && s'.mem[key] == s.mem[key]
  {
    hide Enqueue, NewQueue;
  }

  lemma SameQueueUnfetched(s: State, s': State, key: QueueKey, id: Id)
    requires key in s.mem && key in s'.mem && s'.mem[key] == s.mem[key]
    ensures Unfetched(s, s', key, id)
  {
  }

  lemma TouchedUnfetched(s: State, s': State, k: QueueKey, key: QueueKey, id: Id)
    requires k in s.mem && k in s'.mem && s'.mem == s.mem[k := s'.mem[k]]
    requires k == key && id in Live(s'.mem[k]) ==>
      id in Live(s.mem[k]) && Live(s'.mem[k])[id].attempts == Live(s.mem[k])[id].attempts
    ensures Unfetched(s, s', key, id)
  {
    hide Live;
  }

  lemma AckUnfetched(s: State, t: nat, k: QueueKey, x: Id, consumer: string, key: QueueKey, id: Id)
    requires Inv(s) && CanSettle(s, t, k, x, consumer)
    ensures Unfetched(s, DoAck(s, t, k, x, consumer), key, id)
  {
    assert QueueOk(s.db, s.h.home, k, s.mem[k]);
    hide Inv;
    SettleLive(s.mem[k], x);
    hide Live, WellFormed;
    TouchedUnfetched(s, DoAck(s, t, k, x, consumer), k, key, id);
  }

  lemma NackUnfetched(s: State, t: nat, k: QueueKey, x: Id, consumer: string, key: QueueKey, id: Id)
    requires Inv(s) && CanSettle(s, t, k, x, consumer)
    ensures Unfetched(s, DoNack(s, t, k, x, consumer), key, id)
  {
    assert WellFormed(s.mem[k]) by { assert QueueOk(s.db, s.h.home, k, s.mem[k]); }
    NackedMemory(s, t, k, x, consumer);
    hide Inv, GivesUp, Live, WellFormed, Settle, Requeue, DoNack;
    RejectionKeepsAttempts(s.mem[k], x, id);
    TouchedUnfetched(s, DoNack(s, t, k, x, consumer), k, key, id);
  }

  lemma NackedMemory(s: State, t: nat, k: QueueKey, x: Id, consumer: string)
    requires CanSettle(s, t, k, x, consumer)
    ensures var q := s.mem[k];
      DoNack(s, t, k, x, consumer).mem == s.mem[k := if GivesUp(q, q.inFlight[x]) then Settle(q, x) else Requeue(q, x)]
  {
    hide GivesUp, Settle, Requeue;
  }

  lemma RejectionKeepsAttempts(q: QueueState, x: Id, id: Id)
    requires WellFormed(q) && x in q.inFlight
    ensures id in Live(Settle(q, x)) ==> id in Live(q) && Live(Settle(q, x))[id].attempts == Live(q)[id].attempts
    ensures id in Live(Requeue(q, x)) ==> id in Live(q) && Live(Requeue(q, x))[id].attempts == Live(q)[id].attempts
  {
    SettleLive(q, x);
    RequeueLive(q, x);
    LiveKeyed(q);
  }

  lemma DisconnectUnfetched(s: State, t: nat, k: QueueKey, consumer: string, returned: seq<Delivery>, key: QueueKey,
                            id: Id)
    requires Inv(s) && k in s.mem && IsReturnOrder(s.mem[k], consumer, returned)
    ensures Unfetched(s, DoDisconnect(s, t, k, consumer, returned), key, id)
  {
    assert WellFormed(s.mem[k]) by { assert QueueOk(s.db, s.h.home, k, s.mem[k]); }
    DisconnectedMemory(s, t, k, consumer, returned);
    hide Inv, Live, WellFormed, IsReturnOrder, Disconnect, DoDisconnect;
    DisconnectKeepsAttempts(s.mem[k], consumer, returned, id);
    var s' := DoDisconnect(s, t, k, consumer, returned);
    if k in s'.mem { TouchedUnfetched(s, s', k, key, id); }
  }

  lemma DisconnectedMemory(s: State, t: nat, k: QueueKey, consumer: string, returned: seq<Delivery>)
    requires k in s.mem
    ensures var s' := DoDisconnect(s, t, k, consumer, returned);
      s'.mem == s.mem[k := Disconnect(s.mem[k], consumer, returned)] || s'.mem == s.mem - {k}
  {
    hide Disconnect;
  }

  lemma DisconnectKeepsAttempts(q: QueueState, consumer: string, returned: seq<Delivery>, id: Id)
    requires WellFormed(q) && IsReturnOrder(q, consumer, returned)
    ensures var q' := Disconnect(q, consumer, returned);
      id in Live(q') ==> id in Live(q) && Live(q')[id].attempts == Live(q)[id].attempts
  {
    DisconnectLive(q, consumer, returned);
    LiveKeyed(q);
  }

  lemma JoinUnfetched(s: State, k: QueueKey, consumer: string, key: QueueKey, id: Id)
    requires k in s.mem
    ensures Unfetched(s, Put(s, k, Join(s.mem[k], consumer)), key, id)
  {
    assert Live(Join(s.mem[k], consumer)) == Live(s.mem[k]);
  }

  lemma ConsumerUnfetched(s: State, limit: int, step: Step, key: QueueKey, id: Id)
    requires Inv(s) && Enabled(s, limit, step)
    requires step.AckStep? || step.NackStep? || step.DisconnectStep? || step.JoinStep?
    ensures Unfetched(s, Apply(s, limit, step), key, id)
  {
    hide Inv, Unfetched, DoAck, DoNack, DoDisconnect, Put, CanSettle, IsReturnOrder;
    match step
    case AckStep(t, k, x, consumer) => AckUnfetched(s, t, k, x, consumer, key, id);
    case NackStep(t, k, x, consumer) => NackUnfetched(s, t, k, x, consumer, key, id);
    case DisconnectStep(t, k, consumer, returned) => DisconnectUnfetched(s, t, k, consumer, returned, key, id);
    case JoinStep(k, consumer) => JoinUnfetched(s, k, consumer, key, id);
  }

  /** A delivery that is stored and not yet enqueued is in no queue. */
  lemma SavedIsNowhere(s: State, t: nat, key: QueueKey)
    requires Inv(s) && t in s.calls && s.calls[t].Saved? && s.calls[t].key in s.mem
    ensures var c := s.calls[t]; var id := c.delivery.id;
      && WellFormed(s.mem[c.key]) && id !in Live(s.mem[c.key]) && !InQueue(s, key, id)
      && id !in s.h.entered && id in s.db.deliveries && s.db.deliveries[id].attempts == 0 && c.delivery.attempts == 0
  {
    var c, l := s.calls[t], LedgerOf(s);
    assert CallOk(l, c) && EntryOk(l, c.delivery.id);
    assert QueueOk(s.db, s.h.home, c.key, s.mem[c.key]);
    hide Live, WellFormed;
    SeenInLedger(s, c.key, c.delivery.id);
    SeenInLedger(s, key, c.delivery.id);
  }

  /** A publish puts a delivery in its queue that was never there, and never tried. */
  lemma EnqueueEnters(s: State, t: nat, key: QueueKey, id: Id)
    requires Inv(s) && t in s.calls && s.calls[t].Saved? && s.calls[t].key in s.mem
    ensures var s' := DoPublishEnqueue(s, t);
      if s.calls[t].delivery.id == id then
        id !in s.h.entered && (InQueue(s', key, id) ==>
          id in s.db.deliveries && Live(s'.mem[key])[id].attempts == 0 && s.db.deliveries[id].attempts == 0)
      else Unfetched(s, s', key, id)
  {
    hide Inv;
    var c := s.calls[t];
    SavedIsNowhere(s, t, key);
    EnqueueLive(s.mem[c.key], c.delivery);
    hide Live, WellFormed;
    if c.delivery.id != id { TouchedUnfetched(s, DoPublishEnqueue(s, t), c.key, key, id); }
  }

  lemma FetchCounts(s: State, t: nat, k: QueueKey, consumer: string, key: QueueKey, id: Id)
    requires Inv(s) && k in s.mem && s.mem[k].ready != []
    ensures var s' := DoFetch(s, t, k, consumer);
      if k == key && s.mem[key].ready[0].id == id then
        InQueue(s, key, id) && InQueue(s', key, id)
        && Live(s'.mem[key])[id].attempts == Taken(s.mem[key], consumer).attempts == Live(s.mem[key])[id].attempts + 1
      else Unfetched(s, s', key, id)
  {
    assert QueueOk(s.db, s.h.home, k, s.mem[k]);
    hide Inv;
    FetchLive(s.mem[k], consumer);
    hide Live, WellFormed;
    if k != key || s.mem[key].ready[0].id != id { TouchedUnfetched(s, DoFetch(s, t, k, consumer), k, key, id); }
  }

  // ---------------------------------------------------------------- rows and marks, step by step

  /** A row that stays says the same about attempts. */
  ghost predicate RowKept(s: State, s': State, id: Id) {
    id in s.db.deliveries && id in s'.db.deliveries ==> s'.db.deliveries[id].attempts == s.db.deliveries[id].attempts
  }

  lemma WritesKeepAttempts(s: State, limit: int, step: Step, id: Id)
    requires Enabled(s, limit, step)
    requires step.PublishSave? || step.DeleteAcked? || step.DeleteRejected? || step.SaveLetter? || step.ReleaseStep?
    ensures RowKept(s, Apply(s, limit, step), id)
  {
    hide CanSaveLetter;
  }

  lemma OthersKeepRows(s: State, limit: int, step: Step, id: Id)
    requires Enabled(s, limit, step) && Apply(s, limit, step).phase.Serving? && !step.MarkStep?
    requires !step.PublishSave? && !step.DeleteAcked? && !step.DeleteRejected? && !step.SaveLetter?
    requires !step.ReleaseStep?
    requires !step.RestoreMark?
    ensures Apply(s, limit, step).db.deliveries == s.db.deliveries
  {
    hide IsReturnOrder, IsDeliveryOrder, CanFetch, IsRoute, GivesUp;
  }

  lemma MarkWrites(s: State, limit: int, step: Step, id: Id)
    requires Enabled(s, limit, step) && step.MarkStep? && id in s.db.deliveries
    ensures var s' := Apply(s, limit, step);
      id in s'.db.deliveries && s'.db.deliveries[id].attempts ==
        if MarkOf(s, step, id).Some? then MarkOf(s, step, id).value else s.db.deliveries[id].attempts
  {
  }

  /** A mark for a delivery becomes pending only with its fetch. */
  lemma MarksFollowFetches(s: State, limit: int, step: Step, id: Id)
    requires Enabled(s, limit, step) && MarkPending(Apply(s, limit, step), id)
    ensures MarkPending(s, id) || (step.FetchStep? && FetchOf(s, step, step.key, id).Some? && s.mem[step.key].durable)
  {
    var s' := Apply(s, limit, step);
    var t :| t in s'.calls && s'.calls[t].Marking? && s'.calls[t].id == id;
    if !(t in s.calls && s.calls[t] == s'.calls[t]) { NewMark(s, limit, step, t); }
  }

  lemma NewMark(s: State, limit: int, step: Step, t: nat)
    requires Enabled(s, limit, step) && t in Apply(s, limit, step).calls && Apply(s, limit, step).calls[t].Marking?
    requires !(t in s.calls && s.calls[t] == Apply(s, limit, step).calls[t])
    ensures step.FetchStep? && s.mem[step.key].durable
    ensures Apply(s, limit, step).calls[t].id == s.mem[step.key].ready[0].id
  {
    hide Enabled, Apply, SameTopology;
    if IsPublishing(step) {
      PublishingSteps(s, limit, step);
    } else if IsSettling(step) {
      SettlingSteps(s, limit, step);
    } else if step.FetchStep? {
      FetchMarks(s, limit, step, t);
    } else if IsQuiet(step) {
      QuietSteps(s, limit, step);
    } else {
      RestartingSteps(s, limit, step);
    }
  }

  lemma FetchMarks(s: State, limit: int, step: Step, t: nat)
    requires Enabled(s, limit, step) && step.FetchStep? && t in Apply(s, limit, step).calls
    ensures
      || (t in s.calls && s.calls[t] == Apply(s, limit, step).calls[t])
      || (s.mem[step.key].durable && Apply(s, limit, step).calls[t] ==
            Marking(s.mem[step.key].ready[0].id, step.consumer, Taken(s.mem[step.key], step.consumer).attempts))
  {
    hide Owned;
  }

  /** Only a crash forgets what entered memory. */
  lemma EnteredGrows(s: State, limit: int, step: Step)
    requires Enabled(s, limit, step) && s.phase.Serving? && Apply(s, limit, step).phase.Serving?
    ensures s.h.entered <= Apply(s, limit, step).h.entered
  {
    NotRestoring(s, limit, step);
    hide Enabled, Apply, OldCalls, SameTopology, Extends;
    if IsPublishing(step) {
      PublishingSteps(s, limit, step);
    } else if IsSettling(step) {
      SettlingSteps(s, limit, step);
    } else {
      QuietSteps(s, limit, step);
    }
  }

  // ---------------------------------------------------------------- one step

  lemma HeldFacts(s: State, key: QueueKey, id: Id)
    requires Inv(s) && key in s.db.queues
    ensures HeldOk(s, key, id)
  {
    SeenInLedger(s, key, id);
    assert EntryOk(LedgerOf(s), id);
  }

  /** A step that is neither a fetch nor an entry leaves attempts in memory alone. */
  lemma QuietStep(s: State, limit: int, step: Step, key: QueueKey, id: Id)
    requires Inv(s) && Enabled(s, limit, step) && s.phase.Serving? && Apply(s, limit, step).phase.Serving?
    requires key in s.db.queues && !step.FetchStep? && !step.PublishEnqueue?
    ensures Unfetched(s, Apply(s, limit, step), key, id)
  {
    hide Inv, Apply, Unfetched;
    NotRestoring(s, limit, step);
    hide Enabled;
    if step.AckStep? || step.NackStep? || step.DisconnectStep? || step.JoinStep? {
      ConsumerUnfetched(s, limit, step, key, id);
    } else if step.PublishTransient? || step.AddTransient? || step.DropTransient? {
      TransientUnfetched(s, limit, step, key, id);
    } else {
      SameMemoryUnfetched(s, limit, step, key, id);
    }
  }

  lemma NotRestoring(s: State, limit: int, step: Step)
    requires Enabled(s, limit, step) && s.phase.Serving? && Apply(s, limit, step).phase.Serving?
    ensures !step.Crash? && !step.Load? && !step.RestoreNext? && !step.RestoreMark? && !step.Open?
  {
  }

  lemma RowsInStep(s: State, limit: int, step: Step, id: Id)
    requires Enabled(s, limit, step) && s.phase.Serving? && Apply(s, limit, step).phase.Serving? && !step.MarkStep?
    ensures RowKept(s, Apply(s, limit, step), id)
  {
    hide Apply, RowKept;
    NotRestoring(s, limit, step);
    hide Enabled;
    if step.PublishSave? || step.DeleteAcked? || step.DeleteRejected? || step.SaveLetter? || step.ReleaseStep? {
      WritesKeepAttempts(s, limit, step, id);
    } else {
      OthersKeepRows(s, limit, step, id);
      SameRowsKept(s, Apply(s, limit, step), id);
    }
  }

  lemma SameRowsKept(s: State, s': State, id: Id)
    requires s'.db.deliveries == s.db.deliveries
    ensures RowKept(s, s', id)
  {
  }

  ghost function HeldAttempts(s: State, key: QueueKey, id: Id): nat
    requires InQueue(s, key, id)
  {
    Live(s.mem[key])[id].attempts
  }

  ghost predicate MovesInMemory(s: State, s': State, fetch: Option<nat>, key: QueueKey, id: Id) {
    && s.h.entered <= s'.h.entered
    && (fetch.Some? ==>
         InQueue(s, key, id) && InQueue(s', key, id)
           && HeldAttempts(s', key, id) == fetch.value == HeldAttempts(s, key, id) + 1)
    && (fetch.None? && InQueue(s', key, id) ==>
          if InQueue(s, key, id) then HeldAttempts(s', key, id) == HeldAttempts(s, key, id)
          else
            && id !in s.h.entered && HeldAttempts(s', key, id) == 0
            && id in s'.db.deliveries && s'.db.deliveries[id].attempts == 0)
  }

  ghost predicate MovesInRows(s: State, s': State, mark: Option<nat>, id: Id) {
    id in s.db.deliveries && id in s'.db.deliveries ==>
      s'.db.deliveries[id].attempts == if mark.Some? then mark.value else s.db.deliveries[id].attempts
  }

  ghost predicate HeldOk(s: State, key: QueueKey, id: Id) {
    InQueue(s, key, id) ==>
      id in s.db.deliveries && id in s.h.entered && s.db.deliveries[id].attempts <= HeldAttempts(s, key, id)
  }

  lemma LagFollows(s: State, s': State, fetched: Option<nat>, marked: Option<nat>, fetch: Option<nat>,
                   mark: Option<nat>, key: QueueKey, id: Id)
    requires LagOk(s, fetched, marked, key, id) && HeldOk(s, key, id) && HeldOk(s', key, id)
    requires MovesInMemory(s, s', fetch, key, id) && MovesInRows(s, s', mark, id)
    requires fetch.None? || mark.None?
    requires (mark.Some? ==> MarkPending(s, id)) && (MarkPending(s', id) ==> MarkPending(s, id) || fetch.Some?)
    ensures LagOk(s', if fetch.Some? then fetch else fetched, if mark.Some? then mark else marked, key, id)
  {
    hide InQueue, MarkPending;
  }

  lemma MemoryMoves(s: State, limit: int, step: Step, key: QueueKey, id: Id)
    requires Inv(s) && Enabled(s, limit, step) && s.phase.Serving? && Apply(s, limit, step).phase.Serving?
    requires key in s.db.queues
    ensures MovesInMemory(s, Apply(s, limit, step), FetchOf(s, step, key, id), key, id)
  {
    hide Inv, Apply, Enabled, InQueue;
    EnteredGrows(s, limit, step);
    HeldFacts(s, key, id);
    if step.FetchStep? {
      FetchInMemory(s, limit, step, key, id);
    } else if step.PublishEnqueue? {
      EnqueueInMemory(s, limit, step, key, id);
    } else {
      QuietStep(s, limit, step, key, id);
    }
  }

  lemma EnqueueInMemory(s: State, limit: int, step: Step, key: QueueKey, id: Id)
    requires Inv(s) && Enabled(s, limit, step) && step.PublishEnqueue?
    ensures var s' := Apply(s, limit, step);
      || Unfetched(s, s', key, id)
      || (id !in s.h.entered && (InQueue(s', key, id) ==>
            id in s'.db.deliveries && HeldAttempts(s', key, id) == 0 && s'.db.deliveries[id].attempts == 0))
  {
    hide Inv, Unfetched, InQueue;
    EnqueueEnters(s, step.t, key, id);
    EnqueueRows(s, limit, step);
  }

  lemma EnqueueRows(s: State, limit: int, step: Step)
    requires Enabled(s, limit, step) && step.PublishEnqueue?
    ensures Apply(s, limit, step) == DoPublishEnqueue(s, step.t) && Apply(s, limit, step).db == s.db
  {
  }

  lemma FetchInMemory(s: State, limit: int, step: Step, key: QueueKey, id: Id)
    requires Inv(s) && Enabled(s, limit, step) && step.FetchStep?
    ensures var s' := Apply(s, limit, step);
      if FetchOf(s, step, key, id).Some? then
        InQueue(s, key, id) && InQueue(s', key, id)
          && HeldAttempts(s', key, id) == FetchOf(s, step, key, id).value == HeldAttempts(s, key, id) + 1
      else Unfetched(s, s', key, id)
  {
    hide Inv;
    FetchCounts(s, step.t, step.key, step.consumer, key, id);
    hide Owned, InQueue, Unfetched;
  }

  lemma RowsMove(s: State, limit: int, step: Step, id: Id)
    requires Enabled(s, limit, step) && s.phase.Serving? && Apply(s, limit, step).phase.Serving?
    ensures MovesInRows(s, Apply(s, limit, step), MarkOf(s, step, id), id)
  {
    if step.MarkStep? {
      if id in s.db.deliveries { MarkWrites(s, limit, step, id); }
    } else {
      RowsInStep(s, limit, step, id);
    }
    hide Apply, Enabled;
  }

  lemma PendingMoves(s: State, limit: int, step: Step, key: QueueKey, id: Id)
    requires Inv(s) && Enabled(s, limit, step) && (id in s.h.home ==> s.h.home[id] == key)
    ensures MarkPending(Apply(s, limit, step), id) ==> MarkPending(s, id) || FetchOf(s, step, key, id).Some?
    ensures MarkOf(s, step, id).Some? ==> MarkPending(s, id) && FetchOf(s, step, key, id).None?
  {
    hide Apply, Enabled, Inv, MarkPending;
    if MarkPending(Apply(s, limit, step), id) && !MarkPending(s, id) {
      MarksFollowFetches(s, limit, step, id);
      FetchedHere(s, step.key, id);
    }
    MarkIsPending(s, step, id);
  }

  lemma FetchedHere(s: State, key: QueueKey, id: Id)
    requires Inv(s) && key in s.mem && s.mem[key].ready != [] && s.mem[key].ready[0].id == id
    ensures id in s.h.home && s.h.home[id] == key
  {
    var q := s.mem[key];
    assert QueueOk(s.db, s.h.home, key, q);
    hide Inv;
    LiveKeyed(q);
    SeenInLedger(s, key, id);
  }

  lemma MarkIsPending(s: State, step: Step, id: Id)
    ensures MarkOf(s, step, id).Some? ==> MarkPending(s, id) && !step.FetchStep?
  {
  }

  /** Whatever the step does to the delivery, the lag stays accounted for. */
  lemma LagStep(s: State, limit: int, step: Step, fetched: Option<nat>, marked: Option<nat>, key: QueueKey, id: Id)
    requires Inv(s) && Enabled(s, limit, step) && s.phase.Serving? && Apply(s, limit, step).phase.Serving?
    requires key in s.db.queues && (id in s.h.home ==> s.h.home[id] == key) && LagOk(s, fetched, marked, key, id)
    ensures LagOk(Apply(s, limit, step),
                  if FetchOf(s, step, key, id).Some? then FetchOf(s, step, key, id) else fetched,
                  if MarkOf(s, step, id).Some? then MarkOf(s, step, id) else marked, key, id)
  {
    hide *;
    var s' := Apply(s, limit, step);
    StepKeepsInv(s, limit, step);
    ProtocolPublish.StepSameHome(s, limit, step);
    SameQueues(s, s');
    HeldFacts(s, key, id);
    HeldFacts(s', key, id);
    MemoryMoves(s, limit, step, key, id);
    RowsMove(s, limit, step, id);
    PendingMoves(s, limit, step, key, id);
    LagFollows(s, s', fetched, marked, FetchOf(s, step, key, id), MarkOf(s, step, id), key, id);
  }

  lemma SameQueues(s: State, s': State)
    requires ProtocolPublish.SameHome(s, s')
    ensures s'.db.queues == s.db.queues && forall id :: id in s.h.home ==>
      id in s'.h.home && s'.h.home[id] == s.h.home[id]
  {
  }

  // ---------------------------------------------------------------- whole runs

  /** When the broker opens, memory says what the rows say and nothing has been fetched. */
  lemma NoLagAtOpen(s: State, limit: int, step: Step, key: QueueKey, id: Id)
    requires Inv(s) && Enabled(s, limit, step) && !s.phase.Serving? && Apply(s, limit, step).phase.Serving?
    ensures LagOk(Apply(s, limit, step), None, None, key, id)
  {
    hide Inv;
    OnlyOpenOpens(s, limit, step);
    hide Enabled, Apply, Live;
    NoCallsMeanwhile(s);
    if key in s.mem { RestoredEntry(s, key, id); }
  }

  lemma OnlyOpenOpens(s: State, limit: int, step: Step)
    requires Enabled(s, limit, step) && !s.phase.Serving? && Apply(s, limit, step).phase.Serving?
    ensures Apply(s, limit, step) == s.(phase := Serving)
    ensures s.phase.Restoring? && s.phase.next == |s.phase.order|
  {
    hide DoRestoreNext, DoLoad, DoRestoreMark, DoCrash;
    CrashesDown(s, step);
  }

  lemma CrashesDown(s: State, step: Step)
    ensures !DoCrash(s).phase.Serving?
    ensures CanRestore(s) ==> DoRestoreNext(s).phase.Restoring?
    ensures step.Load? && step.filterLists.Keys == s.db.queues.Keys ==>
      DoLoad(s, step.order, step.filterLists).phase.Restoring?
    ensures step.RestoreMark? && s.phase.Restoring? && s.phase.unmarked.Some? ==>
      !DoRestoreMark(s, step.reply).phase.Serving?
  {
  }

  lemma NoCallsMeanwhile(s: State)
    requires Inv(s) && !s.phase.Serving?
    ensures s.calls == map[]
  {
  }

  lemma {:induction false} LagAccounted(states: seq<State>, limit: int, steps: seq<Step>, i: nat, key: QueueKey, id: Id)
    requires IsRun(states, limit, steps) && i < |states| && states[i].phase.Serving?
    requires key in states[i].db.queues && (id in states[i].h.home ==> states[i].h.home[id] == key)
    ensures LagOk(states[i], LastFetch(states, steps, i, key, id), LastMark(states, steps, i, id), key, id)
  {
    hide Enabled, Apply, Inv, LagOk, FetchOf, MarkOf;
    assert i > 0;
    var s, step := states[i - 1], steps[i - 1];
    RunKeepsInv(states, limit, steps, i - 1);
    if s.phase.Serving? {
      ProtocolPublish.StepSameHome(s, limit, step);
      SameQueues(s, states[i]);
      LagAccounted(states, limit, steps, i - 1, key, id);
      LagStep(s, limit, step, LastFetch(states, steps, i - 1, key, id), LastMark(states, steps, i - 1, id), key, id);
    } else {
      NoLagAtOpen(s, limit, step, key, id);
    }
  }

  /** The exact condition: the attempts on record are those in memory if and only if the delivery has not been
      fetched since the broker started, or the last mark of it that took effect carries the attempts of its latest
      fetch. */
  lemma AttemptsAgreeExactlyWhen(states: seq<State>, limit: int, steps: seq<Step>, i: nat, key: QueueKey, id: Id)
    requires IsRun(states, limit, steps) && i < |states| && states[i].phase.Serving?
    requires InQueue(states[i], key, id) && states[i].mem[key].durable
    ensures id in states[i].db.deliveries
    ensures states[i].db.deliveries[id].attempts == Live(states[i].mem[key])[id].attempts <==>
      || LastFetch(states, steps, i, key, id).None?
      || LastMark(states, steps, i, id) == LastFetch(states, steps, i, key, id)
  {
    hide IsRun, LastFetch, LastMark, Inv;
    RunKeepsInv(states, limit, steps, i);
    SeenInLedger(states[i], key, id);
    hide InQueue;
    LagAccounted(states, limit, steps, i, key, id);
  }
}
