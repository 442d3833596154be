/** The broker as a concurrent, crash-recovering system. Any number of service calls are
    in progress; each locked queue operation and each repository statement is one atomic
    step; every repository call may fail, with or without having taken effect; the process
    may crash between any two steps, after which Restore replays the stored deliveries.
    The durable queues (those with a row in the queue table) are fixed; transient queues
    come and go and are lost in a crash. */
module Protocol {
  import opened Types
  import opened QueueModel
  import opened Tables
  import opened Ledger
  import Routing

  datatype State = State(
    mem: map<QueueKey, QueueState>,
    db: Tables,
    calls: map<nat, Call>,
    phase: Phase,
    h: History)

  datatype Step =
    | BeginPublish(t: nat, exchange: string, message: Message, todo: seq<QueueKey>)
    | PublishTransient(t: nat, id: Id)
    | PublishMissing(t: nat)
    | PublishSave(t: nat, id: Id, now: nat, reply: Reply)
    | PublishEnqueue(t: nat)
    | PublishDone(t: nat)
    | FetchStep(t: nat, key: QueueKey, consumer: string)
    | MarkStep(t: nat, reply: Reply)
    | AckStep(t: nat, key: QueueKey, id: Id, consumer: string)
    | DeleteAcked(t: nat, reply: Reply)
    | NackStep(t: nat, key: QueueKey, id: Id, consumer: string)
    | DeleteRejected(t: nat, reply: Reply)
    | SaveLetter(t: nat, letterId: Id, reply: Reply)
    | DisconnectStep(t: nat, key: QueueKey, consumer: string, returned: seq<Delivery>)
    | ReleaseStep(t: nat, reply: Reply)
    | JoinStep(key: QueueKey, consumer: string)
    | AddTransient(key: QueueKey, autoDelete: bool, maxAttempts: int, filters: seq<string>)
    | DropTransient(key: QueueKey)
    | Crash
    | Load(order: seq<Id>, filterLists: map<QueueKey, seq<string>>)
    | RestoreNext
    | RestoreMark(reply: Reply)
    | Open

  // ---------------------------------------------------------------- when a step may happen

  /** A new service call may start. */
  predicate Fresh(s: State, t: nat) {
    s.phase.Serving? && t !in s.calls
  }

  predicate AtPublish(s: State, t: nat) {
    t in s.calls && s.calls[t].Publishing?
  }

  predicate CanOffer(s: State, t: nat, id: Id, durable: bool) {
    && AtPublish(s, t) && s.calls[t].todo != [] && id !in s.h.home
    && s.calls[t].todo[0] in s.mem && s.mem[s.calls[t].todo[0]].durable == durable
  }

  predicate CanSettle(s: State, t: nat, key: QueueKey, id: Id, consumer: string) {
    Fresh(s, t) && key in s.mem && Owns(s.mem[key], id, consumer)
  }

  predicate CanRestore(s: State) {
    && s.phase.Restoring? && s.phase.unmarked.None? && s.phase.next < |s.phase.order|
    && s.phase.order[s.phase.next] in s.phase.snapshot
    && s.phase.snapshot[s.phase.order[s.phase.next]].queue in s.mem
  }

  ghost predicate Enabled(s: State, limit: int, step: Step) {
    match step
    case BeginPublish(t, exchange, message, todo) =>
      Fresh(s, t) && Routing.IsValidKey(message.routingKey) && IsRoute(s.mem, exchange, message.routingKey, todo)
    case PublishTransient(t, id) => CanOffer(s, t, id, false)
    case PublishMissing(t) => AtPublish(s, t) && s.calls[t].todo != [] && s.calls[t].todo[0] !in s.mem
    case PublishSave(t, id, now, reply) =>
      CanOffer(s, t, id, true) && (!reply.Refused? ==> CanSaveDelivery(s.db, s.calls[t].todo[0], id))
    case PublishEnqueue(t) => t in s.calls && s.calls[t].Saved? && s.calls[t].key in s.mem
    case PublishDone(t) => AtPublish(s, t) && s.calls[t].todo == []
    case FetchStep(t, key, consumer) => Fresh(s, t) && key in s.mem && CanFetch(s.mem[key], consumer, limit)
    case MarkStep(t, reply) => t in s.calls && s.calls[t].Marking?
    case AckStep(t, key, id, consumer) => CanSettle(s, t, key, id, consumer)
    case DeleteAcked(t, reply) => t in s.calls && s.calls[t].Deleting?
    case NackStep(t, key, id, consumer) => CanSettle(s, t, key, id, consumer)
    case DeleteRejected(t, reply) => t in s.calls && s.calls[t].Burying?
    case SaveLetter(t, letterId, reply) =>
      t in s.calls && s.calls[t].Lettering?
        && (!reply.Refused? ==> CanSaveLetter(s.db, s.calls[t].key.exchange, letterId))
    case DisconnectStep(t, key, consumer, returned) =>
      Fresh(s, t) && key in s.mem && IsReturnOrder(s.mem[key], consumer, returned)
    case ReleaseStep(t, reply) => t in s.calls && s.calls[t].Releasing? && s.calls[t].pending != []
    case JoinStep(key, consumer) => s.phase.Serving? && key in s.mem
    case AddTransient(key, autoDelete, maxAttempts, filters) => s.phase.Serving? && key !in s.mem
    case DropTransient(key) => s.phase.Serving? && key in s.mem && !s.mem[key].durable && s.mem[key].consumers == {}
    case Crash => true
    case Load(order, filterLists) =>
      && s.phase.Down? && IsDeliveryOrder(s.db, order)
      && filterLists.Keys == s.db.queues.Keys
      && (forall k :: k in filterLists ==> (set f | f in filterLists[k]) == FiltersOf(s.db, k))
    case RestoreNext => CanRestore(s)
    case RestoreMark(reply) => s.phase.Restoring? && s.phase.unmarked.Some?
    case Open => s.phase.Restoring? && s.phase.unmarked.None? && s.phase.next == |s.phase.order|
  }

  // ---------------------------------------------------------------- what a step does

  function End(s: State, t: nat): State {
    s.(calls := s.calls - {t})
  }

  function Begin(s: State, t: nat, call: Call): State {
    s.(calls := s.calls[t := call])
  }

  function Put(s: State, key: QueueKey, q: QueueState): State {
    s.(mem := s.mem[key := q])
  }

  function Mint(s: State, id: Id, key: QueueKey): State {
    s.(h := s.h.(home := s.h.home[id := key]))
  }

  function DoPublishTransient(s: State, t: nat, id: Id): State
    requires CanOffer(s, t, id, false)
  {
    var c := s.calls[t];
    var key := c.todo[0];
    var s0 := Mint(Put(s, key, Enqueue(s.mem[key], Delivery(id, c.message, "", 0))), id, key);
    Begin(s0, t, Publishing(c.todo[1..], c.message, c.ids))
  }

  function DoPublishSave(s: State, t: nat, id: Id, now: nat, reply: Reply): State
    requires CanOffer(s, t, id, true)
  {
    var c := s.calls[t];
    var key := c.todo[0];
    var d := Delivery(id, c.message, "", 0);
    var s0 := Mint(s, id, key);
    var saved := s0.h.(saved := s.h.saved[id := c.message]);
    match reply
    case Refused => End(s0, t)
    case Lost =>
      End(s0, t).(db := SaveReadyDelivery(s.db, key, d, now), h := saved.(stranded := s.h.stranded + {id}))
    case Success =>
      Begin(s0, t, Saved(key, d, c.todo[1..], c.message, c.ids + {id}))
        .(db := SaveReadyDelivery(s.db, key, d, now), h := saved.(holder := s.h.holder[id := t]))
  }

  function DoPublishEnqueue(s: State, t: nat): State
    requires t in s.calls && s.calls[t].Saved? && s.calls[t].key in s.mem
  {
    var c := s.calls[t];
    Begin(Put(s, c.key, Enqueue(s.mem[c.key], c.delivery)), t, Publishing(c.todo, c.message, c.ids))
      .(h := s.h.(entered := s.h.entered + {c.delivery.id}, holder := s.h.holder - {c.delivery.id}))
  }

  function DoPublishDone(s: State, t: nat): State
    requires AtPublish(s, t)
  {
    End(s, t).(h := s.h.(confirmed := s.h.confirmed + s.calls[t].ids))
  }

  function DoFetch(s: State, t: nat, key: QueueKey, consumer: string): State
    requires key in s.mem && s.mem[key].ready != []
  {
    var q := s.mem[key];
    var d := Taken(q, consumer);
    var s0 := Put(s, key, Fetch(q, consumer));
    if q.durable then Begin(s0, t, Marking(d.id, consumer, d.attempts)) else s0
  }

  function DoMark(s: State, t: nat, reply: Reply): State
    requires t in s.calls && s.calls[t].Marking?
  {
    var c := s.calls[t];
    End(if reply.Refused? then s else s.(db := MarkInFlight(s.db, c.id, c.consumer, c.attempts)), t)
  }

  function DoAck(s: State, t: nat, key: QueueKey, id: Id, consumer: string): State
    requires CanSettle(s, t, key, id, consumer)
  {
    var s0 := Put(s, key, Settle(s.mem[key], id));
    if s.mem[key].durable then
      Begin(s0, t, Deleting(id))
        .(h := s.h.(settled := s.h.settled[id := (consumer, ByAck)], holder := s.h.holder[id := t]))
    else s0
  }

  function DoDeleteAcked(s: State, t: nat, reply: Reply): State
    requires t in s.calls && s.calls[t].Deleting?
  {
    var id := s.calls[t].id;
    var freed := s.h.(holder := s.h.holder - {id});
    if reply.Refused? then End(s, t).(h := freed.(stranded := s.h.stranded + {id}))
    else End(s, t).(db := DeleteDelivery(s.db, id), h := freed.(
      deleted := s.h.deleted[id := ByAck],
      acked := s.h.acked + if reply.Success? then {id} else {}))
  }

  function DoNack(s: State, t: nat, key: QueueKey, id: Id, consumer: string): State
    requires CanSettle(s, t, key, id, consumer)
  {
    var q := s.mem[key];
    var d := q.inFlight[id];
    if GivesUp(q, d) then
      var s0 := Put(s, key, Settle(q, id));
      if q.durable then
        Begin(s0, t, Burying(key, d))
          .(h := s.h.(settled := s.h.settled[id := (consumer, ByReject)], holder := s.h.holder[id := t]))
      else Begin(s0, t, Lettering(key, d, false))
    else
      var s0 := Put(s, key, Requeue(q, id));
      if q.durable then Begin(s0, t, Releasing([id])) else s0
  }

  function DoDeleteRejected(s: State, t: nat, reply: Reply): State
    requires t in s.calls && s.calls[t].Burying?
  {
    var c := s.calls[t];
    var id := c.delivery.id;
    var s0 := s.(db := DeleteDelivery(s.db, id));
    match reply
    case Refused => End(s, t).(h := s.h.(stranded := s.h.stranded + {id}, holder := s.h.holder - {id}))
    case Success => Begin(s0, t, Lettering(c.key, c.delivery, true)).(h := s.h.(deleted := s.h.deleted[id := ByReject]))
    case Lost =>
      End(s0, t).(h := s.h.(
        deleted := s.h.deleted[id := ByReject], dropped := s.h.dropped + {id}, holder := s.h.holder - {id}))
  }

  function DoSaveLetter(s: State, t: nat, letterId: Id, reply: Reply): State
    requires t in s.calls && s.calls[t].Lettering?
  {
    var c := s.calls[t];
    var id := c.delivery.id;
    var letter := DeadLetter(c.delivery.message, c.key.name, c.delivery.attempts);
    var s0 := End(if reply.Refused? then s else s.(db := SaveDeadLetter(s.db, c.key.exchange, letterId, letter)), t);
    if !c.stored then s0
    else if reply.Refused? then s0.(h := s.h.(dropped := s.h.dropped + {id}, holder := s.h.holder - {id}))
    else s0.(h := s.h.(lettered := s.h.lettered[id := letterId], holder := s.h.holder - {id}))
  }

  function DoDisconnect(s: State, t: nat, key: QueueKey, consumer: string, returned: seq<Delivery>): State
    requires key in s.mem
  {
    var q := Disconnect(s.mem[key], consumer, returned);
    var s0 := if q.autoDelete && q.consumers == {} then s.(mem := s.mem - {key}) else Put(s, key, q);
    if q.durable && returned != [] then
      Begin(s0, t, Releasing(seq(|returned|, i requires 0 <= i < |returned| => returned[i].id)))
    else s0
  }

  function DoRelease(s: State, t: nat, reply: Reply): State
    requires t in s.calls && s.calls[t].Releasing? && s.calls[t].pending != []
  {
    var c := s.calls[t];
    var s0 := if reply.Refused? then s else s.(db := MarkReady(s.db, c.pending[0]));
    if reply.Success? && |c.pending| > 1 then Begin(s0, t, Releasing(c.pending[1..])) else End(s0, t)
  }

  /** Memory and the calls in progress are gone; a dead letter not yet written never will be. */
  function DoCrash(s: State): State {
    State(map[], s.db, map[], Down, s.h.(
      entered := {}, settled := map[], stranded := {}, holder := map[],
      dropped := s.h.dropped +
                 set t | t in s.calls && s.calls[t].Lettering? && s.calls[t].stored :: s.calls[t].delivery.id))
  }

  function DoLoad(s: State, order: seq<Id>, filterLists: map<QueueKey, seq<string>>): State
    requires filterLists.Keys == s.db.queues.Keys
  {
    s.(mem := map k | k in s.db.queues :: NewQueue(k.name, s.db.queues[k].durable, s.db.queues[k].autoDelete,
                                                    s.db.queues[k].maxAttempts, filterLists[k]),
       phase := Restoring(s.db.deliveries, order, 0, None))
  }

  function DoRestoreNext(s: State): State
    requires CanRestore(s)
  {
    var id := s.phase.order[s.phase.next];
    var row := s.phase.snapshot[id];
    Put(s, row.queue, RestoreReady(s.mem[row.queue], LoadedDelivery(id, row)))
      .(phase := s.phase.(next := s.phase.next + 1, unmarked := Some(id)), h := s.h.(entered := s.h.entered + {id}))
  }

  /** A failing MarkReady makes Restore, and with it the process, give up. */
  function DoRestoreMark(s: State, reply: Reply): State
    requires s.phase.Restoring? && s.phase.unmarked.Some?
  {
    var s0 := if reply.Refused? then s else s.(db := MarkReady(s.db, s.phase.unmarked.value));
    if reply.Success? then s0.(phase := s.phase.(unmarked := None)) else DoCrash(s0)
  }

  ghost function Apply(s: State, limit: int, step: Step): State
    requires Enabled(s, limit, step)
  {
    match step
    case BeginPublish(t, exchange, message, todo) => Begin(s, t, Publishing(todo, message, {}))
    case PublishTransient(t, id) => DoPublishTransient(s, t, id)
    case PublishMissing(t) => End(s, t)
    case PublishSave(t, id, now, reply) => DoPublishSave(s, t, id, now, reply)
    case PublishEnqueue(t) => DoPublishEnqueue(s, t)
    case PublishDone(t) => DoPublishDone(s, t)
    case FetchStep(t, key, consumer) => DoFetch(s, t, key, consumer)
    case MarkStep(t, reply) => DoMark(s, t, reply)
    case AckStep(t, key, id, consumer) => DoAck(s, t, key, id, consumer)
    case DeleteAcked(t, reply) => DoDeleteAcked(s, t, reply)
    case NackStep(t, key, id, consumer) => DoNack(s, t, key, id, consumer)
    case DeleteRejected(t, reply) => DoDeleteRejected(s, t, reply)
    case SaveLetter(t, letterId, reply) => DoSaveLetter(s, t, letterId, reply)
    case DisconnectStep(t, key, consumer, returned) => DoDisconnect(s, t, key, consumer, returned)
    case ReleaseStep(t, reply) => DoRelease(s, t, reply)
    case JoinStep(key, consumer) => Put(s, key, Join(s.mem[key], consumer))
    case AddTransient(key, autoDelete, maxAttempts, filters) =>
      Put(s, key, NewQueue(key.name, false, autoDelete, maxAttempts, filters))
    case DropTransient(key) => s.(mem := s.mem - {key})
    case Crash => DoCrash(s)
    case Load(order, filterLists) => DoLoad(s, order, filterLists)
    case RestoreNext => DoRestoreNext(s)
    case RestoreMark(reply) => DoRestoreMark(s, reply)
    case Open => s.(phase := Serving)
  }

  // ---------------------------------------------------------------- runs

  /** Every stored queue is durable, not auto-delete, and belongs to a stored exchange. */
  ghost predicate TopologyOk(db: Tables) {
    forall k :: k in db.queues ==> db.queues[k].durable && !db.queues[k].autoDelete && k.exchange in db.exchanges
  }

  /** The system before its first start: queues are set up, nothing has been published. */
  ghost predicate Init(s: State) {
    && TopologyOk(s.db) && s.db.deliveries == map[]
    && s.mem == map[] && s.calls == map[] && s.phase == Down
    && s.h == History(map[], map[], {}, map[], map[], {}, {}, map[], {}, {}, map[])
  }

  ghost predicate IsRun(states: seq<State>, limit: int, steps: seq<Step>) {
    && |states| == |steps| + 1
    && Init(states[0])
    && forall i :: 0 <= i < |steps| ==>
         Enabled(states[i], limit, steps[i]) && states[i + 1] == Apply(states[i], limit, steps[i])
  }
}
