/** Every step of the concurrent broker keeps the invariant. */
module ProtocolSteps {
  import opened Types
  import opened QueueModel
  import opened Tables
  import opened Ledger
  import opened Protocol
  import opened ProtocolInvariant

  // ---------------------------------------------------------------- publishing

  lemma KeepBeginPublish(s: State, t: nat, todo: seq<QueueKey>, message: Message)
    requires Inv(s) && Fresh(s, t)
    ensures Inv(Begin(s, t, Publishing(todo, message, {})))
  {
    var s' := Begin(s, t, Publishing(todo, message, {}));
    MemoryUnseen(s, s');
    MemoryFrame(s, s');
    KeepLight(LedgerOf(s), LedgerOf(s'), t);
  }

  lemma KeepEnd(s: State, t: nat)
    requires Inv(s) && s.phase.Serving? && (t in s.calls ==> Held(s.calls[t]).None?)
    ensures Inv(End(s, t))
  {
    MemoryUnseen(s, End(s, t));
    MemoryFrame(s, End(s, t));
    KeepLight(LedgerOf(s), LedgerOf(End(s, t)), t);
  }

  lemma KeepPublishTransient(s: State, t: nat, id: Id)
    requires Inv(s) && s.phase.Serving? && CanOffer(s, t, id, false)
    ensures Inv(DoPublishTransient(s, t, id))
  {
    var s' := DoPublishTransient(s, t, id);
    var c := s.calls[t];
    var key := c.todo[0];
    TransientEnqueued(s, t, id);
    var l := LedgerOf(s);
    var l1 := l.(h := s'.h);
    assert CallOk(l, c);
    hide Live, WellFormed, MemoryOk, DurableLive, EntryOk;
    KeepMint(l, l1, id, key);
    KeepLight(l1, LedgerOf(s'), t);
  }

  lemma TransientEnqueued(s: State, t: nat, id: Id)
    requires Inv(s) && s.phase.Serving? && CanOffer(s, t, id, false)
    ensures MemoryOk(DoPublishTransient(s, t, id)) && DurableLive(DoPublishTransient(s, t, id)) == DurableLive(s)
  {
    hide LedgerOk, Live, WellFormed, DurableLive;
    var s', c := DoPublishTransient(s, t, id), s.calls[t];
    var key := c.todo[0];
    assert QueueOk(s.db, s.h.home, key, s.mem[key]);
    EnqueuedIsOk(s.db, s.h.home, key, s.mem[key], Delivery(id, c.message, "", 0));
    hide MemoryOk, QueueOk, Enqueue;
    TransientUnseen(s, s', key);
    PutKeepsMemory(s, s', key);
  }

  lemma EnqueuedIsOk(db: Tables, home: map<Id, QueueKey>, key: QueueKey, q: QueueState, d: Delivery)
    requires QueueOk(db, home, key, q) && d.id !in home
    ensures QueueOk(db, home[d.id := key], key, Enqueue(q, d))
  {
    hide Live, WellFormed;
    EnqueueLive(q, d);
  }

  /** The three outcomes of storing a published delivery share the minting of its ID. */
  lemma MintForSave(s: State, s': State, t: nat, id: Id)
    requires Inv(s) && s.phase.Serving? && s'.phase.Serving? && CanOffer(s, t, id, true)
    requires s'.mem == s.mem && s'.db.queues == s.db.queues && s'.db.exchanges == s.db.exchanges
    requires s'.h.home == s.h.home[id := s.calls[t].todo[0]]
    ensures MemoryOk(s') && DurableLive(s') == DurableLive(s)
    ensures LedgerOk(LedgerOf(Mint(s, id, s.calls[t].todo[0]))) && id !in s.h.saved
    ensures DurableLive(Mint(s, id, s.calls[t].todo[0])) == DurableLive(s)
    ensures s.calls[t].todo[0] in s.db.queues
  {
    var key := s.calls[t].todo[0];
    var s0 := Mint(s, id, key);
    MemoryUnseen(s, s');
    MemoryUnseen(s, s0);
    MemoryFrame(s, s');
    assert QueueOk(s.db, s.h.home, key, s.mem[key]);
    assert EntryOk(LedgerOf(s), id);
    KeepMint(LedgerOf(s), LedgerOf(s0), id, key);
  }

  lemma KeepPublishRefused(s: State, t: nat, id: Id, now: nat)
    requires Inv(s) && s.phase.Serving? && CanOffer(s, t, id, true)
    ensures Inv(DoPublishSave(s, t, id, now, Refused))
  {
    var s' := DoPublishSave(s, t, id, now, Refused);
    MintForSave(s, s', t, id);
    hide LedgerOk, MemoryOk, DurableLive;
    KeepLight(LedgerOf(Mint(s, id, s.calls[t].todo[0])), LedgerOf(s'), t);
  }

  lemma KeepPublishLost(s: State, t: nat, id: Id, now: nat)
    requires Inv(s) && s.phase.Serving? && CanOffer(s, t, id, true)
    ensures Inv(DoPublishSave(s, t, id, now, Lost))
  {
    var s' := DoPublishSave(s, t, id, now, Lost);
    MintForSave(s, s', t, id);
    hide LedgerOk, MemoryOk, DurableLive;
    KeepInsertLost(LedgerOf(Mint(s, id, s.calls[t].todo[0])), LedgerOf(s'), t, id, s'.db.deliveries[id]);
  }

  lemma KeepPublishSaved(s: State, t: nat, id: Id, now: nat)
    requires Inv(s) && s.phase.Serving? && CanOffer(s, t, id, true)
    ensures Inv(DoPublishSave(s, t, id, now, Success))
  {
    var s' := DoPublishSave(s, t, id, now, Success);
    MintForSave(s, s', t, id);
    hide LedgerOk, MemoryOk, DurableLive;
    KeepInsert(LedgerOf(Mint(s, id, s.calls[t].todo[0])), LedgerOf(s'), t, id, s'.db.deliveries[id], s'.calls[t]);
  }

  /** The queue a stored delivery is about to enter. */
  lemma EnterQueue(s: State, t: nat)
    requires Inv(s) && s.phase.Serving? && t in s.calls && s.calls[t].Saved? && s.calls[t].key in s.mem
    ensures var c := s.calls[t]; var q := Enqueue(s.mem[c.key], c.delivery);
      && c.key in s.db.queues && Maps(s.h.home, c.delivery.id, c.key) && QueueOk(s.db, s.h.home, c.key, q)
      && Live(q) == Live(s.mem[c.key])[c.delivery.id := c.delivery]
  {
    var c := s.calls[t];
    assert CallOk(LedgerOf(s), c) && EntryOk(LedgerOf(s), c.delivery.id);
    assert QueueOk(s.db, s.h.home, c.key, s.mem[c.key]);
    EnqueueLive(s.mem[c.key], c.delivery);
  }

  lemma KeepPublishEnqueue(s: State, t: nat)
    requires Inv(s) && s.phase.Serving? && t in s.calls && s.calls[t].Saved? && s.calls[t].key in s.mem
    ensures Inv(DoPublishEnqueue(s, t))
  {
    var s' := DoPublishEnqueue(s, t);
    var c := s.calls[t];
    EnterQueue(s, t);
    hide Live, WellFormed, LedgerOk, DurableLive;
    PutKeepsMemory(s, s', c.key);
    DurableAdds(s, s', c.key, s'.mem[c.key], c.delivery.id, c.delivery);
    KeepEnter(LedgerOf(s), LedgerOf(s'), t);
  }

  lemma KeepPublishDone(s: State, t: nat)
    requires Inv(s) && s.phase.Serving? && AtPublish(s, t)
    ensures Inv(DoPublishDone(s, t))
  {
    var s' := DoPublishDone(s, t);
    var s0 := s.(h := s'.h);
    MemoryUnseen(s, s0);
    MemoryFrame(s, s0);
    KeepConfirm(LedgerOf(s), LedgerOf(s0), t);
    KeepEnd(s0, t);
  }

  // ---------------------------------------------------------------- fetching

  /** A durable queue whose deliveries keep their messages and lose no attempts. */
  lemma TouchQueue(s: State, key: QueueKey, q: QueueState)
    requires Inv(s) && s.phase.Serving? && key in s.mem && key in s.db.queues
    requires q.durable == s.mem[key].durable && q.autoDelete == s.mem[key].autoDelete
    requires WellFormed(q) && Live(q).Keys == Live(s.mem[key]).Keys
    requires forall id :: id in Live(q) ==>
      Live(q)[id].message == Live(s.mem[key])[id].message && Live(s.mem[key])[id].attempts <= Live(q)[id].attempts
    ensures Inv(Put(s, key, q))
    ensures forall id :: id in Live(q) ==> Maps(DurableLive(Put(s, key, q)), id, Live(q)[id])
  {
    hide Live, WellFormed, LedgerOk, DurableLive, IsDurableLive;
    var s' := Put(s, key, q);
    DurableAt(s, key);
    PutKeepsMemory(s, s', key);
    DurableSeen(s, s', key, q);
    DurableAt(s', key);
    KeepTouch(LedgerOf(s), LedgerOf(s'));
  }

  /** A transient queue may change in any way that keeps it a queue of its own deliveries. */
  lemma TouchTransient(s: State, key: QueueKey, q: QueueState)
    requires Inv(s) && s.phase.Serving? && key !in s.db.queues && QueueOk(s.db, s.h.home, key, q)
    ensures Inv(Put(s, key, q))
  {
    var s' := Put(s, key, q);
    TransientUnseen(s, s', key);
    PutKeepsMemory(s, s', key);
  }

  lemma KeepFetch(s: State, t: nat, key: QueueKey, consumer: string)
    requires Inv(s) && Fresh(s, t) && key in s.mem && s.mem[key].ready != []
    ensures Inv(DoFetch(s, t, key, consumer))
  {
    var q := s.mem[key];
    var d := Taken(q, consumer);
    assert QueueOk(s.db, s.h.home, key, q);
    FetchTouches(q, consumer);
    hide Inv, QueueOk, Live, WellFormed, Fetch;
    if q.durable {
      TouchQueue(s, key, Fetch(q, consumer));
      MarkIsDue(Put(s, key, Fetch(q, consumer)), d, consumer);
      KeepBegin(Put(s, key, Fetch(q, consumer)), t, Marking(d.id, consumer, d.attempts));
    } else {
      TouchTransient(s, key, Fetch(q, consumer));
    }
  }

  lemma FetchTouches(q: QueueState, consumer: string)
    requires WellFormed(q) && q.ready != []
    ensures var q', d := Fetch(q, consumer), Taken(q, consumer);
      && q'.durable == q.durable && q'.autoDelete == q.autoDelete && WellFormed(q') && Live(q').Keys == Live(q).Keys
      && d.id in Live(q') && Live(q')[d.id] == d
      && forall id :: id in Live(q') ==>
           Live(q')[id].message == Live(q)[id].message && Live(q)[id].attempts <= Live(q')[id].attempts
  {
    FetchLive(q, consumer);
    hide Live, WellFormed;
  }

  /** A fetched delivery may be marked: it is in memory with just these attempts. */
  lemma MarkIsDue(s: State, d: Delivery, consumer: string)
    requires Inv(s) && Maps(DurableLive(s), d.id, d)
    ensures CallOk(LedgerOf(s), Marking(d.id, consumer, d.attempts))
  {
    assert EntryOk(LedgerOf(s), d.id);
  }

  lemma KeepMarkStep(s: State, t: nat, reply: Reply)
    requires Inv(s) && s.phase.Serving? && t in s.calls && s.calls[t].Marking?
    ensures Inv(DoMark(s, t, reply))
  {
    var c := s.calls[t];
    if !reply.Refused? {
      var s0 := s.(db := MarkInFlight(s.db, c.id, c.consumer, c.attempts));
      MemoryUnseen(s, s0);
      MemoryFrame(s, s0);
      var row := if c.id in s0.db.deliveries then s0.db.deliveries[c.id]
                 else DeliveryRow(QueueKey("", ""), Message([], ""), StatusReady, 0, None, 0);
      KeepMark(LedgerOf(s), LedgerOf(s0), t, row);
      KeepEnd(s0, t);
    } else {
      KeepEnd(s, t);
    }
  }

  // ---------------------------------------------------------------- settling

  /** The delivery an owner settles, as the ledger knows it. */
  lemma SettledEntry(s: State, key: QueueKey, id: Id)
    requires Inv(s) && key in s.mem && key in s.db.queues && id in s.mem[key].inFlight
    ensures Maps(DurableLive(s), id, s.mem[key].inFlight[id]) && Maps(s.h.home, id, key)
    ensures s.mem[key].inFlight[id].id == id
    ensures QueueOk(s.db, s.h.home, key, Settle(s.mem[key], id))
    ensures Live(Settle(s.mem[key], id)) == Live(s.mem[key]) - {id}
  {
    assert QueueOk(s.db, s.h.home, key, s.mem[key]);
    DurableAt(s, key);
    LiveKeyed(s.mem[key]);
    SettleLive(s.mem[key], id);
  }

  /** Taking a durable delivery out of memory for good; `call` becomes its holder. */
  lemma KeepSettle(s: State, s': State, t: nat, key: QueueKey, id: Id, consumer: string, call: Call)
    requires Inv(s) && CanSettle(s, t, key, id, consumer) && key in s.db.queues
    requires call == Deleting(id) || call == Burying(key, s.mem[key].inFlight[id])
    requires s' == Begin(Put(s, key, Settle(s.mem[key], id)), t, call).(h := s.h.(
      settled := s.h.settled[id := (consumer, if call.Deleting? then ByAck else ByReject)],
      holder := s.h.holder[id := t]))
    ensures Inv(s')
  {
    SettledEntry(s, key, id);
    hide Live, WellFormed, LedgerOk, DurableLive, IsDurableLive;
    PutKeepsMemory(s, s', key);
    DurableDrops(s, s', key, s'.mem[key], id);
    KeepLeave(LedgerOf(s), LedgerOf(s'), t, id, call, consumer);
  }

  lemma KeepAck(s: State, t: nat, key: QueueKey, id: Id, consumer: string)
    requires Inv(s) && CanSettle(s, t, key, id, consumer)
    ensures Inv(DoAck(s, t, key, id, consumer))
  {
    assert QueueOk(s.db, s.h.home, key, s.mem[key]);
    if s.mem[key].durable {
      KeepSettle(s, DoAck(s, t, key, id, consumer), t, key, id, consumer, Deleting(id));
    } else {
      SettleLive(s.mem[key], id);
      TouchTransient(s, key, Settle(s.mem[key], id));
    }
  }

  lemma KeepNackDead(s: State, t: nat, key: QueueKey, id: Id, consumer: string)
    requires Inv(s) && CanSettle(s, t, key, id, consumer) && GivesUp(s.mem[key], s.mem[key].inFlight[id])
    ensures Inv(DoNack(s, t, key, id, consumer))
  {
    var q := s.mem[key];
    var s' := DoNack(s, t, key, id, consumer);
    assert QueueOk(s.db, s.h.home, key, q);
    if q.durable {
      KeepSettle(s, s', t, key, id, consumer, Burying(key, q.inFlight[id]));
    } else {
      SettleLive(q, id);
      var s0 := Put(s, key, Settle(q, id));
      TouchTransient(s, key, Settle(q, id));
      MemoryUnseen(s0, s');
      MemoryFrame(s0, s');
      KeepLight(LedgerOf(s0), LedgerOf(s'), t);
    }
  }

  /** A queue that keeps its deliveries: same IDs, same messages, no fewer attempts. */
  ghost predicate Keeps(q: QueueState, q': QueueState) {
    && q'.durable == q.durable && q'.autoDelete == q.autoDelete
    && WellFormed(q') && Live(q').Keys == Live(q).Keys
    && (forall id :: id in Live(q') ==>
          Live(q')[id].message == Live(q)[id].message && Live(q)[id].attempts <= Live(q')[id].attempts)
  }

  lemma RequeueKeeps(q: QueueState, id: Id)
    requires WellFormed(q) && id in q.inFlight
    ensures Keeps(q, Requeue(q, id))
  {
    LiveKeyed(q);
    RequeueLive(q, id);
  }

  lemma DisconnectKeeps(q: QueueState, consumer: string, returned: seq<Delivery>)
    requires WellFormed(q) && IsReturnOrder(q, consumer, returned)
    ensures Keeps(q, Disconnect(q, consumer, returned))
  {
    LiveKeyed(q);
    DisconnectLive(q, consumer, returned);
  }

  /** Replacing a queue, durable or not, by one that keeps its deliveries. */
  lemma KeepsIsSafe(s: State, key: QueueKey, q: QueueState)
    requires Inv(s) && s.phase.Serving? && key in s.mem && Keeps(s.mem[key], q)
    ensures Inv(Put(s, key, q))
  {
    assert QueueOk(s.db, s.h.home, key, s.mem[key]);
    hide Live, WellFormed, LedgerOk, DurableLive, IsDurableLive;
    if q.durable { TouchQueue(s, key, q); } else { TouchTransient(s, key, q); }
  }

  /** A call comes to a point where it holds nothing, after memory has been taken care of. */
  lemma KeepBegin(s: State, t: nat, call: Call)
    requires Inv(s) && s.phase.Serving? && (t in s.calls ==> Held(s.calls[t]).None?)
    requires Held(call).None? && CallOk(LedgerOf(s), call)
    ensures Inv(Begin(s, t, call))
  {
    hide LedgerOk, IsDurableLive, QueueOk;
    MemoryUnseen(s, Begin(s, t, call));
    MemoryFrame(s, Begin(s, t, call));
    KeepLight(LedgerOf(s), LedgerOf(Begin(s, t, call)), t);
  }

  lemma KeepNackRequeue(s: State, t: nat, key: QueueKey, id: Id, consumer: string)
    requires Inv(s) && CanSettle(s, t, key, id, consumer) && !GivesUp(s.mem[key], s.mem[key].inFlight[id])
    ensures Inv(DoNack(s, t, key, id, consumer))
  {
    assert WellFormed(s.mem[key]) by { assert QueueOk(s.db, s.h.home, key, s.mem[key]); }
    RequeuedState(s, t, key, id, consumer);
    hide Inv, Live, WellFormed, Keeps, GivesUp, Requeue, LedgerOf, DoNack, Begin, CallOk, Held;
    var q := Requeue(s.mem[key], id);
    ReleasingIsOk(LedgerOf(Put(s, key, q)), [id]);
    RequeueKeeps(s.mem[key], id);
    KeepsIsSafe(s, key, q);
    if s.mem[key].durable { KeepBegin(Put(s, key, q), t, Releasing([id])); }
  }

  lemma RequeuedState(s: State, t: nat, key: QueueKey, id: Id, consumer: string)
    requires CanSettle(s, t, key, id, consumer) && !GivesUp(s.mem[key], s.mem[key].inFlight[id])
    ensures var s0 := Put(s, key, Requeue(s.mem[key], id));
      && DoNack(s, t, key, id, consumer) == (if s.mem[key].durable then Begin(s0, t, Releasing([id])) else s0)
      && s0.phase.Serving? && t !in s0.calls
  {
    hide GivesUp, Requeue;
  }

  lemma ReleasingIsOk(l: Ledger, pending: seq<Id>)
    ensures CallOk(l, Releasing(pending)) && Held(Releasing(pending)).None?
  {
  }

  lemma KeepDeleteAckedStep(s: State, t: nat, reply: Reply)
    requires Inv(s) && s.phase.Serving? && t in s.calls && s.calls[t].Deleting?
    ensures Inv(DoDeleteAcked(s, t, reply))
  {
    var s' := DoDeleteAcked(s, t, reply);
    MemoryUnseen(s, s');
    MemoryFrame(s, s');
    hide LedgerOk, MemoryOk, DurableLive;
    if reply.Refused? {
      KeepStrand(LedgerOf(s), LedgerOf(s'), t, s.calls[t].id);
    } else {
      KeepDeleteAcked(LedgerOf(s), LedgerOf(s'), t, if reply.Success? then {s.calls[t].id} else {});
    }
  }

  lemma KeepDeleteRejected(s: State, t: nat, reply: Reply)
    requires Inv(s) && s.phase.Serving? && t in s.calls && s.calls[t].Burying?
    ensures Inv(DoDeleteRejected(s, t, reply))
  {
    var s' := DoDeleteRejected(s, t, reply);
    MemoryUnseen(s, s');
    MemoryFrame(s, s');
    hide LedgerOk, MemoryOk, DurableLive;
    match reply
    case Refused => KeepStrand(LedgerOf(s), LedgerOf(s'), t, s.calls[t].delivery.id);
    case Success => KeepBury(LedgerOf(s), LedgerOf(s'), t);
    case Lost => KeepDeleteLost(s, t);
  }

  lemma KeepDeleteLost(s: State, t: nat)
    requires Inv(s) && s.phase.Serving? && t in s.calls && s.calls[t].Burying?
    ensures LedgerOk(LedgerOf(DoDeleteRejected(s, t, Lost)))
  {
    var s0, s' := DoDeleteRejected(s, t, Success), DoDeleteRejected(s, t, Lost);
    DeletedThenDropped(s, t);
    MemoryUnseen(s, s0);
    MemoryUnseen(s, s');
    assert Buries(LedgerOf(s), LedgerOf(s0), t);
    hide LedgerOk, MemoryOk, DurableLive, DoDeleteRejected;
    KeepBury(LedgerOf(s), LedgerOf(s0), t);
    KeepDrop(LedgerOf(s0), LedgerOf(s'), t);
  }

  /** A lost reply leaves what a refused letter would leave. */
  lemma DeletedThenDropped(s: State, t: nat)
    requires t in s.calls && s.calls[t].Burying?
    ensures var s0, id := DoDeleteRejected(s, t, Success), s.calls[t].delivery.id;
      && t in s0.calls && s0.calls[t] == Lettering(s.calls[t].key, s.calls[t].delivery, true)
      && DoDeleteRejected(s, t, Lost) ==
           s0.(calls := s0.calls - {t}, h := s0.h.(dropped := s0.h.dropped + {id}, holder := s0.h.holder - {id}))
  {
    assert DoDeleteRejected(s, t, Success).calls - {t} == s.calls - {t};
  }

  lemma KeepSaveLetter(s: State, t: nat, letterId: Id, reply: Reply)
    requires t in s.calls && s.calls[t].Lettering? && Inv(s) && s.phase.Serving?
    requires !reply.Refused? ==> CanSaveLetter(s.db, s.calls[t].key.exchange, letterId)
    ensures Inv(DoSaveLetter(s, t, letterId, reply))
  {
    var s' := DoSaveLetter(s, t, letterId, reply);
    var c := s.calls[t];
    MemoryUnseen(s, s');
    MemoryFrame(s, s');
    if c.stored {
      hide LedgerOk, MemoryOk, DurableLive;
      if reply.Refused? {
        KeepDrop(LedgerOf(s), LedgerOf(s'), t);
      } else {
        KeepLetter(LedgerOf(s), LedgerOf(s'), t, letterId, c.delivery.attempts);
      }
    } else if reply.Refused? {
      KeepEnd(s, t);
    } else {
      var s0 := s.(db := s'.db);
      MemoryUnseen(s, s0);
      MemoryFrame(s, s0);
      KeepTransientLetter(LedgerOf(s), LedgerOf(s0), letterId, s0.db.letters[letterId]);
      KeepEnd(s0, t);
    }
  }

  // ---------------------------------------------------------------- consumers and transient queues

  lemma KeepDropTransient(s: State, key: QueueKey)
    requires Inv(s) && s.phase.Serving? && key !in s.db.queues
    ensures Inv(s.(mem := s.mem - {key}))
  {
    TransientUnseen(s, s.(mem := s.mem - {key}), key);
  }

  lemma KeepAddTransient(s: State, key: QueueKey, autoDelete: bool, maxAttempts: int, filters: seq<string>)
    requires Inv(s) && s.phase.Serving? && key !in s.mem
    ensures Inv(Put(s, key, NewQueue(key.name, false, autoDelete, maxAttempts, filters)))
  {
    TouchTransient(s, key, NewQueue(key.name, false, autoDelete, maxAttempts, filters));
  }

  lemma KeepJoin(s: State, key: QueueKey, consumer: string)
    requires Inv(s) && s.phase.Serving? && key in s.mem
    ensures Inv(Put(s, key, Join(s.mem[key], consumer)))
  {
    assert QueueOk(s.db, s.h.home, key, s.mem[key]);
    if s.mem[key].durable {
      TouchQueue(s, key, Join(s.mem[key], consumer));
    } else {
      TouchTransient(s, key, Join(s.mem[key], consumer));
    }
  }

  /** A disconnect up to the point where the durable branch starts marking rows. */
  lemma KeepDisconnectMemory(s: State, key: QueueKey, consumer: string, returned: seq<Delivery>)
    requires Inv(s) && s.phase.Serving? && key in s.mem && IsReturnOrder(s.mem[key], consumer, returned)
    ensures Inv(Put(s, key, Disconnect(s.mem[key], consumer, returned)))
    ensures s.mem[key].durable ==> !s.mem[key].autoDelete
    ensures s.mem[key].durable <==> key in s.db.queues
  {
    assert QueueOk(s.db, s.h.home, key, s.mem[key]);
    hide Inv, Live, WellFormed, Keeps, IsReturnOrder;
    DisconnectKeeps(s.mem[key], consumer, returned);
    KeepsIsSafe(s, key, Disconnect(s.mem[key], consumer, returned));
  }

  lemma KeepDisconnect(s: State, t: nat, key: QueueKey, consumer: string, returned: seq<Delivery>)
    requires Inv(s) && Fresh(s, t) && key in s.mem && IsReturnOrder(s.mem[key], consumer, returned)
    ensures Inv(DoDisconnect(s, t, key, consumer, returned))
  {
    var s' := DoDisconnect(s, t, key, consumer, returned);
    KeepDisconnectMemory(s, key, consumer, returned);
    hide Inv, IsReturnOrder;
    if s.mem[key].durable {
      if returned != [] { KeepBegin(Put(s, key, Disconnect(s.mem[key], consumer, returned)), t, s'.calls[t]); }
    } else {
      KeepDropTransient(s, key);
    }
  }

  lemma KeepMarkReady(s: State, id: Id)
    requires Inv(s)
    ensures Inv(s.(db := MarkReady(s.db, id)))
  {
    var s' := s.(db := MarkReady(s.db, id));
    MemoryUnseen(s, s');
    MemoryFrame(s, s');
    KeepStatus(LedgerOf(s), LedgerOf(s'));
  }

  lemma KeepRelease(s: State, t: nat, reply: Reply)
    requires Inv(s) && s.phase.Serving? && t in s.calls && s.calls[t].Releasing? && s.calls[t].pending != []
    ensures Inv(DoRelease(s, t, reply))
  {
    hide Inv, MarkReady, LedgerOf;
    var pending := s.calls[t].pending;
    var s0 := if reply.Refused? then s else s.(db := MarkReady(s.db, pending[0]));
    KeepMarkReady(s, pending[0]);
    if reply.Success? && |pending| > 1 { KeepBegin(s0, t, Releasing(pending[1..])); } else { KeepEnd(s0, t); }
  }

  // ---------------------------------------------------------------- crash and restore

  lemma KeepCrashStep(s: State)
    requires Inv(s)
    ensures Inv(DoCrash(s))
  {
    assert DurableLive(DoCrash(s)) == map[];
    KeepCrash(LedgerOf(s), LedgerOf(DoCrash(s)));
  }

  lemma LoadedMemory(s: State, order: seq<Id>, filterLists: map<QueueKey, seq<string>>)
    requires TopologyOk(s.db) && filterLists.Keys == s.db.queues.Keys
    ensures var s' := DoLoad(s, order, filterLists); MemoryOk(s') && DurableLive(s') == map[]
  {
    var s' := DoLoad(s, order, filterLists);
    forall k | k in s'.mem ensures Live(s'.mem[k]) == map[] && QueueOk(s'.db, s'.h.home, k, s'.mem[k]) {
    }
  }

  lemma KeepLoadStep(s: State, order: seq<Id>, filterLists: map<QueueKey, seq<string>>)
    requires Inv(s) && s.phase.Down? && IsDeliveryOrder(s.db, order) && filterLists.Keys == s.db.queues.Keys
    ensures Inv(DoLoad(s, order, filterLists))
  {
    var s' := DoLoad(s, order, filterLists);
    LoadedMemory(s, order, filterLists);
    assert DurableLive(s) == map[];
    hide Live, WellFormed, LedgerOk, DurableLive, IsDurableLive, MemoryOk;
    KeepLoad(LedgerOf(s), LedgerOf(s'), order);
  }

  /** The queue and the delivery that Restore is about to bring together. */
  lemma NextRestored(s: State)
    requires CanRestore(s) && Inv(s)
    ensures var id := s.phase.order[s.phase.next];
      var row := s.phase.snapshot[id];
      var q := RestoreReady(s.mem[row.queue], LoadedDelivery(id, row));
      && Maps(s.h.home, id, row.queue) && row.queue in s.db.queues
      && QueueOk(s.db, s.h.home, row.queue, q)
      && Live(q) == Live(s.mem[row.queue])[id := LoadedDelivery(id, row)]
  {
    var id := s.phase.order[s.phase.next];
    var row := s.phase.snapshot[id];
    var l := LedgerOf(s);
    assert id in l.rows && EntryOk(l, id) && SameContents(row, l.rows[id]);
    assert id !in l.live;
    DurableAt(s, row.queue);
    assert QueueOk(s.db, s.h.home, row.queue, s.mem[row.queue]);
    EnqueueLive(s.mem[row.queue], LoadedDelivery(id, row));
  }

  lemma RestoredMemory(s: State, s': State, key: QueueKey)
    requires MemoryOk(s) && s.phase.Restoring? && key in s.mem
    requires key in s'.mem && s'.mem == s.mem[key := s'.mem[key]] && s'.db == s.db && s'.h.home == s.h.home
    requires s'.phase.Restoring?
    requires QueueOk(s.db, s.h.home, key, s'.mem[key]) && s'.mem[key].inFlight == map[] && s'.mem[key].consumers == {}
    ensures MemoryOk(s')
  {
    hide QueueOk;
  }

  lemma RestoredView(s: State)
    requires CanRestore(s) && Inv(s)
    ensures var id := s.phase.order[s.phase.next];
      var s' := DoRestoreNext(s);
      MemoryOk(s') && DurableLive(s') == DurableLive(s)[id := LoadedDelivery(id, s.phase.snapshot[id])]
  {
    var s' := DoRestoreNext(s);
    var id := s.phase.order[s.phase.next];
    var row := s.phase.snapshot[id];
    NextRestored(s);
    hide Live, WellFormed, LedgerOk, DurableLive, IsDurableLive;
    RestoredMemory(s, s', row.queue);
    DurableAdds(s, s', row.queue, s'.mem[row.queue], id, LoadedDelivery(id, row));
  }

  lemma KeepRestoreNext(s: State)
    requires CanRestore(s) && Inv(s)
    ensures Inv(DoRestoreNext(s))
  {
    RestoredView(s);
    hide Live, MemoryOk, LedgerOk, DurableLive;
    KeepRestore(LedgerOf(s), LedgerOf(DoRestoreNext(s)), s.phase.order[s.phase.next]);
  }

  lemma KeepRestoreMark(s: State, reply: Reply)
    requires s.phase.Restoring? && s.phase.unmarked.Some? && Inv(s)
    ensures Inv(DoRestoreMark(s, reply))
  {
    KeepMarkReady(s, s.phase.unmarked.value);
    var s0 := if reply.Refused? then s else s.(db := MarkReady(s.db, s.phase.unmarked.value));
    if reply.Success? {
      var s' := DoRestoreMark(s, reply);
      MemoryUnseen(s0, s');
      MemoryFrame(s0, s0);
      KeepMarked(LedgerOf(s0), LedgerOf(s'), None);
    } else {
      KeepCrashStep(s0);
    }
  }

  lemma KeepOpenStep(s: State)
    requires s.phase.Restoring? && s.phase.next == |s.phase.order| && Inv(s)
    ensures Inv(s.(phase := Serving))
  {
    MemoryUnseen(s, s.(phase := Serving));
    KeepOpen(LedgerOf(s), LedgerOf(s.(phase := Serving)));
  }

  // ---------------------------------------------------------------- all steps

  /** Outside the serving phase there are no calls. */
  lemma CallsMeanServing(s: State)
    requires Inv(s)
    ensures s.calls != map[] ==> s.phase.Serving?
  {
  }

  lemma PublishStepKeepsInv(s: State, limit: int, step: Step)
    requires Inv(s) && Enabled(s, limit, step)
    requires step.BeginPublish? || step.PublishTransient? || step.PublishMissing? || step.PublishSave? ||
             step.PublishEnqueue? || step.PublishDone?
    ensures Inv(Apply(s, limit, step))
  {
    hide Inv, IsRoute, Put, Begin, End, DoPublishTransient, DoPublishSave, DoPublishEnqueue, DoPublishDone;
    CallsMeanServing(s);
    match step
    case BeginPublish(t, exchange, message, todo) => KeepBeginPublish(s, t, todo, message);
    case PublishTransient(t, id) => KeepPublishTransient(s, t, id);
    case PublishMissing(t) => KeepEnd(s, t);
    case PublishSave(t, id, now, reply) =>
      match reply {
        case Refused => KeepPublishRefused(s, t, id, now);
        case Lost => KeepPublishLost(s, t, id, now);
        case Success => KeepPublishSaved(s, t, id, now);
      }
    case PublishEnqueue(t) => KeepPublishEnqueue(s, t);
    case PublishDone(t) => KeepPublishDone(s, t);
  }

  lemma FetchStepKeepsInv(s: State, limit: int, step: Step)
    requires Inv(s) && Enabled(s, limit, step) && (step.FetchStep? || step.MarkStep?)
    ensures Inv(Apply(s, limit, step))
  {
    hide Inv, Put, Begin, End, DoFetch, DoMark, Owned;
    CallsMeanServing(s);
    match step
    case FetchStep(t, key, consumer) => KeepFetch(s, t, key, consumer);
    case MarkStep(t, reply) => KeepMarkStep(s, t, reply);
  }

  lemma AckStepKeepsInv(s: State, limit: int, step: Step)
    requires Inv(s) && Enabled(s, limit, step) && (step.AckStep? || step.DeleteAcked?)
    ensures Inv(Apply(s, limit, step))
  {
    hide Inv, CanSettle, DoAck, DoDeleteAcked;
    CallsMeanServing(s);
    match step
    case AckStep(t, key, id, consumer) => KeepAck(s, t, key, id, consumer);
    case DeleteAcked(t, reply) => KeepDeleteAckedStep(s, t, reply);
  }

  lemma NackStepKeepsInv(s: State, limit: int, step: Step)
    requires Inv(s) && Enabled(s, limit, step) && step.NackStep?
    ensures Inv(Apply(s, limit, step))
  {
    var NackStep(t, key, id, consumer) := step;
    hide Inv, GivesUp, DoNack;
    if GivesUp(s.mem[key], s.mem[key].inFlight[id]) {
      KeepNackDead(s, t, key, id, consumer);
    } else {
      KeepNackRequeue(s, t, key, id, consumer);
    }
  }

  lemma BuryStepKeepsInv(s: State, limit: int, step: Step)
    requires Inv(s) && Enabled(s, limit, step) && (step.DeleteRejected? || step.SaveLetter?)
    ensures Inv(Apply(s, limit, step))
  {
    hide Inv, CanSaveLetter, DoDeleteRejected, DoSaveLetter;
    CallsMeanServing(s);
    match step
    case DeleteRejected(t, reply) => KeepDeleteRejected(s, t, reply);
    case SaveLetter(t, letterId, reply) => KeepSaveLetter(s, t, letterId, reply);
  }

  lemma ConsumerStepKeepsInv(s: State, limit: int, step: Step)
    requires Inv(s) && Enabled(s, limit, step) && (step.DisconnectStep? || step.JoinStep?)
    ensures Inv(Apply(s, limit, step))
  {
    hide Inv, IsReturnOrder, DoDisconnect, Put, Join;
    match step
    case DisconnectStep(t, key, consumer, returned) => KeepDisconnect(s, t, key, consumer, returned);
    case JoinStep(key, consumer) => KeepJoin(s, key, consumer);
  }

  lemma ReleaseStepKeepsInv(s: State, limit: int, step: Step)
    requires Inv(s) && Enabled(s, limit, step) && step.ReleaseStep?
    ensures Inv(Apply(s, limit, step))
  {
    hide Inv, DoRelease;
    CallsMeanServing(s);
    KeepRelease(s, step.t, step.reply);
  }

  lemma TransientStepKeepsInv(s: State, limit: int, step: Step)
    requires Inv(s) && Enabled(s, limit, step) && (step.AddTransient? || step.DropTransient?)
    ensures Inv(Apply(s, limit, step))
  {
    hide Inv, Put, NewQueue;
    match step
    case AddTransient(key, autoDelete, maxAttempts, filters) =>
      KeepAddTransient(s, key, autoDelete, maxAttempts, filters);
    case DropTransient(key) => KeepDropStep(s, key);
  }

  lemma RestartStepKeepsInv(s: State, limit: int, step: Step)
    requires Inv(s) && Enabled(s, limit, step)
    requires step.Crash? || step.Load? || step.RestoreNext? || step.RestoreMark? || step.Open?
    ensures Inv(Apply(s, limit, step))
  {
    hide Inv, IsDeliveryOrder, DoCrash, DoLoad, DoRestoreNext, DoRestoreMark;
    match step
    case Crash => KeepCrashStep(s);
    case Load(order, filterLists) => KeepLoadStep(s, order, filterLists);
    case RestoreNext => KeepRestoreNext(s);
    case RestoreMark(reply) => KeepRestoreMark(s, reply);
    case Open => KeepOpenStep(s);
  }

  /** Every step, of any call or of the process itself, keeps the invariant. */
  lemma StepKeepsInv(s: State, limit: int, step: Step)
    requires Inv(s) && Enabled(s, limit, step)
    ensures Inv(Apply(s, limit, step))
  {
    hide Inv, Enabled, Apply;
    match step
    case BeginPublish(_, _, _, _) => PublishStepKeepsInv(s, limit, step);
    case PublishTransient(_, _) => PublishStepKeepsInv(s, limit, step);
    case PublishMissing(_) => PublishStepKeepsInv(s, limit, step);
    case PublishSave(_, _, _, _) => PublishStepKeepsInv(s, limit, step);
    case PublishEnqueue(_) => PublishStepKeepsInv(s, limit, step);
    case PublishDone(_) => PublishStepKeepsInv(s, limit, step);
    case DisconnectStep(_, _, _, _) => ConsumerStepKeepsInv(s, limit, step);
    case ReleaseStep(_, _) => ReleaseStepKeepsInv(s, limit, step);
    case JoinStep(_, _) => ConsumerStepKeepsInv(s, limit, step);
    case AddTransient(_, _, _, _) => TransientStepKeepsInv(s, limit, step);
    case DropTransient(_) => TransientStepKeepsInv(s, limit, step);
    case Crash => RestartStepKeepsInv(s, limit, step);
    case Load(_, _) => RestartStepKeepsInv(s, limit, step);
    case RestoreNext => RestartStepKeepsInv(s, limit, step);
    case RestoreMark(_) => RestartStepKeepsInv(s, limit, step);
    case Open => RestartStepKeepsInv(s, limit, step);
    case FetchStep(_, _, _) => FetchStepKeepsInv(s, limit, step);
    case MarkStep(_, _) => FetchStepKeepsInv(s, limit, step);
    case AckStep(_, _, _, _) => AckStepKeepsInv(s, limit, step);
    case DeleteAcked(_, _) => AckStepKeepsInv(s, limit, step);
    case NackStep(_, _, _, _) => NackStepKeepsInv(s, limit, step);
    case DeleteRejected(_, _) => BuryStepKeepsInv(s, limit, step);
    case SaveLetter(_, _, _) => BuryStepKeepsInv(s, limit, step);
  }

  lemma KeepDropStep(s: State, key: QueueKey)
    requires Inv(s) && s.phase.Serving? && key in s.mem && !s.mem[key].durable
    ensures Inv(s.(mem := s.mem - {key}))
  {
    assert QueueOk(s.db, s.h.home, key, s.mem[key]);
    KeepDropTransient(s, key);
  }

  lemma InitInv(s: State)
    requires Init(s)
    ensures Inv(s)
  {
    assert DurableLive(s) == map[];
  }

  /** The invariant holds in every state of every run. */
  lemma {:induction false} RunKeepsInv(states: seq<State>, limit: int, steps: seq<Step>, i: nat)
    requires IsRun(states, limit, steps) && i < |states|
    ensures Inv(states[i])
  {
    hide Enabled, Apply, Inv;
    if i == 0 {
      InitInv(states[0]);
    } else {
      RunKeepsInv(states, limit, steps, i - 1);
      StepKeepsInv(states[i - 1], limit, steps[i - 1]);
    }
  }
}
