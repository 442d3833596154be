/** What a caller sees of each call, in terms of exchanges, queue fields and rows alone: which error it gets and when,
    and what has changed. The methods of the service promise these beside the outcomes that the runs are made of. */
module ServiceAnswers {
  import opened Types
  import opened QueueModel
  import opened Tables
  import opened ServiceModel
  import opened ServiceFaults
  import ServiceRuns
  import ServiceOutcomes
  import Routing

  /** The errors of a call that names a queue which is not there. */
  ghost predicate LooksUp(w: World, key: QueueKey, r: Outcome) {
    && (r == Failed(ExchangeNotFound) <==> key.exchange !in w.exchanges)
    && (r == Failed(QueueNotFound) <==> key.exchange in w.exchanges && key !in w.queues)
  }

  /** The call got through its checks; from there on only the repository can fail it. */
  ghost predicate GotThrough(r: Outcome) {
    r == Done || r == Failed(StorageError)
  }

  /** An accepted call was served, or its repository call failed. */
  ghost predicate ServedOrBroken(limits: Limits, w: World, r: Request, outcome: Outcome, w': World) {
    && Accepts(limits, w, r)
    && if outcome == Done then Admits(w, r) && w' == Serve(limits, w, r)
       else CallsRepository(w, r) && Broken(limits, w, r, w')
  }

  lemma AcceptedEnds(limits: Limits, w: World, r: Request, outcome: Outcome, w': World)
    requires Leads(limits, w, r, outcome, w') && Refusal(limits, w, r) == None
    ensures ServedOrBroken(limits, w, r, outcome, w')
    ensures GotThrough(outcome) || (outcome == Failed(DeliveryNotFound) && r.Fetch? && !Admits(w, r))
  {
    hide Refusal, Accepts, Serve, CallsRepository, Broken;
  }

  lemma RefusedEnds(limits: Limits, w: World, r: Request, outcome: Outcome, w': World, e: Error)
    requires Leads(limits, w, r, outcome, w') && Refusal(limits, w, r) == Some(e)
    ensures outcome == Failed(e) && w' == w
  {
    hide Refusal, Accepts, Serve, CallsRepository, Broken;
  }

  // ---------------------------------------------------------------- Ack and NAck

  ghost predicate Held(w: World, key: QueueKey, id: Id, c: string) {
    key in w.queues && id in w.queues[key].inFlight && w.queues[key].inFlight[id].consumer == c
  }

  /** The errors of a call that settles a delivery, which only its owner may. */
  ghost predicate ChecksOwner(w: World, key: QueueKey, id: Id, c: string, r: Outcome) {
    && LooksUp(w, key, r)
    && (r == Failed(DeliveryNotFound) <==> key in w.queues && id !in w.queues[key].inFlight)
    && (r == Failed(DeliveryOwnerMismatch) <==>
          key in w.queues && id in w.queues[key].inFlight && w.queues[key].inFlight[id].consumer != c)
    && (GotThrough(r) <==> Held(w, key, id, c))
  }

  ghost predicate AckAnswer(w: World, key: QueueKey, id: Id, c: string, r: Outcome, w': World) {
    && ChecksOwner(w, key, id, c, r)
    && if !Held(w, key, id, c) then w' == w else
       var q := w.queues[key];
       && w' == w.(queues := w.queues[key := q.(inFlight := q.inFlight - {id})], db := w'.db)
       && w'.db == w.db.(deliveries := w'.db.deliveries)
       && (forall x :: x != id ==> SameEntry(w.db.deliveries, w'.db.deliveries, x))
       && (q.durable && r == Done ==> id !in w'.db.deliveries)
       && (!q.durable ==> r == Done && w'.db == w.db)
  }

  /** Who may not settle is refused, with the error of the first check that fails. */
  lemma OwnerRefusals(limits: Limits, w: World, r: Request, id: Id, c: string)
    requires MemoryOk(w) && ((r.Ack? && r == Ack(r.key, id, c)) || (r.NAck? && r == NAck(r.key, id, c, r.letterId)))
    ensures Held(w, r.key, id, c) <==> Refusal(limits, w, r) == None
    ensures Refusal(limits, w, r).Some? ==>
      var failed := Failed(Refusal(limits, w, r).value);
      ChecksOwner(w, r.key, id, c, failed) && !GotThrough(failed)
    ensures Held(w, r.key, id, c) ==> r.key.exchange in w.exchanges
  {
    hide Registrable;
  }

  lemma HolderPasses(w: World, key: QueueKey, id: Id, c: string, r: Outcome)
    requires Held(w, key, id, c) && key.exchange in w.exchanges && GotThrough(r)
    ensures ChecksOwner(w, key, id, c, r)
  {
  }

  lemma AckAnswers(limits: Limits, w: World, key: QueueKey, id: Id, c: string, r: Outcome, w': World)
    requires Sound(w) && Leads(limits, w, Ack(key, id, c), r, w')
    ensures AckAnswer(w, key, id, c, r, w')
  {
    var call := Ack(key, id, c);
    OwnerRefusals(limits, w, call, id, c);
    hide Leads, Refusal, MemoryOk, ChecksOwner, Held;
    if Held(w, key, id, c) {
      AcceptedEnds(limits, w, call, r, w');
      AckEffects(limits, w, key, id, c, r, w');
      HolderPasses(w, key, id, c, r);
    } else {
      RefusedEnds(limits, w, call, r, w', Refusal(limits, w, call).value);
    }
  }

  lemma AckEffects(limits: Limits, w: World, key: QueueKey, id: Id, c: string, r: Outcome, w': World)
    requires ServedOrBroken(limits, w, Ack(key, id, c), r, w') && GotThrough(r) && Held(w, key, id, c)
    requires ChecksOwner(w, key, id, c, r)
    ensures AckAnswer(w, key, id, c, r, w')
  {
    hide ChecksOwner, Owns;
  }

  /** Somebody may try the delivery again: attempts are left, and a consumer other than its owner is registered. */
  ghost predicate MayRetry(q: QueueState, d: Delivery) {
    (q.maxAttempts == 0 || d.attempts < q.maxAttempts) && exists o :: o in q.consumers && o != d.consumer
  }

  ghost predicate NAckAnswer(w: World, key: QueueKey, id: Id, c: string, letterId: Id, r: Outcome, w': World) {
    && ChecksOwner(w, key, id, c, r)
    && if !Held(w, key, id, c) then w' == w else
       var q, d := w.queues[key], w.queues[key].inFlight[id];
       && w'.exchanges == w.exchanges && key in w'.queues && w'.queues == w.queues[key := w'.queues[key]]
       && w'.queues[key].inFlight == q.inFlight - {id} && w'.queues[key].consumers == q.consumers
       && if MayRetry(q, d) then Requeued(w, key, d, id, r, w') else Buried(w, key, d, id, letterId, r, w')
  }

  ghost predicate Requeued(w: World, key: QueueKey, d: Delivery, id: Id, r: Outcome, w': World)
    requires key in w.queues && key in w'.queues
  {
    && w'.queues[key].ready == w.queues[key].ready + [d.(consumer := "")]
    && w'.db == w.db.(deliveries := w'.db.deliveries) && w'.db.deliveries.Keys == w.db.deliveries.Keys
    && (forall x :: x != id ==> SameEntry(w.db.deliveries, w'.db.deliveries, x))
    && (w.queues[key].durable && r == Done && id in w.db.deliveries ==>
          w'.db.deliveries[id] == w.db.deliveries[id].(status := StatusReady, consumer := None))
    && (!w.queues[key].durable ==> r == Done && w'.db == w.db)
  }

  /** The letter is stored after the row is gone, so there is never both. */
  ghost predicate Buried(w: World, key: QueueKey, d: Delivery, id: Id, letterId: Id, r: Outcome, w': World)
    requires key in w.queues && key in w'.queues
  {
    && w'.queues[key].ready == w.queues[key].ready
    && w'.db == w.db.(deliveries := w'.db.deliveries, letters := w'.db.letters)
    && (forall x :: x != id ==> SameEntry(w.db.deliveries, w'.db.deliveries, x))
    && (!w.queues[key].durable ==> w'.db.deliveries == w.db.deliveries)
    && (id in w'.db.deliveries ==> SameEntry(w.db.deliveries, w'.db.deliveries, id))
    && (r == Done ==> letterId in w'.db.letters && letterId !in w.db.letters)
    && var letter := DeadLetter(d.message, key.name, d.attempts);
       || w'.db.letters == w.db.letters
       || (w'.db.letters == w.db.letters[letterId := LetterRow(key.exchange, letter)] &&
             (w.queues[key].durable ==> id !in w'.db.deliveries))
  }

  lemma NAckAnswers(limits: Limits, w: World, key: QueueKey, id: Id, c: string, letterId: Id, r: Outcome, w': World)
    requires Sound(w) && Leads(limits, w, NAck(key, id, c, letterId), r, w')
    ensures NAckAnswer(w, key, id, c, letterId, r, w')
  {
    var call := NAck(key, id, c, letterId);
    OwnerRefusals(limits, w, call, id, c);
    if Held(w, key, id, c) { RetryMeans(w, key, id); }
    hide Leads, Refusal, MemoryOk, ChecksOwner, Held, MayRetry;
    if Held(w, key, id, c) {
      AcceptedEnds(limits, w, call, r, w');
      HolderPasses(w, key, id, c, r);
      NAckEffects(limits, w, key, id, c, letterId, r, w');
    } else {
      RefusedEnds(limits, w, call, r, w', Refusal(limits, w, call).value);
    }
  }

  lemma RetryMeans(w: World, key: QueueKey, id: Id)
    requires MemoryOk(w) && key in w.queues && id in w.queues[key].inFlight
    ensures MayRetry(w.queues[key], w.queues[key].inFlight[id]) <==> !GivesUp(w.queues[key], w.queues[key].inFlight[id])
  {
    hide Routing.IsValidFilter;
  }

  lemma NAckEffects(limits: Limits, w: World, key: QueueKey, id: Id, c: string, letterId: Id, r: Outcome, w': World)
    requires ServedOrBroken(limits, w, NAck(key, id, c, letterId), r, w') && GotThrough(r)
    requires Held(w, key, id, c) && ChecksOwner(w, key, id, c, r)
    requires var q := w.queues[key]; MayRetry(q, q.inFlight[id]) <==> !GivesUp(q, q.inFlight[id])
    ensures NAckAnswer(w, key, id, c, letterId, r, w')
  {
    hide ChecksOwner, MayRetry, ServedOrBroken, Requeued, Buried, GivesUp;
    if GivesUp(w.queues[key], w.queues[key].inFlight[id]) {
      BuryEffects(limits, w, key, id, c, letterId, r, w');
    } else {
      RequeueEffects(limits, w, key, id, c, letterId, r, w');
    }
  }

  lemma RequeueEffects(limits: Limits, w: World, key: QueueKey, id: Id, c: string, letterId: Id, r: Outcome, w': World)
    requires ServedOrBroken(limits, w, NAck(key, id, c, letterId), r, w') && Held(w, key, id, c)
    requires !GivesUp(w.queues[key], w.queues[key].inFlight[id])
    ensures w'.exchanges == w.exchanges && key in w'.queues && w'.queues == w.queues[key := w'.queues[key]]
    ensures w'.queues[key].inFlight == w.queues[key].inFlight - {id}
    ensures w'.queues[key].consumers == w.queues[key].consumers
    ensures Requeued(w, key, w.queues[key].inFlight[id], id, r, w')
  {
    hide GivesUp, Owns;
  }

  lemma BuryEffects(limits: Limits, w: World, key: QueueKey, id: Id, c: string, letterId: Id, r: Outcome, w': World)
    requires ServedOrBroken(limits, w, NAck(key, id, c, letterId), r, w') && Held(w, key, id, c)
    requires GivesUp(w.queues[key], w.queues[key].inFlight[id])
    ensures w'.exchanges == w.exchanges && key in w'.queues && w'.queues == w.queues[key := w'.queues[key]]
    ensures w'.queues[key].inFlight == w.queues[key].inFlight - {id}
    ensures w'.queues[key].consumers == w.queues[key].consumers
    ensures Buried(w, key, w.queues[key].inFlight[id], id, letterId, r, w')
  {
    hide GivesUp, Owns;
  }

  // ---------------------------------------------------------------- fetching

  /** How many deliveries of the queue are in flight to `c`. */
  ghost function InFlightTo(q: QueueState, c: string): nat {
    |set id | id in q.inFlight && q.inFlight[id].consumer == c|
  }

  ghost predicate BelowLimit(limits: Limits, q: QueueState, c: string) {
    limits.maxInFlight <= 0 || InFlightTo(q, c) < limits.maxInFlight
  }

  ghost predicate MayFetch(limits: Limits, w: World, key: QueueKey, c: string) {
    && key in w.queues && c in w.queues[key].consumers && BelowLimit(limits, w.queues[key], c)
    && w.queues[key].ready != []
  }

  /** The errors of a fetch, in the order of the checks. */
  ghost predicate ChecksFetch(limits: Limits, w: World, key: QueueKey, c: string, r: Outcome) {
    && LooksUp(w, key, r)
    && (r == Failed(ConsumerNotFound) <==> key in w.queues && c !in w.queues[key].consumers)
    && (r == Failed(TooManyInFlight) <==>
          key in w.queues && c in w.queues[key].consumers && !BelowLimit(limits, w.queues[key], c))
    && (r == Failed(QueueEmpty) <==>
          && key in w.queues && c in w.queues[key].consumers && BelowLimit(limits, w.queues[key], c)
          && w.queues[key].ready == [])
    && (GotThrough(r) || r == Failed(DeliveryNotFound) <==> MayFetch(limits, w, key, c))
  }

  ghost predicate FetchAnswer(limits: Limits, w: World, key: QueueKey, c: string, r: Outcome, w': World) {
    && ChecksFetch(limits, w, key, c, r)
    && if !MayFetch(limits, w, key, c) then w' == w else HandsOut(w, key, c, r, w')
  }

  /** The oldest delivery goes to `c`, with one attempt more; its row says so unless the statement failed. */
  ghost predicate HandsOut(w: World, key: QueueKey, c: string, r: Outcome, w': World)
    requires key in w.queues && w.queues[key].ready != []
  {
    var q := w.queues[key];
    var d := q.ready[0].(attempts := q.ready[0].attempts + 1, consumer := c);
    && w' == w.(queues := w.queues[key := q.(ready := q.ready[1..], inFlight := q.inFlight[d.id := d])], db := w'.db)
    && w'.db == w.db.(deliveries := w'.db.deliveries) && w'.db.deliveries.Keys == w.db.deliveries.Keys
    && (forall x :: x != d.id ==> SameEntry(w.db.deliveries, w'.db.deliveries, x))
    && (q.durable && r == Done ==>
          && d.id in w.db.deliveries
          && w'.db.deliveries[d.id] ==
               w.db.deliveries[d.id].(status := StatusInFlight, consumer := Some(c), attempts := d.attempts))
    && (!q.durable ==> r == Done && w'.db == w.db)
  }

  /** What `c` is given: the oldest delivery, one attempt later. */
  ghost predicate IsHead(w: World, key: QueueKey, c: string, d: Delivery) {
    && key in w.queues && w.queues[key].ready != []
    && d == w.queues[key].ready[0].(attempts := w.queues[key].ready[0].attempts + 1, consumer := c)
  }

  lemma HandsHead(w: World, key: QueueKey, c: string, d: Delivery)
    requires ServiceOutcomes.Hands(w, key, c, d)
    ensures IsHead(w, key, c, d)
  {
  }

  lemma FetchRefusals(limits: Limits, w: World, key: QueueKey, c: string)
    requires MemoryOk(w)
    ensures MayFetch(limits, w, key, c) <==> Refusal(limits, w, Fetch(key, c)) == None
    ensures Refusal(limits, w, Fetch(key, c)).Some? ==>
      ChecksFetch(limits, w, key, c, Failed(Refusal(limits, w, Fetch(key, c)).value))
    ensures MayFetch(limits, w, key, c) ==> key.exchange in w.exchanges
  {
    hide Registrable;
    if key in w.queues { InFlightToIs(w.queues[key], c); }
    hide Owned, InFlightTo;
  }

  lemma InFlightToIs(q: QueueState, c: string)
    ensures |Owned(q, c)| == InFlightTo(q, c)
  {
    assert Owned(q, c) == set id | id in q.inFlight && q.inFlight[id].consumer == c;
  }

  lemma FetchPasses(limits: Limits, w: World, key: QueueKey, c: string, r: Outcome)
    requires MayFetch(limits, w, key, c) && key.exchange in w.exchanges
    requires GotThrough(r) || r == Failed(DeliveryNotFound)
    ensures ChecksFetch(limits, w, key, c, r)
  {
  }

  lemma FetchEffects(limits: Limits, w: World, key: QueueKey, c: string, r: Outcome, w': World)
    requires ServedOrBroken(limits, w, Fetch(key, c), r, w') && key in w.queues && w.queues[key].ready != []
    ensures HandsOut(w, key, c, r, w')
  {
    hide Owned;
  }

  lemma FetchAnswers(limits: Limits, w: World, key: QueueKey, c: string, r: Outcome, w': World)
    requires Sound(w) && Leads(limits, w, Fetch(key, c), r, w')
    ensures FetchAnswer(limits, w, key, c, r, w')
  {
    var call := Fetch(key, c);
    FetchRefusals(limits, w, key, c);
    hide Leads, Refusal, MemoryOk, ChecksFetch, BelowLimit, HandsOut;
    if MayFetch(limits, w, key, c) {
      AcceptedEnds(limits, w, call, r, w');
      FetchEffects(limits, w, key, c, r, w');
      FetchPasses(limits, w, key, c, r);
    } else {
      RefusedEnds(limits, w, call, r, w', Refusal(limits, w, call).value);
    }
  }

  // ---------------------------------------------------------------- waiting

  /** The last round, from `w`, found the queue empty; since then only others have acted, and the channel that round
      named is open. */
  ghost predicate Waiting(limits: Limits, w: World, now: World, key: QueueKey, c: string) {
    && Leads(limits, w, Fetch(key, c), Failed(QueueEmpty), w) && FetchAnswer(limits, w, key, c, Failed(QueueEmpty), w)
    && ServiceOutcomes.OnlyAt(w, now, key) && w.queues[key].ready == []
    && w.queues[key].channels.current !in now.queues[key].channels.closed
  }

  lemma StillEmptyUnlessWoken(limits: Limits, w: World, w1: World, now: World, key: QueueKey, c: string)
    requires Waiting(limits, w, w1, key, c) && ServiceOutcomes.OnlyAt(w1, now, key)
    ensures Leads(limits, w, Fetch(key, c), Failed(QueueEmpty), w)
    ensures FetchAnswer(limits, w, key, c, Failed(QueueEmpty), w)
    ensures ServiceOutcomes.OnlyAt(w, now, key) && key in w.queues && key in now.queues
    ensures w.queues[key].channels.current !in now.queues[key].channels.closed ==> now.queues[key].ready == []
  {
    hide Leads, FetchAnswer, ServiceOutcomes.WorkedOn;
    ServiceOutcomes.OnlyAtTwice(w, w1, now, key);
    ServiceOutcomes.EmptyUnlessWoken(w, now, key);
  }

  lemma GoesOnWaiting(limits: Limits, w: World, w1: World, now: World, key: QueueKey, c: string)
    requires Waiting(limits, w, w1, key, c) && ServiceOutcomes.OnlyAt(w1, now, key)
    requires w1.queues[key].channels.current !in now.queues[key].channels.closed
    ensures Waiting(limits, w, now, key, c)
  {
    hide Leads, FetchAnswer;
    ServiceOutcomes.OnlyAtTwice(w, w1, now, key);
  }

  lemma WaitedInVain(limits: Limits, w: World, now: World, key: QueueKey, c: string)
    requires Waiting(limits, w, now, key, c)
    ensures Leads(limits, w, Fetch(key, c), Failed(QueueEmpty), w)
    ensures FetchAnswer(limits, w, key, c, Failed(QueueEmpty), w)
    ensures ServiceOutcomes.OnlyAt(w, now, key) && key in w.queues && key in now.queues && now.queues[key].ready == []
  {
    hide Leads, FetchAnswer, ServiceOutcomes.WorkedOn;
    ServiceOutcomes.EmptyUnlessWoken(w, now, key);
  }

  // ---------------------------------------------------------------- consumers

  ghost predicate AddAnswer(w: World, key: QueueKey, c: string, r: Outcome, w': World) {
    && LooksUp(w, key, r)
    && if key !in w.queues then w' == w else
       var q := w.queues[key];
       r == Done && w' == w.(queues := w.queues[key := q.(consumers := q.consumers + {c})])
  }

  lemma AddAnswers(limits: Limits, w: World, key: QueueKey, c: string, r: Outcome, w': World)
    requires Sound(w) && Leads(limits, w, AddConsumer(key, c), r, w')
    ensures AddAnswer(w, key, c, r, w')
  {
    hide Registrable;
  }

  /** A disconnect takes the consumer off the list whatever it held, and an auto-delete queue with its last consumer. */
  ghost predicate DisconnectAnswer(w: World, key: QueueKey, c: string, returned: seq<Delivery>, r: Outcome, w': World) {
    && LooksUp(w, key, r)
    && if key !in w.queues then w' == w else
       var q := w.queues[key];
       && GotThrough(r) && w'.exchanges == w.exchanges && w'.queues - {key} == w.queues - {key}
       && (forall d: Delivery :: d in returned <==>
             d.id in q.inFlight && q.inFlight[d.id].consumer == c && d == q.inFlight[d.id].(consumer := ""))
       && (key !in w'.queues <==> q.autoDelete && q.consumers <= {c})
       && (key in w'.queues ==> HandsBack(q, c, returned, w'.queues[key]))
       && ReleasesRows(w.db, returned, w'.db, q.durable && r == Done) && OnlyReturned(w.db, returned, w'.db)
       && (!q.durable ==> r == Done && w'.db == w.db)
  }

  /** No row but those of the returned deliveries changes, and these are released: all of them, if the call succeeds. */
  ghost predicate ReleasesRows(db: Tables, returned: seq<Delivery>, db': Tables, all: bool) {
    && db' == db.(deliveries := db'.deliveries) && db'.deliveries.Keys == db.deliveries.Keys
    && forall id :: id in db.deliveries ==>
         || db'.deliveries[id] == db.deliveries[id].(status := StatusReady, consumer := None)
         || (db'.deliveries[id] == db.deliveries[id] && (all ==> forall d :: d in returned ==> d.id != id))
  }

  ghost predicate OnlyReturned(db: Tables, returned: seq<Delivery>, db': Tables) {
    forall id :: id in db.deliveries && (forall d :: d in returned ==> d.id != id) ==>
      id in db'.deliveries && db'.deliveries[id] == db.deliveries[id]
  }

  ghost predicate HandsBack(q: QueueState, c: string, returned: seq<Delivery>, q': QueueState) {
    && q'.consumers == q.consumers - {c} && q'.ready == q.ready + returned
    && (forall id :: id in q'.inFlight <==> id in q.inFlight && q.inFlight[id].consumer != c)
    && (forall id :: id in q'.inFlight ==> q'.inFlight[id] == q.inFlight[id])
  }

  lemma DisconnectAnswers(limits: Limits, w: World, key: QueueKey, c: string, returned: seq<Delivery>, r: Outcome,
                          w': World)
    requires Sound(w) && Leads(limits, w, DisconnectConsumer(key, c, returned), r, w')
    ensures DisconnectAnswer(w, key, c, returned, r, w')
  {
    var call := DisconnectConsumer(key, c, returned);
    if key in w.queues {
      AcceptedEnds(limits, w, call, r, w');
      DisconnectEffects(limits, w, key, c, returned, r, w');
    } else {
      RefusedEnds(limits, w, call, r, w', LookupError(w, key).value);
    }
    hide Registrable, Leads;
  }

  lemma DisconnectEffects(limits: Limits, w: World, key: QueueKey, c: string, returned: seq<Delivery>, r: Outcome,
                          w': World)
    requires ServedOrBroken(limits, w, DisconnectConsumer(key, c, returned), r, w') && GotThrough(r)
    requires key in w.queues && key.exchange in w.exchanges
    ensures DisconnectAnswer(w, key, c, returned, r, w')
  {
    DisconnectOutcome(limits, w, key, c, returned, r, w');
    DisconnectRows(limits, w, key, c, returned, r, w');
    DisconnectedQueue(w.queues[key], c, returned);
    hide ServedOrBroken, IsReturnOrder, HandsBack, Disconnect, ReleasesRows, OnlyReturned;
  }

  lemma DisconnectOutcome(limits: Limits, w: World, key: QueueKey, c: string, returned: seq<Delivery>, r: Outcome,
                          w': World)
    requires ServedOrBroken(limits, w, DisconnectConsumer(key, c, returned), r, w') && key in w.queues
    ensures IsReturnOrder(w.queues[key], c, returned) && w'.exchanges == w.exchanges
    ensures var q := Disconnect(w.queues[key], c, returned);
      w'.queues == if q.autoDelete && q.consumers == {} then w.queues - {key} else w.queues[key := q]
  {
    hide IsReturnOrder, Disconnect, MarkAllReady;
  }

  lemma DisconnectRows(limits: Limits, w: World, key: QueueKey, c: string, returned: seq<Delivery>, r: Outcome,
                       w': World)
    requires ServedOrBroken(limits, w, DisconnectConsumer(key, c, returned), r, w') && key in w.queues
    ensures ReleasesRows(w.db, returned, w'.db, w.queues[key].durable && r == Done)
    ensures OnlyReturned(w.db, returned, w'.db)
    ensures !w.queues[key].durable ==> r == Done && w'.db == w.db
  {
    hide IsReturnOrder, MarkAllReady, ReleasesRows, OnlyReturned;
    if w.queues[key].durable {
      var n: nat := |returned|;
      assert returned[..|returned|] == returned;
      if r != Done { n :| n <= |returned| && w'.db == MarkAllReady(w.db, returned[..n]); }
      PrefixReleased(w.db, returned, n);
      if r != Done { FewerReleased(w.db, returned, w'.db, n == |returned|); }
    } else {
      NothingReleased(w.db, returned);
    }
  }

  lemma FewerReleased(db: Tables, returned: seq<Delivery>, db': Tables, all: bool)
    requires ReleasesRows(db, returned, db', all)
    ensures ReleasesRows(db, returned, db', false)
  {
  }

  lemma NothingReleased(db: Tables, returned: seq<Delivery>)
    ensures ReleasesRows(db, returned, db, false) && OnlyReturned(db, returned, db)
  {
  }

  lemma PrefixReleased(db: Tables, returned: seq<Delivery>, n: nat)
    requires n <= |returned|
    ensures ReleasesRows(db, returned, MarkAllReady(db, returned[..n]), n == |returned|)
    ensures OnlyReturned(db, returned, MarkAllReady(db, returned[..n]))
  {
    var ds, db' := returned[..n], MarkAllReady(db, returned[..n]);
    ServiceRuns.MarkedReady(db, ds);
    hide MarkAllReady;
    assert forall i :: 0 <= i < n ==> ds[i] in returned;
    forall id | id in db.deliveries && !(exists i :: 0 <= i < n && ds[i].id == id)
      ensures db'.deliveries[id] == db.deliveries[id]
    {
    }
  }

  lemma DisconnectedQueue(q: QueueState, c: string, returned: seq<Delivery>)
    requires IsReturnOrder(q, c, returned)
    ensures HandsBack(q, c, returned, Disconnect(q, c, returned))
    ensures Disconnect(q, c, returned).consumers == {} <==> q.consumers <= {c}
    ensures Disconnect(q, c, returned).autoDelete == q.autoDelete
    ensures Disconnect(q, c, returned).durable == q.durable
    ensures forall d: Delivery :: d in returned <==>
      d.id in q.inFlight && q.inFlight[d.id].consumer == c && d == q.inFlight[d.id].(consumer := "")
  {
    AllReturned(q, c, returned);
    hide IsReturnOrder;
  }
}
