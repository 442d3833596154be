/** From what the steps of a call did to what the call led to. Each lemma takes the change of memory and
    the reply of the repository as a method observes them. */
module ServiceOutcomes {
  import opened Types
  import opened QueueModel
  import opened Tables
  import opened ServiceModel
  import opened ServiceFaults
  import opened RestoreModel
  import opened ServiceRuns
  import Sql = Tables
  import Routing

  lemma RefusedLeads(limits: Limits, w: World, r: Request, e: Error)
    requires Sound(w) && Refusal(limits, w, r) == Some(e)
    ensures Leads(limits, w, r, Failed(e), w) && DbOk(w.db)
  {
  }

  // ---------------------------------------------------------------- calls on one queue, in memory

  /** The calls that start by looking up a queue. */
  predicate LooksUp(r: Request, key: QueueKey) {
    (r.DeleteQueue? || r.Fetch? || r.Ack? || r.NAck? || r.AddConsumer? || r.DisconnectConsumer?) && r.key == key
  }

  lemma LookupRefuses(limits: Limits, w: World, r: Request, key: QueueKey, e: Error)
    requires LooksUp(r, key) && LookupError(w, key) == Some(e)
    ensures Refusal(limits, w, r) == Some(e)
  {
  }

  ghost predicate DeletedAt(queues: map<QueueKey, QueueState>, key: QueueKey, r: Outcome,
                            queues': map<QueueKey, QueueState>) {
    && key in queues
    && if queues[key].consumers == {} then r == Done && queues' == queues - {key}
       else r == Failed(QueueHasConsumers) && queues' == queues
  }

  lemma DeletedServes(limits: Limits, w: World, key: QueueKey, r: Outcome, queues: map<QueueKey, QueueState>)
    requires LookupError(w, key) == None && DeletedAt(w.queues, key, r, queues)
    ensures r == Done ==> Accepts(limits, w, DeleteQueue(key)) && queues == w.queues - {key}
    ensures r != Done ==> Refusal(limits, w, DeleteQueue(key)) == Some(r.error) && queues == w.queues
  {
  }

  ghost predicate FetchedAt(queues: map<QueueKey, QueueState>, key: QueueKey, c: string, maxInFlight: int,
                            r: Result<Delivery>, queues': map<QueueKey, QueueState>) {
    && key in queues
    && var q := queues[key];
       if CanFetch(q, c, maxInFlight) then r == Ok(Taken(q, c)) && queues' == queues[key := QueueModel.Fetch(q, c)]
       else r == Err(FetchError(q, c, maxInFlight)) && queues' == queues
  }

  lemma FetchedHandsOut(limits: Limits, w: World, key: QueueKey, c: string, r: Result<Delivery>,
                        queues: map<QueueKey, QueueState>)
    requires LookupError(w, key) == None && FetchedAt(w.queues, key, c, limits.maxInFlight, r, queues)
    ensures r.Ok? ==> HandedOut(limits, w, key, c, w.queues[key].durable, r.value, queues)
    ensures r.Err? ==> Refusal(limits, w, Fetch(key, c)) == Some(r.error) && queues == w.queues
  {
    hide Owned;
  }

  ghost predicate AckedAt(queues: map<QueueKey, QueueState>, key: QueueKey, id: Id, c: string, r: Outcome,
                          queues': map<QueueKey, QueueState>) {
    && key in queues
    && if Owns(queues[key], id, c) then r == Done && queues' == queues[key := Settle(queues[key], id)]
       else r == Failed(OwnerError(queues[key], id)) && queues' == queues
  }

  lemma AckedServes(limits: Limits, w: World, key: QueueKey, id: Id, c: string, r: Outcome,
                    queues: map<QueueKey, QueueState>)
    requires LookupError(w, key) == None && AckedAt(w.queues, key, id, c, r, queues)
    ensures r == Done ==> Accepts(limits, w, Ack(key, id, c)) && queues == AckIn(w, key, id).queues
    ensures r != Done ==> Refusal(limits, w, Ack(key, id, c)) == Some(r.error) && queues == w.queues
  {
  }

  ghost predicate JoinedAt(queues: map<QueueKey, QueueState>, key: QueueKey, c: string,
                           queues': map<QueueKey, QueueState>) {
    key in queues && queues' == queues[key := Join(queues[key], c)]
  }

  lemma JoinedServes(limits: Limits, w: World, key: QueueKey, c: string, queues: map<QueueKey, QueueState>)
    requires JoinedAt(w.queues, key, c, queues)
    ensures Accepts(limits, w, AddConsumer(key, c)) && queues == JoinedBy(w, key, c)
  {
  }

  ghost predicate DisconnectedAt(queues: map<QueueKey, QueueState>, key: QueueKey, c: string, returned: seq<Delivery>,
                                 queues': map<QueueKey, QueueState>) {
    && key in queues && IsReturnOrder(queues[key], c, returned)
    && var q := Disconnect(queues[key], c, returned);
       queues' == if q.autoDelete && q.consumers == {} then queues - {key} else queues[key := q]
  }

  lemma DisconnectedDeparts(limits: Limits, w: World, key: QueueKey, c: string, returned: seq<Delivery>,
                            queues: map<QueueKey, QueueState>)
    requires DisconnectedAt(w.queues, key, c, returned, queues)
    ensures Departed(limits, w, key, c, w.queues[key].durable, returned, queues)
  {
    hide IsReturnOrder, Disconnect;
  }

  // ---------------------------------------------------------------- from steps to outcomes

  /** An accepted call changed memory as it should; its statement, if it has one, took effect or failed. */
  lemma AcceptedLeads(limits: Limits, w: World, r: Request, outcome: Outcome, w': World)
    requires Sound(w) && Accepts(limits, w, r) && !r.Publish? && !r.NAck? && !r.DisconnectConsumer?
    requires w' == Serve(limits, w, r).(db := w'.db)
    requires outcome == Done ==> Admits(w, r) && w'.db == Serve(limits, w, r).db
    requires outcome != Done ==>
      && CallsRepository(w, r)
      && (outcome == Failed(StorageError) || (outcome == Failed(DeliveryNotFound) && r.Fetch? && !Admits(w, r)))
      && (w'.db == w.db || (Admits(w, r) && w'.db == Serve(limits, w, r).db))
    ensures Leads(limits, w, r, outcome, w') && DbOk(w'.db)
  {
    RefusedOrAccepted(limits, w, r);
    hide Refusal, Accepts, Serve, Admits, CallsRepository, MemoryOk, DbOk;
    assert outcome != Done ==> Broken(limits, w, r, w');
    hide Broken;
    assert Leads(limits, w, r, outcome, w');
    hide Leads;
    LeadsKeepsSound(limits, w, r, outcome, w');
  }

  lemma CreateExchangeLeads(limits: Limits, w: World, name: string, r: Outcome, w': World)
    requires Sound(w) && w'.exchanges == w.exchanges + {name} && w'.queues == w.queues
    requires Replied(r, true, w.db, w'.db, SaveExchange(w.db, name))
    ensures Leads(limits, w, CreateExchange(name), r, w') && DbOk(w'.db)
  {
    hide Sound;
    AcceptedLeads(limits, w, CreateExchange(name), r, w');
  }

  lemma DeleteExchangeLeads(limits: Limits, w: World, name: string, r: Outcome, w': World)
    requires Sound(w) && Accepts(limits, w, DeleteExchange(name))
    requires w'.exchanges == w.exchanges - {name} && w'.queues ==
      map k | k in w.queues && k.exchange != name :: w.queues[k]
    requires Replied(r, true, w.db, w'.db, Sql.DeleteExchange(w.db, name))
    ensures Leads(limits, w, DeleteExchange(name), r, w') && DbOk(w'.db)
  {
    hide Sound;
    AcceptedLeads(limits, w, DeleteExchange(name), r, w');
  }

  /** The first half of a registration: the queue at the key has the settings `row` and `filters`. */
  ghost predicate Registered(limits: Limits, w: World, call: Request, row: QueueRow, filters: seq<string>,
                             queues: map<QueueKey, QueueState>) {
    && call.RegisterQueue? && Accepts(limits, w, call) && queues == Serve(limits, w, call).queues
    && call.key in queues && RowOf(queues[call.key]) == row && queues[call.key].filters == filters
  }

  lemma NoExchangeToDelete(limits: Limits, w: World, name: string)
    requires name !in w.exchanges
    ensures Refusal(limits, w, DeleteExchange(name)) == Some(ExchangeNotFound)
  {
  }

  lemma BusyIsRefused(limits: Limits, w: World, name: string)
    requires name in w.exchanges
    ensures (exists k :: k in w.queues && k.exchange == name && w.queues[k].consumers != {}) ==>
      Refusal(limits, w, DeleteExchange(name)) == Some(ExchangeHasConsumers)
    ensures !(exists k :: k in w.queues && k.exchange == name && w.queues[k].consumers != {}) ==>
      Accepts(limits, w, DeleteExchange(name))
  {
  }

  /** The checks of a registration, in their order. */
  lemma RegistrationDecides(limits: Limits, w: World, call: Request)
    requires call.RegisterQueue?
    ensures call.key.exchange !in w.exchanges ==> Refusal(limits, w, call) == Some(ExchangeNotFound)
    ensures call.key.exchange in w.exchanges && |call.filters| > limits.maxQueueFilters ==>
      Refusal(limits, w, call) == Some(TooManyQueueFilters)
    ensures call.key.exchange in w.exchanges && |call.filters| <= limits.maxQueueFilters ==>
      Refusal(limits, w, call) ==
        RegistrationError(Existing(w.queues, call.key), call.durable, call.autoDelete, call.maxAttempts, call.filters)
  {
  }

  lemma RegistrationServes(limits: Limits, w: World, call: Request, queues: map<QueueKey, QueueState>)
    requires call.RegisterQueue? && call.key.exchange in w.exchanges && |call.filters| <= limits.maxQueueFilters
    requires RegistrationError(Existing(w.queues, call.key), call.durable, call.autoDelete, call.maxAttempts,
      call.filters) == None
    requires queues == WithQueue(w.queues, call.key, call.durable, call.autoDelete, call.maxAttempts, call.filters)
    requires call.key in queues
    ensures Registered(limits, w, call, RowOf(queues[call.key]), queues[call.key].filters, queues)
  {
    hide SameFilters, Routing.IsValidFilter;
  }

  lemma RegisterQueueLeads(limits: Limits, w: World, call: Request, row: QueueRow, filters: seq<string>, r: Outcome,
                           w': World)
    requires Sound(w) && Registered(limits, w, call, row, filters, w'.queues) && w'.exchanges == w.exchanges
    requires row.durable ==>
      Replied(r, CanSaveQueue(w.db, call.key, row), w.db, w'.db, SaveQueue(w.db, call.key, row, filters))
    requires !row.durable ==> r == Done && w'.db == w.db
    ensures Leads(limits, w, call, r, w') && DbOk(w'.db)
  {
    hide Sound, Registrable, SameFilters;
    AcceptedLeads(limits, w, call, r, w');
  }

  lemma DeleteQueueLeads(limits: Limits, w: World, key: QueueKey, r: Outcome, w': World)
    requires Sound(w) && Accepts(limits, w, DeleteQueue(key))
    requires w'.exchanges == w.exchanges && w'.queues == w.queues - {key}
    requires !w.queues[key].durable ==> r == Done && w'.db == w.db
    requires w.queues[key].durable ==> Replied(r, true, w.db, w'.db, Sql.DeleteQueue(w.db, key))
    ensures Leads(limits, w, DeleteQueue(key), r, w') && DbOk(w'.db)
  {
    hide Sound;
    AcceptedLeads(limits, w, DeleteQueue(key), r, w');
  }

  /** A fetch by `c` takes the oldest delivery, counting the attempt and noting the owner. */
  ghost predicate Hands(w: World, key: QueueKey, c: string, d: Delivery) {
    key in w.queues && w.queues[key].ready != [] && d == Taken(w.queues[key], c)
  }

  /** The first half of a fetch: delivery `d` was handed out from a queue that is durable or not. */
  ghost predicate HandedOut(limits: Limits, w: World, key: QueueKey, c: string, durable: bool, d: Delivery,
                            queues: map<QueueKey, QueueState>) {
    && Accepts(limits, w, Fetch(key, c)) && Hands(w, key, c, d)
    && durable == w.queues[key].durable && queues == FetchIn(w, key, c).queues
  }

  lemma FetchLeads(limits: Limits, w: World, key: QueueKey, c: string, durable: bool, d: Delivery, r: Outcome,
                   w': World)
    requires Sound(w) && HandedOut(limits, w, key, c, durable, d, w'.queues) && w'.exchanges == w.exchanges
    requires durable ==> RepliedToMark(r, w.db, w'.db, d.id, c, d.attempts)
    requires !durable ==> r == Done && w'.db == w.db
    ensures Leads(limits, w, Fetch(key, c), r, w') && Hands(w, key, c, d) && DbOk(w'.db)
  {
    hide Sound, Owned;
    AcceptedLeads(limits, w, Fetch(key, c), r, w');
  }

  /** A fetch that found the queue empty changed nothing: the error comes from a check, never from the repository. */
  lemma StillEmpty(limits: Limits, w: World, key: QueueKey, c: string, w': World)
    requires Leads(limits, w, Fetch(key, c), Failed(QueueEmpty), w')
    ensures w' == w
  {
  }

  lemma EmptyWhenRefused(limits: Limits, w: World, key: QueueKey, c: string)
    requires Leads(limits, w, Fetch(key, c), Failed(QueueEmpty), w)
    ensures key in w.queues && w.queues[key].ready == []
  {
    hide Owned;
  }

  // ---------------------------------------------------------------- what others do meanwhile

  /** Other clients worked on a queue: its settings are the same, and while its channel is open nothing was added to its
      ready list. */
  ghost predicate WorkedOn(q: QueueState, q': QueueState) {
    && q'.name == q.name && q'.filters == q.filters && RowOf(q') == RowOf(q)
    && q.channels.closed <= q'.channels.closed
    && (q.channels.current !in q'.channels.closed ==>
          q'.channels.current == q.channels.current && |q'.ready| <= |q.ready|)
  }

  /** Between the two worlds, other clients worked on the queue `key` and on delivery rows, and on nothing else. */
  ghost predicate OnlyAt(w: World, w': World, key: QueueKey) {
    && w'.exchanges == w.exchanges && key in w.queues && key in w'.queues
    && w'.queues == w.queues[key := w'.queues[key]] && WorkedOn(w.queues[key], w'.queues[key])
    && w'.db == w.db.(deliveries := w'.db.deliveries)
  }

  lemma OnlyAtItself(w: World, key: QueueKey)
    requires key in w.queues
    ensures OnlyAt(w, w, key)
  {
    assert w.queues[key := w.queues[key]] == w.queues;
  }

  lemma OnlyAtTwice(w: World, w1: World, w2: World, key: QueueKey)
    requires OnlyAt(w, w1, key) && OnlyAt(w1, w2, key)
    ensures OnlyAt(w, w2, key)
  {
    hide WorkedOn;
    WorkedOnTwice(w.queues[key], w1.queues[key], w2.queues[key]);
    assert w.queues[key := w1.queues[key]][key := w2.queues[key]] == w.queues[key := w2.queues[key]];
  }

  lemma WorkedOnTwice(q: QueueState, q1: QueueState, q2: QueueState)
    requires WorkedOn(q, q1) && WorkedOn(q1, q2)
    ensures WorkedOn(q, q2)
  {
  }

  lemma WorkedOnIsOnlyAt(w: World, w': World, key: QueueKey, q: QueueState)
    requires key in w.queues && WorkedOn(w.queues[key], q)
    requires w' == w.(queues := w.queues[key := q])
    ensures OnlyAt(w, w', key)
  {
    hide WorkedOn;
  }

  lemma RowsAreOnlyAt(w: World, w': World, key: QueueKey)
    requires key in w.queues && w' == w.(db := w.db.(deliveries := w'.db.deliveries))
    ensures OnlyAt(w, w', key)
  {
    assert w.queues[key := w.queues[key]] == w.queues;
  }

  lemma NotifiedOnClose(w: World, w': World, key: QueueKey)
    requires OnlyAt(w, w', key)
    ensures key in w.queues && key in w'.queues
    ensures
      w'.queues[key].channels.current != w.queues[key].channels.current ==>
      w.queues[key].channels.current in w'.queues[key].channels.closed
  {
  }

  lemma EmptyUnlessWoken(w: World, w': World, key: QueueKey)
    requires OnlyAt(w, w', key) && w.queues[key].ready == []
    ensures key in w.queues && key in w'.queues
    ensures w.queues[key].channels.current !in w'.queues[key].channels.closed ==> w'.queues[key].ready == []
  {
  }

  lemma FetchNotFound(limits: Limits, w: World, key: QueueKey, c: string, e: Error)
    requires LookupError(w, key) == Some(e)
    ensures Leads(limits, w, Fetch(key, c), Failed(e), w) && e != QueueEmpty
  {
  }

  lemma AckLeads(limits: Limits, w: World, key: QueueKey, id: Id, c: string, r: Outcome, w': World)
    requires Sound(w) && Accepts(limits, w, Ack(key, id, c))
    requires w'.exchanges == w.exchanges && w'.queues == AckIn(w, key, id).queues
    requires !w.queues[key].durable ==> r == Done && w'.db == w.db
    requires w.queues[key].durable ==> Replied(r, true, w.db, w'.db, DeleteDelivery(w.db, id))
    ensures Leads(limits, w, Ack(key, id, c), r, w') && DbOk(w'.db)
  {
    hide Sound;
    AcceptedLeads(limits, w, Ack(key, id, c), r, w');
  }

  function JoinedBy(w: World, key: QueueKey, c: string): map<QueueKey, QueueState> {
    if key in w.queues then w.queues[key := Join(w.queues[key], c)] else w.queues
  }

  lemma AddConsumerLeads(limits: Limits, w: World, key: QueueKey, c: string, w': World)
    requires Sound(w) && Accepts(limits, w, AddConsumer(key, c))
    requires w' == w.(queues := JoinedBy(w, key, c))
    ensures Leads(limits, w, AddConsumer(key, c), Done, w') && DbOk(w'.db)
  {
    hide Sound;
    AcceptedLeads(limits, w, AddConsumer(key, c), Done, w');
  }

  /** The replies to the statements of a NAck: a row deleted and a letter stored, or a row released. */
  ghost predicate RepliedToRejection(key: QueueKey, durable: bool, id: Id, letter: Option<DeadLetter>, letterId: Id,
                                     before: Tables, r: Outcome, db: Tables) {
    match letter
    case Some(letter) =>
      var deleted := if durable then DeleteDelivery(before, id) else before;
      || (durable && r == Failed(StorageError) && (db == before || db == deleted))
      || Replied(r, CanSaveLetter(deleted, key.exchange, letterId), deleted, db,
                 SaveDeadLetter(deleted, key.exchange, letterId, letter))
    case None => if durable then Replied(r, true, before, db, MarkReady(before, id)) else r == Done && db == before
  }

  /** The first half of a NAck: the delivery is out of flight, and leaves `letter` if it is given up. */
  ghost predicate TurnedDown(limits: Limits, w: World, key: QueueKey, id: Id, c: string, letterId: Id, durable: bool,
                             letter: Option<DeadLetter>, queues: map<QueueKey, QueueState>) {
    && Accepts(limits, w, NAck(key, id, c, letterId)) && durable == w.queues[key].durable
    && queues == NAckIn(w, key, id, letterId).queues
    && var d := w.queues[key].inFlight[id];
       letter == if GivesUp(w.queues[key], d) then Some(LetterFor(key, d)) else None
  }

  /** A rejection by somebody who does not hold the delivery changes nothing. */
  ghost predicate RefusedAt(queues: map<QueueKey, QueueState>, key: QueueKey, id: Id, c: string, e: Error,
                            queues': map<QueueKey, QueueState>) {
    key in queues && !Owns(queues[key], id, c) && e == OwnerError(queues[key], id) && queues' == queues
  }

  /** A rejection by the owner gives the delivery up, leaving a letter, or requeues it. */
  ghost predicate RejectedAt(queues: map<QueueKey, QueueState>, key: QueueKey, id: Id, c: string,
                             letter: Option<DeadLetter>, queues': map<QueueKey, QueueState>) {
    && key in queues && Owns(queues[key], id, c)
    && var q := queues[key];
       if GivesUp(q, q.inFlight[id])
         then letter == Some(LetterFor(key, q.inFlight[id])) && queues' == queues[key := Settle(q, id)]
       else letter == None && queues' == queues[key := Requeue(q, id)]
  }

  lemma NotOwnedIsRefused(limits: Limits, w: World, key: QueueKey, id: Id, c: string, letterId: Id, e: Error,
                          queues: map<QueueKey, QueueState>)
    requires LookupError(w, key) == None && RefusedAt(w.queues, key, id, c, e, queues)
    ensures Refusal(limits, w, NAck(key, id, c, letterId)) == Some(e) && queues == w.queues
  {
  }

  lemma OwnedIsTurnedDown(limits: Limits, w: World, key: QueueKey, id: Id, c: string, letterId: Id,
                          letter: Option<DeadLetter>, queues: map<QueueKey, QueueState>)
    requires RejectedAt(w.queues, key, id, c, letter, queues) && letterId !in w.db.letters
    ensures TurnedDown(limits, w, key, id, c, letterId, w.queues[key].durable, letter, queues)
  {
  }

  lemma NAckLeads(limits: Limits, w: World, key: QueueKey, id: Id, c: string, letterId: Id, durable: bool,
                  letter: Option<DeadLetter>, r: Outcome, w': World)
    requires Sound(w) && TurnedDown(limits, w, key, id, c, letterId, durable, letter, w'.queues)
    requires w'.exchanges == w.exchanges
    requires RepliedToRejection(key, durable, id, letter, letterId, w.db, r, w'.db)
    ensures Leads(limits, w, NAck(key, id, c, letterId), r, w') && DbOk(w'.db)
  {
    var call := NAck(key, id, c, letterId);
    RefusedOrAccepted(limits, w, call);
    hide MemoryOk, DbOk, GivesUp;
    assert r != Done ==> Broken(limits, w, call, w');
    assert Leads(limits, w, call, r, w');
    hide *;
    LeadsKeepsSound(limits, w, call, r, w');
    SoundDb(w');
  }

  lemma SoundDb(w: World)
    requires Sound(w)
    ensures DbOk(w.db)
  {
  }

  /** The first half of a disconnect: the consumer is gone and its deliveries are ready again. */
  ghost predicate Departed(limits: Limits, w: World, key: QueueKey, c: string, durable: bool, returned: seq<Delivery>,
                           queues: map<QueueKey, QueueState>) {
    && Accepts(limits, w, DisconnectConsumer(key, c, returned)) && durable == w.queues[key].durable
    && queues == DisconnectIn(w, key, c, returned).queues
  }

  /** The rows of the first `n` of `ds` were released, and if not all of them, then because a statement failed. */
  ghost predicate RepliedToRelease(ds: seq<Delivery>, n: nat, r: Outcome, before: Tables, db: Tables) {
    && n <= |ds| && db == MarkAllReady(before, ds[..n])
    && (r == Done ==> n == |ds|) && (r != Done ==> r == Failed(StorageError) && ds != [])
  }

  lemma DisconnectLeads(limits: Limits, w: World, key: QueueKey, c: string, durable: bool, returned: seq<Delivery>,
                        n: nat, r: Outcome, w': World)
    requires Sound(w) && Departed(limits, w, key, c, durable, returned, w'.queues) && w'.exchanges == w.exchanges
    requires durable ==> RepliedToRelease(returned, n, r, w.db, w'.db)
    requires !durable ==> r == Done && w'.db == w.db
    ensures Leads(limits, w, DisconnectConsumer(key, c, returned), r, w') && DbOk(w'.db)
  {
    var call := DisconnectConsumer(key, c, returned);
    RefusedOrAccepted(limits, w, call);
    hide MemoryOk, DbOk, IsReturnOrder, Owned, Returns;
    assert returned[..|returned|] == returned;
    assert r != Done ==> Broken(limits, w, call, w');
    assert Leads(limits, w, call, r, w');
    hide *;
    LeadsKeepsSound(limits, w, call, r, w');
    SoundDb(w');
  }

  // ---------------------------------------------------------------- publishing

  /** One queue of a publish: served, or its row was not saved, or was saved without a confirmation. */
  ghost predicate Offered(w: World, key: QueueKey, message: Message, mint: Mint, r: Outcome, w': World) {
    && key in w.queues
    && if r == Done then w' == Offer(w, key, message, mint) && (w.queues[key].durable ==> key in w.db.queues)
       else
         && r == Failed(StorageError) && w.queues[key].durable
         && (w' == w || (key in w.db.queues &&
               w' == w.(db := SaveReadyDelivery(w.db, key, Delivery(mint.id, message, "", 0), mint.time))))
  }

  lemma NotOffered(w: World, key: QueueKey, message: Message, mint: Mint, r: Outcome, w': World)
    requires key in w.queues && w.queues[key].durable && r != Done
    requires w' == w.(db := w'.db)
    requires var d := Delivery(mint.id, message, "", 0);
      Replied(r, CanSaveDelivery(w.db, key, d.id), w.db, w'.db, SaveReadyDelivery(w.db, key, d, mint.time))
    ensures Offered(w, key, message, mint, r, w')
  {
    hide SaveReadyDelivery, Offer;
  }

  lemma OfferedAt(w: World, key: QueueKey, message: Message, mint: Mint, db: Tables, w': World)
    requires key in w.queues
    requires var d := Delivery(mint.id, message, "", 0);
      && (if w.queues[key].durable then
            Replied(Done, CanSaveDelivery(w.db, key, d.id), w.db, db, SaveReadyDelivery(w.db, key, d, mint.time))
          else db == w.db)
      && w' == w.(queues := w.queues[key := Enqueue(w.queues[key], d)], db := db)
    ensures Offered(w, key, message, mint, Done, w')
  {
    hide SaveReadyDelivery, Enqueue;
  }

  /** The publish has served the first `n` queues of its route. */
  ghost predicate Reached(w: World, order: seq<QueueKey>, message: Message, mints: seq<Mint>, n: nat, w': World) {
    && n <= |order| <= |mints| && (forall k :: k in order ==> k in w.queues)
    && AdmitsRows(w, order[..n]) && w' == OfferAll(w, order[..n], message, mints)
  }

  lemma StartsReached(w: World, order: seq<QueueKey>, message: Message, mints: seq<Mint>)
    requires |order| <= |mints| && forall k :: k in order ==> k in w.queues
    ensures Reached(w, order, message, mints, 0, w)
  {
  }

  lemma ReachedNext(w: World, order: seq<QueueKey>, message: Message, mints: seq<Mint>, n: nat, w1: World, r: Outcome,
                    w2: World)
    requires Sound(w) && Reached(w, order, message, mints, n, w1) && n < |order|
    requires Offered(w1, order[n], message, mints[n], r, w2)
    ensures r == Done ==> Reached(w, order, message, mints, n + 1, w2)
    ensures r != Done ==> r == Failed(StorageError) && BrokenPublish(w, order, message, mints, n, w2)
  {
    hide Sound, Offer, SaveReadyDelivery;
    OfferedSound(w, order[..n], message, mints);
    assert order[n] in order;
    assert order[..n + 1][..n] == order[..n];
    assert r == Done ==> w2 == OfferAll(w, order[..n + 1], message, mints);
    assert r == Done ==> AdmitsRows(w, order[..n + 1]) by {
      assert forall i :: 0 <= i < n ==> order[..n][i] == order[i];
    }
    hide OfferAll, AdmitsRows;
  }

  lemma RouteFits(queues: map<QueueKey, QueueState>, exchange: string, key: string, order: seq<QueueKey>)
    requires IsRoute(queues, exchange, key, order)
    ensures |order| <= |queues| && forall k :: k in order ==> k in queues
  {
    DistinctCount(order, queues.Keys);
    assert |queues.Keys| == |queues|;
  }

  /** The checks of a publish, in their order. */
  lemma PublishChecks(limits: Limits, w: World, exchange: string, message: Message, mints: seq<Mint>)
    ensures Refusal(limits, w, Publish(exchange, message, [], mints)) ==
      if |message.payload| > limits.maxMessageSize then Some(MessageTooLarge)
      else if |message.routingKey| > limits.maxRoutingKeyLength then Some(RoutingKeyTooLong)
      else if exchange !in w.exchanges then Some(ExchangeNotFound)
      else if !Routing.IsValidKey(message.routingKey) then Some(InvalidRoutingKey)
      else None
  {
    hide Routing.IsValidKey;
  }

  lemma PublishPasses(limits: Limits, w: World, exchange: string, message: Message, order: seq<QueueKey>,
                      mints: seq<Mint>)
    requires Refusal(limits, w, Publish(exchange, message, [], mints)) == None && AreFresh(w, mints)
    requires IsRoute(w.queues, exchange, message.routingKey, order) && |w.queues| <= |mints|
    ensures |order| <= |mints| && Accepts(limits, w, Publish(exchange, message, order, mints))
  {
    RouteFits(w.queues, exchange, message.routingKey, order);
    hide AreFresh, IsRoute, Routing.IsValidKey;
  }

  lemma PublishLeads(limits: Limits, w: World, call: Request, n: nat, r: Outcome, w': World)
    requires Sound(w) && call.Publish? && Accepts(limits, w, call)
    requires r == Done ==> n == |call.order| && Reached(w, call.order, call.message, call.mints, n, w')
    requires r != Done ==> r == Failed(StorageError) && BrokenPublish(w, call.order, call.message, call.mints, n, w')
    ensures Leads(limits, w, call, r, w') && DbOk(w'.db)
  {
    RefusedOrAccepted(limits, w, call);
    assert call.order[..|call.order|] == call.order;
    hide IsRoute, AreFresh, AdmitsRows, BrokenPublish, OfferAll, MemoryOk, DbOk;
    assert r != Done ==> Broken(limits, w, call, w');
    assert Leads(limits, w, call, r, w');
    hide *;
    LeadsKeepsSound(limits, w, call, r, w');
    SoundDb(w');
  }

  // ---------------------------------------------------------------- restoring

  /** Nothing stands in the way of registering these queues one after the other in an empty broker. */
  ghost predicate AreRegistrable(exchanges: set<string>, queues: seq<StoredQueue>) {
    && (forall i, j :: 0 <= i < j < |queues| ==> queues[i].key != queues[j].key)
    && (forall i :: 0 <= i < |queues| ==>
          && queues[i].key.exchange in exchanges
          && Registrable(queues[i].durable, queues[i].autoDelete, queues[i].maxAttempts, queues[i].filters))
  }

  /** What registering a loaded queue does and answers. */
  ghost predicate RegisteredStored(exchanges: set<string>, queues: map<QueueKey, QueueState>, q: StoredQueue,
                                   r: Outcome, queues': map<QueueKey, QueueState>) {
    var error := if q.key.exchange !in exchanges then Some(ExchangeNotFound)
                 else RegistrationError(Existing(queues, q.key), q.durable, q.autoDelete, q.maxAttempts, q.filters);
    match error
    case Some(e) => r == Failed(e) && queues' == queues
    case None => r == Done && queues' == WithQueue(queues, q.key, q.durable, q.autoDelete, q.maxAttempts, q.filters)
  }

  lemma NextIsRegistered(exchanges: set<string>, queues: seq<StoredQueue>, i: nat)
    requires AreRegistrable(exchanges, queues) && i < |queues|
    ensures forall r, queues' ::
      RegisteredStored(exchanges, RegisterAll(queues[..i]), queues[i], r, queues') ==>
        r == Done && queues' == RegisterAll(queues[..i + 1])
  {
    var init, q := queues[..i], queues[i];
    NotYetRegistered(queues, i);
    hide RegisterAll, Routing.IsValidFilter;
    assert RegistrationError(None, q.durable, q.autoDelete, q.maxAttempts, q.filters) == None;
    hide Registrable, RegistrationError, NewQueue;
  }

  lemma NotYetRegistered(queues: seq<StoredQueue>, i: nat)
    requires i < |queues| && forall j, k :: 0 <= j < k < |queues| ==> queues[j].key != queues[k].key
    ensures queues[i].key !in RegisterAll(queues[..i])
    ensures RegisterAll(queues[..i + 1]) == RegisterAll(queues[..i])[queues[i].key := Fresh(queues[i])]
  {
    var init := queues[..i];
    RegisterAllAt(init);
    assert forall j :: 0 <= j < i ==> init[j] == queues[j];
    assert queues[..i + 1][..i] == init;
  }

  ghost predicate AllFound(queues: map<QueueKey, QueueState>, ds: seq<StoredDelivery>) {
    forall i :: 0 <= i < |ds| ==> ds[i].key in queues
  }

  /** The deliveries `ds` were restored and their rows released, up to the `n`-th, where a statement failed or
      a queue was not found. */
  ghost predicate RestoredUpTo(queues: map<QueueKey, QueueState>, ds: seq<StoredDelivery>, n: nat, before: Tables,
                               r: Outcome, queues': map<QueueKey, QueueState>, db: Tables) {
    && n <= |ds| && db == MarkAllReady(before, Deliveries(ds)[..n])
    && (AllFound(queues, ds) ==>
          if r == Done then n == |ds| && queues' == RestoreAll(queues, ds) else r == Failed(StorageError))
  }

  /** What restoring one delivery does and answers. */
  ghost predicate RestoredOne(queues: map<QueueKey, QueueState>, d: StoredDelivery, before: Tables, r: Outcome,
                              queues': map<QueueKey, QueueState>, db: Tables) {
    if d.key in queues then
      && queues' == queues[d.key := RestoreReady(queues[d.key], d.delivery)]
      && Replied(r, true, before, db, MarkReady(before, d.delivery.id))
    else r in [Failed(ExchangeNotFound), Failed(QueueNotFound)] && db == before
  }

  lemma NotRestored(queues: map<QueueKey, QueueState>, d: StoredDelivery, before: Tables, e: Error)
    requires d.key !in queues && e in [ExchangeNotFound, QueueNotFound]
    ensures RestoredOne(queues, d, before, Failed(e), queues, before)
  {
  }

  lemma OneRestored(queues: map<QueueKey, QueueState>, d: StoredDelivery, before: Tables, r: Outcome,
                    queues': map<QueueKey, QueueState>, db: Tables)
    requires d.key in queues && queues' == queues[d.key := RestoreReady(queues[d.key], d.delivery)]
    requires Replied(r, true, before, db, MarkReady(before, d.delivery.id))
    ensures RestoredOne(queues, d, before, r, queues', db)
  {
    hide RestoreReady, MarkReady;
  }

  /** Halfway through the loop. */
  ghost predicate RestoredFirst(queues: map<QueueKey, QueueState>, ds: seq<StoredDelivery>, i: nat, before: Tables,
                                queues': map<QueueKey, QueueState>, db: Tables) {
    && i <= |ds| && db == MarkAllReady(before, Deliveries(ds)[..i])
    && (AllFound(queues, ds) ==> AllFound(queues, ds[..i]) && queues' == RestoreAll(queues, ds[..i]))
  }

  lemma RestoredNext(queues: map<QueueKey, QueueState>, ds: seq<StoredDelivery>, i: nat, before: Tables,
                     queues1: map<QueueKey, QueueState>, db1: Tables, r: Outcome, queues2: map<QueueKey, QueueState>,
                     db2: Tables)
    requires RestoredFirst(queues, ds, i, before, queues1, db1) && i < |ds|
    requires RestoredOne(queues1, ds[i], db1, r, queues2, db2)
    ensures r == Done ==> RestoredFirst(queues, ds, i + 1, before, queues2, db2)
    ensures r != Done ==>
      RestoredUpTo(queues, ds, i, before, r, queues2, db2) || RestoredUpTo(queues, ds, i + 1, before, r, queues2, db2)
  {
    assert ds[..i + 1][..i] == ds[..i];
    assert Deliveries(ds)[..i + 1][..i] == Deliveries(ds)[..i];
    assert Deliveries(ds)[..i + 1][i] == ds[i].delivery;
    hide MarkReady;
  }

  lemma RestoredAll(queues: map<QueueKey, QueueState>, ds: seq<StoredDelivery>, before: Tables,
                    queues': map<QueueKey, QueueState>, db: Tables)
    requires RestoredFirst(queues, ds, |ds|, before, queues', db)
    ensures RestoredUpTo(queues, ds, |ds|, before, Done, queues', db)
  {
    assert ds[..|ds|] == ds;
  }

  /** How a restore from an empty memory ends: with the restored world, or at a failing repository call that
      leaves only some rows marked. */
  ghost predicate Restores(w: World, l: Loaded, n: nat, r: Outcome, w': World) {
    match r
    case Done => IsLoad(w.db, l) && Linked(w.db) && w' == RestoredWorld(w.db, l)
    case Failed(e) =>
      && e == StorageError && n <= |l.deliveries|
      && w'.db == MarkAllReady(w.db, Deliveries(l.deliveries)[..n])
  }

  lemma LoadIsRegistrable(db: Tables, l: Loaded)
    requires DbOk(db) && IsLoad(db, l)
    ensures AreRegistrable(AsSet(l.exchanges), l.queues)
    ensures AllFound(RegisterAll(l.queues), l.deliveries)
  {
    LoadedRegistrable(db, l);
    LoadedDeliveries(db, l);
    LoadedQueues(db, l);
  }

  lemma RestoreConcludes(w: World, l: Loaded, n: nat, r: Outcome, w': World)
    requires DbOk(w.db) && IsLoad(w.db, l) && w'.exchanges == AsSet(l.exchanges)
    requires RestoredUpTo(RegisterAll(l.queues), l.deliveries, n, w.db, r, w'.queues, w'.db)
    ensures Restores(w, l, n, r, w')
  {
    LoadIsRegistrable(w.db, l);
    assert Deliveries(l.deliveries)[..|l.deliveries|] == Deliveries(l.deliveries);
    hide IsLoad, AllFound, MarkAllReady;
  }

  lemma RestoreNotStarted(w: World, w': World)
    requires w'.db == w.db
    ensures Restores(w, Loaded([], [], []), 0, Failed(StorageError), w')
  {
  }

  lemma RestoredDbOk(queues: map<QueueKey, QueueState>, ds: seq<StoredDelivery>, n: nat, before: Tables, r: Outcome,
                     queues': map<QueueKey, QueueState>, db: Tables)
    requires DbOk(before) && RestoredUpTo(queues, ds, n, before, r, queues', db)
    ensures DbOk(db)
  {
    MarkedDbOk(before, Deliveries(ds)[..n]);
  }
}
