/** Every outcome a complete call can have: refused by a check, served, or broken off by a failing
    repository call; and what no sequence of such outcomes, crashes and restarts can break. */
module ServiceFaults {
  import opened Types
  import opened QueueModel
  import opened Tables
  import opened ServiceModel
  import opened ServiceRuns
  import opened RestoreModel
  import Sql = Tables
  import Routing

  // ---------------------------------------------------------------- refusals

  function LookupError(w: World, key: QueueKey): Option<Error> {
    if key.exchange !in w.exchanges then Some(ExchangeNotFound)
    else if key !in w.queues then Some(QueueNotFound)
    else None
  }

  /** The error of the first check that fails, in the order the code makes its checks. */
  ghost function Refusal(limits: Limits, w: World, r: Request): Option<Error> {
    match r
    case CreateExchange(name) => None
    case DeleteExchange(name) =>
      if name !in w.exchanges then Some(ExchangeNotFound)
      else if exists k :: k in w.queues && k.exchange == name && w.queues[k].consumers != {}
        then Some(ExchangeHasConsumers)
      else None
    case RegisterQueue(key, durable, autoDelete, maxAttempts, filters) =>
      if key.exchange !in w.exchanges then Some(ExchangeNotFound)
      else if |filters| > limits.maxQueueFilters then Some(TooManyQueueFilters)
      else RegistrationError(Existing(w.queues, key), durable, autoDelete, maxAttempts, filters)
    case DeleteQueue(key) =>
      if LookupError(w, key).Some? then LookupError(w, key)
      else if w.queues[key].consumers != {} then Some(QueueHasConsumers)
      else None
    case Publish(exchange, message, order, mints) =>
      if |message.payload| > limits.maxMessageSize then Some(MessageTooLarge)
      else if |message.routingKey| > limits.maxRoutingKeyLength then Some(RoutingKeyTooLong)
      else if exchange !in w.exchanges then Some(ExchangeNotFound)
      else if !Routing.IsValidKey(message.routingKey) then Some(InvalidRoutingKey)
      else None
    case Fetch(key, consumer) =>
      if LookupError(w, key).Some? then LookupError(w, key)
      else if !CanFetch(w.queues[key], consumer, limits.maxInFlight)
        then Some(FetchError(w.queues[key], consumer, limits.maxInFlight))
      else None
    case Ack(key, id, consumer) =>
      if LookupError(w, key).Some? then LookupError(w, key)
      else if !Owns(w.queues[key], id, consumer) then Some(OwnerError(w.queues[key], id))
      else None
    case NAck(key, id, consumer, letterId) =>
      if LookupError(w, key).Some? then LookupError(w, key)
      else if !Owns(w.queues[key], id, consumer) then Some(OwnerError(w.queues[key], id))
      else None
    case AddConsumer(key, consumer) => LookupError(w, key)
    case DisconnectConsumer(key, consumer, returned) => LookupError(w, key)
  }

  /** The choices of the environment make sense: routes and return orders are complete, UUIDs are new. */
  ghost predicate SoundChoices(w: World, r: Request) {
    match r
    case Publish(exchange, message, order, mints) =>
      IsRoute(w.queues, exchange, message.routingKey, order) && |order| <= |mints| && AreFresh(w, mints)
    case NAck(key, id, consumer, letterId) => letterId !in w.db.letters
    case DisconnectConsumer(key, consumer, returned) =>
      key in w.queues ==> IsReturnOrder(w.queues[key], consumer, returned)
    case _ => true
  }

  /** Every queue in memory passed the registration checks and belongs to an exchange in memory. */
  ghost predicate MemoryOk(w: World) {
    forall k :: k in w.queues ==>
      var q := w.queues[k];
      k.exchange in w.exchanges && q.name == k.name && Registrable(q.durable, q.autoDelete, q.maxAttempts, q.filters)
  }

  /** A call is accepted exactly when no check refuses it. */
  lemma RefusedOrAccepted(limits: Limits, w: World, r: Request)
    requires MemoryOk(w) && SoundChoices(w, r)
    ensures Accepts(limits, w, r) <==> Refusal(limits, w, r) == None
  {
    hide Returns, AreFresh, IsRoute;
  }

  // ---------------------------------------------------------------- broken off

  /** The statements of an accepted call meet the constraints of the schema. */
  ghost predicate Admits(w: World, r: Request) {
    match r
    case RegisterQueue(key, durable, autoDelete, maxAttempts, filters) => durable ==> key.exchange in w.db.exchanges
    case Publish(exchange, message, order, mints) => AdmitsRows(w, order)
    case Fetch(key, consumer) =>
      key in w.queues && w.queues[key].durable && w.queues[key].ready != [] ==>
        w.queues[key].ready[0].id in w.db.deliveries
    case NAck(key, id, consumer, letterId) =>
      key in w.queues && id in w.queues[key].inFlight && GivesUp(w.queues[key], w.queues[key].inFlight[id]) ==>
        key.exchange in w.db.exchanges
    case _ => true
  }

  ghost predicate AdmitsRows(w: World, order: seq<QueueKey>) {
    forall i :: 0 <= i < |order| && order[i] in w.queues && w.queues[order[i]].durable ==> order[i] in w.db.queues
  }

  /** The call reaches the repository: it concerns exchanges, a durable queue or a dead letter. */
  ghost predicate CallsRepository(w: World, r: Request) {
    match r
    case RegisterQueue(key, durable, autoDelete, maxAttempts, filters) => durable
    case DeleteQueue(key) => key in w.queues && w.queues[key].durable
    case Fetch(key, consumer) => key in w.queues && w.queues[key].durable
    case Ack(key, id, consumer) => key in w.queues && w.queues[key].durable
    case NAck(key, id, consumer, letterId) =>
      && key in w.queues && id in w.queues[key].inFlight
      && (w.queues[key].durable || GivesUp(w.queues[key], w.queues[key].inFlight[id]))
    case AddConsumer(key, consumer) => false
    case DisconnectConsumer(key, consumer, returned) => key in w.queues && w.queues[key].durable && returned != []
    case _ => true
  }

  /** Only the first `n` queues were reached; the next one may have got its row, but not its delivery. */
  ghost predicate BrokenPublish(w: World, order: seq<QueueKey>, message: Message, mints: seq<Mint>, n: nat, w': World)
    requires |order| <= |mints| && forall k :: k in order ==> k in w.queues
  {
    && n < |order| && w.queues[order[n]].durable && AdmitsRows(w, order[..n])
    && var reached := OfferAll(w, order[..n], message, mints);
       || w' == reached
       || (order[n] in w.db.queues &&
             w' == reached.(db :=
               SaveReadyDelivery(reached.db, order[n], Delivery(mints[n].id, message, "", 0), mints[n].time)))
  }

  /** What a failing repository call leaves behind: the memory of the served call in every case but Publish,
      which stops; and a database that has seen some of the call's statements, in order. */
  ghost predicate Broken(limits: Limits, w: World, r: Request, w': World)
    requires Accepts(limits, w, r)
  {
    match r
    case Publish(exchange, message, order, mints) =>
      exists n: nat :: BrokenPublish(w, order, message, mints, n, w')
    case NAck(key, id, consumer, letterId) =>
      || w' == Serve(limits, w, r).(db := w.db)
      || (w.queues[key].durable && GivesUp(w.queues[key], w.queues[key].inFlight[id]) &&
            w' == Serve(limits, w, r).(db := DeleteDelivery(w.db, id)))
      || (Admits(w, r) && w' == Serve(limits, w, r))
    case DisconnectConsumer(key, consumer, returned) =>
      exists n: nat :: n <= |returned| && w' == Serve(limits, w, r).(db := MarkAllReady(w.db, returned[..n]))
    case _ => w' == Serve(limits, w, r).(db := w.db) || (Admits(w, r) && w' == Serve(limits, w, r))
  }

  /** Every way a call can end. */
  ghost predicate Leads(limits: Limits, w: World, r: Request, outcome: Outcome, w': World) {
    match Refusal(limits, w, r)
    case Some(e) => outcome == Failed(e) && w' == w
    case None =>
      && Accepts(limits, w, r)
      && match outcome
         case Done => Admits(w, r) && w' == Serve(limits, w, r)
         case Failed(e) =>
           && (e == StorageError || (e == DeliveryNotFound && r.Fetch? && !Admits(w, r)))
           && CallsRepository(w, r) && Broken(limits, w, r, w')
  }

  // ---------------------------------------------------------------- what always holds

  /** The constraints of the schema, and that only durable, permanent, well-formed queues were ever stored. */
  ghost predicate DbOk(db: Tables) {
    && Linked(db)
    && (forall k :: k in db.queues ==>
         db.queues[k].durable && !db.queues[k].autoDelete && db.queues[k].maxAttempts >= 0)
    && (forall f :: f in db.filters ==> f.0 in db.queues && Routing.IsValidFilter(f.1))
  }

  ghost predicate Sound(w: World) {
    MemoryOk(w) && DbOk(w.db)
  }

  lemma {:induction false} MarkedDbOk(db: Tables, ds: seq<Delivery>)
    requires DbOk(db)
    ensures DbOk(MarkAllReady(db, ds))
  {
    if ds != [] { MarkedDbOk(db, ds[..|ds| - 1]); }
  }

  /** Queues and exchanges are the same, and each queue is as durable as it was. */
  ghost predicate SameTopology(w: World, w': World) {
    && w'.db.queues == w.db.queues && w'.exchanges == w.exchanges && w'.queues.Keys == w.queues.Keys
    && forall k :: k in w.queues ==> w'.queues[k].durable == w.queues[k].durable
  }

  lemma OfferSound(w: World, key: QueueKey, message: Message, mint: Mint)
    requires Sound(w) && key in w.queues && (w.queues[key].durable ==> key in w.db.queues)
    ensures Sound(Offer(w, key, message, mint)) && SameTopology(w, Offer(w, key, message, mint))
  {
    hide Routing.IsValidFilter;
  }

  lemma {:induction false} OfferedSound(w: World, order: seq<QueueKey>, message: Message, mints: seq<Mint>)
    requires Sound(w) && |order| <= |mints| && (forall k :: k in order ==> k in w.queues) && AdmitsRows(w, order)
    ensures Sound(OfferAll(w, order, message, mints)) && SameTopology(w, OfferAll(w, order, message, mints))
  {
    hide Sound, Offer, AdmitsRows, SameTopology;
    if order == [] {
      SameTopologyAsItself(w);
    } else {
      var n := |order| - 1;
      var init := order[..n];
      AdmitsPrefix(w, order, n);
      OfferedSound(w, init, message, mints);
      var w1 := OfferAll(w, init, message, mints);
      SameAdmission(w, w1, order[n]);
      OfferSound(w1, order[n], message, mints[n]);
      SameTopologyTwice(w, w1, Offer(w1, order[n], message, mints[n]));
    }
  }

  lemma SameTopologyAsItself(w: World)
    ensures SameTopology(w, w)
  {
  }

  lemma SameTopologyTwice(w: World, w1: World, w2: World)
    requires SameTopology(w, w1) && SameTopology(w1, w2)
    ensures SameTopology(w, w2)
  {
  }

  lemma SameAdmission(w: World, w': World, key: QueueKey)
    requires SameTopology(w, w') && key in w.queues && (w.queues[key].durable ==> key in w.db.queues)
    ensures key in w'.queues && (w'.queues[key].durable ==> key in w'.db.queues)
  {
  }

  lemma AdmitsPrefix(w: World, order: seq<QueueKey>, n: nat)
    requires AdmitsRows(w, order) && n < |order| && forall k :: k in order ==> k in w.queues
    ensures AdmitsRows(w, order[..n]) && (forall k :: k in order[..n] ==> k in w.queues)
    ensures order[n] in w.queues && (w.queues[order[n]].durable ==> order[n] in w.db.queues)
  {
    assert forall i :: 0 <= i < n ==> order[..n][i] == order[i];
    assert order[n] in order;
  }

  lemma SavedQueueDbOk(db: Tables, key: QueueKey, q: QueueState)
    requires DbOk(db) && key.exchange in db.exchanges && q.durable
    requires Registrable(q.durable, q.autoDelete, q.maxAttempts, q.filters)
    ensures DbOk(SaveQueue(db, key, RowOf(q), q.filters))
  {
    hide Routing.IsValidFilter;
  }

  lemma DeletionsDbOk(db: Tables, name: string, key: QueueKey, id: Id)
    requires DbOk(db)
    ensures DbOk(Sql.DeleteExchange(db, name)) && DbOk(Sql.DeleteQueue(db, key)) && DbOk(DeleteDelivery(db, id))
  {
    hide Routing.IsValidFilter;
  }

  /** Marking rows and adding exchanges or letters touches no constraint. */
  lemma UpdatesDbOk(db: Tables, name: string, id: Id, consumer: string, attempts: nat, letter: DeadLetter)
    requires DbOk(db)
    ensures DbOk(SaveExchange(db, name)) && DbOk(MarkInFlight(db, id, consumer, attempts)) && DbOk(MarkReady(db, id))
    ensures DbOk(SaveDeadLetter(db, name, id, letter))
  {
    hide Routing.IsValidFilter;
  }

  lemma SavedDeliveryDbOk(db: Tables, key: QueueKey, d: Delivery, time: nat)
    requires DbOk(db)
    ensures CanSaveDelivery(db, key, d.id) ==> DbOk(SaveReadyDelivery(db, key, d, time))
  {
    hide Routing.IsValidFilter;
  }

  lemma NAckDbOk(w: World, key: QueueKey, id: Id, letterId: Id)
    requires DbOk(w.db) && key in w.queues && id in w.queues[key].inFlight
    ensures DbOk(NAckIn(w, key, id, letterId).db)
  {
    var letter := LetterFor(key, w.queues[key].inFlight[id]);
    DeletionsDbOk(w.db, "", key, id);
    UpdatesDbOk(w.db, key.exchange, letterId, "", 0, letter);
    UpdatesDbOk(DeleteDelivery(w.db, id), key.exchange, letterId, "", 0, letter);
    UpdatesDbOk(w.db, "", id, "", 0, letter);
    hide DbOk;
  }

  lemma ServedSound(limits: Limits, w: World, r: Request)
    requires Sound(w) && Accepts(limits, w, r) && Admits(w, r) && !r.Publish? && !r.DisconnectConsumer?
    ensures Sound(Serve(limits, w, r))
  {
    ServedMemory(limits, w, r);
    var letter := DeadLetter(Message([], ""), "", 0);
    match r
    case CreateExchange(name) => UpdatesDbOk(w.db, name, 0, "", 0, letter);
    case DeleteExchange(name) => DeletionsDbOk(w.db, name, QueueKey("", ""), 0);
    case RegisterQueue(key, durable, autoDelete, maxAttempts, filters) =>
      var q := RegisterQueueIn(w, key, durable, autoDelete, maxAttempts, filters).queues[key];
      if durable { SavedQueueDbOk(w.db, key, q); }
    case DeleteQueue(key) => DeletionsDbOk(w.db, "", key, 0);
    case Fetch(key, consumer) =>
      var d := Taken(w.queues[key], consumer);
      UpdatesDbOk(w.db, "", d.id, consumer, d.attempts, letter);
    case Ack(key, id, consumer) => DeletionsDbOk(w.db, "", key, id);
    case NAck(key, id, consumer, letterId) => NAckDbOk(w, key, id, letterId);
    case AddConsumer(key, consumer) =>
  }

  /** Memory is sound whatever became of the database. */
  lemma ServedMemory(limits: Limits, w: World, r: Request)
    requires MemoryOk(w) && Accepts(limits, w, r) && !r.Publish?
    ensures MemoryOk(Serve(limits, w, r))
  {
    hide Returns, AreFresh, IsRoute, Routing.IsValidFilter;
  }

  lemma BrokenPublishSound(w: World, order: seq<QueueKey>, message: Message, mints: seq<Mint>, n: nat, w': World)
    requires Sound(w) && |order| <= |mints| && forall k :: k in order ==> k in w.queues
    requires BrokenPublish(w, order, message, mints, n, w')
    ensures Sound(w')
  {
    OfferedSound(w, order[..n], message, mints);
  }

  lemma BrokenNAckSound(limits: Limits, w: World, r: Request, w': World)
    requires r.NAck? && Sound(w) && Accepts(limits, w, r) && Broken(limits, w, r, w')
    ensures Sound(w')
  {
    hide Serve, DbOk, Registrable, Accepts, Admits;
    ServedMemory(limits, w, r);
    DeletionsDbOk(w.db, "", r.key, r.id);
    if Admits(w, r) { ServedSound(limits, w, r); }
  }

  lemma BrokenDisconnectSound(limits: Limits, w: World, r: Request, w': World)
    requires r.DisconnectConsumer? && Sound(w) && Accepts(limits, w, r) && Broken(limits, w, r, w')
    ensures Sound(w')
  {
    hide Serve, DbOk, Registrable, Accepts, Admits, MarkAllReady;
    ServedMemory(limits, w, r);
    var n: nat :| n <= |r.returned| && w' == Serve(limits, w, r).(db := MarkAllReady(w.db, r.returned[..n]));
    MarkedDbOk(w.db, r.returned[..n]);
  }

  lemma BrokenOtherSound(limits: Limits, w: World, r: Request, w': World)
    requires !r.Publish? && !r.NAck? && !r.DisconnectConsumer?
    requires Sound(w) && Accepts(limits, w, r) && Broken(limits, w, r, w')
    ensures Sound(w')
  {
    hide Serve, DbOk, Registrable, Accepts, Admits;
    ServedMemory(limits, w, r);
    if Admits(w, r) { ServedSound(limits, w, r); }
  }

  lemma BrokenSound(limits: Limits, w: World, r: Request, w': World)
    requires Sound(w) && Accepts(limits, w, r) && Broken(limits, w, r, w')
    ensures Sound(w')
  {
    match r
    case Publish(exchange, message, order, mints) =>
      var n: nat :| BrokenPublish(w, order, message, mints, n, w');
      hide *;
      BrokenPublishSound(w, order, message, mints, n, w');
    case NAck(key, id, consumer, letterId) =>
      hide *;
      BrokenNAckSound(limits, w, r, w');
    case DisconnectConsumer(key, consumer, returned) =>
      hide *;
      BrokenDisconnectSound(limits, w, r, w');
    case _ =>
      hide *;
      BrokenOtherSound(limits, w, r, w');
  }

  /** However a call ends, memory and database stay sound. */
  lemma LeadsKeepsSound(limits: Limits, w: World, r: Request, outcome: Outcome, w': World)
    requires Sound(w) && Leads(limits, w, r, outcome, w')
    ensures Sound(w')
  {
    if Refusal(limits, w, r) == None {
      if outcome.Failed? {
        BrokenSound(limits, w, r, w');
      } else if r.Publish? {
        OfferedSound(w, r.order, r.message, r.mints);
      } else if r.DisconnectConsumer? {
        ServedMemory(limits, w, r);
        MarkedDbOk(w.db, r.returned);
      } else {
        ServedSound(limits, w, r);
      }
    }
  }

  // ---------------------------------------------------------------- restarts

  function Deliveries(ds: seq<StoredDelivery>): seq<Delivery> {
    seq(|ds|, i requires 0 <= i < |ds| => ds[i].delivery)
  }

  /** What Restore makes of an empty memory and a database: the rebuilt queues, and every row marked ready. */
  ghost function RestoredWorld(db: Tables, l: Loaded): World
    requires IsLoad(db, l) && Linked(db)
  {
    World(AsSet(l.exchanges), Rebuilt(db, l), MarkAllReady(db, Deliveries(l.deliveries)))
  }

  lemma LoadedRegistrable(db: Tables, l: Loaded)
    requires IsLoad(db, l) && DbOk(db)
    ensures forall i :: 0 <= i < |l.queues| ==>
      var q := l.queues[i];
      q.key.exchange in AsSet(l.exchanges) && Registrable(q.durable, q.autoDelete, q.maxAttempts, q.filters)
  {
    forall i | 0 <= i < |l.queues|
      ensures var q := l.queues[i];
        q.key.exchange in AsSet(l.exchanges) && Registrable(q.durable, q.autoDelete, q.maxAttempts, q.filters)
    {
      var q := l.queues[i];
      assert IsStoredQueue(db, q);
      forall j | 0 <= j < |q.filters| ensures Routing.IsValidFilter(q.filters[j]) {
        assert q.filters[j] in AsSet(q.filters);
        assert (q.key, q.filters[j]) in db.filters;
      }
    }
  }

  lemma AllReleased(db: Tables, ds: seq<StoredDelivery>)
    requires IsDeliveryLoad(db, ds)
    ensures var db' := MarkAllReady(db, Deliveries(ds));
      && db' == db.(deliveries := db'.deliveries) && db'.deliveries.Keys == db.deliveries.Keys
      && forall id :: id in db.deliveries ==> db'.deliveries[id] == Released(db.deliveries[id])
  {
    MarkedReady(db, Deliveries(ds));
    hide MarkAllReady;
    var order :| IsDeliveryOrder(db, order) && ReadsRows(db, order, ds);
    forall id | id in db.deliveries ensures exists i :: 0 <= i < |ds| && Deliveries(ds)[i].id == id {
      assert id in order;
      var i :| 0 <= i < |order| && order[i] == id;
      assert Deliveries(ds)[i].id == id;
    }
  }

  lemma RestoredStored(db: Tables, l: Loaded, key: QueueKey)
    requires IsLoad(db, l) && Linked(db) && key in db.queues
    ensures key in Rebuilt(db, l) && Stored(RestoredWorld(db, l).db, key, Rebuilt(db, l)[key])
  {
    RebuiltQueue(db, l, key);
    AllReleased(db, l.deliveries);
    var db', q := RestoredWorld(db, l).db, Rebuilt(db, l)[key];
    hide Rebuilt, IsLoad, Linked, WellFormed, Live, MarkAllReady, Select;
    LoadedIsStored(db, db', key, q);
  }

  /** A queue that holds just what was loaded for it is stored, once its rows are released. */
  lemma LoadedIsStored(db: Tables, db': Tables, key: QueueKey, q: QueueState)
    requires key in db.queues && RowOf(q) == db.queues[key] && AsSet(q.filters) == FiltersOf(db, key)
    requires q.inFlight == map[]
    requires Live(q) ==
      map id | id in db.deliveries && db.deliveries[id].queue == key :: LoadedDelivery(id, db.deliveries[id])
    requires db' == db.(deliveries := db'.deliveries) && db'.deliveries.Keys == db.deliveries.Keys
    requires forall id :: id in db.deliveries ==> db'.deliveries[id] == Released(db.deliveries[id])
    ensures Stored(db', key, q)
  {
    hide Live;
    assert FiltersOf(db', key) == FiltersOf(db, key);
    forall id | id in Live(q) ensures id in db'.deliveries && Mirrors(db'.deliveries[id], key, q, id) {}
  }

  /** Restoring any sound database gives a memory and a database that agree, however the two had come apart. */
  lemma RestoreAgrees(db: Tables, l: Loaded)
    requires DbOk(db) && IsLoad(db, l)
    ensures Agree(RestoredWorld(db, l))
  {
    var w := RestoredWorld(db, l);
    AllReleased(db, l.deliveries);
    LoadedQueues(db, l);
    forall k | k in w.queues ensures QueueAgrees(w, k, w.queues[k]) && w.queues[k].durable {
      RestoredStored(db, l, k);
      RebuiltQueue(db, l, k);
      RebuiltRegistrable(db, l, k);
    }
  }

  lemma RebuiltRegistrable(db: Tables, l: Loaded, key: QueueKey)
    requires DbOk(db) && IsLoad(db, l) && key in db.queues
    ensures key in Rebuilt(db, l)
    ensures var q := Rebuilt(db, l)[key]; q.durable && Registrable(q.durable, q.autoDelete, q.maxAttempts, q.filters)
  {
    RebuiltQueue(db, l, key);
    var q := Rebuilt(db, l)[key];
    hide Rebuilt, IsLoad, WellFormed, Live, Select, Routing.IsValidFilter;
    forall j | 0 <= j < |q.filters| ensures Routing.IsValidFilter(q.filters[j]) {
      assert q.filters[j] in FiltersOf(db, key);
    }
  }

  // ---------------------------------------------------------------- runs with failures and crashes

  datatype Event =
    | Called(request: Request, outcome: Outcome)
    | Crashed(marked: seq<Delivery>)
    | Restored(loaded: Loaded)

  /** A crash empties memory; if it strikes during a restore, some rows have been marked ready by then. */
  ghost predicate Follows(limits: Limits, w: World, e: Event, w': World) {
    match e
    case Called(r, outcome) => Leads(limits, w, r, outcome, w')
    case Crashed(marked) => w' == World({}, map[], MarkAllReady(w.db, marked))
    case Restored(l) =>
      w.exchanges == {} && w.queues == map[] && IsLoad(w.db, l) && Linked(w.db) && w' == RestoredWorld(w.db, l)
  }

  /** A sequential run in which any repository call may fail and the process may crash and restart at any time. */
  ghost predicate IsFaultyRun(limits: Limits, worlds: seq<World>, events: seq<Event>) {
    && |worlds| == |events| + 1 && Empty(worlds[0])
    && forall i :: 0 <= i < |events| ==> Follows(limits, worlds[i], events[i], worlds[i + 1])
  }

  lemma FollowsKeepsSound(limits: Limits, w: World, e: Event, w': World)
    requires Sound(w) && Follows(limits, w, e, w')
    ensures Sound(w')
  {
    match e
    case Called(r, outcome) => LeadsKeepsSound(limits, w, r, outcome, w');
    case Crashed(marked) => MarkedDbOk(w.db, marked);
    case Restored(l) =>
      MarkedDbOk(w.db, Deliveries(l.deliveries));
      RestoreAgrees(w.db, l);
      forall k | k in w'.queues ensures QueueAgrees(w', k, w'.queues[k]) {}
      hide Rebuilt, Live, WellFormed, Stored, IsLoad;
  }

  lemma {:induction false} FaultyRunIsSound(limits: Limits, worlds: seq<World>, events: seq<Event>, i: nat)
    requires IsFaultyRun(limits, worlds, events) && i < |worlds|
    ensures Sound(worlds[i])
  {
    hide Follows;
    if i > 0 {
      hide Sound;
      FaultyRunIsSound(limits, worlds, events, i - 1);
      FollowsKeepsSound(limits, worlds[i - 1], events[i - 1], worlds[i]);
    }
  }

  /** Restoring from a sound store always succeeds: every exchange and queue it names is found, no queue is
      registered twice, no registration is turned down, and the restored memory agrees with the store. */
  lemma SoundIsRestorable(db: Tables, l: Loaded)
    requires DbOk(db) && IsLoad(db, l)
    ensures forall a, b :: 0 <= a < b < |l.queues| ==> l.queues[a].key != l.queues[b].key
    ensures forall a :: 0 <= a < |l.queues| ==>
      var q := l.queues[a];
      q.key.exchange in l.exchanges
        && RegistrationError(None, q.durable, q.autoDelete, q.maxAttempts, q.filters) == None
    ensures forall d :: 0 <= d < |l.deliveries| ==>
      exists a :: 0 <= a < |l.queues| && l.queues[a].key == l.deliveries[d].key
    ensures Linked(db) && Agree(RestoredWorld(db, l))
  {
    LoadedRegistrable(db, l);
    LoadedDeliveries(db, l);
    RestoreAgrees(db, l);
    hide Agree, Registrable, DbOk;
  }

  /** Hence no check of Restore can fail, whatever calls, failures and crashes came before. */
  lemma RestoreIsTotal(limits: Limits, worlds: seq<World>, events: seq<Event>, i: nat, l: Loaded)
    requires IsFaultyRun(limits, worlds, events) && i < |worlds| && IsLoad(worlds[i].db, l)
    ensures forall a, b :: 0 <= a < b < |l.queues| ==> l.queues[a].key != l.queues[b].key
    ensures forall a :: 0 <= a < |l.queues| ==>
      var q := l.queues[a];
      q.key.exchange in l.exchanges
        && RegistrationError(None, q.durable, q.autoDelete, q.maxAttempts, q.filters) == None
    ensures forall d :: 0 <= d < |l.deliveries| ==>
      exists a :: 0 <= a < |l.queues| && l.queues[a].key == l.deliveries[d].key
    ensures Linked(worlds[i].db) && Agree(RestoredWorld(worlds[i].db, l))
  {
    FaultyRunIsSound(limits, worlds, events, i);
    hide IsFaultyRun, Agree, Registrable, DbOk, IsLoad;
    SoundIsRestorable(worlds[i].db, l);
  }

  // ---------------------------------------------------------------- fan-out

  /** A publish is meant for queue `k`. */
  ghost predicate Wanted(w: World, r: Request, k: QueueKey)
    requires r.Publish? && k in w.queues
  {
    k.exchange == r.exchange && Routing.MatchesAny(w.queues[k].filters, r.message.routingKey)
  }

  /** Queue `k` got one delivery of the message, with a UUID that no other queue got. */
  ghost predicate GotOne(w: World, r: Request, k: QueueKey, w': World)
    requires r.Publish? && k in w.queues && k in w'.queues
  {
    exists i :: 0 <= i < |r.order| <= |r.mints| && r.order[i] == k
      && w'.queues[k] == Enqueue(w.queues[k], Minted(r.message, r.mints[i]))
  }

  lemma RouteIsWanted(limits: Limits, w: World, r: Request)
    requires r.Publish? && Accepts(limits, w, r)
    ensures |r.order| <= |r.mints| && (forall i, j :: 0 <= i < j < |r.order| ==> r.order[i] != r.order[j])
    ensures forall k :: k in r.order <==> k in w.queues && Wanted(w, r, k)
  {
    hide AreFresh;
  }

  lemma PrefixFanOut(limits: Limits, w: World, r: Request, n: nat, w': World)
    requires r.Publish? && Accepts(limits, w, r) && n <= |r.order|
    requires w'.queues == OfferAll(w, r.order[..n], r.message, r.mints).queues
    ensures w'.queues.Keys == w.queues.Keys
    ensures forall k :: k in w.queues ==>
      if k in r.order[..n] then Wanted(w, r, k) && GotOne(w, r, k, w') else w'.queues[k] == w.queues[k]
  {
    hide OfferAll, Enqueue, Accepts, Wanted;
    var init := r.order[..n];
    RouteIsWanted(limits, w, r);
    QueuesFanOutAll(w, init, r.message, r.mints);
    forall k | k in init ensures k in r.order && GotOne(w, r, k, w') {
      var i :| 0 <= i < n && init[i] == k;
      assert r.order[i] == k;
    }
  }

  /** Exact fan-out: a publish that succeeds gives one delivery to each queue with a matching filter, however
      many of its filters match, and changes no other queue; one that fails does so for some of them, and gives
      none more than one. */
  lemma ExactFanOut(limits: Limits, w: World, r: Request, outcome: Outcome, w': World)
    requires r.Publish? && Leads(limits, w, r, outcome, w')
    ensures w'.queues.Keys == w.queues.Keys
    ensures outcome == Done ==>
      forall k :: k in w.queues ==> if Wanted(w, r, k) then GotOne(w, r, k, w') else w'.queues[k] == w.queues[k]
    ensures outcome != Done ==>
      forall k :: k in w.queues ==> w'.queues[k] == w.queues[k] || (Wanted(w, r, k) && GotOne(w, r, k, w'))
  {
    hide AreFresh, OfferAll, Routing.MatchesAny, AdmitsRows, IsRoute, Wanted;
    if Refusal(limits, w, r) == None {
      RouteIsWanted(limits, w, r);
      if outcome == Done {
        assert r.order[..|r.order|] == r.order;
        PrefixFanOut(limits, w, r, |r.order|, w');
      } else {
        var n: nat :| BrokenPublish(w, r.order, r.message, r.mints, n, w');
        PrefixFanOut(limits, w, r, n, w');
      }
    }
  }
}
