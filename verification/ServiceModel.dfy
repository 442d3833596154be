/** The service as a sequence of complete calls: what each call does to memory and to the
    database when nothing fails, and what the two have to do with each other over a whole run. */
module ServiceModel {
  import opened Types
  import opened QueueModel
  import opened Tables
  import Sql = Tables
  import Routing

  datatype Limits = Limits(maxMessageSize: int, maxRoutingKeyLength: int, maxQueueFilters: int, maxInFlight: int)

  /** Memory (the exchanges and their queues) and the database. */
  datatype World = World(exchanges: set<string>, queues: map<QueueKey, QueueState>, db: Tables)

  /** A UUID the service draws, and the time the database stamps on the row saved with it. */
  datatype Mint = Mint(id: Id, time: nat)

  /** A call, together with the choices its environment makes: UUIDs, clock, map iteration order. */
  datatype Request =
    | CreateExchange(name: string)
    | DeleteExchange(name: string)
    | RegisterQueue(key: QueueKey, durable: bool, autoDelete: bool, maxAttempts: int, filters: seq<string>)
    | DeleteQueue(key: QueueKey)
    | Publish(exchange: string, message: Message, order: seq<QueueKey>, mints: seq<Mint>)
    | Fetch(key: QueueKey, consumer: string)
    | Ack(key: QueueKey, id: Id, consumer: string)
    | NAck(key: QueueKey, id: Id, consumer: string, letterId: Id)
    | AddConsumer(key: QueueKey, consumer: string)
    | DisconnectConsumer(key: QueueKey, consumer: string, returned: seq<Delivery>)

  // ---------------------------------------------------------------- pieces of calls

  /** What a registered queue satisfies, whatever happened since. */
  predicate Registrable(durable: bool, autoDelete: bool, maxAttempts: int, filters: seq<string>) {
    && !(durable && autoDelete) && maxAttempts >= 0
    && forall i :: 0 <= i < |filters| ==> Routing.IsValidFilter(filters[i])
  }

  /** How the code compares filter lists: equal length and one inclusion. */
  predicate SameFilters(a: seq<string>, b: seq<string>) {
    |a| == |b| && forall i :: 0 <= i < |a| ==> a[i] in b
  }

  predicate SameRegistration(q: QueueState, durable: bool, autoDelete: bool, maxAttempts: int, filters: seq<string>) {
    q.durable == durable && q.autoDelete == autoDelete && q.maxAttempts == maxAttempts
      && SameFilters(q.filters, filters)
  }

  /** Why a registration is turned down, if it is: the first check that fails. */
  function RegistrationError(existing: Option<QueueState>, durable: bool, autoDelete: bool, maxAttempts: int,
                             filters: seq<string>): Option<Error> {
    match existing
    case Some(q) =>
      if SameRegistration(q, durable, autoDelete, maxAttempts, filters) then None else Some(QueueAlreadyExist)
    case None =>
      if durable && autoDelete then Some(QueueFlagsConflict)
      else if maxAttempts < 0 then Some(MaxAttemptsIncorrect)
      else if !Registrable(durable, autoDelete, maxAttempts, filters) then Some(FiltersIncorrect)
      else None
  }

  function Existing(queues: map<QueueKey, QueueState>, key: QueueKey): Option<QueueState> {
    if key in queues then Some(queues[key]) else None
  }

  /** The queues after an accepted registration: an existing queue stays as it is. */
  function WithQueue(queues: map<QueueKey, QueueState>, key: QueueKey, durable: bool, autoDelete: bool,
                     maxAttempts: int, filters: seq<string>): map<QueueKey, QueueState> {
    queues[key := if key in queues then queues[key] else NewQueue(key.name, durable, autoDelete, maxAttempts, filters)]
  }

  function RowOf(q: QueueState): QueueRow {
    QueueRow(q.durable, q.autoDelete, q.maxAttempts)
  }

  /** One delivery for one queue: stored first if the queue is durable. */
  function Offer(w: World, k: QueueKey, message: Message, mint: Mint): World
    requires k in w.queues
  {
    var d := Delivery(mint.id, message, "", 0);
    w.(queues := w.queues[k := Enqueue(w.queues[k], d)],
       db := if w.queues[k].durable then SaveReadyDelivery(w.db, k, d, mint.time) else w.db)
  }

  function OfferAll(w: World, order: seq<QueueKey>, message: Message, mints: seq<Mint>): (w': World)
    requires |order| <= |mints| && forall k :: k in order ==> k in w.queues
    ensures w'.queues.Keys == w.queues.Keys
  {
    if order == [] then w
    else
      var n := |order| - 1;
      Offer(OfferAll(w, order[..n], message, mints), order[n], message, mints[n])
  }

  ghost predicate AreFresh(w: World, mints: seq<Mint>) {
    && (forall i, j :: 0 <= i < j < |mints| ==> mints[i].id != mints[j].id)
    && (forall i, k :: 0 <= i < |mints| && k in w.queues ==> mints[i].id !in Live(w.queues[k]))
    && (forall i :: 0 <= i < |mints| ==> mints[i].id !in w.db.deliveries)
  }

  function MarkAllReady(db: Tables, ds: seq<Delivery>): Tables {
    if ds == [] then db else MarkReady(MarkAllReady(db, ds[..|ds| - 1]), ds[|ds| - 1].id)
  }

  // ---------------------------------------------------------------- calls

  /** The call gets through all its checks. */
  ghost predicate Accepts(limits: Limits, w: World, r: Request) {
    match r
    case CreateExchange(name) => true
    case DeleteExchange(name) =>
      name in w.exchanges && forall k :: k in w.queues && k.exchange == name ==> w.queues[k].consumers == {}
    case RegisterQueue(key, durable, autoDelete, maxAttempts, filters) =>
      && key.exchange in w.exchanges && |filters| <= limits.maxQueueFilters
      && (if key in w.queues then SameRegistration(w.queues[key], durable, autoDelete, maxAttempts, filters)
          else Registrable(durable, autoDelete, maxAttempts, filters))
    case DeleteQueue(key) => key in w.queues && w.queues[key].consumers == {}
    case Publish(exchange, message, order, mints) =>
      && |message.payload| <= limits.maxMessageSize && |message.routingKey| <= limits.maxRoutingKeyLength
      && exchange in w.exchanges && Routing.IsValidKey(message.routingKey)
      && IsRoute(w.queues, exchange, message.routingKey, order)
      && |order| <= |mints| && AreFresh(w, mints)
    case Fetch(key, consumer) => key in w.queues && CanFetch(w.queues[key], consumer, limits.maxInFlight)
    case Ack(key, id, consumer) => key in w.queues && Owns(w.queues[key], id, consumer)
    case NAck(key, id, consumer, letterId) =>
      key in w.queues && Owns(w.queues[key], id, consumer) && letterId !in w.db.letters
    case AddConsumer(key, consumer) => key in w.queues
    case DisconnectConsumer(key, consumer, returned) =>
      key in w.queues && IsReturnOrder(w.queues[key], consumer, returned)
  }

  function CreateExchangeIn(w: World, name: string): World {
    w.(exchanges := w.exchanges + {name}, db := SaveExchange(w.db, name))
  }

  function DeleteExchangeIn(w: World, name: string): World {
    World(w.exchanges - {name}, map k | k in w.queues && k.exchange != name :: w.queues[k],
          Sql.DeleteExchange(w.db, name))
  }

  function RegisterQueueIn(w: World, key: QueueKey, durable: bool, autoDelete: bool, maxAttempts: int,
                           filters: seq<string>): World {
    var queues := WithQueue(w.queues, key, durable, autoDelete, maxAttempts, filters);
    var q := queues[key];
    w.(queues := queues, db := if q.durable then SaveQueue(w.db, key, RowOf(q), q.filters) else w.db)
  }

  function DeleteQueueIn(w: World, key: QueueKey): World
    requires key in w.queues
  {
    w.(queues := w.queues - {key}, db := if w.queues[key].durable then Sql.DeleteQueue(w.db, key) else w.db)
  }

  function FetchIn(w: World, key: QueueKey, consumer: string): World
    requires key in w.queues && w.queues[key].ready != []
  {
    var q := w.queues[key];
    var d := Taken(q, consumer);
    w.(queues := w.queues[key := QueueModel.Fetch(q, consumer)],
       db := if q.durable then MarkInFlight(w.db, d.id, consumer, d.attempts) else w.db)
  }

  function AckIn(w: World, key: QueueKey, id: Id): World
    requires key in w.queues
  {
    w.(queues := w.queues[key := Settle(w.queues[key], id)],
       db := if w.queues[key].durable then DeleteDelivery(w.db, id) else w.db)
  }

  function LetterFor(key: QueueKey, d: Delivery): DeadLetter {
    DeadLetter(d.message, key.name, d.attempts)
  }

  function NAckIn(w: World, key: QueueKey, id: Id, letterId: Id): World
    requires key in w.queues && id in w.queues[key].inFlight
  {
    var q := w.queues[key];
    var d := q.inFlight[id];
    if GivesUp(q, d) then
      var db := if q.durable then DeleteDelivery(w.db, id) else w.db;
      w.(queues := w.queues[key := Settle(q, id)], db := SaveDeadLetter(db, key.exchange, letterId, LetterFor(key, d)))
    else
      w.(queues := w.queues[key := Requeue(q, id)], db := if q.durable then MarkReady(w.db, id) else w.db)
  }

  function DisconnectIn(w: World, key: QueueKey, consumer: string, returned: seq<Delivery>): World
    requires key in w.queues
  {
    var q := Disconnect(w.queues[key], consumer, returned);
    w.(queues := if q.autoDelete && q.consumers == {} then w.queues - {key} else w.queues[key := q],
       db := if q.durable then MarkAllReady(w.db, returned) else w.db)
  }

  /** What an accepted call does when no repository call fails. */
  ghost function Serve(limits: Limits, w: World, r: Request): World
    requires Accepts(limits, w, r)
  {
    match r
    case CreateExchange(name) => CreateExchangeIn(w, name)
    case DeleteExchange(name) => DeleteExchangeIn(w, name)
    case RegisterQueue(key, durable, autoDelete, maxAttempts, filters) =>
      RegisterQueueIn(w, key, durable, autoDelete, maxAttempts, filters)
    case DeleteQueue(key) => DeleteQueueIn(w, key)
    case Publish(exchange, message, order, mints) => OfferAll(w, order, message, mints)
    case Fetch(key, consumer) => FetchIn(w, key, consumer)
    case Ack(key, id, consumer) => AckIn(w, key, id)
    case NAck(key, id, consumer, letterId) => NAckIn(w, key, id, letterId)
    case AddConsumer(key, consumer) => w.(queues := w.queues[key := Join(w.queues[key], consumer)])
    case DisconnectConsumer(key, consumer, returned) => DisconnectIn(w, key, consumer, returned)
  }
}
