/** The database as a value: the five tables of the schema, the effect of every SQL
    statement the repository issues, and the constraints under which it is accepted. */
module Tables {
  import opened Types
  import opened QueueModel

  datatype QueueRow = QueueRow(durable: bool, autoDelete: bool, maxAttempts: int)

  datatype Status = StatusReady | StatusInFlight

  /** `created` is the insertion time; several rows may share it. */
  datatype DeliveryRow = DeliveryRow(
    queue: QueueKey, message: Message, status: Status, attempts: nat, consumer: Option<string>, created: nat)

  datatype LetterRow = LetterRow(exchange: string, letter: DeadLetter)

  datatype Tables = Tables(
    exchanges: set<string>,
    queues: map<QueueKey, QueueRow>,
    filters: set<(QueueKey, string)>,
    deliveries: map<Id, DeliveryRow>,
    letters: map<Id, LetterRow>)

  // ---------------------------------------------------------------- statements

  function SaveExchange(t: Tables, name: string): Tables {
    t.(exchanges := t.exchanges + {name})
  }

  /** Deleting a queue cascades to its filters and deliveries. */
  function DeleteQueue(t: Tables, key: QueueKey): Tables {
    t.(queues := t.queues - {key},
       filters := (set f | f in t.filters && f.0 != key),
       deliveries := map id | id in t.deliveries && t.deliveries[id].queue != key :: t.deliveries[id])
  }

  /** Deleting an exchange cascades to its queues, what they hold, and its dead letters. */
  function DeleteExchange(t: Tables, name: string): Tables {
    Tables(
      t.exchanges - {name},
      (map key | key in t.queues && key.exchange != name :: t.queues[key]),
      (set f | f in t.filters && f.0.exchange != name),
      (map id | id in t.deliveries && t.deliveries[id].queue.exchange != name :: t.deliveries[id]),
      map id | id in t.letters && t.letters[id].exchange != name :: t.letters[id])
  }

  predicate CanSaveQueue(t: Tables, key: QueueKey, row: QueueRow) {
    key.exchange in t.exchanges && row.maxAttempts >= 0
  }

  /** An existing queue row wins; the filters are added to the ones already stored. */
  function SaveQueue(t: Tables, key: QueueKey, row: QueueRow, filters: seq<string>): Tables {
    t.(queues := if key in t.queues then t.queues else t.queues[key := row],
       filters := t.filters + set i | 0 <= i < |filters| :: (key, filters[i]))
  }

  predicate CanSaveDelivery(t: Tables, key: QueueKey, id: Id) {
    key in t.queues && id !in t.deliveries
  }

  function SaveReadyDelivery(t: Tables, key: QueueKey, d: Delivery, now: nat): Tables {
    t.(deliveries := t.deliveries[d.id := DeliveryRow(key, d.message, StatusReady, d.attempts, None, now)])
  }

  function MarkInFlight(t: Tables, id: Id, consumer: string, attempts: nat): Tables {
    if id !in t.deliveries then t
    else t.(deliveries := t.deliveries[id :=
      t.deliveries[id].(status := StatusInFlight, consumer := Some(consumer), attempts := attempts)])
  }

  function MarkReady(t: Tables, id: Id): Tables {
    if id !in t.deliveries then t
    else t.(deliveries := t.deliveries[id := t.deliveries[id].(status := StatusReady, consumer := None)])
  }

  function DeleteDelivery(t: Tables, id: Id): Tables {
    t.(deliveries := t.deliveries - {id})
  }

  predicate CanSaveLetter(t: Tables, exchange: string, id: Id) {
    exchange in t.exchanges && id !in t.letters
  }

  function SaveDeadLetter(t: Tables, exchange: string, id: Id, letter: DeadLetter): Tables {
    t.(letters := t.letters[id := LetterRow(exchange, letter)])
  }

  /** The filters stored for one queue. */
  function FiltersOf(t: Tables, key: QueueKey): set<string> {
    set f | f in t.filters && f.0 == key :: f.1
  }

  /** The delivery that `loadDeliveries` reads from a row: status and consumer are not selected. */
  function LoadedDelivery(id: Id, row: DeliveryRow): Delivery {
    Delivery(id, row.message, "", row.attempts)
  }

  /** Row `a` comes before row `b`: it was created earlier, or at the same time and has the smaller ID. */
  ghost predicate Precedes(t: Tables, a: Id, b: Id) {
    && a in t.deliveries && b in t.deliveries
    && (t.deliveries[a].created < t.deliveries[b].created
         || (t.deliveries[a].created == t.deliveries[b].created && a < b))
  }

  ghost predicate InRowOrder(t: Tables, ids: seq<Id>) {
    forall i, j :: 0 <= i < j < |ids| ==> Precedes(t, ids[i], ids[j])
  }

  /** `order` is the answer to the delivery query: every row once, by creation time and then by ID. */
  ghost predicate IsDeliveryOrder(t: Tables, order: seq<Id>) {
    && (forall i, j :: 0 <= i < j < |order| ==> order[i] != order[j])
    && (forall id :: id in order <==> id in t.deliveries)
    && InRowOrder(t, order)
  }

  /** The cascade of deleting a queue: none of its filters and deliveries remains, and nothing else is lost. */
  ghost predicate QueueGone(t: Tables, t': Tables, key: QueueKey) {
    && key !in t'.queues && (forall f :: f in t'.filters ==> f.0 != key)
    && (forall id :: id in t'.deliveries ==> t'.deliveries[id].queue != key)
    && t'.exchanges == t.exchanges && t'.letters == t.letters
    && (forall k :: k != key ==> SameEntry(t.queues, t'.queues, k))
    && (forall f :: f in t.filters && f.0 != key ==> f in t'.filters)
    && (forall id :: id in t.deliveries && t.deliveries[id].queue != key ==> SameEntry(t.deliveries, t'.deliveries, id))
  }

  /** The cascade of deleting an exchange: nothing of its queues and none of its dead letters remains, and nothing
      else is lost. */
  ghost predicate ExchangeGone(t: Tables, t': Tables, name: string) {
    && t'.exchanges == t.exchanges - {name}
    && (forall k :: k in t'.queues ==> k.exchange != name) && (forall f :: f in t'.filters ==> f.0.exchange != name)
    && (forall id :: id in t'.deliveries ==> t'.deliveries[id].queue.exchange != name)
    && (forall id :: id in t'.letters ==> t'.letters[id].exchange != name)
    && (forall k: QueueKey :: k.exchange != name ==> SameEntry(t.queues, t'.queues, k))
    && (forall f :: f in t.filters && f.0.exchange != name ==> f in t'.filters)
    && (forall id :: id in t.deliveries && t.deliveries[id].queue.exchange != name ==>
         SameEntry(t.deliveries, t'.deliveries, id))
    && (forall id :: id in t.letters && t.letters[id].exchange != name ==> SameEntry(t.letters, t'.letters, id))
  }

  /** Nothing but the delivery row `id` changed. */
  ghost predicate OnlyRow(t: Tables, t': Tables, id: Id) {
    t' == t.(deliveries := t'.deliveries) && forall x :: x != id ==> SameEntry(t.deliveries, t'.deliveries, x)
  }

  /** What a repository call reports, and whether the statement took effect: a reply can
      be lost after the database has committed. */
  datatype Reply = Success | Refused | Lost

  /** What can be said after a statement with effect `after`: on success it was allowed and took effect; on
      failure it may have taken effect all the same. */
  ghost predicate Replied(r: Outcome, allowed: bool, before: Tables, db: Tables, after: Tables) {
    if r == Done then allowed && db == after
    else r == Failed(StorageError) && (db == before || (allowed && db == after))
  }

  /** The same for marking a row as in flight, which reports an update that reached no row. */
  ghost predicate RepliedToMark(r: Outcome, before: Tables, db: Tables, id: Id, consumer: string, attempts: nat) {
    && (r == Done ==> id in before.deliveries && db == MarkInFlight(before, id, consumer, attempts))
    && (r != Done ==>
          && (r == Failed(StorageError) || (r == Failed(DeliveryNotFound) && id !in before.deliveries))
          && (db == before || db == MarkInFlight(before, id, consumer, attempts)))
  }
}
