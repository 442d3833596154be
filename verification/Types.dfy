/** Values shared by every part of the broker: messages, deliveries, dead letters,
    error codes, and the two result shapes used in place of Go's error returns. */
module Types {

  newtype byte = x: int | 0 <= x < 256

  /** UUIDs, which the broker compares and the database sorts: a number stands for the text, in its order. */
  type Id = nat

  /** A queue is addressed by its exchange and its name inside that exchange. */
  datatype QueueKey = QueueKey(exchange: string, name: string)

  datatype Message = Message(payload: seq<byte>, routingKey: string)

  /** `consumer` is the owner of an in-flight delivery; the empty string means "no owner". */
  datatype Delivery = Delivery(id: Id, message: Message, consumer: string, attempts: nat)

  datatype DeadLetter = DeadLetter(message: Message, sourceQueue: string, attempts: nat)

  datatype Option<+T> = None | Some(value: T)

  datatype Error =
    | ExchangeNotFound
    | ExchangeHasConsumers
    | QueueAlreadyExist
    | QueueNotFound
    | QueueHasConsumers
    | QueueFlagsConflict
    | QueueEmpty
    | FiltersIncorrect
    | MaxAttemptsIncorrect
    | MessageTooLarge
    | RoutingKeyTooLong
    | TooManyQueueFilters
    | InvalidRoutingKey
    | DeliveryNotFound
    | ConsumerNotFound
    | TooManyInFlight
    | DeliveryOwnerMismatch
    | StorageError

  datatype Result<+T> = Ok(value: T) | Err(error: Error)

  /** The outcome of an operation that returns nothing but may fail. */
  datatype Outcome = Done | Failed(error: Error)

  /** Two maps say the same about `k`. */
  ghost predicate SameEntry<K, V>(m: map<K, V>, m': map<K, V>, k: K) {
    (k in m <==> k in m') && (k in m ==> m[k] == m'[k])
  }
}
