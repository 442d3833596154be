/** The queue as a value: its fields, what each locked operation does to them, and the
    map of live deliveries that the rest of the project reasons with. The class that
    performs these operations in place is `Queue` in Queue.dfy. */
module QueueModel {
  import opened Types
  import Routing

  /** The notify channels of a queue: the one handed to every fetch that finds the queue empty, and those on
      which `close` has been called. Closing a channel twice panics. */
  datatype Channels = Channels(current: nat, closed: set<nat>)

  const NO_CHANNELS_CLOSED := Channels(0, {})

  /** Closes the current channel and makes a new one. */
  function Renew(ch: Channels): Channels {
    Channels(ch.current + 1, ch.closed + {ch.current})
  }

  /** The next `close` is safe, and so is every later one. */
  ghost predicate ChannelsOk(ch: Channels) {
    forall c :: c in ch.closed ==> c < ch.current
  }

  datatype QueueState = QueueState(
    name: string,
    filters: seq<string>,
    durable: bool,
    autoDelete: bool,
    maxAttempts: int,
    ready: seq<Delivery>,
    inFlight: map<Id, Delivery>,
    consumers: set<string>,
    channels: Channels)

  function NewQueue(name: string, durable: bool, autoDelete: bool, maxAttempts: int, filters: seq<string>): QueueState {
    QueueState(name, filters, durable, autoDelete, maxAttempts, [], map[], {}, NO_CHANNELS_CLOSED)
  }

  // ---------------------------------------------------------------- operations

  function Enqueue(q: QueueState, d: Delivery): QueueState {
    q.(ready := q.ready + [d], channels := Renew(q.channels))
  }

  /** Restoring forgets the previous owner. */
  function RestoreReady(q: QueueState, d: Delivery): QueueState {
    Enqueue(q, d.(consumer := ""))
  }

  function Join(q: QueueState, c: string): QueueState {
    q.(consumers := q.consumers + {c})
  }

  /** What guards both Ack and Reject: the delivery is in flight and `c` owns it. */
  predicate Owns(q: QueueState, id: Id, c: string) {
    id in q.inFlight && q.inFlight[id].consumer == c
  }

  function OwnerError(q: QueueState, id: Id): Error {
    if id !in q.inFlight then DeliveryNotFound else DeliveryOwnerMismatch
  }

  function Settle(q: QueueState, id: Id): QueueState {
    q.(inFlight := q.inFlight - {id})
  }

  /** A rejected delivery is given up when its attempts are exhausted or nobody else could take it. */
  predicate GivesUp(q: QueueState, d: Delivery) {
    || (q.maxAttempts > 0 && d.attempts >= q.maxAttempts)
    || q.consumers <= {d.consumer}
  }

  function Requeue(q: QueueState, id: Id): QueueState
    requires id in q.inFlight
  {
    Enqueue(Settle(q, id), q.inFlight[id].(consumer := ""))
  }

  /** The in-flight deliveries of `c`, by ID. */
  function Owned(q: QueueState, c: string): set<Id> {
    set id | id in q.inFlight && q.inFlight[id].consumer == c
  }

  predicate CanFetch(q: QueueState, c: string, maxInFlight: int) {
    && c in q.consumers
    && (maxInFlight > 0 ==> |Owned(q, c)| < maxInFlight)
    && q.ready != []
  }

  function FetchError(q: QueueState, c: string, maxInFlight: int): Error {
    if c !in q.consumers then ConsumerNotFound
    else if maxInFlight > 0 && |Owned(q, c)| >= maxInFlight then TooManyInFlight
    else QueueEmpty
  }

  function Taken(q: QueueState, c: string): Delivery
    requires q.ready != []
  {
    q.ready[0].(attempts := q.ready[0].attempts + 1, consumer := c)
  }

  function Fetch(q: QueueState, c: string): QueueState
    requires q.ready != []
  {
    q.(inFlight := q.inFlight[q.ready[0].id := Taken(q, c)], ready := q.ready[1..])
  }

  /** `returned` lists the in-flight deliveries `ids`, each once, owner cleared. */
  ghost predicate Returns(q: QueueState, ids: set<Id>, returned: seq<Delivery>) {
    && |returned| == |ids|
    && (forall i, j :: 0 <= i < j < |returned| ==> returned[i].id != returned[j].id)
    && (forall i :: 0 <= i < |returned| ==>
          && returned[i].id in ids && returned[i].id in q.inFlight
          && returned[i] == q.inFlight[returned[i].id].(consumer := ""))
  }

  /** `returned` lists the deliveries of `c`, in whatever order the map was walked. */
  ghost predicate IsReturnOrder(q: QueueState, c: string, returned: seq<Delivery>) {
    Returns(q, Owned(q, c), returned)
  }

  lemma ReturnsOneMore(q: QueueState, ids: set<Id>, returned: seq<Delivery>, id: Id)
    requires Returns(q, ids, returned) && id in q.inFlight && id !in ids && q.inFlight[id].id == id
    ensures Returns(q, ids + {id}, returned + [q.inFlight[id].(consumer := "")])
  {
  }

  /** The in-flight deliveries of `c` outside `todo`. */
  ghost function OwnedOutside(q: QueueState, c: string, todo: set<Id>): set<Id> {
    set id | id in q.inFlight && id !in todo && q.inFlight[id].consumer == c
  }

  /** Halfway through a disconnect of `c`: the deliveries outside `todo` have been moved to the ready list. */
  ghost predicate HalfReturned(q: QueueState, c: string, todo: set<Id>, returned: seq<Delivery>, ready: seq<Delivery>,
                               inFlight: map<Id, Delivery>) {
    && todo <= q.inFlight.Keys && inFlight == q.inFlight - OwnedOutside(q, c, todo)
    && Returns(q, OwnedOutside(q, c, todo), returned) && ready == q.ready + returned
  }

  lemma ReturnStarts(q: QueueState, c: string)
    ensures HalfReturned(q, c, q.inFlight.Keys, [], q.ready, q.inFlight)
  {
    assert OwnedOutside(q, c, q.inFlight.Keys) == {};
  }

  lemma ReturnOwned(q: QueueState, c: string, todo: set<Id>, returned: seq<Delivery>, ready: seq<Delivery>,
                    inFlight: map<Id, Delivery>, key: Id)
    requires HalfReturned(q, c, todo, returned, ready, inFlight) && key in todo
    requires q.inFlight[key].consumer == c && q.inFlight[key].id == key
    ensures var released := q.inFlight[key].(consumer := "");
      HalfReturned(q, c, todo - {key}, returned + [released], ready + [released], inFlight - {key})
  {
    hide Returns;
    var done := OwnedOutside(q, c, todo);
    assert OwnedOutside(q, c, todo - {key}) == done + {key};
    ReturnsOneMore(q, done, returned, key);
    assert q.inFlight - done - {key} == q.inFlight - (done + {key});
  }

  lemma SkipOther(q: QueueState, c: string, todo: set<Id>, returned: seq<Delivery>, ready: seq<Delivery>,
                  inFlight: map<Id, Delivery>, key: Id)
    requires HalfReturned(q, c, todo, returned, ready, inFlight) && key in todo && q.inFlight[key].consumer != c
    ensures HalfReturned(q, c, todo - {key}, returned, ready, inFlight)
  {
    hide Returns;
    assert OwnedOutside(q, c, todo - {key}) == OwnedOutside(q, c, todo);
  }

  lemma StillInFlight(q: QueueState, c: string, todo: set<Id>, returned: seq<Delivery>, ready: seq<Delivery>,
                      inFlight: map<Id, Delivery>, key: Id)
    requires HalfReturned(q, c, todo, returned, ready, inFlight) && key in todo
    ensures key in q.inFlight && key in inFlight && inFlight[key] == q.inFlight[key]
  {
  }

  lemma ReturnEnds(q: QueueState, c: string, returned: seq<Delivery>, ready: seq<Delivery>, inFlight: map<Id, Delivery>)
    requires HalfReturned(q, c, {}, returned, ready, inFlight)
    ensures IsReturnOrder(q, c, returned) && ready == q.ready + returned && inFlight == q.inFlight - Owned(q, c)
  {
    hide Returns;
    assert OwnedOutside(q, c, {}) == Owned(q, c);
  }

  function Disconnect(q: QueueState, c: string, returned: seq<Delivery>): QueueState {
    q.(ready := q.ready + returned,
       inFlight := q.inFlight - Owned(q, c),
       consumers := q.consumers - {c},
       channels := if returned == [] then q.channels else Renew(q.channels))
  }

  /** The matching queues of an exchange, each once, in any order. */
  ghost predicate IsRoute(queues: map<QueueKey, QueueState>, exchange: string, key: string, order: seq<QueueKey>) {
    && (forall i, j :: 0 <= i < j < |order| ==> order[i] != order[j])
    && (forall k :: k in order <==> k in queues && k.exchange == exchange && Routing.MatchesAny(queues[k].filters, key))
  }

  // ---------------------------------------------------------------- live deliveries

  ghost predicate DistinctIds(s: seq<Delivery>) {
    forall i, j :: 0 <= i < j < |s| ==> s[i].id != s[j].id
  }

  ghost predicate WellFormed(q: QueueState) {
    && DistinctIds(q.ready)
    && (forall i :: 0 <= i < |q.ready| ==> q.ready[i].id !in q.inFlight)
    && (forall id :: id in q.inFlight ==> q.inFlight[id].id == id)
  }

  ghost function ReadyMap(s: seq<Delivery>): map<Id, Delivery> {
    if s == [] then map[] else ReadyMap(s[..|s| - 1])[s[|s| - 1].id := s[|s| - 1]]
  }

  /** Every delivery the queue is responsible for, waiting or in flight, by ID. */
  ghost function Live(q: QueueState): map<Id, Delivery> {
    ReadyMap(q.ready) + q.inFlight
  }

  lemma {:induction false} ReadyMapConcat(s: seq<Delivery>, t: seq<Delivery>)
    ensures ReadyMap(s + t) == ReadyMap(s) + ReadyMap(t)
  {
    if t == [] {
      assert s + t == s;
    } else {
      var n, u := |t| - 1, s + t;
      ReadyMapConcat(s, t[..n]);
      assert u[..|u| - 1] == s + t[..n] && u[|u| - 1] == t[n];
      assert ReadyMap(u) == ReadyMap(s + t[..n])[t[n].id := t[n]];
    }
  }

  lemma {:induction false} ReadyMapKey(s: seq<Delivery>, id: Id)
    ensures id in ReadyMap(s) <==> exists i :: 0 <= i < |s| && s[i].id == id
  {
    if s != [] {
      var n := |s| - 1;
      ReadyMapKey(s[..n], id);
      assert s == s[..n] + [s[n]];
    }
  }

  lemma ReadyMapKeys(s: seq<Delivery>)
    ensures forall id :: id in ReadyMap(s) <==> exists i :: 0 <= i < |s| && s[i].id == id
  {
    forall id ensures id in ReadyMap(s) <==> exists i :: 0 <= i < |s| && s[i].id == id { ReadyMapKey(s, id); }
  }

  lemma {:induction false} ReadyMapAt(s: seq<Delivery>, i: int)
    requires DistinctIds(s) && 0 <= i < |s|
    ensures s[i].id in ReadyMap(s) && ReadyMap(s)[s[i].id] == s[i]
  {
    var n := |s| - 1;
    if i < n {
      assert s[..n][i] == s[i];
      ReadyMapAt(s[..n], i);
    }
  }

  lemma ReadyMapLookup(s: seq<Delivery>)
    requires DistinctIds(s)
    ensures forall i :: 0 <= i < |s| ==> s[i].id in ReadyMap(s) && ReadyMap(s)[s[i].id] == s[i]
    ensures forall id :: id in ReadyMap(s) ==> ReadyMap(s)[id].id == id
    ensures forall id :: id in ReadyMap(s) ==> exists i :: 0 <= i < |s| && s[i] == ReadyMap(s)[id]
  {
    forall i | 0 <= i < |s| ensures s[i].id in ReadyMap(s) && ReadyMap(s)[s[i].id] == s[i] { ReadyMapAt(s, i); }
    ReadyMapKeys(s);
    forall id | id in ReadyMap(s)
      ensures ReadyMap(s)[id].id == id && exists i :: 0 <= i < |s| && s[i] == ReadyMap(s)[id]
    {
      var i :| 0 <= i < |s| && s[i].id == id;
      assert ReadyMap(s)[s[i].id] == s[i];
    }
  }

  lemma LiveKeyed(q: QueueState)
    requires WellFormed(q)
    ensures forall id :: id in Live(q) ==> Live(q)[id].id == id
    ensures forall i :: 0 <= i < |q.ready| ==> q.ready[i].id in Live(q) && Live(q)[q.ready[i].id] == q.ready[i]
    ensures forall id :: id in q.inFlight ==> id in Live(q) && Live(q)[id] == q.inFlight[id]
  {
    ReadyMapLookup(q.ready);
  }

  lemma EnqueueLive(q: QueueState, d: Delivery)
    requires WellFormed(q) && d.id !in Live(q)
    ensures WellFormed(Enqueue(q, d))
    ensures Live(Enqueue(q, d)) == Live(q)[d.id := d]
  {
    EnqueueWellFormed(q, d);
    hide WellFormed;
    ReadyMapAppend(q.ready, d);
    hide ReadyMap;
  }

  lemma ReadyMapAppend(s: seq<Delivery>, d: Delivery)
    ensures ReadyMap(s + [d]) == ReadyMap(s)[d.id := d]
  {
    var r := s + [d];
    assert r[..|r| - 1] == s && r[|r| - 1] == d;
  }

  lemma EnqueueWellFormed(q: QueueState, d: Delivery)
    requires WellFormed(q) && d.id !in Live(q)
    ensures WellFormed(Enqueue(q, d)) && d.id !in q.inFlight
  {
    ReadyMapKey(q.ready, d.id);
    hide ReadyMap;
  }

  lemma SettleLive(q: QueueState, id: Id)
    requires WellFormed(q) && id in q.inFlight
    ensures WellFormed(Settle(q, id))
    ensures Live(Settle(q, id)) == Live(q) - {id}
  {
    ReadyMapKey(q.ready, id);
  }

  lemma RequeueLive(q: QueueState, id: Id)
    requires WellFormed(q) && id in q.inFlight
    ensures WellFormed(Requeue(q, id))
    ensures Live(Requeue(q, id)) == Live(q)[id := q.inFlight[id].(consumer := "")]
  {
    SettleLive(q, id);
    EnqueueLive(Settle(q, id), q.inFlight[id].(consumer := ""));
  }

  lemma FetchLive(q: QueueState, c: string)
    requires WellFormed(q) && q.ready != []
    ensures WellFormed(Fetch(q, c))
    ensures q.ready[0].id in Live(q) && Live(q)[q.ready[0].id] == q.ready[0]
    ensures Live(Fetch(q, c)) == Live(q)[q.ready[0].id := Taken(q, c)]
  {
    FetchWellFormed(q, c);
    FetchedOnce(q);
    HeadOfMap(q.ready);
    hide WellFormed, ReadyMap;
  }

  lemma HeadOfMap(s: seq<Delivery>)
    requires s != []
    ensures ReadyMap(s) == map[s[0].id := s[0]] + ReadyMap(s[1..])
  {
    var head, tail := s[0], s[1..];
    assert [head][..0] == [];
    assert ReadyMap([head]) == map[head.id := head];
    assert s == [head] + tail;
    ReadyMapConcat([head], tail);
  }

  lemma FetchWellFormed(q: QueueState, c: string)
    requires WellFormed(q) && q.ready != []
    ensures WellFormed(Fetch(q, c))
  {
  }

  lemma FetchedOnce(q: QueueState)
    requires WellFormed(q) && q.ready != []
    ensures q.ready[0].id !in ReadyMap(q.ready[1..]) && q.ready[0].id !in q.inFlight
  {
    ReadyMapKey(q.ready[1..], q.ready[0].id);
  }

  /** An injective listing as long as a finite set lists all of it. */
  lemma {:induction false} ReturnOrderCovers(q: QueueState, c: string, returned: seq<Delivery>)
    requires IsReturnOrder(q, c, returned)
    ensures forall id :: id in Owned(q, c) ==> exists i :: 0 <= i < |returned| && returned[i].id == id
  {
    var ids := set i | 0 <= i < |returned| :: returned[i].id;
    DistinctIdsCount(returned);
    assert ids <= Owned(q, c);
    SubsetOfSameSize(ids, Owned(q, c));
  }

  lemma {:induction false} DistinctIdsCount(s: seq<Delivery>)
    requires DistinctIds(s)
    ensures |set i | 0 <= i < |s| :: s[i].id| == |s|
  {
    var ids := set i | 0 <= i < |s| :: s[i].id;
    if s != [] {
      var n := |s| - 1;
      var t := s[..n];
      DistinctIdsCount(t);
      var ids' := set i | 0 <= i < |t| :: t[i].id;
      assert ids == ids' + {s[n].id} by {
        forall id | id in ids ensures id in ids' + {s[n].id} {
          var i :| 0 <= i < |s| && s[i].id == id;
          if i < n { assert t[i].id == id; }
        }
        forall id | id in ids' ensures id in ids {
          var i :| 0 <= i < |t| && t[i].id == id;
          assert s[i].id == id;
        }
      }
      assert s[n].id !in ids';
    }
  }

  lemma SubsetOfSameSize<T>(a: set<T>, b: set<T>)
    requires a <= b && |a| == |b|
    ensures a == b
  {
    if x :| x in b && x !in a {
      SubsetSize(a + {x}, b);
    }
  }

  lemma {:induction false} SubsetSize<T>(a: set<T>, b: set<T>)
    requires a <= b
    ensures |a| <= |b|
    decreases a
  {
    if x :| x in a {
      SubsetSize(a - {x}, b - {x});
    }
  }

  lemma {:induction false} DistinctCount<T>(s: seq<T>, t: set<T>)
    requires (forall i, j :: 0 <= i < j < |s| ==> s[i] != s[j]) && forall x :: x in s ==> x in t
    ensures |s| <= |t|
  {
    if s != [] {
      var n := |s| - 1;
      DistinctCount(s[..n], t - {s[n]});
    }
  }

  lemma DisconnectWellFormed(q: QueueState, c: string, returned: seq<Delivery>)
    requires WellFormed(q) && IsReturnOrder(q, c, returned)
    ensures WellFormed(Disconnect(q, c, returned))
  {
    var ready := q.ready + returned;
    forall i, j | 0 <= i < j < |ready| ensures ready[i].id != ready[j].id {
      if i < |q.ready| <= j { assert returned[j - |q.ready|].id in q.inFlight; }
      if |q.ready| <= i { assert returned[i - |q.ready|].id != returned[j - |q.ready|].id; }
    }
    var inFlight := q.inFlight - Owned(q, c);
    forall i | 0 <= i < |ready| ensures ready[i].id !in inFlight {
      if |q.ready| <= i { assert returned[i - |q.ready|].id in Owned(q, c); }
    }
  }

  /** The deliveries handed back by a disconnect, by ID. */
  lemma ReturnedMap(q: QueueState, c: string, returned: seq<Delivery>)
    requires IsReturnOrder(q, c, returned)
    ensures ReadyMap(returned) == map id | id in Owned(q, c) :: q.inFlight[id].(consumer := "")
  {
    ReturnOrderCovers(q, c, returned);
    ReadyMapLookup(returned);
    ReadyMapKeys(returned);
  }

  /** What is handed back is what `c` held, and all of it, without its owner. */
  lemma AllReturned(q: QueueState, c: string, returned: seq<Delivery>)
    requires IsReturnOrder(q, c, returned)
    ensures forall d: Delivery :: d in returned <==>
      d.id in q.inFlight && q.inFlight[d.id].consumer == c && d == q.inFlight[d.id].(consumer := "")
  {
    ReturnOrderCovers(q, c, returned);
    forall d: Delivery | d.id in q.inFlight && q.inFlight[d.id].consumer == c && d == q.inFlight[d.id].(consumer := "")
      ensures d in returned
    {
      assert d.id in Owned(q, c);
      var i :| 0 <= i < |returned| && returned[i].id == d.id;
      assert returned[i] == d;
    }
  }

  lemma DisconnectLive(q: QueueState, c: string, returned: seq<Delivery>)
    requires WellFormed(q) && IsReturnOrder(q, c, returned)
    ensures WellFormed(Disconnect(q, c, returned))
    ensures Live(Disconnect(q, c, returned)) ==
      map id | id in Live(q) :: if id in Owned(q, c) then q.inFlight[id].(consumer := "") else Live(q)[id]
  {
    hide WellFormed, IsReturnOrder, Owned, ReadyMap;
    DisconnectWellFormed(q, c, returned);
    ReturnedMap(q, c, returned);
    ReadyMapConcat(q.ready, returned);
    OwnedAreNotReady(q, c);
  }

  lemma OwnedAreNotReady(q: QueueState, c: string)
    requires WellFormed(q)
    ensures forall id :: id in Owned(q, c) ==> id in q.inFlight && id !in ReadyMap(q.ready)
  {
    forall id | id in Owned(q, c) ensures id !in ReadyMap(q.ready) { ReadyMapKey(q.ready, id); }
  }
}
