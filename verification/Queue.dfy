/** The queue object: the same fields, updated in place by the same operations. Each method
    is one critical section of the queue's mutex; UUIDs are parameters. */
module QueueObject {
  import opened Types
  import opened QueueModel
  import Routing

  class Queue {
    /** The exchange that registered the queue, by name; only proofs use it. */
    ghost const exchange: string
    const name: string
    const filters: seq<string>
    const durable: bool
    const autoDelete: bool
    const maxAttempts: int
    var ready: seq<Delivery>
    var inFlight: map<Id, Delivery>
    var consumers: set<string>
    var readyNotify: nat
    /** The channels that have been closed; the queue keeps no record of them, only proofs do. */
    ghost var closed: set<nat>

    /** In-flight deliveries are keyed by their own ID, which the disconnect loop relies on; and the current
        channel is open, which every close relies on. */
    ghost predicate Valid()
      reads this
    {
      (forall id :: id in inFlight ==> inFlight[id].id == id) && ChannelsOk(Channels(readyNotify, closed))
    }

    ghost function View(): QueueState
      reads this
    {
      QueueState(name, filters, durable, autoDelete, maxAttempts, ready, inFlight, consumers,
        Channels(readyNotify, closed))
    }

    constructor (ghost exchange: string, name: string, durable: bool, autoDelete: bool, maxAttempts: int,
      filters: seq<string>)
      ensures Valid() && View() == NewQueue(name, durable, autoDelete, maxAttempts, filters)
      ensures this.exchange == exchange && this.name == name && this.filters == filters
      ensures this.durable == durable && this.autoDelete == autoDelete && this.maxAttempts == maxAttempts
      ensures ready == [] && inFlight == map[] && consumers == {} && closed == {}
    {
      this.exchange := exchange;
      this.name, this.filters := name, filters;
      this.durable, this.autoDelete, this.maxAttempts := durable, autoDelete, maxAttempts;
      ready, inFlight, consumers, readyNotify, closed := [], map[], {}, 0, {};
    }

    /** Wakes every waiter: closes the current channel, which must still be open, and makes a new one. */
    method NotifyReady()
      requires readyNotify !in closed && Valid()
      modifies this`readyNotify, this`closed
      ensures Valid() && Channels(readyNotify, closed) == Renew(old(Channels(readyNotify, closed)))
      ensures closed == old(closed) + {old(readyNotify)} && readyNotify !in closed
    {
      closed := closed + {readyNotify};
      readyNotify := readyNotify + 1;
    }

    method Append(message: Message, id: Id) returns (d: Delivery)
      requires Valid()
      modifies this
      ensures Valid() && d == Delivery(id, message, "", 0) && View() == Enqueue(old(View()), d)
      ensures ready == old(ready) + [d] && inFlight == old(inFlight) && consumers == old(consumers)
      ensures old(readyNotify) in closed && readyNotify !in closed
    {
      d := Delivery(id, message, "", 0);
      ready := ready + [d];
      NotifyReady();
    }

    method EnqueueDelivery(d: Delivery)
      requires Valid()
      modifies this
      ensures Valid() && View() == Enqueue(old(View()), d)
      ensures ready == old(ready) + [d] && inFlight == old(inFlight) && consumers == old(consumers)
      ensures old(readyNotify) in closed && readyNotify !in closed
    {
      ready := ready + [d];
      NotifyReady();
    }

    method RestoreDelivery(d: Delivery)
      requires Valid()
      modifies this
      ensures Valid() && View() == RestoreReady(old(View()), d)
      ensures ready == old(ready) + [d.(consumer := "")] && inFlight == old(inFlight) && consumers == old(consumers)
      ensures old(readyNotify) in closed && readyNotify !in closed
    {
      ready := ready + [d.(consumer := "")];
      NotifyReady();
    }

    method AddConsumer(c: string)
      requires Valid()
      modifies this`consumers
      ensures Valid() && View() == Join(old(View()), c) && consumers == old(consumers) + {c}
    {
      consumers := consumers + {c};
    }

    method HasConsumers() returns (has: bool)
      ensures has <==> View().consumers != {}
    {
      has := |consumers| != 0;
    }

    method Ack(id: Id, c: string) returns (r: Outcome)
      requires Valid()
      modifies this`inFlight
      ensures Valid()
      ensures old(Owns(View(), id, c)) ==> r == Done && View() == Settle(old(View()), id)
      ensures !old(Owns(View(), id, c)) ==> r == Failed(OwnerError(View(), id)) && View() == old(View())
      ensures r == Done <==> id in old(inFlight) && old(inFlight)[id].consumer == c
      ensures r == Failed(DeliveryNotFound) <==> id !in old(inFlight)
      ensures r == Failed(DeliveryOwnerMismatch) <==> id in old(inFlight) && old(inFlight)[id].consumer != c
      ensures inFlight == if r == Done then old(inFlight) - {id} else old(inFlight)
    {
      if id !in inFlight { return Failed(DeliveryNotFound); }
      if inFlight[id].consumer != c { return Failed(DeliveryOwnerMismatch); }
      inFlight := inFlight - {id};
      r := Done;
    }

    /** The delivery comes back with a flag: true if it is to become a dead letter. */
    method Reject(id: Id, c: string) returns (r: Result<(Delivery, bool)>)
      requires Valid()
      modifies this
      ensures Valid()
      ensures !old(Owns(View(), id, c)) ==> r == Err(OwnerError(View(), id)) && View() == old(View())
      ensures old(Owns(View(), id, c) && GivesUp(View(), inFlight[id])) ==>
        r == Ok((old(inFlight)[id], true)) && View() == Settle(old(View()), id)
      ensures old(Owns(View(), id, c) && !GivesUp(View(), inFlight[id])) ==>
        r == Ok((old(inFlight)[id].(consumer := ""), false)) && View() == Requeue(old(View()), id)
      ensures r.Ok? ==> r.value.0.id == id
      ensures r.Ok? <==> id in old(inFlight) && old(inFlight)[id].consumer == c
      ensures r == Err(DeliveryNotFound) <==> id !in old(inFlight)
      ensures r == Err(DeliveryOwnerMismatch) <==> id in old(inFlight) && old(inFlight)[id].consumer != c
      ensures r.Err? ==> unchanged(this)
      ensures r.Ok? ==>
        var d := old(inFlight)[id];
        && inFlight == old(inFlight) - {id} && consumers == old(consumers)
        && if (maxAttempts <= 0 || d.attempts < maxAttempts) && exists o :: o in consumers && o != c
           then r.value == (d.(consumer := ""), false) && ready == old(ready) + [d.(consumer := "")]
           else r.value == (d, true) && ready == old(ready)
    {
      if id !in inFlight { return Err(DeliveryNotFound); }
      var d := inFlight[id];
      if d.consumer != c { return Err(DeliveryOwnerMismatch); }
      inFlight := inFlight - {id};
      if maxAttempts > 0 && d.attempts >= maxAttempts { return Ok((d, true)); }
      var todo := consumers;
      while todo != {}
        invariant todo <= consumers && consumers - todo <= {d.consumer}
        invariant ready == old(ready) && consumers == old(consumers) && readyNotify == old(readyNotify)
        invariant closed == old(closed)
        invariant inFlight == old(inFlight) - {id} && Valid()
      {
        var other :| other in todo;
        if other != d.consumer {
          ready := ready + [d.(consumer := "")];
          NotifyReady();
          return Ok((d.(consumer := ""), false));
        }
        todo := todo - {other};
      }
      r := Ok((d, true));
    }

    /** Moves everything `c` has in flight back to the ready list, walking the map in an
        arbitrary order and deleting from it on the way. */
    method ReturnInFlight(c: string) returns (returned: seq<Delivery>)
      requires Valid()
      modifies this`ready, this`inFlight
      ensures Valid()
      ensures IsReturnOrder(old(View()), c, returned)
      ensures ready == old(ready) + returned && inFlight == old(inFlight) - Owned(old(View()), c)
    {
      ghost var q := View();
      ReturnStarts(q, c);
      hide HalfReturned, IsReturnOrder, Owned, ChannelsOk;
      returned := [];
      var todo := inFlight.Keys;
      while todo != {}
        invariant todo <= q.inFlight.Keys && HalfReturned(q, c, todo, returned, ready, inFlight)
      {
        var key :| key in todo;
        StillInFlight(q, c, todo, returned, ready, inFlight, key);
        var d := inFlight[key];
        assert d.id == key;
        if d.consumer == c {
          ReturnOwned(q, c, todo, returned, ready, inFlight, key);
          inFlight := inFlight - {d.id};
          ready := ready + [d.(consumer := "")];
          returned := returned + [d.(consumer := "")];
        } else {
          SkipOther(q, c, todo, returned, ready, inFlight, key);
        }
        todo := todo - {key};
      }
      ReturnEnds(q, c, returned, ready, inFlight);
    }

    method DisconnectConsumer(c: string) returns (returned: seq<Delivery>)
      requires Valid()
      modifies this
      ensures Valid()
      ensures IsReturnOrder(old(View()), c, returned) && View() == Disconnect(old(View()), c, returned)
      ensures consumers == old(consumers) - {c} && ready == old(ready) + returned
      ensures forall id :: id in inFlight <==> id in old(inFlight) && old(inFlight)[id].consumer != c
      ensures forall id :: id in inFlight ==> inFlight[id] == old(inFlight)[id]
      ensures forall d: Delivery :: d in returned <==>
        d.id in old(inFlight) && old(inFlight)[d.id].consumer == c && d == old(inFlight)[d.id].(consumer := "")
      ensures readyNotify == old(readyNotify) <==> returned == []
    {
      returned := ReturnInFlight(c);
      AllReturned(old(View()), c, returned);
      hide Returns;
      if |returned| > 0 { NotifyReady(); }
      consumers := consumers - {c};
    }

    method InFlightCount(c: string) returns (count: nat)
      ensures count == |Owned(View(), c)| == |set id | id in inFlight && inFlight[id].consumer == c|
    {
      count := 0;
      ghost var q := View();
      assert OwnedOutside(q, c, inFlight.Keys) == {};
      var todo := inFlight.Keys;
      while todo != {}
        invariant todo <= inFlight.Keys && count == |OwnedOutside(q, c, todo)|
      {
        var key :| key in todo;
        if inFlight[key].consumer == c {
          assert OwnedOutside(q, c, todo - {key}) == OwnedOutside(q, c, todo) + {key};
          count := count + 1;
        } else {
          assert OwnedOutside(q, c, todo - {key}) == OwnedOutside(q, c, todo);
        }
        todo := todo - {key};
      }
      assert OwnedOutside(q, c, {}) == Owned(q, c) == set id | id in inFlight && inFlight[id].consumer == c;
    }

    /** Takes the oldest ready delivery, or, if there is none, names the channel to wait on. */
    method FetchOrWait(c: string, maxInFlight: int) returns (r: Result<Delivery>, channel: Option<nat>)
      requires Valid()
      modifies this
      ensures Valid()
      ensures old(CanFetch(View(), c, maxInFlight)) ==>
        r == Ok(Taken(old(View()), c)) && channel == None && View() == Fetch(old(View()), c)
      ensures !old(CanFetch(View(), c, maxInFlight)) ==>
        && r == Err(FetchError(View(), c, maxInFlight)) && View() == old(View())
        && channel == (if r.error == QueueEmpty then Some(readyNotify) else None)
      ensures r == Err(ConsumerNotFound) <==> c !in consumers
      ensures r == Err(TooManyInFlight) <==>
        var held := |set id | id in old(inFlight) && old(inFlight)[id].consumer == c|;
        c in consumers && maxInFlight > 0 && held >= maxInFlight
      ensures r == Err(QueueEmpty) <==>
        var held := |set id | id in old(inFlight) && old(inFlight)[id].consumer == c|;
        c in consumers && (maxInFlight <= 0 || held < maxInFlight) && old(ready) == []
      ensures r.Err? ==> r.error in [ConsumerNotFound, TooManyInFlight, QueueEmpty] && unchanged(this)
      ensures r.Ok? ==>
        var d := old(ready)[0];
        && r.value == d.(attempts := d.attempts + 1, consumer := c)
        && ready == old(ready)[1..] && inFlight == old(inFlight)[d.id := r.value] && consumers == old(consumers)
      ensures channel == if r == Err(QueueEmpty) then Some(old(readyNotify)) else None
    {
      assert Owned(View(), c) == set id | id in inFlight && inFlight[id].consumer == c;
      if c !in consumers { return Err(ConsumerNotFound), None; }
      if maxInFlight > 0 {
        var count := InFlightCount(c);
        if count >= maxInFlight { return Err(TooManyInFlight), None; }
      }
      if |ready| == 0 { return Err(QueueEmpty), Some(readyNotify); }
      var d := ready[0].(attempts := ready[0].attempts + 1, consumer := c);
      inFlight := inFlight[d.id := d];
      ready := ready[1..];
      return Ok(d), None;
    }

    method MatchFilters(key: string) returns (matched: bool)
      ensures matched <==> Routing.MatchesAny(View().filters, key)
    {
      for i := 0 to |filters|
        invariant forall j :: 0 <= j < i ==> !Routing.Match(filters[j], key)
      {
        if Routing.Match(filters[i], key) { return true; }
      }
      matched := false;
    }
  }
}
