/** The exchange object: a map of queue objects, changed in place. A method that works on one queue
    finds it by name and touches nothing else. */
module ExchangeObject {
  import opened Types
  import opened QueueModel
  import opened QueueObject
  import opened ServiceModel
  import Routing
  import FilterLists

  ghost predicate IsQueueAt(key: QueueKey, q: Queue)
    reads q
  {
    && q.exchange == key.exchange && q.name == key.name && q.Valid()
    && Registrable(q.durable, q.autoDelete, q.maxAttempts, q.filters)
  }

  /** A routed copy of a message: the queue it is for, and the delivery it became once it is in the queue. */
  datatype Published = Published(queueName: string, queue: Queue, message: Message, delivery: Option<Delivery>)

  datatype NAckResult = NAckResult(delivery: Delivery, letter: Option<DeadLetter>)

  /** The matching queues among `queues`, each once, under its own name. */
  ghost predicate IsRouting(queues: map<string, Queue>, message: Message, published: seq<Published>) {
    && (forall i, j :: 0 <= i < j < |published| ==> published[i].queueName != published[j].queueName)
    && (forall i :: 0 <= i < |published| ==>
          && published[i].queueName in queues && published[i].queue == queues[published[i].queueName]
          && published[i].message == message
          && Routing.MatchesAny(queues[published[i].queueName].filters, message.routingKey))
    && (forall n :: n in queues && Routing.MatchesAny(queues[n].filters, message.routingKey) ==>
          exists i :: 0 <= i < |published| && published[i].queueName == n)
  }

  lemma RoutingOneMore(queues: map<string, Queue>, n: string, q: Queue, message: Message, published: seq<Published>)
    requires IsRouting(queues, message, published) && n !in queues
    ensures
      var matched := Routing.MatchesAny(q.filters, message.routingKey);
      IsRouting(queues[n := q], message, if matched then published + [Published(n, q, message, None)] else published)
  {
    hide Routing.MatchesAny;
    var published' := published + [Published(n, q, message, None)];
    forall x | x in queues && Routing.MatchesAny(queues[x].filters, message.routingKey)
      ensures exists i :: 0 <= i < |published'| && published'[i].queueName == x
    {
      var i :| 0 <= i < |published| && published[i].queueName == x;
      assert published'[i].queueName == x;
    }
    assert published'[|published|].queueName == n;
  }

  class Exchange {
    const name: string
    var queues: map<string, Queue>

    ghost predicate Valid()
      reads this, queues.Values
    {
      forall n :: n in queues ==> IsQueueAt(QueueKey(name, n), queues[n])
    }

    /** The queue called `n`, if there is one: all that an operation on `n` may change. */
    ghost function Target(n: string): set<Queue>
      reads this
    {
      if n in queues then {queues[n]} else {}
    }

    constructor (name: string)
      ensures Valid() && this.name == name && queues == map[]
    {
      this.name := name;
      queues := map[];
    }

    /** A repeated registration that asks for the same thing returns the queue that is already there. */
    method RegisterQueue(n: string, durable: bool, autoDelete: bool, maxAttempts: int,
                         filters: seq<string>) returns (r: Result<Queue>)
      requires Valid()
      modifies this
      ensures Valid()
      ensures r.Err? ==>
        && queues == old(queues)
        && var existing := if n in queues then Some(queues[n].View()) else None;
           RegistrationError(existing, durable, autoDelete, maxAttempts, filters) == Some(r.error)
      ensures r.Ok? ==>
        && n in queues && r.value == queues[n] && IsQueueAt(QueueKey(name, n), r.value)
        && (n in old(queues) ==>
             queues == old(queues) && SameRegistration(queues[n].View(), durable, autoDelete, maxAttempts, filters))
        && (n !in old(queues) ==>
              && queues == old(queues)[n := r.value] && fresh(r.value)
              && r.value.View() == NewQueue(n, durable, autoDelete, maxAttempts, filters)
              && Registrable(durable, autoDelete, maxAttempts, filters))
      ensures r.Ok? ==>
        && r.value.durable == durable && r.value.autoDelete == autoDelete && r.value.maxAttempts == maxAttempts
        && if n in old(queues) then r.value == old(queues)[n] && SameFilters(r.value.filters, filters)
           else
             && r.value.filters == filters
             && r.value.ready == [] && r.value.inFlight == map[] && r.value.consumers == {}
      ensures r == Err(QueueAlreadyExist) <==>
        n in old(queues) &&
        var q := old(queues)[n];
        || q.durable != durable || q.autoDelete != autoDelete || q.maxAttempts != maxAttempts
        || !SameFilters(q.filters, filters)
      ensures r == Err(QueueFlagsConflict) <==> n !in old(queues) && durable && autoDelete
      ensures r == Err(MaxAttemptsIncorrect) <==> n !in old(queues) && !(durable && autoDelete) && maxAttempts < 0
      ensures r == Err(FiltersIncorrect) <==>
        && n !in old(queues) && !(durable && autoDelete) && maxAttempts >= 0
        && exists i :: 0 <= i < |filters| && !Routing.IsValidFilter(filters[i])
      ensures r.Err? ==> r.error in [QueueAlreadyExist, QueueFlagsConflict, MaxAttemptsIncorrect, FiltersIncorrect]
    {
      if n in queues {
        var q := queues[n];
        var equal := FilterLists.EqualFilters(q.filters, filters);
        if q.durable == durable && q.autoDelete == autoDelete && q.maxAttempts == maxAttempts && equal { return Ok(q); }
        return Err(QueueAlreadyExist);
      }
      if durable && autoDelete { return Err(QueueFlagsConflict); }
      if maxAttempts < 0 { return Err(MaxAttemptsIncorrect); }
      var valid := FilterLists.ValidFilters(filters);
      if !valid { return Err(FiltersIncorrect); }
      var q := new Queue(name, n, durable, autoDelete, maxAttempts, filters);
      queues := queues[n := q];
      r := Ok(q);
    }

    method DeleteQueue(n: string) returns (r: Outcome)
      requires Valid()
      modifies this
      ensures Valid()
      ensures n !in old(queues) ==> r == Failed(QueueNotFound) && queues == old(queues)
      ensures n in old(queues) && old(queues)[n].consumers != {} ==>
        r == Failed(QueueHasConsumers) && queues == old(queues)
      ensures n in old(queues) && old(queues)[n].consumers == {} ==> r == Done && queues == old(queues) - {n}
    {
      if n !in queues { return Failed(QueueNotFound); }
      var has := queues[n].HasConsumers();
      if has { return Failed(QueueHasConsumers); }
      queues := queues - {n};
      r := Done;
    }

    method GetQueue(n: string) returns (r: Result<Queue>)
      ensures r == if n in queues then Ok(queues[n]) else Err(QueueNotFound)
    {
      if n !in queues { return Err(QueueNotFound); }
      r := Ok(queues[n]);
    }

    /** Walks a snapshot of the map in an arbitrary order and keeps the queues with a matching filter. */
    method Route(message: Message) returns (r: Result<seq<Published>>)
      requires Valid()
      ensures r.Ok? <==> Routing.IsValidKey(message.routingKey)
      ensures r.Err? ==> r.error == InvalidRoutingKey
      ensures r.Ok? ==> IsRouting(queues, message, r.value)
    {
      if !Routing.IsValidKey(message.routingKey) { return Err(InvalidRoutingKey); }
      var published: seq<Published> := [];
      var todo := queues.Keys;
      while todo != {}
        invariant todo <= queues.Keys
        invariant IsRouting(map n | n in queues && n !in todo :: queues[n], message, published)
      {
        var n :| n in todo;
        var q := queues[n];
        var matched := q.MatchFilters(message.routingKey);
        RoutingOneMore(map n | n in queues && n !in todo :: queues[n], n, q, message, published);
        assert (map n | n in queues && n !in todo :: queues[n])[n := q] ==
          map x | x in queues && x !in todo - {n} :: queues[x];
        if matched { published := published + [Published(q.name, q, message, None)]; }
        todo := todo - {n};
      }
      assert (map n | n in queues && n !in todo :: queues[n]) == queues;
      r := Ok(published);
    }

    /** The queues and their objects are as many as their names. */
    lemma RoutingFits(message: Message, published: seq<Published>)
      requires IsRouting(queues, message, published)
      ensures |published| <= |queues|
    {
      var names := seq(|published|, i requires 0 <= i < |published| => published[i].queueName);
      DistinctCount(names, queues.Keys);
      assert |queues.Keys| == |queues|;
    }

    /** Appends the message to each routed queue and notes the delivery it became. */
    method AppendEach(items: seq<Published>, message: Message, ids: seq<Id>) returns (delivered: seq<Published>)
      requires |items| <= |ids| && forall i, j :: 0 <= i < j < |items| ==> items[i].queue != items[j].queue
      requires forall i :: 0 <= i < |items| ==> items[i].queue.Valid()
      modifies set i | 0 <= i < |items| :: items[i].queue
      ensures |delivered| == |items|
      ensures forall i :: 0 <= i < |items| ==>
        && delivered[i] == items[i].(delivery := Some(Delivery(ids[i], message, "", 0)))
        && items[i].queue.Valid()
        && items[i].queue.View() == Enqueue(old(items[i].queue.View()), Delivery(ids[i], message, "", 0))
    {
      hide Enqueue;
      delivered := [];
      for i := 0 to |items|
        invariant |delivered| == i
        invariant forall j :: 0 <= j < i ==>
          && delivered[j] == items[j].(delivery := Some(Delivery(ids[j], message, "", 0)))
          && items[j].queue.Valid()
          && items[j].queue.View() == Enqueue(old(items[j].queue.View()), Delivery(ids[j], message, "", 0))
        invariant forall j :: i <= j < |items| ==>
          items[j].queue.Valid() && items[j].queue.View() == old(items[j].queue.View())
      {
        var d := items[i].queue.Append(message, ids[i]);
        delivered := delivered + [items[i].(delivery := Some(d))];
      }
    }

    /** Queues under different names are different objects. */
    lemma ItemsDiffer(message: Message, items: seq<Published>)
      requires Valid() && IsRouting(queues, message, items)
      ensures forall i, j :: 0 <= i < j < |items| ==> items[i].queue != items[j].queue
      ensures forall i :: 0 <= i < |items| ==>
        items[i].queueName in queues && items[i].queue == queues[items[i].queueName] && items[i].queue.Valid()
      ensures forall n, i ::
        n in queues && !Routing.MatchesAny(queues[n].filters, message.routingKey) && 0 <= i < |items| ==>
        items[i].queue != queues[n]
    {
      hide Routing.MatchesAny;
      forall i, j | 0 <= i < j < |items| ensures items[i].queue != items[j].queue {
        assert IsQueueAt(QueueKey(name, items[i].queueName), items[i].queue);
        assert IsQueueAt(QueueKey(name, items[j].queueName), items[j].queue);
      }
    }

    lemma Delivered(items: seq<Published>, delivered: seq<Published>, message: Message)
      requires IsRouting(queues, message, items) && |delivered| == |items|
      requires forall i :: 0 <= i < |items| ==> delivered[i] == items[i].(delivery := delivered[i].delivery)
      ensures IsRouting(queues, message, delivered)
    {
      hide Routing.MatchesAny;
      forall n | n in queues && Routing.MatchesAny(queues[n].filters, message.routingKey)
        ensures exists i :: 0 <= i < |delivered| && delivered[i].queueName == n
      {
        var i :| 0 <= i < |items| && items[i].queueName == n;
        assert delivered[i].queueName == n;
      }
    }

    /** Routes and appends without a database: every matching queue gets one new delivery, at its end, and the
        caller gets it back with the queue it went to. */
    method Publish(message: Message, ids: seq<Id>) returns (r: Result<seq<Published>>)
      requires Valid() && |queues| <= |ids|
      modifies queues.Values
      ensures Valid() && queues == old(queues)
      ensures r.Ok? <==> Routing.IsValidKey(message.routingKey)
      ensures r.Err? ==>
        r.error == InvalidRoutingKey && forall n :: n in queues ==> queues[n].View() == old(queues[n].View())
      ensures r.Ok? ==> IsRouting(queues, message, r.value) && |r.value| <= |ids|
      ensures r.Ok? ==> forall i :: 0 <= i < |r.value| ==>
        var n := r.value[i].queueName;
        && r.value[i].delivery == Some(Delivery(ids[i], message, "", 0))
        && queues[n].View() == Enqueue(old(queues[n].View()), r.value[i].delivery.value)
      ensures r.Ok? ==> forall n :: n in queues && !Routing.MatchesAny(queues[n].filters, message.routingKey) ==>
        queues[n].View() == old(queues[n].View())
    {
      hide Routing.IsValidKey, Routing.MatchesAny, Registrable, Enqueue;
      r := Route(message);
      if r.Err? { return; }
      var items := r.value;
      RoutingFits(message, items);
      ItemsDiffer(message, items);
      hide IsRouting;
      var delivered := AppendEach(items, message, ids);
      Delivered(items, delivered, message);
      r := Ok(delivered);
    }

    method EnqueueDelivery(n: string, d: Delivery) returns (r: Outcome)
      requires Valid()
      modifies Target(n)
      ensures Valid()
      ensures n !in queues ==> r == Failed(QueueNotFound)
      ensures n in queues ==> r == Done && queues[n].View() == Enqueue(old(queues[n].View()), d)
      ensures n in queues ==> queues[n].ready == old(queues[n].ready) + [d]
    {
      var found := GetQueue(n);
      if found.Err? { return Failed(found.error); }
      found.value.EnqueueDelivery(d);
      r := Done;
    }

    method FetchOrWait(n: string, c: string, maxInFlight: int) returns (r: Result<Delivery>, channel: Option<nat>)
      requires Valid()
      modifies Target(n)
      ensures Valid()
      ensures n !in queues ==> r == Err(QueueNotFound) && channel == None
      ensures n in queues && old(CanFetch(queues[n].View(), c, maxInFlight)) ==>
        && r == Ok(Taken(old(queues[n].View()), c)) && channel == None
        && queues[n].View() == QueueModel.Fetch(old(queues[n].View()), c)
      ensures n in queues && !old(CanFetch(queues[n].View(), c, maxInFlight)) ==>
        && r == Err(FetchError(queues[n].View(), c, maxInFlight)) && queues[n].View() == old(queues[n].View())
        && channel == (if r.error == QueueEmpty then Some(queues[n].readyNotify) else None)
      ensures r == Err(ConsumerNotFound) <==> n in queues && c !in queues[n].consumers
      ensures r == Err(TooManyInFlight) <==>
        n in queues &&
        var held := old(queues[n].inFlight);
        c in queues[n].consumers && maxInFlight > 0 && |set id | id in held && held[id].consumer == c| >= maxInFlight
      ensures r == Err(QueueEmpty) <==>
        n in queues &&
        var held := old(queues[n].inFlight);
        && c in queues[n].consumers && old(queues[n].ready) == []
        && (maxInFlight <= 0 || |set id | id in held && held[id].consumer == c| < maxInFlight)
      ensures r.Err? ==> r.error in [QueueNotFound, ConsumerNotFound, TooManyInFlight, QueueEmpty]
      ensures r.Ok? ==>
        && n in queues && old(queues[n].ready) != []
        && var d := old(queues[n].ready)[0];
           r.value == d.(attempts := d.attempts + 1, consumer := c)
    {
      var found := GetQueue(n);
      if found.Err? { return Err(found.error), None; }
      r, channel := found.value.FetchOrWait(c, maxInFlight);
    }

    method Ack(n: string, id: Id, c: string) returns (r: Outcome)
      requires Valid()
      modifies Target(n)
      ensures Valid()
      ensures n !in queues ==> r == Failed(QueueNotFound)
      ensures n in queues && old(Owns(queues[n].View(), id, c)) ==>
        r == Done && queues[n].View() == Settle(old(queues[n].View()), id)
      ensures n in queues && !old(Owns(queues[n].View(), id, c)) ==>
        r == Failed(OwnerError(queues[n].View(), id)) && queues[n].View() == old(queues[n].View())
      ensures r == Done <==> n in queues && id in old(queues[n].inFlight) && old(queues[n].inFlight)[id].consumer == c
      ensures r == Failed(DeliveryNotFound) <==> n in queues && id !in old(queues[n].inFlight)
      ensures r == Failed(DeliveryOwnerMismatch) <==>
        n in queues && id in old(queues[n].inFlight) && old(queues[n].inFlight)[id].consumer != c
      ensures n in queues ==>
        queues[n].inFlight == if r == Done then old(queues[n].inFlight) - {id} else old(queues[n].inFlight)
    {
      var found := GetQueue(n);
      if found.Err? { return Failed(found.error); }
      r := found.value.Ack(id, c);
    }

    /** A delivery that is given up comes back with the dead letter to store. */
    method NAck(n: string, id: Id, c: string) returns (r: Result<NAckResult>)
      requires Valid()
      modifies Target(n)
      ensures Valid()
      ensures n !in queues ==> r == Err(QueueNotFound)
      ensures n in queues && !old(Owns(queues[n].View(), id, c)) ==>
        r == Err(OwnerError(queues[n].View(), id)) && queues[n].View() == old(queues[n].View())
      ensures n in queues && old(Owns(queues[n].View(), id, c) && GivesUp(queues[n].View(), queues[n].inFlight[id])) ==>
        var d := old(queues[n].inFlight[id]);
        r == Ok(NAckResult(d, Some(DeadLetter(d.message, n, d.attempts))))
          && queues[n].View() == Settle(old(queues[n].View()), id)
      ensures
        (n in queues && old(Owns(queues[n].View(), id, c) && !GivesUp(queues[n].View(), queues[n].inFlight[id]))) ==>
        var d := old(queues[n].inFlight[id]);
        r == Ok(NAckResult(d.(consumer := ""), None)) && queues[n].View() == Requeue(old(queues[n].View()), id)
      ensures r.Ok? ==> r.value.delivery.id == id
      ensures r.Ok? <==> n in queues && id in old(queues[n].inFlight) && old(queues[n].inFlight)[id].consumer == c
      ensures r == Err(DeliveryNotFound) <==> n in queues && id !in old(queues[n].inFlight)
      ensures r == Err(DeliveryOwnerMismatch) <==>
        n in queues && id in old(queues[n].inFlight) && old(queues[n].inFlight)[id].consumer != c
      ensures r.Ok? ==>
        var q, d := queues[n], old(queues[n].inFlight)[id];
        && q.inFlight == old(q.inFlight) - {id} && q.consumers == old(q.consumers)
        && if (q.maxAttempts <= 0 || d.attempts < q.maxAttempts) && exists o :: o in q.consumers && o != c
           then r.value.letter == None && q.ready == old(q.ready) + [d.(consumer := "")]
           else r.value.letter == Some(DeadLetter(d.message, n, d.attempts)) && q.ready == old(q.ready)
    {
      var found := GetQueue(n);
      if found.Err? { return Err(found.error); }
      var rejected := found.value.Reject(id, c);
      if rejected.Err? { return Err(rejected.error); }
      var (d, dead) := rejected.value;
      r := Ok(NAckResult(d, if dead then Some(DeadLetter(d.message, n, d.attempts)) else None));
    }

    method AddConsumer(n: string, c: string) returns (r: Outcome)
      requires Valid()
      modifies Target(n)
      ensures Valid()
      ensures n !in queues ==> r == Failed(QueueNotFound)
      ensures n in queues ==> r == Done && queues[n].View() == Join(old(queues[n].View()), c)
      ensures n in queues ==> queues[n].consumers == old(queues[n].consumers) + {c}
    {
      var found := GetQueue(n);
      if found.Err? { return Failed(found.error); }
      found.value.AddConsumer(c);
      r := Done;
    }

    /** The last consumer of an auto-delete queue takes the queue along. */
    method DisconnectConsumer(n: string, c: string) returns (r: Result<seq<Delivery>>)
      requires Valid()
      modifies this, Target(n)
      ensures Valid()
      ensures n !in old(queues) ==> r == Err(QueueNotFound) && queues == old(queues)
      ensures n in old(queues) ==>
        var q := old(queues[n]);
        && r.Ok? && IsReturnOrder(old(q.View()), c, r.value)
        && q.View() == Disconnect(old(q.View()), c, r.value)
        && queues == (if q.autoDelete && q.consumers == {} then old(queues) - {n} else old(queues))
      ensures n in old(queues) ==>
        var q := old(queues)[n];
        && q.consumers == old(q.consumers) - {c} && q.ready == old(q.ready) + r.value
        && (forall id :: id in q.inFlight <==> id in old(q.inFlight) && old(q.inFlight)[id].consumer != c)
        && (n !in queues <==> q.autoDelete && old(q.consumers) <= {c})
    {
      hide Returns;
      var found := GetQueue(n);
      if found.Err? { return Err(found.error); }
      var q := found.value;
      var returned := q.DisconnectConsumer(c);
      var has := q.HasConsumers();
      if q.autoDelete && !has { queues := queues - {n}; }
      r := Ok(returned);
    }

    method HasActiveConsumers() returns (has: bool)
      ensures has <==> exists n :: n in queues && queues[n].consumers != {}
    {
      var todo := queues.Keys;
      while todo != {}
        invariant todo <= queues.Keys
        invariant forall n :: n in queues && n !in todo ==> queues[n].consumers == {}
      {
        var n :| n in todo;
        var busy := queues[n].HasConsumers();
        if busy { return true; }
        todo := todo - {n};
      }
      has := false;
    }
  }
}
