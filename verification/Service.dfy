/** The service object: each call is a change of memory and a few repository calls, one after the other. */
module ServiceObject {
  import opened Types
  import opened Tables
  import opened QueueModel
  import opened QueueObject
  import opened ExchangeObject
  import opened BrokerObject
  import opened RepositoryObject
  import opened ServiceModel
  import opened ServiceRuns
  import opened RestoreModel
  import opened ServiceFaults
  import opened ServiceOutcomes
  import opened ServiceAnswers
  import opened TopologyAnswers
  import opened PublishingAnswers
  import Request = ServiceModel
  import Routing

  function Row(q: Queue): QueueRow {
    QueueRow(q.durable, q.autoDelete, q.maxAttempts)
  }

  /** A stretch of waiting: the steps others take in it, and whether the time is up at its end. */
  datatype Pause = Pause(steps: nat, timeUp: bool)

  datatype Waited = Woken | TimeUp | OnWait

  class BrokerService {
    const broker: Broker
    const repo: Repository
    const limits: Limits

    ghost predicate Valid()
      reads broker, repo, broker.exchanges.Values, broker.Queues().Values
    {
      broker.Valid() && DbOk(repo.db)
    }

    /** Memory and database as values. */
    ghost function Current(): World
      reads broker, repo, broker.exchanges.Values, broker.Queues().Values
    {
      World(broker.exchanges.Keys, broker.View(), repo.db)
    }

    constructor (broker: Broker, repo: Repository, limits: Limits)
      ensures this.broker == broker && this.repo == repo && this.limits == limits
    {
      this.broker, this.repo, this.limits := broker, repo, limits;
    }

    lemma Known()
      requires Valid()
      ensures broker.Valid() && Sound(Current()) && Current() == World(broker.exchanges.Keys, broker.View(), repo.db)
    {
      hide Registrable;
      forall k | k in broker.View()
        ensures
          var q := broker.View()[k];
          k.exchange in broker.exchanges && q.name == k.name
            && Registrable(q.durable, q.autoDelete, q.maxAttempts, q.filters)
      {
        assert IsQueueAt(k, broker.Queues()[k]);
      }
    }

    lemma CurrentIs()
      ensures Current() == World(broker.exchanges.Keys, broker.View(), repo.db)
    {
    }

    lemma Concluded()
      requires broker.Valid() && DbOk(repo.db)
      ensures Valid() && Current() == World(broker.exchanges.Keys, broker.View(), repo.db)
    {
    }

    lemma DurableAt(key: QueueKey)
      requires Valid() && key in broker.Queues()
      ensures key in broker.View() && broker.View()[key].durable == broker.Queues()[key].durable
    {
      hide DbOk, Broker.Valid, Broker.View, Broker.Queues;
      broker.QueueAt(key);
    }

    /** The exchange and the queue that a key names. */
    method Find(key: QueueKey) returns (r: Result<(Exchange, Queue)>)
      requires Valid()
      ensures r.Err? ==> LookupError(Current(), key) == Some(r.error)
      ensures r.Ok? ==>
        && LookupError(Current(), key) == None && key in broker.Queues()
        && r.value == (broker.exchanges[key.exchange], broker.Queues()[key])
    {
      var exchange := broker.GetExchange(key.exchange);
      if exchange.Err? { return Err(exchange.error); }
      var queue := exchange.value.GetQueue(key.name);
      if queue.Err? { return Err(queue.error); }
      r := Ok((exchange.value, queue.value));
    }

    // -------------------------------------------------------------- exchanges

    method CreateExchange(name: string) returns (r: Result<Exchange>)
      requires Valid()
      modifies broker, repo
      ensures Valid()
      ensures
        Leads(limits, old(Current()), Request.CreateExchange(name), if r.Ok? then Done else Failed(r.error), Current())
      ensures CreateAnswer(old(Current()), name, if r.Ok? then Done else Failed(r.error), Current())
      ensures r.Ok? ==> name in broker.exchanges && r.value == broker.exchanges[name]
    {
      hide *;
      Known();
      ghost var w := Current();
      var exchange := broker.CreateExchange(name);
      var saved := repo.SaveExchange(name);
      CreateExchangeLeads(limits, w, name, saved, World(broker.exchanges.Keys, broker.View(), repo.db));
      Concluded();
      CreateAnswers(limits, w, name, saved, Current());
      r := if saved.Failed? then Err(saved.error) else Ok(exchange);
    }

    lemma BusyExchange(name: string)
      requires Valid() && name in broker.exchanges
      ensures (exists n :: n in broker.exchanges[name].queues && broker.exchanges[name].queues[n].consumers != {}) <==>
              (exists k :: k in broker.View() && k.exchange == name && broker.View()[k].consumers != {})
    {
      hide Registrable, DbOk, IsQueueAt;
      var queues := broker.exchanges[name].queues;
      if n :| n in queues && queues[n].consumers != {} {
        var k := QueueKey(name, n);
        assert k in broker.View() && broker.View()[k] == queues[n].View();
      }
      if k :| k in broker.View() && k.exchange == name && broker.View()[k].consumers != {} {
        assert queues[k.name].consumers != {};
      }
    }

    method DeleteExchangeInMemory(name: string) returns (r: Outcome)
      requires Valid()
      modifies broker
      ensures broker.Valid()
      ensures r != Done ==> broker.exchanges == old(broker.exchanges) && broker.View() == old(broker.View())
      ensures r != Done ==> Refusal(limits, old(Current()), Request.DeleteExchange(name)) == Some(r.error)
      ensures r == Done ==>
        && Accepts(limits, old(Current()), Request.DeleteExchange(name))
        && broker.exchanges == old(broker.exchanges) - {name}
        && broker.View() == map k | k in old(broker.View()) && k.exchange != name :: old(broker.View())[k]
    {
      hide *;
      Known();
      ghost var w := Current();
      var exchange := broker.GetExchange(name);
      broker.NothingChanged();
      if exchange.Err? {
        NoExchangeToDelete(limits, w, name);
        return Failed(exchange.error);
      }
      BusyExchange(name);
      var has := exchange.value.HasActiveConsumers();
      broker.NothingChanged();
      BusyIsRefused(limits, w, name);
      if has { return Failed(ExchangeHasConsumers); }
      r := broker.DeleteExchange(name);
    }

    method DeleteExchange(name: string) returns (r: Outcome)
      requires Valid()
      modifies broker, repo
      ensures Valid()
      ensures Leads(limits, old(Current()), Request.DeleteExchange(name), r, Current())
      ensures DeleteExchangeAnswer(old(Current()), name, r, Current())
    {
      hide *;
      Known();
      ghost var w := Current();
      r := DeleteExchangeInMemory(name);
      if r != Done {
        RefusedLeads(limits, w, Request.DeleteExchange(name), r.error);
        Concluded();
        DeleteExchangeAnswers(limits, w, name, r, Current());
        return;
      }
      r := repo.DeleteExchange(name);
      DeleteExchangeLeads(limits, w, name, r, World(broker.exchanges.Keys, broker.View(), repo.db));
      Concluded();
      DeleteExchangeAnswers(limits, w, name, r, Current());
    }

    // -------------------------------------------------------------- queues

    /** Registers a queue with its exchange. */
    method RegisterAt(exchange: Exchange, key: QueueKey, durable: bool, autoDelete: bool, maxAttempts: int,
                      filters: seq<string>) returns (r: Result<Queue>)
      requires broker.Valid() && key.exchange in broker.exchanges && exchange == broker.exchanges[key.exchange]
      modifies exchange
      ensures broker.Valid() && broker.exchanges == old(broker.exchanges)
      ensures RegistrationError(Existing(old(broker.View()), key), durable, autoDelete, maxAttempts, filters) ==
        if r.Ok? then None else Some(r.error)
      ensures r.Err? ==> broker.View() == old(broker.View()) && broker.Queues() == old(broker.Queues())
      ensures r.Ok? ==>
        && r.value.durable == durable && r.value.autoDelete == autoDelete && r.value.maxAttempts == maxAttempts
        && key in broker.Queues() && r.value == broker.Queues()[key] && r.value.View() == broker.View()[key]
        && broker.View() == WithQueue(old(broker.View()), key, durable, autoDelete, maxAttempts, filters)
        && (key in old(broker.Queues()) ==> broker.Queues() == old(broker.Queues()))
        && (key !in old(broker.Queues()) ==> fresh(r.value) && broker.Queues() == old(broker.Queues())[key := r.value])
    {
      hide AllAt, ViewOf, IsQueueAt, Registrable, SameFilters;
      hide Broker.Valid, Broker.View, Broker.Queues, Exchange.Valid;
      broker.ExchangeValid(key.exchange);
      broker.QueueNamed(key);
      r := exchange.RegisterQueue(key.name, durable, autoDelete, maxAttempts, filters);
      if r.Ok? && key !in old(broker.Queues()) {
        broker.QueueAdded(key, r.value);
      } else {
        broker.NothingChanged();
      }
    }

    method RegisterInMemory(key: QueueKey, durable: bool, autoDelete: bool, maxAttempts: int,
                            filters: seq<string>) returns (r: Result<Queue>)
      requires Valid()
      modifies broker.exchanges.Values
      ensures broker.Valid() && broker.exchanges == old(broker.exchanges)
      ensures r.Err? ==> broker.View() == old(broker.View())
      ensures r.Err? ==>
        Refusal(limits, old(Current()), Request.RegisterQueue(key, durable, autoDelete, maxAttempts, filters))
          == Some(r.error)
      ensures r.Ok? ==>
        && r.value.durable == durable && r.value.autoDelete == autoDelete && r.value.maxAttempts == maxAttempts
        && key in broker.Queues() && r.value == broker.Queues()[key]
        && Registered(limits, old(Current()), Request.RegisterQueue(key, durable, autoDelete, maxAttempts, filters),
                      Row(r.value), r.value.filters, broker.View())
        && (key in old(broker.Queues()) ==> r.value == old(broker.Queues())[key])
    {
      hide *;
      Known();
      ghost var w, call := Current(), Request.RegisterQueue(key, durable, autoDelete, maxAttempts, filters);
      var exchange := broker.GetExchange(key.exchange);
      broker.NothingChanged();
      RegistrationDecides(limits, w, call);
      if exchange.Err? { return Err(exchange.error); }
      if |filters| > limits.maxQueueFilters { return Err(TooManyQueueFilters); }
      r := RegisterAt(exchange.value, key, durable, autoDelete, maxAttempts, filters);
      if r.Ok? {
        RowIs(r.value);
        RegistrationServes(limits, w, call, broker.View());
      }
    }

    lemma RowIs(q: Queue)
      ensures Row(q) == RowOf(q.View()) && q.filters == q.View().filters
    {
    }

    /** Registering again what is already there returns the same queue, and saves it once more. */
    method RegisterQueue(key: QueueKey, durable: bool, autoDelete: bool, maxAttempts: int,
                         filters: seq<string>) returns (r: Result<Queue>)
      requires Valid()
      modifies repo, broker.exchanges.Values
      ensures Valid()
      ensures Leads(limits, old(Current()), Request.RegisterQueue(key, durable, autoDelete, maxAttempts, filters),
                    if r.Ok? then Done else Failed(r.error), Current())
      ensures RegisterAnswer(limits, old(Current()), key, durable, autoDelete, maxAttempts, filters,
                             if r.Ok? then Done else Failed(r.error), Current())
      ensures r.Ok? ==> key in broker.Queues() && r.value == broker.Queues()[key]
      ensures r.Ok? ==>
        r.value.durable == durable && r.value.autoDelete == autoDelete && r.value.maxAttempts == maxAttempts
      ensures r.Ok? && key in old(broker.Queues()) ==> r.value == old(broker.Queues())[key]
    {
      hide *;
      Known();
      ghost var w, call := Current(), Request.RegisterQueue(key, durable, autoDelete, maxAttempts, filters);
      r := RegisterInMemory(key, durable, autoDelete, maxAttempts, filters);
      if r.Err? {
        RefusedLeads(limits, w, call, r.error);
        Concluded();
        RegisterAnswers(limits, w, call, Failed(r.error), Current());
        return;
      }
      ghost var queues := broker.View();
      var row, saved := Row(r.value), Done;
      label registered:
      if row.durable { saved := repo.SaveQueue(key, row, r.value.filters); }
      broker.NothingChanged@registered();
      RegisterQueueLeads(limits, w, call, row, r.value.filters, saved, World(broker.exchanges.Keys, queues, repo.db));
      Concluded();
      RegisterAnswers(limits, w, call, saved, Current());
      if saved.Failed? { r := Err(saved.error); }
    }

    method DeleteAt(exchange: Exchange, key: QueueKey) returns (r: Outcome)
      requires broker.Valid() && key in broker.Queues() && exchange == broker.exchanges[key.exchange]
      modifies exchange
      ensures broker.Valid() && broker.exchanges == old(broker.exchanges)
      ensures DeletedAt(old(broker.View()), key, r, broker.View())
    {
      hide AllAt, ViewOf, IsQueueAt, Registrable;
      hide Broker.Valid, Broker.View, Broker.Queues, Exchange.Valid;
      broker.QueueAt(key);
      r := exchange.DeleteQueue(key.name);
      if r == Done { broker.QueueRemoved(key); } else { broker.NothingChanged(); }
    }

    method DeleteQueueInMemory(key: QueueKey) returns (r: Result<Queue>)
      requires Valid()
      modifies broker.exchanges.Values
      ensures broker.Valid() && broker.exchanges == old(broker.exchanges)
      ensures r.Err? ==> broker.View() == old(broker.View())
      ensures r.Err? ==> Refusal(limits, old(Current()), Request.DeleteQueue(key)) == Some(r.error)
      ensures r.Ok? ==>
        && Accepts(limits, old(Current()), Request.DeleteQueue(key))
        && r.value.durable == old(broker.View())[key].durable && broker.View() == old(broker.View()) - {key}
    {
      hide *;
      Known();
      ghost var w := Current();
      var found := Find(key);
      if found.Err? {
        LookupRefuses(limits, w, Request.DeleteQueue(key), key, found.error);
        return Err(found.error);
      }
      DurableAt(key);
      var deleted := DeleteAt(found.value.0, key);
      DeletedServes(limits, w, key, deleted, broker.View());
      r := if deleted.Failed? then Err(deleted.error) else Ok(found.value.1);
    }

    method DeleteQueue(key: QueueKey) returns (r: Outcome)
      requires Valid()
      modifies repo, broker.exchanges.Values
      ensures Valid()
      ensures Leads(limits, old(Current()), Request.DeleteQueue(key), r, Current())
      ensures DeleteQueueAnswer(old(Current()), key, r, Current())
    {
      hide *;
      Known();
      ghost var w := Current();
      var found := DeleteQueueInMemory(key);
      if found.Err? {
        RefusedLeads(limits, w, Request.DeleteQueue(key), found.error);
        Concluded();
        DeleteQueueAnswers(limits, w, key, Failed(found.error), Current());
        return Failed(found.error);
      }
      r := Done;
      label deleted:
      if found.value.durable { r := repo.DeleteQueue(key); }
      broker.NothingChanged@deleted();
      DeleteQueueLeads(limits, w, key, r, World(broker.exchanges.Keys, broker.View(), repo.db));
      Concluded();
      DeleteQueueAnswers(limits, w, key, r, Current());
    }

    // -------------------------------------------------------------- deliveries

    method FetchAt(exchange: Exchange, key: QueueKey, c: string) returns (r: Result<Delivery>)
      requires broker.Valid() && key in broker.Queues() && exchange == broker.exchanges[key.exchange]
      modifies broker.Queues()[key]
      ensures broker.Valid() && broker.exchanges == old(broker.exchanges) && broker.Queues() == old(broker.Queues())
      ensures FetchedAt(old(broker.View()), key, c, limits.maxInFlight, r, broker.View())
    {
      hide AllAt, ViewOf, IsQueueAt, Registrable, Owned, CanFetch;
      hide Broker.Valid, Broker.View, Broker.Queues, Exchange.Valid;
      broker.QueueAt(key);
      var channel;
      r, channel := exchange.FetchOrWait(key.name, c, limits.maxInFlight);
      broker.OneQueueChanged(key);
    }

    method FetchInMemory(key: QueueKey, c: string) returns (r: Result<Delivery>, durable: bool)
      requires Valid()
      modifies broker.Queues().Values
      ensures broker.Valid() && broker.exchanges == old(broker.exchanges) && broker.Queues() == old(broker.Queues())
      ensures r.Err? ==> broker.View() == old(broker.View())
      ensures r.Err? ==> Refusal(limits, old(Current()), Request.Fetch(key, c)) == Some(r.error)
      ensures r.Ok? ==> HandedOut(limits, old(Current()), key, c, durable, r.value, broker.View())
    {
      hide *;
      Known();
      ghost var w := Current();
      var found := Find(key);
      if found.Err? {
        LookupRefuses(limits, w, Request.Fetch(key, c), key, found.error);
        return Err(found.error), false;
      }
      DurableAt(key);
      durable := found.value.1.durable;
      r := FetchAt(found.value.0, key, c);
      FetchedHandsOut(limits, w, key, c, r, broker.View());
    }

    /** One round of a fetch: what a call without a timeout does, and what a waiting call does each time it wakes. */
    method Fetch(key: QueueKey, c: string) returns (r: Result<Delivery>)
      requires Valid()
      modifies repo, broker.Queues().Values
      ensures Valid() && broker.exchanges == old(broker.exchanges) && broker.Queues() == old(broker.Queues())
      ensures Leads(limits, old(Current()), Request.Fetch(key, c), if r.Ok? then Done else Failed(r.error), Current())
      ensures r.Ok? ==> Hands(old(Current()), key, c, r.value)
      ensures r.Ok? ==> IsHead(old(Current()), key, c, r.value)
      ensures FetchAnswer(limits, old(Current()), key, c, if r.Ok? then Done else Failed(r.error), Current())
    {
      hide *;
      Known();
      ghost var w := Current();
      var durable;
      r, durable := FetchInMemory(key, c);
      if r.Err? {
        RefusedLeads(limits, w, Request.Fetch(key, c), r.error);
        Concluded();
        FetchAnswers(limits, w, key, c, Failed(r.error), Current());
        return;
      }
      var d := r.value;
      var marked := MarkTaken(d, c, durable);
      FetchLeads(limits, w, key, c, durable, d, marked, World(broker.exchanges.Keys, broker.View(), repo.db));
      Concluded();
      FetchAnswers(limits, w, key, c, marked, Current());
      HandsHead(w, key, c, d);
      if marked.Failed? { r := Err(marked.error); }
    }

    /** Stores that a delivery of a durable queue has been taken. */
    method MarkTaken(d: Delivery, c: string, durable: bool) returns (r: Outcome)
      requires broker.Valid()
      modifies repo
      ensures broker.Valid() && broker.Queues() == old(broker.Queues()) && broker.View() == old(broker.View())
      ensures durable ==> RepliedToMark(r, old(repo.db), repo.db, d.id, c, d.attempts)
      ensures !durable ==> r == Done && repo.db == old(repo.db)
    {
      hide *;
      r := Done;
      if durable { r := repo.MarkInFlight(d.id, c, d.attempts); }
      broker.NothingChanged();
    }

    /** One critical section of another client on a queue. */
    method QueueAct(queue: Queue)
      requires queue.Valid()
      modifies queue
      ensures queue.Valid() && WorkedOn(old(queue.View()), queue.View())
    {
      hide Owns, Owned, GivesUp, IsReturnOrder;
      var action: nat, d: Delivery, id: Id, c: string := *, *, *, *;
      match action
      case 0 => queue.EnqueueDelivery(d);
      case 1 => var taken, channel := queue.FetchOrWait(c, limits.maxInFlight);
      case 2 => var acked := queue.Ack(id, c);
      case 3 => var rejected := queue.Reject(id, c);
      case 4 => queue.AddConsumer(c);
      case _ => var returned := queue.DisconnectConsumer(c);
    }

    /** One statement of another client on the deliveries. */
    method RepositoryAct(key: QueueKey)
      requires DbOk(repo.db)
      modifies repo
      ensures DbOk(repo.db) && repo.db == old(repo.db).(deliveries := repo.db.deliveries)
    {
      var action: nat, d: Delivery, time: nat, c: string := *, *, *, *;
      DeletionsDbOk(repo.db, "", key, d.id);
      UpdatesDbOk(repo.db, "", d.id, c, d.attempts, DeadLetter(d.message, "", 0));
      SavedDeliveryDbOk(repo.db, key, d, time);
      hide DbOk;
      var r;
      match action
      case 0 => r := repo.SaveReadyDelivery(key, d, time);
      case 1 => r := repo.MarkInFlight(d.id, c, d.attempts);
      case 2 => r := repo.MarkReady(d.id);
      case _ => r := repo.DeleteDelivery(d.id);
    }

    /** What other clients do to a queue and to delivery rows in a number of steps, in any order. */
    method OthersAct(queue: Queue, key: QueueKey, steps: nat)
      requires Valid() && key in broker.Queues() && queue == broker.Queues()[key]
      modifies repo, queue
      ensures Valid() && broker.Queues() == old(broker.Queues()) && OnlyAt(old(Current()), Current(), key)
    {
      hide *;
      HasQueue(key);
      OnlyAtItself(Current(), key);
      for i := 0 to steps
        invariant Valid() && broker.Queues() == old(broker.Queues()) && OnlyAt(old(Current()), Current(), key)
      {
        ghost var w := Current();
        var onQueue: bool := *;
        if onQueue { OneQueueAct(queue, key); } else { OneRepositoryAct(key); }
        OnlyAtTwice(old(Current()), w, Current(), key);
      }
    }

    lemma HasQueue(key: QueueKey)
      requires Valid() && key in broker.Queues()
      ensures key in Current().queues && Current().queues[key] == broker.Queues()[key].View()
    {
      hide DbOk, Broker.Valid, Broker.View, Broker.Queues;
      broker.QueueAt(key);
    }

    method OneQueueAct(queue: Queue, ghost key: QueueKey)
      requires Valid() && key in broker.Queues() && queue == broker.Queues()[key]
      modifies queue
      ensures Valid() && broker.Queues() == old(broker.Queues()) && OnlyAt(old(Current()), Current(), key)
    {
      hide DbOk, ViewOf, Registrable, AllAt;
      broker.QueueAt(key);
      ghost var w := Current();
      QueueAct(queue);
      broker.ExchangeStillValid(key);
      broker.OneQueueChanged(key);
      hide *;
      Concluded();
      WorkedOnIsOnlyAt(w, Current(), key, queue.View());
    }

    method OneRepositoryAct(key: QueueKey)
      requires Valid() && key in broker.Queues()
      modifies repo
      ensures Valid() && broker.Queues() == old(broker.Queues()) && OnlyAt(old(Current()), Current(), key)
    {
      hide DbOk, AllAt, ViewOf;
      hide Broker.Valid, Broker.View, Broker.Queues, Exchange.Valid;
      HasQueue(key);
      ghost var w := Current();
      RepositoryAct(key);
      broker.NothingChanged();
      hide *;
      Concluded();
      RowsAreOnlyAt(w, Current(), key);
    }

    /** The waiting fetch. While it waits, other clients work on the queue and on delivery rows; `pauses` says how many
        steps they take until the next look at the channel, and whether the time is up by then. Whatever happens in
        between, the answer is that of its last round, from the world `w` that round found, which differs from the
        first one in this queue and in delivery rows only. If it gives up and the channel it waited on is still open,
        the queue is still empty; and it gives up with something in the queue only if the time was up. */
    method BlockingFetch(key: QueueKey, c: string, pauses: seq<Pause>) returns (r: Result<Delivery>, ghost w: World)
      requires Valid()
      modifies repo, broker.Queues().Values
      ensures Valid()
      ensures w == old(Current()) || (pauses != [] && OnlyAt(old(Current()), w, key))
      ensures r != Err(QueueEmpty) ==>
        Leads(limits, w, Request.Fetch(key, c), if r.Ok? then Done else Failed(r.error), Current())
      ensures r.Ok? ==> Hands(w, key, c, r.value) && IsHead(w, key, c, r.value)
      ensures FetchAnswer(limits, w, key, c, if r.Ok? then Done else Failed(r.error),
                          if r == Err(QueueEmpty) then w else Current())
      ensures r == Err(QueueEmpty) ==> Leads(limits, w, Request.Fetch(key, c), Failed(QueueEmpty), w)
      ensures r == Err(QueueEmpty) ==> if pauses == [] then Current() == w else OnlyAt(w, Current(), key)
      ensures r == Err(QueueEmpty) ==>
        && key in w.queues && key in Current().queues
        && (w.queues[key].channels.current !in Current().queues[key].channels.closed ==>
             Current().queues[key].ready == [])
        && ((forall i :: 0 <= i < |pauses| ==> !pauses[i].timeUp) ==> Current().queues[key].ready == [])
    {
      hide *;
      w := Current();
      var found := FindQueue(key, c);
      if found.Err? { return Err(found.error), w; }
      HasQueue(key);
      OnlyAtItself(w, key);
      var i := 0;
      r := Round(key, c);
      if r == Err(QueueEmpty) { FoundEmpty(w, key, c, r); }
      while r == Err(QueueEmpty) && i < |pauses|
        invariant i <= |pauses| && Valid() && broker.Queues() == old(broker.Queues())
        invariant key in broker.Queues() && found.value == broker.Queues()[key]
        invariant if r == Err(QueueEmpty) then Waiting(limits, w, Current(), key, c) else RoundFrom(w, key, c, r)
        invariant OnlyAt(old(Current()), w, key) && (i == 0 ==> w == old(Current()))
        invariant i == 0 && r == Err(QueueEmpty) ==> Current() == w
        decreases |pauses| - i
      {
        ghost var w1 := Current();
        var waited := Wait(found.value, key, pauses[i]);
        StillEmptyUnlessWoken(limits, w, w1, Current(), key, c);
        if waited == TimeUp { return; }
        if waited == Woken {
          OnlyAtTwice(old(Current()), w, Current(), key);
          w := Current();
          r := Round(key, c);
          if r == Err(QueueEmpty) { FoundEmpty(w, key, c, r); }
        } else {
          GoesOnWaiting(limits, w, w1, Current(), key, c);
        }
        i := i + 1;
      }
      if r == Err(QueueEmpty) { WaitedInVain(limits, w, Current(), key, c); } else { RoundIs(w, key, c, r); }
    }

    /** The last round went from `w` to the present, and found the queue empty if that is its answer. */
    ghost predicate RoundFrom(w: World, key: QueueKey, c: string, r: Result<Delivery>)
      reads broker, repo, broker.exchanges.Values, broker.Queues().Values
    {
      && Leads(limits, w, Request.Fetch(key, c), if r.Ok? then Done else Failed(r.error), Current())
      && FetchAnswer(limits, w, key, c, if r.Ok? then Done else Failed(r.error), Current())
      && (r.Ok? ==> Hands(w, key, c, r.value) && IsHead(w, key, c, r.value))
      && (r == Err(QueueEmpty) ==> Current() == w && key in w.queues && w.queues[key].ready == [])
    }

    lemma RoundIs(w: World, key: QueueKey, c: string, r: Result<Delivery>)
      requires RoundFrom(w, key, c, r)
      ensures Leads(limits, w, Request.Fetch(key, c), if r.Ok? then Done else Failed(r.error), Current())
      ensures FetchAnswer(limits, w, key, c, if r.Ok? then Done else Failed(r.error), Current())
      ensures r.Ok? ==> Hands(w, key, c, r.value) && IsHead(w, key, c, r.value)
    {
      hide Leads, Hands, Current, FetchAnswer, IsHead;
    }

    lemma FoundEmpty(w: World, key: QueueKey, c: string, r: Result<Delivery>)
      requires Valid() && key in broker.Queues() && RoundFrom(w, key, c, r) && r == Err(QueueEmpty)
      ensures Waiting(limits, w, Current(), key, c) && Current() == w
    {
      ChannelIsOpen(key);
      hide Leads, Hands, Current, FetchAnswer, IsHead, Valid;
      OnlyAtItself(w, key);
    }

    lemma ChannelIsOpen(key: QueueKey)
      requires Valid() && key in broker.Queues()
      ensures key in Current().queues
      ensures Current().queues[key].channels.current !in Current().queues[key].channels.closed
    {
      hide DbOk, Broker.Valid, Broker.View, Broker.Queues;
      broker.QueueAt(key);
    }

    /** The queue a fetch waits on. */
    method FindQueue(key: QueueKey, ghost c: string) returns (r: Result<Queue>)
      requires Valid()
      ensures Valid() && Current() == old(Current()) && broker.Queues() == old(broker.Queues())
      ensures r.Ok? ==> key in broker.Queues() && r.value == broker.Queues()[key]
      ensures r.Err? ==>
        && r.error != QueueEmpty && Leads(limits, Current(), Request.Fetch(key, c), Failed(r.error), Current())
        && FetchAnswer(limits, Current(), key, c, Failed(r.error), Current())
    {
      hide *;
      Known();
      SoundDb(Current());
      var found := Find(key);
      broker.NothingChanged();
      Concluded();
      if found.Err? {
        FetchNotFound(limits, Current(), key, c, found.error);
        FetchAnswers(limits, Current(), key, c, Failed(found.error), Current());
        return Err(found.error);
      }
      r := Ok(found.value.1);
    }

    lemma QueueIs(queue: Queue)
      ensures queue.View().channels == Channels(queue.readyNotify, queue.closed)
    {
    }

    /** Waits on the current channel while others act: it is closed, or the time is up, or neither. */
    method Wait(queue: Queue, key: QueueKey, pause: Pause) returns (waited: Waited)
      requires Valid() && key in broker.Queues() && queue == broker.Queues()[key]
      modifies repo, queue
      ensures Valid() && broker.Queues() == old(broker.Queues()) && OnlyAt(old(Current()), Current(), key)
      ensures key in old(Current()).queues && key in Current().queues
      ensures var channel := old(Current()).queues[key].channels.current;
        match waited
        case Woken => channel in Current().queues[key].channels.closed
        case TimeUp => pause.timeUp
        case OnWait => channel !in Current().queues[key].channels.closed
    {
      hide *;
      var channel := queue.readyNotify;
      HasQueue(key);
      QueueIs(queue);
      ghost var w := Current();
      OthersAct(queue, key, pause.steps);
      HasQueue(key);
      QueueIs(queue);
      NotifiedOnClose(w, Current(), key);
      ChannelIsOpen(key);
      var late: bool := *;
      waited := if pause.timeUp && (late || queue.readyNotify == channel) then TimeUp
                else if queue.readyNotify != channel then Woken else OnWait;
    }

    /** One round: it comes back empty-handed only from an empty queue, with nothing changed. */
    method Round(key: QueueKey, c: string) returns (r: Result<Delivery>)
      requires Valid() && key in broker.Queues()
      modifies repo, broker.Queues().Values
      ensures Valid() && broker.Queues() == old(broker.Queues())
      ensures RoundFrom(old(Current()), key, c, r)
    {
      hide DbOk, AllAt, ViewOf, IsQueueAt, Leads, Hands, Current, Valid, FetchAnswer, IsHead;
      hide Broker.Valid, Broker.View, Broker.Queues, Exchange.Valid;
      r := Fetch(key, c);
      if r == Err(QueueEmpty) {
        StillEmpty(limits, old(Current()), key, c, Current());
        HasQueue(key);
        EmptyWhenRefused(limits, old(Current()), key, c);
      }
    }

    method AckAt(exchange: Exchange, key: QueueKey, id: Id, c: string) returns (r: Outcome)
      requires broker.Valid() && key in broker.Queues() && exchange == broker.exchanges[key.exchange]
      modifies broker.Queues()[key]
      ensures broker.Valid() && broker.exchanges == old(broker.exchanges)
      ensures AckedAt(old(broker.View()), key, id, c, r, broker.View())
    {
      hide AllAt, ViewOf, IsQueueAt, Registrable, Owns, Settle, OwnerError;
      hide Broker.Valid, Broker.View, Broker.Queues, Exchange.Valid;
      broker.QueueAt(key);
      r := exchange.Ack(key.name, id, c);
      broker.OneQueueChanged(key);
    }

    method AckInMemory(key: QueueKey, id: Id, c: string) returns (r: Result<Queue>)
      requires Valid()
      modifies broker.Queues().Values
      ensures broker.Valid() && broker.exchanges == old(broker.exchanges)
      ensures r.Err? ==> broker.View() == old(broker.View())
      ensures r.Err? ==> Refusal(limits, old(Current()), Request.Ack(key, id, c)) == Some(r.error)
      ensures r.Ok? ==>
        && Accepts(limits, old(Current()), Request.Ack(key, id, c))
        && r.value.durable == old(broker.View())[key].durable
        && broker.View() == AckIn(old(Current()), key, id).queues
    {
      hide *;
      Known();
      ghost var w := Current();
      var found := Find(key);
      if found.Err? {
        LookupRefuses(limits, w, Request.Ack(key, id, c), key, found.error);
        return Err(found.error);
      }
      DurableAt(key);
      var acked := AckAt(found.value.0, key, id, c);
      AckedServes(limits, w, key, id, c, acked, broker.View());
      r := if acked.Failed? then Err(acked.error) else Ok(found.value.1);
    }

    method Ack(key: QueueKey, id: Id, c: string) returns (r: Outcome)
      requires Valid()
      modifies repo, broker.Queues().Values
      ensures Valid()
      ensures Leads(limits, old(Current()), Request.Ack(key, id, c), r, Current())
      ensures AckAnswer(old(Current()), key, id, c, r, Current())
    {
      hide *;
      Known();
      ghost var w := Current();
      var found := AckInMemory(key, id, c);
      if found.Err? {
        RefusedLeads(limits, w, Request.Ack(key, id, c), found.error);
        Concluded();
        AckAnswers(limits, w, key, id, c, Failed(found.error), Current());
        return Failed(found.error);
      }
      r := DeleteRow(id, found.value.durable);
      AckLeads(limits, w, key, id, c, r, World(broker.exchanges.Keys, broker.View(), repo.db));
      Concluded();
      AckAnswers(limits, w, key, id, c, r, Current());
    }

    /** Deletes the row of a delivery of a durable queue. */
    method DeleteRow(id: Id, durable: bool) returns (r: Outcome)
      requires broker.Valid()
      modifies repo
      ensures broker.Valid() && broker.Queues() == old(broker.Queues()) && broker.View() == old(broker.View())
      ensures durable ==> Replied(r, true, old(repo.db), repo.db, DeleteDelivery(old(repo.db), id))
      ensures !durable ==> r == Done && repo.db == old(repo.db)
    {
      hide *;
      r := Done;
      if durable { r := repo.DeleteDelivery(id); }
      broker.NothingChanged();
    }

    /** Rejects a delivery of the queue at a key. */
    method RejectAt(exchange: Exchange, key: QueueKey, id: Id, c: string) returns (r: Result<NAckResult>)
      requires broker.Valid() && key in broker.Queues() && exchange == broker.exchanges[key.exchange]
      modifies broker.Queues()[key]
      ensures broker.Valid() && broker.exchanges == old(broker.exchanges)
      ensures r.Err? ==> RefusedAt(old(broker.View()), key, id, c, r.error, broker.View())
      ensures r.Ok? ==>
        r.value.delivery.id == id && RejectedAt(old(broker.View()), key, id, c, r.value.letter, broker.View())
    {
      hide AllAt, ViewOf, IsQueueAt, Registrable, Owns, Settle, OwnerError, GivesUp, Requeue;
      hide Broker.Valid, Broker.View, Broker.Queues, Exchange.Valid;
      broker.QueueAt(key);
      r := exchange.NAck(key.name, id, c);
      broker.OneQueueChanged(key);
    }

    method NAckInMemory(key: QueueKey, id: Id, c: string, ghost letterId: Id) returns (r: Result<NAckResult>,
                        durable: bool)
      requires Valid() && letterId !in repo.db.letters
      modifies broker.Queues().Values
      ensures broker.Valid() && broker.exchanges == old(broker.exchanges)
      ensures r.Err? ==>
        broker.View() == old(broker.View())
          && Refusal(limits, old(Current()), Request.NAck(key, id, c, letterId)) == Some(r.error)
      ensures r.Ok? ==>
        && r.value.delivery.id == id
        && TurnedDown(limits, old(Current()), key, id, c, letterId, durable, r.value.letter, broker.View())
    {
      hide *;
      Known();
      ghost var w := Current();
      var found := Find(key);
      if found.Err? {
        LookupRefuses(limits, w, Request.NAck(key, id, c, letterId), key, found.error);
        return Err(found.error), false;
      }
      broker.QueueAt(key);
      durable := found.value.1.durable;
      r := RejectAt(found.value.0, key, id, c);
      if r.Err? {
        NotOwnedIsRefused(limits, w, key, id, c, letterId, r.error, broker.View());
      } else {
        OwnedIsTurnedDown(limits, w, key, id, c, letterId, r.value.letter, broker.View());
      }
    }

    /** The repository calls of a NAck. */
    method SettleRejected(key: QueueKey, durable: bool, result: NAckResult, letterId: Id) returns (r: Outcome)
      modifies repo
      ensures RepliedToRejection(key, durable, result.delivery.id, result.letter, letterId, old(repo.db), r, repo.db)
    {
      if result.letter.Some? {
        if durable {
          r := repo.DeleteDelivery(result.delivery.id);
          if r != Done { return; }
        }
        r := repo.SaveDeadLetter(key.exchange, result.letter.value, letterId);
      } else {
        r := Done;
        if durable { r := repo.MarkReady(result.delivery.id); }
      }
    }

    /** The row of a delivery that is given up is deleted before its dead letter is stored. */
    method NAck(key: QueueKey, id: Id, c: string, letterId: Id) returns (r: Outcome)
      requires Valid() && letterId !in repo.db.letters
      modifies repo, broker.Queues().Values
      ensures Valid()
      ensures Leads(limits, old(Current()), Request.NAck(key, id, c, letterId), r, Current())
      ensures NAckAnswer(old(Current()), key, id, c, letterId, r, Current())
    {
      hide *;
      Known();
      ghost var w := Current();
      var found, durable := NAckInMemory(key, id, c, letterId);
      if found.Err? {
        RefusedLeads(limits, w, Request.NAck(key, id, c, letterId), found.error);
        Concluded();
        NAckAnswers(limits, w, key, id, c, letterId, Failed(found.error), Current());
        return Failed(found.error);
      }
      var result := found.value;
      label rejected:
      r := SettleRejected(key, durable, result, letterId);
      broker.NothingChanged@rejected();
      NAckLeads(limits, w, key, id, c, letterId, durable, result.letter, r,
        World(broker.exchanges.Keys, broker.View(), repo.db));
      Concluded();
      NAckAnswers(limits, w, key, id, c, letterId, r, Current());
    }

    method AddAt(exchange: Exchange, key: QueueKey, c: string)
      requires broker.Valid() && key in broker.Queues() && exchange == broker.exchanges[key.exchange]
      modifies broker.Queues()[key]
      ensures broker.Valid() && broker.exchanges == old(broker.exchanges)
      ensures JoinedAt(old(broker.View()), key, c, broker.View())
    {
      hide AllAt, ViewOf, IsQueueAt, Registrable, Join;
      hide Broker.Valid, Broker.View, Broker.Queues, Exchange.Valid;
      broker.QueueAt(key);
      var added := exchange.AddConsumer(key.name, c);
      broker.OneQueueChanged(key);
    }

    method AddInMemory(key: QueueKey, c: string) returns (r: Outcome)
      requires Valid()
      modifies broker.Queues().Values
      ensures broker.Valid() && broker.exchanges == old(broker.exchanges)
      ensures r != Done ==> broker.View() == old(broker.View())
      ensures r != Done ==> Refusal(limits, old(Current()), Request.AddConsumer(key, c)) == Some(r.error)
      ensures r == Done ==> Accepts(limits, old(Current()), Request.AddConsumer(key, c))
      ensures r == Done ==> broker.View() == JoinedBy(old(Current()), key, c)
    {
      hide *;
      Known();
      ghost var w := Current();
      var found := Find(key);
      if found.Err? {
        LookupRefuses(limits, w, Request.AddConsumer(key, c), key, found.error);
        return Failed(found.error);
      }
      AddAt(found.value.0, key, c);
      JoinedServes(limits, w, key, c, broker.View());
      r := Done;
    }

    method AddConsumer(key: QueueKey, c: string) returns (r: Outcome)
      requires Valid()
      modifies broker.Queues().Values
      ensures Valid()
      ensures Leads(limits, old(Current()), Request.AddConsumer(key, c), r, Current())
      ensures AddAnswer(old(Current()), key, c, r, Current())
    {
      hide *;
      Known();
      ghost var w := Current();
      r := AddInMemory(key, c);
      if r != Done {
        RefusedLeads(limits, w, Request.AddConsumer(key, c), r.error);
      } else {
        AddConsumerLeads(limits, w, key, c, World(broker.exchanges.Keys, broker.View(), repo.db));
      }
      Concluded();
      AddAnswers(limits, w, key, c, r, Current());
    }

    method DisconnectAt(exchange: Exchange, key: QueueKey, c: string) returns (returned: seq<Delivery>)
      requires broker.Valid() && key in broker.Queues() && exchange == broker.exchanges[key.exchange]
      modifies exchange, broker.Queues()[key]
      ensures broker.Valid() && broker.exchanges == old(broker.exchanges)
      ensures DisconnectedAt(old(broker.View()), key, c, returned, broker.View())
    {
      hide AllAt, ViewOf, IsQueueAt, Registrable, IsReturnOrder, Disconnect;
      hide Broker.Valid, Broker.View, Broker.Queues, Exchange.Valid;
      broker.QueueAt(key);
      var r := exchange.DisconnectConsumer(key.name, c);
      returned := r.value;
      if key.name in exchange.queues { broker.OneQueueChanged(key); } else { broker.QueueRemoved(key); }
    }

    method DisconnectInMemory(key: QueueKey, c: string) returns (r: Result<seq<Delivery>>, durable: bool)
      requires Valid()
      modifies broker.exchanges.Values, broker.Queues().Values
      ensures broker.Valid() && broker.exchanges == old(broker.exchanges)
      ensures r.Err? ==> broker.View() == old(broker.View())
      ensures r.Err? ==> forall returned ::
        Refusal(limits, old(Current()), Request.DisconnectConsumer(key, c, returned)) == Some(r.error)
      ensures r.Ok? ==> Departed(limits, old(Current()), key, c, durable, r.value, broker.View())
    {
      hide *;
      Known();
      ghost var w := Current();
      var found := Find(key);
      if found.Err? {
        forall returned ensures Refusal(limits, w, Request.DisconnectConsumer(key, c, returned)) == Some(found.error) {
          LookupRefuses(limits, w, Request.DisconnectConsumer(key, c, returned), key, found.error);
        }
        return Err(found.error), false;
      }
      DurableAt(key);
      durable := found.value.1.durable;
      var returned := DisconnectAt(found.value.0, key, c);
      DisconnectedDeparts(limits, w, key, c, returned, broker.View());
      r := Ok(returned);
    }

    /** Marks rows as ready, one by one, up to the first failure. */
    method ReleaseRows(ds: seq<Delivery>) returns (r: Outcome, ghost n: nat)
      modifies repo
      ensures RepliedToRelease(ds, n, r, old(repo.db), repo.db)
    {
      r, n := Done, 0;
      for i := 0 to |ds|
        invariant n == i && r == Done && repo.db == MarkAllReady(old(repo.db), ds[..i])
      {
        assert ds[..i + 1][..i] == ds[..i];
        r := repo.MarkReady(ds[i].id);
        if r != Done {
          if repo.db != MarkAllReady(old(repo.db), ds[..i]) { n := i + 1; }
          return;
        }
        n := i + 1;
      }
    }

    method DisconnectConsumer(key: QueueKey, c: string) returns (r: Outcome, ghost returned: seq<Delivery>)
      requires Valid()
      modifies repo, broker.exchanges.Values, broker.Queues().Values
      ensures Valid()
      ensures Leads(limits, old(Current()), Request.DisconnectConsumer(key, c, returned), r, Current())
      ensures DisconnectAnswer(old(Current()), key, c, returned, r, Current())
    {
      hide *;
      Known();
      ghost var w, n := Current(), 0;
      var gone, durable := DisconnectInMemory(key, c);
      if gone.Err? {
        returned := [];
        RefusedLeads(limits, w, Request.DisconnectConsumer(key, c, returned), gone.error);
        Concluded();
        DisconnectAnswers(limits, w, key, c, returned, Failed(gone.error), Current());
        return Failed(gone.error), returned;
      }
      ghost var queues := broker.View();
      r, returned := Done, gone.value;
      label departed:
      if durable { r, n := ReleaseRows(gone.value); }
      broker.NothingChanged@departed();
      DisconnectLeads(limits, w, key, c, durable, returned, n, r, World(broker.exchanges.Keys, queues, repo.db));
      Concluded();
      DisconnectAnswers(limits, w, key, c, returned, r, Current());
    }

    // -------------------------------------------------------------- publishing

    /** The keys of the routed queues, in the order they are served. */
    ghost function KeysOf(exchange: string, published: seq<Published>): (order: seq<QueueKey>)
      ensures |order| == |published| && forall i :: 0 <= i < |order| ==>
        order[i] == QueueKey(exchange, published[i].queueName)
    {
      seq(|published|, i requires 0 <= i < |published| => QueueKey(exchange, published[i].queueName))
    }

    lemma RoutingIsRoute(exchange: string, message: Message, published: seq<Published>)
      requires Valid() && exchange in broker.exchanges
      requires IsRouting(broker.exchanges[exchange].queues, message, published)
      ensures IsRoute(broker.View(), exchange, message.routingKey, KeysOf(exchange, published))
    {
      hide Routing.MatchesAny, DbOk, IsQueueAt;
      var order, queues := KeysOf(exchange, published), broker.exchanges[exchange].queues;
      forall k | k in broker.View() && k.exchange == exchange
        && Routing.MatchesAny(broker.View()[k].filters, message.routingKey)
        ensures k in order
      {
        assert k.name in queues && Routing.MatchesAny(queues[k.name].filters, message.routingKey);
        var i :| 0 <= i < |published| && published[i].queueName == k.name;
        assert order[i] == k;
      }
      forall k | k in order
        ensures k in broker.View() && k.exchange == exchange
        ensures Routing.MatchesAny(broker.View()[k].filters, message.routingKey)
      {
        var i :| 0 <= i < |order| && order[i] == k;
        assert k.name in queues && broker.View()[k] == queues[k.name].View();
      }
    }

    /** One round of the publish loop: a durable queue gets its row before its delivery. */
    method OfferOne(exchange: Exchange, item: Published, ghost key: QueueKey, mint: Mint) returns (r: Outcome)
      requires broker.Valid() && key in broker.Queues() && exchange == broker.exchanges[key.exchange]
      requires item.queueName == key.name && item.queue == broker.Queues()[key]
      modifies repo, broker.Queues()[key]
      ensures broker.Valid() && broker.exchanges == old(broker.exchanges) && broker.Queues() == old(broker.Queues())
      ensures Offered(old(Current()), key, item.message, mint, r, Current())
    {
      hide *;
      broker.QueueAt(key);
      CurrentIs();
      ghost var w := Current();
      var d := Delivery(mint.id, item.message, "", 0);
      if item.queue.durable {
        r := StoreAt(QueueKey(exchange.name, item.queueName), d, mint.time);
        CurrentIs();
        if r != Done {
          NotOffered(w, key, item.message, mint, r, Current());
          return;
        }
      }
      ghost var w1 := Current();
      r := EnqueueAt(exchange, item.queueName, d, key);
      CurrentIs();
      OfferedAt(w, key, item.message, mint, w1.db, Current());
    }

    method StoreAt(key: QueueKey, d: Delivery, time: nat) returns (r: Outcome)
      requires broker.Valid()
      modifies repo
      ensures broker.Valid() && broker.Queues() == old(broker.Queues()) && broker.View() == old(broker.View())
      ensures Replied(r, CanSaveDelivery(old(repo.db), key, d.id), old(repo.db), repo.db,
                      SaveReadyDelivery(old(repo.db), key, d, time))
    {
      hide *;
      r := repo.SaveReadyDelivery(key, d, time);
      broker.NothingChanged();
    }

    method EnqueueAt(exchange: Exchange, n: string, d: Delivery, ghost key: QueueKey) returns (r: Outcome)
      requires broker.Valid() && key in broker.Queues() && exchange == broker.exchanges[key.exchange] && n == key.name
      modifies broker.Queues()[key]
      ensures broker.Valid() && broker.exchanges == old(broker.exchanges) && broker.Queues() == old(broker.Queues())
      ensures r == Done && key in old(broker.View())
      ensures broker.View() == old(broker.View())[key := Enqueue(old(broker.View())[key], d)]
    {
      hide AllAt, ViewOf, IsQueueAt, Registrable, Enqueue;
      hide Broker.Valid, Broker.View, Broker.Queues, Exchange.Valid;
      broker.QueueAt(key);
      r := exchange.EnqueueDelivery(n, d);
      broker.OneQueueChanged(key);
    }

    ghost predicate AreItems(exchange: string, message: Message, published: seq<Published>, order: seq<QueueKey>)
      reads broker, broker.exchanges.Values
    {
      && exchange in broker.exchanges && |order| == |published|
      && forall i :: 0 <= i < |order| ==>
           && order[i] == QueueKey(exchange, published[i].queueName) && order[i] in broker.Queues()
           && published[i].queue == broker.Queues()[order[i]] && published[i].message == message
    }

    lemma AreRoutedItems(exchange: string, message: Message, published: seq<Published>)
      requires Valid() && exchange in broker.exchanges
      requires IsRouting(broker.exchanges[exchange].queues, message, published)
      ensures AreItems(exchange, message, published, KeysOf(exchange, published))
    {
      hide Routing.MatchesAny, DbOk, IsQueueAt, AllAt;
    }

    /** The checks of a publish, and the queues it is for. */
    method RouteMessage(exchange: string, message: Message, ghost mints: seq<Mint>) returns (r: Result<seq<Published>>,
                        ghost order: seq<QueueKey>)
      requires Valid() && AreFresh(Current(), mints) && |Current().queues| <= |mints|
      ensures r.Err? ==> Refusal(limits, Current(), Request.Publish(exchange, message, order, mints)) == Some(r.error)
      ensures r.Ok? ==>
        && Accepts(limits, Current(), Request.Publish(exchange, message, order, mints)) && |order| <= |mints|
        && AreItems(exchange, message, r.value, order)
    {
      hide *;
      Known();
      order := [];
      ghost var w := Current();
      PublishChecks(limits, w, exchange, message, mints);
      if |message.payload| > limits.maxMessageSize { return Err(MessageTooLarge), order; }
      if |message.routingKey| > limits.maxRoutingKeyLength { return Err(RoutingKeyTooLong), order; }
      r := RouteFrom(exchange, message);
      CurrentIs();
      if r.Err? { return; }
      RoutingIsRoute(exchange, message, r.value);
      order := KeysOf(exchange, r.value);
      AreRoutedItems(exchange, message, r.value);
      PublishPasses(limits, w, exchange, message, order, mints);
    }

    method RouteFrom(exchange: string, message: Message) returns (r: Result<seq<Published>>)
      requires Valid()
      ensures Valid() && broker.Queues() == old(broker.Queues()) && broker.View() == old(broker.View())
      ensures exchange !in broker.exchanges ==> r == Err(ExchangeNotFound)
      ensures exchange in broker.exchanges && !Routing.IsValidKey(message.routingKey) ==> r == Err(InvalidRoutingKey)
      ensures exchange in broker.exchanges && Routing.IsValidKey(message.routingKey) ==>
        r.Ok? && IsRouting(broker.exchanges[exchange].queues, message, r.value)
    {
      hide *;
      Known();
      SoundDb(Current());
      var found := broker.GetExchange(exchange);
      if found.Err? {
        r := Err(found.error);
      } else {
        broker.ExchangeValid(exchange);
        r := found.value.Route(message);
      }
      broker.NothingChanged();
      Concluded();
    }

    /** UUIDs and row times are given by `mints`, one per queue. */
    method Publish(exchange: string, message: Message, mints: seq<Mint>) returns (r: Outcome,
                   ghost order: seq<QueueKey>)
      requires Valid() && AreFresh(Current(), mints) && |Current().queues| <= |mints|
      modifies repo, broker.Queues().Values
      ensures Valid()
      ensures Leads(limits, old(Current()), Request.Publish(exchange, message, order, mints), r, Current())
      ensures PublishAnswer(limits, old(Current()), exchange, message, mints, r, Current())
    {
      hide *;
      Known();
      ghost var w := Current();
      var routed;
      routed, order := RouteMessage(exchange, message, mints);
      ghost var call := Request.Publish(exchange, message, order, mints);
      if routed.Err? {
        RefusedLeads(limits, w, call, routed.error);
        Concluded();
        PublishAnswers(limits, w, call, Failed(routed.error), Current());
        return Failed(routed.error), order;
      }
      ghost var n;
      r, n := OfferEach(exchange, message, routed.value, order, mints);
      PublishLeads(limits, w, call, n, r, Current());
      CurrentIs();
      Concluded();
      PublishAnswers(limits, w, call, r, Current());
    }

    method OfferEach(exchange: string, message: Message, published: seq<Published>, ghost order: seq<QueueKey>,
                     mints: seq<Mint>)
      returns (r: Outcome, ghost n: nat)
      requires Valid() && AreItems(exchange, message, published, order) && |order| <= |mints|
      modifies repo, broker.Queues().Values
      ensures broker.Valid()
      ensures r == Done ==> n == |order| && Reached(old(Current()), order, message, mints, n, Current())
      ensures r != Done ==>
        r == Failed(StorageError) && BrokenPublish(old(Current()), order, message, mints, n, Current())
    {
      Known();
      ghost var w := Current();
      ItemsAt(exchange, message, published, order);
      StartsReached(w, order, message, mints);
      hide *;
      r, n := Done, 0;
      for i := 0 to |published|
        invariant n == i && r == Done && |order| == |published| && exchange in broker.exchanges
        invariant broker.Valid() && broker.exchanges == old(broker.exchanges) && broker.Queues() == old(broker.Queues())
        invariant Reached(w, order, message, mints, i, Current())
      {
        ghost var w1 := Current();
        r := OfferOne(broker.exchanges[exchange], published[i], order[i], mints[i]);
        ReachedNext(w, order, message, mints, i, w1, r, Current());
        if r != Done { return; }
        n := i + 1;
      }
    }

    lemma ItemsAt(exchange: string, message: Message, published: seq<Published>, order: seq<QueueKey>)
      requires AreItems(exchange, message, published, order)
      ensures exchange in broker.exchanges && |order| == |published| && forall k :: k in order ==> k in broker.View()
      ensures forall i :: 0 <= i < |order| ==>
        && order[i] in broker.Queues() && order[i].exchange == exchange && order[i].name == published[i].queueName
        && published[i].queue == broker.Queues()[order[i]] && published[i].message == message
    {
    }

    // -------------------------------------------------------------- restart

    method RestoreExchanges(names: seq<string>)
      requires broker.Valid()
      modifies broker
      ensures broker.Valid() && broker.exchanges.Keys == old(broker.exchanges.Keys) + AsSet(names)
      ensures broker.View() == old(broker.View()) && broker.Queues() == old(broker.Queues())
      ensures forall e :: e in broker.exchanges.Values ==> e in old(broker.exchanges.Values) || fresh(e)
    {
      hide AllAt, ViewOf, IsQueueAt;
      hide Broker.Valid, Broker.View, Broker.Queues, Exchange.Valid;
      for i := 0 to |names|
        invariant broker.Valid() && broker.exchanges.Keys == old(broker.exchanges.Keys) + AsSet(names[..i])
        invariant broker.View() == old(broker.View()) && broker.Queues() == old(broker.Queues())
        invariant forall e :: e in broker.exchanges.Values ==> e in old(broker.exchanges.Values) || fresh(e)
      {
        assert names[..i + 1] == names[..i] + [names[i]];
        var exchange := broker.CreateExchange(names[i]);
      }
      assert names[..|names|] == names;
    }

    method RestoreQueue(q: StoredQueue) returns (r: Outcome)
      requires broker.Valid()
      modifies broker.exchanges.Values
      ensures broker.Valid() && broker.exchanges == old(broker.exchanges)
      ensures forall x :: x in broker.Queues().Values ==> x in old(broker.Queues()).Values || fresh(x)
      ensures RegisteredStored(broker.exchanges.Keys, old(broker.View()), q, r, broker.View())
    {
      hide AllAt, ViewOf, IsQueueAt, Registrable, RegistrationError, WithQueue;
      hide Broker.Valid, Broker.View, Broker.Queues, Exchange.Valid;
      var exchange := broker.GetExchange(q.key.exchange);
      broker.NothingChanged();
      if exchange.Err? { return Failed(exchange.error); }
      var registered := RegisterAt(exchange.value, q.key, q.durable, q.autoDelete, q.maxAttempts, q.filters);
      r := if registered.Err? then Failed(registered.error) else Done;
    }

    method RestoreQueues(queues: seq<StoredQueue>) returns (r: Outcome)
      requires broker.Valid()
      modifies broker.exchanges.Values
      ensures broker.Valid() && broker.exchanges == old(broker.exchanges)
      ensures forall q :: q in broker.Queues().Values ==> q in old(broker.Queues()).Values || fresh(q)
      ensures old(broker.View()) == map[] && AreRegistrable(broker.exchanges.Keys, queues) ==>
        r == Done && broker.View() == RegisterAll(queues)
    {
      ghost var clean := broker.View() == map[] && AreRegistrable(broker.exchanges.Keys, queues);
      r := Done;
      assert clean ==> broker.View() == RegisterAll(queues[..0]);
      hide AllAt, ViewOf, IsQueueAt, AreRegistrable, RegisteredStored, RegisterAll;
      hide Broker.Valid, Broker.View, Broker.Queues, Exchange.Valid;
      for i := 0 to |queues|
        invariant r == Done && broker.Valid() && broker.exchanges == old(broker.exchanges)
        invariant forall q :: q in broker.Queues().Values ==> q in old(broker.Queues()).Values || fresh(q)
        invariant clean ==> AreRegistrable(broker.exchanges.Keys, queues) && broker.View() == RegisterAll(queues[..i])
      {
        if clean { NextIsRegistered(broker.exchanges.Keys, queues, i); }
        r := RestoreQueue(queues[i]);
        if r != Done { return; }
      }
      assert queues[..|queues|] == queues;
    }

    method RestoreOne(d: StoredDelivery) returns (r: Outcome)
      requires broker.Valid()
      modifies repo, broker.Queues().Values
      ensures broker.Valid() && broker.exchanges == old(broker.exchanges) && broker.Queues() == old(broker.Queues())
      ensures RestoredOne(old(broker.View()), d, old(repo.db), r, broker.View(), repo.db)
    {
      hide *;
      ghost var queues, before := broker.View(), repo.db;
      var found := FindRestored(d.key);
      if found.Err? {
        NotRestored(queues, d, before, found.error);
        return Failed(found.error);
      }
      RestoreInto(d.key, found.value, d.delivery);
      r := Release(d.delivery.id);
      OneRestored(queues, d, before, r, broker.View(), repo.db);
    }

    method FindRestored(key: QueueKey) returns (r: Result<Queue>)
      requires broker.Valid()
      ensures broker.Valid() && broker.Queues() == old(broker.Queues()) && broker.View() == old(broker.View())
      ensures r.Ok? ==> key in broker.View() && key in broker.Queues() && r.value == broker.Queues()[key]
      ensures r.Err? ==> key !in broker.View() && r.error in [ExchangeNotFound, QueueNotFound]
    {
      hide AllAt, ViewOf, IsQueueAt, Broker.Valid, Broker.View;
      var exchange := broker.GetExchange(key.exchange);
      broker.NothingChanged();
      if exchange.Err? { return Err(exchange.error); }
      broker.QueueNamed(key);
      r := exchange.value.GetQueue(key.name);
      broker.NothingChanged();
    }

    method Release(id: Id) returns (r: Outcome)
      requires broker.Valid()
      modifies repo
      ensures broker.Valid() && broker.Queues() == old(broker.Queues()) && broker.View() == old(broker.View())
      ensures Replied(r, true, old(repo.db), repo.db, MarkReady(old(repo.db), id))
    {
      hide *;
      r := repo.MarkReady(id);
      broker.NothingChanged();
    }

    method RestoreInto(ghost key: QueueKey, queue: Queue, d: Delivery)
      requires broker.Valid() && key in broker.Queues() && queue == broker.Queues()[key]
      modifies queue
      ensures broker.Valid() && broker.Queues() == old(broker.Queues())
      ensures broker.View() == old(broker.View())[key := RestoreReady(old(broker.View())[key], d)]
    {
      hide ViewOf, Registrable, RestoreReady;
      broker.QueueAt(key);
      queue.RestoreDelivery(d);
      broker.ExchangeStillValid(key);
      broker.OneQueueChanged(key);
    }

    method RestoreDeliveries(ds: seq<StoredDelivery>) returns (r: Outcome, ghost n: nat)
      requires broker.Valid()
      modifies repo, broker.Queues().Values
      ensures broker.Valid() && broker.exchanges == old(broker.exchanges)
      ensures RestoredUpTo(old(broker.View()), ds, n, old(repo.db), r, broker.View(), repo.db)
    {
      ghost var queues, before := broker.View(), repo.db;
      r, n := Done, 0;
      assert RestoredFirst(queues, ds, 0, before, broker.View(), repo.db);
      hide *;
      for i := 0 to |ds|
        invariant n == i && r == Done && broker.Valid()
        invariant broker.exchanges == old(broker.exchanges) && broker.Queues() == old(broker.Queues())
        invariant RestoredFirst(queues, ds, i, before, broker.View(), repo.db)
      {
        ghost var queues1, db1 := broker.View(), repo.db;
        r := RestoreOne(ds[i]);
        RestoredNext(queues, ds, i, before, queues1, db1, r, broker.View(), repo.db);
        if r != Done {
          if !RestoredUpTo(queues, ds, n, before, r, broker.View(), repo.db) { n := i + 1; }
          return;
        }
        n := i + 1;
      }
      RestoredAll(queues, ds, before, broker.View(), repo.db);
    }

    /** Rebuilds memory from the database. From an empty memory nothing but the repository can make it fail. */
    method Restore(a: Answers) returns (r: Outcome, ghost l: Loaded, ghost n: nat)
      requires Valid() && IsAnswer(repo.db, a)
      modifies broker, repo, broker.exchanges.Values, broker.Queues().Values
      ensures Valid()
      ensures old(broker.exchanges) == map[] ==> Restores(old(Current()), l, n, r, Current())
    {
      hide *;
      Known();
      SoundDb(Current());
      EmptyBroker();
      ghost var w, clean := Current(), broker.exchanges == map[];
      l, n := Loaded([], [], []), 0;
      var loaded := repo.LoadState(a);
      broker.NothingChanged();
      if loaded.Err? {
        RestoreNotStarted(w, w);
        Concluded();
        return Failed(loaded.error), l, n;
      }
      l := loaded.value;
      LoadIsRegistrable(w.db, l);
      RestoreExchanges(loaded.value.exchanges);
      assert clean ==> broker.exchanges.Keys == AsSet(l.exchanges);
      r := RestoreQueues(loaded.value.queues);
      if r != Done {
        assert !clean;
        Concluded();
        return;
      }
      ghost var queues := broker.View();
      r, n := RestoreDeliveries(loaded.value.deliveries);
      RestoredDbOk(queues, l.deliveries, n, w.db, r, broker.View(), repo.db);
      Concluded();
      if clean { RestoreConcludes(w, l, n, r, Current()); }
    }

    lemma EmptyBroker()
      ensures broker.exchanges == map[] ==> broker.View() == map[] && broker.exchanges.Keys == {}
    {
    }
  }
}
