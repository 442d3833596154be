/** The broker object: a map of exchange objects. Seen from outside it is one flat map from
    queue keys to queues. */
module BrokerObject {
  import opened Types
  import opened QueueModel
  import opened QueueObject
  import opened ExchangeObject
  import opened ServiceModel

  ghost predicate AllAt(queues: map<QueueKey, Queue>)
    reads queues.Values
  {
    forall k :: k in queues ==> IsQueueAt(k, queues[k])
  }

  ghost function ViewOf(queues: map<QueueKey, Queue>): (m: map<QueueKey, QueueState>)
    reads queues.Values
    ensures m.Keys == queues.Keys
  {
    map k | k in queues :: queues[k].View()
  }

  class Broker {
    var exchanges: map<string, Exchange>

    /** Every queue of every exchange, by key. */
    ghost function Queues(): (m: map<QueueKey, Queue>)
      reads this, exchanges.Values
      ensures forall k :: k in m <==> k.exchange in exchanges && k.name in exchanges[k.exchange].queues
      ensures forall k :: k in m ==> m[k] == exchanges[k.exchange].queues[k.name]
    {
      var keys := set e, n | e in exchanges && n in exchanges[e].queues :: QueueKey(e, n);
      map k | k in keys :: exchanges[k.exchange].queues[k.name]
    }

    ghost predicate Valid()
      reads this, exchanges.Values, Queues().Values
    {
      && (forall e :: e in exchanges ==> exchanges[e].name == e)
      && AllAt(Queues())
    }

    ghost function View(): (m: map<QueueKey, QueueState>)
      reads this, exchanges.Values, Queues().Values
      ensures m.Keys == Queues().Keys
    {
      ViewOf(Queues())
    }

    constructor ()
      ensures Valid() && exchanges == map[] && View() == map[]
    {
      exchanges := map[];
    }

    method CreateExchange(name: string) returns (e: Exchange)
      requires Valid()
      modifies this
      ensures Valid()
      ensures exchanges.Keys == old(exchanges.Keys) + {name} && Queues() == old(Queues()) && View() == old(View())
      ensures name in exchanges && e == exchanges[name]
      ensures forall x :: x in old(exchanges) ==> exchanges[x] == old(exchanges)[x]
      ensures name !in old(exchanges) ==> fresh(e) && e.queues == map[]
    {
      hide *;
      if name in exchanges { return exchanges[name]; }
      e := new Exchange(name);
      exchanges := exchanges[name := e];
      QueuesKept(name, e);
    }

    twostate lemma QueuesKept(name: string, new e: Exchange)
      requires old(Valid()) && name !in old(exchanges) && exchanges == old(exchanges)[name := e]
      requires e.name == name && e.queues == map[]
      requires forall x :: x in old(exchanges) ==> unchanged(exchanges[x])
      requires forall k :: k in old(Queues()) ==> unchanged(old(Queues())[k])
      ensures Valid() && Queues() == old(Queues()) && View() == old(View())
    {
      hide Queues, Registrable;
      assert Queues() == old(Queues());
    }

    method GetExchange(name: string) returns (r: Result<Exchange>)
      ensures r == if name in exchanges then Ok(exchanges[name]) else Err(ExchangeNotFound)
    {
      if name !in exchanges { return Err(ExchangeNotFound); }
      r := Ok(exchanges[name]);
    }

    method DeleteExchange(name: string) returns (r: Outcome)
      requires Valid()
      modifies this
      ensures Valid()
      ensures name !in old(exchanges) ==> r == Failed(ExchangeNotFound) && exchanges == old(exchanges)
      ensures name in old(exchanges) ==>
        && r == Done && exchanges == old(exchanges) - {name}
        && View() == map k | k in old(View()) && k.exchange != name :: old(View())[k]
    {
      hide *;
      if name !in exchanges { return Failed(ExchangeNotFound); }
      exchanges := exchanges - {name};
      ExchangeGone(name);
      r := Done;
    }

    twostate lemma ExchangeGone(name: string)
      requires old(Valid()) && exchanges == old(exchanges) - {name}
      requires forall x :: x in old(exchanges) ==> unchanged(old(exchanges)[x])
      requires forall k :: k in old(Queues()) ==> unchanged(old(Queues())[k])
      ensures Valid() && View() == map k | k in old(View()) && k.exchange != name :: old(View())[k]
    {
      hide Queues, Registrable;
      assert Queues() == map k | k in old(Queues()) && k.exchange != name :: old(Queues())[k];
    }

    /** A key names one queue, seen the same way from the exchange and from the broker. */
    lemma QueueAt(key: QueueKey)
      requires Valid() && key in Queues()
      ensures key in View() && View()[key] == Queues()[key].View() && IsQueueAt(key, Queues()[key])
      ensures View()[key].durable == Queues()[key].durable
      ensures exchanges[key.exchange].Valid() && exchanges[key.exchange].name == key.exchange
      ensures key.name in exchanges[key.exchange].queues && Queues()[key] == exchanges[key.exchange].queues[key.name]
      ensures exchanges[key.exchange].Target(key.name) == {Queues()[key]}
    {
      ExchangeValid(key.exchange);
    }

    lemma QueueNamed(key: QueueKey)
      requires Valid() && key.exchange in exchanges
      ensures key in View() <==> key in Queues()
      ensures key in Queues() <==> key.name in exchanges[key.exchange].queues
      ensures key in Queues() ==>
        Queues()[key] == exchanges[key.exchange].queues[key.name] && View()[key] == Queues()[key].View()
    {
    }

    lemma ExchangeValid(name: string)
      requires Valid() && name in exchanges
      ensures exchanges[name].Valid() && exchanges[name].name == name
    {
      var e := exchanges[name];
      forall n | n in e.queues ensures IsQueueAt(QueueKey(name, n), e.queues[n]) {
        assert QueueKey(name, n) in Queues();
      }
    }

    twostate lemma QueueMapKept()
      requires exchanges == old(exchanges)
      requires forall e :: e in exchanges ==> exchanges[e].queues == old(exchanges[e].queues)
      ensures Queues() == old(Queues())
    {
    }

    twostate lemma NothingChanged()
      requires old(Valid()) && exchanges == old(exchanges)
      requires forall e :: e in exchanges ==> exchanges[e].queues == old(exchanges[e].queues)
      requires forall q :: q in old(Queues()).Values ==> unchanged(q)
      ensures Valid() && Queues() == old(Queues()) && View() == old(View())
    {
      hide Queues, Registrable, IsQueueAt;
      QueueMapKept();
      forall k | k in old(Queues())
        ensures unchanged(old(Queues())[k]) { assert old(Queues())[k] in old(Queues()).Values; }
    }

    /** Exchanges are told apart by their names. */
    twostate lemma OthersKept(name: string)
      requires old(Valid()) && exchanges == old(exchanges) && name in exchanges
      requires forall x :: x in exchanges.Values && x != exchanges[name] ==> x.queues == old(x.queues)
      ensures forall e :: e in exchanges && e != name ==> exchanges[e].queues == old(exchanges[e].queues)
    {
      forall e | e in exchanges && e != name ensures exchanges[e].queues == old(exchanges[e].queues) {
        assert exchanges[e] in exchanges.Values;
      }
    }

    /** So are the queues of an exchange, and those of different exchanges. */
    twostate lemma OtherQueuesKept(key: QueueKey)
      requires old(Valid()) && key in old(Queues())
      requires forall q :: q in old(Queues()).Values && q != old(Queues())[key] ==> unchanged(q)
      ensures forall k :: k in old(Queues()) && k != key ==> unchanged(old(Queues())[k])
    {
      hide Queues, Registrable;
      forall k | k in old(Queues()) && k != key ensures unchanged(old(Queues())[k]) {
        assert old(IsQueueAt(k, Queues()[k]) && IsQueueAt(key, Queues()[key]));
        assert old(Queues())[k] in old(Queues()).Values;
      }
    }

    /** Changing the queue at one key changes the view at that key and nowhere else. */
    twostate lemma OneQueueChanged(key: QueueKey)
      requires old(Valid()) && exchanges == old(exchanges)
      requires forall e :: e in exchanges ==> exchanges[e].queues == old(exchanges[e].queues)
      requires key in old(Queues()) && exchanges[key.exchange].Valid()
      requires forall q :: q in old(Queues()).Values && q != old(Queues())[key] ==> unchanged(q)
      ensures Valid() && Queues() == old(Queues()) && View() == old(View())[key := Queues()[key].View()]
      ensures Queues()[key].View() == old(View())[key] ==> View() == old(View())
    {
      hide Queues, IsQueueAt, AllAt, Valid, View;
      StillValid(key);
      ViewChanged(key);
      SameEntryKept(old(View()), key);
    }

    twostate lemma ViewChanged(key: QueueKey)
      requires old(Valid()) && key in old(Queues()) && Queues() == old(Queues())
      requires forall q :: q in old(Queues()).Values && q != old(Queues())[key] ==> unchanged(q)
      ensures key in old(View()) && View() == old(View())[key := Queues()[key].View()]
    {
      hide Queues, IsQueueAt, AllAt, Valid;
      OtherQueuesKept(key);
    }

    lemma SameEntryKept(m: map<QueueKey, QueueState>, key: QueueKey)
      ensures key in m ==> m[key := m[key]] == m
    {
    }

    twostate lemma StillValid(key: QueueKey)
      requires old(Valid()) && exchanges == old(exchanges)
      requires forall e :: e in exchanges ==> exchanges[e].queues == old(exchanges[e].queues)
      requires key in old(Queues()) && exchanges[key.exchange].Valid()
      requires forall q :: q in old(Queues()).Values && q != old(Queues())[key] ==> unchanged(q)
      ensures Valid() && Queues() == old(Queues())
    {
      hide Queues, Registrable;
      QueueMapKept();
      assert IsQueueAt(key, Queues()[key]);
      OtherQueuesKept(key);
      hide IsQueueAt;
    }

    /** A queue changed within what its exchange accepts. */
    twostate lemma ExchangeStillValid(key: QueueKey)
      requires old(Valid()) && exchanges == old(exchanges)
      requires forall e :: e in exchanges ==> exchanges[e].queues == old(exchanges[e].queues)
      requires key in old(Queues()) && old(Queues())[key].Valid()
      requires forall q :: q in old(Queues()).Values && q != old(Queues())[key] ==> unchanged(q)
      ensures exchanges[key.exchange].Valid()
    {
      hide Queues, Registrable;
      OtherQueuesKept(key);
      var e := exchanges[key.exchange];
      forall n | n in e.queues ensures IsQueueAt(QueueKey(e.name, n), e.queues[n]) {
        assert old(IsQueueAt(QueueKey(e.name, n), Queues()[QueueKey(e.name, n)]));
      }
    }

    twostate lemma QueueMapGrows(key: QueueKey, new q: Queue)
      requires old(Valid()) && exchanges == old(exchanges) && key.exchange in exchanges
      requires exchanges[key.exchange].queues == old(exchanges[key.exchange].queues)[key.name := q]
      requires forall x :: x in exchanges.Values && x != exchanges[key.exchange] ==> x.queues == old(x.queues)
      ensures Queues() == old(Queues())[key := q]
    {
      hide Queues, IsQueueAt, AllAt, Valid;
      OthersKept(key.exchange);
    }

    /** A new queue was registered at a key, and nothing else changed. */
    twostate lemma QueueAdded(key: QueueKey, new q: Queue)
      requires old(Valid()) && exchanges == old(exchanges) && key.exchange in exchanges
      requires exchanges[key.exchange].queues == old(exchanges[key.exchange].queues)[key.name := q]
      requires forall x :: x in exchanges.Values && x != exchanges[key.exchange] ==> x.queues == old(x.queues)
      requires IsQueueAt(key, q) && forall x :: x in old(Queues()).Values ==> unchanged(x)
      ensures Valid() && Queues() == old(Queues())[key := q] && View() == old(View())[key := q.View()]
    {
      hide Queues, IsQueueAt;
      QueueMapGrows(key, q);
      forall k | k in old(Queues()) ensures unchanged(old(Queues())[k]) {
        assert old(Queues())[k] in old(Queues()).Values;
      }
    }

    twostate lemma QueueMapShrinks(key: QueueKey)
      requires old(Valid()) && exchanges == old(exchanges) && key in old(Queues())
      requires exchanges[key.exchange].queues == old(exchanges[key.exchange].queues) - {key.name}
      requires forall x :: x in exchanges.Values && x != exchanges[key.exchange] ==> x.queues == old(x.queues)
      ensures Queues() == old(Queues()) - {key}
    {
      hide Queues, IsQueueAt, AllAt, Valid;
      OthersKept(key.exchange);
    }

    /** The queue at a key was removed, and no other queue changed. */
    twostate lemma QueueRemoved(key: QueueKey)
      requires old(Valid()) && exchanges == old(exchanges) && key in old(Queues())
      requires exchanges[key.exchange].queues == old(exchanges[key.exchange].queues) - {key.name}
      requires forall x :: x in exchanges.Values && x != exchanges[key.exchange] ==> x.queues == old(x.queues)
      requires forall q :: q in old(Queues()).Values && q != old(Queues())[key] ==> unchanged(q)
      ensures Valid() && View() == old(View()) - {key}
    {
      hide Queues, IsQueueAt, View;
      QueueMapShrinks(key);
      OtherQueuesKept(key);
      hide ViewOf;
      ViewShrinks(key);
    }

    twostate lemma ViewShrinks(key: QueueKey)
      requires old(Valid()) && key in old(Queues()) && Queues() == old(Queues()) - {key}
      requires forall q :: q in old(Queues()).Values && q != old(Queues())[key] ==> unchanged(q)
      ensures View() == old(View()) - {key}
    {
      hide Queues, IsQueueAt, AllAt, Valid;
      OtherQueuesKept(key);
    }
  }
}
