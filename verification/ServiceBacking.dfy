/** Writing ahead, whatever fails: in every sequential run, with failing repository calls, crashes and restarts
    and with exchanges and queues coming and going, each delivery that a durable queue holds in memory has a row. */
module ServiceBacking {
  import opened Types
  import opened QueueModel
  import opened Tables
  import opened ServiceModel
  import opened ServiceRuns
  import opened RestoreModel
  import opened ServiceFaults
  import Sql = Tables
  import Routing

  /** A live delivery has a row of its own queue, with its message, and with attempts that may lag behind. */
  ghost predicate Written(db: Tables, key: QueueKey, q: QueueState, id: Id) {
    id in Live(q) ==>
      && id in db.deliveries && db.deliveries[id].queue == key
      && db.deliveries[id].message == Live(q)[id].message && db.deliveries[id].attempts <= Live(q)[id].attempts
  }

  ghost predicate QueueBacked(db: Tables, key: QueueKey, q: QueueState) {
    WellFormed(q) && (q.durable ==> forall id :: Written(db, key, q, id))
  }

  ghost predicate Backed(w: World) {
    forall k :: k in w.queues ==> QueueBacked(w.db, k, w.queues[k])
  }

  /** The rows of queue `key` are still there, and say the same about message and attempts. */
  ghost predicate RowsKept(db: Tables, db': Tables, key: QueueKey) {
    forall id :: id in db.deliveries && db.deliveries[id].queue == key ==>
      && id in db'.deliveries && db'.deliveries[id].queue == key
      && db'.deliveries[id].message == db.deliveries[id].message
      && db'.deliveries[id].attempts == db.deliveries[id].attempts
  }

  lemma StillBacked(db: Tables, db': Tables, key: QueueKey, q: QueueState)
    requires QueueBacked(db, key, q) && (q.durable ==> RowsKept(db, db', key))
    ensures QueueBacked(db', key, q)
  {
    hide Live, WellFormed;
    if q.durable {
      forall id ensures Written(db', key, q, id) { assert Written(db, key, q, id); }
    }
  }

  /** Only delivery `id` of queue `key` changed, in memory and in the database. */
  lemma OneDeliveryChanged(w: World, w': World, key: QueueKey, q: QueueState, id: Id)
    requires Backed(w) && key in w.queues && w'.queues == w.queues[key := q]
    requires WellFormed(q) && QueueOnly(w.queues[key], q, id)
    requires forall x :: x != id ==> SameEntry(w.db.deliveries, w'.db.deliveries, x)
    requires q.durable ==> Written(w'.db, key, q, id) && (id in w.db.deliveries ==> w.db.deliveries[id].queue == key)
    requires !q.durable ==> w'.db.deliveries == w.db.deliveries
    ensures Backed(w')
  {
    hide Live, WellFormed;
    forall k | k in w'.queues ensures QueueBacked(w'.db, k, w'.queues[k]) {
      assert QueueBacked(w.db, k, w.queues[k]);
      if k != key {
        forall x | x in w.db.deliveries && w.db.deliveries[x].queue == k
          ensures x in w'.db.deliveries && w'.db.deliveries[x] == w.db.deliveries[x]
        {
          assert x != id ==> SameEntry(w.db.deliveries, w'.db.deliveries, x);
        }
        StillBacked(w.db, w'.db, k, w.queues[k]);
      } else if q.durable {
        forall x ensures Written(w'.db, key, q, x) {
          if x != id {
            assert Written(w.db, key, w.queues[key], x) && SameEntry(Live(w.queues[key]), Live(q), x);
            assert SameEntry(w.db.deliveries, w'.db.deliveries, x);
          }
        }
      }
    }
  }

  // ---------------------------------------------------------------- one queue

  lemma BackedOffer(w: World, key: QueueKey, message: Message, mint: Mint)
    requires Backed(w) && key in w.queues
    requires mint.id !in Live(w.queues[key]) && mint.id !in w.db.deliveries
    ensures Backed(Offer(w, key, message, mint))
  {
    var q, d := w.queues[key], Delivery(mint.id, message, "", 0);
    assert WellFormed(q) by { assert QueueBacked(w.db, key, q); }
    EnqueueOnly(q, d);
    EnqueuedIsWritten(w.db, key, q, d, mint.time);
    hide Live, WellFormed, QueueOnly, Enqueue, Backed, SameEntry, Written, SaveReadyDelivery;
    UnchangedRows(w.db.deliveries, mint.id);
    OneDeliveryChanged(w, Offer(w, key, message, mint), key, Enqueue(q, d), mint.id);
  }

  lemma UnchangedRows(rows: map<Id, DeliveryRow>, id: Id)
    ensures forall x :: x != id ==> SameEntry(rows, rows, x)
  {
  }

  lemma EnqueuedIsWritten(db: Tables, key: QueueKey, q: QueueState, d: Delivery, time: nat)
    requires WellFormed(q) && d.id !in Live(q)
    ensures Written(SaveReadyDelivery(db, key, d, time), key, Enqueue(q, d), d.id)
    ensures forall x :: x != d.id ==> SameEntry(db.deliveries, SaveReadyDelivery(db, key, d, time).deliveries, x)
  {
    EnqueueLive(q, d);
    hide Live, Enqueue, WellFormed;
  }

  /** After a fetch, whether or not the row was marked. */
  lemma BackedFetch(w: World, key: QueueKey, c: string, db: Tables)
    requires Backed(w) && key in w.queues && w.queues[key].ready != []
    requires var d := Taken(w.queues[key], c);
      db.deliveries == w.db.deliveries || (w.queues[key].durable && db == MarkInFlight(w.db, d.id, c, d.attempts))
    ensures Backed(FetchIn(w, key, c).(db := db))
  {
    var q, w' := w.queues[key], FetchIn(w, key, c).(db := db);
    assert QueueBacked(w.db, key, q);
    FetchOnly(q, c);
    var id := Taken(q, c).id;
    assert q.durable ==> Written(w.db, key, q, id);
    hide Live, WellFormed, QueueOnly, QueueModel.Fetch, Backed;
    OneDeliveryChanged(w, w', key, w'.queues[key], id);
  }

  /** After a delivery left its queue for good, whether or not its row went too. */
  lemma BackedSettle(w: World, w': World, key: QueueKey, id: Id)
    requires Backed(w) && key in w.queues && id in w.queues[key].inFlight
    requires w'.queues == w.queues[key := Settle(w.queues[key], id)]
    requires w'.db.deliveries == w.db.deliveries
      || (w.queues[key].durable && w'.db.deliveries == w.db.deliveries - {id})
    ensures Backed(w')
  {
    var q := w.queues[key];
    assert QueueBacked(w.db, key, q);
    SettleOnly(q, id);
    assert q.durable ==> Written(w.db, key, q, id);
    hide Live, WellFormed, QueueOnly, Backed;
    OneDeliveryChanged(w, w', key, w'.queues[key], id);
  }

  lemma BackedRequeue(w: World, w': World, key: QueueKey, id: Id)
    requires Backed(w) && key in w.queues && id in w.queues[key].inFlight
    requires w'.queues == w.queues[key := Requeue(w.queues[key], id)]
    requires w'.db == w.db || (w.queues[key].durable && w'.db == MarkReady(w.db, id))
    ensures Backed(w')
  {
    var q := w.queues[key];
    assert QueueBacked(w.db, key, q);
    RequeueOnly(q, id);
    assert q.durable ==> Written(w.db, key, q, id);
    hide Live, WellFormed, QueueOnly, Backed, Requeue;
    OneDeliveryChanged(w, w', key, w'.queues[key], id);
  }

  lemma BackedDisconnect(w: World, key: QueueKey, c: string, returned: seq<Delivery>, n: nat)
    requires Backed(w) && key in w.queues && IsReturnOrder(w.queues[key], c, returned) && n <= |returned|
    ensures Backed(DisconnectIn(w, key, c, returned).(db := MarkAllReady(w.db, returned[..n])))
  {
    var q := w.queues[key];
    var q' := Disconnect(q, c, returned);
    var w' := DisconnectIn(w, key, c, returned).(db := MarkAllReady(w.db, returned[..n]));
    assert QueueBacked(w.db, key, q);
    DisconnectLive(q, c, returned);
    LiveKeyed(q);
    ReleasedKeepRows(w.db, returned[..n]);
    hide Live, WellFormed, IsReturnOrder, MarkAllReady;
    forall k | k in w'.queues ensures QueueBacked(w'.db, k, w'.queues[k]) {
      assert QueueBacked(w.db, k, w.queues[k]);
      StillBacked(w.db, w'.db, k, w.queues[k]);
      if k == key && q.durable {
        forall id ensures Written(w'.db, key, q', id) { assert Written(w'.db, key, q, id); }
      }
    }
  }

  lemma ReleasedKeepRows(db: Tables, ds: seq<Delivery>)
    ensures forall k :: RowsKept(db, MarkAllReady(db, ds), k)
  {
    MarkedReady(db, ds);
    hide MarkAllReady;
    var db' := MarkAllReady(db, ds);
    forall id | id in db.deliveries
      ensures id in db'.deliveries
      ensures (db'.deliveries[id] == db.deliveries[id] || db'.deliveries[id] == Released(db.deliveries[id]))
    {
      if i :| 0 <= i < |ds| && ds[i].id == id {}
    }
  }

  lemma BackedJoin(w: World, key: QueueKey, c: string)
    requires Backed(w) && key in w.queues
    ensures Backed(w.(queues := w.queues[key := Join(w.queues[key], c)]))
  {
    var w' := w.(queues := w.queues[key := Join(w.queues[key], c)]);
    forall k | k in w'.queues ensures QueueBacked(w'.db, k, w'.queues[k]) {
      assert QueueBacked(w.db, k, w.queues[k]);
      assert Live(w'.queues[k]) == Live(w.queues[k]);
      forall id | w.queues[k].durable
        ensures Written(w'.db, k, w'.queues[k], id) { assert Written(w.db, k, w.queues[k], id); }
    }
  }

  // ---------------------------------------------------------------- exchanges and queues

  /** Queues disappeared, were registered afresh or stayed; the rows of those that stayed are kept. */
  lemma TopologyChanged(w: World, w': World)
    requires Backed(w)
    requires forall k :: k in w'.queues ==>
      if k in w.queues then w'.queues[k] == w.queues[k] && RowsKept(w.db, w'.db, k)
      else w'.queues[k].ready == [] && w'.queues[k].inFlight == map[]
    ensures Backed(w')
  {
    forall k | k in w'.queues ensures QueueBacked(w'.db, k, w'.queues[k]) {
      if k in w.queues {
        StillBacked(w.db, w'.db, k, w.queues[k]);
      } else {
        assert Live(w'.queues[k]) == map[];
      }
    }
  }

  lemma BackedTopology(limits: Limits, w: World, r: Request, w': World)
    requires Backed(w) && Accepts(limits, w, r)
    requires (r.CreateExchange? || r.DeleteExchange? || r.RegisterQueue? || r.DeleteQueue?)
    requires w' == Serve(limits, w, r) || w' == Serve(limits, w, r).(db := w.db)
    ensures Backed(w')
  {
    hide Backed, Registrable, SameFilters;
    TopologyChanged(w, w');
  }

  // ---------------------------------------------------------------- publishing

  lemma {:induction false} BackedOfferAll(w: World, order: seq<QueueKey>, message: Message, mints: seq<Mint>)
    requires Backed(w) && AreFresh(w, mints) && |order| <= |mints| && (forall k :: k in order ==> k in w.queues)
    requires forall i, j :: 0 <= i < j < |order| ==> order[i] != order[j]
    ensures Backed(OfferAll(w, order, message, mints))
  {
    hide Backed, AreFresh, QueuesFanOut, RowsFanOut, Offer;
    if order == [] {
      assert OfferAll(w, order, message, mints) == w;
    } else {
      var n := |order| - 1;
      var init := order[..n];
      assert order == init + [order[n]] && order[n] !in init;
      BackedOfferAll(w, init, message, mints);
      QueuesFanOutAll(w, init, message, mints);
      RowsFanOutAll(w, init, message, mints);
      var w1 := OfferAll(w, init, message, mints);
      assert OfferAll(w, order, message, mints) == Offer(w1, order[n], message, mints[n]);
      hide OfferAll;
      StillFresh(w, w1, init, order[n], message, mints);
      BackedOffer(w1, order[n], message, mints[n]);
    }
  }

  lemma BackedBrokenPublish(w: World, order: seq<QueueKey>, message: Message, mints: seq<Mint>, n: nat, w': World)
    requires Backed(w) && AreFresh(w, mints) && |order| <= |mints| && (forall k :: k in order ==> k in w.queues)
    requires forall i, j :: 0 <= i < j < |order| ==> order[i] != order[j]
    requires BrokenPublish(w, order, message, mints, n, w')
    ensures Backed(w')
  {
    var reached := OfferAll(w, order[..n], message, mints);
    var d := Delivery(mints[n].id, message, "", 0);
    assert w' == reached || w' == reached.(db := SaveReadyDelivery(reached.db, order[n], d, mints[n].time));
    hide Backed, AreFresh, OfferAll, SaveReadyDelivery, BrokenPublish;
    ReachedIsBacked(w, order, message, mints, n);
    ExtraRow(reached, order[n], d, mints[n].time);
  }

  lemma ReachedIsBacked(w: World, order: seq<QueueKey>, message: Message, mints: seq<Mint>, n: nat)
    requires Backed(w) && AreFresh(w, mints) && n < |order| <= |mints| && (forall k :: k in order ==> k in w.queues)
    requires forall i, j :: 0 <= i < j < |order| ==> order[i] != order[j]
    ensures var reached := OfferAll(w, order[..n], message, mints);
      Backed(reached) && mints[n].id !in reached.db.deliveries
  {
    hide Backed, AreFresh, OfferAll;
    var init := order[..n];
    assert order[n] !in init && order[n] in order;
    BackedOfferAll(w, init, message, mints);
    QueuesFanOutAll(w, init, message, mints);
    RowsFanOutAll(w, init, message, mints);
    hide QueuesFanOut, RowsFanOut;
    StillFresh(w, OfferAll(w, init, message, mints), init, order[n], message, mints);
  }

  lemma ExtraRow(w: World, key: QueueKey, d: Delivery, time: nat)
    requires Backed(w) && d.id !in w.db.deliveries
    ensures Backed(w.(db := SaveReadyDelivery(w.db, key, d, time)))
  {
    hide Backed;
    TopologyChanged(w, w.(db := SaveReadyDelivery(w.db, key, d, time)));
  }

  // ---------------------------------------------------------------- every outcome

  lemma BackedNAck(w: World, w': World, key: QueueKey, id: Id, letterId: Id)
    requires Backed(w) && key in w.queues && id in w.queues[key].inFlight
    requires w'.queues == NAckIn(w, key, id, letterId).queues
    requires
      || w'.db == w.db || w'.db == NAckIn(w, key, id, letterId).db
      || (w.queues[key].durable && GivesUp(w.queues[key], w.queues[key].inFlight[id])
           && w'.db == DeleteDelivery(w.db, id))
    ensures Backed(w')
  {
    var q := w.queues[key];
    hide Backed, Settle, Requeue;
    if GivesUp(q, q.inFlight[id]) { BackedSettle(w, w', key, id); } else { BackedRequeue(w, w', key, id); }
  }

  /** Calls other than Publish, served or broken off. */
  lemma BackedCall(limits: Limits, w: World, r: Request, w': World)
    requires Backed(w) && Accepts(limits, w, r) && !r.Publish?
    requires w' == Serve(limits, w, r) || Broken(limits, w, r, w')
    ensures Backed(w')
  {
    hide Backed, IsReturnOrder, CanFetch, GivesUp, Settle, Requeue, QueueModel.Fetch, Registrable, SameRegistration;
    match r
    case Fetch(key, c) =>
      FetchNeedsReady(limits, w, key, c);
      BackedFetch(w, key, c, w'.db);
    case Ack(key, id, c) => BackedSettle(w, w', key, id);
    case NAck(key, id, c, letterId) => BackedNAck(w, w', key, id, letterId);
    case AddConsumer(key, c) => BackedJoin(w, key, c);
    case DisconnectConsumer(key, c, returned) => BackedDisconnected(limits, w, r, w');
    case _ => BackedTopology(limits, w, r, w');
  }

  lemma FetchNeedsReady(limits: Limits, w: World, key: QueueKey, c: string)
    requires Accepts(limits, w, Fetch(key, c))
    ensures key in w.queues && w.queues[key].ready != []
  {
  }

  lemma BackedDisconnected(limits: Limits, w: World, r: Request, w': World)
    requires Backed(w) && Accepts(limits, w, r) && r.DisconnectConsumer?
    requires w' == Serve(limits, w, r) || Broken(limits, w, r, w')
    ensures Backed(w')
  {
    hide Backed, IsReturnOrder, MarkAllReady;
    var q := w.queues[r.key];
    if w' == Serve(limits, w, r) {
      assert r.returned[..|r.returned|] == r.returned;
      BackedDisconnect(w, r.key, r.consumer, r.returned, if q.durable then |r.returned| else 0);
      NothingMarked(w.db, r.returned);
    } else {
      var n: nat :| n <= |r.returned| && w' == Serve(limits, w, r).(db := MarkAllReady(w.db, r.returned[..n]));
      BackedDisconnect(w, r.key, r.consumer, r.returned, n);
    }
  }

  lemma NothingMarked(db: Tables, ds: seq<Delivery>)
    ensures MarkAllReady(db, ds[..0]) == db
  {
  }

  lemma LeadsKeepsBacked(limits: Limits, w: World, r: Request, outcome: Outcome, w': World)
    requires Backed(w) && Leads(limits, w, r, outcome, w')
    ensures Backed(w')
  {
    hide Backed, Broken, Refusal, AreFresh, OfferAll;
    if Refusal(limits, w, r) == None {
      if r.Publish? { BackedPublish(limits, w, r, outcome, w'); } else { hide Serve; BackedCall(limits, w, r, w'); }
    }
  }

  lemma BackedPublish(limits: Limits, w: World, r: Request, outcome: Outcome, w': World)
    requires Backed(w) && r.Publish? && Accepts(limits, w, r)
    requires w' == Serve(limits, w, r) || Broken(limits, w, r, w')
    ensures Backed(w')
  {
    hide Backed, AreFresh, OfferAll, BrokenPublish;
    if w' == Serve(limits, w, r) {
      BackedOfferAll(w, r.order, r.message, r.mints);
    } else {
      var n: nat :| BrokenPublish(w, r.order, r.message, r.mints, n, w');
      BackedBrokenPublish(w, r.order, r.message, r.mints, n, w');
    }
  }

  // ---------------------------------------------------------------- whole runs

  lemma AgreeIsBacked(w: World)
    requires Agree(w)
    ensures Backed(w)
  {
    hide Live, WellFormed, Registrable;
    forall k | k in w.queues ensures QueueBacked(w.db, k, w.queues[k]) {
      assert QueueAgrees(w, k, w.queues[k]);
      forall id | w.queues[k].durable ensures Written(w.db, k, w.queues[k], id) {
        assert id in Live(w.queues[k]) ==> Mirrors(w.db.deliveries[id], k, w.queues[k], id);
      }
    }
  }

  lemma FollowsKeepsBacked(limits: Limits, w: World, e: Event, w': World)
    requires Sound(w) && Backed(w) && Follows(limits, w, e, w')
    ensures Backed(w')
  {
    match e
    case Called(r, outcome) => LeadsKeepsBacked(limits, w, r, outcome, w');
    case Crashed(marked) =>
    case Restored(l) =>
      RestoreAgrees(w.db, l);
      AgreeIsBacked(w');
  }

  /** The write-ahead law for every sequential run with failures, crashes and changes of topology. */
  lemma {:induction false} FaultyRunIsBacked(limits: Limits, worlds: seq<World>, events: seq<Event>, i: nat)
    requires IsFaultyRun(limits, worlds, events) && i < |worlds|
    ensures Backed(worlds[i])
  {
    if i > 0 {
      FaultyRunIsBacked(limits, worlds, events, i - 1);
      FaultyRunIsSound(limits, worlds, events, i - 1);
      hide Sound, Follows, Backed;
      FollowsKeepsBacked(limits, worlds[i - 1], events[i - 1], worlds[i]);
    }
  }

  /** Hence a fetch never takes a delivery whose row is missing, and never fails for that reason. */
  lemma FetchFindsItsRow(limits: Limits, worlds: seq<World>, events: seq<Event>, i: nat)
    requires IsFaultyRun(limits, worlds, events) && i < |events|
    requires events[i].Called? && events[i].request.Fetch?
    ensures events[i].outcome != Failed(DeliveryNotFound)
  {
    var w, r := worlds[i], events[i].request;
    FaultyRunIsBacked(limits, worlds, events, i);
    assert Follows(limits, w, events[i], worlds[i + 1]);
    if Refusal(limits, w, r) == None {
      var q := w.queues[r.key];
      FetchNeedsReady(limits, w, r.key, r.consumer);
      assert QueueBacked(w.db, r.key, q);
      LiveKeyed(q);
      assert q.durable ==> Written(w.db, r.key, q, q.ready[0].id);
    }
  }
}
