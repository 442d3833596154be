/** Memory and database agree after every call of a run in which no repository call fails. */
module ServiceRuns {
  import opened Types
  import opened QueueModel
  import opened Tables
  import opened ServiceModel
  import Sql = Tables
  import Routing

  function AsSet(s: seq<string>): set<string> {
    set f | f in s
  }

  /** A row says of a live delivery what memory says: message, attempts, and whether and by whom it is held. */
  ghost predicate Mirrors(row: DeliveryRow, key: QueueKey, q: QueueState, id: Id)
    requires id in Live(q)
  {
    && row.queue == key && row.message == Live(q)[id].message && row.attempts == Live(q)[id].attempts
    && (if id in q.inFlight then row.status == StatusInFlight && row.consumer == Some(q.inFlight[id].consumer)
        else row.status == StatusReady && row.consumer == None)
  }

  /** The rows stored for queue `key` are those of its live deliveries. */
  ghost predicate Stored(db: Tables, key: QueueKey, q: QueueState) {
    && key in db.queues && db.queues[key] == RowOf(q) && FiltersOf(db, key) == AsSet(q.filters)
    && (forall id :: id in Live(q) ==> id in db.deliveries && Mirrors(db.deliveries[id], key, q, id))
    && (forall id :: id in db.deliveries && db.deliveries[id].queue == key ==> id in Live(q))
  }

  ghost predicate QueueAgrees(w: World, key: QueueKey, q: QueueState) {
    && key.exchange in w.exchanges && q.name == key.name
    && WellFormed(q) && Registrable(q.durable, q.autoDelete, q.maxAttempts, q.filters)
    && (q.durable ==> Stored(w.db, key, q))
  }

  ghost predicate Agree(w: World) {
    && w.db.exchanges == w.exchanges
    && (forall k :: k in w.queues ==> QueueAgrees(w, k, w.queues[k]))
    && (forall k :: k in w.db.queues ==> k in w.queues && w.queues[k].durable)
    && (forall f :: f in w.db.filters ==> f.0 in w.db.queues)
    && (forall id :: id in w.db.deliveries ==> w.db.deliveries[id].queue in w.db.queues)
  }

  // ---------------------------------------------------------------- changing one queue

  /** The database changed only in the rows of queue `key`. */
  ghost predicate OnlyRowsOf(db: Tables, db': Tables, key: QueueKey) {
    && db'.exchanges == db.exchanges && db'.queues == db.queues && db'.filters == db.filters
    && (forall id :: id in db.deliveries && db.deliveries[id].queue != key ==>
          id in db'.deliveries && db'.deliveries[id] == db.deliveries[id])
    && (forall id :: id in db'.deliveries && db'.deliveries[id].queue != key ==>
          id in db.deliveries && db'.deliveries[id] == db.deliveries[id])
  }

  lemma OtherQueueAgrees(w: World, w': World, key: QueueKey, k: QueueKey)
    requires Agree(w) && OnlyRowsOf(w.db, w'.db, key) && w'.exchanges == w.exchanges
    requires k in w.queues && k != key
    ensures QueueAgrees(w', k, w.queues[k])
  {
    hide Live, WellFormed, Registrable;
    assert QueueAgrees(w, k, w.queues[k]);
  }

  lemma OneQueueChanged(w: World, w': World, key: QueueKey, q: QueueState)
    requires Agree(w) && key in w.queues && q.durable == w.queues[key].durable
    requires w'.exchanges == w.exchanges && w'.queues == w.queues[key := q]
    requires OnlyRowsOf(w.db, w'.db, key) && QueueAgrees(w', key, q)
    requires forall id :: id in w'.db.deliveries && w'.db.deliveries[id].queue == key ==> q.durable
    ensures Agree(w')
  {
    hide QueueAgrees, Live;
    forall k | k in w'.queues ensures QueueAgrees(w', k, w'.queues[k]) {
      if k != key { OtherQueueAgrees(w, w', key, k); }
    }
    KeyIsStored(w, key);
    forall id | id in w'.db.deliveries ensures w'.db.deliveries[id].queue in w'.db.queues {}
  }

  lemma KeyIsStored(w: World, key: QueueKey)
    requires Agree(w) && key in w.queues
    ensures w.queues[key].durable <==> key in w.db.queues
  {
    assert QueueAgrees(w, key, w.queues[key]);
  }

  /** A transient queue changes and the database does not. */
  lemma TransientChanged(w: World, w': World, key: QueueKey, q: QueueState)
    requires Agree(w) && key in w.queues && !w.queues[key].durable && w' == w.(queues := w.queues[key := q])
    requires WellFormed(q) && RowOf(q) == RowOf(w.queues[key]) && q.filters == w.queues[key].filters
    requires q.name == w.queues[key].name
    ensures Agree(w')
  {
    KeyIsStored(w, key);
    hide Live, WellFormed;
    assert QueueAgrees(w, key, w.queues[key]);
    OneQueueChanged(w, w', key, q);
  }

  // ---------------------------------------------------------------- deliveries

  ghost predicate SameQueue(q: QueueState, q': QueueState) {
    RowOf(q') == RowOf(q) && q'.filters == q.filters && q'.name == q.name
  }

  /** Apart from delivery `id`, the queue holds what it held. */
  ghost predicate QueueOnly(q: QueueState, q': QueueState, id: Id) {
    && SameQueue(q, q')
    && (forall x :: x != id ==> SameEntry(Live(q), Live(q'), x))
    && (forall x :: x != id ==> SameEntry(q.inFlight, q'.inFlight, x))
  }

  /** Apart from delivery `id`, the database holds what it held. */
  ghost predicate RowsOnly(db: Tables, db': Tables, id: Id) {
    && db'.exchanges == db.exchanges && db'.queues == db.queues && db'.filters == db.filters
    && (forall x :: x != id ==> SameEntry(db.deliveries, db'.deliveries, x))
  }

  lemma StoredChanged(db: Tables, db': Tables, key: QueueKey, q: QueueState, q': QueueState, id: Id)
    requires Stored(db, key, q) && QueueOnly(q, q', id) && RowsOnly(db, db', id)
    requires id in Live(q') ==> id in db'.deliveries && Mirrors(db'.deliveries[id], key, q', id)
    requires id in db'.deliveries ==> id in Live(q')
    ensures Stored(db', key, q')
  {
    hide Live;
    forall x | x in Live(q') ensures x in db'.deliveries && Mirrors(db'.deliveries[x], key, q', x) {
      if x != id {
        assert SameEntry(Live(q), Live(q'), x) && SameEntry(db.deliveries, db'.deliveries, x);
        assert SameEntry(q.inFlight, q'.inFlight, x);
      }
    }
    forall x | x in db'.deliveries && db'.deliveries[x].queue == key ensures x in Live(q') {
      if x != id { assert SameEntry(Live(q), Live(q'), x) && SameEntry(db.deliveries, db'.deliveries, x); }
    }
    assert FiltersOf(db', key) == FiltersOf(db, key);
  }

  lemma RowsOfOneQueue(db: Tables, db': Tables, key: QueueKey, id: Id)
    requires RowsOnly(db, db', id)
    requires id in db.deliveries ==> db.deliveries[id].queue == key
    requires id in db'.deliveries ==> db'.deliveries[id].queue == key
    ensures OnlyRowsOf(db, db', key)
  {
    forall x | x in db.deliveries && db.deliveries[x].queue != key
      ensures x in db'.deliveries && db'.deliveries[x] == db.deliveries[x]
    { assert SameEntry(db.deliveries, db'.deliveries, x); }
    forall x | x in db'.deliveries && db'.deliveries[x].queue != key
      ensures x in db.deliveries && db'.deliveries[x] == db.deliveries[x]
    { assert SameEntry(db.deliveries, db'.deliveries, x); }
  }

  lemma OneRow(db: Tables, id: Id, row: DeliveryRow)
    ensures RowsOnly(db, db.(deliveries := db.deliveries[id := row]), id)
    ensures RowsOnly(db, DeleteDelivery(db, id), id)
  {
  }

  /** A durable queue changes, and its row for `id` with it; everything else stays. */
  lemma DurableChanged(w: World, w': World, key: QueueKey, q: QueueState, id: Id)
    requires Agree(w) && key in w.queues && w.queues[key].durable && WellFormed(q)
    requires w' == w.(queues := w.queues[key := q], db := w'.db)
    requires QueueOnly(w.queues[key], q, id) && RowsOnly(w.db, w'.db, id)
    requires id in w.db.deliveries ==> w.db.deliveries[id].queue == key
    requires id in w'.db.deliveries ==> w'.db.deliveries[id].queue == key && id in Live(q)
    requires id in Live(q) ==> id in w'.db.deliveries && Mirrors(w'.db.deliveries[id], key, q, id)
    ensures Agree(w')
  {
    assert QueueAgrees(w, key, w.queues[key]);
    StoredChanged(w.db, w'.db, key, w.queues[key], q, id);
    RowsOfOneQueue(w.db, w'.db, key, id);
    hide Live, WellFormed, Registrable, Stored, Mirrors, Agree, OnlyRowsOf, RowsOnly;
    OneQueueChanged(w, w', key, q);
  }

  lemma EnqueueOnly(q: QueueState, d: Delivery)
    requires WellFormed(q) && d.id !in Live(q)
    ensures WellFormed(Enqueue(q, d)) && QueueOnly(q, Enqueue(q, d), d.id) && d.id !in q.inFlight
    ensures SameEntry(map[d.id := d], Live(Enqueue(q, d)), d.id)
  {
    LiveKeyed(q);
    EnqueueLive(q, d);
  }

  lemma FetchOnly(q: QueueState, c: string)
    requires WellFormed(q) && q.ready != []
    ensures var d := Taken(q, c);
      && WellFormed(QueueModel.Fetch(q, c)) && QueueOnly(q, QueueModel.Fetch(q, c), d.id)
      && SameEntry(map[d.id := d], Live(QueueModel.Fetch(q, c)), d.id)
      && SameEntry(map[d.id := q.ready[0]], Live(q), d.id)
  {
    FetchLive(q, c);
  }

  lemma SettleOnly(q: QueueState, id: Id)
    requires WellFormed(q) && id in q.inFlight
    ensures WellFormed(Settle(q, id)) && QueueOnly(q, Settle(q, id), id) && id !in Live(Settle(q, id)) && id in Live(q)
  {
    LiveKeyed(q);
    SettleLive(q, id);
  }

  lemma RequeueOnly(q: QueueState, id: Id)
    requires WellFormed(q) && id in q.inFlight
    ensures WellFormed(Requeue(q, id)) && QueueOnly(q, Requeue(q, id), id)
    ensures SameEntry(map[id := q.inFlight[id]], Live(q), id)
    ensures SameEntry(map[id := q.inFlight[id].(consumer := "")], Live(Requeue(q, id)), id)
  {
    LiveKeyed(q);
    RequeueLive(q, id);
  }

  lemma AgreeOffer(w: World, key: QueueKey, message: Message, mint: Mint)
    requires Agree(w) && key in w.queues
    requires mint.id !in Live(w.queues[key]) && mint.id !in w.db.deliveries
    ensures Agree(Offer(w, key, message, mint))
  {
    var q := w.queues[key];
    var w' := Offer(w, key, message, mint);
    assert QueueAgrees(w, key, q);
    EnqueueOnly(q, Delivery(mint.id, message, "", 0));
    OneRow(w.db, mint.id, DeliveryRow(key, message, StatusReady, 0, None, mint.time));
    hide Live, WellFormed, QueueOnly, Agree, QueueAgrees, RowsOnly;
    if q.durable {
      DurableChanged(w, w', key, w'.queues[key], mint.id);
    } else {
      TransientChanged(w, w', key, w'.queues[key]);
    }
  }

  lemma AgreeFetch(w: World, key: QueueKey, consumer: string)
    requires Agree(w) && key in w.queues && w.queues[key].ready != []
    ensures Agree(FetchIn(w, key, consumer))
  {
    var q := w.queues[key];
    var w' := FetchIn(w, key, consumer);
    assert QueueAgrees(w, key, q);
    FetchOnly(q, consumer);
    var id := q.ready[0].id;
    assert q.durable ==> id in w.db.deliveries && Mirrors(w.db.deliveries[id], key, q, id);
    if q.durable { OneRow(w.db, id, w'.db.deliveries[id]); }
    hide Live, WellFormed, QueueOnly, Agree, QueueAgrees, RowsOnly;
    if q.durable {
      DurableChanged(w, w', key, w'.queues[key], q.ready[0].id);
    } else {
      TransientChanged(w, w', key, w'.queues[key]);
    }
  }

  lemma AgreeAck(w: World, key: QueueKey, id: Id)
    requires Agree(w) && key in w.queues && id in w.queues[key].inFlight
    ensures Agree(AckIn(w, key, id))
  {
    var q := w.queues[key];
    var w' := AckIn(w, key, id);
    assert QueueAgrees(w, key, q);
    SettleOnly(q, id);
    assert q.durable ==> id in w.db.deliveries && Mirrors(w.db.deliveries[id], key, q, id);
    if q.durable { OneRow(w.db, id, w.db.deliveries[id]); }
    hide Live, WellFormed, QueueOnly, Agree, QueueAgrees, RowsOnly;
    if q.durable {
      DurableChanged(w, w', key, w'.queues[key], id);
    } else {
      TransientChanged(w, w', key, w'.queues[key]);
    }
  }

  lemma LettersDontMatter(w: World, w': World)
    requires Agree(w) && w' == w.(db := w.db.(letters := w'.db.letters))
    ensures Agree(w')
  {
    hide Live, WellFormed, Registrable;
    forall k | k in w'.queues ensures QueueAgrees(w', k, w'.queues[k]) {
      assert QueueAgrees(w, k, w.queues[k]);
      assert FiltersOf(w'.db, k) == FiltersOf(w.db, k);
    }
  }

  lemma AgreeRequeue(w: World, key: QueueKey, id: Id, letterId: Id)
    requires Agree(w) && key in w.queues && id in w.queues[key].inFlight
    requires !GivesUp(w.queues[key], w.queues[key].inFlight[id])
    ensures Agree(NAckIn(w, key, id, letterId))
  {
    var q := w.queues[key];
    var w' := NAckIn(w, key, id, letterId);
    assert QueueAgrees(w, key, q);
    hide Live, WellFormed, QueueOnly, Agree, QueueAgrees, RowsOnly, GivesUp, Registrable;
    RequeueOnly(q, id);
    assert q.durable ==> id in w.db.deliveries && Mirrors(w.db.deliveries[id], key, q, id);
    if q.durable { OneRow(w.db, id, w'.db.deliveries[id]); }
    if q.durable {
      DurableChanged(w, w', key, w'.queues[key], id);
    } else {
      TransientChanged(w, w', key, w'.queues[key]);
    }
  }

  lemma AgreeNAck(w: World, key: QueueKey, id: Id, letterId: Id)
    requires Agree(w) && key in w.queues && id in w.queues[key].inFlight
    ensures Agree(NAckIn(w, key, id, letterId))
  {
    var w' := NAckIn(w, key, id, letterId);
    if GivesUp(w.queues[key], w.queues[key].inFlight[id]) {
      AgreeAck(w, key, id);
      LettersDontMatter(AckIn(w, key, id), w');
    } else {
      AgreeRequeue(w, key, id, letterId);
    }
  }

  lemma AgreeJoin(w: World, key: QueueKey, consumer: string)
    requires Agree(w) && key in w.queues
    ensures Agree(w.(queues := w.queues[key := Join(w.queues[key], consumer)]))
  {
    var q := w.queues[key];
    var w' := w.(queues := w.queues[key := Join(q, consumer)]);
    assert QueueAgrees(w, key, q);
    hide Registrable;
    JoinedAgrees(w, key, q, consumer);
    hide QueueAgrees;
    if q.durable {
      OneQueueChanged(w, w', key, Join(q, consumer));
    } else {
      TransientChanged(w, w', key, w'.queues[key]);
    }
  }

  lemma JoinedAgrees(w: World, key: QueueKey, q: QueueState, consumer: string)
    requires QueueAgrees(w, key, q)
    ensures QueueAgrees(w, key, Join(q, consumer)) && WellFormed(Join(q, consumer))
  {
    assert Live(Join(q, consumer)) == Live(q);
    hide Live, Registrable;
    if q.durable {
      forall id | id in Live(q) ensures Mirrors(w.db.deliveries[id], key, Join(q, consumer), id) {
        assert Mirrors(w.db.deliveries[id], key, q, id);
      }
    }
  }

  // ---------------------------------------------------------------- publishing

  function Minted(message: Message, mint: Mint): Delivery {
    Delivery(mint.id, message, "", 0)
  }

  /** Each queue of `order` has exactly one new delivery, at its end and its own; no other queue changed. */
  ghost predicate QueuesFanOut(w: World, w': World, order: seq<QueueKey>, message: Message, mints: seq<Mint>)
    requires |order| <= |mints| && (forall k :: k in order ==> k in w.queues)
  {
    && w'.queues.Keys == w.queues.Keys
    && (forall k :: k in w.queues && k !in order ==> w'.queues[k] == w.queues[k])
    && (forall i :: 0 <= i < |order| ==> w'.queues[order[i]] == Enqueue(w.queues[order[i]], Minted(message, mints[i])))
  }

  /** Row `id` is the one stored for the i-th queue of `order`. */
  ghost predicate IsNewRow(w: World, order: seq<QueueKey>, message: Message, mints: seq<Mint>, i: int, id: Id,
                           row: DeliveryRow)
    requires |order| <= |mints| && (forall k :: k in order ==> k in w.queues)
  {
    && 0 <= i < |order| && w.queues[order[i]].durable && id == mints[i].id
    && row == DeliveryRow(order[i], message, StatusReady, 0, None, mints[i].time)
  }

  /** The durable queues of `order` have exactly one new row each; every other row is as it was. */
  ghost predicate RowsFanOut(w: World, w': World, order: seq<QueueKey>, message: Message, mints: seq<Mint>)
    requires |order| <= |mints| && (forall k :: k in order ==> k in w.queues)
  {
    && w'.db == w.db.(deliveries := w'.db.deliveries)
    && (forall i :: 0 <= i < |order| && w.queues[order[i]].durable ==> mints[i].id in w'.db.deliveries)
    && (forall id :: id in w'.db.deliveries ==>
          || (id in w.db.deliveries && w'.db.deliveries[id] == w.db.deliveries[id])
          || exists i :: IsNewRow(w, order, message, mints, i, id, w'.db.deliveries[id]))
    && w.db.deliveries.Keys <= w'.db.deliveries.Keys
  }

  lemma {:induction false} QueuesFanOutAll(w: World, order: seq<QueueKey>, message: Message, mints: seq<Mint>)
    requires |order| <= |mints| && (forall k :: k in order ==> k in w.queues)
    requires forall i, j :: 0 <= i < j < |order| ==> order[i] != order[j]
    ensures QueuesFanOut(w, OfferAll(w, order, message, mints), order, message, mints)
    ensures OfferAll(w, order, message, mints).exchanges == w.exchanges
  {
    if order != [] {
      var n := |order| - 1;
      var init := order[..n];
      assert order == init + [order[n]] && order[n] !in init;
      QueuesFanOutAll(w, init, message, mints);
      OneMoreQueue(w, OfferAll(w, init, message, mints), init, order[n], message, mints);
    }
  }

  lemma OneMoreQueue(w: World, w1: World, init: seq<QueueKey>, last: QueueKey, message: Message, mints: seq<Mint>)
    requires |init| < |mints| && (forall k :: k in init + [last] ==> k in w.queues) && last !in init
    requires QueuesFanOut(w, w1, init, message, mints) && last in w1.queues
    ensures QueuesFanOut(w, Offer(w1, last, message, mints[|init|]), init + [last], message, mints)
  {
    hide Enqueue;
    assert forall i :: 0 <= i < |init| ==> (init + [last])[i] == init[i];
    assert w1.queues[last] == w.queues[last];
  }

  /** A new row of a shorter list is a new row of a longer one. */
  lemma NewRowStays(w: World, init: seq<QueueKey>, last: QueueKey, message: Message, mints: seq<Mint>, id: Id,
                    row: DeliveryRow)
    requires |init| < |mints| && (forall k :: k in init + [last] ==> k in w.queues)
    requires exists i :: IsNewRow(w, init, message, mints, i, id, row)
    ensures exists i :: IsNewRow(w, init + [last], message, mints, i, id, row)
  {
    assert forall k :: k in init ==> k in init + [last];
    var i :| IsNewRow(w, init, message, mints, i, id, row);
    assert (init + [last])[i] == init[i];
    assert IsNewRow(w, init + [last], message, mints, i, id, row);
  }

  lemma OneMoreRow(w: World, w1: World, init: seq<QueueKey>, last: QueueKey, message: Message, mints: seq<Mint>)
    requires |init| < |mints| && (forall k :: k in init + [last] ==> k in w.queues)
    requires RowsFanOut(w, w1, init, message, mints) && last in w1.queues
    requires w1.queues[last].durable == w.queues[last].durable
    ensures RowsFanOut(w, Offer(w1, last, message, mints[|init|]), init + [last], message, mints)
  {
    var n, order := |init|, init + [last];
    var w' := Offer(w1, last, message, mints[n]);
    assert forall i :: 0 <= i < n ==> order[i] == init[i];
    forall id | id in w'.db.deliveries
      ensures (id in w.db.deliveries && w'.db.deliveries[id] == w.db.deliveries[id]) ||
              exists i :: IsNewRow(w, order, message, mints, i, id, w'.db.deliveries[id])
    {
      RowComesFrom(w, w1, init, last, message, mints, id);
    }
    hide Enqueue, IsNewRow;
  }

  lemma RowComesFrom(w: World, w1: World, init: seq<QueueKey>, last: QueueKey, message: Message, mints: seq<Mint>,
                     id: Id)
    requires |init| < |mints| && (forall k :: k in init + [last] ==> k in w.queues)
    requires RowsFanOut(w, w1, init, message, mints) && last in w1.queues
    requires w1.queues[last].durable == w.queues[last].durable
    requires id in Offer(w1, last, message, mints[|init|]).db.deliveries
    ensures var row := Offer(w1, last, message, mints[|init|]).db.deliveries[id];
      || (id in w.db.deliveries && row == w.db.deliveries[id])
      || exists i :: IsNewRow(w, init + [last], message, mints, i, id, row)
  {
    var n, order := |init|, init + [last];
    var row := Offer(w1, last, message, mints[n]).db.deliveries[id];
    hide Enqueue;
    if w.queues[last].durable && id == mints[n].id {
      assert IsNewRow(w, order, message, mints, n, id, row);
    } else {
      assert id in w1.db.deliveries && row == w1.db.deliveries[id];
      hide IsNewRow;
      if !(id in w.db.deliveries && row == w.db.deliveries[id]) { NewRowStays(w, init, last, message, mints, id, row); }
    }
  }

  lemma {:induction false} RowsFanOutAll(w: World, order: seq<QueueKey>, message: Message, mints: seq<Mint>)
    requires |order| <= |mints| && (forall k :: k in order ==> k in w.queues)
    requires forall i, j :: 0 <= i < j < |order| ==> order[i] != order[j]
    ensures RowsFanOut(w, OfferAll(w, order, message, mints), order, message, mints)
  {
    if order != [] {
      var n := |order| - 1;
      var init := order[..n];
      assert order == init + [order[n]] && order[n] !in init;
      RowsFanOutAll(w, init, message, mints);
      QueuesFanOutAll(w, init, message, mints);
      var w1 := OfferAll(w, init, message, mints);
      assert OfferAll(w, order, message, mints) == Offer(w1, order[n], message, mints[n]);
      assert w1.queues[order[n]].durable == w.queues[order[n]].durable;
      hide RowsFanOut, Offer, OfferAll, QueuesFanOut;
      OneMoreRow(w, w1, init, order[n], message, mints);
    }
  }

  /** A fresh ID is still fresh for the queues that have not had theirs. */
  lemma StillFresh(w: World, w1: World, init: seq<QueueKey>, key: QueueKey, message: Message, mints: seq<Mint>)
    requires |init| < |mints| && (forall k :: k in init ==> k in w.queues) && key in w.queues && key !in init
    requires QueuesFanOut(w, w1, init, message, mints) && RowsFanOut(w, w1, init, message, mints) && AreFresh(w, mints)
    ensures mints[|init|].id !in Live(w1.queues[key]) && mints[|init|].id !in w1.db.deliveries
  {
    hide Live;
  }

  lemma {:induction false} AgreeOfferAll(w: World, order: seq<QueueKey>, message: Message, mints: seq<Mint>)
    requires Agree(w) && AreFresh(w, mints) && |order| <= |mints| && (forall k :: k in order ==> k in w.queues)
    requires forall i, j :: 0 <= i < j < |order| ==> order[i] != order[j]
    ensures Agree(OfferAll(w, order, message, mints))
  {
    hide Agree, Offer, AreFresh, QueuesFanOut, RowsFanOut;
    if order == [] {
      assert OfferAll(w, order, message, mints) == w;
    } else {
      var n := |order| - 1;
      var init := order[..n];
      assert order == init + [order[n]] && order[n] !in init;
      AgreeOfferAll(w, init, message, mints);
      QueuesFanOutAll(w, init, message, mints);
      RowsFanOutAll(w, init, message, mints);
      var w1 := OfferAll(w, init, message, mints);
      assert OfferAll(w, order, message, mints) == Offer(w1, order[n], message, mints[n]);
      hide OfferAll, Live;
      StillFresh(w, w1, init, order[n], message, mints);
      AgreeOffer(w1, order[n], message, mints[n]);
    }
  }

  // ---------------------------------------------------------------- disconnecting

  function Released(row: DeliveryRow): DeliveryRow {
    row.(status := StatusReady, consumer := None)
  }

  lemma {:induction false} MarkedReady(db: Tables, ds: seq<Delivery>)
    ensures var db' := MarkAllReady(db, ds);
      && db' == db.(deliveries := db'.deliveries) && db'.deliveries.Keys == db.deliveries.Keys
      && (forall i :: 0 <= i < |ds| && ds[i].id in db.deliveries ==>
           db'.deliveries[ds[i].id] == Released(db.deliveries[ds[i].id]))
      && (forall id :: id in db.deliveries && (forall i :: 0 <= i < |ds| ==> ds[i].id != id) ==>
            db'.deliveries[id] == db.deliveries[id])
  {
    if ds != [] {
      var n := |ds| - 1;
      var init := ds[..n];
      MarkedReady(db, init);
      forall i | 0 <= i < n ensures init[i] == ds[i] {}
    }
  }

  lemma OwnedRowsReleased(db: Tables, q: QueueState, c: string, returned: seq<Delivery>)
    requires IsReturnOrder(q, c, returned)
    ensures var db' := MarkAllReady(db, returned);
      && db' == db.(deliveries := db'.deliveries) && db'.deliveries.Keys == db.deliveries.Keys
      && forall id :: id in db.deliveries ==>
           db'.deliveries[id] == if id in Owned(q, c) then Released(db.deliveries[id]) else db.deliveries[id]
  {
    MarkedReady(db, returned);
    ReturnOrderCovers(q, c, returned);
    hide MarkAllReady;
    var db' := MarkAllReady(db, returned);
    forall id | id in db.deliveries
      ensures db'.deliveries[id] == if id in Owned(q, c) then Released(db.deliveries[id]) else db.deliveries[id]
    {
      if id in Owned(q, c) {
        var i :| 0 <= i < |returned| && returned[i].id == id;
      }
    }
  }

  lemma DisconnectedOnlyRows(db: Tables, key: QueueKey, q: QueueState, c: string, returned: seq<Delivery>)
    requires WellFormed(q) && Stored(db, key, q) && IsReturnOrder(q, c, returned)
    ensures OnlyRowsOf(db, MarkAllReady(db, returned), key)
  {
    OwnedRowsReleased(db, q, c, returned);
    LiveKeyed(q);
    hide Live, WellFormed, MarkAllReady, IsReturnOrder;
    forall id | id in Owned(q, c) ensures id in db.deliveries && db.deliveries[id].queue == key {
      assert id in Live(q) && Mirrors(db.deliveries[id], key, q, id);
    }
  }

  lemma DisconnectedMirror(row: DeliveryRow, key: QueueKey, q: QueueState, q': QueueState, c: string, id: Id)
    requires id in Live(q) && id in Live(q') && Mirrors(row, key, q, id)
    requires Live(q')[id].message == Live(q)[id].message && Live(q')[id].attempts == Live(q)[id].attempts
    requires q'.inFlight == q.inFlight - Owned(q, c)
    ensures Mirrors(if id in Owned(q, c) then Released(row) else row, key, q', id)
  {
    hide Live;
  }

  /** A disconnect keeps the messages and attempts of all deliveries. */
  lemma DisconnectKeepsContents(q: QueueState, c: string, returned: seq<Delivery>)
    requires WellFormed(q) && IsReturnOrder(q, c, returned)
    ensures WellFormed(Disconnect(q, c, returned)) && Live(Disconnect(q, c, returned)).Keys == Live(q).Keys
    ensures forall id :: id in Live(q) ==>
      && Live(Disconnect(q, c, returned))[id].message == Live(q)[id].message
      && Live(Disconnect(q, c, returned))[id].attempts == Live(q)[id].attempts
  {
    DisconnectLive(q, c, returned);
    LiveKeyed(q);
    hide Live, WellFormed, IsReturnOrder;
  }

  lemma DisconnectedRows(db: Tables, key: QueueKey, q: QueueState, c: string, returned: seq<Delivery>)
    requires WellFormed(q) && Stored(db, key, q) && IsReturnOrder(q, c, returned)
    ensures Stored(MarkAllReady(db, returned), key, Disconnect(q, c, returned))
    ensures OnlyRowsOf(db, MarkAllReady(db, returned), key)
  {
    hide Live, WellFormed, MarkAllReady, IsReturnOrder, Mirrors, OnlyRowsOf, Owned, AsSet;
    var db', q' := MarkAllReady(db, returned), Disconnect(q, c, returned);
    DisconnectedOnlyRows(db, key, q, c, returned);
    DisconnectKeepsContents(q, c, returned);
    OwnedRowsReleased(db, q, c, returned);
    assert FiltersOf(db', key) == FiltersOf(db, key);
    hide FiltersOf;
    forall id | id in Live(q') ensures id in db'.deliveries && Mirrors(db'.deliveries[id], key, q', id) {
      DisconnectedMirror(db.deliveries[id], key, q, q', c, id);
    }
  }

  lemma TransientRemoved(w: World, key: QueueKey)
    requires Agree(w) && key in w.queues && !w.queues[key].durable
    ensures Agree(w.(queues := w.queues - {key}))
  {
    hide Live, WellFormed, Registrable, Stored;
    var w' := w.(queues := w.queues - {key});
    forall k | k in w'.queues ensures QueueAgrees(w', k, w'.queues[k]) { assert QueueAgrees(w, k, w.queues[k]); }
  }

  lemma AgreeDisconnect(w: World, key: QueueKey, consumer: string, returned: seq<Delivery>)
    requires Agree(w) && key in w.queues && IsReturnOrder(w.queues[key], consumer, returned)
    ensures Agree(DisconnectIn(w, key, consumer, returned))
  {
    var q := w.queues[key];
    var q' := Disconnect(q, consumer, returned);
    var w' := DisconnectIn(w, key, consumer, returned);
    assert QueueAgrees(w, key, q);
    DisconnectWellFormed(q, consumer, returned);
    if q.durable {
      DisconnectedRows(w.db, key, q, consumer, returned);
      hide Live, WellFormed, Stored, Agree, OnlyRowsOf, IsReturnOrder, MarkAllReady;
      OneQueueChanged(w, w', key, q');
    } else if q'.autoDelete && q'.consumers == {} {
      TransientRemoved(w, key);
    } else {
      hide Live, WellFormed, Stored, IsReturnOrder;
      TransientChanged(w, w', key, q');
    }
  }

  // ---------------------------------------------------------------- exchanges and queues

  lemma AgreeCreateExchange(w: World, name: string)
    requires Agree(w)
    ensures Agree(CreateExchangeIn(w, name))
  {
    hide Live, WellFormed, Registrable, Mirrors;
    var w' := CreateExchangeIn(w, name);
    forall k | k in w'.queues ensures QueueAgrees(w', k, w'.queues[k]) {
      assert QueueAgrees(w, k, w.queues[k]);
      assert FiltersOf(w'.db, k) == FiltersOf(w.db, k);
    }
  }

  /** What a cascading delete leaves of a queue it does not touch. */
  lemma StoredSurvives(db: Tables, db': Tables, key: QueueKey, q: QueueState)
    requires Stored(db, key, q) && key in db'.queues && db'.queues[key] == db.queues[key]
    requires FiltersOf(db', key) == FiltersOf(db, key)
    requires forall id :: id in db.deliveries && db.deliveries[id].queue == key ==>
      id in db'.deliveries && db'.deliveries[id] == db.deliveries[id]
    requires forall id :: id in db'.deliveries && db'.deliveries[id].queue == key ==>
      id in db.deliveries && db.deliveries[id].queue == key
    ensures Stored(db', key, q)
  {
    hide Live;
    forall id | id in Live(q) ensures id in db'.deliveries && Mirrors(db'.deliveries[id], key, q, id) {
      assert Mirrors(db.deliveries[id], key, q, id);
    }
  }

  lemma AgreeDeleteExchange(w: World, name: string)
    requires Agree(w)
    ensures Agree(DeleteExchangeIn(w, name))
  {
    var w' := DeleteExchangeIn(w, name);
    hide Live, WellFormed, Registrable, Mirrors;
    forall k | k in w'.queues ensures QueueAgrees(w', k, w'.queues[k]) {
      assert QueueAgrees(w, k, w.queues[k]);
      if w.queues[k].durable {
        assert FiltersOf(w'.db, k) == FiltersOf(w.db, k);
        StoredSurvives(w.db, w'.db, k, w.queues[k]);
      }
    }
  }

  lemma AgreeDeleteQueue(w: World, key: QueueKey)
    requires Agree(w) && key in w.queues
    ensures Agree(DeleteQueueIn(w, key))
  {
    var w' := DeleteQueueIn(w, key);
    if !w.queues[key].durable {
      TransientRemoved(w, key);
    } else {
      hide Live, WellFormed, Registrable, Mirrors;
      forall k | k in w'.queues ensures QueueAgrees(w', k, w'.queues[k]) {
        assert QueueAgrees(w, k, w.queues[k]);
        if w.queues[k].durable {
          assert FiltersOf(w'.db, k) == FiltersOf(w.db, k);
          StoredSurvives(w.db, w'.db, k, w.queues[k]);
        }
      }
    }
  }

  lemma SavedFilters(db: Tables, key: QueueKey, row: QueueRow, filters: seq<string>, k: QueueKey)
    ensures FiltersOf(SaveQueue(db, key, row, filters), k) ==
              if k == key then FiltersOf(db, k) + AsSet(filters) else FiltersOf(db, k)
  {
    var db' := SaveQueue(db, key, row, filters);
    forall f ensures f in FiltersOf(db', k) <==> (f in FiltersOf(db, k) || (k == key && f in filters)) {
      if k == key && f in filters {
        var i :| 0 <= i < |filters| && filters[i] == f;
        assert (key, filters[i]) in db'.filters;
        assert (k, f) in db'.filters;
      }
      if f in FiltersOf(db, k) { assert (k, f) in db'.filters; }
      if f in FiltersOf(db', k) { assert (k, f) in db'.filters; }
    }
  }

  /** Registering an existing queue again adds nothing to the database; registering a new one stores it afresh. */
  lemma AgreeRegisterQueue(w: World, key: QueueKey, durable: bool, autoDelete: bool, maxAttempts: int,
                           filters: seq<string>)
    requires Agree(w) && key.exchange in w.exchanges
    requires key !in w.queues ==> Registrable(durable, autoDelete, maxAttempts, filters)
    ensures Agree(RegisterQueueIn(w, key, durable, autoDelete, maxAttempts, filters))
  {
    var w' := RegisterQueueIn(w, key, durable, autoDelete, maxAttempts, filters);
    var q := w'.queues[key];
    hide Registrable, QueueAgrees;
    forall k | k in w'.queues ensures QueueAgrees(w', k, w'.queues[k]) {
      if k in w.queues { RegisteredBefore(w, w', key, q, k); } else { RegisteredNow(w, w', key, q); }
    }
    FiltersHaveQueues(w, w', key, q);
    RegisteredTables(w, w', key, q);
    hide SaveQueue;
  }

  /** The other parts of agreement: the queue saved is a durable queue in memory. */
  lemma RegisteredTables(w: World, w': World, key: QueueKey, q: QueueState)
    requires Agree(w) && (key in w.queues ==> q == w.queues[key]) && w'.queues == w.queues[key := q]
    requires w'.db == if q.durable then SaveQueue(w.db, key, RowOf(q), q.filters) else w.db
    ensures w'.db.exchanges == w.db.exchanges && w'.db.deliveries == w.db.deliveries
    ensures forall k :: k in w'.db.queues ==> k in w'.queues && w'.queues[k].durable
    ensures w.db.queues.Keys <= w'.db.queues.Keys
  {
    hide QueueAgrees;
  }

  /** A new queue is stored with its filters and without deliveries. */
  lemma RegisteredNow(w: World, w': World, key: QueueKey, q: QueueState)
    requires Agree(w) && key !in w.queues && key.exchange in w.exchanges && q.name == key.name
    requires Registrable(q.durable, q.autoDelete, q.maxAttempts, q.filters) && q.ready == [] && q.inFlight == map[]
    requires w'.exchanges == w.exchanges
      && w'.db == if q.durable then SaveQueue(w.db, key, RowOf(q), q.filters) else w.db
    ensures QueueAgrees(w', key, q)
  {
    assert Live(q) == map[];
    hide Registrable, Mirrors, QueueAgrees;
    if q.durable {
      assert FiltersOf(w.db, key) == {};
      SavedFilters(w.db, key, RowOf(q), q.filters, key);
    }
    NowAgrees(w', key, q);
  }

  lemma NowAgrees(w: World, key: QueueKey, q: QueueState)
    requires key.exchange in w.exchanges && q.name == key.name && WellFormed(q)
    requires Registrable(q.durable, q.autoDelete, q.maxAttempts, q.filters) && (q.durable ==> Stored(w.db, key, q))
    ensures QueueAgrees(w, key, q)
  {
  }

  /** A registration leaves the queues that were there as they agreed. */
  lemma RegisteredBefore(w: World, w': World, key: QueueKey, q: QueueState, k: QueueKey)
    requires Agree(w) && k in w.queues && (key == k ==> q == w.queues[k])
    requires w'.exchanges == w.exchanges
      && w'.db == if q.durable then SaveQueue(w.db, key, RowOf(q), q.filters) else w.db
    ensures QueueAgrees(w', k, w.queues[k])
  {
    hide Live, WellFormed, Registrable, Mirrors, FiltersOf;
    assert QueueAgrees(w, k, w.queues[k]);
    if w.queues[k].durable {
      SavedFilters(w.db, key, RowOf(q), q.filters, k);
      StoredSurvives(w.db, w'.db, k, w.queues[k]);
    }
  }

  lemma FiltersHaveQueues(w: World, w': World, key: QueueKey, q: QueueState)
    requires (forall f :: f in w.db.filters ==> f.0 in w.db.queues)
    requires w'.db == if q.durable then SaveQueue(w.db, key, RowOf(q), q.filters) else w.db
    ensures forall f :: f in w'.db.filters ==> f.0 in w'.db.queues
  {
  }

  // ---------------------------------------------------------------- whole runs

  ghost predicate Empty(w: World) {
    w.exchanges == {} && w.queues == map[] && w.db == Tables({}, map[], {}, map[], map[])
  }

  /** Every accepted call keeps memory and database in agreement. */
  lemma ServeKeepsAgreement(limits: Limits, w: World, r: Request)
    requires Agree(w) && Accepts(limits, w, r)
    ensures Agree(Serve(limits, w, r))
  {
    hide Agree, IsReturnOrder, AreFresh, Registrable, Owned, MarkAllReady, OfferAll;
    match r
    case CreateExchange(name) => AgreeCreateExchange(w, name);
    case DeleteExchange(name) => AgreeDeleteExchange(w, name);
    case RegisterQueue(key, durable, autoDelete, maxAttempts, filters) =>
      AgreeRegisterQueue(w, key, durable, autoDelete, maxAttempts, filters);
    case DeleteQueue(key) => AgreeDeleteQueue(w, key);
    case Publish(exchange, message, order, mints) => AgreeOfferAll(w, order, message, mints);
    case Fetch(key, consumer) => AgreeFetch(w, key, consumer);
    case Ack(key, id, consumer) => AgreeAck(w, key, id);
    case NAck(key, id, consumer, letterId) => AgreeNAck(w, key, id, letterId);
    case AddConsumer(key, consumer) => AgreeJoin(w, key, consumer);
    case DisconnectConsumer(key, consumer, returned) => AgreeDisconnect(w, key, consumer, returned);
  }

  /** A sequential run without repository failures: each call is served, or refused and without effect. */
  ghost predicate IsRun(limits: Limits, worlds: seq<World>, calls: seq<Request>) {
    && |worlds| == |calls| + 1 && Empty(worlds[0])
    && forall i :: 0 <= i < |calls| ==>
         || (Accepts(limits, worlds[i], calls[i]) && worlds[i + 1] == Serve(limits, worlds[i], calls[i]))
         || worlds[i + 1] == worlds[i]
  }

  lemma {:induction false} RunKeepsAgreement(limits: Limits, worlds: seq<World>, calls: seq<Request>, i: nat)
    requires IsRun(limits, worlds, calls) && i < |worlds|
    ensures Agree(worlds[i])
  {
    hide Accepts, Serve;
    if i > 0 {
      RunKeepsAgreement(limits, worlds, calls, i - 1);
      if worlds[i] != worlds[i - 1] { ServeKeepsAgreement(limits, worlds[i - 1], calls[i - 1]); }
    }
  }

  /** Topology agreement: exchanges are the same on both sides, the stored queues are the durable ones in
      memory, none of them auto-deletes, and no stored delivery belongs to a queue that could. */
  lemma TopologyAgrees(limits: Limits, worlds: seq<World>, calls: seq<Request>, i: nat)
    requires IsRun(limits, worlds, calls) && i < |worlds|
    ensures var w := worlds[i];
      && w.db.exchanges == w.exchanges
      && (forall k :: k in w.db.queues <==> k in w.queues && w.queues[k].durable)
      && (forall k :: k in w.queues ==> k.exchange in w.exchanges && !(w.queues[k].durable && w.queues[k].autoDelete))
      && (forall id :: id in w.db.deliveries ==>
            w.db.deliveries[id].queue in w.queues && !w.queues[w.db.deliveries[id].queue].autoDelete)
  {
    hide IsRun;
    RunKeepsAgreement(limits, worlds, calls, i);
    AgreedTopology(worlds[i]);
    hide Agree;
  }

  lemma AgreedTopology(w: World)
    requires Agree(w)
    ensures w.db.exchanges == w.exchanges
    ensures forall k :: k in w.db.queues <==> k in w.queues && w.queues[k].durable
    ensures forall k :: k in w.queues ==> k.exchange in w.exchanges && !(w.queues[k].durable && w.queues[k].autoDelete)
    ensures forall id :: id in w.db.deliveries ==>
      w.db.deliveries[id].queue in w.queues && !w.queues[w.db.deliveries[id].queue].autoDelete
  {
    hide Live;
    forall k | k in w.queues
      ensures (k in w.db.queues <==> w.queues[k].durable) && k.exchange in w.exchanges
      ensures !(w.queues[k].durable && w.queues[k].autoDelete)
    {
      assert QueueAgrees(w, k, w.queues[k]);
    }
  }

  /** Hence a disconnect that auto-deletes its queue leaves no rows behind. */
  lemma AutoDeleteLeavesNoRows(limits: Limits, worlds: seq<World>, calls: seq<Request>, i: nat)
    requires IsRun(limits, worlds, calls) && i < |calls| && calls[i].DisconnectConsumer?
    requires calls[i].key in worlds[i].queues && calls[i].key !in worlds[i + 1].queues
    ensures calls[i].key !in worlds[i].db.queues && worlds[i + 1].db == worlds[i].db
    ensures forall id :: id in worlds[i].db.deliveries ==> worlds[i].db.deliveries[id].queue != calls[i].key
  {
    TopologyAgrees(limits, worlds, calls, i);
    var w := worlds[i];
    assert worlds[i + 1] == Serve(limits, w, calls[i]);
  }
}
