/** Restart: what the repository loads, how rows are grouped into queues, what Restore builds
    from it, and that this is the durable part of what memory held before. */
module RestoreModel {
  import opened Types
  import opened QueueModel
  import opened Tables
  import opened ServiceModel
  import opened ServiceRuns
  import Routing

  datatype StoredQueue = StoredQueue(key: QueueKey, durable: bool, autoDelete: bool, maxAttempts: int,
    filters: seq<string>)
  datatype StoredDelivery = StoredDelivery(key: QueueKey, delivery: Delivery)
  datatype Loaded = Loaded(exchanges: seq<string>, queues: seq<StoredQueue>, deliveries: seq<StoredDelivery>)

  // ---------------------------------------------------------------- grouping the joined rows

  /** One row of queues LEFT JOIN queue_filters; no filter for a queue without any. */
  datatype JoinRow = JoinRow(key: QueueKey, queue: QueueRow, filter: Option<string>)

  ghost predicate IsJoinRow(db: Tables, row: JoinRow) {
    && row.key in db.queues && row.queue == db.queues[row.key]
    && match row.filter
       case Some(f) => f in FiltersOf(db, row.key)
       case None => FiltersOf(db, row.key) == {}
  }

  /** `rows` answers the query: every joined row once. The order of rows is left to the database. */
  ghost predicate IsLeftJoin(db: Tables, rows: seq<JoinRow>) {
    && (forall i, j :: 0 <= i < j < |rows| ==> rows[i] != rows[j])
    && (forall row :: row in rows <==> IsJoinRow(db, row))
  }

  /** The filters that the rows list for one queue, in row order. */
  function FiltersIn(rows: seq<JoinRow>, key: QueueKey): seq<string> {
    if rows == [] then []
    else
      var last := rows[|rows| - 1];
      FiltersIn(rows[..|rows| - 1], key) + if last.key == key && last.filter.Some? then [last.filter.value] else []
  }

  ghost predicate HasRow(rows: seq<JoinRow>, key: QueueKey) {
    exists i :: 0 <= i < |rows| && rows[i].key == key
  }

  /** What grouping owes: each queue of the rows once, with its flags and all its filters. */
  ghost predicate IsGrouping(rows: seq<JoinRow>, queues: seq<StoredQueue>) {
    && (forall i, j :: 0 <= i < j < |queues| ==> queues[i].key != queues[j].key)
    && (forall key :: HasRow(rows, key) ==> exists i :: 0 <= i < |queues| && queues[i].key == key)
    && (forall i :: 0 <= i < |queues| ==>
          && queues[i].filters == FiltersIn(rows, queues[i].key)
          && exists r :: 0 <= r < |rows| && rows[r].key == queues[i].key &&
               rows[r].queue == QueueRow(queues[i].durable, queues[i].autoDelete, queues[i].maxAttempts))
  }

  lemma {:induction false} FiltersInMember(rows: seq<JoinRow>, key: QueueKey, f: string)
    ensures f in FiltersIn(rows, key) <==>
      exists i :: 0 <= i < |rows| && rows[i].key == key && rows[i].filter == Some(f)
  {
    if rows != [] {
      var n := |rows| - 1;
      FiltersInMember(rows[..n], key, f);
      assert rows == rows[..n] + [rows[n]];
    }
  }

  lemma {:induction false} FiltersInDistinct(rows: seq<JoinRow>, key: QueueKey)
    requires forall i, j :: 0 <= i < j < |rows| ==> rows[i] != rows[j]
    requires forall i, j :: 0 <= i < |rows| && 0 <= j < |rows| && rows[i].key == rows[j].key ==>
      rows[i].queue == rows[j].queue
    ensures forall a, b :: 0 <= a < b < |FiltersIn(rows, key)| ==> FiltersIn(rows, key)[a] != FiltersIn(rows, key)[b]
  {
    if rows != [] {
      var n := |rows| - 1;
      var init, last := rows[..n], rows[n];
      FiltersInDistinct(init, key);
      if last.key == key && last.filter.Some? {
        FiltersInMember(init, key, last.filter.value);
        assert last.filter.value !in FiltersIn(init, key);
      }
    }
  }

  /** What `loadQueues` must return: one state per queue row, with its flags and exactly its filters, none twice. */
  ghost predicate IsQueueLoad(db: Tables, queues: seq<StoredQueue>) {
    && (forall i, j :: 0 <= i < j < |queues| ==> queues[i].key != queues[j].key)
    && (forall key :: key in db.queues ==> exists i :: 0 <= i < |queues| && queues[i].key == key)
    && (forall i :: 0 <= i < |queues| ==> IsStoredQueue(db, queues[i]))
  }

  ghost predicate IsStoredQueue(db: Tables, q: StoredQueue) {
    && q.key in db.queues && db.queues[q.key] == QueueRow(q.durable, q.autoDelete, q.maxAttempts)
    && AsSet(q.filters) == FiltersOf(db, q.key)
    && (forall a, b :: 0 <= a < b < |q.filters| ==> q.filters[a] != q.filters[b])
  }

  lemma GroupedFilters(db: Tables, rows: seq<JoinRow>, key: QueueKey)
    requires IsLeftJoin(db, rows) && key in db.queues
    ensures AsSet(FiltersIn(rows, key)) == FiltersOf(db, key) && HasRow(rows, key)
  {
    forall f ensures f in FiltersIn(rows, key) <==> f in FiltersOf(db, key) {
      FiltersInMember(rows, key, f);
      var row := JoinRow(key, db.queues[key], Some(f));
      if f in FiltersOf(db, key) {
        assert IsJoinRow(db, row) && row in rows;
      }
      if i :| 0 <= i < |rows| && rows[i].key == key && rows[i].filter == Some(f) {
        assert rows[i] in rows && IsJoinRow(db, rows[i]);
      }
    }
    var filter := if FiltersOf(db, key) == {} then None else var f :| f in FiltersOf(db, key); Some(f);
    var row := JoinRow(key, db.queues[key], filter);
    assert IsJoinRow(db, row) && row in rows;
  }

  /** Grouping the left join gives back the stored queues, whatever order the rows came in. */
  lemma GroupingIsExact(db: Tables, rows: seq<JoinRow>, queues: seq<StoredQueue>)
    requires IsLeftJoin(db, rows) && IsGrouping(rows, queues)
    ensures IsQueueLoad(db, queues)
  {
    forall key | key in db.queues ensures exists i :: 0 <= i < |queues| && queues[i].key == key {
      GroupedFilters(db, rows, key);
    }
    forall i, j | 0 <= i < |rows| && 0 <= j < |rows| && rows[i].key == rows[j].key
      ensures rows[i].queue == rows[j].queue
    {
      assert rows[i] in rows && rows[j] in rows;
    }
    forall i | 0 <= i < |queues| ensures IsStoredQueue(db, queues[i]) {
      var r :| 0 <= r < |rows| && rows[r].key == queues[i].key &&
        rows[r].queue == QueueRow(queues[i].durable, queues[i].autoDelete, queues[i].maxAttempts);
      assert rows[r] in rows;
      GroupedFilters(db, rows, queues[i].key);
      FiltersInDistinct(rows, queues[i].key);
    }
  }

  // ---------------------------------------------------------------- what is loaded

  ghost predicate IsExchangeLoad(db: Tables, exchanges: seq<string>) {
    AsSet(exchanges) == db.exchanges
  }

  /** `ds` lists the delivery rows in the order of the delivery query. */
  ghost predicate IsDeliveryLoad(db: Tables, ds: seq<StoredDelivery>) {
    exists order :: IsDeliveryOrder(db, order) && ReadsRows(db, order, ds)
  }

  ghost predicate ReadsRows(db: Tables, order: seq<Id>, ds: seq<StoredDelivery>) {
    && |ds| == |order|
    && (forall i :: 0 <= i < |order| ==>
          && order[i] in db.deliveries
          && ds[i] == StoredDelivery(db.deliveries[order[i]].queue, LoadedDelivery(order[i], db.deliveries[order[i]])))
  }

  ghost predicate IsLoad(db: Tables, l: Loaded) {
    IsExchangeLoad(db, l.exchanges) && IsQueueLoad(db, l.queues) && IsDeliveryLoad(db, l.deliveries)
  }

  // ---------------------------------------------------------------- what is rebuilt

  function Fresh(q: StoredQueue): QueueState {
    NewQueue(q.key.name, q.durable, q.autoDelete, q.maxAttempts, q.filters)
  }

  function RegisterAll(queues: seq<StoredQueue>): map<QueueKey, QueueState> {
    if queues == [] then map[]
    else RegisterAll(queues[..|queues| - 1])[queues[|queues| - 1].key := Fresh(queues[|queues| - 1])]
  }

  function RestoreAll(queues: map<QueueKey, QueueState>, ds: seq<StoredDelivery>): (r: map<QueueKey, QueueState>)
    requires forall i :: 0 <= i < |ds| ==> ds[i].key in queues
    ensures r.Keys == queues.Keys
  {
    if ds == [] then queues
    else
      var n := |ds| - 1;
      var before := RestoreAll(queues, ds[..n]);
      before[ds[n].key := RestoreReady(before[ds[n].key], ds[n].delivery)]
  }

  /** The loaded deliveries of one queue, in load order, without owners. */
  function Select(ds: seq<StoredDelivery>, key: QueueKey): seq<Delivery> {
    if ds == [] then []
    else
      var last := ds[|ds| - 1];
      Select(ds[..|ds| - 1], key) + if last.key == key then [last.delivery.(consumer := "")] else []
  }

  lemma {:induction false} RegisterAllAt(queues: seq<StoredQueue>)
    requires forall i, j :: 0 <= i < j < |queues| ==> queues[i].key != queues[j].key
    ensures forall i :: 0 <= i < |queues| ==>
      queues[i].key in RegisterAll(queues) && RegisterAll(queues)[queues[i].key] == Fresh(queues[i])
    ensures forall k :: k in RegisterAll(queues) ==> exists i :: 0 <= i < |queues| && queues[i].key == k
  {
    if queues != [] {
      var n := |queues| - 1;
      var init := queues[..n];
      RegisterAllAt(init);
      forall i | 0 <= i < n ensures init[i] == queues[i] && queues[i].key != queues[n].key {}
    }
  }

  /** Restoring appends to each queue its own deliveries, in load order. */
  lemma {:induction false} RestoreAllAt(queues: map<QueueKey, QueueState>, ds: seq<StoredDelivery>, key: QueueKey)
    requires (forall i :: 0 <= i < |ds| ==> ds[i].key in queues) && key in queues
    ensures RestoreAll(queues, ds)[key] ==
      queues[key].(ready := queues[key].ready + Select(ds, key), channels := RestoreAll(queues, ds)[key].channels)
  {
    if ds == [] {
      assert queues[key].ready + [] == queues[key].ready;
    } else {
      RestoreAllAt(queues, ds[..|ds| - 1], key);
    }
  }

  lemma {:induction false} SelectMember(ds: seq<StoredDelivery>, key: QueueKey, d: Delivery)
    ensures d in Select(ds, key) <==>
      exists i :: 0 <= i < |ds| && ds[i].key == key && d == ds[i].delivery.(consumer := "")
  {
    if ds != [] {
      var n := |ds| - 1;
      SelectMember(ds[..n], key, d);
      assert ds == ds[..n] + [ds[n]];
    }
  }

  lemma {:induction false} SelectDistinct(ds: seq<StoredDelivery>, key: QueueKey)
    requires forall i, j :: 0 <= i < j < |ds| ==> ds[i].delivery.id != ds[j].delivery.id
    ensures DistinctIds(Select(ds, key))
  {
    if ds != [] {
      var n := |ds| - 1;
      var init := ds[..n];
      SelectDistinct(init, key);
      forall i | 0 <= i < |Select(init, key)| ensures Select(init, key)[i].id != ds[n].delivery.id {
        SelectMember(init, key, Select(init, key)[i]);
      }
    }
  }

  // ---------------------------------------------------------------- the restart round trip

  /** What Restore needs of the database to find every exchange and queue it is told about. */
  ghost predicate Linked(db: Tables) {
    && (forall k :: k in db.queues ==> k.exchange in db.exchanges)
    && (forall id :: id in db.deliveries ==> db.deliveries[id].queue in db.queues)
  }

  lemma LoadedQueues(db: Tables, l: Loaded)
    requires IsLoad(db, l)
    ensures RegisterAll(l.queues).Keys == db.queues.Keys
    ensures forall k :: k in db.queues ==>
      exists q :: IsStoredQueue(db, q) && q.key == k && RegisterAll(l.queues)[k] == Fresh(q)
  {
    assert IsQueueLoad(db, l.queues);
    hide IsLoad, RegisterAll;
    RegisterAllAt(l.queues);
    forall k ensures k in RegisterAll(l.queues) <==> k in db.queues {
      hide IsStoredQueue, Fresh;
      if i :| 0 <= i < |l.queues| && l.queues[i].key == k { StoredAt(db, l.queues, i); }
    }
    forall k | k in db.queues
      ensures exists q :: IsStoredQueue(db, q) && q.key == k && RegisterAll(l.queues)[k] == Fresh(q)
    {
      hide IsStoredQueue, Fresh;
      var i :| 0 <= i < |l.queues| && l.queues[i].key == k;
      StoredAt(db, l.queues, i);
    }
  }

  lemma StoredAt(db: Tables, queues: seq<StoredQueue>, i: nat)
    requires IsQueueLoad(db, queues) && i < |queues|
    ensures IsStoredQueue(db, queues[i]) && queues[i].key in db.queues
  {
  }

  lemma LoadedDeliveries(db: Tables, l: Loaded)
    requires IsLoad(db, l) && Linked(db)
    ensures forall i :: 0 <= i < |l.deliveries| ==> l.deliveries[i].key in db.queues
    ensures forall i, j :: 0 <= i < j < |l.deliveries| ==> l.deliveries[i].delivery.id != l.deliveries[j].delivery.id
  {
    var order :| IsDeliveryOrder(db, order) && ReadsRows(db, order, l.deliveries);
  }

  /** The queues that Restore leaves in memory. */
  ghost function Rebuilt(db: Tables, l: Loaded): map<QueueKey, QueueState>
    requires IsLoad(db, l) && Linked(db)
  {
    LoadedQueues(db, l);
    LoadedDeliveries(db, l);
    RestoreAll(RegisterAll(l.queues), l.deliveries)
  }

  lemma SelectedRow(db: Tables, order: seq<Id>, ds: seq<StoredDelivery>, key: QueueKey, id: Id)
    requires IsDeliveryOrder(db, order) && ReadsRows(db, order, ds)
    ensures (exists j :: 0 <= j < |Select(ds, key)| && Select(ds, key)[j].id == id) <==>
              id in db.deliveries && db.deliveries[id].queue == key
    ensures forall j :: 0 <= j < |Select(ds, key)| && Select(ds, key)[j].id == id ==>
              id in db.deliveries && Select(ds, key)[j] == LoadedDelivery(id, db.deliveries[id])
  {
    var s := Select(ds, key);
    forall j | 0 <= j < |s| && s[j].id == id
      ensures id in db.deliveries && db.deliveries[id].queue == key && s[j] == LoadedDelivery(id, db.deliveries[id])
    {
      SelectMember(ds, key, s[j]);
      var i :| 0 <= i < |ds| && ds[i].key == key && s[j] == ds[i].delivery.(consumer := "");
      assert order[i] == id;
    }
    if id in db.deliveries && db.deliveries[id].queue == key {
      assert id in order;
      var i :| 0 <= i < |order| && order[i] == id;
      assert ds[i].delivery == ds[i].delivery.(consumer := "");
      SelectMember(ds, key, ds[i].delivery);
      var j :| 0 <= j < |s| && s[j] == ds[i].delivery;
      assert s[j].id == id;
    }
  }

  /** The deliveries selected for a queue are those of its rows. */
  lemma SelectedRows(db: Tables, ds: seq<StoredDelivery>, key: QueueKey)
    requires IsDeliveryLoad(db, ds)
    ensures DistinctIds(Select(ds, key))
    ensures ReadyMap(Select(ds, key)) ==
      map id | id in db.deliveries && db.deliveries[id].queue == key :: LoadedDelivery(id, db.deliveries[id])
  {
    var order :| IsDeliveryOrder(db, order) && ReadsRows(db, order, ds);
    SelectedDistinct(db, order, ds, key);
    hide Select, ReadyMap, ReadsRows, IsDeliveryOrder, DistinctIds, LoadedDelivery;
    forall id ensures id in ReadyMap(Select(ds, key)) <==> id in db.deliveries && db.deliveries[id].queue == key
      ensures id in ReadyMap(Select(ds, key)) ==> ReadyMap(Select(ds, key))[id] == LoadedDelivery(id, db.deliveries[id])
    {
      SelectedAt(db, order, ds, key, id);
    }
  }

  lemma SelectedDistinct(db: Tables, order: seq<Id>, ds: seq<StoredDelivery>, key: QueueKey)
    requires IsDeliveryOrder(db, order) && ReadsRows(db, order, ds)
    ensures DistinctIds(Select(ds, key))
  {
    forall i, j | 0 <= i < j < |ds| ensures ds[i].delivery.id != ds[j].delivery.id { assert order[i] != order[j]; }
    SelectDistinct(ds, key);
  }

  lemma SelectedAt(db: Tables, order: seq<Id>, ds: seq<StoredDelivery>, key: QueueKey, id: Id)
    requires IsDeliveryOrder(db, order) && ReadsRows(db, order, ds) && DistinctIds(Select(ds, key))
    ensures id in ReadyMap(Select(ds, key)) <==> id in db.deliveries && db.deliveries[id].queue == key
    ensures id in ReadyMap(Select(ds, key)) ==> ReadyMap(Select(ds, key))[id] == LoadedDelivery(id, db.deliveries[id])
  {
    hide Select, ReadyMap, ReadsRows, IsDeliveryOrder, LoadedDelivery;
    var s := Select(ds, key);
    SelectedRow(db, order, ds, key, id);
    ReadyMapKey(s, id);
    if j :| 0 <= j < |s| && s[j].id == id { ReadyMapAt(s, j); }
  }

  lemma RebuiltQueue(db: Tables, l: Loaded, key: QueueKey)
    requires IsLoad(db, l) && Linked(db) && key in db.queues
    ensures Rebuilt(db, l).Keys == db.queues.Keys
    ensures var q := Rebuilt(db, l)[key];
      && q.name == key.name && RowOf(q) == db.queues[key] && AsSet(q.filters) == FiltersOf(db, key)
      && q.inFlight == map[] && q.consumers == {} && WellFormed(q)
      && q.ready == Select(l.deliveries, key)
      && Live(q) ==
         map id | id in db.deliveries && db.deliveries[id].queue == key :: LoadedDelivery(id, db.deliveries[id])
  {
    assert IsDeliveryLoad(db, l.deliveries);
    RebuiltShape(db, l, key);
    SelectedRows(db, l.deliveries, key);
    hide IsLoad, IsDeliveryLoad, Linked, Select, Rebuilt, FiltersOf, AsSet, Fresh;
    EmptyInFlight(Rebuilt(db, l)[key]);
    DistinctIsWellFormed(Rebuilt(db, l)[key]);
    hide ReadyMap, Live, WellFormed, DistinctIds;
  }

  lemma DistinctIsWellFormed(q: QueueState)
    requires DistinctIds(q.ready) && q.inFlight == map[]
    ensures WellFormed(q)
  {
  }

  /** No queue comes back with a filter listed twice. */
  lemma RebuiltFilters(db: Tables, l: Loaded, key: QueueKey)
    requires IsLoad(db, l) && Linked(db) && key in db.queues
    ensures key in Rebuilt(db, l)
    ensures var fs := Rebuilt(db, l)[key].filters; forall a, b :: 0 <= a < b < |fs| ==> fs[a] != fs[b]
  {
    LoadedQueues(db, l);
    LoadedDeliveries(db, l);
    hide IsLoad, Linked, Select, RegisterAll, RestoreAll, FiltersOf, AsSet;
    RestoreAllAt(RegisterAll(l.queues), l.deliveries, key);
  }

  lemma RebuiltShape(db: Tables, l: Loaded, key: QueueKey)
    requires IsLoad(db, l) && Linked(db) && key in db.queues
    ensures Rebuilt(db, l).Keys == db.queues.Keys
    ensures var q := Rebuilt(db, l)[key];
      && q.name == key.name && RowOf(q) == db.queues[key] && AsSet(q.filters) == FiltersOf(db, key)
      && q.inFlight == map[] && q.consumers == {} && q.ready == Select(l.deliveries, key)
  {
    LoadedQueues(db, l);
    LoadedDeliveries(db, l);
    var queues := RegisterAll(l.queues);
    var stored :| IsStoredQueue(db, stored) && stored.key == key && queues[key] == Fresh(stored);
    hide IsLoad, Linked, Select, RegisterAll, RestoreAll, FiltersOf, AsSet;
    RestoreAllAt(queues, l.deliveries, key);
    assert [] + Select(l.deliveries, key) == Select(l.deliveries, key);
  }

  /** Two queues are the same up to a restart: same settings and same deliveries, all of them ready,
      with their messages and attempts, and nobody connected. */
  ghost predicate Restarted(q: QueueState, q': QueueState) {
    && q'.name == q.name && RowOf(q') == RowOf(q) && AsSet(q'.filters) == AsSet(q.filters)
    && q'.inFlight == map[] && q'.consumers == {} && WellFormed(q')
    && ReadyMap(q'.ready) == map id | id in Live(q) :: Live(q)[id].(consumer := "")
  }

  lemma SameKeysMatch(a: seq<string>, b: seq<string>, key: string)
    requires AsSet(a) == AsSet(b)
    ensures Routing.MatchesAny(a, key) <==> Routing.MatchesAny(b, key)
  {
    hide Routing.Match;
    if Routing.MatchesAny(a, key) {
      var i :| 0 <= i < |a| && Routing.Match(a[i], key);
      assert a[i] in AsSet(a) && a[i] in b;
    }
    if Routing.MatchesAny(b, key) {
      var i :| 0 <= i < |b| && Routing.Match(b[i], key);
      assert b[i] in AsSet(b) && b[i] in a;
    }
  }

  lemma RestartedQueue(w: World, l: Loaded, key: QueueKey)
    requires Agree(w) && Linked(w.db) && IsLoad(w.db, l) && key in w.queues && w.queues[key].durable
    ensures key in Rebuilt(w.db, l) && Restarted(w.queues[key], Rebuilt(w.db, l)[key])
  {
    var q := w.queues[key];
    assert QueueAgrees(w, key, q);
    RebuiltQueue(w.db, l, key);
    LiveKeyed(q);
    hide Rebuilt, Agree, IsLoad, Linked, WellFormed, FiltersOf, AsSet, Select, Registrable;
    var q' := Rebuilt(w.db, l)[key];
    EmptyInFlight(q');
    hide Live, ReadyMap;
    RestartedLive(w.db, key, q, q');
  }

  lemma EmptyInFlight(q: QueueState)
    requires q.inFlight == map[]
    ensures Live(q) == ReadyMap(q.ready)
  {
  }

  lemma RestartedLive(db: Tables, key: QueueKey, q: QueueState, q': QueueState)
    requires Stored(db, key, q) && forall id :: id in Live(q) ==> Live(q)[id].id == id
    requires Live(q') ==
      map id | id in db.deliveries && db.deliveries[id].queue == key :: LoadedDelivery(id, db.deliveries[id])
    ensures Live(q') == map id | id in Live(q) :: Live(q)[id].(consumer := "")
  {
    hide Live;
    forall id ensures id in Live(q') <==> id in Live(q)
      ensures id in Live(q) ==> Live(q')[id] == Live(q)[id].(consumer := "")
    {
      if id in Live(q) { assert Mirrors(db.deliveries[id], key, q, id); }
    }
  }

  lemma AgreeLinks(w: World)
    requires Agree(w)
    ensures Linked(w.db)
  {
    forall k | k in w.db.queues ensures k.exchange in w.db.exchanges { assert QueueAgrees(w, k, w.queues[k]); }
  }

  /** The restart round trip, from any state in which memory and database agree: restoring into a fresh broker gives
      back every exchange and exactly the durable queues, each as it was up to a restart, and each matching the same
      routing keys. */
  lemma AgreedRoundTrip(w: World, l: Loaded)
    requires Agree(w) && IsLoad(w.db, l)
    ensures Linked(w.db) && AsSet(l.exchanges) == w.exchanges
    ensures var queues := Rebuilt(w.db, l);
      && (forall k :: k in queues <==> k in w.queues && w.queues[k].durable)
      && (forall k :: k in queues ==> Restarted(w.queues[k], queues[k]))
      && (forall k, key :: k in queues ==>
            (Routing.MatchesAny(queues[k].filters, key) <==> Routing.MatchesAny(w.queues[k].filters, key)))
  {
    AgreedTopology(w);
    AgreeLinks(w);
    hide Agree, Live;
    LoadedQueues(w.db, l);
    var queues := Rebuilt(w.db, l);
    forall k | k in queues ensures Restarted(w.queues[k], queues[k]) { RestartedQueue(w, l, k); }
    forall k, key | k in queues
      ensures Routing.MatchesAny(queues[k].filters, key) <==> Routing.MatchesAny(w.queues[k].filters, key)
    {
      SameKeysMatch(queues[k].filters, w.queues[k].filters, key);
    }
  }

  /** The group-by round trip: a queue saved into a fresh row comes back from loading with its settings, with no
      filter twice, and matching exactly the keys that the saved list matches. */
  lemma SavedQueueComesBack(db: Tables, key: QueueKey, row: QueueRow, filters: seq<string>, rows: seq<JoinRow>,
                            queues: seq<StoredQueue>) returns (i: nat)
    requires key !in db.queues && FiltersOf(db, key) == {}
    requires IsLeftJoin(SaveQueue(db, key, row, filters), rows) && IsGrouping(rows, queues)
    ensures i < |queues| && queues[i].key == key
    ensures QueueRow(queues[i].durable, queues[i].autoDelete, queues[i].maxAttempts) == row
    ensures AsSet(queues[i].filters) == AsSet(filters)
    ensures forall a, b :: 0 <= a < b < |queues[i].filters| ==> queues[i].filters[a] != queues[i].filters[b]
    ensures forall k :: Routing.MatchesAny(queues[i].filters, k) <==> Routing.MatchesAny(filters, k)
  {
    var db' := SaveQueue(db, key, row, filters);
    GroupingIsExact(db', rows, queues);
    SavedFilters(db, key, row, filters, key);
    assert key in db'.queues;
    i :| 0 <= i < |queues| && queues[i].key == key;
    assert IsStoredQueue(db', queues[i]);
    hide Routing.MatchesAny, IsLeftJoin, IsGrouping, FiltersOf, AsSet;
    forall k ensures Routing.MatchesAny(queues[i].filters, k) <==> Routing.MatchesAny(filters, k) {
      SameKeysMatch(queues[i].filters, filters, k);
    }
  }
}
