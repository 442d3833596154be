/** The repository object: each method issues one statement (or one transaction) against the tables.
    Any of them may fail, before the database has changed or after. */
module RepositoryObject {
  import opened Types
  import opened Tables
  import opened QueueModel
  import opened ServiceModel
  import opened RestoreModel
  import Sql = Tables

  /** What the three queries of a load answer: exchange names, joined queue rows, delivery IDs oldest first. */
  datatype Answers = Answers(exchanges: seq<string>, joined: seq<JoinRow>, deliveries: seq<Id>)

  ghost predicate IsAnswer(db: Tables, a: Answers) {
    IsExchangeLoad(db, a.exchanges) && IsLeftJoin(db, a.joined) && IsDeliveryOrder(db, a.deliveries)
  }

  /** Halfway through the grouping loop: one entry per queue seen, in order of first appearance. */
  ghost predicate IsPartialGrouping(rows: seq<JoinRow>, byKey: map<QueueKey, StoredQueue>, order: seq<QueueKey>) {
    && (forall i, j :: 0 <= i < j < |order| ==> order[i] != order[j])
    && (forall k :: k in order <==> k in byKey)
    && (forall k :: HasRow(rows, k) ==> k in byKey)
    && (forall k :: k in byKey ==> IsGroup(rows, k, byKey[k]))
  }

  ghost predicate IsGroup(rows: seq<JoinRow>, key: QueueKey, q: StoredQueue) {
    && q.key == key && q.filters == FiltersIn(rows, key)
    && exists r :: 0 <= r < |rows| && rows[r].key == key
         && rows[r].queue == QueueRow(q.durable, q.autoDelete, q.maxAttempts)
  }

  lemma GroupGrows(rows: seq<JoinRow>, row: JoinRow, key: QueueKey, q: StoredQueue)
    requires IsGroup(rows, key, q)
    ensures IsGroup(rows + [row], key,
      if row.key == key && row.filter.Some? then q.(filters := q.filters + [row.filter.value]) else q)
  {
    var rows' := rows + [row];
    assert rows'[..|rows|] == rows;
    var r :| 0 <= r < |rows| && rows[r].key == key && rows[r].queue == QueueRow(q.durable, q.autoDelete, q.maxAttempts);
    assert rows'[r] == rows[r];
  }

  lemma GroupStarts(rows: seq<JoinRow>, row: JoinRow)
    requires !HasRow(rows, row.key)
    ensures IsGroup(rows + [row], row.key,
      StoredQueue(row.key, row.queue.durable, row.queue.autoDelete, row.queue.maxAttempts,
                  if row.filter.Some? then [row.filter.value] else []))
  {
    var rows' := rows + [row];
    assert rows'[..|rows|] == rows && rows'[|rows|] == row;
    if FiltersIn(rows, row.key) != [] {
      FiltersInMember(rows, row.key, FiltersIn(rows, row.key)[0]);
    }
  }

  class Repository {
    var db: Tables

    constructor ()
      ensures db == Tables({}, map[], {}, map[], map[])
    {
      db := Tables({}, map[], {}, map[], map[]);
    }

    /** One statement with effect `after`: refused if a constraint forbids it, and otherwise at the mercy
        of the connection. */
    method Execute(allowed: bool, after: Tables) returns (r: Outcome)
      modifies this
      ensures Replied(r, allowed, old(db), db, after)
    {
      if !allowed { return Failed(StorageError); }
      var reply: Reply := *;
      match reply
      case Success => db := after; r := Done;
      case Refused => r := Failed(StorageError);
      case Lost => db := after; r := Failed(StorageError);
    }

    method SaveExchange(name: string) returns (r: Outcome)
      modifies this
      ensures Replied(r, true, old(db), db, Sql.SaveExchange(old(db), name))
      ensures db == old(db).(exchanges := db.exchanges) && old(db).exchanges <= db.exchanges
      ensures r == Done ==> db.exchanges == old(db).exchanges + {name}
    {
      r := Execute(true, Sql.SaveExchange(db, name));
    }

    method DeleteExchange(name: string) returns (r: Outcome)
      modifies this
      ensures Replied(r, true, old(db), db, Sql.DeleteExchange(old(db), name))
      ensures r == Done ==> ExchangeGone(old(db), db, name)
    {
      r := Execute(true, Sql.DeleteExchange(db, name));
    }

    /** A row that is already there stays as it is, and no stored filter is lost. */
    method SaveQueue(key: QueueKey, row: QueueRow, filters: seq<string>) returns (r: Outcome)
      modifies this
      ensures Replied(r, CanSaveQueue(old(db), key, row), old(db), db, Sql.SaveQueue(old(db), key, row, filters))
      ensures db == old(db).(queues := db.queues, filters := db.filters)
      ensures forall k :: k in old(db).queues ==> k in db.queues && db.queues[k] == old(db).queues[k]
      ensures old(db).filters <= db.filters
      ensures forall f :: f in db.filters ==> f in old(db).filters || (f.0 == key && f.1 in filters)
      ensures r == Done ==>
        && key.exchange in old(db).exchanges && row.maxAttempts >= 0
        && db.queues == (if key in old(db).queues then old(db).queues else old(db).queues[key := row])
        && forall f :: f in filters ==> (key, f) in db.filters
    {
      r := Execute(CanSaveQueue(db, key, row), Sql.SaveQueue(db, key, row, filters));
    }

    method DeleteQueue(key: QueueKey) returns (r: Outcome)
      modifies this
      ensures Replied(r, true, old(db), db, Sql.DeleteQueue(old(db), key))
      ensures r == Done ==> QueueGone(old(db), db, key)
    {
      r := Execute(true, Sql.DeleteQueue(db, key));
    }

    method SaveReadyDelivery(key: QueueKey, d: Delivery, now: nat) returns (r: Outcome)
      modifies this
      ensures Replied(r, CanSaveDelivery(old(db), key, d.id), old(db), db, Sql.SaveReadyDelivery(old(db), key, d, now))
      ensures OnlyRow(old(db), db, d.id)
      ensures r == Done ==>
        && key in old(db).queues && d.id !in old(db).deliveries && d.id in db.deliveries
        && db.deliveries[d.id] == DeliveryRow(key, d.message, StatusReady, d.attempts, None, now)
    {
      r := Execute(CanSaveDelivery(db, key, d.id), Sql.SaveReadyDelivery(db, key, d, now));
    }

    /** An update that reaches no row is reported. */
    method MarkInFlight(id: Id, consumer: string, attempts: nat) returns (r: Outcome)
      modifies this
      ensures RepliedToMark(r, old(db), db, id, consumer, attempts)
      ensures OnlyRow(old(db), db, id) && (r == Failed(DeliveryNotFound) ==> id !in old(db).deliveries)
      ensures r == Done ==>
        && id in old(db).deliveries && id in db.deliveries
        && db.deliveries[id] ==
             old(db).deliveries[id].(status := StatusInFlight, consumer := Some(consumer), attempts := attempts)
    {
      var found := id in db.deliveries;
      r := Execute(true, Sql.MarkInFlight(db, id, consumer, attempts));
      if r == Done && !found { r := Failed(DeliveryNotFound); }
    }

    method MarkReady(id: Id) returns (r: Outcome)
      modifies this
      ensures Replied(r, true, old(db), db, Sql.MarkReady(old(db), id))
      ensures OnlyRow(old(db), db, id) && db.deliveries.Keys == old(db).deliveries.Keys
      ensures r == Done && id in old(db).deliveries ==>
        db.deliveries[id] == old(db).deliveries[id].(status := StatusReady, consumer := None)
    {
      r := Execute(true, Sql.MarkReady(db, id));
    }

    method DeleteDelivery(id: Id) returns (r: Outcome)
      modifies this
      ensures Replied(r, true, old(db), db, Sql.DeleteDelivery(old(db), id))
      ensures OnlyRow(old(db), db, id) && (r == Done ==> id !in db.deliveries)
    {
      r := Execute(true, Sql.DeleteDelivery(db, id));
    }

    method SaveDeadLetter(exchange: string, letter: DeadLetter, id: Id) returns (r: Outcome)
      modifies this
      ensures Replied(r, CanSaveLetter(old(db), exchange, id), old(db), db,
        Sql.SaveDeadLetter(old(db), exchange, id, letter))
      ensures db == old(db).(letters := db.letters) && forall x :: x != id ==> SameEntry(old(db).letters, db.letters, x)
      ensures r == Done ==>
        && exchange in old(db).exchanges && id !in old(db).letters
        && id in db.letters && db.letters[id] == LetterRow(exchange, letter)
    {
      r := Execute(CanSaveLetter(db, exchange, id), Sql.SaveDeadLetter(db, exchange, id, letter));
    }

    // -------------------------------------------------------------- loading

    /** Groups the joined rows by queue, in whatever order they come. */
    method GroupRows(rows: seq<JoinRow>) returns (queues: seq<StoredQueue>)
      ensures IsGrouping(rows, queues)
    {
      hide IsGroup, FiltersIn;
      var byKey: map<QueueKey, StoredQueue> := map[];
      var order: seq<QueueKey> := [];
      assert IsPartialGrouping(rows[..0], byKey, order);
      hide IsPartialGrouping, IsGrouping;
      for i := 0 to |rows|
        invariant IsPartialGrouping(rows[..i], byKey, order)
      {
        var row := rows[i];
        assert rows[..i + 1] == rows[..i] + [row];
        PartialGroupingGrows(rows[..i], row, byKey, order);
        ghost var grouped := byKey[row.key := Regrouped(byKey, row)];
        ghost var listed := if row.key in byKey then order else order + [row.key];
        if row.key !in byKey {
          byKey := byKey[row.key := Ungrouped(row)];
          order := order + [row.key];
        }
        if row.filter.Some? {
          var q := byKey[row.key];
          byKey := byKey[row.key := q.(filters := q.filters + [row.filter.value])];
        }
        assert byKey == grouped && order == listed;
      }
      assert rows[..|rows|] == rows;
      queues := InOrder(rows, byKey, order);
    }

    /** Lists the groups in the order in which their keys appeared. */
    method InOrder(ghost rows: seq<JoinRow>, byKey: map<QueueKey, StoredQueue>, order: seq<QueueKey>)
      returns (queues: seq<StoredQueue>)
      requires IsPartialGrouping(rows, byKey, order)
      ensures IsGrouping(rows, queues)
    {
      assert forall i :: 0 <= i < |order| ==> order[i] in byKey by { OrderIsKeys(rows, byKey, order); }
      hide IsPartialGrouping, IsGrouping;
      queues := [];
      for i := 0 to |order|
        invariant |queues| == i && forall j :: 0 <= j < i ==> queues[j] == byKey[order[j]]
      {
        queues := queues + [byKey[order[i]]];
      }
      CompletedGrouping(rows, byKey, order, queues);
    }

    method LoadExchanges(rows: seq<string>) returns (r: Result<seq<string>>)
      ensures r == Ok(rows) || r == Err(StorageError)
    {
      var exchanges := [];
      for i := 0 to |rows|
        invariant exchanges == rows[..i]
      {
        var reply: Reply := *;
        if reply != Success { return Err(StorageError); }
        exchanges := exchanges + [rows[i]];
      }
      assert rows[..|rows|] == rows;
      r := Ok(exchanges);
    }

    method LoadQueues(rows: seq<JoinRow>) returns (r: Result<seq<StoredQueue>>)
      requires IsLeftJoin(db, rows)
      ensures r.Ok? ==> IsQueueLoad(db, r.value)
      ensures r.Err? ==> r.error == StorageError
    {
      var reply: Reply := *;
      if reply != Success { return Err(StorageError); }
      var queues := GroupRows(rows);
      GroupingIsExact(db, rows, queues);
      r := Ok(queues);
    }

    /** Reads the rows in query order; status and consumer are not read. */
    method LoadDeliveries(order: seq<Id>) returns (r: Result<seq<StoredDelivery>>)
      requires IsDeliveryOrder(db, order)
      ensures r.Ok? ==> IsDeliveryLoad(db, r.value) && |r.value| == |order|
      ensures r.Ok? ==> forall i :: 0 <= i < |order| ==>
        && order[i] in db.deliveries
        && var row := db.deliveries[order[i]];
           r.value[i] == StoredDelivery(row.queue, Delivery(order[i], row.message, "", row.attempts))
      ensures r.Err? ==> r.error == StorageError
    {
      var ds: seq<StoredDelivery> := [];
      for i := 0 to |order|
        invariant ReadsRows(db, order[..i], ds)
      {
        var reply: Reply := *;
        if reply != Success { return Err(StorageError); }
        assert order[i] in order;
        var row := db.deliveries[order[i]];
        ds := ds + [StoredDelivery(row.queue, LoadedDelivery(order[i], row))];
      }
      assert order[..|order|] == order;
      r := Ok(ds);
    }

    method LoadState(a: Answers) returns (r: Result<Loaded>)
      requires IsAnswer(db, a)
      ensures r.Ok? ==> IsLoad(db, r.value)
      ensures r.Err? ==> r.error == StorageError
    {
      var exchanges := LoadExchanges(a.exchanges);
      if exchanges.Err? { return Err(exchanges.error); }
      var queues := LoadQueues(a.joined);
      if queues.Err? { return Err(queues.error); }
      var deliveries := LoadDeliveries(a.deliveries);
      if deliveries.Err? { return Err(deliveries.error); }
      r := Ok(Loaded(exchanges.value, queues.value, deliveries.value));
    }
  }

  /** The entry of a queue seen for the first time, before its filters. */
  function Ungrouped(row: JoinRow): StoredQueue {
    StoredQueue(row.key, row.queue.durable, row.queue.autoDelete, row.queue.maxAttempts, [])
  }

  lemma OrderIsKeys(rows: seq<JoinRow>, byKey: map<QueueKey, StoredQueue>, order: seq<QueueKey>)
    requires IsPartialGrouping(rows, byKey, order)
    ensures forall i :: 0 <= i < |order| ==> order[i] in byKey
  {
    assert forall i :: 0 <= i < |order| ==> order[i] in order;
  }

  /** The entry that one more row leads to. */
  function Regrouped(byKey: map<QueueKey, StoredQueue>, row: JoinRow): StoredQueue {
    var q := if row.key in byKey then byKey[row.key] else Ungrouped(row);
    if row.filter.Some? then q.(filters := q.filters + [row.filter.value]) else q
  }

  lemma PartialGroupingGrows(rows: seq<JoinRow>, row: JoinRow, byKey: map<QueueKey, StoredQueue>, order: seq<QueueKey>)
    requires IsPartialGrouping(rows, byKey, order)
    ensures IsPartialGrouping(rows + [row], byKey[row.key := Regrouped(byKey, row)],
                              if row.key in byKey then order else order + [row.key])
  {
    var rows', byKey' := rows + [row], byKey[row.key := Regrouped(byKey, row)];
    forall k | k in byKey' ensures IsGroup(rows', k, byKey'[k]) {
      if k in byKey { GroupGrows(rows, row, k, byKey[k]); } else { GroupStarts(rows, row); }
    }
    forall k | HasRow(rows', k) ensures k in byKey' {
      var i :| 0 <= i < |rows'| && rows'[i].key == k;
      if i < |rows| { assert rows[i].key == k; }
    }
  }

  lemma CompletedGrouping(rows: seq<JoinRow>, byKey: map<QueueKey, StoredQueue>, order: seq<QueueKey>,
                          queues: seq<StoredQueue>)
    requires IsPartialGrouping(rows, byKey, order) && |queues| == |order|
    requires forall i :: 0 <= i < |order| ==> order[i] in byKey && queues[i] == byKey[order[i]]
    ensures IsGrouping(rows, queues)
  {
    forall i | 0 <= i < |queues| ensures IsGroup(rows, order[i], queues[i]) {}
    forall k | HasRow(rows, k) ensures exists i :: 0 <= i < |queues| && queues[i].key == k {
      assert k in order;
      var i :| 0 <= i < |order| && order[i] == k;
      assert queues[i].key == k;
    }
  }
}
