/** The order of a ready list after a restart: that of its rows, which is the order it had before only if
    nothing was in flight and nothing had been put back. */
module RestartOrder {
  import opened Types
  import opened QueueModel
  import opened Tables
  import opened ServiceModel
  import opened ServiceRuns
  import opened RestoreModel
  import Routing

  function IdsOf(ds: seq<StoredDelivery>): seq<Id> {
    seq(|ds|, i requires 0 <= i < |ds| => ds[i].delivery.id)
  }

  function DeliveryIds(ds: seq<Delivery>): seq<Id> {
    seq(|ds|, i requires 0 <= i < |ds| => ds[i].id)
  }

  /** `a` was stored no later than `b`, and has the smaller ID if at the same time. */
  ghost predicate StoredFirst(db: Tables, a: Id, b: Id) {
    && a in db.deliveries && b in db.deliveries && db.deliveries[a].created <= db.deliveries[b].created
    && (db.deliveries[a].created == db.deliveries[b].created ==> a < b)
  }

  /** The restored ready list of a queue is in the order of its rows. */
  lemma RestoredInRowOrder(db: Tables, ds: seq<StoredDelivery>, key: QueueKey)
    requires IsDeliveryLoad(db, ds)
    ensures InRowOrder(db, DeliveryIds(Select(ds, key)))
    ensures var ids := DeliveryIds(Select(ds, key));
      forall i, j :: 0 <= i < j < |ids| ==> StoredFirst(db, ids[i], ids[j])
  {
    var order :| IsDeliveryOrder(db, order) && ReadsRows(db, order, ds);
    assert IdsOf(ds) == order;
    SelectKeepsOrder(db, ds, key);
    RowOrderMeans(db, DeliveryIds(Select(ds, key)));
  }

  lemma RowOrderMeans(db: Tables, ids: seq<Id>)
    requires InRowOrder(db, ids)
    ensures forall i, j :: 0 <= i < j < |ids| ==> StoredFirst(db, ids[i], ids[j])
  {
    forall i, j | 0 <= i < j < |ids| ensures StoredFirst(db, ids[i], ids[j]) { assert Precedes(db, ids[i], ids[j]); }
  }

  lemma {:induction false} SelectKeepsOrder(db: Tables, ds: seq<StoredDelivery>, key: QueueKey)
    requires InRowOrder(db, IdsOf(ds))
    ensures InRowOrder(db, DeliveryIds(Select(ds, key)))
  {
    if ds != [] {
      var n := |ds| - 1;
      var init, s, s' := ds[..n], Select(ds[..n], key), Select(ds, key);
      hide Precedes;
      assert forall i :: 0 <= i < n ==> IdsOf(init)[i] == IdsOf(ds)[i];
      SelectKeepsOrder(db, init, key);
      forall a, b | 0 <= a < b < |s'| ensures Precedes(db, s'[a].id, s'[b].id) {
        if b < |s| {
          assert DeliveryIds(s)[a] == s'[a].id && DeliveryIds(s)[b] == s'[b].id;
        } else {
          SelectMember(init, key, s[a]);
          var i :| 0 <= i < n && init[i].key == key && s[a] == init[i].delivery.(consumer := "");
          assert IdsOf(ds)[i] == s'[a].id && IdsOf(ds)[n] == s'[b].id;
        }
      }
    }
  }

  /** There is one way only to list given rows in order. */
  lemma {:induction false} OneOrder(db: Tables, a: seq<Id>, b: seq<Id>)
    requires InRowOrder(db, a) && InRowOrder(db, b) && forall id :: id in a <==> id in b
    ensures a == b
  {
    if a == [] {
      assert forall i :: 0 <= i < |b| ==> b[i] in b;
    } else {
      assert a[0] in b;
      assert b[0] in a;
      FirstIsLeast(db, a, b[0]);
      FirstIsLeast(db, b, a[0]);
      RestOf(db, a);
      RestOf(db, b);
      OneOrder(db, a[1..], b[1..]);
      assert a == [a[0]] + a[1..] && b == [b[0]] + b[1..];
    }
  }

  lemma FirstIsLeast(db: Tables, a: seq<Id>, id: Id)
    requires InRowOrder(db, a) && id in a
    ensures a[0] == id || Precedes(db, a[0], id)
  {
    var i :| 0 <= i < |a| && a[i] == id;
  }

  lemma RestOf(db: Tables, a: seq<Id>)
    requires InRowOrder(db, a) && a != []
    ensures InRowOrder(db, a[1..]) && forall id :: id in a[1..] <==> id in a && id != a[0]
  {
    hide Precedes;
    assert a == [a[0]] + a[1..];
    forall i | 0 <= i < |a[1..]| ensures a[1..][i] != a[0] {
      assert Precedes(db, a[0], a[i + 1]);
      NotBeforeItself(db, a[0]);
    }
  }

  lemma NotBeforeItself(db: Tables, id: Id)
    ensures !Precedes(db, id, id)
  {
  }

  lemma ReadyIdsAt(ds: seq<Delivery>)
    requires DistinctIds(ds)
    ensures forall id :: id in DeliveryIds(ds) <==> id in ReadyMap(ds)
  {
    ReadyMapKeys(ds);
    forall id | id in ReadyMap(ds) ensures id in DeliveryIds(ds) {
      var i :| 0 <= i < |ds| && ds[i].id == id;
      assert DeliveryIds(ds)[i] == id;
    }
  }

  /** The exact condition: a restart keeps the order of a durable queue if and only if nothing was in flight
      and its ready list was in the order of its rows already. */
  lemma OrderKeptExactlyWhen(w: World, l: Loaded, key: QueueKey)
    requires Agree(w) && Linked(w.db) && IsLoad(w.db, l) && key in w.queues && w.queues[key].durable
    ensures key in Rebuilt(w.db, l)
    ensures var q, q' := w.queues[key], Rebuilt(w.db, l)[key];
      DeliveryIds(q'.ready) == DeliveryIds(q.ready) <==> q.inFlight == map[] && InRowOrder(w.db, DeliveryIds(q.ready))
  {
    RestartedQueue(w, l, key);
    RebuiltQueue(w.db, l, key);
    RestoredInRowOrder(w.db, l.deliveries, key);
    var q, q' := w.queues[key], Rebuilt(w.db, l)[key];
    assert WellFormed(q) by { assert QueueAgrees(w, key, q); }
    hide Agree, IsLoad, Linked, Rebuilt, Select, InRowOrder, FiltersOf, AsSet;
    OrdersMeet(w.db, q, q');
  }

  lemma OrdersMeet(db: Tables, q: QueueState, q': QueueState)
    requires WellFormed(q) && Restarted(q, q') && InRowOrder(db, DeliveryIds(q'.ready))
    ensures DeliveryIds(q'.ready) == DeliveryIds(q.ready) <==>
      q.inFlight == map[] && InRowOrder(db, DeliveryIds(q.ready))
  {
    RestoredIds(q, q');
    hide InRowOrder, Restarted, WellFormed;
    if DeliveryIds(q'.ready) == DeliveryIds(q.ready) { NothingInFlight(q); }
    if q.inFlight == map[] && InRowOrder(db, DeliveryIds(q.ready)) {
      ReadyIdsAreLive(q);
      OneOrder(db, DeliveryIds(q'.ready), DeliveryIds(q.ready));
    }
  }

  lemma RestoredIds(q: QueueState, q': QueueState)
    requires WellFormed(q) && Restarted(q, q')
    ensures forall id :: id in DeliveryIds(q'.ready) <==> id in Live(q)
  {
    ReadyIdsAt(q'.ready);
    hide ReadyMap;
  }

  lemma ReadyIdsAreLive(q: QueueState)
    requires WellFormed(q) && q.inFlight == map[]
    ensures forall id :: id in DeliveryIds(q.ready) <==> id in Live(q)
  {
    ReadyIdsAt(q.ready);
    hide ReadyMap;
  }

  lemma NothingInFlight(q: QueueState)
    requires WellFormed(q) && forall id :: id in DeliveryIds(q.ready) <==> id in Live(q)
    ensures q.inFlight == map[]
  {
    LiveKeyed(q);
    hide ReadyMap;
    assert forall i :: 0 <= i < |q.ready| ==> DeliveryIds(q.ready)[i] == q.ready[i].id;
    assert forall id :: id in DeliveryIds(q.ready) ==> id !in q.inFlight;
    assert forall id :: id in q.inFlight ==> id in Live(q);
  }
}
