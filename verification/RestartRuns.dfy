/** Sequential runs without repository failures in which the process is stopped between two calls and started again,
    any number of times. */
module RestartRuns {
  import opened Types
  import opened QueueModel
  import opened Tables
  import opened ServiceModel
  import opened RestoreModel
  import opened RestartOrder
  import ServiceRuns
  import ServiceFaults
  import Routing

  datatype Event = Called(request: Request) | Restart(loaded: Loaded)

  /** A call is served, or refused and without effect. A restart loses memory and rebuilds it from a load of the
      database. */
  ghost predicate Follows(limits: Limits, w: World, e: Event, w': World) {
    match e
    case Called(r) => (Accepts(limits, w, r) && w' == Serve(limits, w, r)) || w' == w
    case Restart(l) => IsLoad(w.db, l) && Linked(w.db) && w' == ServiceFaults.RestoredWorld(w.db, l)
  }

  ghost predicate IsRun(limits: Limits, worlds: seq<World>, events: seq<Event>) {
    && |worlds| == |events| + 1 && ServiceRuns.Empty(worlds[0])
    && forall i :: 0 <= i < |events| ==> Follows(limits, worlds[i], events[i], worlds[i + 1])
  }

  /** A database that agrees with a memory meets all constraints. */
  lemma AgreedDbOk(w: World)
    requires ServiceRuns.Agree(w)
    ensures ServiceFaults.DbOk(w.db)
  {
    hide Live, WellFormed, Routing.IsValidFilter;
    AgreeLinks(w);
    forall k | k in w.db.queues
      ensures w.db.queues[k].durable && !w.db.queues[k].autoDelete && w.db.queues[k].maxAttempts >= 0
    {
      assert ServiceRuns.QueueAgrees(w, k, w.queues[k]);
    }
    forall f | f in w.db.filters ensures f.0 in w.db.queues && Routing.IsValidFilter(f.1) {
      assert ServiceRuns.QueueAgrees(w, f.0, w.queues[f.0]);
      assert f.1 in FiltersOf(w.db, f.0);
    }
  }

  lemma {:induction false} RunKeepsAgreement(limits: Limits, worlds: seq<World>, events: seq<Event>, i: nat)
    requires IsRun(limits, worlds, events) && i < |worlds|
    ensures ServiceRuns.Agree(worlds[i])
  {
    hide Follows;
    if i > 0 {
      hide ServiceRuns.Agree;
      RunKeepsAgreement(limits, worlds, events, i - 1);
      StepKeepsAgreement(limits, worlds[i - 1], events[i - 1], worlds[i]);
    }
  }

  lemma StepKeepsAgreement(limits: Limits, w: World, e: Event, w': World)
    requires ServiceRuns.Agree(w) && Follows(limits, w, e, w')
    ensures ServiceRuns.Agree(w')
  {
    hide Accepts, Serve, ServiceRuns.Agree;
    match e
    case Called(r) => if w' != w { ServiceRuns.ServeKeepsAgreement(limits, w, r); }
    case Restart(l) =>
      AgreedDbOk(w);
      ServiceFaults.RestoreAgrees(w.db, l);
  }

  /** The restart round trip: at any point of any such run, restoring into a fresh broker gives back every exchange and
      exactly the durable queues, each as it was up to a restart, and each matching the same routing keys. */
  lemma RestartRoundTrip(limits: Limits, worlds: seq<World>, events: seq<Event>, i: nat, l: Loaded)
    requires IsRun(limits, worlds, events) && i < |worlds| && IsLoad(worlds[i].db, l)
    ensures Linked(worlds[i].db)
    ensures var w, w' := worlds[i], ServiceFaults.RestoredWorld(worlds[i].db, l);
      && w'.exchanges == w.exchanges
      && (forall k :: k in w'.queues <==> k in w.queues && w.queues[k].durable)
      && (forall k :: k in w'.queues ==> Restarted(w.queues[k], w'.queues[k]))
      && (forall k, key :: k in w'.queues ==>
            (Routing.MatchesAny(w'.queues[k].filters, key) <==> Routing.MatchesAny(w.queues[k].filters, key)))
  {
    RunKeepsAgreement(limits, worlds, events, i);
    hide IsRun, Restarted, IsLoad, Rebuilt, ServiceRuns.Agree;
    AgreedRoundTrip(worlds[i], l);
  }

  // ---------------------------------------------------------------- one restart after another

  lemma RowOrderStays(db: Tables, db': Tables, ids: seq<Id>)
    requires InRowOrder(db, ids) && db'.deliveries.Keys == db.deliveries.Keys
    requires forall id :: id in db.deliveries ==> db'.deliveries[id].created == db.deliveries[id].created
    ensures InRowOrder(db', ids)
  {
    hide InRowOrder;
    forall i, j | 0 <= i < j < |ids| ensures Precedes(db', ids[i], ids[j]) {
      assert Precedes(db, ids[i], ids[j]) by { RowOrderAt(db, ids, i, j); }
    }
    RowOrderFrom(db', ids);
  }

  lemma RowOrderAt(db: Tables, ids: seq<Id>, i: nat, j: nat)
    requires InRowOrder(db, ids) && i < j < |ids|
    ensures Precedes(db, ids[i], ids[j])
  {
  }

  lemma RowOrderFrom(db: Tables, ids: seq<Id>)
    requires forall i, j :: 0 <= i < j < |ids| ==> Precedes(db, ids[i], ids[j])
    ensures InRowOrder(db, ids)
  {
  }

  lemma SameReady(before: QueueState, q: QueueState, q': QueueState)
    requires Restarted(before, q) && Restarted(q, q') && DeliveryIds(q'.ready) == DeliveryIds(q.ready)
    ensures q'.ready == q.ready
  {
    hide ReadyMap, Live;
    EmptyInFlight(q);
    assert |DeliveryIds(q.ready)| == |q.ready| && |DeliveryIds(q'.ready)| == |q'.ready|;
    forall i | 0 <= i < |q.ready| ensures q'.ready[i] == q.ready[i] {
      assert DeliveryIds(q.ready)[i] == q.ready[i].id && DeliveryIds(q'.ready)[i] == q'.ready[i].id;
      ReadyMapAt(q.ready, i);
      ReadyMapAt(q'.ready, i);
    }
  }

  /** A restart right after a restart changes no queue any more: what a restart may reorder, it reorders once. */
  lemma SecondRestartKeepsOrder(w: World, l: Loaded, l': Loaded, key: QueueKey)
    requires ServiceRuns.Agree(w) && Linked(w.db) && IsLoad(w.db, l) && key in w.queues && w.queues[key].durable
    requires var w1 := ServiceFaults.RestoredWorld(w.db, l); IsLoad(w1.db, l') && Linked(w1.db)
    ensures var w1 := ServiceFaults.RestoredWorld(w.db, l);
      && key in w1.queues && key in Rebuilt(w1.db, l')
      && Rebuilt(w1.db, l')[key].ready == w1.queues[key].ready
  {
    var w1 := ServiceFaults.RestoredWorld(w.db, l);
    AgreedDbOk(w);
    ServiceFaults.RestoreAgrees(w.db, l);
    AgreedRoundTrip(w, l);
    AgreedRoundTrip(w1, l');
    RebuiltQueue(w.db, l, key);
    RestoredInRowOrder(w.db, l.deliveries, key);
    ServiceFaults.AllReleased(w.db, l.deliveries);
    var q, q' := w1.queues[key], Rebuilt(w1.db, l')[key];
    hide IsLoad, Linked, Rebuilt, ServiceRuns.Agree, Select, InRowOrder, Restarted;
    RowOrderStays(w.db, w1.db, DeliveryIds(q.ready));
    OrderKeptExactlyWhen(w1, l', key);
    SameReady(w.queues[key], q, q');
  }
}
