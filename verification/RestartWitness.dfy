/** A run after which a restart changes the order of a ready list: two messages, the first of which was
    fetched and handed back. */
module RestartWitness {
  import opened Types
  import opened QueueModel
  import opened Tables
  import opened ServiceModel
  import opened ServiceRuns
  import opened RestoreModel
  import opened RestartOrder
  import Routing

  const LIMITS := Limits(10, 10, 10, 1)
  const KEY := QueueKey("x", "q")
  const MESSAGE := Message([1], "a")
  const FIRST := Delivery(1, MESSAGE, "", 0)
  const SECOND := Delivery(2, MESSAGE, "", 0)
  const TAKEN := Delivery(1, MESSAGE, "c", 1)
  const RETURNED := Delivery(1, MESSAGE, "", 1)

  const QUEUE := NewQueue("q", true, false, 0, ["a"])
  ghost const DB := Tables({"x"}, map[KEY := QueueRow(true, false, 0)], {(KEY, "a")}, map[], map[])
  const ROW1 := DeliveryRow(KEY, MESSAGE, StatusReady, 0, None, 10)
  const ROW2 := DeliveryRow(KEY, MESSAGE, StatusReady, 0, None, 20)
  ghost const TWO_ROWS := DB.(deliveries := map[1 := ROW1, 2 := ROW2])

  ghost const NOTHING := World({}, map[], Tables({}, map[], {}, map[], map[]))
  ghost const NAMED := World({"x"}, map[], Tables({"x"}, map[], {}, map[], map[]))
  ghost const EMPTY := With(QUEUE, DB)
  ghost const ONE := With(Enqueue(QUEUE, FIRST), DB.(deliveries := map[1 := ROW1]))
  ghost const TWO := With(Enqueue(Enqueue(QUEUE, FIRST), SECOND), TWO_ROWS)
  ghost const JOINED := With(Join(TWO.queues[KEY], "c"), TWO_ROWS)
  ghost const FETCHED := FetchIn(JOINED, KEY, "c")
  ghost const LEFT := DisconnectIn(FETCHED, KEY, "c", [RETURNED])

  ghost function With(q: QueueState, db: Tables): World {
    World({"x"}, map[KEY := q], db)
  }

  ghost predicate Serves(w: World, r: Request, w': World) {
    Accepts(LIMITS, w, r) && w' == Serve(LIMITS, w, r)
  }

  ghost predicate Runs(worlds: seq<World>, calls: seq<Request>, last: World) {
    IsRun(LIMITS, worlds, calls) && worlds[|calls|] == last
  }

  lemma Extend(worlds: seq<World>, calls: seq<Request>, w: World, r: Request, w': World) returns (worlds': seq<World>,
               calls': seq<Request>)
    requires Runs(worlds, calls, w) && Serves(w, r, w')
    ensures Runs(worlds', calls', w')
  {
    hide Accepts, Serve;
    worlds', calls' := worlds + [w'], calls + [r];
  }

  lemma Name()
    ensures Serves(NOTHING, CreateExchange("x"), NAMED)
  {
  }

  lemma Register()
    ensures Serves(NAMED, RegisterQueue(KEY, true, false, 0, ["a"]), EMPTY)
  {
    Routing.SplitWord("a");
    Routing.KeyLanguage("a");
    Routing.KeyIsItsOwnFilter("a", "a");
    var db := SaveQueue(NAMED.db, KEY, QueueRow(true, false, 0), ["a"]);
    assert db.filters == {(KEY, ["a"][0])};
    assert db == DB;
  }

  lemma PublishFirst()
    ensures Serves(EMPTY, Publish("x", MESSAGE, [KEY], [Mint(1, 10)]), ONE)
  {
    RoutesToQueue(EMPTY);
    assert Live(QUEUE) == map[];
    OfferOne(EMPTY, Mint(1, 10));
    assert Offer(EMPTY, KEY, MESSAGE, Mint(1, 10)) == ONE;
  }

  lemma PublishSecond()
    ensures Serves(ONE, Publish("x", MESSAGE, [KEY], [Mint(2, 20)]), TWO)
  {
    RoutesToQueue(ONE);
    var ready := ONE.queues[KEY].ready;
    assert ready == [FIRST];
    ReadyMapKey(ready, 2);
    OfferOne(ONE, Mint(2, 20));
    assert Offer(ONE, KEY, MESSAGE, Mint(2, 20)) == TWO;
  }

  lemma RoutesToQueue(w: World)
    requires w.queues.Keys == {KEY} && w.queues[KEY].filters == ["a"]
    ensures Routing.IsValidKey("a") && IsRoute(w.queues, "x", "a", [KEY])
  {
    Routing.SplitWord("a");
    Routing.KeyLanguage("a");
    Routing.KeyIsItsOwnFilter("a", "a");
    assert w.queues[KEY].filters[0] == "a";
  }

  lemma OfferOne(w: World, mint: Mint)
    requires KEY in w.queues
    ensures OfferAll(w, [KEY], MESSAGE, [mint]) == Offer(w, KEY, MESSAGE, mint)
  {
    assert [KEY][..0] == [];
    assert OfferAll(w, [KEY][..0], MESSAGE, [mint]) == w;
  }

  lemma Connect()
    ensures Serves(TWO, AddConsumer(KEY, "c"), JOINED)
  {
  }

  lemma Take()
    ensures Serves(JOINED, Request.Fetch(KEY, "c"), FETCHED)
    ensures FETCHED.queues[KEY].ready == [SECOND] && FETCHED.queues[KEY].inFlight == map[1 := TAKEN]
  {
    assert Owned(JOINED.queues[KEY], "c") == {};
    assert JOINED.queues[KEY].ready == [FIRST, SECOND];
  }

  lemma Leave()
    ensures Serves(FETCHED, DisconnectConsumer(KEY, "c", [RETURNED]), LEFT)
    ensures LEFT.queues[KEY].ready == [SECOND, RETURNED] && LEFT.queues[KEY].inFlight == map[]
  {
    Take();
    assert Owned(FETCHED.queues[KEY], "c") == {1};
  }

  const LOADED := Loaded(["x"], [StoredQueue(KEY, true, false, 0, ["a"])],
                         [StoredDelivery(KEY, RETURNED), StoredDelivery(KEY, SECOND)])

  lemma LeftRows()
    ensures LEFT.db == DB.(deliveries := map[1 := ROW1.(attempts := 1), 2 := ROW2])
  {
    Take();
    assert FETCHED.db.deliveries
      == map[1 := ROW1.(status := StatusInFlight, attempts := 1, consumer := Some("c")), 2 := ROW2];
    assert [RETURNED][..0] == [];
    assert MarkAllReady(FETCHED.db, [RETURNED]) == MarkReady(FETCHED.db, 1);
  }

  lemma LoadIt()
    ensures IsLoad(LEFT.db, LOADED) && Linked(LEFT.db)
  {
    LeftRows();
    LoadFrom(LEFT.db);
  }

  lemma LoadFrom(db: Tables)
    requires db == DB.(deliveries := map[1 := ROW1.(attempts := 1), 2 := ROW2])
    ensures IsLoad(db, LOADED) && Linked(db)
  {
    assert FiltersOf(db, KEY) == {"a"};
    assert IsStoredQueue(db, LOADED.queues[0]);
    hide IsStoredQueue, FiltersOf;
    assert IsDeliveryOrder(db, [1, 2]) && ReadsRows(db, [1, 2], LOADED.deliveries);
  }

  lemma SelectBoth()
    ensures Select(LOADED.deliveries, KEY) == [RETURNED, SECOND]
  {
    var ds := LOADED.deliveries;
    assert ds[..1] == [ds[0]] && ds[..1][..0] == [];
    assert Select(ds[..1], KEY) == [RETURNED];
  }

  lemma Start()
    ensures Runs([NOTHING], [], NOTHING)
  {
  }

  lemma ReachLeft() returns (worlds: seq<World>, calls: seq<Request>)
    ensures Runs(worlds, calls, LEFT)
  {
    hide *;
    Start();
    Name();
    Register();
    PublishFirst();
    PublishSecond();
    Connect();
    Take();
    Leave();
    worlds, calls := Extend([NOTHING], [], NOTHING, CreateExchange("x"), NAMED);
    worlds, calls := Extend(worlds, calls, NAMED, RegisterQueue(KEY, true, false, 0, ["a"]), EMPTY);
    worlds, calls := Extend(worlds, calls, EMPTY, Publish("x", MESSAGE, [KEY], [Mint(1, 10)]), ONE);
    worlds, calls := Extend(worlds, calls, ONE, Publish("x", MESSAGE, [KEY], [Mint(2, 20)]), TWO);
    worlds, calls := Extend(worlds, calls, TWO, AddConsumer(KEY, "c"), JOINED);
    worlds, calls := Extend(worlds, calls, JOINED, Request.Fetch(KEY, "c"), FETCHED);
    worlds, calls := Extend(worlds, calls, FETCHED, DisconnectConsumer(KEY, "c", [RETURNED]), LEFT);
  }

  /** A sequential run without any failure after which the ready list is 2, 1, and 1, 2 once it has been restored. */
  lemma RestartReorders() returns (worlds: seq<World>, calls: seq<Request>)
    ensures Runs(worlds, calls, LEFT) && IsLoad(LEFT.db, LOADED) && Linked(LEFT.db) && KEY in Rebuilt(LEFT.db, LOADED)
    ensures DeliveryIds(LEFT.queues[KEY].ready) == [2, 1]
    ensures DeliveryIds(Rebuilt(LEFT.db, LOADED)[KEY].ready) == [1, 2]
  {
    hide Runs, IsLoad, Linked, Rebuilt, Select;
    worlds, calls := ReachLeft();
    Leave();
    LeftRows();
    LoadIt();
    SelectBoth();
    RebuiltQueue(LEFT.db, LOADED, KEY);
  }
}
