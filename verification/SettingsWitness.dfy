/** When the settings of a durable queue are those that are stored: a row that outlived its queue keeps its own. */
module SettingsWitness {
  import opened Types
  import opened QueueModel
  import opened Tables
  import opened ServiceModel
  import opened ServiceFaults
  import opened RestoreModel
  import opened TopologyAnswers

  /** The exact condition: a successful registration of a durable queue leaves its settings in the table if and only if
      no row with other settings was there already. */
  lemma SettingsStoredExactlyWhen(limits: Limits, w: World, call: Request, w': World)
    requires call.RegisterQueue? && call.durable && Sound(w) && Leads(limits, w, call, Done, w')
    ensures call.key in w'.db.queues
    ensures var row := QueueRow(call.durable, call.autoDelete, call.maxAttempts);
      w'.db.queues[call.key] == row <==> (call.key in w.db.queues ==> w.db.queues[call.key] == row)
  {
    RegisterAnswers(limits, w, call, Done, w');
    hide Sound, Leads, RegisterErrors;
  }

  const KEY := QueueKey("e", "q")
  const CREATED := World({"e"}, map[], Tables({"e"}, map[], {}, map[], map[]))
  const ROW := QueueRow(true, false, 3)
  const STORE := Tables({"e"}, map[KEY := ROW], {}, map[], map[])
  const FIRST := World({"e"}, map[KEY := NewQueue("q", true, false, 3, [])], STORE)
  const DELETED := World({"e"}, map[], STORE)
  const SECOND := World({"e"}, map[KEY := NewQueue("q", true, false, 5, [])], STORE)

  ghost function Events(): seq<Event> {
    [Called(CreateExchange("e"), Done), Called(RegisterQueue(KEY, true, false, 3, []), Done),
     Called(DeleteQueue(KEY), Failed(StorageError)), Called(RegisterQueue(KEY, true, false, 5, []), Done)]
  }

  ghost function Worlds(): seq<World> {
    [World({}, map[], Tables({}, map[], {}, map[], map[])), CREATED, FIRST, DELETED, SECOND]
  }

  lemma Creates(limits: Limits)
    ensures Leads(limits, Worlds()[0], CreateExchange("e"), Done, CREATED)
  {
  }

  lemma Registers(limits: Limits)
    requires limits.maxQueueFilters >= 0
    ensures Leads(limits, CREATED, RegisterQueue(KEY, true, false, 3, []), Done, FIRST)
  {
    assert SaveQueue(CREATED.db, KEY, ROW, []) == STORE;
  }

  lemma Deletes(limits: Limits)
    ensures Leads(limits, FIRST, DeleteQueue(KEY), Failed(StorageError), DELETED)
  {
    assert FIRST.queues - {KEY} == map[];
  }

  lemma RegistersAgain(limits: Limits)
    requires limits.maxQueueFilters >= 0
    ensures Leads(limits, DELETED, RegisterQueue(KEY, true, false, 5, []), Done, SECOND)
  {
    assert SaveQueue(STORE, KEY, QueueRow(true, false, 5), []) == STORE;
  }

  /** A queue is registered, its delete fails after memory has forgotten it, and it is registered with another maximum:
      the call succeeds, the old maximum stays stored, and comes back with the next restart. */
  lemma OldSettingsComeBack(limits: Limits, l: Loaded)
    requires limits.maxQueueFilters >= 0 && IsLoad(SECOND.db, l)
    ensures IsFaultyRun(limits, Worlds(), Events()) && Worlds()[|Events()|] == SECOND
    ensures SECOND.queues[KEY].maxAttempts == 5 && Linked(SECOND.db)
    ensures KEY in Rebuilt(SECOND.db, l) && Rebuilt(SECOND.db, l)[KEY].maxAttempts == 3
  {
    hide Leads, Rebuilt, IsLoad;
    ItHappens(limits);
    RebuiltQueue(SECOND.db, l, KEY);
  }

  lemma ItHappens(limits: Limits)
    requires limits.maxQueueFilters >= 0
    ensures IsFaultyRun(limits, Worlds(), Events())
  {
    Creates(limits);
    Registers(limits);
    Deletes(limits);
    RegistersAgain(limits);
    hide Leads;
  }
}
