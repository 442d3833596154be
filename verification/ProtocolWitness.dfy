/** Two runs that show what the concurrent broker does not guarantee. */
module ProtocolWitness {
  import opened Types
  import opened QueueModel
  import opened Tables
  import opened Ledger
  import opened Protocol
  import Routing

  const KEY := QueueKey("x", "q")
  const MESSAGE := Message([1], "a")
  const PUBLISHED := Delivery(0, MESSAGE, "", 0)

  ghost const EMPTY_DB := Tables({"x"}, map[KEY := QueueRow(true, false, 0)], {(KEY, "a")}, map[], map[])
  ghost const BEFORE := State(map[], EMPTY_DB, map[], Down,
                              History(map[], map[], {}, map[], map[], {}, {}, map[], {}, {}, map[]))

  function TheQueue(ready: seq<Delivery>, inFlight: map<Id, Delivery>, consumers: set<string>,
                    closed: nat): QueueState {
    QueueState("q", ["a"], true, false, 0, ready, inFlight, consumers, After(closed))
  }

  /** The channels after so many have been closed. */
  function After(closed: nat): Channels {
    if closed == 0 then NO_CHANNELS_CLOSED else Renew(After(closed - 1))
  }

  /** A run, as a list of states and the steps between them. */
  datatype Trace = Trace(states: seq<State>, steps: seq<Step>)

  /** What the repository answered in a step, if it was asked anything. */
  function ReplyOf(step: Step): Reply {
    match step
    case PublishSave(_, _, _, reply) => reply
    case MarkStep(_, reply) => reply
    case DeleteAcked(_, reply) => reply
    case DeleteRejected(_, reply) => reply
    case SaveLetter(_, _, reply) => reply
    case ReleaseStep(_, reply) => reply
    case RestoreMark(reply) => reply
    case _ => Success
  }

  /** A run in which no repository call fails. */
  ghost predicate Runs(r: Trace, last: State) {
    && IsRun(r.states, 1, r.steps) && r.states[|r.steps|] == last
    && forall i :: 0 <= i < |r.steps| ==> ReplyOf(r.steps[i]).Success?
  }

  ghost predicate Leads(s: State, step: Step, s': State) {
    Enabled(s, 1, step) && s' == Apply(s, 1, step) && ReplyOf(step).Success?
  }

  lemma Extend(r: Trace, last: State, step: Step, next: State) returns (r': Trace)
    requires Runs(r, last) && Leads(last, step, next)
    ensures Runs(r', next)
  {
    hide Enabled, Apply, Init;
    r' := Trace(r.states + [next], r.steps + [step]);
    assert forall i :: 0 <= i < |r.states| ==> r'.states[i] == r.states[i];
    assert forall i :: 0 <= i < |r.steps| ==> r'.steps[i] == r.steps[i];
  }

  // ---------------------------------------------------------------- start and publish one message

  ghost function Idle(q: QueueState, db: Tables, h: History): State {
    State(map[KEY := q], db, map[], Serving, h)
  }

  ghost const NO_HISTORY := BEFORE.h
  ghost const ROW := DeliveryRow(KEY, MESSAGE, StatusReady, 0, None, 0)
  ghost const ONE_ROW := EMPTY_DB.(deliveries := map[0 := ROW])
  ghost const MINTED := NO_HISTORY.(home := map[0 := KEY], saved := map[0 := MESSAGE])
  ghost const KEPT := MINTED.(entered := {0}, confirmed := {0})
  ghost const LOADED := BEFORE.(mem := map[KEY := TheQueue([], map[], {}, 0)], phase := Restoring(map[], [], 0, None))

  ghost const EMPTY := Idle(TheQueue([], map[], {}, 0), EMPTY_DB, NO_HISTORY)
  ghost const BEGUN := EMPTY.(calls := map[0 := Publishing([KEY], MESSAGE, {})])
  ghost const STORED := State(EMPTY.mem, ONE_ROW, map[0 := Saved(KEY, PUBLISHED, [], MESSAGE, {0})], Serving,
                              MINTED.(holder := map[0 := 0]))
  ghost const QUEUED := State(map[KEY := TheQueue([PUBLISHED], map[], {}, 1)], ONE_ROW,
                              map[0 := Publishing([], MESSAGE, {0})], Serving, MINTED.(entered := {0}))
  ghost const WAITING := Idle(TheQueue([PUBLISHED], map[], {}, 1), ONE_ROW, KEPT)

  lemma LoadNothing()
    ensures Leads(BEFORE, Load([], map[KEY := ["a"]]), LOADED) && Leads(LOADED, Open, EMPTY)
  {
    assert FiltersOf(EMPTY_DB, KEY) == {"a"};
    assert DoLoad(BEFORE, [], map[KEY := ["a"]]).mem == LOADED.mem;
  }

  lemma RouteOne()
    ensures Leads(EMPTY, BeginPublish(0, "x", MESSAGE, [KEY]), BEGUN)
  {
    Routing.SplitWord("a");
    Routing.KeyLanguage("a");
    Routing.KeyIsItsOwnFilter("a", "a");
    assert EMPTY.mem[KEY].filters[0] == "a";
  }

  lemma StoreOne()
    ensures Leads(BEGUN, PublishSave(0, 0, 0, Success), STORED)
  {
    var s := DoPublishSave(BEGUN, 0, 0, 0, Success);
    assert s.calls[0].todo == [] && s.calls[0].ids == {0};
    assert s.calls == STORED.calls && s.db == ONE_ROW && s.h == STORED.h;
  }

  lemma QueueOne()
    ensures Leads(STORED, PublishEnqueue(0), QUEUED)
  {
    var s := DoPublishEnqueue(STORED, 0);
    assert s.mem[KEY].ready == [PUBLISHED];
    assert s.mem == QUEUED.mem && s.calls == QUEUED.calls && s.h == QUEUED.h;
  }

  lemma FinishOne()
    ensures Leads(QUEUED, PublishDone(0), WAITING)
  {
    var s := DoPublishDone(QUEUED, 0);
    assert s.calls == map[] && s.h == KEPT;
  }

  lemma PublishOne() returns (r: Trace)
    ensures Runs(r, WAITING)
  {
    LoadNothing();
    RouteOne();
    StoreOne();
    QueueOne();
    FinishOne();
    assert Runs(Trace([BEFORE], []), BEFORE);
    hide Leads, Runs;
    r := Extend(Trace([BEFORE], []), BEFORE, Load([], map[KEY := ["a"]]), LOADED);
    r := Extend(r, LOADED, Open, EMPTY);
    r := Extend(r, EMPTY, BeginPublish(0, "x", MESSAGE, [KEY]), BEGUN);
    r := Extend(r, BEGUN, PublishSave(0, 0, 0, Success), STORED);
    r := Extend(r, STORED, PublishEnqueue(0), QUEUED);
    r := Extend(r, QUEUED, PublishDone(0), WAITING);
  }

  // ---------------------------------------------------------------- a lost message

  const FETCHED := Delivery(0, MESSAGE, "c", 1)

  ghost const MARKED_ROW := ROW.(status := StatusInFlight, attempts := 1, consumer := Some("c"))
  ghost const JOINED := Idle(TheQueue([PUBLISHED], map[], {"c"}, 1), ONE_ROW, KEPT)
  ghost const TAKEN :=
    Idle(TheQueue([], map[0 := FETCHED], {"c"}, 1), ONE_ROW, KEPT).(calls := map[1 := Marking(0, "c", 1)])
  ghost const OUT :=
    Idle(TheQueue([], map[0 := FETCHED], {"c"}, 1), EMPTY_DB.(deliveries := map[0 := MARKED_ROW]), KEPT)
  ghost const REJECTED :=
    State(map[KEY := TheQueue([], map[], {"c"}, 1)], OUT.db, map[2 := Burying(KEY, FETCHED)], Serving,
                                KEPT.(settled := map[0 := ("c", ByReject)], holder := map[0 := 2]))
  ghost const ERASED := State(REJECTED.mem, EMPTY_DB, map[2 := Lettering(KEY, FETCHED, true)], Serving,
                              REJECTED.h.(deleted := map[0 := ByReject]))
  ghost const GONE := State(map[], EMPTY_DB, map[], Down,
                            MINTED.(confirmed := {0}, deleted := map[0 := ByReject], dropped := {0}))

  lemma TakeIt()
    ensures Leads(JOINED, FetchStep(1, KEY, "c"), TAKEN)
  {
    assert Owned(JOINED.mem[KEY], "c") == {};
    TakenState();
    hide DoFetch, Owned;
  }

  lemma TakenState()
    ensures DoFetch(JOINED, 1, KEY, "c") == TAKEN
  {
    var s := DoFetch(JOINED, 1, KEY, "c");
    assert s.mem[KEY].ready == [] && s.mem[KEY].inFlight == map[0 := FETCHED];
    assert s.mem == TAKEN.mem && s.calls == TAKEN.calls;
  }

  lemma JoinIt()
    ensures Leads(WAITING, JoinStep(KEY, "c"), JOINED)
  {
    assert Join(WAITING.mem[KEY], "c").consumers == {"c"};
    assert Put(WAITING, KEY, Join(WAITING.mem[KEY], "c")).mem == JOINED.mem;
  }

  lemma MarkIt()
    ensures Leads(TAKEN, MarkStep(1, Success), OUT)
  {
    var s := DoMark(TAKEN, 1, Success);
    assert s.db == OUT.db && s.calls == OUT.calls;
  }

  lemma RejectIt()
    ensures Leads(OUT, NackStep(2, KEY, 0, "c"), REJECTED)
  {
    var s := DoNack(OUT, 2, KEY, 0, "c");
    assert s.mem == REJECTED.mem && s.calls == REJECTED.calls && s.h == REJECTED.h;
  }

  lemma EraseIt()
    ensures Leads(REJECTED, DeleteRejected(2, Success), ERASED)
  {
    var s := DoDeleteRejected(REJECTED, 2, Success);
    assert s.db == EMPTY_DB && s.calls == ERASED.calls && s.h == ERASED.h;
  }

  lemma CrashThen()
    ensures Leads(ERASED, Crash, GONE)
  {
    assert 2 in ERASED.calls && ERASED.calls[2].Lettering? && ERASED.calls[2].stored
      && ERASED.calls[2].delivery.id == 0;
    assert DoCrash(ERASED).h.dropped == {0};
  }

  /** A message whose publish succeeded can end in neither table, although no repository call failed
      and nobody acknowledged it: a crash between deleting the rejected delivery and writing its dead letter. */
  lemma ConfirmedMessageCanVanish() returns (r: Trace, s: State)
    ensures Runs(r, s)
    ensures 0 in s.h.confirmed && 0 !in s.h.acked && Maps(s.h.deleted, 0, ByReject)
    ensures s.db.deliveries == map[] && s.db.letters == map[] && s.calls == map[]
  {
    JoinIt();
    TakeIt();
    MarkIt();
    RejectIt();
    EraseIt();
    CrashThen();
    r := PublishOne();
    hide Leads, Runs;
    r := Extend(r, WAITING, JoinStep(KEY, "c"), JOINED);
    r := Extend(r, JOINED, FetchStep(1, KEY, "c"), TAKEN);
    r := Extend(r, TAKEN, MarkStep(1, Success), OUT);
    r := Extend(r, OUT, NackStep(2, KEY, 0, "c"), REJECTED);
    r := Extend(r, REJECTED, DeleteRejected(2, Success), ERASED);
    r := Extend(r, ERASED, Crash, GONE);
    s := GONE;
  }

  // ---------------------------------------------------------------- forgotten attempts

  const RETURNED := Delivery(0, MESSAGE, "", 1)
  const REFETCHED := Delivery(0, MESSAGE, "c", 2)

  ghost const LEFT := TAKEN.(mem := map[KEY := TheQueue([RETURNED], map[], {}, 2)],
                             calls := map[1 := Marking(0, "c", 1), 3 := Releasing([0])])
  ghost const BACK := LEFT.(mem := map[KEY := TheQueue([RETURNED], map[], {"c"}, 2)])
  ghost const RETAKEN := LEFT.(mem := map[KEY := TheQueue([], map[0 := REFETCHED], {"c"}, 2)],
                               calls := map[1 := Marking(0, "c", 1), 3 := Releasing([0]), 4 := Marking(0, "c", 2)])
  ghost const NEWER := RETAKEN.(db := EMPTY_DB.(deliveries := map[0 := MARKED_ROW.(attempts := 2)]),
                                calls := map[1 := Marking(0, "c", 1), 3 := Releasing([0])])
  ghost const OLDER := RETAKEN.(db := EMPTY_DB.(deliveries := map[0 := MARKED_ROW]), calls := map[3 := Releasing([0])])
  ghost const LAGGING := OLDER.(db := EMPTY_DB.(deliveries := map[0 := ROW.(attempts := 1)]), calls := map[])

  lemma Leave()
    ensures Leads(TAKEN, DisconnectStep(3, KEY, "c", [RETURNED]), LEFT)
  {
    assert Owned(TAKEN.mem[KEY], "c") == {0};
    LeftState();
    hide DoDisconnect, Owned;
  }

  lemma LeftState()
    ensures DoDisconnect(TAKEN, 3, KEY, "c", [RETURNED]) == LEFT
  {
    assert Owned(TAKEN.mem[KEY], "c") == {0};
    var s := DoDisconnect(TAKEN, 3, KEY, "c", [RETURNED]);
    assert s.mem[KEY].ready == [RETURNED] && s.mem[KEY].inFlight == map[] && s.mem[KEY].consumers == {};
    assert s.calls[3].pending == [0];
    assert s.mem == LEFT.mem && s.calls == LEFT.calls;
  }

  lemma Return()
    ensures Leads(LEFT, JoinStep(KEY, "c"), BACK)
  {
    assert Join(LEFT.mem[KEY], "c").consumers == {"c"};
    assert Put(LEFT, KEY, Join(LEFT.mem[KEY], "c")).mem == BACK.mem;
  }

  lemma TakeAgain()
    ensures Leads(BACK, FetchStep(4, KEY, "c"), RETAKEN)
  {
    assert Owned(BACK.mem[KEY], "c") == {};
    var s := DoFetch(BACK, 4, KEY, "c");
    assert s.mem[KEY].ready == [] && s.mem[KEY].inFlight == map[0 := REFETCHED];
    assert s.mem == RETAKEN.mem && s.calls == RETAKEN.calls;
  }

  lemma NewerMarkLands()
    ensures Leads(RETAKEN, MarkStep(4, Success), NEWER)
  {
    NewerState();
    hide DoMark;
  }

  lemma NewerState()
    ensures DoMark(RETAKEN, 4, Success) == NEWER
  {
    var s := DoMark(RETAKEN, 4, Success);
    assert s.db == NEWER.db && s.calls == NEWER.calls;
  }

  lemma OlderState()
    ensures DoMark(NEWER, 1, Success) == OLDER
  {
    var s := DoMark(NEWER, 1, Success);
    assert s.db == OLDER.db && s.calls == OLDER.calls;
  }

  lemma OlderMarkLands()
    ensures Leads(NEWER, MarkStep(1, Success), OLDER)
  {
    OlderState();
    hide DoMark;
  }

  lemma ReleaseLate()
    ensures Leads(OLDER, ReleaseStep(3, Success), LAGGING)
  {
    ReleasedState();
    hide DoRelease;
  }

  lemma ReleasedState()
    ensures DoRelease(OLDER, 3, Success) == LAGGING
  {
    var s := DoRelease(OLDER, 3, Success);
    assert s.db == LAGGING.db && s.calls == LAGGING.calls;
  }

  /** With every call finished and no repository failure, the attempts on record can still lag behind
      those in memory: two marks landed in the wrong order. */
  lemma AttemptsCanLag() returns (r: Trace, s: State)
    ensures Runs(r, s) && s.phase.Serving? && s.calls == map[]
    ensures KEY in s.mem && 0 in s.mem[KEY].inFlight && 0 in s.db.deliveries
    ensures s.db.deliveries[0].attempts < s.mem[KEY].inFlight[0].attempts
  {
    JoinIt();
    TakeIt();
    Leave();
    Return();
    TakeAgain();
    NewerMarkLands();
    OlderMarkLands();
    ReleaseLate();
    r := PublishOne();
    hide Leads, Runs;
    r := Extend(r, WAITING, JoinStep(KEY, "c"), JOINED);
    r := Extend(r, JOINED, FetchStep(1, KEY, "c"), TAKEN);
    r := Extend(r, TAKEN, DisconnectStep(3, KEY, "c", [RETURNED]), LEFT);
    r := Extend(r, LEFT, JoinStep(KEY, "c"), BACK);
    r := Extend(r, BACK, FetchStep(4, KEY, "c"), RETAKEN);
    r := Extend(r, RETAKEN, MarkStep(4, Success), NEWER);
    r := Extend(r, NEWER, MarkStep(1, Success), OLDER);
    r := Extend(r, OLDER, ReleaseStep(3, Success), LAGGING);
    s := LAGGING;
  }
}
