/** Whole histories of the service on fixed durable queues, with restarts, as runs of the concurrent system. */
module Histories {
  import opened Types
  import opened QueueModel
  import opened Tables
  import opened Ledger
  import opened Protocol
  import opened Stretches
  import opened CallStretches
  import opened OutcomeStretches
  import ServiceModel
  import ServiceFaults
  import RestoreModel
  import ProtocolTheorems

  // ---------------------------------------------------------------- restarts

  /** Restore has put back and released the first `n` loaded deliveries. */
  ghost predicate Halfway(s: State, s': State, l: RestoreModel.Loaded, order: seq<Id>, n: nat)
    requires RestoreModel.IsLoad(s.db, l) && RestoreModel.Linked(s.db)
  {
    && n <= |order| == |l.deliveries| && s'.phase == Restoring(s.db.deliveries, order, n, None)
    && s'.calls == map[] && s'.h.home == s.h.home
    && LoadedAreKnown(s.db, l)
    && s'.mem == RestoreModel.RestoreAll(RestoreModel.RegisterAll(l.queues), l.deliveries[..n])
    && s'.db == ServiceModel.MarkAllReady(s.db, ServiceFaults.Deliveries(l.deliveries[..n]))
  }

  ghost predicate LoadedAreKnown(db: Tables, l: RestoreModel.Loaded) {
    forall i :: 0 <= i < |l.deliveries| ==> l.deliveries[i].key in RestoreModel.RegisterAll(l.queues)
  }

  ghost function FilterLists(db: Tables, l: RestoreModel.Loaded): map<QueueKey, seq<string>>
    requires db.queues.Keys <= RestoreModel.RegisterAll(l.queues).Keys
  {
    map k | k in db.queues :: RestoreModel.RegisterAll(l.queues)[k].filters
  }

  lemma LoadedFilters(db: Tables, l: RestoreModel.Loaded)
    requires RestoreModel.IsLoad(db, l)
    ensures RestoreModel.RegisterAll(l.queues).Keys == db.queues.Keys
    ensures forall k :: k in db.queues ==>
      var row, filters := db.queues[k], FilterLists(db, l)[k];
      && (set f | f in filters) == FiltersOf(db, k)
      && RestoreModel.RegisterAll(l.queues)[k]
           == NewQueue(k.name, row.durable, row.autoDelete, row.maxAttempts, filters)
  {
    RestoreModel.LoadedQueues(db, l);
    hide RestoreModel.IsLoad, RestoreModel.RegisterAll, FiltersOf;
  }

  lemma CrashAndLoad(limit: int, s: State, l: RestoreModel.Loaded, order: seq<Id>) returns (s': State)
    requires RestoreModel.IsLoad(s.db, l) && RestoreModel.Linked(s.db)
    requires IsDeliveryOrder(s.db, order) && RestoreModel.ReadsRows(s.db, order, l.deliveries)
    ensures Reaches(limit, Restorer, s, s') && Halfway(s, s', l, order, 0)
  {
    hide *;
    LoadedFilters(s.db, l);
    var filterLists := FilterLists(s.db, l);
    FilterListKeys(s.db, l);
    var s1 := DoCrash(s);
    CrashMoves(limit, s);
    Crashed(s);
    LoadMoves(limit, s1, order, filterLists);
    s' := DoLoad(s1, order, filterLists);
    Then(limit, Restorer, s, s1, s');
    LoadedHalfway(s, l, order);
  }

  lemma FilterListKeys(db: Tables, l: RestoreModel.Loaded)
    requires db.queues.Keys <= RestoreModel.RegisterAll(l.queues).Keys
    ensures FilterLists(db, l).Keys == db.queues.Keys
  {
    hide RestoreModel.RegisterAll;
  }

  lemma Crashed(s: State)
    ensures DoCrash(s).phase.Down? && DoCrash(s).db == s.db && DoCrash(s).h.home == s.h.home
    ensures DoCrash(s).calls == map[]
  {
  }

  lemma LoadedHalfway(s: State, l: RestoreModel.Loaded, order: seq<Id>)
    requires RestoreModel.IsLoad(s.db, l) && RestoreModel.Linked(s.db)
    requires RestoreModel.ReadsRows(s.db, order, l.deliveries)
    requires s.db.queues.Keys <= RestoreModel.RegisterAll(l.queues).Keys
    requires FilterLists(s.db, l).Keys == s.db.queues.Keys
    ensures Halfway(s, DoLoad(DoCrash(s), order, FilterLists(s.db, l)), l, order, 0)
  {
    hide RestoreModel.IsLoad, RestoreModel.Linked, RestoreModel.RegisterAll, DoCrash, FilterLists, NewQueue;
    LoadedMemory(s.db, l);
    RestoreModel.LoadedDeliveries(s.db, l);
    Crashed(s);
  }

  lemma LoadedMemory(db: Tables, l: RestoreModel.Loaded)
    requires RestoreModel.IsLoad(db, l) && db.queues.Keys <= RestoreModel.RegisterAll(l.queues).Keys
    requires FilterLists(db, l).Keys == db.queues.Keys
    ensures RestoreModel.RegisterAll(l.queues).Keys == db.queues.Keys
    ensures (map k | k in db.queues :: NewQueue(k.name, db.queues[k].durable, db.queues[k].autoDelete,
                                                 db.queues[k].maxAttempts, FilterLists(db, l)[k])) ==
            RestoreModel.RegisterAll(l.queues)
  {
    hide RestoreModel.IsLoad, RestoreModel.RegisterAll, FilterLists, FiltersOf;
    LoadedFilters(db, l);
  }

  lemma RestoreOne(limit: int, s: State, s1: State, l: RestoreModel.Loaded, order: seq<Id>, n: nat) returns (s': State)
    requires RestoreModel.IsLoad(s.db, l) && RestoreModel.Linked(s.db)
    requires RestoreModel.ReadsRows(s.db, order, l.deliveries) && n < |order| && Halfway(s, s1, l, order, n)
    ensures Reaches(limit, Restorer, s1, s') && Halfway(s, s', l, order, n + 1)
  {
    hide Reaches, RestoreModel.IsLoad, RestoreModel.Linked, RestoreModel.RegisterAll, RestoreReady, MarkReady;
    assert l.deliveries[..n + 1][..n] == l.deliveries[..n] && l.deliveries[..n + 1][n] == l.deliveries[n];
    var ds, ds' := ServiceFaults.Deliveries(l.deliveries[..n]), ServiceFaults.Deliveries(l.deliveries[..n + 1]);
    assert ds'[..n] == ds && ds'[n] == l.deliveries[n].delivery;
    var s2 := DoRestoreNext(s1);
    RestoreMoves(limit, s1);
    s' := DoRestoreMark(s2, Success);
    UnmarkMoves(limit, s2);
    Then(limit, Restorer, s1, s2, s');
  }

  lemma {:induction false} RestoreRows(limit: int, s: State, s1: State, l: RestoreModel.Loaded, order: seq<Id>, n: nat)
      returns (s': State)
    requires RestoreModel.IsLoad(s.db, l) && RestoreModel.Linked(s.db)
    requires RestoreModel.ReadsRows(s.db, order, l.deliveries) && n <= |order| && Halfway(s, s1, l, order, n)
    ensures Reaches(limit, Restorer, s1, s') && Halfway(s, s', l, order, |order|)
    decreases |order| - n
  {
    hide Reaches, Halfway, RestoreModel.IsLoad, RestoreModel.Linked, RestoreModel.ReadsRows;
    if n == |order| {
      s' := s1;
      Stays(limit, Restorer, s1);
    } else {
      var s2 := RestoreOne(limit, s, s1, l, order, n);
      s' := RestoreRows(limit, s, s2, l, order, n + 1);
      Then(limit, Restorer, s1, s2, s');
    }
  }

  /** A crash at any point, followed by a restart that meets no repository failure, leads to the memory and the database
      that Restore makes of the stored tables. */
  lemma RestartIsStretch(limit: int, s: State, l: RestoreModel.Loaded) returns (s': State)
    requires RestoreModel.IsLoad(s.db, l) && RestoreModel.Linked(s.db)
    ensures Reaches(limit, Restorer, s, s') && Models(s', ServiceFaults.RestoredWorld(s.db, l))
    ensures s'.calls == map[] && s'.h.home == s.h.home
  {
    hide Reaches, RestoreModel.Linked, RestoreModel.ReadsRows, IsDeliveryOrder, RestoreModel.RestoreAll;
    hide RestoreModel.RegisterAll, ServiceModel.MarkAllReady;
    var order :| IsDeliveryOrder(s.db, order) && RestoreModel.ReadsRows(s.db, order, l.deliveries);
    hide RestoreModel.IsLoad;
    var s1 := CrashAndLoad(limit, s, l, order);
    var s2 := RestoreRows(limit, s, s1, l, order, 0);
    s' := s2.(phase := Serving);
    OpenMoves(limit, s2);
    Then(limit, Restorer, s, s1, s2);
    Then(limit, Restorer, s, s2, s');
    assert l.deliveries[..|order|] == l.deliveries;
  }

  // ---------------------------------------------------------------- whole histories

  datatype Event = Called(request: ServiceModel.Request, outcome: Outcome) | Restart(loaded: RestoreModel.Loaded)

  ghost predicate Follows(limits: ServiceModel.Limits, w: World, e: Event, w': World) {
    match e
    case Called(r, outcome) => KeepsTopology(w, r) && ServiceFaults.Leads(limits, w, r, outcome, w')
    case Restart(l) =>
      RestoreModel.IsLoad(w.db, l) && RestoreModel.Linked(w.db) && w' == ServiceFaults.RestoredWorld(w.db, l)
  }

  function MintsUpTo(events: seq<Event>, n: nat): seq<Mint>
    requires n <= |events|
  {
    if n == 0 then []
    else MintsUpTo(events, n - 1) + if events[n - 1].Called? then MintsOf(events[n - 1].request) else []
  }

  /** A history of the service on fixed exchanges and durable queues: it is started, complete calls end in any way they
      can, and it is restarted any number of times. No UUID is drawn twice. */
  ghost predicate IsHistory(limits: ServiceModel.Limits, worlds: seq<World>, events: seq<Event>) {
    && |worlds| == |events| + 1 && worlds[0].queues == map[] && events != [] && events[0].Restart?
    && (forall i :: 0 <= i < |events| ==> Follows(limits, worlds[i], events[i], worlds[i + 1]))
    && AreNew(map[], MintsUpTo(events, |events|))
  }

  /** The run has come to the world `w`, and no call is in progress. */
  ghost predicate ArrivedAt(s: State, w: World) {
    s.mem == w.queues && s.db == w.db && s.calls == map[]
  }

  /** The run passes through the worlds of the history, and has so far handed out their IDs only. */
  ghost predicate Passes(states: seq<State>, limit: int, steps: seq<Step>, worlds: seq<World>, at: seq<nat>) {
    && IsRun(states, limit, steps) && |at| <= |worlds|
    && (forall i, j :: 0 <= i < j < |at| ==> at[i] <= at[j])
    && forall i :: 0 <= i < |at| ==> at[i] < |states| && ArrivedAt(states[at[i]], worlds[i])
  }

  lemma PassesOn(states: seq<State>, limit: int, steps: seq<Step>, worlds: seq<World>, at: seq<nat>, longer: seq<State>,
                 path: seq<Step>)
    requires Passes(states, limit, steps, worlds, at) && |at| < |worlds|
    requires IsRun(longer, limit, path) && states <= longer && steps <= path && ArrivedAt(longer[|path|], worlds[|at|])
    ensures Passes(longer, limit, path, worlds, at + [|path|])
  {
    hide IsRun, ArrivedAt;
    RunLength(states, limit, steps);
    RunLength(longer, limit, path);
    forall i | 0 <= i < |at| ensures longer[at[i]] == states[at[i]] {}
  }

  lemma RunLength(states: seq<State>, limit: int, steps: seq<Step>)
    requires IsRun(states, limit, steps)
    ensures |states| == |steps| + 1
  {
  }

  lemma NextMintsAreNew(home: map<Id, QueueKey>, events: seq<Event>, n: nat)
    requires n < |events| && AreNew(map[], MintsUpTo(events, |events|)) && events[n].Called?
    requires MintsFrom(map[], home, MintsUpTo(events, n))
    ensures AreNew(home, MintsOf(events[n].request))
  {
    PrefixOfMints(events, n + 1, |events|);
    var before, next := MintsUpTo(events, n), MintsOf(events[n].request);
    assert MintsUpTo(events, n + 1) == before + next;
    hide MintsUpTo, MintsOf, AreNew, MintsFrom;
    LaterMintsAreNew(home, before, next, MintsUpTo(events, |events|));
  }

  lemma LaterMintsAreNew(home: map<Id, QueueKey>, before: seq<Mint>, next: seq<Mint>, all: seq<Mint>)
    requires before + next <= all && AreNew(map[], all) && MintsFrom(map[], home, before)
    ensures AreNew(home, next)
  {
    hide HasMint;
    assert forall i :: 0 <= i < |next| ==> (before + next)[|before| + i] == next[i];
    assert forall i :: 0 <= i < |next| ==> all[|before| + i] == next[i];
    forall i | 0 <= i < |next| ensures !HasMint(before, next[i].id) { NotBefore(before, next, all, i); }
  }

  lemma NotBefore(before: seq<Mint>, next: seq<Mint>, all: seq<Mint>, i: nat)
    requires before + next <= all && AreNew(map[], all) && i < |next|
    ensures !HasMint(before, next[i].id)
  {
    assert (before + next)[|before| + i] == next[i] && all[|before| + i] == next[i];
    forall j | 0 <= j < |before| ensures before[j].id != next[i].id {
      assert (before + next)[j] == before[j] && all[j] == before[j];
    }
  }

  lemma {:induction false} PrefixOfMints(events: seq<Event>, m: nat, n: nat)
    requires m <= n <= |events|
    ensures MintsUpTo(events, m) <= MintsUpTo(events, n)
  {
    if m < n { PrefixOfMints(events, m, n - 1); }
  }

  lemma MintsAdd(home: map<Id, QueueKey>, home': map<Id, QueueKey>, a: seq<Mint>, b: seq<Mint>)
    requires MintsFrom(map[], home, a) && MintsFrom(home, home', b)
    ensures MintsFrom(map[], home', a + b)
  {
    forall id | id in home' ensures HasMint(a + b, id) {
      if HasMint(b, id) {
        var i :| 0 <= i < |b| && b[i].id == id;
        assert (a + b)[|a| + i] == b[i];
      } else {
        var i :| 0 <= i < |a| && a[i].id == id;
        assert (a + b)[i] == a[i];
      }
    }
  }

  lemma StartsDown(states: seq<State>, limit: int, steps: seq<Step>)
    requires |states| == 1 && steps == [] && Init(states[0])
    ensures IsRun(states, limit, steps)
  {
  }

  /** One more event of the history: the run is drawn out by the steps of that call, or of that restart. */
  lemma EventIsStretch(limits: ServiceModel.Limits, states: seq<State>, steps: seq<Step>, w: World, e: Event, w': World)
      returns (longer: seq<State>, path: seq<Step>)
    requires IsRun(states, limits.maxInFlight, steps) && Follows(limits, w, e, w')
    requires ArrivedAt(states[|steps|], w) && (e.Called? ==> states[|steps|].phase.Serving?)
    requires e.Called? ==> AreNew(states[|steps|].h.home, MintsOf(e.request))
    ensures IsRun(longer, limits.maxInFlight, path) && states <= longer && steps <= path
    ensures ArrivedAt(longer[|path|], w') && longer[|path|].phase.Serving?
    ensures MintsFrom(states[|steps|].h.home, longer[|path|].h.home, if e.Called? then MintsOf(e.request) else [])
  {
    var s := states[|steps|];
    hide IsRun, KeepsTopology, ServiceFaults.Leads, AreNew, IsOf, MintsOf, ServiceFaults.RestoredWorld, Reaches;
    match e
    case Called(r, outcome) => longer, path := CallIsStretch(limits, states, steps, 0, w, r, outcome, w');
    case Restart(l) =>
      var s' := RestartIsStretch(limits.maxInFlight, s, l);
      longer, path := StretchExtendsRun(states, limits.maxInFlight, steps, Restorer, s');
  }

  lemma {:induction false} PrefixIsRun(limits: ServiceModel.Limits, worlds: seq<World>, events: seq<Event>, s0: State,
                                       n: nat)
      returns (states: seq<State>, steps: seq<Step>, at: seq<nat>)
    requires IsHistory(limits, worlds, events) && Init(s0) && worlds[0].db == s0.db && n <= |events|
    ensures states != [] && states[0] == s0 && Passes(states, limits.maxInFlight, steps, worlds, at) && |at| == n + 1
    ensures |states| == |steps| + 1 && at[n] == |steps| && (n > 0 ==> states[|steps|].phase.Serving?)
    ensures MintsFrom(map[], states[|steps|].h.home, MintsUpTo(events, n))
  {
    hide Follows, AreNew, IsRun;
    if n == 0 {
      states, steps, at := [s0], [], [0];
      StartsDown(states, limits.maxInFlight, steps);
    } else {
      var early, begun, before := PrefixIsRun(limits, worlds, events, s0, n - 1);
      var e := events[n - 1];
      assert Follows(limits, worlds[n - 1], e, worlds[n]);
      if e.Called? { NextMintsAreNew(early[|begun|].h.home, events, n - 1); }
      hide IsHistory, MintsFrom, Init;
      states, steps := EventIsStretch(limits, early, begun, worlds[n - 1], e, worlds[n]);
      PassesOn(early, limits.maxInFlight, begun, worlds, before, states, steps);
      at := before + [|steps|];
      RunLength(states, limits.maxInFlight, steps);
      var next := if e.Called? then MintsOf(e.request) else [];
      MintsAdd(early[|begun|].h.home, states[|steps|].h.home, MintsUpTo(events, n - 1), next);
    }
  }

  /** Every such history is a run of the concurrent system, which passes through all worlds of the history, in order and
      with no call in progress. Whatever holds in every state of every run holds in every world of every history. */
  lemma HistoryIsRun(limits: ServiceModel.Limits, worlds: seq<World>, events: seq<Event>, s0: State)
      returns (states: seq<State>, steps: seq<Step>, at: seq<nat>)
    requires IsHistory(limits, worlds, events) && Init(s0) && worlds[0].db == s0.db
    ensures IsRun(states, limits.maxInFlight, steps) && states[0] == s0 && |at| == |worlds|
    ensures forall i, j :: 0 <= i < j < |at| ==> at[i] <= at[j]
    ensures forall i :: 0 <= i < |at| ==> at[i] < |states| && ArrivedAt(states[at[i]], worlds[i])
  {
    hide Init, ArrivedAt, MintsFrom, IsRun, Follows;
    states, steps, at := PrefixIsRun(limits, worlds, events, s0, |events|);
  }

  /** For example the write-ahead law: at every point of every history, whatever a durable queue holds has a row of that
      queue with that message and no more attempts. */
  lemma HistoryStoresFirst(limits: ServiceModel.Limits, worlds: seq<World>, events: seq<Event>, s0: State, i: nat,
                           key: QueueKey,
                           id: Id)
    requires IsHistory(limits, worlds, events) && Init(s0) && worlds[0].db == s0.db && i < |worlds|
    requires key in worlds[i].queues && worlds[i].queues[key].durable && id in Live(worlds[i].queues[key])
    ensures var d, db := Live(worlds[i].queues[key])[id], worlds[i].db;
      id in db.deliveries && db.deliveries[id].queue == key && db.deliveries[id].message == d.message
      && db.deliveries[id].attempts <= d.attempts
  {
    hide Init, IsRun, Follows, Live;
    var states, steps, at := HistoryIsRun(limits, worlds, events, s0);
    assert ProtocolTheorems.InQueue(states[at[i]], key, id);
    ProtocolTheorems.StoredBeforeHeld(states, limits.maxInFlight, steps, at[i], key, id);
  }
}
