/** The calls of the sequential service as stretches of the concurrent system: every outcome that a complete call can
    have on fixed durable queues is reached by steps of that call alone. What holds in every run of the concurrent
    system therefore holds for the service whose methods are proved against those outcomes. */
module OutcomeStretches {
  import opened Types
  import opened QueueModel
  import opened Tables
  import opened Ledger
  import opened Protocol
  import opened ProtocolInvariant
  import opened ProtocolSteps
  import opened Stretches
  import opened CallStretches
  import ServiceModel
  import ServiceFaults
  import Routing

  /** State and world have the same queues and the same database. */
  ghost predicate Models(s: State, w: World) {
    s.phase.Serving? && s.mem == w.queues && s.db == w.db
  }

  /** The call creates or deletes no exchange and no durable queue. */
  predicate KeepsTopology(w: World, r: ServiceModel.Request) {
    match r
    case CreateExchange(_) => false
    case DeleteExchange(_) => false
    case RegisterQueue(_, durable, _, _, _) => !durable
    case DeleteQueue(key) => key in w.queues ==> !w.queues[key].durable
    case _ => true
  }

  /** The delivery IDs that a call may hand out. */
  function MintsOf(r: ServiceModel.Request): seq<Mint> {
    if r.Publish? then r.mints else []
  }

  /** The call is accepted, and served or broken off. */
  ghost predicate Accepted(limits: ServiceModel.Limits, w: World, r: ServiceModel.Request, w': World) {
    && ServiceModel.Accepts(limits, w, r)
    && ((ServiceFaults.Admits(w, r) && w' == ServiceModel.Serve(limits, w, r))
        || (ServiceFaults.CallsRepository(w, r) && ServiceFaults.Broken(limits, w, r, w')))
  }

  lemma UnchangedOrAccepted(limits: ServiceModel.Limits, w: World, r: ServiceModel.Request, outcome: Outcome, w': World)
    requires ServiceFaults.Leads(limits, w, r, outcome, w')
    ensures w' == w || Accepted(limits, w, r, w')
  {
    hide ServiceFaults.Refusal, ServiceModel.Accepts, ServiceFaults.Admits, ServiceModel.Serve;
    hide ServiceFaults.CallsRepository, ServiceFaults.Broken;
  }

  /** Call `t` ends in a state that models `w'`. */
  ghost predicate EndsIn(limit: int, s: State, t: nat, r: ServiceModel.Request, w': World, s': State) {
    && Reaches(limit, Client(t), s, s') && Models(s', w') && s'.calls == s.calls
    && MintsFrom(s.h.home, s'.h.home, MintsOf(r))
  }

  lemma FetchIsStretch(limits: ServiceModel.Limits, s: State, t: nat, w: World, r: ServiceModel.Request, w': World)
      returns (s': State)
    requires r.Fetch? && Models(s, w) && t !in s.calls && Accepted(limits, w, r, w')
    ensures EndsIn(limits.maxInFlight, s, t, r, w', s')
  {
    hide Reaches, Owned, MarkInFlight, Fetch;
    var marked := w'.db != w.db;
    s' := FetchCall(limits.maxInFlight, s, t, r.key, r.consumer, marked);
  }

  lemma AckIsStretch(limits: ServiceModel.Limits, s: State, t: nat, w: World, r: ServiceModel.Request, w': World)
      returns (s': State)
    requires r.Ack? && Models(s, w) && t !in s.calls && Accepted(limits, w, r, w')
    ensures EndsIn(limits.maxInFlight, s, t, r, w', s')
  {
    hide Reaches, DeleteDelivery, Settle;
    s' := AckCall(limits.maxInFlight, s, t, r.key, r.id, r.consumer, w'.db != w.db);
  }

  lemma NAckIsStretch(limits: ServiceModel.Limits, s: State, t: nat, w: World, r: ServiceModel.Request, w': World)
      returns (s': State)
    requires r.NAck? && Models(s, w) && t !in s.calls && Accepted(limits, w, r, w')
    requires r.key in w.queues && WellFormed(w.queues[r.key])
    ensures EndsIn(limits.maxInFlight, s, t, r, w', s')
  {
    hide Reaches, DeleteDelivery, SaveDeadLetter, MarkReady, Settle, Requeue, GivesUp;
    var q := w.queues[r.key];
    var d := q.inFlight[r.id];
    if GivesUp(q, d) {
      var lettered := w' == ServiceModel.Serve(limits, w, r) && ServiceFaults.Admits(w, r);
      var deleted := lettered || w'.db != w.db;
      s' := GiveUpCall(limits.maxInFlight, s, t, r.key, r.id, r.consumer, r.letterId, deleted, lettered);
    } else {
      s' := RequeueCall(limits.maxInFlight, s, t, r.key, r.id, r.consumer, w'.db != w.db);
    }
  }

  lemma ConsumersAreStretches(limits: ServiceModel.Limits, s: State, t: nat, w: World, r: ServiceModel.Request,
                              w': World)
      returns (s': State)
    requires r.AddConsumer? || r.DisconnectConsumer?
    requires Models(s, w) && t !in s.calls && Accepted(limits, w, r, w')
    ensures EndsIn(limits.maxInFlight, s, t, r, w', s')
  {
    hide Reaches, ServiceModel.MarkAllReady, Owned, Join, IsReturnOrder;
    if r.AddConsumer? {
      s' := Put(s, r.key, Join(s.mem[r.key], r.consumer));
      JoinCall(limits.maxInFlight, s, t, r.key, r.consumer);
    } else {
      var n: nat := |r.returned|;
      assert r.returned[..|r.returned|] == r.returned;
      if w' != ServiceModel.Serve(limits, w, r) {
        n :| n <= |r.returned|
             && w' == ServiceModel.Serve(limits, w, r).(db := ServiceModel.MarkAllReady(w.db, r.returned[..n]));
      }
      s' := DisconnectCall(limits.maxInFlight, s, t, r.key, r.consumer, r.returned, n);
    }
  }

  lemma TransientsAreStretches(limits: ServiceModel.Limits, s: State, t: nat, w: World, r: ServiceModel.Request,
                               w': World)
      returns (s': State)
    requires (r.RegisterQueue? || r.DeleteQueue?) && KeepsTopology(w, r)
    requires Models(s, w) && Accepted(limits, w, r, w')
    ensures EndsIn(limits.maxInFlight, s, t, r, w', s')
  {
    hide Reaches, ServiceModel.Registrable, ServiceModel.SameFilters;
    if r.DeleteQueue? {
      s' := s.(mem := s.mem - {r.key});
      DropCall(limits.maxInFlight, s, t, r.key);
    } else if r.key in s.mem {
      s' := s;
      Stays(limits.maxInFlight, Client(t), s);
      assert w.queues[r.key := w.queues[r.key]] == w.queues;
    } else {
      s' := Put(s, r.key, NewQueue(r.key.name, false, r.autoDelete, r.maxAttempts, r.filters));
      AddCall(limits.maxInFlight, s, t, r.key, r.autoDelete, r.maxAttempts, r.filters);
    }
  }

  lemma RouteIsServable(limits: ServiceModel.Limits, s: State, w: World, r: ServiceModel.Request)
    requires r.Publish? && Models(s, w) && ServiceModel.Accepts(limits, w, r) && AreNew(s.h.home, r.mints)
    ensures forall n: nat :: n <= |r.order| && ServiceFaults.AdmitsRows(w, r.order[..n]) ==>
      CanServe(s, w, r.order, r.mints, n)
  {
    hide Live, AreNew, Routing.IsValidKey;
    forall n: nat | n <= |r.order| && ServiceFaults.AdmitsRows(w, r.order[..n])
      ensures CanServe(s, w, r.order, r.mints, n)
    {
      forall i | 0 <= i < n && w.queues[r.order[i]].durable ensures r.order[i] in w.db.queues {
        assert r.order[..n][i] == r.order[i];
      }
    }
  }

  lemma OneMoreIsServable(s: State, w: World, order: seq<QueueKey>, mints: seq<Mint>, n: nat)
    requires CanServe(s, w, order, mints, n) && n < |order| && order[n] in w.db.queues
    ensures CanServe(s, w, order, mints, n + 1)
  {
    hide AreNew;
  }

  lemma PublishOutcomes(limits: ServiceModel.Limits, w: World, r: ServiceModel.Request, w': World)
    requires r.Publish? && Accepted(limits, w, r, w')
    ensures Routing.IsValidKey(r.message.routingKey) && IsRoute(w.queues, r.exchange, r.message.routingKey, r.order)
    ensures |r.order| <= |r.mints| && forall k :: k in r.order ==> k in w.queues
    ensures || (ServiceFaults.AdmitsRows(w, r.order) && w' == ServiceModel.OfferAll(w, r.order, r.message, r.mints))
            || exists n: nat :: ServiceFaults.BrokenPublish(w, r.order, r.message, r.mints, n, w')
  {
    hide Routing.IsValidKey, ServiceModel.OfferAll, ServiceModel.AreFresh, ServiceFaults.AdmitsRows, Routing.MatchesAny;
    hide ServiceFaults.BrokenPublish;
  }

  lemma PublishIsStretch(limits: ServiceModel.Limits, s: State, t: nat, w: World, r: ServiceModel.Request, w': World)
      returns (s': State)
    requires r.Publish? && Models(s, w) && t !in s.calls && Accepted(limits, w, r, w') && AreNew(s.h.home, r.mints)
    ensures EndsIn(limits.maxInFlight, s, t, r, w', s')
  {
    PublishOutcomes(limits, w, r, w');
    RouteIsServable(limits, s, w, r) by { hide Models, AreNew, ServiceFaults.Admits, ServiceFaults.Broken; }
    hide Accepted, Reaches, AreNew, IsRoute, Routing.IsValidKey, CanServe, ServiceModel.OfferAll, MintsFrom;
    hide ServiceFaults.BrokenPublish, ServiceFaults.AdmitsRows;
    if ServiceFaults.AdmitsRows(w, r.order) && w' == ServiceModel.OfferAll(w, r.order, r.message, r.mints) {
      assert r.order[..|r.order|] == r.order;
      s' := PublishCall(limits.maxInFlight, s, t, w, r.exchange, r.order, r.message, r.mints);
    } else {
      var n: nat :| ServiceFaults.BrokenPublish(w, r.order, r.message, r.mints, n, w');
      s' := BrokenIsStretch(limits.maxInFlight, s, t, w, r, n, w');
    }
  }

  lemma BrokenIsStretch(limit: int, s: State, t: nat, w: World, r: ServiceModel.Request, n: nat, w': World)
      returns (s': State)
    requires r.Publish? && Models(s, w) && t !in s.calls
    requires Routing.IsValidKey(r.message.routingKey) && IsRoute(w.queues, r.exchange, r.message.routingKey, r.order)
    requires |r.order| <= |r.mints| && forall k :: k in r.order ==> k in w.queues
    requires ServiceFaults.BrokenPublish(w, r.order, r.message, r.mints, n, w')
    requires ServiceFaults.AdmitsRows(w, r.order[..n]) ==> CanServe(s, w, r.order, r.mints, n)
    ensures EndsIn(limit, s, t, r, w', s')
  {
    hide Reaches, IsRoute, Routing.IsValidKey, CanServe, ServiceModel.OfferAll, MintsFrom, ServiceFaults.AdmitsRows;
    hide SaveReadyDelivery;
    var stored := w' != ServiceModel.OfferAll(w, r.order[..n], r.message, r.mints);
    if stored { OneMoreIsServable(s, w, r.order, r.mints, n); }
    s' := BrokenPublishCall(limit, s, t, w, r.exchange, r.order, r.message, r.mints, n, stored);
  }

  lemma SameWorldIsStretch(limits: ServiceModel.Limits, s: State, t: nat, w: World, r: ServiceModel.Request)
    requires Models(s, w)
    ensures EndsIn(limits.maxInFlight, s, t, r, w, s)
  {
    Stays(limits.maxInFlight, Client(t), s);
  }

  lemma QueueIsWellFormed(limits: ServiceModel.Limits, s: State, w: World, r: ServiceModel.Request)
    requires Inv(s) && Models(s, w) && r.NAck? && ServiceModel.Accepts(limits, w, r)
    ensures r.key in w.queues && WellFormed(w.queues[r.key])
  {
    hide Live;
    assert QueueOk(s.db, s.h.home, r.key, s.mem[r.key]);
  }

  lemma AcceptedIsStretch(limits: ServiceModel.Limits, s: State, t: nat, w: World, r: ServiceModel.Request, w': World)
      returns (s': State)
    requires Inv(s) && Models(s, w) && t !in s.calls && KeepsTopology(w, r) && AreNew(s.h.home, MintsOf(r))
    requires Accepted(limits, w, r, w')
    ensures EndsIn(limits.maxInFlight, s, t, r, w', s')
  {
    hide EndsIn, AreNew, Inv, Models, ServiceModel.Accepts, ServiceModel.Serve, ServiceFaults.Broken, WellFormed;
    hide ServiceFaults.Admits, ServiceFaults.CallsRepository;
    match r
    case Publish(_, _, _, _) => s' := PublishIsStretch(limits, s, t, w, r, w');
    case Fetch(_, _) => s' := FetchIsStretch(limits, s, t, w, r, w');
    case Ack(_, _, _) => s' := AckIsStretch(limits, s, t, w, r, w');
    case NAck(_, _, _, _) =>
      QueueIsWellFormed(limits, s, w, r);
      s' := NAckIsStretch(limits, s, t, w, r, w');
    case AddConsumer(_, _) => s' := ConsumersAreStretches(limits, s, t, w, r, w');
    case DisconnectConsumer(_, _, _) => s' := ConsumersAreStretches(limits, s, t, w, r, w');
    case RegisterQueue(_, _, _, _, _) => s' := TransientsAreStretches(limits, s, t, w, r, w');
    case DeleteQueue(_) => s' := TransientsAreStretches(limits, s, t, w, r, w');
  }

  /** On fixed exchanges and durable queues, every outcome of a complete call, whether it was refused, served or broken
      off by a failing repository call, is a stretch of the concurrent system: the call's own steps lead from any
      reachable state to one with the memory and the database that the call left behind. */
  lemma CallIsStretch(limits: ServiceModel.Limits, states: seq<State>, steps: seq<Step>, t: nat, w: World,
                      r: ServiceModel.Request, outcome: Outcome, w': World)
                        returns (longer: seq<State>, path: seq<Step>)
    requires IsRun(states, limits.maxInFlight, steps)
    requires var s := states[|steps|]; Models(s, w) && t !in s.calls && AreNew(s.h.home, MintsOf(r))
    requires KeepsTopology(w, r) && ServiceFaults.Leads(limits, w, r, outcome, w')
    ensures IsRun(longer, limits.maxInFlight, path) && states <= longer && steps <= path
    ensures forall i :: |steps| <= i < |path| ==> IsOf(path[i], Client(t))
    ensures var s, s' := states[|steps|], longer[|path|];
      Models(s', w') && s'.calls == s.calls && MintsFrom(s.h.home, s'.h.home, MintsOf(r))
  {
    var s, s' := states[|steps|], states[|steps|];
    hide *;
    RunKeepsInv(states, limits.maxInFlight, steps, |steps|);
    UnchangedOrAccepted(limits, w, r, outcome, w');
    if Accepted(limits, w, r, w') {
      s' := AcceptedIsStretch(limits, s, t, w, r, w');
    } else {
      SameWorldIsStretch(limits, s, t, w, r);
    }
    longer, path := EndExtendsRun(states, limits.maxInFlight, steps, t, r, w', s');
  }

  lemma EndExtendsRun(states: seq<State>, limit: int, steps: seq<Step>, t: nat, r: ServiceModel.Request, w': World,
                      s': State) returns (longer: seq<State>, path: seq<Step>)
    requires IsRun(states, limit, steps) && EndsIn(limit, states[|steps|], t, r, w', s')
    ensures IsRun(longer, limit, path) && states <= longer && steps <= path
    ensures forall i :: |steps| <= i < |path| ==> IsOf(path[i], Client(t))
    ensures longer[|path|] == s' && Models(s', w') && s'.calls == states[|steps|].calls
    ensures MintsFrom(states[|steps|].h.home, s'.h.home, MintsOf(r))
  {
    hide Reaches, IsOf, Enabled, Apply, Init, Models, MintsFrom;
    longer, path := StretchExtendsRun(states, limit, steps, Client(t), s');
  }
}
