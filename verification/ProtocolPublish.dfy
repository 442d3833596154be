/** What a successful publish confirms: exactly one delivery for each durable queue of its route. */
module ProtocolPublish {
  import opened Types
  import opened QueueModel
  import opened Tables
  import opened Ledger
  import opened Protocol
  import opened ProtocolInvariant
  import opened ProtocolSteps
  import opened ProtocolFrames

  /** One of `ids` is a delivery of queue `k`. */
  ghost predicate Confirms(s: State, ids: set<Id>, k: QueueKey) {
    exists id :: id in ids && Maps(s.h.home, id, k)
  }

  /** `ids` are deliveries of the durable queues in `route`, one for each. */
  ghost predicate OnePerDurable(s: State, ids: set<Id>, route: seq<QueueKey>) {
    && (forall id :: id in ids ==> id in s.h.home && s.h.home[id] in route && s.h.home[id] in s.db.queues)
    && (forall k :: k in route && k in s.db.queues ==> Confirms(s, ids, k))
    && (forall a, b :: a in ids && b in ids && s.h.home[a] == s.h.home[b] ==> a == b)
  }

  /** Call `c` is a publish on its way through `route`, with a delivery for each durable queue it has passed. */
  ghost predicate OnRoute(s: State, c: Call, route: seq<QueueKey>, n: nat) {
    match c
    case Publishing(todo, _, ids) => n <= |route| && todo == route[n..] && OnePerDurable(s, ids, route[..n])
    case Saved(key, d, todo, _, ids) =>
      && n < |route| && key == route[n] && todo == route[n + 1..] && d.id in ids
      && OnePerDurable(s, ids, route[..n + 1])
    case _ => false
  }

  ghost predicate IsOnRoute(s: State, t: nat, route: seq<QueueKey>) {
    t in s.calls && exists n: nat :: OnRoute(s, s.calls[t], route, n)
  }

  ghost predicate IsPublish(s: State, t: nat) {
    t in s.calls && (s.calls[t].Publishing? || s.calls[t].Saved?)
  }

  ghost predicate SameHome(s: State, s': State) {
    Extends(s.h.home, s'.h.home) && SameTopology(s, s')
  }

  ghost predicate Distinct(route: seq<QueueKey>) {
    forall i, j :: 0 <= i < j < |route| ==> route[i] != route[j]
  }

  // ---------------------------------------------------------------- one step

  lemma OnRouteFrame(s: State, s': State, c: Call, route: seq<QueueKey>)
    requires SameHome(s, s') && exists n: nat :: OnRoute(s, c, route, n)
    ensures exists n: nat :: OnRoute(s', c, route, n)
  {
    var n: nat :| OnRoute(s, c, route, n);
    var ids := c.ids;
    var passed := if c.Publishing? then route[..n] else route[..n + 1];
    OnePerDurableFrame(s, s', ids, passed);
    assert OnRoute(s', c, route, n);
  }

  lemma OnePerDurableFrame(s: State, s': State, ids: set<Id>, route: seq<QueueKey>)
    requires SameHome(s, s') && OnePerDurable(s, ids, route)
    ensures OnePerDurable(s', ids, route)
  {
    hide Confirms;
    assert forall id :: id in ids ==> id in s'.h.home && s'.h.home[id] == s.h.home[id];
    forall k | k in route && k in s'.db.queues ensures Confirms(s', ids, k) { ConfirmsFrame(s, s', ids, ids, k); }
  }

  lemma ConfirmsFrame(s: State, s': State, ids: set<Id>, ids': set<Id>, k: QueueKey)
    requires SameHome(s, s') && Confirms(s, ids, k) && ids <= ids'
    ensures Confirms(s', ids', k)
  {
    var id :| id in ids && Maps(s.h.home, id, k);
    assert Maps(s'.h.home, id, k);
  }

  /** A queue that is not durable is passed without a delivery to confirm. */
  lemma PassTransient(s: State, ids: set<Id>, route: seq<QueueKey>, n: nat)
    requires n < |route| && OnePerDurable(s, ids, route[..n]) && route[n] !in s.db.queues
    ensures OnePerDurable(s, ids, route[..n + 1])
  {
    hide Confirms;
    assert route[..n + 1] == route[..n] + [route[n]];
  }

  lemma PassDurable(s: State, ids: set<Id>, route: seq<QueueKey>, n: nat, id: Id)
    requires n < |route| && Distinct(route) && OnePerDurable(s, ids, route[..n])
    requires route[n] in s.db.queues && Maps(s.h.home, id, route[n])
    ensures OnePerDurable(s, ids + {id}, route[..n + 1])
  {
    assert route[..n + 1] == route[..n] + [route[n]];
    assert route[n] !in route[..n];
    assert Confirms(s, ids + {id}, route[n]);
    hide Confirms;
    forall k | k in route[..n] && k in s.db.queues
      ensures Confirms(s, ids + {id}, k) { ConfirmsFrame(s, s, ids, ids + {id}, k); }
  }

  lemma StoredIfDurable(s: State, key: QueueKey)
    requires Inv(s) && key in s.mem
    ensures s.mem[key].durable <==> key in s.db.queues
  {
    assert QueueOk(s.db, s.h.home, key, s.mem[key]);
  }

  lemma SaveKeepsRoute(s: State, t: nat, id: Id, now: nat, route: seq<QueueKey>)
    requires Inv(s) && CanOffer(s, t, id, true) && Distinct(route) && IsOnRoute(s, t, route)
    ensures IsOnRoute(DoPublishSave(s, t, id, now, Success), t, route)
  {
    hide Inv;
    var s', c := DoPublishSave(s, t, id, now, Success), s.calls[t];
    var n: nat :| OnRoute(s, c, route, n);
    StoredIfDurable(s, c.todo[0]);
    assert SameHome(s, s');
    OnePerDurableFrame(s, s', c.ids, route[..n]);
    PassDurable(s', c.ids, route, n, id);
    assert OnRoute(s', s'.calls[t], route, n);
  }

  lemma TransientKeepsRoute(s: State, t: nat, id: Id, route: seq<QueueKey>)
    requires Inv(s) && CanOffer(s, t, id, false) && Distinct(route) && IsOnRoute(s, t, route)
    ensures IsOnRoute(DoPublishTransient(s, t, id), t, route)
  {
    hide Inv;
    var s', c := DoPublishTransient(s, t, id), s.calls[t];
    var n: nat :| OnRoute(s, c, route, n);
    StoredIfDurable(s, c.todo[0]);
    assert SameHome(s, s');
    OnePerDurableFrame(s, s', c.ids, route[..n]);
    PassTransient(s', c.ids, route, n);
    assert OnRoute(s', s'.calls[t], route, n + 1);
  }

  lemma EnqueueKeepsRoute(s: State, t: nat, route: seq<QueueKey>)
    requires IsOnRoute(s, t, route) && s.calls[t].Saved? && s.calls[t].key in s.mem
    ensures IsOnRoute(DoPublishEnqueue(s, t), t, route)
  {
    var s', c := DoPublishEnqueue(s, t), s.calls[t];
    var n: nat :| OnRoute(s, c, route, n);
    assert OnRoute(s', s'.calls[t], route, n + 1);
  }

  /** Steps of other calls leave a publish where it is. */
  lemma OthersLeaveCall(s: State, limit: int, step: Step, t: nat)
    requires Enabled(s, limit, step) && IsPublish(Apply(s, limit, step), t)
    requires !step.PublishTransient? && !step.PublishSave? && !step.PublishEnqueue?
    ensures
      if step.BeginPublish? && step.t == t
      then Apply(s, limit, step).calls[t] == Publishing(step.todo, step.message, {})
            else t in s.calls && Apply(s, limit, step).calls[t] == s.calls[t]
  {
    hide Enabled, Apply, SameTopology;
    if IsPublishing(step) {
      BeginningsAndEnds(s, limit, step, t);
    } else if IsSettling(step) {
      SettlingSteps(s, limit, step);
    } else if IsQuiet(step) {
      QuietSteps(s, limit, step);
    } else {
      RestartingSteps(s, limit, step);
    }
  }

  lemma BeginningsAndEnds(s: State, limit: int, step: Step, t: nat)
    requires Enabled(s, limit, step) && IsPublish(Apply(s, limit, step), t)
    requires step.BeginPublish? || step.PublishMissing? || step.PublishDone?
    ensures
      if step.BeginPublish? && step.t == t
      then Apply(s, limit, step).calls[t] == Publishing(step.todo, step.message, {})
            else t in s.calls && Apply(s, limit, step).calls[t] == s.calls[t]
  {
    hide IsRoute;
  }

  lemma PublishStepsLeaveCall(s: State, limit: int, step: Step, t: nat)
    requires Enabled(s, limit, step) && IsPublish(Apply(s, limit, step), t)
    requires step.PublishTransient? || step.PublishSave? || step.PublishEnqueue?
    ensures t in s.calls && IsPublish(s, t)
    ensures step.t != t ==> Apply(s, limit, step).calls[t] == s.calls[t]
    ensures step.t == t && step.PublishSave? ==> step.reply.Success?
  {
  }

  lemma StepSameHome(s: State, limit: int, step: Step)
    requires Enabled(s, limit, step)
    ensures SameHome(s, Apply(s, limit, step))
  {
    hide Enabled, Apply, OldCalls;
    if IsPublishing(step) {
      PublishingSteps(s, limit, step);
    } else if IsSettling(step) {
      SettlingSteps(s, limit, step);
    } else if IsQuiet(step) {
      QuietSteps(s, limit, step);
    } else {
      RestartingSteps(s, limit, step);
    }
  }

  lemma StepKeepsRoute(s: State, limit: int, step: Step, t: nat, route: seq<QueueKey>)
    requires Inv(s) && Enabled(s, limit, step) && Distinct(route) && IsPublish(Apply(s, limit, step), t)
    requires IsOnRoute(s, t, route) && !(step.BeginPublish? && step.t == t)
    ensures IsOnRoute(Apply(s, limit, step), t, route)
  {
    StepSameHome(s, limit, step);
    if step.PublishTransient? || step.PublishSave? || step.PublishEnqueue? {
      PublishStepsLeaveCall(s, limit, step, t);
      if step.t == t {
        OwnStepKeepsRoute(s, limit, step, route);
      } else {
        OnRouteFrame(s, Apply(s, limit, step), s.calls[t], route);
      }
    } else {
      OthersLeaveCall(s, limit, step, t);
      OnRouteFrame(s, Apply(s, limit, step), s.calls[t], route);
    }
  }

  lemma OwnStepKeepsRoute(s: State, limit: int, step: Step, route: seq<QueueKey>)
    requires Inv(s) && Enabled(s, limit, step) && (step.PublishTransient? || step.PublishSave? || step.PublishEnqueue?)
    requires Distinct(route) && IsOnRoute(s, step.t, route) && (step.PublishSave? ==> step.reply.Success?)
    ensures IsOnRoute(Apply(s, limit, step), step.t, route)
  {
    hide Inv, IsOnRoute, DoPublishTransient, DoPublishSave, DoPublishEnqueue;
    match step
    case PublishTransient(t, id) => TransientKeepsRoute(s, t, id, route);
    case PublishSave(t, id, now, reply) => SaveKeepsRoute(s, t, id, now, route);
    case PublishEnqueue(t) => EnqueueKeepsRoute(s, t, route);
  }

  // ---------------------------------------------------------------- whole runs

  lemma Begins(s: State, t: nat, route: seq<QueueKey>)
    requires t in s.calls && s.calls[t].Publishing? && s.calls[t].todo == route && s.calls[t].ids == {}
    ensures IsOnRoute(s, t, route)
  {
    assert route[..0] == [] && route[0..] == route;
    assert OnRoute(s, s.calls[t], route, 0);
  }

  lemma WasPublish(s: State, limit: int, step: Step, t: nat)
    requires Enabled(s, limit, step) && IsPublish(Apply(s, limit, step), t)
    ensures if step.BeginPublish? && step.t == t then
              Distinct(step.todo) && Apply(s, limit, step).calls[t] == Publishing(step.todo, step.message, {})
            else IsPublish(s, t)
  {
    if step.PublishTransient? || step.PublishSave? || step.PublishEnqueue? {
      PublishStepsLeaveCall(s, limit, step, t);
    } else {
      OthersLeaveCall(s, limit, step, t);
      hide Apply;
    }
  }

  /** Every publish in progress goes back to the step that routed it, and is on that route. */
  lemma {:induction false} PublishIsOnRoute(states: seq<State>, limit: int, steps: seq<Step>, i: nat,
                                            t: nat) returns (j: nat)
    requires IsRun(states, limit, steps) && i < |states| && IsPublish(states[i], t)
    ensures j < i && steps[j].BeginPublish? && steps[j].t == t && Distinct(steps[j].todo)
    ensures IsOnRoute(states[i], t, steps[j].todo)
  {
    hide Enabled, Apply, Inv, Distinct;
    assert i > 0;
    hide IsOnRoute;
    var s, step := states[i - 1], steps[i - 1];
    WasPublish(s, limit, step, t);
    if step.BeginPublish? && step.t == t {
      j := i - 1;
      Begins(states[i], t, step.todo);
    } else {
      j := PublishIsOnRoute(states, limit, steps, i - 1, t);
      RunKeepsInv(states, limit, steps, i - 1);
      StepKeepsRoute(s, limit, step, t, steps[j].todo);
    }
  }

  lemma {:induction false} QueuesStay(states: seq<State>, limit: int, steps: seq<Step>, i: nat, j: nat)
    requires IsRun(states, limit, steps) && i <= j < |states|
    ensures states[j].db.queues == states[i].db.queues
    decreases j
  {
    hide Enabled, Apply;
    if i < j {
      QueuesStay(states, limit, steps, i, j - 1);
      StepSameHome(states[j - 1], limit, steps[j - 1]);
    }
  }

  lemma Routed(s: State, limit: int, step: Step)
    requires Inv(s) && Enabled(s, limit, step) && step.BeginPublish?
    ensures IsRoute(s.mem, step.exchange, step.message.routingKey, step.todo)
    ensures forall k :: k in step.todo ==> k in s.mem && (s.mem[k].durable <==> k in s.db.queues)
  {
    forall k | k in step.todo ensures k in s.mem && (s.mem[k].durable <==> k in s.db.queues) {
      assert QueueOk(s.db, s.h.home, k, s.mem[k]);
    }
  }

  lemma Done(s: State, limit: int, step: Step, route: seq<QueueKey>)
    requires Inv(s) && Enabled(s, limit, step) && step.PublishDone? && IsOnRoute(s, step.t, route)
    ensures var ids := s.calls[step.t].ids;
      && OnePerDurable(s, ids, route) && ids <= s.h.saved.Keys
      && Apply(s, limit, step).h.confirmed == s.h.confirmed + ids
  {
    var c := s.calls[step.t];
    assert CallOk(LedgerOf(s), c);
    DoneSteps(s, limit, step);
    hide Inv, Enabled, Apply, OnePerDurable;
    var n: nat :| OnRoute(s, c, route, n);
    assert |route[n..]| == 0;
    assert route[..n] == route;
  }

  lemma DoneSteps(s: State, limit: int, step: Step)
    requires Enabled(s, limit, step) && step.PublishDone?
    ensures AtPublish(s, step.t) && s.calls[step.t].todo == []
    ensures Apply(s, limit, step).h.confirmed == s.h.confirmed + s.calls[step.t].ids
  {
  }

  /** A publish that succeeds confirms exactly one stored delivery for each durable queue it was routed to, and
      nothing else; its route is the matching queues at the time it began. */
  lemma ConfirmsItsRoute(states: seq<State>, limit: int, steps: seq<Step>, i: nat) returns (j: nat)
    requires IsRun(states, limit, steps) && i < |steps| && steps[i].PublishDone?
    ensures j < i && steps[j].BeginPublish? && steps[j].t == steps[i].t && steps[i].t in states[i].calls
    ensures IsRoute(states[j].mem, steps[j].exchange, steps[j].message.routingKey, steps[j].todo)
    ensures forall k :: k in steps[j].todo ==>
      k in states[j].mem && (states[j].mem[k].durable <==> k in states[i].db.queues)
    ensures IsPublish(states[i], steps[i].t)
    ensures var ids := states[i].calls[steps[i].t].ids;
      && OnePerDurable(states[i], ids, steps[j].todo) && ids <= states[i].h.saved.Keys
      && states[i + 1].h.confirmed == states[i].h.confirmed + ids
  {
    var s, step := states[i], steps[i];
    assert Enabled(s, limit, step) && states[i + 1] == Apply(s, limit, step);
    assert IsPublish(s, step.t);
    hide Enabled, Apply, Inv, Distinct, IsOnRoute, OnePerDurable, IsRoute;
    RunKeepsInv(states, limit, steps, i);
    j := PublishIsOnRoute(states, limit, steps, i, step.t);
    RunKeepsInv(states, limit, steps, j);
    Routed(states[j], limit, steps[j]);
    QueuesStay(states, limit, steps, j, i);
    Done(s, limit, step, steps[j].todo);
  }
}
