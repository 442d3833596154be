/** One queue over a whole process run: every sequence of its locked operations, in any
    order, by any consumers, with waiting fetches. Each operation is recorded, and what the
    queue guarantees is stated against that record. */
module QueueRuns {
  import opened Types
  import opened QueueModel

  /** entered:  deliveries put in the queue, with the attempts they came with;
      fetches, requeues, handbacks: how often each was fetched, requeued by a NAck, handed back by a disconnect;
      acked, dead: deliveries that left the queue for good;
      waiters:  the notify channel each waiting fetch got when it found the queue empty. */
  datatype Record = Record(
    q: QueueState,
    entered: map<Id, nat>,
    fetches: map<Id, nat>,
    requeues: map<Id, nat>,
    handbacks: map<Id, nat>,
    acked: set<Id>,
    dead: set<Id>,
    waiters: map<nat, nat>)

  datatype Event =
    | Enqueued(d: Delivery)
    | Fetched(c: string)
    | WaitBegan(w: nat, c: string)
    | WaitEnded(w: nat)
    | Acked(id: Id, c: string)
    | Nacked(id: Id, c: string)
    | Joined(c: string)
    | Disconnected(c: string, returned: seq<Delivery>)

  function Bump(m: map<Id, nat>, id: Id): map<Id, nat> {
    m[id := (if id in m then m[id] else 0) + 1]
  }

  function Count(m: map<Id, nat>, id: Id): nat {
    if id in m then m[id] else 0
  }

  ghost predicate Enabled(r: Record, limit: int, e: Event) {
    match e
    case Enqueued(d) => d.id !in r.entered
    case Fetched(c) => CanFetch(r.q, c, limit)
    case WaitBegan(w, c) => w !in r.waiters && !CanFetch(r.q, c, limit) && FetchError(r.q, c, limit) == QueueEmpty
    case WaitEnded(w) => w in r.waiters
    case Acked(id, c) => Owns(r.q, id, c)
    case Nacked(id, c) => Owns(r.q, id, c)
    case Joined(c) => true
    case Disconnected(c, returned) => IsReturnOrder(r.q, c, returned)
  }

  ghost function Apply(r: Record, limit: int, e: Event): Record
    requires Enabled(r, limit, e)
  {
    match e
    case Enqueued(d) => r.(q := Enqueue(r.q, d), entered := r.entered[d.id := d.attempts])
    case Fetched(c) => r.(q := Fetch(r.q, c), fetches := Bump(r.fetches, r.q.ready[0].id))
    case WaitBegan(w, c) => r.(waiters := r.waiters[w := r.q.channels.current])
    case WaitEnded(w) => r.(waiters := r.waiters - {w})
    case Acked(id, c) => r.(q := Settle(r.q, id), acked := r.acked + {id})
    case Nacked(id, c) =>
      if GivesUp(r.q, r.q.inFlight[id]) then r.(q := Settle(r.q, id), dead := r.dead + {id})
      else r.(q := Requeue(r.q, id), requeues := Bump(r.requeues, id))
    case Joined(c) => r.(q := Join(r.q, c))
    case Disconnected(c, returned) =>
      r.(q := Disconnect(r.q, c, returned),
         handbacks := map id | id in r.handbacks.Keys + Owned(r.q, c) ::
           Count(r.handbacks, id) + if id in Owned(r.q, c) then 1 else 0)
  }

  ghost predicate Fresh(r: Record) {
    && r.q.ready == [] && r.q.inFlight == map[] && r.q.consumers == {}
    && r.entered == map[] && r.fetches == map[] && r.requeues == map[] && r.handbacks == map[]
    && r.acked == {} && r.dead == {} && r.waiters == map[] && r.q.channels == NO_CHANNELS_CLOSED
  }

  ghost predicate IsRun(records: seq<Record>, limit: int, events: seq<Event>) {
    && |records| == |events| + 1
    && Fresh(records[0])
    && forall i :: 0 <= i < |events| ==>
         Enabled(records[i], limit, events[i]) && records[i + 1] == Apply(records[i], limit, events[i])
  }

  // ---------------------------------------------------------------- the invariant

  ghost predicate IsReady(q: QueueState, id: Id) {
    id in Live(q) && id !in q.inFlight
  }

  /** Entered deliveries are live, acknowledged or dead, and only one of these. */
  ghost predicate PlaceOk(r: Record, id: Id) {
    && (id in r.entered <==> id in Live(r.q) || id in r.acked || id in r.dead)
    && !(id in Live(r.q) && id in r.acked) && !(id in Live(r.q) && id in r.dead) && !(id in r.acked && id in r.dead)
  }

  /** Attempts count fetches; every fetch but the last ended in a requeue or a handback. */
  ghost predicate CountsOk(r: Record, id: Id) {
    && (id in Live(r.q) && id in r.entered ==> Live(r.q)[id].attempts == r.entered[id] + Count(r.fetches, id))
    && Count(r.fetches, id) == Count(r.requeues, id) + Count(r.handbacks, id) +
         (if id in r.entered && !IsReady(r.q, id) then 1 else 0)
    && (id !in r.entered ==> Count(r.fetches, id) == 0)
  }

  /** The retry limit leaves at most this many requeues to a delivery that came with `attempts`. */
  function RetriesLeft(maxAttempts: int, attempts: nat): nat {
    if maxAttempts - 1 - attempts > 0 then maxAttempts - 1 - attempts else 0
  }

  ghost predicate RetriesOk(r: Record, id: Id) {
    r.q.maxAttempts > 0 && id in r.entered ==> Count(r.requeues, id) <= RetriesLeft(r.q.maxAttempts, r.entered[id])
  }

  ghost predicate EntryOk(r: Record, id: Id) {
    PlaceOk(r, id) && CountsOk(r, id) && RetriesOk(r, id)
  }

  ghost predicate OwnersOk(r: Record, limit: int) {
    && (forall id :: id in r.q.inFlight ==> r.q.inFlight[id].consumer in r.q.consumers)
    && (limit > 0 ==> forall c :: |Owned(r.q, c)| <= limit)
  }

  /** No close has hit a closed channel, nor will the next one; a waiter holds the current channel or a closed
      one; and if its channel is still open it waits for good reason: the queue is empty. */
  ghost predicate WaitersOk(r: Record) {
    && ChannelsOk(r.q.channels)
    && forall w :: w in r.waiters && r.waiters[w] !in r.q.channels.closed ==>
         r.waiters[w] == r.q.channels.current && r.q.ready == []
  }

  ghost predicate Inv(r: Record, limit: int) {
    && WellFormed(r.q)
    && (forall id :: EntryOk(r, id))
    && OwnersOk(r, limit) && WaitersOk(r)
  }

  // ---------------------------------------------------------------- every operation keeps it

  lemma ReadyAndLive(q: QueueState)
    requires WellFormed(q)
    ensures forall id :: IsReady(q, id) <==> exists i :: 0 <= i < |q.ready| && q.ready[i].id == id
    ensures forall id :: id in q.inFlight ==> id in Live(q) && Live(q)[id] == q.inFlight[id]
  {
    ReadyMapKeys(q.ready);
  }

  /** Operations on other deliveries leave an entry alone. */
  lemma EntryFrame(r: Record, r': Record, id: Id)
    requires EntryOk(r, id) && r'.q.maxAttempts == r.q.maxAttempts
    requires (id in Live(r.q) <==> id in Live(r'.q)) && (id in r.q.inFlight <==> id in r'.q.inFlight)
    requires id in Live(r.q) ==> Live(r.q)[id].attempts == Live(r'.q)[id].attempts
    requires (id in r.entered <==> id in r'.entered) && (id in r.entered ==> r.entered[id] == r'.entered[id])
    requires (id in r.acked <==> id in r'.acked) && (id in r.dead <==> id in r'.dead)
    requires Count(r.fetches, id) == Count(r'.fetches, id) && Count(r.requeues, id) == Count(r'.requeues, id)
    requires Count(r.handbacks, id) == Count(r'.handbacks, id)
    ensures EntryOk(r', id)
  {
  }

  lemma OwnedShrinks(q: QueueState, q': QueueState, limit: int)
    requires limit > 0 ==> forall c :: |Owned(q, c)| <= limit
    requires forall id :: id in q'.inFlight ==> id in q.inFlight && q'.inFlight[id] == q.inFlight[id]
    ensures limit > 0 ==> forall c :: |Owned(q', c)| <= limit
  {
    forall c | limit > 0 ensures |Owned(q', c)| <= limit { SubsetSize(Owned(q', c), Owned(q, c)); }
  }

  lemma KeepEnqueue(r: Record, limit: int, d: Delivery)
    requires Inv(r, limit) && d.id !in r.entered
    ensures Inv(Apply(r, limit, Enqueued(d)), limit)
  {
    var r' := Apply(r, limit, Enqueued(d));
    assert EntryOk(r, d.id);
    ReadyAndLive(r.q);
    EnqueueLive(r.q, d);
    forall id ensures EntryOk(r', id) {
      assert EntryOk(r, id);
      if id != d.id { EntryFrame(r, r', id); }
    }
    OwnedShrinks(r.q, r'.q, limit);
  }

  lemma KeepFetch(r: Record, limit: int, c: string)
    requires Inv(r, limit) && CanFetch(r.q, c, limit)
    ensures Inv(Apply(r, limit, Fetched(c)), limit)
  {
    var r' := Apply(r, limit, Fetched(c));
    var head := r.q.ready[0].id;
    FetchLive(r.q, c);
    forall id ensures EntryOk(r', id) {
      assert EntryOk(r, id);
      if id != head { EntryFrame(r, r', id); }
    }
    FetchOwned(r.q, c, limit);
  }

  lemma FetchOwned(q: QueueState, c: string, limit: int)
    requires WellFormed(q) && CanFetch(q, c, limit)
    requires limit > 0 ==> forall x :: |Owned(q, x)| <= limit
    ensures limit > 0 ==> forall x :: |Owned(Fetch(q, c), x)| <= limit
  {
    forall x | limit > 0 ensures |Owned(Fetch(q, c), x)| <= limit { FetchOwnedAt(q, c, limit, x); }
  }

  lemma FetchOwnedAt(q: QueueState, c: string, limit: int, x: string)
    requires WellFormed(q) && CanFetch(q, c, limit) && limit > 0 && |Owned(q, x)| <= limit
    ensures |Owned(Fetch(q, c), x)| <= limit
  {
    if x == c {
      assert Owned(Fetch(q, c), c) == Owned(q, c) + {q.ready[0].id};
    } else {
      assert Owned(Fetch(q, c), x) == Owned(q, x);
    }
  }

  lemma KeepSettle(r: Record, limit: int, e: Event)
    requires Inv(r, limit) && Enabled(r, limit, e)
    requires e.Acked? || (e.Nacked? && GivesUp(r.q, r.q.inFlight[e.id]))
    ensures Inv(Apply(r, limit, e), limit)
  {
    var r' := Apply(r, limit, e);
    ReadyAndLive(r.q);
    SettleLive(r.q, e.id);
    forall id ensures EntryOk(r', id) {
      assert EntryOk(r, id);
      if id != e.id { EntryFrame(r, r', id); }
    }
    OwnedShrinks(r.q, r'.q, limit);
  }

  lemma KeepRequeue(r: Record, limit: int, id: Id, c: string)
    requires Inv(r, limit) && Owns(r.q, id, c) && !GivesUp(r.q, r.q.inFlight[id])
    ensures Inv(Apply(r, limit, Nacked(id, c)), limit)
  {
    var r' := Apply(r, limit, Nacked(id, c));
    RequeueEntries(r, limit, id, c);
    RequeueLive(r.q, id);
    OwnedShrinks(r.q, r'.q, limit);
    hide EntryOk, Live, WellFormed, GivesUp;
  }

  lemma RequeueEntries(r: Record, limit: int, id: Id, c: string)
    requires Inv(r, limit) && Owns(r.q, id, c) && !GivesUp(r.q, r.q.inFlight[id])
    ensures forall x :: EntryOk(Apply(r, limit, Nacked(id, c)), x)
  {
    var r' := Apply(r, limit, Nacked(id, c));
    ReadyAndLive(r.q);
    RequeueLive(r.q, id);
    forall x ensures EntryOk(r', x) {
      assert EntryOk(r, x);
      if x != id { EntryFrame(r, r', x); }
    }
  }

  lemma KeepJoin(r: Record, limit: int, c: string)
    requires Inv(r, limit)
    ensures Inv(Apply(r, limit, Joined(c)), limit)
  {
    var r' := Apply(r, limit, Joined(c));
    forall id ensures EntryOk(r', id) { EntryFrame(r, r', id); }
    OwnedShrinks(r.q, r'.q, limit);
  }

  lemma DisconnectAt(q: QueueState, c: string, returned: seq<Delivery>, id: Id)
    requires WellFormed(q) && IsReturnOrder(q, c, returned)
    ensures var q' := Disconnect(q, c, returned);
      && (id in Live(q') <==> id in Live(q))
      && (id in Live(q) ==> Live(q')[id].attempts == Live(q)[id].attempts)
      && (id in q.inFlight ==> id in Live(q))
  {
    LiveKeyed(q);
    DisconnectLive(q, c, returned);
  }

  lemma DisconnectedEntry(r: Record, r': Record, c: string, returned: seq<Delivery>, id: Id)
    requires WellFormed(r.q) && EntryOk(r, id) && IsReturnOrder(r.q, c, returned)
    requires r' == r.(q := Disconnect(r.q, c, returned), handbacks := r'.handbacks)
    requires Count(r'.handbacks, id) == Count(r.handbacks, id) + if id in Owned(r.q, c) then 1 else 0
    ensures EntryOk(r', id)
  {
    DisconnectAt(r.q, c, returned, id);
    hide Live, WellFormed, IsReturnOrder, Count;
    assert id in r'.q.inFlight <==> id in r.q.inFlight && id !in Owned(r.q, c);
  }

  lemma DisconnectedOwners(r: Record, limit: int, c: string, returned: seq<Delivery>)
    requires OwnersOk(r, limit) && WaitersOk(r)
    ensures var r' := r.(q := Disconnect(r.q, c, returned)); OwnersOk(r', limit) && WaitersOk(r')
  {
    var q' := Disconnect(r.q, c, returned);
    OwnedShrinks(r.q, q', limit);
    if returned == [] { assert q'.ready == r.q.ready; }
  }

  lemma OwnersFrame(r: Record, r': Record, limit: int)
    requires OwnersOk(r, limit) && WaitersOk(r) && r'.q == r.q && r'.waiters == r.waiters
    ensures OwnersOk(r', limit) && WaitersOk(r')
  {
  }

  lemma KeepDisconnect(r: Record, limit: int, c: string, returned: seq<Delivery>)
    requires Inv(r, limit) && IsReturnOrder(r.q, c, returned)
    ensures Inv(Apply(r, limit, Disconnected(c, returned)), limit)
  {
    var r' := Apply(r, limit, Disconnected(c, returned));
    DisconnectWellFormed(r.q, c, returned);
    DisconnectedOwners(r, limit, c, returned);
    hide EntryOk, WellFormed, IsReturnOrder, Disconnect, Owned, OwnersOk, WaitersOk;
    forall id ensures EntryOk(r', id) {
      assert Count(r'.handbacks, id) == Count(r.handbacks, id) + if id in Owned(r.q, c) then 1 else 0;
      DisconnectedEntry(r, r', c, returned, id);
    }
    OwnersFrame(r.(q := r'.q), r', limit);
  }

  lemma KeepWaiting(r: Record, limit: int, e: Event)
    requires Inv(r, limit) && Enabled(r, limit, e) && (e.WaitBegan? || e.WaitEnded?)
    ensures Inv(Apply(r, limit, e), limit)
  {
    var r' := Apply(r, limit, e);
    forall id ensures EntryOk(r', id) { EntryFrame(r, r', id); }
  }

  lemma StepKeepsInv(r: Record, limit: int, e: Event)
    requires Inv(r, limit) && Enabled(r, limit, e)
    ensures Inv(Apply(r, limit, e), limit)
  {
    hide Inv;
    match e
    case Enqueued(d) => KeepEnqueue(r, limit, d);
    case Fetched(c) => KeepFetch(r, limit, c);
    case Acked(id, c) => KeepSettle(r, limit, e);
    case Nacked(id, c) =>
      if GivesUp(r.q, r.q.inFlight[id]) { KeepSettle(r, limit, e); } else { KeepRequeue(r, limit, id, c); }
    case Joined(c) => KeepJoin(r, limit, c);
    case Disconnected(c, returned) => KeepDisconnect(r, limit, c, returned);
    case _ => KeepWaiting(r, limit, e);
  }

  lemma {:induction false} RunKeepsInv(records: seq<Record>, limit: int, events: seq<Event>, i: nat)
    requires IsRun(records, limit, events) && i < |records|
    ensures Inv(records[i], limit)
  {
    if i > 0 {
      hide Enabled, Apply, Inv;
      RunKeepsInv(records, limit, events, i - 1);
      StepKeepsInv(records[i - 1], limit, events[i - 1]);
    }
  }

  // ---------------------------------------------------------------- what the queue guarantees

  ghost function ReadyIds(q: QueueState): set<Id> {
    set j | 0 <= j < |q.ready| :: q.ready[j].id
  }

  /** `all` is split into four parts. */
  ghost predicate Splits<T>(all: set<T>, a: set<T>, b: set<T>, c: set<T>, d: set<T>) {
    && all == a + b + c + d
    && a !! b && a !! c && a !! d && b !! c && b !! d && c !! d
  }

  lemma SplitSizes<T>(all: set<T>, a: set<T>, b: set<T>, c: set<T>, d: set<T>)
    requires Splits(all, a, b, c, d)
    ensures |all| == |a| + |b| + |c| + |d|
  {
    assert |a + b| == |a| + |b| && |a + b + c| == |a + b| + |c|;
  }

  lemma ReadyIdsAre(q: QueueState)
    requires WellFormed(q)
    ensures |ReadyIds(q)| == |q.ready|
    ensures forall id :: id in ReadyIds(q) <==> IsReady(q, id)
  {
    ReadyAndLive(q);
    DistinctIdsCount(q.ready);
  }

  lemma PlacesSplit(r: Record)
    requires forall id :: PlaceOk(r, id)
    requires forall id :: id in ReadyIds(r.q) <==> IsReady(r.q, id)
    requires forall id :: id in r.q.inFlight ==> id in Live(r.q)
    ensures Splits(r.entered.Keys, ReadyIds(r.q), r.q.inFlight.Keys, r.acked, r.dead)
  {
    hide Live, ReadyIds;
    forall id
      ensures id in r.entered <==> id in ReadyIds(r.q) || id in r.q.inFlight || id in r.acked || id in r.dead
      ensures !(id in r.acked && id in r.dead)
      ensures id in ReadyIds(r.q) || id in r.q.inFlight ==> id !in r.acked && id !in r.dead
    {
      assert PlaceOk(r, id);
    }
  }

  /** Conservation: ready IDs are distinct, in-flight entries are keyed by their own ID, and everything that
      ever entered is ready, in flight, acknowledged or dead, and only one of these. */
  lemma Conservation(records: seq<Record>, limit: int, events: seq<Event>, i: nat)
    requires IsRun(records, limit, events) && i < |records|
    ensures var r := records[i];
      && Splits(r.entered.Keys, ReadyIds(r.q), r.q.inFlight.Keys, r.acked, r.dead)
      && |r.entered| == |r.q.ready| + |r.q.inFlight| + |r.acked| + |r.dead|
      && forall id :: id in r.q.inFlight ==> r.q.inFlight[id].id == id
  {
    var r := records[i];
    RunKeepsInv(records, limit, events, i);
    ReadyAndLive(r.q);
    ReadyIdsAre(r.q);
    assert WellFormed(r.q);
    hide IsRun, Live, ReadyIds, PlaceOk, CountsOk, RetriesOk;
    forall id ensures PlaceOk(r, id) { assert EntryOk(r, id); }
    PlacesSplit(r);
    SplitSizes(r.entered.Keys, ReadyIds(r.q), r.q.inFlight.Keys, r.acked, r.dead);
  }

  lemma SettlesOnly(r: Record, limit: int, e: Event)
    requires Enabled(r, limit, e)
    ensures r.acked <= Apply(r, limit, e).acked && r.dead <= Apply(r, limit, e).dead
  {
    hide Live, IsReturnOrder;
  }

  /** Settled for good: what was acknowledged or given up never comes back within the run. */
  lemma {:induction false} SettledStays(records: seq<Record>, limit: int, events: seq<Event>, i: nat, j: nat, id: Id)
    requires IsRun(records, limit, events) && i <= j < |records|
    requires id in records[i].acked || id in records[i].dead
    ensures (id in records[j].acked || id in records[j].dead) && id !in Live(records[j].q)
    decreases j
  {
    hide Enabled, Apply;
    RunKeepsInv(records, limit, events, j);
    assert EntryOk(records[j], id);
    if i < j {
      hide Inv, Live;
      SettledStays(records, limit, events, i, j - 1, id);
      SettlesOnly(records[j - 1], limit, events[j - 1]);
    }
  }

  /** Ownership and the global cap: every in-flight delivery belongs to a registered consumer, and with a
      positive limit the queue never has more than that many in flight per consumer. */
  lemma InFlightIsCapped(records: seq<Record>, limit: int, events: seq<Event>, i: nat)
    requires IsRun(records, limit, events) && i < |records|
    ensures forall id :: id in records[i].q.inFlight ==> records[i].q.inFlight[id].consumer in records[i].q.consumers
    ensures limit > 0 ==> forall c :: |Owned(records[i].q, c)| <= limit
    ensures limit > 0 ==> |records[i].q.inFlight| <= limit * |records[i].q.consumers|
  {
    RunKeepsInv(records, limit, events, i);
    var q := records[i].q;
    if limit > 0 {
      OwnedByGroup(q, q.consumers, limit);
      assert OwnedBy(q, q.consumers) == q.inFlight.Keys;
    }
  }

  ghost function OwnedBy(q: QueueState, cs: set<string>): set<Id> {
    set id | id in q.inFlight && q.inFlight[id].consumer in cs
  }

  lemma {:induction false} OwnedByGroup(q: QueueState, cs: set<string>, limit: nat)
    requires forall c :: |Owned(q, c)| <= limit
    ensures |OwnedBy(q, cs)| <= limit * |cs|
  {
    if cs == {} {
      assert OwnedBy(q, cs) == {};
    } else {
      var c :| c in cs;
      var rest := cs - {c};
      OwnedByGroup(q, rest, limit);
      assert OwnedBy(q, cs) == OwnedBy(q, rest) + Owned(q, c);
      assert |cs| == |rest| + 1;
      assert limit * |cs| == limit * |rest| + limit;
    }
  }

  /** No lost wakeup: a waiter whose channel has not been closed since its empty fetch has missed nothing,
      because the queue is still empty. */
  lemma NoLostWakeup(records: seq<Record>, limit: int, events: seq<Event>, i: nat, w: nat)
    requires IsRun(records, limit, events) && i < |records| && w in records[i].waiters
    requires records[i].waiters[w] !in records[i].q.channels.closed
    ensures records[i].q.ready == []
  {
    RunKeepsInv(records, limit, events, i);
  }

  /** The steps that call `close` on the current channel. */
  ghost predicate Notifies(r: Record, e: Event) {
    match e
    case Enqueued(d) => true
    case Nacked(id, c) => Owns(r.q, id, c) && !GivesUp(r.q, r.q.inFlight[id])
    case Disconnected(c, returned) => returned != []
    case _ => false
  }

  /** Those steps, and no others, close the current channel and make a new one; a step that adds a ready
      delivery is one of them. */
  lemma StepCloses(r: Record, limit: int, e: Event)
    requires Enabled(r, limit, e)
    ensures var r' := Apply(r, limit, e);
      && r'.q.channels == (if Notifies(r, e) then Renew(r.q.channels) else r.q.channels)
      && (|r'.q.ready| > |r.q.ready| ==> Notifies(r, e))
  {
    hide GivesUp, IsReturnOrder, Owned;
    match e
    case Disconnected(c, returned) => if returned == [] { assert Apply(r, limit, e).q.ready == r.q.ready; }
    case _ =>
  }

  lemma {:induction false} ClosedStays(records: seq<Record>, limit: int, events: seq<Event>, i: nat, j: nat)
    requires IsRun(records, limit, events) && i <= j < |records|
    ensures records[i].q.channels.closed <= records[j].q.channels.closed
    decreases j
  {
    hide Enabled, Apply;
    if i < j {
      ClosedStays(records, limit, events, i, j - 1);
      StepCloses(records[j - 1], limit, events[j - 1]);
    }
  }

  /** No close panics: the channel a step closes is open, and no other step of the run ever closes it. */
  lemma ChannelsCloseOnce(records: seq<Record>, limit: int, events: seq<Event>, i: nat, j: nat)
    requires IsRun(records, limit, events) && i < |events| && j < |events|
    requires Notifies(records[i], events[i]) && Notifies(records[j], events[j])
    ensures records[i].q.channels.current !in records[i].q.channels.closed
    ensures records[i].q.channels.current in records[i + 1].q.channels.closed
    ensures i != j ==> records[i].q.channels.current != records[j].q.channels.current
  {
    hide Enabled, Apply, Notifies;
    RunKeepsInv(records, limit, events, i);
    RunKeepsInv(records, limit, events, j);
    StepCloses(records[i], limit, events[i]);
    StepCloses(records[j], limit, events[j]);
    if i < j { ClosedStays(records, limit, events, i + 1, j); }
    if j < i { ClosedStays(records, limit, events, j + 1, i); }
  }

  /** The retry bound: attempts are entry attempts plus fetches; NAcks requeue a delivery at most as often
      as its queue's limit leaves it; and whatever it entered with, its attempts exceed the limit, or its first
      attempt if that is the larger, only by what disconnects add. */
  lemma RetryBound(records: seq<Record>, limit: int, events: seq<Event>, i: nat, id: Id)
    requires IsRun(records, limit, events) && i < |records| && id in records[i].entered
    ensures var r := records[i]; var a0 := r.entered[id]; var m := r.q.maxAttempts;
      && (id in Live(r.q) ==> Live(r.q)[id].attempts == a0 + Count(r.fetches, id))
      && (m > 0 ==> Count(r.requeues, id) <= RetriesLeft(m, a0))
      && (m > 0 && id in Live(r.q) ==>
           Live(r.q)[id].attempts <= (if m > a0 then m else a0 + 1) + Count(r.handbacks, id))
  {
    RunKeepsInv(records, limit, events, i);
    assert EntryOk(records[i], id);
  }
}
