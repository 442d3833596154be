/** Who holds, who is registered and what became of a delivery, read off the events of a run: the owner of a delivery
    is whoever fetched it last, only the owner settles it, and a rejected delivery dies exactly when nobody may retry
    it. */
module QueueHistory {
  import opened Types
  import opened QueueModel
  import opened QueueRuns
  import opened QueueAttempts

  // ---------------------------------------------------------------- who is registered

  ghost predicate Leaves(e: Event, c: string) {
    e.Disconnected? && e.c == c
  }

  /** `c` has joined, and has not been disconnected since. */
  ghost predicate JoinedLast(events: seq<Event>, i: nat, c: string)
    requires i <= |events|
  {
    exists j :: 0 <= j < i && events[j] == Joined(c) && forall k :: j < k < i ==> !Leaves(events[k], c)
  }

  lemma JoinedOneMore(events: seq<Event>, i: nat, c: string)
    requires i < |events|
    ensures JoinedLast(events, i + 1, c) <==>
      events[i] == Joined(c) || (JoinedLast(events, i, c) && !Leaves(events[i], c))
  {
    if JoinedLast(events, i, c) && !Leaves(events[i], c) {
      var j :| 0 <= j < i && events[j] == Joined(c) && forall k :: j < k < i ==> !Leaves(events[k], c);
      assert forall k :: j < k < i + 1 ==> !Leaves(events[k], c);
    }
  }

  lemma ConsumersMove(r: Record, limit: int, e: Event, c: string)
    requires Enabled(r, limit, e)
    ensures c in Apply(r, limit, e).q.consumers <==> e == Joined(c) || (c in r.q.consumers && !Leaves(e, c))
  {
    hide GivesUp, IsReturnOrder, Owned;
  }

  /** The registered consumers are exactly those who joined and have not been disconnected since. */
  lemma {:induction false} RegisteredExactlyWhen(records: seq<Record>, limit: int, events: seq<Event>, i: nat,
                                                 c: string)
    requires IsRun(records, limit, events) && i < |records|
    ensures c in records[i].q.consumers <==> JoinedLast(events, i, c)
  {
    hide Enabled, Apply, JoinedLast;
    if i == 0 {
      NobodyYet(events, c);
    } else {
      RegisteredExactlyWhen(records, limit, events, i - 1, c);
      ConsumersMove(records[i - 1], limit, events[i - 1], c);
      JoinedOneMore(events, i - 1, c);
    }
  }

  lemma NobodyYet(events: seq<Event>, c: string)
    ensures !JoinedLast(events, 0, c)
  {
  }

  // ---------------------------------------------------------------- who holds what

  ghost predicate Holds(r: Record, id: Id, c: string) {
    id in r.q.inFlight && r.q.inFlight[id].consumer == c
  }

  /** The step ends what `c` had to do with `id`: the delivery is settled, requeued or fetched, or `c` leaves. */
  ghost predicate Ends(r: Record, e: Event, id: Id, c: string) {
    (e.Acked? && e.id == id) || (e.Nacked? && e.id == id) || IsFetchOf(r, e, id) || Leaves(e, c)
  }

  /** `c` has fetched `id`, and nothing has happened to it since, nor has `c` been disconnected. */
  ghost predicate HeldSince(records: seq<Record>, events: seq<Event>, i: nat, id: Id, c: string)
    requires i <= |events| < |records|
  {
    exists j :: 0 <= j < i && events[j] == Fetched(c) && IsFetchOf(records[j], events[j], id) &&
      forall k :: j < k < i ==> !Ends(records[k], events[k], id, c)
  }

  lemma HeldOneMore(records: seq<Record>, events: seq<Event>, i: nat, id: Id, c: string)
    requires i < |events| < |records|
    ensures HeldSince(records, events, i + 1, id, c) <==>
      || (events[i] == Fetched(c) && IsFetchOf(records[i], events[i], id))
      || (HeldSince(records, events, i, id, c) && !Ends(records[i], events[i], id, c))
  {
    hide Ends, IsFetchOf;
    if HeldSince(records, events, i, id, c) && !Ends(records[i], events[i], id, c) {
      var j :| 0 <= j < i && events[j] == Fetched(c) && IsFetchOf(records[j], events[j], id) &&
        forall k :: j < k < i ==> !Ends(records[k], events[k], id, c);
      assert forall k :: j < k < i + 1 ==> !Ends(records[k], events[k], id, c);
    }
  }

  lemma HolderMoves(r: Record, limit: int, e: Event, id: Id, c: string)
    requires WellFormed(r.q) && Enabled(r, limit, e)
    ensures Holds(Apply(r, limit, e), id, c) <==>
      (e == Fetched(c) && IsFetchOf(r, e, id)) || (Holds(r, id, c) && !Ends(r, e, id, c))
  {
    hide Holds, Ends, IsFetchOf, Enabled, Apply;
    if e.Disconnected? {
      LeavingMoves(r, limit, e, id, c);
    } else if e.Nacked? {
      RejectingMoves(r, limit, e, id, c);
    } else {
      OtherHoldersMove(r, limit, e, id, c);
    }
  }

  lemma LeavingMoves(r: Record, limit: int, e: Event, id: Id, c: string)
    requires Enabled(r, limit, e) && e.Disconnected?
    ensures Holds(Apply(r, limit, e), id, c) <==> Holds(r, id, c) && !Ends(r, e, id, c)
    ensures !IsFetchOf(r, e, id)
  {
    hide IsReturnOrder;
  }

  lemma RejectingMoves(r: Record, limit: int, e: Event, id: Id, c: string)
    requires Enabled(r, limit, e) && e.Nacked?
    ensures Holds(Apply(r, limit, e), id, c) <==> Holds(r, id, c) && !Ends(r, e, id, c)
    ensures !IsFetchOf(r, e, id)
  {
    hide GivesUp, Enqueue;
    assert Enqueue(Settle(r.q, e.id), r.q.inFlight[e.id].(consumer := "")).inFlight == r.q.inFlight - {e.id} by {
      InFlightKept(Settle(r.q, e.id), r.q.inFlight[e.id].(consumer := ""));
    }
  }

  lemma InFlightKept(q: QueueState, d: Delivery)
    ensures Enqueue(q, d).inFlight == q.inFlight
  {
  }

  lemma OtherHoldersMove(r: Record, limit: int, e: Event, id: Id, c: string)
    requires WellFormed(r.q) && Enabled(r, limit, e) && !e.Disconnected? && !e.Nacked?
    ensures Holds(Apply(r, limit, e), id, c) <==>
      (e == Fetched(c) && IsFetchOf(r, e, id)) || (Holds(r, id, c) && !Ends(r, e, id, c))
  {
    hide GivesUp, IsReturnOrder, Owned;
  }

  /** The owner of an in-flight delivery is whoever fetched it last, as long as nothing has happened to it since and
      its owner has not been disconnected. */
  lemma {:induction false} HolderExactlyWhen(records: seq<Record>, limit: int, events: seq<Event>, i: nat, id: Id,
                                             c: string)
    requires IsRun(records, limit, events) && i < |records|
    ensures id in records[i].q.inFlight && records[i].q.inFlight[id].consumer == c <==>
            HeldSince(records, events, i, id, c)
  {
    hide Enabled, Apply, HeldSince, Inv, Ends;
    if i == 0 {
      NothingHeldYet(records, events, id, c);
    } else {
      HolderExactlyWhen(records, limit, events, i - 1, id, c);
      RunIsWellFormed(records, limit, events, i - 1);
      HolderMoves(records[i - 1], limit, events[i - 1], id, c);
      HeldOneMore(records, events, i - 1, id, c);
    }
  }

  lemma NothingHeldYet(records: seq<Record>, events: seq<Event>, id: Id, c: string)
    requires |events| < |records|
    ensures !HeldSince(records, events, 0, id, c)
  {
  }

  lemma RunIsWellFormed(records: seq<Record>, limit: int, events: seq<Event>, i: nat)
    requires IsRun(records, limit, events) && i < |records|
    ensures WellFormed(records[i].q)
  {
    RunKeepsInv(records, limit, events, i);
  }

  /** Only the holder settles: an Ack or NAck that goes through is preceded by a fetch of the same delivery by the same
      consumer, with no other fetch, settlement or requeue of it and no disconnect of that consumer in between. */
  lemma SettledByHolder(records: seq<Record>, limit: int, events: seq<Event>, i: nat)
    requires IsRun(records, limit, events) && i < |events| && (events[i].Acked? || events[i].Nacked?)
    ensures HeldSince(records, events, i, events[i].id, events[i].c)
  {
    var r, e := records[i], events[i];
    assert Enabled(r, limit, e);
    HolderExactlyWhen(records, limit, events, i, e.id, e.c);
  }

  /** Only a registered consumer below its limit fetches, and it gets the oldest delivery with one attempt more. */
  lemma FetchedByRegistered(records: seq<Record>, limit: int, events: seq<Event>, i: nat)
    requires IsRun(records, limit, events) && i < |events| && events[i].Fetched?
    ensures JoinedLast(events, i, events[i].c)
    ensures var q, q', c := records[i].q, records[i + 1].q, events[i].c;
      && (limit > 0 ==> |set id | id in q.inFlight && q.inFlight[id].consumer == c| < limit)
      && q.ready != [] && q'.ready == q.ready[1..]
      && var d := q.ready[0]; q'.inFlight == q.inFlight[d.id := d.(attempts := d.attempts + 1, consumer := c)]
  {
    var q, c := records[i].q, events[i].c;
    assert Enabled(records[i], limit, events[i]);
    RegisteredExactlyWhen(records, limit, events, i, c);
    assert Owned(q, c) == set id | id in q.inFlight && q.inFlight[id].consumer == c;
  }

  // ---------------------------------------------------------------- what becomes of a rejected delivery

  /** A rejection at which nobody may retry: the attempts are spent under a positive limit, or no consumer but the
      rejecting one is registered. */
  ghost predicate NobodyMayRetry(q: QueueState, id: Id, c: string) {
    && id in q.inFlight
    && ((q.maxAttempts > 0 && q.inFlight[id].attempts >= q.maxAttempts) || forall o :: o in q.consumers ==> o == c)
  }

  ghost predicate Kills(r: Record, e: Event, id: Id) {
    e.Nacked? && e.id == id && NobodyMayRetry(r.q, id, e.c)
  }

  lemma FatesMove(r: Record, limit: int, e: Event, id: Id)
    requires Enabled(r, limit, e)
    ensures id in Apply(r, limit, e).dead <==> id in r.dead || Kills(r, e, id)
    ensures id in Apply(r, limit, e).acked <==> id in r.acked || (e.Acked? && e.id == id)
    ensures Apply(r, limit, e).q.maxAttempts == r.q.maxAttempts
  {
    hide Kills, Enabled, Apply;
    if e.Nacked? { RejectionDecides(r, limit, e, id); } else { OthersKillNothing(r, limit, e, id); }
  }

  lemma RejectionDecides(r: Record, limit: int, e: Event, id: Id)
    requires Enabled(r, limit, e) && e.Nacked?
    ensures id in Apply(r, limit, e).dead <==> id in r.dead || Kills(r, e, id)
    ensures Apply(r, limit, e).acked == r.acked && Apply(r, limit, e).q.maxAttempts == r.q.maxAttempts
  {
  }

  lemma OthersKillNothing(r: Record, limit: int, e: Event, id: Id)
    requires Enabled(r, limit, e) && !e.Nacked?
    ensures Apply(r, limit, e).dead == r.dead && !Kills(r, e, id)
    ensures id in Apply(r, limit, e).acked <==> id in r.acked || (e.Acked? && e.id == id)
    ensures Apply(r, limit, e).q.maxAttempts == r.q.maxAttempts
  {
    hide IsReturnOrder, Owned, CanFetch, NobodyMayRetry;
  }

  /** A delivery is dead exactly when it was rejected while nobody could retry it, and acknowledged exactly when an Ack
      of it went through. Without a limit it dies only if no other consumer was registered when it was rejected. */
  lemma {:induction false} FateExactlyWhen(records: seq<Record>, limit: int, events: seq<Event>, i: nat, id: Id)
    requires IsRun(records, limit, events) && i < |records|
    ensures id in records[i].dead <==> exists j :: 0 <= j < i && Kills(records[j], events[j], id)
    ensures id in records[i].acked <==> exists j :: 0 <= j < i && events[j].Acked? && events[j].id == id
    ensures forall j :: 0 <= j <= i ==> records[j].q.maxAttempts == records[i].q.maxAttempts
    ensures id in records[i].dead && records[i].q.maxAttempts <= 0 ==>
      exists j :: 0 <= j < i && events[j].Nacked? && events[j].id == id &&
        forall o :: JoinedLast(events, j, o) ==> o == events[j].c
  {
    hide Enabled, Apply, NobodyMayRetry, JoinedLast;
    if i > 0 {
      FateExactlyWhen(records, limit, events, i - 1, id);
      FatesMove(records[i - 1], limit, events[i - 1], id);
    }
    if j :| 0 <= j < i && Kills(records[j], events[j], id) { DiesAlone(records, limit, events, j, id); }
  }

  lemma DiesAlone(records: seq<Record>, limit: int, events: seq<Event>, j: nat, id: Id)
    requires IsRun(records, limit, events) && j < |events| && Kills(records[j], events[j], id)
    ensures records[j].q.maxAttempts <= 0 ==> forall o :: JoinedLast(events, j, o) ==> o == events[j].c
  {
    hide Enabled, Apply, JoinedLast;
    forall o | JoinedLast(events, j, o) ensures records[j].q.maxAttempts <= 0 ==> o == events[j].c {
      RegisteredExactlyWhen(records, limit, events, j, o);
    }
  }

  /** Every rejection either kills the delivery, exactly when nobody may retry it, or puts it back at the end of the
      ready list, without its owner and with its attempts. */
  lemma RejectedDiesOrReturns(records: seq<Record>, limit: int, events: seq<Event>, i: nat)
    requires IsRun(records, limit, events) && i < |events| && events[i].Nacked?
    ensures events[i].id in records[i].q.inFlight
    ensures var q, q', id := records[i].q, records[i + 1].q, events[i].id;
      && q'.inFlight == q.inFlight - {id} && q'.consumers == q.consumers
      && if NobodyMayRetry(q, id, events[i].c) then q'.ready == q.ready
         else q'.ready == q.ready + [q.inFlight[id].(consumer := "")]
  {
    assert Enabled(records[i], limit, events[i]) && records[i + 1] == Apply(records[i], limit, events[i]);
  }

  /** A disconnect takes the consumer off the list, whether or not it held anything, and puts back exactly what it
      held. */
  lemma DisconnectGivesBack(records: seq<Record>, limit: int, events: seq<Event>, i: nat)
    requires IsRun(records, limit, events) && i < |events| && events[i].Disconnected?
    ensures var q, q', c := records[i].q, records[i + 1].q, events[i].c;
      && q'.consumers == q.consumers - {c} && q'.ready == q.ready + events[i].returned
      && (forall id :: id in q'.inFlight <==> id in q.inFlight && q.inFlight[id].consumer != c)
      && forall d: Delivery :: d in events[i].returned <==>
           d.id in q.inFlight && q.inFlight[d.id].consumer == c && d == q.inFlight[d.id].(consumer := "")
  {
    assert Enabled(records[i], limit, events[i]) && records[i + 1] == Apply(records[i], limit, events[i]);
    AllReturned(records[i].q, events[i].c, events[i].returned);
  }
}
