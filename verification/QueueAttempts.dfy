/** When the attempts of a delivery exceed the maximum of its queue: exactly when a disconnect handed it back
    with its attempts used up and it was fetched once more. */
module QueueAttempts {
  import opened Types
  import opened QueueModel
  import opened QueueRuns

  /** Step `j` is a disconnect of the owner of `id`, whose attempts are used up. */
  ghost predicate HandsBackSpent(records: seq<Record>, events: seq<Event>, j: int, id: Id)
    requires 0 <= j < |events| < |records|
  {
    && events[j].Disconnected? && id in Owned(records[j].q, events[j].c)
    && records[j].q.inFlight[id].attempts >= records[j].q.maxAttempts
  }

  /** Step `k` fetches `id`. */
  ghost predicate Fetches(records: seq<Record>, events: seq<Event>, k: int, id: Id)
    requires 0 <= k < |events| < |records|
  {
    events[k].Fetched? && records[k].q.ready != [] && records[k].q.ready[0].id == id
  }

  ghost predicate HandedBackSpent(records: seq<Record>, events: seq<Event>, i: nat, id: Id)
    requires i <= |events| < |records|
  {
    exists j :: 0 <= j < i && HandsBackSpent(records, events, j, id)
  }

  ghost predicate FetchedAfterSpent(records: seq<Record>, events: seq<Event>, i: nat, id: Id)
    requires i <= |events| < |records|
  {
    exists j, k :: 0 <= j < k < i && HandsBackSpent(records, events, j, id) && Fetches(records, events, k, id)
  }

  // ---------------------------------------------------------------- one step

  ghost predicate IsFetchOf(r: Record, e: Event, id: Id) {
    e.Fetched? && r.q.ready != [] && r.q.ready[0].id == id
  }

  /** What one step does to one delivery: it enters, or it was live before, with one attempt less if this step
      fetches it; and it becomes ready again by a disconnect of its owner or by a NAck that does not give up. */
  ghost predicate Moves(r: Record, e: Event, r': Record, id: Id) {
    && r'.q.maxAttempts == r.q.maxAttempts
    && (id in r.entered ==> id in r'.entered && r'.entered[id] == r.entered[id])
    && (IsFetchOf(r, e, id) ==> IsReady(r.q, id) && !IsReady(r'.q, id))
    && (id in Live(r'.q) ==>
          if id !in Live(r.q) then
            id !in r.entered && id in r'.entered && Live(r'.q)[id].attempts == r'.entered[id] && !IsFetchOf(r, e, id)
          else
            && id in r.entered
            && Live(r'.q)[id].attempts == Live(r.q)[id].attempts + (if IsFetchOf(r, e, id) then 1 else 0)
            && (IsReady(r'.q, id) && !IsReady(r.q, id) ==>
                  id in r.q.inFlight && r.q.inFlight[id] == Live(r.q)[id] &&
                  ((e.Disconnected? && id in Owned(r.q, e.c)) ||
                   (e.Nacked? && e.id == id && !GivesUp(r.q, r.q.inFlight[id])))))
  }

  lemma EnqueueMoves(r: Record, limit: int, d: Delivery, id: Id)
    requires Inv(r, limit) && Enabled(r, limit, Enqueued(d))
    ensures Moves(r, Enqueued(d), Apply(r, limit, Enqueued(d)), id)
  {
    assert EntryOk(r, d.id) && EntryOk(r, id);
    EnqueueLive(r.q, d);
  }

  lemma FetchMoves(r: Record, limit: int, c: string, id: Id)
    requires Inv(r, limit) && Enabled(r, limit, Fetched(c))
    ensures Moves(r, Fetched(c), Apply(r, limit, Fetched(c)), id)
  {
    assert EntryOk(r, id);
    FetchLive(r.q, c);
  }

  lemma SettleMoves(r: Record, limit: int, e: Event, id: Id)
    requires Inv(r, limit) && Enabled(r, limit, e)
    requires e.Acked? || (e.Nacked? && GivesUp(r.q, r.q.inFlight[e.id]))
    ensures Moves(r, e, Apply(r, limit, e), id)
  {
    assert EntryOk(r, id);
    LiveKeyed(r.q);
    SettleLive(r.q, e.id);
    hide GivesUp, WellFormed, CountsOk, RetriesOk;
  }

  lemma RequeueMoves(r: Record, limit: int, x: Id, c: string, id: Id)
    requires Inv(r, limit) && Enabled(r, limit, Nacked(x, c)) && !GivesUp(r.q, r.q.inFlight[x])
    ensures Moves(r, Nacked(x, c), Apply(r, limit, Nacked(x, c)), id)
  {
    assert EntryOk(r, id);
    LiveKeyed(r.q);
    RequeueLive(r.q, x);
    hide GivesUp, WellFormed, CountsOk, RetriesOk;
  }

  lemma DisconnectMoves(r: Record, limit: int, c: string, returned: seq<Delivery>, id: Id)
    requires Inv(r, limit) && Enabled(r, limit, Disconnected(c, returned))
    ensures Moves(r, Disconnected(c, returned), Apply(r, limit, Disconnected(c, returned)), id)
  {
    assert EntryOk(r, id);
    LiveKeyed(r.q);
    DisconnectLive(r.q, c, returned);
  }

  lemma StepMoves(r: Record, limit: int, e: Event, id: Id)
    requires Inv(r, limit) && Enabled(r, limit, e)
    ensures Moves(r, e, Apply(r, limit, e), id)
  {
    hide Inv, Moves, GivesUp, CanFetch, IsReturnOrder;
    match e
    case Enqueued(d) => EnqueueMoves(r, limit, d, id);
    case Fetched(c) => FetchMoves(r, limit, c, id);
    case Disconnected(c, returned) => DisconnectMoves(r, limit, c, returned, id);
    case Acked(_, _) => SettleMoves(r, limit, e, id);
    case Nacked(x, c) =>
      if GivesUp(r.q, r.q.inFlight[x]) { SettleMoves(r, limit, e, id); } else { RequeueMoves(r, limit, x, c, id); }
    case _ => OtherMoves(r, limit, e, id);
  }

  lemma OtherMoves(r: Record, limit: int, e: Event, id: Id)
    requires Inv(r, limit) && Enabled(r, limit, e) && (e.WaitBegan? || e.WaitEnded? || e.Joined?)
    ensures Moves(r, e, Apply(r, limit, e), id)
  {
    assert EntryOk(r, id);
    assert Live(Apply(r, limit, e).q) == Live(r.q);
  }

  // ---------------------------------------------------------------- whole runs

  /** What is known of a live delivery that entered with attempts to spare. */
  ghost predicate Accounted(records: seq<Record>, events: seq<Event>, i: nat, id: Id)
    requires i <= |events| < |records|
  {
    var q := records[i].q;
    id in Live(q) && q.maxAttempts > 0 && id in records[i].entered && records[i].entered[id] < q.maxAttempts ==>
      && (Live(q)[id].attempts > q.maxAttempts <==> FetchedAfterSpent(records, events, i, id))
      && (HandedBackSpent(records, events, i, id) ==> Live(q)[id].attempts >= q.maxAttempts)
      && (IsReady(q, id) && Live(q)[id].attempts >= q.maxAttempts ==> HandedBackSpent(records, events, i, id))
  }

  /** A delivery that has not entered has not been handed back. */
  lemma NotYetHandedBack(records: seq<Record>, limit: int, events: seq<Event>, i: nat, id: Id)
    requires IsRun(records, limit, events) && i <= |events| && id !in records[i].entered
    ensures !HandedBackSpent(records, events, i, id)
  {
    forall j | 0 <= j < i ensures !HandsBackSpent(records, events, j, id) {
      if HandsBackSpent(records, events, j, id) {
        RunKeepsInv(records, limit, events, j);
        assert EntryOk(records[j], id);
        EnteredStays(records, limit, events, j, i, id);
      }
    }
  }

  lemma {:induction false} EnteredStays(records: seq<Record>, limit: int, events: seq<Event>, i: nat, j: nat, id: Id)
    requires IsRun(records, limit, events) && i <= j < |records| && id in records[i].entered
    ensures id in records[j].entered
    decreases j
  {
    hide Enabled, Apply, Inv, Moves;
    if i < j {
      EnteredStays(records, limit, events, i, j - 1, id);
      RunKeepsInv(records, limit, events, j - 1);
      StepMoves(records[j - 1], limit, events[j - 1], id);
      EnteredMoves(records[j - 1], events[j - 1], records[j], id);
    }
  }

  lemma EnteredMoves(r: Record, e: Event, r': Record, id: Id)
    requires Moves(r, e, r', id) && id in r.entered
    ensures id in r'.entered
  {
  }

  lemma {:induction false} RunAccounts(records: seq<Record>, limit: int, events: seq<Event>, i: nat, id: Id)
    requires IsRun(records, limit, events) && i <= |events|
    ensures Accounted(records, events, i, id)
  {
    hide Enabled, Apply, Inv, Moves, Accounted, HandedBackSpent;
    if i == 0 {
      NothingYet(records, events, id);
    } else {
      RunAccounts(records, limit, events, i - 1, id);
      RunKeepsInv(records, limit, events, i - 1);
      StepMoves(records[i - 1], limit, events[i - 1], id);
      if id !in records[i - 1].entered { NotYetHandedBack(records, limit, events, i - 1, id); }
      AccountedNext(records, events, i - 1, id);
    }
  }

  lemma NothingYet(records: seq<Record>, events: seq<Event>, id: Id)
    requires |events| < |records| && Fresh(records[0])
    ensures Accounted(records, events, 0, id)
  {
    assert Live(records[0].q) == map[];
  }

  lemma AccountedNext(records: seq<Record>, events: seq<Event>, i: nat, id: Id)
    requires i < |events| < |records| && Accounted(records, events, i, id)
    requires Moves(records[i], events[i], records[i + 1], id)
    requires id !in records[i].entered ==> !HandedBackSpent(records, events, i, id)
    ensures Accounted(records, events, i + 1, id)
  {
    OneStepLater(records, events, i, id);
    hide HandedBackSpent, FetchedAfterSpent, Live, GivesUp;
    assert Fetches(records, events, i, id) <==> IsFetchOf(records[i], events[i], id);
    SpentMoves(records, events, i, id);
  }

  lemma OneStepLater(records: seq<Record>, events: seq<Event>, i: nat, id: Id)
    requires i < |events| < |records|
    ensures HandedBackSpent(records, events, i + 1, id) <==>
      HandedBackSpent(records, events, i, id) || HandsBackSpent(records, events, i, id)
    ensures FetchedAfterSpent(records, events, i + 1, id) <==>
      FetchedAfterSpent(records, events, i, id)
        || (HandedBackSpent(records, events, i, id) && Fetches(records, events, i, id))
    ensures FetchedAfterSpent(records, events, i, id) ==> HandedBackSpent(records, events, i, id)
  {
  }

  /** A live delivery handed back spent stays spent; one that a NAck requeues is not spent. */
  lemma SpentMoves(records: seq<Record>, events: seq<Event>, i: nat, id: Id)
    requires i < |events| < |records| && Moves(records[i], events[i], records[i + 1], id)
    ensures var r, r' := records[i], records[i + 1];
      id in Live(r'.q) && r'.q.maxAttempts > 0 ==>
        && (HandsBackSpent(records, events, i, id) ==> id in Live(r.q) && Live(r'.q)[id].attempts >= r.q.maxAttempts)
        && (IsReady(r'.q, id) && id in Live(r.q) && !IsReady(r.q, id) && Live(r'.q)[id].attempts >= r.q.maxAttempts ==>
              HandsBackSpent(records, events, i, id))
  {
    hide ReadyMap;
  }

  /** The exact condition: a delivery that entered with attempts to spare exceeds the maximum if and only if a
      disconnect handed it back with its attempts used up and it was fetched after that. */
  lemma ExceedsExactlyWhen(records: seq<Record>, limit: int, events: seq<Event>, i: nat, id: Id)
    requires IsRun(records, limit, events) && i < |records| && id in Live(records[i].q)
    requires records[i].q.maxAttempts > 0 && id in records[i].entered
    requires records[i].entered[id] < records[i].q.maxAttempts
    ensures Live(records[i].q)[id].attempts > records[i].q.maxAttempts <==>
      exists j, k :: 0 <= j < k < i && HandsBackSpent(records, events, j, id) && Fetches(records, events, k, id)
  {
    RunAccounts(records, limit, events, i, id);
  }

  /** A delivery that enters with its attempts used up, as one restored after a crash may, exceeds the maximum
      as soon as it is fetched. */
  lemma EnteredSpent(records: seq<Record>, limit: int, events: seq<Event>, i: nat, id: Id)
    requires IsRun(records, limit, events) && i < |records| && id in Live(records[i].q)
    requires records[i].q.maxAttempts > 0 && id in records[i].entered
    requires records[i].entered[id] >= records[i].q.maxAttempts
    ensures Live(records[i].q)[id].attempts > records[i].q.maxAttempts <==>
      records[i].entered[id] > records[i].q.maxAttempts || Count(records[i].fetches, id) > 0
  {
    RunKeepsInv(records, limit, events, i);
    assert EntryOk(records[i], id);
  }
}
