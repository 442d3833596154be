/** MaxAttempts bounds retries by NAck only: disconnecting consumers push the attempts of a delivery past it,
    by as much as the retry bound allows and no less. */
module QueueWitness {
  import opened Types
  import opened QueueModel
  import opened QueueRuns

  const OWNER := "c"

  /** The delivery 0, in the hands of the only consumer, after `attempts` attempts. */
  ghost predicate HeldAfter(r: Record, m: nat, attempts: nat, handbacks: nat)
    requires m > 0
  {
    && r.q.maxAttempts == m && r.entered == map[0 := m - 1] && Count(r.handbacks, 0) == handbacks
    && r.q.ready == [] && r.q.consumers == {OWNER}
    && r.q.inFlight == map[0 := Delivery(0, Message([], ""), OWNER, attempts)]
  }

  lemma Extend(records: seq<Record>, limit: int, events: seq<Event>, e: Event) returns (records': seq<Record>,
               events': seq<Event>)
    requires IsRun(records, limit, events) && Enabled(records[|events|], limit, e)
    ensures events' == events + [e] && records' == records + [Apply(records[|events|], limit, e)]
    ensures IsRun(records', limit, events') && records'[|events'|] == Apply(records[|events|], limit, e)
  {
    hide Enabled, Apply;
    events', records' := events + [e], records + [Apply(records[|events|], limit, e)];
  }

  /** A delivery that enters with one attempt left is fetched. */
  lemma FirstAttempt(m: nat) returns (records: seq<Record>, events: seq<Event>)
    requires m > 0
    ensures IsRun(records, 0, events) && HeldAfter(records[|events|], m, m, 0)
  {
    var q := NewQueue("q", true, false, m, []);
    records, events := [Record(q, map[], map[], map[], map[], {}, {}, map[])], [];
    records, events := Extend(records, 0, events, Joined(OWNER));
    var d := Delivery(0, Message([], ""), "", m - 1);
    records, events := Extend(records, 0, events, Enqueued(d));
    assert records[|events|].q.ready == [d];
    records, events := Extend(records, 0, events, Fetched(OWNER));
    assert records[|events|].q.ready == [];
  }

  /** The same delivery, waiting in a queue without consumers. */
  ghost predicate WaitsAfter(r: Record, m: nat, attempts: nat, handbacks: nat)
    requires m > 0
  {
    && r.q.maxAttempts == m && r.entered == map[0 := m - 1] && Count(r.handbacks, 0) == handbacks
    && r.q.ready == [Delivery(0, Message([], ""), "", attempts)] && r.q.consumers == {} && r.q.inFlight == map[]
  }

  lemma HandBack(r: Record, m: nat, attempts: nat, h: nat)
    requires m > 0 && HeldAfter(r, m, attempts, h)
    ensures var e := Disconnected(OWNER, [Delivery(0, Message([], ""), "", attempts)]);
      Enabled(r, 0, e) && WaitsAfter(Apply(r, 0, e), m, attempts, h + 1)
  {
    var d := Delivery(0, Message([], ""), "", attempts);
    OwnsIt(r.q, d);
    hide Returns, Owned, Count;
    var r' := Apply(r, 0, Disconnected(OWNER, [d]));
    assert r'.handbacks[0] == Count(r.handbacks, 0) + 1;
    assert r'.q.inFlight == map[];
    CountIs(r'.handbacks, 0);
  }

  lemma CountIs(m: map<Id, nat>, id: Id)
    ensures id in m ==> Count(m, id) == m[id]
  {
  }

  lemma OwnsIt(q: QueueState, d: Delivery)
    requires d.id == 0 && d.consumer == "" && q.inFlight == map[0 := d.(consumer := OWNER)]
    ensures Owned(q, OWNER) == {0} && IsReturnOrder(q, OWNER, [d])
  {
    assert Owned(q, OWNER) == {0};
  }

  lemma Retry(r: Record, m: nat, attempts: nat, h: nat)
    requires m > 0 && WaitsAfter(r, m, attempts, h)
    ensures var r' := Apply(r, 0, Joined(OWNER));
      Enabled(r', 0, Fetched(OWNER)) && HeldAfter(Apply(r', 0, Fetched(OWNER)), m, attempts + 1, h)
  {
  }

  /** The consumer disconnects, comes back and fetches again. */
  lemma OnceMore(records: seq<Record>, events: seq<Event>, m: nat, attempts: nat, h: nat)
    returns (records': seq<Record>, events': seq<Event>)
    requires m > 0 && IsRun(records, 0, events) && HeldAfter(records[|events|], m, attempts, h)
    ensures IsRun(records', 0, events') && HeldAfter(records'[|events'|], m, attempts + 1, h + 1)
  {
    HandBack(records[|events|], m, attempts, h);
    hide HeldAfter, WaitsAfter, Apply;
    records', events' := Extend(records, 0, events, Disconnected(OWNER, [Delivery(0, Message([], ""), "", attempts)]));
    Retry(records'[|events'|], m, attempts, h + 1);
    hide IsRun;
    records', events' := Extend(records', 0, events', Joined(OWNER));
    records', events' := Extend(records', 0, events', Fetched(OWNER));
  }

  /** For every limit and every number of disconnects there is a run in which a delivery reaches just the attempts
      that the retry bound allows: the limit plus the disconnects. */
  lemma {:induction false} RetryBoundIsTight(m: nat, h: nat) returns (records: seq<Record>, events: seq<Event>)
    requires m > 0
    ensures IsRun(records, 0, events) && HeldAfter(records[|events|], m, m + h, h)
  {
    if h == 0 {
      records, events := FirstAttempt(m);
    } else {
      records, events := RetryBoundIsTight(m, h - 1);
      hide HeldAfter, IsRun;
      records, events := OnceMore(records, events, m, m + h - 1, h - 1);
    }
  }
}
