/** First come, first served: deliveries are fetched for the first time in the order they entered the queue,
    whatever requeues and disconnects do in between. */
module QueueOrder {
  import opened Types
  import opened QueueModel
  import opened QueueRuns

  ghost predicate Enters(events: seq<Event>, k: int, id: Id)
    requires 0 <= k < |events|
  {
    events[k].Enqueued? && events[k].d.id == id
  }

  ghost predicate Unfetched(r: Record, id: Id) {
    Count(r.fetches, id) == 0
  }

  ghost predicate Before(s: seq<Delivery>, a: Id, b: Id) {
    exists i, j :: 0 <= i < j < |s| && s[i].id == a && s[j].id == b
  }

  /** As long as `a` has not been fetched, neither has `b`, and `a` is ahead of it. */
  ghost predicate Ahead(r: Record, a: Id, b: Id) {
    Unfetched(r, a) ==> Unfetched(r, b) && Before(r.q.ready, a, b)
  }

  lemma UnfetchedIsReady(r: Record, limit: int, id: Id)
    requires Inv(r, limit) && id in r.entered && Unfetched(r, id)
    ensures exists i :: 0 <= i < |r.q.ready| && r.q.ready[i].id == id
  {
    assert EntryOk(r, id);
    ReadyAndLive(r.q);
  }

  lemma EntersBehind(r: Record, limit: int, d: Delivery, a: Id)
    requires Inv(r, limit) && Enabled(r, limit, Enqueued(d)) && a in r.entered
    ensures Ahead(Apply(r, limit, Enqueued(d)), a, d.id)
  {
    assert EntryOk(r, d.id);
    if Unfetched(r, a) {
      UnfetchedIsReady(r, limit, a);
      var i :| 0 <= i < |r.q.ready| && r.q.ready[i].id == a;
      var ready := r.q.ready + [d];
      assert ready[i].id == a && ready[|r.q.ready|].id == d.id;
    }
  }

  lemma BeforeGrows(s: seq<Delivery>, t: seq<Delivery>, a: Id, b: Id)
    requires Before(s, a, b)
    ensures Before(s + t, a, b)
  {
    var i, j :| 0 <= i < j < |s| && s[i].id == a && s[j].id == b;
    assert (s + t)[i].id == a && (s + t)[j].id == b;
  }

  lemma BeforeShrinks(s: seq<Delivery>, a: Id, b: Id)
    requires Before(s, a, b) && s[0].id != a
    ensures Before(s[1..], a, b)
  {
    var i, j :| 0 <= i < j < |s| && s[i].id == a && s[j].id == b;
    assert s[1..][i - 1].id == a && s[1..][j - 1].id == b;
  }

  /** Every step either appends to the ready list and fetches nothing, or fetches its head. */
  lemma StepKeepsAhead(r: Record, limit: int, e: Event, a: Id, b: Id)
    requires Inv(r, limit) && Enabled(r, limit, e) && Ahead(r, a, b)
    ensures Ahead(Apply(r, limit, e), a, b)
  {
    var r' := Apply(r, limit, e);
    if e.Fetched? {
      if Unfetched(r', a) {
        BeforeShrinks(r.q.ready, a, b);
        HeadIsFirst(r, limit, a, b);
      }
    } else {
      AppendsOnly(r, limit, e);
      hide Enabled, Apply, Before;
      if Unfetched(r, a) { BeforeGrows(r.q.ready, r'.q.ready[|r.q.ready|..], a, b); }
    }
  }

  lemma HeadIsFirst(r: Record, limit: int, a: Id, b: Id)
    requires Inv(r, limit) && Before(r.q.ready, a, b)
    ensures r.q.ready[0].id != b
  {
  }

  lemma AppendsOnly(r: Record, limit: int, e: Event)
    requires Enabled(r, limit, e) && !e.Fetched?
    ensures var r' := Apply(r, limit, e);
      && r'.fetches == r.fetches
      && |r'.q.ready| >= |r.q.ready| && r'.q.ready == r.q.ready + r'.q.ready[|r.q.ready|..]
  {
    hide GivesUp, IsReturnOrder, Owned;
  }

  lemma {:induction false} StaysAhead(records: seq<Record>, limit: int, events: seq<Event>, j: nat, k: nat, i: nat,
                                      a: Id, b: Id)
    requires IsRun(records, limit, events) && j < k < i < |records| && Enters(events, j, a) && Enters(events, k, b)
    ensures Ahead(records[i], a, b)
    decreases i
  {
    hide Inv, Apply, Ahead;
    RunKeepsInv(records, limit, events, i - 1);
    if i == k + 1 {
      HasEntered(records, limit, events, j, k, a);
      EntersBehind(records[k], limit, events[k].d, a);
    } else {
      StaysAhead(records, limit, events, j, k, i - 1, a, b);
      hide Enabled;
      StepKeepsAhead(records[i - 1], limit, events[i - 1], a, b);
    }
  }

  lemma {:induction false} HasEntered(records: seq<Record>, limit: int, events: seq<Event>, j: nat, i: nat, id: Id)
    requires IsRun(records, limit, events) && j < i < |records| && Enters(events, j, id)
    ensures id in records[i].entered
    decreases i
  {
    hide Enabled, Apply;
    if i > j + 1 { HasEntered(records, limit, events, j, i - 1, id); }
    EnteredGrows(records[i - 1], limit, events[i - 1]);
  }

  lemma EnteredGrows(r: Record, limit: int, e: Event)
    requires Enabled(r, limit, e)
    ensures r.entered.Keys <= Apply(r, limit, e).entered.Keys
    ensures e.Enqueued? ==> e.d.id in Apply(r, limit, e).entered
  {
    hide GivesUp, IsReturnOrder, Owned;
  }

  /** If `a` entered before `b`, then `b` is never fetched before `a` has been. */
  lemma FirstComeFirstServed(records: seq<Record>, limit: int, events: seq<Event>, j: nat, k: nat, i: nat, a: Id, b: Id)
    requires IsRun(records, limit, events) && j < k < i < |records| && Enters(events, j, a) && Enters(events, k, b)
    ensures Count(records[i].fetches, b) > 0 ==> Count(records[i].fetches, a) > 0
  {
    StaysAhead(records, limit, events, j, k, i, a, b);
  }
}
