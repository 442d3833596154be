/** The stores that interleaved calls, failing repository calls and crashes leave behind, and what Restore makes of
    them. */
module ProtocolStores {
  import opened Types
  import opened Tables
  import opened Ledger
  import opened Protocol
  import opened ProtocolInvariant
  import opened ProtocolSteps
  import opened ProtocolFrames
  import opened RestoreModel
  import ServiceModel
  import ServiceRuns
  import ServiceFaults

  lemma StepKeepsTopology(s: State, limit: int, step: Step)
    requires Enabled(s, limit, step)
    ensures SameTopology(s, Apply(s, limit, step))
  {
    hide Enabled, Apply, OldCalls, SameTopology, Extends;
    if IsPublishing(step) {
      PublishingSteps(s, limit, step);
    } else if IsSettling(step) {
      SettlingSteps(s, limit, step);
    } else if IsQuiet(step) {
      QuietSteps(s, limit, step);
    } else {
      RestartingSteps(s, limit, step);
    }
  }

  lemma {:induction false} RunKeepsTopology(states: seq<State>, limit: int, steps: seq<Step>, i: nat)
    requires IsRun(states, limit, steps) && i < |states|
    ensures SameTopology(states[0], states[i])
  {
    hide Enabled, Apply, Init;
    if i > 0 {
      RunKeepsTopology(states, limit, steps, i - 1);
      StepKeepsTopology(states[i - 1], limit, steps[i - 1]);
    }
  }

  lemma RowsAreLinked(s: State)
    requires Inv(s)
    ensures Linked(s.db)
  {
    forall id | id in s.db.deliveries ensures s.db.deliveries[id].queue in s.db.queues {
      assert EntryOk(LedgerOf(s), id);
    }
  }

  /** If the first start finds a sound store, with registrable queues and valid filters, so does every later one. */
  lemma StoreStaysSound(states: seq<State>, limit: int, steps: seq<Step>, i: nat)
    requires IsRun(states, limit, steps) && i < |states| && ServiceFaults.DbOk(states[0].db)
    ensures ServiceFaults.DbOk(states[i].db)
  {
    RunKeepsInv(states, limit, steps, i);
    RunKeepsTopology(states, limit, steps, i);
    hide IsRun, Inv;
    RowsAreLinked(states[i]);
  }

  /** Whatever was interrupted, no check of Restore can fail, and what it restores agrees with the store: every exchange
      and queue it is told about is found, no queue is registered twice, and no registration is turned down. */
  lemma RestoreIsTotal(states: seq<State>, limit: int, steps: seq<Step>, i: nat, l: Loaded)
    requires IsRun(states, limit, steps) && i < |states| && ServiceFaults.DbOk(states[0].db) && IsLoad(states[i].db, l)
    ensures forall a, b :: 0 <= a < b < |l.queues| ==> l.queues[a].key != l.queues[b].key
    ensures forall a :: 0 <= a < |l.queues| ==>
      var q := l.queues[a];
      && q.key.exchange in l.exchanges
      && ServiceModel.RegistrationError(None, q.durable, q.autoDelete, q.maxAttempts, q.filters) == None
    ensures forall d :: 0 <= d < |l.deliveries| ==>
      exists a :: 0 <= a < |l.queues| && l.queues[a].key == l.deliveries[d].key
    ensures Linked(states[i].db) && ServiceRuns.Agree(ServiceFaults.RestoredWorld(states[i].db, l))
  {
    StoreStaysSound(states, limit, steps, i);
    hide IsRun, ServiceFaults.DbOk, IsLoad, ServiceRuns.Agree, ServiceModel.RegistrationError;
    ServiceFaults.SoundIsRestorable(states[i].db, l);
  }
}
