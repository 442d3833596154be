/** The concurrent broker seen through its ledger: the part of the invariant that speaks of
    queues, the ledger a state stands for, and the proof that every step keeps both. */
module ProtocolInvariant {
  import opened Types
  import opened QueueModel
  import opened Tables
  import opened Ledger
  import opened Protocol

  /** A queue in memory: well formed, durable exactly if stored, holding only deliveries minted for it. */
  ghost predicate QueueOk(db: Tables, home: map<Id, QueueKey>, key: QueueKey, q: QueueState) {
    && WellFormed(q)
    && (q.durable <==> key in db.queues)
    && (q.durable ==> !q.autoDelete)
    && (forall id :: id in Live(q) ==> Maps(home, id, key))
  }

  ghost predicate MemoryOk(s: State) {
    && TopologyOk(s.db)
    && (forall k :: k in s.mem ==> QueueOk(s.db, s.h.home, k, s.mem[k]))
    && (s.phase.Down? ==> s.mem == map[])
    && (s.phase.Serving? ==> s.db.queues.Keys <= s.mem.Keys)
    && (s.phase.Restoring? ==>
          && s.mem.Keys == s.db.queues.Keys
          && forall k :: k in s.mem ==> s.mem[k].inFlight == map[] && s.mem[k].consumers == {})
  }

  ghost predicate IsDurableLive(s: State, id: Id) {
    && id in s.h.home && s.h.home[id] in s.db.queues && s.h.home[id] in s.mem
    && id in Live(s.mem[s.h.home[id]])
  }

  /** The deliveries that durable queues hold in memory, by ID. */
  ghost function DurableLive(s: State): map<Id, Delivery> {
    map id | id in s.h.home && IsDurableLive(s, id) :: Live(s.mem[s.h.home[id]])[id]
  }

  ghost function LedgerOf(s: State): Ledger {
    Ledger(s.db.queues.Keys, DurableLive(s), s.db.deliveries, s.db.letters, s.calls, s.phase, s.h)
  }

  ghost predicate Inv(s: State) {
    MemoryOk(s) && LedgerOk(LedgerOf(s))
  }

  // ---------------------------------------------------------------- how memory shows in the ledger

  /** Changing transient queues only, the ledger sees nothing. */
  lemma TransientUnseen(s: State, s': State, key: QueueKey)
    requires key !in s.db.queues && s'.db.queues == s.db.queues
    requires s'.mem - {key} == s.mem - {key}
    requires Extends(s.h.home, s'.h.home) && forall id :: id in s'.h.home && id !in s.h.home ==> s'.h.home[id] == key
    ensures DurableLive(s') == DurableLive(s)
  {
    hide Live, IsDurableLive;
    HomeOfLive(s);
    HomeOfLive(s');
    forall id ensures id in s'.h.home && IsDurableLive(s', id) <==> id in s.h.home && IsDurableLive(s, id)
      ensures IsDurableLive(s, id) ==>
        id in s'.h.home && s'.h.home[id] in s'.mem && s'.mem[s'.h.home[id]] == s.mem[s.h.home[id]]
    {
      TransientUnseenAt(s, s', key, id);
    }
  }

  lemma TransientUnseenAt(s: State, s': State, key: QueueKey, id: Id)
    requires key !in s.db.queues && s'.db.queues == s.db.queues && s'.mem - {key} == s.mem - {key}
    requires Extends(s.h.home, s'.h.home) && forall x :: x in s'.h.home && x !in s.h.home ==> s'.h.home[x] == key
    ensures IsDurableLive(s', id) <==> IsDurableLive(s, id)
    ensures IsDurableLive(s, id) ==>
      id in s.h.home && id in s'.h.home && s'.h.home[id] in s'.mem && s'.mem[s'.h.home[id]] == s.mem[s.h.home[id]]
  {
    hide Live;
    if id in s.h.home && s.h.home[id] != key { SameWithout(s.mem, s'.mem, key, s.h.home[id]); }
  }

  lemma SameWithout<K, V>(m: map<K, V>, m': map<K, V>, key: K, k: K)
    requires m' - {key} == m - {key} && k != key
    ensures SameEntry(m, m', k)
  {
    assert k in m <==> k in m - {key};
    assert k in m' <==> k in m' - {key};
  }

  /** Memory unchanged, the ledger's view of it is unchanged, whatever IDs are minted meanwhile. */
  lemma MemoryUnseen(s: State, s': State)
    requires MemoryOk(s) && s'.mem == s.mem && s'.db.queues == s.db.queues && Extends(s.h.home, s'.h.home)
    ensures DurableLive(s') == DurableLive(s)
  {
    hide Live, WellFormed, IsDurableLive, MemoryOk;
    forall id ensures IsDurableLive(s', id) <==> IsDurableLive(s, id)
      ensures IsDurableLive(s, id) ==> id in s.h.home && id in s'.h.home && s'.h.home[id] == s.h.home[id]
    {
      MemoryUnseenAt(s, s', id);
    }
    HomeOfLive(s);
    HomeOfLive(s');
  }

  lemma MemoryUnseenAt(s: State, s': State, id: Id)
    requires MemoryOk(s) && s'.mem == s.mem && s'.db.queues == s.db.queues && Extends(s.h.home, s'.h.home)
    ensures IsDurableLive(s', id) <==> IsDurableLive(s, id)
    ensures IsDurableLive(s, id) ==> id in s.h.home && id in s'.h.home && s'.h.home[id] == s.h.home[id]
  {
    hide Live, WellFormed;
    if IsDurableLive(s', id) { assert QueueOk(s.db, s.h.home, s'.h.home[id], s.mem[s'.h.home[id]]); }
  }

  lemma HomeOfLive(s: State)
    ensures forall id :: IsDurableLive(s, id) ==> id in s.h.home && s.h.home[id] in s.mem
  {
  }

  /** Changing one durable queue changes the ledger as it changes that queue. */
  lemma DurableSeen(s: State, s': State, key: QueueKey, q: QueueState)
    requires MemoryOk(s) && key in s.mem && key in s.db.queues
    requires s'.mem == s.mem[key := q] && s'.db.queues == s.db.queues && s'.h.home == s.h.home
    requires forall id :: id in Live(q) ==> Maps(s.h.home, id, key)
    ensures forall id :: id in DurableLive(s') <==>
      if Maps(s.h.home, id, key) then id in Live(q) else id in DurableLive(s)
    ensures forall id :: id in DurableLive(s') ==>
      DurableLive(s')[id] == if Maps(s.h.home, id, key) then Live(q)[id] else DurableLive(s)[id]
  {
  }

  /** What the ledger sees of one durable queue. */
  lemma DurableAt(s: State, key: QueueKey)
    requires MemoryOk(s) && key in s.mem && key in s.db.queues
    ensures forall id :: Maps(s.h.home, id, key) ==> (id in DurableLive(s) <==> id in Live(s.mem[key]))
    ensures forall id :: id in Live(s.mem[key]) ==>
      Maps(s.h.home, id, key) && Maps(DurableLive(s), id, Live(s.mem[key])[id])
  {
    hide Live, WellFormed;
    assert QueueOk(s.db, s.h.home, key, s.mem[key]);
  }

  lemma DurableAdds(s: State, s': State, key: QueueKey, q: QueueState, id: Id, d: Delivery)
    requires MemoryOk(s) && key in s.mem && key in s.db.queues && Maps(s.h.home, id, key)
    requires s'.mem == s.mem[key := q] && s'.db.queues == s.db.queues && s'.h.home == s.h.home
    requires Live(q) == Live(s.mem[key])[id := d]
    ensures DurableLive(s') == DurableLive(s)[id := d]
  {
    hide Live, DurableLive, IsDurableLive;
    DurableAt(s, key);
    DurableSeen(s, s', key, q);
  }

  lemma DurableDrops(s: State, s': State, key: QueueKey, q: QueueState, id: Id)
    requires MemoryOk(s) && key in s.mem && key in s.db.queues && Maps(s.h.home, id, key)
    requires s'.mem == s.mem[key := q] && s'.db.queues == s.db.queues && s'.h.home == s.h.home
    requires Live(q) == Live(s.mem[key]) - {id}
    ensures DurableLive(s') == DurableLive(s) - {id}
  {
    hide Live, DurableLive, IsDurableLive;
    DurableAt(s, key);
    DurableSeen(s, s', key, q);
  }

  lemma QueueFrame(s: State, s': State, key: QueueKey, q: QueueState)
    requires QueueOk(s.db, s.h.home, key, q)
    requires s'.db.queues == s.db.queues && Extends(s.h.home, s'.h.home)
    ensures QueueOk(s'.db, s'.h.home, key, q)
  {
    hide Live, WellFormed;
  }

  lemma MemoryFrame(s: State, s': State)
    requires MemoryOk(s) && s'.mem == s.mem && s'.phase == s.phase && Extends(s.h.home, s'.h.home)
    requires s'.db.queues == s.db.queues && s'.db.exchanges == s.db.exchanges
    ensures MemoryOk(s')
  {
    forall k | k in s'.mem ensures QueueOk(s'.db, s'.h.home, k, s'.mem[k]) { QueueFrame(s, s', k, s.mem[k]); }
  }

  lemma PutKeepsMemory(s: State, s': State, key: QueueKey)
    requires MemoryOk(s) && s.phase.Serving? && s'.phase.Serving?
    requires s'.db.queues == s.db.queues && s'.db.exchanges == s.db.exchanges && Extends(s.h.home, s'.h.home)
    requires key in s'.mem && s'.mem == s.mem[key := s'.mem[key]]
    requires QueueOk(s'.db, s'.h.home, key, s'.mem[key])
    ensures MemoryOk(s')
  {
    forall k | k in s'.mem ensures QueueOk(s'.db, s'.h.home, k, s'.mem[k]) {
      if k != key { QueueFrame(s, s', k, s.mem[k]); }
    }
  }
}
