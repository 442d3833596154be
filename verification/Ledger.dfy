/** The durable deliveries seen as a ledger: which are live in memory, which have a row,
    which service call answers for a row that memory no longer has, and what has been
    written down about each. Queues, fetch order and transient deliveries are gone from
    this view; the invariant of the concurrent broker is stated and kept here, one kind
    of ledger entry at a time. */
module Ledger {
  import opened Types
  import opened Tables

  /** Where a service call in progress stands, between two of its atomic steps. */
  datatype Call =
    | Publishing(todo: seq<QueueKey>, message: Message, ids: set<Id>)
    | Saved(key: QueueKey, delivery: Delivery, todo: seq<QueueKey>, message: Message, ids: set<Id>)
    | Marking(id: Id, consumer: string, attempts: nat)
    | Deleting(id: Id)
    | Burying(key: QueueKey, delivery: Delivery)
    | Lettering(key: QueueKey, delivery: Delivery, stored: bool)
    | Releasing(pending: seq<Id>)

  datatype Phase =
    | Down
    | Restoring(snapshot: map<Id, DeliveryRow>, order: seq<Id>, next: nat, unmarked: Option<Id>)
    | Serving

  datatype Cause = ByAck | ByReject

  /** What an observer of the whole system would have written down.
      home:      every delivery ID handed out, and the queue it was minted for;
      saved:     every delivery ever inserted in the delivery table, and its message;
      entered:   deliveries put in memory in this process run;
      settled:   who took which delivery out of memory for good, in this process run;
      deleted:   every delivery removed from the table by DeleteDelivery, and on whose behalf;
      acked:     deliveries whose Ack returned success;
      confirmed: durable deliveries of publishes that returned success;
      lettered:  rejected durable deliveries and their dead-letter row;
      dropped:   rejected durable deliveries deleted, but whose dead letter was never written;
      stranded:  rows that this process run will not touch any more;
      holder:    the call that answers for a delivery taken out of memory or not yet put there. */
  datatype History = History(
    home: map<Id, QueueKey>,
    saved: map<Id, Message>,
    entered: set<Id>,
    settled: map<Id, (string, Cause)>,
    deleted: map<Id, Cause>,
    acked: set<Id>,
    confirmed: set<Id>,
    lettered: map<Id, Id>,
    dropped: set<Id>,
    stranded: set<Id>,
    holder: map<Id, nat>)

  datatype Ledger = Ledger(
    queues: set<QueueKey>,
    live: map<Id, Delivery>,
    rows: map<Id, DeliveryRow>,
    letters: map<Id, LetterRow>,
    calls: map<nat, Call>,
    phase: Phase,
    h: History)

  // ---------------------------------------------------------------- the invariant

  ghost predicate Maps<K, V>(m: map<K, V>, k: K, v: V) {
    k in m && m[k] == v
  }

  /** The delivery a call answers for: its row, or for `Lettering` its missing dead letter. */
  ghost function Held(c: Call): Option<Id> {
    match c
    case Saved(_, d, _, _, _) => Some(d.id)
    case Deleting(id) => Some(id)
    case Burying(_, d) => Some(d.id)
    case Lettering(_, d, stored) => if stored then Some(d.id) else None
    case _ => None
  }

  /** The table holds exactly what was saved and not deleted, unchanged in queue and message. */
  ghost predicate RowOk(l: Ledger, id: Id) {
    && (id in l.rows <==> id in l.h.saved && id !in l.h.deleted)
    && (id in l.h.deleted || id in l.h.entered || id in l.h.confirmed ==> id in l.h.saved)
    && (id in l.h.saved ==> id in l.h.home && l.h.home[id] in l.queues)
    && (id in l.rows ==> l.rows[id].queue == l.h.home[id] && l.rows[id].message == l.h.saved[id])
  }

  /** Whatever a durable queue holds in memory was stored first, with the same message and no more attempts. */
  ghost predicate LiveOk(l: Ledger, id: Id) {
    id in l.live ==>
      && id in l.rows && id in l.h.entered
      && l.live[id].message == l.rows[id].message
      && l.rows[id].attempts <= l.live[id].attempts
  }

  /** A stored delivery missing from memory is held by a call, or stranded, or about to be restored. */
  ghost predicate CoverOk(l: Ledger, id: Id) {
    && (id in l.h.stranded ==> id in l.rows && id !in l.live && id !in l.h.holder)
    && (l.phase.Serving? && id in l.rows && id !in l.live ==> id in l.h.stranded || id in l.h.holder)
    && (id in l.h.holder ==> l.h.holder[id] in l.calls && Held(l.calls[l.h.holder[id]]) == Some(id))
  }

  /** A deleted delivery went to an Ack, to a dead letter, or is a rejected delivery whose letter is missing. */
  ghost predicate AccountOk(l: Ledger, id: Id) {
    && (id in l.h.acked ==> Maps(l.h.deleted, id, ByAck))
    && !(id in l.h.lettered && id in l.h.dropped)
    && (id in l.h.lettered || id in l.h.dropped ==> Maps(l.h.deleted, id, ByReject))
    && (Maps(l.h.deleted, id, ByReject) ==> id in l.h.lettered || id in l.h.dropped || id in l.h.holder)
    && (id in l.h.lettered ==>
          && l.h.lettered[id] in l.letters
          && var row := l.letters[l.h.lettered[id]];
             Maps(l.h.home, id, QueueKey(row.exchange, row.letter.sourceQueue))
               && Maps(l.h.saved, id, row.letter.message))
  }

  ghost predicate EntryOk(l: Ledger, id: Id) {
    RowOk(l, id) && LiveOk(l, id) && CoverOk(l, id) && AccountOk(l, id)
  }

  ghost predicate Parked(l: Ledger, id: Id) {
    id in l.rows && id !in l.live
  }

  ghost predicate CallOk(l: Ledger, c: Call) {
    match c
    case Publishing(_, _, ids) => ids <= l.h.saved.Keys
    case Saved(key, d, _, _, ids) =>
      && ids <= l.h.saved.Keys
      && Parked(l, d.id) && Maps(l.h.home, d.id, key) && l.rows[d.id].message == d.message
      && d.attempts == 0 && l.rows[d.id].attempts == 0 && d.id !in l.h.entered
    case Marking(id, _, attempts) =>
      id in l.h.entered && (id in l.live ==> attempts <= l.live[id].attempts)
    case Deleting(id) => Parked(l, id) && id in l.h.settled && l.h.settled[id].1 == ByAck
    case Burying(key, d) =>
      && Parked(l, d.id) && Maps(l.h.home, d.id, key) && l.rows[d.id].message == d.message
      && d.id in l.h.settled && l.h.settled[d.id].1 == ByReject
    case Lettering(key, d, stored) =>
      stored ==>
        && Maps(l.h.deleted, d.id, ByReject)
        && d.id !in l.h.lettered && d.id !in l.h.dropped
        && Maps(l.h.home, d.id, key) && Maps(l.h.saved, d.id, d.message)
    case Releasing(_) => true
  }

  /** Every call is in order, and is on record as the one that answers for what it holds. */
  ghost predicate CallsOk(l: Ledger) {
    && (forall t :: t in l.calls ==> CallOk(l, l.calls[t]))
    && (forall t :: t in l.calls && Held(l.calls[t]).Some? ==> Maps(l.h.holder, Held(l.calls[t]).value, t))
  }

  ghost predicate SameContents(a: DeliveryRow, b: DeliveryRow) {
    a.queue == b.queue && a.message == b.message && a.attempts == b.attempts
  }

  ghost predicate RestoreOk(l: Ledger)
    requires l.phase.Restoring?
  {
    && l.phase.next <= |l.phase.order|
    && (forall i, j :: 0 <= i < j < |l.phase.order| ==> l.phase.order[i] != l.phase.order[j])
    && (forall id :: id in l.phase.order <==> id in l.rows)
    && l.phase.snapshot.Keys == l.rows.Keys
    && (forall id :: id in l.rows ==> SameContents(l.phase.snapshot[id], l.rows[id]))
    && (forall id :: id in l.live ==> id in l.rows && l.live[id] == LoadedDelivery(id, l.rows[id]))
    && (forall i :: 0 <= i < |l.phase.order| ==> (l.phase.order[i] in l.live <==> i < l.phase.next))
  }

  ghost predicate PhaseOk(l: Ledger) {
    && (!l.phase.Serving? ==> l.calls == map[] && l.h.settled == map[] && l.h.stranded == {} && l.h.holder == map[])
    && (l.phase.Down? ==> l.live == map[] && l.h.entered == {})
    && (l.phase.Restoring? ==> RestoreOk(l))
  }

  ghost predicate LettersDistinct(l: Ledger) {
    forall a, b :: a in l.h.lettered && b in l.h.lettered && a != b ==> l.h.lettered[a] != l.h.lettered[b]
  }

  ghost predicate LedgerOk(l: Ledger) {
    && (forall id :: EntryOk(l, id))
    && CallsOk(l) && PhaseOk(l) && LettersDistinct(l)
  }

  // ---------------------------------------------------------------- frames

  ghost predicate SameMember<T>(s: set<T>, s': set<T>, x: T) {
    x in s <==> x in s'
  }

  /** Nothing written about `id` differs between the two ledgers. */
  ghost predicate SameAt(l: Ledger, l': Ledger, id: Id) {
    && SameEntry(l.live, l'.live, id) && SameEntry(l.rows, l'.rows, id)
    && SameEntry(l.h.home, l'.h.home, id) && SameEntry(l.h.saved, l'.h.saved, id)
    && SameEntry(l.h.settled, l'.h.settled, id) && SameEntry(l.h.deleted, l'.h.deleted, id)
    && SameEntry(l.h.lettered, l'.h.lettered, id) && SameEntry(l.h.holder, l'.h.holder, id)
    && SameMember(l.h.entered, l'.h.entered, id) && SameMember(l.h.acked, l'.h.acked, id)
    && SameMember(l.h.confirmed, l'.h.confirmed, id) && SameMember(l.h.dropped, l'.h.dropped, id)
    && SameMember(l.h.stranded, l'.h.stranded, id)
  }

  ghost predicate Extends<K, V>(m: map<K, V>, m': map<K, V>) {
    forall k :: k in m ==> k in m' && m'[k] == m[k]
  }

  /** Only call `t` and the entries of the delivery `id` that `t` answers for have changed. */
  ghost predicate Local(l: Ledger, l': Ledger, t: nat, id: Id) {
    && l'.queues == l.queues && l'.phase == l.phase && l.phase.Serving?
    && Extends(l.letters, l'.letters) && Extends(l.h.saved, l'.h.saved)
    && l'.calls - {t} == l.calls - {t}
    && (id in l.h.holder ==> l.h.holder[id] == t)
    && (t in l.calls && Held(l.calls[t]).Some? ==> Held(l.calls[t]) == Some(id))
    && (forall x :: x != id ==> SameAt(l, l', x))
    && (id in l.h.entered ==> id in l'.h.entered)
    && (id in l'.live && id in l.h.entered ==> id in l.live && l.live[id].attempts <= l'.live[id].attempts)
  }

  lemma EntryFrame(l: Ledger, l': Ledger, t: nat, id: Id, x: Id)
    requires LedgerOk(l) && Local(l, l', t, id) && x != id
    ensures EntryOk(l', x)
  {
    assert EntryOk(l, x) && SameAt(l, l', x);
    if x in l.h.holder { assert l.h.holder[x] != t && l.h.holder[x] in l'.calls - {t}; }
  }

  lemma CallFrame(l: Ledger, l': Ledger, t: nat, id: Id, u: nat)
    requires LedgerOk(l) && Local(l, l', t, id) && u in l'.calls && u != t
    ensures CallOk(l', l'.calls[u]) && (Held(l'.calls[u]).Some? ==> Maps(l'.h.holder, Held(l'.calls[u]).value, u))
  {
    assert u in l.calls - {t} && u in l'.calls - {t} && l'.calls[u] == l.calls[u];
    assert CallOk(l, l.calls[u]);
    var c := l.calls[u];
    if Held(c).Some? { assert SameAt(l, l', Held(c).value); }
    if c.Marking? && c.id != id { assert SameAt(l, l', c.id); }
  }

  /** A local change keeps the ledger in order if it keeps the changed entry and the changed call in order. */
  lemma LocalKeeps(l: Ledger, l': Ledger, t: nat, id: Id)
    requires LedgerOk(l) && Local(l, l', t, id)
    requires EntryOk(l', id) && LettersDistinct(l')
    requires t in l'.calls ==>
      CallOk(l', l'.calls[t]) && (Held(l'.calls[t]).Some? ==> Maps(l'.h.holder, Held(l'.calls[t]).value, t))
    ensures LedgerOk(l')
  {
    forall x ensures EntryOk(l', x) { if x != id { EntryFrame(l, l', t, id, x); } }
    forall u | u in l'.calls
      ensures CallOk(l', l'.calls[u]) && (Held(l'.calls[u]).Some? ==> Maps(l'.h.holder, Held(l'.calls[u]).value, u))
    { if u != t { CallFrame(l, l', t, id, u); } }
  }

  // ---------------------------------------------------------------- light steps

  /** Starting, advancing or finishing a call that holds no delivery. */
  lemma KeepLight(l: Ledger, l': Ledger, t: nat)
    requires LedgerOk(l) && l.phase.Serving?
    requires t in l.calls ==> Held(l.calls[t]).None?
    requires l' == l.(calls := l'.calls)
    requires l'.calls == l.calls - {t} || (t in l'.calls && l'.calls == l.calls[t := l'.calls[t]])
    requires t in l'.calls ==> Held(l'.calls[t]).None? && CallOk(l', l'.calls[t])
    ensures LedgerOk(l')
  {
    forall x ensures EntryOk(l', x) { assert EntryOk(l, x); }
    forall u | u in l'.calls ensures CallOk(l', l'.calls[u]) { assert u in l.calls ==> CallOk(l, l.calls[u]); }
  }

  /** Minting an ID. */
  lemma KeepMint(l: Ledger, l': Ledger, id: Id, key: QueueKey)
    requires LedgerOk(l) && id !in l.h.home
    requires l' == l.(h := l.h.(home := l.h.home[id := key]))
    ensures LedgerOk(l')
  {
    forall x ensures EntryOk(l', x) { assert EntryOk(l, x); }
    forall u | u in l'.calls ensures CallOk(l', l'.calls[u]) { assert u in l.calls ==> CallOk(l, l.calls[u]); }
  }

  lemma KeepConfirm(l: Ledger, l': Ledger, t: nat)
    requires LedgerOk(l) && t in l.calls && l.calls[t].Publishing?
    requires l' == l.(h := l.h.(confirmed := l.h.confirmed + l.calls[t].ids))
    ensures LedgerOk(l')
  {
    assert CallOk(l, l.calls[t]);
    forall x ensures EntryOk(l', x) { assert EntryOk(l, x); }
    forall u | u in l'.calls ensures CallOk(l', l'.calls[u]) { assert u in l.calls ==> CallOk(l, l.calls[u]); }
  }

  /** Live deliveries may change owner and gain attempts, as fetches and requeues do. */
  lemma KeepTouch(l: Ledger, l': Ledger)
    requires LedgerOk(l) && l.phase.Serving?
    requires l' == l.(live := l'.live) && l'.live.Keys == l.live.Keys
    requires forall id :: id in l.live ==>
      l'.live[id].message == l.live[id].message && l.live[id].attempts <= l'.live[id].attempts
    ensures LedgerOk(l')
  {
    forall x ensures EntryOk(l', x) { assert EntryOk(l, x); }
    forall u | u in l'.calls ensures CallOk(l', l'.calls[u]) { assert u in l.calls ==> CallOk(l, l.calls[u]); }
  }

  /** MarkReady changes neither a row's message nor its attempts. */
  ghost predicate Restatus(l: Ledger, l': Ledger) {
    && l' == l.(rows := l'.rows) && l'.rows.Keys == l.rows.Keys
    && (forall id :: id in l.rows ==> SameContents(l.rows[id], l'.rows[id]))
  }

  lemma RestatusRestoring(l: Ledger, l': Ledger)
    requires l.phase.Restoring? && RestoreOk(l) && Restatus(l, l')
    ensures RestoreOk(l')
  {
    forall id | id in l'.rows ensures SameContents(l'.phase.snapshot[id], l'.rows[id]) {
      assert SameContents(l.phase.snapshot[id], l.rows[id]) && SameContents(l.rows[id], l'.rows[id]);
    }
    forall id | id in l'.live ensures id in l'.rows && l'.live[id] == LoadedDelivery(id, l'.rows[id]) {
      assert id in l.rows && SameContents(l.rows[id], l'.rows[id]);
    }
    hide SameContents, LoadedDelivery;
  }

  lemma KeepStatus(l: Ledger, l': Ledger)
    requires LedgerOk(l) && Restatus(l, l')
    ensures LedgerOk(l')
  {
    if l.phase.Restoring? { RestatusRestoring(l, l'); }
    forall x ensures EntryOk(l', x) { assert EntryOk(l, x); }
    forall u | u in l'.calls ensures CallOk(l', l'.calls[u]) { assert CallOk(l, l.calls[u]); }
  }

  /** MarkInFlight, however late it lands, never writes more attempts than memory knows of. */
  lemma KeepMark(l: Ledger, l': Ledger, t: nat, row: DeliveryRow)
    requires LedgerOk(l) && l.phase.Serving? && t in l.calls && l.calls[t].Marking?
    requires l' == l.(rows := if l.calls[t].id in l.rows then l.rows[l.calls[t].id := row] else l.rows)
    requires l.calls[t].id in l.rows ==>
      row.queue == l.rows[l.calls[t].id].queue && row.message == l.rows[l.calls[t].id].message &&
      row.attempts == l.calls[t].attempts
    ensures LedgerOk(l')
  {
    assert CallOk(l, l.calls[t]);
    forall x ensures EntryOk(l', x) { assert EntryOk(l, x); }
    forall u | u in l'.calls ensures CallOk(l', l'.calls[u]) { assert u in l.calls ==> CallOk(l, l.calls[u]); }
  }

  // ---------------------------------------------------------------- publishing

  lemma HeldIsSaved(l: Ledger, id: Id)
    requires LedgerOk(l)
    ensures id in l.h.holder ==> id in l.h.saved
  {
    assert EntryOk(l, id);
    if id in l.h.holder { assert CallOk(l, l.calls[l.h.holder[id]]); }
  }

  /** An ID never saved occurs nowhere but in the list of homes. */
  lemma NowhereBeforeSave(l: Ledger, id: Id)
    requires LedgerOk(l) && id !in l.h.saved
    ensures id !in l.live && id !in l.rows && id !in l.h.entered && id !in l.h.deleted
    ensures id !in l.h.acked && id !in l.h.confirmed && id !in l.h.lettered && id !in l.h.dropped
    ensures id !in l.h.stranded && id !in l.h.holder
  {
    assert EntryOk(l, id);
    HeldIsSaved(l, id);
  }

  /** Call `t` stores a newly minted delivery and becomes its holder. */
  ghost predicate Inserts(l: Ledger, l': Ledger, t: nat, id: Id, row: DeliveryRow, c: Call) {
    && l.phase.Serving? && t in l.calls && l.calls[t].Publishing?
    && id !in l.h.saved && Maps(l.h.home, id, row.queue) && row.queue in l.queues && row.attempts == 0
    && c.Saved? && c.key == row.queue && c.delivery == Delivery(id, row.message, "", 0)
    && c.ids == l.calls[t].ids + {id}
    && l' == l.(rows := l.rows[id := row], calls := l.calls[t := c],
                h := l.h.(saved := l.h.saved[id := row.message], holder := l.h.holder[id := t]))
  }

  lemma InsertFrame(l: Ledger, l': Ledger, t: nat, id: Id, row: DeliveryRow, c: Call)
    requires Inserts(l, l', t, id, row, c)
    ensures forall x :: x != id ==> SameAt(l, l', x)
  {
  }

  lemma KeepInsert(l: Ledger, l': Ledger, t: nat, id: Id, row: DeliveryRow, c: Call)
    requires LedgerOk(l) && Inserts(l, l', t, id, row, c)
    ensures LedgerOk(l')
  {
    InsertFrame(l, l', t, id, row, c);
    NowhereBeforeSave(l, id);
    assert CallOk(l, l.calls[t]);
    LocalKeeps(l, l', t, id);
  }

  /** The row was written but the publisher never learned of it. */
  lemma KeepInsertLost(l: Ledger, l': Ledger, t: nat, id: Id, row: DeliveryRow)
    requires LedgerOk(l) && InsertsLost(l, l', t, id, row)
    ensures LedgerOk(l')
  {
    InsertLostFrame(l, l', t, id, row);
    InsertLostEntry(l, l', t, id, row);
    hide LedgerOk, Local, EntryOk, LettersDistinct;
    LocalKeeps(l, l', t, id);
  }

  ghost predicate InsertsLost(l: Ledger, l': Ledger, t: nat, id: Id, row: DeliveryRow) {
    && l.phase.Serving? && t in l.calls && l.calls[t].Publishing?
    && id !in l.h.saved && Maps(l.h.home, id, row.queue) && row.queue in l.queues
    && l' == l.(rows := l.rows[id := row], calls := l.calls - {t},
                h := l.h.(saved := l.h.saved[id := row.message], stranded := l.h.stranded + {id}))
  }

  lemma InsertLostFrame(l: Ledger, l': Ledger, t: nat, id: Id, row: DeliveryRow)
    requires LedgerOk(l) && InsertsLost(l, l', t, id, row)
    ensures Local(l, l', t, id)
  {
    NowhereBeforeSave(l, id);
    InsertLostSame(l, l', t, id, row);
    hide LedgerOk, SameAt;
  }

  lemma InsertLostSame(l: Ledger, l': Ledger, t: nat, id: Id, row: DeliveryRow)
    requires InsertsLost(l, l', t, id, row)
    ensures forall x :: x != id ==> SameAt(l, l', x)
  {
  }

  lemma InsertLostEntry(l: Ledger, l': Ledger, t: nat, id: Id, row: DeliveryRow)
    requires LedgerOk(l) && InsertsLost(l, l', t, id, row)
    ensures EntryOk(l', id) && LettersDistinct(l')
  {
    NowhereBeforeSave(l, id);
    assert EntryOk(l, id);
    hide CallOk;
  }

  lemma KeepEnter(l: Ledger, l': Ledger, t: nat)
    requires LedgerOk(l) && EntersMemory(l, l', t)
    ensures LedgerOk(l')
  {
    EnterFrame(l, l', t);
    EnterEntry(l, l', t);
    hide LedgerOk, Local, EntryOk, LettersDistinct;
    LocalKeeps(l, l', t, l.calls[t].delivery.id);
  }

  ghost predicate EntersMemory(l: Ledger, l': Ledger, t: nat) {
    && l.phase.Serving? && t in l.calls && l.calls[t].Saved?
    && var c := l.calls[t];
       l' == l.(live := l.live[c.delivery.id := c.delivery],
                calls := l.calls[t := Publishing(c.todo, c.message, c.ids)],
                h := l.h.(entered := l.h.entered + {c.delivery.id}, holder := l.h.holder - {c.delivery.id}))
  }

  lemma EnterFrame(l: Ledger, l': Ledger, t: nat)
    requires LedgerOk(l) && EntersMemory(l, l', t)
    ensures Local(l, l', t, l.calls[t].delivery.id)
  {
    assert CallOk(l, l.calls[t]);
    hide EntryOk, PhaseOk, LettersDistinct;
  }

  lemma EnterEntry(l: Ledger, l': Ledger, t: nat)
    requires LedgerOk(l) && EntersMemory(l, l', t)
    ensures EntryOk(l', l.calls[t].delivery.id) && CallOk(l', l'.calls[t]) && LettersDistinct(l')
  {
    assert EntryOk(l, l.calls[t].delivery.id);
    assert CallOk(l, l.calls[t]);
  }

  // ---------------------------------------------------------------- settling

  /** An Ack, or a Reject that gives up, takes a delivery out of memory and becomes its holder. */
  ghost predicate Leaves(l: Ledger, l': Ledger, t: nat, id: Id, c: Call, who: string) {
    && l.phase.Serving? && t !in l.calls && id in l.live && id in l.h.home
    && c == (if c.Deleting? then Deleting(id) else Burying(l.h.home[id], l.live[id].(id := id)))
    && l' == l.(live := l.live - {id}, calls := l.calls[t := c], h := l.h.(
         settled := l.h.settled[id := (who, if c.Deleting? then ByAck else ByReject)], holder := l.h.holder[id := t]))
  }

  lemma LeaveFrame(l: Ledger, l': Ledger, t: nat, id: Id, c: Call, who: string)
    requires Leaves(l, l', t, id, c, who)
    ensures forall x :: x != id ==> SameAt(l, l', x)
  {
  }

  lemma HeldIsNotLive(l: Ledger, id: Id)
    requires LedgerOk(l)
    ensures id in l.h.holder ==> id !in l.live
  {
    assert EntryOk(l, id);
    if id in l.h.holder { assert CallOk(l, l.calls[l.h.holder[id]]); }
  }

  lemma KeepLeave(l: Ledger, l': Ledger, t: nat, id: Id, c: Call, who: string)
    requires LedgerOk(l) && Leaves(l, l', t, id, c, who)
    ensures LedgerOk(l')
  {
    LeaveLocal(l, l', t, id, c, who);
    LeaveEntry(l, l', t, id, c, who);
    hide LedgerOk, Local, EntryOk, LettersDistinct, CallOk;
    LocalKeeps(l, l', t, id);
  }

  lemma LeaveLocal(l: Ledger, l': Ledger, t: nat, id: Id, c: Call, who: string)
    requires LedgerOk(l) && Leaves(l, l', t, id, c, who)
    ensures Local(l, l', t, id)
  {
    LeaveFrame(l, l', t, id, c, who);
    HeldIsNotLive(l, id);
    hide LedgerOk, SameAt;
  }

  lemma LeaveEntry(l: Ledger, l': Ledger, t: nat, id: Id, c: Call, who: string)
    requires LedgerOk(l) && Leaves(l, l', t, id, c, who)
    ensures EntryOk(l', id) && CallOk(l', l'.calls[t]) && LettersDistinct(l')
  {
    HeldIsNotLive(l, id);
    assert EntryOk(l, id);
  }

  /** The row of an acknowledged delivery is deleted. */
  lemma KeepDeleteAcked(l: Ledger, l': Ledger, t: nat, acked: set<Id>)
    requires LedgerOk(l) && l.phase.Serving? && t in l.calls && l.calls[t].Deleting?
    requires acked <= {l.calls[t].id}
    requires var id := l.calls[t].id;
      l' == l.(rows := l.rows - {id}, calls := l.calls - {t}, h := l.h.(
        deleted := l.h.deleted[id := ByAck], holder := l.h.holder - {id}, acked := l.h.acked + acked))
    ensures LedgerOk(l')
  {
    assert EntryOk(l, l.calls[t].id);
    assert CallOk(l, l.calls[t]);
    LocalKeeps(l, l', t, l.calls[t].id);
  }

  /** The delete failed: the row stays until the next restart. */
  lemma KeepStrand(l: Ledger, l': Ledger, t: nat, id: Id)
    requires LedgerOk(l) && l.phase.Serving? && t in l.calls && (l.calls[t].Deleting? || l.calls[t].Burying?)
    requires Held(l.calls[t]) == Some(id)
    requires l' == l.(calls := l.calls - {t}, h := l.h.(stranded := l.h.stranded + {id}, holder := l.h.holder - {id}))
    ensures LedgerOk(l')
  {
    assert EntryOk(l, id);
    assert CallOk(l, l.calls[t]);
    LocalKeeps(l, l', t, id);
  }

  /** The row of a rejected delivery is deleted; its dead letter is still to be written. */
  lemma KeepBury(l: Ledger, l': Ledger, t: nat)
    requires LedgerOk(l) && Buries(l, l', t)
    ensures LedgerOk(l')
  {
    BuryFrame(l, l', t);
    BuryEntry(l, l', t);
    hide LedgerOk, Local, EntryOk, LettersDistinct, CallOk;
    LocalKeeps(l, l', t, l.calls[t].delivery.id);
  }

  ghost predicate Buries(l: Ledger, l': Ledger, t: nat) {
    && l.phase.Serving? && t in l.calls && l.calls[t].Burying?
    && var c := l.calls[t];
       l' == l.(rows := l.rows - {c.delivery.id}, calls := l.calls[t := Lettering(c.key, c.delivery, true)],
                h := l.h.(deleted := l.h.deleted[c.delivery.id := ByReject]))
  }

  lemma BuryFrame(l: Ledger, l': Ledger, t: nat)
    requires LedgerOk(l) && Buries(l, l', t)
    ensures Local(l, l', t, l.calls[t].delivery.id)
  {
    assert CallOk(l, l.calls[t]);
    hide EntryOk, PhaseOk, LettersDistinct;
  }

  lemma BuryEntry(l: Ledger, l': Ledger, t: nat)
    requires LedgerOk(l) && Buries(l, l', t)
    ensures EntryOk(l', l.calls[t].delivery.id) && CallOk(l', l'.calls[t]) && LettersDistinct(l')
    ensures Maps(l'.h.holder, l.calls[t].delivery.id, t)
  {
    assert EntryOk(l, l.calls[t].delivery.id);
    assert CallOk(l, l.calls[t]);
  }

  /** The dead letter is written. */
  lemma KeepLetter(l: Ledger, l': Ledger, t: nat, letterId: Id, attempts: nat)
    requires LedgerOk(l) && WritesLetter(l, l', t, letterId, attempts)
    ensures LedgerOk(l')
  {
    LetterFrame(l, l', t, letterId, attempts);
    LetterEntry(l, l', t, letterId, attempts);
    hide LedgerOk, Local, EntryOk, LettersDistinct;
    LocalKeeps(l, l', t, l.calls[t].delivery.id);
  }

  ghost predicate WritesLetter(l: Ledger, l': Ledger, t: nat, letterId: Id, attempts: nat) {
    && l.phase.Serving? && t in l.calls && l.calls[t].Lettering? && l.calls[t].stored && letterId !in l.letters
    && var c := l.calls[t];
       var letter := DeadLetter(c.delivery.message, c.key.name, attempts);
       l' == l.(letters := l.letters[letterId := LetterRow(c.key.exchange, letter)], calls := l.calls - {t},
                h := l.h.(lettered := l.h.lettered[c.delivery.id := letterId], holder := l.h.holder - {c.delivery.id}))
  }

  lemma LetterFrame(l: Ledger, l': Ledger, t: nat, letterId: Id, attempts: nat)
    requires LedgerOk(l) && WritesLetter(l, l', t, letterId, attempts)
    ensures Local(l, l', t, l.calls[t].delivery.id)
  {
    hide EntryOk, CallOk, PhaseOk, LettersDistinct;
  }

  lemma LetterEntry(l: Ledger, l': Ledger, t: nat, letterId: Id, attempts: nat)
    requires LedgerOk(l) && WritesLetter(l, l', t, letterId, attempts)
    ensures EntryOk(l', l.calls[t].delivery.id) && LettersDistinct(l')
  {
    assert EntryOk(l, l.calls[t].delivery.id) && CallOk(l, l.calls[t]);
    forall x | x in l.h.lettered ensures l.h.lettered[x] in l.letters { assert EntryOk(l, x); }
    hide CallOk;
  }

  /** The dead letter could not be written: the message is gone. */
  lemma KeepDrop(l: Ledger, l': Ledger, t: nat)
    requires LedgerOk(l) && l.phase.Serving? && t in l.calls && l.calls[t].Lettering? && l.calls[t].stored
    requires var id := l.calls[t].delivery.id;
      l' == l.(calls := l.calls - {t}, h := l.h.(dropped := l.h.dropped + {id}, holder := l.h.holder - {id}))
    ensures LedgerOk(l')
  {
    assert EntryOk(l, l.calls[t].delivery.id);
    assert CallOk(l, l.calls[t]);
    LocalKeeps(l, l', t, l.calls[t].delivery.id);
  }

  /** A dead letter of a transient queue. */
  lemma KeepTransientLetter(l: Ledger, l': Ledger, letterId: Id, row: LetterRow)
    requires LedgerOk(l) && letterId !in l.letters
    requires l' == l.(letters := l.letters[letterId := row])
    ensures LedgerOk(l')
  {
    forall x ensures EntryOk(l', x) { assert EntryOk(l, x); }
    forall u | u in l'.calls ensures CallOk(l', l'.calls[u]) { assert u in l.calls ==> CallOk(l, l.calls[u]); }
  }

  // ---------------------------------------------------------------- crash and restore

  ghost function Orphans(l: Ledger): set<Id> {
    set t | t in l.calls && l.calls[t].Lettering? && l.calls[t].stored :: l.calls[t].delivery.id
  }

  lemma KeepCrash(l: Ledger, l': Ledger)
    requires LedgerOk(l)
    requires l' == l.(live := map[], calls := map[], phase := Down, h := l.h.(
      entered := {}, settled := map[], stranded := {}, holder := map[], dropped := l.h.dropped + Orphans(l)))
    ensures LedgerOk(l')
  {
    forall x ensures EntryOk(l', x) {
      assert EntryOk(l, x);
      if x in l.h.holder { assert CallOk(l, l.calls[l.h.holder[x]]); }
      if t :| t in l.calls && l.calls[t].Lettering? && l.calls[t].stored && l.calls[t].delivery.id == x {
        assert CallOk(l, l.calls[t]);
      }
    }
  }

  lemma KeepLoad(l: Ledger, l': Ledger, order: seq<Id>)
    requires LedgerOk(l) && l.phase.Down?
    requires forall i, j :: 0 <= i < j < |order| ==> order[i] != order[j]
    requires forall id :: id in order <==> id in l.rows
    requires l' == l.(phase := Restoring(l.rows, order, 0, None))
    ensures LedgerOk(l')
  {
    forall x ensures EntryOk(l', x) { assert EntryOk(l, x); }
  }

  /** The next loaded delivery is put back in memory. */
  ghost predicate Restores(l: Ledger, l': Ledger, id: Id) {
    && l.phase.Restoring? && l.phase.next < |l.phase.order| && id == l.phase.order[l.phase.next]
    && id in l.phase.snapshot
    && l' == l.(live := l.live[id := LoadedDelivery(id, l.phase.snapshot[id])],
                phase := l.phase.(next := l.phase.next + 1, unmarked := Some(id)),
                h := l.h.(entered := l.h.entered + {id}))
  }

  lemma RestoreAdvances(l: Ledger, l': Ledger, id: Id)
    requires l.phase.Restoring? && RestoreOk(l) && Restores(l, l', id)
    ensures RestoreOk(l')
  {
    assert id in l.rows && SameContents(l.phase.snapshot[id], l.rows[id]);
    assert LoadedDelivery(id, l.phase.snapshot[id]) == LoadedDelivery(id, l.rows[id]);
    hide SameContents, LoadedDelivery;
    forall i | 0 <= i < |l.phase.order| ensures l.phase.order[i] in l'.live <==> i < l'.phase.next {
      assert l.phase.order[i] in l.live <==> i < l.phase.next;
    }
    forall x | x in l'.live ensures x in l'.rows && l'.live[x] == LoadedDelivery(x, l'.rows[x]) {
      assert x != id ==> x in l.live;
    }
  }

  lemma KeepRestore(l: Ledger, l': Ledger, id: Id)
    requires LedgerOk(l) && Restores(l, l', id)
    ensures LedgerOk(l')
  {
    RestoreAdvances(l, l', id);
    assert id in l.rows;
    forall x ensures EntryOk(l', x) { assert EntryOk(l, x); }
  }

  lemma KeepMarked(l: Ledger, l': Ledger, unmarked: Option<Id>)
    requires LedgerOk(l) && l.phase.Restoring? && l' == l.(phase := l.phase.(unmarked := unmarked))
    ensures LedgerOk(l')
  {
    forall x ensures EntryOk(l', x) { assert EntryOk(l, x); }
  }

  lemma KeepOpen(l: Ledger, l': Ledger)
    requires LedgerOk(l) && l.phase.Restoring? && l.phase.next == |l.phase.order|
    requires l' == l.(phase := Serving)
    ensures LedgerOk(l')
  {
    forall x ensures EntryOk(l', x) { assert EntryOk(l, x); }
  }
}
