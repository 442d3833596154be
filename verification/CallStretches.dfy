/** Complete calls as stretches of the concurrent system, one kind of call at a time. */
module CallStretches {
  import opened Types
  import opened QueueModel
  import opened Tables
  import opened Ledger
  import opened Protocol
  import opened Stretches
  import ServiceModel
  import Routing

  // ---------------------------------------------------------------- one call at a time

  /** Call `t` is over, and has left this memory and this database. */
  ghost predicate Ended(s: State, s': State, mem: map<QueueKey, QueueState>, db: Tables) {
    s'.phase == s.phase && s'.calls == s.calls && s'.mem == mem && s'.db == db
  }

  /** A fetch ends with the row marked, or not. */
  lemma FetchCall(limit: int, s: State, t: nat, key: QueueKey, c: string, marked: bool) returns (s': State)
    requires Fresh(s, t) && key in s.mem && CanFetch(s.mem[key], c, limit)
    ensures Reaches(limit, Client(t), s, s') && s'.h.home == s.h.home
    ensures var q := s.mem[key]; var d := Taken(q, c);
      Ended(s, s', s.mem[key := Fetch(q, c)],
            if q.durable && marked then MarkInFlight(s.db, d.id, c, d.attempts) else s.db)
  {
    hide Reaches, Fetch, Owned, MarkInFlight;
    s' := DoFetch(s, t, key, c);
    FetchMoves(limit, s, t, key, c);
    if s.mem[key].durable {
      var s1, reply := s', if marked then Success else Refused;
      s' := DoMark(s1, t, reply);
      MarkMoves(limit, s1, t, reply);
      Then(limit, Client(t), s, s1, s');
      assert s1.calls - {t} == s.calls;
    }
  }

  /** An Ack ends with the row deleted, or not. */
  lemma AckCall(limit: int, s: State, t: nat, key: QueueKey, id: Id, c: string, deleted: bool) returns (s': State)
    requires CanSettle(s, t, key, id, c)
    ensures Reaches(limit, Client(t), s, s') && s'.h.home == s.h.home
    ensures var q := s.mem[key];
      Ended(s, s', s.mem[key := Settle(q, id)], if q.durable && deleted then DeleteDelivery(s.db, id) else s.db)
  {
    hide Reaches, Settle, DeleteDelivery;
    s' := DoAck(s, t, key, id, c);
    AckMoves(limit, s, t, key, id, c);
    if s.mem[key].durable {
      var s1, reply := s', if deleted then Success else Refused;
      s' := DoDeleteAcked(s1, t, reply);
      DeleteMoves(limit, s1, t, reply);
      Then(limit, Client(t), s, s1, s');
      assert s1.calls - {t} == s.calls;
    }
  }

  /** A NAck that requeues ends with the row released, or not. */
  lemma RequeueCall(limit: int, s: State, t: nat, key: QueueKey, id: Id, c: string, released: bool) returns (s': State)
    requires CanSettle(s, t, key, id, c) && !GivesUp(s.mem[key], s.mem[key].inFlight[id])
    ensures Reaches(limit, Client(t), s, s') && s'.h.home == s.h.home
    ensures var q := s.mem[key];
      Ended(s, s', s.mem[key := Requeue(q, id)], if q.durable && released then MarkReady(s.db, id) else s.db)
  {
    hide Reaches, Requeue, MarkReady, GivesUp;
    s' := DoNack(s, t, key, id, c);
    NackMoves(limit, s, t, key, id, c);
    if s.mem[key].durable {
      var s1, reply := s', if released then Success else Refused;
      s' := DoRelease(s1, t, reply);
      ReleaseMoves(limit, s1, t, reply);
      Then(limit, Client(t), s, s1, s');
      assert s1.calls - {t} == s.calls;
    }
  }

  /** Where a NAck that gives up stands before it writes the dead letter, or for good if its delete failed. */
  lemma BuryCall(limit: int, s: State, t: nat, key: QueueKey, id: Id, c: string, deleted: bool) returns (s': State)
    requires CanSettle(s, t, key, id, c) && GivesUp(s.mem[key], s.mem[key].inFlight[id])
    ensures Reaches(limit, Client(t), s, s') && s'.h.home == s.h.home
    ensures var q := s.mem[key]; var d := q.inFlight[id];
      && s'.phase == s.phase && s'.mem == s.mem[key := Settle(q, id)]
      && (q.durable && !deleted ==> s'.calls == s.calls && s'.db == s.db)
      && (!q.durable || (deleted && d.id == id) ==>
            && s'.calls == s.calls[t := Lettering(key, d, q.durable)]
            && s'.db == if q.durable then DeleteDelivery(s.db, id) else s.db)
  {
    hide Reaches, Settle, DeleteDelivery, GivesUp;
    s' := DoNack(s, t, key, id, c);
    NackMoves(limit, s, t, key, id, c);
    if s.mem[key].durable {
      var s1, reply := s', if deleted then Success else Refused;
      s' := DoDeleteRejected(s1, t, reply);
      BuryMoves(limit, s1, t, reply);
      Then(limit, Client(t), s, s1, s');
      assert s1.calls - {t} == s.calls;
    }
  }

  /** A NAck that gives up ends without a delete, between delete and letter, or with both done. */
  lemma GiveUpCall(limit: int, s: State, t: nat, key: QueueKey, id: Id, c: string, letterId: Id, deleted: bool,
                   lettered: bool) returns (s': State)
    requires CanSettle(s, t, key, id, c) && s.mem[key].inFlight[id].id == id
    requires GivesUp(s.mem[key], s.mem[key].inFlight[id])
    requires lettered ==> deleted && CanSaveLetter(s.db, key.exchange, letterId)
    ensures Reaches(limit, Client(t), s, s') && s'.h.home == s.h.home
    ensures var q := s.mem[key];
      var db := if q.durable && deleted then DeleteDelivery(s.db, id) else s.db;
      Ended(s, s', s.mem[key := Settle(q, id)],
            if lettered
              then SaveDeadLetter(db, key.exchange, letterId, ServiceModel.LetterFor(key, q.inFlight[id])) else db)
  {
    hide Reaches, Settle, GivesUp;
    var q := s.mem[key];
    s' := BuryCall(limit, s, t, key, id, c, deleted);
    if !q.durable || deleted {
      var s1, reply := s', if lettered then Success else Refused;
      s' := DoSaveLetter(s1, t, letterId, reply);
      LetterMoves(limit, s1, t, letterId, reply);
      Then(limit, Client(t), s, s1, s');
      assert s1.calls - {t} == s.calls;
    }
  }

  // ---------------------------------------------------------------- consumers and transient queues

  lemma JoinCall(limit: int, s: State, t: nat, key: QueueKey, c: string)
    requires s.phase.Serving? && key in s.mem
    ensures Reaches(limit, Client(t), s, Put(s, key, Join(s.mem[key], c)))
  {
    hide Reaches, Join;
    Moves(limit, Client(t), s, JoinStep(key, c));
  }

  lemma AddCall(limit: int, s: State, t: nat, key: QueueKey, autoDelete: bool, maxAttempts: int, filters: seq<string>)
    requires s.phase.Serving? && key !in s.mem
    ensures Reaches(limit, Client(t), s, Put(s, key, NewQueue(key.name, false, autoDelete, maxAttempts, filters)))
  {
    hide Reaches, NewQueue;
    Moves(limit, Client(t), s, AddTransient(key, autoDelete, maxAttempts, filters));
  }

  lemma DropCall(limit: int, s: State, t: nat, key: QueueKey)
    requires s.phase.Serving? && key in s.mem && !s.mem[key].durable && s.mem[key].consumers == {}
    ensures Reaches(limit, Client(t), s, s.(mem := s.mem - {key}))
  {
    hide Reaches;
    Moves(limit, Client(t), s, DropTransient(key));
  }

  /** The call is about to release the rows of all returned deliveries but the first `m`. */
  ghost predicate IsReleasing(c: Call, returned: seq<Delivery>, m: nat) {
    && m <= |returned| && c.Releasing? && |c.pending| == |returned| - m
    && forall i :: 0 <= i < |c.pending| ==> c.pending[i] == returned[m + i].id
  }

  /** The rows of the returned deliveries are released one by one, up to a failing call. */
  lemma {:induction false} ReleaseRows(limit: int, s: State, t: nat, db: Tables, returned: seq<Delivery>, m: nat,
                                      n: nat) returns (s': State)
    requires t in s.calls && m < |returned| && m <= n <= |returned|
    requires IsReleasing(s.calls[t], returned, m)
    requires s.db == ServiceModel.MarkAllReady(db, returned[..m])
    ensures Reaches(limit, Client(t), s, s') && s'.h == s.h
    ensures s'.phase == s.phase && s'.mem == s.mem && s'.calls == s.calls - {t}
    ensures s'.db == ServiceModel.MarkAllReady(db, returned[..n])
    decreases |returned| - m
  {
    hide Reaches, MarkReady;
    var reply := if m < n then Success else Refused;
    s' := DoRelease(s, t, reply);
    ReleaseMoves(limit, s, t, reply);
    if m < n {
      assert returned[..m + 1][..m] == returned[..m];
      if m + 1 < |returned| {
        var s1 := s';
        s' := ReleaseRows(limit, s1, t, db, returned, m + 1, n);
        Then(limit, Client(t), s, s1, s');
        assert s1.calls - {t} == s.calls - {t};
      }
    }
  }

  /** A disconnect ends with the rows of the first `n` returned deliveries released. */
  lemma DisconnectCall(limit: int, s: State, t: nat, key: QueueKey, c: string, returned: seq<Delivery>, n: nat)
      returns (s': State)
    requires Fresh(s, t) && key in s.mem && IsReturnOrder(s.mem[key], c, returned) && n <= |returned|
    ensures Reaches(limit, Client(t), s, s') && s'.h.home == s.h.home
    ensures var q := Disconnect(s.mem[key], c, returned);
      Ended(s, s', if q.autoDelete && q.consumers == {} then s.mem - {key} else s.mem[key := q],
            if q.durable then ServiceModel.MarkAllReady(s.db, returned[..n]) else s.db)
  {
    hide Reaches, Owned, ServiceModel.MarkAllReady, IsReturnOrder;
    s' := DoDisconnect(s, t, key, c, returned);
    DisconnectMoves(limit, s, t, key, c, returned);
    NoneReleased(s.db, returned);
    if s.mem[key].durable && returned != [] {
      var s1 := s';
      s' := ReleaseRows(limit, s1, t, s.db, returned, 0, n);
      Then(limit, Client(t), s, s1, s');
      assert s1.calls - {t} == s.calls;
    }
  }

  lemma NoneReleased(db: Tables, returned: seq<Delivery>)
    ensures ServiceModel.MarkAllReady(db, returned[..0]) == db
  {
  }

  // ---------------------------------------------------------------- publishing

  /** The first `n` queues of the route have been served, and call `t` is about to serve the next. */
  ghost predicate Served(s: State, s': State, t: nat, order: seq<QueueKey>, message: Message, mints: seq<Mint>, n: nat,
                         w': World) {
    && n <= |order| <= |mints| && s'.phase == s.phase && s'.mem == w'.queues && s'.db == w'.db
    && AtPublish(s', t) && s'.calls[t].todo == order[n..] && s'.calls[t].message == message
    && s'.calls - {t} == s.calls
    && MintsFrom(s.h.home, s'.h.home, mints[..n])
  }

  ghost predicate MintsFrom(home: map<Id, QueueKey>, home': map<Id, QueueKey>, mints: seq<Mint>) {
    forall id :: id in home' ==> id in home || HasMint(mints, id)
  }

  ghost predicate HasMint(mints: seq<Mint>, id: Id) {
    exists i :: 0 <= i < |mints| && mints[i].id == id
  }

  /** The IDs of a call were never handed out before. */
  ghost predicate AreNew(home: map<Id, QueueKey>, mints: seq<Mint>) {
    && (forall i :: 0 <= i < |mints| ==> mints[i].id !in home)
    && (forall i, j :: 0 <= i < j < |mints| ==> mints[i].id != mints[j].id)
  }

  /** One more queue is served: the row is stored and the delivery enqueued. */
  lemma OfferCall(limit: int, s: State, t: nat, mint: Mint) returns (s': State)
    requires AtPublish(s, t) && s.calls[t].todo != [] && s.calls[t].todo[0] in s.mem && mint.id !in s.h.home
    requires s.mem[s.calls[t].todo[0]].durable ==> CanSaveDelivery(s.db, s.calls[t].todo[0], mint.id)
    ensures Reaches(limit, Client(t), s, s')
    ensures s'.phase == s.phase && s'.calls - {t} == s.calls - {t} && AtPublish(s', t)
    ensures s'.calls[t].todo == s.calls[t].todo[1..] && s'.calls[t].message == s.calls[t].message
    ensures s'.h.home.Keys == s.h.home.Keys + {mint.id}
    ensures var w' :=
      ServiceModel.Offer(ServiceModel.World({}, s.mem, s.db), s.calls[t].todo[0], s.calls[t].message, mint);
      s'.mem == w'.queues && s'.db == w'.db
  {
    hide Reaches, Enqueue;
    if s.mem[s.calls[t].todo[0]].durable {
      s' := StoreAndEnqueue(limit, s, t, mint);
    } else {
      s' := DoPublishTransient(s, t, mint.id);
      TransientMoves(limit, s, t, mint.id);
    }
  }

  lemma StoreAndEnqueue(limit: int, s: State, t: nat, mint: Mint) returns (s': State)
    requires CanOffer(s, t, mint.id, true) && CanSaveDelivery(s.db, s.calls[t].todo[0], mint.id)
    ensures Reaches(limit, Client(t), s, s')
    ensures s'.phase == s.phase && s'.calls - {t} == s.calls - {t} && AtPublish(s', t)
    ensures s'.calls[t].todo == s.calls[t].todo[1..] && s'.calls[t].message == s.calls[t].message
    ensures s'.h.home.Keys == s.h.home.Keys + {mint.id}
    ensures var key, d := s.calls[t].todo[0], Delivery(mint.id, s.calls[t].message, "", 0);
      s'.mem == s.mem[key := Enqueue(s.mem[key], d)] && s'.db == SaveReadyDelivery(s.db, key, d, mint.time)
  {
    hide Reaches, Enqueue, SaveReadyDelivery;
    var s1 := DoPublishSave(s, t, mint.id, mint.time, Success);
    SaveMoves(limit, s, t, mint.id, mint.time, Success);
    s' := DoPublishEnqueue(s1, t);
    EnqueueMoves(limit, s1, t);
    Then(limit, Client(t), s, s1, s');
  }

  lemma {:induction false} OfferShape(w: World, order: seq<QueueKey>, message: Message, mints: seq<Mint>)
    requires |order| <= |mints| && forall k :: k in order ==> k in w.queues
    ensures var w' := ServiceModel.OfferAll(w, order, message, mints);
      && w'.db.queues == w.db.queues && (forall k :: k in w.queues ==> w'.queues[k].durable == w.queues[k].durable)
      && forall id :: id in w'.db.deliveries ==> id in w.db.deliveries || HasMint(mints[..|order|], id)
  {
    if order != [] {
      var n := |order| - 1;
      assert order[n] in order;
      OfferShape(w, order[..n], message, mints);
      assert mints[..|order|] == mints[..n] + [mints[n]];
      forall id ensures HasMint(mints[..|order|], id) <==> HasMint(mints[..n], id) || id == mints[n].id {
        HasMintLast(mints[..n], mints[n], id);
      }
    }
  }

  lemma HasMintLast(mints: seq<Mint>, mint: Mint, id: Id)
    ensures HasMint(mints + [mint], id) <==> HasMint(mints, id) || id == mint.id
  {
    var all := mints + [mint];
    assert all[|mints|] == mint && forall i :: 0 <= i < |mints| ==> all[i] == mints[i];
  }

  /** The route can be served up to its `n`-th queue. */
  ghost predicate CanServe(s: State, w: World, order: seq<QueueKey>, mints: seq<Mint>, n: nat) {
    && n <= |order| <= |mints| && s.mem == w.queues && s.db == w.db
    && (forall k :: k in order ==> k in w.queues)
    && (forall i :: 0 <= i < n && w.queues[order[i]].durable ==> order[i] in w.db.queues)
    && AreNew(s.h.home, mints) && (forall i :: 0 <= i < |mints| ==> mints[i].id !in w.db.deliveries)
  }

  lemma CanOfferNext(s: State, s': State, t: nat, w: World, order: seq<QueueKey>, message: Message, mints: seq<Mint>,
                     n: nat)
    requires CanServe(s, w, order, mints, n + 1) && t !in s.calls
    requires Served(s, s', t, order, message, mints, n, ServiceModel.OfferAll(w, order[..n], message, mints))
    ensures s'.calls[t].todo != [] && s'.calls[t].todo[0] == order[n] && order[n] in s'.mem && mints[n].id !in s'.h.home
    ensures s'.mem[order[n]].durable ==> CanSaveDelivery(s'.db, order[n], mints[n].id)
  {
    hide ServiceModel.OfferAll;
    assert order[n] in order;
    OfferShape(w, order[..n], message, mints);
  }

  lemma ServeNext(limit: int, s: State, s1: State, t: nat, w: World, order: seq<QueueKey>, message: Message,
                  mints: seq<Mint>, n: nat) returns (s': State)
    requires CanServe(s, w, order, mints, n + 1) && t !in s.calls
    requires Served(s, s1, t, order, message, mints, n, ServiceModel.OfferAll(w, order[..n], message, mints))
    ensures Reaches(limit, Client(t), s1, s')
    ensures Served(s, s', t, order, message, mints, n + 1, ServiceModel.OfferAll(w, order[..n + 1], message, mints))
  {
    hide Reaches, ServiceModel.Offer;
    CanOfferNext(s, s1, t, w, order, message, mints, n);
    s' := OfferCall(limit, s1, t, mints[n]);
    OfferLast(w, order, message, mints, n);
    MintOneMore(s.h.home, s1.h.home, s'.h.home, mints, n);
    hide ServiceModel.OfferAll, CanServe, MintsFrom;
    assert s1.calls - {t} == s.calls;
  }

  lemma MintOneMore(home: map<Id, QueueKey>, home1: map<Id, QueueKey>, home': map<Id, QueueKey>, mints: seq<Mint>,
                    n: nat)
    requires n < |mints| && MintsFrom(home, home1, mints[..n]) && home'.Keys == home1.Keys + {mints[n].id}
    ensures MintsFrom(home, home', mints[..n + 1])
  {
    forall id | id in home' && id !in home ensures HasMint(mints[..n + 1], id) {
      if id in home1 {
        var i :| 0 <= i < n && mints[..n][i].id == id;
        assert mints[..n + 1][i].id == id;
      } else {
        assert mints[..n + 1][n].id == id;
      }
    }
  }

  lemma OfferLast(w: World, order: seq<QueueKey>, message: Message, mints: seq<Mint>, n: nat)
    requires n < |order| <= |mints| && forall k :: k in order ==> k in w.queues
    ensures order[n] in w.queues
    ensures var w1 := ServiceModel.OfferAll(w, order[..n], message, mints);
      var w' := ServiceModel.Offer(ServiceModel.World({}, w1.queues, w1.db), order[n], message, mints[n]);
      && w'.queues == ServiceModel.OfferAll(w, order[..n + 1], message, mints).queues
      && w'.db == ServiceModel.OfferAll(w, order[..n + 1], message, mints).db
  {
    assert order[n] in order;
    assert order[..n + 1][..n] == order[..n] && order[..n + 1][n] == order[n];
  }

  lemma {:induction false} ServeRoute(limit: int, s: State, t: nat, w: World, exchange: string, order: seq<QueueKey>,
                                      message: Message, mints: seq<Mint>, n: nat) returns (s': State)
    requires Fresh(s, t) && Routing.IsValidKey(message.routingKey)
    requires IsRoute(s.mem, exchange, message.routingKey, order)
    requires CanServe(s, w, order, mints, n)
    ensures Reaches(limit, Client(t), s, s')
    ensures Served(s, s', t, order, message, mints, n, ServiceModel.OfferAll(w, order[..n], message, mints))
  {
    hide Reaches, IsRoute, Routing.IsValidKey, CanOffer, AreNew;
    if n == 0 {
      s' := Begin(s, t, Publishing(order, message, {}));
      BeginMoves(limit, s, t, exchange, message, order);
      assert s'.calls - {t} == s.calls;
    } else {
      var s1 := ServeRoute(limit, s, t, w, exchange, order, message, mints, n - 1);
      hide Served, ServiceModel.OfferAll;
      s' := ServeNext(limit, s, s1, t, w, order, message, mints, n - 1);
      Then(limit, Client(t), s, s1, s');
    }
  }

  /** A publish that succeeds ends with the whole route served. */
  lemma PublishCall(limit: int, s: State, t: nat, w: World, exchange: string, order: seq<QueueKey>, message: Message,
                    mints: seq<Mint>) returns (s': State)
    requires Fresh(s, t) && Routing.IsValidKey(message.routingKey)
    requires IsRoute(s.mem, exchange, message.routingKey, order)
    requires CanServe(s, w, order, mints, |order|)
    ensures Reaches(limit, Client(t), s, s') && MintsFrom(s.h.home, s'.h.home, mints)
    ensures var w' := ServiceModel.OfferAll(w, order, message, mints); Ended(s, s', w'.queues, w'.db)
  {
    hide Reaches, IsRoute, Routing.IsValidKey, ServiceModel.OfferAll, AreNew;
    var s1 := ServeRoute(limit, s, t, w, exchange, order, message, mints, |order|);
    assert order[..|order|] == order;
    s' := DoPublishDone(s1, t);
    DoneMoves(limit, s1, t);
    Then(limit, Client(t), s, s1, s');
    MoreMints(s.h.home, s'.h.home, mints, |order|);
  }

  lemma MoreMints(home: map<Id, QueueKey>, home': map<Id, QueueKey>, mints: seq<Mint>, n: nat)
    requires n <= |mints| && MintsFrom(home, home', mints[..n])
    ensures MintsFrom(home, home', mints)
  {
    forall id | id in home' && id !in home ensures HasMint(mints, id) {
      var i :| 0 <= i < n && mints[..n][i].id == id;
      assert mints[i].id == id;
    }
  }

  /** One that fails ends with a part of it served, and perhaps one more row stored. */
  lemma BrokenPublishCall(limit: int, s: State, t: nat, w: World, exchange: string, order: seq<QueueKey>,
                          message: Message,
                          mints: seq<Mint>, n: nat, stored: bool) returns (s': State)
    requires Fresh(s, t) && Routing.IsValidKey(message.routingKey)
    requires IsRoute(s.mem, exchange, message.routingKey, order)
    requires n < |order| && CanServe(s, w, order, mints, if stored then n + 1 else n) && w.queues[order[n]].durable
    ensures Reaches(limit, Client(t), s, s') && MintsFrom(s.h.home, s'.h.home, mints)
    ensures var w1 := ServiceModel.OfferAll(w, order[..n], message, mints);
      Ended(s, s', w1.queues,
            if stored
              then SaveReadyDelivery(w1.db, order[n], Delivery(mints[n].id, message, "", 0), mints[n].time) else w1.db)
  {
    hide Reaches, IsRoute, Routing.IsValidKey, ServiceModel.OfferAll, SaveReadyDelivery;
    assert order[n] in order;
    var s1 := ServeRoute(limit, s, t, w, exchange, order, message, mints, n);
    OfferShape(w, order[..n], message, mints);
    var reply := if stored then Lost else Refused;
    s' := DoPublishSave(s1, t, mints[n].id, mints[n].time, reply);
    SaveMoves(limit, s1, t, mints[n].id, mints[n].time, reply);
    Then(limit, Client(t), s, s1, s');
    MintOneMore(s.h.home, s1.h.home, s'.h.home, mints, n);
    MoreMints(s.h.home, s'.h.home, mints, n + 1);
  }
}
