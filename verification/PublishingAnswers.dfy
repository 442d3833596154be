/** What a caller sees of a publish: each error and when it comes, and for a success one delivery, and one row if the
    queue is durable, for every queue with a matching filter. */
module PublishingAnswers {
  import opened Types
  import opened QueueModel
  import opened Tables
  import opened ServiceModel
  import opened ServiceFaults
  import opened ServiceAnswers
  import ServiceRuns
  import Routing

  /** The queues a message is for. */
  ghost predicate IsFor(w: World, k: QueueKey, exchange: string, message: Message) {
    && k in w.queues && k.exchange == exchange
    && exists f :: f in w.queues[k].filters && Routing.Match(f, message.routingKey)
  }

  /** The queue gets the message as one new delivery at its end, under an ID drawn for this call. */
  ghost predicate GetsOne(q: QueueState, q': QueueState, message: Message, mint: Mint) {
    && q'.ready == q.ready + [Delivery(mint.id, message, "", 0)]
    && q' == q.(ready := q'.ready, channels := q'.channels)
  }

  ghost predicate HasRow(db: Tables, k: QueueKey, message: Message, mint: Mint) {
    mint.id in db.deliveries && db.deliveries[mint.id] == DeliveryRow(k, message, StatusReady, 0, None, mint.time)
  }

  ghost predicate PublishErrors(limits: Limits, w: World, exchange: string, message: Message, r: Outcome) {
    var long, big := |message.routingKey| > limits.maxRoutingKeyLength, |message.payload| > limits.maxMessageSize;
    && (r == Failed(MessageTooLarge) <==> big)
    && (r == Failed(RoutingKeyTooLong) <==> !big && long)
    && (r == Failed(ExchangeNotFound) <==> !big && !long && exchange !in w.exchanges)
    && (r == Failed(InvalidRoutingKey) <==>
          !big && !long && exchange in w.exchanges && !Routing.IsValidKey(message.routingKey))
  }

  ghost predicate PublishAnswer(limits: Limits, w: World, exchange: string, message: Message, mints: seq<Mint>,
                                r: Outcome, w': World) {
    && PublishErrors(limits, w, exchange, message, r)
    && if !GotThrough(r) then w' == w else
       && w'.queues.Keys == w.queues.Keys
       && (forall k :: k in w.queues ==>
             || w'.queues[k] == w.queues[k]
             || (IsFor(w, k, exchange, message) &&
                   exists mint :: mint in mints && GetsOne(w.queues[k], w'.queues[k], message, mint)))
       && (r == Done ==> AllServed(w, exchange, message, mints, w'))
  }

  /** Each queue the message is for got it, with its row if the queue is durable. */
  ghost predicate AllServed(w: World, exchange: string, message: Message, mints: seq<Mint>, w': World) {
    forall k :: IsFor(w, k, exchange, message) ==> exists mint :: mint in mints && ServedWith(w, k, message, mint, w')
  }

  ghost predicate ServedWith(w: World, k: QueueKey, message: Message, mint: Mint, w': World)
    requires k in w.queues
  {
    && k in w'.queues && GetsOne(w.queues[k], w'.queues[k], message, mint)
    && (w.queues[k].durable ==> HasRow(w'.db, k, message, mint))
  }

  lemma IsForIsWanted(w: World, call: Request, k: QueueKey)
    requires call.Publish? && k in w.queues
    ensures IsFor(w, k, call.exchange, call.message) <==> Wanted(w, call, k)
  {
    hide Routing.Match;
    var fs, key := w.queues[k].filters, call.message.routingKey;
    if f :| f in fs && Routing.Match(f, key) { var i :| 0 <= i < |fs| && fs[i] == f; }
    if i :| 0 <= i < |fs| && Routing.Match(fs[i], key) { assert fs[i] in fs; }
  }

  lemma PublishRefusals(limits: Limits, w: World, call: Request)
    requires call.Publish?
    ensures var e := Refusal(limits, w, call);
      PublishErrors(limits, w, call.exchange, call.message, if e == None then Done else Failed(e.value))
    ensures Refusal(limits, w, call).Some? ==> !GotThrough(Failed(Refusal(limits, w, call).value))
  {
    hide Routing.IsValidKey;
  }

  lemma NoPublishError(limits: Limits, w: World, exchange: string, message: Message)
    requires PublishErrors(limits, w, exchange, message, Done)
    ensures PublishErrors(limits, w, exchange, message, Failed(StorageError))
  {
  }

  lemma GotOneGetsOne(w: World, call: Request, k: QueueKey, w': World)
    requires call.Publish? && k in w.queues && k in w'.queues && GotOne(w, call, k, w')
    ensures exists mint :: mint in call.mints && GetsOne(w.queues[k], w'.queues[k], call.message, mint)
  {
    var i :| 0 <= i < |call.order| <= |call.mints| && call.order[i] == k &&
      w'.queues[k] == Enqueue(w.queues[k], ServiceRuns.Minted(call.message, call.mints[i]));
    assert call.mints[i] in call.mints;
  }

  lemma OnRoute(limits: Limits, w: World, call: Request, k: QueueKey) returns (i: nat)
    requires call.Publish? && Accepts(limits, w, call) && IsFor(w, k, call.exchange, call.message)
    ensures |call.order| <= |call.mints| && forall x :: x in call.order ==> x in w.queues
    ensures forall a, b :: 0 <= a < b < |call.order| ==> call.order[a] != call.order[b]
    ensures i < |call.order| && call.order[i] == k && k in w.queues
  {
    IsForIsWanted(w, call, k);
    RouteIsWanted(limits, w, call);
    i :| 0 <= i < |call.order| && call.order[i] == k;
  }

  /** A served publish: every queue of the route has its delivery, and its row if it is durable. */
  lemma ServedFully(limits: Limits, w: World, call: Request, k: QueueKey)
    requires call.Publish? && Accepts(limits, w, call) && IsFor(w, k, call.exchange, call.message)
    ensures var w' := OfferAll(w, call.order, call.message, call.mints);
      exists mint :: mint in call.mints && ServedWith(w, k, call.message, mint, w')
  {
    hide Accepts, IsFor, OfferAll, GetsOne, HasRow, ServiceRuns.QueuesFanOut, ServiceRuns.RowsFanOut;
    var order, message, mints := call.order, call.message, call.mints;
    var i := OnRoute(limits, w, call, k);
    FreshMints(limits, w, call);
    var w' := OfferAll(w, order, message, mints);
    ServiceRuns.QueuesFanOutAll(w, order, message, mints);
    ServiceRuns.RowsFanOutAll(w, order, message, mints);
    QueueServed(w, w', order, message, mints, i);
    if w.queues[k].durable { RowServed(w, w', order, message, mints, i); }
    assert mints[i] in mints && ServedWith(w, k, message, mints[i], w');
  }

  lemma FreshMints(limits: Limits, w: World, call: Request)
    requires call.Publish? && Accepts(limits, w, call)
    ensures forall i, j :: 0 <= i < j < |call.mints| ==> call.mints[i].id != call.mints[j].id
    ensures forall i :: 0 <= i < |call.mints| ==> call.mints[i].id !in w.db.deliveries
  {
    hide Live, IsRoute;
  }

  lemma QueueServed(w: World, w': World, order: seq<QueueKey>, message: Message, mints: seq<Mint>, i: nat)
    requires i < |order| <= |mints| && forall k :: k in order ==> k in w.queues
    requires ServiceRuns.QueuesFanOut(w, w', order, message, mints)
    ensures order[i] in w.queues && order[i] in w'.queues
    ensures GetsOne(w.queues[order[i]], w'.queues[order[i]], message, mints[i])
  {
    assert order[i] in order;
  }

  lemma RowServed(w: World, w': World, order: seq<QueueKey>, message: Message, mints: seq<Mint>, i: nat)
    requires i < |order| <= |mints| && forall k :: k in order ==> k in w.queues
    requires ServiceRuns.RowsFanOut(w, w', order, message, mints) && w.queues[order[i]].durable
    requires forall a, b :: 0 <= a < b < |mints| ==> mints[a].id != mints[b].id
    requires mints[i].id !in w.db.deliveries
    ensures HasRow(w'.db, order[i], message, mints[i])
  {
    var id := mints[i].id;
    assert id in w'.db.deliveries;
    var j :| ServiceRuns.IsNewRow(w, order, message, mints, j, id, w'.db.deliveries[id]);
    assert j == i;
  }

  lemma PublishAnswers(limits: Limits, w: World, call: Request, r: Outcome, w': World)
    requires call.Publish? && Leads(limits, w, call, r, w')
    ensures PublishAnswer(limits, w, call.exchange, call.message, call.mints, r, w')
  {
    PublishRefusals(limits, w, call);
    ExactFanOut(limits, w, call, r, w');
    hide Leads, Refusal, PublishErrors, IsFor, GetsOne, HasRow, Wanted, GotOne;
    if Refusal(limits, w, call) == None {
      AcceptedEnds(limits, w, call, r, w');
      NoPublishError(limits, w, call.exchange, call.message);
      hide ServedOrBroken;
      forall k | k in w.queues
        ensures || w'.queues[k] == w.queues[k]
                || (IsFor(w, k, call.exchange, call.message) &&
                      exists mint :: mint in call.mints && GetsOne(w.queues[k], w'.queues[k], call.message, mint))
      {
        IsForIsWanted(w, call, k);
        if w'.queues[k] != w.queues[k] { GotOneGetsOne(w, call, k, w'); }
      }
      if r == Done { PublishServed(limits, w, call, w'); }
    } else {
      RefusedEnds(limits, w, call, r, w', Refusal(limits, w, call).value);
    }
  }

  lemma InQueues(w: World, exchange: string, message: Message)
    ensures forall k :: IsFor(w, k, exchange, message) ==> k in w.queues
  {
  }

  lemma PublishServed(limits: Limits, w: World, call: Request, w': World)
    requires call.Publish? && ServedOrBroken(limits, w, call, Done, w')
    ensures AllServed(w, call.exchange, call.message, call.mints, w')
  {
    hide Accepts, Admits, IsFor, ServedWith, OfferAll;
    assert forall k :: IsFor(w, k, call.exchange, call.message) ==> k in w.queues by {
      InQueues(w, call.exchange, call.message);
    }
    forall k | IsFor(w, k, call.exchange, call.message)
      ensures exists mint :: mint in call.mints && ServedWith(w, k, call.message, mint, w')
    {
      ServedFully(limits, w, call, k);
    }
  }
}
