/** What a caller sees of registering and deleting queues and exchanges: each error and when it comes, and what memory
    and the tables hold afterwards. */
module TopologyAnswers {
  import opened Types
  import opened QueueModel
  import opened Tables
  import opened ServiceModel
  import opened ServiceFaults
  import opened ServiceAnswers
  import Sql = Tables
  import Routing

  // ---------------------------------------------------------------- registering

  /** The registered queue has these settings and, in number and one way around, these filters. */
  ghost predicate AsAsked(q: QueueState, durable: bool, autoDelete: bool, maxAttempts: int, filters: seq<string>) {
    && q.durable == durable && q.autoDelete == autoDelete && q.maxAttempts == maxAttempts
    && |q.filters| == |filters| && forall f :: f in q.filters ==> f in filters
  }

  ghost predicate AllValid(filters: seq<string>) {
    forall f :: f in filters ==> Routing.IsValidFilter(f)
  }

  ghost predicate RegisterErrors(limits: Limits, w: World, key: QueueKey, durable: bool, autoDelete: bool,
                                 maxAttempts: int, filters: seq<string>, r: Outcome) {
    var open := key.exchange in w.exchanges && |filters| <= limits.maxQueueFilters;
    && (r == Failed(ExchangeNotFound) <==> key.exchange !in w.exchanges)
    && (r == Failed(TooManyQueueFilters) <==> key.exchange in w.exchanges && |filters| > limits.maxQueueFilters)
    && (r == Failed(QueueAlreadyExist) <==>
          open && key in w.queues && !AsAsked(w.queues[key], durable, autoDelete, maxAttempts, filters))
    && (r == Failed(QueueFlagsConflict) <==> open && key !in w.queues && durable && autoDelete)
    && (r == Failed(MaxAttemptsIncorrect) <==>
          open && key !in w.queues && !(durable && autoDelete) && maxAttempts < 0)
    && (r == Failed(FiltersIncorrect) <==>
          open && key !in w.queues && !(durable && autoDelete) && maxAttempts >= 0 && !AllValid(filters))
  }

  ghost predicate RegisterAnswer(limits: Limits, w: World, key: QueueKey, durable: bool, autoDelete: bool,
                                 maxAttempts: int, filters: seq<string>, r: Outcome, w': World) {
    && RegisterErrors(limits, w, key, durable, autoDelete, maxAttempts, filters, r)
    && if !GotThrough(r) then w' == w else
       && w'.exchanges == w.exchanges && key in w'.queues
       && AsAsked(w'.queues[key], durable, autoDelete, maxAttempts, filters)
       && (if key in w.queues then w'.queues == w.queues
           else w'.queues - {key} == w.queues - {key} && IsNew(w'.queues[key], key.name, filters))
       && (if durable then StoresQueue(w.db, key, w'.queues[key], r, w'.db) else r == Done && w'.db == w.db)
  }

  ghost predicate IsNew(q: QueueState, name: string, filters: seq<string>) {
    q.name == name && q.filters == filters && q.ready == [] && q.inFlight == map[] && q.consumers == {}
  }

  /** A row that is already stored stays as it is, whatever the queue says; filters are added. */
  ghost predicate StoresQueue(db: Tables, key: QueueKey, q: QueueState, r: Outcome, db': Tables) {
    && db' == db.(queues := db'.queues, filters := db'.filters)
    && (forall k :: k in db.queues ==> k in db'.queues && db'.queues[k] == db.queues[k])
    && (forall k :: k in db'.queues && k !in db.queues ==>
          k == key && db'.queues[k] == QueueRow(q.durable, q.autoDelete, q.maxAttempts))
    && db.filters <= db'.filters
    && (forall f :: f in db'.filters ==> f in db.filters || (f.0 == key && f.1 in q.filters))
    && (r == Done ==> key in db'.queues && forall f :: f in q.filters ==> (key, f) in db'.filters)
  }

  lemma SameFiltersAre(a: seq<string>, b: seq<string>)
    ensures SameFilters(a, b) <==> |a| == |b| && forall f :: f in a ==> f in b
  {
    if SameFilters(a, b) {
      forall f | f in a ensures f in b { var i :| 0 <= i < |a| && a[i] == f; }
    }
    if |a| == |b| && forall f :: f in a ==> f in b {
      forall i | 0 <= i < |a| ensures a[i] in b { assert a[i] in a; }
    }
  }

  lemma ValidFiltersAre(filters: seq<string>)
    ensures AllValid(filters) <==> forall i :: 0 <= i < |filters| ==> Routing.IsValidFilter(filters[i])
  {
    hide Routing.IsValidFilter;
    if AllValid(filters) {
      forall i | 0 <= i < |filters| ensures Routing.IsValidFilter(filters[i]) { assert filters[i] in filters; }
    }
  }

  lemma RegisterRefusals(limits: Limits, w: World, call: Request)
    requires call.RegisterQueue? && MemoryOk(w)
    ensures var e := Refusal(limits, w, call);
      RegisterErrors(limits, w, call.key, call.durable, call.autoDelete, call.maxAttempts, call.filters,
                     if e == None then Done else Failed(e.value))
    ensures Refusal(limits, w, call).Some? ==> !GotThrough(Failed(Refusal(limits, w, call).value))
  {
    if call.key in w.queues { SameFiltersAre(w.queues[call.key].filters, call.filters); }
    ValidFiltersAre(call.filters);
    hide SameFilters, AllValid, Routing.IsValidFilter, MemoryOk;
  }

  lemma NoErrorIsNoError(limits: Limits, w: World, key: QueueKey, durable: bool, autoDelete: bool, maxAttempts: int,
                         filters: seq<string>)
    requires RegisterErrors(limits, w, key, durable, autoDelete, maxAttempts, filters, Done)
    ensures RegisterErrors(limits, w, key, durable, autoDelete, maxAttempts, filters, Failed(StorageError))
    ensures key in w.queues ==> AsAsked(w.queues[key], durable, autoDelete, maxAttempts, filters)
  {
    hide AsAsked, AllValid;
  }

  lemma QueueIsStored(db: Tables, key: QueueKey, q: QueueState)
    ensures StoresQueue(db, key, q, Failed(StorageError), db)
    ensures StoresQueue(db, key, q, Done, SaveQueue(db, key, RowOf(q), q.filters))
    ensures StoresQueue(db, key, q, Failed(StorageError), SaveQueue(db, key, RowOf(q), q.filters))
  {
  }

  lemma NewIsAsAsked(key: QueueKey, durable: bool, autoDelete: bool, maxAttempts: int, filters: seq<string>)
    ensures var q := NewQueue(key.name, durable, autoDelete, maxAttempts, filters);
      AsAsked(q, durable, autoDelete, maxAttempts, filters) && IsNew(q, key.name, filters) && q.durable == durable
  {
  }

  lemma RegisterEffects(limits: Limits, w: World, call: Request, r: Outcome, w': World)
    requires call.RegisterQueue? && ServedOrBroken(limits, w, call, r, w') && GotThrough(r)
    requires call.key in w.queues ==>
      AsAsked(w.queues[call.key], call.durable, call.autoDelete, call.maxAttempts, call.filters)
    ensures var key, filters := call.key, call.filters;
      && w'.exchanges == w.exchanges && key in w'.queues
      && AsAsked(w'.queues[key], call.durable, call.autoDelete, call.maxAttempts, filters)
      && (if key in w.queues then w'.queues == w.queues
          else w'.queues - {key} == w.queues - {key} && IsNew(w'.queues[key], key.name, filters))
      && (if call.durable then StoresQueue(w.db, key, w'.queues[key], r, w'.db) else r == Done && w'.db == w.db)
  {
    NewIsAsAsked(call.key, call.durable, call.autoDelete, call.maxAttempts, call.filters);
    var queues := WithQueue(w.queues, call.key, call.durable, call.autoDelete, call.maxAttempts, call.filters);
    QueueIsStored(w.db, call.key, queues[call.key]);
    RegisterStatement(limits, w, call, r, w');
    if call.key in w.queues { SameDurability(w.queues[call.key], call); }
    hide ServedOrBroken, NewQueue, SaveQueue, StoresQueue, AsAsked, IsNew;
  }

  lemma SameDurability(q: QueueState, call: Request)
    requires call.RegisterQueue? && AsAsked(q, call.durable, call.autoDelete, call.maxAttempts, call.filters)
    ensures q.durable == call.durable
  {
  }

  lemma RegisterStatement(limits: Limits, w: World, call: Request, r: Outcome, w': World)
    requires call.RegisterQueue? && ServedOrBroken(limits, w, call, r, w') && GotThrough(r)
    requires call.key in w.queues ==> w.queues[call.key].durable == call.durable
    ensures var queues := WithQueue(w.queues, call.key, call.durable, call.autoDelete, call.maxAttempts, call.filters);
      var q := queues[call.key];
      && w'.exchanges == w.exchanges && w'.queues == queues
      && (!call.durable ==> r == Done && w'.db == w.db)
      && (r == Done && call.durable ==> w'.db == SaveQueue(w.db, call.key, RowOf(q), q.filters))
      && (r != Done ==> w'.db == w.db || w'.db == SaveQueue(w.db, call.key, RowOf(q), q.filters))
  {
    hide SaveQueue, Accepts;
  }

  lemma RegisterAnswers(limits: Limits, w: World, call: Request, r: Outcome, w': World)
    requires call.RegisterQueue? && Sound(w) && Leads(limits, w, call, r, w')
    ensures RegisterAnswer(limits, w, call.key, call.durable, call.autoDelete, call.maxAttempts, call.filters, r, w')
  {
    RegisterRefusals(limits, w, call);
    hide Leads, Refusal, MemoryOk, RegisterErrors, AsAsked, StoresQueue, IsNew;
    if Refusal(limits, w, call) == None {
      AcceptedEnds(limits, w, call, r, w');
      NoErrorIsNoError(limits, w, call.key, call.durable, call.autoDelete, call.maxAttempts, call.filters);
      RegisterEffects(limits, w, call, r, w');
    } else {
      RefusedEnds(limits, w, call, r, w', Refusal(limits, w, call).value);
    }
  }

  // ---------------------------------------------------------------- creating and deleting

  ghost predicate CreateAnswer(w: World, name: string, r: Outcome, w': World) {
    && GotThrough(r) && w'.exchanges == w.exchanges + {name} && w'.queues == w.queues
    && w'.db == w.db.(exchanges := w'.db.exchanges)
    && w.db.exchanges <= w'.db.exchanges <= w.db.exchanges + {name} && (r == Done ==> name in w'.db.exchanges)
  }

  lemma CreateAnswers(limits: Limits, w: World, name: string, r: Outcome, w': World)
    requires Leads(limits, w, CreateExchange(name), r, w')
    ensures CreateAnswer(w, name, r, w')
  {
  }

  ghost predicate DeleteExchangeAnswer(w: World, name: string, r: Outcome, w': World) {
    var busy := exists k :: k in w.queues && k.exchange == name && w.queues[k].consumers != {};
    && (r == Failed(ExchangeNotFound) <==> name !in w.exchanges)
    && (r == Failed(ExchangeHasConsumers) <==> name in w.exchanges && busy)
    && if !GotThrough(r) then w' == w else
       && w'.exchanges == w.exchanges - {name} && (w'.db == w.db || ExchangeGone(w.db, w'.db, name))
       && (forall k :: k in w'.queues <==> k in w.queues && k.exchange != name)
       && (forall k :: k in w'.queues ==> w'.queues[k] == w.queues[k])
       && (r == Done ==> ExchangeGone(w.db, w'.db, name))
  }

  lemma DeleteExchangeAnswers(limits: Limits, w: World, name: string, r: Outcome, w': World)
    requires Leads(limits, w, DeleteExchange(name), r, w')
    ensures DeleteExchangeAnswer(w, name, r, w')
  {
    var call := DeleteExchange(name);
    DeleteExchangeRefusals(limits, w, name);
    hide Leads, Refusal, ExchangeGone;
    if Refusal(limits, w, call) == None {
      AcceptedEnds(limits, w, call, r, w');
      DeleteExchangeEffects(limits, w, name, r, w');
    } else {
      RefusedEnds(limits, w, call, r, w', Refusal(limits, w, call).value);
    }
  }

  lemma DeleteExchangeRefusals(limits: Limits, w: World, name: string)
    ensures var busy := exists k :: k in w.queues && k.exchange == name && w.queues[k].consumers != {};
      Refusal(limits, w, DeleteExchange(name)) ==
        if name !in w.exchanges then Some(ExchangeNotFound) else if busy then Some(ExchangeHasConsumers) else None
  {
  }

  lemma DeleteExchangeEffects(limits: Limits, w: World, name: string, r: Outcome, w': World)
    requires ServedOrBroken(limits, w, DeleteExchange(name), r, w')
    ensures w'.exchanges == w.exchanges - {name} && (w'.db == w.db || ExchangeGone(w.db, w'.db, name))
    ensures w'.queues == map k | k in w.queues && k.exchange != name :: w.queues[k]
    ensures r == Done ==> ExchangeGone(w.db, w'.db, name)
  {
    ExchangeIsGone(w.db, name);
    hide ExchangeGone, Sql.DeleteExchange;
  }

  lemma ExchangeIsGone(db: Tables, name: string)
    ensures ExchangeGone(db, Sql.DeleteExchange(db, name), name)
  {
  }

  ghost predicate DeleteQueueAnswer(w: World, key: QueueKey, r: Outcome, w': World) {
    && LooksUp(w, key, r)
    && (r == Failed(QueueHasConsumers) <==> key in w.queues && w.queues[key].consumers != {})
    && if !GotThrough(r) then w' == w else
       && key in w.queues && w'.exchanges == w.exchanges && w'.queues == w.queues - {key}
       && (if w.queues[key].durable then w'.db == w.db || QueueGone(w.db, w'.db, key) else r == Done && w'.db == w.db)
       && (w.queues[key].durable && r == Done ==> QueueGone(w.db, w'.db, key))
  }

  lemma DeleteQueueAnswers(limits: Limits, w: World, key: QueueKey, r: Outcome, w': World)
    requires Sound(w) && Leads(limits, w, DeleteQueue(key), r, w')
    ensures DeleteQueueAnswer(w, key, r, w')
  {
    QueueIsGone(w.db, key);
    hide QueueGone, Sql.DeleteQueue, Registrable;
  }

  lemma QueueIsGone(db: Tables, key: QueueKey)
    ensures QueueGone(db, Sql.DeleteQueue(db, key), key)
  {
  }
}
