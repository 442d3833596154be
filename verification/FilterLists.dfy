/** Filter lists as the exchange compares and checks them, and when that comparison is set equality. */
module FilterLists {
  import opened Types
  import opened ServiceModel
  import opened ServiceRuns
  import QueueModel
  import RestoreModel
  import Routing

  ghost predicate NoDuplicates(s: seq<string>) {
    forall i, j :: 0 <= i < j < |s| ==> s[i] != s[j]
  }

  /** Equal length, and every element of the first list is in the second. */
  method EqualFilters(a: seq<string>, b: seq<string>) returns (equal: bool)
    ensures equal <==> SameFilters(a, b)
  {
    if |a| != |b| { return false; }
    var inA, inB := {}, {};
    for i := 0 to |a|
      invariant inA == AsSet(a[..i]) && inB == AsSet(b[..i])
    {
      assert a[..i + 1] == a[..i] + [a[i]] && b[..i + 1] == b[..i] + [b[i]];
      inA, inB := inA + {a[i]}, inB + {b[i]};
    }
    assert a[..|a|] == a && b[..|a|] == b;
    SameFiltersIncludes(a, b);
    var todo := inA;
    while todo != {}
      invariant todo <= inA && inA - todo <= inB
    {
      var v :| v in todo;
      if v !in inB { return false; }
      todo := todo - {v};
    }
    equal := true;
  }

  method ValidFilters(filters: seq<string>) returns (valid: bool)
    ensures valid <==> forall i :: 0 <= i < |filters| ==> Routing.IsValidFilter(filters[i])
  {
    for i := 0 to |filters|
      invariant forall j :: 0 <= j < i ==> Routing.IsValidFilter(filters[j])
    {
      if !Routing.IsValidFilter(filters[i]) { return false; }
    }
    valid := true;
  }

  // ---------------------------------------------------------------- when it is set equality

  lemma {:induction false} SetSize(s: seq<string>)
    ensures |AsSet(s)| <= |s|
    ensures |AsSet(s)| == |s| <==> NoDuplicates(s)
  {
    if s != [] {
      var n := |s| - 1;
      var init := s[..n];
      SetSize(init);
      assert s == init + [s[n]];
      assert AsSet(s) == AsSet(init) + {s[n]};
      if s[n] in init {
        var i :| 0 <= i < n && init[i] == s[n];
        assert s[i] == s[n];
      }
      assert NoDuplicates(s) <==> NoDuplicates(init) && s[n] !in init;
    }
  }

  lemma SameFiltersIncludes(a: seq<string>, b: seq<string>)
    ensures SameFilters(a, b) <==> |a| == |b| && AsSet(a) <= AsSet(b)
  {
    if SameFilters(a, b) {
      forall f | f in AsSet(a) ensures f in AsSet(b) {
        var i :| 0 <= i < |a| && a[i] == f;
      }
    }
    if AsSet(a) <= AsSet(b) {
      forall i | 0 <= i < |a| ensures a[i] in b { assert a[i] in AsSet(a); }
    }
  }

  /** Among lists without duplicates the comparison is set equality. */
  lemma SameFiltersIsSetEquality(a: seq<string>, b: seq<string>)
    requires NoDuplicates(a) && NoDuplicates(b)
    ensures SameFilters(a, b) <==> AsSet(a) == AsSet(b)
  {
    SameFiltersIncludes(a, b);
    SetSize(a);
    SetSize(b);
    if SameFilters(a, b) { QueueModel.SubsetOfSameSize(AsSet(a), AsSet(b)); }
  }

  lemma EqualSetsWithoutDuplicates(a: seq<string>, b: seq<string>)
    requires NoDuplicates(a) && SameFilters(a, b)
    ensures AsSet(a) == AsSet(b)
  {
    SameFiltersIncludes(a, b);
    SetSize(a);
    SetSize(b);
    QueueModel.SubsetSize(AsSet(a), AsSet(b));
    QueueModel.SubsetOfSameSize(AsSet(a), AsSet(b));
  }

  /** More tokens than any string of the list has. */
  function Depth(s: seq<string>): (n: nat)
    ensures n > 0 && forall i :: 0 <= i < |s| ==> |Routing.Split(s[i])| < n
  {
    if s == [] then 1
    else
      var n := |s| - 1;
      assert forall i :: 0 <= i < n ==> s[..n][i] == s[i];
      Depth(s[..n]) + |Routing.Split(s[n])|
  }

  /** A valid key that no filter of the list matches. */
  function Unmatched(s: seq<string>): string {
    Routing.Join(seq(Depth(s), _ => "a"))
  }

  lemma UnmatchedKey(s: seq<string>)
    ensures Routing.IsValidKey(Unmatched(s)) && |Routing.Split(Unmatched(s))| == Depth(s)
    ensures !Routing.MatchesAny(s, Unmatched(s))
  {
    var tokens := seq(Depth(s), _ => "a");
    var key := Routing.Join(tokens);
    Routing.SplitJoin(tokens);
    Routing.KeyLanguage(key);
    forall t | t in Routing.Split(key) ensures Routing.IsWord(t) { assert t == "a" && t[0] == 'a'; }
    forall i | 0 <= i < |s| ensures !Routing.Match(s[i], key) { Routing.MatchMeaning(s[i], key); }
  }

  /** Exactly when the comparison can be trusted: a registered list is told apart from every list with other
      filters if and only if it holds no filter twice. */
  lemma ComparisonIsExact(a: seq<string>)
    ensures NoDuplicates(a) <==> forall b :: SameFilters(a, b) ==> AsSet(a) == AsSet(b)
  {
    if NoDuplicates(a) {
      forall b | SameFilters(a, b) ensures AsSet(a) == AsSet(b) { EqualSetsWithoutDuplicates(a, b); }
    } else {
      var b, j := WithStranger(a);
      assert b[j] in AsSet(b) && b[j] !in AsSet(a);
    }
  }

  /** A list with a duplicate compares equal to one in which that makes room for a new key. */
  lemma WithStranger(a: seq<string>) returns (b: seq<string>, j: nat)
    requires !NoDuplicates(a)
    ensures j < |a| && b == a[j := Unmatched(a)] && SameFilters(a, b) && Unmatched(a) !in a
  {
    hide Unmatched;
    UnmatchedKey(a);
    var i :| 0 <= i < |a| && exists j :: i < j < |a| && a[i] == a[j];
    j :| i < j < |a| && a[i] == a[j];
    b := a[j := Unmatched(a)];
    forall k | 0 <= k < |a| ensures a[k] in b { assert b[if k == j then i else k] == a[k]; }
  }

  ghost predicate AllValid(filters: seq<string>) {
    forall i :: 0 <= i < |filters| ==> Routing.IsValidFilter(filters[i])
  }

  ghost predicate SameKeys(a: seq<string>, b: seq<string>) {
    forall key :: Routing.IsValidKey(key) ==> (Routing.MatchesAny(a, key) <==> Routing.MatchesAny(b, key))
  }

  /** The same for what the lists are for: among lists that pass the checks, every list taken for a registered one
      matches the same keys if and only if the registered one holds no filter twice. */
  lemma ComparisonIsExactForKeys(a: seq<string>)
    requires AllValid(a)
    ensures NoDuplicates(a) <==> forall b :: AllValid(b) && SameFilters(a, b) ==> SameKeys(a, b)
  {
    hide Routing.MatchesAny, Routing.IsValidKey, Routing.IsValidFilter, SameFilters, AsSet;
    if NoDuplicates(a) {
      forall b | SameFilters(a, b) ensures SameKeys(a, b) {
        EqualSetsWithoutDuplicates(a, b);
        forall key ensures Routing.MatchesAny(a, key) <==> Routing.MatchesAny(b, key) {
          RestoreModel.SameKeysMatch(a, b, key);
        }
      }
    } else {
      var b, j := WithStranger(a);
      hide Unmatched, NoDuplicates;
      var key := Unmatched(a);
      UnmatchedKey(a);
      Routing.KeyIsItsOwnFilter(key, key);
      MatchedByOne(b, j, key);
      assert AllValid(b) && !SameKeys(a, b);
    }
  }

  lemma MatchedByOne(filters: seq<string>, j: nat, key: string)
    requires j < |filters| && Routing.Match(filters[j], key)
    ensures Routing.MatchesAny(filters, key)
  {
  }

  /** With a filter listed twice, another filter slips through: the queue would not match what was asked for. */
  lemma DuplicatesHideAFilter()
    ensures SameFilters(["a", "a"], ["a", "b"]) && !SameFilters(["a", "b"], ["a", "a"])
    ensures Routing.MatchesAny(["a", "b"], "b") && !Routing.MatchesAny(["a", "a"], "b")
  {
    var a, b := ["a", "a"], ["a", "b"];
    assert a[0] == b[0] && a[1] == b[0] && b[1] !in a;
    Routing.SplitWord("a");
    Routing.SplitWord("b");
    Routing.ExactFilterMatchesItself("b", "b");
    Routing.ExactFilterMatchesItself("a", "b");
    assert Routing.Match(b[1], "b");
  }

  /** A repeated registration that succeeds gives a queue which matches nothing its caller did not ask for; and
      exactly the keys its caller asked for, if the queue was registered without duplicates. */
  lemma RegistrationIsIdempotent(q: QueueModel.QueueState, durable: bool, autoDelete: bool, maxAttempts: int,
                                 filters: seq<string>, key: string)
    requires SameRegistration(q, durable, autoDelete, maxAttempts, filters)
    ensures Routing.MatchesAny(q.filters, key) ==> Routing.MatchesAny(filters, key)
    ensures NoDuplicates(q.filters) ==> (Routing.MatchesAny(q.filters, key) <==> Routing.MatchesAny(filters, key))
  {
    hide Routing.Match;
    if Routing.MatchesAny(q.filters, key) {
      var i :| 0 <= i < |q.filters| && Routing.Match(q.filters[i], key);
      var j :| 0 <= j < |filters| && filters[j] == q.filters[i];
      assert Routing.Match(filters[j], key);
    }
    if NoDuplicates(q.filters) {
      EqualSetsWithoutDuplicates(q.filters, filters);
      RestoreModel.SameKeysMatch(q.filters, filters, key);
    }
  }

  /** After a restart, repeating the registration that made a queue is accepted if and only if its filters were
      listed without duplicates: the stored list has none, and the comparison counts. */
  lemma RepeatedAfterRestart(w: World, l: RestoreModel.Loaded, key: QueueKey)
    requires Agree(w) && RestoreModel.Linked(w.db) && RestoreModel.IsLoad(w.db, l)
    requires key in w.queues && w.queues[key].durable
    ensures key in RestoreModel.Rebuilt(w.db, l)
    ensures var q := w.queues[key];
      SameRegistration(RestoreModel.Rebuilt(w.db, l)[key], q.durable, q.autoDelete, q.maxAttempts, q.filters) <==>
      NoDuplicates(q.filters)
  {
    RestoreModel.RestartedQueue(w, l, key);
    assert key in w.db.queues by { assert QueueAgrees(w, key, w.queues[key]); }
    RestoreModel.RebuiltFilters(w.db, l, key);
    hide Agree, RestoreModel.Linked, RestoreModel.IsLoad, RestoreModel.Rebuilt, AsSet;
    var stored, filters := RestoreModel.Rebuilt(w.db, l)[key].filters, w.queues[key].filters;
    SetSize(stored);
    SetSize(filters);
    SameFiltersIncludes(stored, filters);
  }
}
