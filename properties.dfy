/** Properties of `open_jury_call` over several calls in a row, and of the
    duplicate-name check. */
module KleroterionProperties {

  import opened Types
  import opened Kleroterion

  /** The storage after a sequence of dispatches, with what each returned. */
  datatype Trace = Trace(store: Store, results: seq<Result<Event>>)

  /** Dispatches `qs` one after the other, starting from `s`. */
  ghost function Run(s: Store, maxId: nat, qs: seq<Request>): (t: Trace)
    ensures |t.results| == |qs|
    decreases |qs|
  {
    if qs == [] then Trace(s, [])
    else
      var o := Open(s, maxId, qs[0]);
      var t := Run(o.store, maxId, qs[1..]);
      Trace(t.store, [o.result] + t.results)
  }

  /** The key set of `JuryCalls` stays 1 .. `JuryCallCnt` whatever is
      dispatched; the counter never decreases and no stored record is ever
      replaced. */
  lemma {:induction false} RunPreservesAllocated(s: Store, maxId: nat, qs: seq<Request>)
    requires Allocated(s)
    ensures Allocated(Run(s, maxId, qs).store)
    ensures s.cnt <= Run(s, maxId, qs).store.cnt
    ensures forall id :: id in s.calls ==>
      id in Run(s, maxId, qs).store.calls && Run(s, maxId, qs).store.calls[id] == s.calls[id]
    decreases |qs|
  {
    if qs != [] {
      var o := Open(s, maxId, qs[0]);
      OpenPreservesAllocated(s, maxId, qs[0]);
      RunPreservesAllocated(o.store, maxId, qs[1..]);
    }
  }

  /** When every dispatch succeeds, the identifiers handed out are the next
      `|qs|` numbers in dispatch order, each reported with its caller. */
  lemma {:induction false} SuccessfulRunIds(s: Store, maxId: nat, qs: seq<Request>)
    requires forall k :: 0 <= k < |qs| ==> Run(s, maxId, qs).results[k].Ok?
    ensures forall k :: 0 <= k < |qs| ==>
      qs[k].origin.Some? && Run(s, maxId, qs).results[k] == Ok(JuryCallOpened(s.cnt + k + 1, qs[k].origin.value))
    ensures Run(s, maxId, qs).store.cnt == s.cnt + |qs|
    decreases |qs|
  {
    if qs != [] {
      var o := Open(s, maxId, qs[0]);
      var t := Run(o.store, maxId, qs[1..]);
      assert Run(s, maxId, qs).results == [o.result] + t.results;
      assert Run(s, maxId, qs).results[0] == o.result;
      forall k | 0 <= k < |qs[1..]|
        ensures t.results[k].Ok?
      {
        assert t.results[k] == Run(s, maxId, qs).results[k + 1];
      }
      SuccessfulRunIds(o.store, maxId, qs[1..]);
      forall k | 0 <= k < |qs|
        ensures qs[k].origin.Some? && Run(s, maxId, qs).results[k] == Ok(JuryCallOpened(s.cnt + k + 1, qs[k].origin.value))
      {
        if k > 0 {
          assert Run(s, maxId, qs).results[k] == t.results[k - 1];
          assert qs[k] == qs[1..][k - 1];
        }
      }
    }
  }

  /** The number of identifiers 1 .. n is n. */
  lemma {:induction false} IdRangeSize(n: nat)
    ensures |IdRange(n)| == n
  {
    if n > 0 {
      IdRangeSize(n - 1);
      assert IdRange(n) == IdRange(n - 1) + {n};
    }
  }

  /** N successful calls from genesis return the identifiers 1, 2, ..., N in
      call order and leave exactly N records, under the keys 1 .. N. */
  lemma SuccessfulRunFromGenesis(maxId: nat, qs: seq<Request>)
    requires forall k :: 0 <= k < |qs| ==> Run(Genesis(), maxId, qs).results[k].Ok?
    ensures forall k :: 0 <= k < |qs| ==>
      qs[k].origin.Some? && Run(Genesis(), maxId, qs).results[k] == Ok(JuryCallOpened(k + 1, qs[k].origin.value))
    ensures Run(Genesis(), maxId, qs).store.cnt == |qs|
    ensures Run(Genesis(), maxId, qs).store.calls.Keys == IdRange(|qs|)
    ensures |Run(Genesis(), maxId, qs).store.calls| == |qs|
  {
    SuccessfulRunIds(Genesis(), maxId, qs);
    RunPreservesAllocated(Genesis(), maxId, qs);
    IdRangeSize(|qs|);
  }

  /** Two identical admissible calls from genesis store two records, under
      identifiers 1 and 2, both owned by the caller; the counter reads 2. */
  lemma TwoIdenticalCalls(maxId: nat, q: Request)
    requires q.origin.Some? && !HasDuplicates(q.tribeNames) && q.selections > 0 && q.now < q.startAfter
    requires maxId >= 2
    ensures Run(Genesis(), maxId, [q, q]).results
         == [Ok(JuryCallOpened(1, q.origin.value)), Ok(JuryCallOpened(2, q.origin.value))]
    ensures Run(Genesis(), maxId, [q, q]).store.cnt == 2
    ensures Run(Genesis(), maxId, [q, q]).store.calls.Keys == {1, 2}
    ensures Run(Genesis(), maxId, [q, q]).store.calls[1].owner == q.origin.value
    ensures Run(Genesis(), maxId, [q, q]).store.calls[2].owner == q.origin.value
  {
    var o1 := Open(Genesis(), maxId, q);
    var o2 := Open(o1.store, maxId, q);
    assert [q, q][1..] == [q];
    assert Run(o1.store, maxId, [q]) == Trace(o2.store, [o2.result]);
  }

  // ---------------------------------------------------------------------------
  // Duplicate detection compared with counting distinct names
  // ---------------------------------------------------------------------------

  /** The set of names occurring in `ts`. */
  function NameSet(ts: seq<TribeName>): (names: set<TribeName>)
    ensures forall t :: t in names <==> t in ts
  {
    if ts == [] then {} else NameSet(ts[..|ts| - 1]) + {ts[|ts| - 1]}
  }

  lemma {:induction false} NameSetSize(ts: seq<TribeName>)
    ensures |NameSet(ts)| <= |ts|
  {
    if ts != [] {
      NameSetSize(ts[..|ts| - 1]);
    }
  }

  /** The existential check agrees with a count-based one: a list has a
      repeated name exactly when it has fewer distinct names than entries. */
  lemma {:induction false} DuplicatesIffFewerNames(ts: seq<TribeName>)
    ensures HasDuplicates(ts) <==> |NameSet(ts)| < |ts|
  {
    if ts != [] {
      var init, last := ts[..|ts| - 1], ts[|ts| - 1];
      assert ts == init + [last];
      DuplicatesIffFewerNames(init);
      DuplicatesOfSnoc(init, last);
      NameSetSize(init);
      if last in init {
        assert NameSet(ts) == NameSet(init);
      } else {
        assert |NameSet(ts)| == |NameSet(init)| + 1;
      }
    }
  }

  /** The duplicate check does not depend on the order of the names. */
  lemma DuplicatesIndependentOfOrder(ts: seq<TribeName>, us: seq<TribeName>)
    requires multiset(ts) == multiset(us)
    ensures HasDuplicates(ts) <==> HasDuplicates(us)
  {
    DuplicatesIffFewerNames(ts);
    DuplicatesIffFewerNames(us);
    assert |ts| == |us| by {
      assert |multiset(ts)| == |multiset(us)|;
    }
    assert NameSet(ts) == NameSet(us) by {
      forall t ensures t in NameSet(ts) <==> t in NameSet(us) {
        assert t in ts <==> t in multiset(ts);
        assert t in us <==> t in multiset(us);
      }
    }
  }
}
