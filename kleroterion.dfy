/** The jury-call intake of the kleroterion pallet: validating a request to
    open a jury call, allocating its identifier and storing its record. */
module Kleroterion {

  import opened Types

  // ---------------------------------------------------------------------------
  // Data model
  // ---------------------------------------------------------------------------

  /** A named candidate pool. */
  datatype Tribe = Tribe(name: TribeName, candidateCount: nat, candidates: seq<AccountId>)

  /** A scheduled sortition request, as stored under its identifier. */
  datatype JuryCall = JuryCall(tribes: seq<Tribe>, selections: nat, startAfter: U64, owner: AccountId)

  /** The pallet's error variants that `open_jury_call` can report. */
  datatype Error =
    | BadOrigin
    | JuryCallCntOverflow
    | DuplicateTribes
    | ZeroSelections
    | StartAfterInThePast

  /** The event deposited by a successful call: the new identifier and its owner. */
  datatype Event = JuryCallOpened(id: nat, who: AccountId)

  /** The outcome of a dispatch: `Ok` carries the event the call deposits. */
  datatype Result<T> = Ok(value: T) | Err(error: Error)

  /** The two storage items: the `JuryCallCnt` value and the `JuryCalls` map. */
  datatype Store = Store(cnt: nat, calls: map<nat, JuryCall>)

  /** The arguments of one `open_jury_call` dispatch, with the clock reading
      (in seconds) taken while it runs. */
  datatype Request = Request(
    origin: Option<AccountId>,
    tribeNames: seq<TribeName>,
    selections: nat,
    startAfter: U64,
    now: U64)

  /** What a dispatch returns together with the storage it leaves behind. */
  datatype Outcome = Outcome(result: Result<Event>, store: Store)

  // ---------------------------------------------------------------------------
  // Duplicate tribe names
  // ---------------------------------------------------------------------------

  /** Two positions of `ts` hold byte-identical names. */
  ghost predicate HasDuplicates(ts: seq<TribeName>)
  {
    exists i, j :: 0 <= i < j < |ts| && ts[i] == ts[j]
  }

  /** `compare_tribes`: equality of two optional byte strings. */
  function CompareTribes(a: Option<TribeName>, b: Option<TribeName>): (same: bool)
    ensures same <==> (a.None? && b.None?) || (a.Some? && b.Some? && a.value == b.value)
  {
    a == b
  }

  /** Appending one name creates a repeat exactly when the name is already there. */
  lemma DuplicatesOfSnoc(s: seq<TribeName>, x: TribeName)
    ensures HasDuplicates(s + [x]) <==> HasDuplicates(s) || x in s
  {
    var t := s + [x];
    if HasDuplicates(t) && !HasDuplicates(s) {
      var i, j :| 0 <= i < j < |t| && t[i] == t[j];
      assert j == |s| && s[i] == x;
    }
    if x in s {
      var i :| 0 <= i < |s| && s[i] == x;
      assert t[i] == t[|s|];
    }
    if HasDuplicates(s) {
      var i, j :| 0 <= i < j < |s| && s[i] == s[j];
      assert t[i] == t[j];
    }
  }

  /** `check_duplicate_tribes`: each name is compared with every name kept so
      far in `distinct`; the first match returns true, otherwise the name is
      pushed onto `distinct`. */
  method CheckDuplicateTribes(tribes: seq<TribeName>) returns (dup: bool)
    ensures dup <==> HasDuplicates(tribes)
  {
    var distinct: seq<TribeName> := [];
    for i := 0 to |tribes|
      invariant distinct == tribes[..i]
      invariant !HasDuplicates(distinct)
    {
      var tribe := tribes[i];
      for j := 0 to |distinct|
        invariant forall m :: 0 <= m < j ==> distinct[m] != tribe
      {
        if CompareTribes(Some(tribe), Some(distinct[j])) {
          assert tribes[j] == tribes[i];
          return true;
        }
      }
      DuplicatesOfSnoc(distinct, tribe);
      distinct := distinct + [tribe];
      assert tribes[..i + 1] == tribes[..i] + [tribe];
    }
    assert tribes[..|tribes|] == tribes;
    return false;
  }

  // ---------------------------------------------------------------------------
  // Building the record
  // ---------------------------------------------------------------------------

  /** One fresh tribe per name, in the given order: no candidates yet. */
  function FreshTribes(names: seq<TribeName>): (ts: seq<Tribe>)
    ensures |ts| == |names|
    ensures forall k :: 0 <= k < |ts| ==> ts[k] == Tribe(names[k], 0, [])
  {
    if names == [] then []
    else FreshTribes(names[..|names| - 1]) + [Tribe(names[|names| - 1], 0, [])]
  }

  /** The loop of `open_jury_call` that pushes one tribe per name. */
  method InitTribes(names: seq<TribeName>) returns (tribes: seq<Tribe>)
    ensures tribes == FreshTribes(names)
  {
    tribes := [];
    for i := 0 to |names|
      invariant tribes == FreshTribes(names[..i])
    {
      assert names[..i + 1][..i] == names[..i];
      tribes := tribes + [Tribe(names[i], 0, [])];
    }
    assert names[..|names|] == names;
  }

  /** `c` is the record a request from `owner` must produce: its tribes carry
      the given names in order with no candidates, and the other fields are
      copied verbatim. */
  ghost predicate IsRecordOf(c: JuryCall, q: Request, owner: AccountId)
  {
    && |c.tribes| == |q.tribeNames|
    && (forall k :: 0 <= k < |c.tribes| ==>
          c.tribes[k].name == q.tribeNames[k]
          && c.tribes[k].candidateCount == 0
          && c.tribes[k].candidates == [])
    && c.selections == q.selections
    && c.startAfter == q.startAfter
    && c.owner == owner
  }

  // ---------------------------------------------------------------------------
  // Identifier allocation
  // ---------------------------------------------------------------------------

  /** `checked_add` on an unsigned type whose largest value is `max`. */
  function CheckedAdd(a: nat, b: nat, max: nat): (r: Option<nat>)
    ensures r.Some? ==> r.value == a + b && r.value <= max
    ensures r.None? ==> a + b > max
  {
    if a + b <= max then Some(a + b) else None
  }

  /** The identifiers handed out once the counter has reached `n`. */
  function IdRange(n: nat): (ids: set<nat>)
    ensures forall id: nat :: id in ids <==> 1 <= id <= n
  {
    if n == 0 then {} else IdRange(n - 1) + {n}
  }

  /** The key set of `JuryCalls` is exactly the identifiers 1 .. `JuryCallCnt`. */
  ghost predicate Allocated(s: Store)
  {
    s.calls.Keys == IdRange(s.cnt)
  }

  /** The storage at genesis: `JuryCallCnt` defaults to 0, `JuryCalls` is empty. */
  function Genesis(): (s: Store)
    ensures Allocated(s)
  {
    assert IdRange(0) == {};
    Store(0, map[])
  }

  // ---------------------------------------------------------------------------
  // The state transition
  // ---------------------------------------------------------------------------

  /** All checks of `open_jury_call` pass. */
  ghost predicate Admissible(s: Store, maxId: nat, q: Request)
  {
    && q.origin.Some?
    && !HasDuplicates(q.tribeNames)
    && q.selections > 0
    && q.now < q.startAfter
    && s.cnt + 1 <= maxId
  }

  /** `open_jury_call` as a function of the storage before the call, where
      `maxId` is the largest value of the identifier type. */
  ghost function Open(s: Store, maxId: nat, q: Request): (o: Outcome)
    // The checks run in a fixed order and the first one that fails is reported.
    ensures o.result == Err(BadOrigin) <==> q.origin.None?
    ensures o.result == Err(DuplicateTribes) <==>
      q.origin.Some? && HasDuplicates(q.tribeNames)
    ensures o.result == Err(ZeroSelections) <==>
      q.origin.Some? && !HasDuplicates(q.tribeNames) && q.selections == 0
    ensures o.result == Err(StartAfterInThePast) <==>
      q.origin.Some? && !HasDuplicates(q.tribeNames) && q.selections > 0 && q.startAfter <= q.now
    ensures o.result == Err(JuryCallCntOverflow) <==>
      q.origin.Some? && !HasDuplicates(q.tribeNames) && q.selections > 0 && q.now < q.startAfter
      && s.cnt + 1 > maxId
    ensures o.result.Ok? <==> Admissible(s, maxId, q)
    // A rejected call writes nothing.
    ensures o.result.Err? ==> o.store == s
    // A successful call takes the next identifier, reports it in the event and
    // stores the requested record under it; every other entry stays as it was.
    ensures o.result.Ok? ==>
      && o.result.value == JuryCallOpened(s.cnt + 1, q.origin.value)
      && o.store.cnt == s.cnt + 1
      && o.store.cnt <= maxId
      && o.store.calls.Keys == s.calls.Keys + {s.cnt + 1}
      && IsRecordOf(o.store.calls[s.cnt + 1], q, q.origin.value)
      && (forall id :: id in s.calls && id != s.cnt + 1 ==> o.store.calls[id] == s.calls[id])
  {
    if q.origin.None? then Outcome(Err(BadOrigin), s)
    else if HasDuplicates(q.tribeNames) then Outcome(Err(DuplicateTribes), s)
    else if q.selections == 0 then Outcome(Err(ZeroSelections), s)
    else if q.now >= q.startAfter then Outcome(Err(StartAfterInThePast), s)
    else
      match CheckedAdd(s.cnt, 1, maxId)
      case None => Outcome(Err(JuryCallCntOverflow), s)
      case Some(newCnt) =>
        var who := q.origin.value;
        var call := JuryCall(FreshTribes(q.tribeNames), q.selections, q.startAfter, who);
        Outcome(Ok(JuryCallOpened(newCnt, who)), Store(newCnt, s.calls[newCnt := call]))
  }

  /** Every call, accepted or not, keeps the key set equal to 1 .. counter; so
      a new identifier never overwrites a stored record. */
  lemma OpenPreservesAllocated(s: Store, maxId: nat, q: Request)
    requires Allocated(s)
    ensures Allocated(Open(s, maxId, q).store)
    ensures Open(s, maxId, q).result.Ok? ==> s.cnt + 1 !in s.calls
  {
  }

  // ---------------------------------------------------------------------------
  // The pallet's storage
  // ---------------------------------------------------------------------------

  /** The pallet's storage: `JuryCallCnt` and `JuryCalls`. */
  class Registry {
    /** The largest value of the identifier type `JuryCallID`. */
    const maxId: nat
    var cnt: nat
    var calls: map<nat, JuryCall>

    ghost predicate Valid()
      reads this
    {
      cnt <= maxId && Allocated(State())
    }

    function State(): Store
      reads this
    {
      Store(cnt, calls)
    }

    /** Genesis storage. */
    constructor (maxId: nat)
      ensures Valid()
      ensures this.maxId == maxId && cnt == 0 && calls == map[]
    {
      this.maxId := maxId;
      cnt := 0;
      calls := map[];
      assert IdRange(0) == {};
    }

    /** `open_jury_call`. */
    method OpenJuryCall(origin: Option<AccountId>, tribeNames: seq<TribeName>, selections: nat,
                        startAfter: U64, now: U64) returns (r: Result<Event>)
      requires Valid()
      modifies this
      ensures Valid()
      ensures Outcome(r, State()) == Open(old(State()), maxId, Request(origin, tribeNames, selections, startAfter, now))
      ensures r.Err? ==> cnt == old(cnt) && calls == old(calls)
      ensures r.Ok? ==>
        && r.value == JuryCallOpened(old(cnt) + 1, origin.value)
        && cnt == old(cnt) + 1
        && old(cnt) + 1 !in old(calls)
        && calls == old(calls)[cnt := JuryCall(FreshTribes(tribeNames), selections, startAfter, origin.value)]
    {
      ghost var q := Request(origin, tribeNames, selections, startAfter, now);
      OpenPreservesAllocated(State(), maxId, q);

      if origin.None? {
        return Err(BadOrigin);
      }
      var who := origin.value;

      var dup := CheckDuplicateTribes(tribeNames);
      if dup {
        return Err(DuplicateTribes);
      }

      if selections == 0 {
        return Err(ZeroSelections);
      }

      if now >= startAfter {
        return Err(StartAfterInThePast);
      }

      var next := CheckedAdd(cnt, 1, maxId);
      if next.None? {
        return Err(JuryCallCntOverflow);
      }
      var newCnt := next.value;

      var tribes := InitTribes(tribeNames);
      var call := JuryCall(tribes, selections, startAfter, who);

      cnt := newCnt;
      calls := calls[newCnt := call];
      return Ok(JuryCallOpened(newCnt, who));
    }
  }
}
