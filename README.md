# Kleroterion jury-call intake, modelled in Dafny

The kleroterion pallet keeps a registry of *jury calls*: scheduled requests to
draw a number of members (`selections`) from named candidate pools
(*tribes*) after a start time (`start_after`). This project models the one
dispatchable the pallet has, `open_jury_call`, and the helpers it uses.

`open_jury_call` runs its checks in a fixed order, and the first check that
fails is the error reported:

1. the origin must be signed;
2. no two tribe names may be byte-identical (`check_duplicate_tribes`, built
   on `compare_tribes`);
3. `selections` must not be 0;
4. `start_after` must be strictly later than the clock's current second.

It then allocates `JuryCallCnt + 1` with a checked addition, where overflow is
an error. It builds one empty tribe per name and writes the counter and the new
record. No write happens before the last check, so a rejected call changes
nothing.

Files:

- `types.dfy` (module `Types`): bytes, `u64`, account identifiers and `Option`.
  These are the primitive types the pallet takes from its runtime and from
  `crate::types`.
- `kleroterion.dfy` (module `Kleroterion`) holds:
  - the data model: `Tribe`, `JuryCall`, `Error`, `Event`, and the storage as
    the value `Store`;
  - `CompareTribes`;
  - the nested-loop method `CheckDuplicateTribes`;
  - the tribe-building loop `InitTribes`;
  - the specification function `Open` of a whole dispatch;
  - the class `Registry`, whose fields `cnt` and `calls` are the two storage
    items. Its method `OpenJuryCall` updates them in place and is proved
    equal to `Open`.
- `properties.dfy` (module `KleroterionProperties`): properties of several
  dispatches in a row (`Run`), and the duplicate check compared with counting
  distinct names.

Modelling choices:

- The width of `JuryCallID` is defined in `crate::types`, which is not part of
  this model. So the largest identifier is a parameter, `Registry.maxId`,
  fixed when the registry is created. Overflow means `cnt + 1 > maxId`.
- `Selections` and `Candidates` also come from `crate::types`. They are
  unbounded `nat`s here, because the code only tests `selections == 0` and
  writes `candidate_count = 0`.
- `start_after` and the clock reading are `u64` (`U64`).
- The clock reading (`T::TimeProvider::now().as_secs()`) is an input, `now`.
- `ensure_signed` becomes an `Option<AccountId>` origin: `None` is an
  unsigned origin and yields `BadOrigin`.
- The event `JuryCallOpened(id, who)` is returned as the `Ok` value of the
  dispatch. The code returns `Ok(())` and deposits the event.
- The code does not reject an empty list of tribe names, and neither does
  the model. The system's documented data model asks for at least one tribe
  per jury call; where the two disagree, the model follows the code. The
  documentation also calls the overflow error `IdCounterOverflow`; the code
  and the model call it `JuryCallCntOverflow`.
- Both orderings of the overflow check were possible. The code checks
  overflow after validation, so when both fail, the validation error wins.
  The model does the same.

## Model

| member | source | states |
|---|---|---|
| `Kleroterion.CompareTribes` | pallets/kleroterion/src/lib.rs:237-239 | Two optional names compare equal exactly when both are absent, or both are present with the same bytes. |
| `Kleroterion.CheckDuplicateTribes` | pallets/kleroterion/src/lib.rs:223-234 | The nested loop with the `distinct` accumulator returns true exactly when two positions i < j have byte-identical names. The loop invariant: `distinct` is the processed prefix, and that prefix has no repeat. |
| `Kleroterion.DuplicatesOfSnoc` | pallets/kleroterion/src/lib.rs:226-231 | Pushing a name onto a list without repeats creates a repeat exactly when that name is already in the list. This is the step behind the outer loop's invariant. |
| `Kleroterion.FreshTribes` | pallets/kleroterion/src/lib.rs:163-171 | Gives one tribe per name, with the same length and order: tribe k has name k, candidate count 0 and no candidates. |
| `Kleroterion.InitTribes` | pallets/kleroterion/src/lib.rs:163-171 | The loop that pushes one tribe per name produces exactly `FreshTribes(names)`. |
| `Kleroterion.CheckedAdd` | pallets/kleroterion/src/lib.rs:157-159 | `checked_add` never wraps. It yields the sum when the sum fits under the type's maximum, and nothing when it exceeds it. |
| `Kleroterion.Genesis` | pallets/kleroterion/src/lib.rs:75-81 | The initial storage is a `JuryCallCnt` of 0 (the `ValueQuery` default) and an empty `JuryCalls`. It already satisfies the invariant that the keys are exactly 1 .. counter. |
| `Kleroterion.Open` | pallets/kleroterion/src/lib.rs:134-195 | Each error is reported exactly when all earlier checks pass and its own fails. The order is `BadOrigin`, `DuplicateTribes`, `ZeroSelections`, `StartAfterInThePast` (which includes `start_after == now`), then `JuryCallCntOverflow`. Success happens exactly when every check passes. A rejection leaves the storage equal to the old storage. After a success: the counter is old + 1 and within the type; the event carries that id and the caller; the key set gains exactly that id; the new record has the names in order with empty tribes and copies `selections`, `start_after` and the owner; every other entry is unchanged. |
| `Kleroterion.OpenPreservesAllocated` | pallets/kleroterion/src/lib.rs:184-188 | Any dispatch keeps the key set of `JuryCalls` equal to 1 .. `JuryCallCnt`. The id a success takes was not already a key, so nothing is overwritten. |
| `Kleroterion.Registry.constructor` | pallets/kleroterion/src/lib.rs:75-81 | The registry starts at genesis: counter 0, no records, invariant established. |
| `Kleroterion.Registry.OpenJuryCall` | pallets/kleroterion/src/lib.rs:134-195 | The in-place dispatch keeps the registry invariant (counter ≤ max id, keys = 1 .. counter). It returns what `Open` returns and leaves the state `Open` gives. A rejection leaves `cnt` and `calls` unchanged. A success returns the event for id old `cnt` + 1 and sets `cnt` to that id. That id was not a key before, and `calls` is the old map plus that one entry. |
| `KleroterionProperties.Run` | pallets/kleroterion/src/lib.rs:134-195 | Dispatching a list of requests in order yields one result per request. |
| `KleroterionProperties.RunPreservesAllocated` | pallets/kleroterion/src/lib.rs:184-188 | Over any sequence of dispatches, the keys stay 1 .. counter and the counter never decreases. No stored record is replaced or removed. |
| `KleroterionProperties.SuccessfulRunIds` | pallets/kleroterion/src/lib.rs:157-191 | When every dispatch in a sequence succeeds, the k-th one reports id old counter + k + 1 with its caller, and the counter grows by the number of calls. |
| `KleroterionProperties.SuccessfulRunFromGenesis` | pallets/kleroterion/src/lib.rs:157-191 | N successful calls from genesis return ids 1, 2, ..., N in call order. The counter then reads N, and `JuryCalls` holds exactly N records, under keys 1 .. N. |
| `KleroterionProperties.TwoIdenticalCalls` | pallets/kleroterion/src/lib.rs:134-195 | Two identical admissible calls from genesis produce ids 1 and 2. Both records are stored, both owned by the caller, and the counter reads 2. |
| `KleroterionProperties.DuplicatesIffFewerNames` | pallets/kleroterion/src/lib.rs:223-234 | The existential duplicate check agrees with a count-based one: a repeat exists exactly when the list has fewer distinct names than entries. |
| `KleroterionProperties.DuplicatesIndependentOfOrder` | pallets/kleroterion/src/lib.rs:223-234 | Reordering the names does not change whether a duplicate is found. |

## Left out

- The error variants `NoneValue` and `StorageOverflow` (pallets/kleroterion/src/lib.rs:107-109) are left out. `open_jury_call` never returns them.
- The `Printable` implementation for errors and the `print` calls in `open_jury_call` are left out. They are diagnostics only.
- Weight annotations, the `Encode`/`Decode` derives and the `Twox64Concat` hashing of the map keys are left out. They are framework concerns and do not affect the logical key space.
- The internals of `ensure_signed` are left out. The origin is an `Option<AccountId>`. The runtime reports an unsigned origin as its own `BadOrigin` dispatch error, and the model reports it with the pallet's variant of the same name.
- `T::TimeProvider` is left out. Its reading is the input `now`.
- Event deposit is left out. The event is the returned `Ok` value, and no event log is modelled.
- The commented-out `test_time` dispatchable is not modelled.
- The mock runtime, the benchmarks and the test module are not modelled.
- The width of `JuryCallID`, `Selections` and `Candidates` is not modelled. `crate::types` is not part of this model. The identifier bound is the parameter `Registry.maxId`, and the other two are unbounded.
- Transactional rollback of storage is not modelled as a mechanism. The model shows that every write comes after the last check, which makes rollback unnecessary.
