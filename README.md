# TPromise, modelled in Dafny

This project models `TPromise`, a hand-written promise class in
`src/TPromise.js`. It is a small state machine that runs on one thread:

- Each instance holds a `status` (PENDING, FULFILLED or REJECTED), a `value` and an append-only `callbacks` list.
- `resolveAndRejectHandler` settles an instance once and schedules `runCallbacks`.
- `runCallbacks` hands a drain of `callbacks` to `setTimeout`.
- `then` builds a derived promise and pushes a `{successCallback, errorCallback}` pair onto its receiver.
- `thenCallbackHandler` settles the derived promise from a handler's return value.
- The static helpers are `resolve`, `reject`, `all` and `race`.

The model is in four modules.

- `PromiseState` (`state.dfy`) describes the whole world as a value. It holds:
  - a heap of promise records, indexed by address;
  - the `setTimeout` queue, as a FIFO of drain tasks;
  - the `results` arrays of `all`, as sparse JavaScript arrays with an explicit `length`;
  - the exceptions that escaped a timer callback.

  Every piece of the class is a function from one world to the next. `Valid` is the well-formedness invariant they all keep. `Extends` is the monotone relation they all keep: records and arrays are only added, `callbacks` only grow at the end, and a settled promise keeps its status and value for ever.
- `Combinators` (`combinators.dfy`) holds `all` and `race`, each built from one turn of its `forEach`/`map` loop.
- `PromiseLemmas` (`lemmas.dfy`) proves what the code guarantees and where it departs from the usual promise contract.
- `PromiseRuntime` (`runtime.dfy`) holds the class `Runtime`. Its fields are the heap, the timer queue, the arrays and the escaped exceptions. Each method updates them in place, as the JavaScript does, and is proved to produce exactly the world the matching function describes. So every lemma about the functions also holds for the in-place methods of `Runtime`.

Behaviour that the code has and the usual promise contract does not is modelled as written and proved as such:

- **The fallback always runs.** `onFulfilled && this.thenCallbackHandler(...) || resolve(val)` always evaluates `resolve(val)`, because `thenCallbackHandler` returns `undefined`. A handler that returns another TPromise therefore leaves the derived promise settled with the receiver's own value, not with the adopted outcome.
- **`resolve` does not adopt.** The constructor's `resolve` capability stores its argument as the value, even when it is another TPromise; it is not unwrapped.
- **Handler exceptions escape.** A handler's exception is raised while its argument is evaluated, outside the `try`. It ends the drain and is left uncaught, and the derived promise stays as it was.
- **The argument guard never fires.** The guard of `all`/`race` is `!promises instanceof Array`, which never holds. A non-array argument makes the producer throw a TypeError, and the returned promise is rejected with it.
- **`all` completes by `length`.** It completes when `results.length` equals the input count, that is when the LAST index has been written, even if earlier slots are still holes.
- **The cycle test looks at the receiver.** `thenCallbackHandler` compares the returned value with `this`, the promise `then` was called on, not with the derived promise. A handler that returns the receiver is rejected with the cycle TypeError, where the usual contract would adopt the settled receiver. A handler that returns its own `then`-promise is not rejected: `result.then(resolve, reject)` is registered on that promise itself, and the fallback then settles it with the receiver's value.
- **`all` hands out a live array.** `all` fulfils with the shared `results` array, and slot closures that run later still write into it. The array a fulfilled `all` promise holds therefore keeps changing after settlement; for example, its holes get filled in.
- **Empty inputs never settle.** `all([])` and `race([])` stay pending.
- **Late `then` never fires.** A `then` on a promise whose drain has already run only pushes an entry, and nothing ever runs it. A `then` made after settlement but before the drain's timer runs does fire, because the drain reads `callbacks` only when it runs.

Where the behaviour the library is meant to have and the code disagree, the model follows the code. The intended behaviour is that:

- handler errors reject the derived promise;
- the input check of `all`/`race` throws synchronously;
- `all` counts completions;
- a derived promise adopts a returned promise;
- a reaction registered after the promise's drain has run still runs.

The code does none of these.

## Model

| member | source | states |
|---|---|---|
| PromiseState.Settle | src/TPromise.js:171-177 | One-shot settlement. From PENDING it records exactly the requested status and value and queues exactly one drain of that promise, changing nothing else. On a settled promise the world is returned unchanged. |
| PromiseState.Alloc | src/TPromise.js:7-9 | A fresh record at the next address: PENDING, `null`, no callbacks. Nothing else changes. |
| PromiseState.RunProducer | src/TPromise.js:10-11 | The producer's calls touch only the new promise and keep its callbacks and every other record. |
| PromiseLemmas.RunProducerSettled | src/TPromise.js:172-176 | Once the promise has settled, any further producer calls leave the world unchanged. |
| PromiseState.Construct | src/TPromise.js:6-15 | `new TPromise(p)` adds exactly one record, with no callbacks, and keeps every older record. |
| PromiseLemmas.ConstructOutcome | src/TPromise.js:6-15 | The producer's first `resolve`/`reject` call decides the status and value and queues exactly one drain. A synchronous throw with no call before it rejects with the thrown value, and nothing escapes. With no producer, or one that does nothing, the promise stays pending and nothing is queued. |
| PromiseState.Then | src/TPromise.js:145-163 | `then` returns a fresh PENDING promise and leaves the receiver's status and value unchanged. It appends exactly one entry, holding the two handlers and the new promise, to the end of the receiver's callbacks. Nothing is queued, and every other record is unchanged. |
| PromiseState.Write | src/TPromise.js:78 | `results[index] = val` sets that slot. `length` grows to index+1 only when the index is past the end. The array's length invariant is kept. |
| PromiseState.Invoke | src/TPromise.js:75-82 | A user handler only returns or throws, and changes nothing. `resolve`/`reject` capabilities settle their target. The `all` slot closure writes `val` at its index. It then fulfils the target with the array, queueing its drain, exactly when the write makes `length` equal the input count and the target is pending; otherwise heap and queue are untouched. Only targets that the handler names can change. |
| PromiseState.ThenCallbackHandler | src/TPromise.js:115-130 | Receiver returned: the derived promise is rejected with the cycle TypeError. Another TPromise returned: `result.then(resolve, reject)` is registered, and the derived promise and the queue are untouched. Anything else returned: the derived promise is fulfilled with it. A settled receiver is unchanged. |
| PromiseState.Callback | src/TPromise.js:148-159 | With no handler for that side, the derived promise takes the receiver's status and value. A throwing handler escapes and changes nothing. A returning handler settles a pending derived promise at once: with the cycle error, or with the receiver's own status and value when it returned a TPromise, or else with the returned value. |
| PromiseState.Fire | src/TPromise.js:21-27 | One `forEach` step leaves the receiver's record unchanged. A pending receiver calls nothing and changes nothing. |
| PromiseState.DrainFrom | src/TPromise.js:20-28 | The drain keeps the receiver's record, adds no array and no escaped error, and keeps the world valid and extended. An empty list changes nothing. |
| PromiseState.RunTask | src/TPromise.js:19-29 | A timer callback drains the callbacks the promise holds when it runs. An exception that escapes is appended to `uncaught`; otherwise heap, queue and arrays are those the drain left. |
| PromiseState.Step | src/TPromise.js:19 | FIFO: the oldest queued task leaves the queue and its drain runs. With an empty queue, nothing happens. |
| PromiseState.Dequeue | src/TPromise.js:19 | Taking the oldest task off the queue leaves the rest of the queue in order and changes nothing else; the task names an allocated promise. |
| PromiseState.Steps | src/TPromise.js:19 | Any number of timer turns keeps the world valid and extended. |
| PromiseState.Resolve | src/TPromise.js:38-46 | A TPromise argument is returned as the same promise, and the world is unchanged. Anything else becomes a new promise FULFILLED with it, with its drain queued. |
| PromiseState.Reject | src/TPromise.js:54-58 | A new promise REJECTED with the argument taken literally, even when it is a TPromise, with its drain queued. |
| PromiseLemmas.ResolveIsConstruct | src/TPromise.js:43-45 | For a non-TPromise argument, `resolve` is exactly `new TPromise(resolve => resolve(value))`. |
| PromiseLemmas.RejectIsConstruct | src/TPromise.js:55-57 | `reject` is exactly `new TPromise((_, reject) => reject(reason))`. |
| PromiseLemmas.CallbackReturns | src/TPromise.js:148-159 | A user handler that returns `x` on a pending derived promise: nothing escapes, the derived promise's drain is queued, a TPromise `x` other than the receiver gets `x.then(resolve, reject)` registered with one fresh PENDING promise, and every other record is unchanged. |
| PromiseLemmas.FireSettled | src/TPromise.js:21-27 | A FULFILLED receiver calls the success callback and a REJECTED one the error callback, each with the stored value. |
| PromiseLemmas.DrainFirst | src/TPromise.js:20-28 | The drain fires the first entry with the receiver's state. If its handler threw, the drain ends there; otherwise it drains the rest in the world the first left. |
| PromiseLemmas.DrainOne | src/TPromise.js:20-28 | Draining a single entry is exactly one firing of it. |
| PromiseLemmas.DrainOrder | src/TPromise.js:20-28 | Draining `a + b` drains `a` first. Then, unless an exception escaped, it drains `b` from the resulting world; if one escaped, `b` is never reached. |
| PromiseLemmas.DrainDispatch | src/TPromise.js:21-27 | A FULFILLED receiver calls only success callbacks and a REJECTED one only error callbacks. Two callback lists that agree on that side drain identically. |
| PromiseLemmas.DrainTunnels | src/TPromise.js:151-159 | When no entry has a handler for the receiver's side, no exception escapes. Each derived promise takes the receiver's status and its value unchanged, and their drains are queued in registration order. |
| PromiseLemmas.QuietStaysPending | src/TPromise.js:18-30 | A pending promise that no runnable entry can reach stays so through any number of timer turns. |
| PromiseLemmas.StepFiresSoleEntry | src/TPromise.js:19-29 | When the queue holds only the drain of a promise with one entry, the next timer fires that entry and, if nothing escapes, leaves exactly the world that firing left. |
| PromiseLemmas.ResolveThenFulfils | src/TPromise.js:38-46 | `TPromise.resolve(v)` for a plain `v`, then `.then(f)` with `f(v)` returning a plain `x`: the next timer fulfils the `then`-promise with `x`, queues its drain, and nothing escapes. |
| PromiseLemmas.StepFulfilsDerived | src/TPromise.js:148-152 | The timer step of `ResolveThenFulfils`: a FULFILLED receiver whose one entry has a user handler returning a plain `x` fulfils a pending derived promise with `x`. |
| PromiseLemmas.RejectThenRejects | src/TPromise.js:54-58 | `TPromise.reject(reason)`, then `.then()` with no handlers before any timer runs: the next timer rejects the `then`-promise with `reason` and queues its drain. |
| PromiseLemmas.LateThenNeverFires | src/TPromise.js:145-163 | A `then` on a settled promise whose drain has already run returns a promise that stays pending for ever. |
| PromiseLemmas.AllReactionFires | src/TPromise.js:75-82 | When input i's entry fires, its own `then`-promise is fulfilled with `undefined`. On success the value lands at index i, and the combined promise settles exactly when `length` reaches the input count, with the array. On failure the combined promise is rejected with the reason. |
| PromiseLemmas.AllCompletesOnLastIndex | src/TPromise.js:79 | The completion test `results.length === promises.length` holds exactly when the last index has been written. |
| PromiseLemmas.EmptyAllNeverSettles | src/TPromise.js:72-85 | `all([])` returns a promise that stays pending through any number of timer turns. |
| PromiseLemmas.EmptyRaceNeverSettles | src/TPromise.js:100-103 | `race([])` returns a promise that stays pending through any number of timer turns. |
| PromiseLemmas.RaceFirstWins | src/TPromise.js:102 | The first `race` entry to fire settles the combined promise with its status and value. A later entry changes neither. |
| Combinators.NewArray | src/TPromise.js:73 | `let results = []` adds one empty array of length 0 and changes nothing else. |
| Combinators.AllStep | src/TPromise.js:74-84 | One `forEach` turn keeps the combined promise's status and value. A TPromise input gets the entry for its index at the end of its own callbacks, keeps its status and value, and every other record is unchanged; the fresh `then`-promise is PENDING with no callbacks. Any other input becomes a new FULFILLED promise carrying that entry, with its drain queued, followed by the PENDING `then`-promise, and every older record is unchanged. |
| Combinators.AllUpTo | src/TPromise.js:72-85 | The `forEach` loop keeps the combined promise's status and value and adds no array. |
| Combinators.All | src/TPromise.js:67-87 | `all` allocates the combined promise first and one results array. A non-array argument rejects the promise with the TypeError and queues its drain. An array leaves it pending when `all` returns. |
| Combinators.RaceStep | src/TPromise.js:102 | One `map` turn keeps the combined promise's status and value. A TPromise input gets an entry settling the combined promise like it, keeps its status and value, and every other record is unchanged; the fresh `then`-promise is PENDING with no callbacks. Any other input becomes a new FULFILLED promise carrying that entry, with its drain queued, followed by the PENDING `then`-promise, and every older record is unchanged. |
| Combinators.RaceUpTo | src/TPromise.js:100-103 | The `map` loop keeps the combined promise's status and value and adds no array. |
| Combinators.Race | src/TPromise.js:95-104 | `race` allocates the combined promise first. A non-array argument rejects it with the TypeError and queues its drain. An array leaves it pending when `race` returns. |
| PromiseRuntime.Runtime.RunCallbacks | src/TPromise.js:18-19 | Appends exactly one drain of the promise to the timer queue. |
| PromiseRuntime.Runtime.ResolveAndRejectHandler | src/TPromise.js:171-177 | The in-place update leaves exactly the world `Settle` describes. |
| PromiseRuntime.Runtime.FulfilledHandler | src/TPromise.js:183-185 | Settles as FULFILLED through `Settle`. |
| PromiseRuntime.Runtime.RejectedHandler | src/TPromise.js:191-193 | Settles as REJECTED through `Settle`. |
| PromiseRuntime.Runtime.Construct | src/TPromise.js:6-15 | The loop over the producer's calls, followed by the caught throw, leaves exactly the world and address of `Construct`. |
| PromiseRuntime.Runtime.Then | src/TPromise.js:145-163 | The push leaves exactly the world and address of `Then`. |
| PromiseRuntime.Runtime.Invoke | src/TPromise.js:75-82 | Calling a handler leaves exactly the world and outcome of `Invoke`. |
| PromiseRuntime.Runtime.ThenCallbackHandler | src/TPromise.js:115-130 | The three-way case split leaves exactly the world of `ThenCallbackHandler`. |
| PromiseRuntime.Runtime.Callback | src/TPromise.js:148-159 | A success or error callback leaves exactly the world and escaped exception of `Callback`. |
| PromiseRuntime.Runtime.Fire | src/TPromise.js:21-27 | The two status tests fire at most one callback, and the result is exactly that of `Fire`. |
| PromiseRuntime.Runtime.DrainCallbacks | src/TPromise.js:19-29 | The `forEach` loop, with an escaped exception left uncaught, leaves exactly the world of `RunTask`. |
| PromiseRuntime.Runtime.RunNextTimer | src/TPromise.js:19 | Running the oldest timer leaves exactly the world of `Step`. |
| PromiseRuntime.Runtime.Resolve | src/TPromise.js:38-46 | Returns the argument itself or a new promise, exactly as `Resolve`, using the constructor with a one-call producer. |
| PromiseRuntime.Runtime.Reject | src/TPromise.js:54-58 | Exactly as `Reject`, using the constructor with a one-call producer. |
| PromiseRuntime.Runtime.AllEach | src/TPromise.js:74-84 | One `forEach` callback of `all` leaves exactly the world of `AllStep`. |
| PromiseRuntime.Runtime.All | src/TPromise.js:67-87 | The allocation and the `forEach` loop leave exactly the world and address of `All`. |
| PromiseRuntime.Runtime.RaceEach | src/TPromise.js:102 | One `map` callback of `race` leaves exactly the world of `RaceStep`. |
| PromiseRuntime.Runtime.Race | src/TPromise.js:95-104 | The allocation and the `map` loop leave exactly the world and address of `Race`. |

## Left out

- `catch` (src/TPromise.js:137-143) builds the host's native `Promise`, which is not part of this model.
- The demo scenarios after the class (src/TPromise.js:198-379) are console-driven examples, not logic.
- Timer durations and wall-clock time are not modelled. `setTimeout` is a FIFO queue, and the host runs its oldest task on each `Step`.
- Thenables: only `instanceof TPromise` is modelled, as a `PromiseRef` to an allocated record. A reference to an address not yet allocated counts as not a TPromise.
- The exact TypeError message strings: each error is a single abstract value (`ChainingCycle`, `NotAFunction`).
- User handlers and producers are pure.
  - A handler's effect is only to return or throw a value.
  - A producer is a script of synchronous `resolve`/`reject` calls followed by an optional throw.
  - Handlers that allocate promises or call `then` themselves are not modelled.
- A truthy non-function handler passed to `then` is not modelled. A handler is either absent or callable.
- Inputs to `all`/`race` are either a sequence of values (`ArrayArg`) or a value without `forEach`/`map` (`NonArray`). Array-like objects and iterables are not modelled.
- Combinators.All: a `results` array of an earlier `all` passed back in as the argument is a real JavaScript array, which the code iterates. The model rejects `NonArray(ArrayRef(k))` with the TypeError instead; such an argument must be given as `ArrayArg` of its slots, and the live, possibly holed array itself is not modelled as an input.
- Combinators.Race: the same holds for a `results` array passed to `race`: `NonArray(ArrayRef(k))` is rejected with the TypeError, where the code would iterate the array with `map`.
- When an exception escapes a timer callback, it is recorded in `uncaught`, and the host goes on with the next timer. Terminating the process on an uncaught exception is a host policy and is not modelled.
- Combinators.AllUpTo: the promise that every input gets its entry is stated per turn, on `AllStep`, rather than as one statement over the whole loop.
- Combinators.RaceUpTo: the promise that every input gets its entry is stated per turn, on `RaceStep`, rather than as one statement over the whole loop.
- `all`/`race` read their input as a snapshot: a sequence of values fixed when they are called. `count` is fixed at `|items|`, while the code re-reads `promises.length` in each slot closure; a caller that mutates the array afterwards is not modelled.
- Holes in the input array of `all`/`race` are not modelled; the input is dense.
- Every `PromiseRef` in the input of `all`/`race` is taken to name a promise that already exists when they are called. A reference to an address that is allocated during the call, such as the combined promise itself, is not modelled.
- PromiseLemmas.AllCompletesOnLastIndex: its hypothesis, that every index written so far is below the input count, is not carried as an invariant of the arrays `all` allocates; it holds because each slot closure only writes its own index below `|items|`.
