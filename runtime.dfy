/**
 * The in-place model of the TPromise code: one object holding every promise's fields,
 * the host's `setTimeout` queue, the `results` arrays of `TPromise.all` and
 * the exceptions that escaped a drain. Each method updates those fields in
 * place the way the corresponding piece of the class does, and is proved to
 * leave exactly the world that the matching function of PromiseState (or
 * Combinators) describes, so every lemma about those functions holds of
 * these methods too.
 */
module PromiseRuntime {
  import opened PromiseState
  import Combinators
  import PromiseLemmas

  class Runtime {
    /** `status`, `value` and `callbacks` of every TPromise, by address. */
    var heap: seq<Record>
    /** The callbacks handed to `setTimeout`, oldest first. */
    var timers: seq<Task>
    /** The `results` arrays allocated by `TPromise.all`. */
    var arrays: seq<JsArray>
    /** Exceptions that escaped a timer callback. */
    var uncaught: seq<Value>

    ghost function World(): State
      reads this
    {
      State(heap, timers, arrays, uncaught)
    }

    ghost predicate Valid()
      reads this
    {
      PromiseState.Valid(World())
    }

    /** No promise, no timer. */
    constructor()
      ensures Valid() && World() == Empty()
    {
      heap, timers, arrays, uncaught := [], [], [], [];
    }

    /** `runCallbacks` on promise `id`: queue the drain of its callbacks. */
    method RunCallbacks(id: nat)
      requires Valid() && id < |heap| && heap[id].status != Pending
      modifies this
      ensures Valid() && World() == old(World()).(timers := old(timers) + [Drain(id)])
    {
      timers := timers + [Drain(id)];
    }

    /** `resolveAndRejectHandler(v, st)` on promise `id`. */
    method ResolveAndRejectHandler(id: nat, v: Value, st: Status)
      requires Valid() && id < |heap| && st != Pending
      modifies this
      ensures Valid() && World() == Settle(old(World()), id, v, st)
    {
      if heap[id].status == Pending {
        heap := heap[id := Record(st, v, heap[id].callbacks)];
        RunCallbacks(id);
      }
    }

    /** `fulfilledHandler(value)` on promise `id`. */
    method FulfilledHandler(id: nat, value: Value)
      requires Valid() && id < |heap|
      modifies this
      ensures Valid() && World() == Settle(old(World()), id, value, Fulfilled)
    {
      ResolveAndRejectHandler(id, value, Fulfilled);
    }

    /** `rejectedHandler(reason)` on promise `id`. */
    method RejectedHandler(id: nat, reason: Value)
      requires Valid() && id < |heap|
      modifies this
      ensures Valid() && World() == Settle(old(World()), id, reason, Rejected)
    {
      ResolveAndRejectHandler(id, reason, Rejected);
    }

    /**
     * `new TPromise(producer)`: initialise the fields, run the producer's
     * calls in order, and hand a throw from it to `rejectedHandler`.
     */
    method Construct(producer: Producer) returns (id: nat)
      requires Valid()
      modifies this
      ensures Valid() && (World(), id) == PromiseState.Construct(old(World()), producer)
    {
      AllocValid(World());
      id := |heap|;
      heap := heap + [Record(Pending, Null, [])];
      if producer.Script? {
        var calls := producer.calls;
        ghost var goal := RunProducer(World(), id, calls);
        var i := 0;
        while i < |calls|
          invariant i <= |calls| && Valid() && id < |heap|
          invariant RunProducer(World(), id, calls[i..]) == goal
        {
          assert calls[i..][1..] == calls[i + 1..];
          if calls[i].ResolveCall? {
            FulfilledHandler(id, calls[i].arg);
          } else {
            RejectedHandler(id, calls[i].arg);
          }
          i := i + 1;
        }
        assert calls[i..] == [];
        if producer.throws.Some? {
          RejectedHandler(id, producer.throws.value);
        }
      }
    }

    /**
     * `p.then(onFulfilled, onRejected)`: a fresh promise whose producer
     * pushes one entry on `p.callbacks`.
     */
    method Then(p: nat, onFulfilled: Handler, onRejected: Handler) returns (d: nat)
      requires Valid() && p < |heap|
      requires HandlerIn(onFulfilled, |heap|, |arrays|) && HandlerIn(onRejected, |heap|, |arrays|)
      modifies this
      ensures Valid() && (World(), d) == PromiseState.Then(old(World()), p, onFulfilled, onRejected)
    {
      d := |heap|;
      heap := heap + [Record(Pending, Null, [])];
      heap := heap[p := heap[p].(callbacks := heap[p].callbacks + [Reaction(onFulfilled, onRejected, d)])];
    }

    /** Calls a present handler with `v`. */
    method Invoke(h: Handler, v: Value) returns (out: Outcome)
      requires Valid() && !h.Absent? && HandlerIn(h, |heap|, |arrays|)
      modifies this
      ensures Valid() && (World(), out) == PromiseState.Invoke(old(World()), h, v)
    {
      match h
      case User(f) =>
        out := f(v);
      case Resolver(t) =>
        FulfilledHandler(t, v);
        out := Returns(Undefined);
      case Rejecter(t) =>
        RejectedHandler(t, v);
        out := Returns(Undefined);
      case AllSlot(k, i, n, t) =>
        // the success closure of `all`: store, then compare `length`
        arrays := arrays[k := Write(arrays[k], i, v)];
        if arrays[k].length == n {
          FulfilledHandler(t, ArrayRef(k));
        }
        out := Returns(Undefined);
    }

    /**
     * `thenCallbackHandler(result, resolve, reject)` with `this` the promise
     * `receiver` and the capabilities those of `derived`.
     */
    method ThenCallbackHandler(receiver: nat, result: Value, derived: nat)
      requires Valid() && receiver < |heap| && derived < |heap|
      modifies this
      ensures Valid() && World() == PromiseState.ThenCallbackHandler(old(World()), receiver, result, derived)
    {
      if result == PromiseRef(receiver) {
        RejectedHandler(derived, TypeError(ChainingCycle));
      } else if result.PromiseRef? && result.id < |heap| {
        var _ := Then(result.id, Resolver(derived), Rejecter(derived));
      } else {
        FulfilledHandler(derived, result);
      }
    }

    /**
     * The `successCallback` (side Fulfilled) or `errorCallback` (side
     * Rejected) of entry `r` on promise `p`, called with `val`; returns the
     * exception that escaped it, if any.
     */
    method Callback(p: nat, r: Reaction, side: Status, val: Value) returns (escaped: Option<Value>)
      requires Valid() && p < |heap| && ReactionIn(r, |heap|, |arrays|) && side != Pending
      modifies this
      ensures Valid() && (World(), escaped) == PromiseState.Callback(old(World()), p, r, side, val)
    {
      var h := HandlerFor(r, side);
      escaped := None;
      if h.Absent? {
        ResolveAndRejectHandler(r.derived, val, side);
      } else {
        var out := Invoke(h, val);
        match out
        case Throws(e) =>
          escaped := Some(e);
        case Returns(x) =>
          ThenCallbackHandler(p, x, r.derived);
          ResolveAndRejectHandler(r.derived, val, side);
      }
    }

    /** The body of the `forEach` in `runCallbacks` for entry `r` of `p`. */
    method Fire(p: nat, r: Reaction) returns (escaped: Option<Value>)
      requires Valid() && p < |heap| && ReactionIn(r, |heap|, |arrays|)
      modifies this
      ensures Valid() && (World(), escaped) == PromiseState.Fire(old(World()), p, r)
    {
      escaped := None;
      if heap[p].status == Fulfilled {
        escaped := Callback(p, r, Fulfilled, heap[p].value);
      }
      if heap[p].status == Rejected {
        escaped := Callback(p, r, Rejected, heap[p].value);
      }
    }

    /**
     * The function `runCallbacks` hands to `setTimeout`, for promise `p`:
     * the `forEach` over its callbacks, ended by an exception that escapes
     * a handler, which is then left uncaught.
     */
    method DrainCallbacks(p: nat)
      requires Valid() && p < |heap|
      modifies this
      ensures Valid() && World() == RunTask(old(World()), p)
    {
      var cbs := heap[p].callbacks;
      ghost var goal := DrainFrom(World(), p, cbs);
      var i := 0;
      while i < |cbs|
        invariant i <= |cbs| && Valid() && p < |heap|
        invariant ReactionsIn(cbs[i..], |heap|, |arrays|)
        invariant DrainFrom(World(), p, cbs[i..]) == goal
      {
        PromiseLemmas.DrainFirst(World(), p, cbs[i..]);
        assert cbs[i..][0] == cbs[i] && cbs[i..][1..] == cbs[i + 1..];
        var escaped := Fire(p, cbs[i]);
        if escaped.Some? {
          uncaught := uncaught + [escaped.value];
          return;
        }
        i := i + 1;
      }
      assert cbs[i..] == [];
    }

    /** The host runs the oldest queued timer, if any. */
    method RunNextTimer()
      requires Valid()
      modifies this
      ensures Valid() && World() == Step(old(World()))
    {
      if timers != [] {
        var p := timers[0].promise;
        timers := timers[1..];
        assert Valid() by {
          forall t | t in timers ensures t in old(timers) { }
        }
        DrainCallbacks(p);
      }
    }

    /** `TPromise.resolve(value)` */
    method Resolve(value: Value) returns (id: nat)
      requires Valid()
      modifies this
      ensures Valid() && (World(), id) == PromiseState.Resolve(old(World()), value)
    {
      if value.PromiseRef? && value.id < |heap| {
        id := value.id;
      } else {
        PromiseLemmas.ResolveIsConstruct(World(), value);
        id := Construct(Script([ResolveCall(value)], None));
      }
    }

    /** `TPromise.reject(reason)` */
    method Reject(reason: Value) returns (id: nat)
      requires Valid()
      modifies this
      ensures Valid() && (World(), id) == PromiseState.Reject(old(World()), reason)
    {
      PromiseLemmas.RejectIsConstruct(World(), reason);
      id := Construct(Script([RejectCall(reason)], None));
    }

    /**
     * The function `all` hands to `promises.forEach`, for input `i`:
     * `TPromise.resolve(promise).then(slot, reject)`.
     */
    method AllEach(items: seq<Value>, i: nat, k: nat, c: nat)
      requires Valid() && i < |items| && k < |arrays| && c < |heap|
      modifies this
      ensures Valid() && World() == Combinators.AllStep(old(World()), items, i, k, c)
    {
      var q := Resolve(items[i]);
      var _ := Then(q, AllSlot(k, i, |items|, c), Rejecter(c));
    }

    /**
     * `TPromise.all(promises)`: a fresh promise, a fresh `results` array,
     * and one `TPromise.resolve(promise).then(slot, reject)` per input.
     */
    method All(arg: Combinators.Arg) returns (c: nat)
      requires Valid()
      modifies this
      ensures Valid() && (World(), c) == Combinators.All(old(World()), arg)
    {
      ghost var s0 := World();
      AllocValid(s0);
      c := |heap|;
      heap := heap + [Record(Pending, Null, [])];
      var k := |arrays|;
      arrays := arrays + [JsArray(map[], 0)];
      assert World() == Combinators.NewArray(Alloc(s0).0).0;
      match arg
      case NonArray(_) =>
        // `promises.forEach` is not a function: the constructor catches it
        RejectedHandler(c, TypeError(NotAFunction));
      case ArrayArg(items) =>
        ghost var s2 := World();
        var i := 0;
        while i < |items|
          invariant i <= |items| && Valid()
          invariant World() == Combinators.AllUpTo(s2, items, i, k, c)
        {
          AllEach(items, i, k, c);
          i := i + 1;
        }
    }

    /**
     * The function `race` hands to `promises.map`, for input `i`:
     * `TPromise.resolve(promise).then(resolve, reject)`.
     */
    method RaceEach(items: seq<Value>, i: nat, c: nat)
      requires Valid() && i < |items| && c < |heap|
      modifies this
      ensures Valid() && World() == Combinators.RaceStep(old(World()), items, i, c)
    {
      var q := Resolve(items[i]);
      var _ := Then(q, Resolver(c), Rejecter(c));
    }

    /**
     * `TPromise.race(promises)`: a fresh promise and one
     * `TPromise.resolve(promise).then(resolve, reject)` per input.
     */
    method Race(arg: Combinators.Arg) returns (c: nat)
      requires Valid()
      modifies this
      ensures Valid() && (World(), c) == Combinators.Race(old(World()), arg)
    {
      ghost var s0 := World();
      AllocValid(s0);
      c := |heap|;
      heap := heap + [Record(Pending, Null, [])];
      assert (World(), c) == Alloc(s0);
      match arg
      case NonArray(_) =>
        // `promises.map` is not a function: the constructor catches it
        RejectedHandler(c, TypeError(NotAFunction));
      case ArrayArg(items) =>
        ghost var s1 := World();
        var i := 0;
        while i < |items|
          invariant i <= |items| && Valid()
          invariant World() == Combinators.RaceUpTo(s1, items, i, c)
        {
          RaceEach(items, i, c);
          i := i + 1;
        }
    }
  }
}
