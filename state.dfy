/**
 * The world that TPromise objects live in, as values.
 *
 * Every TPromise is a record in `heap`, addressed by its index. The host's
 * `setTimeout` queue is `timers`: the only thing the promise code ever hands
 * to `setTimeout` is the drain of one promise's `callbacks`, so a task names
 * that promise. `arrays` holds the `results` arrays that `TPromise.all`
 * allocates and shares between its per-input closures, and `uncaught`
 * collects the exceptions that escape a drain.
 *
 * Every operation of the class is a function from one world to the next;
 * `Extends` is the relation every one of them keeps.
 */
module PromiseState {

  datatype Option<T> = None | Some(value: T)

  /** TPromise.pending, TPromise.fulfilled, TPromise.rejected */
  datatype Status = Pending | Fulfilled | Rejected

  /** The TypeErrors the promise code can raise. */
  datatype ErrorKind =
    | ChainingCycle   // a handler returned the promise its `then` was called on
    | NotAFunction    // `all`/`race` got an argument without `forEach`/`map`

  /** A JavaScript value, as far as the promise code looks at it. */
  datatype Value =
    | Undefined
    | Null
    | Num(n: int)
    | Str(text: string)
    | TypeError(kind: ErrorKind)
    | PromiseRef(id: nat)   // a TPromise object
    | ArrayRef(id: nat)     // a `results` array made by TPromise.all

  /** What calling a user function does: return a value or throw one. */
  datatype Outcome = Returns(result: Value) | Throws(error: Value)

  /**
   * An `onFulfilled`/`onRejected` argument of `then`: missing, a user
   * function, the `resolve`/`reject` capability of a promise, or the
   * per-input success closure of TPromise.all (write slot `index` of array
   * `results`, then fulfil `target` when the array is `count` long).
   */
  datatype Handler =
    | Absent
    | User(f: Value -> Outcome)
    | Resolver(target: nat)
    | Rejecter(target: nat)
    | AllSlot(results: nat, index: nat, count: nat, target: nat)

  /**
   * One `{successCallback, errorCallback}` entry pushed by `then`: the two
   * handlers it closes over and the promise `then` returned (`derived`).
   */
  datatype Reaction = Reaction(onFulfilled: Handler, onRejected: Handler, derived: nat)

  /** The fields of one TPromise instance. */
  datatype Record = Record(status: Status, value: Value, callbacks: seq<Reaction>)

  /** A JavaScript array: the indices written so far and its `length`. */
  datatype JsArray = JsArray(slots: map<nat, Value>, length: nat)

  /** A `setTimeout` task: drain the callbacks of `promise`. */
  datatype Task = Drain(promise: nat)

  datatype State = State(heap: seq<Record>, timers: seq<Task>, arrays: seq<JsArray>, uncaught: seq<Value>)

  /** One call the producer passed to the constructor makes to its capabilities. */
  datatype Call = ResolveCall(arg: Value) | RejectCall(arg: Value)

  /**
   * The producer passed to `new TPromise(...)`: missing, or a body that makes
   * some synchronous calls to `resolve`/`reject` and then returns or throws.
   */
  datatype Producer = NoProducer | Script(calls: seq<Call>, throws: Option<Value>)

  /** The world before any promise exists. */
  function Empty(): State {
    State([], [], [], [])
  }

  /** `value instanceof TPromise` */
  predicate IsPromise(s: State, v: Value) {
    v.PromiseRef? && v.id < |s.heap|
  }

  function Verdict(c: Call): Status {
    if c.ResolveCall? then Fulfilled else Rejected
  }

  // ---------------------------------------------------------------------
  // Well-formedness: every address stored in the world is in range.

  /** Whether calling `h` can settle promise `c`. */
  predicate HandlerTargets(h: Handler, c: nat) {
    match h
    case Resolver(t) => t == c
    case Rejecter(t) => t == c
    case AllSlot(_, _, _, t) => t == c
    case _ => false
  }

  /** Whether firing reaction `r` can settle promise `c`. */
  predicate Targets(r: Reaction, c: nat) {
    r.derived == c || HandlerTargets(r.onFulfilled, c) || HandlerTargets(r.onRejected, c)
  }

  ghost predicate HandlerIn(h: Handler, n: nat, m: nat) {
    match h
    case Absent => true
    case User(_) => true
    case Resolver(t) => t < n
    case Rejecter(t) => t < n
    case AllSlot(k, _, _, t) => k < m && t < n
  }

  ghost predicate ReactionIn(r: Reaction, n: nat, m: nat) {
    HandlerIn(r.onFulfilled, n, m) && HandlerIn(r.onRejected, n, m) && r.derived < n
  }

  ghost predicate ReactionsIn(cbs: seq<Reaction>, n: nat, m: nat) {
    forall j | 0 <= j < |cbs| :: ReactionIn(cbs[j], n, m)
  }

  /** A JavaScript array's `length` is one more than its highest index written (0 if none). */
  ghost predicate ArrayOk(a: JsArray) {
    && (forall i | i in a.slots :: i < a.length)
    && (a.length == 0 || a.length - 1 in a.slots)
  }

  /**
   * Addresses are in range, every array keeps the `length` rule, and a
   * drain is only ever queued for a promise that has settled.
   */
  ghost predicate Valid(s: State) {
    && (forall i | 0 <= i < |s.heap| :: ReactionsIn(s.heap[i].callbacks, |s.heap|, |s.arrays|))
    && (forall t | t in s.timers :: t.promise < |s.heap| && s.heap[t.promise].status != Pending)
    && (forall k | 0 <= k < |s.arrays| :: ArrayOk(s.arrays[k]))
  }

  /**
   * How any step may change the world: promises and arrays are only added,
   * a `callbacks` list only grows at its end, a settled promise keeps its
   * status and value for ever, a drain is only queued for a promise that was
   * pending (or not yet allocated), and escaped errors are only added.
   */
  ghost predicate Extends(s: State, r: State) {
    && |s.heap| <= |r.heap|
    && |s.arrays| <= |r.arrays|
    && (forall i | 0 <= i < |s.heap| :: s.heap[i].callbacks <= r.heap[i].callbacks)
    && (forall i | 0 <= i < |s.heap| && s.heap[i].status != Pending ::
          r.heap[i].status == s.heap[i].status && r.heap[i].value == s.heap[i].value)
    && (forall t | t in r.timers ::
          t in s.timers || t.promise >= |s.heap| || s.heap[t.promise].status == Pending)
    && s.uncaught <= r.uncaught
  }

  lemma ExtendsTrans(s1: State, s2: State, s3: State)
    requires Extends(s1, s2) && Extends(s2, s3)
    ensures Extends(s1, s3)
  {
    forall i | 0 <= i < |s1.heap|
      ensures s1.heap[i].callbacks <= s3.heap[i].callbacks
    {
      var a, b, c := s1.heap[i].callbacks, s2.heap[i].callbacks, s3.heap[i].callbacks;
      assert a == b[..|a|] && b == c[..|b|];
      assert c[..|b|][..|a|] == c[..|a|];
    }
    assert s1.uncaught == s3.uncaught[..|s1.uncaught|] by {
      assert s3.uncaught[..|s2.uncaught|][..|s1.uncaught|] == s3.uncaught[..|s1.uncaught|];
    }
  }

  lemma ReactionsGrow(cbs: seq<Reaction>, n: nat, m: nat, n': nat, m': nat)
    requires ReactionsIn(cbs, n, m) && n <= n' && m <= m'
    ensures ReactionsIn(cbs, n', m')
  {
    forall j | 0 <= j < |cbs| ensures ReactionIn(cbs[j], n', m') {
      assert ReactionIn(cbs[j], n, m);
    }
  }

  // ---------------------------------------------------------------------
  // Settlement: resolveAndRejectHandler, fulfilledHandler, rejectedHandler.

  /**
   * `resolveAndRejectHandler(v, st)` on promise `id`: one-shot. From
   * PENDING it records exactly `st` and `v` and queues one drain
   * (`runCallbacks`); on a settled promise it does nothing at all.
   */
  function Settle(s: State, id: nat, v: Value, st: Status): (r: State)
    requires Valid(s) && id < |s.heap| && st != Pending
    ensures Valid(r) && Extends(s, r)
    ensures |r.heap| == |s.heap| && r.arrays == s.arrays && r.uncaught == s.uncaught
    ensures forall j | 0 <= j < |s.heap| :: r.heap[j].callbacks == s.heap[j].callbacks
    ensures forall j | 0 <= j < |s.heap| && (j != id || s.heap[id].status != Pending) :: r.heap[j] == s.heap[j]
    ensures s.heap[id].status != Pending ==> r == s
    ensures s.heap[id].status == Pending ==>
      && r.heap[id].status == st && r.heap[id].value == v
      && r.timers == s.timers + [Drain(id)]
  {
    if s.heap[id].status == Pending then
      s.(heap := s.heap[id := Record(st, v, s.heap[id].callbacks)], timers := s.timers + [Drain(id)])
    else
      s
  }

  // ---------------------------------------------------------------------
  // The constructor.

  lemma AllocValid(s: State)
    requires Valid(s)
    ensures Valid(s.(heap := s.heap + [Record(Pending, Null, [])]))
  {
    var r := s.(heap := s.heap + [Record(Pending, Null, [])]);
    forall i | 0 <= i < |r.heap|
      ensures ReactionsIn(r.heap[i].callbacks, |r.heap|, |r.arrays|)
    {
      if i < |s.heap| {
        ReactionsGrow(s.heap[i].callbacks, |s.heap|, |s.arrays|, |r.heap|, |r.arrays|);
      }
    }
  }

  /** The field initialisers of the constructor: PENDING, null, no callbacks. */
  function Alloc(s: State): (r: (State, nat))
    requires Valid(s)
    ensures Valid(r.0) && Extends(s, r.0)
    ensures r.1 == |s.heap| && r.0.heap == s.heap + [Record(Pending, Null, [])]
    ensures r.0.timers == s.timers && r.0.arrays == s.arrays && r.0.uncaught == s.uncaught
  {
    AllocValid(s);
    (s.(heap := s.heap + [Record(Pending, Null, [])]), |s.heap|)
  }

  /** The producer's synchronous calls to `resolve`/`reject`, in order. */
  function RunProducer(s: State, id: nat, calls: seq<Call>): (r: State)
    requires Valid(s) && id < |s.heap|
    ensures Valid(r) && Extends(s, r)
    ensures |r.heap| == |s.heap| && r.arrays == s.arrays && r.uncaught == s.uncaught
    ensures forall j | 0 <= j < |s.heap| && j != id :: r.heap[j] == s.heap[j]
    ensures r.heap[id].callbacks == s.heap[id].callbacks
    decreases |calls|
  {
    if calls == [] then s
    else
      var s1 := Settle(s, id, calls[0].arg, Verdict(calls[0]));
      var r := RunProducer(s1, id, calls[1..]);
      ExtendsTrans(s, s1, r);
      r
  }

  lemma RunProducerOne(s: State, id: nat, c: Call)
    requires Valid(s) && id < |s.heap|
    ensures RunProducer(s, id, [c]) == Settle(s, id, c.arg, Verdict(c))
  {
    assert [c][1..] == [];
  }

  /**
   * `new TPromise(producer)`: a fresh PENDING promise; the producer runs at
   * once with its `fulfilledHandler`/`rejectedHandler`, and a throw from it
   * is caught and handed to `rejectedHandler`.
   */
  function Construct(s: State, producer: Producer): (r: (State, nat))
    requires Valid(s)
    ensures Valid(r.0) && Extends(s, r.0)
    ensures r.1 == |s.heap| && |r.0.heap| == |s.heap| + 1
    ensures forall j | 0 <= j < |s.heap| :: r.0.heap[j] == s.heap[j]
    ensures r.0.heap[r.1].callbacks == [] && r.0.arrays == s.arrays && r.0.uncaught == s.uncaught
  {
    var (s1, id) := Alloc(s);
    match producer
    case NoProducer => (s1, id)
    case Script(calls, throws) =>
      var s2 := RunProducer(s1, id, calls);
      ExtendsTrans(s, s1, s2);
      if throws.Some? then
        var s3 := Settle(s2, id, throws.value, Rejected);
        ExtendsTrans(s, s2, s3);
        (s3, id)
      else
        (s2, id)
  }

  // ---------------------------------------------------------------------
  // then

  /**
   * `p.then(onFulfilled, onRejected)`: returns a fresh PENDING promise and
   * pushes one entry on the end of `p.callbacks`; nothing else changes,
   * and in particular nothing is scheduled.
   */
  function Then(s: State, p: nat, onFulfilled: Handler, onRejected: Handler): (r: (State, nat))
    requires Valid(s) && p < |s.heap|
    requires HandlerIn(onFulfilled, |s.heap|, |s.arrays|) && HandlerIn(onRejected, |s.heap|, |s.arrays|)
    ensures Valid(r.0) && Extends(s, r.0)
    ensures r.1 == |s.heap| && |r.0.heap| == |s.heap| + 1 && r.0.heap[r.1] == Record(Pending, Null, [])
    ensures r.0.heap[p].status == s.heap[p].status && r.0.heap[p].value == s.heap[p].value
    ensures r.0.heap[p].callbacks == s.heap[p].callbacks + [Reaction(onFulfilled, onRejected, r.1)]
    ensures forall j | 0 <= j < |s.heap| && j != p :: r.0.heap[j] == s.heap[j]
    ensures r.0.timers == s.timers && r.0.arrays == s.arrays && r.0.uncaught == s.uncaught
  {
    var (s1, d) := Alloc(s);
    var rec := s1.heap[p];
    var r := s1.(heap := s1.heap[p := rec.(callbacks := rec.callbacks + [Reaction(onFulfilled, onRejected, d)])]);
    assert ReactionsIn(r.heap[p].callbacks, |r.heap|, |r.arrays|) by {
      ReactionsGrow(rec.callbacks, |s1.heap|, |s1.arrays|, |r.heap|, |r.arrays|);
    }
    (r, d)
  }

  // ---------------------------------------------------------------------
  // Calling a handler.

  /** `results[index] = val` on a JavaScript array. */
  function Write(a: JsArray, i: nat, v: Value): (r: JsArray)
    ensures r.slots == a.slots[i := v]
    ensures ArrayOk(a) ==> ArrayOk(r)
    ensures a.length <= r.length && i < r.length
    ensures i < a.length ==> r.length == a.length
  {
    JsArray(a.slots[i := v], if i < a.length then a.length else i + 1)
  }

  /**
   * Calls a present handler with `v`. A user function only returns or
   * throws; the capabilities and the `all` closure return `undefined` after
   * their effect.
   */
  function Invoke(s: State, h: Handler, v: Value): (r: (State, Outcome))
    requires Valid(s) && !h.Absent? && HandlerIn(h, |s.heap|, |s.arrays|)
    ensures Valid(r.0) && Extends(s, r.0)
    ensures |r.0.heap| == |s.heap| && |r.0.arrays| == |s.arrays| && r.0.uncaught == s.uncaught
    ensures forall j | 0 <= j < |s.heap| && s.heap[j].status != Pending :: r.0.heap[j] == s.heap[j]
    ensures forall j | 0 <= j < |s.heap| && !HandlerTargets(h, j) :: r.0.heap[j] == s.heap[j]
    ensures forall j | 0 <= j < |s.heap| :: r.0.heap[j].callbacks == s.heap[j].callbacks
    ensures h.User? ==> r.0 == s && r.1 == h.f(v)
    ensures !h.User? ==> r.1 == Returns(Undefined)
    ensures h.Resolver? ==> r.0 == Settle(s, h.target, v, Fulfilled)
    ensures h.Rejecter? ==> r.0 == Settle(s, h.target, v, Rejected)
    // the `all` slot closure: `results[index] = val`, then `resolve(results)`
    // exactly when `results.length === promises.length`
    ensures h.AllSlot? ==>
      var a := Write(s.arrays[h.results], h.index, v);
      && r.0.arrays == s.arrays[h.results := a]
      && (a.length == h.count && s.heap[h.target].status == Pending ==>
            && r.0.heap == s.heap[h.target := Record(Fulfilled, ArrayRef(h.results), s.heap[h.target].callbacks)]
            && r.0.timers == s.timers + [Drain(h.target)])
      && (a.length != h.count || s.heap[h.target].status != Pending ==>
            r.0.heap == s.heap && r.0.timers == s.timers)
  {
    match h
    case User(f) => (s, f(v))
    case Resolver(t) => (Settle(s, t, v, Fulfilled), Returns(Undefined))
    case Rejecter(t) => (Settle(s, t, v, Rejected), Returns(Undefined))
    case AllSlot(k, i, n, t) =>
      var a := Write(s.arrays[k], i, v);
      var s1 := s.(arrays := s.arrays[k := a]);
      assert Extends(s, s1);
      if a.length == n then
        var s2 := Settle(s1, t, ArrayRef(k), Fulfilled);
        ExtendsTrans(s, s1, s2);
        (s2, Returns(Undefined))
      else
        (s1, Returns(Undefined))
  }

  /**
   * `thenCallbackHandler(result, resolve, reject)` with `this` the promise
   * `then` was called on and `resolve`/`reject` those of `derived`.
   */
  function ThenCallbackHandler(s: State, receiver: nat, result: Value, derived: nat): (r: State)
    requires Valid(s) && receiver < |s.heap| && derived < |s.heap|
    ensures Valid(r) && Extends(s, r)
    ensures r.arrays == s.arrays && r.uncaught == s.uncaught
    ensures s.heap[receiver].status != Pending ==> r.heap[receiver] == s.heap[receiver]
    // the receiver itself: reject with the chaining-cycle TypeError
    ensures result == PromiseRef(receiver) ==> r == Settle(s, derived, TypeError(ChainingCycle), Rejected)
    // another TPromise: `result.then(resolve, reject)`, derived left as it was
    ensures result != PromiseRef(receiver) && IsPromise(s, result) ==>
      && r.heap[derived].status == s.heap[derived].status
      && r.heap[derived].value == s.heap[derived].value
      && r.heap[result.id].callbacks
         == s.heap[result.id].callbacks + [Reaction(Resolver(derived), Rejecter(derived), |s.heap|)]
      && r.timers == s.timers
      && r == Then(s, result.id, Resolver(derived), Rejecter(derived)).0
    // anything else: fulfil derived with it
    ensures !IsPromise(s, result) ==> r == Settle(s, derived, result, Fulfilled)
  {
    if result == PromiseRef(receiver) then
      Settle(s, derived, TypeError(ChainingCycle), Rejected)
    else if IsPromise(s, result) then
      Then(s, result.id, Resolver(derived), Rejecter(derived)).0
    else
      Settle(s, derived, result, Fulfilled)
  }

  /** The handler of reaction `r` that a promise settled as `side` calls. */
  function HandlerFor(r: Reaction, side: Status): Handler {
    if side == Fulfilled then r.onFulfilled else r.onRejected
  }

  /**
   * `successCallback(val)` (side Fulfilled) or `errorCallback(reason)`
   * (side Rejected) of reaction `r`, registered on promise `p`:
   *
   *   onFulfilled && this.thenCallbackHandler(onFulfilled(val), resolve, reject) || resolve(val)
   *
   * `thenCallbackHandler` returns undefined, so the fallback settle always
   * runs. A throw from the handler is not inside any `try`: it is returned
   * as the escaped exception and the fallback does not run.
   */
  function Callback(s: State, p: nat, r: Reaction, side: Status, val: Value): (res: (State, Option<Value>))
    requires Valid(s) && p < |s.heap| && ReactionIn(r, |s.heap|, |s.arrays|) && side != Pending
    ensures Valid(res.0) && Extends(s, res.0)
    ensures |res.0.arrays| == |s.arrays| && res.0.uncaught == s.uncaught
    ensures s.heap[p].status != Pending ==> res.0.heap[p] == s.heap[p]
    // no handler for this side: `derived` passes the receiver's state on unchanged
    ensures HandlerFor(r, side).Absent? ==> res == (Settle(s, r.derived, val, side), None)
    // a user handler that throws: the exception escapes and nothing is settled
    ensures HandlerFor(r, side).User? && HandlerFor(r, side).f(val).Throws? ==>
      res == (s, Some(HandlerFor(r, side).f(val).error))
    // a user handler that returns x settles a pending `derived` at once:
    // x the receiver -> cycle error; x another TPromise -> the receiver's own
    // state and value (the fallback wins over the adoption); else -> x
    ensures HandlerFor(r, side).User? && HandlerFor(r, side).f(val).Returns?
            && s.heap[r.derived].status == Pending ==>
      var x := HandlerFor(r, side).f(val).result;
      && res.1 == None
      && (x == PromiseRef(p) ==>
            res.0.heap[r.derived].status == Rejected && res.0.heap[r.derived].value == TypeError(ChainingCycle))
      && (x != PromiseRef(p) && IsPromise(s, x) ==>
            res.0.heap[r.derived].status == side && res.0.heap[r.derived].value == val)
      && (!IsPromise(s, x) ==>
            res.0.heap[r.derived].status == Fulfilled && res.0.heap[r.derived].value == x)
  {
    var h := HandlerFor(r, side);
    if h.Absent? then
      (Settle(s, r.derived, val, side), None)
    else
      var (s1, out) := Invoke(s, h, val);
      match out
      case Throws(e) => (s1, Some(e))
      case Returns(x) =>
        var s2 := ThenCallbackHandler(s1, p, x, r.derived);
        var s3 := Settle(s2, r.derived, val, side);
        ExtendsTrans(s, s1, s2);
        ExtendsTrans(s, s2, s3);
        (s3, None)
  }

  /**
   * One step of the `forEach` in the drain: a FULFILLED receiver calls the
   * success callback, a REJECTED one the error callback, each with the
   * stored value.
   */
  function Fire(s: State, p: nat, r: Reaction): (res: (State, Option<Value>))
    requires Valid(s) && p < |s.heap| && ReactionIn(r, |s.heap|, |s.arrays|)
    ensures Valid(res.0) && Extends(s, res.0)
    ensures |res.0.arrays| == |s.arrays| && res.0.uncaught == s.uncaught
    ensures res.0.heap[p] == s.heap[p]
    // a pending receiver calls nothing
    ensures s.heap[p].status == Pending ==> res == (s, None)
  {
    if s.heap[p].status == Pending then (s, None)
    else Callback(s, p, r, s.heap[p].status, s.heap[p].value)
  }

  /**
   * The `forEach` over the callbacks `cbs` of `p`, in order; an escaped
   * exception ends it and is returned.
   */
  function DrainFrom(s: State, p: nat, cbs: seq<Reaction>): (r: (State, Option<Value>))
    requires Valid(s) && p < |s.heap| && ReactionsIn(cbs, |s.heap|, |s.arrays|)
    ensures Valid(r.0) && Extends(s, r.0)
    ensures |r.0.arrays| == |s.arrays| && r.0.uncaught == s.uncaught
    ensures r.0.heap[p] == s.heap[p]
    // nothing to drain: nothing happens
    ensures cbs == [] ==> r == (s, None)
    decreases |cbs|
  {
    if cbs == [] then (s, None)
    else
      var (s1, escaped) := Fire(s, p, cbs[0]);
      if escaped.Some? then (s1, escaped)
      else
        ReactionsGrow(cbs[1..], |s.heap|, |s.arrays|, |s1.heap|, |s1.arrays|);
        var r := DrainFrom(s1, p, cbs[1..]);
        ExtendsTrans(s, s1, r.0);
        r
  }

  /**
   * The function `runCallbacks` hands to `setTimeout`, run for promise `p`:
   * drain its callbacks; an exception that escapes is left uncaught.
   */
  function RunTask(s: State, p: nat): (r: State)
    requires Valid(s) && p < |s.heap|
    ensures Valid(r) && Extends(s, r)
    // it drains the callbacks `p` has when the timer fires; an escaped
    // exception is added to `uncaught`, and nothing else differs
    ensures var (d, escaped) := DrainFrom(s, p, s.heap[p].callbacks);
      && r.heap == d.heap && r.timers == d.timers && r.arrays == d.arrays
      && r.uncaught == s.uncaught + (if escaped.Some? then [escaped.value] else [])
  {
    var (s1, escaped) := DrainFrom(s, p, s.heap[p].callbacks);
    if escaped.Some? then s1.(uncaught := s1.uncaught + [escaped.value]) else s1
  }

  /** The queue without its oldest task. */
  function Dequeue(s: State): (r: State)
    requires Valid(s) && s.timers != []
    ensures Valid(r) && Extends(s, r)
    ensures r.heap == s.heap && r.arrays == s.arrays && r.uncaught == s.uncaught
    ensures [s.timers[0]] + r.timers == s.timers && s.timers[0].promise < |r.heap|
  {
    var r := s.(timers := s.timers[1..]);
    assert s.timers[0] in s.timers;
    assert forall t | t in r.timers :: t in s.timers;
    r
  }

  /** The host runs the oldest queued timer, if any. */
  function Step(s: State): (r: State)
    requires Valid(s)
    ensures Valid(r) && Extends(s, r)
    ensures s.timers == [] ==> r == s
    // FIFO: the oldest task leaves the queue and its drain runs
    ensures s.timers != [] ==> r == RunTask(Dequeue(s), s.timers[0].promise)
  {
    if s.timers == [] then s
    else
      var s1 := Dequeue(s);
      var r := RunTask(s1, s.timers[0].promise);
      ExtendsTrans(s, s1, r);
      r
  }

  /** The host runs `k` timers in a row (fewer if the queue empties). */
  function Steps(s: State, k: nat): (r: State)
    requires Valid(s)
    ensures Valid(r) && Extends(s, r)
    decreases k
  {
    if k == 0 then s
    else
      var s1 := Steps(s, k - 1);
      var r := Step(s1);
      ExtendsTrans(s, s1, r);
      r
  }

  // ---------------------------------------------------------------------
  // The static factories.

  /**
   * `TPromise.resolve(value)`: a TPromise is returned as it is; anything
   * else becomes a fresh promise FULFILLED with it, its drain queued.
   */
  function Resolve(s: State, v: Value): (r: (State, nat))
    requires Valid(s)
    ensures Valid(r.0) && Extends(s, r.0)
    ensures IsPromise(s, v) ==> r == (s, v.id)
    ensures !IsPromise(s, v) ==>
      && r.1 == |s.heap| && r.0.heap == s.heap + [Record(Fulfilled, v, [])]
      && r.0.timers == s.timers + [Drain(r.1)]
      && r.0.arrays == s.arrays && r.0.uncaught == s.uncaught
  {
    if IsPromise(s, v) then (s, v.id)
    else
      var (s1, id) := Alloc(s);
      var s2 := Settle(s1, id, v, Fulfilled);
      ExtendsTrans(s, s1, s2);
      (s2, id)
  }

  /**
   * `TPromise.reject(reason)`: a fresh promise REJECTED with `reason` as
   * given, even when `reason` is itself a TPromise.
   */
  function Reject(s: State, reason: Value): (r: (State, nat))
    requires Valid(s)
    ensures Valid(r.0) && Extends(s, r.0)
    ensures r.1 == |s.heap| && r.0.heap == s.heap + [Record(Rejected, reason, [])]
    ensures r.0.timers == s.timers + [Drain(r.1)]
    ensures r.0.arrays == s.arrays && r.0.uncaught == s.uncaught
  {
    var (s1, id) := Alloc(s);
    var s2 := Settle(s1, id, reason, Rejected);
    ExtendsTrans(s, s1, s2);
    (s2, id)
  }
}
