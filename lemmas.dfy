/**
 * What the TPromise code guarantees, and where it departs from the usual
 * promise contract, proved about the model in PromiseState and Combinators.
 */
module PromiseLemmas {
  import opened PromiseState
  import opened Combinators

  // ---------------------------------------------------------------------
  // The constructor and its producer.

  /** Once the promise has settled, further producer calls change nothing. */
  lemma {:induction false} RunProducerSettled(s: State, id: nat, calls: seq<Call>)
    requires Valid(s) && id < |s.heap| && s.heap[id].status != Pending
    ensures RunProducer(s, id, calls) == s
    decreases |calls|
  {
    if calls != [] {
      RunProducerSettled(s, id, calls[1..]);
    }
  }

  /**
   * The producer's first call to `resolve`/`reject` decides the new promise
   * and queues its only drain; later calls and a later throw are ignored. A
   * throw with no call before it rejects the promise with the thrown value
   * and nothing escapes the constructor; no call and no throw leave it
   * pending with nothing queued.
   */
  lemma {:induction false} ConstructOutcome(s: State, producer: Producer)
    requires Valid(s)
    ensures var (r, id) := Construct(s, producer);
      && (producer.Script? && producer.calls != [] ==>
            && r.heap[id] == Record(Verdict(producer.calls[0]), producer.calls[0].arg, [])
            && r.timers == s.timers + [Drain(id)])
      && (producer.Script? && producer.calls == [] && producer.throws.Some? ==>
            && r.heap[id] == Record(Rejected, producer.throws.value, [])
            && r.timers == s.timers + [Drain(id)])
      && (producer.NoProducer? || (producer.calls == [] && producer.throws.None?) ==>
            r.heap[id] == Record(Pending, Null, []) && r.timers == s.timers)
  {
    var (s1, id) := Alloc(s);
    if producer.Script? && producer.calls != [] {
      var c := producer.calls[0];
      var s2 := Settle(s1, id, c.arg, Verdict(c));
      RunProducerSettled(s2, id, producer.calls[1..]);
      assert RunProducer(s1, id, producer.calls) == s2;
    }
  }

  /**
   * `TPromise.resolve(value)` on anything but a TPromise is
   * `new TPromise(resolve => resolve(value))`.
   */
  lemma ResolveIsConstruct(s: State, v: Value)
    requires Valid(s) && !IsPromise(s, v)
    ensures Resolve(s, v) == Construct(s, Script([ResolveCall(v)], None))
  {
    var (s1, id) := Alloc(s);
    RunProducerOne(s1, id, ResolveCall(v));
  }

  /** `TPromise.reject(reason)` is `new TPromise((_, reject) => reject(reason))`. */
  lemma RejectIsConstruct(s: State, reason: Value)
    requires Valid(s)
    ensures Reject(s, reason) == Construct(s, Script([RejectCall(reason)], None))
  {
    var (s1, id) := Alloc(s);
    RunProducerOne(s1, id, RejectCall(reason));
  }

  // ---------------------------------------------------------------------
  // The drain (`runCallbacks`).

  /**
   * A user handler for `side` that returns `x`, with `derived` still pending:
   * nothing escapes, `derived` is settled and its drain queued. When `x` is
   * another TPromise, `x.then(resolve, reject)` is registered first, adding
   * one fresh promise; every other record is left as it was.
   */
  lemma CallbackReturns(s: State, p: nat, r: Reaction, side: Status, val: Value, x: Value)
    requires Valid(s) && p < |s.heap| && ReactionIn(r, |s.heap|, |s.arrays|) && side != Pending
    requires HandlerFor(r, side).User? && HandlerFor(r, side).f(val) == Returns(x)
    requires s.heap[r.derived].status == Pending
    ensures var (t, escaped) := Callback(s, p, r, side, val);
      var adopts := x != PromiseRef(p) && IsPromise(s, x);
      && escaped == None
      && t.timers == s.timers + [Drain(r.derived)]
      && t.arrays == s.arrays && t.uncaught == s.uncaught
      && (adopts ==>
            && |t.heap| == |s.heap| + 1 && t.heap[|s.heap|] == Record(Pending, Null, [])
            && t.heap[x.id].callbacks
               == s.heap[x.id].callbacks + [Reaction(Resolver(r.derived), Rejecter(r.derived), |s.heap|)])
      && (!adopts ==> |t.heap| == |s.heap|)
      && forall j | 0 <= j < |s.heap| && j != r.derived && !(adopts && j == x.id) :: t.heap[j] == s.heap[j]
  {
  }

  /**
   * A settled receiver calls the callback of its own side, with its stored
   * value, for each entry it fires.
   */
  lemma FireSettled(s: State, p: nat, r: Reaction)
    requires Valid(s) && p < |s.heap| && ReactionIn(r, |s.heap|, |s.arrays|) && s.heap[p].status != Pending
    ensures Fire(s, p, r) == Callback(s, p, r, s.heap[p].status, s.heap[p].value)
  {
  }

  /**
   * The drain fires the first entry with the receiver's stored state and
   * then, unless that entry's handler threw, drains the rest in the world it
   * left.
   */
  lemma DrainFirst(s: State, p: nat, cbs: seq<Reaction>)
    requires Valid(s) && p < |s.heap| && ReactionsIn(cbs, |s.heap|, |s.arrays|) && cbs != []
    ensures ReactionIn(cbs[0], |s.heap|, |s.arrays|)
    ensures var (s1, escaped) := Fire(s, p, cbs[0]);
      && (escaped.Some? ==> DrainFrom(s, p, cbs) == (s1, escaped))
      && (escaped.None? ==>
            && ReactionsIn(cbs[1..], |s1.heap|, |s1.arrays|)
            && DrainFrom(s, p, cbs) == DrainFrom(s1, p, cbs[1..]))
  {
    var (s1, escaped) := Fire(s, p, cbs[0]);
    ReactionsGrow(cbs[1..], |s.heap|, |s.arrays|, |s1.heap|, |s1.arrays|);
  }

  /** A drain of a single entry is exactly one firing of it. */
  lemma DrainOne(s: State, p: nat, r: Reaction)
    requires Valid(s) && p < |s.heap| && ReactionIn(r, |s.heap|, |s.arrays|)
    ensures ReactionsIn([r], |s.heap|, |s.arrays|)
    ensures DrainFrom(s, p, [r]) == Fire(s, p, r)
  {
    assert ReactionsIn([r], |s.heap|, |s.arrays|);
    DrainFirst(s, p, [r]);
    assert [r][1..] == [];
  }

  /**
   * Registration order: draining `a + b` drains `a` first and then, unless
   * a handler's exception escaped and ended the `forEach`, drains `b`.
   */
  lemma {:induction false} DrainOrder(s: State, p: nat, a: seq<Reaction>, b: seq<Reaction>)
    requires Valid(s) && p < |s.heap| && ReactionsIn(a + b, |s.heap|, |s.arrays|)
    ensures ReactionsIn(a, |s.heap|, |s.arrays|)
    ensures var (s1, escaped) := DrainFrom(s, p, a);
      && (escaped.Some? ==> DrainFrom(s, p, a + b) == (s1, escaped))
      && (escaped.None? ==>
            && ReactionsIn(b, |s1.heap|, |s1.arrays|)
            && DrainFrom(s, p, a + b) == DrainFrom(s1, p, b))
    decreases |a|
  {
    assert ReactionsIn(a, |s.heap|, |s.arrays|) by {
      forall j | 0 <= j < |a| ensures ReactionIn(a[j], |s.heap|, |s.arrays|) {
        assert (a + b)[j] == a[j];
      }
    }
    if a == [] {
      assert a + b == b;
    } else {
      var (s1, escaped) := Fire(s, p, a[0]);
      assert (a + b)[0] == a[0];
      assert (a + b)[1..] == a[1..] + b;
      if escaped.None? {
        ReactionsGrow(a[1..] + b, |s.heap|, |s.arrays|, |s1.heap|, |s1.arrays|);
        DrainOrder(s1, p, a[1..], b);
      }
    }
  }

  /** `a` and `b` agree on everything a promise settled as `side` looks at. */
  ghost predicate SameSide(a: seq<Reaction>, b: seq<Reaction>, side: Status) {
    && |a| == |b|
    && forall j | 0 <= j < |a| ::
         HandlerFor(a[j], side) == HandlerFor(b[j], side) && a[j].derived == b[j].derived
  }

  /**
   * Dispatch: a FULFILLED promise's drain calls only success callbacks and a
   * REJECTED one's only error callbacks, so what the drain does cannot depend
   * on the handlers for the other side.
   */
  lemma {:induction false} DrainDispatch(s: State, p: nat, a: seq<Reaction>, b: seq<Reaction>)
    requires Valid(s) && p < |s.heap| && s.heap[p].status != Pending
    requires ReactionsIn(a, |s.heap|, |s.arrays|) && ReactionsIn(b, |s.heap|, |s.arrays|)
    requires SameSide(a, b, s.heap[p].status)
    ensures DrainFrom(s, p, a) == DrainFrom(s, p, b)
    decreases |a|
  {
    if a != [] {
      var side, val := s.heap[p].status, s.heap[p].value;
      assert Callback(s, p, a[0], side, val) == Callback(s, p, b[0], side, val);
      var (s1, escaped) := Fire(s, p, a[0]);
      if escaped.None? {
        ReactionsGrow(a[1..], |s.heap|, |s.arrays|, |s1.heap|, |s1.arrays|);
        ReactionsGrow(b[1..], |s.heap|, |s.arrays|, |s1.heap|, |s1.arrays|);
        DrainDispatch(s1, p, a[1..], b[1..]);
      }
    }
  }

  /** The drain tasks of the promises `cbs` returned, in order. */
  function DrainsOf(cbs: seq<Reaction>): (r: seq<Task>)
    ensures |r| == |cbs|
    ensures forall j | 0 <= j < |cbs| :: r[j] == Drain(cbs[j].derived)
  {
    if cbs == [] then [] else [Drain(cbs[0].derived)] + DrainsOf(cbs[1..])
  }

  /** Regrouping a queue; kept apart so that `DrainTunnels` stays cheap to check. */
  lemma QueueAppend(a: seq<Task>, b: seq<Task>, c: seq<Task>)
    ensures a + (b + c) == (a + b) + c
  {
  }

  /**
   * Tunnelling: when none of the reactions has a handler for the receiver's
   * side, each `then`-promise takes the receiver's status and its value
   * unchanged, and their drains are queued in registration order.
   */
  lemma {:induction false} DrainTunnels(s: State, p: nat, cbs: seq<Reaction>)
    requires Valid(s) && p < |s.heap| && s.heap[p].status != Pending
    requires ReactionsIn(cbs, |s.heap|, |s.arrays|)
    requires forall j | 0 <= j < |cbs| :: HandlerFor(cbs[j], s.heap[p].status).Absent?
    requires forall j | 0 <= j < |cbs| :: s.heap[cbs[j].derived].status == Pending
    requires forall i, j | 0 <= i < j < |cbs| :: cbs[i].derived != cbs[j].derived
    ensures var (r, escaped) := DrainFrom(s, p, cbs);
      && escaped == None
      && r.timers == s.timers + DrainsOf(cbs)
      && forall j | 0 <= j < |cbs| ::
           r.heap[cbs[j].derived].status == s.heap[p].status
           && r.heap[cbs[j].derived].value == s.heap[p].value
    decreases |cbs|
  {
    if cbs == [] {
      assert s.timers + [] == s.timers;
    } else {
      var side, val, d := s.heap[p].status, s.heap[p].value, cbs[0].derived;
      var s1 := Settle(s, d, val, side);
      assert Fire(s, p, cbs[0]) == (s1, None);
      assert d != p;
      var rest := cbs[1..];
      ReactionsGrow(rest, |s.heap|, |s.arrays|, |s1.heap|, |s1.arrays|);
      assert forall j | 0 <= j < |rest| :: rest[j].derived != d by {
        forall j | 0 <= j < |rest| ensures rest[j].derived != d {
          assert rest[j] == cbs[j + 1];
        }
      }
      DrainTunnels(s1, p, rest);
      var (r, _) := DrainFrom(s1, p, rest);
      assert DrainFrom(s, p, cbs).0 == r;
      assert s.timers + DrainsOf(cbs) == s1.timers + DrainsOf(rest) by {
        assert s1.timers == s.timers + [Drain(d)];
        assert DrainsOf(cbs) == [Drain(d)] + DrainsOf(rest);
        QueueAppend(s.timers, [Drain(d)], DrainsOf(rest));
      }
      forall j | 0 <= j < |cbs|
        ensures r.heap[cbs[j].derived].status == side && r.heap[cbs[j].derived].value == val
      {
        if j > 0 {
          assert cbs[j] == rest[j - 1];
        }
      }
    }
  }

  // ---------------------------------------------------------------------
  // Promises that can no longer be settled.

  /**
   * Promise `c` is pending and nothing that can still run is able to settle
   * it: every reaction that could sits on a promise in `P`, and each of those
   * has settled and has no drain left in the queue, so it is never drained
   * again.
   */
  ghost predicate Quiet(s: State, c: nat, P: set<nat>) {
    && c < |s.heap| && s.heap[c].status == Pending
    && (forall q | q in P :: q < |s.heap| && s.heap[q].status != Pending && Drain(q) !in s.timers)
    && (forall i, j | 0 <= i < |s.heap| && i !in P && 0 <= j < |s.heap[i].callbacks| ::
          !Targets(s.heap[i].callbacks[j], c))
  }

  lemma SettleQuiet(s: State, id: nat, v: Value, st: Status, c: nat, P: set<nat>)
    requires Valid(s) && id < |s.heap| && st != Pending && id != c && Quiet(s, c, P)
    ensures Quiet(Settle(s, id, v, st), c, P)
  {
  }

  lemma ThenQuiet(s: State, q: nat, f: Handler, g: Handler, c: nat, P: set<nat>)
    requires Valid(s) && q < |s.heap| && HandlerIn(f, |s.heap|, |s.arrays|) && HandlerIn(g, |s.heap|, |s.arrays|)
    requires Quiet(s, c, P) && !HandlerTargets(f, c) && !HandlerTargets(g, c)
    ensures Quiet(Then(s, q, f, g).0, c, P)
  {
    var (r, d) := Then(s, q, f, g);
    forall i, j | 0 <= i < |r.heap| && i !in P && 0 <= j < |r.heap[i].callbacks|
      ensures !Targets(r.heap[i].callbacks[j], c)
    {
      if i == q && j == |s.heap[q].callbacks| {
        assert r.heap[i].callbacks[j] == Reaction(f, g, d);
      } else if i < |s.heap| {
        assert r.heap[i].callbacks[j] == s.heap[i].callbacks[j];
      }
    }
  }

  lemma InvokeQuiet(s: State, h: Handler, v: Value, c: nat, P: set<nat>)
    requires Valid(s) && !h.Absent? && HandlerIn(h, |s.heap|, |s.arrays|)
    requires Quiet(s, c, P) && !HandlerTargets(h, c)
    ensures Quiet(Invoke(s, h, v).0, c, P)
  {
  }

  lemma ThenCallbackHandlerQuiet(s: State, receiver: nat, result: Value, d: nat, c: nat, P: set<nat>)
    requires Valid(s) && receiver < |s.heap| && d < |s.heap| && d != c && Quiet(s, c, P)
    ensures Quiet(ThenCallbackHandler(s, receiver, result, d), c, P)
  {
    if result == PromiseRef(receiver) {
      SettleQuiet(s, d, TypeError(ChainingCycle), Rejected, c, P);
    } else if IsPromise(s, result) {
      ThenQuiet(s, result.id, Resolver(d), Rejecter(d), c, P);
    } else {
      SettleQuiet(s, d, result, Fulfilled, c, P);
    }
  }

  lemma CallbackQuiet(s: State, p: nat, r: Reaction, side: Status, val: Value, c: nat, P: set<nat>)
    requires Valid(s) && p < |s.heap| && ReactionIn(r, |s.heap|, |s.arrays|) && side != Pending
    requires Quiet(s, c, P) && !Targets(r, c)
    ensures Quiet(Callback(s, p, r, side, val).0, c, P)
  {
    var h := HandlerFor(r, side);
    if h.Absent? {
      SettleQuiet(s, r.derived, val, side, c, P);
    } else {
      var (s1, out) := Invoke(s, h, val);
      InvokeQuiet(s, h, val, c, P);
      if out.Returns? {
        var s2 := ThenCallbackHandler(s1, p, out.result, r.derived);
        ThenCallbackHandlerQuiet(s1, p, out.result, r.derived, c, P);
        SettleQuiet(s2, r.derived, val, side, c, P);
      }
    }
  }

  lemma {:induction false} DrainFromQuiet(s: State, p: nat, cbs: seq<Reaction>, c: nat, P: set<nat>)
    requires Valid(s) && p < |s.heap| && ReactionsIn(cbs, |s.heap|, |s.arrays|) && Quiet(s, c, P)
    requires forall j | 0 <= j < |cbs| :: !Targets(cbs[j], c)
    ensures Quiet(DrainFrom(s, p, cbs).0, c, P)
    decreases |cbs|
  {
    if cbs != [] {
      if s.heap[p].status != Pending {
        CallbackQuiet(s, p, cbs[0], s.heap[p].status, s.heap[p].value, c, P);
      }
      var (s1, escaped) := Fire(s, p, cbs[0]);
      if escaped.None? {
        ReactionsGrow(cbs[1..], |s.heap|, |s.arrays|, |s1.heap|, |s1.arrays|);
        DrainFromQuiet(s1, p, cbs[1..], c, P);
      }
    }
  }

  lemma StepQuiet(s: State, c: nat, P: set<nat>)
    requires Valid(s) && Quiet(s, c, P)
    ensures Quiet(Step(s), c, P)
  {
    if s.timers != [] {
      var q := s.timers[0].promise;
      var s1 := Dequeue(s);
      assert q !in P by {
        assert s.timers[0] in s.timers;
      }
      assert Quiet(s1, c, P) by {
        forall t | t in s1.timers ensures t in s.timers {
          assert t in [s.timers[0]] + s1.timers;
        }
      }
      DrainFromQuiet(s1, q, s1.heap[q].callbacks, c, P);
    }
  }

  /**
   * However many timers the host runs, a quiet promise stays quiet, and so
   * pending: nothing that runs can settle it.
   */
  lemma QuietStaysPending(s: State, c: nat, P: set<nat>, k: nat)
    requires Valid(s) && Quiet(s, c, P)
    ensures Quiet(Steps(s, k), c, P)
  {
    var t, i := s, 0;
    while i < k
      invariant i <= k && t == Steps(s, i) && Quiet(t, c, P)
    {
      StepQuiet(t, c, P);
      t, i := Step(t), i + 1;
    }
  }

  /** In a valid world no reaction can reach a promise that is not allocated yet. */
  lemma FreshIsUntargeted(s: State)
    requires Valid(s)
    ensures forall i, j | 0 <= i < |s.heap| && 0 <= j < |s.heap[i].callbacks| ::
      !Targets(s.heap[i].callbacks[j], |s.heap|)
  {
    forall i, j | 0 <= i < |s.heap| && 0 <= j < |s.heap[i].callbacks|
      ensures !Targets(s.heap[i].callbacks[j], |s.heap|)
    {
      assert ReactionIn(s.heap[i].callbacks[j], |s.heap|, |s.arrays|);
    }
  }

  /**
   * A late `then`: on a promise that has settled and whose drain has already
   * run, `then` only pushes onto `callbacks` and nothing ever runs the entry,
   * so the promise it returns stays pending however many timers run.
   */
  lemma LateThenNeverFires(s: State, p: nat, f: Handler, g: Handler, k: nat)
    requires Valid(s) && p < |s.heap| && s.heap[p].status != Pending && Drain(p) !in s.timers
    requires HandlerIn(f, |s.heap|, |s.arrays|) && HandlerIn(g, |s.heap|, |s.arrays|)
    ensures var (s1, d) := Then(s, p, f, g); Steps(s1, k).heap[d].status == Pending
  {
    var (s1, d) := Then(s, p, f, g);
    FreshIsUntargeted(s);
    assert Quiet(s1, d, {p}) by {
      forall i, j | 0 <= i < |s1.heap| && i !in {p} && 0 <= j < |s1.heap[i].callbacks|
        ensures !Targets(s1.heap[i].callbacks[j], d)
      {
        assert s1.heap[i] == s.heap[i];
      }
    }
    QuietStaysPending(s1, d, {p}, k);
  }

  /**
   * A timer queue holding only the drain of `q`, whose one entry is `r`:
   * the next timer fires `r` and, when nothing escapes, leaves what that
   * firing left.
   */
  lemma StepFiresSoleEntry(s: State, q: nat, r: Reaction)
    requires Valid(s) && q < |s.heap| && s.timers == [Drain(q)] && s.heap[q].callbacks == [r]
    ensures ReactionIn(r, |s.heap|, |s.arrays|)
    ensures var (u, escaped) := Fire(Dequeue(s), q, r);
            escaped.None? ==> Step(s) == u
  {
    assert ReactionsIn(s.heap[q].callbacks, |s.heap|, |s.arrays|);
    assert ReactionIn(s.heap[q].callbacks[0], |s.heap|, |s.arrays|);
    var t := Dequeue(s);
    DrainOne(t, q, r);
    assert Step(s) == RunTask(t, q);
  }

  /**
   * A `then` on a promise that is settled but whose drain is still queued
   * does fire: the drain reads `callbacks` when its timer runs, so it calls
   * the entry pushed after settlement. Here `TPromise.resolve(v)` for a plain
   * `v`, then `.then(f)` with `f(v)` returning a plain `x`: the next timer
   * fulfils the derived promise with `x` and nothing escapes.
   */
  lemma ResolveThenFulfils(s: State, v: Value, f: Value -> Outcome, x: Value)
    requires Valid(s) && s.timers == [] && !IsPromise(s, v)
    requires f(v) == Returns(x) && !x.PromiseRef?
    ensures var (s1, q) := Resolve(s, v);
            var (s2, d) := Then(s1, q, User(f), Absent);
            var s3 := Step(s2);
            && s3.heap[d] == Record(Fulfilled, x, [])
            && s3.timers == [Drain(d)] && s3.uncaught == s.uncaught
  {
    var (s1, q) := Resolve(s, v);
    var (s2, d) := Then(s1, q, User(f), Absent);
    assert s2.timers == [Drain(q)] && s2.uncaught == s.uncaught;
    assert s2.heap[q] == Record(Fulfilled, v, [Reaction(User(f), Absent, d)]);
    StepFulfilsDerived(s2, q, v, f, d, x);
  }

  /** The drain step of `ResolveThenFulfils`, on the world before the timer runs. */
  lemma StepFulfilsDerived(s: State, q: nat, v: Value, f: Value -> Outcome, d: nat, x: Value)
    requires Valid(s) && q < |s.heap| && d < |s.heap| && q != d && s.timers == [Drain(q)]
    requires s.heap[q] == Record(Fulfilled, v, [Reaction(User(f), Absent, d)])
    requires s.heap[d] == Record(Pending, Null, [])
    requires f(v) == Returns(x) && !x.PromiseRef?
    ensures Step(s).heap[d] == Record(Fulfilled, x, [])
    ensures Step(s).timers == [Drain(d)] && Step(s).uncaught == s.uncaught
  {
    var r := Reaction(User(f), Absent, d);
    StepFiresSoleEntry(s, q, r);
    var t := Dequeue(s);
    assert t.timers == [] && t.heap[d] == Record(Pending, Null, []);
    var u := Settle(t, d, x, Fulfilled);
    assert ThenCallbackHandler(t, q, x, d) == u;
    FireSettled(t, q, r);
    assert Fire(t, q, r) == (Settle(u, d, v, Fulfilled), None);
  }

  /**
   * The same for a rejection passed through: `TPromise.reject(reason)`,
   * then `.then()` with no handlers before any timer runs; the next timer
   * rejects the derived promise with `reason`.
   */
  lemma RejectThenRejects(s: State, reason: Value)
    requires Valid(s) && s.timers == []
    ensures var (s1, q) := Reject(s, reason);
            var (s2, d) := Then(s1, q, Absent, Absent);
            var s3 := Step(s2);
            && s3.heap[d] == Record(Rejected, reason, [])
            && s3.timers == [Drain(d)] && s3.uncaught == s.uncaught
  {
    var (s1, q) := Reject(s, reason);
    var (s2, d) := Then(s1, q, Absent, Absent);
    var r := Reaction(Absent, Absent, d);
    StepFiresSoleEntry(s2, q, r);
    var t := Dequeue(s2);
    assert t.timers == [] && t.heap[d] == Record(Pending, Null, []) && t.heap[q] == Record(Rejected, reason, [r]);
    FireSettled(t, q, r);
    assert Fire(t, q, r) == (Settle(t, d, reason, Rejected), None);
  }

  /** `TPromise.all([])` registers nothing, so its promise never settles. */
  lemma EmptyAllNeverSettles(s: State, k: nat)
    requires Valid(s)
    ensures var (s1, c) := All(s, ArrayArg([])); Steps(s1, k).heap[c].status == Pending
  {
    var (s1, c) := All(s, ArrayArg([]));
    var (a, _) := Alloc(s);
    var (b, kk) := NewArray(a);
    assert s1 == AllUpTo(b, [], 0, kk, c) == b;
    FreshIsUntargeted(s);
    assert Quiet(s1, c, {}) by {
      forall i, j | 0 <= i < |s1.heap| && 0 <= j < |s1.heap[i].callbacks|
        ensures !Targets(s1.heap[i].callbacks[j], c)
      {
        assert s1.heap[i] == s.heap[i];
      }
    }
    QuietStaysPending(s1, c, {}, k);
  }

  /** `TPromise.race([])` registers nothing, so its promise never settles. */
  lemma EmptyRaceNeverSettles(s: State, k: nat)
    requires Valid(s)
    ensures var (s1, c) := Race(s, ArrayArg([])); Steps(s1, k).heap[c].status == Pending
  {
    var (s1, c) := Race(s, ArrayArg([]));
    var (a, _) := Alloc(s);
    assert s1 == RaceUpTo(a, [], 0, c) == a;
    FreshIsUntargeted(s);
    assert Quiet(s1, c, {}) by {
      forall i, j | 0 <= i < |s1.heap| && 0 <= j < |s1.heap[i].callbacks|
        ensures !Targets(s1.heap[i].callbacks[j], c)
      {
        assert s1.heap[i] == s.heap[i];
      }
    }
    QuietStaysPending(s1, c, {}, k);
  }

  // ---------------------------------------------------------------------
  // TPromise.all

  /**
   * When input `i`'s entry fires: on success the value lands at index `i`
   * of the shared array, and the combined promise is fulfilled with that
   * array exactly when the array's `length` reaches the input count; on
   * failure the combined promise is rejected with the reason. Either way
   * the entry's own `then`-promise is fulfilled with `undefined`.
   */
  lemma AllReactionFires(s: State, q: nat, k: nat, i: nat, n: nat, c: nat, d: nat, side: Status, val: Value)
    requires Valid(s) && q < |s.heap| && side != Pending
    requires ReactionIn(AllReaction(k, i, n, c, d), |s.heap|, |s.arrays|)
    requires s.heap[c].status == Pending && s.heap[d].status == Pending && c != d
    ensures var (r, escaped) := Callback(s, q, AllReaction(k, i, n, c, d), side, val);
      && escaped == None
      && r.heap[d].status == Fulfilled && r.heap[d].value == Undefined
      && (side == Fulfilled ==>
            && r.arrays[k].slots == s.arrays[k].slots[i := val]
            && (r.heap[c].status != Pending <==> r.arrays[k].length == n)
            && (r.arrays[k].length == n ==> r.heap[c].status == Fulfilled && r.heap[c].value == ArrayRef(k)))
      && (side == Rejected ==>
            r.arrays == s.arrays && r.heap[c].status == Rejected && r.heap[c].value == val)
  {
  }

  /**
   * The completion test `results.length === promises.length` holds exactly
   * when the LAST index has been written, whatever the other indices hold.
   */
  lemma AllCompletesOnLastIndex(a: JsArray, n: nat)
    requires ArrayOk(a) && n > 0
    requires forall i | i in a.slots :: i < n
    ensures a.length == n <==> n - 1 in a.slots
  {
  }

  // ---------------------------------------------------------------------
  // TPromise.race

  /**
   * First wins: of two `race` entries that fire one after the other, the
   * combined promise takes the first one's state and value, and the second
   * changes nothing about it.
   */
  lemma RaceFirstWins(s: State, c: nat, q1: nat, d1: nat, side1: Status, v1: Value,
                      q2: nat, d2: nat, side2: Status, v2: Value)
    requires Valid(s) && c < |s.heap| && q1 < |s.heap| && q2 < |s.heap| && d1 < |s.heap| && d2 < |s.heap|
    requires side1 != Pending && side2 != Pending && c != d1
    requires s.heap[c].status == Pending && s.heap[d1].status == Pending
    ensures var s1 := Callback(s, q1, RaceReaction(c, d1), side1, v1).0;
      && s1.heap[c].status == side1 && s1.heap[c].value == v1
      && var s2 := Callback(s1, q2, RaceReaction(c, d2), side2, v2).0;
         s2.heap[c].status == side1 && s2.heap[c].value == v1
  {
  }
}
