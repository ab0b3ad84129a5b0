/**
 * TPromise.all and TPromise.race.
 *
 * Both wrap their work in `new TPromise((resolve, reject) => ...)`. The
 * `instanceof Array` guard in front of them is written `!promises instanceof
 * Array`, which tests the boolean `!promises` and is never true, so it never
 * throws; an argument that is not an array fails instead inside the producer,
 * where `promises.forEach` / `promises.map` is not a function, and the
 * constructor turns that TypeError into a rejection.
 */
module Combinators {
  import opened PromiseState

  /** The argument of `all`/`race`: an array of values, or anything else. */
  datatype Arg = ArrayArg(items: seq<Value>) | NonArray(v: Value)

  /** `let results = []` inside `all`: one more empty array in the world. */
  function NewArray(s: State): (r: (State, nat))
    requires Valid(s)
    ensures Valid(r.0) && Extends(s, r.0)
    ensures r.1 == |s.arrays| && r.0.arrays == s.arrays + [JsArray(map[], 0)]
    ensures r.0.heap == s.heap && r.0.timers == s.timers && r.0.uncaught == s.uncaught
  {
    var r := s.(arrays := s.arrays + [JsArray(map[], 0)]);
    assert Valid(r) by {
      forall i | 0 <= i < |r.heap|
        ensures ReactionsIn(r.heap[i].callbacks, |r.heap|, |r.arrays|)
      {
        ReactionsGrow(s.heap[i].callbacks, |s.heap|, |s.arrays|, |r.heap|, |r.arrays|);
      }
    }
    (r, |s.arrays|)
  }

  /** A reaction that `all` registers for input `i`: store its value, or reject `c`. */
  function AllReaction(k: nat, i: nat, n: nat, c: nat, d: nat): Reaction {
    Reaction(AllSlot(k, i, n, c), Rejecter(c), d)
  }

  /** A reaction that `race` registers on an input: settle `c` like it. */
  function RaceReaction(c: nat, d: nat): Reaction {
    Reaction(Resolver(c), Rejecter(c), d)
  }

  /**
   * One turn of `promises.forEach((promise, index) => ...)` inside `all`:
   * `TPromise.resolve(promises[i]).then(slot, reject)`, where `slot` writes
   * `results[i]`.
   */
  function AllStep(s: State, items: seq<Value>, i: nat, k: nat, c: nat): (r: State)
    requires Valid(s) && i < |items| && k < |s.arrays| && c < |s.heap|
    ensures Valid(r) && Extends(s, r)
    ensures r.arrays == s.arrays && r.uncaught == s.uncaught
    ensures r.heap[c].status == s.heap[c].status && r.heap[c].value == s.heap[c].value
    // a TPromise input gets the entry for index `i` at the end of its own callbacks
    ensures IsPromise(s, items[i]) ==>
      var q := items[i].id;
      && |r.heap| == |s.heap| + 1 && r.timers == s.timers
      && r.heap[q].callbacks == s.heap[q].callbacks + [AllReaction(k, i, |items|, c, |s.heap|)]
      && r.heap[q].status == s.heap[q].status && r.heap[q].value == s.heap[q].value
      && (forall j | 0 <= j < |s.heap| && j != q :: r.heap[j] == s.heap[j])
      && r.heap[|s.heap|] == Record(Pending, Null, [])
    // any other input becomes a fresh promise fulfilled with it, carrying that entry
    ensures !IsPromise(s, items[i]) ==>
      && |r.heap| == |s.heap| + 2 && r.timers == s.timers + [Drain(|s.heap|)]
      && r.heap[|s.heap|] == Record(Fulfilled, items[i], [AllReaction(k, i, |items|, c, |s.heap| + 1)])
      && (forall j | 0 <= j < |s.heap| :: r.heap[j] == s.heap[j])
      && r.heap[|s.heap| + 1] == Record(Pending, Null, [])
  {
    var (s1, q) := Resolve(s, items[i]);
    var (s2, _) := Then(s1, q, AllSlot(k, i, |items|, c), Rejecter(c));
    ExtendsTrans(s, s1, s2);
    s2
  }

  /** The first `n` turns of the `forEach` inside `all`. */
  function AllUpTo(s: State, items: seq<Value>, n: nat, k: nat, c: nat): (r: State)
    requires Valid(s) && n <= |items| && k < |s.arrays| && c < |s.heap|
    ensures Valid(r) && Extends(s, r)
    ensures r.arrays == s.arrays && r.uncaught == s.uncaught
    ensures r.heap[c].status == s.heap[c].status && r.heap[c].value == s.heap[c].value
  {
    if n == 0 then s
    else
      var s1 := AllUpTo(s, items, n - 1, k, c);
      var r := AllStep(s1, items, n - 1, k, c);
      ExtendsTrans(s, s1, r);
      r
  }

  /**
   * `TPromise.all(promises)`: the combined promise is the one allocated
   * first; an argument without `forEach` rejects it with a TypeError.
   */
  function All(s: State, arg: Arg): (r: (State, nat))
    requires Valid(s)
    ensures Valid(r.0) && Extends(s, r.0)
    ensures r.1 == |s.heap| && r.1 < |r.0.heap| && |r.0.arrays| == |s.arrays| + 1
    ensures arg.NonArray? ==> r.0.heap[r.1] == Record(Rejected, TypeError(NotAFunction), [])
    ensures arg.NonArray? ==> r.0.timers == s.timers + [Drain(r.1)]
    ensures arg.ArrayArg? ==> r.0.heap[r.1].status == Pending
  {
    var (s1, c) := Alloc(s);
    var (s2, k) := NewArray(s1);
    ExtendsTrans(s, s1, s2);
    match arg
    case NonArray(_) =>
      var s3 := Settle(s2, c, TypeError(NotAFunction), Rejected);
      ExtendsTrans(s, s2, s3);
      (s3, c)
    case ArrayArg(items) =>
      var s3 := AllUpTo(s2, items, |items|, k, c);
      ExtendsTrans(s, s2, s3);
      (s3, c)
  }

  /**
   * One turn of `promises.map(promise => ...)` inside `race`:
   * `TPromise.resolve(promises[i]).then(resolve, reject)`.
   */
  function RaceStep(s: State, items: seq<Value>, i: nat, c: nat): (r: State)
    requires Valid(s) && i < |items| && c < |s.heap|
    ensures Valid(r) && Extends(s, r)
    ensures r.arrays == s.arrays && r.uncaught == s.uncaught
    ensures r.heap[c].status == s.heap[c].status && r.heap[c].value == s.heap[c].value
    // a TPromise input gets an entry that settles `c` like it
    ensures IsPromise(s, items[i]) ==>
      var q := items[i].id;
      && |r.heap| == |s.heap| + 1 && r.timers == s.timers
      && r.heap[q].callbacks == s.heap[q].callbacks + [RaceReaction(c, |s.heap|)]
      && r.heap[q].status == s.heap[q].status && r.heap[q].value == s.heap[q].value
      && (forall j | 0 <= j < |s.heap| && j != q :: r.heap[j] == s.heap[j])
      && r.heap[|s.heap|] == Record(Pending, Null, [])
    // any other input becomes a fresh promise fulfilled with it, carrying that entry
    ensures !IsPromise(s, items[i]) ==>
      && |r.heap| == |s.heap| + 2 && r.timers == s.timers + [Drain(|s.heap|)]
      && r.heap[|s.heap|] == Record(Fulfilled, items[i], [RaceReaction(c, |s.heap| + 1)])
      && (forall j | 0 <= j < |s.heap| :: r.heap[j] == s.heap[j])
      && r.heap[|s.heap| + 1] == Record(Pending, Null, [])
  {
    var (s1, q) := Resolve(s, items[i]);
    var (s2, _) := Then(s1, q, Resolver(c), Rejecter(c));
    ExtendsTrans(s, s1, s2);
    s2
  }

  /** The first `n` turns of the `map` inside `race`. */
  function RaceUpTo(s: State, items: seq<Value>, n: nat, c: nat): (r: State)
    requires Valid(s) && n <= |items| && c < |s.heap|
    ensures Valid(r) && Extends(s, r)
    ensures r.arrays == s.arrays && r.uncaught == s.uncaught
    ensures r.heap[c].status == s.heap[c].status && r.heap[c].value == s.heap[c].value
  {
    if n == 0 then s
    else
      var s1 := RaceUpTo(s, items, n - 1, c);
      var r := RaceStep(s1, items, n - 1, c);
      ExtendsTrans(s, s1, r);
      r
  }

  /**
   * `TPromise.race(promises)`: the combined promise is the one allocated
   * first; an argument without `map` rejects it with a TypeError.
   */
  function Race(s: State, arg: Arg): (r: (State, nat))
    requires Valid(s)
    ensures Valid(r.0) && Extends(s, r.0)
    ensures r.1 == |s.heap| && r.1 < |r.0.heap| && r.0.arrays == s.arrays
    ensures arg.NonArray? ==> r.0.heap[r.1] == Record(Rejected, TypeError(NotAFunction), [])
    ensures arg.NonArray? ==> r.0.timers == s.timers + [Drain(r.1)]
    ensures arg.ArrayArg? ==> r.0.heap[r.1].status == Pending
  {
    var (s1, c) := Alloc(s);
    match arg
    case NonArray(_) =>
      var s2 := Settle(s1, c, TypeError(NotAFunction), Rejected);
      ExtendsTrans(s, s1, s2);
      (s2, c)
    case ArrayArg(items) =>
      var s2 := RaceUpTo(s1, items, |items|, c);
      ExtendsTrans(s, s1, s2);
      (s2, c)
  }
}
