/** Python-level values the autoencoder module works with: optional values,
    raised exceptions, the objects an activation name can resolve to, and the
    "tensor or (nested) list of tensors" shape that `encode` and `reconstruct`
    accept. */
module Python {

  datatype Option<+T> = None | Some(value: T)

  /** The outcome of a Python call: a value, or the exception it raised. */
  datatype Result<+T> = Success(value: T) | Failure(error: Error) {
    predicate IsFailure() { Failure? }
    function PropagateFailure<U>(): Result<U>
      requires Failure?
    {
      Failure(error)
    }
    function Extract(): T
      requires Success?
    {
      value
    }
  }

  /** The exception classes the module raises, with their messages. */
  datatype Error =
    | AssertionError(message: string)
    | AttributeError(message: string)
    | TypeError(message: string)
    | ValueError(message: string)

  /** A Python object found in a namespace or passed as an argument, identified
      by a name; only whether it can be called matters here. */
  datatype PyObj = Callable(id: string) | NonCallable(id: string)

  /** A minibatch, or a Python list of minibatches (possibly nested), as accepted
      by `encode`, `reconstruct` and the corruptors. */
  datatype Nested<+T> = Batch(x: T) | Batches(items: seq<Nested<T>>)

  /** `a` and `b` have the same list structure: both are single minibatches, or
      both are lists of the same length whose elements pairwise have the same
      structure. */
  predicate SameNesting<A, B>(a: Nested<A>, b: Nested<B>)
  {
    match a
    case Batch(_) => b.Batch?
    case Batches(items) =>
      b.Batches? && |b.items| == |items| &&
      forall i :: 0 <= i < |items| ==> SameNesting(items[i], b.items[i])
  }

  /** Concatenation of a sequence of sequences, in order. */
  function Concat<T>(ss: seq<seq<T>>): (r: seq<T>)
    ensures |ss| == 1 ==> r == ss[0]
  {
    if |ss| == 0 then [] else ss[0] + Concat(ss[1..])
  }

  /** The minibatches of a nested list, left to right. */
  function Leaves<T>(n: Nested<T>): seq<T>
  {
    match n
    case Batch(x) => [x]
    case Batches(items) => Concat(seq(|items|, i requires 0 <= i < |items| => Leaves(items[i])))
  }

  /** The largest element of a sequence of naturals (0 for the empty one). */
  function Max(s: seq<nat>): (m: nat)
    ensures forall i :: 0 <= i < |s| ==> s[i] <= m
  {
    if |s| == 0 then 0 else var rest := Max(s[1..]); if s[0] > rest then s[0] else rest
  }

  /** How deeply lists are nested; every element of a list is strictly shallower. */
  function Depth<T>(n: Nested<T>): (d: nat)
    ensures n.Batches? ==> forall i :: 0 <= i < |n.items| ==> Depth(n.items[i]) < d
  {
    match n
    case Batch(_) => 0
    case Batches(items) =>
      var ds := seq(|items|, i requires 0 <= i < |items| => Depth(items[i]));
      assert forall i :: 0 <= i < |items| ==> ds[i] == Depth(items[i]);
      1 + Max(ds)
  }

  /** Applies `f` to every minibatch of a nested list, keeping its structure. */
  function MapLeaves<A, B>(f: A -> B, n: Nested<A>): (r: Nested<B>)
    ensures SameNesting(n, r)
  {
    match n
    case Batch(x) => Batch(f(x))
    case Batches(items) => Batches(seq(|items|, i requires 0 <= i < |items| => MapLeaves(f, items[i])))
  }

  /** Nested lists of the same structure have the same depth. */
  lemma {:induction false} SameNestingSameDepth<A, B>(a: Nested<A>, b: Nested<B>)
    requires SameNesting(a, b)
    ensures Depth(a) == Depth(b)
    decreases a
  {
    match a
    case Batch(_) =>
    case Batches(items) =>
      var da := seq(|items|, i requires 0 <= i < |items| => Depth(items[i]));
      var db := seq(|b.items|, i requires 0 <= i < |b.items| => Depth(b.items[i]));
      forall i | 0 <= i < |items| ensures da[i] == db[i] {
        SameNestingSameDepth(items[i], b.items[i]);
      }
      assert da == db;
  }

  /** `f` applied to every element of a sequence, in order. */
  function Map<A, B>(f: A -> B, s: seq<A>): (r: seq<B>)
    ensures |r| == |s| && forall i :: 0 <= i < |s| ==> r[i] == f(s[i])
  {
    seq(|s|, i requires 0 <= i < |s| => f(s[i]))
  }

  lemma {:induction false} ConcatMap<A, B>(f: A -> B, ss: seq<seq<A>>, ts: seq<seq<B>>)
    requires |ts| == |ss| && forall i :: 0 <= i < |ss| ==> ts[i] == Map(f, ss[i])
    ensures Concat(ts) == Map(f, Concat(ss))
  {
    if |ss| > 0 {
      ConcatMap(f, ss[1..], ts[1..]);
      var a, b := ss[0], Concat(ss[1..]);
      assert Map(f, a + b) == Map(f, a) + Map(f, b);
    }
  }

  /** The minibatches of `MapLeaves(f, n)` are those of `n`, each mapped by `f`,
      in the same order. */
  lemma {:induction false} LeavesOfMapLeaves<A, B>(f: A -> B, n: Nested<A>)
    ensures Leaves(MapLeaves(f, n)) == Map(f, Leaves(n))
    decreases n
  {
    match n
    case Batch(x) =>
    case Batches(items) =>
      var mapped := MapLeaves(f, n).items;
      var ss := seq(|items|, i requires 0 <= i < |items| => Leaves(items[i]));
      var ts := seq(|mapped|, i requires 0 <= i < |mapped| => Leaves(mapped[i]));
      forall i | 0 <= i < |items| ensures ts[i] == Map(f, ss[i]) {
        LeavesOfMapLeaves(f, items[i]);
      }
      ConcatMap(f, ss, ts);
  }

  /** Having the same list structure is transitive. */
  lemma {:induction false} SameNestingTrans<A, B, C>(a: Nested<A>, b: Nested<B>, c: Nested<C>)
    requires SameNesting(a, b) && SameNesting(b, c)
    ensures SameNesting(a, c)
    decreases a
  {
    match a
    case Batch(_) =>
    case Batches(items) =>
      forall i | 0 <= i < |items| ensures SameNesting(items[i], c.items[i]) {
        SameNestingTrans(items[i], b.items[i], c.items[i]);
      }
  }

  /** The argument of the last call in a left-to-right recursion over a nested
      list: a minibatch, or a list with no elements. */
  function LastCall<T>(n: Nested<T>): (m: Nested<T>)
    ensures m.Batch? || m.items == []
  {
    match n
    case Batch(_) => n
    case Batches(items) => if |items| == 0 then n else LastCall(items[|items| - 1])
  }
}
