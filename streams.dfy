/** Vocabulary shared by every hook: what a hook hands to the readable side of
    its stream, and a few sequence functions used to state what hooks emit. */
module Streams {

  datatype Option<T> = None | Some(value: T) {
    function GetOr(default: T): T {
      match this
      case Some(v) => v
      case None => default
    }
  }

  /** One call of `push` on a readable side: `Data(x)` for `push(x)`, `End`
      for `push(null)`, the end-of-stream marker. */
  datatype Emit<T> = Data(value: T) | End

  /** The chunks of `xs`, each wrapped as data. */
  function AsData<T>(xs: seq<T>): (r: seq<Emit<T>>)
    ensures |r| == |xs|
    ensures forall k :: 0 <= k < |xs| ==> r[k] == Data(xs[k])
  {
    if xs == [] then [] else [Data(xs[0])] + AsData(xs[1..])
  }

  /** Feeding every input to a per-chunk hook `f` and collecting what it
      pushes, in order. */
  function FlatMap<A, B>(f: A -> seq<B>, xs: seq<A>): seq<B>
  {
    if xs == [] then [] else f(xs[0]) + FlatMap(f, xs[1..])
  }

  /** Two inputs emit what the first emits, then what the second emits. */
  lemma FlatMapPair<A, B>(f: A -> seq<B>, x: A, y: A)
    ensures FlatMap(f, [x, y]) == f(x) + f(y)
  {
    assert [x, y][1..] == [y] && [y][1..] == [];
    assert FlatMap(f, [y]) == f(y) + FlatMap(f, []);
  }

  /** Feeding two batches one after the other emits what each batch emits. */
  lemma {:induction false} FlatMapAppend<A, B>(f: A -> seq<B>, xs: seq<A>, ys: seq<A>)
    ensures FlatMap(f, xs + ys) == FlatMap(f, xs) + FlatMap(f, ys)
  {
    if xs == [] {
      assert xs + ys == ys;
    } else {
      assert (xs + ys)[1..] == xs[1..] + ys;
      FlatMapAppend(f, xs[1..], ys);
    }
  }

  /** A hook that pushes exactly one chunk per call emits one chunk per input,
      the k-th being the hook's output for the k-th input. */
  lemma {:induction false} FlatMapOneEach<A, B>(f: A -> seq<B>, xs: seq<A>)
    requires forall x :: |f(x)| == 1
    ensures |FlatMap(f, xs)| == |xs|
    ensures forall k :: 0 <= k < |xs| ==> FlatMap(f, xs)[k] == f(xs[k])[0]
  {
    if xs != [] {
      FlatMapOneEach(f, xs[1..]);
      assert FlatMap(f, xs) == f(xs[0]) + FlatMap(f, xs[1..]);
      forall k | 0 <= k < |xs| ensures FlatMap(f, xs)[k] == f(xs[k])[0] {
        if k > 0 {
          assert xs[1..][k - 1] == xs[k];
        }
      }
    }
  }

  /** `n` copies of `x`. */
  function Repeat<T>(x: T, n: nat): (r: seq<T>)
    ensures |r| == n
    ensures forall k :: 0 <= k < n ==> r[k] == x
  {
    seq(n, _ => x)
  }

  /** `s` in the opposite order (the order in which `pop` yields an array). */
  function Reversed<T>(s: seq<T>): (r: seq<T>)
    ensures |r| == |s|
    ensures forall k :: 0 <= k < |s| ==> r[k] == s[|s| - 1 - k]
  {
    if s == [] then [] else [s[|s| - 1]] + Reversed(s[..|s| - 1])
  }

  /** Wrapping two batches one after the other wraps their concatenation. */
  lemma AsDataAppend<T>(xs: seq<T>, ys: seq<T>)
    ensures AsData(xs + ys) == AsData(xs) + AsData(ys)
  {
    assert forall k :: 0 <= k < |xs + ys| ==> (xs + ys)[k] == if k < |xs| then xs[k] else ys[k - |xs|];
  }
}
