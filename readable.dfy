/** The adapter of example/implement/readable.js: a readable whose `_read`
    advances an iterator once and pushes the value with a newline, or the end
    when the iterator is exhausted. The iterator is a cursor over the values
    it yields, each value taken in its string form. */
module Readable {
  import opened Streams

  /** Each value followed by a newline, as `res.value + '\n'` builds it. */
  function WithNewlines(items: seq<string>): (r: seq<string>)
    ensures |r| == |items|
    ensures forall k :: 0 <= k < |items| ==> r[k] == items[k] + "\n"
  {
    if items == [] then [] else [items[0] + "\n"] + WithNewlines(items[1..])
  }

  /** What `n` calls of `_read` push, from a fresh iterator over `items`: one
      line per call while values remain, then the end on every call. */
  function ReadOutputs(items: seq<string>, n: nat): seq<Emit<string>> {
    if n <= |items| then AsData(WithNewlines(items[..n]))
    else AsData(WithNewlines(items)) + Repeat(End, n - |items|)
  }

  /** One more read pushes the next line, or the end once the values are
      used up. */
  lemma ReadOutputsStep(items: seq<string>, n: nat)
    ensures ReadOutputs(items, n + 1) ==
      ReadOutputs(items, n) + [if n < |items| then Data(items[n] + "\n") else End]
  {
    if n < |items| {
      assert WithNewlines(items[..n + 1]) == WithNewlines(items[..n]) + [items[n] + "\n"];
      AsDataAppend(WithNewlines(items[..n]), [items[n] + "\n"]);
    } else if n == |items| {
      assert items[..n] == items;
    } else {
      assert Repeat<Emit<string>>(End, n + 1 - |items|) == Repeat(End, n - |items|) + [End];
    }
  }

  /** A source of `k` values gives exactly `k` data chunks, its values in
      order, and the end on the following read, and nothing but the end
      after that. */
  lemma ExactlyKThenEnd(items: seq<string>, n: nat)
    requires n > |items|
    ensures |ReadOutputs(items, n)| == n
    ensures forall k :: 0 <= k < |items| ==> ReadOutputs(items, n)[k] == Data(items[k] + "\n")
    ensures forall k :: |items| <= k < n ==> ReadOutputs(items, n)[k] == End
  {
  }

  class ToReadable {
    const items: seq<string>
    var pos: nat
    var output: seq<Emit<string>>
    /** The number of `_read` calls so far. */
    ghost var calls: nat

    ghost predicate Valid()
      reads this
    {
      && pos == (if calls <= |items| then calls else |items|)
      && output == ReadOutputs(items, calls)
    }

    constructor (iterable: seq<string>)
      ensures Valid() && items == iterable && calls == 0
    {
      items := iterable;
      pos, output, calls := 0, [], 0;
    }

    /** `_read`: advance the iterator; push the end if it is done, the value
        and a newline otherwise. */
    method Read()
      requires Valid()
      modifies this
      ensures Valid() && calls == old(calls) + 1
      ensures old(pos) < |items| ==> pos == old(pos) + 1 && output == old(output) + [Data(items[old(pos)] + "\n")]
      ensures old(pos) == |items| ==> pos == old(pos) && output == old(output) + [End]
    {
      ReadOutputsStep(items, calls);
      if pos == |items| {
        output := output + [End];
      } else {
        output := output + [Data(items[pos] + "\n")];
        pos := pos + 1;
      }
      calls := calls + 1;
    }
  }

  /** Reading a fresh adapter until it ends: every value as a line, in order,
      then the end. */
  method ReadAll(iterable: seq<string>) returns (out: seq<Emit<string>>)
    ensures out == AsData(WithNewlines(iterable)) + [End]
  {
    var r := new ToReadable(iterable);
    var last: Emit<string> := Data("");
    while last != End
      invariant r.Valid() && r.items == iterable
      invariant last != End ==> r.calls <= |iterable|
      invariant last == End ==> r.calls == |iterable| + 1
      decreases |iterable| + 1 - r.calls
    {
      r.Read();
      last := r.output[|r.output| - 1];
    }
    out := r.output;
  }
}
