/** The upper-casing transforms of example/implement/transform.js and
    docs/js/transform.js: each written chunk is pushed once, upper-cased,
    before it is acknowledged. */
module UpperCase {
  import opened Streams
  import opened Text

  /** The transform hook: `push(data.toString().toUpperCase())` then
      `next()`, or `next(null, buf.toString().toUpperCase())`, which pushes
      the same single chunk. */
  function TransformOut(data: string): (out: seq<string>)
    ensures |out| == 1 && |out[0]| == |data|
    ensures forall k :: 0 <= k < |data| ==> out[0][k] == UpperChar(data[k])
  {
    [UpperText(data)]
  }

  /** Every chunk upper-cased, in order. */
  function UpperEach(xs: seq<string>): (r: seq<string>)
    ensures |r| == |xs|
    ensures forall k :: 0 <= k < |xs| ==> r[k] == UpperText(xs[k])
  {
    if xs == [] then [] else [UpperText(xs[0])] + UpperEach(xs[1..])
  }

  /** A run of writes pushes one upper-cased chunk per write, in write order. */
  lemma {:induction false} OneChunkPerWrite(xs: seq<string>)
    ensures FlatMap(TransformOut, xs) == UpperEach(xs)
    decreases |xs|
  {
    if xs != [] {
      OneChunkPerWrite(xs[1..]);
      assert FlatMap(TransformOut, xs) == [UpperText(xs[0])] + FlatMap(TransformOut, xs[1..]);
    }
  }

  /** What the sink prints is the upper-cased concatenation of the writes. */
  lemma {:induction false} UpperChunks(xs: seq<string>)
    ensures Concat(UpperEach(xs)) == UpperText(Concat(xs))
    decreases |xs|
  {
    if xs != [] {
      UpperChunks(xs[1..]);
      assert UpperEach(xs) == [UpperText(xs[0])] + UpperEach(xs[1..]);
      UpperTextAppend(xs[0], Concat(xs[1..]));
    }
  }

  /** The inputs of a driver that writes `writes` and then calls `end`,
      with a final chunk when `end` is given one. */
  function DriverInputs(writes: seq<string>, last: Option<string>): (xs: seq<string>)
    ensures |xs| >= |writes| && xs[..|writes|] == writes
    ensures last.None? ==> xs == writes
    ensures last.Some? ==> |xs| == |writes| + 1 && xs[|writes|] == last.value
  {
    writes + (if last.Some? then [last.value] else [])
  }

  /** The demo's first chunk upper-cased. */
  lemma UpperHello()
    ensures UpperText("hello, ") == "HELLO, "
  {
    var a := UpperText("hello, ");
    assert a[0] == 'H' && a[1] == 'E' && a[2] == 'L' && a[3] == 'L' && a[4] == 'O' && a[5] == ',' && a[6] == ' ';
  }

  /** The demo's second chunk upper-cased. */
  lemma UpperWorld()
    ensures UpperText("world!") == "WORLD!"
  {
    var b := UpperText("world!");
    assert b[0] == 'W' && b[1] == 'O' && b[2] == 'R' && b[3] == 'L' && b[4] == 'D' && b[5] == '!';
  }

  /** example/implement/transform.js pushes `HELLO, ` and `WORLD!`, and
      so prints `HELLO, WORLD!`. */
  lemma DemoImplement()
    ensures FlatMap(TransformOut, DriverInputs(["hello, ", "world!"], None)) == ["HELLO, ", "WORLD!"]
    ensures Concat(FlatMap(TransformOut, DriverInputs(["hello, ", "world!"], None))) == "HELLO, WORLD!"
  {
    UpperHello();
    UpperWorld();
    FlatMapPair(TransformOut, "hello, ", "world!");
    ConcatPair("HELLO, ", "WORLD!");
  }

  /** docs/js/transform.js: `write('a')`, `write('b')`, `end('c')` prints
      `A`, `B`, `C`. */
  lemma DemoDocs()
    ensures FlatMap(TransformOut, DriverInputs(["a", "b"], Some("c"))) == ["A", "B", "C"]
  {
    var xs := DriverInputs(["a", "b"], Some("c"));
    OneChunkPerWrite(xs);
    assert UpperText("a") == "A" && UpperText("b") == "B" && UpperText("c") == "C";
  }
}
