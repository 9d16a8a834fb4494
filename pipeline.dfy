/** The three-stage chain of example/pipeline.js: `src()` reads an array one
    element per `read` call, `toUpperCase()` upper-cases each chunk, and
    `reverse()` (modelled in module Reverse) replays the chunks backwards
    when its input ends. */
module Pipeline {
  import opened Streams
  import opened Text
  import opened UpperCase
  import opened Reverse

  /** The elements `src` hands on before it pushes the end: those before
      the first empty string, which `|| null` turns into the end marker. */
  function UntilFalsy(xs: seq<string>): (r: seq<string>)
    ensures r <= xs
    ensures forall k :: 0 <= k < |r| ==> r[k] != ""
    ensures |r| < |xs| ==> xs[|r|] == ""
  {
    if xs == [] || xs[0] == "" then [] else [xs[0]] + UntilFalsy(xs[1..])
  }

  /** Below the first empty string, `src` hands on the next element. */
  lemma PullOne(xs: seq<string>, u: seq<string>, i: nat)
    requires u == UntilFalsy(xs) && i <= |u|
    requires xs[i..] != [] && xs[i..][0] != ""
    ensures xs[i..] != [] && xs[i..][0] == u[i] != "" && xs[i..][1..] == xs[i + 1..]
    ensures AsData(u[..i + 1]) == AsData(u[..i]) + [Data(u[i])]
  {
    assert u[..i] + [u[i]] == u[..i + 1];
    AsDataAppend(u[..i], [u[i]]);
  }

  /** At the first empty string, or past the last element, `src` ends. */
  lemma PullEnd(xs: seq<string>, u: seq<string>, i: nat)
    requires u == UntilFalsy(xs) && i <= |u|
    requires xs[i..] != [] ==> xs[i..][0] == ""
    ensures i == |u| && u[..i] == u
  {
  }

  /** The readable side of `src()`, with the array it consumes. */
  class ArraySource {
    var source: seq<string>
    var output: seq<Emit<string>>

    constructor (xs: seq<string>)
      ensures source == xs && output == []
    {
      source, output := xs, [];
    }

    /** `push(source.shift() || null)`: the first element, or the end when
        the array is empty (`shift` gives `undefined`) or its first element
        is the empty string. The element is removed in both cases. */
    method Read()
      modifies this
      ensures old(source) == [] ==> source == [] && output == old(output) + [End]
      ensures old(source) != [] ==> source == old(source)[1..]
      ensures old(source) != [] && old(source)[0] == "" ==> output == old(output) + [End]
      ensures old(source) != [] && old(source)[0] != "" ==> output == old(output) + [Data(old(source)[0])]
    {
      var head: Option<string> := None;
      if source != [] {
        head := Some(source[0]);
        source := source[1..];
      }
      if head.Some? && head.value != "" {
        output := output + [Data(head.value)];
      } else {
        output := output + [End];
      }
    }
  }

  /** Reading a fresh `src` over `xs` until it ends: the elements before the
      first empty string, then the end. */
  method Pull(xs: seq<string>) returns (out: seq<Emit<string>>)
    ensures out == AsData(UntilFalsy(xs)) + [End]
  {
    var src := new ArraySource(xs);
    ghost var u := UntilFalsy(xs);
    var i := 0;
    var stop := false;
    while !stop
      invariant 0 <= i <= |u|
      invariant !stop ==> src.source == xs[i..] && src.output == AsData(u[..i])
      invariant stop ==> src.output == AsData(u) + [End]
      decreases |xs| - i, !stop
    {
      src.Read();
      if src.output[|src.output| - 1] == End {
        stop := true;
        PullEnd(xs, u, i);
      } else {
        PullOne(xs, u, i);
        i := i + 1;
      }
    }
    out := src.output;
  }

  /** `src().pipe(toUpperCase()).pipe(reverse())`: the chunks `src` hands on,
      upper-cased, in reverse order; the reverse stage never calls its flush
      callback, so the chain never completes. */
  method Chain(xs: seq<string>) returns (out: seq<Emit<string>>, done: bool)
    ensures out == AsData(Reversed(UpperEach(UntilFalsy(xs))))
    ensures !done
  {
    var pulled := Pull(xs);
    var data := UntilFalsy(xs);
    assert pulled[..|data|] == AsData(data);
    var uppers := UpperEach(data);
    OneChunkPerWrite(data);
    out, done := Run(uppers, false);
  }

  /** The chain over `['a', 'b', 'c']` prints `C`, `B`, `A`. */
  method Demo() returns (out: seq<Emit<string>>, done: bool)
    ensures out == [Data("C"), Data("B"), Data("A")]
    ensures !done
  {
    var xs := ["a", "b", "c"];
    assert xs[1..][1..][1..] == [];
    assert UntilFalsy(xs) == xs;
    assert UpperText("a") == "A" && UpperText("b") == "B" && UpperText("c") == "C";
    out, done := Chain(xs);
  }
}
