/** The browserify transform of example/browserify/comment.js: it forwards
    every chunk unchanged and, when its input ends, adds one comment naming
    the file. */
module Comment {
  import opened Streams

  /** The flush hook's trailer, `'/* AWESOME ' + file + '*/'`. */
  function Trailer(file: string): (t: string)
    ensures |t| == |file| + 13
    ensures t[..11] == "/* AWESOME " && t[11..|t| - 2] == file && t[|t| - 2..] == "*/"
  {
    "/* AWESOME " + file + "*/"
  }

  /** Different files get different trailers. */
  lemma TrailerInjective(a: string, b: string)
    requires Trailer(a) == Trailer(b)
    ensures a == b
  {
    assert a == Trailer(a)[11..|Trailer(a)| - 2];
  }

  /** The transform hook: `next(null, buf)` forwards the chunk. */
  function Forward(buf: string): seq<string> {
    [buf]
  }

  /** Everything the transform pushes for `inputs` and then its flush. */
  function Run(file: string, inputs: seq<string>): seq<string> {
    FlatMap(Forward, inputs) + [Trailer(file)]
  }

  /** Forwarding each chunk reproduces the input. */
  lemma {:induction false} ForwardAll(inputs: seq<string>)
    ensures FlatMap(Forward, inputs) == inputs
    decreases |inputs|
  {
    if inputs != [] {
      ForwardAll(inputs[1..]);
      assert FlatMap(Forward, inputs) == [inputs[0]] + FlatMap(Forward, inputs[1..]);
    }
  }

  /** The output is the input followed by exactly one trailer; an empty input
      gives the trailer alone. */
  lemma RunIsInputsThenTrailer(file: string, inputs: seq<string>)
    ensures Run(file, inputs) == inputs + [Trailer(file)]
    ensures |Run(file, inputs)| == |inputs| + 1
    ensures inputs == [] ==> Run(file, inputs) == [Trailer(file)]
  {
    ForwardAll(inputs);
  }
}
