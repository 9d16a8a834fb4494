/** The duplex of example/implement/duplex.js: the writable side queues each
    chunk's text in `chars` and at once asks the readable side to read, which
    takes the oldest queued text and pushes it upper-cased; when the writable
    side finishes, the readable side is ended, once. */
module Duplex {
  import opened Streams
  import opened Text
  import opened UpperCase

  class ToUpperCase {
    var chars: seq<string>
    var output: seq<Emit<string>>
    var finished: bool
    /** Every chunk written so far. */
    ghost var written: seq<string>

    /** Between calls the queue is empty and the readable side holds every
        write upper-cased, followed by the end once the writable side has
        finished. */
    ghost predicate Valid()
      reads this
    {
      && chars == []
      && output == AsData(UpperEach(written)) + (if finished then [End] else [])
    }

    constructor ()
      ensures Valid() && written == [] && !finished
    {
      chars, output, finished, written := [], [], false, [];
    }

    /** `_read`: dequeue the oldest text and push it upper-cased; nothing to
        do on an empty queue. */
    method Read()
      modifies this
      ensures old(chars) == [] ==> chars == [] && output == old(output)
      ensures old(chars) != [] ==>
        chars == old(chars)[1..] && output == old(output) + [Data(UpperText(old(chars)[0]))]
      ensures finished == old(finished) && written == old(written)
    {
      if |chars| > 0 {
        var str := chars[0];
        chars := chars[1..];
        output := output + [Data(UpperText(str))];
      }
    }

    /** `_write`: queue the text, read, then call `next()`. Whatever was
        queued before comes out first; from an empty queue that is the new
        text itself, and the queue is empty again. */
    method Write(data: string)
      requires !finished
      modifies this
      ensures var q := old(chars) + [data];
        chars == q[1..] && output == old(output) + [Data(UpperText(q[0]))]
      ensures finished == old(finished) && written == old(written) + [data]
      ensures old(Valid()) ==> Valid()
    {
      ghost var wasValid := Valid();
      chars := chars + [data];
      written := written + [data];
      Read();
      if wasValid {
        UpperEachSnoc(old(written), data);
      }
    }

    /** The `finish` listener, registered with `once`. */
    method Finish()
      modifies this
      ensures finished
      ensures chars == old(chars) && written == old(written)
      ensures output == old(output) + (if old(finished) then [] else [End])
      ensures old(Valid()) ==> Valid()
    {
      if !finished {
        output := output + [End];
        finished := true;
      }
    }
  }

  /** One more write adds its upper-cased text to what the readable side
      holds. */
  lemma UpperEachSnoc(written: seq<string>, data: string)
    ensures AsData(UpperEach(written + [data])) == AsData(UpperEach(written)) + [Data(UpperText(data))]
  {
    assert UpperEach(written + [data]) == UpperEach(written) + [UpperText(data)];
    AsDataAppend(UpperEach(written), [UpperText(data)]);
  }

  /** Writing `writes` to a fresh duplex and ending it: each write comes out
      upper-cased, in write order, and then the end, once. */
  method RunDuplex(writes: seq<string>) returns (out: seq<Emit<string>>)
    ensures out == AsData(UpperEach(writes)) + [End]
  {
    var d := new ToUpperCase();
    var i := 0;
    while i < |writes|
      invariant 0 <= i <= |writes|
      invariant d.Valid() && !d.finished && d.written == writes[..i]
    {
      d.Write(writes[i]);
      assert writes[..i] + [writes[i]] == writes[..i + 1];
      i := i + 1;
    }
    assert writes[..i] == writes;
    d.Finish();
    out := d.output;
  }

  /** `write('hello, ')`, `write('world!')`, `end()` prints `HELLO, WORLD!`. */
  method Demo() returns (out: seq<Emit<string>>)
    ensures out == [Data("HELLO, "), Data("WORLD!"), End]
  {
    var xs := ["hello, ", "world!"];
    UpperHello();
    UpperWorld();
    out := RunDuplex(xs);
  }
}
