/** The reversing transforms of example/reverse.js, docs/js/reverse.js and the
    `reverse()` stage of example/pipeline.js: the transform hook stacks every
    chunk and pushes nothing; the flush hook pops the stack and pushes what it
    pops until `pop()` gives a falsy value. The example/reverse.js variant then
    pushes `'extra'` and calls its callback; the other two never call theirs. */
module Reverse {
  import opened Streams

  /** What the pop loop pushes, and what it leaves on the stack. */
  datatype Drained = Drained(pushed: seq<string>, rest: seq<string>)

  /** `while (buf = input.pop()) this.push(buf)`. The loop stops when the
      stack is empty (`pop()` gives `undefined`) or when it pops the empty
      string, the one falsy string; that chunk is removed but not pushed. */
  function DrainOf(stack: seq<string>): (d: Drained)
    ensures |d.pushed| <= |stack|
  {
    if stack == [] then Drained([], [])
    else
      var top, below := stack[|stack| - 1], stack[..|stack| - 1];
      if top == "" then Drained([], below)
      else
        var d := DrainOf(below);
        Drained([top] + d.pushed, d.rest)
  }

  /** The pop loop pushes the chunks above the topmost empty string, top
      first, none of them empty; it removes that empty string and leaves
      what lies below it. Without an empty string it pushes everything. */
  ghost predicate DrainedShape(stack: seq<string>, d: Drained) {
    && |d.pushed| <= |stack|
    && d.pushed == Reversed(stack[|stack| - |d.pushed|..])
    && (forall k :: 0 <= k < |d.pushed| ==> d.pushed[k] != "")
    && (|d.pushed| < |stack| ==>
          stack[|stack| - 1 - |d.pushed|] == "" && d.rest == stack[..|stack| - 1 - |d.pushed|])
    && (|d.pushed| == |stack| ==> d.rest == [])
  }

  /** Reversing a sequence with one more element at its end puts that
      element first. */
  lemma ReversedSnoc(x: seq<string>, t: string)
    ensures Reversed(x + [t]) == [t] + Reversed(x)
  {
    assert (x + [t])[..|x|] == x;
  }

  /** Popping a non-empty chunk off the top keeps the shape of what the rest
      of the loop does. */
  lemma DrainShapeStep(below: seq<string>, top: string, d: Drained)
    requires top != "" && DrainedShape(below, d)
    ensures DrainedShape(below + [top], Drained([top] + d.pushed, d.rest))
  {
    var stack, n := below + [top], |d.pushed|;
    var above := below[|below| - n..];
    assert stack[|stack| - (n + 1)..] == above + [top];
    ReversedSnoc(above, top);
    if n < |below| {
      assert stack[|stack| - 1 - (n + 1)] == below[|below| - 1 - n];
      assert stack[..|stack| - 1 - (n + 1)] == below[..|below| - 1 - n];
    }
  }

  lemma {:induction false} DrainShape(stack: seq<string>)
    ensures DrainedShape(stack, DrainOf(stack))
    decreases |stack|
  {
    if stack != [] {
      var top, below := stack[|stack| - 1], stack[..|stack| - 1];
      if top == "" {
        assert stack[|stack|..] == [];
      } else {
        DrainShape(below);
        assert stack == below + [top];
        DrainShapeStep(below, top, DrainOf(below));
      }
    }
  }

  /** A stack without an empty string is popped to the end: everything is
      pushed, last in first out, and the stack is left empty. */
  lemma DrainAllTruthy(stack: seq<string>)
    requires forall k :: 0 <= k < |stack| ==> stack[k] != ""
    ensures DrainOf(stack) == Drained(Reversed(stack), [])
  {
    DrainShape(stack);
    var d := DrainOf(stack);
    assert |d.pushed| == |stack| by {
      if |d.pushed| < |stack| {
        assert false;
      }
    }
    assert stack[|stack| - |d.pushed|..] == stack;
  }

  /** An empty string on the stack hides everything below it: it is popped,
      and what lies under it stays. */
  lemma {:induction false} DrainStopsAtEmpty(below: seq<string>, above: seq<string>)
    requires forall k :: 0 <= k < |above| ==> above[k] != ""
    ensures DrainOf(below + [""] + above) == Drained(Reversed(above), below)
    decreases |above|
  {
    var s := below + [""] + above;
    if above == [] {
      assert s[..|s| - 1] == below;
    } else {
      var a' := above[..|above| - 1];
      assert s[..|s| - 1] == below + [""] + a';
      DrainStopsAtEmpty(below, a');
      assert Reversed(above) == [above[|above| - 1]] + Reversed(a');
    }
  }

  /** One turn of the pop loop: the top is removed, and the loop goes on
      unless it was the empty string. */
  lemma DrainPop(stack: seq<string>)
    requires stack != []
    ensures var top, below := stack[|stack| - 1], stack[..|stack| - 1];
      DrainOf(stack) == if top == "" then Drained([], below)
        else Drained([top] + DrainOf(below).pushed, DrainOf(below).rest)
  {
  }

  /** The pop loop on a stack `input`, pushing onto `output`. */
  method PopLoop(input: seq<string>, output: seq<Emit<string>>) returns (stack: seq<string>, out: seq<Emit<string>>)
    ensures stack == DrainOf(input).rest
    ensures out == output + AsData(DrainOf(input).pushed)
  {
    ghost var pushed: seq<string> := [];
    stack, out := input, output;
    while true
      invariant pushed + DrainOf(stack).pushed == DrainOf(input).pushed
      invariant DrainOf(stack).rest == DrainOf(input).rest
      invariant out == output + AsData(pushed)
      decreases |stack|
    {
      if stack == [] {
        break;
      }
      var buf := stack[|stack| - 1];
      ghost var before := stack;
      stack := stack[..|stack| - 1];
      DrainPop(before);
      if buf == "" {
        break;
      }
      assert pushed + [buf] + DrainOf(stack).pushed == pushed + ([buf] + DrainOf(stack).pushed);
      AsDataAppend(pushed, [buf]);
      pushed := pushed + [buf];
      out := out + [Data(buf)];
    }
  }

  /** The transform with its closure stack `input`, and what it has pushed. */
  class Reverser {
    var input: seq<string>
    var output: seq<Emit<string>>
    /** Whether the flush callback has been called. */
    var done: bool

    constructor ()
      ensures input == [] && output == [] && !done
    {
      input, output, done := [], [], false;
    }

    /** The transform hook: stack the chunk, push nothing, call `next()`. */
    method Transform(buf: string)
      modifies this
      ensures input == old(input) + [buf]
      ensures output == old(output) && done == old(done)
    {
      input := input + [buf];
    }

    /** The pop loop of the flush hooks. */
    method Drain()
      modifies this
      ensures input == DrainOf(old(input)).rest
      ensures output == old(output) + AsData(DrainOf(old(input)).pushed)
      ensures done == old(done)
    {
      input, output := PopLoop(input, output);
    }

    /** The flush hook of example/reverse.js: the pop loop, then (after a
        timer, taken here as the next step) `'extra'` and the callback. */
    method FlushThenExtra()
      modifies this
      ensures input == DrainOf(old(input)).rest
      ensures output == old(output) + AsData(DrainOf(old(input)).pushed) + [Data("extra")]
      ensures done
    {
      Drain();
      output := output + [Data("extra")];
      done := true;
    }

    /** The flush hook of docs/js/reverse.js and of `reverse()` in
        example/pipeline.js: the pop loop, and `next` is never called. */
    method FlushWithoutCallback()
      modifies this
      ensures input == DrainOf(old(input)).rest
      ensures output == old(output) + AsData(DrainOf(old(input)).pushed)
      ensures done == old(done)
    {
      Drain();
    }
  }

  /** Writing `writes` to a fresh reverser and ending it: nothing comes out
      before the end; then the writes come out in reverse order as far as the
      last empty string, followed by `'extra'` and completion in the
      example/reverse.js variant. */
  method Run(writes: seq<string>, withExtra: bool) returns (out: seq<Emit<string>>, done: bool)
    ensures out == AsData(DrainOf(writes).pushed) + (if withExtra then [Data("extra")] else [])
    ensures done == withExtra
    ensures (forall k :: 0 <= k < |writes| ==> writes[k] != "") ==>
      out == AsData(Reversed(writes)) + (if withExtra then [Data("extra")] else [])
  {
    var r := new Reverser();
    var i := 0;
    while i < |writes|
      invariant 0 <= i <= |writes|
      invariant r.input == writes[..i] && r.output == [] && !r.done
    {
      r.Transform(writes[i]);
      assert writes[..i] + [writes[i]] == writes[..i + 1];
      i := i + 1;
    }
    assert writes[..i] == writes;
    if withExtra {
      r.FlushThenExtra();
    } else {
      r.FlushWithoutCallback();
    }
    out, done := r.output, r.done;
    if forall k :: 0 <= k < |writes| ==> writes[k] != "" {
      DrainAllTruthy(writes);
    }
  }

  /** example/reverse.js: `write('a')`, `write('b')`, `end('c')` prints
      `c`, `b`, `a`, `extra` and finishes. */
  method DemoReverse() returns (out: seq<Emit<string>>, done: bool)
    ensures out == [Data("c"), Data("b"), Data("a"), Data("extra")]
    ensures done
  {
    out, done := Run(["a", "b", "c"], true);
  }

  /** docs/js/reverse.js: the same writes print `c`, `b`, `a`, and the
      stream never completes. */
  method DemoDocs() returns (out: seq<Emit<string>>, done: bool)
    ensures out == [Data("c"), Data("b"), Data("a")]
    ensures !done
  {
    out, done := Run(["a", "b", "c"], false);
  }
}
