/** The letter-rotation transform of example/rotate.js: each letter of a chunk
    moves `offset` places along its alphabet, wrapping past `z` (or `Z`), and
    every other character is kept. */
module Rot {
  import opened Streams
  import opened Text

  /** JavaScript's `n % 26`, which truncates toward zero: the remainder takes
      the sign of the dividend. */
  function Rem26(a: int): (r: int)
    ensures a >= 0 ==> 0 <= r < 26
    ensures a < 0 ==> -26 < r <= 0
    ensures (a - r) % 26 == 0
  {
    if a >= 0 then a % 26 else -((-a) % 26)
  }

  /** The constructor's `(n || 13) % 26`: an absent or zero `n` means 13. */
  function Offset(n: Option<int>): (k: int)
    ensures n.None? || n == Some(0) ==> k == 13
    ensures n.Some? && n.value > 0 ==> 0 <= k < 26 && (n.value - k) % 26 == 0
    ensures n.Some? && n.value < 0 ==> -26 < k <= 0 && (n.value - k) % 26 == 0
  {
    var m := if n.None? || n.value == 0 then 13 else n.value;
    Rem26(m)
  }

  /** The callback of `map`: a letter's code moves by `offset` and drops back
      by 26 when it passes the end of its alphabet. */
  function RotateChar(c: char, offset: int): (r: char)
    requires -26 < offset < 26
    ensures 0 <= offset && IsLower(c) ==>
      IsLower(r) && r as int - 'a' as int == (c as int - 'a' as int + offset) % 26
    ensures 0 <= offset && IsUpper(c) ==>
      IsUpper(r) && r as int - 'A' as int == (c as int - 'A' as int + offset) % 26
    ensures offset < 0 && (IsLower(c) || IsUpper(c)) ==> r as int == c as int + offset
    ensures !IsLower(c) && !IsUpper(c) ==> r == c
  {
    if IsLower(c) then
      var code := c as int + offset;
      (if code > 'z' as int then code - 26 else code) as char
    else if IsUpper(c) then
      var code := c as int + offset;
      (if code > 'Z' as int then code - 26 else code) as char
    else
      c
  }

  /** `split('').map(...).join('')`. */
  function RotateText(s: string, offset: int): (r: string)
    requires -26 < offset < 26
    ensures |r| == |s|
    ensures forall k :: 0 <= k < |s| ==> r[k] == RotateChar(s[k], offset)
  {
    if s == [] then [] else [RotateChar(s[0], offset)] + RotateText(s[1..], offset)
  }

  /** The rotation works character by character, so rotating two chunks
      separately and joining them equals rotating the joined text. */
  lemma RotateTextAppend(a: string, b: string, offset: int)
    requires -26 < offset < 26
    ensures RotateText(a + b, offset) == RotateText(a, offset) + RotateText(b, offset)
  {
    assert forall k :: 0 <= k < |a + b| ==> (a + b)[k] == if k < |a| then a[k] else b[k - |a|];
  }

  /** Moving `offset` places and then `26 - offset` places returns to the start. */
  lemma ShiftBack(x: int, offset: int)
    requires 0 <= x < 26 && 0 <= offset < 26
    ensures ((x + offset) % 26 + (26 - offset) % 26) % 26 == x
  {
    if x + offset < 26 {
      assert (x + offset) % 26 == x + offset;
    } else {
      assert (x + offset) % 26 == x + offset - 26;
    }
    if offset == 0 {
      assert (26 - offset) % 26 == 0;
    } else {
      assert (26 - offset) % 26 == 26 - offset;
    }
  }

  lemma RotateCharInverse(c: char, offset: int)
    requires 0 <= offset < 26
    ensures RotateChar(RotateChar(c, offset), (26 - offset) % 26) == c
  {
    if IsLower(c) {
      ShiftBack(c as int - 'a' as int, offset);
    } else if IsUpper(c) {
      ShiftBack(c as int - 'A' as int, offset);
    }
  }

  /** A rotator with offset `k` in 0..25 is undone by one with offset
      `(26 - k) % 26`. */
  lemma RotateTextInverse(s: string, offset: int)
    requires 0 <= offset < 26
    ensures RotateText(RotateText(s, offset), (26 - offset) % 26) == s
  {
    forall k | 0 <= k < |s| ensures RotateText(RotateText(s, offset), (26 - offset) % 26)[k] == s[k] {
      RotateCharInverse(s[k], offset);
    }
  }

  /** ROT13 is its own inverse: the default rotator undoes itself. */
  lemma Rot13Involution(s: string)
    ensures RotateText(RotateText(s, Offset(None)), Offset(None)) == s
  {
    RotateTextInverse(s, 13);
  }

  /** A negative `n` gives a negative offset, and the wrap only looks past the
      end of the alphabet: letters near its start leave it. */
  lemma NegativeOffsetLeavesAlphabet()
    ensures Offset(Some(-3)) == -3
    ensures RotateChar('a', Offset(Some(-3))) == '^'
    ensures RotateChar('A', Offset(Some(-3))) == '>'
  {
  }

  /** A `Rotate` transform: the offset is fixed when it is constructed. */
  datatype Rotate = Rotate(offset: int) {
    ghost predicate Valid() { -26 < offset < 26 }

    /** `_transform`: one chunk pushed per call, then `next()`. */
    function Transform(chunk: string): (out: seq<string>)
      requires Valid()
      ensures |out| == 1 && |out[0]| == |chunk|
      ensures forall k :: 0 <= k < |chunk| ==> out[0][k] == RotateChar(chunk[k], offset)
    {
      [RotateText(chunk, offset)]
    }
  }

  /** `new Rotate(n)`. */
  function NewRotate(n: Option<int>): (t: Rotate)
    ensures t.Valid()
    ensures t.offset == Offset(n)
  {
    Rotate(Offset(n))
  }

  /** Writing chunks one by one pushes, all together, the rotation of their
      concatenation. */
  lemma {:induction false} RotateChunks(t: Rotate, chunks: seq<string>)
    requires t.Valid()
    ensures Concat(FlatMap(t.Transform, chunks)) == RotateText(Concat(chunks), t.offset)
    decreases |chunks|
  {
    if chunks != [] {
      RotateChunks(t, chunks[1..]);
      assert FlatMap(t.Transform, chunks) == [RotateText(chunks[0], t.offset)] + FlatMap(t.Transform, chunks[1..]);
      RotateTextAppend(chunks[0], Concat(chunks[1..]), t.offset);
    }
  }

  /** The demo's first chunk rotated by 3. */
  lemma RotateHello()
    ensures RotateText("hello, ", 3) == "khoor, "
  {
    var a := RotateText("hello, ", 3);
    assert a[0] == 'k' && a[1] == 'h' && a[2] == 'o' && a[3] == 'o' && a[4] == 'r' && a[5] == ',' && a[6] == ' ';
  }

  /** The demo's second chunk rotated by 3. */
  lemma RotateWorld()
    ensures RotateText("world!", 3) == "zruog!"
  {
    var b := RotateText("world!", 3);
    assert b[0] == 'z' && b[1] == 'r' && b[2] == 'u' && b[3] == 'o' && b[4] == 'g' && b[5] == '!';
  }

  /** The rotator of the demo maps each chunk to its rotation by 3. */
  lemma DemoChunks(t: Rotate)
    requires t == NewRotate(Some(3))
    ensures t.Valid()
    ensures t.Transform("hello, ") == ["khoor, "] && t.Transform("world!") == ["zruog!"]
  {
    assert t.offset == 3;
    RotateHello();
    RotateWorld();
  }

  /** `new Rotate(3)` fed `'hello, '` then `'world!'` prints `khoor, zruog!`. */
  lemma Demo()
    ensures FlatMap(NewRotate(Some(3)).Transform, ["hello, ", "world!"]) == ["khoor, ", "zruog!"]
  {
    var t := NewRotate(Some(3));
    DemoChunks(t);
    FlatMapPair(t.Transform, "hello, ", "world!");
  }
}
