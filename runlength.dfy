/** The run-length parser of example/tools/duplexer2.js. Its writable side
    takes 0/1 codes one at a time and emits a `code` event with (code, count)
    for every completed run of equal codes; the formatter turns each run into a
    bar of `=` or `-`. The object-mode source that feeds it is pushed by the
    `push(code, n)` helper. */
module RunLength {
  import opened Streams

  /** One `code` event: `count` consecutive inputs equal to `code`. */
  datatype Run = Run(code: int, count: nat)

  /** `buf > 0 ? 1 : 0`. */
  function Normalize(x: int): (b: int)
    ensures b == 0 || b == 1
    ensures b == 1 <==> x > 0
  {
    if x > 0 then 1 else 0
  }

  function NormalizeAll(xs: seq<int>): (r: seq<int>)
    ensures |r| == |xs|
    ensures forall k :: 0 <= k < |xs| ==> r[k] == Normalize(xs[k])
  {
    if xs == [] then [] else [Normalize(xs[0])] + NormalizeAll(xs[1..])
  }

  /** The inputs a list of runs stands for. */
  function Expand(runs: seq<Run>): seq<int> {
    if runs == [] then [] else Repeat(runs[0].code, runs[0].count) + Expand(runs[1..])
  }

  /** Every count is at least 1 and neighbouring runs have different codes. */
  predicate WellFormed(runs: seq<Run>) {
    && (forall k :: 0 <= k < |runs| ==> runs[k].count >= 1)
    && (forall k :: 0 <= k < |runs| - 1 ==> runs[k].code != runs[k + 1].code)
  }

  lemma {:induction false} ExpandAppend(a: seq<Run>, b: seq<Run>)
    ensures Expand(a + b) == Expand(a) + Expand(b)
  {
    if a == [] {
      assert a + b == b;
    } else {
      assert (a + b)[0] == a[0] && (a + b)[1..] == a[1..] + b;
      ExpandAppend(a[1..], b);
      calc {
        Expand(a + b);
        Repeat(a[0].code, a[0].count) + Expand(a[1..] + b);
        Repeat(a[0].code, a[0].count) + (Expand(a[1..]) + Expand(b));
        Expand(a) + Expand(b);
      }
    }
  }

  /** Appending a run whose code differs from the last one keeps runs well formed. */
  lemma WellFormedSnoc(rs: seq<Run>, r: Run)
    requires WellFormed(rs) && r.count >= 1
    requires rs != [] ==> rs[|rs| - 1].code != r.code
    ensures WellFormed(rs + [r])
  {
    var t := rs + [r];
    forall k | 0 <= k < |t| - 1 ensures t[k].code != t[k + 1].code {
      if k + 1 < |rs| { assert t[k] == rs[k] && t[k + 1] == rs[k + 1]; }
    }
  }

  /** Dropping the last run keeps runs well formed. */
  lemma WellFormedInit(rs: seq<Run>, r: Run)
    requires WellFormed(rs + [r])
    ensures WellFormed(rs) && r.count >= 1
    ensures rs != [] ==> rs[|rs| - 1].code != r.code
  {
    var t := rs + [r];
    assert t[|rs|] == r;
    forall k | 0 <= k < |rs| - 1 ensures rs[k].code != rs[k + 1].code {
      assert t[k] == rs[k] && t[k + 1] == rs[k + 1];
    }
    forall k | 0 <= k < |rs| ensures rs[k].count >= 1 {
      assert t[k] == rs[k];
    }
    if rs != [] { assert t[|rs| - 1] == rs[|rs| - 1]; }
  }

  /** Putting a code in front of runs that start with the same code
      lengthens the first run. */
  lemma ConsMerge(x: int, rest: seq<Run>)
    requires WellFormed(rest) && rest != [] && rest[0].code == x
    ensures var r := [Run(x, rest[0].count + 1)] + rest[1..];
      WellFormed(r) && Expand(r) == [x] + Expand(rest) && r[0].code == x
  {
    var r := [Run(x, rest[0].count + 1)] + rest[1..];
    assert Repeat(x, rest[0].count + 1) == [x] + Repeat(x, rest[0].count);
    assert r[1..] == rest[1..];
    forall k | 0 <= k < |r| - 1 ensures r[k].code != r[k + 1].code {
      assert r[k + 1] == rest[k + 1];
      if k > 0 { assert r[k] == rest[k]; }
    }
    forall k | 0 <= k < |r| ensures r[k].count >= 1 {
      if k > 0 { assert r[k] == rest[k]; }
    }
  }

  /** Putting a code in front of runs that start with another code (or of no
      runs at all) opens a run of 1. */
  lemma ConsSwitch(x: int, rest: seq<Run>)
    requires WellFormed(rest) && (rest == [] || rest[0].code != x)
    ensures var r := [Run(x, 1)] + rest;
      WellFormed(r) && Expand(r) == [x] + Expand(rest) && r[0].code == x
  {
    var r := [Run(x, 1)] + rest;
    assert r[1..] == rest;
    assert Repeat(x, 1) == [x];
    forall k | 0 <= k < |r| - 1 ensures r[k].code != r[k + 1].code {
      assert r[k + 1] == rest[k];
      if k > 0 { assert r[k] == rest[k - 1]; }
    }
    forall k | 0 <= k < |r| ensures r[k].count >= 1 {
      if k > 0 { assert r[k] == rest[k - 1]; }
    }
  }

  /** A reference encoder: the runs of `xs`, built from the front. */
  function Encode(xs: seq<int>): (r: seq<Run>)
    ensures WellFormed(r)
    ensures Expand(r) == xs
    ensures xs != [] ==> r != [] && r[0].code == xs[0]
  {
    if xs == [] then []
    else
      var rest := Encode(xs[1..]);
      assert xs == [xs[0]] + xs[1..];
      if rest != [] && rest[0].code == xs[0] then
        ConsMerge(xs[0], rest);
        [Run(xs[0], rest[0].count + 1)] + rest[1..]
      else
        ConsSwitch(xs[0], rest);
        [Run(xs[0], 1)] + rest
  }

  lemma ExpandEmpty(a: seq<Run>)
    requires WellFormed(a)
    ensures Expand(a) == [] <==> a == []
  {
    if a != [] {
      assert |Expand(a)| >= a[0].count;
    }
  }

  /** Well-formed runs are determined by the inputs they stand for. */
  lemma {:induction false} Unique(a: seq<Run>, b: seq<Run>)
    requires WellFormed(a) && WellFormed(b)
    requires Expand(a) == Expand(b)
    ensures a == b
    decreases |a|
  {
    ExpandEmpty(a);
    ExpandEmpty(b);
    if a != [] && b != [] {
      var x, y := a[0], b[0];
      assert Expand(a) == Repeat(x.code, x.count) + Expand(a[1..]);
      assert Expand(b) == Repeat(y.code, y.count) + Expand(b[1..]);
      assert Expand(a)[0] == x.code && Expand(b)[0] == y.code;
      if x.count < y.count {
        SameCountsContradiction(a, b);
      } else if y.count < x.count {
        SameCountsContradiction(b, a);
      }
      assert Expand(a[1..]) == Expand(a)[x.count..] == Expand(b)[y.count..] == Expand(b[1..]);
      Unique(a[1..], b[1..]);
    }
  }

  /** The reference encoder gives the only well-formed runs of `xs`. */
  lemma EncodeIsOnly(runs: seq<Run>, xs: seq<int>)
    requires WellFormed(runs) && Expand(runs) == xs
    ensures Encode(xs) == runs
  {
    Unique(runs, Encode(xs));
  }

  /** A shorter first run cannot stand for the same inputs as a longer one. */
  lemma SameCountsContradiction(a: seq<Run>, b: seq<Run>)
    requires WellFormed(a) && WellFormed(b)
    requires a != [] && b != [] && a[0].code == b[0].code
    requires a[0].count < b[0].count
    ensures Expand(a) != Expand(b)
  {
    var n := a[0].count;
    assert Expand(a) == Repeat(a[0].code, n) + Expand(a[1..]);
    assert Expand(b) == Repeat(b[0].code, b[0].count) + Expand(b[1..]);
    assert Expand(b)[n] == b[0].code;
    if |a| == 1 {
      assert |Expand(a)| == n;
    } else {
      assert Expand(a[1..]) == Repeat(a[1].code, a[1].count) + Expand(a[2..]);
      assert Expand(a)[n] == a[1].code != a[0].code;
    }
  }

  /** The formatter: `(code ? '=' : '-').repeat(n) + '\n'`. */
  function Bar(r: Run): (s: string)
    ensures |s| == r.count + 1 && s[r.count] == '\n'
    ensures forall k :: 0 <= k < r.count ==> s[k] == if r.code != 0 then '=' else '-'
  {
    Repeat(if r.code != 0 then '=' else '-', r.count) + "\n"
  }

  /** The emitted runs followed by the pending run (code, count) are the runs
      of `xs`. */
  predicate Pending(runs: seq<Run>, code: int, count: int, xs: seq<int>) {
    && (code == 0 || code == 1) && count >= 1
    && WellFormed(runs + [Run(code, count)])
    && Expand(runs + [Run(code, count)]) == xs
  }

  /** A different code completes the pending run and opens a new one. */
  lemma {:induction false} PendingSwitch(runs: seq<Run>, code: int, count: int, xs: seq<int>, b: int)
    requires Pending(runs, code, count, xs)
    requires (b == 0 || b == 1) && b != code
    ensures Pending(runs + [Run(code, count)], b, 1, xs + [b])
  {
    WellFormedSnoc(runs + [Run(code, count)], Run(b, 1));
    ExpandAppend(runs + [Run(code, count)], [Run(b, 1)]);
    assert Expand([Run(b, 1)]) == [b];
  }

  /** An equal code lengthens the pending run. */
  lemma {:induction false} PendingExtend(runs: seq<Run>, code: int, count: int, xs: seq<int>)
    requires Pending(runs, code, count, xs)
    ensures Pending(runs, code, count + 1, xs + [code])
  {
    WellFormedInit(runs, Run(code, count));
    WellFormedSnoc(runs, Run(code, count + 1));
    ExpandAppend(runs, [Run(code, count)]);
    ExpandAppend(runs, [Run(code, count + 1)]);
    assert Repeat(code, count + 1) == Repeat(code, count) + [code];
    assert Expand([Run(code, count + 1)]) == Expand([Run(code, count)]) + [code];
  }

  lemma NormalizeAllSnoc(xs: seq<int>, x: int)
    ensures NormalizeAll(xs + [x]) == NormalizeAll(xs) + [Normalize(x)]
  {
    assert forall k :: 0 <= k < |xs| ==> (xs + [x])[k] == xs[k];
  }

  /** The run-length writable side and the `code` events it has emitted. */
  class RunParser {
    var count: int
    var code: int
    var runs: seq<Run>
    var finished: bool
    ghost var inputs: seq<int>

    /** With no input, both counters hold -1; afterwards the pending run
        (code, count) completes the emitted runs to the runs of the
        normalised input. After `finish` the emitted runs are all of them. */
    ghost predicate Valid()
      reads this
    {
      if finished then
        WellFormed(runs) && Expand(runs) == NormalizeAll(inputs)
      else if inputs == [] then
        code == -1 && count == -1 && runs == []
      else
        Pending(runs, code, count, NormalizeAll(inputs))
    }

    constructor ()
      ensures Valid() && !finished && inputs == [] && runs == []
    {
      count, code, runs, finished, inputs := -1, -1, [], false, [];
    }

    /** The write hook for one input. */
    method Write(buf: int)
      requires Valid() && !finished
      modifies this
      ensures Valid() && !finished && inputs == old(inputs) + [buf]
      ensures old(code) == -1 ==> code == Normalize(buf) && count == 1 && runs == old(runs)
      ensures old(code) != -1 && Normalize(buf) != old(code) ==>
        runs == old(runs) + [Run(old(code), old(count))] && code == Normalize(buf) && count == 1
      ensures old(code) != -1 && Normalize(buf) == old(code) ==>
        runs == old(runs) && code == old(code) && count == old(count) + 1
    {
      var b := if buf > 0 then 1 else 0;
      NormalizeAllSnoc(inputs, buf);
      ghost var xs := NormalizeAll(inputs);
      inputs := inputs + [buf];
      if code == -1 {
        assert Expand([Run(b, 1)]) == [b];
        code, count := b, 1;
        return;
      }
      if b != code {
        PendingSwitch(runs, code, count, xs, b);
        runs := runs + [Run(code, count)];
        count, code := 1, b;
        return;
      }
      PendingExtend(runs, code, count, xs);
      count := count + 1;
    }

    /** The `finish` handler: emit the last run when some input arrived. */
    method Finish()
      requires Valid() && !finished
      modifies this
      ensures Valid() && finished && inputs == old(inputs)
      ensures old(count) > 0 <==> inputs != []
      ensures runs == old(runs) + (if old(count) > 0 then [Run(old(code), old(count))] else [])
      ensures runs == Encode(NormalizeAll(inputs))
    {
      if count > 0 {
        runs := runs + [Run(code, count)];
      }
      finished := true;
      EncodeIsOnly(runs, NormalizeAll(inputs));
    }
  }

  /** Writing `xs` to a fresh parser and finishing it emits the runs of the
      normalised inputs, and none at all for an empty input. */
  method ParseRuns(xs: seq<int>) returns (runs: seq<Run>)
    ensures runs == Encode(NormalizeAll(xs))
    ensures WellFormed(runs) && Expand(runs) == NormalizeAll(xs)
    ensures runs == [] <==> xs == []
  {
    var p := new RunParser();
    var i := 0;
    while i < |xs|
      invariant 0 <= i <= |xs|
      invariant p.Valid() && !p.finished && p.inputs == xs[..i]
    {
      p.Write(xs[i]);
      assert xs[..i] + [xs[i]] == xs[..i + 1];
      i := i + 1;
    }
    assert xs[..i] == xs;
    p.Finish();
    runs := p.runs;
    ExpandEmpty(runs);
  }

  /** The object-mode source of the demo and the `push(code, n)` helper. */
  class Source {
    var pushed: seq<Emit<int>>

    constructor ()
      ensures pushed == []
    {
      pushed := [];
    }

    /** `push(null)` ends the source; `push(code, n)` pushes `code` n times. */
    method Push(code: Option<int>, n: nat)
      modifies this
      ensures pushed == old(pushed) + if code.None? then [End] else Repeat(Data(code.value), n)
    {
      if code.None? {
        pushed := pushed + [End];
      } else {
        var i := n;
        while i != 0
          invariant 0 <= i <= n
          invariant pushed == old(pushed) + Repeat(Data(code.value), n - i)
        {
          pushed := pushed + [Data(code.value)];
          i := i - 1;
        }
      }
    }
  }

  /** One call of the helper: `push(null)` when the code is absent,
      `push(code, n)` otherwise. */
  datatype PushCall = PushCall(code: Option<int>, n: nat)

  /** What one call pushes onto the source. */
  function Pushes(c: PushCall): seq<Emit<int>> {
    if c.code.None? then [End] else Repeat(Data(c.code.value), c.n)
  }

  /** Making `calls` on a fresh source pushes what each call pushes, in
      call order. */
  method PushAll(calls: seq<PushCall>) returns (pushed: seq<Emit<int>>)
    ensures pushed == FlatMap(Pushes, calls)
  {
    var s := new Source();
    var i := 0;
    while i < |calls|
      invariant 0 <= i <= |calls|
      invariant s.pushed == FlatMap(Pushes, calls[..i])
    {
      s.Push(calls[i].code, calls[i].n);
      FlatMapAppend(Pushes, calls[..i], [calls[i]]);
      assert [calls[i]][1..] == [];
      assert calls[..i] + [calls[i]] == calls[..i + 1];
      i := i + 1;
    }
    assert calls[..i] == calls;
    pushed := s.pushed;
  }

  /** The demo's calls `push(0, 0)` through `push(null)`. */
  const DemoCalls: seq<PushCall> := [PushCall(Some(0), 0), PushCall(Some(0), 2),
    PushCall(Some(1), 3), PushCall(Some(1), 3), PushCall(Some(0), 2), PushCall(Some(0), 2),
    PushCall(None, 0)]

  /** The inputs the demo pushes: two 0s, six 1s, four 0s. */
  const DemoCodes: seq<int> := Repeat(0, 2) + Repeat(1, 6) + Repeat(0, 4)

  /** Wrapping `n` copies of a code wraps each copy. */
  lemma AsDataRepeat(x: int, n: nat)
    ensures AsData(Repeat(x, n)) == Repeat(Data(x), n)
  {
  }

  /** The last three calls push four 0s and the end. */
  lemma DemoPushesLast(c: seq<PushCall>)
    requires c == DemoCalls[4..]
    ensures FlatMap(Pushes, c) == Repeat(Data(0), 4) + [End]
  {
    assert Pushes(c[0]) == Repeat(Data(0), 2) == Pushes(c[1]);
    assert c[1..][1..] == c[2..] && c[2..][1..] == [];
    assert FlatMap(Pushes, c[2..]) == [End];
    assert Repeat(Data(0), 2) + Repeat(Data(0), 2) == Repeat(Data(0), 4);
  }

  /** The two `push(1, 3)` calls push six 1s. */
  lemma DemoPushesMiddle(c: seq<PushCall>)
    requires c == DemoCalls[2..]
    ensures FlatMap(Pushes, c) == Repeat(Data(1), 6) + FlatMap(Pushes, c[2..])
  {
    assert Pushes(c[0]) == Repeat(Data(1), 3) == Pushes(c[1]);
    assert c[1..][1..] == c[2..];
    assert Repeat(Data(1), 3) + Repeat(Data(1), 3) == Repeat(Data(1), 6);
  }

  /** The demo's calls push its inputs and then the end; `push(0, 0)` pushes
      nothing. */
  lemma DemoPushes()
    ensures FlatMap(Pushes, DemoCalls) == AsData(DemoCodes) + [End]
  {
    var c := DemoCalls;
    assert Pushes(c[0]) == [] && Pushes(c[1]) == Repeat(Data(0), 2);
    assert c[1..][1..] == c[2..] && c[2..][2..] == c[4..];
    DemoPushesLast(c[4..]);
    DemoPushesMiddle(c[2..]);
    AsDataAppend(Repeat(0, 2) + Repeat(1, 6), Repeat(0, 4));
    AsDataAppend(Repeat(0, 2), Repeat(1, 6));
    AsDataRepeat(0, 2);
    AsDataRepeat(1, 6);
    AsDataRepeat(0, 4);
  }

  /** The demo's source pushes its inputs, then the end. */
  method DemoSource() returns (pushed: seq<Emit<int>>)
    ensures pushed == AsData(DemoCodes) + [End]
  {
    pushed := PushAll(DemoCalls);
    DemoPushes();
  }

  /** The demo's inputs are already 0 or 1. */
  lemma DemoNormalized(xs: seq<int>)
    requires xs == DemoCodes
    ensures NormalizeAll(xs) == xs
  {
    assert forall k :: 0 <= k < |xs| ==> xs[k] == 0 || xs[k] == 1;
  }

  /** The runs (0,2), (1,6), (0,4) stand for the demo's inputs. */
  lemma DemoExpand(xs: seq<int>)
    requires xs == DemoCodes
    ensures Expand([Run(0, 2), Run(1, 6), Run(0, 4)]) == xs
  {
    var runs := [Run(0, 2), Run(1, 6), Run(0, 4)];
    assert Expand(runs[2..]) == Repeat(0, 4) by {
      assert runs[2..][1..] == [];
    }
    assert Expand(runs[1..]) == Repeat(1, 6) + Repeat(0, 4) by {
      assert runs[1..][1..] == runs[2..];
    }
    assert Expand(runs) == Repeat(0, 2) + (Repeat(1, 6) + Repeat(0, 4));
  }

  /** So the demo's runs are (0,2), (1,6), (0,4). */
  lemma DemoRuns(xs: seq<int>)
    requires xs == DemoCodes
    ensures Encode(NormalizeAll(xs)) == [Run(0, 2), Run(1, 6), Run(0, 4)]
  {
    DemoNormalized(xs);
    DemoExpand(xs);
    EncodeIsOnly([Run(0, 2), Run(1, 6), Run(0, 4)], xs);
  }

  /** The formatter prints those runs as three bars. */
  lemma DemoBars()
    ensures FlatMap((r: Run) => [Bar(r)], [Run(0, 2), Run(1, 6), Run(0, 4)])
         == ["--\n", "======\n", "----\n"]
  {
    assert Bar(Run(0, 2)) == "--\n";
    assert Bar(Run(1, 6)) == "======\n";
    assert Bar(Run(0, 4)) == "----\n";
  }

  /** The demo's writes give the runs (0,2), (1,6), (0,4). */
  method DemoParse() returns (runs: seq<Run>)
    ensures runs == [Run(0, 2), Run(1, 6), Run(0, 4)]
  {
    runs := ParseRuns(DemoCodes);
    DemoRuns(DemoCodes);
  }
}
