/** The line parser of example/parseUA.js: a transform that counts the lines it
    has seen and those naming Internet Explorer 6 or 7, and after each line
    reports both counts and the share of the second in whole percent. The
    terminal formatting of the report is not modelled; the report keeps the
    three numbers it prints. */
module UserAgent {

  /** `/MSIE [67]\.0/` matches at position `i`. */
  predicate IsIE67At(s: string, i: int) {
    && 0 <= i && i + 8 <= |s|
    && s[i..i + 5] == "MSIE "
    && (s[i + 5] == '6' || s[i + 5] == '7')
    && s[i + 6] == '.' && s[i + 7] == '0'
  }

  /** Whether the pattern matches at `from` or later. */
  function MatchFrom(s: string, from: nat): (b: bool)
    ensures b <==> exists i :: from <= i && IsIE67At(s, i)
    decreases |s| - from
  {
    if from + 8 > |s| then false
    else IsIE67At(s, from) || MatchFrom(s, from + 1)
  }

  /** `/MSIE [67]\.0/.test(line)`. */
  function MentionsIE67(line: string): (b: bool)
    ensures b <==> exists i :: IsIE67At(line, i)
  {
    MatchFrom(line, 0)
  }

  /** The number of lines that mention IE 6 or 7. */
  function CountIE67(lines: seq<string>): (n: nat)
    ensures n <= |lines|
  {
    if lines == [] then 0
    else CountIE67(lines[..|lines| - 1]) + (if MentionsIE67(lines[|lines| - 1]) then 1 else 0)
  }

  /** Counting a batch after another adds the two counts. */
  lemma {:induction false} CountIE67Append(a: seq<string>, b: seq<string>)
    ensures CountIE67(a + b) == CountIE67(a) + CountIE67(b)
    decreases |b|
  {
    if b == [] {
      assert a + b == a;
    } else {
      var b' := b[..|b| - 1];
      assert (a + b)[..|a + b| - 1] == a + b';
      assert (a + b)[|a + b| - 1] == b[|b| - 1];
      CountIE67Append(a, b');
    }
  }

  /** When every line mentions IE 6 or 7 the count is the number of lines,
      and when none does it is zero. */
  lemma {:induction false} CountIE67Extremes(lines: seq<string>)
    ensures (forall k :: 0 <= k < |lines| ==> MentionsIE67(lines[k])) ==> CountIE67(lines) == |lines|
    ensures (forall k :: 0 <= k < |lines| ==> !MentionsIE67(lines[k])) ==> CountIE67(lines) == 0
    decreases |lines|
  {
    if lines != [] {
      var init := lines[..|lines| - 1];
      assert forall k :: 0 <= k < |init| ==> init[k] == lines[k];
      CountIE67Extremes(init);
    }
  }

  /** `q / t` is the floor of the quotient. */
  lemma DivBounds(q: nat, t: nat)
    requires t >= 1
    ensures (q / t) * t <= q < (q / t + 1) * t
  {
    var p, m := q / t, q % t;
    assert q == p * t + m;
    assert (p + 1) * t == p * t + t;
  }

  /** Multiplying by a natural number keeps `<=`. */
  lemma MulMono(a: nat, b: nat, t: nat)
    requires a <= b
    ensures a * t <= b * t
  {
    assert b * t == a * t + (b - a) * t;
  }

  /** A positive factor can be cancelled from `<=` and `<`. */
  lemma MulCancel(a: nat, b: nat, t: nat)
    requires t >= 1
    ensures a * t <= b * t ==> a <= b
    ensures a * t < b * t ==> a < b
  {
    if b < a {
      MulMono(b + 1, a, t);
      assert b * t + t <= a * t;
    } else {
      MulMono(a, b, t);
    }
  }

  /** `Math.floor(ie67 * 100 / total)` with `total >= 1`. */
  function Percent(ie67: nat, total: nat): (p: nat)
    requires total >= 1
    ensures p * total <= ie67 * 100 < (p + 1) * total
    ensures ie67 <= total ==> p <= 100
    ensures ie67 == total ==> p == 100
  {
    var p := ie67 * 100 / total;
    DivBounds(ie67 * 100, total);
    assert ie67 <= total ==> p <= 100 by {
      if ie67 <= total {
        MulMono(ie67, total, 100);
        MulCancel(p, 100, total);
      }
    }
    assert ie67 == total ==> p == 100 by {
      if ie67 == total {
        MulCancel(p, 100, total);
        MulCancel(100, p + 1, total);
      }
    }
    p
  }

  /** The three numbers `format()` prints. */
  datatype Report = Report(total: nat, ie67: nat, percent: nat)

  /** The report after the lines `lines`, the last of them included. */
  function ReportAfter(lines: seq<string>): (r: Report)
    requires lines != []
    ensures r.total == |lines| && r.ie67 <= r.total && r.percent <= 100
  {
    Report(|lines|, CountIE67(lines), Percent(CountIE67(lines), |lines|))
  }

  /** The transform with its two closure counters. */
  class Parser {
    var ie67: nat
    var total: nat
    ghost var seen: seq<string>

    ghost predicate Valid()
      reads this
    {
      total == |seen| && ie67 == CountIE67(seen)
    }

    /** `createParser()`. */
    constructor ()
      ensures Valid() && seen == []
    {
      ie67, total, seen := 0, 0, [];
    }

    /** The transform hook: count the line, then pass on `format()`. */
    method Transform(line: string) returns (out: Report)
      requires Valid()
      modifies this
      ensures Valid() && seen == old(seen) + [line]
      ensures total == old(total) + 1
      ensures ie67 == old(ie67) + (if MentionsIE67(line) then 1 else 0)
      ensures out == ReportAfter(seen)
    {
      total := total + 1;
      seen := seen + [line];
      if MatchFrom(line, 0) {
        ie67 := ie67 + 1;
      }
      assert seen[..|seen| - 1] == old(seen);
      out := Report(total, ie67, Percent(ie67, total));
    }
  }

  /** Piping `lines` through a fresh parser: one report per line, the k-th
      counting the first k + 1 lines. */
  method ParseAll(lines: seq<string>) returns (reports: seq<Report>)
    ensures |reports| == |lines|
    ensures forall k :: 0 <= k < |lines| ==> reports[k] == ReportAfter(lines[..k + 1])
  {
    var p := new Parser();
    reports := [];
    var i := 0;
    while i < |lines|
      invariant 0 <= i <= |lines|
      invariant p.Valid() && p.seen == lines[..i]
      invariant |reports| == i
      invariant forall k :: 0 <= k < i ==> reports[k] == ReportAfter(lines[..k + 1])
    {
      var r := p.Transform(lines[i]);
      assert lines[..i] + [lines[i]] == lines[..i + 1];
      reports := reports + [r];
      i := i + 1;
    }
  }
}
