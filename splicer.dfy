/** The plugin pipeline of example/tools/labeled-stream-splicer.js: a labelled
    list of stages (`split`, `parse`, `format`) that plugins extend or
    rewrite, the `author` stage that splits `Name <email>`, and the
    `formatter` stage that prints one summary line per commit row. */
module Splicer {
  import opened Streams
  import opened Text
  import opened GitLog

  // ---------------------------------------------------------------------
  // The author stage: `author.match(/<(.*)>/)`

  /** `/<(.*)>/` matches with its `<` at `i` and its `>` at `j`: `.` takes
      anything but a line terminator. */
  predicate MatchesAt(s: string, i: int, j: int) {
    && 0 <= i < j < |s|
    && s[i] == '<' && s[j] == '>'
    && forall k :: i < k < j ==> !IsLineTerminator(s[k])
  }

  /** The first line terminator at or after `i`, or the length of `s`. */
  function LineEnd(s: string, i: nat): (e: nat)
    requires i <= |s|
    ensures i <= e <= |s|
    ensures forall k :: i <= k < e ==> !IsLineTerminator(s[k])
    ensures e < |s| ==> IsLineTerminator(s[e])
    decreases |s| - i
  {
    if i == |s| || IsLineTerminator(s[i]) then i else LineEnd(s, i + 1)
  }

  /** The last `c` in `s[lo..hi]`, or -1. */
  function LastIndexIn(s: string, c: char, lo: nat, hi: nat): (j: int)
    requires lo <= hi <= |s|
    ensures j == -1 || (lo <= j < hi && s[j] == c)
    ensures forall k :: j < k < hi && lo <= k ==> s[k] != c
    decreases hi - lo
  {
    if lo == hi then -1
    else if s[hi - 1] == c then hi - 1
    else LastIndexIn(s, c, lo, hi - 1)
  }

  /** A `>` at `j` closes a match opened at `i` exactly when it lies before
      the end of the line `i` is on. */
  lemma MatchesWithinLine(s: string, i: nat, j: int)
    requires i < |s| && s[i] == '<'
    ensures MatchesAt(s, i, j) <==> i < j < LineEnd(s, i + 1) && s[j] == '>'
  {
    var e := LineEnd(s, i + 1);
    if MatchesAt(s, i, j) && e < |s| {
      assert IsLineTerminator(s[e]);
    }
  }

  /** The regular-expression search: the leftmost opening `<`, then the
      longest match from there (`.*` is greedy). */
  function AngleMatch(s: string, from: nat): (m: Option<(nat, nat)>)
    requires from <= |s|
    ensures m.None? ==> forall i, j :: from <= i ==> !MatchesAt(s, i, j)
    ensures m.Some? ==>
      && from <= m.value.0
      && MatchesAt(s, m.value.0, m.value.1)
      && (forall i, j :: from <= i < m.value.0 ==> !MatchesAt(s, i, j))
      && (forall j :: m.value.1 < j ==> !MatchesAt(s, m.value.0, j))
    decreases |s| - from
  {
    if from == |s| then None
    else if s[from] != '<' then
      AngleMatch(s, from + 1)
    else
      var j := LastIndexIn(s, '>', from + 1, LineEnd(s, from + 1));
      assert forall j' :: MatchesAt(s, from, j') <==> from < j' < LineEnd(s, from + 1) && s[j'] == '>' by {
        forall j' ensures MatchesAt(s, from, j') <==> from < j' < LineEnd(s, from + 1) && s[j'] == '>' {
          MatchesWithinLine(s, from, j');
        }
      }
      if j >= 0 then Some((from, j as nat)) else AngleMatch(s, from + 1)
  }

  /** The author stage's new `row.author`: the e-mail between the brackets
      of the match, and the text before the first `<`, trimmed, as the name;
      without a match the whole string is the name and no e-mail is set. */
  function SplitAuthor(author: string): (p: Field)
    ensures p.Person?
    ensures p.email.None? <==> forall i, j :: !MatchesAt(author, i, j)
    ensures p.email.None? ==> p.name == author
    ensures p.email.Some? ==>
      '<' in author && p.name == Trim(author[..IndexOf(author, '<')])
    ensures p.email.Some? ==>
      var m := AngleMatch(author, 0);
      m.Some? && p.email.value == author[m.value.0 + 1..m.value.1]
  {
    match AngleMatch(author, 0)
    case None => Person(author, None)
    case Some((i, j)) => Person(Trim(author[..IndexOf(author, '<')]), Some(author[i + 1..j]))
  }

  /** On a single line with a `>` after the first `<`, the search matches
      from that `<` to the last `>`. */
  lemma OneLineMatch(author: string, i: nat, j: int)
    requires forall k :: 0 <= k < |author| ==> !IsLineTerminator(author[k])
    requires i == IndexOf(author, '<') && j == LastIndexIn(author, '>', 0, |author|)
    requires i < j
    ensures AngleMatch(author, 0) == Some((i, j as nat))
  {
    assert MatchesAt(author, i, j);
    var m := AngleMatch(author, 0);
    var a, b := m.value.0, m.value.1;
    assert a == i;
    assert MatchesAt(author, i, b);
    assert b == j;
  }

  /** On a single line without a `>` after the first `<`, nothing matches. */
  lemma OneLineNoMatch(author: string, i: nat, j: int)
    requires i == IndexOf(author, '<') && j == LastIndexIn(author, '>', 0, |author|)
    requires j <= i
    ensures forall a, b :: !MatchesAt(author, a, b)
  {
    forall a, b ensures !MatchesAt(author, a, b) {
      if 0 <= a < |author| && author[a] == '<' {
        assert a >= i;
      }
    }
  }

  /** On a single line the e-mail is the text between the first `<` and the
      last `>`, and there is a match exactly when a `>` follows the first `<`. */
  lemma AuthorOnOneLine(author: string)
    requires forall k :: 0 <= k < |author| ==> !IsLineTerminator(author[k])
    requires '<' in author
    ensures var i, j := IndexOf(author, '<'), LastIndexIn(author, '>', 0, |author|);
      && (SplitAuthor(author).email.Some? <==> i < j)
      && (i < j ==> SplitAuthor(author) == Person(Trim(author[..i]), Some(author[i + 1..j])))
  {
    var i, j := IndexOf(author, '<'), LastIndexIn(author, '>', 0, |author|);
    if i < j {
      OneLineMatch(author, i, j);
    } else {
      OneLineNoMatch(author, i, j);
    }
  }

  /** The author stage on one row. `author.match` on anything but a string
      throws, which gives `None`. */
  function AuthorStep(row: Row): (r: Option<Row>)
    ensures r.Some? <==> "author" in row && row["author"].Str?
    ensures r.Some? ==>
      && r.value.Keys == row.Keys
      && r.value["author"] == SplitAuthor(row["author"].s)
      && (forall key :: key in row && key != "author" ==> r.value[key] == row[key])
  {
    if "author" in row && row["author"].Str? then
      Some(row["author" := SplitAuthor(row["author"].s)])
    else
      None
  }

  // ---------------------------------------------------------------------
  // The formatter stage

  /** The summary line: the five parts joined with single spaces. */
  function SummaryLine(name: string, commit: string, isoDate: string): (r: string)
    ensures r == name + " has commit " + Prefix(commit, 7) + " at " + Prefix(isoDate, 10)
  {
    var parts := [name, "has commit", Prefix(commit, 7), "at", Prefix(isoDate, 10)];
    assert Join(parts[4..], " ") == Prefix(isoDate, 10);
    assert Join(parts[3..], " ") == "at " + Prefix(isoDate, 10) by {
      assert parts[3..][1..] == parts[4..];
    }
    assert Join(parts[2..], " ") == Prefix(commit, 7) + " at " + Prefix(isoDate, 10) by {
      assert parts[2..][1..] == parts[3..];
    }
    assert Join(parts[1..], " ") == "has commit " + Prefix(commit, 7) + " at " + Prefix(isoDate, 10) by {
      assert parts[1..][1..] == parts[2..];
    }
    Join(parts, " ")
  }

  /** What the formatter pushes for one row, given the ISO form of its date,
      or `None` when `row.date.toISOString()` throws (no date, a date that is
      still a string, or an invalid date): the summary line, then a newline.
      A missing `author`, a row without a `commit` or a date without an ISO
      form throws; an author that is not an object has no `name`, which
      `join` prints as the empty string. */
  function FormatRow(row: Row, isoDate: Option<string>): (r: Option<seq<string>>)
    ensures r.Some? <==> "author" in row && "commit" in row && row["commit"].Str? && isoDate.Some?
    ensures r.Some? ==>
      var name := if row["author"].Person? then row["author"].name else "";
      r.value == [name + " has commit " + Prefix(row["commit"].s, 7) + " at " + Prefix(isoDate.value, 10), "\n"]
  {
    if "author" in row && "commit" in row && row["commit"].Str? && isoDate.Some? then
      var name := if row["author"].Person? then row["author"].name else "";
      Some([SummaryLine(name, row["commit"].s, isoDate.value), "\n"])
    else
      None
  }

  /** After the author stage the summary starts with the author's name. */
  lemma SummaryAfterAuthor(row: Row, isoDate: string)
    requires "author" in row && row["author"].Str?
    requires "commit" in row && row["commit"].Str?
    ensures AuthorStep(row).Some?
    ensures FormatRow(AuthorStep(row).value, Some(isoDate)) ==
      Some([SplitAuthor(row["author"].s).name + " has commit " + Prefix(row["commit"].s, 7)
            + " at " + Prefix(isoDate, 10), "\n"])
  {
  }

  // ---------------------------------------------------------------------
  // The labelled pipeline

  datatype Stage = SplitLines | ParseLog | Stringify | AuthorTransform | DateTransform | SummaryTransform

  /** One of the three plugins the script installs. */
  datatype Plugin = AuthorPlugin | DatePlugin | FormatterPlugin

  /** `list.splice(start, deleteCount, item)` for `start, deleteCount >= 0`. */
  function Splice<T>(s: seq<T>, start: nat, deleteCount: nat, item: T): (r: seq<T>)
    ensures |r| == |s| + 1 - (if start >= |s| then 0 else if deleteCount <= |s| - start then deleteCount else |s| - start)
    ensures start <= |s| ==> r[..start] == s[..start] && r[start] == item
    ensures start <= |s| ==>
      r[start + 1..] == s[(if deleteCount <= |s| - start then start + deleteCount else |s|)..]
    ensures start > |s| ==> r == s + [item]
  {
    var a := if start <= |s| then start else |s|;
    var b := if deleteCount <= |s| - a then a + deleteCount else |s|;
    s[..a] + [item] + s[b..]
  }

  class Pipeline {
    var stages: map<string, seq<Stage>>

    ghost predicate Valid()
      reads this
    {
      "split" in stages && "parse" in stages && "format" in stages
    }

    /** `log()`: the three labelled stages. */
    constructor ()
      ensures Valid()
      ensures stages == map["split" := [SplitLines], "parse" := [ParseLog], "format" := [Stringify]]
    {
      stages := map["split" := [SplitLines], "parse" := [ParseLog], "format" := [Stringify]];
    }

    /** The stages in pipe order. */
    function Chain(): seq<Stage>
      reads this
      requires Valid()
    {
      stages["split"] + stages["parse"] + stages["format"]
    }

    /** `author`: append the author stage to `parse`. */
    method AddAuthor()
      requires Valid()
      modifies this
      ensures Valid()
      ensures stages == old(stages)["parse" := old(stages)["parse"] + [AuthorTransform]]
    {
      stages := stages["parse" := stages["parse"] + [AuthorTransform]];
    }

    /** `date`: append the date stage to `parse`. */
    method AddDate()
      requires Valid()
      modifies this
      ensures Valid()
      ensures stages == old(stages)["parse" := old(stages)["parse"] + [DateTransform]]
    {
      stages := stages["parse" := stages["parse"] + [DateTransform]];
    }

    /** `formatter`: replace the first element of `format`. */
    method AddFormatter()
      requires Valid()
      modifies this
      ensures Valid()
      ensures stages == old(stages)["format" := Splice(old(stages)["format"], 0, 1, SummaryTransform)]
    {
      stages := stages["format" := Splice(stages["format"], 0, 1, SummaryTransform)];
    }

    /** `stream.plugin(fn)`: call `fn` with the pipeline, return the pipeline. */
    method Install(fn: Plugin) returns (self: Pipeline)
      requires Valid()
      modifies this
      ensures self == this && Valid()
      ensures fn == AuthorPlugin ==> stages == old(stages)["parse" := old(stages)["parse"] + [AuthorTransform]]
      ensures fn == DatePlugin ==> stages == old(stages)["parse" := old(stages)["parse"] + [DateTransform]]
      ensures fn == FormatterPlugin ==>
        stages == old(stages)["format" := Splice(old(stages)["format"], 0, 1, SummaryTransform)]
    {
      match fn {
        case AuthorPlugin => AddAuthor();
        case DatePlugin => AddDate();
        case FormatterPlugin => AddFormatter();
      }
      self := this;
    }
  }

  /** `log().plugin(author).plugin(date).plugin(formatter)`: author runs
      before date, and the summary stage takes the place of the JSON one. */
  method Demo() returns (chain: seq<Stage>)
    ensures chain == [SplitLines, ParseLog, AuthorTransform, DateTransform, SummaryTransform]
  {
    var p := new Pipeline();
    var q := p.Install(AuthorPlugin);
    q := q.Install(DatePlugin);
    q := q.Install(FormatterPlugin);
    assert q.stages["format"] == [SummaryTransform];
    chain := q.Chain();
  }
}
