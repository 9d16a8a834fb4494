/** The git-log parser of example/tools/parse.js: a writable side that
    classifies each line of `git log` as a header (`Author: ...`) or a message
    line, and handlers that group the classified lines into one row object per
    commit, pushed to an object-mode readable side. */
module GitLog {
  import opened Streams
  import opened Text

  /** A property value of a row object: a string, the array of message lines,
      or the `{ name, email }` object the author plugin puts in its place. */
  datatype Field = Str(s: string) | Lines(lines: seq<string>) | Person(name: string, email: Option<string>)

  /** A row object, as its own enumerable properties. */
  type Row = map<string, Field>

  /** What the write hook emits for one line. */
  datatype Line = Header(name: string, value: string) | Message(text: string)

  /** JavaScript truthiness of a property value. */
  predicate Truthy(f: Field) {
    !(f.Str? && f.s == "")
  }

  /** The commit header, whatever its case in the input (`Commit`, `commit`). */
  predicate IsCommit(line: string) {
    var p := Classify(line);
    p.Header? && p.name == "commit"
  }

  /** The length of the run of word characters opening `s`, which is what
      `(\w+)` in `/^(\w+):?/` captures. */
  function WordRun(s: string): (n: nat)
    ensures n <= |s|
    ensures forall k :: 0 <= k < n ==> IsWordChar(s[k])
    ensures n < |s| ==> !IsWordChar(s[n])
  {
    if s == [] || !IsWordChar(s[0]) then 0 else 1 + WordRun(s[1..])
  }

  /** The write hook's classification of one line. */
  function Classify(line: string): (p: Line)
    ensures p.Header? <==> line != [] && IsWordChar(line[0])
    ensures p.Message? ==> p.text == line
    ensures p.Header? ==>
      && 0 < |p.name| <= |line|
      && (forall k :: 0 <= k < |p.name| ==>
            IsWordChar(line[k]) && !IsUpper(p.name[k]) && p.name[k] == LowerChar(line[k]))
      && (|p.name| < |line| ==> !IsWordChar(line[|p.name|]))
    ensures p.Header? ==> var rest := Drop(line, |p.name| + 1);
      && TrimmedAt(rest, p.value, LeadingSpaces(rest))
      && (p.value != [] ==> !IsSpace(p.value[0]) && !IsSpace(p.value[|p.value| - 1]))
  {
    var n := WordRun(line);
    if n == 0 then Message(line)
    else
      var name := LowerText(line[..n]);
      assert |name| == n;
      Header(name, Trim(Drop(line, n + 1)))
  }

  /** The message lines a row holds so far. */
  function MsgLines(row: Row): seq<string> {
    if "msg" in row && row["msg"].Lines? then row["msg"].lines else []
  }

  /** The `message` handler. `row = row || {}` creates the row, and
      `row.msg = row.msg || []` the list, when absent. A header named `msg`
      can have left a non-empty string there, and `push` on a string throws:
      that case gives `None`. */
  function OnMessage(row: Option<Row>, msg: string): (r: Option<Row>)
    ensures var base := row.GetOr(map[]);
      r.None? <==> "msg" in base && Truthy(base["msg"]) && !base["msg"].Lines?
    ensures r.Some? ==>
      var base := row.GetOr(map[]);
      && r.value.Keys == base.Keys + {"msg"}
      && r.value["msg"] == Lines(MsgLines(base) + [msg])
      && (forall key :: key in base && key != "msg" ==> r.value[key] == base[key])
  {
    var base := row.GetOr(map[]);
    if "msg" in base && Truthy(base["msg"]) then
      match base["msg"]
      case Lines(l) => Some(base["msg" := Lines(l + [msg])])
      case _ => None
    else
      Some(base["msg" := Lines([msg])])
  }

  /** The new current row and the rows pushed by one handler call. */
  datatype Step = Step(row: Option<Row>, emitted: seq<Row>)

  /** The `header` handler. A commit header pushes the current row, if any,
      and opens a fresh one; any header then sets `row[name] = value` when a
      row exists. Assigning a string to `__proto__` changes nothing. */
  function OnHeader(row: Option<Row>, name: string, value: string): (r: Step)
    ensures name == "commit" ==>
      r.row == Some(map["commit" := Str(value)]) &&
      r.emitted == (if row.Some? then [row.value] else [])
    ensures name != "commit" ==> r.emitted == []
    ensures name != "commit" && row.None? ==> r.row == None
    ensures name == "__proto__" ==> r == Step(row, [])
    ensures name != "commit" && row.Some? && name != "__proto__" ==>
      && r.row.Some?
      && r.row.value.Keys == row.value.Keys + {name}
      && r.row.value[name] == Str(value)
      && (forall key :: key in row.value && key != name ==> r.row.value[key] == row.value[key])
  {
    if name == "commit" then
      Step(Some(map[][name := Str(value)]), if row.Some? then [row.value] else [])
    else if row.Some? && name != "__proto__" then
      Step(Some(row.value[name := Str(value)]), [])
    else
      Step(row, [])
  }

  /** The handler for one emitted event; `None` when it throws. */
  function Handle(row: Option<Row>, ev: Line): (r: Option<Step>)
    ensures r.None? <==>
      && ev.Message?
      && row.Some? && "msg" in row.value && Truthy(row.value["msg"]) && !row.value["msg"].Lines?
    ensures ev.Header? ==> r == Some(OnHeader(row, ev.name, ev.value))
    ensures ev.Message? && r.Some? ==> r.value.emitted == [] && r.value.row == OnMessage(row, ev.text)
  {
    match ev
    case Header(name, value) => Some(OnHeader(row, name, value))
    case Message(text) =>
      match OnMessage(row, text)
      case None => None
      case Some(r) => Some(Step(Some(r), []))
  }

  /** One line through the write hook and its handlers; `None` when the
      handler throws, in which case `next()` is never reached. */
  function Feed(row: Option<Row>, line: string): (r: Option<Step>)
    ensures r.None? <==>
      && !(line != [] && IsWordChar(line[0]))
      && row.Some? && "msg" in row.value && Truthy(row.value["msg"]) && !row.value["msg"].Lines?
  {
    Handle(row, Classify(line))
  }

  /** The events the write hook emits for `lines`, one per line. */
  function Events(lines: seq<string>): (evs: seq<Line>)
    ensures |evs| == |lines|
  {
    if lines == [] then [] else [Classify(lines[0])] + Events(lines[1..])
  }

  /** The k-th event is the k-th line's classification. */
  lemma {:induction false} EventsAt(lines: seq<string>, k: nat)
    requires k < |lines|
    ensures Events(lines)[k] == Classify(lines[k])
    decreases k
  {
    if k > 0 {
      EventsAt(lines[1..], k - 1);
    }
  }

  lemma EventsTail(lines: seq<string>)
    requires lines != []
    ensures Events(lines)[0] == Classify(lines[0]) && Events(lines)[1..] == Events(lines[1..])
  {
  }

  /** What the `finish` handler pushes: the last row, if any, then the end. */
  function FinishOut(row: Option<Row>): (r: seq<Emit<Row>>)
    ensures |r| >= 1 && r[|r| - 1] == End
    ensures row.Some? <==> |r| == 2
    ensures row.Some? ==> r[0] == Data(row.value)
    ensures row.None? ==> r == [End]
  {
    (if row.Some? then [Data(row.value)] else []) + [End]
  }

  // ---------------------------------------------------------------------
  // Whole inputs

  /** The parser state between lines: the current row and the rows pushed. */
  datatype Log = Log(row: Option<Row>, rows: seq<Row>)

  /** Every row the stream will have pushed once `finish` runs. */
  function AllRows(st: Log): seq<Row> {
    st.rows + (if st.row.Some? then [st.row.value] else [])
  }

  /** Feeding `xs` in order through a step `f`; `None` as soon as one of
      them fails. */
  function FeedAllBy<L>(f: (Option<Row>, L) -> Option<Step>, st: Log, xs: seq<L>): Option<Log>
    decreases |xs|
  {
    if xs == [] then Some(st)
    else match f(st.row, xs[0])
      case None => None
      case Some(step) => FeedAllBy(f, Log(step.row, st.rows + step.emitted), xs[1..])
  }

  /** Feeding `lines` in order through the write hook and its handlers;
      `None` as soon as one line makes a handler throw. */
  function FeedAll(st: Log, lines: seq<string>): Option<Log> {
    FeedAllBy(Handle, st, Events(lines))
  }

  /** Feeding a non-empty input is one `Feed` step and then the rest. */
  lemma FeedAllCons(st: Log, lines: seq<string>)
    requires lines != []
    ensures FeedAll(st, lines) ==
      match Feed(st.row, lines[0])
      case None => None
      case Some(step) => FeedAll(Log(step.row, st.rows + step.emitted), lines[1..])
  {
    EventsTail(lines);
  }

  function CommitCount(lines: seq<string>): nat {
    if lines == [] then 0 else (if IsCommit(lines[0]) then 1 else 0) + CommitCount(lines[1..])
  }

  /** Some message line comes before the first commit header. */
  predicate MessageBeforeCommit(lines: seq<string>) {
    if lines == [] then false
    else if IsCommit(lines[0]) then false
    else Classify(lines[0]).Message? || MessageBeforeCommit(lines[1..])
  }

  /** Each commit header accounts for one row, and a row opened by message
      lines before the first commit accounts for one more. */
  lemma {:induction false} RowCount(st: Log, lines: seq<string>)
    requires FeedAll(st, lines).Some?
    ensures |AllRows(FeedAll(st, lines).value)| ==
            |AllRows(st)| + CommitCount(lines) +
            (if st.row.None? && MessageBeforeCommit(lines) then 1 else 0)
    decreases |lines|
  {
    if lines != [] {
      FeedAllCons(st, lines);
      var step := Feed(st.row, lines[0]).value;
      var next := Log(step.row, st.rows + step.emitted);
      RowCount(next, lines[1..]);
      match Classify(lines[0])
      case Header(name, value) =>
        assert |AllRows(next)| == |AllRows(st)| + (if name == "commit" then 1 else 0);
        assert st.row.None? && name != "commit" ==> next.row.None?;
      case Message(text) =>
        assert next.row.Some? && step.emitted == [];
    }
  }

  /** Feeding one more line continues from where the earlier lines left off. */
  lemma {:induction false} FeedAllSnoc<L>(f: (Option<Row>, L) -> Option<Step>, st: Log, lines: seq<L>, line: L)
    ensures FeedAllBy(f, st, lines + [line]) ==
      match FeedAllBy(f, st, lines)
      case None => None
      case Some(mid) =>
        match f(mid.row, line)
        case None => None
        case Some(step) => Some(Log(step.row, mid.rows + step.emitted))
    decreases |lines|
  {
    if lines == [] {
      assert [] + [line] == [line];
      assert [line][1..] == [];
    } else {
      assert (lines + [line])[0] == lines[0];
      assert (lines + [line])[1..] == lines[1..] + [line];
      match f(st.row, lines[0]) {
        case None =>
        case Some(step) => FeedAllSnoc(f, Log(step.row, st.rows + step.emitted), lines[1..], line);
      }
    }
  }

  /** Once a prefix of the lines fails, the whole input does. */
  lemma {:induction false} FeedAllNone<L>(f: (Option<Row>, L) -> Option<Step>, st: Log, lines: seq<L>, n: nat)
    requires n <= |lines| && FeedAllBy(f, st, lines[..n]).None?
    ensures FeedAllBy(f, st, lines).None?
    decreases n
  {
    assert lines[..n] != [];
    assert lines[..n][0] == lines[0];
    match f(st.row, lines[0]) {
      case None =>
      case Some(step) =>
        assert lines[..n][1..] == lines[1..][..n - 1];
        FeedAllNone(f, Log(step.row, st.rows + step.emitted), lines[1..], n - 1);
    }
  }

  /** Every pushed row after the first opened with a commit header, and the
      current row does so once any row has been pushed. */
  predicate CommitsKept(st: Log) {
    && (forall k :: 1 <= k < |st.rows| ==> "commit" in st.rows[k])
    && (st.rows != [] ==> st.row.Some? && "commit" in st.row.value)
  }

  lemma {:induction false} CommitsKeptByFeedAll(st: Log, lines: seq<string>)
    requires CommitsKept(st)
    requires FeedAll(st, lines).Some?
    ensures CommitsKept(FeedAll(st, lines).value)
    decreases |lines|
  {
    if lines != [] {
      FeedAllCons(st, lines);
      var step := Feed(st.row, lines[0]).value;
      var next := Log(step.row, st.rows + step.emitted);
      match Classify(lines[0]) {
        case Header(name, value) =>
          if name == "commit" {
            assert "commit" in next.row.value;
          }
        case Message(text) =>
      }
      assert CommitsKept(next);
      CommitsKeptByFeedAll(next, lines[1..]);
    }
  }

  /** From a fresh parser, every row except possibly the first (which message
      lines before any commit can open) carries a `commit` property. */
  lemma RowsAfterFirstHaveCommit(lines: seq<string>)
    requires FeedAll(Log(None, []), lines).Some?
    ensures var rows := AllRows(FeedAll(Log(None, []), lines).value);
      forall k :: 1 <= k < |rows| ==> "commit" in rows[k]
  {
    CommitsKeptByFeedAll(Log(None, []), lines);
  }

  // ---------------------------------------------------------------------
  // The stream object

  /** The writable side plus the object-mode readable side it pushes to. */
  class LogParser {
    var row: Option<Row>
    var output: seq<Emit<Row>>
    var finished: bool

    constructor ()
      ensures row == None && output == [] && !finished
    {
      row, output, finished := None, [], false;
    }

    /** The write hook for one line: classify it, run the handler, then call
        `next()`. The engine calls it only before `finish`. */
    method Write(line: string) returns (acked: bool)
      requires !finished
      modifies this
      ensures finished == old(finished)
      ensures acked <==> Feed(old(row), line).Some?
      ensures acked ==>
        row == Feed(old(row), line).value.row &&
        output == old(output) + AsData(Feed(old(row), line).value.emitted)
      ensures !acked ==> row == old(row) && output == old(output)
    {
      acked := OnEvent(Classify(line));
    }

    /** The `header` or `message` handler for one emitted event; `false`
        when it throws. */
    method OnEvent(ev: Line) returns (acked: bool)
      modifies this
      ensures finished == old(finished)
      ensures acked <==> Handle(old(row), ev).Some?
      ensures acked ==>
        row == Handle(old(row), ev).value.row &&
        output == old(output) + AsData(Handle(old(row), ev).value.emitted)
      ensures !acked ==> row == old(row) && output == old(output)
    {
      ghost var expected := Handle(row, ev);
      match ev
      case Header(name, value) =>
        ghost var step := OnHeader(row, name, value);
        assert expected == Some(step);
        if name == "commit" {
          if row.Some? {
            assert AsData(step.emitted) == [Data(row.value)];
            output := output + [Data(row.value)];
          } else {
            assert AsData(step.emitted) == [];
          }
          row := Some(map[]);
        } else {
          assert AsData(step.emitted) == [];
        }
        if row.Some? && name != "__proto__" {
          row := Some(row.value[name := Str(value)]);
        }
        assert row == step.row;
        acked := true;
      case Message(text) =>
        ghost var next := OnMessage(row, text);
        assert next.Some? ==> expected == Some(Step(next, []));
        assert AsData<Row>([]) == [];
        var base := row.GetOr(map[]);
        if "msg" in base && Truthy(base["msg"]) {
          if base["msg"].Lines? {
            row := Some(base["msg" := Lines(base["msg"].lines + [text])]);
            acked := true;
          } else {
            acked := false;
          }
        } else {
          row := Some(base["msg" := Lines([text])]);
          acked := true;
        }
    }

    /** The `finish` handler, registered with `once`. */
    method Finish()
      modifies this
      ensures finished
      ensures old(finished) ==> row == old(row) && output == old(output)
      ensures !old(finished) ==> row == None && output == old(output) + FinishOut(old(row))
    {
      if !finished {
        if row.Some? {
          output := output + [Data(row.value)];
          row := None;
        }
        output := output + [End];
        finished := true;
      }
    }
  }

  /** One write, with the rows pushed so far tracked alongside: acknowledged
      exactly when the handler for the line's event succeeds, and then the
      parser holds the state that handler gives. */
  method WriteOne(p: LogParser, lines: seq<string>, i: nat, ghost rows: seq<Row>) returns (ok: bool, ghost rows': seq<Row>)
    requires i < |lines|
    requires !p.finished && p.output == AsData(rows)
    modifies p
    ensures !p.finished
    ensures ok <==> Handle(old(p.row), Events(lines)[i]).Some?
    ensures ok ==> var step := Handle(old(p.row), Events(lines)[i]).value;
      p.row == step.row && rows' == rows + step.emitted && p.output == AsData(rows')
  {
    EventsAt(lines, i);
    ghost var step := Feed(p.row, lines[i]);
    ok := p.Write(lines[i]);
    rows' := rows;
    if ok {
      AsDataAppend(rows, step.value.emitted);
      rows' := rows + step.value.emitted;
    }
  }

  /** Writing `lines` to a parser that has seen nothing yet, stopping at
      the first write a handler throws in. */
  method WriteAll(p: LogParser, lines: seq<string>) returns (ok: bool, ghost rows: seq<Row>)
    requires p.row == None && p.output == [] && !p.finished
    modifies p
    ensures !p.finished
    ensures ok <==> FeedAll(Log(None, []), lines).Some?
    ensures ok ==> FeedAll(Log(None, []), lines) == Some(Log(p.row, rows)) && p.output == AsData(rows)
  {
    ghost var evs := Events(lines);
    ghost var result := FeedAllBy(Handle, Log(None, []), evs);
    rows := [];
    var i := 0;
    ok := true;
    assert evs[0..] == evs;
    while i < |lines| && ok
      invariant 0 <= i <= |lines| && |evs| == |lines|
      invariant !p.finished
      invariant ok ==> result == FeedAllBy(Handle, Log(p.row, rows), evs[i..]) && p.output == AsData(rows)
      invariant !ok ==> result.None?
      decreases |lines| - i, if ok then 1 else 0
    {
      assert evs[i..][0] == evs[i] && evs[i..][1..] == evs[i + 1..];
      ok, rows := WriteOne(p, lines, i, rows);
      if ok {
        i := i + 1;
      }
    }
    if ok {
      assert evs[i..] == [];
    }
    assert FeedAll(Log(None, []), lines) == result;
  }

  /** Rows pushed during the writes, then what `finish` pushes: every row of
      the final state, then the end. */
  lemma FinishRows(row: Option<Row>, rows: seq<Row>)
    ensures AsData(rows) + FinishOut(row) == AsData(AllRows(Log(row, rows))) + [End]
  {
    if row.Some? {
      AsDataAppend(rows, [row.value]);
    } else {
      assert AllRows(Log(row, rows)) == rows;
    }
  }

  /** `git log` lines through a fresh parser, then the end of its input.
      When no handler throws, the readable side gets one row per commit (and
      one for message lines before the first), then the end. */
  method ParseLines(lines: seq<string>) returns (ok: bool, out: seq<Emit<Row>>)
    ensures ok <==> FeedAll(Log(None, []), lines).Some?
    ensures ok ==> out == AsData(AllRows(FeedAll(Log(None, []), lines).value)) + [End]
  {
    var p := new LogParser();
    ghost var rows;
    ok, rows := WriteAll(p, lines);
    if ok {
      FinishRows(p.row, rows);
      p.Finish();
    }
    out := p.output;
  }
}
