# streamify-your-node-program: the stream hooks, in Dafny

The tutorial's examples plug small hooks into Node's stream classes:
transform, write, flush and read functions and the little state they keep.
This project models those hooks and proves what each one pushes. The stream
engine they run in is not modelled. A call of `push(x)` on a readable side is
`Data(x)`, and `push(null)` is `End` (module `Streams`). A pass of the engine
is a sequence of hook calls made in order. Timers and `process.nextTick` are
also taken as steps in that order.

Hooks that keep state are classes whose fields are the closure variables:
`row`, `count` and `code`, `total` and `ie67`, `input`, `chars`, `bytes` and
`time`. Their methods say exactly how each call changes those fields. Each
class also has a client method that builds a fresh object and drives it over
a whole input. That method is proved against a pure function of the input,
and the pure functions carry the lemmas.

- `GitLog` (example/tools/parse.js):
  - `Classify` sorts each `git log` line into a header or a message line.
  - `OnMessage`, `OnHeader` and `Feed` group the lines into one row per commit.
  - `LogParser` holds the closure variable `row` and the object-mode output.
  - A handler that throws is modelled as `None`. This happens when a message
    line arrives and a header named `msg` has left a non-empty string in
    `row.msg`.
- `RunLength` (example/tools/duplexer2.js):
  - `RunParser` groups 0/1 codes into runs.
  - `Bar` is the morse formatter.
  - `Source.Push` is the `push(code, n)` helper.
  - `Encode` is an independent reference encoder. The parser is proved equal
    to it, and `Unique` shows it gives the only well-formed runs for an input.
- `Splicer` (example/tools/labeled-stream-splicer.js):
  - the author stage's `/<(.*)>/` match. The regular-expression `.` does not
    match line terminators, the leftmost `<` wins and `.*` is greedy.
  - the formatter's summary line;
  - `Pipeline`, the labelled stage lists that `plugin` rewrites.
- `Rot` (example/rotate.js): the offset `(n || 13) % 26` with JavaScript's
  truncating `%`, and the per-letter rotation.
- `UserAgent` (example/parseUA.js): the two counters and the floor percentage.
- `Reverse` (example/reverse.js, docs/js/reverse.js and `reverse()` in
  example/pipeline.js): the stack and its pop loop.
  - The loop ends when `pop()` returns a falsy value.
  - For strings, that is `undefined` on an empty stack or an empty string.
  - An empty string is removed from the stack but not pushed. So a stack
    whose only empty string is at the bottom still ends up empty, but
    everything below an empty string stays.
- `Pipeline` (example/pipeline.js): `src()` over an array, where `|| null`
  ends it at the first empty string, and the composed chain.
- `UpperCase` (example/implement/transform.js and docs/js/transform.js), and
  `Duplex` (example/implement/duplex.js) with its `chars` queue.
- `Readable` (example/implement/readable.js): the iterator adapter, modelled
  as a cursor.
- `Comment` (example/browserify/comment.js): a pass-through plus a trailer.
- `ByteLog` (example/browserify/log.js): the byte-counting pass-through that
  each `reset` adds.
- `Text` has the JavaScript string operations the hooks use: ASCII case
  mapping, `\w`, the `trim` white-space set, `slice`, `indexOf` and `join`.

## Model

| member | source | states |
|---|---|---|
| GitLog.WordRun | example/tools/parse.js:47 | the length of the longest run of `[A-Za-z0-9_]` that opens the line, which `(\w+)` captures |
| GitLog.Events | example/tools/parse.js:45-52 | one emitted event per written line, in order; `EventsAt` states that the k-th is the k-th line classified |
| GitLog.Classify | example/tools/parse.js:45-52 | a line is a header exactly when its first character is a word character, and otherwise a message carrying the line; a header's name is its leading word run lower-cased; its value is the rest (after the name and one more character) with only white space trimmed off either end |
| GitLog.OnMessage | example/tools/parse.js:13-17 | the row and its `msg` list are created when absent (or falsy) and the line is appended last; every other property is unchanged; the result is `None` exactly when `msg` holds a non-empty string, since `push` on it throws |
| GitLog.OnHeader | example/tools/parse.js:19-29 | `commit` pushes the current row if there is one and opens a row holding only `commit`; any other header pushes nothing, sets or overwrites that property when a row exists, and is dropped when there is no row; `__proto__` leaves the row as it is |
| GitLog.Handle | example/tools/parse.js:13-29 | a header is exactly the header handler's step; a message goes to the message handler, pushes nothing and leaves the row it returns; the step fails exactly when it is a message and the row's `msg` is a non-empty string |
| GitLog.Feed | example/tools/parse.js:45-53 | one line through the write hook fails exactly when it is a message line and the row's `msg` is a non-empty string |
| GitLog.EventsAt | example/tools/parse.js:45-52 | each line of an input is classified on its own, independently of the lines around it |
| GitLog.FeedAllCons | example/tools/parse.js:45-54 | a run of lines is its first line handled first, with the rest continuing from the state that line leaves; when the first line throws, the whole run fails |
| GitLog.FeedAllBy | example/tools/parse.js:45-54 | the events handled one after the other, each step starting from the row the previous one left and adding its pushed rows; `None` from the first step that throws (its laws are `FeedAllSnoc`, `FeedAllNone`, `FeedAllCons`) |
| GitLog.FeedAll | example/tools/parse.js:6-54 | a run of lines written to the parser: the fold of `Handle` over their events; `WriteAll` is proved equal to it |
| GitLog.FinishOut | example/tools/parse.js:31-37 | `finish` pushes the current row exactly when there is one, and then the end marker; without a row it pushes only the end |
| GitLog.RowCount | example/tools/parse.js:13-37 | the rows pushed by the end number the commit headers, plus one when message lines come before the first commit on a fresh parser |
| GitLog.CommitsKeptByFeedAll | example/tools/parse.js:19-28 | every pushed row after the first, and the current row once any row has been pushed, has a `commit` property |
| GitLog.RowsAfterFirstHaveCommit | example/tools/parse.js:13-28 | from a fresh parser, every row except perhaps the first has a `commit` property |
| GitLog.FeedAllSnoc | example/tools/parse.js:45-53 | feeding one more line continues from the state the earlier lines produced |
| GitLog.FeedAllNone | example/tools/parse.js:45-53 | once some prefix of the input makes a handler throw, the whole input fails |
| GitLog.LogParser.constructor | example/tools/parse.js:11 | a new parser has no row and has pushed nothing |
| GitLog.LogParser.Write | example/tools/parse.js:45-54 | the write is acknowledged exactly when `Feed` succeeds, and then the row and output are those `Feed` gives; when it fails, nothing changes |
| GitLog.LogParser.OnEvent | example/tools/parse.js:13-29 | the handler for one emitted event: acknowledged exactly when `Handle` succeeds, and then the row and output are those `Handle` gives; when it throws, nothing changes |
| GitLog.LogParser.Finish | example/tools/parse.js:31-37 | the first call pushes `FinishOut` of the row and clears it; later calls change nothing (`once`) |
| GitLog.WriteOne | example/tools/parse.js:45-54 | the i-th write of an input is acknowledged exactly when handling its classified line succeeds, and then the row and output move on as that step says |
| GitLog.WriteAll | example/tools/parse.js:45-54 | writing lines in order succeeds exactly when `FeedAll` does, and leaves the state `FeedAll` computes |
| GitLog.FinishRows | example/tools/parse.js:31-37 | the rows pushed so far followed by what `finish` pushes are all the rows the state holds, including the current one, then the end |
| GitLog.ParseLines | example/tools/parse.js:6-40 | a whole input, then `finish`: when nothing throws, the output is every row `FeedAll` groups, in order, followed by the end |
| Text.LowerText | example/tools/parse.js:49 | `toLowerCase`, character by character over ASCII letters |
| Text.UpperText | example/implement/transform.js:9 | `toUpperCase`, character by character over ASCII letters |
| Text.UpperTextAppend | docs/js/transform.js:5 | upper-casing two chunks separately and joining them equals upper-casing the joined text |
| Text.Trim | example/tools/parse.js:49 | the result is a slice of the input with only white space removed from either end, it neither starts nor ends with white space, and input without white space is returned as is |
| Text.Drop | example/tools/parse.js:49 | `slice(n)`: the input minus its first `n` elements, empty past the end; elements are Unicode characters, not UTF-16 code units |
| Text.Prefix | example/tools/labeled-stream-splicer.js:42-44 | `slice(0, n)`: a prefix of the input of length `min(n, length)` |
| Text.IndexOf | example/tools/labeled-stream-splicer.js:61 | -1 exactly when the character is absent, otherwise the position of its first occurrence |
| RunLength.Normalize | example/tools/duplexer2.js:49 | every input becomes 1 when it is greater than 0, and 0 otherwise |
| RunLength.NormalizeAll | example/tools/duplexer2.js:49 | one normalised code per input, in order |
| RunLength.Encode | example/tools/duplexer2.js:44-70 | reference encoder: every count is at least 1, neighbouring runs differ in code, and expanding the runs gives back the input |
| RunLength.Unique | example/tools/duplexer2.js:44-70 | two well-formed run lists that expand to the same inputs are equal |
| RunLength.EncodeIsOnly | example/tools/duplexer2.js:44-70 | any well-formed runs of an input are the reference encoder's runs |
| RunLength.PendingSwitch | example/tools/duplexer2.js:56-61 | a different code completes the pending run and opens one of length 1, keeping the runs well formed and faithful to the input |
| RunLength.PendingExtend | example/tools/duplexer2.js:63-64 | an equal code only lengthens the pending run, keeping the same invariant |
| RunLength.RunParser.constructor | example/tools/duplexer2.js:44-45 | `count` and `code` start at -1 and nothing is emitted |
| RunLength.RunParser.Write | example/tools/duplexer2.js:48-65 | the first write opens a run of 1 and emits nothing; a different code emits the pending (code, count) and opens a run of 1; an equal code increments the count; the pending run always completes the emitted runs to the runs of the normalised input |
| RunLength.RunParser.Finish | example/tools/duplexer2.js:66-70 | the last run is emitted exactly when some write occurred (`count > 0`); afterwards the emitted runs are the reference encoding of the normalised inputs |
| RunLength.Bar | example/tools/duplexer2.js:37 | a run (code, n) prints as n `=` for a non-zero code or n `-` for 0, then a newline |
| RunLength.Source.Push | example/tools/duplexer2.js:9-17 | `push(null)` ends the source; `push(code, n)` pushes `code` exactly n times, so `push(0, 0)` pushes nothing |
| RunLength.Pushes | example/tools/duplexer2.js:9-17 | what one helper call pushes: the end for `null`, `code` n times otherwise; `Source.Push` is proved to push exactly that |
| RunLength.Source.constructor | example/tools/duplexer2.js:4-7 | the source starts with nothing pushed |
| RunLength.PushAll | example/tools/duplexer2.js:9-17 | a run of `push` calls on a fresh source pushes, in call order, what each call pushes |
| RunLength.DemoPushes | example/tools/duplexer2.js:21-27 | the seven calls of the demo push 0,0, six 1s, four 0s, then the end |
| RunLength.ParseRuns | example/tools/duplexer2.js:43-71 | a fresh parser fed an input and finished emits exactly the reference runs of the normalised input, and none for an empty input |
| RunLength.DemoSource | example/tools/duplexer2.js:21-27 | the demo's pushes are 0,0, six 1s, four 0s, then the end |
| RunLength.DemoRuns | example/tools/duplexer2.js:21-27 | the demo's inputs have the runs (0,2), (1,6), (0,4) |
| RunLength.DemoParse | example/tools/duplexer2.js:19-27 | the run parser emits (0,2), (1,6), (0,4) for the demo |
| RunLength.DemoBars | example/tools/duplexer2.js:37 | those runs print as `--`, `======`, `----`, each on its own line |
| Splicer.MatchesWithinLine | example/tools/labeled-stream-splicer.js:58 | a `>` closes a match opened at a `<` exactly when it lies after it and before the end of that line |
| Splicer.AngleMatch | example/tools/labeled-stream-splicer.js:58 | the search finds no match when there is none; otherwise it finds the leftmost `<` that opens a match, and the last `>` that closes it (greedy) |
| Splicer.SplitAuthor | example/tools/labeled-stream-splicer.js:56-64 | with a `<...>` match, the e-mail is the text inside the match the search finds and the name is the trimmed text before the first `<`; without one, the name is the whole string and there is no e-mail |
| Splicer.AuthorOnOneLine | example/tools/labeled-stream-splicer.js:58-61 | on a single line, the e-mail is the text between the first `<` and the last `>`, and it exists exactly when that `>` follows the `<` |
| Splicer.OneLineMatch | example/tools/labeled-stream-splicer.js:58 | on a single line with a `>` after the first `<`, the match runs from that `<` to the last `>` |
| Splicer.OneLineNoMatch | example/tools/labeled-stream-splicer.js:58 | when no `>` follows the first `<`, the pattern matches nowhere |
| Splicer.AuthorStep | example/tools/labeled-stream-splicer.js:55-66 | a row with a string `author` comes out with `author` replaced by the split object and every other property unchanged; any other row throws |
| Splicer.SummaryLine | example/tools/labeled-stream-splicer.js:39-45 | the joined line is the name, ` has commit `, the first 7 characters of the commit, ` at `, and the first 10 characters of the date |
| Splicer.FormatRow | example/tools/labeled-stream-splicer.js:38-48 | two chunks per row, the summary line then `\n`; a missing `author` or `commit`, or a date without an ISO form (`toISOString` throws), makes it throw; an author that is not an object has no name, which prints as the empty string |
| Splicer.SummaryAfterAuthor | example/tools/labeled-stream-splicer.js:39-61 | after the author stage, the summary line starts with the name the author split produced |
| Splicer.Splice | example/tools/labeled-stream-splicer.js:36 | `splice(start, deleteCount, item)`: the length changes as stated, the elements before `start` are kept, `item` sits at `start`, and the elements after the deleted range follow it; a `start` past the end appends `item` |
| Splicer.Pipeline.constructor | example/tools/labeled-stream-splicer.js:10-15 | the stage lists `split`, `parse`, `format` |
| Splicer.Pipeline.Chain | example/tools/labeled-stream-splicer.js:11-15 | the stages in pipe order: those labelled `split`, then `parse`, then `format`; `Demo` states the chain after the three plugins |
| Splicer.Pipeline.AddAuthor | example/tools/labeled-stream-splicer.js:52-53 | the author stage is appended to `parse` and nothing else changes |
| Splicer.Pipeline.AddDate | example/tools/labeled-stream-splicer.js:70-71 | the date stage is appended to `parse` and nothing else changes |
| Splicer.Pipeline.AddFormatter | example/tools/labeled-stream-splicer.js:35-36 | the summary stage replaces the first element of `format` |
| Splicer.Pipeline.Install | example/tools/labeled-stream-splicer.js:16-19 | `plugin(fn)` applies `fn` to the pipeline and returns that same pipeline |
| Splicer.Demo | example/tools/labeled-stream-splicer.js:27-31 | after `author`, `date`, `formatter` the stages run split, parse, author, date, summary, in that order |
| Rot.Rem26 | example/rotate.js:7 | JavaScript's `% 26`: congruent to the dividend, in 0..25 for a non-negative one and in -25..0 for a negative one |
| Rot.Offset | example/rotate.js:7 | a missing or zero `n` gives 13; a positive `n` gives its residue in 0..25; a negative `n` gives a non-positive offset |
| Rot.RotateChar | example/rotate.js:13-25 | with an offset in 0..25, a lowercase letter stays lowercase and moves by the offset modulo 26, and the same for uppercase; with a negative offset, a letter's code just moves; anything else is unchanged |
| Rot.RotateText | example/rotate.js:12-26 | same length as the input, with each character rotated on its own |
| Rot.RotateTextAppend | example/rotate.js:12-26 | rotating chunks separately and joining them equals rotating the joined text |
| Rot.RotateTextInverse | example/rotate.js:12-26 | rotating by k and then by `(26 - k) % 26` gives back the input |
| Rot.Rot13Involution | example/rotate.js:7-26 | the default rotator (13) undoes itself |
| Rot.NegativeOffsetLeavesAlphabet | example/rotate.js:7-23 | `n = -3` gives offset -3, which sends `a` to `^` and `A` to `>` |
| Rot.NewRotate | example/rotate.js:4-8 | the constructor fixes the offset `Offset(n)` |
| Rot.Rotate.Transform | example/rotate.js:11-32 | exactly one chunk per call, of the input's length, the input rotated character by character |
| Rot.RotateChunks | example/rotate.js:11-32 | a run of writes prints the rotation of their concatenation |
| Rot.Demo | example/rotate.js:36-42 | `Rotate(3)` on `hello, ` and `world!` pushes `khoor, ` and `zruog!` |
| Rot.DemoChunks | example/rotate.js:36-42 | `Rotate(3)` turns `hello, ` into `khoor, ` and `world!` into `zruog!` |
| UserAgent.MentionsIE67 | example/parseUA.js:31 | true exactly when `MSIE 6.0` or `MSIE 7.0` occurs somewhere in the line |
| UserAgent.CountIE67 | example/parseUA.js:31-33 | the lines mentioning IE 6 or 7 are never more than the lines |
| UserAgent.CountIE67Append | example/parseUA.js:29-33 | counting two batches one after the other adds their counts |
| UserAgent.CountIE67Extremes | example/parseUA.js:31-33 | the count is the number of lines when all of them match, and 0 when none does |
| UserAgent.Percent | example/parseUA.js:23 | the floor of `ie67 * 100 / total`; at most 100 when `ie67 <= total`, and exactly 100 when they are equal |
| UserAgent.ReportAfter | example/parseUA.js:15-25 | the report after some lines counts all of them; `0 <= ie67 <= total`, and the percentage is at most 100 |
| UserAgent.Parser.constructor | example/parseUA.js:12-13 | both counters start at 0 |
| UserAgent.Parser.Transform | example/parseUA.js:28-35 | `total` goes up by exactly one and `ie67` by one exactly when the line matches; the hook passes on exactly one report, which counts the current line |
| UserAgent.ParseAll | example/parseUA.js:27-36 | one report per line, the k-th counting the first k + 1 lines |
| Reverse.DrainShape | example/reverse.js:30-33 | the pop loop pushes the chunks above the topmost empty string, in reverse arrival order and none of them empty; it removes that empty string and leaves what is below; without an empty string it empties the stack |
| Reverse.DrainOf | example/reverse.js:30-33 | what the pop loop pushes and leaves, never more chunks than the stack holds; `DrainShape` characterises it |
| Reverse.DrainShapeStep | example/reverse.js:30-33 | popping a non-empty chunk and pushing it keeps the shape: pushed chunks reversed and non-empty, and what stays lies below the empty string that stopped the loop |
| Reverse.DrainPop | example/reverse.js:30-33 | one turn of the loop removes the top; an empty string stops the loop with nothing pushed, anything else is pushed first and the loop goes on below it |
| Reverse.Reverser.constructor | example/reverse.js:19-21 | the closure stack `input` starts empty, nothing is pushed and the callback has not been called |
| Reverse.DrainAllTruthy | docs/js/reverse.js:20-23 | a stack without an empty string is pushed in full, in reverse order, and left empty |
| Reverse.DrainStopsAtEmpty | example/pipeline.js:17-20 | an empty string hides everything below it: only the chunks above it come out, reversed, and the chunks below it stay |
| Reverse.PopLoop | example/reverse.js:30-33 | the loop leaves the stack and the output that `DrainOf` describes |
| Reverse.Reverser.Transform | example/reverse.js:23-27 | the chunk is stacked at the end of `input` and nothing is pushed (docs/js/reverse.js:15-18 and example/pipeline.js:12-15 are the same) |
| Reverse.Reverser.Drain | docs/js/reverse.js:20-23 | the flush loop as a method on the stream's state |
| Reverse.Reverser.FlushThenExtra | example/reverse.js:28-38 | the drained chunks, then `extra`, and the callback is called only after that push |
| Reverse.Reverser.FlushWithoutCallback | docs/js/reverse.js:19-25 | the drained chunks, and the callback is never called (example/pipeline.js:16-22 is the same) |
| Reverse.Run | example/reverse.js:19-40 | writes and then the end: the drained writes, plus `extra` and completion in the example/reverse.js variant; writes without an empty string come out fully reversed |
| Reverse.DemoReverse | example/reverse.js:15-17 | the output is `c`, `b`, `a`, `extra`, and the stream completes |
| Reverse.DemoDocs | docs/js/reverse.js:7-9 | the output is `c`, `b`, `a`, and the stream never completes |
| Pipeline.UntilFalsy | example/pipeline.js:38 | the longest prefix of the array without an empty string |
| Pipeline.ArraySource.constructor | example/pipeline.js:34-36 | the source holds the array and has pushed nothing |
| Pipeline.ArraySource.Read | example/pipeline.js:37-39 | `shift()` removes the first element; it is pushed when non-empty, and the end is pushed for an empty array or an empty string |
| Pipeline.PullOne | example/pipeline.js:37-39 | before the first empty string, the next element of the array is non-empty and is the next chunk handed on |
| Pipeline.PullEnd | example/pipeline.js:37-39 | when the array is used up or its next element is the empty string, every element before it has been handed on |
| Pipeline.Pull | example/pipeline.js:34-42 | reading `src` until it ends gives the elements before the first empty string, then the end |
| Pipeline.Chain | example/pipeline.js:3-6 | the chain pushes the source's elements upper-cased and reversed, and never completes because `next` is not called |
| Pipeline.Demo | example/pipeline.js:3-6 | over `['a', 'b', 'c']` the chain pushes `C`, `B`, `A` and never completes |
| UpperCase.TransformOut | example/implement/transform.js:8-11 | exactly one chunk per write, the input upper-cased character by character |
| UpperCase.UpperEach | docs/js/transform.js:4-6 | one output per input, the k-th being the k-th input upper-cased |
| UpperCase.OneChunkPerWrite | docs/js/transform.js:4-6 | a run of writes pushes one upper-cased chunk per write, in write order |
| UpperCase.UpperChunks | example/implement/transform.js:8-11 | what the sink prints is the concatenated input upper-cased |
| UpperCase.DriverInputs | docs/js/transform.js:11-13 | `end(c)` adds `c` as the last input; a bare `end()` adds nothing |
| UpperCase.DemoImplement | example/implement/transform.js:14-19 | `hello, ` and `world!` push `HELLO, ` and `WORLD!`, which print as `HELLO, WORLD!` |
| UpperCase.DemoDocs | docs/js/transform.js:9-13 | `a`, `b` and `end('c')` push `A`, `B`, `C` |
| Duplex.ToUpperCase.constructor | example/implement/duplex.js:5-12 | an empty queue and no output |
| Duplex.ToUpperCase.Read | example/implement/duplex.js:14-18 | on an empty queue, nothing happens; otherwise the oldest text is dequeued and pushed upper-cased |
| Duplex.ToUpperCase.Write | example/implement/duplex.js:20-24 | the text is queued and the oldest queued text is pushed upper-cased; starting from an empty queue, that is the written text and the queue is empty again |
| Duplex.ToUpperCase.Finish | example/implement/duplex.js:9-11 | the first call pushes the end and later calls push nothing (`once`) |
| Duplex.RunDuplex | example/implement/duplex.js:20-28 | writes and then the end: every write upper-cased, in write order, then exactly one end |
| Duplex.Demo | example/implement/duplex.js:31-36 | the output is `HELLO, `, `WORLD!`, then the end |
| Readable.WithNewlines | example/implement/readable.js:16 | each value followed by `\n`, in order |
| Readable.ReadOutputs | example/implement/readable.js:11-18 | what n reads of a fresh adapter push: a line per value while values remain, then ends; `ReadOutputsStep` and `ExactlyKThenEnd` state its shape |
| Readable.ReadOutputsStep | example/implement/readable.js:11-18 | each read adds exactly one chunk: the next value with a newline while values are left, then the end |
| Readable.ExactlyKThenEnd | example/implement/readable.js:11-18 | a source of k values gives exactly k data chunks, its values in order, and after them only ends |
| Readable.ToReadable.constructor | example/implement/readable.js:5-10 | the cursor starts at the first value and nothing has been pushed |
| Readable.ToReadable.Read | example/implement/readable.js:11-18 | advances the cursor once and pushes the value with a newline, or pushes the end when the values are used up |
| Readable.ReadAll | example/implement/readable.js:11-18 | reading until the end gives every value as a line, in order, then the end |
| Comment.Trailer | example/browserify/comment.js:7 | the trailer is `/* AWESOME `, then the file name, then `*/` |
| Comment.TrailerInjective | example/browserify/comment.js:7 | different files get different trailers |
| Comment.Forward | example/browserify/comment.js:4-5 | the transform hook forwards its chunk; `ForwardAll` states that a run of them reproduces the input |
| Comment.Run | example/browserify/comment.js:3-9 | the transform over the inputs, then the flush trailer; `RunIsInputsThenTrailer` states its value |
| Comment.ForwardAll | example/browserify/comment.js:4-5 | every chunk is forwarded unchanged, one output per input |
| Comment.RunIsInputsThenTrailer | example/browserify/comment.js:3-9 | the output is the input followed by exactly one trailer; an empty input gives the trailer alone |
| ByteLog.TotalLength | example/browserify/log.js:16 | the sum of the chunks' lengths that `bytes += buf.length` accumulates; `TotalLengthAppend`, `TotalLengthZero` and `TotalLengthSnoc` state its laws |
| ByteLog.TotalLengthAppend | example/browserify/log.js:15-18 | the byte counts of two runs of chunks add up |
| ByteLog.TotalLengthZero | example/browserify/log.js:16 | the count is 0 exactly when every chunk is empty |
| ByteLog.Bundler.constructor | example/browserify/log.js:3-5 | a bundler with an empty `wrap` stage and no events |
| ByteLog.Bundler.Reset | example/browserify/log.js:7-14 | a new counting stage with `bytes = 0` and `time = null` is appended to `wrap`, and nothing else changes |
| ByteLog.Counter.constructor | example/browserify/log.js:8-9 | `time` starts null and `bytes` starts at 0 |
| ByteLog.Counter.RecordEnded | example/browserify/log.js:10-12 | the end of the `record` stage sets `time` to the current clock reading |
| ByteLog.Counter.Write | example/browserify/log.js:15-19 | `bytes` grows by the chunk's length, the chunk is forwarded unchanged, and `bytes` stays the total length of the chunks since the reset |
| ByteLog.TotalLengthSnoc | example/browserify/log.js:16 | one more chunk adds exactly its length to the count |
| ByteLog.Counter.WriteAll | example/browserify/log.js:15-19 | a run of writes since the reset leaves `bytes` at their total length and forwards every chunk unchanged, in order |
| ByteLog.Counter.EndHook | example/browserify/log.js:20-28 | emits `time` (now minus `time`, where null counts as 0), then `bytes`, then `log`, then ends the output |
| ByteLog.Bundle | example/browserify/log.js:3-29 | the chunks come out unchanged and then the end; the events are time, the total length of the chunks, and the log line |
| ByteLog.Rebundle | example/browserify/log.js:4-14 | a second reset adds a second stage that counts only what is written after it; the first stage's count is unchanged |

## Left out

- The stream engine (Node's `stream`) is not part of this model: buffering,
  `highWaterMark`, paused and flowing modes, `pipe`, back-pressure, encodings,
  and the order of `prefinish`, `finish` and `end`. Hooks are called in
  sequence, and the engine's own `push(null)` after a transform's flush
  callback is not shown.
- `duplexer2`, `labeled-stream-splicer`, `split2`, `JSONStream`, `through2` and
  `ansi-escape` are libraries and are not part of this model. The splicer's
  stages are labels (`Stage`), and the JSON stringifier is an opaque stage.
- I/O is not modelled: `child_process.spawn('git')`, file streams, stdin and
  stdout, and the `console.log` lines in example/reverse.js. The
  `parseGitLog` driver in parse.js and the `main` block of the splicer
  script are modelled only as far as `Splicer.Demo` goes.
- The terminal formatting in example/parseUA.js is left out. `Report` keeps
  the three numbers it prints.
- Dates are left out. The date plugin's transform (`new Date(row.date)`) is
  not modelled, and the formatter takes the ISO form of the date, or its
  absence, as a parameter.
  `Date.now()` in example/browserify/log.js is a parameter, and the log line
  is kept as its two numbers without the `toFixed(2)` text.
- Case mapping covers ASCII letters only. Unicode case conversion in
  `toUpperCase` and `toLowerCase` is not modelled.
- `split('')` in example/rotate.js splits UTF-16 code units, but the model
  splits Unicode characters. The two agree on every letter the rotation
  changes.
- GitLog.Classify: `slice(matches[1].length + 1)` counts UTF-16 code units,
  and `Text.Drop` counts Unicode characters. The header name is all ASCII,
  so the two agree except on the one character skipped after the name: a
  character outside the Basic Multilingual Plane there is dropped whole,
  where JavaScript keeps its low surrogate at the start of the value.
- Rot.Offset: `n` is an integer or absent. A fractional or non-numeric `n`
  is not modelled.
- The unreachable Duplex code after the top-level `return` in
  example/rotate.js is left out.
- example/implement/readable.js builds its iterator with `new function *()`,
  which engines reject. The model uses the intended cursor over the values.
  The values are taken in their string form. The `Math.random` demo is left
  out.
- RunLength.Source.Push: `n` is a natural number. With a negative `n`, the
  source's `while (n--)` loop would never end.
- Splicer.FormatRow: the date is given as its ISO form, or `None` when
  `row.date.toISOString()` throws (a missing, unparsable or unconverted
  date). Parsing the date is not modelled. Its domain is the rows GitLog
  builds, where `commit` is always a string: an array `commit`, which
  `slice` would accept, does not arise.
- ByteLog.Rebundle: both resets are taken to push onto the same `wrap`
  list. How browserify rebuilds its pipeline on `reset` is not part of this
  model, so `wrapSize` rests on that assumption.
- GitLog: a row is a map from property names to values, so the insertion
  order of its properties is lost. That order shows in the JSON that the
  `format` stage prints.
- Splicer.Splice models only the non-negative `start` and `deleteCount` the
  script uses.
- GitLog: a property name that is special on plain objects is modelled only
  for `__proto__`, where assigning a string is a no-op. Every other name is
  an ordinary property.
- Reverse: chunks are strings, and a chunk is falsy exactly when it is the
  empty string. This also covers example/pipeline.js, where every chunk that
  reaches `reverse()` is non-empty.
- The chains in example/pipeline.js and docs/js/transform.js are composed in
  order: each stage gets all of the previous stage's output. How the engine
  interleaves them is not modelled.
