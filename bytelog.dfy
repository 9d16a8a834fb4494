/** The browserify plugin of example/browserify/log.js. Each `reset` of the
    bundler adds to its `wrap` stage a pass-through that counts the bytes
    going by; when that pass-through ends it reports the elapsed time, the
    byte count and a log line as bundler events, then ends its own output.
    Clock readings are parameters. */
module ByteLog {
  import opened Streams

  type Bytes = seq<bv8>

  /** An event the bundler emits. The log line is kept as the two numbers it
      prints. */
  datatype Event = Time(delta: int) | BytesWritten(count: nat) | Log(count: nat, delta: int)

  /** The total length of a run of chunks. */
  function TotalLength(chunks: seq<Bytes>): nat {
    if chunks == [] then 0 else TotalLength(chunks[..|chunks| - 1]) + |chunks[|chunks| - 1]|
  }

  /** Counting two runs one after the other adds their counts. */
  lemma {:induction false} TotalLengthAppend(a: seq<Bytes>, b: seq<Bytes>)
    ensures TotalLength(a + b) == TotalLength(a) + TotalLength(b)
    decreases |b|
  {
    if b == [] {
      assert a + b == a;
    } else {
      var b' := b[..|b| - 1];
      assert (a + b)[..|a + b| - 1] == a + b';
      assert (a + b)[|a + b| - 1] == b[|b| - 1];
      TotalLengthAppend(a, b');
    }
  }

  /** One more chunk adds its length. */
  lemma TotalLengthSnoc(chunks: seq<Bytes>, buf: Bytes)
    ensures TotalLength(chunks + [buf]) == TotalLength(chunks) + |buf|
  {
    assert (chunks + [buf])[..|chunks|] == chunks;
  }

  /** Only empty chunks count for nothing. */
  lemma {:induction false} TotalLengthZero(chunks: seq<Bytes>)
    ensures TotalLength(chunks) == 0 <==> forall k :: 0 <= k < |chunks| ==> chunks[k] == []
    decreases |chunks|
  {
    if chunks != [] {
      var init := chunks[..|chunks| - 1];
      TotalLengthZero(init);
      assert forall k :: 0 <= k < |init| ==> init[k] == chunks[k];
    }
  }

  /** The bundler: the pass-throughs in its `wrap` stage and the events it
      has emitted. */
  class Bundler {
    var wrap: seq<Counter>
    var events: seq<Event>

    constructor ()
      ensures wrap == [] && events == []
    {
      wrap, events := [], [];
    }

    /** `reset()`: fresh `time = null` and `bytes = 0`, and one new counting
        pass-through appended to `wrap`. */
    method Reset() returns (c: Counter)
      modifies this
      ensures fresh(c) && c.Valid() && c.seen == [] && c.output == []
      ensures c.bytes == 0 && c.time == None && !c.ended && c.bundler == this
      ensures wrap == old(wrap) + [c] && events == old(events)
    {
      c := new Counter(this);
      wrap := wrap + [c];
    }
  }

  /** The pass-through one `reset` creates, with its closure variables. */
  class Counter {
    const bundler: Bundler
    var time: Option<int>
    var bytes: nat
    var output: seq<Emit<Bytes>>
    var ended: bool
    /** The chunks written since the `reset` that created it. */
    ghost var seen: seq<Bytes>

    ghost predicate Valid()
      reads this
    {
      bytes == TotalLength(seen) && output == AsData(seen) + (if ended then [End] else [])
    }

    constructor (b: Bundler)
      ensures Valid() && bundler == b && seen == [] && output == []
      ensures bytes == 0 && time == None && !ended
    {
      bundler := b;
      time, bytes, output, ended, seen := None, 0, [], false, [];
    }

    /** The `end` listener on the `record` stage: `time = Date.now()`. */
    method RecordEnded(now: int)
      modifies this
      ensures time == Some(now)
      ensures bytes == old(bytes) && output == old(output) && ended == old(ended) && seen == old(seen)
    {
      time := Some(now);
    }

    /** `write`: count the chunk, forward it, then call `next()`. */
    method Write(buf: Bytes)
      requires Valid() && !ended
      modifies this
      ensures Valid() && seen == old(seen) + [buf] && !ended
      ensures bytes == old(bytes) + |buf|
      ensures output == old(output) + [Data(buf)]
      ensures time == old(time)
    {
      TotalLengthSnoc(seen, buf);
      AsDataAppend(seen, [buf]);
      bytes := bytes + |buf|;
      output := output + [Data(buf)];
      seen := seen + [buf];
    }

    /** A run of writes, each counted and forwarded in turn. */
    method WriteAll(chunks: seq<Bytes>)
      requires Valid() && !ended && seen == []
      modifies this
      ensures Valid() && seen == chunks && !ended
      ensures time == old(time)
    {
      var i := 0;
      while i < |chunks|
        invariant 0 <= i <= |chunks|
        invariant Valid() && !ended && seen == chunks[..i] && time == old(time)
      {
        Write(chunks[i]);
        assert chunks[..i] + [chunks[i]] == chunks[..i + 1];
        i := i + 1;
      }
      assert chunks[..i] == chunks;
    }

    /** `end`: emit `time`, `bytes` and `log` on the bundler, then end the
        output. `Date.now() - null` is `Date.now()`. */
    method EndHook(now: int)
      requires Valid() && !ended
      modifies this, bundler
      ensures Valid() && ended && seen == old(seen) && bytes == old(bytes)
      ensures output == old(output) + [End]
      ensures var delta := now - old(time).GetOr(0);
        bundler.events == old(bundler.events) + [Time(delta), BytesWritten(TotalLength(seen)), Log(TotalLength(seen), delta)]
      ensures bundler.wrap == old(bundler.wrap)
    {
      var delta := now - time.GetOr(0);
      bundler.events := bundler.events + [Time(delta), BytesWritten(bytes), Log(bytes, delta)];
      output := output + [End];
      ended := true;
    }
  }

  /** What one pass-through does for a bundle whose `record` stage ends at
      `recordEnd` (or never, `None`) and whose own input ends at `now`: the
      chunks come out unchanged and then the end, and the reported count is
      the total length of the chunks. */
  method Bundle(chunks: seq<Bytes>, recordEnd: Option<int>, now: int)
    returns (forwarded: seq<Emit<Bytes>>, events: seq<Event>)
    ensures forwarded == AsData(chunks) + [End]
    ensures var delta := now - recordEnd.GetOr(0);
      events == [Time(delta), BytesWritten(TotalLength(chunks)), Log(TotalLength(chunks), delta)]
  {
    var b := new Bundler();
    var c := b.Reset();
    if recordEnd.Some? {
      c.RecordEnded(recordEnd.value);
    }
    c.WriteAll(chunks);
    c.EndHook(now);
    forwarded, events := c.output, b.events;
  }

  /** A second `reset` starts a new count: the second pass-through reports
      only what was written after it, and the first is left as it was. */
  method Rebundle(first: seq<Bytes>, second: seq<Bytes>) returns (wrapSize: nat, counts: (nat, nat))
    ensures wrapSize == 2
    ensures counts == (TotalLength(first), TotalLength(second))
  {
    var b := new Bundler();
    var c1 := b.Reset();
    c1.WriteAll(first);
    var c2 := b.Reset();
    c2.WriteAll(second);
    wrapSize, counts := |b.wrap|, (c1.bytes, c2.bytes);
  }
}
