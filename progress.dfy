/**
 * Progress accounting for transfers (pkg/sftp/progress.go). Readers and writers that wrap a
 * stream count the bytes passing through in `bytesSinceUpdate` and hand them to the progress
 * bar in batches of at least 512 KiB; `Flush` hands over the rest. The bar is its running
 * total; the wrapped streams are scripts of the results their calls return.
 */
module SftpProgress {
  import opened Wrappers

  type Byte = bv8

  /** `progressBatchSize`. */
  const BatchSize: nat := 512 * 1024

  /** The 1 MiB buffer `ReadFrom` reads into. */
  const BufferSize: nat := 1024 * 1024

  datatype IoError = EOF | ShortWrite | Canceled | Failed(code: nat)

  /** One `Read` of the wrapped reader: the bytes it delivers and the error it returns with them. */
  datatype ReadResult = ReadResult(data: seq<Byte>, err: Option<IoError>)

  /** One `Write` of the wrapped writer: how many bytes it accepts and the error it returns. */
  datatype WriteResult = WriteResult(n: nat, err: Option<IoError>)

  /** The progress bar, as its running total. */
  class Bar {
    var total: int

    constructor ()
      ensures total == 0
    {
      total := 0;
    }

    /** `Add64`. */
    method Add(n: int)
      modifies this
      ensures total == old(total) + n
    {
      total := total + n;
    }
  }

  /** A reader whose calls return the results of `script` in turn, and then EOF. */
  class Source {
    var script: seq<ReadResult>

    constructor (script: seq<ReadResult>)
      ensures this.script == script
    {
      this.script := script;
    }

    /** A read into a buffer of `max` bytes delivers at most `max` bytes. */
    method Read(max: nat) returns (data: seq<Byte>, err: Option<IoError>)
      modifies this
      ensures old(script) == [] ==> data == [] && err == Some(EOF) && script == []
      ensures old(script) != [] ==>
        data == Clip(old(script)[0].data, max) && err == old(script)[0].err && script == old(script)[1..]
    {
      if script == [] {
        return [], Some(EOF);
      }
      data, err := Clip(script[0].data, max), script[0].err;
      script := script[1..];
    }
  }

  /** A writer whose calls return the results of `script` in turn, and then accept everything. */
  class Sink {
    var script: seq<WriteResult>
    /** Everything written so far. */
    var data: seq<Byte>

    constructor (script: seq<WriteResult>)
      ensures this.script == script && data == []
    {
      this.script := script;
      data := [];
    }

    /** A write accepts a prefix of `p` (never more than `p`) and appends it. */
    method Write(p: seq<Byte>) returns (n: nat, err: Option<IoError>)
      modifies this
      ensures n == NextWrite(old(script), |p|).0 && err == NextWrite(old(script), |p|).1
      ensures script == NextWrite(old(script), |p|).2
      ensures n <= |p| && data == old(data) + p[..n]
    {
      var r := NextWrite(script, |p|);
      n, err, script := r.0, r.1, r.2;
      data := data + p[..n];
    }
  }

  /** `ctx.Done()` for the cancellation context of a transfer. */
  class Context {
    var cancelled: bool

    constructor (cancelled: bool)
      ensures this.cancelled == cancelled
    {
      this.cancelled := cancelled;
    }
  }

  function Clip(d: seq<Byte>, max: nat): (r: seq<Byte>)
    ensures |r| <= max && |r| <= |d| && r == d[..|r|]
    ensures |d| <= max ==> r == d
  {
    if |d| <= max then d else d[..max]
  }

  /** The next write result of a writer asked to write `len` bytes, and the rest of its script. */
  function NextWrite(script: seq<WriteResult>, len: nat): (r: (nat, Option<IoError>, seq<WriteResult>))
    ensures r.0 <= len
  {
    if script == [] then (len, None, [])
    else (if script[0].n <= len then script[0].n else len, script[0].err, script[1..])
  }

  /**
   * How adding `n` bytes to `pending` is accounted: when the sum reaches a batch it is all
   * handed to the bar and nothing stays pending, else it all stays pending.
   */
  function Batch(pending: nat, n: nat): (r: (nat, nat))
    ensures r.0 + r.1 == pending + n
    ensures r.0 == 0 || r.1 == 0
    ensures r.1 < BatchSize
    ensures pending + n >= BatchSize ==> r == (pending + n, 0)
    ensures pending + n < BatchSize ==> r == (0, pending + n)
  {
    if pending + n >= BatchSize then (pending + n, 0) else (0, pending + n)
  }

  /** Hand `n` more bytes to the counter `pending` of `bar`; returns the new pending count. */
  method Account(bar: Bar, pending: nat, n: nat) returns (rest: nat)
    modifies bar
    ensures bar.total == old(bar.total) + Batch(pending, n).0
    ensures rest == Batch(pending, n).1
  {
    rest := pending + n;
    if rest >= BatchSize {
      bar.Add(rest);
      rest := 0;
    }
  }

  /** `progressReader`: counts what is read from `reader`. */
  class ProgressReader {
    const reader: Source
    const bar: Bar
    const size: int
    var bytesSinceUpdate: nat

    ghost predicate Valid()
      reads this
    {
      bytesSinceUpdate < BatchSize
    }

    constructor (reader: Source, bar: Bar, size: int)
      ensures Valid() && this.reader == reader && this.bar == bar && this.size == size
      ensures bytesSinceUpdate == 0
    {
      this.reader := reader;
      this.bar := bar;
      this.size := size;
      bytesSinceUpdate := 0;
    }

    /**
     * `Read`: the wrapped reader's result, counted: the bar and the pending count together
     * grow by the bytes delivered, and the pending count stays below a batch.
     */
    method Read(max: nat) returns (data: seq<Byte>, err: Option<IoError>)
      requires Valid()
      modifies this, reader, bar
      ensures Valid()
      ensures old(reader.script) == [] ==> data == [] && err == Some(EOF)
      ensures old(reader.script) != [] ==>
        data == Clip(old(reader.script)[0].data, max) && err == old(reader.script)[0].err
      ensures reader.script == if old(reader.script) == [] then [] else old(reader.script)[1..]
      ensures bar.total + bytesSinceUpdate == old(bar.total) + old(bytesSinceUpdate) + |data|
      ensures bar.total == old(bar.total) || bytesSinceUpdate == 0
      ensures bar.total == old(bar.total) + Batch(old(bytesSinceUpdate), |data|).0
      ensures bytesSinceUpdate == Batch(old(bytesSinceUpdate), |data|).1
    {
      data, err := reader.Read(max);
      if |data| > 0 {
        bytesSinceUpdate := Account(bar, bytesSinceUpdate, |data|);
      }
    }

    /** `Size`. */
    function Size(): int
      reads this
    {
      size
    }

    /** `Flush`: the pending count moves onto the bar, so a second flush changes nothing. */
    method Flush()
      modifies this, bar
      ensures bar.total == old(bar.total) + old(bytesSinceUpdate) && bytesSinceUpdate == 0
    {
      if bytesSinceUpdate > 0 {
        bar.Add(bytesSinceUpdate);
        bytesSinceUpdate := 0;
      }
    }
  }

  /** `progressWriterTo`: the same counting reader, used by the uploads of the plain `put`. */
  class ProgressWriterTo {
    const reader: Source
    const bar: Bar
    const size: int
    var bytesSinceUpdate: nat

    ghost predicate Valid()
      reads this
    {
      bytesSinceUpdate < BatchSize
    }

    /** `newProgressWriterTo`. */
    constructor (reader: Source, bar: Bar, size: int)
      ensures Valid() && this.reader == reader && this.bar == bar && this.size == size
      ensures bytesSinceUpdate == 0
    {
      this.reader := reader;
      this.bar := bar;
      this.size := size;
      bytesSinceUpdate := 0;
    }

    /** `Read`, with the batching of `progressReader`. */
    method Read(max: nat) returns (data: seq<Byte>, err: Option<IoError>)
      requires Valid()
      modifies this, reader, bar
      ensures Valid()
      ensures old(reader.script) == [] ==> data == [] && err == Some(EOF)
      ensures old(reader.script) != [] ==>
        data == Clip(old(reader.script)[0].data, max) && err == old(reader.script)[0].err
      ensures reader.script == if old(reader.script) == [] then [] else old(reader.script)[1..]
      ensures bar.total + bytesSinceUpdate == old(bar.total) + old(bytesSinceUpdate) + |data|
      ensures bar.total == old(bar.total) || bytesSinceUpdate == 0
      ensures bar.total == old(bar.total) + Batch(old(bytesSinceUpdate), |data|).0
      ensures bytesSinceUpdate == Batch(old(bytesSinceUpdate), |data|).1
    {
      data, err := reader.Read(max);
      if |data| > 0 {
        bytesSinceUpdate := Account(bar, bytesSinceUpdate, |data|);
      }
    }

    /** `Size`: the size given at construction. */
    function Size(): (s: int)
      reads this
    {
      size
    }
  }

  /** `progressWriter`: counts what is written to `writer`, and refuses to write once cancelled. */
  class ProgressWriter {
    const writer: Sink
    const bar: Bar
    const ctx: Context
    var bytesSinceUpdate: nat

    ghost predicate Valid()
      reads this
    {
      bytesSinceUpdate < BatchSize
    }

    constructor (writer: Sink, bar: Bar, ctx: Context)
      ensures Valid() && this.writer == writer && this.bar == bar && this.ctx == ctx
      ensures bytesSinceUpdate == 0
    {
      this.writer := writer;
      this.bar := bar;
      this.ctx := ctx;
      bytesSinceUpdate := 0;
    }

    /** `Write`: nothing at all happens once the context is cancelled. */
    method Write(p: seq<Byte>) returns (n: nat, err: Option<IoError>)
      requires Valid()
      modifies this, writer, bar
      ensures Valid()
      ensures ctx.cancelled ==>
        n == 0 && err == Some(Canceled) && unchanged(this, writer, bar)
      ensures !ctx.cancelled ==>
        && n == NextWrite(old(writer.script), |p|).0 && err == NextWrite(old(writer.script), |p|).1
        && writer.script == NextWrite(old(writer.script), |p|).2
        && writer.data == old(writer.data) + p[..n]
        && bar.total + bytesSinceUpdate == old(bar.total) + old(bytesSinceUpdate) + n
        && (bar.total == old(bar.total) || bytesSinceUpdate == 0)
        && bar.total == old(bar.total) + Batch(old(bytesSinceUpdate), n).0
        && bytesSinceUpdate == Batch(old(bytesSinceUpdate), n).1
    {
      if ctx.cancelled {
        return 0, Some(Canceled);
      }
      n, err := writer.Write(p);
      if n > 0 {
        bytesSinceUpdate := Account(bar, bytesSinceUpdate, n);
      }
    }

    /** `Flush`. */
    method Flush()
      modifies this, bar
      ensures bar.total == old(bar.total) + old(bytesSinceUpdate) && bytesSinceUpdate == 0
    {
      if bytesSinceUpdate > 0 {
        bar.Add(bytesSinceUpdate);
        bytesSinceUpdate := 0;
      }
    }
  }

  /**
   * What writing the rest of a chunk gives: how many of its bytes are accepted in all, the
   * error, and the writer's remaining script. The bytes accepted are always a prefix of the chunk.
   */
  datatype Drain = Drain(n: nat, err: Option<IoError>, rest: seq<WriteResult>)

  /**
   * The write-until-done loop of `ReadFrom` for a chunk of `len` bytes of which `done` are
   * accepted already: keep writing the unwritten tail; stop at the first error, and at a write
   * that accepts nothing (a short write).
   */
  function Drained(len: nat, done: nat, ws: seq<WriteResult>): (d: Drain)
    requires done <= len
    ensures done <= d.n <= len
    ensures d.err.None? ==> d.n == len
    decreases len - done
  {
    if done == len then Drain(len, None, ws)
    else
      var w := NextWrite(ws, len - done);
      if w.1.Some? then Drain(done + w.0, w.1, w.2)
      else if w.0 == 0 then Drain(done, Some(ShortWrite), w.2)
      else Drained(len, done + w.0, w.2)
  }

  /** What a copy gives: the bytes written and the error returned. */
  datatype Copy = Copy(data: seq<Byte>, err: Option<IoError>)

  /** Writing a chunk in full: none of it when it is empty. */
  function WriteAll(chunk: seq<Byte>, ws: seq<WriteResult>): (d: Drain)
    ensures d.n <= |chunk|
    ensures d.err.None? ==> d.n == |chunk|
  {
    Drained(|chunk|, 0, ws)
  }

  /**
   * `ReadFrom` as a function of the two scripts, with `acc` already written: read a chunk,
   * write it in full, and repeat; a write error ends the copy with that error, EOF ends it
   * successfully, any other read error ends it with that error (after the chunk delivered with
   * it is written).
   */
  function CopyFrom(acc: seq<Byte>, rs: seq<ReadResult>, ws: seq<WriteResult>): Copy
    decreases |rs|
  {
    var chunk := if rs == [] then [] else Clip(rs[0].data, BufferSize);
    var rerr := if rs == [] then Some(EOF) else rs[0].err;
    var d := WriteAll(chunk, ws);
    if d.err.Some? then Copy(acc + chunk[..d.n], d.err)
    else if rerr == Some(EOF) then Copy(acc + chunk, None)
    else if rerr.Some? then Copy(acc + chunk, rerr)
    else CopyFrom(acc + chunk, rs[1..], d.rest)
  }

  /** A whole copy: the bytes it writes and the error it returns. */
  function CopyAll(rs: seq<ReadResult>, ws: seq<WriteResult>): Copy {
    CopyFrom([], rs, ws)
  }

  /** Everything the reader delivers up to and including its first error (or its end). */
  function Stream(rs: seq<ReadResult>): seq<Byte>
    decreases |rs|
  {
    if rs == [] then []
    else Clip(rs[0].data, BufferSize) + (if rs[0].err.Some? then [] else Stream(rs[1..]))
  }

  /** The reader ends with EOF, not with another error, before or at the end of its script. */
  predicate EndsWithEof(rs: seq<ReadResult>)
    decreases |rs|
  {
    rs == [] || rs[0].err == Some(EOF) || (rs[0].err.None? && EndsWithEof(rs[1..]))
  }

  /** A copy that returns no error has written everything the reader delivered, and the reader reached EOF. */
  lemma {:induction false} CopyFromWithoutError(acc: seq<Byte>, rs: seq<ReadResult>, ws: seq<WriteResult>)
    ensures CopyFrom(acc, rs, ws).err.None? ==> CopyFrom(acc, rs, ws).data == acc + Stream(rs) && EndsWithEof(rs)
    decreases |rs|
  {
    if rs == [] {
      assert acc + [] == acc;
    } else {
      var chunk := Clip(rs[0].data, BufferSize);
      var d := WriteAll(chunk, ws);
      if d.err.None? && rs[0].err.None? {
        CopyFromWithoutError(acc + chunk, rs[1..], d.rest);
        assert acc + chunk + Stream(rs[1..]) == acc + (chunk + Stream(rs[1..]));
      } else if d.err.None? {
        assert chunk + [] == chunk;
      }
    }
  }

  /** A copy that returns no error has written exactly the stream, and the reader reached EOF. */
  lemma CopyWithoutErrorWritesStream(rs: seq<ReadResult>, ws: seq<WriteResult>)
    ensures CopyAll(rs, ws).err.None? ==> CopyAll(rs, ws).data == Stream(rs) && EndsWithEof(rs)
  {
    CopyFromWithoutError([], rs, ws);
    assert [] + Stream(rs) == Stream(rs);
  }

  /** A writer that accepts everything takes any chunk in one write. */
  lemma WillingWriter(len: nat)
    ensures Drained(len, 0, []) == Drain(len, None, [])
  {
    if len > 0 {
      assert Drained(len, len, []) == Drain(len, None, []);
    }
  }

  /** With a writer that accepts everything, the copy fails exactly when the reader ends with an error other than EOF. */
  lemma {:induction false} CopyFromWillingWriter(acc: seq<Byte>, rs: seq<ReadResult>)
    ensures CopyFrom(acc, rs, []).err.None? <==> EndsWithEof(rs)
    decreases |rs|
  {
    if rs != [] {
      WillingWriter(|Clip(rs[0].data, BufferSize)|);
      if rs[0].err.None? {
        CopyFromWillingWriter(acc + Clip(rs[0].data, BufferSize), rs[1..]);
      }
    } else {
      WillingWriter(0);
    }
  }

  /** A writer that accepts everything makes the copy succeed exactly when the reader ends with EOF, and then it writes the stream. */
  lemma CopyToWillingWriter(rs: seq<ReadResult>)
    ensures CopyAll(rs, []).err.None? <==> EndsWithEof(rs)
    ensures EndsWithEof(rs) ==> CopyAll(rs, []).data == Stream(rs)
  {
    CopyFromWillingWriter([], rs);
    CopyWithoutErrorWritesStream(rs, []);
  }

  /** A write that accepts nothing and reports nothing ends the copy with a short write. */
  lemma ZeroWriteIsShortWrite(rs: seq<ReadResult>, ws: seq<WriteResult>)
    requires rs != [] && |rs[0].data| > 0
    requires ws != [] && ws[0] == WriteResult(0, None)
    ensures CopyAll(rs, ws) == Copy([], Some(ShortWrite))
  {
  }

  /** `progressWriterFrom`: a writer wrapper whose `ReadFrom` copies a whole reader. */
  class ProgressWriterFrom {
    const writer: Sink
    const bar: Bar
    var bytesSinceUpdate: nat

    ghost predicate Valid()
      reads this
    {
      bytesSinceUpdate < BatchSize
    }

    /** `newProgressWriterFrom`. */
    constructor (writer: Sink, bar: Bar)
      ensures Valid() && this.writer == writer && this.bar == bar && bytesSinceUpdate == 0
    {
      this.writer := writer;
      this.bar := bar;
      bytesSinceUpdate := 0;
    }

    /**
     * `ReadFrom`: copy `r` into the writer as `CopyAll` says, returning the number of bytes
     * written. Every byte counted reaches the bar or stays pending; on success the final
     * flush hands the pending bytes to the bar but does not reset the counter, which keeps
     * whatever the loop left in it.
     */
    method ReadFrom(r: Source) returns (n: nat, err: Option<IoError>)
      requires Valid()
      modifies this, r, writer, bar
      ensures Valid()
      ensures writer.data == old(writer.data) + CopyAll(old(r.script), old(writer.script)).data
      ensures err == CopyAll(old(r.script), old(writer.script)).err
      ensures n == |CopyAll(old(r.script), old(writer.script)).data|
      ensures err.Some? ==> bar.total + bytesSinceUpdate == old(bar.total) + old(bytesSinceUpdate) + n
      ensures err.None? ==> bar.total == old(bar.total) + old(bytesSinceUpdate) + n
    {
      n, err := CopyLoop(r);
      if err.None? && bytesSinceUpdate > 0 {
        bar.Add(bytesSinceUpdate);
      }
    }

    /** The loop of `ReadFrom`, up to the final flush. */
    method CopyLoop(r: Source) returns (n: nat, err: Option<IoError>)
      requires Valid()
      modifies this, r, writer, bar
      ensures Valid()
      ensures writer.data == old(writer.data) + CopyAll(old(r.script), old(writer.script)).data
      ensures err == CopyAll(old(r.script), old(writer.script)).err
      ensures n == |CopyAll(old(r.script), old(writer.script)).data|
      ensures bar.total + bytesSinceUpdate == old(bar.total) + old(bytesSinceUpdate) + n
    {
      ghost var goal := CopyAll(r.script, writer.script);
      n := 0;
      ghost var acc: seq<Byte> := [];
      while true
        invariant Valid()
        invariant writer.data == old(writer.data) + acc && n == |acc|
        invariant goal == CopyFrom(acc, r.script, writer.script)
        invariant bar.total + bytesSinceUpdate == old(bar.total) + old(bytesSinceUpdate) + n
        decreases |r.script|
      {
        var written, stop, e, step := CopyChunk(r, acc);
        n := n + written;
        acc := acc + step;
        if stop {
          return n, e;
        }
      }
    }

    /**
     * One round of the outer loop of `ReadFrom`, with `acc` written before it: read a chunk of
     * at most `BufferSize` bytes and write it in full. `step` is what reaches the writer; `stop`
     * says the copy ends here (with `err`, None at EOF), otherwise the copy goes on with the rest
     * of both scripts.
     */
    method CopyChunk(r: Source, ghost acc: seq<Byte>)
      returns (written: nat, stop: bool, err: Option<IoError>, ghost step: seq<Byte>)
      requires Valid()
      modifies this, r, writer, bar
      ensures Valid()
      ensures writer.data == old(writer.data) + step && written == |step|
      ensures stop ==> CopyFrom(acc, old(r.script), old(writer.script)) == Copy(acc + step, err)
      ensures !stop ==> (err.None? && |r.script| < |old(r.script)| &&
        CopyFrom(acc, old(r.script), old(writer.script)) == CopyFrom(acc + step, r.script, writer.script))
      ensures bar.total + bytesSinceUpdate == old(bar.total) + old(bytesSinceUpdate) + written
    {
      ghost var wsHere := writer.script;
      var buf, er := r.Read(BufferSize);
      ghost var d := WriteAll(buf, wsHere);
      written := 0;
      if |buf| > 0 {
        var ew;
        written, ew := WriteChunk(buf);
        if ew != None {
          return written, true, ew, buf[..written];
        }
      }
      assert buf[..d.n] == buf;
      if er != None {
        if er == Some(EOF) {
          return written, true, None, buf;
        }
        return written, true, er, buf;
      }
      return written, false, None, buf;
    }

    /**
     * The inner loop of `ReadFrom`: write `buf` until all of it is accepted, stopping at an
     * error or at a write that accepts nothing. Returns how much was written.
     */
    method WriteChunk(buf: seq<Byte>) returns (written: nat, err: Option<IoError>)
      requires Valid()
      modifies this, writer, bar
      ensures Valid()
      ensures written == WriteAll(buf, old(writer.script)).n
      ensures err == WriteAll(buf, old(writer.script)).err
      ensures writer.script == WriteAll(buf, old(writer.script)).rest
      ensures writer.data == old(writer.data) + buf[..written]
      ensures bar.total + bytesSinceUpdate == old(bar.total) + old(bytesSinceUpdate) + written
    {
      ghost var goal := WriteAll(buf, writer.script);
      written := 0;
      while written < |buf|
        invariant 0 <= written <= |buf|
        invariant Valid()
        invariant writer.data == old(writer.data) + buf[..written]
        invariant goal == Drained(|buf|, written, writer.script)
        invariant bar.total + bytesSinceUpdate == old(bar.total) + old(bytesSinceUpdate) + written
        decreases |buf| - written
      {
        var stop;
        written, stop, err := WriteOnce(buf, written, old(writer.data));
        if stop {
          return;
        }
      }
      return written, None;
    }

    /**
     * One write of the inner loop, with `done` bytes of `buf` already written after `base`: the
     * written boundary moves to `written`, and either the chunk ends here (`stop`, with `err`)
     * or the rest of the chunk is written from the new boundary.
     */
    method WriteOnce(buf: seq<Byte>, done: nat, ghost base: seq<Byte>)
      returns (written: nat, stop: bool, err: Option<IoError>)
      requires Valid() && done < |buf| && writer.data == base + buf[..done]
      modifies this, writer, bar
      ensures Valid()
      ensures done <= written <= |buf| && writer.data == base + buf[..written]
      ensures stop ==> Drained(|buf|, done, old(writer.script)) == Drain(written, err, writer.script)
      ensures !stop ==> done < written && Drained(|buf|, done, old(writer.script)) == Drained(|buf|, written, writer.script)
      ensures bar.total + bytesSinceUpdate == old(bar.total) + old(bytesSinceUpdate) + (written - done)
    {
      var nw, ew := writer.Write(buf[done..]);
      SliceGrow(buf, done, nw);
      written := done + nw;
      if nw > 0 {
        bytesSinceUpdate := Account(bar, bytesSinceUpdate, nw);
      }
      if ew != None {
        return written, true, ew;
      }
      if nw == 0 {
        return written, true, Some(ShortWrite);
      }
      return written, false, None;
    }
  }

  /** Accepting `k` more bytes of the unwritten tail extends the written prefix by them. */
  lemma SliceGrow(buf: seq<Byte>, i: nat, k: nat)
    requires i + k <= |buf|
    ensures buf[..i] + buf[i..][..k] == buf[..i + k]
  {
    assert buf[i..][..k] == buf[i..i + k];
  }
}
