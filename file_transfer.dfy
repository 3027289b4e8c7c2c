/**
 * The chunked file-transfer protocol of `FileTransferManager`
 * (client/lib/fileTransferManager.ts).
 *
 * The sender emits one metadata frame, the file cut into 16384-byte slices as
 * binary frames, and the text frame "__END__". The receiver is a two-state
 * machine (no transfer open / a transfer open with the chunks received so
 * far) that concatenates the chunks in receipt order when the end marker
 * arrives.
 */
module FileTransfer {
  import opened Wrappers

  newtype Byte = b: int | 0 <= b < 256

  /** `chunkSize` of the manager: 16 * 1024 bytes. */
  const ChunkSize: nat := 16384

  /** Prefix of the text frame that carries the metadata record. */
  const MetaPrefix: string := "__META__"

  /** The text frame that closes a transfer. */
  const EndMarker: string := "__END__"

  /** The record the sender serialises after `MetaPrefix`. */
  datatype FileMetadata = FileMetadata(name: string, mime: string, size: nat, chunks: nat, timestamp: int)

  /** A file handed to `sendFile`: its name, MIME type and bytes. */
  datatype LocalFile = LocalFile(name: string, mime: string, bytes: seq<Byte>)

  /** The file handed to the `onFileReceived` callback. */
  datatype ReceivedFile = ReceivedFile(name: string, mime: string, lastModified: int, bytes: seq<Byte>)

  /**
   * A message on the data channel. `MetaFrame(m)` is the text frame
   * `MetaPrefix` followed by the JSON text of `m`; `TextFrame(s)` is any
   * other text frame (one that starts with `MetaPrefix` but whose JSON does
   * not parse makes the handler throw before it assigns anything, so it is
   * ignored like every other text frame); `BinaryFrame` is an ArrayBuffer.
   * By this convention a text frame whose prefix is `MetaPrefix` and whose
   * JSON does parse is always written as `MetaFrame`, never as `TextFrame`:
   * which of the two a frame is decides how the receiver treats it.
   */
  datatype Frame =
    | MetaFrame(meta: FileMetadata)
    | TextFrame(text: string)
    | BinaryFrame(bytes: seq<Byte>)

  /** What one received frame makes the receiver report to its callbacks. */
  datatype Notice =
    | Silent
    | Progress(received: nat, declared: nat)  // onProgress(received / declared * 100)
    | Delivered(file: ReceivedFile)           // onFileReceived(file)

  /** Receiving state: `incomingFileMeta` and `receivedChunks`. */
  datatype Receiver = Receiver(meta: Option<FileMetadata>, chunks: seq<seq<Byte>>)

  /** No transfer open. */
  const Idle := Receiver(None, [])

  // ---------------------------------------------------------------------------
  // Byte arithmetic shared by sender and receiver
  // ---------------------------------------------------------------------------

  /** The chunks joined in order. */
  function Concat(cs: seq<seq<Byte>>): seq<Byte>
  {
    if cs == [] then [] else cs[0] + Concat(cs[1..])
  }

  lemma {:induction false} ConcatSplit(a: seq<seq<Byte>>, b: seq<seq<Byte>>)
    ensures Concat(a + b) == Concat(a) + Concat(b)
  {
    if a == [] {
      assert a + b == b;
    } else {
      assert (a + b)[0] == a[0];
      assert (a + b)[1..] == a[1..] + b;
      ConcatSplit(a[1..], b);
    }
  }

  /**
   * The running sum that `assembleFile` reduces over the received chunks,
   * folded from the first chunk to the last; it is the length of their
   * concatenation.
   */
  function TotalLength(cs: seq<seq<Byte>>): (n: nat)
    ensures n == |Concat(cs)|
  {
    if cs == [] then 0
    else
      var k := |cs| - 1;
      assert cs[..k] + [cs[k]] == cs;
      ConcatSplit(cs[..k], [cs[k]]);
      TotalLength(cs[..k]) + |cs[k]|
  }

  // ---------------------------------------------------------------------------
  // Sender
  // ---------------------------------------------------------------------------

  /** `Math.ceil(size / chunkSize)`: the chunk count the metadata declares. */
  function DeclaredChunks(size: nat): (n: nat)
    ensures n * ChunkSize >= size
    ensures n > 0 ==> (n - 1) * ChunkSize < size
    ensures n == 0 <==> size == 0
  {
    (size + ChunkSize - 1) / ChunkSize
  }

  /** The metadata record `sendFile` sends for `file` at clock value `now`. */
  function Metadata(file: LocalFile, now: int): (m: FileMetadata)
    ensures m.name == file.name && m.mime == file.mime && m.size == |file.bytes| && m.timestamp == now
    ensures |file.bytes| > 0 ==> m.chunks == |Chunks(file.bytes)|
    ensures |file.bytes| == 0 ==> m.chunks == 0
  {
    ChunkCount(file.bytes);
    FileMetadata(file.name, file.mime, |file.bytes|, DeclaredChunks(|file.bytes|), now)
  }

  /**
   * The slices the send loop reads: one slice of `ChunkSize` bytes per step
   * while bytes remain, and always at least one (possibly empty) slice.
   */
  function Chunks(data: seq<Byte>): (cs: seq<seq<Byte>>)
    ensures |cs| >= 1
    ensures Concat(cs) == data
    decreases |data|
  {
    if |data| <= ChunkSize then [data]
    else
      var rest := Chunks(data[ChunkSize..]);
      assert ([data[..ChunkSize]] + rest)[1..] == rest;
      [data[..ChunkSize]] + rest
  }

  /** Binary frames carrying the given chunks, in order. */
  function ChunkFrames(cs: seq<seq<Byte>>): seq<Frame>
  {
    seq(|cs|, k requires 0 <= k < |cs| => BinaryFrame(cs[k]))
  }

  lemma ChunkFramesSnoc(cs: seq<seq<Byte>>, c: seq<Byte>)
    ensures ChunkFrames(cs + [c]) == ChunkFrames(cs) + [BinaryFrame(c)]
  {
  }

  /** The send loop stops after chunk `k` exactly when `k` is the last chunk. */
  lemma LastChunk(data: seq<Byte>, k: nat)
    requires k < |Chunks(data)|
    ensures (k + 1) * ChunkSize >= |data| <==> k + 1 == |Chunks(data)|
  {
    ChunkCount(data);
  }

  /** `ChunkFrames` commutes with taking a prefix. */
  lemma ChunkFramesPrefix(cs: seq<seq<Byte>>, k: nat)
    requires k <= |cs|
    ensures ChunkFrames(cs[..k]) == ChunkFrames(cs)[..k]
  {
  }

  /**
   * The frames that get through when the channel's `send` succeeds `limit`
   * times and throws from then on (`None`: it never throws): the sender
   * stops at the first throw, so what arrives is a prefix.
   */
  function UpTo(fs: seq<Frame>, limit: Option<nat>): (r: seq<Frame>)
    ensures r <= fs
    ensures |r| < |fs| ==> limit == Some(|r|)
  {
    if limit.Some? && limit.value < |fs| then fs[..limit.value] else fs
  }

  /**
   * The frames `sendFile` gets onto an attached channel whose `send`
   * succeeds `failsAfter` times and then throws: nothing if the metadata
   * already fails, otherwise the metadata, the chunk frames that got
   * through, and the end marker only if every chunk did and one more send
   * succeeds.
   */
  function SentFrames(file: LocalFile, now: int, failsAfter: Option<nat>): seq<Frame>
  {
    if failsAfter == Some(0) then []
    else
      var cf := ChunkFrames(Chunks(file.bytes));
      var rest := if failsAfter.Some? then Some(failsAfter.value - 1) else None;
      [MetaFrame(Metadata(file, now))] + UpTo(cf, rest)
        + (if rest.None? || rest.value > |cf| then [TextFrame(EndMarker)] else [])
  }

  /**
   * What `sendFile` gets onto an attached channel is the transmission cut
   * after as many frames as `send` accepts: a prefix of it, all of it when
   * `send` never throws, and never the end marker without every chunk.
   */
  lemma SentFramesArePrefix(file: LocalFile, now: int, failsAfter: Option<nat>)
    ensures SentFrames(file, now, failsAfter) == UpTo(Transmission(file, now), failsAfter)
  {
    var cf := ChunkFrames(Chunks(file.bytes));
    var t := Transmission(file, now);
    assert t == [MetaFrame(Metadata(file, now))] + cf + [TextFrame(EndMarker)];
    if failsAfter.Some? && 0 < failsAfter.value <= |cf| + 1 {
      assert t[..failsAfter.value] == [MetaFrame(Metadata(file, now))] + cf[..failsAfter.value - 1];
    }
  }

  /** Every frame `sendFile` puts on an attached channel whose `send` never throws, in order. */
  function Transmission(file: LocalFile, now: int): (fs: seq<Frame>)
    ensures |fs| == |Chunks(file.bytes)| + 2
    ensures fs[0].MetaFrame? && fs[0].meta.name == file.name && fs[0].meta.size == |file.bytes|
    ensures fs[|fs| - 1] == TextFrame(EndMarker)
    ensures forall k :: 0 < k < |fs| - 1 ==> fs[k] == BinaryFrame(Chunks(file.bytes)[k - 1])
  {
    [MetaFrame(Metadata(file, now))] + ChunkFrames(Chunks(file.bytes)) + [TextFrame(EndMarker)]
  }

  /** Chunk `k` is the slice `[k * ChunkSize, (k + 1) * ChunkSize)` of the file, cut at its end. */
  lemma {:induction false} ChunkIsSlice(data: seq<Byte>, k: nat)
    requires k < |Chunks(data)|
    ensures k * ChunkSize <= |data|
    ensures Chunks(data)[k] == data[k * ChunkSize .. Min((k + 1) * ChunkSize, |data|)]
  {
    if k > 0 {
      var rest := data[ChunkSize..];
      assert Chunks(data)[k] == Chunks(rest)[k - 1];
      ChunkIsSlice(rest, k - 1);
      assert (k - 1) * ChunkSize + ChunkSize == k * ChunkSize;
    }
  }

  /**
   * The sender emits `max(1, ceil(size / ChunkSize))` chunk frames: as many as
   * the metadata declares, except that an empty file still sends one
   * (empty) chunk while declaring none.
   */
  lemma {:induction false} ChunkCount(data: seq<Byte>)
    ensures |Chunks(data)| == if |data| == 0 then 1 else DeclaredChunks(|data|)
    decreases |data|
  {
    if |data| > ChunkSize {
      ChunkCount(data[ChunkSize..]);
      assert DeclaredChunks(|data|) == DeclaredChunks(|data| - ChunkSize) + 1;
    }
  }

  /** The frames of a transfer: one metadata frame, chunk frames of at most ChunkSize bytes, one end marker. */
  lemma TransmissionShape(file: LocalFile, now: int)
    ensures var fs := Transmission(file, now);
      && |fs| == |Chunks(file.bytes)| + 2
      && fs[0] == MetaFrame(Metadata(file, now))
      && fs[|fs| - 1] == TextFrame(EndMarker)
      && forall k :: 0 < k < |fs| - 1 ==> fs[k].BinaryFrame? && |fs[k].bytes| <= ChunkSize
  {
    var cs := Chunks(file.bytes);
    forall k | 0 <= k < |cs|
      ensures |cs[k]| <= ChunkSize
    {
      ChunkIsSlice(file.bytes, k);
    }
  }

  // ---------------------------------------------------------------------------
  // Receiver
  // ---------------------------------------------------------------------------

  /** The file `assembleFile` builds from the open metadata and the received chunks. */
  function Assemble(m: FileMetadata, cs: seq<seq<Byte>>): (f: ReceivedFile)
    ensures f.name == m.name && f.mime == m.mime && f.lastModified == m.timestamp
    ensures |f.bytes| == TotalLength(cs)
    ensures forall data :: Chunks(data) == cs ==> f.bytes == data
  {
    ReceivedFile(m.name, m.mime, m.timestamp, Concat(cs))
  }

  /**
   * One step of the `onmessage` handler: the next state and the notice it
   * reports. `listener` says whether an `onProgress` callback was given.
   */
  function Receive(r: Receiver, f: Frame, listener: bool): (res: (Receiver, Notice))
    ensures f.MetaFrame? ==> res == (Receiver(Some(f.meta), []), Silent)
    ensures res.1.Delivered? <==> f == TextFrame(EndMarker) && r.meta.Some?
    ensures res.1.Delivered? ==> res.0 == Idle && res.1.file == Assemble(r.meta.value, r.chunks)
    ensures f.BinaryFrame? && r.meta.Some? ==> res.0 == Receiver(r.meta, r.chunks + [f.bytes])
    ensures res.1.Progress? <==> f.BinaryFrame? && r.meta.Some? && listener && r.meta.value.chunks != 0
    ensures res.1.Progress? ==> res.1 == Progress(|res.0.chunks|, r.meta.value.chunks)
    ensures r.meta.None? && !f.MetaFrame? ==> res == (r, Silent)
    ensures f.TextFrame? && f.text != EndMarker ==> res == (r, Silent)
  {
    match f
    case MetaFrame(m) => (Receiver(Some(m), []), Silent)
    case TextFrame(t) =>
      if t == EndMarker && r.meta.Some? then (Idle, Delivered(Assemble(r.meta.value, r.chunks)))
      else (r, Silent)
    case BinaryFrame(b) =>
      if r.meta.Some? then
        var cs := r.chunks + [b];
        var declared := r.meta.value.chunks;
        (Receiver(r.meta, cs), if listener && declared != 0 then Progress(|cs|, declared) else Silent)
      else (r, Silent)
  }

  /** Feeding a sequence of frames to the handler: the final state and one notice per frame. */
  function ReceiveAll(r: Receiver, fs: seq<Frame>, listener: bool): (Receiver, seq<Notice>)
    decreases |fs|
  {
    if fs == [] then (r, [])
    else
      var step := Receive(r, fs[0], listener);
      var rest := ReceiveAll(step.0, fs[1..], listener);
      (rest.0, [step.1] + rest.1)
  }

  lemma ReceiveOne(r: Receiver, f: Frame, listener: bool)
    ensures ReceiveAll(r, [f], listener) == (Receive(r, f, listener).0, [Receive(r, f, listener).1])
  {
    var step := Receive(r, f, listener);
    assert [f][0] == f && [f][1..] == [];
    assert ReceiveAll(step.0, [], listener) == (step.0, []);
    assert [step.1] + [] == [step.1];
  }

  lemma {:induction false} ReceiveAllSplit(r: Receiver, a: seq<Frame>, b: seq<Frame>, listener: bool)
    ensures ReceiveAll(r, a + b, listener)
         == (ReceiveAll(ReceiveAll(r, a, listener).0, b, listener).0,
             ReceiveAll(r, a, listener).1 + ReceiveAll(ReceiveAll(r, a, listener).0, b, listener).1)
    decreases |a|
  {
    if a == [] {
      assert a + b == b;
      assert [] + ReceiveAll(r, b, listener).1 == ReceiveAll(r, b, listener).1;
    } else {
      var step := Receive(r, a[0], listener);
      assert (a + b)[0] == a[0];
      assert (a + b)[1..] == a[1..] + b;
      ReceiveAllSplit(step.0, a[1..], b, listener);
      var tailA := ReceiveAll(step.0, a[1..], listener);
      var tailB := ReceiveAll(tailA.0, b, listener);
      assert ReceiveAll(r, a, listener) == (tailA.0, [step.1] + tailA.1);
      assert ReceiveAll(r, a + b, listener) == (tailB.0, [step.1] + (tailA.1 + tailB.1));
      assert [step.1] + (tailA.1 + tailB.1) == ([step.1] + tailA.1) + tailB.1;
    }
  }

  /** The progress reports for chunks `start + 1 .. start + n` of a transfer declaring `declared` chunks. */
  function ProgressNotices(start: nat, n: nat, declared: nat, listener: bool): seq<Notice>
  {
    seq(n, k requires 0 <= k < n => if listener && declared != 0 then Progress(start + k + 1, declared) else Silent)
  }

  /** While a transfer is open every binary frame is appended, in order, and reported as progress. */
  lemma {:induction false} ReceiveChunks(m: FileMetadata, prior: seq<seq<Byte>>, cs: seq<seq<Byte>>, listener: bool)
    ensures ReceiveAll(Receiver(Some(m), prior), ChunkFrames(cs), listener)
         == (Receiver(Some(m), prior + cs), ProgressNotices(|prior|, |cs|, m.chunks, listener))
    decreases |cs|
  {
    var fs := ChunkFrames(cs);
    if cs != [] {
      assert fs[0] == BinaryFrame(cs[0]);
      assert fs[1..] == ChunkFrames(cs[1..]);
      ReceiveChunks(m, prior + [cs[0]], cs[1..], listener);
      assert prior + [cs[0]] + cs[1..] == prior + cs;
      var tail := ProgressNotices(|prior| + 1, |cs| - 1, m.chunks, listener);
      var first := if listener && m.chunks != 0 then Progress(|prior| + 1, m.chunks) else Silent;
      assert [first] + tail == ProgressNotices(|prior|, |cs|, m.chunks, listener);
    } else {
      assert fs == [];
      assert prior + cs == prior;
      assert ProgressNotices(|prior|, 0, m.chunks, listener) == [];
    }
  }

  /**
   * Round trip: whatever state the receiver is in, the frames `sendFile`
   * emits make it report progress once per chunk, deliver exactly the sent
   * file (name, MIME type, timestamp and every byte), and return to no open
   * transfer.
   */
  lemma TransferRoundTrip(r: Receiver, file: LocalFile, now: int, listener: bool)
    ensures ReceiveAll(r, Transmission(file, now), listener)
         == (Idle,
             [Silent]
             + ProgressNotices(0, |Chunks(file.bytes)|, DeclaredChunks(|file.bytes|), listener)
             + [Delivered(ReceivedFile(file.name, file.mime, now, file.bytes))])
  {
    var m := Metadata(file, now);
    var cs := Chunks(file.bytes);
    var meta, body, end := [MetaFrame(m)], ChunkFrames(cs), [TextFrame(EndMarker)];
    var started, filled := Receiver(Some(m), []), Receiver(Some(m), cs);
    var progress := ProgressNotices(0, |cs|, m.chunks, listener);
    var delivered := Delivered(ReceivedFile(file.name, file.mime, now, file.bytes));
    assert Transmission(file, now) == meta + (body + end);
    ReceiveAllSplit(r, meta, body + end, listener);
    ReceiveOne(r, MetaFrame(m), listener);
    ReceiveAllSplit(started, body, end, listener);
    ReceiveChunks(m, [], cs, listener);
    assert [] + cs == cs;
    ReceiveOne(filled, TextFrame(EndMarker), listener);
    assert Assemble(m, cs) == ReceivedFile(file.name, file.mime, now, file.bytes);
    assert ReceiveAll(started, body + end, listener) == (Idle, progress + [delivered]);
    assert [Silent] + (progress + [delivered]) == [Silent] + progress + [delivered];
  }

  /**
   * A transfer cut short by a throwing `send` after the metadata delivers
   * nothing: whatever state the receiver was in, it ends with the transfer
   * open, holding the chunks that got through, having reported only their
   * progress.
   */
  lemma CutTransferDeliversNothing(r: Receiver, file: LocalFile, now: int, n: nat, listener: bool)
    requires 0 < n < |Transmission(file, now)|
    ensures ReceiveAll(r, UpTo(Transmission(file, now), Some(n)), listener)
         == (Receiver(Some(Metadata(file, now)), Chunks(file.bytes)[..n - 1]),
             [Silent] + ProgressNotices(0, n - 1, DeclaredChunks(|file.bytes|), listener))
  {
    var m := Metadata(file, now);
    var cs := Chunks(file.bytes);
    var t := Transmission(file, now);
    var meta, body := [MetaFrame(m)], ChunkFrames(cs[..n - 1]);
    assert t == meta + ChunkFrames(cs) + [TextFrame(EndMarker)];
    ChunkFramesPrefix(cs, n - 1);
    assert t[..n] == meta + body;
    ReceiveAllSplit(r, meta, body, listener);
    ReceiveOne(r, MetaFrame(m), listener);
    ReceiveChunks(m, [], cs[..n - 1], listener);
    assert [] + cs[..n - 1] == cs[..n - 1];
  }

  /** Frames other than metadata, received while no transfer is open, change nothing and report nothing. */
  lemma {:induction false} IgnoredWhileIdle(fs: seq<Frame>, listener: bool)
    requires forall k :: 0 <= k < |fs| ==> !fs[k].MetaFrame?
    ensures ReceiveAll(Idle, fs, listener) == (Idle, seq(|fs|, k => Silent))
    decreases |fs|
  {
    if fs == [] {
      assert seq(|fs|, k => Silent) == [];
    } else {
      IgnoredWhileIdle(fs[1..], listener);
      assert [Silent] + seq(|fs| - 1, k => Silent) == seq(|fs|, k => Silent);
    }
  }

  /** A 40000-byte file travels as chunks of 16384, 16384 and 7232 bytes, and the metadata declares 3. */
  lemma FortyThousandBytes(file: LocalFile)
    requires |file.bytes| == 40000
    ensures DeclaredChunks(|file.bytes|) == 3
    ensures |Chunks(file.bytes)| == 3
    ensures |Chunks(file.bytes)[0]| == 16384 && |Chunks(file.bytes)[1]| == 16384 && |Chunks(file.bytes)[2]| == 7232
  {
    ChunkCount(file.bytes);
    ChunkIsSlice(file.bytes, 0);
    ChunkIsSlice(file.bytes, 1);
    ChunkIsSlice(file.bytes, 2);
  }

  // ---------------------------------------------------------------------------
  // The buffer work of `assembleFile`
  // ---------------------------------------------------------------------------

  /** The `reduce` over the received chunks: the sum of their lengths, i.e. the size of the assembled file. */
  method SumLengths(cs: seq<seq<Byte>>) returns (total: nat)
    ensures total == |Concat(cs)|
  {
    total := 0;
    for i := 0 to |cs|
      invariant total == TotalLength(cs[..i])
    {
      assert cs[..i + 1][..i] == cs[..i];
      total := total + |cs[i]|;
    }
    assert cs[..|cs|] == cs;
  }

  /** `combined.set(chunk, offset)`: copies the chunk into the buffer at `offset` and leaves every other byte alone. */
  method SetAt(buf: array<Byte>, chunk: seq<Byte>, offset: nat)
    requires offset + |chunk| <= buf.Length
    modifies buf
    ensures buf[..offset + |chunk|] == old(buf[..offset]) + chunk
    ensures buf[offset + |chunk|..] == old(buf[offset + |chunk|..])
  {
    for j := 0 to |chunk|
      invariant buf[..offset + j] == old(buf[..offset]) + chunk[..j]
      invariant buf[offset + j..] == old(buf[offset + j..])
    {
      buf[offset + j] := chunk[j];
    }
  }

  /** The copy loop of `assembleFile`: the chunks written one after another from offset 0 fill the buffer with their concatenation. */
  method Fill(buf: array<Byte>, cs: seq<seq<Byte>>)
    requires buf.Length == |Concat(cs)|
    modifies buf
    ensures buf[..] == Concat(cs)
  {
    var offset := 0;
    for i := 0 to |cs|
      invariant offset == |Concat(cs[..i])| <= buf.Length
      invariant buf[..offset] == Concat(cs[..i])
    {
      var chunk := cs[i];
      assert cs[..i + 1] == cs[..i] + [chunk];
      ConcatSplit(cs[..i], [chunk]);
      assert cs[..i + 1] + cs[i + 1..] == cs;
      ConcatSplit(cs[..i + 1], cs[i + 1..]);
      SetAt(buf, chunk, offset);
      offset := offset + |chunk|;
    }
    assert cs[..|cs|] == cs;
    assert buf[..] == buf[..offset];
  }

  // ---------------------------------------------------------------------------
  // The manager object
  // ---------------------------------------------------------------------------

  class FileTransferManager {
    /** Whether `setDataChannel` has attached a channel (and installed the handler). */
    var attached: bool
    /** Whether the installed handler was given an `onProgress` callback. */
    var progressListener: bool
    /** The frames sent on the attached channel so far, in order. */
    var sent: seq<Frame>
    var incomingFileMeta: Option<FileMetadata>
    var receivedChunks: seq<seq<Byte>>

    /** The receiving state as a value. */
    function State(): Receiver
      reads this
    {
      Receiver(incomingFileMeta, receivedChunks)
    }

    /** The constructor attaches the channel only when both a channel and `onFileReceived` are given. */
    constructor (channel: bool, onFileReceived: bool, onProgress: bool)
      ensures attached == (channel && onFileReceived)
      ensures progressListener == (attached && onProgress)
      ensures sent == [] && State() == Idle
    {
      attached := channel && onFileReceived;
      progressListener := channel && onFileReceived && onProgress;
      sent := [];
      incomingFileMeta := None;
      receivedChunks := [];
    }

    /** Attaches a channel and installs the receiving handler; the receiving state is kept. */
    method SetDataChannel(onProgress: bool)
      modifies this`attached, this`progressListener
      ensures attached && progressListener == onProgress
    {
      attached := true;
      progressListener := onProgress;
    }

    /** The `onmessage` handler: one step of the receiver, as `Receive` specifies. */
    method OnMessage(f: Frame) returns (notice: Notice)
      requires attached
      modifies this`incomingFileMeta, this`receivedChunks
      ensures (State(), notice) == Receive(old(State()), f, progressListener)
    {
      match f
      case MetaFrame(m) =>
        incomingFileMeta := Some(m);
        receivedChunks := [];
        notice := Silent;
      case TextFrame(t) =>
        if t == EndMarker && incomingFileMeta.Some? {
          var file := AssembleFile();
          notice := Delivered(file.value);
        } else {
          notice := Silent;
        }
      case BinaryFrame(b) =>
        notice := Silent;
        if incomingFileMeta.Some? {
          receivedChunks := receivedChunks + [b];
          if progressListener && incomingFileMeta.value.chunks != 0 {
            notice := Progress(|receivedChunks|, incomingFileMeta.value.chunks);
          }
        }
    }

    /**
     * `assembleFile`: sums the chunk lengths, fills a buffer of that length
     * chunk by chunk at a running offset, wraps it with the metadata and
     * resets the receiving state. Without open metadata it does nothing.
     */
    method AssembleFile() returns (file: Option<ReceivedFile>)
      modifies this`incomingFileMeta, this`receivedChunks
      ensures old(incomingFileMeta).None? ==> file == None && State() == old(State())
      ensures old(incomingFileMeta).Some? ==>
        && file == Some(Assemble(old(incomingFileMeta).value, old(receivedChunks)))
        && State() == Idle
    {
      if incomingFileMeta.None? {
        return None;
      }
      var meta := incomingFileMeta.value;
      var total := SumLengths(receivedChunks);
      var combined := new Byte[total];
      Fill(combined, receivedChunks);
      file := Some(ReceivedFile(meta.name, meta.mime, meta.timestamp, combined[..]));
      incomingFileMeta := None;
      receivedChunks := [];
    }

    /**
     * `sendFile`: sends the metadata, then the slices of the file, then the
     * end marker. Nothing reaches a channel that is not attached. On an
     * attached channel `send` succeeds `failsAfter` times and then throws
     * (a channel that is not, or no longer, open): a throw on the metadata
     * escapes `sendFile`, a throw inside the read loop ends it, and either
     * way nothing more is sent. `SentFramesArePrefix` shows what gets
     * through is the transmission cut after `failsAfter` frames.
     */
    method SendFile(file: LocalFile, now: int, failsAfter: Option<nat>)
      modifies this`sent
      ensures sent == old(sent) + (if attached then SentFrames(file, now, failsAfter) else [])
    {
      if !attached {
        var _, _ := SendChunks(file.bytes, failsAfter);
      } else if failsAfter != Some(0) {
        var rest := if failsAfter.Some? then Some(failsAfter.value - 1) else None;
        SendAfterMetadataGoesOut(file, now, rest);
      }
    }

    /**
     * `sendFile` on an attached channel whose `send` takes the metadata and
     * then succeeds `rest` more times: the metadata, the chunk frames that
     * got through, and the end marker only if every chunk did and `send`
     * still succeeds.
     */
    method SendAfterMetadataGoesOut(file: LocalFile, now: int, rest: Option<nat>)
      requires attached
      modifies this`sent
      ensures var cf := ChunkFrames(Chunks(file.bytes));
        sent == old(sent) + [MetaFrame(Metadata(file, now))] + UpTo(cf, rest)
                + (if rest.None? || rest.value > |cf| then [TextFrame(EndMarker)] else [])
    {
      sent := sent + [MetaFrame(Metadata(file, now))];
      var finished, left := SendChunks(file.bytes, rest);
      if finished && left != Some(0) {
        sent := sent + [TextFrame(EndMarker)];
      }
    }

    /**
     * The `readNextChunk` / `reader.onload` loop of `sendFile`: reads and
     * sends the slice at `offset`, advances `offset` by ChunkSize, and goes on
     * while `offset` is below the file size. On an attached channel `send`
     * succeeds `budget` more times and then throws, which ends the loop;
     * `finished` says whether every slice went out, and `left` is what
     * remains of the budget.
     */
    method SendChunks(data: seq<Byte>, budget: Option<nat>) returns (finished: bool, left: Option<nat>)
      modifies this`sent
      ensures finished <==> !attached || budget.None? || |Chunks(data)| <= budget.value
      ensures sent == old(sent) + (if attached then UpTo(ChunkFrames(Chunks(data)), budget) else [])
      ensures attached && finished ==>
        left == (if budget.Some? then Some(budget.value - |Chunks(data)|) else None)
      ensures attached ==>
        (finished && left != Some(0) <==> budget.None? || |ChunkFrames(Chunks(data))| < budget.value)
    {
      ghost var cs := Chunks(data);
      ghost var frames := ChunkFrames(cs);
      var offset := 0;
      ghost var k := 0;
      var done := false;
      finished, left := true, budget;
      while !done
        invariant offset == k * ChunkSize && k <= |cs| == |frames|
        invariant !done ==> k < |cs|
        invariant done && finished ==> k == |cs|
        invariant !finished ==> done && attached && budget.Some? && k == budget.value < |cs|
        invariant attached && budget.Some? ==> k <= budget.value && left == Some(budget.value - k)
        invariant !attached || budget.None? ==> left == budget
        invariant sent == old(sent) + (if attached then frames[..k] else [])
        decreases |cs| - k, if done then 0 else 1
      {
        if attached && left == Some(0) {
          finished, done := false, true;
        } else {
          ChunkIsSlice(data, k);
          LastChunk(data, k);
          var slice := data[offset .. Min(offset + ChunkSize, |data|)];
          assert frames[..k + 1] == frames[..k] + [BinaryFrame(slice)];
          if attached {
            sent := sent + [BinaryFrame(slice)];
            if left.Some? {
              left := Some(left.value - 1);
            }
          }
          offset := offset + ChunkSize;
          k := k + 1;
          if offset >= |data| {
            done := true;
          }
        }
      }
      assert frames[..|frames|] == frames;
    }
  }
}
