/**
 * Receiving files over one message stream (daemon/started_service_taildrop.go: `taildropChunkReader`
 * and the per-file loop of `SendTaildropFiles`). Byte counts are unbounded integers.
 */
module Taildrop {
  import opened Wrappers
  import opened Scalars

  datatype Message = Chunk(data: seq<Byte>) | FileDone | Other

  const ACK_INTERVAL: int := 0x10_0000

  datatype ReadError = EOF | StreamEnded | Unexpected

  datatype FinishError = FileChanged | Interrupted | BadMessage

  // ------------------------------------------------------------ the framing, as a reference

  /** The bytes of the chunks a stream opens with. */
  function Head(stream: seq<Message>): seq<Byte> {
    if stream == [] || !stream[0].Chunk? then [] else stream[0].data + Head(stream[1..])
  }

  /** The first file of a stream and what follows it, if the stream does open with a whole file. */
  function NextFile(stream: seq<Message>): Option<(seq<Byte>, seq<Message>)> {
    if stream == [] || stream[0].Other? then None
    else if stream[0].FileDone? then Some(([], stream[1..]))
    else
      var next := NextFile(stream[1..]);
      if next.None? then None else Some((stream[0].data + next.value.0, next.value.1))
  }

  /** The first `n` files of a stream and what follows them. */
  function Files(stream: seq<Message>, n: nat): Option<(seq<seq<Byte>>, seq<Message>)> {
    if n == 0 then Some(([], stream))
    else
      var before := Files(stream, n - 1);
      if before.None? then None
      else
        var next := NextFile(before.value.1);
        if next.None? then None else Some((before.value.0 + [next.value.0], next.value.1))
  }

  /** A stream without the messages that are neither chunks nor end marks. */
  function Clean(stream: seq<Message>): seq<Message> {
    if stream == [] then [] else (if stream[0].Other? then [] else [stream[0]]) + Clean(stream[1..])
  }

  lemma {:induction false} CleanConcat(a: seq<Message>, b: seq<Message>)
    ensures Clean(a + b) == Clean(a) + Clean(b)
  {
    if a == [] {
      assert a + b == b;
    } else {
      assert (a + b)[1..] == a[1..] + b;
      CleanConcat(a[1..], b);
    }
  }

  /** A stray message at the front of what is left changes nothing but the stream it was in. */
  lemma {:induction false} CleanDrops(a: seq<Message>, b: seq<Message>)
    ensures Clean(a + ([Other] + b)) == Clean(a + b)
  {
    CleanConcat(a, [Other] + b);
    CleanConcat(a, b);
    assert ([Other] + b)[1..] == b;
  }

  lemma {:induction false} NextFileCleaned(stream: seq<Message>)
    requires NextFile(stream).Some?
    ensures NextFile(Clean(stream)) == Some((NextFile(stream).value.0, Clean(NextFile(stream).value.1)))
  {
    assert Clean(stream)[1..] == Clean(stream[1..]);
    if stream[0].Chunk? {
      NextFileCleaned(stream[1..]);
    }
  }

  lemma {:induction false} HeadCleaned(stream: seq<Message>)
    ensures Head(stream) <= Head(Clean(stream))
  {
    if stream != [] && stream[0].Chunk? {
      assert Clean(stream)[1..] == Clean(stream[1..]);
      HeadCleaned(stream[1..]);
    }
  }

  /** What a stream still has to bring for a file whose bytes have all been taken: empty chunks and the end mark. */
  predicate EndsHere(stream: seq<Message>) {
    stream != [] && (stream[0].FileDone? || (stream[0] == Chunk([]) && EndsHere(stream[1..])))
  }

  ghost predicate AllChunks(messages: seq<Message>) { forall i :: 0 <= i < |messages| ==> messages[i].Chunk? }

  lemma {:induction false} HeadOfChunks(a: seq<Message>, b: seq<Message>)
    requires AllChunks(a)
    ensures Head(a + b) == Head(a) + Head(b)
  {
    if a == [] {
      assert a + b == b;
    } else {
      HeadOfChunks(a[1..], b);
      assert (a + b)[1..] == a[1..] + b;
    }
  }

  lemma {:induction false} HeadGrows(a: seq<Message>, m: Message)
    requires AllChunks(a)
    ensures Head(a + [m]) == Head(a) + if m.Chunk? then m.data else []
  {
    HeadOfChunks(a, [m]);
    assert [m][1..] == [];
  }

  lemma {:induction false} NextFileOfChunks(a: seq<Message>, b: seq<Message>)
    requires AllChunks(a)
    ensures NextFile(a + [FileDone] + b) == Some((Head(a), b))
  {
    if a == [] {
      assert (a + [FileDone] + b)[1..] == b;
    } else {
      NextFileOfChunks(a[1..], b);
      assert (a + [FileDone] + b)[1..] == a[1..] + [FileDone] + b;
    }
  }

  // ------------------------------------------------------------------- the reader

  /** The messages taken for a file: chunks, and the end mark once it has come. */
  ghost function Consumed(taken: seq<Message>, fileDone: bool): seq<Message> {
    if fileDone then taken + [FileDone] else taken
  }

  /** What was taken of the source is what was handed on and what is still in the buffer. */
  ghost predicate FrameOk(source: seq<Message>, taken: seq<Message>, fileDone: bool, buffer: seq<Byte>,
                          delivered: seq<Byte>) {
    && AllChunks(taken) && Consumed(taken, fileDone) <= source
    && Head(taken) == delivered + buffer
    && (fileDone ==> buffer == [])
  }

  lemma {:induction false} NothingTaken(source: seq<Message>)
    ensures FrameOk(source, [], false, [], []) && source == Consumed([], false) + source
  {
  }

  lemma {:induction false} TakeChunk(source: seq<Message>, taken: seq<Message>, data: seq<Byte>, rest: seq<Message>,
                                     delivered: seq<Byte>)
    requires FrameOk(source, taken, false, [], delivered) && source == taken + ([Chunk(data)] + rest)
    ensures FrameOk(source, taken + [Chunk(data)], false, data, delivered) && source == taken + [Chunk(data)] + rest
  {
    HeadGrows(taken, Chunk(data));
    assert delivered + [] == delivered;
  }

  lemma {:induction false} TakeEnd(source: seq<Message>, taken: seq<Message>, rest: seq<Message>, delivered: seq<Byte>)
    requires FrameOk(source, taken, false, [], delivered) && source == taken + ([FileDone] + rest)
    ensures FrameOk(source, taken, true, [], delivered) && source == Consumed(taken, true) + rest
  {
    assert source == taken + [FileDone] + rest;
  }

  lemma {:induction false} HandOn(source: seq<Message>, taken: seq<Message>, fileDone: bool, buffer: seq<Byte>,
                                  delivered: seq<Byte>, n: nat)
    requires FrameOk(source, taken, fileDone, buffer, delivered) && n <= |buffer|
    ensures FrameOk(source, taken, fileDone, buffer[n..], delivered + buffer[..n])
  {
    assert delivered + buffer == delivered + buffer[..n] + buffer[n..];
  }

  /** Acknowledgements rise strictly, and lag behind by less than the interval. */
  ghost predicate AcksOk(received: int, acknowledged: int, reports: seq<int>) {
    && 0 <= received - acknowledged < ACK_INTERVAL
    && (forall i, j :: 0 <= i < j < |reports| ==> reports[i] < reports[j])
    && (if reports == [] then acknowledged == 0
      else acknowledged == reports[|reports| - 1] && reports[0] >= ACK_INTERVAL)
  }

  class ChunkReader {
    var buffer: seq<Byte>
    var fileDone: bool
    var fileReceived: int
    var received: int
    var acknowledged: int
    /** Messages still to be received, and acknowledgements sent. */
    var stream: seq<Message>
    var reports: seq<int>

    /**
     * The stream when the file began; the same without the stray messages met since; whether there were
     * any; the chunks taken; and the bytes handed on.
     */
    ghost var origin: seq<Message>
    ghost var source: seq<Message>
    ghost var dropped: bool
    ghost var taken: seq<Message>
    ghost var delivered: seq<Byte>
    ghost var total: nat

    ghost predicate Valid()
      reads this
    {
      && FrameOk(source, taken, fileDone, buffer, delivered) && fileReceived == |delivered|
      && AcksOk(received, acknowledged, reports) && received == total
      && Clean(source) == Clean(origin) && (!dropped ==> source == origin)
    }

    /** The stream is what is left of the source. */
    ghost predicate Synced()
      reads this
    {
      source == Consumed(taken, fileDone) + stream
    }

    constructor (stream: seq<Message>)
      ensures Valid() && Synced() && origin == source == stream && buffer == [] && !fileDone && delivered == [] &&
        total == 0
    {
      NothingTaken(stream);
      this.stream := stream;
      buffer, fileDone, fileReceived, received, acknowledged, reports := [], false, 0, 0, 0, [];
      origin, source, dropped, taken, delivered, total := stream, stream, false, [], [], 0;
    }

    /** `beginFile`; the buffer is left as it is. */
    method BeginFile()
      requires Valid() && buffer == []
      modifies this
      ensures Valid() && Synced() && !fileDone && fileReceived == 0
      ensures origin == source == stream == old(stream) && !dropped && delivered == [] && taken == []
      ensures buffer == [] && received == old(received) && acknowledged == old(acknowledged) &&
        reports == old(reports) && total == old(total)
    {
      NothingTaken(stream);
      fileDone := false;
      fileReceived := 0;
      origin, source, dropped, taken, delivered := stream, stream, false, [], [];
    }

    /** Take a message into the buffer, or note the end of the file; what both loops do with a message. */
    method Receive() returns (e: Option<ReadError>)
      requires Valid() && Synced() && !fileDone && buffer == []
      modifies this
      ensures Valid() && Synced() && delivered == old(delivered) && origin == old(origin)
      ensures received == old(received) && acknowledged == old(acknowledged) && reports == old(reports) &&
        total == old(total)
      ensures e != Some(Unexpected) ==> source == old(source) && dropped == old(dropped)
      ensures e == Some(StreamEnded) <==> old(stream) == []
      ensures e == Some(Unexpected) <==> old(stream) != [] && old(stream)[0].Other?
      ensures e.Some? ==> old(stream) == [] || old(stream)[0].Other?
      ensures e.None? ==> stream == old(stream)[1..]
      ensures e.None? ==>
        if old(stream)[0].Chunk? then !fileDone && buffer == old(stream)[0].data else fileDone && buffer == []
      ensures e.Some? ==> !fileDone && buffer == []
    {
      if stream == [] {
        return Some(StreamEnded);
      }
      var message := stream[0];
      assert stream == [message] + stream[1..];
      stream := stream[1..];
      match message
      case Chunk(data) =>
        TakeChunk(source, taken, data, stream, delivered);
        buffer := data;
        taken := taken + [message];
        e := None;
      case FileDone =>
        TakeEnd(source, taken, stream, delivered);
        fileDone := true;
        e := None;
      case Other =>
        CleanDrops(taken, stream);
        source, dropped := taken + stream, true;
        e := Some(Unexpected);
    }

    /** `Read` into a destination of the given size. */
    method Read(size: nat) returns (data: seq<Byte>, e: Option<ReadError>)
      requires Valid() && Synced()
      modifies this
      ensures Valid() && Synced() && origin == old(origin)
      ensures e != Some(Unexpected) ==> source == old(source) && dropped == old(dropped)
      ensures delivered == old(delivered) + data && total == old(total) + |data|
      ensures e.None? ==> |data| <= size && (size > 0 ==> data != [])
      ensures e.Some? ==> data == [] && buffer == []
      ensures e == Some(EOF) ==> fileDone && Head(taken) == delivered
      ensures old(reports) <= reports
    {
      e := Fill();
      if e.Some? {
        return [], e;
      }
      data := Take(size);
    }

    /** What `Read` does once the buffer holds something. */
    method Take(size: nat) returns (data: seq<Byte>)
      requires Valid() && Synced()
      modifies this`buffer, this`delivered, this`fileReceived, this`received, this`acknowledged, this`reports,
        this`total
      ensures Valid() && Synced()
      ensures delivered == old(delivered) + data && total == old(total) + |data|
      ensures |data| == if size < |old(buffer)| then size else |old(buffer)|
      ensures old(reports) <= reports
    {
      data := Deliver(size);
      Account(|data|);
    }

    /** Hand on the front of the buffer. */
    method Deliver(size: nat) returns (data: seq<Byte>)
      requires FrameOk(source, taken, fileDone, buffer, delivered) && fileReceived == |delivered|
      modifies this`buffer, this`delivered, this`fileReceived
      ensures FrameOk(source, taken, fileDone, buffer, delivered) && fileReceived == |delivered|
      ensures delivered == old(delivered) + data && old(buffer) == data + buffer
      ensures |data| == if size < |old(buffer)| then size else |old(buffer)|
    {
      var n := if size < |buffer| then size else |buffer|;
      data := buffer[..n];
      HandOn(source, taken, fileDone, buffer, delivered, n);
      buffer := buffer[n..];
      delivered := delivered + data;
      fileReceived := fileReceived + n;
    }

    /** The loop of `Read`: receive until the buffer holds something. */
    method Fill() returns (e: Option<ReadError>)
      requires Valid() && Synced()
      modifies this
      ensures Valid() && Synced() && origin == old(origin) && delivered == old(delivered)
      ensures received == old(received) && acknowledged == old(acknowledged) && reports == old(reports) &&
        total == old(total)
      ensures e != Some(Unexpected) ==> source == old(source) && dropped == old(dropped)
      ensures e.None? <==> buffer != []
      ensures e == Some(EOF) ==> fileDone
    {
      while buffer == []
        invariant Valid() && Synced() && origin == old(origin) && source == old(source) && dropped == old(dropped)
        invariant delivered == old(delivered)
        invariant received == old(received) && acknowledged == old(acknowledged) && reports == old(reports) &&
          total == old(total)
        decreases |stream|, !fileDone
      {
        if fileDone {
          return Some(EOF);
        }
        e := Receive();
        if e.Some? {
          return;
        }
      }
      e := None;
    }

    /** Count bytes as received, and acknowledge them once enough have come. */
    method Account(n: nat)
      requires AcksOk(received, acknowledged, reports) && received == total
      modifies this`received, this`acknowledged, this`reports, this`total
      ensures AcksOk(received, acknowledged, reports) && received == total == old(total) + n
      ensures if received - old(acknowledged) >= ACK_INTERVAL then reports == old(reports) + [received]
        else reports == old(reports)
    {
      total := total + n;
      received := received + n;
      if received - acknowledged >= ACK_INTERVAL {
        acknowledged := received;
        reports := reports + [received];
      }
    }

    /**
     * `finishFile`. It succeeds exactly when nothing is left in the buffer, nothing but empty chunks
     * comes before the end mark, and the count is the declared one.
     */
    method FinishFile(declared: int) returns (e: Option<FinishError>)
      requires Valid() && Synced()
      modifies this
      ensures Valid() && Synced() && origin == old(origin) && delivered == old(delivered) && total == old(total)
      ensures received == old(received) && acknowledged == old(acknowledged) && reports == old(reports)
      ensures e.None? <==>
        old(buffer) == [] && (old(fileDone) || EndsHere(old(stream))) && (declared < 0 || old(fileReceived) == declared)
      ensures e.None? ==> source == old(source) && dropped == old(dropped)
      ensures e.None? ==> fileDone && buffer == [] && NextFile(source) == Some((delivered, stream))
      ensures e.None? && declared >= 0 ==> |delivered| == declared
    {
      while !fileDone
        invariant Valid() && Synced() && origin == old(origin) && source == old(source) && dropped == old(dropped)
        invariant delivered == old(delivered) && total == old(total)
        invariant received == old(received) && acknowledged == old(acknowledged) && reports == old(reports)
        invariant fileDone ==> buffer == []
        invariant (buffer == [] && (fileDone || EndsHere(stream))) <==>
          (old(buffer) == [] && (old(fileDone) || EndsHere(old(stream))))
        decreases |stream|, !fileDone
      {
        if buffer != [] {
          return Some(FileChanged);
        }
        ghost var before := stream;
        var problem := Receive();
        if problem.Some? {
          assert !EndsHere(before);
          return Some(if problem == Some(StreamEnded) then Interrupted else BadMessage);
        }
      }
      if buffer != [] {
        return Some(FileChanged);
      }
      if declared >= 0 && fileReceived != declared {
        return Some(FileChanged);
      }
      assert source == taken + [FileDone] + stream && delivered + buffer == delivered;
      NextFileOfChunks(taken, stream);
      e := None;
    }

    /** At any time, the bytes handed on for a file are a prefix of that file's chunks, stray messages aside. */
    lemma {:induction false} DeliveredIsPrefix()
      requires Valid()
      ensures delivered <= Head(source) && delivered <= Head(Clean(origin))
    {
      HeadCleaned(source);
      var rest := source[|taken|..];
      assert taken <= source && source == taken + rest;
      HeadOfChunks(taken, rest);
    }
  }

  datatype Ending = Sent | ConsumerFailed | FileFailed(error: FinishError)

  /**
   * Who a file is handed to: the sizes of its reads, which may go on after a failure; its verdict when
   * no read failed; and whether it reports success although one did.
   */
  datatype Consumer = Consumer(sizes: seq<nat>, accepts: bool, forgives: bool)

  /** The files `files` and the stream `rest` are the first files of a stream and what follows them. */
  ghost predicate FirstFiles(stream: seq<Message>, files: seq<seq<Byte>>, rest: seq<Message>) {
    Files(stream, |files|) == Some((files, rest))
  }

  predicate Strict(consumers: seq<Consumer>, n: nat)
    requires n <= |consumers|
  {
    forall k :: 0 <= k < n ==> !consumers[k].forgives
  }

  /** How far the per-file loop has come: `files` were taken off the stream, and `rest` is left. */
  ghost predicate Progress(stream: seq<Message>, declared: seq<int>, consumers: seq<Consumer>, files: seq<seq<Byte>>,
                           rest: seq<Message>) {
    && |files| <= |declared| == |consumers|
    && FirstFiles(Clean(stream), files, Clean(rest))
    && (Strict(consumers, |files|) ==> FirstFiles(stream, files, rest))
    && (forall k :: 0 <= k < |files| && declared[k] >= 0 ==> |files[k]| == declared[k])
  }

  lemma {:induction false} ProgressStep(stream: seq<Message>, declared: seq<int>, consumers: seq<Consumer>,
                                        files: seq<seq<Byte>>,
                                        rest: seq<Message>, data: seq<Byte>, rest': seq<Message>)
    requires Progress(stream, declared, consumers, files, rest) && |files| < |declared|
    requires NextFile(Clean(rest)) == Some((data, Clean(rest')))
    requires !consumers[|files|].forgives ==> NextFile(rest) == Some((data, rest'))
    requires declared[|files|] >= 0 ==> |data| == declared[|files|]
    ensures Progress(stream, declared, consumers, files + [data], rest')
  {
    FilesStep(Clean(stream), |files|, files, Clean(rest), data, Clean(rest'));
    if Strict(consumers, |files| + 1) {
      FilesStep(stream, |files|, files, rest, data, rest');
    }
  }

  /**
   * The per-file loop. The files handed on are exactly the first files of the stream, stray messages
   * aside, each of its declared size, and the bytes of a file cut short are a prefix of that file. If no
   * consumer forgives a failed read, there were no stray messages among those files.
   */
  method SendFiles(reader: ChunkReader, declared: seq<int>, consumers: seq<Consumer>)
    returns (files: seq<seq<Byte>>, ending: Ending, ghost rest: seq<Message>)
    requires reader.Valid() && reader.Synced() && reader.buffer == [] && |consumers| == |declared|
    modifies reader
    ensures reader.Valid() && Progress(old(reader.stream), declared, consumers, files, rest)
    ensures ending.Sent? ==> |files| == |declared| && rest == reader.stream
    ensures !ending.Sent? ==> |files| < |declared| && reader.delivered <= Head(Clean(rest))
    ensures old(reader.reports) <= reader.reports
  {
    files, rest := [], reader.stream;
    for k := 0 to |declared|
      invariant reader.Valid() && reader.Synced() && reader.buffer == []
      invariant |files| == k && rest == reader.stream && Progress(old(reader.stream), declared, consumers, files, rest)
      invariant old(reader.reports) <= reader.reports
    {
      var data;
      data, ending := SendFile(reader, declared[k], consumers[k]);
      if !ending.Sent? {
        return;
      }
      ProgressStep(old(reader.stream), declared, consumers, files, rest, data, reader.stream);
      files, rest := files + [data], reader.stream;
    }
    ending := Sent;
  }

  method SendFile(reader: ChunkReader, declared: int, consumer: Consumer) returns (data: seq<Byte>, ending: Ending)
    requires reader.Valid() && reader.Synced() && reader.buffer == []
    modifies reader
    ensures reader.Valid() && reader.Synced() && reader.delivered == data && data <= Head(Clean(old(reader.stream)))
    ensures ending.Sent? ==>
      reader.buffer == [] && NextFile(Clean(old(reader.stream))) == Some((data, Clean(reader.stream)))
    ensures ending.Sent? && !consumer.forgives ==> NextFile(old(reader.stream)) == Some((data, reader.stream))
    ensures ending.Sent? && declared >= 0 ==> |data| == declared
    ensures old(reader.reports) <= reader.reports
  {
    reader.BeginFile();
    var broken;
    data, broken := Consume(reader, consumer.sizes);
    reader.DeliveredIsPrefix();
    assert reader.delivered == data;
    if !(if broken then consumer.forgives else consumer.accepts) {
      return data, ConsumerFailed;
    }
    var e := reader.FinishFile(declared);
    if e.Some? {
      return data, FileFailed(e.value);
    }
    NextFileCleaned(reader.source);
    ending := Sent;
  }

  lemma {:induction false} FilesStep(stream: seq<Message>, n: nat, files: seq<seq<Byte>>, left: seq<Message>,
                                     data: seq<Byte>, rest: seq<Message>)
    requires Files(stream, n) == Some((files, left)) && NextFile(left) == Some((data, rest))
    ensures Files(stream, n + 1) == Some((files + [data], rest))
  {
  }

  lemma {:induction false} Associates(a: seq<Byte>, b: seq<Byte>, c: seq<Byte>)
    ensures a + b + c == a + (b + c)
  {
  }

  /** The reads of one file: the bytes they returned, and whether one failed with anything but the end of the file. */
  method Consume(reader: ChunkReader, sizes: seq<nat>) returns (data: seq<Byte>, broken: bool)
    requires reader.Valid() && reader.Synced()
    modifies reader
    ensures reader.Valid() && reader.Synced() && reader.origin == old(reader.origin)
    ensures !broken ==> reader.dropped == old(reader.dropped)
    ensures reader.delivered == old(reader.delivered) + data && reader.total == old(reader.total) + |data|
    ensures old(reader.reports) <= reader.reports
  {
    data, broken := [], false;
    for i := 0 to |sizes|
      invariant reader.Valid() && reader.Synced() && reader.origin == old(reader.origin)
      invariant !broken ==> reader.dropped == old(reader.dropped)
      invariant reader.delivered == old(reader.delivered) + data && reader.total == old(reader.total) + |data|
      invariant old(reader.reports) <= reader.reports
    {
      var more, e := reader.Read(sizes[i]);
      Associates(old(reader.delivered), data, more);
      data := data + more;
      broken := broken || (e.Some? && !e.value.EOF?);
    }
  }
}
