/** Bounded newline-terminated JSON frames: the reader's loop over arbitrary buffers agrees with
    splitting the stream at its first newline, and reads back whatever the writer wrote. */
module Framing {
  import opened Results

  newtype byte = x: int | 0 <= x < 256

  const NEWLINE: byte := 10

  // ---- the stream ----

  /** What one fill of the buffer yields. */
  datatype Delivery = Data(bytes: seq<byte>) | Fault

  ghost predicate Filled(ds: seq<Delivery>) { forall d :: d in ds && d.Data? ==> d.bytes != [] }

  /** The bytes that arrive before the first fault. */
  function Arriving(ds: seq<Delivery>): seq<byte> {
    if ds == [] || ds[0].Fault? then [] else ds[0].bytes + Arriving(ds[1..])
  }

  predicate Faulty(ds: seq<Delivery>) { exists d :: d in ds && d.Fault? }

  /** A buffered reader; deliveries holds what is buffered and what will still arrive. */
  class Reader {
    var deliveries: seq<Delivery>

    constructor (deliveries: seq<Delivery>)
      ensures this.deliveries == deliveries
    {
      this.deliveries := deliveries;
    }

    /** fill_buf: the buffered bytes, not consumed; nothing at the end of the stream. */
    method FillBuf() returns (r: Result<seq<byte>, ()>)
      requires Filled(deliveries)
      modifies this
      ensures Filled(deliveries)
      ensures r.Failure? <==> old(deliveries) != [] && old(deliveries)[0].Fault?
      ensures r.Failure? ==> deliveries == old(deliveries)[1..]
      ensures r.Success? ==> deliveries == old(deliveries)
      ensures r.Success? ==> r.value == if deliveries == [] then [] else deliveries[0].bytes
    {
      if deliveries == [] { return Success([]); }
      if deliveries[0].Fault? {
        deliveries := deliveries[1..];
        return Failure(());
      }
      return Success(deliveries[0].bytes);
    }

    method Consume(n: nat)
      requires Filled(deliveries) && deliveries != [] && deliveries[0].Data? && n <= |deliveries[0].bytes|
      modifies this
      ensures Filled(deliveries) && Faulty(deliveries) == Faulty(old(deliveries))
      ensures Arriving(old(deliveries)) == old(deliveries)[0].bytes[..n] + Arriving(deliveries)
      ensures n == |old(deliveries)[0].bytes| ==> deliveries == old(deliveries)[1..]
    {
      var left := deliveries[0].bytes[n..];
      var rest := deliveries[1..];
      assert deliveries == [deliveries[0]] + rest;
      assert deliveries[0].bytes == deliveries[0].bytes[..n] + left;
      if left == [] {
        deliveries := rest;
      } else {
        deliveries := [Data(left)] + rest;
        assert deliveries[1..] == rest;
      }
    }
  }

  // ---- the specification ----

  datatype Read = Nothing | Frame(bytes: seq<byte>) | Truncated | TooLarge | IoError

  /** Position of the first newline, or the length. */
  function FirstNewline(s: seq<byte>): (k: nat)
    ensures k <= |s| && (k < |s| ==> s[k] == NEWLINE)
    ensures forall j :: 0 <= j < k ==> s[j] != NEWLINE
  {
    if s == [] || s[0] == NEWLINE then 0 else 1 + FirstNewline(s[1..])
  }

  /** The first line of the stream, if it fits. */
  function FirstFrame(s: seq<byte>, faulty: bool, max: nat): Read {
    var k := FirstNewline(s);
    if k > max then TooLarge
    else if k < |s| then Frame(s[..k])
    else if faulty then IoError
    else if s == [] then Nothing
    else Truncated
  }

  lemma NewlineIs(s: seq<byte>, k: nat)
    requires k <= |s| && (k < |s| ==> s[k] == NEWLINE) && forall j :: 0 <= j < k ==> s[j] != NEWLINE
    ensures FirstNewline(s) == k
  {
  }

  /** Looking at one more buffer: what was read so far holds no newline. */
  lemma NewlineThrough(read: seq<byte>, buffer: seq<byte>, rest: seq<byte>)
    requires NEWLINE !in read
    ensures FirstNewline(read + (buffer + rest)) ==
      if FirstNewline(buffer) < |buffer| then |read| + FirstNewline(buffer) else |read| + |buffer| + FirstNewline(rest)
  {
    var k := if FirstNewline(buffer) < |buffer| then |read| + FirstNewline(buffer) else |read| + |buffer| + FirstNewline(rest);
    NewlineIs(read + (buffer + rest), k);
  }

  // ---- the reader ----

  /** Part of the first line has been read and ds is still to come. */
  ghost predicate Midway(all: seq<byte>, faulty: bool, read: seq<byte>, ds: seq<Delivery>, max: nat) {
    all == read + Arriving(ds) && Faulty(ds) == faulty && NEWLINE !in read && |read| <= max
  }

  lemma StreamEnds(all: seq<byte>, faulty: bool, read: seq<byte>, ds: seq<Delivery>, max: nat)
    requires Midway(all, faulty, read, ds, max) && ds == []
    ensures FirstFrame(all, faulty, max) == if read == [] then Nothing else Truncated
  {
    assert all == read;
    NewlineIs(all, |all|);
  }

  lemma StreamFails(all: seq<byte>, faulty: bool, read: seq<byte>, ds: seq<Delivery>, max: nat)
    requires Midway(all, faulty, read, ds, max) && ds != [] && ds[0].Fault?
    ensures FirstFrame(all, faulty, max) == IoError
  {
    assert ds[0] in ds;
    assert all == read;
    NewlineIs(all, |all|);
  }

  /** The next buffer decides: too much, the end of the line, or more of it. */
  lemma BufferDecides(all: seq<byte>, faulty: bool, read: seq<byte>, ds: seq<Delivery>, max: nat, buffer: seq<byte>, k: nat)
    requires Midway(all, faulty, read, ds, max) && ds != [] && ds[0] == Data(buffer) && k == FirstNewline(buffer)
    ensures |read| + k > max ==> FirstFrame(all, faulty, max) == TooLarge
    ensures |read| + k <= max && k < |buffer| ==> FirstFrame(all, faulty, max) == Frame(read + buffer[..k])
    ensures |read| + k <= max && k == |buffer| ==> Midway(all, faulty, read + buffer[..k], ds[1..], max)
  {
    hide FirstFrame, FirstNewline, Faulty;
    var rest := Arriving(ds[1..]);
    assert all == read + (buffer + rest);
    BufferCases(read, buffer, rest, faulty, max);
    LaterFaults(ds);
    if k == |buffer| {
      assert buffer[..k] == buffer;
      assert read + (buffer + rest) == (read + buffer) + rest;
    }
  }

  lemma BufferCases(read: seq<byte>, buffer: seq<byte>, rest: seq<byte>, faulty: bool, max: nat)
    requires NEWLINE !in read
    ensures var k := FirstNewline(buffer);
      && (|read| + k > max ==> FirstFrame(read + (buffer + rest), faulty, max) == TooLarge)
      && (|read| + k <= max && k < |buffer| ==> FirstFrame(read + (buffer + rest), faulty, max) == Frame(read + buffer[..k]))
  {
    NewlineThrough(read, buffer, rest);
    var k := FirstNewline(buffer);
    assert (read + (buffer + rest))[..|read| + k] == read + buffer[..k];
  }

  lemma LaterFaults(ds: seq<Delivery>)
    requires ds != [] && ds[0].Data?
    ensures Faulty(ds) == Faulty(ds[1..])
  {
    assert ds == [ds[0]] + ds[1..];
  }

  lemma LineEnds(all: seq<byte>, read: seq<byte>, buffer: seq<byte>, k: nat, arriving: seq<byte>, later: seq<byte>)
    requires all == read + arriving && k < |buffer| && buffer[k] == NEWLINE && arriving == buffer[..k + 1] + later
    ensures all == read + buffer[..k] + [NEWLINE] + later
  {
    assert buffer[..k + 1] == buffer[..k] + [NEWLINE];
  }

  method ReadFrame(reader: Reader, max: nat) returns (r: Read)
    requires Filled(reader.deliveries)
    modifies reader
    ensures Filled(reader.deliveries)
    ensures r == FirstFrame(Arriving(old(reader.deliveries)), Faulty(old(reader.deliveries)), max)
    ensures r.Frame? ==> Arriving(old(reader.deliveries)) == r.bytes + [NEWLINE] + Arriving(reader.deliveries)
    ensures r.Frame? ==> Faulty(reader.deliveries) == Faulty(old(reader.deliveries)) && |r.bytes| <= max
    ensures r.TooLarge? ==> exists read :: |read| <= max && Arriving(old(reader.deliveries)) == read + Arriving(reader.deliveries)
  {
    hide Faulty, Arriving, FirstFrame;
    var frame: seq<byte> := [];
    ghost var all, faulty := Arriving(reader.deliveries), Faulty(reader.deliveries);
    assert all == frame + all;
    while true
      invariant Filled(reader.deliveries) && Midway(all, faulty, frame, reader.deliveries, max)
      decreases |reader.deliveries|
    {
      ghost var before := reader.deliveries;
      var filled := reader.FillBuf();
      if filled.Failure? {
        StreamFails(all, faulty, frame, before, max);
        return IoError;
      }
      var available := filled.value;
      if available == [] {
        StreamEnds(all, faulty, frame, before, max);
        return if frame == [] then Nothing else Truncated;
      }
      var newline := FirstNewline(available);
      BufferDecides(all, faulty, frame, before, max, available, newline);
      if |frame| + newline > max { return TooLarge; }
      reader.Consume(if newline < |available| then newline + 1 else newline);
      if newline < |available| {
        LineEnds(all, frame, available, newline, Arriving(before), Arriving(reader.deliveries));
        return Frame(frame + available[..newline]);
      }
      frame := frame + available[..newline];
    }
  }

  // ---- JSON values ----

  /** An encoder and a decoder of values; the text of JSON strings escapes control characters, so an
      encoding never holds a raw newline (section 7 of RFC 8259). */
  datatype Codec<!T> = Codec(encode: T -> seq<byte>, decode: seq<byte> -> Option<T>)

  ghost predicate Faithful<T(!new)>(c: Codec<T>) {
    forall v :: NEWLINE !in c.encode(v) && c.decode(c.encode(v)) == Some(v)
  }

  datatype FrameError = ReadFailed | FrameTooLarge | TruncatedFrame | InvalidJson

  /** The value a read stands for. */
  function ValueOf<T>(c: Codec<T>, r: Read): Result<Option<T>, FrameError> {
    match r
    case Nothing => Success(None)
    case Frame(bytes) =>
      (match c.decode(bytes)
       case Some(v) => Success(Some(v))
       case None => Failure(InvalidJson))
    case Truncated => Failure(TruncatedFrame)
    case TooLarge => Failure(FrameTooLarge)
    case IoError => Failure(ReadFailed)
  }

  method ReadJsonLine<T>(c: Codec<T>, reader: Reader, max: nat) returns (r: Result<Option<T>, FrameError>)
    requires Filled(reader.deliveries)
    modifies reader
    ensures Filled(reader.deliveries)
    ensures r == ValueOf(c, FirstFrame(Arriving(old(reader.deliveries)), Faulty(old(reader.deliveries)), max))
    ensures r.Success? && r.value.Some? ==>
      && Faulty(reader.deliveries) == Faulty(old(reader.deliveries))
      && Arriving(reader.deliveries) == AfterLine(Arriving(old(reader.deliveries)))
  {
    var frame := ReadFrame(reader, max);
    match frame {
      case Nothing => return Success(None);
      case Truncated => return Failure(TruncatedFrame);
      case TooLarge => return Failure(FrameTooLarge);
      case IoError => return Failure(ReadFailed);
      case Frame(bytes) =>
        LineConsumed(bytes, Arriving(reader.deliveries), Arriving(old(reader.deliveries)));
        match c.decode(bytes) {
          case Some(v) => return Success(Some(v));
          case None => return Failure(InvalidJson);
        }
    }
  }

  /** The stream after its first line. */
  function AfterLine(s: seq<byte>): seq<byte> {
    var k := FirstNewline(s);
    if k < |s| then s[k + 1..] else []
  }

  lemma LineConsumed(line: seq<byte>, rest: seq<byte>, all: seq<byte>)
    requires all == line + [NEWLINE] + rest && FirstNewline(all) < |all| && line == all[..FirstNewline(all)]
    ensures rest == AfterLine(all)
  {
    assert all[|line| + 1..] == rest;
  }

  class Writer {
    var written: seq<byte>

    constructor ()
      ensures written == []
    {
      written := [];
    }

    method WriteAll(bytes: seq<byte>)
      modifies this
      ensures written == old(written) + bytes
    {
      written := written + bytes;
    }
  }

  method WriteJsonLine<T>(c: Codec<T>, writer: Writer, value: T, max: nat) returns (r: Result<(), FrameError>)
    modifies writer
    ensures r.Success? <==> |c.encode(value)| <= max
    ensures writer.written == if r.Success? then old(writer.written) + c.encode(value) + [NEWLINE] else old(writer.written)
  {
    var frame := c.encode(value);
    if |frame| > max { return Failure(FrameTooLarge); }
    writer.WriteAll(frame);
    writer.WriteAll([NEWLINE]);
    return Success(());
  }

  // ---- the secret reader ----

  datatype SecretError = SecretReadFailed | BoundOrTruncated | InvalidSecretJson

  /** The secret reader reports the two frame errors alike. */
  function Merged(e: FrameError): SecretError {
    match e
    case ReadFailed => SecretReadFailed
    case FrameTooLarge => BoundOrTruncated
    case TruncatedFrame => BoundOrTruncated
    case InvalidJson => InvalidSecretJson
  }

  function MergedResult<T>(r: Result<T, FrameError>): Result<T, SecretError> {
    match r
    case Success(v) => Success(v)
    case Failure(e) => Failure(Merged(e))
  }

  method ReadSecretJsonLine<T>(c: Codec<T>, reader: Reader, max: nat) returns (r: Result<Option<T>, SecretError>)
    requires Filled(reader.deliveries)
    modifies reader
    ensures Filled(reader.deliveries)
    ensures r == MergedResult(ValueOf(c, FirstFrame(Arriving(old(reader.deliveries)), Faulty(old(reader.deliveries)), max)))
    ensures r.Success? && r.value.Some? ==>
      && Faulty(reader.deliveries) == Faulty(old(reader.deliveries))
      && Arriving(reader.deliveries) == AfterLine(Arriving(old(reader.deliveries)))
  {
    hide Faulty, Arriving, FirstFrame;
    var bytes: seq<byte> := [];
    ghost var all, faulty := Arriving(reader.deliveries), Faulty(reader.deliveries);
    assert all == bytes + all;
    var line := false;
    while !line
      invariant Filled(reader.deliveries)
      invariant !line ==> Midway(all, faulty, bytes, reader.deliveries, max)
      invariant line ==> LineRead(all, faulty, bytes, reader.deliveries, max)
      decreases !line, |reader.deliveries|
    {
      ghost var before, read := reader.deliveries, bytes;
      var filled := reader.FillBuf();
      if filled.Failure? {
        StreamFails(all, faulty, bytes, before, max);
        return Failure(SecretReadFailed);
      }
      var available := filled.value;
      if available == [] {
        StreamEnds(all, faulty, bytes, before, max);
        return if bytes == [] then Success(None) else Failure(BoundOrTruncated);
      }
      var newline := FirstNewline(available);
      BufferDecides(all, faulty, bytes, before, max, available, newline);
      if |bytes| + newline > max { return Failure(BoundOrTruncated); }
      bytes := bytes + available[..newline];
      reader.Consume(if newline < |available| then newline + 1 else newline);
      line := newline < |available|;
      if line { LineEnds(all, read, available, newline, Arriving(before), Arriving(reader.deliveries)); }
    }
    FrameConsumed(bytes, Arriving(reader.deliveries), all, faulty, max);
    match c.decode(bytes) {
      case Some(v) => return Success(Some(v));
      case None => return Failure(InvalidSecretJson);
    }
  }

  /** The first line has been read and ds is what follows it. */
  ghost predicate LineRead(all: seq<byte>, faulty: bool, read: seq<byte>, ds: seq<Delivery>, max: nat) {
    FirstFrame(all, faulty, max) == Frame(read) && all == read + [NEWLINE] + Arriving(ds) && Faulty(ds) == faulty
  }

  lemma FrameConsumed(line: seq<byte>, rest: seq<byte>, all: seq<byte>, faulty: bool, max: nat)
    requires FirstFrame(all, faulty, max) == Frame(line) && all == line + [NEWLINE] + rest
    ensures rest == AfterLine(all)
  {
    LineConsumed(line, rest, all);
  }

  // ---- reading back what was written ----

  function Written<T>(c: Codec<T>, values: seq<T>): seq<byte> {
    if values == [] then [] else c.encode(values[0]) + [NEWLINE] + Written(c, values[1..])
  }

  /** One more write extends the written text as WriteJsonLine does. */
  lemma {:induction false} WrittenGrows<T>(c: Codec<T>, values: seq<T>, v: T)
    ensures Written(c, values + [v]) == Written(c, values) + c.encode(v) + [NEWLINE]
  {
    if values == [] {
      assert Written(c, [v]) == c.encode(v) + [NEWLINE] + Written(c, []);
    } else {
      assert (values + [v])[1..] == values[1..] + [v];
      WrittenGrows(c, values[1..], v);
    }
  }

  /** Every value up to a clean end of the stream; an error when a read fails. */
  function ReadEvery<T>(c: Codec<T>, s: seq<byte>, max: nat): (r: Result<seq<T>, FrameError>)
    decreases |s|
  {
    match ValueOf(c, FirstFrame(s, false, max))
    case Failure(e) => Failure(e)
    case Success(None) => Success([])
    case Success(Some(v)) =>
      match ReadEvery(c, AfterLine(s), max)
      case Failure(e) => Failure(e)
      case Success(vs) => Success([v] + vs)
  }

  lemma FirstWritten(line: seq<byte>, rest: seq<byte>, max: nat)
    requires NEWLINE !in line && |line| <= max
    ensures var s := line + [NEWLINE] + rest;
      FirstFrame(s, false, max) == Frame(line) && AfterLine(s) == rest
  {
    var s := line + [NEWLINE] + rest;
    NewlineIs(s, |line|);
    assert s[..|line|] == line && s[|line| + 1..] == rest;
  }

  /** Reading back any sequence of written frames gives that sequence and leaves nothing over. */
  lemma {:induction false} ReadsBackWritten<T(!new)>(c: Codec<T>, values: seq<T>, max: nat)
    requires Faithful(c) && forall v :: v in values ==> |c.encode(v)| <= max
    ensures ReadEvery(c, Written(c, values), max) == Success(values)
  {
    if values == [] {
      assert FirstFrame(Written(c, values), false, max) == Nothing;
    } else {
      hide FirstFrame, FirstNewline, AfterLine;
      var rest := Written(c, values[1..]);
      FirstWritten(c.encode(values[0]), rest, max);
      assert Written(c, values) == c.encode(values[0]) + [NEWLINE] + rest;
      ReadsBackWritten(c, values[1..], max);
      assert values == [values[0]] + values[1..];
    }
  }

  lemma CutFrame(line: seq<byte>, n: nat, max: nat)
    requires NEWLINE !in line && n <= |line| <= max
    ensures FirstFrame(line[..n], false, max) == if n == 0 then Nothing else Truncated
  {
    NewlineIs(line[..n], n);
  }

  /** A cut inside a frame is an error, a cut between frames gives the frames before it. */
  lemma {:induction false} CutIsNoticed<T(!new)>(c: Codec<T>, values: seq<T>, v: T, n: nat, max: nat)
    requires Faithful(c) && (forall w :: w in values ==> |c.encode(w)| <= max)
    requires n <= |c.encode(v)| <= max
    ensures ReadEvery(c, Written(c, values) + c.encode(v)[..n], max) == if n == 0 then Success(values) else Failure(TruncatedFrame)
  {
    var cut := c.encode(v)[..n];
    if values == [] {
      assert Written(c, values) + cut == cut;
      CutFrame(c.encode(v), n, max);
    } else {
      hide FirstFrame, FirstNewline, AfterLine;
      var rest := Written(c, values[1..]) + cut;
      assert Written(c, values) + cut == c.encode(values[0]) + [NEWLINE] + rest;
      FirstWritten(c.encode(values[0]), rest, max);
      CutIsNoticed(c, values[1..], v, n, max);
      assert values == [values[0]] + values[1..];
    }
  }

  /** An oversized first line is refused, whether or not its newline ever arrives. */
  lemma TooLargeExactly(s: seq<byte>, faulty: bool, max: nat)
    ensures FirstFrame(s, faulty, max).TooLarge? <==> |s| > max && NEWLINE !in s[..max + 1]
  {
    var k := FirstNewline(s);
    if k > max {
      assert NEWLINE !in s[..max + 1];
    } else if |s| > max && k < |s| {
      assert s[..max + 1][k] == NEWLINE;
    }
  }
}
