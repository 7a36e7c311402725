/** The incremental pcap parser of `benchmarks/rtp_header_capture.py`. Its results are functions
    of the byte stream alone, however the stream is cut into chunks, and the framing it performs
    is the only way to read the stream as whole capture records. */
module RtpCapture {
  import opened Options

  type Byte = b: int | 0 <= b < 256

  datatype Endian = Little | Big

  const BUFFER_BOUND: nat := 1024 * 1024
  const SNAP_LENGTH: nat := 54
  const FILE_HEADER: nat := 24
  const RECORD_HEADER: nat := 16
  /** What may stay buffered between two calls. */
  const MAX_LEFTOVER: nat := RECORD_HEADER + SNAP_LENGTH - 1

  // ----- fixed-width integers -----

  /** The number of values `width` bytes can hold. */
  function Range(width: nat): nat {
    if width == 0 then 1 else Range(width - 1) * 256
  }

  lemma FourByteRange()
    ensures Range(4) == 0x1_0000_0000
  {
    assert Range(2) == 0x1_0000;
  }

  /** The big-endian reading of a byte string. */
  function FromBytes(b: seq<Byte>): (v: nat)
    ensures v < Range(|b|)
  {
    if b == [] then 0 else FromBytes(b[..|b| - 1]) * 256 + b[|b| - 1] as int
  }

  function ToBytes(v: nat, width: nat): (b: seq<Byte>)
    ensures |b| == width
  {
    if width == 0 then [] else ToBytes(v / 256, width - 1) + [v % 256]
  }

  function Reverse(b: seq<Byte>): (r: seq<Byte>)
    ensures |r| == |b| && forall i :: 0 <= i < |b| ==> r[i] == b[|b| - 1 - i]
  {
    if b == [] then [] else Reverse(b[1..]) + [b[0]]
  }

  function Unpack(e: Endian, b: seq<Byte>): (v: nat)
    ensures v < Range(|b|)
  {
    FromBytes(if e.Big? then b else Reverse(b))
  }

  function Pack(e: Endian, v: nat, width: nat): (b: seq<Byte>)
    ensures |b| == width
  {
    if e.Big? then ToBytes(v, width) else Reverse(ToBytes(v, width))
  }

  lemma {:induction false} BytesRoundTrip(b: seq<Byte>)
    ensures ToBytes(FromBytes(b), |b|) == b
  {
    if b != [] {
      BytesRoundTrip(b[..|b| - 1]);
      assert b == b[..|b| - 1] + [b[|b| - 1]];
    }
  }

  lemma {:induction false} NumberRoundTrip(v: nat, width: nat)
    requires v < Range(width)
    ensures FromBytes(ToBytes(v, width)) == v
  {
    if width > 0 {
      NumberRoundTrip(v / 256, width - 1);
      var b := ToBytes(v, width);
      assert b[..width - 1] == ToBytes(v / 256, width - 1);
    }
  }

  lemma PackUnpack(e: Endian, b: seq<Byte>)
    ensures Pack(e, Unpack(e, b), |b|) == b
  {
    BytesRoundTrip(b);
    BytesRoundTrip(Reverse(b));
    assert Reverse(Reverse(b)) == b;
  }

  lemma UnpackPack(e: Endian, v: nat, width: nat)
    requires v < Range(width)
    ensures Unpack(e, Pack(e, v, width)) == v
  {
    NumberRoundTrip(v, width);
    assert Reverse(Reverse(ToBytes(v, width))) == ToBytes(v, width);
  }

  // ----- the RTP fixed header: RFC 3550 section 5.1, behind RFC 791 and RFC 768 -----

  datatype Header = Header(
    sequence: nat, timestamp: nat, ssrc: nat, udpBytes: nat,
    marker: bool, extension: bool, csrcs: nat)

  /** IPv4 without options over Ethernet, carrying one unfragmented UDP datagram. */
  predicate PlainUdp(packet: seq<Byte>) {
    |packet| == SNAP_LENGTH
    && packet[12..14] == [0x08, 0x00]
    && packet[14] == 0x45
    && packet[23] == 17
    && Unpack(Big, packet[20..22]) % 0x4000 == 0
  }

  function RtpHeader(packet: seq<Byte>, ssrc: nat, payloadType: nat): Option<Header> {
    if !PlainUdp(packet) then None
    else
      var udp := Unpack(Big, packet[38..40]);
      var header := packet[42..54];
      if udp < 20 then None
      else if header[0] / 64 != 2 || header[1] % 128 != payloadType then None
      else
        var identity := Unpack(Big, header[8..12]);
        if identity != ssrc then None
        else Some(Header(Unpack(Big, header[2..4]), Unpack(Big, header[4..8]), identity, udp,
                         header[1] >= 128, header[0] / 16 % 2 == 1, header[0] % 16))
  }

  predicate HeaderInRange(h: Header) {
    h.sequence < Range(2) && h.timestamp < Range(4) && h.ssrc < Range(4)
    && 20 <= h.udpBytes < Range(2) && h.csrcs < 16
  }

  /** The twelve octets RFC 3550 section 5.1 prescribes for these fields. */
  function EncodeRtp(h: Header, padding: bool, payloadType: nat): (b: seq<Byte>)
    requires HeaderInRange(h) && payloadType < 128
    ensures |b| == 12
  {
    [128 + (if padding then 32 else 0) + (if h.extension then 16 else 0) + h.csrcs,
     (if h.marker then 128 else 0) + payloadType]
    + Pack(Big, h.sequence, 2) + Pack(Big, h.timestamp, 4) + Pack(Big, h.ssrc, 4)
  }

  ghost predicate Carries(packet: seq<Byte>, h: Header, payloadType: nat) {
    PlainUdp(packet) && HeaderInRange(h) && payloadType < 128
    && packet[38..40] == Pack(Big, h.udpBytes, 2)
    && (packet[42..54] == EncodeRtp(h, true, payloadType)
        || packet[42..54] == EncodeRtp(h, false, payloadType))
  }

  /** A row is produced exactly for packets that carry those field values for that stream. */
  lemma RtpHeaderReadsWhatIsCarried(packet: seq<Byte>, ssrc: nat, payloadType: nat, h: Header)
    ensures RtpHeader(packet, ssrc, payloadType) == Some(h)
            <==> h.ssrc == ssrc && Carries(packet, h, payloadType)
  {
    if RtpHeader(packet, ssrc, payloadType) == Some(h) {
      HeaderIsCarried(packet, ssrc, payloadType, h);
    }
    if Carries(packet, h, payloadType) {
      var padding := packet[42..54] == EncodeRtp(h, true, payloadType);
      EncodedFields(h, padding, payloadType);
      UnpackPack(Big, h.udpBytes, 2);
    }
  }

  lemma HeaderIsCarried(packet: seq<Byte>, ssrc: nat, payloadType: nat, h: Header)
    requires RtpHeader(packet, ssrc, payloadType) == Some(h)
    ensures Carries(packet, h, payloadType)
  {
    var b := packet[42..54];
    PackUnpack(Big, b[4..8]);
    PackUnpack(Big, b[8..12]);
    PackUnpack(Big, b[2..4]);
    PackUnpack(Big, packet[38..40]);
    assert b == b[..2] + b[2..4] + b[4..8] + b[8..12];
    var padding := b[0] / 32 % 2 == 1;
    assert b[0] == 128 + (if padding then 32 else 0) + (if h.extension then 16 else 0) + h.csrcs;
    assert b[..2] == EncodeRtp(h, padding, payloadType)[..2];
  }

  lemma EncodedFields(h: Header, padding: bool, payloadType: nat)
    requires HeaderInRange(h) && payloadType < 128
    ensures var b := EncodeRtp(h, padding, payloadType);
            b[0] / 64 == 2 && b[1] % 128 == payloadType
            && Unpack(Big, b[2..4]) == h.sequence && Unpack(Big, b[4..8]) == h.timestamp
            && Unpack(Big, b[8..12]) == h.ssrc
            && (b[1] >= 128) == h.marker && (b[0] / 16 % 2 == 1) == h.extension
            && b[0] % 16 == h.csrcs
  {
    var b := EncodeRtp(h, padding, payloadType);
    assert b[2..4] == Pack(Big, h.sequence, 2);
    assert b[4..8] == Pack(Big, h.timestamp, 4) && b[8..12] == Pack(Big, h.ssrc, 4);
    UnpackPack(Big, h.sequence, 2);
    UnpackPack(Big, h.timestamp, 4);
    UnpackPack(Big, h.ssrc, 4);
  }

  // ----- capture records -----

  datatype RecordFields = RecordFields(seconds: nat, micros: nat, original: nat, packet: seq<Byte>)

  predicate ValidRecord(r: RecordFields) {
    r.seconds < Range(4) && r.micros < 1_000_000
    && |r.packet| <= SNAP_LENGTH && |r.packet| <= r.original < Range(4)
  }

  type Record = r: RecordFields | ValidRecord(r) witness RecordFields(0, 0, 0, [])

  function EncodeRecord(e: Endian, r: Record): seq<Byte> {
    Pack(e, r.seconds, 4) + Pack(e, r.micros, 4) + Pack(e, |r.packet|, 4) + Pack(e, r.original, 4) + r.packet
  }

  function EncodeRecords(e: Endian, records: seq<Record>): seq<Byte> {
    if records == [] then [] else EncodeRecord(e, records[0]) + EncodeRecords(e, records[1..])
  }

  /** What the front of the buffer is: too short to tell, unacceptable, or a whole record. */
  datatype Front = Partial | Corrupt | Whole(record: Record)

  function ReadRecord(e: Endian, b: seq<Byte>): (front: Front)
    ensures front.Whole? ==> RECORD_HEADER + |front.record.packet| <= |b|
    ensures front.Partial? ==> |b| <= MAX_LEFTOVER
  {
    if |b| < RECORD_HEADER then Partial
    else
      var seconds, micros := Unpack(e, b[..4]), Unpack(e, b[4..8]);
      var captured, original := Unpack(e, b[8..12]), Unpack(e, b[12..16]);
      if captured > SNAP_LENGTH || micros >= 1_000_000 || original < captured then Corrupt
      else if |b| < RECORD_HEADER + captured then Partial
      else Whole(RecordFields(seconds, micros, original, b[RECORD_HEADER..RECORD_HEADER + captured]))
  }

  /** Reading a whole record loses nothing. */
  lemma WholeRecordEncodes(e: Endian, b: seq<Byte>)
    requires ReadRecord(e, b).Whole?
    ensures var r := ReadRecord(e, b).record;
            b == EncodeRecord(e, r) + b[RECORD_HEADER + |r.packet|..]
  {
    hide Pack, Unpack, Range;
    PackUnpack(e, b[..4]);
    PackUnpack(e, b[4..8]);
    PackUnpack(e, b[8..12]);
    PackUnpack(e, b[12..16]);
    var r := ReadRecord(e, b).record;
    assert EncodeRecord(e, r) == b[..4] + b[4..8] + b[8..12] + b[12..16] + r.packet;
  }

  /** And an encoded record is read back, whatever follows it. */
  lemma EncodedRecordIsRead(e: Endian, r: Record, tail: seq<Byte>)
    ensures ReadRecord(e, EncodeRecord(e, r) + tail) == Whole(r)
    ensures (EncodeRecord(e, r) + tail)[RECORD_HEADER + |r.packet|..] == tail
  {
    FourByteRange();
    hide Pack, Unpack, Range;
    var b := EncodeRecord(e, r) + tail;
    assert b[..4] == Pack(e, r.seconds, 4) && b[4..8] == Pack(e, r.micros, 4);
    assert b[8..12] == Pack(e, |r.packet|, 4) && b[12..16] == Pack(e, r.original, 4);
    UnpackPack(e, r.seconds, 4);
    UnpackPack(e, r.micros, 4);
    UnpackPack(e, |r.packet|, 4);
    UnpackPack(e, r.original, 4);
    assert b[RECORD_HEADER..RECORD_HEADER + |r.packet|] == r.packet;
  }

  lemma FrontIsStable(e: Endian, a: seq<Byte>, b: seq<Byte>)
    requires !ReadRecord(e, a).Partial?
    ensures ReadRecord(e, a + b) == ReadRecord(e, a)
    ensures ReadRecord(e, a).Whole? ==>
              var n := RECORD_HEADER + |ReadRecord(e, a).record.packet|;
              (a + b)[n..] == a[n..] + b
  {
    assert (a + b)[..4] == a[..4] && (a + b)[4..8] == a[4..8];
    assert (a + b)[8..12] == a[8..12] && (a + b)[12..16] == a[12..16];
    if ReadRecord(e, a).Whole? {
      var n := RECORD_HEADER + |ReadRecord(e, a).record.packet|;
      assert (a + b)[RECORD_HEADER..n] == a[RECORD_HEADER..n];
    }
  }

  datatype Framing = Framing(records: seq<Record>, rest: seq<Byte>, corrupt: bool) {
    /** This framing, found behind the records `earlier`. */
    function Behind(earlier: seq<Record>): Framing {
      this.(records := earlier + records)
    }
  }

  function Frame(e: Endian, b: seq<Byte>): (f: Framing)
    ensures !f.corrupt ==> |f.rest| <= MAX_LEFTOVER
    decreases |b|
  {
    match ReadRecord(e, b)
    case Partial => Framing([], b, false)
    case Corrupt => Framing([], b, true)
    case Whole(record) =>
      Frame(e, b[RECORD_HEADER + |record.packet|..]).Behind([record])
  }

  ghost predicate Reads(e: Endian, b: seq<Byte>, f: Framing) {
    b == EncodeRecords(e, f.records) + f.rest
    && ReadRecord(e, f.rest) == if f.corrupt then Corrupt else Partial
  }

  /** The framing is exactly the reading of the bytes as encoded valid records followed by a
      partial (or, when it fails, a corrupt) one: it exists for no other split. */
  lemma FramingIsTheOnlyReading(e: Endian, b: seq<Byte>, f: Framing)
    ensures Frame(e, b) == f <==> Reads(e, b, f)
  {
    FrameReads(e, b);
    if Reads(e, b, f) {
      ReadingIsFrame(e, f);
    }
  }

  lemma {:induction false} FrameReads(e: Endian, b: seq<Byte>)
    ensures Reads(e, b, Frame(e, b))
    decreases |b|
  {
    hide ReadRecord, EncodeRecord, EncodeRecords;
    EncodeRecordsSteps(e, []);
    match ReadRecord(e, b)
    case Partial => assert [] + b == b;
    case Corrupt => assert [] + b == b;
    case Whole(record) =>
      var tail := b[RECORD_HEADER + |record.packet|..];
      var f := Frame(e, tail);
      FrameReads(e, tail);
      WholeRecordEncodes(e, b);
      EncodeRecordsSteps(e, [record] + f.records);
      assert ([record] + f.records)[1..] == f.records;
      ConcatIsAssociative(EncodeRecord(e, record), EncodeRecords(e, f.records), f.rest);
  }

  lemma EncodeRecordsSteps(e: Endian, records: seq<Record>)
    ensures EncodeRecords(e, records)
            == if records == [] then []
               else EncodeRecord(e, records[0]) + EncodeRecords(e, records[1..])
  {}

  lemma ConcatIsAssociative<T>(a: seq<T>, b: seq<T>, c: seq<T>)
    ensures (a + b) + c == a + (b + c)
  {}

  lemma {:induction false} ReadingIsFrame(e: Endian, f: Framing)
    requires Reads(e, EncodeRecords(e, f.records) + f.rest, f)
    ensures Frame(e, EncodeRecords(e, f.records) + f.rest) == f
    decreases |f.records|
  {
    hide ReadRecord, EncodeRecord, EncodeRecords;
    EncodeRecordsSteps(e, f.records);
    if f.records == [] {
      assert [] + f.rest == f.rest;
    } else {
      var first, later := f.records[0], f.(records := f.records[1..]);
      ReadingIsFrame(e, later);
      var tail := EncodeRecords(e, later.records) + f.rest;
      ConcatIsAssociative(EncodeRecord(e, first), EncodeRecords(e, later.records), f.rest);
      EncodedRecordIsRead(e, first, tail);
      assert f.records == [first] + later.records;
    }
  }

  /** Framing a longer stream resumes where framing its prefix stopped. */
  lemma {:induction false} FrameResumes(e: Endian, a: seq<Byte>, b: seq<Byte>)
    ensures Frame(e, a + b) == Resumed(e, Frame(e, a), b)
    decreases |a|
  {
    hide ReadRecord, Framing.Behind;
    var front := ReadRecord(e, a);
    if !front.Partial? {
      FrontIsStable(e, a, b);
    }
    match front
    case Partial => BehindNothing(Frame(e, a + b));
    case Corrupt =>
    case Whole(record) =>
      var tail := a[RECORD_HEADER + |record.packet|..];
      FrameResumes(e, tail, b);
      ResumedBehind(e, Frame(e, tail), record, b);
  }

  function Resumed(e: Endian, f: Framing, b: seq<Byte>): Framing {
    if f.corrupt then f.(rest := f.rest + b) else Frame(e, f.rest + b).Behind(f.records)
  }

  lemma BehindNothing(f: Framing)
    ensures f.Behind([]) == f
  {
    assert [] + f.records == f.records;
  }

  lemma ResumedBehind(e: Endian, f: Framing, record: Record, b: seq<Byte>)
    ensures Resumed(e, f.Behind([record]), b) == Resumed(e, f, b).Behind([record])
  {
    if !f.corrupt {
      var g := Frame(e, f.rest + b);
      assert ([record] + f.records) + g.records == [record] + (f.records + g.records);
    }
  }

  // ----- rows -----

  datatype Row = Row(unixMicros: nat, wireBytes: nat, header: Header)

  function RowOf(r: Record, ssrc: nat, payloadType: nat): Option<Row> {
    var header := RtpHeader(r.packet, ssrc, payloadType);
    if header.None? then None
    else Some(Row(r.seconds * 1_000_000 + r.micros, r.original, header.value))
  }

  function Rows(records: seq<Record>, ssrc: nat, payloadType: nat): seq<Row> {
    if records == [] then []
    else RowPart(records[0], ssrc, payloadType) + Rows(records[1..], ssrc, payloadType)
  }

  function Rejected(records: seq<Record>, ssrc: nat, payloadType: nat): nat {
    if records == [] then 0
    else (if RowOf(records[0], ssrc, payloadType).Some? then 0 else 1)
         + Rejected(records[1..], ssrc, payloadType)
  }

  lemma RowsAndRejections(records: seq<Record>, ssrc: nat, payloadType: nat)
    ensures |Rows(records, ssrc, payloadType)| + Rejected(records, ssrc, payloadType) == |records|
  {}

  function RowPart(r: Record, ssrc: nat, payloadType: nat): seq<Row> {
    var row := RowOf(r, ssrc, payloadType);
    if row.Some? then [row.value] else []
  }

  lemma {:induction false} RowsAppend(a: seq<Record>, b: seq<Record>, ssrc: nat, payloadType: nat)
    ensures Rows(a + b, ssrc, payloadType) == Rows(a, ssrc, payloadType) + Rows(b, ssrc, payloadType)
    ensures Rejected(a + b, ssrc, payloadType)
            == Rejected(a, ssrc, payloadType) + Rejected(b, ssrc, payloadType)
  {
    hide RowPart, RowOf;
    if a == [] {
      assert a + b == b;
    } else {
      RowsAppend(a[1..], b, ssrc, payloadType);
      assert (a + b)[1..] == a[1..] + b;
      ConcatIsAssociative(RowPart(a[0], ssrc, payloadType), Rows(a[1..], ssrc, payloadType),
                          Rows(b, ssrc, payloadType));
    }
  }

  // ----- the parser -----

  datatype Error = BufferBound | NotMicrosecondPcap | NotEthernetHeaders | InvalidRecord

  datatype FeedResult = Fed(rows: seq<Row>) | Raised(error: Error) {
    /** This result, once `earlier` rows have already been returned. */
    function After(earlier: seq<Row>): FeedResult {
      if Raised? then this else Fed(earlier + rows)
    }
  }

  datatype HeaderCheck = Accepted(endian: Endian) | BadMagic | BadLayout(endian: Endian)

  function CheckFileHeader(b: seq<Byte>): HeaderCheck
    requires |b| == FILE_HEADER
  {
    if b[..4] != [0xd4, 0xc3, 0xb2, 0xa1] && b[..4] != [0xa1, 0xb2, 0xc3, 0xd4] then BadMagic
    else
      var e := if b[..4] == [0xd4, 0xc3, 0xb2, 0xa1] then Little else Big;
      if Unpack(e, b[4..6]) == 2 && Unpack(e, b[6..8]) == 4 && Unpack(e, b[16..20]) == SNAP_LENGTH
         && Unpack(e, b[20..24]) == 1
      then Accepted(e) else BadLayout(e)
  }

  datatype Parser = Parser(
    buffer: seq<Byte>, endian: Option<Endian>, rejected: nat, ssrc: nat, payloadType: nat)
  {
    function Drain(): (Parser, FeedResult)
      requires endian.Some?
    {
      var f := Frame(endian.value, buffer);
      (this.(buffer := f.rest, rejected := rejected + Rejected(f.records, ssrc, payloadType)),
       if f.corrupt then Raised(InvalidRecord) else Fed(Rows(f.records, ssrc, payloadType)))
    }

    function Feed(chunk: seq<Byte>): (Parser, FeedResult) {
      var held := this.(buffer := buffer + chunk);
      if |held.buffer| > BUFFER_BOUND then (held, Raised(BufferBound))
      else if endian.Some? then held.Drain()
      else if |held.buffer| < FILE_HEADER then (held, Fed([]))
      else
        match CheckFileHeader(held.buffer[..FILE_HEADER])
        case BadMagic => (held, Raised(NotMicrosecondPcap))
        case BadLayout(e) => (held.(endian := Some(e)), Raised(NotEthernetHeaders))
        case Accepted(e) => held.(endian := Some(e), buffer := held.buffer[FILE_HEADER..]).Drain()
    }

    /** Feeds the chunks in turn; the first exception ends the capture. */
    function FeedAll(chunks: seq<seq<Byte>>): (Parser, FeedResult) {
      if chunks == [] then (this, Fed([]))
      else
        var (before, result) := FeedAll(chunks[..|chunks| - 1]);
        if result.Raised? then (before, result)
        else
          var (after, last) := before.Feed(chunks[|chunks| - 1]);
          (after, last.After(result.rows))
    }
  }

  function NewParser(ssrc: nat, payloadType: nat): Parser {
    Parser([], None, 0, ssrc, payloadType)
  }

  // ----- the whole-stream specification -----

  datatype Outcome =
    | Reading(rows: seq<Row>, rejected: nat, leftover: seq<Byte>)
    | Failed(error: Error)

  function Capture(stream: seq<Byte>, ssrc: nat, payloadType: nat): Outcome {
    if |stream| < FILE_HEADER then Reading([], 0, stream)
    else
      match CheckFileHeader(stream[..FILE_HEADER])
      case BadMagic => Failed(NotMicrosecondPcap)
      case BadLayout(_) => Failed(NotEthernetHeaders)
      case Accepted(e) =>
        var f := Frame(e, stream[FILE_HEADER..]);
        if f.corrupt then Failed(InvalidRecord)
        else Reading(Rows(f.records, ssrc, payloadType), Rejected(f.records, ssrc, payloadType), f.rest)
  }

  function Concat(chunks: seq<seq<Byte>>): seq<Byte> {
    if chunks == [] then [] else Concat(chunks[..|chunks| - 1]) + chunks[|chunks| - 1]
  }

  /** The program reads at most 65,536 bytes at a time; this larger bound already suffices. */
  const MAX_CHUNK: nat := BUFFER_BOUND - MAX_LEFTOVER

  ghost predicate SmallChunks(chunks: seq<seq<Byte>>) {
    forall c :: c in chunks ==> |c| <= MAX_CHUNK
  }

  function Observed(p: Parser, result: FeedResult): Outcome {
    match result
    case Raised(error) => Failed(error)
    case Fed(rows) => Reading(rows, p.rejected, p.buffer)
  }

  /** Rows, rejections, leftover bytes and failure depend only on the bytes, not on the chunks. */
  lemma {:induction false} ChunkIndependence(chunks: seq<seq<Byte>>, ssrc: nat, payloadType: nat)
    requires SmallChunks(chunks)
    ensures var (p, result) := NewParser(ssrc, payloadType).FeedAll(chunks);
            Observed(p, result) == Capture(Concat(chunks), ssrc, payloadType)
            && (result.Fed? ==> Synchronized(p, Concat(chunks)) && |p.buffer| <= MAX_LEFTOVER)
            && result != Raised(BufferBound)
            && p.ssrc == ssrc && p.payloadType == payloadType
  {
    if chunks != [] {
      hide Capture, Synchronized, Parser.Feed;
      var n := |chunks| - 1;
      ChunkIndependence(chunks[..n], ssrc, payloadType);
      var (before, result) := NewParser(ssrc, payloadType).FeedAll(chunks[..n]);
      var stream := Concat(chunks[..n]);
      if result.Raised? {
        FailureIsFinal(stream, chunks[n], ssrc, payloadType);
      } else {
        assert |chunks[n]| <= MAX_CHUNK;
        FeedContinues(before, result.rows, stream, chunks[n]);
      }
    }
  }

  /** What the parser holds after the bytes `stream`, while nothing has failed. */
  ghost predicate Synchronized(p: Parser, stream: seq<Byte>) {
    if |stream| < FILE_HEADER then p.endian.None? && p.buffer == stream
    else
      p.endian.Some? && CheckFileHeader(stream[..FILE_HEADER]) == Accepted(p.endian.value)
      && Frame(p.endian.value, stream[FILE_HEADER..]).rest == p.buffer
  }

  lemma FailureIsFinal(stream: seq<Byte>, more: seq<Byte>, ssrc: nat, payloadType: nat)
    requires Capture(stream, ssrc, payloadType).Failed?
    ensures Capture(stream + more, ssrc, payloadType) == Capture(stream, ssrc, payloadType)
  {
    assert (stream + more)[..FILE_HEADER] == stream[..FILE_HEADER];
    assert (stream + more)[FILE_HEADER..] == stream[FILE_HEADER..] + more;
    match CheckFileHeader(stream[..FILE_HEADER])
    case Accepted(e) => FrameResumes(e, stream[FILE_HEADER..], more);
    case _ =>
  }

  lemma FeedContinues(p: Parser, rows: seq<Row>, stream: seq<Byte>, chunk: seq<Byte>)
    requires Observed(p, Fed(rows)) == Capture(stream, p.ssrc, p.payloadType)
    requires Synchronized(p, stream) && |p.buffer| <= MAX_LEFTOVER && |chunk| <= MAX_CHUNK
    ensures var (after, last) := p.Feed(chunk);
            Observed(after, last.After(rows)) == Capture(stream + chunk, p.ssrc, p.payloadType)
            && (last.Fed? ==> Synchronized(after, stream + chunk) && |after.buffer| <= MAX_LEFTOVER)
            && last != Raised(BufferBound)
            && after.ssrc == p.ssrc && after.payloadType == p.payloadType
  {
    hide CheckFileHeader, Rows, Rejected, Frame;
    var longer := stream + chunk;
    if |stream| >= FILE_HEADER {
      assert longer[..FILE_HEADER] == stream[..FILE_HEADER];
      assert longer[FILE_HEADER..] == stream[FILE_HEADER..] + chunk;
      var e := p.endian.value;
      var f := Frame(e, stream[FILE_HEADER..]);
      FrameResumes(e, stream[FILE_HEADER..], chunk);
      RowsAppend(f.records, Frame(e, f.rest + chunk).records, p.ssrc, p.payloadType);
    } else {
      assert rows == [] && p.rejected == 0 && p.buffer + chunk == longer;
      assert forall last: FeedResult :: last.Fed? ==> last.After([]) == last;
    }
  }

  // ----- the class -----

  class PcapHeaders {
    var buffer: seq<Byte>
    var endian: Option<Endian>
    var rejected: nat
    const ssrc: nat
    const payloadType: nat

    ghost function State(): Parser
      reads this
    {
      Parser(buffer, endian, rejected, ssrc, payloadType)
    }

    constructor (ssrc: nat, payloadType: nat)
      ensures State() == NewParser(ssrc, payloadType)
    {
      this.ssrc, this.payloadType := ssrc, payloadType;
      buffer, endian, rejected := [], None, 0;
    }

    method Feed(chunk: seq<Byte>) returns (result: FeedResult)
      modifies this
      ensures (State(), result) == old(State()).Feed(chunk)
    {
      buffer := buffer + chunk;
      if |buffer| > BUFFER_BOUND {
        return Raised(BufferBound);
      }
      if endian.None? {
        if |buffer| < FILE_HEADER {
          return Fed([]);
        }
        var magic := buffer[..4];
        if magic != [0xd4, 0xc3, 0xb2, 0xa1] && magic != [0xa1, 0xb2, 0xc3, 0xd4] {
          assert buffer[..FILE_HEADER][..4] == magic;
          return Raised(NotMicrosecondPcap);
        }
        ghost var check := CheckFileHeader(buffer[..FILE_HEADER]);
        assert buffer[..FILE_HEADER][..4] == magic;
        var e := if magic == [0xd4, 0xc3, 0xb2, 0xa1] then Little else Big;
        endian := Some(e);
        var header := buffer[..FILE_HEADER];
        if (Unpack(e, header[4..6]), Unpack(e, header[6..8]), Unpack(e, header[16..20]), Unpack(e, header[20..24]))
           != (2, 4, SNAP_LENGTH, 1)
        {
          return Raised(NotEthernetHeaders);
        }
        buffer := buffer[FILE_HEADER..];
      }
      result := DrainBuffer();
    }

    /** The record loop of `feed`. */
    method DrainBuffer() returns (result: FeedResult)
      requires endian.Some?
      modifies this
      ensures (State(), result) == old(State()).Drain()
    {
      hide ReadRecord, RowOf, Rows, Rejected;
      var e := endian.value;
      var rows: seq<Row> := [];
      ghost var whole := Frame(e, buffer);
      while |buffer| >= RECORD_HEADER
        invariant endian == old(endian)
        invariant Frame(e, buffer).rest == whole.rest && Frame(e, buffer).corrupt == whole.corrupt
        invariant rows + Rows(Frame(e, buffer).records, ssrc, payloadType)
                  == Rows(whole.records, ssrc, payloadType)
        invariant rejected + Rejected(Frame(e, buffer).records, ssrc, payloadType)
                  == old(rejected) + Rejected(whole.records, ssrc, payloadType)
      {
        var front := ReadRecord(e, buffer);
        if front.Corrupt? {
          NoRows(rows, ssrc, payloadType);
          return Raised(InvalidRecord);
        }
        if front.Partial? {
          break;
        }
        var taken := RECORD_HEADER + |front.record.packet|;
        FrontRecordLeads(e, buffer, ssrc, payloadType);
        buffer := buffer[taken..];
        var row := RowOf(front.record, ssrc, payloadType);
        if row.Some? {
          rows := rows + [row.value];
        } else {
          rejected := rejected + 1;
        }
      }
      ShortIsPartial(e, buffer);
      NoRows(rows, ssrc, payloadType);
      result := Fed(rows);
    }
  }

  lemma FrontRecordLeads(e: Endian, b: seq<Byte>, ssrc: nat, payloadType: nat)
    requires ReadRecord(e, b).Whole?
    ensures var record := ReadRecord(e, b).record;
            var later := Frame(e, b[RECORD_HEADER + |record.packet|..]);
            Frame(e, b).rest == later.rest && Frame(e, b).corrupt == later.corrupt
            && Rows(Frame(e, b).records, ssrc, payloadType)
               == RowPart(record, ssrc, payloadType) + Rows(later.records, ssrc, payloadType)
            && Rejected(Frame(e, b).records, ssrc, payloadType)
               == (if RowOf(record, ssrc, payloadType).Some? then 0 else 1)
                  + Rejected(later.records, ssrc, payloadType)
  {
    hide ReadRecord, RowOf, RowPart;
    var later := Frame(e, b[RECORD_HEADER + |ReadRecord(e, b).record.packet|..]);
    assert Frame(e, b).records[1..] == later.records;
  }

  lemma NoRows(rows: seq<Row>, ssrc: nat, payloadType: nat)
    ensures rows + Rows([], ssrc, payloadType) == rows && Rejected([], ssrc, payloadType) == 0
  {}

  lemma ShortIsPartial(e: Endian, b: seq<Byte>)
    ensures |b| < RECORD_HEADER ==> ReadRecord(e, b).Partial?
  {}

  const ROW_LIMIT: nat := 10_000

  /** The capture loop. `inTime` is how many reads there is time for; the loop also ends once enough rows
      are in. The outcome is that of the bytes read, whatever chunks they came in. */
  method CaptureChunks(chunks: seq<seq<Byte>>, inTime: nat, ssrc: nat, payloadType: nat)
    returns (outcome: Outcome, read: nat)
    requires SmallChunks(chunks)
    ensures read <= |chunks| && read <= inTime
    ensures outcome == Capture(Concat(chunks[..read]), ssrc, payloadType)
    ensures read < |chunks| && read < inTime ==> outcome.Failed? || |outcome.rows| >= ROW_LIMIT
    ensures forall k :: 0 <= k < read ==> GoesOn(Capture(Concat(chunks[..k]), ssrc, payloadType))
  {
    hide Capture, Parser.FeedAll, Parser.Feed, Concat, SmallChunks, NewParser;
    var parser := new PcapHeaders(ssrc, payloadType);
    ghost var start := NewParser(ssrc, payloadType);
    var rows: seq<Row> := [];
    read := 0;
    NothingFed(chunks, ssrc, payloadType);
    while read < |chunks| && read < inTime && |rows| < ROW_LIMIT
      invariant 0 <= read <= |chunks| && read <= inTime
      invariant start.FeedAll(chunks[..read]) == (parser.State(), Fed(rows))
      invariant Reading(rows, parser.rejected, parser.buffer) == Capture(Concat(chunks[..read]), ssrc, payloadType)
      invariant forall k :: 0 <= k < read ==> GoesOn(Capture(Concat(chunks[..k]), ssrc, payloadType))
    {
      FedOneMore(parser.State(), rows, chunks, read, ssrc, payloadType);
      var result := parser.Feed(chunks[read]);
      read := read + 1;
      if result.Raised? {
        return Failed(result.error), read;
      }
      rows := rows + result.rows;
    }
    outcome := Reading(rows, parser.rejected, parser.buffer);
  }

  predicate GoesOn(outcome: Outcome) {
    outcome.Reading? && |outcome.rows| < ROW_LIMIT
  }

  lemma FedOneMore(p: Parser, rows: seq<Row>, chunks: seq<seq<Byte>>, i: nat, ssrc: nat, payloadType: nat)
    requires SmallChunks(chunks) && i < |chunks|
    requires NewParser(ssrc, payloadType).FeedAll(chunks[..i]) == (p, Fed(rows))
    ensures var (after, last) := p.Feed(chunks[i]);
            NewParser(ssrc, payloadType).FeedAll(chunks[..i + 1]) == (after, last.After(rows))
            && Observed(after, last.After(rows)) == Capture(Concat(chunks[..i + 1]), ssrc, payloadType)
  {
    hide Capture, Parser.Feed;
    assert chunks[..i + 1][..i] == chunks[..i];
    ChunkIndependence(chunks[..i + 1], ssrc, payloadType);
  }

  lemma NothingFed(chunks: seq<seq<Byte>>, ssrc: nat, payloadType: nat)
    ensures NewParser(ssrc, payloadType).FeedAll(chunks[..0]) == (NewParser(ssrc, payloadType), Fed([]))
    ensures Observed(NewParser(ssrc, payloadType), Fed([])) == Capture(Concat(chunks[..0]), ssrc, payloadType)
  {}
}
