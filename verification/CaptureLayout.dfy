/** The bytes a capture is made of, written down: which streams `benchmarks/rtp_header_capture.py` reads,
    and what it reads from them. */
module CaptureLayout {
  import opened Options
  import opened RtpCapture

  const MAGIC: nat := 0xa1b2_c3d4
  const MAJOR: nat := 2
  const MINOR: nat := 4
  const ETHERNET: nat := 1

  /** A microsecond capture header in byte order `e`; the eight bytes `zone` may be anything. */
  function EncodeFileHeader(e: Endian, zone: seq<Byte>): (b: seq<Byte>)
    requires |zone| == 8
    ensures |b| == FILE_HEADER
  {
    Pack(e, MAGIC, 4) + Pack(e, MAJOR, 2) + Pack(e, MINOR, 2) + zone + Pack(e, SNAP_LENGTH, 4) + Pack(e, ETHERNET, 4)
  }

  lemma MagicBytes()
    ensures Pack(Big, MAGIC, 4) == [0xa1, 0xb2, 0xc3, 0xd4]
    ensures Pack(Little, MAGIC, 4) == [0xd4, 0xc3, 0xb2, 0xa1]
  {
    assert ToBytes(0xa1, 1) == [0xa1];
    assert ToBytes(0xa1b2, 2) == [0xa1, 0xb2];
    assert ToBytes(0xa1b2c3, 3) == [0xa1, 0xb2, 0xc3];
    var big: seq<Byte> := [0xa1, 0xb2, 0xc3, 0xd4];
    assert ToBytes(MAGIC, 4) == big;
    ReverseFour(0xa1, 0xb2, 0xc3, 0xd4);
  }

  lemma ReverseFour(a: Byte, b: Byte, c: Byte, d: Byte)
    ensures Reverse([a, b, c, d]) == [d, c, b, a]
  {
    var r := Reverse([a, b, c, d]);
    assert r[0] == d && r[1] == c && r[2] == b && r[3] == a;
  }

  lemma RangeOfTwoAndFour()
    ensures Range(2) == 0x1_0000 && Range(4) == 0x1_0000_0000
  {
    FourByteRange();
    assert Range(1) == 256;
  }

  /** A number is unpacked exactly from its packing. */
  lemma UnpacksExactly(e: Endian, b: seq<Byte>, v: nat)
    requires v < Range(|b|)
    ensures Unpack(e, b) == v <==> b == Pack(e, v, |b|)
  {
    PackUnpack(e, b);
    UnpackPack(e, v, |b|);
  }

  /** A header is accepted in byte order `e` exactly if it is the encoded header of that order. */
  lemma FileHeaderExactly(b: seq<Byte>, e: Endian)
    requires |b| == FILE_HEADER
    ensures CheckFileHeader(b) == Accepted(e) <==> b == EncodeFileHeader(e, b[8..16])
  {
    hide Pack, Unpack;
    MagicBytes();
    RangeOfTwoAndFour();
    UnpacksExactly(e, b[4..6], MAJOR);
    UnpacksExactly(e, b[6..8], MINOR);
    UnpacksExactly(e, b[16..20], SNAP_LENGTH);
    UnpacksExactly(e, b[20..24], ETHERNET);
    HeaderParts(b, e);
  }

  /** The magic number alone decides whether the failure is one of format or of layout. */
  lemma BadMagicExactly(b: seq<Byte>)
    requires |b| == FILE_HEADER
    ensures CheckFileHeader(b) == BadMagic <==> b[..4] != Pack(Big, MAGIC, 4) && b[..4] != Pack(Little, MAGIC, 4)
  {
    hide Pack, Unpack;
    MagicBytes();
  }

  lemma HeaderParts(b: seq<Byte>, e: Endian)
    requires |b| == FILE_HEADER
    ensures b == EncodeFileHeader(e, b[8..16])
            <==> b[..4] == Pack(e, MAGIC, 4) && b[4..6] == Pack(e, MAJOR, 2) && b[6..8] == Pack(e, MINOR, 2)
                 && b[16..20] == Pack(e, SNAP_LENGTH, 4) && b[20..24] == Pack(e, ETHERNET, 4)
  {
    hide Pack;
    var encoded := EncodeFileHeader(e, b[8..16]);
    assert encoded[..4] == Pack(e, MAGIC, 4) && encoded[4..6] == Pack(e, MAJOR, 2);
    assert encoded[6..8] == Pack(e, MINOR, 2) && encoded[16..20] == Pack(e, SNAP_LENGTH, 4);
    assert encoded[20..24] == Pack(e, ETHERNET, 4);
    assert b == b[..4] + b[4..6] + b[6..8] + b[8..16] + b[16..20] + b[20..24];
  }

  // ----- whole captures -----

  /** The stream is an encoded file header, encoded records, and a leftover too short to tell. */
  ghost predicate ReadsAs(stream: seq<Byte>, e: Endian, zone: seq<Byte>, records: seq<Record>, leftover: seq<Byte>) {
    |zone| == 8
    && stream == EncodeFileHeader(e, zone) + (EncodeRecords(e, records) + leftover)
    && ReadRecord(e, leftover) == Partial
  }

  /** What is read from such a stream are the rows of those records, and there is no other reading. */
  lemma ReadingGivesItsRows(stream: seq<Byte>, e: Endian, zone: seq<Byte>, records: seq<Record>,
                            leftover: seq<Byte>, ssrc: nat, payloadType: nat)
    requires ReadsAs(stream, e, zone, records, leftover)
    ensures Capture(stream, ssrc, payloadType)
            == Reading(Rows(records, ssrc, payloadType), Rejected(records, ssrc, payloadType), leftover)
  {
    hide EncodeFileHeader, ReadRecord, Frame, Rows, Rejected, CheckFileHeader, EncodeRecords;
    var header := EncodeFileHeader(e, zone);
    var body := EncodeRecords(e, records) + leftover;
    assert stream[..FILE_HEADER] == header && stream[FILE_HEADER..] == body;
    ZoneOf(e, zone);
    FileHeaderExactly(header, e);
    FramingIsTheOnlyReading(e, body, Framing(records, leftover, false));
  }

  lemma ZoneOf(e: Endian, zone: seq<Byte>)
    requires |zone| == 8
    ensures EncodeFileHeader(e, zone)[8..16] == zone
  {
    hide Pack;
  }

  /** A stream that is long enough is read without failure exactly if it is such a stream. */
  lemma CapturesExactly(stream: seq<Byte>, ssrc: nat, payloadType: nat)
    requires |stream| >= FILE_HEADER
    ensures Capture(stream, ssrc, payloadType).Reading?
            <==> exists e, zone, records, leftover :: ReadsAs(stream, e, zone, records, leftover)
  {
    hide EncodeFileHeader, ReadRecord, Frame, Rows, Rejected, CheckFileHeader, EncodeRecords, ReadsAs;
    if Capture(stream, ssrc, payloadType).Reading? {
      var header := stream[..FILE_HEADER];
      var e := CheckFileHeader(header).endian;
      var f := Frame(e, stream[FILE_HEADER..]);
      FileHeaderExactly(header, e);
      FrameReads(e, stream[FILE_HEADER..]);
      assert stream == header + stream[FILE_HEADER..];
      assert ReadsAs(stream, e, header[8..16], f.records, f.rest) by { ItReadsAs(stream, e, f); }
    }
    if exists e, zone, records, leftover :: ReadsAs(stream, e, zone, records, leftover) {
      var e, zone, records, leftover :| ReadsAs(stream, e, zone, records, leftover);
      ReadingGivesItsRows(stream, e, zone, records, leftover, ssrc, payloadType);
    }
  }

  lemma ItReadsAs(stream: seq<Byte>, e: Endian, f: Framing)
    requires |stream| >= FILE_HEADER && !f.corrupt
    requires stream[..FILE_HEADER] == EncodeFileHeader(e, stream[..FILE_HEADER][8..16])
    requires Reads(e, stream[FILE_HEADER..], f)
    ensures ReadsAs(stream, e, stream[..FILE_HEADER][8..16], f.records, f.rest)
  {
    hide EncodeFileHeader, ReadRecord, EncodeRecords;
    assert stream == stream[..FILE_HEADER] + stream[FILE_HEADER..];
  }

  function RecordBytes(records: seq<Record>): nat {
    if records == [] then 0 else RECORD_HEADER + |records[0].packet| + RecordBytes(records[1..])
  }

  lemma EncodedLength(e: Endian, records: seq<Record>)
    ensures |EncodeRecords(e, records)| == RecordBytes(records)
  {}

  /** A good capture: the encoded file header of one byte order, encoded records and the leftover, of
      these lengths; and the rows and rejections of these records, one for each. */
  ghost predicate Accounts(stream: seq<Byte>, e: Endian, records: seq<Record>, out: Outcome, ssrc: nat,
                           payloadType: nat)
    requires |stream| >= FILE_HEADER && out.Reading?
  {
    stream == EncodeFileHeader(e, stream[8..16]) + (EncodeRecords(e, records) + out.leftover)
    && |stream| == FILE_HEADER + RecordBytes(records) + |out.leftover|
    && out.rows == Rows(records, ssrc, payloadType) && out.rejected == Rejected(records, ssrc, payloadType)
    && |records| == |out.rows| + out.rejected
  }

  /** Every byte of a good capture is accounted for, and every record is a row or a rejection. */
  lemma BytesAccountedFor(stream: seq<Byte>, ssrc: nat, payloadType: nat)
    requires Capture(stream, ssrc, payloadType).Reading? && |stream| >= FILE_HEADER
    ensures exists e, records :: Accounts(stream, e, records, Capture(stream, ssrc, payloadType), ssrc, payloadType)
  {
    hide EncodeFileHeader, ReadRecord, Frame, Rows, Rejected, CheckFileHeader, EncodeRecords, Capture;
    CapturesExactly(stream, ssrc, payloadType);
    var e, zone, records, leftover :| ReadsAs(stream, e, zone, records, leftover);
    ReadingGivesItsRows(stream, e, zone, records, leftover, ssrc, payloadType);
    ZoneOf(e, zone);
    assert stream[8..16] == EncodeFileHeader(e, zone)[8..16];
    EncodedLength(e, records);
    RowsAndRejections(records, ssrc, payloadType);
    assert Accounts(stream, e, records, Capture(stream, ssrc, payloadType), ssrc, payloadType);
  }

  // ----- corrupt records -----

  /** The bytes `b`, continued by `more`, start with the record `r`. */
  ghost predicate Continues(e: Endian, b: seq<Byte>, more: seq<Byte>, r: Record, tail: seq<Byte>) {
    b + more == EncodeRecord(e, r) + tail
  }

  /** Once a record header is in, it is rejected exactly if no continuation makes it a record. */
  lemma CorruptExactly(e: Endian, b: seq<Byte>)
    requires |b| >= RECORD_HEADER
    ensures ReadRecord(e, b) == Corrupt <==> !exists more, r, tail :: Continues(e, b, more, r, tail)
  {
    hide ReadRecord, EncodeRecord;
    if ReadRecord(e, b) == Corrupt {
      forall more, r, tail ensures !Continues(e, b, more, r, tail) {
        FrontIsStable(e, b, more);
        EncodedRecordIsRead(e, r, tail);
      }
    } else if ReadRecord(e, b).Whole? {
      WholeRecordEncodes(e, b);
      var r := ReadRecord(e, b).record;
      var tail := b[RECORD_HEADER + |r.packet|..];
      assert b + [] == b;
      assert Continues(e, b, [], r, tail);
    } else {
      var more, r := PartialContinues(e, b);
      assert Continues(e, b, more, r, []);
    }
  }

  lemma PartialContinues(e: Endian, b: seq<Byte>) returns (more: seq<Byte>, r: Record)
    requires |b| >= RECORD_HEADER && ReadRecord(e, b) == Partial
    ensures b + more == EncodeRecord(e, r) + []
  {
    hide EncodeRecord, Unpack;
    var captured := Unpack(e, b[8..12]);
    more := seq(RECORD_HEADER + captured - |b|, i => 0);
    var whole := b + more;
    assert whole[..4] == b[..4] && whole[4..8] == b[4..8] && whole[8..12] == b[8..12] && whole[12..16] == b[12..16];
    assert ReadRecord(e, whole).Whole?;
    r := ReadRecord(e, whole).record;
    WholeRecordEncodes(e, whole);
    assert whole[RECORD_HEADER + |r.packet|..] == [];
  }

  // ----- the packet behind a row -----

  /** The parts of a packet that the parser leaves open: both Ethernet addresses; service, length and
      identification; the two fragment flags that do not mark a fragment; time to live; header checksum,
      addresses and ports; and the datagram's checksum. */
  datatype Envelope = Envelope(
    ethernet: seq<Byte>, service: seq<Byte>, flags: nat, ttl: Byte, route: seq<Byte>, checksum: seq<Byte>)

  predicate GoodEnvelope(v: Envelope) {
    |v.ethernet| == 12 && |v.service| == 5 && v.flags < 4 && |v.route| == 14 && |v.checksum| == 2
  }

  /** An unfragmented IPv4 packet without options, over Ethernet, carrying UDP and in it RTP. */
  function EncodePacket(v: Envelope, h: Header, padding: bool, payloadType: nat): (b: seq<Byte>)
    requires GoodEnvelope(v) && HeaderInRange(h) && payloadType < 128
    ensures |b| == SNAP_LENGTH
  {
    v.ethernet + [0x08, 0x00]
    + [0x45] + v.service + Pack(Big, v.flags * 0x4000, 2) + [v.ttl] + [17] + v.route
    + Pack(Big, h.udpBytes, 2) + v.checksum
    + EncodeRtp(h, padding, payloadType)
  }

  ghost predicate IsPacket(packet: seq<Byte>, v: Envelope, h: Header, padding: bool, payloadType: nat) {
    GoodEnvelope(v) && HeaderInRange(h) && payloadType < 128 && packet == EncodePacket(v, h, padding, payloadType)
  }

  /** A packet gives a header exactly if it is such a packet, of that stream, around that header. */
  lemma PacketsExactly(packet: seq<Byte>, ssrc: nat, payloadType: nat, h: Header)
    ensures RtpHeader(packet, ssrc, payloadType) == Some(h)
            <==> h.ssrc == ssrc && exists v, padding :: IsPacket(packet, v, h, padding, payloadType)
  {
    hide RtpHeader, IsPacket, Carries;
    RtpHeaderReadsWhatIsCarried(packet, ssrc, payloadType, h);
    if Carries(packet, h, payloadType) {
      var v, padding := EnvelopeOf(packet, h, payloadType);
      assert IsPacket(packet, v, h, padding, payloadType);
    }
    if exists v, padding :: IsPacket(packet, v, h, padding, payloadType) {
      var v, padding :| IsPacket(packet, v, h, padding, payloadType);
      PacketCarries(packet, v, h, padding, payloadType);
    }
  }

  lemma PacketCarries(packet: seq<Byte>, v: Envelope, h: Header, padding: bool, payloadType: nat)
    requires IsPacket(packet, v, h, padding, payloadType)
    ensures Carries(packet, h, payloadType)
  {
    hide Pack, Unpack, EncodeRtp;
    RangeOfTwoAndFour();
    assert packet[12..14] == [0x08, 0x00] && packet[20..22] == Pack(Big, v.flags * 0x4000, 2);
    assert packet[38..40] == Pack(Big, h.udpBytes, 2) && packet[42..54] == EncodeRtp(h, padding, payloadType);
    UnpackPack(Big, v.flags * 0x4000, 2);
  }

  lemma EnvelopeOf(packet: seq<Byte>, h: Header, payloadType: nat) returns (v: Envelope, padding: bool)
    requires Carries(packet, h, payloadType)
    ensures IsPacket(packet, v, h, padding, payloadType)
  {
    hide Pack, Unpack, EncodeRtp;
    RangeOfTwoAndFour();
    var fragment := Unpack(Big, packet[20..22]);
    v := Envelope(packet[..12], packet[15..20], fragment / 0x4000, packet[22], packet[24..38], packet[40..42]);
    padding := packet[42..54] == EncodeRtp(h, true, payloadType);
    PackUnpack(Big, packet[20..22]);
    assert v.flags * 0x4000 == fragment;
    Pieces(packet);
  }

  lemma Pieces(p: seq<Byte>)
    requires |p| == SNAP_LENGTH
    ensures p == p[..12] + p[12..14] + [p[14]] + p[15..20] + p[20..22] + [p[22]] + [p[23]] + p[24..38]
                 + p[38..40] + p[40..42] + p[42..54]
  {}

  /** A row is the time stamp of its record in microseconds, the size of its packet on the wire, and the
      header that the packet carries; any other record is rejected. */
  lemma RowsSayExactly(r: Record, ssrc: nat, payloadType: nat, row: Row)
    ensures RowOf(r, ssrc, payloadType) == Some(row)
            <==> row.unixMicros / 1_000_000 == r.seconds && row.unixMicros % 1_000_000 == r.micros
                 && row.wireBytes == r.original && row.header.ssrc == ssrc
                 && exists v, padding :: IsPacket(r.packet, v, row.header, padding, payloadType)
  {
    hide RtpHeader, IsPacket;
    PacketsExactly(r.packet, ssrc, payloadType, row.header);
    MicrosExactly(row.unixMicros, r.seconds, r.micros);
  }

  lemma MicrosExactly(t: nat, seconds: nat, micros: nat)
    requires micros < 1_000_000
    ensures t == seconds * 1_000_000 + micros <==> t / 1_000_000 == seconds && t % 1_000_000 == micros
  {}
}
