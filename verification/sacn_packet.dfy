/** The byte layout of an ANSI E1.31 (Streaming ACN) data packet carrying one
    full DMX512-A universe, as the receiver overlays it onto a datagram.

    The C header declares a union of two views of the same storage: a
    structured view (three nested layer structs whose fields are byte arrays)
    and a raw `buffer` view of the same size. Here the structured view is the
    datatype `Packet`, the raw view is a `seq<byte>`, `Overlay` reads the
    structured view out of the raw bytes and `Bytes` lays the structured view
    back out. The two are proved inverse, and every field is proved to sit
    at a fixed offset of the raw bytes. */
module SacnPacket {

  type byte = bv8

  /** Number of DMX slots: the START code plus 512 channel values. */
  const SLOT_COUNT: nat := 513

  /** ACN Root Layer: preamble size, postamble size, packet identifier,
      flags and length, vector, CID. */
  const ROOT_LAYER_SIZE: nat := 2 + 2 + 12 + 2 + 4 + 16
  /** E1.31 Framing Layer: flags and length, vector, source name, priority,
      reserved, sequence number, options, universe. */
  const FRAMING_LAYER_SIZE: nat := 2 + 4 + 64 + 1 + 2 + 1 + 1 + 2
  /** DMP Layer: flags and length, vector, address and data type, first
      property address, address increment, property value count, slots. */
  const DMP_LAYER_SIZE: nat := 2 + 1 + 1 + 2 + 2 + 2 + SLOT_COUNT
  /** Size of the whole union. */
  const PACKET_SIZE: nat := ROOT_LAYER_SIZE + FRAMING_LAYER_SIZE + DMP_LAYER_SIZE

  /** The ACN packet identifier "ASC-E1.17" padded with three zero bytes
      (section 5.3 of ANSI E1.31-2016). */
  const ACN_PACKET_ID: seq<byte> := [0x41, 0x53, 0x43, 0x2D, 0x45, 0x31, 0x2E, 0x31, 0x37, 0x00, 0x00, 0x00]
  /** VECTOR_E131_DATA_PACKET, big-endian (section 6.2.1 of ANSI E1.31-2016). */
  const VECTOR_E131_DATA_PACKET: seq<byte> := [0x00, 0x00, 0x00, 0x02]
  /** DMP address and data type (section 7.3 of ANSI E1.31-2016). */
  const DMP_AD_TYPES: byte := 0xA1
  /** The DMX512-A null START code (section 7.7 of ANSI E1.31-2016). */
  const DMX_START_CODE: byte := 0x00

  datatype RootLayer = RootLayer(
    preambleSize: seq<byte>,
    postambleSize: seq<byte>,
    packetId: seq<byte>,
    flagsAndLen: seq<byte>,
    vector: seq<byte>,
    cid: seq<byte>)

  datatype FramingLayer = FramingLayer(
    flagsAndLen: seq<byte>,
    vector: seq<byte>,
    sourceName: seq<byte>,
    priority: byte,
    reserved: seq<byte>,
    seqNum: byte,
    options: byte,
    universe: seq<byte>)

  datatype DmpLayer = DmpLayer(
    flagsAndLen: seq<byte>,
    vector: byte,
    adTypes: byte,
    protAddr: seq<byte>,
    propAddrIncr: seq<byte>,
    propCount: seq<byte>,
    slots: seq<byte>)

  datatype Packet = Packet(root: RootLayer, frame: FramingLayer, dmp: DmpLayer)

  /** Every array field has the length the struct declares for it. */
  predicate RootWellSized(r: RootLayer) {
    |r.preambleSize| == 2 && |r.postambleSize| == 2 && |r.packetId| == 12 &&
    |r.flagsAndLen| == 2 && |r.vector| == 4 && |r.cid| == 16
  }

  predicate FramingWellSized(f: FramingLayer) {
    |f.flagsAndLen| == 2 && |f.vector| == 4 && |f.sourceName| == 64 &&
    |f.reserved| == 2 && |f.universe| == 2
  }

  predicate DmpWellSized(d: DmpLayer) {
    |d.flagsAndLen| == 2 && |d.protAddr| == 2 && |d.propAddrIncr| == 2 &&
    |d.propCount| == 2 && |d.slots| == SLOT_COUNT
  }

  predicate WellSized(p: Packet) {
    RootWellSized(p.root) && FramingWellSized(p.frame) && DmpWellSized(p.dmp)
  }

  // The raw view of each layer: its fields laid out in declaration order,
  // without padding (every field is an unsigned char or an array of them).

  function RootBytes(r: RootLayer): seq<byte> {
    r.preambleSize + r.postambleSize + r.packetId + r.flagsAndLen + r.vector + r.cid
  }

  function FramingBytes(f: FramingLayer): seq<byte> {
    f.flagsAndLen + f.vector + f.sourceName + [f.priority] + f.reserved +
    [f.seqNum] + [f.options] + f.universe
  }

  function DmpBytes(d: DmpLayer): seq<byte> {
    d.flagsAndLen + [d.vector] + [d.adTypes] + d.protAddr + d.propAddrIncr +
    d.propCount + d.slots
  }

  /** The `buffer` member of the union. */
  function Bytes(p: Packet): seq<byte> {
    RootBytes(p.root) + FramingBytes(p.frame) + DmpBytes(p.dmp)
  }

  // The structured view of each layer, read out of that layer's bytes.

  function RootOverlay(s: seq<byte>): RootLayer
    requires |s| == ROOT_LAYER_SIZE
  {
    RootLayer(s[0..2], s[2..4], s[4..16], s[16..18], s[18..22], s[22..38])
  }

  function FramingOverlay(s: seq<byte>): FramingLayer
    requires |s| == FRAMING_LAYER_SIZE
  {
    FramingLayer(s[0..2], s[2..6], s[6..70], s[70], s[71..73], s[73], s[74], s[75..77])
  }

  function DmpOverlay(s: seq<byte>): DmpLayer
    requires |s| == DMP_LAYER_SIZE
  {
    DmpLayer(s[0..2], s[2], s[3], s[4..6], s[6..8], s[8..10], s[10..523])
  }

  /** The `packet` member of the union, read from a buffer of the union's size. */
  function Overlay(b: seq<byte>): Packet
    requires |b| == PACKET_SIZE
  {
    var rootEnd := ROOT_LAYER_SIZE;
    var frameEnd := ROOT_LAYER_SIZE + FRAMING_LAYER_SIZE;
    Packet(RootOverlay(b[..rootEnd]), FramingOverlay(b[rootEnd..frameEnd]), DmpOverlay(b[frameEnd..]))
  }

  /** Reading the Root Layer out of 38 bytes and laying it out again gives the
      same bytes. */
  lemma RootOverlayBytes(s: seq<byte>)
    requires |s| == ROOT_LAYER_SIZE
    ensures RootWellSized(RootOverlay(s)) && RootBytes(RootOverlay(s)) == s
  {
  }

  /** A well-sized Root Layer occupies exactly 38 bytes and is read back
      unchanged. */
  lemma RootBytesOverlay(r: RootLayer)
    requires RootWellSized(r)
    ensures |RootBytes(r)| == ROOT_LAYER_SIZE && RootOverlay(RootBytes(r)) == r
  {
  }

  lemma FramingOverlayBytes(s: seq<byte>)
    requires |s| == FRAMING_LAYER_SIZE
    ensures FramingWellSized(FramingOverlay(s)) && FramingBytes(FramingOverlay(s)) == s
  {
  }

  lemma FramingBytesOverlay(f: FramingLayer)
    requires FramingWellSized(f)
    ensures |FramingBytes(f)| == FRAMING_LAYER_SIZE && FramingOverlay(FramingBytes(f)) == f
  {
  }

  lemma DmpOverlayBytes(s: seq<byte>)
    requires |s| == DMP_LAYER_SIZE
    ensures DmpWellSized(DmpOverlay(s)) && DmpBytes(DmpOverlay(s)) == s
  {
  }

  lemma DmpBytesOverlay(d: DmpLayer)
    requires DmpWellSized(d)
    ensures |DmpBytes(d)| == DMP_LAYER_SIZE && DmpOverlay(DmpBytes(d)) == d
  {
  }

  /** The union is 638 bytes: 38 (Root) + 77 (Framing) + 523 (DMP), and every
      638-byte buffer read through the structured view and laid out again is
      the same buffer. */
  lemma OverlayBytes(b: seq<byte>)
    requires |b| == PACKET_SIZE
    ensures PACKET_SIZE == 638
    ensures WellSized(Overlay(b)) && Bytes(Overlay(b)) == b
  {
    RootOverlayBytes(b[..38]);
    FramingOverlayBytes(b[38..115]);
    DmpOverlayBytes(b[115..]);
    assert b == b[..38] + b[38..115] + b[115..];
  }

  /** Conversely, a well-sized structured packet fills the whole buffer and is
      read back unchanged: the two views of the union carry the same data. */
  lemma BytesOverlay(p: Packet)
    requires WellSized(p)
    ensures |Bytes(p)| == PACKET_SIZE && Overlay(Bytes(p)) == p
  {
    RootBytesOverlay(p.root);
    FramingBytesOverlay(p.frame);
    DmpBytesOverlay(p.dmp);
    var b := Bytes(p);
    assert b[..38] == RootBytes(p.root);
    assert b[38..115] == FramingBytes(p.frame);
    assert b[115..] == DmpBytes(p.dmp);
  }

  /** Every field of the structured view equals the raw bytes at its
      absolute offset. Root Layer: preamble size 0..1, postamble size 2..3,
      packet identifier 4..15, flags and length 16..17, vector 18..21, CID
      22..37. Framing Layer: flags and length 38..39, vector 40..43, source
      name 44..107, priority 108, reserved 109..110, sequence number 111,
      options 112, universe 113..114. DMP Layer: flags and length 115..116,
      vector 117, address and data type 118, first property address
      119..120, address increment 121..122, property value count 123..124,
      slots 125..637. */
  lemma OverlayFieldsAt(b: seq<byte>)
    requires |b| == PACKET_SIZE
    ensures Overlay(b).root.preambleSize == b[0..2]
    ensures Overlay(b).root.postambleSize == b[2..4]
    ensures Overlay(b).root.packetId == b[4..16]
    ensures Overlay(b).root.flagsAndLen == b[16..18]
    ensures Overlay(b).root.vector == b[18..22]
    ensures Overlay(b).root.cid == b[22..38]
    ensures Overlay(b).frame.flagsAndLen == b[38..40]
    ensures Overlay(b).frame.vector == b[40..44]
    ensures Overlay(b).frame.sourceName == b[44..108]
    ensures Overlay(b).frame.priority == b[108]
    ensures Overlay(b).frame.reserved == b[109..111]
    ensures Overlay(b).frame.seqNum == b[111]
    ensures Overlay(b).frame.options == b[112]
    ensures Overlay(b).frame.universe == b[113..115]
    ensures Overlay(b).dmp.flagsAndLen == b[115..117]
    ensures Overlay(b).dmp.vector == b[117]
    ensures Overlay(b).dmp.adTypes == b[118]
    ensures Overlay(b).dmp.protAddr == b[119..121]
    ensures Overlay(b).dmp.propAddrIncr == b[121..123]
    ensures Overlay(b).dmp.propCount == b[123..125]
    ensures Overlay(b).dmp.slots == b[125..638]
  {
    var root, frame, dmp := b[..38], b[38..115], b[115..];
    assert Overlay(b) == Packet(RootOverlay(root), FramingOverlay(frame), DmpOverlay(dmp));
    SliceOfSlice(b, 0, 38, 0, 2);
    SliceOfSlice(b, 0, 38, 2, 4);
    SliceOfSlice(b, 0, 38, 4, 16);
    SliceOfSlice(b, 0, 38, 16, 18);
    SliceOfSlice(b, 0, 38, 18, 22);
    SliceOfSlice(b, 0, 38, 22, 38);
    SliceOfSlice(b, 38, 115, 0, 2);
    SliceOfSlice(b, 38, 115, 2, 6);
    SliceOfSlice(b, 38, 115, 6, 70);
    SliceOfSlice(b, 38, 115, 71, 73);
    SliceOfSlice(b, 38, 115, 75, 77);
    assert frame[70] == b[108] && frame[73] == b[111] && frame[74] == b[112];
    SliceOfSlice(b, 115, 638, 0, 2);
    SliceOfSlice(b, 115, 638, 4, 6);
    SliceOfSlice(b, 115, 638, 6, 8);
    SliceOfSlice(b, 115, 638, 8, 10);
    SliceOfSlice(b, 115, 638, 10, 523);
    assert dmp[2] == b[117] && dmp[3] == b[118];
  }

  /** A slice of a slice is a slice of the original sequence. */
  lemma SliceOfSlice(s: seq<byte>, i: nat, j: nat, k: nat, l: nat)
    requires i <= j <= |s| && k <= l <= j - i
    ensures s[i..j][k..l] == s[i + k..i + l]
  {
    assert forall n :: 0 <= n < l - k ==> s[i..j][k..l][n] == s[i + k..i + l][n];
  }
}
