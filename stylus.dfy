/** The stylus report decoder: a 10-byte interrupt report of the tablet
    becomes a `StylusSample`, and `Hexdump` renders raw bytes for the log.
    Everything here is pure. */
module Stylus {
  import opened Common

  /** The report id of a stylus report (byte 0). */
  const REPORT_ID: Byte := 0x07
  /** The shortest report the decoder accepts. */
  const REPORT_LENGTH: nat := 10

  /** One decoded report, with the fields in the order the dataclass declares them. */
  datatype StylusSample = StylusSample(
    tip: bool,
    barrel: bool,
    eraser: bool,
    inRange: bool,
    invert: bool,
    x: int,
    y: int,
    pressure: int,
    tiltX: int,
    tiltY: int)

  /** The ranges the wire format can carry: unsigned 16-bit coordinates and
      pressure, signed 8-bit tilts. */
  predicate WireRepresentable(s: StylusSample) {
    && 0 <= s.x < 0x1_0000
    && 0 <= s.y < 0x1_0000
    && 0 <= s.pressure < 0x1_0000
    && -128 <= s.tiltX < 128
    && -128 <= s.tiltY < 128
  }

  /** `status & mask != 0`. */
  predicate TestBit(status: Byte, mask: bv8) {
    (status as bv8) & mask != 0
  }

  /** Reads a byte as a two's-complement signed 8-bit value. */
  function DecodeSigned(b: Byte): (r: int)
    ensures -128 <= r < 128
    ensures (r - b) % 256 == 0
  {
    if TestBit(b, 0x80) then b - 0x100 else b
  }

  /** Two's-complement byte of a signed 8-bit value. */
  function EncodeSigned(t: int): (b: Byte)
    requires -128 <= t < 128
    ensures (t - b) % 256 == 0
  {
    if t < 0 then t + 0x100 else t
  }

  /** The little-endian unsigned 16-bit word `lo | (hi << 8)`. */
  function LeU16(lo: Byte, hi: Byte): (r: int)
    ensures 0 <= r < 0x1_0000
    ensures r % 256 == lo && r / 256 == hi
  {
    lo + hi * 256
  }

  /** `decode_stylus`: rejects short reports and foreign report ids; any
      other report decodes, and only its first ten bytes matter. */
  function DecodeStylus(payload: seq<Byte>): (r: Option<StylusSample>)
    ensures r.None? <==> |payload| < REPORT_LENGTH || payload[0] != REPORT_ID
    ensures r.Some? ==> WireRepresentable(r.value)
  {
    if |payload| < REPORT_LENGTH || payload[0] != REPORT_ID then None
    else
      var status := payload[1];
      Some(StylusSample(
        tip := TestBit(status, 0x01),
        barrel := TestBit(status, 0x02),
        eraser := TestBit(status, 0x04),
        inRange := TestBit(status, 0x08),
        invert := TestBit(status, 0x20),
        x := LeU16(payload[2], payload[3]),
        y := LeU16(payload[4], payload[5]),
        pressure := LeU16(payload[6], payload[7]),
        tiltX := DecodeSigned(payload[8]),
        tiltY := DecodeSigned(payload[9])))
  }

  function Bit(b: bool, mask: bv8): bv8 { if b then mask else 0 }

  /** The status byte carrying the five flags and nothing else. */
  function StatusByte(s: StylusSample): (b: Byte)
    ensures b < 0x40
  {
    (Bit(s.tip, 0x01) | Bit(s.barrel, 0x02) | Bit(s.eraser, 0x04)
     | Bit(s.inRange, 0x08) | Bit(s.invert, 0x20)) as int
  }

  /** The report a tablet sends for a sample: the inverse of `DecodeStylus`. */
  function EncodeStylus(s: StylusSample): (p: seq<Byte>)
    requires WireRepresentable(s)
    ensures |p| == REPORT_LENGTH && p[0] == REPORT_ID
  {
    [REPORT_ID, StatusByte(s),
     s.x % 256, s.x / 256,
     s.y % 256, s.y / 256,
     s.pressure % 256, s.pressure / 256,
     EncodeSigned(s.tiltX), EncodeSigned(s.tiltY)]
  }

  /** `status & 0x2F`: the status bits the decoder reads. */
  function FlagBits(status: Byte): (r: Byte)
    ensures r < 0x40
  {
    ((status as bv8) & 0x2F) as int
  }

  /** Decoding and encoding a signed byte are inverse to each other. */
  lemma SignedRoundTrip(b: Byte, t: int)
    requires -128 <= t < 128
    ensures DecodeSigned(EncodeSigned(t)) == t
    ensures EncodeSigned(DecodeSigned(b)) == b
  {
  }

  /** The four boundary bytes of the tilt encoding. */
  lemma DecodeSignedBoundaries()
    ensures DecodeSigned(0x00) == 0 && DecodeSigned(0x7F) == 127
    ensures DecodeSigned(0x80) == -128 && DecodeSigned(0xFF) == -1
  {
  }

  /** Bytes from index 10 on never affect the decoded sample. */
  lemma DecodeIgnoresTail(p: seq<Byte>, q: seq<Byte>)
    requires |p| >= REPORT_LENGTH && |q| >= REPORT_LENGTH && p[..REPORT_LENGTH] == q[..REPORT_LENGTH]
    ensures DecodeStylus(p) == DecodeStylus(q)
  {
    assert forall i :: 0 <= i < REPORT_LENGTH ==> p[i] == p[..REPORT_LENGTH][i] == q[i];
  }

  lemma {:induction false} FlagBitsDetermineFlags(a: Byte, b: Byte)
    requires FlagBits(a) == FlagBits(b)
    ensures TestBit(a, 0x01) == TestBit(b, 0x01)
    ensures TestBit(a, 0x02) == TestBit(b, 0x02)
    ensures TestBit(a, 0x04) == TestBit(b, 0x04)
    ensures TestBit(a, 0x08) == TestBit(b, 0x08)
    ensures TestBit(a, 0x20) == TestBit(b, 0x20)
  {
  }

  /** Status bits 0x10, 0x40 and 0x80 are ignored: two reports whose status
      bytes agree on the five flag bits decode alike. */
  lemma IgnoredStatusBits(p: seq<Byte>, q: seq<Byte>)
    requires |p| >= REPORT_LENGTH && |q| == |p|
    requires forall i :: 0 <= i < |p| && i != 1 ==> p[i] == q[i]
    requires FlagBits(p[1]) == FlagBits(q[1])
    ensures DecodeStylus(p) == DecodeStylus(q)
  {
    FlagBitsDetermineFlags(p[1], q[1]);
  }

  lemma {:induction false} StatusByteDecodes(s: StylusSample)
    ensures TestBit(StatusByte(s), 0x01) == s.tip
    ensures TestBit(StatusByte(s), 0x02) == s.barrel
    ensures TestBit(StatusByte(s), 0x04) == s.eraser
    ensures TestBit(StatusByte(s), 0x08) == s.inRange
    ensures TestBit(StatusByte(s), 0x20) == s.invert
  {
  }

  /** Round trip: the report of a representable sample decodes to it. */
  lemma DecodeEncode(s: StylusSample)
    requires WireRepresentable(s)
    ensures DecodeStylus(EncodeStylus(s)) == Some(s)
  {
    StatusByteDecodes(s);
    SignedRoundTrip(0, s.tiltX);
    SignedRoundTrip(0, s.tiltY);
  }

  lemma {:induction false} StatusByteOfDecoded(status: Byte, s: StylusSample)
    requires s.tip == TestBit(status, 0x01) && s.barrel == TestBit(status, 0x02)
    requires s.eraser == TestBit(status, 0x04) && s.inRange == TestBit(status, 0x08)
    requires s.invert == TestBit(status, 0x20)
    ensures StatusByte(s) == FlagBits(status)
  {
  }

  /** The other direction: re-encoding a decoded report gives back its first
      ten bytes, except that the status byte keeps only the flag bits. */
  lemma EncodeDecode(p: seq<Byte>)
    requires DecodeStylus(p).Some?
    ensures EncodeStylus(DecodeStylus(p).value) == p[..REPORT_LENGTH][1 := FlagBits(p[1])]
  {
    var s := DecodeStylus(p).value;
    StatusByteOfDecoded(p[1], s);
    SignedRoundTrip(p[8], 0);
    SignedRoundTrip(p[9], 0);
    var e := EncodeStylus(s);
    var want := p[..REPORT_LENGTH][1 := FlagBits(p[1])];
    assert forall i :: 0 <= i < REPORT_LENGTH ==> e[i] == want[i];
  }

  /** The documented example report: `07 09 00 00 64 00 00 20 00 00`. */
  lemma DecodeExampleReport()
    ensures DecodeStylus([0x07, 0x09, 0x00, 0x00, 0x64, 0x00, 0x00, 0x20, 0x00, 0x00])
         == Some(StylusSample(true, false, false, true, false, 0, 100, 8192, 0, 0))
  {
  }

  // ---------------------------------------------------------------------
  // hexdump

  /** The lower-case hex digit of a value below 16. */
  function HexDigit(d: nat): (c: char)
    requires d < 16
    ensures '0' <= c <= '9' || 'a' <= c <= 'f'
  {
    if d < 10 then ('0' as int + d) as char else ('a' as int + d - 10) as char
  }

  /** `f"{byte:02x}"`: two lower-case hex digits. */
  function HexByte(b: Byte): (r: string)
    ensures |r| == 2
  {
    [HexDigit(b / 16), HexDigit(b % 16)]
  }

  /** `hexdump`: the bytes' hex pairs joined by single spaces. */
  function Hexdump(data: seq<Byte>): (r: string)
    ensures |data| == 0 ==> r == ""
    ensures |data| > 0 ==> |r| == 3 * |data| - 1
  {
    if |data| == 0 then ""
    else if |data| == 1 then HexByte(data[0])
    else HexByte(data[0]) + " " + Hexdump(data[1..])
  }

  /** Byte `i` occupies characters `3i` and `3i+1`, and a space follows every
      byte but the last. */
  lemma {:induction false} HexdumpAt(data: seq<Byte>, i: nat)
    requires i < |data|
    ensures Hexdump(data)[3 * i .. 3 * i + 2] == HexByte(data[i])
    ensures i + 1 < |data| ==> Hexdump(data)[3 * i + 2] == ' '
  {
    if i > 0 {
      HexdumpAt(data[1..], i - 1);
      var rest := Hexdump(data[1..]);
      var r := Hexdump(data);
      assert r == HexByte(data[0]) + " " + rest;
      assert forall k :: 3 <= k < |r| ==> r[k] == rest[k - 3];
      assert r[3 * i .. 3 * i + 2] == rest[3 * (i - 1) .. 3 * (i - 1) + 2];
    }
  }

  function HexValue(c: char): Option<nat>
  {
    if '0' <= c <= '9' then Some(c as int - '0' as int)
    else if 'a' <= c <= 'f' then Some(c as int - 'a' as int + 10)
    else None
  }

  function ParseHexByte(s: string): Option<Byte>
    requires |s| == 2
  {
    match (HexValue(s[0]), HexValue(s[1]))
    case (Some(h), Some(l)) => Some(h * 16 + l)
    case _ => None
  }

  /** The reader's side of `hexdump`: space-separated hex pairs back to bytes. */
  function Unhexdump(r: string): Option<seq<Byte>>
    decreases |r|
  {
    if |r| == 0 then Some([])
    else if |r| < 2 then None
    else match ParseHexByte(r[..2])
      case None => None
      case Some(b) =>
        if |r| == 2 then Some([b])
        else if r[2] != ' ' || |r| == 3 then None
        else match Unhexdump(r[3..])
          case None => None
          case Some(rest) => Some([b] + rest)
  }

  lemma HexByteRoundTrip(b: Byte)
    ensures ParseHexByte(HexByte(b)) == Some(b)
  {
  }

  /** Round trip: the bytes can be read back from their hexdump. */
  lemma {:induction false} UnhexdumpHexdump(data: seq<Byte>)
    ensures Unhexdump(Hexdump(data)) == Some(data)
  {
    if |data| == 1 {
      HexByteRoundTrip(data[0]);
      var r := Hexdump(data);
      assert r == HexByte(data[0]) && r[..2] == r;
      assert data == [data[0]];
    } else if |data| > 1 {
      var r := Hexdump(data);
      HexByteRoundTrip(data[0]);
      UnhexdumpHexdump(data[1..]);
      assert r == HexByte(data[0]) + " " + Hexdump(data[1..]);
      assert r[..2] == HexByte(data[0]);
      assert r[2] == ' ' && |r| > 3;
      assert r[3..] == Hexdump(data[1..]);
      assert [data[0]] + data[1..] == data;
    }
  }
}
