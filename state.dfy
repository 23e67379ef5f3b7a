/*
 * The scanner's persistent state (struct Scanner, src/scanner.c:22-28), the
 * values it is created with (src/scanner.c:30-38) and the byte snapshot the
 * host stores between scans (serialize and deserialize,
 * src/scanner.c:44-81).
 *
 * `fence_char` is a C `char`, taken here to be signed (as on the common
 * ABIs); the snapshot buffer is modelled as bytes 0..255.
 */
module ScannerState {

  type Byte = b: int | 0 <= b < 256
  type SignedChar = c: int | -128 <= c < 128
  type Uint8 = n: int | 0 <= n < 256

  datatype ScanState = ScanState(
    atStart: bool,
    inFrontmatter: bool,
    inFencedCode: bool,
    fenceChar: SignedChar,
    fenceLength: Uint8)

  /** The state `create` gives a new scanner. */
  const Initial: ScanState := ScanState(true, false, false, 0, 0)

  /** Number of bytes `serialize` writes. */
  const SnapshotSize: nat := 5

  function FlagByte(b: bool): Byte {
    if b then 1 else 0
  }

  /** A `char` stored into the byte buffer. */
  function CharByte(c: SignedChar): Byte {
    c % 256
  }

  /** A buffer byte read back as a signed `char`. */
  function ByteChar(b: Byte): SignedChar {
    if b < 128 then b else b - 256
  }

  /** The bytes `serialize` writes, in field order. */
  function Encode(st: ScanState): (buf: seq<Byte>)
    ensures |buf| == SnapshotSize
  {
    [FlagByte(st.atStart), FlagByte(st.inFrontmatter), FlagByte(st.inFencedCode),
     CharByte(st.fenceChar), st.fenceLength]
  }

  /**
   * The state `deserialize` leaves: every field starts at its created value
   * and the first `|buf|` fields, in order, are read from the buffer; a flag
   * is true when its byte is not zero.
   */
  function Decode(buf: seq<Byte>): (st: ScanState)
  {
    ScanState(
      if 0 < |buf| then buf[0] != 0 else Initial.atStart,
      if 1 < |buf| then buf[1] != 0 else Initial.inFrontmatter,
      if 2 < |buf| then buf[2] != 0 else Initial.inFencedCode,
      if 3 < |buf| then ByteChar(buf[3]) else Initial.fenceChar,
      if 4 < |buf| then buf[4] else Initial.fenceLength)
  }

  // ---------------------------------------------------------------------
  // Snapshot properties

  lemma CharByteRoundTrip(c: SignedChar)
    ensures ByteChar(CharByte(c)) == c
  {
    if c < 0 {
      assert CharByte(c) == c + 256;
    }
  }

  /** Restoring a snapshot gives back the state it was taken from. */
  lemma DecodeEncode(st: ScanState)
    ensures Decode(Encode(st)) == st
  {
    CharByteRoundTrip(st.fenceChar);
  }

  /**
   * A five-byte buffer whose three flag bytes are 0 or 1 is exactly the
   * snapshot of the state it decodes to.
   */
  lemma EncodeDecode(buf: seq<Byte>)
    requires |buf| == SnapshotSize
    requires forall k :: 0 <= k < 3 ==> buf[k] == 0 || buf[k] == 1
    ensures Encode(Decode(buf)) == buf
  {
    assert buf[0] == 0 || buf[0] == 1;
    assert buf[1] == 0 || buf[1] == 1;
    assert buf[2] == 0 || buf[2] == 1;
  }

  /** A short buffer reads as if the missing bytes came from a new scanner's snapshot. */
  lemma DecodeShort(buf: seq<Byte>)
    requires |buf| < SnapshotSize
    ensures Decode(buf) == Decode(buf + Encode(Initial)[|buf|..])
  {
    var full := buf + Encode(Initial)[|buf|..];
    assert forall k :: 0 <= k < |buf| ==> full[k] == buf[k];
    assert forall k :: |buf| <= k < SnapshotSize ==> full[k] == Encode(Initial)[k];
  }

  /** An empty buffer gives the state of a new scanner. */
  lemma DecodeEmpty()
    ensures Decode([]) == Initial
  {
  }

  /** Bytes past the fifth are never read. */
  lemma DecodeIgnoresTail(buf: seq<Byte>)
    requires |buf| >= SnapshotSize
    ensures Decode(buf) == Decode(buf[..SnapshotSize])
  {
  }
}
