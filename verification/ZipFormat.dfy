/** The fields and records of a store-only ZIP: PKWARE APPNOTE.TXT sections 4.3.7, 4.3.12 and 4.3.16. */
module ZipFormat {
  import opened Registers

  type Bytes = seq<byte>

  // ---- Little-endian fields -----------------------------------------------

  const MAX16 := 0xffff
  const MAX32 := 0xffff_ffff

  function U16(n: nat): (b: Bytes)
    requires n <= MAX16
    ensures |b| == 2
  {
    [(n % 0x100) as byte, (n / 0x100) as byte]
  }

  function U32(n: nat): (b: Bytes)
    requires n <= MAX32
    ensures |b| == 4
  {
    U16(n % 0x1_0000) + U16(n / 0x1_0000)
  }

  /** readUInt16LE */
  function Num16(z: Bytes, at: nat): (n: nat)
    requires at + 2 <= |z|
    ensures n <= MAX16
  {
    z[at] as nat + 0x100 * (z[at + 1] as nat)
  }

  /** readUInt32LE */
  function Num32(z: Bytes, at: nat): (n: nat)
    requires at + 4 <= |z|
    ensures n <= MAX32
  {
    Num16(z, at) + 0x1_0000 * Num16(z, at + 2)
  }

  /** The four bytes of a checksum field. */
  function Sum32(z: Bytes, at: nat): (b: Bytes)
    requires at + 4 <= |z|
    ensures |b| == 4
  {
    z[at..at + 4]
  }

  lemma Num16OfU16(n: nat)
    requires n <= MAX16
    ensures Num16(U16(n), 0) == n
  {
  }

  lemma Num32OfU32(n: nat)
    requires n <= MAX32
    ensures Num32(U32(n), 0) == n
  {
    Num16OfU16(n % 0x1_0000);
    Num16OfU16(n / 0x1_0000);
  }

  // ---- Headers ------------------------------------------------------------

  const LOCAL_SIGNATURE := 0x0403_4b50
  const CENTRAL_SIGNATURE := 0x0201_4b50
  const END_SIGNATURE := 0x0605_4b50
  const UTF8_FLAG := 0x0800

  function Zeros(n: nat): (b: Bytes)
    ensures |b| == n
  {
    seq(n, _ => 0)
  }

  /** The fields that both headers share: flags, method, zero times, CRC, both sizes and the name length. */
  function Common(sum: Bytes, size: nat, nameLength: nat): (h: Bytes)
    requires |sum| == 4 && size <= MAX32 && nameLength <= MAX16
    ensures |h| == 22
  {
    U16(UTF8_FLAG) + U16(0) + Zeros(4) + sum + U32(size) + U32(size) + U16(nameLength)
  }

  /** Section 4.3.7, with zero times and no extra field. */
  function LocalHeader(sum: Bytes, size: nat, nameLength: nat): (h: Bytes)
    requires |sum| == 4 && size <= MAX32 && nameLength <= MAX16
    ensures |h| == 30
  {
    U32(LOCAL_SIGNATURE) + U16(20) + Common(sum, size, nameLength) + Zeros(2)
  }

  /** Section 4.3.12, with zero times, attributes and disk number, no extra field and no comment. */
  function CentralHeader(sum: Bytes, size: nat, nameLength: nat, offset: nat): (h: Bytes)
    requires |sum| == 4 && size <= MAX32 && nameLength <= MAX16 && offset <= MAX32
    ensures |h| == 46
  {
    U32(CENTRAL_SIGNATURE) + U16(20) + U16(20) + Common(sum, size, nameLength) + Zeros(12) + U32(offset)
  }

  /** Section 4.3.16, one disk and no comment. */
  function EndRecord(count: nat, centralSize: nat, centralOffset: nat): (h: Bytes)
    requires count <= MAX16 && centralSize <= MAX32 && centralOffset <= MAX32
    ensures |h| == 22
  {
    U32(END_SIGNATURE) + Zeros(4) + U16(count) + U16(count) + U32(centralSize) + U32(centralOffset) + Zeros(2)
  }

  /**
   * How the three records begin, byte for byte: "PK" with two more bytes that tell them apart,
   * then version 2.0, the flag for UTF-8 names, no compression and no time.
   */
  lemma RecordsBegin(sum: Bytes, size: nat, nameLength: nat, offset: nat, count: nat)
    requires |sum| == 4 && size <= MAX32 && nameLength <= MAX16 && offset <= MAX32 && count <= MAX16
    ensures LocalHeader(sum, size, nameLength)[..14] == [0x50, 0x4b, 3, 4, 20, 0, 0, 8, 0, 0, 0, 0, 0, 0]
    ensures CentralHeader(sum, size, nameLength, offset)[..16] == [0x50, 0x4b, 1, 2, 20, 0, 20, 0, 0, 8, 0, 0, 0, 0, 0, 0]
    ensures EndRecord(count, size, offset)[..8] == [0x50, 0x4b, 5, 6, 0, 0, 0, 0]
  {
    SignatureBytes();
    var local, central, end := LocalHeader(sum, size, nameLength), CentralHeader(sum, size, nameLength, offset),
                               EndRecord(count, size, offset);
    var common := Common(sum, size, nameLength);
    assert common[..8] == U16(UTF8_FLAG) + U16(0) + Zeros(4);
    assert local[..14] == U32(LOCAL_SIGNATURE) + U16(20) + common[..8];
    assert central[..16] == U32(CENTRAL_SIGNATURE) + U16(20) + U16(20) + common[..8];
    assert end[..8] == U32(END_SIGNATURE) + Zeros(4);
  }

  lemma SignatureBytes()
    ensures U32(LOCAL_SIGNATURE) == [0x50, 0x4b, 3, 4] && U32(CENTRAL_SIGNATURE) == [0x50, 0x4b, 1, 2]
    ensures U32(END_SIGNATURE) == [0x50, 0x4b, 5, 6] && U16(UTF8_FLAG) == [0, 8] && U16(20) == [20, 0] && U16(0) == [0, 0]
    ensures Zeros(4) == [0, 0, 0, 0]
  {
  }

  /** `part` lies in `z` at this place. */
  predicate LiesAt(z: Bytes, at: nat, part: Bytes) {
    at + |part| <= |z| && z[at..at + |part|] == part
  }

  lemma Field16(z: Bytes, at: nat, n: nat)
    requires n <= MAX16 && LiesAt(z, at, U16(n))
    ensures Num16(z, at) == n
  {
    Num16OfU16(n);
    assert z[at] == z[at..at + 2][0] && z[at + 1] == z[at..at + 2][1];
  }

  lemma Field32(z: Bytes, at: nat, n: nat)
    requires n <= MAX32 && LiesAt(z, at, U32(n))
    ensures Num32(z, at) == n
  {
    Num32OfU32(n);
    assert z[at] == z[at..at + 4][0] && z[at + 1] == z[at..at + 4][1];
    assert z[at + 2] == z[at..at + 4][2] && z[at + 3] == z[at..at + 4][3];
  }

  /** What lies in a part lies in the whole. */
  lemma LiesWithin(z: Bytes, at: nat, part: Bytes, inner: nat, piece: Bytes)
    requires LiesAt(z, at, part) && LiesAt(part, inner, piece)
    ensures LiesAt(z, at + inner, piece)
  {
    var found := z[at + inner..at + inner + |piece|];
    forall i | 0 <= i < |piece| ensures found[i] == piece[i] {
      assert found[i] == z[at..at + |part|][inner + i];
      assert part[inner..inner + |piece|][i] == part[inner + i];
    }
  }

  lemma LiesBetween(before: Bytes, part: Bytes, after: Bytes)
    ensures LiesAt(before + part + after, |before|, part)
  {
  }

  lemma CommonFields(z: Bytes, at: nat, sum: Bytes, size: nat, nameLength: nat)
    requires |sum| == 4 && size <= MAX32 && nameLength <= MAX16 && LiesAt(z, at, Common(sum, size, nameLength))
    ensures Num16(z, at) == UTF8_FLAG && Num16(z, at + 2) == 0
    ensures Sum32(z, at + 8) == sum && Num32(z, at + 12) == size && Num32(z, at + 16) == size
    ensures Num16(z, at + 20) == nameLength
  {
    var h := Common(sum, size, nameLength);
    assert LiesAt(h, 0, U16(UTF8_FLAG)) && LiesAt(h, 2, U16(0)) && LiesAt(h, 8, sum);
    assert LiesAt(h, 12, U32(size)) && LiesAt(h, 16, U32(size));
    var front := U16(UTF8_FLAG) + U16(0) + Zeros(4) + sum + U32(size) + U32(size);
    LiesBetween(front, U16(nameLength), []);
    assert h == front + U16(nameLength) + [];
    LiesWithin(z, at, h, 0, U16(UTF8_FLAG));
    LiesWithin(z, at, h, 2, U16(0));
    LiesWithin(z, at, h, 8, sum);
    LiesWithin(z, at, h, 12, U32(size));
    LiesWithin(z, at, h, 16, U32(size));
    LiesWithin(z, at, h, 20, U16(nameLength));
    Field16(z, at, UTF8_FLAG);
    Field16(z, at + 2, 0);
    Field32(z, at + 12, size);
    Field32(z, at + 16, size);
    Field16(z, at + 20, nameLength);
  }

  lemma LocalHeaderFields(sum: Bytes, size: nat, nameLength: nat)
    requires |sum| == 4 && size <= MAX32 && nameLength <= MAX16
    ensures var h := LocalHeader(sum, size, nameLength);
      && Num32(h, 0) == LOCAL_SIGNATURE && Num16(h, 6) == UTF8_FLAG && Num16(h, 8) == 0
      && Sum32(h, 14) == sum && Num32(h, 18) == size && Num32(h, 22) == size
      && Num16(h, 26) == nameLength && Num16(h, 28) == 0
  {
    var h := LocalHeader(sum, size, nameLength);
    LiesBetween(U32(LOCAL_SIGNATURE) + U16(20), Common(sum, size, nameLength), Zeros(2));
    CommonFields(h, 6, sum, size, nameLength);
    assert LiesAt(h, 0, U32(LOCAL_SIGNATURE)) && LiesAt(h, 28, U16(0));
    Field32(h, 0, LOCAL_SIGNATURE);
    Field16(h, 28, 0);
  }

  lemma CentralHeaderFields(sum: Bytes, size: nat, nameLength: nat, offset: nat)
    requires |sum| == 4 && size <= MAX32 && nameLength <= MAX16 && offset <= MAX32
    ensures var h := CentralHeader(sum, size, nameLength, offset);
      && Num32(h, 0) == CENTRAL_SIGNATURE && Num16(h, 8) == UTF8_FLAG && Num16(h, 10) == 0
      && Sum32(h, 16) == sum && Num32(h, 20) == size && Num32(h, 24) == size
      && Num16(h, 28) == nameLength && Num16(h, 30) == 0 && Num16(h, 32) == 0 && Num32(h, 42) == offset
  {
    var h := CentralHeader(sum, size, nameLength, offset);
    LiesBetween(U32(CENTRAL_SIGNATURE) + U16(20) + U16(20), Common(sum, size, nameLength), Zeros(12) + U32(offset));
    assert h == U32(CENTRAL_SIGNATURE) + U16(20) + U16(20) + Common(sum, size, nameLength) + (Zeros(12) + U32(offset));
    CommonFields(h, 8, sum, size, nameLength);
    assert LiesAt(h, 0, U32(CENTRAL_SIGNATURE)) && LiesAt(h, 30, U16(0)) && LiesAt(h, 32, U16(0));
    assert LiesAt(h, 42, U32(offset));
    Field32(h, 0, CENTRAL_SIGNATURE);
    Field16(h, 30, 0);
    Field16(h, 32, 0);
    Field32(h, 42, offset);
  }

  lemma EndRecordFields(count: nat, centralSize: nat, centralOffset: nat)
    requires count <= MAX16 && centralSize <= MAX32 && centralOffset <= MAX32
    ensures var h := EndRecord(count, centralSize, centralOffset);
      && Num32(h, 0) == END_SIGNATURE && Num16(h, 4) == 0 && Num16(h, 6) == 0
      && Num16(h, 8) == count && Num16(h, 10) == count
      && Num32(h, 12) == centralSize && Num32(h, 16) == centralOffset && Num16(h, 20) == 0
  {
    var h := EndRecord(count, centralSize, centralOffset);
    assert LiesAt(h, 0, U32(END_SIGNATURE)) && LiesAt(h, 4, U16(0)) && LiesAt(h, 6, U16(0));
    assert LiesAt(h, 8, U16(count)) && LiesAt(h, 10, U16(count));
    assert LiesAt(h, 12, U32(centralSize)) && LiesAt(h, 16, U32(centralOffset)) && LiesAt(h, 20, U16(0));
    Field32(h, 0, END_SIGNATURE);
    Field16(h, 4, 0);
    Field16(h, 6, 0);
    Field16(h, 8, count);
    Field16(h, 10, count);
    Field32(h, 12, centralSize);
    Field32(h, 16, centralOffset);
    Field16(h, 20, 0);
  }
}
