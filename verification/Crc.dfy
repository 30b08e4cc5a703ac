/** The CRC-32 of stored bundle entries: PKWARE APPNOTE.TXT section 4.4.7. */
module Crc {
  import opened Registers

  const START: bv32 := 0xffff_ffff
  const POLYNOMIAL: bv32 := 0xedb8_8320

  predicate Odd(c: bv32) { c & 1 == 1 }

  function Half(c: bv32): bv32 { c >> (1 as bv8) }

  function Xor(a: bv32, b: bv32): bv32 { a ^ b }

  /** One bit: shift right, and fold the polynomial in when a one falls out. */
  function Step(c: bv32): bv32 {
    if Odd(c) then Xor(Half(c), POLYNOMIAL) else Half(c)
  }

  function Bits(b: byte): bv8 { (b as int) as bv8 }

  function ByteOf(v: bv8): byte { (v as int) as byte }

  lemma BitsOfByte(v: bv8)
    ensures Bits(ByteOf(v)) == v
  {
  }

  lemma NextBits(v: bv8)
    requires v != 0xff
    ensures (v + 1) as int == v as int + 1
  {
  }

  /** Every byte value is that of some eight bits. */
  lemma {:induction false} BitsFor(b: byte) returns (v: bv8)
    ensures ByteOf(v) == b
  {
    if b == 0 {
      v := 0;
    } else {
      var u := BitsFor(b - 1);
      assert u == 0xff ==> u as int == 0xff;
      NextBits(u);
      v := u + 1;
    }
  }

  lemma ByteOfBits(b: byte)
    ensures ByteOf(Bits(b)) == b
  {
    var v := BitsFor(b);
    BitsOfByte(v);
  }

  function Wide(v: bv8): bv32 { v as bv32 }

  function Word(b: byte): bv32 { Wide(Bits(b)) }

  function Shift(w: bv32): bv32 { w << (8 as bv8) }

  function Eight(c: bv32): bv32 { Iterate(Step, 8, c) }

  const CRC32: Machine<bv32> := Machine(0, Xor, Word, Shift, Eight)

  function CrcOf(data: seq<byte>): bv32 {
    Xor(Feed(CRC32, START, data), START)
  }

  method FeedBits(c: bv32) returns (crc: bv32)
    ensures crc == Eight(c)
  {
    crc := c;
    var bit := 0;
    while bit < 8
      invariant bit <= 8 && crc == Iterate(Step, bit, c)
    {
      IterateSnoc(Step, bit, c);
      crc := Step(crc);
      bit := bit + 1;
    }
  }

  lemma FeedNext(c: bv32, data: seq<byte>, i: nat)
    requires i < |data|
    ensures Feed(CRC32, c, data[..i + 1]) == Eight(Xor(Feed(CRC32, c, data[..i]), Word(data[i])))
  {
    assert data[..i + 1] == data[..i] + [data[i]];
    FeedJoin(CRC32, c, data[..i], [data[i]]);
    FeedOne(Feed(CRC32, c, data[..i]), data[i]);
  }

  lemma FeedOne(c: bv32, b: byte)
    ensures Feed(CRC32, c, [b]) == Eight(Xor(c, Word(b)))
  {
  }

  method Crc32(data: seq<byte>) returns (crc: bv32)
    ensures crc == CrcOf(data)
  {
    crc := START;
    var i := 0;
    while i < |data|
      invariant i <= |data| && crc == Feed(CRC32, START, data[..i])
    {
      FeedNext(START, data, i);
      crc := FeedBits(Xor(crc, Word(data[i])));
      i := i + 1;
    }
    assert data[..i] == data;
    crc := Xor(crc, START);
  }

  // ---- The laws of this register ------------------------------------------

  /** The polynomial's top bit records whether a one fell out, so a step can be undone. */
  lemma StepInjective(c: bv32, d: bv32)
    requires Step(c) == Step(d)
    ensures c == d
  {
  }

  lemma EightInjective()
    ensures Injective(CRC32.eight)
  {
    forall c, d | Step(c) == Step(d) ensures c == d { StepInjective(c, d); }
    forall c, d | Eight(c) == Eight(d) ensures c == d { IterateInjective(Step, 8, c, d); }
  }

  lemma XorZeroLaw()
    ensures ZeroLaw(CRC32)
  {
    forall c: bv32 ensures CRC32.xor(c, CRC32.zero) == c {
      assert c ^ 0 == c;
    }
  }

  lemma XorJoins(a: bv32, b: bv32, c: bv32)
    ensures (a ^ b) ^ c == a ^ (b ^ c)
  {
  }

  lemma XorRejoins(a: bv32, b: bv32, c: bv32)
    ensures Xor(Xor(a, b), c) == Xor(a, Xor(b, c))
  {
    XorJoins(a, b, c);
  }

  lemma XorJoinLaw()
    ensures JoinLaw(CRC32)
  {
    forall a, b, c ensures Joins(CRC32, a, b, c) { XorRejoins(a, b, c); }
  }

  lemma XorCancels(a: bv32, c: bv32, d: bv32)
    ensures a ^ c == a ^ d ==> c == d
    ensures c ^ a == d ^ a ==> c == d
  {
  }

  lemma XorCancelLaw()
    ensures CancelLaw(CRC32)
  {
    forall a, c, d | CRC32.xor(a, c) == CRC32.xor(a, d) ensures c == d { XorCancels(a, c, d); }
    forall a, c, d | CRC32.xor(c, a) == CRC32.xor(d, a) ensures c == d { XorCancels(a, c, d); }
  }

  lemma XorCommutes(a: bv32, b: bv32)
    ensures Xor(a, b) == Xor(b, a)
  {
  }

  lemma XorSwaps(a: bv32, b: bv32, c: bv32)
    ensures Xor(Xor(a, b), c) == Xor(Xor(a, c), b)
  {
    XorRejoins(a, b, c);
    XorRejoins(a, c, b);
    XorCommutes(b, c);
  }

  // ---- Folding three bytes ahead ------------------------------------------

  function Left(e: bv32): bv32 { e << (1 as bv8) }

  /** The top bit is clear, so shifting left loses nothing. */
  predicate Room(e: bv32) { e & 0x8000_0000 == 0 }

  lemma LeftIsEven(c: bv32, f: bv32)
    ensures Odd(Xor(c, Left(f))) <==> Odd(c)
  {
  }

  lemma LeftThenHalf(c: bv32, f: bv32)
    requires Room(f)
    ensures Half(Xor(c, Left(f))) == Xor(Half(c), f)
  {
  }

  /** A bit that has not reached the low end yet just moves along. */
  lemma StepLater(c: bv32, f: bv32)
    requires Room(f)
    ensures Step(Xor(c, Left(f))) == Xor(Step(c), f)
  {
    LeftIsEven(c, f);
    LeftThenHalf(c, f);
    XorSwaps(Half(c), POLYNOMIAL, f);
  }

  ghost predicate RoomFor(e: bv32, n: nat) {
    forall i :: 0 <= i < n ==> Room(Iterate(Left, i, e))
  }

  lemma {:induction false} StepsLater(n: nat, c: bv32, e: bv32)
    requires RoomFor(e, n)
    ensures Iterate(Step, n, Xor(c, Iterate(Left, n, e))) == Xor(Iterate(Step, n, c), e)
  {
    if n > 0 {
      IterateSnoc(Left, n - 1, e);
      StepLater(c, Iterate(Left, n - 1, e));
      StepsLater(n - 1, Step(c), e);
    }
  }

  /** At most `n` bytes wide. */
  predicate Fits(w: bv32, n: nat) {
    match n
    case 0 => w == 0
    case 1 => w < 0x100
    case 2 => w < 0x1_0000
    case 3 => w < 0x100_0000
    case _ => true
  }

  lemma ThreeBytesMove(e: bv32)
    requires Fits(e, 3)
    ensures RoomFor(e, 8) && Iterate(Left, 8, e) == Shift(e)
  {
    var e1 := Left(e);
    var e2 := Left(e1);
    var e3 := Left(e2);
    var e4 := Left(e3);
    var e5 := Left(e4);
    var e6 := Left(e5);
    var e7 := Left(e6);
    assert Iterate(Left, 0, e) == e && Iterate(Left, 1, e) == e1 && Iterate(Left, 2, e) == e2;
    assert Iterate(Left, 3, e) == e3 && Iterate(Left, 4, e) == e4;
    IterateSnoc(Left, 4, e);
    IterateSnoc(Left, 5, e);
    IterateSnoc(Left, 6, e);
    IterateSnoc(Left, 7, e);
    forall i | 0 <= i < 8 ensures Room(Iterate(Left, i, e)) {
      assert i == 0 || i == 1 || i == 2 || i == 3 || i == 4 || i == 5 || i == 6 || i == 7;
    }
  }

  /** The next three bytes may be folded in before the current one has left. */
  lemma FoldAhead(e: bv32)
    requires Fits(e, 3)
    ensures FoldsAhead(CRC32, e)
  {
    forall c ensures FoldsInto(CRC32, e, c) {
      ThreeBytesMove(e);
      StepsLater(8, c, e);
    }
  }

  lemma OneByteFits(b: bv8)
    ensures Fits(Xor(Wide(b), Shift(0)), 1)
  {
  }

  lemma TwoBytesFit(b: bv8, w: bv32)
    requires Fits(w, 1)
    ensures Fits(Xor(Wide(b), Shift(w)), 2)
  {
  }

  lemma ThreeBytesFit(b: bv8, w: bv32)
    requires Fits(w, 2)
    ensures Fits(Xor(Wide(b), Shift(w)), 3)
  {
  }

  lemma PackOne(b: byte, w: bv32, n: nat)
    requires n <= 3 && Fits(w, n)
    ensures Fits(Xor(Word(b), Shift(w)), n + 1)
  {
    match n
    case 0 => OneByteFits(Bits(b));
    case 1 => TwoBytesFit(Bits(b), w);
    case 2 => ThreeBytesFit(Bits(b), w);
    case _ =>
  }

  lemma OneFits(w: bv32) requires w < 0x100 ensures w < 0x100_0000 { }

  lemma TwoFit(w: bv32) requires w < 0x1_0000 ensures w < 0x100_0000 { }

  lemma FitsGrows(w: bv32, n: nat)
    requires n <= 3 && Fits(w, n)
    ensures Fits(w, 3)
  {
    if n == 1 { OneFits(w); }
    if n == 2 { TwoFit(w); }
  }

  lemma UnpackBits(b: bv8, w: bv32, b': bv8, w': bv32)
    requires Fits(w, 3) && Fits(w', 3) && Xor(Wide(b), Shift(w)) == Xor(Wide(b'), Shift(w'))
    ensures b == b' && w == w'
  {
  }

  lemma UnpackOne(b: byte, w: bv32, b': byte, w': bv32)
    requires Fits(w, 3) && Fits(w', 3) && Xor(Word(b), Shift(w)) == Xor(Word(b'), Shift(w'))
    ensures b == b' && w == w'
  {
    UnpackBits(Bits(b), w, Bits(b'), w');
    ByteOfBits(b);
    ByteOfBits(b');
  }

  lemma {:induction false} PackedFits(x: seq<byte>)
    requires |x| <= 4
    ensures Fits(Packed(CRC32, x), |x|) && (|x| <= 3 ==> Fits(Packed(CRC32, x), 3))
  {
    if x != [] {
      PackedFits(x[1..]);
      PackOne(x[0], Packed(CRC32, x[1..]), |x| - 1);
    }
    if |x| <= 3 { FitsGrows(Packed(CRC32, x), |x|); }
  }

  lemma {:induction false} PackedInjective(x: seq<byte>, y: seq<byte>)
    requires |x| == |y| <= 4 && Packed(CRC32, x) == Packed(CRC32, y)
    ensures x == y
  {
    if x != [] {
      PackedFits(x[1..]);
      PackedFits(y[1..]);
      UnpackOne(x[0], Packed(CRC32, x[1..]), y[0], Packed(CRC32, y[1..]));
      PackedInjective(x[1..], y[1..]);
      assert x == [x[0]] + x[1..] && y == [y[0]] + y[1..];
    }
  }

  /** The CRC register runs backwards and takes up to four bytes at a time. */
  lemma CrcIsLawful()
    ensures Lawful(CRC32, 4)
  {
    XorZeroLaw();
    XorJoinLaw();
    XorCancelLaw();
    EightInjective();
    forall x: seq<byte> | |x| < 4 ensures FoldsAhead(CRC32, Packed(CRC32, x)) {
      PackedFits(x);
      FoldAhead(Packed(CRC32, x));
    }
    forall x: seq<byte>, y: seq<byte> | |x| == |y| <= 4 && Packed(CRC32, x) == Packed(CRC32, y) ensures x == y {
      PackedInjective(x, y);
    }
  }

  /** Changing data within four consecutive bytes always changes its CRC. */
  lemma BurstDetected(before: seq<byte>, x: seq<byte>, y: seq<byte>, after: seq<byte>)
    requires |x| == |y| <= 4 && x != y
    ensures CrcOf(before + x + after) != CrcOf(before + y + after)
  {
    CrcIsLawful();
    BurstChangesRegister(CRC32, 4, START, before, x, y, after);
    XorCancels(START, Feed(CRC32, START, before + x + after), Feed(CRC32, START, before + y + after));
  }

  // ---- The recorded field -------------------------------------------------

  function Byte0(c: bv32): bv8 { (c & 0xff) as bv8 }

  function Byte1(c: bv32): bv8 { ((c >> (8 as bv8)) & 0xff) as bv8 }

  function Byte2(c: bv32): bv8 { ((c >> (16 as bv8)) & 0xff) as bv8 }

  function Byte3(c: bv32): bv8 { (c >> (24 as bv8)) as bv8 }

  /** The little-endian bytes of a register word. */
  function WordBytes(c: bv32): (b: seq<byte>)
    ensures |b| == 4
  {
    [ByteOf(Byte0(c)), ByteOf(Byte1(c)), ByteOf(Byte2(c)), ByteOf(Byte3(c))]
  }

  lemma FourBytes(c: bv32, d: bv32)
    requires Byte0(c) == Byte0(d) && Byte1(c) == Byte1(d) && Byte2(c) == Byte2(d) && Byte3(c) == Byte3(d)
    ensures c == d
  {
  }

  lemma ByteOfInjective(v: bv8, w: bv8)
    requires ByteOf(v) == ByteOf(w)
    ensures v == w
  {
    BitsOfByte(v);
    BitsOfByte(w);
  }

  lemma WordBytesInjective(c: bv32, d: bv32)
    requires WordBytes(c) == WordBytes(d)
    ensures c == d
  {
    assert WordBytes(c)[0] == WordBytes(d)[0] && WordBytes(c)[1] == WordBytes(d)[1];
    assert WordBytes(c)[2] == WordBytes(d)[2] && WordBytes(c)[3] == WordBytes(d)[3];
    ByteOfInjective(Byte0(c), Byte0(d));
    ByteOfInjective(Byte1(c), Byte1(d));
    ByteOfInjective(Byte2(c), Byte2(d));
    ByteOfInjective(Byte3(c), Byte3(d));
    FourBytes(c, d);
  }

  /** The CRC as an archive records it. */
  function Checksum(data: seq<byte>): (b: seq<byte>)
    ensures |b| == 4
  {
    WordBytes(CrcOf(data))
  }

  // ---- The residue --------------------------------------------------------

  lemma PackedNext(b: byte, rest: seq<byte>)
    ensures Packed(CRC32, [b] + rest) == Xor(Word(b), Shift(Packed(CRC32, rest)))
  {
    assert ([b] + rest)[1..] == rest;
  }

  /** The four bytes of a word, packed again. */
  lemma PackedWord(c: bv32)
    ensures Packed(CRC32, WordBytes(c)) == c
  {
    var b := WordBytes(c);
    BitsOfByte(Byte0(c));
    BitsOfByte(Byte1(c));
    BitsOfByte(Byte2(c));
    BitsOfByte(Byte3(c));
    assert b == [b[0]] + ([b[1]] + ([b[2]] + ([b[3]] + [])));
    PackedNext(b[3], []);
    PackedNext(b[2], [b[3]] + []);
    PackedNext(b[1], [b[2]] + ([b[3]] + []));
    PackedNext(b[0], [b[1]] + ([b[2]] + ([b[3]] + [])));
    Reassembled(c);
  }

  lemma Reassembled(c: bv32)
    ensures Xor(Wide(Byte0(c)), Shift(Xor(Wide(Byte1(c)), Shift(Xor(Wide(Byte2(c)), Shift(Xor(Wide(Byte3(c)), Shift(0)))))))) == c
  {
  }

  lemma EightSteps(s: seq<bv32>)
    requires |s| == 9 && forall i :: 0 <= i < 8 ==> Step(s[i]) == s[i + 1]
    ensures Eight(s[0]) == s[8]
  {
    assert Iterate(Step, 8, s[0]) == Iterate(Step, 7, s[1]) == Iterate(Step, 6, s[2]) == Iterate(Step, 5, s[3]);
    assert Iterate(Step, 5, s[3]) == Iterate(Step, 4, s[4]) == Iterate(Step, 3, s[5]) == Iterate(Step, 2, s[6]);
    assert Iterate(Step, 2, s[6]) == Iterate(Step, 1, s[7]) == Iterate(Step, 0, s[8]);
  }

  lemma FirstByteOfOnes()
    ensures Eight(0xffff_ffff) == 0x2dfd_1072
  {
    EightSteps([0xffff_ffff, 0x9247_7cdf, 0xa49b_3d4f, 0xbff5_1d87, 0xb242_0de3,
                0xb499_85d1, 0xb7f4_41c8, 0x5bfa_20e4, 0x2dfd_1072]);
  }

  lemma SecondByteOfOnes()
    ensures Eight(0x2dfd_1072) == 0xbe26_ed00
  {
    EightSteps([0x2dfd_1072, 0x16fe_8839, 0xe6c7_c73c, 0x7363_e39e, 0x39b1_f1cf,
                0xf160_7bc7, 0x9508_bec3, 0xa73c_dc41, 0xbe26_ed00]);
  }

  lemma ThirdByteOfOnes()
    ensures Eight(0xbe26_ed00) == 0x00be_26ed
  {
    EightSteps([0xbe26_ed00, 0x5f13_7680, 0x2f89_bb40, 0x17c4_dda0, 0x0be2_6ed0,
                0x05f1_3768, 0x02f8_9bb4, 0x017c_4dda, 0x00be_26ed]);
  }

  lemma FourthByteOfOnes()
    ensures Eight(0x00be_26ed) == 0xdebb_20e3
  {
    EightSteps([0x00be_26ed, 0xede7_9056, 0x76f3_c82b, 0xd6c1_6735, 0x86d8_30ba,
                0x436c_185d, 0xcc0e_8f0e, 0x6607_4787, 0xdebb_20e3]);
  }

  const RESIDUE: bv32 := 0xdebb_20e3

  /** Data followed by its recorded CRC always leave the register at the residue of CRC-32. */
  lemma ResidueLaw(data: seq<byte>)
    ensures Feed(CRC32, START, data + Checksum(data)) == RESIDUE
  {
    var c := Feed(CRC32, START, data);
    FeedJoin(CRC32, START, data, Checksum(data));
    CrcIsLawful();
    FeedPacked(CRC32, 4, c, Checksum(data));
    PackedWord(CrcOf(data));
    XorUndone(c, START);
    FourBytesOfOnes();
  }

  lemma XorUndone(a: bv32, b: bv32)
    ensures Xor(a, Xor(a, b)) == b
  {
  }

  lemma FourBytesOfOnes()
    ensures Iterate(Eight, 4, START) == RESIDUE
  {
    FirstByteOfOnes();
    SecondByteOfOnes();
    ThirdByteOfOnes();
    FourthByteOfOnes();
    assert Iterate(Eight, 4, START) == Iterate(Eight, 3, 0x2dfd_1072) == Iterate(Eight, 2, 0xbe26_ed00);
    assert Iterate(Eight, 2, 0xbe26_ed00) == Iterate(Eight, 1, 0x00be_26ed) == Iterate(Eight, 0, RESIDUE);
  }

  /** No data, no CRC. */
  lemma EmptyCrc()
    ensures CrcOf([]) == 0
  {
  }

  /** Changing data within four consecutive bytes always changes its recorded CRC. */
  lemma BurstChangesChecksum(before: seq<byte>, x: seq<byte>, y: seq<byte>, after: seq<byte>)
    requires |x| == |y| <= 4 && x != y
    ensures Checksum(before + x + after) != Checksum(before + y + after)
  {
    BurstDetected(before, x, y, after);
    if Checksum(before + x + after) == Checksum(before + y + after) {
      WordBytesInjective(CrcOf(before + x + after), CrcOf(before + y + after));
    }
  }
}
