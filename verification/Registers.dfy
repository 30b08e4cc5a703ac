/** Shift registers in the abstract: what feeding bytes does when folding in ahead of time changes nothing. */
module Registers {
  newtype byte = x: int | 0 <= x < 0x100

  /** A register type with its operations; `eight` runs eight single-bit steps. */
  datatype Machine<!R> = Machine(
    zero: R,
    xor: (R, R) -> R,
    word: byte -> R,
    shift: R -> R,
    eight: R -> R)

  function Iterate<R>(step: R -> R, n: nat, c: R): R {
    if n == 0 then c else Iterate(step, n - 1, step(c))
  }

  lemma {:induction false} IterateSnoc<R>(step: R -> R, n: nat, c: R)
    ensures Iterate(step, n + 1, c) == step(Iterate(step, n, c))
  {
    if n > 0 { IterateSnoc(step, n - 1, step(c)); }
  }

  ghost predicate Injective<R(!new)>(step: R -> R) {
    forall c, d :: step(c) == step(d) ==> c == d
  }

  lemma {:induction false} IterateInjective<R(!new)>(step: R -> R, n: nat, c: R, d: R)
    requires Injective(step) && Iterate(step, n, c) == Iterate(step, n, d)
    ensures c == d
  {
    if n > 0 { IterateInjective(step, n - 1, step(c), step(d)); }
  }

  /** Each byte is folded into the register before its eight steps. */
  function Feed<R>(m: Machine<R>, c: R, data: seq<byte>): R
    decreases |data|
  {
    if data == [] then c else Feed(m, m.eight(m.xor(c, m.word(data[0]))), data[1..])
  }

  lemma {:induction false} FeedJoin<R>(m: Machine<R>, c: R, x: seq<byte>, y: seq<byte>)
    ensures Feed(m, c, x + y) == Feed(m, Feed(m, c, x), y)
    decreases |x|
  {
    if x == [] {
      assert x + y == y;
    } else {
      assert (x + y)[0] == x[0] && (x + y)[1..] == x[1..] + y;
      FeedJoin(m, m.eight(m.xor(c, m.word(x[0]))), x[1..], y);
    }
  }

  /** The bytes as one little-endian word. */
  function Packed<R>(m: Machine<R>, x: seq<byte>): R {
    if x == [] then m.zero else m.xor(m.word(x[0]), m.shift(Packed(m, x[1..])))
  }

  /** A word fits when what the register shifts out first leaves it alone. */
  ghost predicate FoldsAhead<R(!new)>(m: Machine<R>, w: R) {
    forall c {:trigger FoldsInto(m, w, c)} :: FoldsInto(m, w, c)
  }

  predicate FoldsInto<R(==)>(m: Machine<R>, w: R, c: R) {
    m.eight(m.xor(c, m.shift(w))) == m.xor(m.eight(c), w)
  }

  ghost predicate ZeroLaw<R(!new)>(m: Machine<R>) {
    forall c :: m.xor(c, m.zero) == c
  }

  ghost predicate JoinLaw<R(!new)>(m: Machine<R>) {
    forall a, b, c {:trigger Joins(m, a, b, c)} :: Joins(m, a, b, c)
  }

  predicate Joins<R(==)>(m: Machine<R>, a: R, b: R, c: R) {
    m.xor(m.xor(a, b), c) == m.xor(a, m.xor(b, c))
  }

  ghost predicate CancelLaw<R(!new)>(m: Machine<R>) {
    && (forall a, c, d :: m.xor(a, c) == m.xor(a, d) ==> c == d)
    && (forall a, c, d :: m.xor(c, a) == m.xor(d, a) ==> c == d)
  }

  /** A register of `width` bytes: it runs backwards, and fewer bytes than that can be folded in ahead. */
  ghost predicate Lawful<R(!new)>(m: Machine<R>, width: nat) {
    && ZeroLaw(m) && JoinLaw(m) && CancelLaw(m) && Injective(m.eight)
    && (forall x: seq<byte> :: |x| < width ==> FoldsAhead(m, Packed(m, x)))
    && (forall x: seq<byte>, y: seq<byte> :: |x| == |y| <= width && Packed(m, x) == Packed(m, y) ==> x == y)
  }

  /** The first byte of a word, and the rest of it folded in ahead of time. */
  lemma FoldRest<R(!new)>(m: Machine<R>, width: nat, c: R, first: R, rest: seq<byte>)
    requires Lawful(m, width) && |rest| < width
    ensures m.xor(m.eight(m.xor(c, first)), Packed(m, rest)) == m.eight(m.xor(c, m.xor(first, m.shift(Packed(m, rest)))))
  {
    assert FoldsAhead(m, Packed(m, rest));
    assert FoldsInto(m, Packed(m, rest), m.xor(c, first));
    assert Joins(m, c, first, m.shift(Packed(m, rest)));
  }

  lemma ZeroAt<R(!new)>(m: Machine<R>, width: nat, c: R)
    requires Lawful(m, width)
    ensures m.xor(c, m.zero) == c
  {
  }

  /** Up to `width` bytes may be fed as one word. */
  lemma {:induction false} FeedPacked<R(!new)>(m: Machine<R>, width: nat, c: R, x: seq<byte>)
    requires Lawful(m, width) && |x| <= width
    ensures Feed(m, c, x) == Iterate(m.eight, |x|, m.xor(c, Packed(m, x)))
    decreases |x|
  {
    if x == [] {
      ZeroAt(m, width, c);
    } else {
      FeedPacked(m, width, m.eight(m.xor(c, m.word(x[0]))), x[1..]);
      FoldRest(m, width, c, m.word(x[0]), x[1..]);
    }
  }

  /** Equal bytes fed to different registers leave different registers. */
  lemma {:induction false} FeedInjective<R(!new)>(m: Machine<R>, width: nat, c: R, d: R, data: seq<byte>)
    requires Lawful(m, width) && Feed(m, c, data) == Feed(m, d, data)
    ensures c == d
    decreases |data|
  {
    if data != [] {
      var w := m.word(data[0]);
      FeedInjective(m, width, m.eight(m.xor(c, w)), m.eight(m.xor(d, w)), data[1..]);
      assert m.xor(c, w) == m.xor(d, w);
    }
  }

  /** Changing data within `width` consecutive bytes always changes the register it leaves. */
  lemma BurstChangesRegister<R(!new)>(m: Machine<R>, width: nat, c: R, before: seq<byte>, x: seq<byte>, y: seq<byte>, after: seq<byte>)
    requires Lawful(m, width) && |x| == |y| <= width && x != y
    ensures Feed(m, c, before + x + after) != Feed(m, c, before + y + after)
  {
    if Feed(m, c, before + x + after) == Feed(m, c, before + y + after) {
      var r := Feed(m, c, before);
      FeedJoin(m, c, before + x, after);
      FeedJoin(m, c, before + y, after);
      FeedInjective(m, width, Feed(m, c, before + x), Feed(m, c, before + y), after);
      FeedJoin(m, c, before, x);
      FeedJoin(m, c, before, y);
      FeedPacked(m, width, r, x);
      FeedPacked(m, width, r, y);
      IterateInjective(m.eight, |x|, m.xor(r, Packed(m, x)), m.xor(r, Packed(m, y)));
    }
  }
}
