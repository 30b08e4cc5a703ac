/** What the writer and the reader of bundles promise together. */
module ZipRoundTrip {
  import opened Domain
  import opened Registers
  import opened Crc
  import opened ZipFormat
  import opened ZipLayout
  import opened ZipReader
  import opened ZipWriter

  lemma SumsOfItems(sumOf: SumOf, entries: seq<Input>)
    ensures SumsRight(sumOf, ItemsOf(sumOf, entries), 0)
  {
  }

  /** Every archive that can be written is read back as the same names and data, in the same order. */
  lemma RoundTrip(sumOf: SumOf, entries: seq<Input>)
    requires FourByteSums(sumOf) && Writable(sumOf, entries)
    ensures Read(sumOf, Archive(sumOf, entries)) == Ok(ItemsOf(sumOf, entries))
  {
    PartsDescribe(ItemsOf(sumOf, entries));
    SumsOfItems(sumOf, entries);
    ReadParts(sumOf, PartsFor(ItemsOf(sumOf, entries)), ItemsOf(sumOf, entries));
  }

  // ---- Changed data -------------------------------------------------------

  /** What differs from `z` at most in the `n` bytes from `at` on. */
  ghost function Altered(z: Bytes, at: nat, n: nat): iset<Bytes> {
    iset t: Bytes | |t| == |z| && forall k :: 0 <= k < |z| && !(at <= k < at + n) ==> t[k] == z[k]
  }

  lemma {:induction false} ConcatSplit(parts: seq<Bytes>, i: nat)
    requires i <= |parts|
    ensures Concat(parts) == Concat(parts[..i]) + Concat(parts[i..])
  {
    if i < |parts| {
      var last := |parts| - 1;
      ConcatSplit(parts[..last], i);
      assert parts[..last][..i] == parts[..i];
      assert parts[i..][..|parts[i..]| - 1] == parts[..last][i..];
      assert parts[i..][|parts[i..]| - 1] == parts[last];
    } else {
      assert parts[..i] == parts && parts[i..] == [];
    }
  }

  lemma ConcatTake(parts: seq<Bytes>, i: nat)
    requires i < |parts|
    ensures Concat(parts[..i + 1]) == Concat(parts[..i]) + parts[i]
  {
    assert parts[..i + 1] == parts[..i] + [parts[i]];
    ConcatSnoc(parts[..i], parts[i]);
  }

  lemma ConcatAround(parts: seq<Bytes>, i: nat)
    requires i < |parts|
    ensures Concat(parts) == Concat(parts[..i]) + parts[i] + Concat(parts[i + 1..])
  {
    ConcatSplit(parts, i + 1);
    ConcatTake(parts, i);
  }

  /** What comes after local record `i`. */
  function After(p: Parts, i: nat): Bytes
    requires i < |p.locals|
  {
    Concat(p.locals[i + 1..]) + Concat(p.centrals) + p.end
  }

  lemma AssembledAround(p: Parts, i: nat)
    requires i < |p.locals|
    ensures Assembled(p) == Concat(p.locals[..i]) + p.locals[i] + After(p, i)
  {
    ConcatAround(p.locals, i);
  }

  function WithLocal(p: Parts, i: nat, b: Bytes): Parts
    requires i < |p.locals|
  {
    p.(locals := p.locals[i := b])
  }

  /** A change inside one local record makes another archive of parts. */
  lemma ChangedAssembled(p: Parts, i: nat, t: Bytes, inner: nat, n: nat)
    requires i < |p.locals| && inner + n <= |p.locals[i]|
    requires t in Altered(Assembled(p), Start(p.locals, i) + inner, n)
    ensures Start(p.locals, i) + |p.locals[i]| <= |t|
    ensures var b := t[Start(p.locals, i)..Start(p.locals, i) + |p.locals[i]|];
      b in Altered(p.locals[i], inner, n) && Assembled(WithLocal(p, i, b)) == t
  {
    AssembledAround(p, i);
    var front, l, rest := Concat(p.locals[..i]), p.locals[i], After(p, i);
    Cut(front, l, rest, t, inner, n);
    var b := t[|front|..|front| + |l|];
    var p' := WithLocal(p, i, b);
    AssembledAround(p', i);
    assert p'.locals[..i] == p.locals[..i] && p'.locals[i + 1..] == p.locals[i + 1..];
  }

  lemma Cut(front: Bytes, l: Bytes, rest: Bytes, t: Bytes, inner: nat, n: nat)
    requires t in Altered(front + l + rest, |front| + inner, n) && inner + n <= |l|
    ensures |front| + |l| <= |t| && t[|front|..|front| + |l|] in Altered(l, inner, n)
    ensures t == front + t[|front|..|front| + |l|] + rest
  {
    var z := front + l + rest;
    var b := t[|front|..|front| + |l|];
    forall k | 0 <= k < |l| && !(inner <= k < inner + n) ensures b[k] == l[k] { assert t[|front| + k] == z[|front| + k]; }
    forall k | 0 <= k < |t| ensures t[k] == (front + b + rest)[k] {
      assert !(|front| <= k < |front| + |l|) ==> t[k] == z[k];
    }
  }

  /** A local record with other data still reads as the record of the entry with those data. */
  lemma OtherData(e: Item, b: Bytes, t: Bytes)
    requires b in LocalRecords(e) && |t| == |b| && t[..30 + |e.name|] == b[..30 + |e.name|]
    ensures t in LocalRecords(e.(data := t[30 + |e.name|..]))
  {
    var front := b[..30 + |e.name|];
    assert LiesAt(b, 0, front) && LiesAt(t, 0, front);
    SameFields(b, 0, front);
    SameFields(t, 0, front);
    assert t[30..30 + |e.name|] == front[30..] && b[30..30 + |e.name|] == front[30..];
  }

  lemma SameDirectoryRecord(e: Item, f: Item, offset: nat, b: Bytes)
    requires b in CentralRecords(e, offset) && f.name == e.name && |f.data| == |e.data| && f.sum == e.sum
    ensures b in CentralRecords(f, offset)
  {
  }

  lemma {:induction false} SameStarts(parts: seq<Bytes>, changed: seq<Bytes>, k: nat)
    requires |changed| == |parts| && k <= |parts| && forall j :: 0 <= j < |parts| ==> |changed[j]| == |parts[j]|
    ensures Start(changed, k) == Start(parts, k)
  {
    if k > 0 {
      SameStarts(parts, changed, k - 1);
      StartNext(parts, k - 1);
      StartNext(changed, k - 1);
    }
  }

  lemma ChangedStarts(p: Parts, i: nat, b: Bytes)
    requires i < |p.locals| && |b| == |p.locals[i]|
    ensures forall j :: 0 <= j <= |p.locals| ==> Start(WithLocal(p, i, b).locals, j) == Start(p.locals, j)
    ensures |Concat(WithLocal(p, i, b).locals)| == |Concat(p.locals)|
  {
    var changed := WithLocal(p, i, b).locals;
    forall j | 0 <= j <= |p.locals| ensures Start(changed, j) == Start(p.locals, j) { SameStarts(p.locals, changed, j); }
    StartEnd(p.locals);
    StartEnd(changed);
  }

  lemma ChangedCentrals(centrals: seq<Bytes>, locals: seq<Bytes>, locals': seq<Bytes>, items: seq<Item>, i: nat, e: Item)
    requires |centrals| == |items| == |locals| == |locals'| && i < |items|
    requires e.name == items[i].name && |e.data| == |items[i].data| && e.sum == items[i].sum
    requires forall j :: 0 <= j < |items| ==> centrals[j] in CentralRecords(items[j], Start(locals, j))
    requires forall j :: 0 <= j < |items| ==> Start(locals', j) == Start(locals, j)
    ensures forall j :: 0 <= j < |items| ==> centrals[j] in CentralRecords(items[i := e][j], Start(locals', j))
  {
    forall j | 0 <= j < |items| ensures centrals[j] in CentralRecords(items[i := e][j], Start(locals', j)) {
      SameDirectoryRecord(items[j], items[i := e][j], Start(locals, j), centrals[j]);
    }
  }

  lemma ChangedLocals(locals: seq<Bytes>, locals': seq<Bytes>, items: seq<Item>, i: nat, e: Item)
    requires |locals| == |items| == |locals'| && i < |items| && locals' == locals[i := locals'[i]]
    requires locals'[i] in LocalRecords(e)
    requires forall j :: 0 <= j < |items| ==> locals[j] in LocalRecords(items[j])
    ensures forall j :: 0 <= j < |items| ==> locals'[j] in LocalRecords(items[i := e][j])
  {
  }

  lemma IsDescribed(p: Parts, items: seq<Item>)
    requires |p.locals| == |p.centrals| == |items|
    requires forall j :: 0 <= j < |items| ==> p.locals[j] in LocalRecords(items[j])
    requires forall j :: 0 <= j < |items| ==> p.centrals[j] in CentralRecords(items[j], Start(p.locals, j))
    requires p.end in EndRecords(|items|, |Concat(p.centrals)|, |Concat(p.locals)|)
    ensures p in Described(items)
  {
  }

  lemma ChangedDescribe(p: Parts, items: seq<Item>, i: nat, b: Bytes, e: Item)
    requires p in Described(items) && i < |items| && |b| == |p.locals[i]| && b in LocalRecords(e)
    requires e.name == items[i].name && |e.data| == |items[i].data| && e.sum == items[i].sum
    ensures WithLocal(p, i, b) in Described(items[i := e])
  {
    var p' := WithLocal(p, i, b);
    ChangedStarts(p, i, b);
    ChangedLocals(p.locals, p'.locals, items, i, e);
    ChangedCentrals(p.centrals, p.locals, p'.locals, items, i, e);
    IsDescribed(p', items[i := e]);
  }

  /** `sumOf` notices every change of `d` that stays within `n` bytes from `at` on. */
  ghost predicate Notices(sumOf: SumOf, d: Bytes, at: nat, n: nat) {
    forall d' :: d' in Altered(d, at, n) && d' != d ==> sumOf(d') != sumOf(d)
  }

  lemma DataOfRecord(e: Item, l: Bytes, b: Bytes, at: nat, n: nat)
    requires l in LocalRecords(e) && b in Altered(l, 30 + |e.name| + at, n)
    ensures |l| == 30 + |e.name| + |e.data| && l[30 + |e.name|..] == e.data
    ensures b[..30 + |e.name|] == l[..30 + |e.name|]
    ensures b[30 + |e.name|..] in Altered(e.data, at, n)
    ensures b[30 + |e.name|..] == e.data ==> b == l
  {
    var front := 30 + |e.name|;
    assert l == l[..front] + l[front..] && b == b[..front] + b[front..];
    forall k | 0 <= k < |e.data| && !(at <= k < at + n) ensures b[front..][k] == e.data[k] {
      assert b[front + k] == l[front + k] == l[front..][k];
    }
  }

  lemma RecordSize(e: Item, l: Bytes)
    requires l in LocalRecords(e)
    ensures |l| == 30 + |e.name| + |e.data|
  {
  }

  /** A local record altered in its data is that of an entry with other data and the old checksum. */
  lemma AlteredRecord(e: Item, l: Bytes, b: Bytes, at: nat, n: nat) returns (e': Item)
    requires l in LocalRecords(e) && b in Altered(l, 30 + |e.name| + at, n) && b != l
    ensures b in LocalRecords(e') && |b| == |l| && e' == e.(data := e'.data)
    ensures e'.data in Altered(e.data, at, n) && e'.data != e.data && |e'.data| == |e.data|
  {
    DataOfRecord(e, l, b, at, n);
    OtherData(e, l, b);
    e' := e.(data := b[30 + |e.name|..]);
  }

  lemma AlteredLocal(p: Parts, items: seq<Item>, i: nat, b: Bytes, at: nat, n: nat) returns (e: Item)
    requires p in Described(items) && i < |items| && b != p.locals[i]
    requires b in Altered(p.locals[i], 30 + |items[i].name| + at, n)
    ensures WithLocal(p, i, b) in Described(items[i := e]) && e == items[i].(data := e.data)
    ensures e.data in Altered(items[i].data, at, n) && e.data != items[i].data
  {
    e := AlteredRecord(items[i], p.locals[i], b, at, n);
    ChangedDescribe(p, items, i, b, e);
  }

  lemma AlteredParts(p: Parts, items: seq<Item>, i: nat, t: Bytes, at: nat, n: nat) returns (p': Parts, e: Item)
    requires p in Described(items) && i < |items| && at + n <= |items[i].data|
    requires t in Altered(Assembled(p), Start(p.locals, i) + (30 + |items[i].name| + at), n) && t != Assembled(p)
    ensures p' in Described(items[i := e]) && Assembled(p') == t && e == items[i].(data := e.data)
    ensures e.data in Altered(items[i].data, at, n) && e.data != items[i].data
  {
    RecordSize(items[i], p.locals[i]);
    p' := OnlyLocalAltered(p, i, t, 30 + |items[i].name| + at, n);
    e := AlteredLocal(p, items, i, p'.locals[i], at, n);
  }

  lemma OnlyLocalAltered(p: Parts, i: nat, t: Bytes, inner: nat, n: nat) returns (p': Parts)
    requires i < |p.locals| && inner + n <= |p.locals[i]| && t != Assembled(p)
    requires t in Altered(Assembled(p), Start(p.locals, i) + inner, n)
    ensures |p'.locals| == |p.locals| && p' == WithLocal(p, i, p'.locals[i]) && Assembled(p') == t
    ensures p'.locals[i] in Altered(p.locals[i], inner, n) && p'.locals[i] != p.locals[i]
  {
    ChangedAssembled(p, i, t, inner, n);
    var b := t[Start(p.locals, i)..Start(p.locals, i) + |p.locals[i]|];
    p' := WithLocal(p, i, b);
    assert b == p.locals[i] ==> p' == p;
  }

  /** A noticed change of the data of one entry is rejected. */
  lemma ChangedPartsRejected(sumOf: SumOf, p: Parts, items: seq<Item>, i: nat, t: Bytes, at: nat, n: nat)
    requires p in Described(items) && DistinctNames(items) && i < |items| && at + n <= |items[i].data|
    requires t in Altered(Assembled(p), Start(p.locals, i) + (30 + |items[i].name| + at), n) && t != Assembled(p)
    requires Notices(sumOf, items[i].data, at, n) && sumOf(items[i].data) == items[i].sum
    ensures Read(sumOf, t) == Err(CrcMismatch)
  {
    var p', e := AlteredParts(p, items, i, t, at, n);
    ReadAltered(sumOf, p', items, i, e);
  }

  lemma ReadAltered(sumOf: SumOf, p: Parts, items: seq<Item>, i: nat, e: Item)
    requires DistinctNames(items) && i < |items| && p in Described(items[i := e]) && e.name == items[i].name
    requires sumOf(e.data) != e.sum
    ensures Read(sumOf, Assembled(p)) == Err(CrcMismatch)
  {
    ReadParts(sumOf, p, items[i := e]);
    assert items[i := e][i] == e;
  }

  /** Where byte `at` of the data of entry `i` lies in the archive. */
  ghost function DataPlace(items: seq<Item>, i: nat, at: nat): nat
    requires Representable(items) && i < |items|
  {
    Start(PartsFor(items).locals, i) + (30 + |items[i].name| + at)
  }

  lemma ChangedDataRejected(sumOf: SumOf, items: seq<Item>, i: nat, at: nat, n: nat, t: Bytes)
    requires Representable(items) && DistinctNames(items) && i < |items| && at + n <= |items[i].data|
    requires t in Altered(Assembled(PartsFor(items)), DataPlace(items, i, at), n) && t != Assembled(PartsFor(items))
    requires Notices(sumOf, items[i].data, at, n) && sumOf(items[i].data) == items[i].sum
    ensures Read(sumOf, t) == Err(CrcMismatch)
  {
    PartsDescribe(items);
    ChangedPartsRejected(sumOf, PartsFor(items), items, i, t, at, n);
  }

  lemma BurstNoticed(d: Bytes, at: nat, n: nat)
    requires n <= 4 && at + n <= |d|
    ensures Notices(Checksum, d, at, n)
  {
    forall d' | d' in Altered(d, at, n) && d' != d ensures Checksum(d') != Checksum(d) {
      assert d == d[..at] + d[at..at + n] + d[at + n..] && d' == d[..at] + d'[at..at + n] + d[at + n..];
      BurstChangesChecksum(d[..at], d[at..at + n], d'[at..at + n], d[at + n..]);
    }
  }

  /**
   * Whoever changes an archive within four consecutive bytes of stored entry data,
   * and nowhere else, makes it unreadable.
   */
  lemma BurstRejected(entries: seq<Input>, i: nat, at: nat, n: nat, t: Bytes)
    requires Writable(Checksum, entries) && i < |entries| && at + n <= |entries[i].data| && n <= 4
    requires t in Altered(Archive(Checksum, entries), DataPlace(ItemsOf(Checksum, entries), i, at), n)
    requires t != Archive(Checksum, entries)
    ensures Read(Checksum, t) == Err(CrcMismatch)
  {
    BurstNoticed(entries[i].data, at, n);
    ChangedDataRejected(Checksum, ItemsOf(Checksum, entries), i, at, n, t);
  }
}
