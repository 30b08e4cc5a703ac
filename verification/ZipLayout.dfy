/** Where everything lies in a store-only archive. */
module ZipLayout {
  import opened Registers
  import opened ZipFormat

  // ---- Concatenated parts -------------------------------------------------

  function Concat(parts: seq<Bytes>): Bytes {
    if parts == [] then [] else Concat(parts[..|parts| - 1]) + parts[|parts| - 1]
  }

  /** Where part `i` begins. */
  function Start(parts: seq<Bytes>, i: nat): nat
    requires i <= |parts|
  {
    |Concat(parts[..i])|
  }

  lemma ConcatSnoc(parts: seq<Bytes>, part: Bytes)
    ensures Concat(parts + [part]) == Concat(parts) + part
  {
    assert (parts + [part])[..|parts|] == parts;
  }

  lemma {:induction false} PartLiesAt(parts: seq<Bytes>, i: nat)
    requires i < |parts|
    ensures LiesAt(Concat(parts), Start(parts, i), parts[i])
  {
    var last := |parts| - 1;
    if i < last {
      PartLiesAt(parts[..last], i);
      assert parts[..last][..i] == parts[..i];
      LiesWithin(Concat(parts), 0, Concat(parts[..last]), Start(parts, i), parts[i]);
    }
  }

  lemma StartNext(parts: seq<Bytes>, i: nat)
    requires i < |parts|
    ensures Start(parts, i + 1) == Start(parts, i) + |parts[i]|
  {
    assert parts[..i + 1] == parts[..i] + [parts[i]];
    ConcatSnoc(parts[..i], parts[i]);
  }

  lemma StartEnd(parts: seq<Bytes>)
    ensures Start(parts, |parts|) == |Concat(parts)|
  {
    assert parts[..|parts|] == parts;
  }

  /** An archive in parts: local records, directory records, end record. */
  datatype Parts = Parts(locals: seq<Bytes>, centrals: seq<Bytes>, end: Bytes)

  function Assembled(p: Parts): Bytes {
    Concat(p.locals) + Concat(p.centrals) + p.end
  }

  function CentralStart(p: Parts, i: nat): nat
    requires i <= |p.centrals|
  {
    |Concat(p.locals)| + Start(p.centrals, i)
  }

  lemma ThreeParts(l: Bytes, c: Bytes, e: Bytes)
    ensures LiesAt(l + c + e, 0, l) && LiesAt(l + c + e, |l|, c) && LiesAt(l + c + e, |l| + |c|, e)
  {
    LiesBetween([], l, c + e);
    assert l + c + e == [] + l + (c + e);
    LiesBetween(l, c, e);
    LiesBetween(l + c, e, []);
    assert l + c + e == (l + c) + e + [];
  }

  /** The two records of entry `i` and the end record in the whole archive. */
  lemma PartsLieAt(p: Parts, i: nat)
    requires i < |p.locals| && i < |p.centrals|
    ensures LiesAt(Assembled(p), Start(p.locals, i), p.locals[i])
    ensures LiesAt(Assembled(p), CentralStart(p, i), p.centrals[i])
  {
    ThreeParts(Concat(p.locals), Concat(p.centrals), p.end);
    PartLiesAt(p.locals, i);
    PartLiesAt(p.centrals, i);
    LiesWithin(Assembled(p), 0, Concat(p.locals), Start(p.locals, i), p.locals[i]);
    LiesWithin(Assembled(p), |Concat(p.locals)|, Concat(p.centrals), Start(p.centrals, i), p.centrals[i]);
  }

  lemma EndLiesAt(p: Parts)
    ensures LiesAt(Assembled(p), CentralStart(p, |p.centrals|), p.end)
    ensures |Assembled(p)| == CentralStart(p, |p.centrals|) + |p.end|
    ensures CentralStart(p, 0) + |Concat(p.centrals)| == CentralStart(p, |p.centrals|)
  {
    ThreeParts(Concat(p.locals), Concat(p.centrals), p.end);
    StartEnd(p.centrals);
  }

  // ---- Records ------------------------------------------------------------

  /** One stored entry and the checksum recorded for it. */
  datatype Item = Item(name: Bytes, data: Bytes, sum: Bytes)

  predicate FieldsFit(e: Item) {
    |e.sum| == 4 && 0 < |e.name| <= MAX16 && |e.data| <= MAX32
  }

  function Local(e: Item): (b: Bytes)
    requires FieldsFit(e)
  {
    LocalHeader(e.sum, |e.data|, |e.name|) + e.name + e.data
  }

  function Central(e: Item, offset: nat): (b: Bytes)
    requires FieldsFit(e) && offset <= MAX32
  {
    CentralHeader(e.sum, |e.data|, |e.name|, offset) + e.name
  }

  /** The byte sequences that read as the local record of `e`. */
  ghost function LocalRecords(e: Item): iset<Bytes> {
    iset b: Bytes |
      && |b| == 30 + |e.name| + |e.data|
      && Num32(b, 0) == LOCAL_SIGNATURE && Num16(b, 6) == UTF8_FLAG && Num16(b, 8) == 0
      && Sum32(b, 14) == e.sum && Num32(b, 18) == |e.data| && Num32(b, 22) == |e.data|
      && Num16(b, 26) == |e.name| && Num16(b, 28) == 0
      && b[30..30 + |e.name|] == e.name && b[30 + |e.name|..] == e.data
  }

  /** The byte sequences that read as the directory record of `e` whose local record begins at `offset`. */
  ghost function CentralRecords(e: Item, offset: nat): iset<Bytes> {
    iset b: Bytes |
      && |b| == 46 + |e.name|
      && Num32(b, 0) == CENTRAL_SIGNATURE && Num16(b, 8) == UTF8_FLAG && Num16(b, 10) == 0
      && Sum32(b, 16) == e.sum && Num32(b, 20) == |e.data| && Num32(b, 24) == |e.data|
      && Num16(b, 28) == |e.name| && Num16(b, 30) == 0 && Num16(b, 32) == 0 && Num32(b, 42) == offset
      && b[46..] == e.name
  }

  ghost function EndRecords(count: nat, centralSize: nat, centralOffset: nat): iset<Bytes> {
    iset b: Bytes |
      && |b| == 22
      && Num32(b, 0) == END_SIGNATURE && Num16(b, 4) == 0 && Num16(b, 6) == 0
      && Num16(b, 8) == count && Num16(b, 10) == count
      && Num32(b, 12) == centralSize && Num32(b, 16) == centralOffset && Num16(b, 20) == 0
  }

  lemma SameFields(z: Bytes, at: nat, part: Bytes)
    requires LiesAt(z, at, part)
    ensures forall i {:trigger Num16(z, at + i)} {:trigger Num16(part, i)} :: 0 <= i && i + 2 <= |part| ==> Num16(z, at + i) == Num16(part, i)
    ensures forall i {:trigger Num32(z, at + i)} {:trigger Num32(part, i)} :: 0 <= i && i + 4 <= |part| ==> Num32(z, at + i) == Num32(part, i)
    ensures forall i {:trigger Sum32(z, at + i)} {:trigger Sum32(part, i)} :: 0 <= i && i + 4 <= |part| ==> Sum32(z, at + i) == Sum32(part, i)
  {
    forall i | 0 <= i < |part| ensures z[at + i] == part[i] {
      assert z[at..at + |part|][i] == part[i];
    }
    forall i | 0 <= i && i + 4 <= |part| ensures Sum32(z, at + i) == Sum32(part, i) {
      assert z[at + i..at + i + 4] == part[i..i + 4];
    }
  }
}
