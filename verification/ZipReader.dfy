/** readStoreZip: every check of the reader, and what it makes of a well-formed archive. */
module ZipReader {
  import opened Domain
  import opened Registers
  import opened ZipFormat
  import opened ZipLayout

  /** The checksum that entries are checked against; the reader does not depend on which. */
  type SumOf = Bytes -> Bytes

  datatype ReadError =
    | EndNotFound
    | DirectoryMalformed
    | OutOfBounds
    | CentralSignatureInvalid
    | NotStoreOnly
    | DuplicateName
    | LocalSignatureInvalid
    | HeadersDisagree
    | CrcMismatch
    | DirectoryLengthMismatch

  /** What a directory record says. */
  datatype Record = Record(name: Bytes, sum: Bytes, size: nat, localOffset: nat, next: nat)

  function ReadCentral(z: Bytes, cursor: nat): (r: Result<Record, ReadError>)
    ensures r.Ok? ==> cursor + 46 <= r.value.next <= |z|
  {
    if cursor + 46 > |z| then Err(OutOfBounds)
    else if Num32(z, cursor) != CENTRAL_SIGNATURE then Err(CentralSignatureInvalid)
    else
      var nameLength := Num16(z, cursor + 28);
      var next := cursor + 46 + nameLength + Num16(z, cursor + 30) + Num16(z, cursor + 32);
      if next > |z| then Err(OutOfBounds)
      else if Num16(z, cursor + 10) != 0 || Num32(z, cursor + 20) != Num32(z, cursor + 24) || Num16(z, cursor + 8) != UTF8_FLAG
      then Err(NotStoreOnly)
      else
        Ok(Record(z[cursor + 46..cursor + 46 + nameLength], Sum32(z, cursor + 16), Num32(z, cursor + 24),
                  Num32(z, cursor + 42), next))
  }

  /** The data of a directory record, once its local header agrees and its CRC matches. */
  function ReadLocal(sumOf: SumOf, z: Bytes, c: Record): (r: Result<Bytes, ReadError>)
    ensures r.Ok? ==> sumOf(r.value) == c.sum && |r.value| == c.size
  {
    var o := c.localOffset;
    if o + 30 > |z| then Err(OutOfBounds)
    else if Num32(z, o) != LOCAL_SIGNATURE then Err(LocalSignatureInvalid)
    else
      var nameLength := Num16(z, o + 26);
      var dataOffset := o + 30 + nameLength + Num16(z, o + 28);
      if o + 30 + nameLength > |z| || dataOffset + c.size > |z| then Err(OutOfBounds)
      else if z[o + 30..o + 30 + nameLength] != c.name || Num16(z, o + 6) != UTF8_FLAG || Num16(z, o + 8) != 0 ||
              Sum32(z, o + 14) != c.sum || Num32(z, o + 18) != c.size || Num32(z, o + 22) != c.size
      then Err(HeadersDisagree)
      else if sumOf(z[dataOffset..dataOffset + c.size]) != c.sum then Err(CrcMismatch)
      else Ok(z[dataOffset..dataOffset + c.size])
  }

  /** How directory records and local records of one archive read. */
  datatype Readers = Readers(central: nat -> Result<Record, ReadError>, local: Record -> Result<Bytes, ReadError>)

  function ReadersOf(sumOf: SumOf, z: Bytes): Readers {
    Readers((cursor: nat) => ReadCentral(z, cursor), c => ReadLocal(sumOf, z, c))
  }

  /** One turn of the loop: the entry of a directory record, and where the next record begins. */
  function EntryAt(rd: Readers, cursor: nat, names: set<Bytes>): Result<(Item, nat), ReadError> {
    match rd.central(cursor)
    case Err(error) => Err(error)
    case Ok(c) =>
      if c.name in names then Err(DuplicateName)
      else match rd.local(c)
        case Err(error) => Err(error)
        case Ok(data) => Ok((Item(c.name, data, c.sum), c.next))
  }

  /** The remaining `count` entries from `cursor` on; the directory has to end where the end record begins. */
  function ReadFrom(rd: Readers, cursor: nat, count: nat, names: set<Bytes>, endOffset: nat): Result<seq<Item>, ReadError>
    decreases count
  {
    if count == 0 then if cursor != endOffset then Err(DirectoryLengthMismatch) else Ok([])
    else
      match EntryAt(rd, cursor, names)
      case Err(error) => Err(error)
      case Ok(e) => Prepend([e.0], ReadFrom(rd, e.1, count - 1, names + {e.0.name}, endOffset))
  }

  function Prepend(entries: seq<Item>, rest: Result<seq<Item>, ReadError>): Result<seq<Item>, ReadError> {
    if rest.Err? then rest else Ok(entries + rest.value)
  }

  lemma PrependNothing(rest: Result<seq<Item>, ReadError>)
    ensures Prepend([], rest) == rest
  {
    if rest.Ok? { assert [] + rest.value == rest.value; }
  }

  lemma PrependTwice(x: seq<Item>, y: seq<Item>, rest: Result<seq<Item>, ReadError>)
    ensures Prepend(x, Prepend(y, rest)) == Prepend(x + y, rest)
  {
    if rest.Ok? { assert x + (y + rest.value) == x + y + rest.value; }
  }

  /** The end record: the number of entries and where the directory begins. */
  function ReadEnd(z: Bytes): (r: Result<(nat, nat), ReadError>)
    ensures r.Ok? ==> |z| >= 22
  {
    if |z| < 22 || Num32(z, |z| - 22) != END_SIGNATURE then Err(EndNotFound)
    else
      var end := |z| - 22;
      if Num16(z, end + 4) != 0 || Num16(z, end + 6) != 0 || Num16(z, end + 8) != Num16(z, end + 10) ||
         Num16(z, end + 20) != 0 || Num32(z, end + 16) + Num32(z, end + 12) != end
      then Err(DirectoryMalformed)
      else Ok((Num16(z, end + 10), Num32(z, end + 16)))
  }

  /** One disk, no comment, both counts agree, and the directory ends where the end record begins. */
  lemma EndAccepted(z: Bytes)
    ensures ReadEnd(z).Ok? <==>
      && |z| >= 22 && Num32(z, |z| - 22) == 0x0605_4b50
      && Num16(z, |z| - 22 + 4) == Num16(z, |z| - 22 + 6) == Num16(z, |z| - 22 + 20) == 0
      && Num16(z, |z| - 22 + 8) == Num16(z, |z| - 22 + 10)
      && Num32(z, |z| - 22 + 16) + Num32(z, |z| - 22 + 12) == |z| - 22
    ensures ReadEnd(z).Ok? ==> ReadEnd(z).value == (Num16(z, |z| - 22 + 10), Num32(z, |z| - 22 + 16))
  {
  }

  /** A directory record that is accepted describes an uncompressed entry with a UTF-8 name. */
  lemma CentralAccepted(z: Bytes, cursor: nat, c: Record)
    requires ReadCentral(z, cursor) == Ok(c)
    ensures cursor + 46 + |c.name| <= c.next <= |z| && Num32(z, cursor) == 0x0201_4b50
    ensures Num16(z, cursor + 8) == 0x0800 && Num16(z, cursor + 10) == 0
    ensures Num32(z, cursor + 20) == Num32(z, cursor + 24) == c.size && Sum32(z, cursor + 16) == c.sum
    ensures |c.name| == Num16(z, cursor + 28) && c.name == z[cursor + 46..cursor + 46 + |c.name|]
    ensures c.localOffset == Num32(z, cursor + 42)
  {
  }

  /** Its local record says the same. */
  lemma LocalAccepted(sumOf: SumOf, z: Bytes, c: Record, data: Bytes)
    requires ReadLocal(sumOf, z, c) == Ok(data)
    ensures var o := c.localOffset;
      && o + 30 + |c.name| + |data| <= |z| && Num32(z, o) == 0x0403_4b50 && Num16(z, o + 6) == 0x0800 && Num16(z, o + 8) == 0
      && Sum32(z, o + 14) == c.sum && Num32(z, o + 18) == Num32(z, o + 22) == c.size == |data|
      && z[o + 30..o + 30 + |c.name|] == c.name && sumOf(data) == c.sum
  {
  }

  function Read(sumOf: SumOf, z: Bytes): Result<seq<Item>, ReadError> {
    ReadDirectory(ReadEnd(z), ReadersOf(sumOf, z), |z| - 22)
  }

  function ReadDirectory(end: Result<(nat, nat), ReadError>, rd: Readers, endOffset: int): Result<seq<Item>, ReadError>
    requires end.Ok? ==> endOffset >= 0
  {
    match end
    case Err(error) => Err(error)
    case Ok(e) => ReadFrom(rd, e.1, e.0, {}, endOffset)
  }

  /** The loop over the directory. */
  method ReadEntries(rd: Readers, start: nat, count: nat, endOffset: nat) returns (r: Result<seq<Item>, ReadError>)
    ensures r == ReadFrom(rd, start, count, {}, endOffset)
  {
    var cursor := start;
    var entries: seq<Item>, names: set<Bytes> := [], {};
    var index := 0;
    PrependNothing(ReadFrom(rd, start, count, {}, endOffset));
    while index < count
      invariant index <= count
      invariant ReadFrom(rd, start, count, {}, endOffset) ==
        Prepend(entries, ReadFrom(rd, cursor, count - index, names, endOffset))
    {
      var next := EntryAt(rd, cursor, names);
      if next.Err? { return Err(next.error); }
      PrependTwice(entries, [next.value.0],
                   ReadFrom(rd, next.value.1, count - index - 1, names + {next.value.0.name}, endOffset));
      entries, names := entries + [next.value.0], names + {next.value.0.name};
      cursor, index := next.value.1, index + 1;
    }
    if cursor != endOffset { return Err(DirectoryLengthMismatch); }
    assert entries + [] == entries;
    return Ok(entries);
  }

  method ReadStoreZip(sumOf: SumOf, z: Bytes) returns (r: Result<seq<Item>, ReadError>)
    ensures r == Read(sumOf, z)
  {
    var end := ReadEnd(z);
    r := ReadEntriesAfter(end, ReadersOf(sumOf, z), |z| - 22);
  }

  method ReadEntriesAfter(end: Result<(nat, nat), ReadError>, rd: Readers, endOffset: int)
    returns (r: Result<seq<Item>, ReadError>)
    requires end.Ok? ==> endOffset >= 0
    ensures r == ReadDirectory(end, rd, endOffset)
  {
    if end.Err? { return Err(end.error); }
    r := ReadEntries(rd, end.value.1, end.value.0, endOffset);
  }

  // ---- What acceptance means ----------------------------------------------

  ghost predicate DistinctNames(items: seq<Item>) {
    forall i, j :: 0 <= i < j < |items| ==> items[i].name != items[j].name
  }

  /** All recorded checksums from entry `i` on are right. */
  predicate SumsRight(sumOf: SumOf, items: seq<Item>, i: nat) {
    forall j :: i <= j < |items| ==> sumOf(items[j].data) == items[j].sum
  }

  /** Local records only read as data that match their checksum. */
  ghost predicate Checks(sumOf: SumOf, rd: Readers) {
    forall c :: rd.local(c).Ok? ==> sumOf(rd.local(c).value) == c.sum
  }

  lemma {:induction false} ReadFromIntact(sumOf: SumOf, rd: Readers, cursor: nat, count: nat, names: set<Bytes>, endOffset: nat)
    requires Checks(sumOf, rd) && ReadFrom(rd, cursor, count, names, endOffset).Ok?
    ensures var items := ReadFrom(rd, cursor, count, names, endOffset).value;
      |items| == count && DistinctNames(items) && SumsRight(sumOf, items, 0) &&
      forall i :: 0 <= i < |items| ==> items[i].name !in names
    decreases count
  {
    if count > 0 {
      var e := EntryAt(rd, cursor, names).value;
      ReadFromIntact(sumOf, rd, e.1, count - 1, names + {e.0.name}, endOffset);
    }
  }

  lemma DirectoryIntact(sumOf: SumOf, end: Result<(nat, nat), ReadError>, rd: Readers, endOffset: int)
    requires end.Ok? ==> endOffset >= 0
    requires Checks(sumOf, rd) && ReadDirectory(end, rd, endOffset).Ok?
    ensures DistinctNames(ReadDirectory(end, rd, endOffset).value)
    ensures SumsRight(sumOf, ReadDirectory(end, rd, endOffset).value, 0)
  {
    ReadFromIntact(sumOf, rd, end.value.1, end.value.0, {}, endOffset);
  }

  lemma EntriesAreChecked(sumOf: SumOf, z: Bytes)
    ensures Checks(sumOf, ReadersOf(sumOf, z))
  {
    forall c | ReadersOf(sumOf, z).local(c).Ok? ensures sumOf(ReadersOf(sumOf, z).local(c).value) == c.sum {
      assert ReadersOf(sumOf, z).local(c) == ReadLocal(sumOf, z, c);
    }
  }

  /** Whatever archive is accepted, its entries have distinct names and data that match their checksums. */
  lemma AcceptedIsIntact(sumOf: SumOf, z: Bytes)
    requires Read(sumOf, z).Ok?
    ensures DistinctNames(Read(sumOf, z).value) && SumsRight(sumOf, Read(sumOf, z).value, 0)
  {
    EntriesAreChecked(sumOf, z);
    DirectoryIntact(sumOf, ReadEnd(z), ReadersOf(sumOf, z), |z| - 22);
  }

  // ---- Reading a well-formed archive --------------------------------------

  /** The parts that read as the records of these entries. */
  ghost function Described(items: seq<Item>): iset<Parts> {
    iset p: Parts |
    && |p.locals| == |p.centrals| == |items|
    && (forall i :: 0 <= i < |items| ==> p.locals[i] in LocalRecords(items[i]))
    && (forall i :: 0 <= i < |items| ==> p.centrals[i] in CentralRecords(items[i], Start(p.locals, i)))
    && p.end in EndRecords(|items|, |Concat(p.centrals)|, |Concat(p.locals)|)
  }

  lemma CentralRead(z: Bytes, cursor: nat, b: Bytes, e: Item, offset: nat)
    requires LiesAt(z, cursor, b) && b in CentralRecords(e, offset)
    ensures ReadCentral(z, cursor) == Ok(RecordOf(e, offset, cursor + |b|))
  {
    SameFields(z, cursor, b);
    assert Num32(z, cursor + 0) == Num32(b, 0);
    assert LiesAt(b, 46, e.name);
    LiesWithin(z, cursor, b, 46, e.name);
  }

  /** The header fields of a local record, read where it lies. */
  lemma LocalFields(z: Bytes, b: Bytes, e: Item, o: nat)
    requires LiesAt(z, o, b) && b in LocalRecords(e)
    ensures o + 30 <= |z| && Num32(z, o) == LOCAL_SIGNATURE && Num16(z, o + 6) == UTF8_FLAG && Num16(z, o + 8) == 0
    ensures Sum32(z, o + 14) == e.sum && Num32(z, o + 18) == |e.data| && Num32(z, o + 22) == |e.data|
    ensures Num16(z, o + 26) == |e.name| && Num16(z, o + 28) == 0
  {
    SameFields(z, o, b);
    assert Num32(z, o + 0) == Num32(b, 0);
  }

  /** Its name and its data. */
  lemma LocalContents(z: Bytes, b: Bytes, e: Item, o: nat)
    requires LiesAt(z, o, b) && b in LocalRecords(e)
    ensures LiesAt(z, o + 30, e.name) && LiesAt(z, o + 30 + |e.name|, e.data)
  {
    assert LiesAt(b, 30, e.name) && LiesAt(b, 30 + |e.name|, e.data);
    LiesWithin(z, o, b, 30, e.name);
    LiesWithin(z, o, b, 30 + |e.name|, e.data);
  }

  lemma LocalRead(sumOf: SumOf, z: Bytes, b: Bytes, e: Item, offset: nat, next: nat)
    requires LiesAt(z, offset, b) && b in LocalRecords(e)
    ensures ReadLocal(sumOf, z, RecordOf(e, offset, next)) == Checked(sumOf, e)
  {
    LocalFields(z, b, e, offset);
    LocalContents(z, b, e, offset);
    LocalReadFrom(sumOf, z, e, offset, next);
  }

  lemma LocalReadFrom(sumOf: SumOf, z: Bytes, e: Item, o: nat, next: nat)
    requires o + 30 <= |z| && Num32(z, o) == LOCAL_SIGNATURE && Num16(z, o + 6) == UTF8_FLAG && Num16(z, o + 8) == 0
    requires Sum32(z, o + 14) == e.sum && Num32(z, o + 18) == |e.data| && Num32(z, o + 22) == |e.data|
    requires Num16(z, o + 26) == |e.name| && Num16(z, o + 28) == 0
    requires LiesAt(z, o + 30, e.name) && LiesAt(z, o + 30 + |e.name|, e.data)
    ensures ReadLocal(sumOf, z, RecordOf(e, o, next)) == Checked(sumOf, e)
  {
  }

  function RecordOf(e: Item, offset: nat, next: nat): Record {
    Record(e.name, e.sum, |e.data|, offset, next)
  }

  /** What checking the data of an entry comes to. */
  function Checked(sumOf: SumOf, e: Item): Result<Bytes, ReadError> {
    if sumOf(e.data) == e.sum then Ok(e.data) else Err(CrcMismatch)
  }

  function NamesOf(items: seq<Item>): set<Bytes> {
    set i | 0 <= i < |items| :: items[i].name
  }

  /** Places in an archive: of the directory records, with the end of the last one, and of the local records. */
  datatype Places = Places(central: nat -> nat, local: nat -> nat)

  /** The directory record of entry `i` reads as it should at its place. */
  ghost predicate CentralReads(rd: Readers, items: seq<Item>, at: Places, i: nat)
    requires i < |items|
  {
    rd.central(at.central(i)) == Ok(RecordOf(items[i], at.local(i), at.central(i + 1)))
  }

  /** So does the local record it points to. */
  ghost predicate LocalReads(sumOf: SumOf, rd: Readers, items: seq<Item>, at: Places, i: nat)
    requires i < |items|
  {
    rd.local(RecordOf(items[i], at.local(i), at.central(i + 1))) == Checked(sumOf, items[i])
  }

  ghost predicate AllRead(sumOf: SumOf, rd: Readers, items: seq<Item>, at: Places) {
    && (forall j :: 0 <= j < |items| ==> CentralReads(rd, items, at, j))
    && (forall j :: 0 <= j < |items| ==> LocalReads(sumOf, rd, items, at, j))
  }

  lemma EntryReads(sumOf: SumOf, rd: Readers, items: seq<Item>, at: Places, i: nat)
    requires DistinctNames(items) && i < |items| && CentralReads(rd, items, at, i) && LocalReads(sumOf, rd, items, at, i)
    ensures EntryAt(rd, at.central(i), NamesOf(items[..i])) ==
      if sumOf(items[i].data) == items[i].sum then Ok((items[i], at.central(i + 1))) else Err(CrcMismatch)
  {
    assert items[i].name !in NamesOf(items[..i]);
  }

  lemma ReadFromNext(rd: Readers, cursor: nat, count: nat, names: set<Bytes>, endOffset: nat, e: Item, next: nat)
    requires count > 0 && EntryAt(rd, cursor, names) == Ok((e, next))
    ensures ReadFrom(rd, cursor, count, names, endOffset) ==
            Prepend([e], ReadFrom(rd, next, count - 1, names + {e.name}, endOffset))
  {
  }

  lemma ReadFromStops(rd: Readers, cursor: nat, count: nat, names: set<Bytes>, endOffset: nat, error: ReadError)
    requires count > 0 && EntryAt(rd, cursor, names) == Err(error)
    ensures ReadFrom(rd, cursor, count, names, endOffset) == Err(error)
  {
  }

  lemma SumsFrom(sumOf: SumOf, items: seq<Item>, i: nat)
    requires i < |items|
    ensures SumsRight(sumOf, items, i) <==> sumOf(items[i].data) == items[i].sum && SumsRight(sumOf, items, i + 1)
  {
  }

  lemma NamesGrow(items: seq<Item>, i: nat)
    requires i < |items|
    ensures NamesOf(items[..i + 1]) == NamesOf(items[..i]) + {items[i].name}
  {
    assert items[..i + 1] == items[..i] + [items[i]];
    assert items[..i + 1][i] == items[i];
  }

  lemma {:induction false} ReadFromItems(sumOf: SumOf, rd: Readers, items: seq<Item>, at: Places, i: nat)
    requires i <= |items| && DistinctNames(items) && AllRead(sumOf, rd, items, at)
    ensures ReadFrom(rd, at.central(i), |items| - i, NamesOf(items[..i]), at.central(|items|)) ==
      if SumsRight(sumOf, items, i) then Ok(items[i..]) else Err(CrcMismatch)
    decreases |items| - i
  {
    if i < |items| {
      var names, end := NamesOf(items[..i]), at.central(|items|);
      EntryReads(sumOf, rd, items, at, i);
      SumsFrom(sumOf, items, i);
      if sumOf(items[i].data) == items[i].sum {
        ReadFromItems(sumOf, rd, items, at, i + 1);
        ReadFromNext(rd, at.central(i), |items| - i, names, end, items[i], at.central(i + 1));
        NamesGrow(items, i);
        assert items[i..] == [items[i]] + items[i + 1..];
      } else {
        ReadFromStops(rd, at.central(i), |items| - i, names, end, CrcMismatch);
      }
    } else {
      assert items[i..] == [];
    }
  }

  function PlacesOf(p: Parts): Places {
    Places((i: nat) => if i <= |p.centrals| then CentralStart(p, i) else 0,
           (i: nat) => if i <= |p.locals| then Start(p.locals, i) else 0)
  }

  lemma CentralReadAt(sumOf: SumOf, z: Bytes, b: Bytes, items: seq<Item>, at: Places, i: nat)
    requires i < |items| && LiesAt(z, at.central(i), b) && b in CentralRecords(items[i], at.local(i))
    requires at.central(i + 1) == at.central(i) + |b|
    ensures CentralReads(ReadersOf(sumOf, z), items, at, i)
  {
    CentralRead(z, at.central(i), b, items[i], at.local(i));
  }

  lemma LocalReadAt(sumOf: SumOf, z: Bytes, b: Bytes, items: seq<Item>, at: Places, i: nat)
    requires i < |items| && LiesAt(z, at.local(i), b) && b in LocalRecords(items[i])
    ensures LocalReads(sumOf, ReadersOf(sumOf, z), items, at, i)
  {
    LocalRead(sumOf, z, b, items[i], at.local(i), at.central(i + 1));
  }

  lemma PartCentralRead(sumOf: SumOf, p: Parts, items: seq<Item>, i: nat)
    requires i < |p.locals| && i < |p.centrals| && i < |items|
    requires p.centrals[i] in CentralRecords(items[i], Start(p.locals, i))
    ensures CentralReads(ReadersOf(sumOf, Assembled(p)), items, PlacesOf(p), i)
  {
    PartsLieAt(p, i);
    StartNext(p.centrals, i);
    CentralReadAt(sumOf, Assembled(p), p.centrals[i], items, PlacesOf(p), i);
  }

  lemma PartLocalRead(sumOf: SumOf, p: Parts, items: seq<Item>, i: nat)
    requires i < |p.locals| && i < |p.centrals| && i < |items| && p.locals[i] in LocalRecords(items[i])
    ensures LocalReads(sumOf, ReadersOf(sumOf, Assembled(p)), items, PlacesOf(p), i)
  {
    PartsLieAt(p, i);
    LocalReadAt(sumOf, Assembled(p), p.locals[i], items, PlacesOf(p), i);
  }

  lemma PartsRead(sumOf: SumOf, p: Parts, items: seq<Item>)
    requires p in Described(items)
    ensures AllRead(sumOf, ReadersOf(sumOf, Assembled(p)), items, PlacesOf(p))
  {
    forall j | 0 <= j < |items| ensures CentralReads(ReadersOf(sumOf, Assembled(p)), items, PlacesOf(p), j) {
      PartCentralRead(sumOf, p, items, j);
    }
    forall j | 0 <= j < |items| ensures LocalReads(sumOf, ReadersOf(sumOf, Assembled(p)), items, PlacesOf(p), j) {
      PartLocalRead(sumOf, p, items, j);
    }
  }

  lemma EndReadIn(z: Bytes, b: Bytes, count: nat, size: nat, offset: nat)
    requires |z| >= 22 && LiesAt(z, |z| - 22, b) && b in EndRecords(count, size, offset) && offset + size == |z| - 22
    ensures ReadEnd(z) == Ok((count, offset))
  {
    SameFields(z, |z| - 22, b);
    assert Num32(z, (|z| - 22) + 0) == Num32(b, 0);
  }

  lemma EndIs22(b: Bytes, count: nat, size: nat, offset: nat)
    requires b in EndRecords(count, size, offset)
    ensures |b| == 22
  {
  }

  lemma EndRead(p: Parts, count: nat)
    requires p.end in EndRecords(count, |Concat(p.centrals)|, |Concat(p.locals)|)
    ensures |p.end| == 22 && ReadEnd(Assembled(p)) == Ok((count, CentralStart(p, 0)))
  {
    EndIs22(p.end, count, |Concat(p.centrals)|, |Concat(p.locals)|);
    EndLiesAt(p);
    assert Start(p.centrals, 0) == 0;
    EndReadIn(Assembled(p), p.end, count, |Concat(p.centrals)|, |Concat(p.locals)|);
  }

  lemma DirectoryRead(sumOf: SumOf, rd: Readers, items: seq<Item>, at: Places)
    requires DistinctNames(items) && AllRead(sumOf, rd, items, at)
    ensures ReadDirectory(Ok((|items|, at.central(0))), rd, at.central(|items|)) ==
      if SumsRight(sumOf, items, 0) then Ok(items) else Err(CrcMismatch)
  {
    ReadFromItems(sumOf, rd, items, at, 0);
    assert items[..0] == [] && NamesOf([]) == {} && items[0..] == items;
  }

  lemma ReadIs(sumOf: SumOf, z: Bytes, count: nat, start: nat)
    requires |z| >= 22 && ReadEnd(z) == Ok((count, start))
    ensures Read(sumOf, z) == ReadDirectory(Ok((count, start)), ReadersOf(sumOf, z), |z| - 22)
  {
  }

  lemma PlacesAre(p: Parts, count: nat)
    requires |p.centrals| == count && |p.end| == 22
    ensures PlacesOf(p).central(0) == CentralStart(p, 0) && PlacesOf(p).central(count) == |Assembled(p)| - 22
  {
    EndLiesAt(p);
  }

  /** A well-formed archive is read back exactly, unless a checksum is wrong. */
  lemma ReadParts(sumOf: SumOf, p: Parts, items: seq<Item>)
    requires p in Described(items) && DistinctNames(items)
    ensures Read(sumOf, Assembled(p)) == if SumsRight(sumOf, items, 0) then Ok(items) else Err(CrcMismatch)
  {
    EndRead(p, |items|);
    PlacesAre(p, |items|);
    ReadIs(sumOf, Assembled(p), |items|, CentralStart(p, 0));
    PartsRead(sumOf, p, items);
    DirectoryRead(sumOf, ReadersOf(sumOf, Assembled(p)), items, PlacesOf(p));
  }
}
