/** createStoreZip: headers filled at their offsets, parts concatenated in entry order. */
module ZipWriter {
  import opened Domain
  import opened Registers
  import opened ZipFormat
  import opened ZipLayout
  import opened ZipReader

  // ---- Header buffers -----------------------------------------------------

  /** `prefix`, then zeros up to `at`. */
  function Padded(prefix: Bytes, at: nat): (b: Bytes)
    requires |prefix| <= at
    ensures |b| == at
  {
    if |prefix| == at then prefix else prefix + Zeros(at - |prefix|)
  }

  /** The buffer holds `prefix` and nothing behind it. */
  ghost predicate Filled(buffer: array<byte>, prefix: Bytes)
    reads buffer
  {
    |prefix| <= buffer.Length && buffer[..] == Padded(prefix, buffer.Length)
  }

  /** Writes the bytes of one field at its offset. */
  method Put(buffer: array<byte>, ghost prefix: Bytes, at: nat, field: Bytes)
    requires Filled(buffer, prefix) && |prefix| <= at && at + |field| <= buffer.Length
    modifies buffer
    ensures Filled(buffer, Padded(prefix, at) + field)
  {
    ghost var before := buffer[..];
    for i := 0 to |field|
      invariant forall k :: 0 <= k < i ==> buffer[at + k] == field[k]
      invariant forall k :: 0 <= k < buffer.Length && !(at <= k < at + i) ==> buffer[k] == before[k]
    {
      buffer[at + i] := field[i];
    }
    assert buffer[..] == Padded(Padded(prefix, at) + field, buffer.Length);
  }

  /** The fields both headers share, from the flags on. */
  method PutCommon(buffer: array<byte>, ghost prefix: Bytes, at: nat, sum: Bytes, size: nat, nameLength: nat)
    requires |sum| == 4 && size <= MAX32 && nameLength <= MAX16
    requires Filled(buffer, prefix) && |prefix| == at && at + 22 <= buffer.Length
    modifies buffer
    ensures Filled(buffer, prefix + Common(sum, size, nameLength))
  {
    ghost var c := PutMethod(buffer, prefix, at);
    Put(buffer, prefix + c, at + 8, sum);
    Joined(prefix, c + Zeros(4), sum);
    Joined(prefix, c, Zeros(4));
    c := c + Zeros(4) + sum;
    Put(buffer, prefix + c, at + 12, U32(size));
    Joined(prefix, c, U32(size));
    c := c + U32(size);
    Put(buffer, prefix + c, at + 16, U32(size));
    Joined(prefix, c, U32(size));
    c := c + U32(size);
    Put(buffer, prefix + c, at + 20, U16(nameLength));
    Joined(prefix, c, U16(nameLength));
  }

  lemma Joined(a: Bytes, b: Bytes, c: Bytes)
    ensures a + b + c == a + (b + c)
  {
  }

  method PutMethod(buffer: array<byte>, ghost prefix: Bytes, at: nat) returns (ghost c: Bytes)
    requires Filled(buffer, prefix) && |prefix| == at && at + 4 <= buffer.Length
    modifies buffer
    ensures c == U16(UTF8_FLAG) + U16(0) && Filled(buffer, prefix + c)
  {
    Put(buffer, prefix, at, U16(UTF8_FLAG));
    Put(buffer, prefix + U16(UTF8_FLAG), at + 2, U16(0));
    Joined(prefix, U16(UTF8_FLAG), U16(0));
    c := U16(UTF8_FLAG) + U16(0);
  }

  method LocalHeaderBuffer(sum: Bytes, size: nat, nameLength: nat) returns (local: array<byte>)
    requires |sum| == 4 && size <= MAX32 && nameLength <= MAX16
    ensures fresh(local) && local[..] == LocalHeader(sum, size, nameLength)
  {
    local := new byte[30](_ => 0);
    Put(local, [], 0, U32(LOCAL_SIGNATURE));
    Put(local, U32(LOCAL_SIGNATURE), 4, U16(20));
    PutCommon(local, U32(LOCAL_SIGNATURE) + U16(20), 6, sum, size, nameLength);
  }

  method CentralHeaderBuffer(sum: Bytes, size: nat, nameLength: nat, offset: nat) returns (central: array<byte>)
    requires |sum| == 4 && size <= MAX32 && nameLength <= MAX16 && offset <= MAX32
    ensures fresh(central) && central[..] == CentralHeader(sum, size, nameLength, offset)
  {
    central := new byte[46](_ => 0);
    Put(central, [], 0, U32(CENTRAL_SIGNATURE));
    ghost var p := U32(CENTRAL_SIGNATURE);
    Put(central, p, 4, U16(20));
    p := p + U16(20);
    Put(central, p, 6, U16(20));
    p := p + U16(20);
    PutCommon(central, p, 8, sum, size, nameLength);
    Put(central, p + Common(sum, size, nameLength), 42, U32(offset));
  }

  method EndBuffer(count: nat, centralSize: nat, centralOffset: nat) returns (end: array<byte>)
    requires count <= MAX16 && centralSize <= MAX32 && centralOffset <= MAX32
    ensures fresh(end) && end[..] == EndRecord(count, centralSize, centralOffset)
  {
    end := new byte[22](_ => 0);
    Put(end, [], 0, U32(END_SIGNATURE));
    ghost var p := U32(END_SIGNATURE);
    Put(end, p, 8, U16(count));
    p := p + Zeros(4) + U16(count);
    Put(end, p, 10, U16(count));
    p := p + U16(count);
    Put(end, p, 12, U32(centralSize));
    p := p + U32(centralSize);
    Put(end, p, 16, U32(centralOffset));
  }

  // ---- The archive of a list of entries -----------------------------------

  datatype Input = Input(name: Bytes, data: Bytes)

  datatype WriteError =
    | NoEntries
    | TooManyEntries
    | DuplicateEntry
    | NameInvalid
    | DataTooLarge
    | ArchiveTooLarge
    | DirectoryTooLarge

  ghost predicate FourByteSums(sumOf: SumOf) {
    forall data :: |sumOf(data)| == 4
  }

  function ItemOf(sumOf: SumOf, e: Input): Item {
    Item(e.name, e.data, sumOf(e.data))
  }

  function ItemsOf(sumOf: SumOf, entries: seq<Input>): (items: seq<Item>)
    ensures |items| == |entries| && forall i :: 0 <= i < |items| ==> items[i] == ItemOf(sumOf, entries[i])
  {
    seq(|entries|, i requires 0 <= i < |entries| => ItemOf(sumOf, entries[i]))
  }

  ghost predicate AllFit(items: seq<Item>) {
    forall i :: 0 <= i < |items| ==> FieldsFit(items[i])
  }

  function LocalsFor(items: seq<Item>): (parts: seq<Bytes>)
    requires AllFit(items)
    ensures |parts| == |items| && forall i :: 0 <= i < |items| ==> parts[i] == Local(items[i])
  {
    seq(|items|, i requires 0 <= i < |items| => Local(items[i]))
  }

  /** Every local record begins and ends within 32 bits. */
  ghost predicate Fits32(items: seq<Item>) {
    AllFit(items) && forall i :: 0 <= i <= |items| ==> Start(LocalsFor(items), i) <= MAX32
  }

  ghost function CentralsFor(items: seq<Item>): (parts: seq<Bytes>)
    requires Fits32(items)
    ensures |parts| == |items|
    ensures forall i :: 0 <= i < |items| ==> parts[i] == Central(items[i], Start(LocalsFor(items), i))
  {
    seq(|items|, i requires 0 <= i < |items| => Central(items[i], Start(LocalsFor(items), i)))
  }

  /** All counts, sizes and offsets fit their 16- and 32-bit fields. */
  ghost predicate Representable(items: seq<Item>) {
    Fits32(items) && |items| <= MAX16 && |Concat(CentralsFor(items))| <= MAX32
  }

  ghost function PartsFor(items: seq<Item>): Parts
    requires Representable(items)
  {
    Parts(LocalsFor(items), CentralsFor(items),
          EndRecord(|items|, |Concat(CentralsFor(items))|, Start(LocalsFor(items), |items|)))
  }

  // ---- What is written reads as its entries -------------------------------

  lemma NamedData(h: Bytes, n: Bytes, d: Bytes)
    ensures LiesAt(h + n + d, 0, h)
    ensures (h + n + d)[|h|..|h| + |n|] == n && (h + n + d)[|h| + |n|..] == d
  {
  }

  lemma LocalReadsBack(e: Item)
    requires FieldsFit(e)
    ensures Local(e) in LocalRecords(e)
  {
    var h := LocalHeader(e.sum, |e.data|, |e.name|);
    LocalHeaderFields(e.sum, |e.data|, |e.name|);
    NamedData(h, e.name, e.data);
    SameFields(Local(e), 0, h);
  }

  lemma CentralReadsBack(e: Item, offset: nat)
    requires FieldsFit(e) && offset <= MAX32
    ensures Central(e, offset) in CentralRecords(e, offset)
  {
    var h := CentralHeader(e.sum, |e.data|, |e.name|, offset);
    CentralHeaderFields(e.sum, |e.data|, |e.name|, offset);
    NamedData(h, e.name, []);
    assert h + e.name + [] == Central(e, offset);
    SameFields(Central(e, offset), 0, h);
  }

  lemma LocalsDescribe(items: seq<Item>)
    requires AllFit(items)
    ensures forall i :: 0 <= i < |items| ==> LocalsFor(items)[i] in LocalRecords(items[i])
  {
    forall i | 0 <= i < |items| ensures LocalsFor(items)[i] in LocalRecords(items[i]) { LocalReadsBack(items[i]); }
  }

  lemma CentralsDescribe(items: seq<Item>)
    requires Fits32(items)
    ensures forall i :: 0 <= i < |items| ==> CentralsFor(items)[i] in CentralRecords(items[i], Start(LocalsFor(items), i))
  {
    forall i | 0 <= i < |items| ensures CentralsFor(items)[i] in CentralRecords(items[i], Start(LocalsFor(items), i)) {
      CentralReadsBack(items[i], Start(LocalsFor(items), i));
    }
  }

  lemma EndDescribes(count: nat, centralSize: nat, centralOffset: nat)
    requires count <= MAX16 && centralSize <= MAX32 && centralOffset <= MAX32
    ensures EndRecord(count, centralSize, centralOffset) in EndRecords(count, centralSize, centralOffset)
  {
    EndRecordFields(count, centralSize, centralOffset);
  }

  lemma PartsDescribe(items: seq<Item>)
    requires Representable(items)
    ensures PartsFor(items) in Described(items)
  {
    LocalsDescribe(items);
    CentralsDescribe(items);
    StartEnd(LocalsFor(items));
    EndDescribes(|items|, |Concat(CentralsFor(items))|, Start(LocalsFor(items), |items|));
  }

  // ---- Writing ------------------------------------------------------------

  predicate NameValid(name: Bytes) {
    0 < |name| <= MAX16 && 0 !in name
  }

  predicate EntryValid(e: Input) {
    NameValid(e.name) && |e.data| <= MAX32
  }

  /** Exactly the lists that can be written. */
  ghost predicate Writable(sumOf: SumOf, entries: seq<Input>)
    requires FourByteSums(sumOf)
  {
    && 0 < |entries| <= MAX16 && (forall i :: 0 <= i < |entries| ==> EntryValid(entries[i]))
    && DistinctNames(ItemsOf(sumOf, entries)) && Representable(ItemsOf(sumOf, entries))
  }

  ghost function Archive(sumOf: SumOf, entries: seq<Input>): Bytes
    requires FourByteSums(sumOf) && Writable(sumOf, entries)
  {
    Assembled(PartsFor(ItemsOf(sumOf, entries)))
  }

  lemma OneMoreLocal(items: seq<Item>, e: Item)
    requires AllFit(items) && FieldsFit(e)
    ensures AllFit(items + [e]) && LocalsFor(items + [e]) == LocalsFor(items) + [Local(e)]
    ensures forall i :: 0 <= i <= |items| ==> Start(LocalsFor(items + [e]), i) == Start(LocalsFor(items), i)
    ensures Start(LocalsFor(items + [e]), |items| + 1) == Start(LocalsFor(items), |items|) + |Local(e)|
  {
    var longer := LocalsFor(items + [e]);
    assert longer == LocalsFor(items) + [Local(e)];
    forall i | 0 <= i <= |items| ensures longer[..i] == LocalsFor(items)[..i] { }
    StartNext(longer, |items|);
  }

  lemma OneMoreFits(items: seq<Item>, e: Item)
    requires Fits32(items) && FieldsFit(e) && Start(LocalsFor(items), |items|) + |Local(e)| <= MAX32
    ensures Fits32(items + [e])
  {
    OneMoreLocal(items, e);
    forall i | 0 <= i <= |items + [e]| ensures Start(LocalsFor(items + [e]), i) <= MAX32 {
      assert i <= |items| ==> Start(LocalsFor(items + [e]), i) == Start(LocalsFor(items), i);
    }
  }

  lemma CentralKept(items: seq<Item>, e: Item, i: nat)
    requires Fits32(items) && FieldsFit(e) && Fits32(items + [e]) && i < |items|
    ensures CentralsFor(items + [e])[i] == CentralsFor(items)[i]
  {
    OneMoreLocal(items, e);
    assert (items + [e])[i] == items[i];
    assert Start(LocalsFor(items + [e]), i) == Start(LocalsFor(items), i);
  }

  lemma OneMoreCentral(items: seq<Item>, e: Item)
    requires Fits32(items) && FieldsFit(e) && Start(LocalsFor(items), |items|) + |Local(e)| <= MAX32
    ensures Fits32(items + [e])
    ensures CentralsFor(items + [e]) == CentralsFor(items) + [Central(e, Start(LocalsFor(items), |items|))]
  {
    OneMoreFits(items, e);
    LastCentral(items, e);
    forall i | 0 <= i < |items| ensures CentralsFor(items + [e])[i] == CentralsFor(items)[i] { CentralKept(items, e, i); }
    SameParts(CentralsFor(items + [e]), CentralsFor(items), Central(e, Start(LocalsFor(items), |items|)));
  }

  lemma SameParts(longer: seq<Bytes>, parts: seq<Bytes>, last: Bytes)
    requires |longer| == |parts| + 1 && longer[|parts|] == last && forall i :: 0 <= i < |parts| ==> longer[i] == parts[i]
    ensures longer == parts + [last]
  {
  }

  lemma LastCentral(items: seq<Item>, e: Item)
    requires Fits32(items) && FieldsFit(e) && Fits32(items + [e])
    ensures CentralsFor(items + [e])[|items|] == Central(e, Start(LocalsFor(items), |items|))
  {
    OneMoreLocal(items, e);
    assert (items + [e])[|items|] == e;
    assert Start(LocalsFor(items + [e]), |items|) == Start(LocalsFor(items), |items|);
  }

  /** The state of the loop after the first `i` entries: what has been seen ... */
  ghost predicate Seen(sumOf: SumOf, entries: seq<Input>, i: nat, names: set<Bytes>)
    requires i <= |entries|
  {
    var items := ItemsOf(sumOf, entries[..i]);
    (forall k :: 0 <= k < i ==> EntryValid(entries[k])) && DistinctNames(items) && names == NamesOf(items)
  }

  /** ... and what has been written. */
  ghost predicate Written(items: seq<Item>, locals: seq<Bytes>, centrals: seq<Bytes>, offset: nat) {
    Fits32(items) && locals == LocalsFor(items) && centrals == CentralsFor(items) && offset == Start(LocalsFor(items), |items|)
  }

  lemma SeenOneMore(sumOf: SumOf, entries: seq<Input>, i: nat, names: set<Bytes>)
    requires i < |entries| && Seen(sumOf, entries, i, names) && EntryValid(entries[i]) && entries[i].name !in names
    ensures Seen(sumOf, entries, i + 1, names + {entries[i].name})
    ensures ItemsOf(sumOf, entries[..i + 1]) == ItemsOf(sumOf, entries[..i]) + [ItemOf(sumOf, entries[i])]
  {
    var items, more := ItemsOf(sumOf, entries[..i]), ItemsOf(sumOf, entries[..i + 1]);
    assert more == items + [ItemOf(sumOf, entries[i])];
    assert more[i].name == entries[i].name;
    forall k | 0 <= k < i ensures more[k] == items[k] && items[k].name in names { }
  }

  lemma WrittenOneMore(items: seq<Item>, e: Item, locals: seq<Bytes>, centrals: seq<Bytes>, offset: nat)
    requires Written(items, locals, centrals, offset) && FieldsFit(e) && offset + |Local(e)| <= MAX32
    ensures Written(items + [e], locals + [Local(e)], centrals + [Central(e, offset)], offset + |Local(e)|)
  {
    OneMoreLocal(items, e);
    OneMoreCentral(items, e);
  }

  lemma DuplicateStops(sumOf: SumOf, entries: seq<Input>, i: nat)
    requires FourByteSums(sumOf) && i < |entries| && entries[i].name in NamesOf(ItemsOf(sumOf, entries[..i]))
    ensures !Writable(sumOf, entries)
  {
    var j :| 0 <= j < i && ItemsOf(sumOf, entries[..i])[j].name == entries[i].name;
    assert ItemsOf(sumOf, entries)[j].name == ItemsOf(sumOf, entries)[i].name;
  }

  lemma TooLargeStops(sumOf: SumOf, entries: seq<Input>, i: nat)
    requires FourByteSums(sumOf) && i < |entries| && AllFit(ItemsOf(sumOf, entries[..i])) && FieldsFit(ItemOf(sumOf, entries[i]))
    requires Start(LocalsFor(ItemsOf(sumOf, entries[..i])), i) + |Local(ItemOf(sumOf, entries[i]))| > MAX32
    ensures !Writable(sumOf, entries)
  {
    var all := ItemsOf(sumOf, entries);
    if AllFit(all) {
      assert LocalsFor(all)[..i] == LocalsFor(ItemsOf(sumOf, entries[..i]))[..i];
      StartNext(LocalsFor(all), i);
      assert Start(LocalsFor(all), i + 1) > MAX32;
    }
  }

  /** One entry: its two headers and where the next local record begins. */
  method WriteEntry(e: Item, offset: nat) returns (local: Bytes, central: Bytes)
    requires FieldsFit(e) && offset <= MAX32
    ensures local == Local(e) && central == Central(e, offset)
  {
    var l := LocalHeaderBuffer(e.sum, |e.data|, |e.name|);
    var c := CentralHeaderBuffer(e.sum, |e.data|, |e.name|, offset);
    return l[..] + e.name + e.data, c[..] + e.name;
  }

  method ConcatAll(parts: seq<Bytes>) returns (b: Bytes)
    ensures b == Concat(parts)
  {
    b := [];
    for i := 0 to |parts|
      invariant b == Concat(parts[..i])
    {
      assert parts[..i + 1] == parts[..i] + [parts[i]];
      ConcatSnoc(parts[..i], parts[i]);
      b := b + parts[i];
    }
    assert parts[..|parts|] == parts;
  }

  /** Local records, directory and end record in one buffer. */
  method Assemble(locals: seq<Bytes>, centrals: seq<Bytes>, ghost items: seq<Item>, offset: nat)
    returns (r: Result<Bytes, WriteError>)
    requires Written(items, locals, centrals, offset) && 0 < |items| <= MAX16
    ensures r.Ok? <==> Representable(items)
    ensures r.Ok? ==> r.value == Assembled(PartsFor(items))
    ensures r.Err? ==> r.error.DirectoryTooLarge?
  {
    var directory := ConcatAll(centrals);
    if |directory| > MAX32 { return Err(DirectoryTooLarge); }
    var end := EndBuffer(|locals|, |directory|, offset);
    var front := ConcatAll(locals);
    return Ok(front + directory + end[..]);
  }

  /** The checks on one entry, in their order, and its two records. */
  method AddEntry(sumOf: SumOf, ghost entries: seq<Input>, ghost i: nat, entry: Input, names: set<Bytes>, ghost locals: seq<Bytes>,
                  ghost centrals: seq<Bytes>, offset: nat)
    returns (r: Result<(Bytes, Bytes), WriteError>)
    requires FourByteSums(sumOf) && i < |entries| && entry == entries[i] && Seen(sumOf, entries, i, names) && offset <= MAX32
    requires Written(ItemsOf(sumOf, entries[..i]), locals, centrals, offset)
    ensures r.Ok? ==> EntryValid(entry) && entry.name !in names && |r.value.0| == |Local(ItemOf(sumOf, entry))|
    ensures r.Ok? ==> r.value.0 == Local(ItemOf(sumOf, entry)) && r.value.1 == Central(ItemOf(sumOf, entry), offset)
    ensures r.Ok? ==> offset + |r.value.0| <= MAX32
    ensures r.Err? ==> !Writable(sumOf, entries) && !r.error.NoEntries? && !r.error.TooManyEntries?
  {
    var e := ItemOf(sumOf, entry);
    if e.name in names {
      DuplicateStops(sumOf, entries, i);
      return Err(DuplicateEntry);
    }
    if !NameValid(e.name) { return Err(NameInvalid); }
    if |e.data| > MAX32 { return Err(DataTooLarge); }
    var local, central := WriteEntry(e, offset);
    if offset + |local| > MAX32 {
      TooLargeStops(sumOf, entries, i);
      return Err(ArchiveTooLarge);
    }
    return Ok((local, central));
  }

  /** All entries in order. */
  method AddEntries(sumOf: SumOf, entries: seq<Input>) returns (r: Result<(seq<Bytes>, seq<Bytes>, nat), WriteError>)
    requires FourByteSums(sumOf)
    ensures r.Ok? ==> Seen(sumOf, entries, |entries|, NamesOf(ItemsOf(sumOf, entries)))
    ensures r.Ok? ==> Written(ItemsOf(sumOf, entries), r.value.0, r.value.1, r.value.2)
    ensures r.Err? ==> !Writable(sumOf, entries) && !r.error.NoEntries? && !r.error.TooManyEntries?
  {
    var locals: seq<Bytes>, centrals: seq<Bytes>, names: set<Bytes>, offset: nat := [], [], {}, 0;
    var i := 0;
    while i < |entries|
      invariant i <= |entries| && offset <= MAX32 && Seen(sumOf, entries, i, names)
      invariant Written(ItemsOf(sumOf, entries[..i]), locals, centrals, offset)
    {
      var added := AddEntry(sumOf, entries, i, entries[i], names, locals, centrals, offset);
      if added.Err? { return Err(added.error); }
      SeenOneMore(sumOf, entries, i, names);
      WrittenOneMore(ItemsOf(sumOf, entries[..i]), ItemOf(sumOf, entries[i]), locals, centrals, offset);
      locals, centrals := locals + [added.value.0], centrals + [added.value.1];
      names, offset, i := names + {entries[i].name}, offset + |added.value.0|, i + 1;
    }
    assert entries[..i] == entries;
    return Ok((locals, centrals, offset));
  }

  /**
   * Writes the archive, for exactly the lists whose names are distinct and valid and
   * whose counts, sizes and offsets all fit their fields.
   */
  method CreateStoreZip(sumOf: SumOf, entries: seq<Input>) returns (r: Result<Bytes, WriteError>)
    requires FourByteSums(sumOf)
    ensures r.Ok? <==> Writable(sumOf, entries)
    ensures r.Ok? ==> r.value == Archive(sumOf, entries)
    ensures r.Ok? ==> forall e :: e in entries ==> e.name != [] && 0 !in e.name
    ensures r == Err(NoEntries) <==> entries == []
    ensures r == Err(TooManyEntries) <==> |entries| > MAX16
  {
    if |entries| == 0 { return Err(NoEntries); }
    if |entries| > MAX16 { return Err(TooManyEntries); }
    var added := AddEntries(sumOf, entries);
    if added.Err? { return Err(added.error); }
    r := Assemble(added.value.0, added.value.1, ItemsOf(sumOf, entries), added.value.2);
    assert entries[..|entries|] == entries;
  }
}
