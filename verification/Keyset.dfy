/** Reading all records of a store page by page in id order, and in chunks of values. */
module Keyset {
  import opened Domain

  /** A stored record: its id and the text of its fields. */
  datatype Record = Record(id: nat, fields: map<string, string>)

  /** Ids ascend strictly in a store. */
  ghost predicate Ordered(store: seq<Record>) {
    forall i, j :: 0 <= i < j < |store| ==> store[i].id < store[j].id
  }

  type Condition = Record -> bool

  /** The records after `after` that satisfy the condition, in id order. */
  function Matching(store: seq<Record>, keep: Condition, after: Option<nat>): seq<Record> {
    if store == [] then []
    else (if Taken(store[0], keep, after) then [store[0]] else []) + Matching(store[1..], keep, after)
  }

  predicate Taken(x: Record, keep: Condition, after: Option<nat>) {
    keep(x) && (after.None? || x.id > after.value)
  }

  lemma {:induction false} MatchingMembers(store: seq<Record>, keep: Condition, after: Option<nat>)
    ensures forall x :: x in Matching(store, keep, after) <==> x in store && Taken(x, keep, after)
  {
    if store != [] {
      MatchingMembers(store[1..], keep, after);
      assert store == [store[0]] + store[1..];
    }
  }

  /** What the server answers to a query ordered by id with a limit. */
  function Page(store: seq<Record>, keep: Condition, after: Option<nat>, limit: nat): seq<Record> {
    var all := Matching(store, keep, after);
    if |all| <= limit then all else all[..limit]
  }

  lemma {:induction false} MatchingOrdered(store: seq<Record>, keep: Condition, after: Option<nat>)
    requires Ordered(store)
    ensures Ordered(Matching(store, keep, after))
  {
    if store != [] {
      MatchingOrdered(store[1..], keep, after);
      MatchingMembers(store[1..], keep, after);
      var rest := Matching(store[1..], keep, after);
      forall i | 0 <= i < |rest| ensures store[0].id < rest[i].id {
        assert rest[i] in store[1..];
      }
    }
  }

  /** Nothing matches twice when everything up to `to` is skipped. */
  lemma {:induction false} MatchingAfterAll(store: seq<Record>, keep: Condition, to: nat)
    requires forall x :: x in store ==> x.id > to
    ensures Matching(store, keep, Some(to)) == Matching(store, keep, None)
  {
    if store != [] { MatchingAfterAll(store[1..], keep, to); }
  }

  lemma HeadBelow(store: seq<Record>, keep: Condition, to: nat)
    requires store != [] && store[0].id <= to
    ensures Matching(store, keep, Some(to)) == Matching(store[1..], keep, Some(to))
  {
  }

  lemma SkipFirst(store: seq<Record>, keep: Condition, after: Option<nat>)
    requires Ordered(store) && store != [] && (after.None? || store[0].id > after.value)
    ensures Matching(store, keep, Some(store[0].id)) == Matching(store[1..], keep, after)
  {
    HeadBelow(store, keep, store[0].id);
    AfterLess(store[1..], keep, after, store[0].id);
  }

  lemma MatchingCons(store: seq<Record>, keep: Condition, after: Option<nat>)
    requires store != []
    ensures Matching(store, keep, after) ==
      (if Taken(store[0], keep, after) then [store[0]] else []) + Matching(store[1..], keep, after)
  {
  }

  lemma TailOrdered(store: seq<Record>)
    requires Ordered(store) && store != []
    ensures Ordered(store[1..])
  {
  }

  lemma ConsSlices(x: Record, rest: seq<Record>, k: nat)
    requires k <= |rest|
    ensures ([x] + rest)[k + 1..] == rest[k..]
    ensures k < |rest| ==> ([x] + rest)[k + 1] == rest[k]
  {
  }

  /** Skipping to the `k`-th match leaves the matches behind it. */
  lemma {:induction false} MatchingSkips(store: seq<Record>, keep: Condition, after: Option<nat>, all: seq<Record>, k: nat)
    requires Ordered(store) && all == Matching(store, keep, after) && k < |all|
    ensures Matching(store, keep, Some(all[k].id)) == all[k + 1..]
    decreases |store|, 1
  {
    var rest := Matching(store[1..], keep, after);
    MatchingCons(store, keep, after);
    if !Taken(store[0], keep, after) {
      SkipLater(store, keep, after, rest, k);
    } else if k == 0 {
      ConsSlices(store[0], rest, 0);
      SkipFirst(store, keep, after);
    } else {
      ConsSlices(store[0], rest, k - 1);
      ConsSlices(store[0], rest, k);
      SkipLater(store, keep, after, rest, k - 1);
    }
  }

  lemma {:induction false} SkipLater(store: seq<Record>, keep: Condition, after: Option<nat>, rest: seq<Record>, k: nat)
    requires Ordered(store) && store != [] && rest == Matching(store[1..], keep, after) && k < |rest|
    ensures Matching(store, keep, Some(rest[k].id)) == rest[k + 1..]
    decreases |store|, 0
  {
    TailOrdered(store);
    MatchingSkips(store[1..], keep, after, rest, k);
    MatchingMembers(store[1..], keep, after);
    assert rest[k] in store[1..];
    HeadBelow(store, keep, rest[k].id);
  }

  /** A lower bound below every id excludes nothing. */
  lemma {:induction false} AfterLess(store: seq<Record>, keep: Condition, after: Option<nat>, to: nat)
    requires (after.None? || to > after.value) && forall x :: x in store ==> x.id > to
    ensures Matching(store, keep, after) == Matching(store, keep, Some(to))
  {
    if store != [] { AfterLess(store[1..], keep, after, to); }
  }

  datatype ReadError = PageSizeInvalid | QueryTooLong | NotIncreasing | NotAdvancing

  /** How long the final query is at a keyset position, and how long it may be. */
  datatype QueryBound = QueryBound(length: Option<nat> -> nat, maximum: Option<nat>)

  predicate TooLong(bound: QueryBound, lastId: Option<nat>) {
    bound.maximum.Some? && bound.length(lastId) > bound.maximum.value
  }

  /** The ids of a page continue an ascending series. */
  method CheckPage(page: seq<Record>, lastId: Option<nat>) returns (r: Result<Option<nat>, ReadError>)
    ensures r.Ok? <==> Ordered(page) && (lastId.Some? && page != [] ==> page[0].id > lastId.value)
    ensures r.Ok? ==> r.value == if page == [] then lastId else Some(page[|page| - 1].id)
    ensures r.Err? ==> r.error.NotIncreasing?
  {
    var pageLastId := lastId;
    var i := 0;
    while i < |page|
      invariant i <= |page| && Ordered(page[..i]) && pageLastId == if i == 0 then lastId else Some(page[i - 1].id)
      invariant i > 0 && lastId.Some? ==> page[0].id > lastId.value
    {
      if pageLastId.Some? && page[i].id <= pageLastId.value {
        assert i > 0 ==> page[i - 1].id >= page[i].id;
        return Err(NotIncreasing);
      }
      pageLastId := Some(page[i].id);
      i := i + 1;
    }
    assert page[..i] == page;
    return Ok(pageLastId);
  }

  /** One page and the keyset position behind it; against a store its checks never fail. */
  method ReadPage(store: seq<Record>, keep: Condition, lastId: Option<nat>, pageSize: nat)
    returns (page: seq<Record>, next: Option<nat>)
    requires Ordered(store) && pageSize > 0
    ensures |page| < pageSize ==> page == Matching(store, keep, lastId)
    ensures |page| >= pageSize ==> Matching(store, keep, lastId) == page + Matching(store, keep, next) && page != []
  {
    page := Page(store, keep, lastId, pageSize);
    PageContinues(store, keep, lastId, pageSize);
    var checked := CheckPage(page, lastId);
    next := checked.value;
    if |page| >= pageSize { FullPage(store, keep, lastId, pageSize); }
  }

  /**
   * Reads all matching records of a store, once each and in id order, whatever the
   * page size; only an oversized query stops it.
   */
  method ReadAllByKeyset(store: seq<Record>, keep: Condition, pageSize: int, bound: QueryBound)
    returns (r: Result<seq<Record>, ReadError>)
    requires Ordered(store)
    ensures r.Ok? ==> r.value == Matching(store, keep, None)
    ensures r == Err(PageSizeInvalid) <==> !(1 <= pageSize <= 500)
    ensures r.Err? ==> r.error.PageSizeInvalid? || r.error.QueryTooLong?
    ensures r.Err? && r.error.QueryTooLong? ==> exists lastId :: TooLong(bound, lastId)
  {
    if pageSize < 1 || pageSize > 500 { return Err(PageSizeInvalid); }
    var records: seq<Record> := [];
    var lastId: Option<nat> := None;
    ghost var left := Matching(store, keep, None);
    while true
      invariant left == Matching(store, keep, lastId) && records + left == Matching(store, keep, None)
      decreases |left|
    {
      if TooLong(bound, lastId) { return Err(QueryTooLong); }
      var page, next := ReadPage(store, keep, lastId, pageSize);
      if |page| < pageSize { return Ok(records + page); }
      ghost var rest := Matching(store, keep, next);
      assert records + (page + rest) == records + page + rest;
      records, lastId, left := records + page, next, rest;
    }
  }

  /** A page is ordered, lies behind the keyset position, and is not empty while anything matches. */
  lemma PageContinues(store: seq<Record>, keep: Condition, lastId: Option<nat>, limit: nat)
    requires Ordered(store) && limit > 0
    ensures var page := Page(store, keep, lastId, limit);
      Ordered(page) && (lastId.Some? && page != [] ==> page[0].id > lastId.value) && |page| <= limit
    ensures |Page(store, keep, lastId, limit)| < limit ==> Page(store, keep, lastId, limit) == Matching(store, keep, lastId)
  {
    MatchingOrdered(store, keep, lastId);
    MatchingMembers(store, keep, lastId);
    var all := Matching(store, keep, lastId);
    assert all != [] ==> all[0] in all;
  }

  lemma CutAt(all: seq<Record>, n: nat)
    requires n <= |all|
    ensures all == all[..n] + all[n..]
  {
  }

  /** After a full page the matches behind its last id are what is left. */
  lemma FullPage(store: seq<Record>, keep: Condition, lastId: Option<nat>, limit: nat)
    requires Ordered(store) && limit > 0 && |Page(store, keep, lastId, limit)| == limit
    ensures var page := Page(store, keep, lastId, limit);
      Matching(store, keep, lastId) == page + Matching(store, keep, Some(page[limit - 1].id))
  {
    MatchingSkips(store, keep, lastId, Matching(store, keep, lastId), limit - 1);
    CutAt(Matching(store, keep, lastId), limit);
  }

  // ---- Chunks of values ---------------------------------------------------

  /** A query value in quotes, with backslashes and quotes escaped. */
  function QuoteQueryValue(value: string): string {
    "\"" + Escaped(value) + "\""
  }

  function Escaped(value: string): string {
    if value == "" then ""
    else (if value[0] == '\\' || value[0] == '"' then ['\\', value[0]] else [value[0]]) + Escaped(value[1..])
  }

  /** What the escapes stand for. */
  function Unescaped(text: string): string {
    if text == "" then ""
    else if text[0] == '\\' && |text| >= 2 then [text[1]] + Unescaped(text[2..])
    else [text[0]] + Unescaped(text[1..])
  }

  /** No quote in the text ends it early: each one is escaped. */
  predicate Closed(text: string) {
    text == "" ||
    (if text[0] == '\\' then |text| >= 2 && Closed(text[2..]) else text[0] != '"' && Closed(text[1..]))
  }

  /** Quoting loses nothing and a value cannot break out of its quotes. */
  lemma {:induction false} QuotingIsSafe(value: string)
    ensures Unescaped(Escaped(value)) == value && Closed(Escaped(value))
  {
    if value != "" {
      QuotingIsSafe(value[1..]);
      var e := Escaped(value);
      if value[0] == '\\' || value[0] == '"' {
        assert e[2..] == Escaped(value[1..]);
      } else {
        assert e[1..] == Escaped(value[1..]);
      }
    }
  }

  function Joined(parts: seq<string>): string {
    if parts == [] then "" else if |parts| == 1 then parts[0] else Joined(parts[..|parts| - 1]) + ", " + parts[|parts| - 1]
  }

  function Quoted(values: seq<string>): seq<string> {
    seq(|values|, i requires 0 <= i < |values| => QuoteQueryValue(values[i]))
  }

  /** field in ("a", "b") */
  function InCondition(field: string, values: seq<string>): string {
    field + " in (" + Joined(Quoted(values)) + ")"
  }

  /** Values are listed in quotes, with a comma between two of them. */
  lemma ListGrows(values: seq<string>, value: string)
    ensures Joined(Quoted([value])) == QuoteQueryValue(value)
    ensures values != [] ==> Joined(Quoted(values + [value])) == Joined(Quoted(values)) + ", " + QuoteQueryValue(value)
  {
    assert Quoted([value]) == [QuoteQueryValue(value)];
    var parts := Quoted(values + [value]);
    assert parts[..|parts| - 1] == Quoted(values) && parts[|parts| - 1] == QuoteQueryValue(value);
  }

  /** The values in order of first occurrence. */
  function Unique(values: seq<string>): (r: seq<string>)
    ensures forall v :: v in r <==> v in values
    ensures forall i, j :: 0 <= i < j < |r| ==> r[i] != r[j]
  {
    if values == [] then []
    else
      var last := |values| - 1;
      var rest := Unique(values[..last]);
      assert values == values[..last] + [values[last]];
      if values[last] in rest then rest else rest + [values[last]]
  }

  /** Further values never change the order of the earlier ones. */
  lemma {:induction false} UniqueInOrder(values: seq<string>, more: seq<string>)
    ensures Unique(values) <= Unique(values + more)
  {
    if more == [] {
      assert values + more == values;
    } else {
      var last := |more| - 1;
      assert (values + more)[..|values + more| - 1] == values + more[..last];
      UniqueInOrder(values, more[..last]);
    }
  }

  function Flat(chunks: seq<seq<string>>): seq<string> {
    if chunks == [] then [] else Flat(chunks[..|chunks| - 1]) + chunks[|chunks| - 1]
  }

  datatype ChunkError = FieldInvalid | LimitsInvalid | ValueTooLong

  predicate FieldChar(c: char, first: bool) {
    ('A' <= c <= 'Z') || ('a' <= c <= 'z') || c == '_' || c == '$' || (!first && '0' <= c <= '9')
  }

  predicate FieldValid(field: string) {
    field != "" && FieldChar(field[0], true) && forall i :: 1 <= i < |field| ==> FieldChar(field[i], false)
  }

  /** How long the condition of a chunk is. */
  function LengthOf(field: string): seq<string> -> nat {
    chunk => |InCondition(field, chunk)|
  }

  /** A chunk the loop may close: not empty, not too many values, and too long only if it is a single value. */
  predicate ChunkFits(length: seq<string> -> nat, chunk: seq<string>, maxValues: int, maxLength: int) {
    0 < |chunk| <= maxValues && (|chunk| == 1 || length(chunk) <= maxLength)
  }

  ghost predicate AllChunksFit(length: seq<string> -> nat, chunks: seq<seq<string>>, maxValues: int, maxLength: int) {
    forall i :: 0 <= i < |chunks| ==> ChunkFits(length, chunks[i], maxValues, maxLength)
  }

  lemma FlatSnoc(chunks: seq<seq<string>>, chunk: seq<string>)
    ensures Flat(chunks + [chunk]) == Flat(chunks) + chunk
  {
    assert (chunks + [chunk])[..|chunks|] == chunks;
  }

  /** The loop over the distinct values. */
  method SplitValues(length: seq<string> -> nat, unique: seq<string>, maxValues: int, maxLength: int)
    returns (r: Result<seq<seq<string>>, ChunkError>)
    requires maxValues >= 1
    ensures r.Err? <==> unique != [] && length(unique[..1]) > maxLength
    ensures r.Err? ==> r.error.ValueTooLong?
    ensures r.Ok? ==> Flat(r.value) == unique && AllChunksFit(length, r.value, maxValues, maxLength)
  {
    var chunks: seq<seq<string>>, current: seq<string> := [], [];
    var i := 0;
    while i < |unique|
      invariant i <= |unique| && Flat(chunks) + current == unique[..i]
      invariant current == [] <==> i == 0
      invariant i > 0 ==> length(unique[..1]) <= maxLength
      invariant current != [] ==> ChunkFits(length, current, maxValues, maxLength)
      invariant AllChunksFit(length, chunks, maxValues, maxLength)
    {
      var candidate := current + [unique[i]];
      assert unique[..i + 1] == unique[..i] + [unique[i]];
      assert i == 0 ==> candidate == unique[..1];
      if length(candidate) > maxLength && current == [] { return Err(ValueTooLong); }
      if |candidate| > maxValues || length(candidate) > maxLength {
        FlatSnoc(chunks, current);
        chunks, current := chunks + [current], [unique[i]];
      } else {
        current := candidate;
      }
      i := i + 1;
    }
    assert unique[..i] == unique;
    if current != [] {
      FlatSnoc(chunks, current);
      chunks := chunks + [current];
    }
    return Ok(chunks);
  }

  /**
   * Splits the distinct values, in order, into chunks of at most maxValues. Only the
   * first value is refused for its length: a later one that is too long gets a chunk
   * of its own.
   */
  method ChunkValues(field: string, values: seq<string>, maxValues: int, maxLength: int)
    returns (r: Result<seq<seq<string>>, ChunkError>)
    ensures r == Err(FieldInvalid) <==> !FieldValid(field)
    ensures r == Err(LimitsInvalid) <==> FieldValid(field) && (maxValues < 1 || maxLength < 1)
    ensures r == Err(ValueTooLong) <==>
      FieldValid(field) && maxValues >= 1 && maxLength >= 1 && values != [] && LengthOf(field)(Unique(values)[..1]) > maxLength
    ensures r.Ok? ==> Flat(r.value) == Unique(values) && AllChunksFit(LengthOf(field), r.value, maxValues, maxLength)
  {
    if !FieldValid(field) { return Err(FieldInvalid); }
    if maxValues < 1 || maxLength < 1 { return Err(LimitsInvalid); }
    assert values != [] ==> values[0] in Unique(values);
    assert values == [] ==> Unique(values) == [];
    r := SplitValues(LengthOf(field), Unique(values), maxValues, maxLength);
  }

  // ---- When every chunk keeps the length limit ----------------------------

  lemma {:induction false} JoinedGrows(parts: seq<string>, k: nat)
    requires k < |parts|
    ensures |parts[k]| <= |Joined(parts)|
  {
    if |parts| > 1 && k < |parts| - 1 { JoinedGrows(parts[..|parts| - 1], k); }
  }

  lemma ChunkHoldsValue(field: string, chunk: seq<string>, k: nat)
    requires k < |chunk|
    ensures |InCondition(field, [chunk[k]])| <= |InCondition(field, chunk)|
  {
    JoinedGrows(Quoted(chunk), k);
    assert Quoted([chunk[k]]) == [QuoteQueryValue(chunk[k])];
    assert Joined([QuoteQueryValue(chunk[k])]) == QuoteQueryValue(chunk[k]);
  }

  lemma {:induction false} FlatMember(chunks: seq<seq<string>>, v: string) returns (i: nat, k: nat)
    requires v in Flat(chunks)
    ensures i < |chunks| && k < |chunks[i]| && chunks[i][k] == v
  {
    var last := |chunks| - 1;
    if v in chunks[last] {
      i := last;
      k :| 0 <= k < |chunks[last]| && chunks[last][k] == v;
    } else {
      i, k := FlatMember(chunks[..last], v);
    }
  }

  lemma {:induction false} FlatHolds(chunks: seq<seq<string>>, i: nat, v: string)
    requires i < |chunks| && v in chunks[i]
    ensures v in Flat(chunks)
  {
    var last := |chunks| - 1;
    if i < last { FlatHolds(chunks[..last], i, v); }
  }

  /** A length that never shrinks when a value joins others, as that of a condition. */
  ghost predicate Grows(length: seq<string> -> nat) {
    forall chunk: seq<string>, k :: 0 <= k < |chunk| ==> length([chunk[k]]) <= length(chunk)
  }

  lemma ConditionsGrow(field: string)
    ensures Grows(LengthOf(field))
  {
    forall chunk: seq<string>, k | 0 <= k < |chunk| ensures LengthOf(field)([chunk[k]]) <= LengthOf(field)(chunk) {
      ChunkHoldsValue(field, chunk, k);
    }
  }

  /**
   * Chunks can exceed the length limit, and they all keep it exactly when every single
   * value does.
   */
  lemma ChunksFitIffValuesDo(field: string, values: seq<string>, chunks: seq<seq<string>>, maxValues: int, maxLength: int)
    requires Flat(chunks) == Unique(values) && AllChunksFit(LengthOf(field), chunks, maxValues, maxLength)
    ensures (forall i :: 0 <= i < |chunks| ==> LengthOf(field)(chunks[i]) <= maxLength) <==>
            (forall v :: v in values ==> LengthOf(field)([v]) <= maxLength)
  {
    ConditionsGrow(field);
    FitIff(LengthOf(field), values, chunks, maxValues, maxLength);
  }

  lemma FitIff(length: seq<string> -> nat, values: seq<string>, chunks: seq<seq<string>>, maxValues: int, maxLength: int)
    requires Grows(length) && Flat(chunks) == Unique(values) && AllChunksFit(length, chunks, maxValues, maxLength)
    ensures (forall i :: 0 <= i < |chunks| ==> length(chunks[i]) <= maxLength) <==>
            (forall v :: v in values ==> length([v]) <= maxLength)
  {
    if forall i :: 0 <= i < |chunks| ==> length(chunks[i]) <= maxLength {
      forall v | v in values ensures length([v]) <= maxLength {
        var i, k := FlatMember(chunks, v);
        assert length([chunks[i][k]]) <= length(chunks[i]);
      }
    }
    if forall v :: v in values ==> length([v]) <= maxLength {
      forall i | 0 <= i < |chunks| ensures length(chunks[i]) <= maxLength {
        assert ChunkFits(length, chunks[i], maxValues, maxLength);
        if |chunks[i]| == 1 {
          assert chunks[i] == [chunks[i][0]];
          FlatHolds(chunks, i, chunks[i][0]);
        }
      }
    }
  }

  // ---- Reading in chunks --------------------------------------------------

  predicate FieldIn(x: Record, field: string, values: seq<string>) {
    field in x.fields && x.fields[field] in values
  }

  function InChunk(base: Condition, field: string, chunk: seq<string>): Condition {
    x => base(x) && FieldIn(x, field, chunk)
  }

  ghost predicate NoRecordTwice(records: seq<Record>) {
    forall i, j :: 0 <= i < j < |records| ==> records[i] != records[j]
  }

  /** The records of the first chunks: those that match, once each. */
  ghost predicate HoldsMatching(records: seq<Record>, store: seq<Record>, base: Condition, field: string, values: seq<string>) {
    NoRecordTwice(records) && forall x :: x in records <==> x in store && base(x) && FieldIn(x, field, values)
  }

  lemma OneMoreChunk(records: seq<Record>, more: seq<Record>, store: seq<Record>, base: Condition, field: string,
                     values: seq<string>, chunk: seq<string>)
    requires Ordered(store) && HoldsMatching(records, store, base, field, values)
    requires more == Matching(store, InChunk(base, field, chunk), None)
    requires forall v :: v in chunk ==> v !in values
    ensures HoldsMatching(records + more, store, base, field, values + chunk)
  {
    MatchingOrdered(store, InChunk(base, field, chunk), None);
    MatchingMembers(store, InChunk(base, field, chunk), None);
    forall x ensures x in more <==> x in store && base(x) && FieldIn(x, field, chunk) {
      assert x in more <==> x in store && InChunk(base, field, chunk)(x);
    }
    forall i, j | 0 <= i < j < |records + more| ensures (records + more)[i] != (records + more)[j] {
      var a, b := (records + more)[i], (records + more)[j];
      if i < |records| <= j { assert a in records && b in more; }
    }
  }

  lemma {:induction false} FlatPrefix(chunks: seq<seq<string>>, i: nat)
    requires i <= |chunks|
    ensures Flat(chunks[..i]) <= Flat(chunks)
  {
    if i < |chunks| {
      FlatPrefix(chunks[..|chunks| - 1], i);
      assert chunks[..|chunks| - 1][..i] == chunks[..i];
    } else {
      assert chunks[..i] == chunks;
    }
  }

  /** With distinct values the chunks do not overlap. */
  lemma ChunkIsNew(values: seq<string>, chunks: seq<seq<string>>, i: nat)
    requires Flat(chunks) == Unique(values) && i < |chunks|
    ensures Flat(chunks[..i + 1]) == Flat(chunks[..i]) + chunks[i]
    ensures forall v :: v in chunks[i] ==> v !in Flat(chunks[..i])
  {
    assert chunks[..i + 1] == chunks[..i] + [chunks[i]];
    FlatSnoc(chunks[..i], chunks[i]);
    FlatPrefix(chunks, i + 1);
    DistinctParts(Flat(chunks[..i]), chunks[i], Unique(values));
  }

  lemma DistinctParts(front: seq<string>, chunk: seq<string>, all: seq<string>)
    requires front + chunk <= all && forall i, j :: 0 <= i < j < |all| ==> all[i] != all[j]
    ensures forall v :: v in chunk ==> v !in front
  {
    forall v | v in chunk ensures v !in front {
      var k :| 0 <= k < |chunk| && chunk[k] == v;
      assert (front + chunk)[|front| + k] == v;
      forall j | 0 <= j < |front| ensures front[j] != v { assert (front + chunk)[j] == front[j]; }
    }
  }

  datatype ChunkedError = ChunksInvalid(why: ChunkError) | ReadFailed(error: ReadError)

  /**
   * Reads exactly the matching records whose field has one of the values, once each,
   * however the values are spread over chunks and pages.
   */
  method ReadAllByChunks(store: seq<Record>, base: Condition, field: string, values: seq<string>, pageSize: int,
                         bounds: seq<string> -> QueryBound, maxValues: int, maxLength: int)
    returns (r: Result<seq<Record>, ChunkedError>)
    requires Ordered(store)
    ensures r.Ok? ==> HoldsMatching(r.value, store, base, field, values)
  {
    var chunks := ChunkValues(field, values, maxValues, maxLength);
    if chunks.Err? { return Err(ChunksInvalid(chunks.error)); }
    var records: seq<Record> := [];
    var i := 0;
    while i < |chunks.value|
      invariant i <= |chunks.value| && HoldsMatching(records, store, base, field, Flat(chunks.value[..i]))
    {
      var chunk := chunks.value[i];
      var more := ReadAllByKeyset(store, InChunk(base, field, chunk), pageSize, bounds(chunk));
      if more.Err? { return Err(ReadFailed(more.error)); }
      ChunkIsNew(values, chunks.value, i);
      OneMoreChunk(records, more.value, store, base, field, Flat(chunks.value[..i]), chunk);
      records, i := records + more.value, i + 1;
    }
    assert chunks.value[..i] == chunks.value;
    return Ok(records);
  }
}
