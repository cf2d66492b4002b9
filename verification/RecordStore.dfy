/** The record writer of a source port with a primary key: it completes deletes and updates with the
    record stored under the key, and saves and restores itself as bytes (dozer-core/src/record_store.rs). */
module RecordStore {
  import opened Wrappers
  import opened Serialize

  type Record(!new, ==)

  datatype Operation =
    | Insert(new_: Record)
    | Delete(old_: Record)
    | Update(old_: Record, new_: Record)
    | BatchInsert(news: seq<Record>)

  datatype WriteError = RecordNotFound

  type Key = seq<Byte>

  type Index = map<Key, Record>

  /** The key of a record under the port's schema, and the bincode encoding of records. */
  datatype Codec = Codec(key: Record -> Key, encode: Record -> seq<Byte>, decode: seq<Byte> -> Option<Record>)

  // ---------------------------------------------------------------- writing

  function PutAll(c: Codec, index: Index, news: seq<Record>): Index {
    if news == [] then index
    else
      var n := |news| - 1;
      PutAll(c, index, news[..n])[c.key(news[n]) := news[n]]
  }

  /** What `write` returns and the index it leaves. */
  function Write(c: Codec, index: Index, op: Operation): (Result<Operation, WriteError>, Index) {
    match op
    case Insert(r) => (Ok(op), index[c.key(r) := r])
    case Delete(r) =>
      if c.key(r) in index then (Ok(Delete(index[c.key(r)])), index - {c.key(r)}) else (Err(RecordNotFound), index)
    case Update(r, r') =>
      if c.key(r) in index
      then (Ok(Update(index[c.key(r)], r')), (index - {c.key(r)})[c.key(r') := r'])
      else (Err(RecordNotFound), index)
    case BatchInsert(news) => (Ok(op), PutAll(c, index, news))
  }

  /** The index after a sequence of operations. */
  function Written(c: Codec, start: Index, ops: seq<Operation>): Index {
    if ops == [] then start else Write(c, Written(c, start, ops[..|ops| - 1]), ops[|ops| - 1]).1
  }

  /** The operations that a sequence of operations lets through. */
  function Emitted(c: Codec, start: Index, ops: seq<Operation>): seq<Operation> {
    if ops == [] then []
    else
      var n := |ops| - 1;
      var r := Write(c, Written(c, start, ops[..n]), ops[n]).0;
      if r.Ok? then Emitted(c, start, ops[..n]) + [r.value] else Emitted(c, start, ops[..n])
  }

  // ---------------------------------------------------------------- against the history of stores

  function LastOf(c: Codec, news: seq<Record>, k: Key): Option<Record> {
    if news == [] then None
    else if c.key(news[|news| - 1]) == k then Some(news[|news| - 1])
    else LastOf(c, news[..|news| - 1], k)
  }

  /** The record last stored under k and not removed since, found by looking back through the operations. */
  function Current(c: Codec, start: Index, ops: seq<Operation>, k: Key): Option<Record> {
    if ops == [] then if k in start then Some(start[k]) else None
    else
      var n := |ops| - 1;
      var before := Current(c, start, ops[..n], k);
      match ops[n]
      case Insert(r) => if c.key(r) == k then Some(r) else before
      case Delete(r) => if c.key(r) == k then None else before
      case Update(r, r') =>
        if Current(c, start, ops[..n], c.key(r)).None? then before
        else if c.key(r') == k then Some(r')
        else if c.key(r) == k then None
        else before
      case BatchInsert(news) => if LastOf(c, news, k).Some? then LastOf(c, news, k) else before
  }

  lemma {:induction false} PutAllLooksUp(c: Codec, index: Index, news: seq<Record>, k: Key)
    ensures k in PutAll(c, index, news) <==> k in index || LastOf(c, news, k).Some?
    ensures k in PutAll(c, index, news) ==>
              PutAll(c, index, news)[k] == if LastOf(c, news, k).Some? then LastOf(c, news, k).value else index[k]
  {
    if news != [] {
      PutAllLooksUp(c, index, news[..|news| - 1], k);
    }
  }

  /** The index holds, under every key, the record last stored there. */
  lemma {:induction false} IndexIsCurrent(c: Codec, start: Index, ops: seq<Operation>, k: Key)
    ensures k in Written(c, start, ops) <==> Current(c, start, ops, k).Some?
    ensures k in Written(c, start, ops) ==> Written(c, start, ops)[k] == Current(c, start, ops, k).value
    decreases |ops|
  {
    if ops != [] {
      var n := |ops| - 1;
      IndexIsCurrent(c, start, ops[..n], k);
      match ops[n]
      case Insert(_) =>
      case Delete(r) => IndexIsCurrent(c, start, ops[..n], c.key(r));
      case Update(r, _) => IndexIsCurrent(c, start, ops[..n], c.key(r));
      case BatchInsert(news) => PutAllLooksUp(c, Written(c, start, ops[..n]), news, k);
    }
  }

  /** A delete or update is let through exactly if a record is stored under its key, which then replaces
      the given old record; the new record is passed on as it is; a refused one changes nothing. */
  lemma OldIsLastStored(c: Codec, start: Index, ops: seq<Operation>, op: Operation)
    requires op.Delete? || op.Update?
    ensures var index := Written(c, start, ops);
            var r := Write(c, index, op);
            var current := Current(c, start, ops, c.key(op.old_));
            && (r.0.Ok? <==> current.Some?)
            && (r.0.Ok? ==> r.0.value == op.(old_ := current.value))
            && (r.0.Err? ==> r.1 == index)
  {
    IndexIsCurrent(c, start, ops, c.key(op.old_));
  }

  /** Inserts are passed on as they are. */
  lemma InsertsPassOn(c: Codec, index: Index, op: Operation)
    requires op.Insert? || op.BatchInsert?
    ensures Write(c, index, op).0 == Ok(op)
  {
  }

  /** What the history of stores calls for: every operation in order, a delete or update with the record last stored
      under its key in place of the given old one, and left out if there is none. */
  function Expected(c: Codec, start: Index, ops: seq<Operation>): seq<Operation> {
    if ops == [] then []
    else
      var n := |ops| - 1;
      var before := Expected(c, start, ops[..n]);
      match ops[n]
      case Insert(_) => before + [ops[n]]
      case BatchInsert(_) => before + [ops[n]]
      case Delete(r) =>
        var current := Current(c, start, ops[..n], c.key(r));
        if current.None? then before else before + [Delete(current.value)]
      case Update(r, r') =>
        var current := Current(c, start, ops[..n], c.key(r));
        if current.None? then before else before + [Update(current.value, r')]
  }

  /** Over every sequence of operations, exactly that is emitted. */
  lemma {:induction false} EmittedAsExpected(c: Codec, start: Index, ops: seq<Operation>)
    ensures Emitted(c, start, ops) == Expected(c, start, ops)
  {
    if ops != [] {
      var n := |ops| - 1;
      EmittedAsExpected(c, start, ops[..n]);
      match ops[n]
      case Insert(_) => InsertsPassOn(c, Written(c, start, ops[..n]), ops[n]);
      case BatchInsert(_) => InsertsPassOn(c, Written(c, start, ops[..n]), ops[n]);
      case Delete(_) => OldIsLastStored(c, start, ops[..n], ops[n]);
      case Update(_, _) => OldIsLastStored(c, start, ops[..n], ops[n]);
    }
  }

  /** A table that takes an operation at its word, as a consumer of the emitted ones would. */
  function Take(c: Codec, table: Index, op: Operation): Index {
    match op
    case Insert(r) => table[c.key(r) := r]
    case Delete(r) => table - {c.key(r)}
    case Update(r, r') => (table - {c.key(r)})[c.key(r') := r']
    case BatchInsert(news) => PutAll(c, table, news)
  }

  function Fold(c: Codec, start: Index, ops: seq<Operation>): Index {
    if ops == [] then start else Take(c, Fold(c, start, ops[..|ops| - 1]), ops[|ops| - 1])
  }

  /** Every stored record sits under its own key. */
  ghost predicate Keyed(c: Codec, index: Index) {
    forall k :: k in index ==> c.key(index[k]) == k
  }

  lemma {:induction false} WrittenKeyed(c: Codec, start: Index, ops: seq<Operation>)
    requires Keyed(c, start)
    ensures Keyed(c, Written(c, start, ops))
  {
    if ops != [] {
      var before := Written(c, start, ops[..|ops| - 1]);
      WrittenKeyed(c, start, ops[..|ops| - 1]);
      var op := ops[|ops| - 1];
      if op.BatchInsert? {
        PutAllKeyed(c, before, op.news);
      }
    }
  }

  lemma {:induction false} PutAllKeyed(c: Codec, index: Index, news: seq<Record>)
    requires Keyed(c, index)
    ensures Keyed(c, PutAll(c, index, news))
  {
    if news != [] {
      PutAllKeyed(c, index, news[..|news| - 1]);
    }
  }

  lemma EmittedTakesEffect(c: Codec, index: Index, op: Operation)
    requires Keyed(c, index) && Write(c, index, op).0.Ok?
    ensures Take(c, index, Write(c, index, op).0.value) == Write(c, index, op).1
  {
  }

  lemma FoldAppend(c: Codec, start: Index, ops: seq<Operation>, op: Operation)
    ensures Fold(c, start, ops + [op]) == Take(c, Fold(c, start, ops), op)
  {
    assert (ops + [op])[..|ops|] == ops;
  }

  /** A consumer that applies the emitted operations holds exactly the writer's index. */
  lemma {:induction false} EmittedFoldsToIndex(c: Codec, start: Index, ops: seq<Operation>)
    requires Keyed(c, start)
    ensures Fold(c, start, Emitted(c, start, ops)) == Written(c, start, ops)
  {
    if ops != [] {
      var n := |ops| - 1;
      EmittedFoldsToIndex(c, start, ops[..n]);
      WrittenKeyed(c, start, ops[..n]);
      var r := Write(c, Written(c, start, ops[..n]), ops[n]).0;
      if r.Ok? {
        FoldAppend(c, start, Emitted(c, start, ops[..n]), r.value);
        EmittedTakesEffect(c, Written(c, start, ops[..n]), ops[n]);
      }
    }
  }

  // ---------------------------------------------------------------- checkpoints

  /** Some order in which a hash map may be iterated. */
  ghost predicate Enumerates(order: seq<Key>, index: Index) {
    && (forall i, j :: 0 <= i < j < |order| ==> order[i] != order[j])
    && (forall k :: k in order <==> k in index)
  }

  function EncodeEntry(c: Codec, key: Key, r: Record): seq<Byte> {
    EncodeVec(key) + EncodeVec(c.encode(r))
  }

  function EncodeEntries(c: Codec, index: Index, order: seq<Key>): seq<Byte>
    requires forall k :: k in order ==> k in index
  {
    if order == [] then [] else EncodeEntry(c, order[0], index[order[0]]) + EncodeEntries(c, index, order[1..])
  }

  function Encode(c: Codec, index: Index, order: seq<Key>): seq<Byte>
    requires forall k :: k in order ==> k in index
  {
    EncodeU64(|index|) + EncodeEntries(c, index, order)
  }

  function DecodeRecord(c: Codec, bs: seq<Byte>): Result<Parsed<Record>, DeserializationError> {
    match DecodeVec(bs)
    case Err(e) => Err(e)
    case Ok(p) =>
      match c.decode(p.value)
      case None => Err(Bincode)
      case Some(r) => Ok(Parsed(r, p.rest))
  }

  /** The loop of `new`: n entries on top of the index read so far. */
  function DecodeEntries(c: Codec, n: nat, bs: seq<Byte>, index: Index): Result<Index, DeserializationError> {
    if n == 0 then Ok(index)
    else
      match DecodeVec(bs)
      case Err(e) => Err(e)
      case Ok(key) =>
        match DecodeRecord(c, key.rest)
        case Err(e) => Err(e)
        case Ok(r) => DecodeEntries(c, n - 1, r.rest, index[key.value := r.value])
  }

  function Restore(c: Codec, bs: seq<Byte>): Result<Index, DeserializationError> {
    match DecodeU64(bs)
    case Err(e) => Err(e)
    case Ok(n) => DecodeEntries(c, n.value, n.rest, map[])
  }

  /** Decoding undoes encoding, and lengths fit their eight bytes. */
  ghost predicate Storable(c: Codec, index: Index) {
    && |index| < U64_LIMIT
    && (forall k :: k in index ==>
          && |k| < U64_LIMIT && |c.encode(index[k])| < U64_LIMIT
          && c.decode(c.encode(index[k])) == Some(index[k]))
  }

  lemma EntryRoundTrip(c: Codec, n: nat, m: nat, key: Key, r: Record, rest: seq<Byte>, index: Index)
    requires n == m + 1 && |key| < U64_LIMIT && |c.encode(r)| < U64_LIMIT && c.decode(c.encode(r)) == Some(r)
    ensures DecodeEntries(c, n, EncodeEntry(c, key, r) + rest, index)
            == DecodeEntries(c, m, rest, index[key := r])
  {
    var data := EncodeVec(c.encode(r)) + rest;
    assert EncodeEntry(c, key, r) + rest == EncodeVec(key) + data;
    VecRoundTrip(key, data);
    RecordRoundTrip(c, r, rest);
    DecodeStep(c, n, m, EncodeEntry(c, key, r) + rest, key, data, r, rest, index);
  }

  lemma RecordRoundTrip(c: Codec, r: Record, rest: seq<Byte>)
    requires |c.encode(r)| < U64_LIMIT && c.decode(c.encode(r)) == Some(r)
    ensures DecodeRecord(c, EncodeVec(c.encode(r)) + rest) == Ok(Parsed(r, rest))
  {
    VecRoundTrip(c.encode(r), rest);
  }

  lemma DecodeStep(c: Codec, n: nat, m: nat, bs: seq<Byte>, key: Key, data: seq<Byte>, r: Record, rest: seq<Byte>,
                   index: Index)
    requires n == m + 1 && DecodeVec(bs) == Ok(Parsed(key, data)) && DecodeRecord(c, data) == Ok(Parsed(r, rest))
    ensures DecodeEntries(c, n, bs, index) == DecodeEntries(c, m, rest, index[key := r])
  {
    assert n - 1 == m;
  }

  /** The entries of the given keys, put into a table one after the other. */
  function PutEntries(index: Index, order: seq<Key>, done: Index): Index
    requires forall k :: k in order ==> k in index
  {
    if order == [] then done else PutEntries(index, order[1..], done[order[0] := index[order[0]]])
  }

  lemma {:induction false} EntriesRoundTrip(c: Codec, index: Index, order: seq<Key>, done: Index, extra: seq<Byte>)
    requires Storable(c, index) && forall k :: k in order ==> k in index
    ensures DecodeEntries(c, |order|, EncodeEntries(c, index, order) + extra, done)
            == Ok(PutEntries(index, order, done))
  {
    if order != [] {
      var k := order[0];
      var rest := EncodeEntries(c, index, order[1..]) + extra;
      assert EncodeEntries(c, index, order) + extra == EncodeEntry(c, k, index[k]) + rest;
      EntryRoundTrip(c, |order|, |order[1..]|, k, index[k], rest, done);
      EntriesRoundTrip(c, index, order[1..], done[k := index[k]], extra);
    }
  }

  lemma {:induction false} PutEntriesLooksUp(index: Index, order: seq<Key>, done: Index, k: Key)
    requires forall key :: key in order ==> key in index
    ensures k in PutEntries(index, order, done) <==> k in done || k in order
    ensures k in PutEntries(index, order, done) ==>
              PutEntries(index, order, done)[k] == if k in order then index[k] else done[k]
  {
    if order != [] {
      PutEntriesLooksUp(index, order[1..], done[order[0] := index[order[0]]], k);
    }
  }

  lemma EveryEntryPut(index: Index, order: seq<Key>)
    requires Enumerates(order, index)
    ensures PutEntries(index, order, map[]) == index
  {
    forall k
      ensures k in PutEntries(index, order, map[]) <==> k in index
      ensures k in PutEntries(index, order, map[]) ==> PutEntries(index, order, map[])[k] == index[k]
    {
      PutEntriesLooksUp(index, order, map[], k);
    }
  }

  lemma {:induction false} EnumerationSize(order: seq<Key>, index: Index)
    requires Enumerates(order, index)
    ensures |order| == |index|
  {
    if order == [] {
      assert index == map[];
    } else {
      var rest := index - {order[0]};
      assert index == rest[order[0] := index[order[0]]];
      assert order == [order[0]] + order[1..];
      EnumerationSize(order[1..], rest);
    }
  }

  /** A writer restored from its checkpoint has the same index, in whatever order the map was iterated and
      whatever follows the checkpoint's bytes. */
  lemma CheckpointRoundTrip(c: Codec, index: Index, order: seq<Key>, extra: seq<Byte>)
    requires Storable(c, index) && Enumerates(order, index)
    ensures Restore(c, Encode(c, index, order) + extra) == Ok(index)
  {
    EnumerationSize(order, index);
    var entries := EncodeEntries(c, index, order) + extra;
    assert Encode(c, index, order) + extra == EncodeU64(|index|) + entries;
    U64RoundTrip(|index|, entries);
    EntriesRoundTrip(c, index, order, map[], extra);
    EveryEntryPut(index, order);
  }

  lemma EntryTruncated(c: Codec, n: nat, key: Key, r: Record, k: nat, index: Index)
    requires 0 < n && |key| < U64_LIMIT && |c.encode(r)| < U64_LIMIT && k < |EncodeEntry(c, key, r)|
    ensures BreaksOff(c, n, EncodeEntry(c, key, r)[..k], index)
  {
    var m := |EncodeVec(key)|;
    if k < m {
      assert EncodeEntry(c, key, r)[..k] == EncodeVec(key)[..k];
      VecTruncated(key, k);
    } else {
      var data := EncodeVec(c.encode(r))[..k - m];
      assert EncodeEntry(c, key, r)[..k] == EncodeVec(key) + data;
      VecRoundTrip(key, data);
      VecTruncated(c.encode(r), k - m);
    }
  }

  lemma CutConcat(a: seq<Byte>, b: seq<Byte>, k: nat)
    requires k <= |a| + |b|
    ensures (a + b)[..k] == if k < |a| then a[..k] else a + b[..k - |a|]
  {
  }

  /** The first k bytes of the entries, seen from the first entry. */
  lemma EntriesCut(c: Codec, index: Index, order: seq<Key>, k: nat)
    requires order != [] && (forall key :: key in order ==> key in index) && k < |EncodeEntries(c, index, order)|
    ensures var entry, rest := EncodeEntry(c, order[0], index[order[0]]), EncodeEntries(c, index, order[1..]);
            && (k < |entry| ==> EncodeEntries(c, index, order)[..k] == entry[..k])
            && (|entry| <= k ==>
                  k - |entry| < |rest| && EncodeEntries(c, index, order)[..k] == entry + rest[..k - |entry|])
  {
    CutConcat(EncodeEntry(c, order[0], index[order[0]]), EncodeEntries(c, index, order[1..]), k);
  }

  lemma {:induction false} EntriesTruncated(c: Codec, index: Index, order: seq<Key>, done: Index, k: nat)
    requires Storable(c, index) && forall key :: key in order ==> key in index
    requires k < |EncodeEntries(c, index, order)|
    ensures BreaksOff(c, |order|, EncodeEntries(c, index, order)[..k], done)
    decreases |order|
  {
    var key := order[0];
    var size := |EncodeEntry(c, key, index[key])|;
    EntriesLength(c, index, order);
    if k < size {
      EntriesCut(c, index, order, k);
      EntryTruncated(c, |order|, key, index[key], k, done);
    } else {
      EntriesTruncated(c, index, order[1..], done[key := index[key]], k - size);
      NextTruncated(c, index, order, done, k);
    }
  }

  lemma EntriesLength(c: Codec, index: Index, order: seq<Key>)
    requires order != [] && forall key :: key in order ==> key in index
    ensures |EncodeEntries(c, index, order)|
            == |EncodeEntry(c, order[0], index[order[0]])| + |EncodeEntries(c, index, order[1..])|
  {
  }

  lemma NextTruncated(c: Codec, index: Index, order: seq<Key>, done: Index, k: nat)
    requires Storable(c, index) && order != [] && forall key :: key in order ==> key in index
    requires |EncodeEntry(c, order[0], index[order[0]])| <= k < |EncodeEntries(c, index, order)|
    requires var size := |EncodeEntry(c, order[0], index[order[0]])|;
             && k - size <= |EncodeEntries(c, index, order[1..])|
             && BreaksOff(c, |order[1..]|, EncodeEntries(c, index, order[1..])[..k - size],
                          done[order[0] := index[order[0]]])
    ensures BreaksOff(c, |order|, EncodeEntries(c, index, order)[..k], done)
  {
    var key := order[0];
    var entry := EncodeEntry(c, key, index[key]);
    var n, rest := |order[1..]|, EncodeEntries(c, index, order[1..])[..k - |entry|];
    assert EncodeEntries(c, index, order)[..k] == entry + rest by {
      EntriesCut(c, index, order, k);
    }
    RestTruncated(c, |order|, n, key, index[key], rest, done);
  }

  lemma RestTruncated(c: Codec, n: nat, m: nat, key: Key, r: Record, rest: seq<Byte>, done: Index)
    requires n == m + 1 && |key| < U64_LIMIT && |c.encode(r)| < U64_LIMIT && c.decode(c.encode(r)) == Some(r)
    requires BreaksOff(c, m, rest, done[key := r])
    ensures BreaksOff(c, n, EncodeEntry(c, key, r) + rest, done)
  {
    EntryRoundTrip(c, n, m, key, r, rest, done);
  }

  /** Decoding n entries runs out of data. */
  predicate BreaksOff(c: Codec, n: nat, bs: seq<Byte>, index: Index) {
    var r := DecodeEntries(c, n, bs, index);
    r.Err? && r.error.NotEnoughData?
  }

  lemma RestoreReads(c: Codec, n: nat, rest: seq<Byte>)
    requires n < U64_LIMIT
    ensures Restore(c, EncodeU64(n) + rest) == DecodeEntries(c, n, rest, map[])
  {
    U64RoundTrip(n, rest);
  }

  /** A checkpoint that breaks off anywhere is refused, never restored to a smaller index. */
  lemma TruncatedCheckpointRefused(c: Codec, index: Index, order: seq<Key>, k: nat)
    requires Storable(c, index) && Enumerates(order, index) && k < |Encode(c, index, order)|
    ensures var r := Restore(c, Encode(c, index, order)[..k]); r.Err? && r.error.NotEnoughData?
  {
    if 8 <= k {
      EnumerationSize(order, index);
      var entries := EncodeEntries(c, index, order);
      EntriesTruncated(c, index, order, map[], k - 8);
      assert Encode(c, index, order)[..k] == EncodeU64(|index|) + entries[..k - 8] by {
        CutConcat(EncodeU64(|index|), entries, k);
      }
      RestoreReads(c, |index|, entries[..k - 8]);
    }
  }

  // ---------------------------------------------------------------- the layout of a checkpoint

  /** Where the i-th entry begins: after the number of entries, and after the entries before it. */
  function Offset(c: Codec, index: Index, order: seq<Key>, i: nat): nat
    requires i <= |order| && forall k :: k in order ==> k in index
  {
    if i == 0 then 8
    else Offset(c, index, order, i - 1) + 16 + |order[i - 1]| + |c.encode(index[order[i - 1]])|
  }

  lemma {:induction false} OffsetTail(c: Codec, index: Index, order: seq<Key>, i: nat)
    requires 0 < i <= |order| && forall k :: k in order ==> k in index
    ensures Offset(c, index, order, i)
            == 16 + |order[0]| + |c.encode(index[order[0]])| + Offset(c, index, order[1..], i - 1)
  {
    if 1 < i {
      OffsetTail(c, index, order, i - 1);
      assert order[1..][i - 2] == order[i - 1];
    }
  }

  /** Four parts one after the other, within a longer sequence. */
  lemma FourParts(head: seq<Byte>, a: seq<Byte>, b: seq<Byte>, c: seq<Byte>, d: seq<Byte>, after: seq<Byte>)
    ensures var bs := head + ((a + b) + (c + d)) + after;
            var p := |head|;
            var q := p + |a|;
            var r := q + |b|;
            var t := r + |c|;
            && t + |d| <= |bs| && bs[..p] == head
            && bs[p..q] == a && bs[q..r] == b && bs[r..t] == c && bs[t..t + |d|] == d
  {
  }

  lemma Regroup(a: seq<Byte>, b: seq<Byte>, c: seq<Byte>, d: seq<Byte>)
    ensures a + (b + c + d) == (a + b) + c + d
  {
  }

  /** The entries before, the i-th entry, and the entries after it. */
  lemma {:induction false} EntriesSplit(c: Codec, index: Index, order: seq<Key>, i: nat)
    returns (before: seq<Byte>, after: seq<Byte>)
    requires i < |order| && forall k :: k in order ==> k in index
    ensures EncodeEntries(c, index, order) == before + EncodeEntry(c, order[i], index[order[i]]) + after
    ensures |before| + 8 == Offset(c, index, order, i)
  {
    var first := EncodeEntry(c, order[0], index[order[0]]);
    if i == 0 {
      before, after := [], EncodeEntries(c, index, order[1..]);
      assert [] + first + after == first + after;
    } else {
      before, after := EntriesSplit(c, index, order[1..], i - 1);
      OffsetTail(c, index, order, i);
      assert order[1..][i - 1] == order[i];
      Regroup(first, before, EncodeEntry(c, order[i], index[order[i]]), after);
      before := first + before;
    }
  }

  /** A key and a record's data stand at this place: the length and bytes of either. */
  ghost predicate EntryAt(bs: seq<Byte>, o: nat, key: seq<Byte>, data: seq<Byte>) {
    var d := o + 8 + |key|;
    && d + 8 + |data| <= |bs|
    && bs[o..o + 8] == LeBytes(|key|, 8) && bs[o + 8..d] == key
    && bs[d..d + 8] == LeBytes(|data|, 8) && bs[d + 8..d + 8 + |data|] == data
  }

  lemma EntryLayout(head: seq<Byte>, key: seq<Byte>, data: seq<Byte>, after: seq<Byte>)
    ensures var bs := head + (EncodeVec(key) + EncodeVec(data)) + after;
            EntryAt(bs, |head|, key, data) && bs[..|head|] == head
  {
    FourParts(head, LeBytes(|key|, 8), key, LeBytes(|data|, 8), data, after);
  }

  lemma FirstPart(bs: seq<Byte>, a: seq<Byte>, b: seq<Byte>)
    requires |a| + |b| <= |bs| && bs[..|a| + |b|] == a + b
    ensures bs[..|a|] == a
  {
    assert bs[..|a|] == bs[..|a| + |b|][..|a|] == (a + b)[..|a|];
  }

  /** The bytes of a checkpoint: the number of entries; then for each key its length and bytes, and the length and
      bytes of its encoded record; every number in eight bytes, the least significant first. */
  lemma CheckpointLayout(c: Codec, index: Index, order: seq<Key>, i: nat)
    requires Enumerates(order, index) && i < |order|
    ensures var bs := Encode(c, index, order);
            && 8 <= |bs| && bs[..8] == LeBytes(|index|, 8)
            && EntryAt(bs, Offset(c, index, order, i), order[i], c.encode(index[order[i]]))
  {
    var before, after := EntriesSplit(c, index, order, i);
    var count, entry := EncodeU64(|index|), EncodeEntry(c, order[i], index[order[i]]);
    assert Encode(c, index, order) == count + before + entry + after by {
      Regroup(count, before, entry, after);
    }
    EntryLayout(count + before, order[i], c.encode(index[order[i]]), after);
    FirstPart(Encode(c, index, order), count, before);
  }

  // ---------------------------------------------------------------- the writer object

  method ReadRecord(c: Codec, cursor: Cursor) returns (r: Result<Record, DeserializationError>)
    modifies cursor
    ensures match DecodeRecord(c, old(cursor.data))
            case Err(e) => r == Err(e)
            case Ok(p) => r == Ok(p.value) && cursor.data == p.rest
  {
    var data := cursor.ReadVec();
    if data.Err? {
      return Err(data.error);
    }
    var record := c.decode(data.value);
    return if record.None? then Err(Bincode) else Ok(record.value);
  }

  method ReadEntries(c: Codec, cursor: Cursor, n: nat) returns (r: Result<Index, DeserializationError>)
    modifies cursor
    ensures r == DecodeEntries(c, n, old(cursor.data), map[])
  {
    var loaded: Index := map[];
    for i := 0 to n
      invariant DecodeEntries(c, n - i, cursor.data, loaded) == DecodeEntries(c, n, old(cursor.data), map[])
    {
      var key := cursor.ReadVec();
      if key.Err? {
        return Err(key.error);
      }
      var record := ReadRecord(c, cursor);
      if record.Err? {
        return Err(record.error);
      }
      loaded := loaded[key.value := record.value];
    }
    return Ok(loaded);
  }

  class RecordWriter {
    const codec: Codec
    var index: Index

    constructor (codec: Codec)
      ensures this.codec == codec && index == map[]
    {
      this.codec := codec;
      index := map[];
    }

    /** `new` with checkpoint data; on an error there is no writer. */
    method Load(checkpoint: seq<Byte>) returns (r: Result<(), DeserializationError>)
      modifies this
      ensures match Restore(codec, checkpoint)
              case Err(e) => r == Err(e) && index == old(index)
              case Ok(i) => r == Ok(()) && index == i
    {
      var cursor := new Cursor(checkpoint);
      var len := cursor.ReadU64();
      if len.Err? {
        return Err(len.error);
      }
      var loaded := ReadEntries(codec, cursor, len.value);
      if loaded.Err? {
        return Err(loaded.error);
      }
      index := loaded.value;
      return Ok(());
    }

    method Apply(op: Operation) returns (r: Result<Operation, WriteError>)
      modifies this
      ensures (r, index) == Write(codec, old(index), op)
    {
      match op
      case Insert(n) =>
        index := index[codec.key(n) := n];
        return Ok(Insert(n));
      case Delete(o) =>
        var key := codec.key(o);
        if key !in index {
          return Err(RecordNotFound);
        }
        var stored := index[key];
        index := index - {key};
        return Ok(Delete(stored));
      case Update(o, n) =>
        var key := codec.key(o);
        if key !in index {
          return Err(RecordNotFound);
        }
        var stored := index[key];
        index := index - {key};
        index := index[codec.key(n) := n];
        return Ok(Update(stored, n));
      case BatchInsert(news) =>
        var records := [];
        for i := 0 to |news|
          invariant index == PutAll(codec, old(index), news[..i]) && records == news[..i]
        {
          index := index[codec.key(news[i]) := news[i]];
          records := records + [news[i]];
          assert news[..i + 1][..i] == news[..i];
        }
        assert news[..|news|] == news;
        return Ok(BatchInsert(records));
    }

    method Save(order: seq<Key>) returns (bytes: seq<Byte>)
      requires Enumerates(order, index)
      ensures bytes == Encode(codec, index, order)
    {
      bytes := EncodeU64(|index|);
      var i := 0;
      while i < |order|
        invariant 0 <= i <= |order|
        invariant bytes == Encode(codec, index, order[..i])
      {
        EncodeNext(codec, index, order, i);
        bytes := bytes + (EncodeVec(order[i]) + EncodeVec(codec.encode(index[order[i]])));
        i := i + 1;
      }
      assert order[..i] == order;
    }
  }

  lemma {:induction false} EncodeEntriesConcat(c: Codec, index: Index, a: seq<Key>, k: Key)
    requires k in index && forall key :: key in a ==> key in index
    ensures EncodeEntries(c, index, a + [k]) == EncodeEntries(c, index, a) + EncodeEntry(c, k, index[k])
  {
    if a == [] {
      assert a + [k] == [k];
    } else {
      assert (a + [k])[1..] == a[1..] + [k];
      EncodeEntriesConcat(c, index, a[1..], k);
    }
  }

  lemma EncodeNext(c: Codec, index: Index, order: seq<Key>, i: nat)
    requires Enumerates(order, index) && i < |order|
    ensures Encode(c, index, order[..i + 1]) == Encode(c, index, order[..i]) + EncodeEntry(c, order[i], index[order[i]])
  {
    assert order[..i + 1] == order[..i] + [order[i]];
    EncodeEntriesConcat(c, index, order[..i], order[i]);
  }
}
