/**
 * The large-response cache (`SchemaCache`): a JavaScript `Map` from cache id to
 * an entry holding a fetched base schema, its summary, its store time, its
 * memoised chunk list and the length of its serialization.
 *
 * The clock (`Date.now()`) is the parameter `now` of each operation, and
 * `JSON.stringify(data, null, 2)` is the function `serialize` the cache is
 * created with.
 */
module Cache {
  import opened Wrappers
  import opened Text
  import opened JsValues
  import Chunking

  /** Retention window: 30 minutes, in milliseconds. */
  const MAX_AGE: int := 30 * 60 * 1000

  /** Milliseconds in a minute, the unit of the age `listCached` reports. */
  const MINUTE: int := 60 * 1000

  const NOT_FOUND: string := "Cache entry not found. Please fetch the schema first."
  const INVALID_OFFSET: string := "Invalid chunk offset"

  /** What a store reports when the fetched data cannot be summarised (the server throws a TypeError). */
  const SHAPE_ERROR: string := "TypeError"

  datatype TableSummary = TableSummary(id: Option<Value>, name: Option<Value>, fieldCount: nat, viewCount: nat)

  datatype Summary = Summary(baseId: string, tableCount: nat, tables: seq<TableSummary>)

  datatype Entry = Entry(data: Value, summary: Summary, timestamp: int, chunks: Option<seq<string>>, totalSize: nat)

  /** The value `getChunk` returns: a chunk with its position, or an error object. */
  datatype ChunkReply =
    | ChunkFound(chunk: Option<string>, chunkIndex: int, totalChunks: nat, hasMore: bool, cacheId: string)
    | ChunkError(error: string)

  /** One row of `listCached`. */
  datatype CachedRow = CachedRow(cacheId: string, baseId: string, tableCount: nat, age: int, totalSize: nat)

  // ---- summary ---------------------------------------------------------------

  /** `data.tables` when it is an array; no tables when it is null or absent. */
  function Tables(data: Value): seq<Value>
  {
    match Get(data, "tables")
    case Some(Arr(ts)) => ts
    case _ => []
  }

  /**
   * Building the summary throws when `data` is null, when `data.tables` is
   * present but neither null nor an array (`.map` is not a function), or when
   * a table is null.
   */
  predicate SummarizeThrows(data: Value)
  {
    || data.Null?
    || (match Get(data, "tables") case None => false case Some(Null) => false case Some(Arr(_)) => false case Some(_) => true)
    || (exists i :: 0 <= i < |Tables(data)| && Tables(data)[i].Null?)
  }

  function SummarizeTable(t: Value): TableSummary
  {
    TableSummary(Get(t, "id"), Get(t, "name"), LengthOr0(Get(t, "fields")), LengthOr0(Get(t, "views")))
  }

  /** The shallow summary of a fetched schema: one row per table, in order. */
  function Summarize(baseId: string, data: Value): (s: Summary)
    ensures s.baseId == baseId
    ensures |s.tables| == |Tables(data)|
    ensures !SummarizeThrows(data) ==> s.tableCount == |s.tables|
    ensures forall i :: 0 <= i < |s.tables| ==>
      var t := Tables(data)[i];
      s.tables[i] == TableSummary(Get(t, "id"), Get(t, "name"), LengthOr0(Get(t, "fields")), LengthOr0(Get(t, "views")))
  {
    var ts := Tables(data);
    Summary(baseId, LengthOr0(Get(data, "tables")), seq(|ts|, i requires 0 <= i < |ts| => SummarizeTable(ts[i])))
  }

  // ---- eviction --------------------------------------------------------------

  predicate Young(e: Entry, now: int)
  {
    now - e.timestamp <= MAX_AGE
  }

  /** The entries an eviction sweep at time `now` keeps. */
  function Retain(m: map<string, Entry>, now: int): map<string, Entry>
  {
    map id | id in m && Young(m[id], now) :: m[id]
  }

  /** The entries left after the sweep has visited the ids in `visited`. */
  function Evict(m: map<string, Entry>, visited: seq<string>, now: int): map<string, Entry>
  {
    map id | id in m && (id !in visited || Young(m[id], now)) :: m[id]
  }

  predicate NoDuplicates(s: seq<string>)
  {
    forall i, j :: 0 <= i < j < |s| ==> s[i] != s[j]
  }

  /** The insertion order after the sweep: the ids whose entries are young, in their old order. */
  function KeepYoung(ids: seq<string>, m: map<string, Entry>, now: int): seq<string>
    requires forall i :: 0 <= i < |ids| ==> ids[i] in m
    decreases |ids|
  {
    if |ids| == 0 then []
    else
      var id := ids[|ids| - 1];
      var init := KeepYoung(ids[..|ids| - 1], m, now);
      if Young(m[id], now) then init + [id] else init
  }

  lemma {:induction false} KeepYoungMembers(ids: seq<string>, m: map<string, Entry>, now: int)
    requires forall i :: 0 <= i < |ids| ==> ids[i] in m
    ensures forall id :: id in KeepYoung(ids, m, now) <==> id in ids && Young(m[id], now)
    decreases |ids|
  {
    if |ids| > 0 {
      var init := ids[..|ids| - 1];
      KeepYoungMembers(init, m, now);
      assert ids == init + [ids[|ids| - 1]];
    }
  }

  /** The sweep keeps the insertion order free of duplicates. */
  lemma {:induction false} KeepYoungDistinct(ids: seq<string>, m: map<string, Entry>, now: int)
    requires forall i :: 0 <= i < |ids| ==> ids[i] in m
    requires NoDuplicates(ids)
    ensures NoDuplicates(KeepYoung(ids, m, now))
    decreases |ids|
  {
    if |ids| > 0 {
      var init := ids[..|ids| - 1];
      var id := ids[|ids| - 1];
      KeepYoungDistinct(init, m, now);
      KeepYoungMembers(init, m, now);
      assert id !in init by {
        forall j | 0 <= j < |init| ensures init[j] != id {
          assert init[j] == ids[j];
        }
      }
    }
  }

  /** `s` with every occurrence of `x` removed. */
  function RemoveValue(s: seq<string>, x: string): (r: seq<string>)
    ensures forall y :: y in r <==> y in s && y != x
    decreases |s|
  {
    if |s| == 0 then []
    else
      var init := RemoveValue(s[..|s| - 1], x);
      if s[|s| - 1] == x then init else init + [s[|s| - 1]]
  }

  lemma {:induction false} RemoveValueAbsent(s: seq<string>, x: string)
    requires x !in s
    ensures RemoveValue(s, x) == s
    decreases |s|
  {
    if |s| > 0 {
      RemoveValueAbsent(s[..|s| - 1], x);
      assert s == s[..|s| - 1] + [s[|s| - 1]];
    }
  }

  lemma {:induction false} RemoveValueConcat(a: seq<string>, b: seq<string>, x: string)
    ensures RemoveValue(a + b, x) == RemoveValue(a, x) + RemoveValue(b, x)
    decreases |b|
  {
    if |b| > 0 {
      var b' := b[..|b| - 1];
      assert (a + b)[..|a + b| - 1] == a + b';
      RemoveValueConcat(a, b', x);
    } else {
      assert a + b == a;
    }
  }

  /** Removing the one occurrence of `x` from `a + [x] + b`. */
  lemma RemoveValueMiddle(a: seq<string>, x: string, b: seq<string>)
    requires x !in a && x !in b
    ensures RemoveValue(a + [x] + b, x) == a + b
  {
    RemoveValueConcat(a + [x], b, x);
    RemoveValueConcat(a, [x], x);
    RemoveValueAbsent(a, x);
    RemoveValueAbsent(b, x);
    assert [x][..0] == [];
  }

  lemma DistinctLength(s: seq<string>)
    requires NoDuplicates(s)
    ensures |set x | x in s| == |s|
    decreases |s|
  {
    if |s| > 0 {
      var init := s[..|s| - 1];
      var last := s[|s| - 1];
      DistinctLength(init);
      assert last !in init by {
        forall j | 0 <= j < |init| ensures init[j] != last {
          assert init[j] == s[j];
        }
      }
      assert s == init + [last];
      assert (set x | x in s) == (set x | x in init) + {last};
    }
  }

  /** In a list without duplicates, element `i` occurs neither before nor after position `i`. */
  lemma NotElsewhere(ids: seq<string>, i: int)
    requires NoDuplicates(ids) && 0 <= i < |ids|
    ensures ids[i] !in ids[..i] && ids[i] !in ids[i + 1..]
  {
    forall j | 0 <= j < i ensures ids[..i][j] != ids[i] {
      assert ids[..i][j] == ids[j];
    }
    forall j | i + 1 <= j < |ids| ensures ids[j] != ids[i] {
    }
    var tail := ids[i + 1..];
    forall j | 0 <= j < |tail| ensures tail[j] != ids[i] {
      assert tail[j] == ids[i + 1 + j];
    }
  }

  /** What visiting `ids[i]` does to the entries. */
  lemma EvictStep(m: map<string, Entry>, ids: seq<string>, i: int, now: int)
    requires 0 <= i < |ids| && ids[i] in m && ids[i] !in ids[..i]
    ensures var id := ids[i];
      && id in Evict(m, ids[..i], now) && Evict(m, ids[..i], now)[id] == m[id]
      && Evict(m, ids[..i + 1], now)
         == if Young(m[id], now) then Evict(m, ids[..i], now) else Evict(m, ids[..i], now) - {id}
  {
    var id := ids[i];
    assert ids[..i + 1] == ids[..i] + [id];
    var before, after := Evict(m, ids[..i], now), Evict(m, ids[..i + 1], now);
    if Young(m[id], now) {
      assert forall k :: k in after <==> k in before;
    } else {
      assert forall k :: k in after <==> k in before && k != id;
    }
  }

  /** What visiting `ids[i]` does to the insertion order. */
  lemma OrderStep(m: map<string, Entry>, ids: seq<string>, i: int, now: int)
    requires NoDuplicates(ids) && 0 <= i < |ids|
    requires forall k :: 0 <= k < |ids| ==> ids[k] in m
    ensures var id := ids[i];
      KeepYoung(ids[..i + 1], m, now) + ids[i + 1..]
      == if Young(m[id], now) then KeepYoung(ids[..i], m, now) + ids[i..]
         else RemoveValue(KeepYoung(ids[..i], m, now) + ids[i..], id)
  {
    var id := ids[i];
    NotElsewhere(ids, i);
    assert ids[..i + 1][..i] == ids[..i];
    assert ids[i..] == [id] + ids[i + 1..];
    var kept := KeepYoung(ids[..i], m, now);
    if Young(m[id], now) {
      assert kept + [id] + ids[i + 1..] == kept + ([id] + ids[i + 1..]);
    } else {
      KeepYoungMembers(ids[..i], m, now);
      RemoveValueMiddle(kept, id, ids[i + 1..]);
      assert kept + [id] + ids[i + 1..] == kept + ([id] + ids[i + 1..]);
    }
  }

  /** The sweep keeps exactly the entries at most MAX_AGE old, unchanged. */
  lemma RetainYoung(m: map<string, Entry>, now: int)
    ensures forall id :: id in Retain(m, now) ==> id in m && now - Retain(m, now)[id].timestamp <= MAX_AGE
    ensures forall id :: id in m && now - m[id].timestamp <= MAX_AGE ==>
      id in Retain(m, now) && Retain(m, now)[id] == m[id]
  {
  }

  /** Once every id has been visited, the sweep has kept exactly the young entries. */
  lemma SweepDone(m: map<string, Entry>, ids: seq<string>, now: int)
    requires forall id :: id in m ==> id in ids
    ensures Evict(m, ids, now) == Retain(m, now)
  {
  }

  // ---- chunk retrieval -------------------------------------------------------

  /** The reply to `getChunk(cacheId, offset)` once the entry's chunks are known. */
  function Reply(chunks: seq<string>, offset: int, cacheId: string): ChunkReply
  {
    if offset >= |chunks| then ChunkError(INVALID_OFFSET)
    else ChunkFound(if offset >= 0 then Some(chunks[offset]) else None,
                    offset, |chunks|, offset < |chunks| - 1, cacheId)
  }

  /**
   * The chunks a client collects by asking for `offset` and, while the reply
   * says `hasMore`, for the next offset, as the retrieval instructions say.
   */
  function Retrieve(chunks: seq<string>, cacheId: string, offset: nat): seq<string>
    decreases |chunks| - offset
  {
    var r := Reply(chunks, offset, cacheId);
    if r.ChunkError? then []
    else [r.chunk.value] + (if r.hasMore then Retrieve(chunks, cacheId, offset + 1) else [])
  }

  lemma {:induction false} RetrieveFrom(chunks: seq<string>, cacheId: string, offset: nat)
    requires offset <= |chunks|
    ensures Retrieve(chunks, cacheId, offset) == chunks[offset..]
    decreases |chunks| - offset
  {
    if offset < |chunks| - 1 {
      RetrieveFrom(chunks, cacheId, offset + 1);
      assert chunks[offset..] == [chunks[offset]] + chunks[offset + 1..];
    }
  }

  /**
   * Starting at offset 0 and following `hasMore` visits every chunk once, in
   * order; when no line of the serialization is empty, joining what was
   * collected with newlines gives back the whole serialization.
   */
  lemma RetrieveAll(text: string, cacheId: string)
    ensures Retrieve(Chunking.Chunks(text), cacheId, 0) == Chunking.Chunks(text)
    ensures Chunking.NoEmptyLines(text) ==> Join(Retrieve(Chunking.Chunks(text), cacheId, 0), "\n") == text
  {
    RetrieveFrom(Chunking.Chunks(text), cacheId, 0);
    assert Chunking.Chunks(text)[0..] == Chunking.Chunks(text);
    if Chunking.NoEmptyLines(text) {
      Chunking.ChunksRoundTrip(text);
    }
  }

  /** The row `listCached` reports for one entry. */
  function RowOf(id: string, e: Entry, now: int): (row: CachedRow)
    ensures row.age * MINUTE <= now - e.timestamp < (row.age + 1) * MINUTE
  {
    CachedRow(id, e.summary.baseId, e.summary.tableCount, (now - e.timestamp) / MINUTE, e.totalSize)
  }

  function RowsOf(ids: seq<string>, m: map<string, Entry>, now: int): (rows: seq<CachedRow>)
    requires forall i :: 0 <= i < |ids| ==> ids[i] in m
    ensures |rows| == |ids|
    ensures forall i :: 0 <= i < |ids| ==> rows[i] == RowOf(ids[i], m[ids[i]], now)
  {
    seq(|ids|, i requires 0 <= i < |ids| => RowOf(ids[i], m[ids[i]], now))
  }

  class SchemaCache {
    /** The entries, by cache id. */
    var cache: map<string, Entry>
    /** The insertion order of the ids, in which a JavaScript `Map` iterates. */
    var order: seq<string>
    /** `JSON.stringify(·, null, 2)`. */
    const serialize: Value -> string

    /** Each entry's size is that of its serialization, and memoised chunks are those of its serialization. */
    predicate Consistent(e: Entry)
    {
      && e.totalSize == |serialize(e.data)|
      && (e.chunks.Some? ==> e.chunks.value == Chunking.Chunks(serialize(e.data)))
    }

    /** The ids in `o` are those of `c`, each once, and every entry of `c` is consistent. */
    ghost predicate ValidState(c: map<string, Entry>, o: seq<string>)
    {
      && NoDuplicates(o)
      && (forall id :: id in c <==> id in o)
      && (forall id :: id in c ==> Consistent(c[id]))
    }

    ghost predicate Valid()
      reads this
    {
      ValidState(cache, order)
    }

    /** The sweep leaves a valid state valid. */
    lemma SweepValid(m: map<string, Entry>, ids: seq<string>, now: int)
      requires ValidState(m, ids)
      ensures ValidState(Retain(m, now), KeepYoung(ids, m, now))
    {
      KeepYoungMembers(ids, m, now);
      KeepYoungDistinct(ids, m, now);
    }

    /** The state once the sweep has visited every id is the retained state, and it is valid. */
    lemma SweepEnd(m: map<string, Entry>, ids: seq<string>, now: int, c: map<string, Entry>, o: seq<string>)
      requires ValidState(m, ids)
      requires c == Evict(m, ids[..|ids|], now) && o == KeepYoung(ids[..|ids|], m, now) + ids[|ids|..]
      ensures c == Retain(m, now) && o == KeepYoung(ids, m, now)
      ensures ValidState(c, o)
    {
      assert ids[..|ids|] == ids;
      assert ids[|ids|..] == [];
      assert o == KeepYoung(ids, m, now);
      SweepDone(m, ids, now);
      SweepValid(m, ids, now);
    }

    constructor (serialize: Value -> string)
      ensures Valid()
      ensures this.serialize == serialize && cache == map[] && order == []
    {
      this.serialize := serialize;
      cache := map[];
      order := [];
    }

    /** `Map.set`: a new id goes to the end of the order, an existing one keeps its place. */
    method Set(id: string, e: Entry)
      requires Valid() && Consistent(e)
      modifies this
      ensures Valid()
      ensures cache == old(cache)[id := e]
      ensures order == if id in old(cache) then old(order) else old(order) + [id]
    {
      if id !in cache {
        order := order + [id];
      }
      cache := cache[id := e];
    }

    /** `Map.delete`. */
    method Delete(id: string)
      modifies this
      ensures cache == old(cache) - {id}
      ensures order == RemoveValue(old(order), id)
    {
      cache := cache - {id};
      order := RemoveValue(order, id);
    }

    /** Removes every entry older than MAX_AGE at time `now`, visiting the ids in insertion order. */
    method CleanOldEntries(now: int)
      requires Valid()
      modifies this
      ensures Valid()
      ensures cache == Retain(old(cache), now)
      ensures order == KeepYoung(old(order), old(cache), now)
      ensures forall id :: id in cache ==> id in old(cache) && now - cache[id].timestamp <= MAX_AGE
      ensures forall id :: id in old(cache) && now - old(cache)[id].timestamp <= MAX_AGE ==>
        id in cache && cache[id] == old(cache)[id]
    {
      var ids := order;
      ghost var m := cache;
      var i := 0;
      while i < |ids|
        invariant 0 <= i <= |ids|
        invariant NoDuplicates(ids) && forall k :: 0 <= k < |ids| ==> ids[k] in m
        invariant cache == Evict(m, ids[..i], now)
        invariant order == KeepYoung(ids[..i], m, now) + ids[i..]
      {
        var id := ids[i];
        NotElsewhere(ids, i);
        EvictStep(m, ids, i, now);
        OrderStep(m, ids, i, now);
        if now - cache[id].timestamp > MAX_AGE {
          Delete(id);
        }
        i := i + 1;
      }
      SweepEnd(m, ids, now, cache, order);
      RetainYoung(m, now);
    }

    /**
     * Stores a fetched schema under `baseId + "-" + now`, with its summary and
     * serialized size and no chunks yet, then runs the eviction sweep.
     */
    method FetchAndStore(baseId: string, data: Value, now: int) returns (r: Result<string, string>)
      requires Valid()
      modifies this
      ensures Valid()
      ensures SummarizeThrows(data) ==>
        r == Failure(SHAPE_ERROR) && cache == old(cache) && order == old(order)
      ensures !SummarizeThrows(data) ==>
        var id := baseId + "-" + IntToString(now);
        var stored := old(cache)[id := Entry(data, Summarize(baseId, data), now, None, |serialize(data)|)];
        && r == Success(id)
        && cache == Retain(stored, now)
        && order == KeepYoung(if id in old(cache) then old(order) else old(order) + [id], stored, now)
      ensures r.Success? ==>
        && r.value in cache
        && cache[r.value] == Entry(data, Summarize(baseId, data), now, None, |serialize(data)|)
        && GetSummary(r.value) == Some(Summarize(baseId, data))
    {
      if SummarizeThrows(data) {
        return Failure(SHAPE_ERROR);
      }
      var summary := Summarize(baseId, data);
      var cacheId := baseId + "-" + IntToString(now);
      var fullJson := serialize(data);
      Set(cacheId, Entry(data, summary, now, None, |fullJson|));
      CleanOldEntries(now);
      r := Success(cacheId);
    }

    /**
     * Returns chunk `offset` of an entry, computing and memoising the entry's
     * chunks on the first call; unknown ids and offsets past the end are
     * reported as error values.
     */
    method GetChunk(cacheId: string, offset: int) returns (r: ChunkReply)
      requires Valid()
      modifies this
      ensures Valid() && order == old(order)
      ensures cacheId !in old(cache) ==> r == ChunkError(NOT_FOUND) && cache == old(cache)
      ensures cacheId in old(cache) ==>
        var e := old(cache)[cacheId];
        var cs := Chunking.Chunks(serialize(e.data));
        && cache == old(cache)[cacheId := e.(chunks := Some(cs))]
        && (e.chunks.Some? ==> cache == old(cache))
        && r == Reply(cs, offset, cacheId)
      ensures cacheId in cache ==>
        var cs := cache[cacheId].chunks.value;
        && (r.ChunkError? <==> offset >= |cs|)
        && (r.ChunkError? ==> r.error == INVALID_OFFSET)
        && (r.ChunkFound? ==>
              && r.chunkIndex == offset && r.totalChunks == |cs| && r.cacheId == cacheId
              && (r.hasMore <==> offset < |cs| - 1)
              && (0 <= offset ==> r.chunk == Some(cs[offset])))
    {
      if cacheId !in cache {
        return ChunkError(NOT_FOUND);
      }
      var cached := cache[cacheId];
      var chunks: seq<string>;
      if cached.chunks.None? {
        chunks := Chunking.SplitIntoChunks(serialize(cached.data));
        cache := cache[cacheId := cached.(chunks := Some(chunks))];
      } else {
        chunks := cached.chunks.value;
      }
      if offset >= |chunks| {
        return ChunkError(INVALID_OFFSET);
      }
      r := ChunkFound(if offset >= 0 then Some(chunks[offset]) else None,
                      offset, |chunks|, offset < |chunks| - 1, cacheId);
    }

    /** The summary stored for `cacheId`, or `None` (JavaScript `null`) for an unknown id. */
    function GetSummary(cacheId: string): (r: Option<Summary>)
      reads this
      ensures r.Some? <==> cacheId in cache
      ensures r.Some? ==> r.value == cache[cacheId].summary
    {
      if cacheId in cache then Some(cache[cacheId].summary) else None
    }

    /** One row per live entry, in insertion order, with its age in whole minutes at time `now`. */
    function ListCached(now: int): (rows: seq<CachedRow>)
      reads this
      requires Valid()
      ensures |rows| == |order| == |cache|
      ensures forall i :: 0 <= i < |rows| ==> order[i] in cache && rows[i] == RowOf(order[i], cache[order[i]], now)
      ensures (set i | 0 <= i < |rows| :: rows[i].cacheId) == cache.Keys
    {
      DistinctLength(order);
      assert (set x | x in order) == cache.Keys;
      var rows := RowsOf(order, cache, now);
      assert forall id :: id in cache.Keys ==> exists i :: 0 <= i < |order| && order[i] == id && rows[i].cacheId == id;
      rows
    }
  }
}
