# Airtable tool server: large-response cache and response formatting, in Dafny

The server exposes a remote tabular-data API (bases, tables, fields, records)
as tools for an agent. Large schema responses are held in an in-memory cache
and served back in bounded, line-aligned chunks. All other results are
rendered as short text summaries.

This project models three parts of the server and proves their properties:

- **The cache (`SchemaCache`).** It is a class holding the entry map and the
  insertion order of the JavaScript `Map`. Its operations:
  - store a fetched schema with its summary and size;
  - compute the chunks lazily and memoise them on the first chunk request;
  - report unknown ids and bad offsets as error values;
  - evict entries older than 30 minutes after every store;
  - list the live entries.
- **The chunking loop (`splitIntoChunks`).** It is an imperative method
  checked against a fold over the lines of the text. The proved properties:
  - size bound: a chunk over the limit is a single line;
  - no chunk is empty;
  - greedy packing;
  - the exact-fit boundary;
  - round trip: joining the chunks with newlines gives back the text,
    provided no line is empty.
- **The response helpers and field tables:**
  - preview truncation;
  - the list and record summaries;
  - the text of a cached schema chunk;
  - the normalisation of a field definition;
  - the field-type tables it relies on.

The modules and their files:

| file | module | what it holds |
|---|---|---|
| `wrappers.dfy` | `Wrappers` | `Option` and `Result` |
| `text.dfy` | `Text` | JavaScript string operations: `split('\n')`, `join`, `slice`, decimal rendering of integers |
| `js_values.dfy` | `JsValues` | JSON values, member access, truthiness, text conversion |
| `chunking.dfy` | `Chunking` | `splitIntoChunks` and its properties |
| `schema_cache.dfy` | `Cache` | `SchemaCache` and the pure functions that specify it |
| `field_types.dfy` | `FieldTypes` | `FieldType`, `fieldRequiresOptions`, `getDefaultOptions`, `validateFieldOptions` |
| `airtable_server.dfy` | `Server` | `truncateResponse`, `formatErrorResponse`, `formatListResponse`, `formatRecordsResponse`, the cached-chunk branch of `get_base_schema`, `validateField` |

Three parameters stand in for things the model cannot see:

- **`serialize: Value -> string`** is `JSON.stringify(·, null, 2)`. The cache
  is constructed with it, and every formatter that pretty-prints a value takes it as an argument.
  `stringify: Value -> string` is the compact `JSON.stringify(·)` that
  `validateField` uses for its error message. Nothing is assumed about
  either.
- **`now: int`** is the clock. It is an argument of `FetchAndStore`,
  `CleanOldEntries` and `ListCached`.
- **`data`** is the response of the HTTP request. `FetchAndStore` takes it
  as an argument.

Some behaviours of the code are easy to miss, and the model keeps them:

- **Empty lines can be lost.** The chunking loop splits at newlines so as
  not to break the JSON apart (the comment at `src/index.ts:111`). It drops
  an empty line that arrives while the running chunk is empty. That happens
  in two cases:
  - a leading empty line (`Chunking.LeadingEmptyLineLost`);
  - an empty line right after a chunk was closed. If it is the last line, it
    leaves an empty running chunk, and that chunk is never pushed.

  Joining the chunks is therefore guaranteed to restore the text only when
  no line is empty (`Chunking.ChunksRoundTrip`), which covers pretty-printed
  JSON. Empty lines inside a chunk are kept.
- **Same-millisecond stores overwrite.** A cache id is the base id, a dash
  and the store time in milliseconds. Two stores of the same base in the same
  millisecond share an id, and `Map.set` replaces the first entry
  (`Cache.SchemaCache.Set`).
- **Short arrays get a non-positive count.** For an over-long array the
  preview keeps the first three items and prints how many are left out (the
  comment at `src/index.ts:269`). An array of at most three items whose
  serialization is still over the limit is printed whole, with a count of
  `0` or less (`Server.ItemsLeftOutCount`).
- **The summary preview is never cut.** The list and record summaries pass
  at most three items to `truncateResponse` with a cap of 3000. When their
  serialization is over the cap, the array branch serializes the same items
  again. It only drops the closing bracket and adds a "0 more items" notice
  (or a negative count). So the cap never shortens the preview
  (`Server.PreviewNeverCut`).
- **Expired entries are still served.** Eviction runs only after a store.
  `getChunk` and `getSummary` never look at an entry's age, so an entry older
  than MAX_AGE is served until the next store sweeps it away
  (`Cache.SchemaCache.GetChunk`, `Cache.SchemaCache.GetSummary`).

## Model

| member | source | states |
|---|---|---|
| Chunking.SplitIntoChunks | src/index.ts:108-129 | The loop computes the line fold `Chunks(text)`. Every chunk is non-empty and is either at most 15000 characters or a single line. Packing is greedy. Under `NoEmptyLines(text)`, joining with `"\n"` returns `text`. |
| Chunking.ChunksWellSized | src/index.ts:116-126 | No chunk is empty. A chunk longer than CHUNK_SIZE holds no newline. |
| Chunking.ChunksRoundTrip | src/index.ts:112-128 | If no line of the text is empty, joining the chunks with newlines gives back the text. |
| Chunking.ChunksOfEmpty | src/index.ts:112-128 | The empty text has zero chunks. |
| Chunking.LeadingEmptyLineLost | src/index.ts:120 | `"\n" + l` chunks to `[l]`, so the round trip fails without the no-empty-line precondition. |
| Chunking.ChunksGreedy | src/index.ts:116 | For every chunk but the last, its length + 1 + the length of the next chunk's first line exceeds CHUNK_SIZE. |
| Chunking.ExactFitStaysTogether | src/index.ts:116 | Two lines totalling exactly CHUNK_SIZE with their newline form one chunk. |
| Chunking.OneOverSplits | src/index.ts:116-118 | One character more and they become two chunks, split at the newline. |
| Chunking.OversizedLineAlone | src/index.ts:115-126 | A non-empty line without a newline is exactly one chunk, whatever its length. |
| Cache.Summarize | src/index.ts:46-55 | The summary carries the base id and `tableCount`, which is `tables?.length` or 0. Whenever the summary does not throw, that equals the number of tables. It has one `{id, name, fieldCount, viewCount}` row per table, in order. Absent tables give 0. |
| Cache.RowOf | src/index.ts:143-147 | The reported age is the floor of the elapsed milliseconds divided by 60000. |
| Cache.RetrieveFrom | src/index.ts:90-99 | Asking for offset k and following `hasMore` collects exactly the chunks from k on. |
| Cache.RetrieveAll | src/index.ts:90-99 | From offset 0, following `hasMore` collects every chunk once, in order. Without empty lines, joining them gives back the serialization. |
| Cache.SchemaCache.constructor | src/index.ts:28-34 | The cache starts empty and valid. |
| Cache.SchemaCache.Set | src/index.ts:62-67 | `Map.set` replaces the entry. A new id goes to the end of the iteration order and an existing id keeps its place. |
| Cache.SchemaCache.Delete | src/index.ts:135 | `Map.delete` removes the id from the map and from the order. |
| Cache.SchemaCache.CleanOldEntries | src/index.ts:131-138 | Afterwards every entry is at most MAX_AGE old and was there before. Every entry that was young is still present and unchanged. The order keeps the young ids in their old order. The state stays valid. |
| Cache.RetainYoung | src/index.ts:131-138 | The sweep keeps exactly the entries at most MAX_AGE old, and keeps them unchanged. |
| Cache.SchemaCache.FetchAndStore | src/index.ts:39-76 | Data that makes the summary throw gives a failure and no change. Otherwise it returns `baseId + "-" + now`, and the new entry is present with its summary, its timestamp, no chunks and `totalSize` equal to the length of `serialize(data)`. `getSummary` then returns that summary. The map afterwards is the sweep of the map with the entry set. |
| Cache.SchemaCache.GetChunk | src/index.ts:78-101 | An unknown id gives the not-found error and no change. Otherwise chunks are computed once and memoised; when already present, nothing changes. Offsets at or past the number of chunks give "Invalid chunk offset". Any other offset gives `chunkIndex = offset`, `totalChunks` the number of chunks, `hasMore` iff the offset is before the last chunk and chunk `chunks[offset]` for a non-negative offset. |
| Cache.SchemaCache.GetSummary | src/index.ts:103-106 | The summary is returned exactly when the id is cached, and it is that entry's stored summary; an unknown id gives `None` (`null`). The entry's age is not checked. |
| Cache.SchemaCache.ListCached | src/index.ts:140-149 | One row per entry, in insertion order, with `RowOf` values. The set of ids listed is the set of cached ids. |
| Server.TruncateResponse | src/index.ts:263-278 | A serialization that fits is returned unchanged. An over-long non-array gives its first `maxLength` characters followed by the truncation notice. An over-long array gives the serialization of its first three items without its last character, followed by the items-left-out notice with the count `length - 3`, and nothing else. |
| Server.ItemsLeftOutCount | src/index.ts:270-273 | For more than three items the count reads back as `length - 3` and the first three items are kept. Up to three items are all kept, and the count is negative exactly when there are fewer than three. |
| Server.PreviewNeverCut | src/index.ts:263-273 | For at most three items whose serialization exceeds the cap, the preview is longer than the cap. It starts with the whole serialization minus its closing bracket. |
| Server.FormatErrorResponse | src/index.ts:289-297 | The result is flagged as an error and reads the failed operation, then the message, and nothing else. |
| Server.FormatListResponse | src/index.ts:299-338 | A non-array or empty list gives the "No … found" text. Otherwise the text starts with the count header and the labels of all items, joined with `", "`, and ends with the next-steps hints of the operation. In between is the "Detailed info for first N" preview: N is at most 3, and the preview is `truncateResponse` of the first three items with a cap of 3000, which never shortens them. Nothing else is in the text. Every item's label occurs in the text at its own offset after the header. |
| Server.Summary | src/index.ts:310-314 | A summary text is its header, the items joined with `", "`, its middle part and its tail, in that order. Item i occurs at the header length plus its offset in the joined list. |
| Text.JoinOffsetNext | src/index.ts:314 | In a list joined with a separator, item i+1 starts right after item i and the separator, so the labels and ids appear in list order. |
| Server.LabelNamePrecedence | src/index.ts:311-313 | A label starts with the item's `name` if truthy, else its `title` if truthy, else `itemType index+1`. It ends with ` (id)`, the id being empty when not truthy. |
| Server.FormatRecordsResponse | src/index.ts:340-371 | An absent or empty record list gives the "No records found" text. Otherwise the text starts with the count header and all record ids, and ends with the pagination line. In between are the "Detailed info for first N records" preview (N is at most 3, and the preview is `truncateResponse` of the first three records with a cap of 3000, which never shortens them) and the Next Steps block naming the base and table. Nothing else is in the text. Every record's id occurs in the text at its own offset after the header. |
| Server.PaginationIffOffset | src/index.ts:361 | The text ends in "All records shown" iff `offset` is falsy. When `offset` is truthy, it ends with the instruction naming that offset. |
| Server.RenderChunkReply | src/index.ts:1615-1628 | An error reply becomes a `get_base_schema` error response. A chunk reply starts with "Schema Chunk k+1/N" and the chunk ("undefined" when absent), and ends with the next-offset hint or "Complete schema retrieved", with nothing between. It ends in "Complete schema retrieved" iff `hasMore` is false. |
| Server.ChunkHintIffMore | src/index.ts:1620-1626 | The text ends in "Complete schema retrieved" iff there are no more chunks. The hinted offset k+1 holds the next chunk, and after the last chunk it is invalid. |
| Server.GetBaseSchemaChunk | src/index.ts:1601-1629 | The branch is taken iff `cache_id` is truthy and `chunk_offset` is given. An unknown id gives the not-found error response. Otherwise it renders `getChunk`'s reply on the memoised chunks and leaves the cache valid. |
| Server.ValidateField | src/index.ts:191-214 | Type names and strings that need no options have their options removed. Falsy options get the type's defaults. Truthy options are kept iff they pass `validateFieldOptions`, else the "Invalid options" error with the compact JSON of the options. Name, type and description are preserved. |
| Server.ValidatedOptionsPass | src/index.ts:191-214 | Options on an accepted field always pass the check. An accepted field has no options exactly when its type takes none, or is formula/rollup/lookup/multipleRecordLinks/count given without options. |
| Server.ValidateFieldIdempotent | src/index.ts:191-214 | Normalising an accepted field again returns it unchanged. |
| FieldTypes.ParseTypeName | src/types.ts:3-44 | Each type's name parses back to that type, and only that name does. |
| FieldTypes.RequiresOptionsTable | src/types.ts:54-98 | Options are not required exactly for singleLineText, multilineText, email, phoneNumber, richText, url, attachment and autoNumber. |
| FieldTypes.DefaultsValidate | src/types.ts:102-220 | Every default options object that exists passes `validateFieldOptions` for its type. |
| FieldTypes.MissingDefaults | src/types.ts:164-169 | The types that require options but have no defaults are exactly formula, rollup, lookup, multipleRecordLinks and count. autoNumber gets `{}` but needs no options. |
| FieldTypes.CurrencySymbolUnchecked | src/types.ts:175-184 | Currency options are valid iff number options are: `precision` is a number in [0, 8]. The symbol is never checked. |
| FieldTypes.RatingAndSelectRules | src/types.ts:186-197 | Rating needs a numeric `max` in [1, 10]. The select types need a non-empty `choices` array. |
| FieldTypes.LinkedFieldRules | src/types.ts:202-215 | Rollup, lookup, multipleRecordLinks and count options are valid iff they are an object holding the type's required members. Valid rollup options are valid lookup options, which are valid count options. |
| FieldTypes.FormulaRule | src/types.ts:199-200 | Formula options are valid iff they are an object whose `formula` member is a string. |
| FieldTypes.UncheckedTypesAccept | src/types.ts:217-218 | Every other type accepts any options. |

## Left out

- HTTP: the GET request inside `fetchAndStore`, `getTablesMinimal` and every handler that only forwards to the remote API are not modelled. The fetched data is an argument instead.
- Tool schema registration, server setup, stdio transport, signal handling and the startup credential check: declarative data and process plumbing.
- `JSON.stringify` is the abstract `serialize` parameter. Nothing is assumed about its output, which is why the round trip is stated for texts without empty lines rather than for serializations.
- Clock: `Date.now()` is the parameter `now`. `fetchAndStore` reads the clock three times (id, timestamp, sweep), and the model uses one value for all three.
- The rest of `get_base_schema`, rendering the summary after a store, and the kilobyte display `(totalSize / 1024).toFixed(1)`: floating-point formatting and text outside the cache.
- The `requestCount` loop detector: diagnostic bookkeeping whose result is never used.
- The constant colour and icon arrays of `src/types.ts`: no logic uses them.
- Test and build scripts: they spawn processes or change file modes.
- Numbers: JSON numbers are integers. Fractional values, `NaN` and `Infinity` are not modelled.
- Lengths: string lengths count Unicode scalar values, not UTF-16 code units. This affects emoji in the response texts and the size comparisons of `truncateResponse` and the chunking loop.
- JsValues.Get: reading a member of `null` yields `undefined` in the model. In the source it throws. The cache models the cases where the summary throws (`Cache.SummarizeThrows`). For a `null` list item or record the formatters print a label or an id, where the source throws.
- Cache.SummarizeTable: a `fields` or `views` member that is an object with its own `length` member is counted as 0.
- Server.FormatRecordsResponse: a `records` member that is truthy but not an array is treated as no records. In the source, `records.map` throws for such a value. The exception is an object whose `length` member is 0, which gives "No records found" as in the model.
- JsValues.Value: an object's members are a `map`, so their order is not kept. The output of `JSON.stringify` follows member order, which is why `serialize` and `stringify` are left abstract.
- Server.GetBaseSchemaChunk: models only the cached-chunk branch. A request that does not take it returns `None`.
- Uniqueness of cache ids is not claimed. Two stores with the same base id and clock value replace each other.
