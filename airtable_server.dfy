/**
 * The response-building helpers of the tool server (`AirtableServer`): the
 * size-capped preview of a value, the list and record summaries, the text of
 * a cached schema chunk, and the normalisation of a field definition before
 * it is sent to the remote API.
 *
 * `JSON.stringify(·, null, 2)` is the parameter `serialize` of every function
 * that pretty-prints a value; the compact `JSON.stringify(·)` of the options
 * in a rejected field definition is the parameter `stringify`.
 */
module Server {
  import opened Wrappers
  import opened Text
  import opened JsValues
  import opened FieldTypes
  import Cache
  import Chunking

  /** The text content of a tool result, and whether it is flagged as an error. */
  datatype ToolResponse = ToolResponse(text: string, isError: bool)

  // ---- preview truncation ----------------------------------------------------

  const TRUNCATION_NOTICE: string := "\n... (response truncated due to size)"
  const ITEMS_NOTICE_HEAD: string := "\n  ... ("
  const ITEMS_NOTICE_TAIL: string := " more items truncated)\n]"

  /** The cap the list and record summaries give `truncateResponse` for their preview. */
  const DETAIL_MAX: int := 3000

  /** `xs.slice(0, 3)`. */
  function Take3(xs: seq<Value>): (r: seq<Value>)
    ensures |r| == if |xs| < 3 then |xs| else 3
    ensures r == xs[..|r|]
  {
    if |xs| <= 3 then xs else xs[..3]
  }

  /**
   * `truncateResponse(data, maxLength)`: the serialization when it fits;
   * otherwise, for an array, the serialization of its first three items with
   * the closing bracket replaced by a count of the items left out, and for
   * anything else the first `maxLength` characters and a notice.
   */
  function TruncateResponse(serialize: Value -> string, data: Value, maxLength: int): (r: string)
    ensures |serialize(data)| <= maxLength ==> r == serialize(data)
    ensures |serialize(data)| > maxLength && !data.Arr? && maxLength >= 0 ==>
      && StartsWith(r, serialize(data)[..maxLength])
      && |r| == maxLength + |TRUNCATION_NOTICE|
      && EndsWith(r, TRUNCATION_NOTICE)
    ensures |serialize(data)| > maxLength && data.Arr? ==>
      var head := serialize(Arr(Take3(data.elems)));
      && StartsWith(r, JsSlice(head, 0, -1) + ITEMS_NOTICE_HEAD)
      && EndsWith(r, IntToString(|data.elems| - 3) + ITEMS_NOTICE_TAIL)
      && |r| == |JsSlice(head, 0, -1)| + |ITEMS_NOTICE_HEAD| + |IntToString(|data.elems| - 3)| + |ITEMS_NOTICE_TAIL|
  {
    var json := serialize(data);
    if |json| <= maxLength then json
    else if data.Arr? then
      var head := JsSlice(serialize(Arr(Take3(data.elems))), 0, -1);
      var r := head + ITEMS_NOTICE_HEAD + IntToString(|data.elems| - 3) + ITEMS_NOTICE_TAIL;
      assert r == (head + ITEMS_NOTICE_HEAD) + (IntToString(|data.elems| - 3) + ITEMS_NOTICE_TAIL);
      r
    else
      JsSlice(json, 0, maxLength) + TRUNCATION_NOTICE
  }

  /**
   * The count an over-long array reports is the number of items beyond the
   * first three, read back from its digits; an array of at most three items
   * whose serialization is over the cap is reported with a count that is not
   * positive ("0" or a negative number), and all of its items are kept.
   */
  lemma ItemsLeftOutCount(elems: seq<Value>)
    ensures |elems| > 3 ==>
      var count := IntToString(|elems| - 3);
      AllDigits(count) && ParseDigits(count) == |elems| - 3 && Take3(elems) == elems[..3]
    ensures |elems| <= 3 ==>
      Take3(elems) == elems && (|elems| < 3 <==> !AllDigits(IntToString(|elems| - 3)))
  {
    if |elems| > 3 {
      ParseNatToString(|elems| - 3);
    }
  }

  /**
   * The preview of a summary is never cut by its cap: it is given at most
   * three items, so when their serialization is over DETAIL_MAX the array
   * branch serializes the same items again and only swaps the closing
   * bracket for the items-left-out notice.
   */
  lemma PreviewNeverCut(serialize: Value -> string, xs: seq<Value>)
    requires |serialize(Arr(Take3(xs)))| > DETAIL_MAX
    ensures var head := serialize(Arr(Take3(xs)));
      var p := TruncateResponse(serialize, Arr(Take3(xs)), DETAIL_MAX);
      |p| > DETAIL_MAX && StartsWith(p, head[..|head| - 1])
  {
    assert Take3(Take3(xs)) == Take3(xs);
  }

  // ---- error responses ---------------------------------------------------------

  /** `formatErrorResponse(error, operation)` for an error given by its message. */
  function FormatErrorResponse(message: string, operation: string): (r: ToolResponse)
    ensures r.isError
    ensures StartsWith(r.text, "❌ " + operation + " failed: ") && EndsWith(r.text, message)
    ensures |r.text| == |"❌ " + operation + " failed: "| + |message|
  {
    var prefix := "❌ " + operation + " failed: ";
    var r := ToolResponse(prefix + message, true);
    assert r.text[|prefix|..] == message;
    r
  }

  // ---- list summaries ----------------------------------------------------------

  /** `String(v || fallback)`: the text of a truthy value, or the fallback text. */
  function OrText(v: Option<Value>, fallback: string): string
  {
    if Truthy(v) then ToText(v.value) else fallback
  }

  /** How an item is named in a list summary: its `name`, else its `title`, else `itemType index+1`. */
  function ItemName(item: Value, itemType: string, index: nat): string
  {
    var fallback := itemType + " " + IntToString(index + 1);
    if Truthy(Get(item, "name")) then ToText(Get(item, "name").value) else OrText(Get(item, "title"), fallback)
  }

  /** `${name} (${id})`, with an empty id for an item without a truthy `id`. */
  function ItemLabel(item: Value, itemType: string, index: nat): string
  {
    ItemName(item, itemType, index) + " (" + OrText(Get(item, "id"), "") + ")"
  }

  function ItemLabels(items: seq<Value>, itemType: string): (ls: seq<string>)
    ensures |ls| == |items|
    ensures forall i :: 0 <= i < |items| ==> ls[i] == ItemLabel(items[i], itemType, i)
  {
    seq(|items|, i requires 0 <= i < |items| => ItemLabel(items[i], itemType, i))
  }

  /** The "Next Steps" hints that follow a list summary, by operation. */
  function ListNextSteps(operation: string, baseId: Option<string>): string
  {
    var hasBase := baseId.Some? && baseId.value != "";
    var b := if baseId.Some? then baseId.value else "";
    if operation == "list_tables" && hasBase then
      "\n\n\U{1F4CB} Next Steps:\n- Use list_fields with base_id=\"" + b + "\" and table_id=\"<table_id>\" to see fields\n- Use list_records with base_id=\"" + b + "\" and table_name=\"<table_name>\" to see data\n- Use get_base_schema with base_id=\"" + b + "\" for complete schema"
    else if operation == "list_records" then
      "\n\n\U{1F4CB} Next Steps:\n- Use get_record with record_id=\"<record_id>\" for full record details\n- Use search_records to filter by specific criteria\n- Use advanced_list_records for pagination and filtering"
    else if operation == "list_fields" && hasBase then
      "\n\n\U{1F4CB} Next Steps:\n- Use create_field to add new fields\n- Use update_field to modify existing fields\n- Use list_records to see how these fields are used"
    else if operation == "list_bases" then
      "\n\n\U{1F4CB} Next Steps:\n- Use list_tables with base_id=\"<base_id>\" to see tables in each base\n- Use get_base_schema with base_id=\"<base_id>\" for complete base structure"
    else ""
  }

  /**
   * The "Detailed info" part of a summary: how many items it shows (at most
   * three) and the preview of the first three, capped at DETAIL_MAX.
   */
  function Preview(serialize: Value -> string, xs: seq<Value>, noun: string): string
  {
    "\n\n\U{1F4CA} Detailed info for first " + IntToString(if |xs| < 3 then |xs| else 3) + noun + ":\n"
      + TruncateResponse(serialize, Arr(Take3(xs)), DETAIL_MAX)
  }

  /** The text before the joined item labels of a non-empty list summary. */
  function ListHead(operation: string, itemType: string, count: nat): string
  {
    "✅ " + operation + " completed: Found " + IntToString(count) + " " + itemType
      + "(s)\n\n\U{1F50D} All " + itemType + "s: "
  }

  /** `formatListResponse(items, operation, itemType, baseId)`. */
  function FormatListResponse(serialize: Value -> string, items: Value, operation: string, itemType: string,
                              baseId: Option<string>): (r: ToolResponse)
    ensures !r.isError
    ensures !items.Arr? || |items.elems| == 0 ==>
      r.text == "✅ " + operation + " completed: No " + itemType + " found."
    ensures items.Arr? && |items.elems| > 0 ==>
      var head := ListHead(operation, itemType, |items.elems|);
      && StartsWith(r.text, head + Join(ItemLabels(items.elems, itemType), ", "))
      && EndsWith(r.text, ListNextSteps(operation, baseId))
    ensures items.Arr? && |items.elems| > 0 ==>
      r.text == ListHead(operation, itemType, |items.elems|) + Join(ItemLabels(items.elems, itemType), ", ")
        + Preview(serialize, items.elems, "") + ListNextSteps(operation, baseId)
    ensures items.Arr? ==> ListedAfter(r.text, ListHead(operation, itemType, |items.elems|), ItemLabels(items.elems, itemType))
  {
    if !items.Arr? || |items.elems| == 0 then
      ToolResponse("✅ " + operation + " completed: No " + itemType + " found.", false)
    else
      var n := |items.elems|;
      var text := Summary(ListHead(operation, itemType, n), ItemLabels(items.elems, itemType),
                          Preview(serialize, items.elems, ""), ListNextSteps(operation, baseId));
      ToolResponse(text, false)
  }

  /** Every item appears in `text` at its own place in the list joined with ", " after `head`. */
  predicate ListedAfter(text: string, head: string, xs: seq<string>)
  {
    forall i :: 0 <= i < |xs| ==> OccursAt(xs[i], text, |head| + JoinOffset(xs, ", ", i))
  }

  /**
   * A summary text: a head, the items joined with ", ", a middle part and a
   * tail. Every item appears at its own place right after the head.
   */
  function Summary(head: string, xs: seq<string>, middle: string, tail: string): (s: string)
    ensures s == head + Join(xs, ", ") + middle + tail
    ensures StartsWith(s, head + Join(xs, ", ")) && EndsWith(s, tail)
    ensures ListedAfter(s, head, xs)
  {
    var joined := Join(xs, ", ");
    var prefix := head + joined;
    var s := Compose(prefix, middle, tail);
    SplitAtPrefix(s, prefix);
    forall i | 0 <= i < |xs|
      ensures OccursAt(xs[i], s, |head| + JoinOffset(xs, ", ", i))
    {
      JoinContains(xs, ", ", i);
      OccursInLonger(xs[i], joined, head, JoinOffset(xs, ", ", i));
      OccursInLonger(xs[i], prefix, s[|prefix|..], |head| + JoinOffset(xs, ", ", i));
    }
    s
  }

  /** The name in a label is the item's `name` if truthy, else its `title` if truthy, else `itemType index+1`. */
  lemma LabelNamePrecedence(item: Value, itemType: string, index: nat)
    ensures Truthy(Get(item, "name")) ==>
      StartsWith(ItemLabel(item, itemType, index), ToText(Get(item, "name").value) + " (")
    ensures !Truthy(Get(item, "name")) && Truthy(Get(item, "title")) ==>
      StartsWith(ItemLabel(item, itemType, index), ToText(Get(item, "title").value) + " (")
    ensures !Truthy(Get(item, "name")) && !Truthy(Get(item, "title")) ==>
      StartsWith(ItemLabel(item, itemType, index), itemType + " " + IntToString(index + 1) + " (")
    ensures EndsWith(ItemLabel(item, itemType, index), " (" + OrText(Get(item, "id"), "") + ")")
  {
    LabelShape(ItemName(item, itemType, index), OrText(Get(item, "id"), ""));
  }

  lemma LabelShape(name: string, id: string)
    ensures StartsWith(name + " (" + id + ")", name + " (")
    ensures EndsWith(name + " (" + id + ")", " (" + id + ")")
  {
    PrefixSuffix(name + " (", id + ")");
    PrefixSuffix(name, " (" + id + ")");
    assert name + " (" + id + ")" == (name + " (") + (id + ")") == name + (" (" + id + ")");
  }

  // ---- record summaries ----------------------------------------------------------

  /** `data.records || []`, for a response whose `records` is an array or absent. */
  function Records(data: Value): seq<Value>
  {
    match Get(data, "records")
    case Some(Arr(rs)) => rs
    case _ => []
  }

  function RecordIds(records: seq<Value>): (ids: seq<string>)
    ensures |ids| == |records|
    ensures forall i :: 0 <= i < |records| ==> ids[i] == JoinText(Get(records[i], "id"))
  {
    seq(|records|, i requires 0 <= i < |records| => JoinText(Get(records[i], "id")))
  }

  const ALL_SHOWN: string := "\n\n\U{1F4C4} Pagination: All records shown (no more pages)."

  function MoreRecords(offset: Option<Value>): string
  {
    "\n\n\U{1F4C4} Pagination: More records available. Use advanced_list_records with offset=\""
      + TemplateText(offset) + "\" to get next page."
  }

  /** The pagination line: how to get the next page when `offset` is truthy. */
  function PaginationInfo(offset: Option<Value>): string
  {
    if Truthy(offset) then MoreRecords(offset) else ALL_SHOWN
  }

  function RecordsHead(operation: string, tableName: string, count: nat): string
  {
    "✅ " + operation + " completed: Found " + IntToString(count) + " record(s) in \"" + tableName
      + "\"\n\n\U{1F50D} All record IDs: "
  }

  /** The "Next Steps" hints of a non-empty record summary. */
  function RecordsSteps(baseId: string, tableName: string): string
  {
    RECORDS_STEPS_1 + baseId + "\", table_name=\"" + tableName + RECORDS_STEPS_2
  }

  const RECORDS_STEPS_1: string := "\n\n\U{1F4CB} Next Steps:\n- Use get_record with base_id=\""
  const RECORDS_STEPS_2: string :=
    "\", record_id=\"<record_id>\" for full details\n- Use search_records to filter by field values\n- Use update_record or delete_record to modify data"

  /** `formatRecordsResponse(data, operation, baseId, tableName)`. */
  function FormatRecordsResponse(serialize: Value -> string, data: Value, operation: string, baseId: string,
                                 tableName: string): (r: ToolResponse)
    ensures !r.isError
    ensures |Records(data)| == 0 ==>
      r.text == "✅ " + operation + " completed: No records found in table \"" + tableName + "\"."
    ensures |Records(data)| > 0 ==>
      && StartsWith(r.text, RecordsHead(operation, tableName, |Records(data)|) + Join(RecordIds(Records(data)), ", "))
      && EndsWith(r.text, PaginationInfo(Get(data, "offset")))
    ensures |Records(data)| > 0 ==>
      r.text == RecordsHead(operation, tableName, |Records(data)|) + Join(RecordIds(Records(data)), ", ")
        + (Preview(serialize, Records(data), " records") + RecordsSteps(baseId, tableName))
        + PaginationInfo(Get(data, "offset"))
    ensures ListedAfter(r.text, RecordsHead(operation, tableName, |Records(data)|), RecordIds(Records(data)))
  {
    var records := Records(data);
    if |records| == 0 then
      ToolResponse("✅ " + operation + " completed: No records found in table \"" + tableName + "\".", false)
    else
      var n := |records|;
      var text := Summary(RecordsHead(operation, tableName, n), RecordIds(records),
                          Preview(serialize, records, " records") + RecordsSteps(baseId, tableName),
                          PaginationInfo(Get(data, "offset")));
      ToolResponse(text, false)
  }

  /** Two texts whose next-to-last characters differ cannot both end a text. */
  lemma EndsDiffer(text: string, a: string, b: string)
    requires |a| >= 2 && |b| >= 2 && a[|a| - 2] != b[|b| - 2]
    requires EndsWith(text, a)
    ensures !EndsWith(text, b)
  {
    assert text[|text| - |a|..][|a| - 2] == text[|text| - 2];
  }

  lemma MoreRecordsEnd(offset: Option<Value>)
    ensures |MoreRecords(offset)| >= 2 && MoreRecords(offset)[|MoreRecords(offset)| - 2] == 'e'
  {
    var tail := "\" to get next page.";
    var more := MoreRecords(offset);
    assert more == (more[..|more| - |tail|]) + tail;
  }

  /** A text ending in the pagination line ends in "All records shown" exactly when `offset` is falsy. */
  lemma PaginationEnd(text: string, offset: Option<Value>)
    requires EndsWith(text, PaginationInfo(offset))
    ensures EndsWith(text, ALL_SHOWN) <==> !Truthy(offset)
  {
    if Truthy(offset) {
      MoreRecordsEnd(offset);
      EndsDiffer(text, MoreRecords(offset), ALL_SHOWN);
    }
  }

  /**
   * A non-empty record summary says that more records are available, and
   * how to fetch them, exactly when the response carries a truthy `offset`;
   * otherwise it says that all records were shown.
   */
  lemma PaginationIffOffset(serialize: Value -> string, data: Value, operation: string, baseId: string, tableName: string)
    requires |Records(data)| > 0
    ensures var text := FormatRecordsResponse(serialize, data, operation, baseId, tableName).text;
      && (EndsWith(text, ALL_SHOWN) <==> !Truthy(Get(data, "offset")))
      && (Truthy(Get(data, "offset")) ==> EndsWith(text, MoreRecords(Get(data, "offset"))))
  {
    PaginationEnd(FormatRecordsResponse(serialize, data, operation, baseId, tableName).text, Get(data, "offset"));
  }

  // ---- cached schema chunks --------------------------------------------------------

  const COMPLETE: string := "✅ Complete schema retrieved"
  const NEXT_HINT: string := "➡️ Next chunk: use chunk_offset="

  function ChunkHeader(chunkIndex: int, totalChunks: nat): string
  {
    "\U{1F4C4} Schema Chunk " + IntToString(chunkIndex + 1) + "/" + IntToString(totalChunks) + "\n\n"
  }

  /** `${chunkData.chunk}`: a chunk missing at a negative offset prints as "undefined". */
  function ChunkText(chunk: Option<string>): string
  {
    if chunk.Some? then chunk.value else "undefined"
  }

  /** The tool result for a `getChunk` reply in the cached-chunk branch of `get_base_schema`. */
  function RenderChunkReply(r: Cache.ChunkReply): (resp: ToolResponse)
    ensures r.ChunkError? ==> resp == FormatErrorResponse(r.error, "get_base_schema")
    ensures r.ChunkFound? ==>
      && !resp.isError
      && StartsWith(resp.text, ChunkHeader(r.chunkIndex, r.totalChunks) + ChunkText(r.chunk) + "\n\n")
      && EndsWith(resp.text, if r.hasMore then NEXT_HINT + IntToString(r.chunkIndex + 1) else COMPLETE)
    ensures r.ChunkFound? ==> (EndsWith(resp.text, COMPLETE) <==> !r.hasMore)
    ensures r.ChunkFound? ==>
      |resp.text| == |ChunkHeader(r.chunkIndex, r.totalChunks) + ChunkText(r.chunk) + "\n\n"|
        + |if r.hasMore then NEXT_HINT + IntToString(r.chunkIndex + 1) else COMPLETE|
  {
    if r.ChunkError? then FormatErrorResponse(r.error, "get_base_schema")
    else
      var head := ChunkHeader(r.chunkIndex, r.totalChunks) + ChunkText(r.chunk) + "\n\n";
      var hint := if r.hasMore then NEXT_HINT + IntToString(r.chunkIndex + 1) else COMPLETE;
      var text := head + hint;
      assert text[..|head|] == head && text[|head|..] == hint;
      HintEnd(text, r.hasMore, r.chunkIndex + 1);
      ToolResponse(text, false)
  }

  /** A text ending in the hint ends in "Complete schema retrieved" exactly when there are no more chunks. */
  lemma HintEnd(text: string, hasMore: bool, next: int)
    requires EndsWith(text, if hasMore then NEXT_HINT + IntToString(next) else COMPLETE)
    ensures EndsWith(text, COMPLETE) <==> !hasMore
  {
    if hasMore {
      var hint := NEXT_HINT + IntToString(next);
      assert text[|text| - |hint|..][|hint| - 1] == text[|text| - 1];
      assert text[|text| - |COMPLETE|..][|COMPLETE| - 1] == text[|text| - 1] ==> EndsWith(text, COMPLETE) ==> false;
    }
  }

  /**
   * The rendered chunk tells the client to go on exactly when there are more
   * chunks, and the offset it names holds the next chunk.
   */
  lemma ChunkHintIffMore(chunks: seq<string>, offset: int, cacheId: string)
    requires Cache.Reply(chunks, offset, cacheId).ChunkFound?
    ensures var r := Cache.Reply(chunks, offset, cacheId);
      var text := RenderChunkReply(r).text;
      && (EndsWith(text, COMPLETE) <==> !r.hasMore)
      && (r.hasMore ==> EndsWith(text, NEXT_HINT + IntToString(offset + 1)))
      && (r.hasMore && offset >= -1 ==> Cache.Reply(chunks, offset + 1, cacheId).chunk == Some(chunks[offset + 1]))
      && (!r.hasMore ==> Cache.Reply(chunks, offset + 1, cacheId) == Cache.ChunkError(Cache.INVALID_OFFSET))
  {
  }

  /** The branch is taken when `cache_id` is truthy and `chunk_offset` is given. */
  predicate ChunkRequest(cacheId: Option<string>, chunkOffset: Option<int>)
  {
    cacheId.Some? && cacheId.value != "" && chunkOffset.Some?
  }

  /**
   * The cached-chunk branch of `get_base_schema`: `Some` response when the
   * branch is taken, `None` when the request goes on to the other branches.
   */
  method GetBaseSchemaChunk(c: Cache.SchemaCache, cacheId: Option<string>, chunkOffset: Option<int>)
    returns (resp: Option<ToolResponse>)
    requires c.Valid()
    modifies c
    ensures c.Valid() && c.order == old(c.order)
    ensures !ChunkRequest(cacheId, chunkOffset) ==> resp.None? && c.cache == old(c.cache)
    ensures ChunkRequest(cacheId, chunkOffset) && cacheId.value !in old(c.cache) ==>
      resp == Some(FormatErrorResponse(Cache.NOT_FOUND, "get_base_schema")) && c.cache == old(c.cache)
    ensures ChunkRequest(cacheId, chunkOffset) && cacheId.value in old(c.cache) ==>
      var e := old(c.cache)[cacheId.value];
      var cs := Chunking.Chunks(c.serialize(e.data));
      && c.cache == old(c.cache)[cacheId.value := e.(chunks := Some(cs))]
      && resp == Some(RenderChunkReply(Cache.Reply(cs, chunkOffset.value, cacheId.value)))
  {
    if !ChunkRequest(cacheId, chunkOffset) {
      return None;
    }
    var chunkData := c.GetChunk(cacheId.value, chunkOffset.value);
    resp := Some(RenderChunkReply(chunkData));
  }

  // ---- field normalisation --------------------------------------------------------

  /** A field definition as a tool call gives it; the type is any string. */
  datatype Field = Field(name: string, fieldType: string, description: Option<string>, options: Option<Value>)

  /** `fieldRequiresOptions(type as FieldType)`: a string naming no field type needs no options. */
  predicate RequiresOptions(fieldType: string)
  {
    match ParseFieldType(fieldType)
    case Some(t) => FieldRequiresOptions(t)
    case None => false
  }

  /** The error text for rejected options; `stringify` is the compact `JSON.stringify(·)`, without indentation. */
  function InvalidOptionsMessage(stringify: Value -> string, fieldType: string, options: Value): string
  {
    "Invalid options for field type " + fieldType + ": " + stringify(options)
  }

  /**
   * `validateField`: options are dropped for types that take none, filled in
   * with the defaults when missing, and otherwise checked; options that fail
   * the check are reported as the error the server throws.
   */
  function ValidateField(stringify: Value -> string, field: Field): (r: Result<Field, string>)
    ensures r.Success? ==>
      r.value.name == field.name && r.value.fieldType == field.fieldType && r.value.description == field.description
    ensures !RequiresOptions(field.fieldType) ==> r == Success(field.(options := None))
    ensures RequiresOptions(field.fieldType) && !Truthy(field.options) ==>
      r == Success(field.(options := GetDefaultOptions(ParseFieldType(field.fieldType).value)))
    ensures RequiresOptions(field.fieldType) && Truthy(field.options) ==>
      (r.Success? <==> ValidateFieldOptions(ParseFieldType(field.fieldType).value, field.options.value))
      && (r.Success? ==> r.value == field)
      && (r.Failure? ==> r.error == InvalidOptionsMessage(stringify, field.fieldType, field.options.value))
  {
    if !RequiresOptions(field.fieldType) then Success(field.(options := None))
    else
      var t := ParseFieldType(field.fieldType).value;
      if !Truthy(field.options) then Success(field.(options := GetDefaultOptions(t)))
      else if !ValidateFieldOptions(t, field.options.value) then
        Failure(InvalidOptionsMessage(stringify, field.fieldType, field.options.value))
      else Success(field)
  }

  /**
   * Every field `validateField` lets through carries options that pass the
   * options check, or none at all; it carries none exactly when its type
   * takes none or is one of the types without defaults given without options.
   */
  lemma ValidatedOptionsPass(stringify: Value -> string, field: Field)
    requires ValidateField(stringify, field).Success?
    ensures var g := ValidateField(stringify, field).value;
      && (g.options.Some? ==>
            RequiresOptions(g.fieldType) && ValidateFieldOptions(ParseFieldType(g.fieldType).value, g.options.value))
      && (g.options.None? <==>
            (|| !RequiresOptions(g.fieldType)
             || (!Truthy(field.options)
                 && ParseFieldType(g.fieldType).value in {Formula, Rollup, Lookup, MultipleRecordLinks, Count})))
  {
    if RequiresOptions(field.fieldType) {
      var t := ParseFieldType(field.fieldType).value;
      DefaultsValidate(t);
      MissingDefaults(t);
    }
  }

  /** Normalising a field a second time changes nothing. */
  lemma ValidateFieldIdempotent(stringify: Value -> string, field: Field)
    requires ValidateField(stringify, field).Success?
    ensures var g := ValidateField(stringify, field).value;
      ValidateField(stringify, g) == Success(g)
  {
    var g := ValidateField(stringify, field).value;
    if RequiresOptions(field.fieldType) {
      var t := ParseFieldType(field.fieldType).value;
      DefaultsValidate(t);
      if !Truthy(field.options) && g.options.Some? {
        assert g.options.value.Obj?;
      }
    }
  }
}
