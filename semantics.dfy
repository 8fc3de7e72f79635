/** What each high-level operation of the wrapper layer does, as a function of
    the state of the world (the server's remaining replies and the calls made
    so far) and, for table operations, of the table's cached hash attribute.
    The handle classes in module Handles are proved to behave exactly so. */
module Semantics {
  import opened Values
  import opened Server

  /** The same for a table operation, with the table's cached hash attribute. */
  datatype TOut<T> = TOut(result: Result<T>, world: World, cache: Json)

  /** What `upsert` hands back, as the hash values of the record handles. */
  datatype Upserted = NoRecord | OneRecord(hash: Json) | RecordList(hashes: seq<Json>)

  const CreatedTime: string := "__createdtime__"
  const UpdatedTime: string := "__updatedtime__"

  predicate IsTimestampKey(k: string) {
    k == CreatedTime || k == UpdatedTime
  }

  function RecordNotFoundMessage(hash: Json, schema: Json, table: Json): string {
    "record with hash \"" + Str(hash) + "\" not found in \"" + Str(schema) + "." + Str(table) + "\""
  }

  function HashNotFoundMessage(hash: Json): string {
    "Hash value \"" + Str(hash) + "\" not found"
  }

  /** A request whose answer is only checked for failure. */
  function Command(w: World, c: Call): (o: Out<()>)
    ensures o.world.log == w.log + [c]
  {
    var e := Exchange(w, c);
    Out(if e.result.Err? then Err(e.result.error) else Ok(()), e.world)
  }

  // ---------------------------------------------------------------- database

  /** A dict's keys after `d[k] = ...`. */
  function KeyPut(ks: seq<string>, k: string): seq<string> {
    if k in ks then ks else ks + [k]
  }

  /** The keys of the dict `_get_schemas` fills from the items of a
      `describe_all` answer, one assignment per item. */
  function SchemaNames(items: seq<(string, Json)>): seq<string>
    decreases |items|
  {
    if items == [] then []
    else KeyPut(SchemaNames(items[..|items| - 1]), items[|items| - 1].0)
  }

  predicate Distinct(ks: seq<string>) {
    forall i, j :: 0 <= i < j < |ks| ==> ks[i] != ks[j]
  }

  /** The keys of a dict are distinct, and every item's key is one of them. */
  lemma {:induction false} SchemaNamesDistinct(items: seq<(string, Json)>)
    ensures Distinct(SchemaNames(items))
    ensures forall i :: 0 <= i < |items| ==> items[i].0 in SchemaNames(items)
    decreases |items|
  {
    if items != [] {
      var init := items[..|items| - 1];
      SchemaNamesDistinct(init);
      forall i | 0 <= i < |items| - 1
        ensures items[i].0 in SchemaNames(items)
      {
        assert items[i] == init[i];
      }
    }
  }

  /** `_get_schemas`: the names of the schemas it wraps in handles. */
  function GetSchemasSpec(w: World): Out<seq<string>> {
    var e := Exchange(w, DescribeAll);
    Out((var body :- e.result;
         if body.JObj? then Ok(SchemaNames(body.entries)) else Err(AttributeError)),
        e.world)
  }

  /** `len(database)`. */
  function DatabaseLenSpec(w: World): Out<nat> {
    var o := GetSchemasSpec(w);
    Out(if o.result.Err? then Err(o.result.error) else Ok(|o.result.value|), o.world)
  }

  // ------------------------------------------------------------------ schema

  /** A `describe_schema` answer as a list of table descriptions: a dict
      answer is taken as its values, a list answer as it is. */
  function NormalizeTables(body: Json): (r: Result<seq<Json>>)
    ensures body.JList? ==> r == Ok(body.items)
    ensures body.JObj? ==> r == Ok(Vals(body.entries))
    ensures r.Ok? ==> Len(body) == Ok(|r.value|)
  {
    if body.JList? then Ok(body.items)
    else if body.JObj? then Ok(Vals(body.entries))
    else Err(AttributeError)
  }

  /** `iter(schema)`: the table descriptions the iterator will walk. */
  function SchemaTablesSpec(schema: Json, w: World): Out<seq<Json>> {
    var e := Exchange(w, DescribeSchema(schema));
    Out((var body :- e.result; NormalizeTables(body)), e.world)
  }

  /** `len(schema)`. */
  function SchemaLenSpec(schema: Json, w: World): Out<nat> {
    var e := Exchange(w, DescribeSchema(schema));
    Out((var body :- e.result; Len(body)), e.world)
  }

  /** The name and hash attribute of the table handle built from one table
      description. */
  function TableEntry(entry: Json): Result<(Json, Json)> {
    var name :- Subscript(entry, JStr("name"));
    var hashAttribute :- Subscript(entry, JStr("hash_attribute"));
    Ok((name, hashAttribute))
  }

  // ------------------------------------------------------------------- table

  /** The `hash_attribute` property: the cached value while it is truthy,
      otherwise one `describe_table` request whose answer is cached. */
  function HashAttributeSpec(cache: Json, schema: Json, table: Json, w: World): TOut<Json> {
    if Truthy(cache) then TOut(Ok(cache), w, cache)
    else
      var e := Exchange(w, DescribeTable(schema, table));
      match (var body :- e.result; Subscript(body, JStr("hash_attribute")))
      case Err(err) => TOut(Err(err), e.world, cache)
      case Ok(v) => TOut(Ok(v), e.world, v)
  }

  /** `table.delete(k)` and `del table[k]`. */
  function TableDeleteSpec(schema: Json, table: Json, k: Json, w: World): Out<()> {
    var e := Exchange(w, Delete(schema, table, JList([k])));
    Out((var body :- e.result;
         var skipped :- Subscript(body, JStr("skipped_hashes"));
         if Truthy(skipped) then Err(HarperDBError(HashNotFoundMessage(k))) else Ok(())),
        e.world)
  }

  /** `len(table)` and `record_count`. */
  function TableLenSpec(schema: Json, table: Json, w: World): Out<nat> {
    var e := Exchange(w, DescribeTable(schema, table));
    Out((var body :- e.result;
         var count :- Subscript(body, JStr("record_count"));
         LenOfDunder(count)),
        e.world)
  }

  /** A property read straight from a `describe_table` answer: `id`,
      `__createdtime__`, `__updatedtime__`. */
  function DescribeFieldSpec(schema: Json, table: Json, field: string, w: World): Out<Json> {
    var e := Exchange(w, DescribeTable(schema, table));
    Out((var body :- e.result; Subscript(body, JStr(field))), e.world)
  }

  /** The attribute names the `attributes` loop keeps, in order. */
  function AttributeNames(attributes: seq<Json>): Result<seq<Json>> {
    if attributes == [] then Ok([])
    else
      var a :- Subscript(attributes[0], JStr("attribute"));
      var rest :- AttributeNames(attributes[1..]);
      if a == JStr(CreatedTime) || a == JStr(UpdatedTime) then Ok(rest) else Ok([a] + rest)
  }

  /** The `attributes` property. */
  function AttributesSpec(schema: Json, table: Json, w: World): Out<seq<Json>> {
    var e := Exchange(w, DescribeTable(schema, table));
    Out((var body :- e.result;
         var attributes :- Subscript(body, JStr("attributes"));
         var items :- Iterate(attributes);
         AttributeNames(items)),
        e.world)
  }

  /** Puts `x` in front of a successful list result. */
  function Prepend(x: Json, o: TOut<seq<Json>>): TOut<seq<Json>> {
    TOut(if o.result.Ok? then Ok([x] + o.result.value) else o.result, o.world, o.cache)
  }

  /** Puts `xs` in front of a successful list result. */
  function PrependAll(xs: seq<Json>, o: TOut<seq<Json>>): TOut<seq<Json>> {
    TOut(if o.result.Ok? then Ok(xs + o.result.value) else o.result, o.world, o.cache)
  }

  lemma PrependAllNil(o: TOut<seq<Json>>)
    ensures PrependAll([], o) == o
  {
    if o.result.Ok? {
      assert [] + o.result.value == o.result.value;
    }
  }

  lemma PrependAllStep(xs: seq<Json>, x: Json, o: TOut<seq<Json>>)
    ensures PrependAll(xs, Prepend(x, o)) == PrependAll(xs + [x], o)
  {
    if o.result.Ok? {
      assert xs + ([x] + o.result.value) == (xs + [x]) + o.result.value;
    }
  }

  /** One `__next__` call on an iterator over `n` elements whose index is
      `index`: the position it yields (None for StopIteration) and the new
      index. */
  function NextStep(index: nat, n: nat): (Option<nat>, nat) {
    if index < n then (Some(index), index + 1) else (None, 0)
  }

  /** `k` successive `__next__` calls: what each yields, and the final index. */
  function NextCalls(index: nat, n: nat, k: nat): (seq<Option<nat>>, nat)
    decreases k
  {
    if k == 0 then ([], index)
    else
      var step := NextStep(index, n);
      var rest := NextCalls(step.1, n, k - 1);
      ([step.0] + rest.0, rest.1)
  }

  /** The hash values `search_by_value` reads from its rows, reading the
      `hash_attribute` property once per row. */
  function RowHashesSpec(rows: seq<Json>, cache: Json, schema: Json, table: Json, w: World): TOut<seq<Json>>
    decreases |rows|
  {
    if rows == [] then TOut(Ok([]), w, cache)
    else
      var h := HashAttributeSpec(cache, schema, table, w);
      if h.result.Err? then TOut(Err(h.result.error), h.world, h.cache)
      else match Subscript(rows[0], h.result.value)
        case Err(e) => TOut(Err(e), h.world, h.cache)
        case Ok(k) => Prepend(k, RowHashesSpec(rows[1..], h.cache, schema, table, h.world))
  }

  /** `table.search_by_value(attribute, value)`: the hash values of the
      record handles it returns. */
  function SearchByValueSpec(attribute: Json, value: Json, cache: Json, schema: Json, table: Json, w: World): TOut<seq<Json>> {
    var e := Exchange(w, SearchByValue(schema, table, attribute, value, AllAttributes));
    match (var body :- e.result; Iterate(body))
    case Err(err) => TOut(Err(err), e.world, cache)
    case Ok(rows) => RowHashesSpec(rows, cache, schema, table, e.world)
  }

  /** `[str(h) for h in hashes]`. */
  function Stringify(hashes: seq<Json>): (r: seq<string>)
    ensures |r| == |hashes|
    ensures forall i :: 0 <= i < |hashes| ==> r[i] == Str(hashes[i])
  {
    seq(|hashes|, i requires 0 <= i < |hashes| => Str(hashes[i]))
  }

  /** `record.get(hash_attribute) in skipped_hashes`: only a string equals a
      string, so a missing key (None) or a non-string value never matches. */
  predicate InSkipped(v: Option<Json>, skipped: seq<string>) {
    v.Some? && v.value.JStr? && v.value.s in skipped
  }

  /** The records `upsert` sends to `update`, reading the `hash_attribute`
      property once per record. */
  function UpdateCandidatesSpec(records: seq<Json>, skipped: seq<string>, cache: Json, schema: Json, table: Json, w: World): TOut<seq<Json>>
    decreases |records|
  {
    if records == [] then TOut(Ok([]), w, cache)
    else if !records[0].JObj? then TOut(Err(AttributeError), w, cache)
    else
      var h := HashAttributeSpec(cache, schema, table, w);
      if h.result.Err? then TOut(Err(h.result.error), h.world, h.cache)
      else match Get(records[0], h.result.value)
        case Err(e) => TOut(Err(e), h.world, h.cache)
        case Ok(v) =>
          var rest := UpdateCandidatesSpec(records[1..], skipped, h.cache, schema, table, h.world);
          if InSkipped(v, skipped) then Prepend(records[0], rest) else rest
  }

  /** The list `upsert` sends to `insert`: a list as it is, anything else
      as a one-element list. */
  function Batch(records: Json): seq<Json> {
    if records.JList? then records.items else [records]
  }

  /** The stringified `inserted_hashes` and `skipped_hashes` of an insert answer. */
  function InsertOutcome(r: Result<Json>): Result<(seq<string>, seq<string>)> {
    var body :- r;
    var inserted :- Subscript(body, JStr("inserted_hashes"));
    var insertedItems :- Iterate(inserted);
    var skipped :- Subscript(body, JStr("skipped_hashes"));
    var skippedItems :- Iterate(skipped);
    Ok((Stringify(insertedItems), Stringify(skippedItems)))
  }

  /** The `update_hashes` of an update answer, as `+=` extends a list with them. */
  function UpdateOutcome(r: Result<Json>): Result<seq<Json>> {
    var body :- r;
    var updated :- Subscript(body, JStr("update_hashes"));
    Iterate(updated)
  }

  /** `upserted_hashes`: the inserted hashes, stringified, then the updated ones. */
  function UpsertedHashes(inserted: seq<string>, updated: seq<Json>): seq<Json> {
    seq(|inserted|, i requires 0 <= i < |inserted| => JStr(inserted[i])) + updated
  }

  /** A list in, a list out; a single record in, its first hash or nothing out. */
  function Shape(records: Json, hashes: seq<Json>): Upserted {
    if records.JList? then RecordList(hashes)
    else if hashes != [] then OneRecord(hashes[0])
    else NoRecord
  }

  /** `table.upsert(records)`. */
  function UpsertSpec(records: Json, cache: Json, schema: Json, table: Json, w: World): TOut<Upserted> {
    var batch := Batch(records);
    var e := Exchange(w, Insert(schema, table, JList(batch)));
    match InsertOutcome(e.result)
    case Err(err) => TOut(Err(err), e.world, cache)
    case Ok(hashes) =>
      var inserted := hashes.0;
      var skipped := hashes.1;
      if skipped == [] then TOut(Ok(Shape(records, UpsertedHashes(inserted, []))), e.world, cache)
      else
        var f := UpdateCandidatesSpec(batch, skipped, cache, schema, table, e.world);
        if f.result.Err? then TOut(Err(f.result.error), f.world, f.cache)
        else
          var e2 := Exchange(f.world, Update(schema, table, JList(f.result.value)));
          match UpdateOutcome(e2.result)
          case Err(err) => TOut(Err(err), e2.world, f.cache)
          case Ok(updated) => TOut(Ok(Shape(records, UpsertedHashes(inserted, updated))), e2.world, f.cache)
  }

  // ------------------------------------------------------------------ record

  /** The request every record read makes. */
  function HashQuery(schema: Json, table: Json, hash: Json): Call {
    SearchByHash(schema, table, JList([hash]), AllAttributes)
  }

  /** `record[key]`: an IndexError anywhere in `rows[0][key]` becomes the
      not-found HarperDBError. */
  function FieldSpec(schema: Json, table: Json, hash: Json, key: Json, w: World): Out<Json> {
    var e := Exchange(w, HashQuery(schema, table, hash));
    Out((var rows :- e.result;
         var v := (var row :- Subscript(rows, JInt(0)); Subscript(row, key));
         if v == Err(IndexError) then Err(HarperDBError(RecordNotFoundMessage(hash, schema, table))) else v),
        e.world)
  }

  /** `record[key] = value`: `update` receives the bare mapping `{key: value}`. */
  function SetFieldSpec(schema: Json, table: Json, key: Json, value: Json, w: World): Out<()> {
    if !Hashable(key) then Out(Err(TypeError), w)
    else Command(w, Update(schema, table, JObj([(JsonKey(key), value)])))
  }

  /** `record.delete()`: the answer is not inspected. */
  function RecordDeleteSpec(schema: Json, table: Json, hash: Json, w: World): Out<()> {
    Command(w, Delete(schema, table, JList([hash])))
  }

  /** The dict the `to_dict` loop builds from a row's items. */
  function WithoutTimestamps(items: seq<(string, Json)>): seq<(string, Json)>
    decreases |items|
  {
    if items == [] then []
    else
      var d := WithoutTimestamps(items[..|items| - 1]);
      var last := items[|items| - 1];
      if IsTimestampKey(last.0) then d else DictPut(d, last.0, last.1)
  }

  /** `record.to_dict()`: the first row, unguarded, without its timestamps. */
  function ToDictSpec(schema: Json, table: Json, hash: Json, w: World): Out<seq<(string, Json)>> {
    var e := Exchange(w, HashQuery(schema, table, hash));
    Out((var rows :- e.result;
         var row :- Subscript(rows, JInt(0));
         if row.JObj? then Ok(WithoutTimestamps(row.entries)) else Err(AttributeError)),
        e.world)
  }

  /** The record's `__createdtime__` or `__updatedtime__` property. */
  function RecordTimestampSpec(schema: Json, table: Json, hash: Json, field: string, w: World): Out<Json> {
    var e := Exchange(w, HashQuery(schema, table, hash));
    Out((var rows :- e.result;
         var first := Subscript(rows, JInt(0));
         if first == Err(IndexError) then Err(HarperDBError(HashNotFoundMessage(hash)))
         else var row :- first; Subscript(row, JStr(field))),
        e.world)
  }
}
