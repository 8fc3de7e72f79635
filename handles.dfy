/** The object handles of the wrapper layer: a database bound to one server,
    schemas, tables and records named within it, and the two iterators.
    Handles hold no data of the server's; every method that needs some asks
    the server, and is proved to do exactly what module Semantics says. */
module Handles {
  import opened Values
  import opened Server
  import opened Semantics

  /** What `upsert` returns: nothing, one record handle, or a list of them. */
  datatype UpsertReturn = Nothing | Single(record: Record) | Several(records: seq<Record>)

  /** The dict `_get_schemas` builds: schema names, in insertion order, and
      the handle stored under each. */
  datatype SchemaDict = SchemaDict(names: seq<string>, handles: seq<Schema>)

  function IndexOf(ks: seq<string>, k: string): (p: nat)
    requires k in ks
    ensures p < |ks| && ks[p] == k
    ensures forall q :: 0 <= q < p ==> ks[q] != k
  {
    if ks[0] == k then 0 else 1 + IndexOf(ks[1..], k)
  }

  /** Record handles `rs` stand for the hash values `hs` of `table`. */
  predicate RecordsFor(rs: seq<Record>, hs: seq<Json>, table: Table) {
    |rs| == |hs| && forall i :: 0 <= i < |rs| ==> rs[i].table == table && rs[i].hashValue == hs[i]
  }

  /** The value `upsert` returns stands for `u`. */
  predicate ReturnFor(r: Result<UpsertReturn>, u: Result<Upserted>, table: Table) {
    match u
    case Err(e) => r == Err(e)
    case Ok(NoRecord) => r == Ok(Nothing)
    case Ok(OneRecord(h)) => r.Ok? && r.value.Single? && r.value.record.table == table && r.value.record.hashValue == h
    case Ok(RecordList(hs)) => r.Ok? && r.value.Several? && RecordsFor(r.value.records, hs, table)
  }

  /** `r` fails exactly when `o` does, with the same error. */
  predicate SameFailure<T, U>(r: Result<T>, o: Result<U>) {
    r.Err? == o.Err? && (r.Err? ==> r.error == o.error)
  }

  /** The attribute names the `attributes` loop keeps. */
  method KeptAttributes(attributes: seq<Json>) returns (r: Result<seq<Json>>)
    ensures r == AttributeNames(attributes)
  {
    var kept: seq<Json> := [];
    var i := 0;
    assert attributes[0..] == attributes;
    assert AttributeNames(attributes).Ok? ==> [] + AttributeNames(attributes).value == AttributeNames(attributes).value;
    while i < |attributes|
      invariant 0 <= i <= |attributes|
      invariant var rest := AttributeNames(attributes[i..]);
        AttributeNames(attributes) == if rest.Ok? then Ok(kept + rest.value) else rest
    {
      assert attributes[i..][0] == attributes[i] && attributes[i..][1..] == attributes[i + 1..];
      var a := Subscript(attributes[i], JStr("attribute"));
      if a.Err? {
        return Err(a.error);
      }
      ghost var rest := AttributeNames(attributes[i + 1..]);
      if a.value != JStr(CreatedTime) && a.value != JStr(UpdatedTime) {
        assert rest.Ok? ==> kept + ([a.value] + rest.value) == (kept + [a.value]) + rest.value;
        kept := kept + [a.value];
      }
      i := i + 1;
    }
    assert attributes[i..] == [] && kept + [] == kept;
    r := Ok(kept);
  }

  /** The dict the `to_dict` loop fills from a row's items. */
  method CopyWithoutTimestamps(items: seq<(string, Json)>) returns (d: seq<(string, Json)>)
    ensures d == WithoutTimestamps(items)
  {
    d := [];
    var i := 0;
    while i < |items|
      invariant 0 <= i <= |items|
      invariant d == WithoutTimestamps(items[..i])
    {
      var item := items[i];
      if !IsTimestampKey(item.0) {
        d := DictPut(d, item.0, item.1);
      }
      assert items[..i + 1][..i] == items[..i];
      i := i + 1;
    }
    assert items[..i] == items;
  }

  class Database {
    const server: Server

    constructor (server: Server)
      ensures this.server == server
    {
      this.server := server;
    }

    /** `database[key]`: no request. */
    method Lookup(key: Json) returns (s: Schema)
      ensures fresh(s) && s.name == key && s.database == this
      ensures unchanged(server)
    {
      s := new Schema(key, this);
    }

    /** `del database[key]`. */
    method DeleteItem(key: Json) returns (r: Result<()>)
      modifies server
      ensures Out(r, server.State()) == Command(old(server.State()), Call.DropSchema(key))
    {
      var resp := server.Send(Call.DropSchema(key));
      r := if resp.Err? then Err(resp.error) else Ok(());
    }

    /** `drop_schema(name)`. */
    method DropSchema(name: Json) returns (r: Result<()>)
      modifies server
      ensures Out(r, server.State()) == Command(old(server.State()), Call.DropSchema(name))
    {
      var resp := server.Send(Call.DropSchema(name));
      r := if resp.Err? then Err(resp.error) else Ok(());
    }

    /** `create_schema(name)`: a handle for the new schema. */
    method CreateSchema(name: Json) returns (r: Result<Schema>)
      modifies server
      ensures var o := Command(old(server.State()), Call.CreateSchema(name));
        server.State() == o.world && SameFailure(r, o.result)
      ensures r.Ok? ==> fresh(r.value) && r.value.name == name && r.value.database == this
    {
      var resp := server.Send(Call.CreateSchema(name));
      if resp.Err? {
        return Err(resp.error);
      }
      var s := new Schema(name, this);
      r := Ok(s);
    }

    /** `_get_schemas()`. */
    method GetSchemas() returns (r: Result<SchemaDict>)
      modifies server
      ensures var o := GetSchemasSpec(old(server.State()));
        server.State() == o.world && SameFailure(r, o.result)
        && (r.Ok? ==> r.value.names == o.result.value && |r.value.handles| == |r.value.names|)
      ensures r.Ok? ==> forall i :: 0 <= i < |r.value.handles| ==>
        fresh(r.value.handles[i]) && r.value.handles[i].name == JStr(r.value.names[i]) && r.value.handles[i].database == this
    {
      var resp := server.Send(DescribeAll);
      if resp.Err? {
        return Err(resp.error);
      }
      ghost var answered := server.State();
      var body := resp.value;
      if !body.JObj? {
        return Err(AttributeError);
      }
      var items := body.entries;
      var names: seq<string> := [];
      var handles: seq<Schema> := [];
      var i := 0;
      while i < |items|
        invariant 0 <= i <= |items|
        invariant names == SchemaNames(items[..i])
        invariant |handles| == |names|
        invariant forall j :: 0 <= j < |handles| ==>
          fresh(handles[j]) && handles[j].name == JStr(names[j]) && handles[j].database == this
        invariant server.State() == answered
      {
        var key := items[i].0;
        var schema := new Schema(JStr(key), this);
        if key in names {
          handles := handles[IndexOf(names, key) := schema];
        } else {
          names := names + [key];
          handles := handles + [schema];
        }
        assert items[..i + 1][..i] == items[..i];
        i := i + 1;
      }
      assert items[..i] == items;
      r := Ok(SchemaDict(names, handles));
    }

    /** `len(database)`: the number of schemas `describe_all` reports. */
    method Len() returns (r: Result<nat>)
      modifies server
      ensures Out(r, server.State()) == DatabaseLenSpec(old(server.State()))
    {
      var schemas := GetSchemas();
      r := if schemas.Err? then Err(schemas.error) else Ok(|schemas.value.names|);
    }

    /** `iter(database)`: an iterator over a fresh `_get_schemas()` dict. */
    method Iter() returns (r: Result<SchemaIterator>)
      modifies server
      ensures var o := GetSchemasSpec(old(server.State()));
        server.State() == o.world && SameFailure(r, o.result)
        && (r.Ok? ==> fresh(r.value) && r.value.Valid() && r.value.index == 0
                      && r.value.schemaList == o.result.value)
      ensures r.Ok? ==> forall i :: 0 <= i < |r.value.schemas.handles| ==>
        r.value.schemas.handles[i].name == JStr(r.value.schemaList[i]) && r.value.schemas.handles[i].database == this
    {
      var schemas := GetSchemas();
      if schemas.Err? {
        return Err(schemas.error);
      }
      SchemaNamesDistinct(old(server.State()).replies[0].body.entries);
      var it := new SchemaIterator(schemas.value);
      r := Ok(it);
    }
  }

  class Schema {
    const name: Json
    const database: Database

    constructor (name: Json, database: Database)
      ensures this.name == name && this.database == database
    {
      this.name := name;
      this.database := database;
    }

    /** `schema[key]`: no request; the hash attribute is not yet known. */
    method Lookup(key: Json) returns (t: Table)
      ensures fresh(t) && t.name == key && t.schema == this && t.hashAttributeCache == JNull
      ensures unchanged(database.server)
    {
      t := new Table(key, this, JNull);
    }

    /** `del schema[key]`. */
    method DeleteItem(key: Json) returns (r: Result<()>)
      modifies database.server
      ensures Out(r, database.server.State()) == Command(old(database.server.State()), Call.DropTable(name, key))
    {
      var resp := database.server.Send(Call.DropTable(name, key));
      r := if resp.Err? then Err(resp.error) else Ok(());
    }

    /** `drop_table(table)`. */
    method DropTable(table: Json) returns (r: Result<()>)
      modifies database.server
      ensures Out(r, database.server.State()) == Command(old(database.server.State()), Call.DropTable(name, table))
    {
      var resp := database.server.Send(Call.DropTable(name, table));
      r := if resp.Err? then Err(resp.error) else Ok(());
    }

    /** `drop()`: drops this schema through the database. */
    method Drop() returns (r: Result<()>)
      modifies database.server
      ensures Out(r, database.server.State()) == Command(old(database.server.State()), DropSchema(name))
    {
      r := database.DropSchema(name);
    }

    /** `create_table(table, hash_attribute)`: a handle that already knows its
        hash attribute. */
    method CreateTable(table: Json, hashAttribute: Json) returns (r: Result<Table>)
      modifies database.server
      ensures var o := Command(old(database.server.State()), Call.CreateTable(name, table, hashAttribute));
        database.server.State() == o.world && SameFailure(r, o.result)
      ensures r.Ok? ==> fresh(r.value) && r.value.name == table && r.value.schema == this
                        && r.value.hashAttributeCache == hashAttribute
    {
      var resp := database.server.Send(Call.CreateTable(name, table, hashAttribute));
      if resp.Err? {
        return Err(resp.error);
      }
      var t := new Table(table, this, hashAttribute);
      r := Ok(t);
    }

    /** `len(schema)`: the number of entries of the `describe_schema` answer. */
    method Len() returns (r: Result<nat>)
      modifies database.server
      ensures Out(r, database.server.State()) == SchemaLenSpec(name, old(database.server.State()))
    {
      var resp := database.server.Send(DescribeSchema(name));
      r := if resp.Err? then Err(resp.error) else Values.Len(resp.value);
    }

    /** `iter(schema)`: an iterator over the table descriptions, whichever
        shape the answer has. */
    method Iter() returns (r: Result<TableIterator>)
      modifies database.server
      ensures var o := SchemaTablesSpec(name, old(database.server.State()));
        database.server.State() == o.world && SameFailure(r, o.result)
        && (r.Ok? ==> fresh(r.value) && r.value.tables == o.result.value
                      && r.value.schema == this && r.value.index == 0)
    {
      var resp := database.server.Send(DescribeSchema(name));
      if resp.Err? {
        return Err(resp.error);
      }
      var tables := NormalizeTables(resp.value);
      if tables.Err? {
        return Err(tables.error);
      }
      var it := new TableIterator(tables.value, this);
      r := Ok(it);
    }
  }

  class Table {
    const name: Json
    const schema: Schema
    var hashAttributeCache: Json

    constructor (name: Json, schema: Schema, hashAttribute: Json)
      ensures this.name == name && this.schema == schema && hashAttributeCache == hashAttribute
    {
      this.name := name;
      this.schema := schema;
      hashAttributeCache := hashAttribute;
    }

    function Server(): Server {
      schema.database.server
    }

    /** `table[key]`: no request. */
    method Lookup(key: Json) returns (rec: Record)
      ensures fresh(rec) && rec.table == this && rec.hashValue == key
      ensures unchanged(Server())
    {
      rec := new Record(this, key);
    }

    /** The `hash_attribute` property. */
    method HashAttribute() returns (r: Result<Json>)
      modifies this, Server()
      ensures var o := HashAttributeSpec(old(hashAttributeCache), schema.name, name, old(Server().State()));
        r == o.result && Server().State() == o.world && hashAttributeCache == o.cache
    {
      if !Truthy(hashAttributeCache) {
        var resp := Server().Send(DescribeTable(schema.name, name));
        if resp.Err? {
          return Err(resp.error);
        }
        var v := Subscript(resp.value, JStr("hash_attribute"));
        if v.Err? {
          return Err(v.error);
        }
        hashAttributeCache := v.value;
      }
      r := Ok(hashAttributeCache);
    }

    /** `table.delete(k)`. */
    method Delete(k: Json) returns (r: Result<()>)
      modifies Server()
      ensures Out(r, Server().State()) == TableDeleteSpec(schema.name, name, k, old(Server().State()))
    {
      var resp := Server().Send(Call.Delete(schema.name, name, JList([k])));
      if resp.Err? {
        return Err(resp.error);
      }
      var skipped := Subscript(resp.value, JStr("skipped_hashes"));
      if skipped.Err? {
        return Err(skipped.error);
      }
      if Truthy(skipped.value) {
        return Err(HarperDBError(HashNotFoundMessage(k)));
      }
      r := Ok(());
    }

    /** `del table[k]`: the same request and the same check as `delete`. */
    method DeleteItem(k: Json) returns (r: Result<()>)
      modifies Server()
      ensures Out(r, Server().State()) == TableDeleteSpec(schema.name, name, k, old(Server().State()))
    {
      var resp := Server().Send(Call.Delete(schema.name, name, JList([k])));
      if resp.Err? {
        return Err(resp.error);
      }
      var skipped := Subscript(resp.value, JStr("skipped_hashes"));
      if skipped.Err? {
        return Err(skipped.error);
      }
      if Truthy(skipped.value) {
        return Err(HarperDBError(HashNotFoundMessage(k)));
      }
      r := Ok(());
    }

    /** `drop()`: drops this table through the schema. */
    method Drop() returns (r: Result<()>)
      modifies Server()
      ensures Out(r, Server().State()) == Command(old(Server().State()), DropTable(schema.name, name))
    {
      var resp := Server().Send(DropTable(schema.name, name));
      r := if resp.Err? then Err(resp.error) else Ok(());
    }

    /** `len(table)`. */
    method Len() returns (r: Result<nat>)
      modifies Server()
      ensures Out(r, Server().State()) == TableLenSpec(schema.name, name, old(Server().State()))
    {
      var resp := Server().Send(DescribeTable(schema.name, name));
      if resp.Err? {
        return Err(resp.error);
      }
      var count := Subscript(resp.value, JStr("record_count"));
      if count.Err? {
        return Err(count.error);
      }
      r := LenOfDunder(count.value);
    }

    /** The `record_count` property: `len(self)`. */
    method RecordCount() returns (r: Result<nat>)
      modifies Server()
      ensures Out(r, Server().State()) == TableLenSpec(schema.name, name, old(Server().State()))
    {
      r := Len();
    }

    /** A property read from one `describe_table` answer. */
    method DescribeField(field: string) returns (r: Result<Json>)
      modifies Server()
      ensures Out(r, Server().State()) == DescribeFieldSpec(schema.name, name, field, old(Server().State()))
    {
      var resp := Server().Send(DescribeTable(schema.name, name));
      r := if resp.Err? then Err(resp.error) else Subscript(resp.value, JStr(field));
    }

    /** The `id` property. */
    method Id() returns (r: Result<Json>)
      modifies Server()
      ensures Out(r, Server().State()) == DescribeFieldSpec(schema.name, name, "id", old(Server().State()))
    {
      r := DescribeField("id");
    }

    /** The table's `__createdtime__` property. */
    method CreatedTimestamp() returns (r: Result<Json>)
      modifies Server()
      ensures Out(r, Server().State()) == DescribeFieldSpec(schema.name, name, CreatedTime, old(Server().State()))
    {
      r := DescribeField(CreatedTime);
    }

    /** The table's `__updatedtime__` property. */
    method UpdatedTimestamp() returns (r: Result<Json>)
      modifies Server()
      ensures Out(r, Server().State()) == DescribeFieldSpec(schema.name, name, UpdatedTime, old(Server().State()))
    {
      r := DescribeField(UpdatedTime);
    }

    /** The `attributes` property. */
    method Attributes() returns (r: Result<seq<Json>>)
      modifies Server()
      ensures Out(r, Server().State()) == AttributesSpec(schema.name, name, old(Server().State()))
    {
      var resp := Server().Send(DescribeTable(schema.name, name));
      if resp.Err? {
        return Err(resp.error);
      }
      var attributes := Subscript(resp.value, JStr("attributes"));
      if attributes.Err? {
        return Err(attributes.error);
      }
      var items := Iterate(attributes.value);
      if items.Err? {
        return Err(items.error);
      }
      r := KeptAttributes(items.value);
    }

    /** A fresh record handle of this table for each hash value, in order. */
    method MakeRecords(hashes: seq<Json>) returns (rs: seq<Record>)
      ensures RecordsFor(rs, hashes, this)
      ensures forall i :: 0 <= i < |rs| ==> fresh(rs[i])
    {
      rs := [];
      var i := 0;
      while i < |hashes|
        invariant 0 <= i <= |hashes|
        invariant RecordsFor(rs, hashes[..i], this)
        invariant forall j :: 0 <= j < |rs| ==> fresh(rs[j])
      {
        var rec := new Record(this, hashes[i]);
        rs := rs + [rec];
        i := i + 1;
      }
      assert hashes[..i] == hashes;
    }

    /** The loop of `search_by_value`: one record handle per row, keyed by
        the row's value for the `hash_attribute` property, read per row. */
    method RowHashes(rows: seq<Json>) returns (r: Result<seq<Json>>)
      modifies this, Server()
      ensures var o := RowHashesSpec(rows, old(hashAttributeCache), schema.name, name, old(Server().State()));
        r == o.result && Server().State() == o.world && hashAttributeCache == o.cache
    {
      ghost var spec := RowHashesSpec(rows, hashAttributeCache, schema.name, name, Server().State());
      var hashes: seq<Json> := [];
      var i := 0;
      assert rows[0..] == rows;
      PrependAllNil(spec);
      while i < |rows|
        invariant 0 <= i <= |rows|
        invariant spec == PrependAll(hashes, RowHashesSpec(rows[i..], hashAttributeCache, schema.name, name, Server().State()))
      {
        ghost var rest := RowHashesSpec(rows[i..], hashAttributeCache, schema.name, name, Server().State());
        assert rows[i..][0] == rows[i];
        var key := HashAttribute();
        if key.Err? {
          assert rest.result == Err(key.error);
          return Err(key.error);
        }
        var k := Subscript(rows[i], key.value);
        if k.Err? {
          assert rest.result == Err(k.error);
          return Err(k.error);
        }
        assert rows[i..][1..] == rows[i + 1..];
        PrependAllStep(hashes, k.value, RowHashesSpec(rows[i + 1..], hashAttributeCache, schema.name, name, Server().State()));
        hashes := hashes + [k.value];
        i := i + 1;
      }
      assert rows[i..] == [] && hashes + [] == hashes;
      r := Ok(hashes);
    }

    /** `search_by_value(attribute, value)`. */
    method SearchByValue(attribute: Json, value: Json) returns (r: Result<seq<Record>>)
      modifies this, Server()
      ensures var o := SearchByValueSpec(attribute, value, old(hashAttributeCache), schema.name, name, old(Server().State()));
        Server().State() == o.world && hashAttributeCache == o.cache && SameFailure(r, o.result)
        && (r.Ok? ==> RecordsFor(r.value, o.result.value, this))
    {
      var resp := Server().Send(Call.SearchByValue(schema.name, name, attribute, value, AllAttributes));
      if resp.Err? {
        return Err(resp.error);
      }
      var rows := Iterate(resp.value);
      if rows.Err? {
        return Err(rows.error);
      }
      var hashes := RowHashes(rows.value);
      if hashes.Err? {
        return Err(hashes.error);
      }
      var rs := MakeRecords(hashes.value);
      r := Ok(rs);
    }

    /** The loop of `upsert` that picks the records to update: those whose
        value for the `hash_attribute` property, read per record, is among
        the skipped hashes. */
    method RecordsToUpdate(records: seq<Json>, skipped: seq<string>) returns (r: Result<seq<Json>>)
      modifies this, Server()
      ensures var o := UpdateCandidatesSpec(records, skipped, old(hashAttributeCache), schema.name, name, old(Server().State()));
        r == o.result && Server().State() == o.world && hashAttributeCache == o.cache
    {
      ghost var spec := UpdateCandidatesSpec(records, skipped, hashAttributeCache, schema.name, name, Server().State());
      var toUpdate: seq<Json> := [];
      var i := 0;
      assert records[0..] == records;
      PrependAllNil(spec);
      while i < |records|
        invariant 0 <= i <= |records|
        invariant spec == PrependAll(toUpdate, UpdateCandidatesSpec(records[i..], skipped, hashAttributeCache, schema.name, name, Server().State()))
      {
        var record := records[i];
        assert records[i..][0] == record;
        if !record.JObj? {
          return Err(AttributeError);
        }
        var key := HashAttribute();
        if key.Err? {
          return Err(key.error);
        }
        var v := Get(record, key.value);
        if v.Err? {
          return Err(v.error);
        }
        assert records[i..][1..] == records[i + 1..];
        if InSkipped(v.value, skipped) {
          PrependAllStep(toUpdate, record, UpdateCandidatesSpec(records[i + 1..], skipped, hashAttributeCache, schema.name, name, Server().State()));
          toUpdate := toUpdate + [record];
        }
        i := i + 1;
      }
      assert records[i..] == [] && toUpdate + [] == toUpdate;
      r := Ok(toUpdate);
    }

    /** `upsert(records)`. */
    method Upsert(records: Json) returns (r: Result<UpsertReturn>)
      modifies this, Server()
      ensures var o := UpsertSpec(records, old(hashAttributeCache), schema.name, name, old(Server().State()));
        Server().State() == o.world && hashAttributeCache == o.cache && ReturnFor(r, o.result, this)
    {
      var batch := Batch(records);
      var resp := Server().Send(Insert(schema.name, name, JList(batch)));
      var outcome := InsertOutcome(resp);
      if outcome.Err? {
        return Err(outcome.error);
      }
      var inserted := outcome.value.0;
      var skipped := outcome.value.1;
      var upserted := UpsertedHashes(inserted, []);
      if skipped != [] {
        var toUpdate := RecordsToUpdate(batch, skipped);
        if toUpdate.Err? {
          return Err(toUpdate.error);
        }
        var resp2 := Server().Send(Update(schema.name, name, JList(toUpdate.value)));
        var updated := UpdateOutcome(resp2);
        if updated.Err? {
          return Err(updated.error);
        }
        upserted := upserted + updated.value;
        assert upserted == UpsertedHashes(inserted, updated.value);
      }
      if !records.JList? {
        if upserted != [] {
          var rec := new Record(this, upserted[0]);
          return Ok(Single(rec));
        }
        return Ok(Nothing);
      }
      var rs := MakeRecords(upserted);
      r := Ok(Several(rs));
    }
  }

  class Record {
    const table: Table
    const hashValue: Json

    constructor (table: Table, hashValue: Json)
      ensures this.table == table && this.hashValue == hashValue
    {
      this.table := table;
      this.hashValue := hashValue;
    }

    function Server(): Server {
      table.schema.database.server
    }

    /** `record[key]`. */
    method Get(key: Json) returns (r: Result<Json>)
      modifies Server()
      ensures Out(r, Server().State()) == FieldSpec(table.schema.name, table.name, hashValue, key, old(Server().State()))
    {
      var resp := Server().Send(HashQuery(table.schema.name, table.name, hashValue));
      if resp.Err? {
        return Err(resp.error);
      }
      var v := (var row :- Subscript(resp.value, JInt(0)); Subscript(row, key));
      if v == Err(IndexError) {
        return Err(HarperDBError(RecordNotFoundMessage(hashValue, table.schema.name, table.name)));
      }
      r := v;
    }

    /** `record[key] = value`. */
    method Set(key: Json, value: Json) returns (r: Result<()>)
      modifies Server()
      ensures Out(r, Server().State()) == SetFieldSpec(table.schema.name, table.name, key, value, old(Server().State()))
    {
      if !Hashable(key) {
        return Err(TypeError);
      }
      var resp := Server().Send(Update(table.schema.name, table.name, JObj([(JsonKey(key), value)])));
      r := if resp.Err? then Err(resp.error) else Ok(());
    }

    /** `record.delete()`: the answer is not looked at. */
    method Delete() returns (r: Result<()>)
      modifies Server()
      ensures Out(r, Server().State()) == RecordDeleteSpec(table.schema.name, table.name, hashValue, old(Server().State()))
    {
      var resp := Server().Send(Call.Delete(table.schema.name, table.name, JList([hashValue])));
      r := if resp.Err? then Err(resp.error) else Ok(());
    }

    /** `record.to_dict()`. */
    method ToDict() returns (r: Result<seq<(string, Json)>>)
      modifies Server()
      ensures Out(r, Server().State()) == ToDictSpec(table.schema.name, table.name, hashValue, old(Server().State()))
    {
      var resp := Server().Send(HashQuery(table.schema.name, table.name, hashValue));
      if resp.Err? {
        return Err(resp.error);
      }
      var row := Subscript(resp.value, JInt(0));
      if row.Err? {
        return Err(row.error);
      }
      if !row.value.JObj? {
        return Err(AttributeError);
      }
      var d := CopyWithoutTimestamps(row.value.entries);
      r := Ok(d);
    }

    /** The record's `__createdtime__` or `__updatedtime__` property. */
    method Timestamp(field: string) returns (r: Result<Json>)
      modifies Server()
      ensures Out(r, Server().State()) == RecordTimestampSpec(table.schema.name, table.name, hashValue, field, old(Server().State()))
    {
      var resp := Server().Send(HashQuery(table.schema.name, table.name, hashValue));
      if resp.Err? {
        return Err(resp.error);
      }
      var first := Subscript(resp.value, JInt(0));
      if first == Err(IndexError) {
        return Err(HarperDBError(HashNotFoundMessage(hashValue)));
      }
      if first.Err? {
        return Err(first.error);
      }
      r := Subscript(first.value, JStr(field));
    }

    /** The record's `__createdtime__` property. */
    method CreatedTimestamp() returns (r: Result<Json>)
      modifies Server()
      ensures Out(r, Server().State()) == RecordTimestampSpec(table.schema.name, table.name, hashValue, CreatedTime, old(Server().State()))
    {
      r := Timestamp(CreatedTime);
    }

    /** The record's `__updatedtime__` property. */
    method UpdatedTimestamp() returns (r: Result<Json>)
      modifies Server()
      ensures Out(r, Server().State()) == RecordTimestampSpec(table.schema.name, table.name, hashValue, UpdatedTime, old(Server().State()))
    {
      r := Timestamp(UpdatedTime);
    }
  }

  /** The iterator over a `_get_schemas()` dict. */
  class SchemaIterator {
    const schemas: SchemaDict
    const schemaList: seq<string>
    var index: nat

    /** The dict holds, under each of its distinct keys, a handle of that name. */
    ghost predicate Valid() {
      |schemas.handles| == |schemas.names| && Distinct(schemas.names) && schemaList == schemas.names
      && forall i :: 0 <= i < |schemas.handles| ==> schemas.handles[i].name == JStr(schemas.names[i])
    }

    constructor (schemas: SchemaDict)
      requires |schemas.handles| == |schemas.names| && Distinct(schemas.names)
      requires forall i :: 0 <= i < |schemas.handles| ==> schemas.handles[i].name == JStr(schemas.names[i])
      ensures Valid() && this.schemas == schemas && index == 0
    {
      this.schemas := schemas;
      schemaList := schemas.names;
      index := 0;
    }

    /** `__next__`: the next schema handle, or StopIteration and back to the start. */
    method Next() returns (r: Result<Schema>)
      requires Valid()
      modifies this
      ensures Valid() && index == NextStep(old(index), |schemaList|).1
      ensures match NextStep(old(index), |schemaList|).0
        case None => r == Err(StopIteration)
        case Some(p) => r == Ok(schemas.handles[p]) && r.value.name == JStr(schemaList[p])
    {
      if index >= |schemaList| {
        index := 0;
        return Err(StopIteration);
      }
      var key := schemaList[index];
      index := index + 1;
      r := Ok(schemas.handles[IndexOf(schemas.names, key)]);
    }
  }

  /** The iterator over the table descriptions of a `describe_schema` answer. */
  class TableIterator {
    const schema: Schema
    const tables: seq<Json>
    var index: nat

    constructor (tables: seq<Json>, schema: Schema)
      ensures this.tables == tables && this.schema == schema && index == 0
    {
      this.schema := schema;
      this.tables := tables;
      index := 0;
    }

    /** `__next__`: a handle for the next table description, carrying its
        name and hash attribute, or StopIteration and back to the start. */
    method Next() returns (r: Result<Table>)
      modifies this
      ensures index == NextStep(old(index), |tables|).1
      ensures match NextStep(old(index), |tables|).0
        case None => r == Err(StopIteration)
        case Some(p) =>
          SameFailure(r, TableEntry(tables[p]))
          && (r.Ok? ==> fresh(r.value) && r.value.schema == schema
                        && (r.value.name, r.value.hashAttributeCache) == TableEntry(tables[p]).value)
    {
      if index >= |tables| {
        index := 0;
        return Err(StopIteration);
      }
      var table := tables[index];
      index := index + 1;
      var entry := TableEntry(table);
      if entry.Err? {
        return Err(entry.error);
      }
      var t := new Table(entry.value.0, schema, entry.value.1);
      r := Ok(t);
    }
  }
}
