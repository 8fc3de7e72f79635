# HarperDB object handles

This project models the object-handle layer of the HarperDB Python client
(`harperdb/wrappers.py`). That layer gives a database, its schemas, their tables and
the tables' records as Python objects. `database[name]` gives a schema handle,
`schema[name]` a table handle and `table[hash]` a record handle. Every read or write
through a handle becomes one or more low-level operations sent to the server.
The model proves what those handles do with the server's answers.

The project has five modules.

- `Values` (values.dfy): JSON values as the client decodes them (`Json`). The
  Python exceptions the layer can raise become `Error` variants, and the results it
  returns `Result`. It also has the Python operations the layer applies to decoded
  values: subscripting, `dict.get`, iteration, `len`, truthiness, `str` and `repr`.
- `Server` (server.dfy): the server, seen only through the protocol. Every
  low-level operation (`_insert`, `_update`, `_delete`, `_search_by_hash`,
  `_search_by_value`, `_describe_table`, `_describe_schema`, `_describe_all`,
  `_create_*`, `_drop_*`) is one `Call` with its arguments. The server's answers are
  not computed. They come from outside as a script of `Reply` values, taken one per
  call. A ghost log records every call in order. A `Rejected` reply is the
  `HarperDBError` that an error status raises. An empty script is a transport failure.
- `Semantics` (semantics.dfy): one pure function per high-level operation.
  Each gives the result and the new `World` (remaining replies and call log).
  For table operations it also gives the table's cached hash attribute.
- `Handles` (handles.dfy): the handle classes `Database`, `Schema`, `Table` and
  `Record`, and the iterators `SchemaIterator` and `TableIterator`. They keep the
  source's fields, its loops and its in-place updates: the hash-attribute cache and
  the iterator index. Each method is proved to change the server's state and its
  own fields exactly as the matching `Semantics` function says.
- `Properties` (properties.dfy): what the layer promises, proved of the
  `Semantics` functions. This covers upsert reconciliation, the two kinds of
  delete, record reads, timestamp filtering, the hash-attribute cache, the
  describe-schema shapes and the iterator restarts.

## Model

| member | source | states |
|---|---|---|
| `Server.Exchange` | harperdb/wrappers.py:101-122 | One request appends its call to the log and takes the next reply. An answer is the result, a rejection becomes `HarperDBError` with the server's message, and an exhausted script is a connection failure. |
| `Server.Server.Send` | harperdb/wrappers.py:101-122 | Sending a call changes the server's state exactly as `Exchange` says. |
| `Handles.Database.constructor` | harperdb/wrappers.py:69-76 | A database handle holds the server it talks to. The URL, the credentials and the timeout are transport settings and are left out. |
| `Handles.Database.Lookup` | harperdb/wrappers.py:78-79 | `database[key]` builds a fresh schema handle named `key` without contacting the server. |
| `Handles.Database.DeleteItem` | harperdb/wrappers.py:81-82 | `del database[key]` sends one `drop_schema` for `key` and fails only if the request fails. |
| `Handles.Database.DropSchema` | harperdb/wrappers.py:132-135 | `drop_schema(name)` sends one `drop_schema` for `name`. |
| `Handles.Database.CreateSchema` | harperdb/wrappers.py:126-130 | `create_schema(name)` sends one `create_schema`. On success it returns a fresh handle for `name` on this database. |
| `Handles.Database.GetSchemas` | harperdb/wrappers.py:91-99 | `_get_schemas` sends one `describe_all`. It returns the dict's keys in insertion order (`GetSchemasSpec`), each with a fresh schema handle of that name. |
| `Handles.Database.Len` | harperdb/wrappers.py:88-89 | `len(database)` is the number of keys `_get_schemas` collects, after one `describe_all`. |
| `Handles.Database.Iter` | harperdb/wrappers.py:84-86 | `iter(database)` builds a schema iterator over the current schema dict, at index 0. Under each key the dict holds a schema handle of that name on this database. |
| `Semantics.GetSchemasSpec` | harperdb/wrappers.py:91-99 | Computes `_get_schemas`: one `describe_all`, then the keys of the dict filled from the answer's items; AttributeError for an answer that is not a dict. |
| `Semantics.SchemaNames` | harperdb/wrappers.py:94-99 | Computes the keys of the dict the loop fills: each item's key, added at the end unless already present. |
| `Semantics.DatabaseLenSpec` | harperdb/wrappers.py:88-89 | Computes `len(database)`: the number of keys `_get_schemas` collects, or its failure. |
| `Semantics.SchemaNamesDistinct` | harperdb/wrappers.py:94-99 | The dict `_get_schemas` builds has distinct keys, and every schema the server names is among them. |
| `Properties.SchemaNamesOfDistinctKeys` | harperdb/wrappers.py:94-99 | When `describe_all` names each schema once, `_get_schemas` keeps every name, in the server's order. |
| `Properties.DatabaseLenCounts` | harperdb/wrappers.py:88-99 | `len(database)` equals the number of top-level schemas in the `describe_all` answer, and it sends exactly one `describe_all`. |
| `Handles.Schema.constructor` | harperdb/wrappers.py:405-408 | A schema handle holds its name and the database handle it belongs to. |
| `Handles.Schema.Lookup` | harperdb/wrappers.py:415-416 | `schema[key]` builds a fresh table handle named `key` with no cached hash attribute, without contacting the server. |
| `Handles.Schema.DeleteItem` | harperdb/wrappers.py:412-413 | `del schema[key]` sends one `drop_table` for this schema and `key`. |
| `Handles.Schema.DropTable` | harperdb/wrappers.py:442-445 | `drop_table(name)` sends one `drop_table` for this schema and `name`. |
| `Handles.Schema.Drop` | harperdb/wrappers.py:437-440 | `drop()` sends one `drop_schema` for this schema's name. |
| `Handles.Schema.CreateTable` | harperdb/wrappers.py:425-435 | `create_table` sends one `create_table`. On success it returns a fresh table handle whose hash-attribute cache already holds the given attribute. |
| `Handles.Schema.Len` | harperdb/wrappers.py:422-423 | `len(schema)` is `len` of the `describe_schema` answer, after one request. |
| `Handles.Schema.Iter` | harperdb/wrappers.py:418-420 | `iter(schema)` sends one `describe_schema` and iterates the answer's table descriptions, whichever shape they arrive in. |
| `Semantics.SchemaTablesSpec` | harperdb/wrappers.py:418-420 | Computes what `iter(schema)` walks: one `describe_schema`, its answer normalised to a list of descriptions. |
| `Semantics.SchemaLenSpec` | harperdb/wrappers.py:422-423 | Computes `len(schema)`: one `describe_schema`, then `len` of the answer as it came. |
| `Semantics.TableEntry` | harperdb/wrappers.py:706-709 | Computes a table handle's name and hash attribute from one description, raising what the subscripts raise. |
| `Semantics.NormalizeTables` | harperdb/wrappers.py:690-697 | A dict answer becomes the list of its values, and a list answer stays unchanged. In both cases the list is as long as `len` of the answer. |
| `Properties.SchemaShapes` | harperdb/wrappers.py:418-423 | A dict-shaped and a list-shaped `describe_schema` answer with the same descriptions give the same tables to iterate and the same length. |
| `Properties.SchemaLenMatchesTables` | harperdb/wrappers.py:418-423 | Whenever iteration gets a list of tables, `len(schema)` on the same answer is that list's length. |
| `Handles.Table.constructor` | harperdb/wrappers.py:486-490 | A table handle holds its name, its schema handle and the hash-attribute cache it was given: null from `schema[key]` (the `None` default), the given attribute from `create_table` and from table iteration. |
| `Handles.Table.Lookup` | harperdb/wrappers.py:492-493 | `table[key]` builds a fresh record handle for hash `key` without contacting the server. |
| `Handles.Table.HashAttribute` | harperdb/wrappers.py:626-633 | The `hash_attribute` property and the cache field it writes follow `HashAttributeSpec`. |
| `Semantics.HashAttributeSpec` | harperdb/wrappers.py:626-633 | Computes the property: the cached value while truthy, otherwise one `describe_table` whose `hash_attribute` becomes the new cache. |
| `Properties.HashAttributeCaching` | harperdb/wrappers.py:626-633 | A truthy cache is returned with no call. Otherwise exactly one `describe_table` is sent; on an answer the result is that answer's `hash_attribute` and, when it reads, it is stored. A failed read leaves the cache as it was. |
| `Properties.HashAttributeTwice` | harperdb/wrappers.py:626-633 | After a read that yields a truthy value, a second read returns the same value and sends nothing. |
| `Handles.Table.Delete` | harperdb/wrappers.py:509-519 | `table.delete(k)` sends `delete` with `hash_values=[k]` and raises the not-found error exactly when `skipped_hashes` is truthy. |
| `Handles.Table.DeleteItem` | harperdb/wrappers.py:495-501 | `del table[k]` behaves exactly as `table.delete(k)`. |
| `Properties.TableDeleteReportsMissing` | harperdb/wrappers.py:495-519 | Given an answer that holds `skipped_hashes`, delete succeeds if and only if that value is falsy, such as an empty list. Otherwise it raises `HarperDBError` naming `k`. |
| `Properties.DeleteAsymmetry` | harperdb/wrappers.py:330-336 | `record.delete()` sends the same request as `table.delete`, but succeeds on every answer, including one that reports the hash as skipped. |
| `Semantics.TableDeleteSpec` | harperdb/wrappers.py:509-519 | Computes `table.delete(k)`: one `delete` of `[k]`, then the not-found HarperDBError if `skipped_hashes` is truthy. |
| `Semantics.RecordDeleteSpec` | harperdb/wrappers.py:330-336 | Computes `record.delete()`: one `delete` of `[hash]` whose answer is not read. |
| `Handles.Table.Drop` | harperdb/wrappers.py:521-526 | `drop()` sends one `drop_table` for this table. |
| `Handles.Table.Len` | harperdb/wrappers.py:503-507 | `len(table)` is the `record_count` of one `describe_table` answer, with the checks `len()` makes on what `__len__` returns: ValueError when negative, OverflowError above `sys.maxsize`. |
| `Handles.Table.RecordCount` | harperdb/wrappers.py:642-644 | `record_count` is `len(table)`. |
| `Semantics.TableLenSpec` | harperdb/wrappers.py:503-507 | Computes `len(table)`: one `describe_table`, its `record_count`, and what `len()` makes of it. |
| `Values.LenOfDunder` | harperdb/wrappers.py:503-507 | What `len()` makes of the value `__len__` returns: an int from 0 to `sys.maxsize` (a bool counts as 0 or 1), ValueError below, OverflowError above, TypeError for anything else. |
| `Properties.TableLenCounts` | harperdb/wrappers.py:503-507 | With `record_count` an int `n`, one `describe_table` is sent and `len(table)` is `n` if and only if `0 <= n <= sys.maxsize`; otherwise ValueError or OverflowError. |
| `Handles.Table.DescribeField` | harperdb/wrappers.py:635-640 | A property read straight from one `describe_table` answer. |
| `Handles.Table.Id` | harperdb/wrappers.py:635-640 | `id` is the answer's `id` field. |
| `Handles.Table.CreatedTimestamp` | harperdb/wrappers.py:650-655 | `__createdtime__` is the answer's `__createdtime__` field. |
| `Handles.Table.UpdatedTimestamp` | harperdb/wrappers.py:657-662 | `__updatedtime__` is the answer's `__updatedtime__` field. |
| `Semantics.DescribeFieldSpec` | harperdb/wrappers.py:635-662 | Computes a table property read from one `describe_table` answer by subscripting it with the field name. |
| `Handles.KeptAttributes` | harperdb/wrappers.py:613-620 | The loop of `attributes` computes `AttributeNames` of the descriptions. |
| `Handles.Table.Attributes` | harperdb/wrappers.py:608-620 | `attributes` sends one `describe_table` and returns the kept names of its `attributes` list. |
| `Semantics.AttributesSpec` | harperdb/wrappers.py:608-620 | Computes `attributes`: one `describe_table`, its `attributes` iterated, each description's name kept unless a timestamp. |
| `Semantics.AttributeNames` | harperdb/wrappers.py:613-620 | Computes the loop: the names in order, skipping the two timestamps, failing at the first description without `attribute`. |
| `Properties.AttributeNamesFilters` | harperdb/wrappers.py:608-620 | The loop succeeds if and only if every description has an `attribute`. If not, it fails with the first failing description's error. On success it returns the names in server order, minus exactly the two timestamps. |
| `Properties.KeptNames` | harperdb/wrappers.py:613-620 | The kept names are exactly the descriptions' names other than `__createdtime__` and `__updatedtime__`. |
| `Properties.KeptNamesCons` | harperdb/wrappers.py:613-620 | Helper step for `KeptNamesAppend`: unfolds the filter once, so the first description contributes its name unless it is a timestamp. |
| `Properties.KeptNamesAppend` | harperdb/wrappers.py:613-620 | The kept names of two runs of descriptions are the first run's names followed by the second's, so server order is kept. |
| `Handles.Table.MakeRecords` | harperdb/wrappers.py:538-543 | One fresh record handle of this table per hash value, in order. |
| `Handles.Table.RowHashes` | harperdb/wrappers.py:538-543 | The `search_by_value` loop reads each row's hash through the property, one row at a time, as `RowHashesSpec` says. |
| `Handles.Table.SearchByValue` | harperdb/wrappers.py:528-543 | `search_by_value` sends one `search_by_value` with `get_attributes=['*']` and returns handles for the rows' hash values. |
| `Semantics.SearchByValueSpec` | harperdb/wrappers.py:528-543 | Computes `search_by_value`: one `search_by_value` request, its rows iterated, then the rows' hash values. |
| `Semantics.RowHashesSpec` | harperdb/wrappers.py:538-543 | Computes the loop: per row, a read of the `hash_attribute` property, then the row subscripted by it. |
| `Properties.Column` | harperdb/wrappers.py:538-543 | The hash values read from the rows: one per row, each the row's value under the key. |
| `Properties.RowHashesWarm` | harperdb/wrappers.py:538-543 | With the hash attribute cached and every row holding it, the loop sends nothing more and returns each row's hash value, in row order. |
| `Handles.Table.RecordsToUpdate` | harperdb/wrappers.py:569-572 | The loop that collects `records_to_update` computes `UpdateCandidatesSpec`, reading the property once per record. |
| `Handles.Table.Upsert` | harperdb/wrappers.py:545-592 | `upsert` changes the server and the cache as `UpsertSpec` says. It returns a list of handles for a list, and a single handle or `None` for one record. |
| `Semantics.UpsertSpec` | harperdb/wrappers.py:545-592 | Computes `upsert`: insert the batch, stringify both hash lists, and if anything was skipped pick the records and update them; then shape the result. |
| `Semantics.Batch` | harperdb/wrappers.py:550-555 | Computes the list sent to `insert`: a list as it is, anything else wrapped in a one-element list. |
| `Semantics.InsertOutcome` | harperdb/wrappers.py:561-565 | Computes the stringified `inserted_hashes` and `skipped_hashes` of the insert answer, raising what the subscripts and iteration raise. |
| `Semantics.Stringify` | harperdb/wrappers.py:562-565 | `[str(h) for h in hashes]`: one string per hash, each its `str`. |
| `Semantics.UpdateCandidatesSpec` | harperdb/wrappers.py:569-572 | Computes the loop that picks the records to update: AttributeError for a non-dict, otherwise a read of the property and a `get`, keeping the record when the value is one of the skipped strings. |
| `Semantics.UpdateOutcome` | harperdb/wrappers.py:573-577 | Computes the `update_hashes` of the update answer, as `+=` takes them, not stringified. |
| `Semantics.UpsertedHashes` | harperdb/wrappers.py:561-577 | Computes `upserted_hashes`: the stringified inserted hashes followed by the update hashes. |
| `Semantics.Shape` | harperdb/wrappers.py:578-592 | Computes the return shape: a list of handles for a list input, otherwise the first hash's handle or `None`. |
| `Properties.Filtered` | harperdb/wrappers.py:570-572 | The records picked for update: a sub-multiset of the input, each a dict whose hash value is one of the skipped strings. Every such input record is picked. |
| `Properties.FilteredCons` | harperdb/wrappers.py:570-572 | Helper step for `FilteredAppend`: unfolds the filter once, so the first record stands for itself when it matches and for nothing otherwise. |
| `Properties.FilteredAppend` | harperdb/wrappers.py:570-572 | Filtering two runs of records gives the first run's picks followed by the second's, so input order is kept. |
| `Properties.WarmUpdateCandidates` | harperdb/wrappers.py:567-572 | With the hash attribute cached, picking the records sends nothing and returns exactly the input records, in order, whose hash value is a skipped string. |
| `Properties.ColdUpdateCandidates` | harperdb/wrappers.py:567-572 | With no hash attribute cached, the first record triggers exactly one `describe_table`. Its answer is cached and the same records are picked. |
| `Properties.NonStringHashNeverUpdated` | harperdb/wrappers.py:571 | A record whose hash value is not a string is never sent to update. The stringified skip list cannot contain a non-string value. |
| `Properties.UpsertedHashesLayout` | harperdb/wrappers.py:561-577 | The upserted hashes are the stringified inserted hashes, then the update hashes unchanged. Its length is the sum of the two. |
| `Properties.UpsertAllInserted` | harperdb/wrappers.py:556-563 | When nothing is skipped, upsert sends exactly one call, the `insert` of the whole batch. It returns the stringified inserted hashes in the shape of the input. |
| `Properties.UpsertWarm` | harperdb/wrappers.py:545-592 | With the cache warm and a non-empty skip list, the calls are `insert` of the batch, then `update` of exactly the filtered records. The result is the inserted hashes, then `update_hashes`, in the input's shape. |
| `Properties.UpsertUpdatePath` | harperdb/wrappers.py:566-592 | Along the update path, `upsert` sends `update` with exactly the picked records and returns the inserted hashes followed by the update hashes. |
| `Properties.UpsertCold` | harperdb/wrappers.py:545-592 | With the cache cold, the calls are `insert`, one `describe_table`, then `update` of exactly the filtered records. The fetched attribute stays cached. |
| `Properties.UpsertSingleNew` | harperdb/wrappers.py:550-590 | An example, not a general statement: a single record `{"name": "a"}` that the server inserts under a fresh id gives one `insert` and a single handle for that id. |
| `Handles.Record.constructor` | harperdb/wrappers.py:305-308 | A record handle holds its table handle and its hash value. |
| `Handles.Record.Get` | harperdb/wrappers.py:311-322 | `record[key]` sends one `search_by_hash` for the record's hash, as `FieldSpec` says. |
| `Semantics.FieldSpec` | harperdb/wrappers.py:311-322 | Computes `record[key]`: one `search_by_hash`, then `[0][key]`, an IndexError there becoming the not-found HarperDBError. |
| `Properties.FieldReadOutcomes` | harperdb/wrappers.py:311-322 | An empty result raises `HarperDBError` naming the hash and `schema.table`. A row lacking `key` raises `KeyError`. Otherwise the result is the first row's value under `key`. |
| `Properties.EmptyAnswerErrors` | harperdb/wrappers.py:311-384 | On an empty result, `record[key]` and the timestamp properties raise their two different `HarperDBError` messages, while `to_dict` raises `IndexError`. |
| `Handles.Record.Set` | harperdb/wrappers.py:324-328 | `record[key] = value` is the one `update` call `SetFieldSpec` gives. |
| `Semantics.SetFieldSpec` | harperdb/wrappers.py:324-328 | Computes `record[key] = value`: TypeError for an unhashable key, otherwise one `update` of `{key: value}`. |
| `Properties.SetFieldSendsMapping` | harperdb/wrappers.py:324-328 | The `update` receives the bare mapping `{key: value}`; as a corollary, its records argument is not a list. |
| `Handles.Record.Delete` | harperdb/wrappers.py:330-336 | `record.delete()` sends one `delete` of `[hash]` and ignores the answer. |
| `Handles.CopyWithoutTimestamps` | harperdb/wrappers.py:343-348 | The `to_dict` loop builds the dict `WithoutTimestamps` describes. |
| `Handles.Record.ToDict` | harperdb/wrappers.py:338-348 | `to_dict` sends one `search_by_hash` and returns the first row, unguarded, without its timestamps. |
| `Semantics.ToDictSpec` | harperdb/wrappers.py:338-348 | Computes `to_dict`: one `search_by_hash`, the unguarded first row, then the copy without timestamps. |
| `Semantics.WithoutTimestamps` | harperdb/wrappers.py:343-348 | Computes the dict the loop builds by assigning every non-timestamp item in turn. |
| `Properties.NonTimestamp` | harperdb/wrappers.py:343-348 | The row's entries whose keys are not timestamps, in row order. |
| `Properties.NonTimestampSnoc` | harperdb/wrappers.py:343-348 | Helper step for `NonTimestampAppend`: unfolds the filter from the end once, so the last entry stands for itself unless its key is a timestamp. |
| `Properties.NonTimestampAppend` | harperdb/wrappers.py:343-348 | Filtering two runs of entries gives the first run's entries followed by the second's, so row order is kept. |
| `Properties.WithoutTimestampsFilters` | harperdb/wrappers.py:338-348 | For a row with distinct keys, `to_dict` is exactly the row minus the two timestamp entries, with everything else unchanged and in order. |
| `Properties.ToDictContents` | harperdb/wrappers.py:343-348 | For any row, the result has no timestamp key, and each other key maps to the value a later assignment leaves in a dict. |
| `Properties.FindAfterPut` | harperdb/wrappers.py:348 | After `d[k] = v`, `k` maps to `v` and every other key is unchanged. |
| `Properties.PutKeys` | harperdb/wrappers.py:348 | After `d[k] = v`, the keys are the old keys plus `k`. |
| `Handles.Record.Timestamp` | harperdb/wrappers.py:358-384 | A record timestamp property sends one `search_by_hash`. It raises the hash-not-found error only on an empty result, then reads the field. |
| `Semantics.RecordTimestampSpec` | harperdb/wrappers.py:358-384 | Computes a record timestamp: one `search_by_hash`, the hash-not-found HarperDBError on an empty result, then the field of the first row. |
| `Handles.Record.CreatedTimestamp` | harperdb/wrappers.py:358-370 | `__createdtime__` of the first row. |
| `Handles.Record.UpdatedTimestamp` | harperdb/wrappers.py:372-384 | `__updatedtime__` of the first row. |
| `Handles.SchemaIterator.constructor` | harperdb/wrappers.py:670-673 | The iterator keeps the schema dict and its key list, starting at index 0. |
| `Handles.SchemaIterator.Next` | harperdb/wrappers.py:675-682 | `__next__` yields the schema handle under the current key, which carries that key as its name, and advances. At the end it sets the index back to 0 and raises `StopIteration`. |
| `Handles.TableIterator.constructor` | harperdb/wrappers.py:690-697 | The iterator keeps the normalised table list and the schema, starting at index 0. |
| `Handles.TableIterator.Next` | harperdb/wrappers.py:699-709 | `__next__` yields a fresh table handle with the entry's `name` and `hash_attribute` and advances. At the end it resets to 0 and raises `StopIteration`. |
| `Semantics.NextStep` | harperdb/wrappers.py:675-682 | Computes one `__next__`: the current position and the index after it, or StopIteration and index 0. |
| `Semantics.NextCalls` | harperdb/wrappers.py:699-705 | Computes what successive `__next__` calls yield and the index they leave. |
| `Properties.Pass` | harperdb/wrappers.py:675-682 | One pass over `n` elements: each position once, in order, then `StopIteration`. |
| `Properties.NextCallsPass` | harperdb/wrappers.py:675-682 | From index `i`, the next `n - i + 1` calls yield positions `i` to `n - 1`, then stop with the index back at 0. |
| `Properties.NextCallsSplit` | harperdb/wrappers.py:699-705 | A run of `a + b` calls is a run of `a` calls followed by a run of `b` calls. |
| `Properties.IteratorRestarts` | harperdb/wrappers.py:675-705 | A fresh iterator yields every element exactly once, in order, and then stops. A second pass yields them all again from the first. |

## Left out

- HTTP transport (`requests`, headers, JSON encoding of the body, the timeout) is outside the model. The server is an oracle.
- Basic-Auth token construction (harperdb/wrappers.py:72-75) is left out. It encodes the credentials with base64 for the HTTP Basic scheme (section 2 of RFC 7617) and does not affect the handles.
- The error message a failing request carries (`body.get('error', ...)`) is the message of a `Rejected` reply. The model does not derive it from a response body.
- `_drop_attribute`, `_sql`, `_csv_data_load` and `_get_job` are left out. No handle uses them.
- `upsert_from_csv` is left out: file I/O and CSV parsing. It passes the parsed rows to `upsert`, which is modelled.
- `created_time` and `updated_time` on tables and records are left out: float division and local-time `datetime` conversion. The integer millisecond fields they read are modelled.
- The public method aliases of harperdb/harperdb.py, the base client in harperdb/harperdb_base.py, packaging and tests are not part of this model. harperdb/exceptions.py is the `HarperDBError` variant of `Error`.
- JSON numbers are integers only. Floats are not modelled.
- `repr` escapes only ASCII control characters. Non-ASCII characters are kept as they are, which is what Python does for printable ones.
- A decoded JSON object with a repeated key is read by its first entry. Python's decoder keeps the last.
- Dict keys in caller-supplied records are strings, as JSON objects have them. A caller dict with non-string keys is not modelled.
- Python's `isinstance(records, list)` in `upsert` is modelled on JSON values. A tuple or another sequence given by a caller counts as a single record.
- `Properties.WithoutTimestampsFilters` requires distinct keys, as every decoded dict has them. `Properties.ToDictContents` states the general case.
- `sys.maxsize` is taken as on a 64-bit build (2**63 - 1). A 32-bit build, where `len(table)` overflows sooner, is not modelled.
