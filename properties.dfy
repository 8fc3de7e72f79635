/** What the wrapper layer promises, proved of the functions of module
    Semantics that the handle classes are proved to follow. */
module Properties {
  import opened Values
  import opened Server
  import opened Semantics

  // ------------------------------------------------------------- sequences

  /** Dropping the first element of a concatenation with a non-empty front. */
  lemma TailOfAppend<T>(a: seq<T>, b: seq<T>)
    requires a != []
    ensures (a + b)[0] == a[0] && (a + b)[1..] == a[1..] + b
  {
  }

  /** The associativity step of a proof that a filter distributes over `+`. */
  lemma ConcatStep<T>(x: seq<T>, y: seq<T>, u: seq<T>, t: seq<T>, b: seq<T>, head: seq<T>)
    requires x == head + u && y == head + t && u == t + b
    ensures x == y + b
  {
    assert head + (t + b) == (head + t) + b;
  }

  /** The same step for a filter that works from the back. */
  lemma ConcatStepBack<T>(x: seq<T>, y: seq<T>, u: seq<T>, t: seq<T>, front: seq<T>, last: seq<T>)
    requires x == u + last && y == t + last && u == front + t
    ensures x == front + y
  {
    assert (front + t) + last == front + (t + last);
  }

  /** Three calls logged one after the other. */
  lemma AppendThree<T>(s: seq<T>, x: T, y: T, z: T)
    ensures s + [x] + [y] + [z] == s + [x, y, z]
  {
  }

  /** Dropping the last element of a concatenation with a non-empty back. */
  lemma InitOfAppend<T>(a: seq<T>, b: seq<T>)
    requires b != []
    ensures (a + b)[|a + b| - 1] == b[|b| - 1] && (a + b)[..|a + b| - 1] == a + b[..|b| - 1]
  {
  }

  // ------------------------------------------------------------- upsert

  /** `record.get(key) in skipped`, with `get` succeeding. */
  predicate Matches(record: Json, key: Json, skipped: seq<string>) {
    var g := Get(record, key);
    g.Ok? && InSkipped(g.value, skipped)
  }

  /** The records `upsert` means to update, in their order: the dicts whose
      value under the hash attribute is one of the skipped hashes. */
  function Filtered(records: seq<Json>, key: Json, skipped: seq<string>): (r: seq<Json>)
    ensures |r| <= |records|
    ensures multiset(r) <= multiset(records)
    ensures forall x :: x in r ==>
      x.JObj? && key.JStr? && InSkipped(Find(x.entries, key.s), skipped)
    ensures forall x :: x in records && x.JObj? && key.JStr? && InSkipped(Find(x.entries, key.s), skipped) ==> x in r
    decreases |records|
  {
    if records == [] then []
    else
      var rest := Filtered(records[1..], key, skipped);
      assert records == [records[0]] + records[1..];
      if Matches(records[0], key, skipped) then [records[0]] + rest else rest
  }

  /** The filter works record by record: the first record stands for itself
      when it matches and for nothing otherwise. */
  lemma FilteredCons(records: seq<Json>, key: Json, skipped: seq<string>)
    requires records != []
    ensures Filtered(records, key, skipped)
      == (if Matches(records[0], key, skipped) then [records[0]] else []) + Filtered(records[1..], key, skipped)
  {
  }

  /** The filter keeps order: filtering a concatenation filters each part. */
  lemma {:induction false} FilteredAppend(a: seq<Json>, b: seq<Json>, key: Json, skipped: seq<string>)
    ensures Filtered(a + b, key, skipped) == Filtered(a, key, skipped) + Filtered(b, key, skipped)
    decreases |a|
  {
    if a == [] {
      assert a + b == b;
    } else {
      FilteredAppend(a[1..], b, key, skipped);
      TailOfAppend(a, b);
      FilteredCons(a + b, key, skipped);
      FilteredCons(a, key, skipped);
      ConcatStep(Filtered(a + b, key, skipped), Filtered(a, key, skipped), Filtered(a[1..] + b, key, skipped),
                 Filtered(a[1..], key, skipped), Filtered(b, key, skipped),
                 if Matches(a[0], key, skipped) then [a[0]] else []);
    }
  }

  /** With the hash attribute already cached, picking the records to update
      makes no request, keeps the cache, and picks exactly `Filtered`. */
  lemma {:induction false} WarmUpdateCandidates(records: seq<Json>, skipped: seq<string>, cache: Json, schema: Json, table: Json, w: World)
    requires Truthy(cache) && Hashable(cache)
    requires forall i :: 0 <= i < |records| ==> records[i].JObj?
    ensures UpdateCandidatesSpec(records, skipped, cache, schema, table, w) == TOut(Ok(Filtered(records, cache, skipped)), w, cache)
    decreases |records|
  {
    if records != [] {
      WarmUpdateCandidates(records[1..], skipped, cache, schema, table, w);
    }
  }

  /** A record whose hash value is not a string is never updated, however
      the server reported it: the skipped hashes are compared as strings. */
  lemma NonStringHashNeverUpdated(records: seq<Json>, key: string, skipped: seq<string>, x: Json)
    requires x in records && x.JObj? && key in Keys(x.entries)
    requires !Find(x.entries, key).value.JStr?
    ensures x !in Filtered(records, JStr(key), skipped)
  {
  }

  /** The upserted hashes: the inserted ones as strings, then the updated ones. */
  lemma UpsertedHashesLayout(inserted: seq<string>, updated: seq<Json>)
    ensures |UpsertedHashes(inserted, updated)| == |inserted| + |updated|
    ensures forall i :: 0 <= i < |inserted| ==> UpsertedHashes(inserted, updated)[i] == JStr(inserted[i])
    ensures UpsertedHashes(inserted, updated)[|inserted|..] == updated
  {
  }

  /** `upsert` when the server skipped nothing: one `insert` of the whole
      batch, and the inserted hashes as the result. */
  lemma UpsertAllInserted(records: Json, cache: Json, schema: Json, table: Json, w: World)
    requires w.replies != [] && w.replies[0].Answer?
    requires InsertOutcome(Ok(w.replies[0].body)).Ok? && InsertOutcome(Ok(w.replies[0].body)).value.1 == []
    ensures UpsertSpec(records, cache, schema, table, w)
      == TOut(Ok(Shape(records, UpsertedHashes(InsertOutcome(Ok(w.replies[0].body)).value.0, []))),
              World(w.replies[1..], w.log + [Insert(schema, table, JList(Batch(records)))]),
              cache)
  {
  }

  /** `upsert` with the hash attribute cached and every record a dict, when
      the server skipped some hashes: one `insert` of the whole batch, then
      one `update` of exactly the skipped records; the result is the
      inserted hashes followed by the updated ones, as a list for a list and
      as the first of them otherwise. */
  lemma UpsertWarm(records: Json, cache: Json, schema: Json, table: Json, w: World)
    requires Truthy(cache) && Hashable(cache)
    requires forall i :: 0 <= i < |Batch(records)| ==> Batch(records)[i].JObj?
    requires |w.replies| >= 2 && w.replies[0].Answer? && w.replies[1].Answer?
    requires InsertOutcome(Ok(w.replies[0].body)).Ok? && InsertOutcome(Ok(w.replies[0].body)).value.1 != []
    requires UpdateOutcome(Ok(w.replies[1].body)).Ok?
    ensures var outcome := InsertOutcome(Ok(w.replies[0].body)).value;
      UpsertSpec(records, cache, schema, table, w)
      == TOut(Ok(Shape(records, UpsertedHashes(outcome.0, UpdateOutcome(Ok(w.replies[1].body)).value))),
              World(w.replies[2..], w.log + [Insert(schema, table, JList(Batch(records))),
                                             Update(schema, table, JList(Filtered(Batch(records), cache, outcome.1)))]),
              cache)
  {
    var outcome := InsertOutcome(Ok(w.replies[0].body)).value;
    var batch := Batch(records);
    var w1 := World(w.replies[1..], w.log + [Insert(schema, table, JList(batch))]);
    assert Exchange(w, Insert(schema, table, JList(batch))) == Out(Ok(w.replies[0].body), w1);
    WarmUpdateCandidates(batch, outcome.1, cache, schema, table, w1);
    var filtered := Filtered(batch, cache, outcome.1);
    var w2 := World(w.replies[2..], w1.log + [Update(schema, table, JList(filtered))]);
    assert w1.replies[1..] == w.replies[2..];
    assert Exchange(w1, Update(schema, table, JList(filtered))) == Out(Ok(w.replies[1].body), w2);
  }

  /** With the hash attribute not yet known, picking the records to update
      asks for it once, at the first record, and caches it for the rest. */
  lemma ColdUpdateCandidates(records: seq<Json>, skipped: seq<string>, cache: Json, hash: Json, schema: Json, table: Json, w: World)
    requires !Truthy(cache) && Truthy(hash) && Hashable(hash)
    requires records != [] && forall i :: 0 <= i < |records| ==> records[i].JObj?
    requires w.replies != [] && w.replies[0].Answer?
    requires Subscript(w.replies[0].body, JStr("hash_attribute")) == Ok(hash)
    ensures UpdateCandidatesSpec(records, skipped, cache, schema, table, w)
      == TOut(Ok(Filtered(records, hash, skipped)), World(w.replies[1..], w.log + [DescribeTable(schema, table)]), hash)
  {
    var h := HashAttributeSpec(cache, schema, table, w);
    assert h == TOut(Ok(hash), World(w.replies[1..], w.log + [DescribeTable(schema, table)]), hash);
    WarmUpdateCandidates(records[1..], skipped, hash, schema, table, h.world);
  }

  /** `upsert` along its update path, given how picking the records went. */
  lemma UpsertUpdatePath(records: Json, cache: Json, schema: Json, table: Json, w: World, f: TOut<seq<Json>>)
    requires w.replies != [] && w.replies[0].Answer?
    requires InsertOutcome(Ok(w.replies[0].body)).Ok? && InsertOutcome(Ok(w.replies[0].body)).value.1 != []
    requires f == UpdateCandidatesSpec(Batch(records), InsertOutcome(Ok(w.replies[0].body)).value.1, cache, schema, table,
                                       World(w.replies[1..], w.log + [Insert(schema, table, JList(Batch(records)))]))
    requires f.result.Ok? && f.world.replies != [] && f.world.replies[0].Answer?
    requires UpdateOutcome(Ok(f.world.replies[0].body)).Ok?
    ensures UpsertSpec(records, cache, schema, table, w)
      == TOut(Ok(Shape(records, UpsertedHashes(InsertOutcome(Ok(w.replies[0].body)).value.0,
                                               UpdateOutcome(Ok(f.world.replies[0].body)).value))),
              World(f.world.replies[1..], f.world.log + [Update(schema, table, JList(f.result.value))]),
              f.cache)
  {
  }

  /** `upsert` with the hash attribute not yet known: it is fetched once,
      between the `insert` and the `update`, and then cached for the rest of
      the records and for later calls. */
  lemma UpsertCold(records: Json, cache: Json, hash: Json, schema: Json, table: Json, w: World)
    requires !Truthy(cache) && Truthy(hash) && Hashable(hash)
    requires Batch(records) != [] && forall i :: 0 <= i < |Batch(records)| ==> Batch(records)[i].JObj?
    requires |w.replies| >= 3 && w.replies[0].Answer? && w.replies[1].Answer? && w.replies[2].Answer?
    requires InsertOutcome(Ok(w.replies[0].body)).Ok? && InsertOutcome(Ok(w.replies[0].body)).value.1 != []
    requires Subscript(w.replies[1].body, JStr("hash_attribute")) == Ok(hash)
    requires UpdateOutcome(Ok(w.replies[2].body)).Ok?
    ensures var outcome := InsertOutcome(Ok(w.replies[0].body)).value;
      UpsertSpec(records, cache, schema, table, w)
      == TOut(Ok(Shape(records, UpsertedHashes(outcome.0, UpdateOutcome(Ok(w.replies[2].body)).value))),
              World(w.replies[3..], w.log + [Insert(schema, table, JList(Batch(records))),
                                             DescribeTable(schema, table),
                                             Update(schema, table, JList(Filtered(Batch(records), hash, outcome.1)))]),
              hash)
  {
    var outcome := InsertOutcome(Ok(w.replies[0].body)).value;
    var batch := Batch(records);
    var w1 := World(w.replies[1..], w.log + [Insert(schema, table, JList(batch))]);
    var filtered := Filtered(batch, hash, outcome.1);
    var f := UpdateCandidatesSpec(batch, outcome.1, cache, schema, table, w1);
    var w2 := World(w.replies[2..], w1.log + [DescribeTable(schema, table)]);
    assert f == TOut(Ok(filtered), w2, hash) by {
      ColdUpdateCandidates(batch, outcome.1, cache, hash, schema, table, w1);
      assert w1.replies[1..] == w.replies[2..];
    }
    var log := w.log + [Insert(schema, table, JList(batch)), DescribeTable(schema, table), Update(schema, table, JList(filtered))];
    AppendThree(w.log, Insert(schema, table, JList(batch)), DescribeTable(schema, table), Update(schema, table, JList(filtered)));
    assert w2.replies[0] == w.replies[2] && w2.replies[1..] == w.replies[3..];
    UpsertUpdatePath(records, cache, schema, table, w, f);
  }

  /** A single record the server assigns an id to: the handle of that id. */
  lemma UpsertSingleNew(w: World)
    requires w.replies == [Answer(JObj([("inserted_hashes", JList([JStr("assignedID_1")])), ("skipped_hashes", JList([]))]))]
    ensures var record := JObj([("name", JStr("a"))]);
      var o := UpsertSpec(record, JStr("id"), JStr("dev"), JStr("dog"), w);
      o.result == Ok(OneRecord(JStr("assignedID_1")))
      && o.world == World([], w.log + [Insert(JStr("dev"), JStr("dog"), JList([record]))])
  {
    assert Stringify([JStr("assignedID_1")]) == ["assignedID_1"] && Stringify([]) == [];
    assert InsertOutcome(Ok(w.replies[0].body)) == Ok((["assignedID_1"], []));
    assert UpsertedHashes(["assignedID_1"], []) == [JStr("assignedID_1")];
  }

  // ------------------------------------------------------------- delete

  /** `table.delete(k)` raises exactly when the server reports skipped hashes,
      and then names `k`. */
  lemma TableDeleteReportsMissing(schema: Json, table: Json, k: Json, w: World)
    requires w.replies != [] && w.replies[0].Answer?
    requires w.replies[0].body.JObj? && "skipped_hashes" in Keys(w.replies[0].body.entries)
    ensures var o := TableDeleteSpec(schema, table, k, w);
      var skipped := Find(w.replies[0].body.entries, "skipped_hashes").value;
      o.world == World(w.replies[1..], w.log + [Delete(schema, table, JList([k]))])
      && (o.result.Ok? <==> !Truthy(skipped))
      && (o.result.Err? ==> o.result == Err(HarperDBError(HashNotFoundMessage(k))))
  {
  }

  /** `record.delete()` sends the same request and succeeds on any answer,
      even one reporting the hash as skipped, on which `table.delete` raises. */
  lemma DeleteAsymmetry(schema: Json, table: Json, k: Json, w: World)
    requires w.replies != [] && w.replies[0].Answer?
    ensures RecordDeleteSpec(schema, table, k, w).result == Ok(())
    ensures RecordDeleteSpec(schema, table, k, w).world == TableDeleteSpec(schema, table, k, w).world
    ensures var body := w.replies[0].body;
      body.JObj? && "skipped_hashes" in Keys(body.entries) && Truthy(Find(body.entries, "skipped_hashes").value)
      ==> TableDeleteSpec(schema, table, k, w).result.Err?
  {
  }

  // ------------------------------------------------------------- records

  /** `record[key]` on the answer to its `search_by_hash`: HarperDBError when
      no record came back, KeyError when the record lacks the key, the value
      otherwise. */
  lemma FieldReadOutcomes(schema: Json, table: Json, hash: Json, key: string, w: World)
    requires w.replies != [] && w.replies[0].Answer? && w.replies[0].body.JList?
    ensures var rows := w.replies[0].body.items;
      var o := FieldSpec(schema, table, hash, JStr(key), w);
      o.world == World(w.replies[1..], w.log + [HashQuery(schema, table, hash)])
      && (rows == [] ==> o.result == Err(HarperDBError(RecordNotFoundMessage(hash, schema, table))))
      && (rows != [] && rows[0].JObj? && key !in Keys(rows[0].entries) ==> o.result == Err(KeyError(JStr(key))))
      && (rows != [] && rows[0].JObj? && key in Keys(rows[0].entries) ==> o.result == Ok(Find(rows[0].entries, key).value))
  {
  }

  /** On an empty answer the three record reads fail differently: `record[key]`
      and the timestamps with HarperDBError, `to_dict` with a bare IndexError. */
  lemma EmptyAnswerErrors(schema: Json, table: Json, hash: Json, key: Json, field: string, w: World)
    requires w.replies != [] && w.replies[0] == Answer(JList([]))
    ensures FieldSpec(schema, table, hash, key, w).result == Err(HarperDBError(RecordNotFoundMessage(hash, schema, table)))
    ensures RecordTimestampSpec(schema, table, hash, field, w).result == Err(HarperDBError(HashNotFoundMessage(hash)))
    ensures ToDictSpec(schema, table, hash, w).result == Err(IndexError)
  {
  }

  /** `record[key] = value` sends the bare mapping `{key: value}`; the second
      clause, that the records argument is not a list, follows from the first. */
  lemma SetFieldSendsMapping(schema: Json, table: Json, key: Json, value: Json, w: World)
    requires Hashable(key)
    ensures var o := SetFieldSpec(schema, table, key, value, w);
      o.world.log == w.log + [Update(schema, table, JObj([(JsonKey(key), value)]))]
      && !o.world.log[|w.log|].records.JList?
  {
  }

  /** The entries of `row` whose keys are not timestamps, in order. */
  function NonTimestamp(items: seq<(string, Json)>): (r: seq<(string, Json)>)
    ensures forall p :: p in r <==> p in items && !IsTimestampKey(p.0)
    ensures forall k :: k in Keys(r) ==> k in Keys(items)
    decreases |items|
  {
    if items == [] then []
    else
      var init := items[..|items| - 1];
      assert items == init + [items[|items| - 1]];
      var rest := NonTimestamp(init);
      forall k | k in Keys(rest) ensures k in Keys(items) {
        var i :| 0 <= i < |rest| && Keys(rest)[i] == k;
        assert rest[i] in init;
      }
      if IsTimestampKey(items[|items| - 1].0) then rest else rest + [items[|items| - 1]]
  }

  /** The timestamp filter works entry by entry: the last entry stands for
      itself unless its key is a timestamp. */
  lemma NonTimestampSnoc(items: seq<(string, Json)>)
    requires items != []
    ensures NonTimestamp(items)
      == NonTimestamp(items[..|items| - 1]) + (if IsTimestampKey(items[|items| - 1].0) then [] else [items[|items| - 1]])
  {
  }

  /** The timestamp filter keeps order: filtering a concatenation filters each part. */
  lemma {:induction false} NonTimestampAppend(a: seq<(string, Json)>, b: seq<(string, Json)>)
    ensures NonTimestamp(a + b) == NonTimestamp(a) + NonTimestamp(b)
    decreases |b|
  {
    if b == [] {
      assert a + b == a;
    } else {
      var init := b[..|b| - 1];
      var last := b[|b| - 1];
      NonTimestampAppend(a, init);
      InitOfAppend(a, b);
      NonTimestampSnoc(a + b);
      NonTimestampSnoc(b);
      ConcatStepBack(NonTimestamp(a + b), NonTimestamp(b), NonTimestamp(a + init), NonTimestamp(init),
                     NonTimestamp(a), if IsTimestampKey(last.0) then [] else [last]);
    }
  }

  /** With distinct keys, as in any decoded dict, `to_dict` keeps exactly the
      non-timestamp entries, in their order. */
  lemma {:induction false} WithoutTimestampsFilters(items: seq<(string, Json)>)
    requires Distinct(Keys(items))
    ensures WithoutTimestamps(items) == NonTimestamp(items)
    decreases |items|
  {
    if items != [] {
      var init := items[..|items| - 1];
      var k := items[|items| - 1].0;
      var v := items[|items| - 1].1;
      assert Keys(init) == Keys(items)[..|items| - 1];
      WithoutTimestampsFilters(init);
      if !IsTimestampKey(k) {
        assert k !in Keys(init);
        assert k !in Keys(NonTimestamp(init));
      }
    }
  }

  /** `to_dict` never returns a timestamp, and every other key of the row
      keeps its value. */
  lemma {:induction false} ToDictContents(items: seq<(string, Json)>)
    ensures forall k :: k in Keys(WithoutTimestamps(items)) ==> !IsTimestampKey(k)
    ensures forall k :: !IsTimestampKey(k) ==> Find(WithoutTimestamps(items), k) == Find(LastWins(items), k)
    decreases |items|
  {
    if items != [] {
      var init := items[..|items| - 1];
      ToDictContents(init);
      var k := items[|items| - 1].0;
      var v := items[|items| - 1].1;
      forall j | !IsTimestampKey(j)
        ensures Find(WithoutTimestamps(items), j) == Find(LastWins(items), j)
      {
        if !IsTimestampKey(k) {
          FindAfterPut(WithoutTimestamps(init), k, v, j);
        }
        FindAfterPut(LastWins(init), k, v, j);
      }
      if !IsTimestampKey(k) {
        PutKeys(WithoutTimestamps(init), k, v);
      }
    }
  }

  /** The dict built by assigning every item in turn: a later item overrides
      an earlier one with the same key. */
  function LastWins(items: seq<(string, Json)>): seq<(string, Json)>
    decreases |items|
  {
    if items == [] then [] else DictPut(LastWins(items[..|items| - 1]), items[|items| - 1].0, items[|items| - 1].1)
  }

  lemma {:induction false} FindAfterPut(es: seq<(string, Json)>, k: string, v: Json, j: string)
    ensures Find(DictPut(es, k, v), j) == if j == k then Some(v) else Find(es, j)
    decreases |es|
  {
    if es != [] && es[0].0 != k {
      FindAfterPut(es[1..], k, v, j);
    }
  }

  lemma {:induction false} PutKeys(es: seq<(string, Json)>, k: string, v: Json)
    ensures forall j :: j in Keys(DictPut(es, k, v)) <==> j in Keys(es) || j == k
    decreases |es|
  {
    if es != [] && es[0].0 != k {
      PutKeys(es[1..], k, v);
      assert Keys(DictPut(es, k, v)) == [es[0].0] + Keys(DictPut(es[1..], k, v));
      assert Keys(es) == [es[0].0] + Keys(es[1..]);
    }
  }

  // ------------------------------------------------------------- tables

  /** The table's `attributes`: every description must have an `attribute`
      entry (the first one lacking it raises its error); the names kept are
      exactly the non-timestamp ones, in order. */
  lemma {:induction false} AttributeNamesFilters(attributes: seq<Json>)
    ensures AttributeNames(attributes).Ok? <==>
      forall i :: 0 <= i < |attributes| ==> Subscript(attributes[i], JStr("attribute")).Ok?
    ensures AttributeNames(attributes).Err? ==>
      exists i :: 0 <= i < |attributes| && Subscript(attributes[i], JStr("attribute")) == Err(AttributeNames(attributes).error)
    ensures AttributeNames(attributes).Ok? ==>
      AttributeNames(attributes).value == KeptNames(attributes)
    decreases |attributes|
  {
    if attributes != [] {
      AttributeNamesFilters(attributes[1..]);
      var a := Subscript(attributes[0], JStr("attribute"));
      if a.Ok? && AttributeNames(attributes[1..]).Err? {
        var i :| 0 <= i < |attributes[1..]| && Subscript(attributes[1..][i], JStr("attribute")) == Err(AttributeNames(attributes[1..]).error);
        assert attributes[1..][i] == attributes[i + 1];
      }
      if AttributeNames(attributes).Ok? {
        forall i | 0 <= i < |attributes| ensures Subscript(attributes[i], JStr("attribute")).Ok? {
          if i > 0 { assert attributes[1..][i - 1] == attributes[i]; }
        }
      }
      if forall i :: 0 <= i < |attributes| ==> Subscript(attributes[i], JStr("attribute")).Ok? {
        forall i | 0 <= i < |attributes[1..]| ensures Subscript(attributes[1..][i], JStr("attribute")).Ok? {
          assert attributes[1..][i] == attributes[i + 1];
        }
      }
    }
  }

  /** The attribute names that are not timestamps, for descriptions that all
      have one. */
  function KeptNames(attributes: seq<Json>): (r: seq<Json>)
    ensures forall x :: x in r ==> x != JStr(CreatedTime) && x != JStr(UpdatedTime)
    ensures forall x :: x in r ==> exists i :: 0 <= i < |attributes| && Subscript(attributes[i], JStr("attribute")) == Ok(x)
    ensures forall i :: 0 <= i < |attributes| && Subscript(attributes[i], JStr("attribute")).Ok? ==>
              var a := Subscript(attributes[i], JStr("attribute")).value;
              a != JStr(CreatedTime) && a != JStr(UpdatedTime) ==> a in r
    decreases |attributes|
  {
    if attributes == [] then []
    else
      var rest := KeptNames(attributes[1..]);
      forall x | x in rest ensures exists i :: 0 <= i < |attributes| && Subscript(attributes[i], JStr("attribute")) == Ok(x) {
        var i :| 0 <= i < |attributes[1..]| && Subscript(attributes[1..][i], JStr("attribute")) == Ok(x);
        assert attributes[1..][i] == attributes[i + 1];
      }
      forall i | 1 <= i < |attributes| ensures attributes[i] == attributes[1..][i - 1] { }
      match Subscript(attributes[0], JStr("attribute"))
      case Ok(a) => if a == JStr(CreatedTime) || a == JStr(UpdatedTime) then rest else [a] + rest
      case Err(_) => rest
  }

  /** The name one description contributes: its `attribute` unless that is a
      timestamp, nothing when it has none. */
  function KeptName(description: Json): seq<Json> {
    match Subscript(description, JStr("attribute"))
    case Ok(n) => if n == JStr(CreatedTime) || n == JStr(UpdatedTime) then [] else [n]
    case Err(_) => []
  }

  /** The kept names are taken description by description. */
  lemma KeptNamesCons(attributes: seq<Json>)
    requires attributes != []
    ensures KeptNames(attributes) == KeptName(attributes[0]) + KeptNames(attributes[1..])
  {
  }

  /** The kept names follow the server's order: the names of a concatenation
      are the names of each part. */
  lemma {:induction false} KeptNamesAppend(a: seq<Json>, b: seq<Json>)
    ensures KeptNames(a + b) == KeptNames(a) + KeptNames(b)
    decreases |a|
  {
    if a == [] {
      assert a + b == b;
    } else {
      KeptNamesAppend(a[1..], b);
      TailOfAppend(a, b);
      KeptNamesCons(a + b);
      KeptNamesCons(a);
      ConcatStep(KeptNames(a + b), KeptNames(a), KeptNames(a[1..] + b),
                 KeptNames(a[1..]), KeptNames(b), KeptName(a[0]));
    }
  }

  /** `len(table)` is the `record_count` the server reports, as long as it is
      a length Python can return: a negative count raises ValueError and one
      above `sys.maxsize` raises OverflowError. */
  lemma TableLenCounts(schema: Json, table: Json, n: int, es: seq<(string, Json)>, rest: seq<Reply>, log: seq<Call>)
    requires Find(es, "record_count") == Some(JInt(n))
    ensures var o := TableLenSpec(schema, table, World([Answer(JObj(es))] + rest, log));
      o.world == World(rest, log + [DescribeTable(schema, table)])
      && (o.result.Ok? <==> 0 <= n <= MaxSize)
      && (0 <= n <= MaxSize ==> o.result == Ok(n))
      && (n < 0 ==> o.result == Err(ValueError))
      && (n > MaxSize ==> o.result == Err(OverflowError))
  {
    var w := World([Answer(JObj(es))] + rest, log);
    assert w.replies[0] == Answer(JObj(es)) && w.replies[1..] == rest;
  }

  /** The `hash_attribute` property reads the server only while the cache is
      falsy, and then stores what it read. */
  lemma HashAttributeCaching(cache: Json, schema: Json, table: Json, w: World)
    ensures var o := HashAttributeSpec(cache, schema, table, w);
      (Truthy(cache) ==> o == TOut(Ok(cache), w, cache))
      && (!Truthy(cache) ==> o.world.log == w.log + [DescribeTable(schema, table)])
      && (!Truthy(cache) && o.result.Ok? ==> o.cache == o.result.value)
      && (!Truthy(cache) && w.replies != [] && w.replies[0].Answer? ==>
            o.result == Subscript(w.replies[0].body, JStr("hash_attribute")))
      && (o.result.Err? ==> o.cache == cache)
  {
  }

  /** Read twice, the second read asks nothing once the first read a truthy
      value, and gives the same value; a falsy value is asked for again. */
  lemma HashAttributeTwice(cache: Json, schema: Json, table: Json, w: World)
    ensures var o1 := HashAttributeSpec(cache, schema, table, w);
      var o2 := HashAttributeSpec(o1.cache, schema, table, o1.world);
      (o1.result.Ok? && Truthy(o1.result.value) ==> o2 == o1)
      && (o1.result.Ok? && !Truthy(o1.result.value) ==> |o2.world.log| == |o1.world.log| + 1)
  {
  }

  /** The value each row holds under `key` (null where it holds none). */
  function Column(rows: seq<Json>, key: string): (r: seq<Json>)
    ensures |r| == |rows|
    ensures forall i :: 0 <= i < |rows| && rows[i].JObj? && key in Keys(rows[i].entries) ==>
      Find(rows[i].entries, key) == Some(r[i])
    decreases |rows|
  {
    if rows == [] then []
    else
      var v := match rows[0]
        case JObj(es) => (match Find(es, key) case Some(v) => v case None => JNull)
        case _ => JNull;
      var rest := Column(rows[1..], key);
      assert forall i :: 1 <= i < |rows| ==> rows[i] == rows[1..][i - 1];
      [v] + rest
  }

  /** With the hash attribute cached and every row a dict that holds it,
      `search_by_value` makes no further request and returns the handles of
      the rows' hash values, in order. */
  lemma {:induction false} RowHashesWarm(rows: seq<Json>, key: string, schema: Json, table: Json, w: World)
    requires key != ""
    requires forall i :: 0 <= i < |rows| ==> rows[i].JObj? && key in Keys(rows[i].entries)
    ensures RowHashesSpec(rows, JStr(key), schema, table, w) == TOut(Ok(Column(rows, key)), w, JStr(key))
    decreases |rows|
  {
    if rows != [] {
      RowHashesWarm(rows[1..], key, schema, table, w);
      assert HashAttributeSpec(JStr(key), schema, table, w) == TOut(Ok(JStr(key)), w, JStr(key));
      assert Subscript(rows[0], JStr(key)) == Ok(Column(rows, key)[0]);
    }
  }

  /** Listing the tables and counting them agree, whichever shape the
      `describe_schema` answer has; the legacy list shape and the mapping
      shape give the same tables. */
  lemma SchemaShapes(schema: Json, es: seq<(string, Json)>, rest: seq<Reply>, log: seq<Call>)
    ensures var asMap := World([Answer(JObj(es))] + rest, log);
      var asList := World([Answer(JList(Vals(es)))] + rest, log);
      SchemaTablesSpec(schema, asMap) == SchemaTablesSpec(schema, asList)
      && SchemaLenSpec(schema, asMap) == SchemaLenSpec(schema, asList)
      && SchemaLenSpec(schema, asMap).result == Ok(|es|)
  {
  }

  lemma SchemaLenMatchesTables(schema: Json, w: World)
    ensures var tables := SchemaTablesSpec(schema, w);
      tables.result.Ok? ==> SchemaLenSpec(schema, w) == Out(Ok(|tables.result.value|), tables.world)
  {
  }

  // ------------------------------------------------------------- database

  /** When `describe_all` names each schema once, `_get_schemas` keeps them
      all, in order, and `len(database)` counts them. */
  lemma {:induction false} SchemaNamesOfDistinctKeys(items: seq<(string, Json)>)
    requires Distinct(Keys(items))
    ensures SchemaNames(items) == Keys(items)
    decreases |items|
  {
    if items != [] {
      var ks := Keys(items);
      var init := items[..|items| - 1];
      var k := items[|items| - 1].0;
      assert Keys(init) == ks[..|items| - 1];
      assert Keys(items) == Keys(init) + [k];
      SchemaNamesOfDistinctKeys(init);
      assert k !in Keys(init) by {
        forall j | 0 <= j < |init| ensures Keys(init)[j] != k {
          assert ks[j] != ks[|items| - 1];
        }
      }
    }
  }

  lemma DatabaseLenCounts(es: seq<(string, Json)>, rest: seq<Reply>, log: seq<Call>)
    requires Distinct(Keys(es))
    ensures DatabaseLenSpec(World([Answer(JObj(es))] + rest, log)).result == Ok(|Keys(es)|)
    ensures DatabaseLenSpec(World([Answer(JObj(es))] + rest, log)).world == World(rest, log + [DescribeAll])
  {
    SchemaNamesOfDistinctKeys(es);
  }

  // ------------------------------------------------------------- iterators

  /** The positions `from` to `n - 1`, then StopIteration. */
  function Pass(from: nat, n: nat): (r: seq<Option<nat>>)
    requires from <= n
    ensures |r| == n - from + 1 && r[n - from] == None
    ensures forall j :: 0 <= j < n - from ==> r[j] == Some(from + j)
  {
    seq(n - from, j requires 0 <= j < n - from => Some(from + j)) + [None]
  }

  /** From index `i`, `n - i + 1` calls of `__next__` yield the positions
      `i` to `n - 1`, then StopIteration, and leave the index at 0. */
  lemma {:induction false} NextCallsPass(i: nat, n: nat)
    requires i <= n
    ensures NextCalls(i, n, n - i + 1).0 == Pass(i, n)
    ensures NextCalls(i, n, n - i + 1).1 == 0
    decreases n - i
  {
    if i < n {
      NextCallsPass(i + 1, n);
      assert NextCalls(i, n, n - i + 1).0 == [Some(i)] + NextCalls(i + 1, n, n - (i + 1) + 1).0;
      assert Pass(i, n) == [Some(i)] + Pass(i + 1, n);
    } else {
      assert Pass(i, n) == [None];
    }
  }

  /** `a + b` calls are `a` calls followed by `b` calls. */
  lemma {:induction false} NextCallsSplit(i: nat, n: nat, a: nat, b: nat)
    ensures NextCalls(i, n, a + b).0 == NextCalls(i, n, a).0 + NextCalls(NextCalls(i, n, a).1, n, b).0
    ensures NextCalls(i, n, a + b).1 == NextCalls(NextCalls(i, n, a).1, n, b).1
    decreases a
  {
    if a > 0 {
      var y := NextStep(i, n).0;
      var i1 := NextStep(i, n).1;
      NextCallsSplit(i1, n, a - 1, b);
      var first := NextCalls(i1, n, a - 1);
      var second := NextCalls(first.1, n, b);
      assert NextCalls(i, n, a + b).0 == [y] + NextCalls(i1, n, a - 1 + b).0;
      assert NextCalls(i, n, a).0 == [y] + first.0;
      assert [y] + (first.0 + second.0) == ([y] + first.0) + second.0;
    }
  }

  /** A fresh iterator over `n` elements yields them all, raises
      StopIteration, and can then be walked again from the start. */
  lemma IteratorRestarts(n: nat)
    ensures NextCalls(0, n, n + 1).0 == Pass(0, n)
    ensures NextCalls(0, n, n + 1).1 == 0
    ensures NextCalls(0, n, 2 * (n + 1)).0 == Pass(0, n) + Pass(0, n)
    ensures NextCalls(0, n, 2 * (n + 1)).1 == 0
  {
    NextCallsPass(0, n);
    NextCallsSplit(0, n, n + 1, n + 1);
  }
}
