/** `VectorDBService` of app/services/client/vector_db_service.py: the
    schema of the `Post` collection, and `create_collection`, `batch_add`
    and `record_exists` over an abstract index, a map from collection names
    to the objects stored in them by id. Whether the index accepts an
    object, or a call to it fails, is a parameter. */
module VectorDb {
  import opened Wrappers
  import JsonData

  // ------------------------------------------------------------------ schema

  const CollectionName: string := "Post"
  const PrimaryKey: string := "post_id"
  const VectorizerModel: string := "text-embedding-3-large"

  datatype DataType = Text | Number

  /** A schema property; an index flag that is not given is None and takes
      the index's default. */
  datatype Property = Property(name: string, dataType: DataType, skipVectorization: bool,
                               indexFilterable: Option<bool>, indexSearchable: Option<bool>)

  const Properties: seq<Property> := [
    Property("post_id", Text, true, None, None),
    Property("url", Text, true, None, None),
    Property("description", Text, false, None, None),
    Property("impact_score", Number, true, None, None),
    Property("search_term", Text, false, None, None),
    Property("transcript", Text, false, None, None),
    Property("text_elements", Text, false, None, None),
    Property("shooting_style", Text, true, None, None),
    Property("object", Text, true, Some(false), Some(false))]

  /** The first property of `ps` with the given name. */
  function PropertyNamed(ps: seq<Property>, name: string): (r: Option<Property>)
    ensures r.Some? ==> r.value in ps && r.value.name == name
    ensures r.None? <==> forall i :: 0 <= i < |ps| ==> ps[i].name != name
  {
    if ps == [] then None
    else if ps[0].name == name then Some(ps[0])
    else PropertyNamed(ps[1..], name)
  }

  /** The property at `i` is the first with its name. */
  lemma {:induction false} PropertyNamedAt(ps: seq<Property>, i: nat, name: string)
    requires i < |ps| && ps[i].name == name
    requires forall j :: 0 <= j < i ==> ps[j].name != name
    ensures PropertyNamed(ps, name) == Some(ps[i])
  {
    if i > 0 {
      PropertyNamedAt(ps[1..], i - 1, name);
    }
  }

  /** The primary key is a property; the `object` property skips
      vectorization and is neither filterable nor searchable, and it is the
      only property whose index flags are set. */
  lemma SchemaFacts()
    ensures PropertyNamed(Properties, PrimaryKey).Some?
    ensures PropertyNamed(Properties, "object") == Some(Property("object", Text, true, Some(false), Some(false)))
    ensures Properties[|Properties| - 1].name == "object"
    ensures forall i :: 0 <= i < |Properties| - 1 ==>
              Properties[i].name != "object" && Properties[i].indexFilterable.None? && Properties[i].indexSearchable.None?
  {
    forall i | 0 <= i < |Properties| - 1
      ensures Properties[i].name != "object" && Properties[i].indexFilterable.None? && Properties[i].indexSearchable.None?
    {
      if i < 4 {
        if i < 2 { assert i == 0 || i == 1; } else { assert i == 2 || i == 3; }
      } else {
        if i < 6 { assert i == 4 || i == 5; } else { assert i == 6 || i == 7; }
      }
    }
    PropertyNamedAt(Properties, 0, PrimaryKey);
    PropertyNamedAt(Properties, 8, "object");
  }

  // ------------------------------------------------------------ identifiers

  /** `generate_uuid5(value)`: the same value always gives the same id. The
      library hashes the value's text, so values with the same text share an
      id; this model keys ids by the value itself. */
  datatype Uuid = Uuid5(key: JsonData.Json)

  /** A record's properties by name. */
  type Record = map<string, JsonData.Json>

  /** `batch.number_errors > 10` stops the submission. */
  const ErrorLimit: nat := 10

  // ----------------------------------------------------------------- batches

  /** The index side of a batch: the objects of the collection and the
      failed objects; `keyError` is set when a record had no primary key. */
  datatype Batch = Batch(objects: map<Uuid, Record>, failed: seq<Record>, keyError: bool)

  /** Whether the loop of `batch_add` has stopped. */
  predicate Stopped(b: Batch)
  {
    b.keyError || |b.failed| > ErrorLimit
  }

  /** The batch after the loop has looked at the first `n` records: each
      record is added under the id of its primary key when the collection is
      present and the index accepts it, and counts as failed otherwise; a
      record without a primary key raises, and more than `ErrorLimit`
      failures stop the loop. */
  function Submit(objects: map<Uuid, Record>, present: bool, records: seq<Record>,
                  accepts: (Uuid, Record) -> bool, n: nat): Batch
    requires n <= |records|
  {
    if n == 0 then Batch(objects, [], false)
    else
      var p := Submit(objects, present, records, accepts, n - 1);
      var record := records[n - 1];
      if Stopped(p) then p
      else if PrimaryKey !in record then p.(keyError := true)
      else
        var id := Uuid5(record[PrimaryKey]);
        if present && accepts(id, record) then p.(objects := p.objects[id := record])
        else p.(failed := p.failed + [record])
  }

  /** Once the loop has stopped, later records change nothing. */
  lemma {:induction false} StoppedStays(objects: map<Uuid, Record>, present: bool, records: seq<Record>,
                                        accepts: (Uuid, Record) -> bool, n: nat, m: nat)
    requires n <= m <= |records|
    requires Stopped(Submit(objects, present, records, accepts, n))
    ensures Submit(objects, present, records, accepts, m) == Submit(objects, present, records, accepts, n)
  {
    if m > n {
      StoppedStays(objects, present, records, accepts, n, m - 1);
    }
  }

  /** The first `n` steps only look at the first `n` records. */
  lemma {:induction false} SubmitPrefix(objects: map<Uuid, Record>, present: bool, records: seq<Record>,
                                        more: seq<Record>, accepts: (Uuid, Record) -> bool, n: nat)
    requires n <= |records|
    ensures Submit(objects, present, records + more, accepts, n) == Submit(objects, present, records, accepts, n)
  {
    if n > 0 {
      SubmitPrefix(objects, present, records, more, accepts, n - 1);
      assert (records + more)[n - 1] == records[n - 1];
    }
  }

  /** Submission stops for good: once a batch has stopped, records that
      come after are never added, never counted as failed and never read. */
  lemma LaterRecordsNeverAdded(objects: map<Uuid, Record>, present: bool, records: seq<Record>,
                               more: seq<Record>, accepts: (Uuid, Record) -> bool)
    requires Stopped(Submit(objects, present, records, accepts, |records|))
    ensures Submit(objects, present, records + more, accepts, |records + more|)
         == Submit(objects, present, records, accepts, |records|)
  {
    SubmitPrefix(objects, present, records, more, accepts, |records|);
    StoppedStays(objects, present, records + more, accepts, |records|, |records + more|);
  }

  /** At most `ErrorLimit + 1` failed objects are recorded, and the objects
      already stored are kept unless a record with the same id replaces
      them. */
  lemma {:induction false} SubmitBounds(objects: map<Uuid, Record>, present: bool, records: seq<Record>,
                                        accepts: (Uuid, Record) -> bool, n: nat)
    requires n <= |records|
    ensures |Submit(objects, present, records, accepts, n).failed| <= ErrorLimit + 1
    ensures objects.Keys <= Submit(objects, present, records, accepts, n).objects.Keys
    ensures !present ==> Submit(objects, present, records, accepts, n).objects == objects
  {
    if n > 0 {
      SubmitBounds(objects, present, records, accepts, n - 1);
    }
  }

  /** A batch without failures or a missing key has added every record
      under the id of its primary key. */
  lemma {:induction false} CleanBatchAddsAll(objects: map<Uuid, Record>, present: bool, records: seq<Record>,
                                             accepts: (Uuid, Record) -> bool, n: nat)
    requires n <= |records|
    requires var b := Submit(objects, present, records, accepts, n); !b.keyError && b.failed == []
    ensures forall j :: 0 <= j < n ==>
              PrimaryKey in records[j] && Uuid5(records[j][PrimaryKey]) in Submit(objects, present, records, accepts, n).objects
  {
    if n > 0 {
      var p := Submit(objects, present, records, accepts, n - 1);
      assert !p.keyError && p.failed == [];
      CleanBatchAddsAll(objects, present, records, accepts, n - 1);
    }
  }

  // ---------------------------------------------------------------- service

  /** `create_collection`'s effect: the collection, empty, unless it exists. */
  function WithCollection(collections: map<string, map<Uuid, Record>>): map<string, map<Uuid, Record>>
  {
    if CollectionName in collections then collections else collections[CollectionName := map[]]
  }

  /** After `create_collection` the collection exists, an existing one keeps
      its objects, other collections are untouched, and a second call
      changes nothing. */
  lemma WithCollectionFacts(collections: map<string, map<Uuid, Record>>)
    ensures CollectionName in WithCollection(collections)
    ensures CollectionName in collections ==> WithCollection(collections) == collections
    ensures forall name :: name in collections ==> name in WithCollection(collections)
    ensures forall name :: name in collections && name != CollectionName ==>
              WithCollection(collections)[name] == collections[name]
    ensures WithCollection(WithCollection(collections)) == WithCollection(collections)
  {
  }

  class VectorDbService {
    var collections: map<string, map<Uuid, Record>>
    /** `collection.batch.failed_objects` of the last batch. */
    var failedObjects: seq<Record>

    constructor (collections0: map<string, map<Uuid, Record>>)
      ensures collections == collections0 && failedObjects == []
    {
      collections := collections0;
      failedObjects := [];
    }

    /** `create_collection`: True when the collection exists or has been
        created; False when the index raises (`fault`), and then nothing is
        created. */
    method CreateCollection(fault: bool) returns (ok: bool)
      modifies this
      ensures ok <==> !fault
      ensures collections == if fault then old(collections) else WithCollection(old(collections))
      ensures failedObjects == old(failedObjects)
    {
      if fault {
        return false;
      }
      if CollectionName in collections {
        return true;
      }
      collections := collections[CollectionName := map[]];
      return true;
    }

    /** `batch_add`: the records go to the collection in order until more
        than `ErrorLimit` have failed; a record without a primary key raises
        KeyError (what was added before it stays added); the result is
        False exactly when some object failed. */
    method BatchAdd(records: seq<Record>, accepts: (Uuid, Record) -> bool) returns (r: Result<bool, Exception>)
      modifies this
      ensures var present := CollectionName in old(collections);
        var b := Submit(if present then old(collections)[CollectionName] else map[], present, records, accepts, |records|);
        && (b.keyError ==> r == Err(KeyError(PrimaryKey)))
        && (!b.keyError ==> r == Ok(b.failed == []))
        && failedObjects == b.failed
        && collections == if present then old(collections)[CollectionName := b.objects] else old(collections)
    {
      var present := CollectionName in collections;
      ghost var objects0: map<Uuid, Record> := if present then collections[CollectionName] else map[];
      var objects: map<Uuid, Record> := if present then collections[CollectionName] else map[];
      var failed: seq<Record> := [];
      var keyError := false;
      var i := 0;
      while i < |records| && !(keyError || |failed| > ErrorLimit)
        invariant 0 <= i <= |records|
        invariant Submit(objects0, present, records, accepts, i) == Batch(objects, failed, keyError)
      {
        var record := records[i];
        if PrimaryKey !in record {
          keyError := true;
        } else {
          var id := Uuid5(record[PrimaryKey]);
          if present && accepts(id, record) {
            objects := objects[id := record];
          } else {
            failed := failed + [record];
          }
        }
        i := i + 1;
      }
      if i < |records| {
        StoppedStays(objects0, present, records, accepts, i, |records|);
      }
      if present {
        collections := collections[CollectionName := objects];
      }
      failedObjects := failed;
      if keyError {
        return Err(KeyError(PrimaryKey));
      }
      return Ok(failed == []);
    }

    /** `record_exists`: whether the collection holds an object under the id
        of the given primary key. */
    method RecordExists(primaryKey: JsonData.Json) returns (b: bool)
      ensures b <==> CollectionName in collections && Uuid5(primaryKey) in collections[CollectionName]
    {
      b := CollectionName in collections && Uuid5(primaryKey) in collections[CollectionName];
    }
  }

  /** A post of a batch that returned True reports as existing afterwards:
      the batch stored it under the id `record_exists` looks up. */
  lemma AddedPostExists(collections: map<string, map<Uuid, Record>>, records: seq<Record>,
                        accepts: (Uuid, Record) -> bool, j: nat)
    requires CollectionName in collections
    requires j < |records|
    requires var b := Submit(collections[CollectionName], true, records, accepts, |records|);
      !b.keyError && b.failed == []
    ensures PrimaryKey in records[j]
    ensures var b := Submit(collections[CollectionName], true, records, accepts, |records|);
      Uuid5(records[j][PrimaryKey]) in collections[CollectionName := b.objects][CollectionName]
  {
    CleanBatchAddsAll(collections[CollectionName], true, records, accepts, |records|);
  }
}
