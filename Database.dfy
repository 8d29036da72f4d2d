/**
 * The application's client of the vector store (src/database/weaviate_client.py):
 * collection lifecycle, the metadata index, and the discovery queries.
 *
 * The store's schema list and object table are the client's fields. Running
 * a query is the store's work: each discovery method receives it as the
 * function `run`, which it applies to the query it builds and which either
 * answers or raises.
 */
module Database {
  import opened PyValues
  import opened VectorStore
  import opened Queries
  import Config

  /**
   * What a discovery getter returns for the store's `response`: the exception
   * running the query raised, the guard's exception, `[]` for a response
   * without items, or else the field values of the items with duplicates
   * removed (or the exception reading them raises).
   */
  ghost predicate DistinctResult(response: Outcome<Json>, field: string, r: Outcome<seq<Json>>) {
    && (response.Raise? ==> r == Raise(response.error))
    && (response.Ok? ==> DistinctAnswer(response.value, field, r))
  }

  /** What a discovery getter returns for a response the store did answer. */
  ghost predicate DistinctAnswer(response: Json, field: string, r: Outcome<seq<Json>>) {
    var g := Guard(response);
    && (g.Raise? ==> r == Raise(g.error))
    && (g == Ok(None) ==> r == Ok([]))
    && (g.Ok? && g.value.Some? ==>
          var fv := FieldValues(g.value.value, field);
          && (fv.Raise? ==> r == Raise(fv.error))
          && (fv.Ok? ==> r.Ok? && NoDuplicates(r.value) && forall v :: v in r.value <==> v in fv.value))
  }

  /**
   * The loop of `get_index_ids` / `get_document_types`: add the field of
   * every item to a set, then turn the set into a list.
   */
  method CollectDistinct(items: Json, field: string) returns (r: Outcome<seq<Json>>)
    ensures FieldValues(items, field).Raise? ==> r == Raise(FieldValues(items, field).error)
    ensures FieldValues(items, field).Ok? ==>
      r.Ok? && NoDuplicates(r.value) && forall v :: v in r.value <==> v in FieldValues(items, field).value
  {
    if items.JList? {
      r := CollectDistinctItems(items.items, field);
    } else {
      // A dict or a string is iterated as strings, which the first field lookup rejects.
      r := FieldValues(items, field);
    }
  }

  /** The same loop over the items of a list. */
  method CollectDistinctItems(xs: seq<Json>, field: string) returns (r: Outcome<seq<Json>>)
    ensures Collect(xs, field).Raise? ==> r == Raise(Collect(xs, field).error)
    ensures Collect(xs, field).Ok? ==>
      r.Ok? && NoDuplicates(r.value) && forall v :: v in r.value <==> v in Collect(xs, field).value
  {
    var unique: set<Json> := {};
    var i := 0;
    while i < |xs|
      invariant 0 <= i <= |xs|
      invariant Collect(xs[..i], field).Ok?
      invariant forall v :: v in unique <==> v in Collect(xs[..i], field).value
    {
      assert xs[..i + 1][..i] == xs[..i];
      var v := Subscript(xs[i], field);
      if v.Raise? {
        CollectFirstError(xs, field, i + 1);
        return Raise(v.error);
      }
      if !Hashable(v.value) {
        CollectFirstError(xs, field, i + 1);
        return Raise(TypeError("unhashable type: '" + TypeName(v.value) + "'"));
      }
      unique := unique + {v.value};
      i := i + 1;
    }
    assert xs[..i] == xs;
    var list := ListOfSet(unique);
    r := Ok(list);
  }

  class WeaviateClient {
    /** The store's schema list, in creation order. */
    var classes: seq<ClassSchema>
    /** The store's objects, per class. */
    var objects: map<string, seq<Record>>

    function State(): StoreState
      reads this
    {
      StoreState(classes, objects)
    }

    /** Class names are unique (the store refuses a second class of a name) and the metadata class exists. */
    ghost predicate Valid()
      reads this
    {
      NamesDistinct(classes) && HasClass(classes, Config.METADATA_COLLECTION)
    }

    /** Connects to a store in state `initial` and ensures the metadata class exists. */
    constructor (initial: StoreState)
      requires NamesDistinct(initial.classes)
      ensures Valid()
      ensures classes == EnsureClass(initial.classes, MetadataSchema())
      ensures objects == initial.objects
    {
      classes := initial.classes;
      objects := initial.objects;
      new;
      InitMetadataCollection();
    }

    /** `schema.exists(name)`. */
    predicate CollectionExists(name: string)
      reads this
      ensures CollectionExists(name) <==> CountNamed(classes, name) > 0
    {
      CountNamedZero(classes, name);
      HasClass(classes, name)
    }

    /** `schema.create_class(schema)`: the store appends the schema to its list; it refuses a name it already has. */
    method CreateClass(schema: ClassSchema)
      requires !HasClass(classes, schema.name)
      modifies this
      ensures classes == old(classes) + [schema] && objects == old(objects)
    {
      classes := classes + [schema];
    }

    /** Creates the metadata class unless a class of that name exists. */
    method InitMetadataCollection()
      requires NamesDistinct(classes)
      modifies this
      ensures Valid()
      ensures classes == EnsureClass(old(classes), MetadataSchema())
      ensures objects == old(objects)
    {
      EnsureClassExactlyOne(classes, MetadataSchema());
      if !CollectionExists(Config.METADATA_COLLECTION) {
        CreateClass(MetadataSchema());
      }
    }

    /** Creates a chunk class named `collectionName` unless a class of that name exists. */
    method InitCollection(collectionName: string)
      requires Valid()
      modifies this
      ensures Valid()
      ensures classes == EnsureClass(old(classes), ChunkSchema(collectionName))
      ensures objects == old(objects)
    {
      EnsureClassExactlyOne(classes, ChunkSchema(collectionName));
      if !CollectionExists(collectionName) {
        CreateClass(ChunkSchema(collectionName));
      }
    }

    /** `data_object.create`: one object per record, in order, into class `className`. */
    method AddObjects(className: string, records: seq<Record>)
      modifies this
      ensures State() == AppendObjects(old(State()), className, records)
    {
      objects := objects[className := Objects(State(), className) + records];
    }

    /**
     * Inserts one metadata record; the upload date, read from the clock in
     * the source, is a parameter. Always an insert: earlier records stay.
     */
    method StoreMetadata(collectionName: string, documentType: string, indexId: string,
                         filename: string, uploadDate: string)
      modifies this
      ensures State() == AppendObjects(old(State()), Config.METADATA_COLLECTION,
                                       [MetadataRecord(collectionName, documentType, indexId, filename, uploadDate)])
    {
      AddObjects(Config.METADATA_COLLECTION, [MetadataRecord(collectionName, documentType, indexId, filename, uploadDate)]);
    }

    /** Every class name of the schema, in order, except the metadata class. */
    method GetAllCollections() returns (r: seq<string>)
      ensures r == CollectionNames(classes)
    {
      r := [];
      var i := 0;
      while i < |classes|
        invariant 0 <= i <= |classes|
        invariant r == CollectionNames(classes[..i])
      {
        assert classes[..i + 1][..i] == classes[..i];
        var className := classes[i].name;
        if className != Config.METADATA_COLLECTION {
          r := r + [className];
        }
        i := i + 1;
      }
      assert classes[..i] == classes;
    }

    /** The distinct index ids recorded for a collection, through the store's `run`. */
    method GetIndexIds(collectionName: string, run: Query -> Outcome<Json>) returns (r: Outcome<seq<Json>>)
      ensures DistinctResult(run(DistinctFieldQuery("index_id", collectionName)), "index_id", r)
    {
      var answer := run(DistinctFieldQuery("index_id", collectionName));
      if answer.Raise? {
        return Raise(answer.error);
      }
      var g := Guard(answer.value);
      if g.Raise? {
        return Raise(g.error);
      }
      if g.value.None? {
        return Ok([]);
      }
      r := CollectDistinct(g.value.value, "index_id");
    }

    /** The distinct document types recorded for a collection, through the store's `run`. */
    method GetDocumentTypes(collectionName: string, run: Query -> Outcome<Json>) returns (r: Outcome<seq<Json>>)
      ensures DistinctResult(run(DistinctFieldQuery("document_type", collectionName)), "document_type", r)
    {
      var answer := run(DistinctFieldQuery("document_type", collectionName));
      if answer.Raise? {
        return Raise(answer.error);
      }
      var g := Guard(answer.value);
      if g.Raise? {
        return Raise(g.error);
      }
      if g.value.None? {
        return Ok([]);
      }
      r := CollectDistinct(g.value.value, "document_type");
    }

    /** The items the store returns for the three-tag files query, as they are. */
    function GetFiles(collectionName: string, documentType: string, indexId: string,
                      run: Query -> Outcome<Json>): (r: Outcome<Json>)
      ensures var answer := run(FilesQuery(collectionName, documentType, indexId));
        && (answer.Raise? ==> r == Raise(answer.error))
        && (answer.Ok? ==>
              var g := Guard(answer.value);
              && (g.Raise? ==> r == Raise(g.error))
              && (g == Ok(None) ==> r == Ok(JList([])))
              && (g.Ok? && g.value.Some? ==> r == Ok(g.value.value)))
    {
      var answer :- run(FilesQuery(collectionName, documentType, indexId));
      var g := Guard(answer);
      if g.Raise? then Raise(g.error)
      else if g.value.None? then Ok(JList([]))
      else Ok(g.value.value)
    }
  }

  // ---------------------------------------------------------------------------
  // Properties of the discovery getters

  /**
   * For a response listing metadata records that all carry the field, the
   * getter's list holds every recorded value of the field once, and nothing else.
   */
  lemma DistinctOfRecords(xs: seq<Json>, field: string, r: Outcome<seq<Json>>)
    requires forall i :: 0 <= i < |xs| ==> Readable(xs[i], field)
    requires DistinctResult(Ok(Response(JList(xs))), field, r)
    ensures r.Ok? && NoDuplicates(r.value)
    ensures forall v :: v in r.value <==> exists i :: 0 <= i < |xs| && Readable(xs[i], field) && xs[i].fields[field] == v
  {
    GuardPassesResponse(JList(xs));
    CollectOkIff(xs, field);
    var vs := Collect(xs, field).value;
    forall v ensures v in vs <==> exists i :: 0 <= i < |xs| && Readable(xs[i], field) && xs[i].fields[field] == v {
      if v in vs {
        var i :| 0 <= i < |vs| && vs[i] == v;
        assert xs[i].fields[field] == v;
      }
    }
  }

  /** A response whose items include a record without the field makes the getter raise. */
  lemma DistinctRaisesOnMissingField(xs: seq<Json>, field: string, j: nat, r: Outcome<seq<Json>>)
    requires j < |xs| && xs[j].JDict? && field !in xs[j].fields
    requires DistinctResult(Ok(Response(JList(xs))), field, r)
    ensures r.Raise?
  {
    GuardPassesResponse(JList(xs));
    MissingFieldRaises(xs, field, j);
  }

  /** For a response of the expected shape, the files getter returns its item list unchanged: same order, duplicates kept. */
  lemma GetFilesKeepsItems(c: WeaviateClient, collectionName: string, documentType: string, indexId: string,
                           run: Query -> Outcome<Json>, xs: seq<Json>)
    requires run(FilesQuery(collectionName, documentType, indexId)) == Ok(Response(JList(xs)))
    ensures c.GetFiles(collectionName, documentType, indexId, run) == Ok(JList(xs))
  {
    GuardPassesResponse(JList(xs));
  }

  // ---------------------------------------------------------------------------
  // The query call as written

  /** What the store's client raises for the discovery queries as they are sent. */
  const QUERY_GET_ERROR: Exception := TypeError("Query.get() got an unexpected keyword argument 'class'")

  /**
   * The discovery queries as written: the query dict is spread into keyword
   * arguments of `query.get`, whose parameters in the client library are a
   * class name and a property list, so the call raises before any request
   * is sent, whatever the query.
   */
  function AsWrittenRun(q: Query): Outcome<Json> {
    Raise(QUERY_GET_ERROR)
  }

  /** As written, the index-id, document-type and files getters raise for every collection. */
  lemma AsWrittenDiscoveryRaises(c: WeaviateClient, collectionName: string, documentType: string, indexId: string,
                                 field: string, r: Outcome<seq<Json>>)
    requires DistinctResult(AsWrittenRun(DistinctFieldQuery(field, collectionName)), field, r)
    ensures r == Raise(TypeError("Query.get() got an unexpected keyword argument 'class'"))
    ensures c.GetFiles(collectionName, documentType, indexId, AsWrittenRun)
      == Raise(TypeError("Query.get() got an unexpected keyword argument 'class'"))
  {
  }
}
