/**
 * The vector store as the application sees it: a list of class schemas and,
 * per class, the objects stored in it. The schemas this application creates,
 * and the value-level operations its client methods perform on the store,
 * are defined here together with what they preserve.
 */
module VectorStore {
  import opened PyValues
  import Config

  /** One entry of a class schema's "properties" list. */
  datatype Property = Property(name: string, dataType: seq<string>)

  /** A class schema; `vectorizer` is None when the schema leaves it to the store. */
  datatype ClassSchema = ClassSchema(name: string, vectorizer: Option<string>, properties: seq<Property>)

  /** A stored object: property name to value. */
  type Record = map<string, Json>

  /** The whole store: its schema list, in order, and the objects of each class. */
  datatype StoreState = StoreState(classes: seq<ClassSchema>, objects: map<string, seq<Record>>)

  function PropertyNames(ps: seq<Property>): (r: seq<string>)
    ensures |r| == |ps|
    ensures forall i :: 0 <= i < |ps| ==> r[i] == ps[i].name
  {
    if ps == [] then [] else [ps[0].name] + PropertyNames(ps[1..])
  }

  /** The schema of the metadata class: five string properties, no vectorizer set. */
  function MetadataSchema(): (c: ClassSchema)
    ensures c.name == Config.METADATA_COLLECTION && c.vectorizer.None?
    ensures PropertyNames(c.properties) == ["collection_name", "document_type", "index_id", "filename", "upload_date"]
    ensures forall p :: p in c.properties ==> p.dataType == ["string"]
  {
    ClassSchema(Config.METADATA_COLLECTION, None, [
      Property("collection_name", ["string"]),
      Property("document_type", ["string"]),
      Property("index_id", ["string"]),
      Property("filename", ["string"]),
      Property("upload_date", ["string"])
    ])
  }

  /** The schema of a chunk class, named by the caller and embedded by the Ollama vectorizer. */
  function ChunkSchema(name: string): (c: ClassSchema)
    ensures c.name == name && c.vectorizer == Some("text2vec-ollama")
  {
    ClassSchema(name, Some("text2vec-ollama"), [
      Property("text", ["text"]),
      Property("source", ["string"]),
      Property("page", ["int"]),
      Property("document_type", ["string"]),
      Property("index_id", ["string"]),
      Property("filename", ["string"])
    ])
  }

  /** A chunk class holds the text, its source and page (an int), and the three scope tags. */
  lemma ChunkSchemaProperties(name: string)
    ensures var c := ChunkSchema(name);
      && PropertyNames(c.properties) == ["text", "source", "page", "document_type", "index_id", "filename"]
      && forall p :: p in c.properties ==>
           p.dataType == (if p.name == "text" then ["text"] else if p.name == "page" then ["int"] else ["string"])
  {
  }

  /** `schema.exists(name)`: some class in the list carries that name. */
  predicate HasClass(cs: seq<ClassSchema>, name: string) {
    exists i :: 0 <= i < |cs| && cs[i].name == name
  }

  /** How many classes in the list carry the name. */
  function CountNamed(cs: seq<ClassSchema>, name: string): nat {
    if cs == [] then 0
    else CountNamed(cs[..|cs| - 1], name) + (if cs[|cs| - 1].name == name then 1 else 0)
  }

  predicate NamesDistinct(cs: seq<ClassSchema>) {
    forall i, j :: 0 <= i < j < |cs| ==> cs[i].name != cs[j].name
  }

  /**
   * Create-if-absent: the schema list after a class is created only when none carries its name.
   * Existing schemas are kept as they are, in place; at most one is added, at the end.
   */
  function EnsureClass(cs: seq<ClassSchema>, schema: ClassSchema): (r: seq<ClassSchema>)
    ensures HasClass(r, schema.name)
    ensures |cs| <= |r| <= |cs| + 1 && r[..|cs|] == cs
    ensures HasClass(cs, schema.name) ==> r == cs
    ensures !HasClass(cs, schema.name) ==> r[|cs|] == schema
  {
    if HasClass(cs, schema.name) then cs
    else
      assert (cs + [schema])[|cs|].name == schema.name;
      cs + [schema]
  }

  /** The objects stored in class `c` (none if the store has no entry for it). */
  function Objects(s: StoreState, c: string): seq<Record> {
    if c in s.objects then s.objects[c] else []
  }

  /** Insert `recs`, in order, into class `c`; nothing else changes. */
  function AppendObjects(s: StoreState, c: string, recs: seq<Record>): (r: StoreState)
    ensures r.classes == s.classes
    ensures Objects(r, c) == Objects(s, c) + recs
    ensures forall d :: d != c ==> Objects(r, d) == Objects(s, d)
  {
    s.(objects := s.objects[c := Objects(s, c) + recs])
  }

  /** The one object `store_metadata` inserts: the four arguments and the upload date. */
  function MetadataRecord(collectionName: string, documentType: string, indexId: string,
                          filename: string, uploadDate: string): (r: Record)
    ensures r.Keys == {"collection_name", "document_type", "index_id", "filename", "upload_date"}
    ensures r["collection_name"] == JStr(collectionName) && r["document_type"] == JStr(documentType)
    ensures r["index_id"] == JStr(indexId) && r["filename"] == JStr(filename)
    ensures r["upload_date"] == JStr(uploadDate)
  {
    map["collection_name" := JStr(collectionName), "document_type" := JStr(documentType),
        "index_id" := JStr(indexId), "filename" := JStr(filename), "upload_date" := JStr(uploadDate)]
  }

  /** The class names of the schema list in order, without the metadata class. */
  function CollectionNames(cs: seq<ClassSchema>): seq<string> {
    if cs == [] then []
    else
      var last := cs[|cs| - 1].name;
      CollectionNames(cs[..|cs| - 1]) + (if last != Config.METADATA_COLLECTION then [last] else [])
  }

  // ---------------------------------------------------------------------------
  // Create-if-absent

  /** A second create-if-absent of the same schema changes nothing. */
  lemma EnsureClassIdempotent(cs: seq<ClassSchema>, schema: ClassSchema)
    ensures EnsureClass(EnsureClass(cs, schema), schema) == EnsureClass(cs, schema)
  {
  }

  lemma {:induction false} CountNamedZero(cs: seq<ClassSchema>, name: string)
    ensures CountNamed(cs, name) == 0 <==> !HasClass(cs, name)
  {
    if cs != [] {
      var init := cs[..|cs| - 1];
      CountNamedZero(init, name);
      if HasClass(init, name) {
        var i :| 0 <= i < |init| && init[i].name == name;
        assert cs[i].name == name;
      }
      if HasClass(cs, name) && cs[|cs| - 1].name != name {
        var i :| 0 <= i < |cs| && cs[i].name == name;
        assert init[i].name == name;
      }
    }
  }

  lemma {:induction false} CountNamedDistinct(cs: seq<ClassSchema>, name: string)
    requires NamesDistinct(cs) && HasClass(cs, name)
    ensures CountNamed(cs, name) == 1
  {
    var init := cs[..|cs| - 1];
    assert NamesDistinct(init);
    if cs[|cs| - 1].name == name {
      CountNamedZero(init, name);
    } else {
      var i :| 0 <= i < |cs| && cs[i].name == name;
      assert init[i].name == name;
      CountNamedDistinct(init, name);
    }
  }

  /**
   * On a schema list whose names are distinct (as the store keeps them),
   * create-if-absent keeps them distinct and leaves exactly one class of the name.
   */
  lemma EnsureClassExactlyOne(cs: seq<ClassSchema>, schema: ClassSchema)
    requires NamesDistinct(cs)
    ensures NamesDistinct(EnsureClass(cs, schema))
    ensures CountNamed(EnsureClass(cs, schema), schema.name) == 1
  {
    var r := EnsureClass(cs, schema);
    if !HasClass(cs, schema.name) {
      forall i, j | 0 <= i < j < |r| ensures r[i].name != r[j].name {
        if j == |cs| {
          assert r[i] == cs[i];
        }
      }
    }
    CountNamedDistinct(r, schema.name);
  }

  // ---------------------------------------------------------------------------
  // Listing collections

  /** Listing distributes over concatenation: the metadata class is dropped, order is kept. */
  lemma {:induction false} CollectionNamesAppend(a: seq<ClassSchema>, b: seq<ClassSchema>)
    ensures CollectionNames(a + b) == CollectionNames(a) + CollectionNames(b)
    decreases |b|
  {
    if b == [] {
      assert a + b == a;
    } else {
      var init := b[..|b| - 1];
      assert (a + b)[..|a + b| - 1] == a + init;
      CollectionNamesAppend(a, init);
    }
  }

  /** A name is listed exactly when some class carries it and it is not the metadata class. */
  lemma {:induction false} CollectionNamesMembership(cs: seq<ClassSchema>, x: string)
    ensures x in CollectionNames(cs) <==> HasClass(cs, x) && x != Config.METADATA_COLLECTION
  {
    if cs != [] {
      var init := cs[..|cs| - 1];
      CollectionNamesMembership(init, x);
      if HasClass(init, x) {
        var i :| 0 <= i < |init| && init[i].name == x;
        assert cs[i].name == x;
      }
      if HasClass(cs, x) && cs[|cs| - 1].name != x {
        var i :| 0 <= i < |cs| && cs[i].name == x;
        assert init[i].name == x;
      }
    }
  }

  /** One entry per class, except the classes named like the metadata class. */
  lemma {:induction false} CollectionNamesLength(cs: seq<ClassSchema>)
    ensures |CollectionNames(cs)| == |cs| - CountNamed(cs, Config.METADATA_COLLECTION)
  {
    if cs != [] {
      CollectionNamesLength(cs[..|cs| - 1]);
    }
  }
}
