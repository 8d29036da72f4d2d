/**
 * The discovery queries the client sends to the metadata class, the guard
 * it applies to a query response, and the values it reads from the items
 * of a response. Only the shape of each where-clause is modelled: how the
 * store evaluates `Equal` on a string property is the store's business.
 */
module Queries {
  import opened PyValues
  import Config

  /** A where-clause: one `Equal` on a property path, or an `And` of operands. */
  datatype Where = Equal(path: seq<string>, valueString: string) | And(operands: seq<Where>)

  /**
   * The query dict the client builds: the class asked, the properties
   * returned and the where-clause. The client spreads it into keyword
   * arguments of the query builder and sends it.
   */
  datatype Query = Query(className: string, properties: seq<string>, where: Where)

  /** The single equality every per-collection discovery query filters on. */
  function CollectionFilter(collectionName: string): (w: Where)
    ensures w.Equal? && w.path == ["collection_name"] && w.valueString == collectionName
  {
    Equal(["collection_name"], collectionName)
  }

  /** The query of `get_index_ids` (field "index_id") and `get_document_types` (field "document_type"). */
  function DistinctFieldQuery(field: string, collectionName: string): (q: Query)
    ensures q.className == Config.METADATA_COLLECTION
    ensures q.properties == [field]
    ensures q.where == CollectionFilter(collectionName)
  {
    Query(Config.METADATA_COLLECTION, [field], CollectionFilter(collectionName))
  }

  /** The query of `get_files`: filename and upload date of the records matching all three tags. */
  function FilesQuery(collectionName: string, documentType: string, indexId: string): Query {
    Query(Config.METADATA_COLLECTION, ["filename", "upload_date"],
          And([CollectionFilter(collectionName),
               Equal(["document_type"], documentType),
               Equal(["index_id"], indexId)]))
  }

  /** `w` is a single `Equal` on the one-element path [property] with the given value. */
  predicate IsEqualOn(w: Where, property: string, value: string) {
    w.Equal? && w.path == [property] && w.valueString == value
  }

  /**
   * The files query asks the metadata class for filename and upload date
   * under an `And` of exactly three `Equal` predicates, one per tag, each
   * carrying the caller's value; the first is the collection filter the
   * other discovery queries use alone.
   */
  lemma FilesQueryShape(collectionName: string, documentType: string, indexId: string)
    ensures var q := FilesQuery(collectionName, documentType, indexId);
      && q.className == Config.METADATA_COLLECTION
      && q.properties == ["filename", "upload_date"]
      && q.where.And? && |q.where.operands| == 3
      && (forall o :: o in q.where.operands ==> o.Equal? && |o.path| == 1)
      && IsEqualOn(q.where.operands[0], "collection_name", collectionName)
      && IsEqualOn(q.where.operands[1], "document_type", documentType)
      && IsEqualOn(q.where.operands[2], "index_id", indexId)
      && q.where.operands[0] == DistinctFieldQuery("index_id", collectionName).where
  {
  }

  // ---------------------------------------------------------------------------
  // The response guard

  /**
   * The value under the keys data, Get and DocumentMetadata, in that order,
   * when the response is a dict of dicts of dicts holding those keys.
   */
  function NestedItems(result: Json): Option<Json> {
    if result.JDict? && "data" in result.fields then
      var data := result.fields["data"];
      if data.JDict? && "Get" in data.fields then
        var get := data.fields["Get"];
        if get.JDict? && Config.METADATA_COLLECTION in get.fields then Some(get.fields[Config.METADATA_COLLECTION])
        else None
      else None
    else None
  }

  /** The response a store gives when it answers with `items`. */
  function Response(items: Json): Json {
    JDict(map["data" := JDict(map["Get" := JDict(map[Config.METADATA_COLLECTION := items])])])
  }

  /**
   * The check every discovery getter makes on the store's answer: a falsy
   * answer, or one lacking any of the three nested keys, makes the getter
   * return an empty list (Ok(None)); otherwise the items under the keys are
   * passed on (Ok(Some(items))). Raise is an exception that a membership
   * test or a lookup raises on an answer of another shape.
   */
  function Guard(result: Json): (r: Outcome<Option<Json>>)
    ensures !Truthy(result) ==> r == Ok(None)
    ensures (r.Ok? && r.value.Some?) <==> NestedItems(result).Some?
    ensures NestedItems(result).Some? ==> r == Ok(NestedItems(result))
    ensures result.JDict? && "data" !in result.fields ==> r == Ok(None)
    ensures (result.JDict? && "data" in result.fields && result.fields["data"].JDict?
             && "Get" !in result.fields["data"].fields) ==> r == Ok(None)
    ensures (result.JDict? && "data" in result.fields && result.fields["data"].JDict?
             && "Get" in result.fields["data"].fields
             && result.fields["data"].fields["Get"].JDict?
             && Config.METADATA_COLLECTION !in result.fields["data"].fields["Get"].fields) ==> r == Ok(None)
    ensures r.Raise? ==> r.error.TypeError?
  {
    if !Truthy(result) then Ok(None)
    else
      var hasData :- Contains(result, "data");
      if !hasData then Ok(None)
      else
        var data :- Subscript(result, "data");
        var hasGet :- Contains(data, "Get");
        if !hasGet then Ok(None)
        else
          var get :- Subscript(data, "Get");
          var hasItems :- Contains(get, Config.METADATA_COLLECTION);
          if !hasItems then Ok(None)
          else
            var items :- Subscript(get, Config.METADATA_COLLECTION);
            Ok(Some(items))
  }

  /** A response of the expected shape passes the guard with its items untouched. */
  lemma GuardPassesResponse(items: Json)
    ensures Guard(Response(items)) == Ok(Some(items))
  {
    assert NestedItems(Response(items)) == Some(items);
  }

  // ---------------------------------------------------------------------------
  // Reading one field from every item

  /**
   * The field read from each item of a list, in order, stopping at the
   * first item that raises; a value a set would refuse raises too.
   */
  function Collect(xs: seq<Json>, field: string): Outcome<seq<Json>> {
    if xs == [] then Ok([])
    else
      var prev :- Collect(xs[..|xs| - 1], field);
      var v :- Subscript(xs[|xs| - 1], field);
      if !Hashable(v) then Raise(TypeError("unhashable type: '" + TypeName(v) + "'"))
      else Ok(prev + [v])
  }

  /**
   * The values the getter's loop adds to its set, before the set is turned
   * into a list. Iterating a dict or a string yields strings, and indexing
   * a string by a string raises, so only an empty dict or string gets
   * through; None and int are not iterable.
   */
  function FieldValues(items: Json, field: string): Outcome<seq<Json>> {
    match items
    case JList(xs) => Collect(xs, field)
    case JDict(m) => if m == map[] then Ok([]) else Raise(TypeError("string indices must be integers"))
    case JStr(s) => if s == "" then Ok([]) else Raise(TypeError("string indices must be integers"))
    case _ => Raise(TypeError("'" + TypeName(items) + "' object is not iterable"))
  }

  /** An item is readable when it is a dict holding `field` with a hashable value. */
  predicate Readable(item: Json, field: string) {
    item.JDict? && field in item.fields && Hashable(item.fields[field])
  }

  /**
   * Reading succeeds exactly when every item is readable, and then yields
   * each item's value, in item order.
   */
  lemma {:induction false} CollectOkIff(xs: seq<Json>, field: string)
    ensures Collect(xs, field).Ok? <==> forall i :: 0 <= i < |xs| ==> Readable(xs[i], field)
    ensures Collect(xs, field).Ok? ==>
      |Collect(xs, field).value| == |xs| &&
      forall i :: 0 <= i < |xs| ==> Collect(xs, field).value[i] == xs[i].fields[field]
  {
    if xs != [] {
      var init := xs[..|xs| - 1];
      CollectOkIff(init, field);
      assert forall i :: 0 <= i < |init| ==> init[i] == xs[i];
    }
  }

  /** The first item that cannot be read decides the exception: later items are never looked at. */
  lemma {:induction false} CollectFirstError(xs: seq<Json>, field: string, i: nat)
    requires i <= |xs|
    requires Collect(xs[..i], field).Raise?
    ensures Collect(xs, field) == Collect(xs[..i], field)
    decreases |xs| - i
  {
    if i < |xs| {
      var init := xs[..|xs| - 1];
      assert init[..i] == xs[..i];
      CollectFirstError(init, field, i);
    } else {
      assert xs[..i] == xs;
    }
  }

  /** An item that is a dict without the field makes the whole read raise. */
  lemma MissingFieldRaises(xs: seq<Json>, field: string, j: nat)
    requires j < |xs| && xs[j].JDict? && field !in xs[j].fields
    ensures Collect(xs, field).Raise?
  {
    CollectOkIff(xs, field);
  }
}
