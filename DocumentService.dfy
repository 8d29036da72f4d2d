/**
 * The ingestion pipeline and the discovery getters (src/services/document_service.py).
 *
 * Loading the PDF, splitting it and embedding the chunks are wrapped
 * libraries: their output is given in `Collaborators`, together with the
 * step that raises, if one does. The scratch directory's files are a value
 * the upload receives and hands back.
 */
module DocumentService {
  import opened PyValues
  import opened VectorStore
  import opened Queries
  import opened Database
  import Config

  /** A document as the loader and the splitter produce it: text and a metadata dict. */
  datatype Document = Document(pageContent: string, metadata: map<string, Json>)

  /** The uploaded file: its name as the client sent it, and its bytes. */
  datatype UploadFile = UploadFile(filename: string, content: seq<bv8>)

  /** The dict returned on success: {"message": ..., "filename": ...}. */
  datatype UploadResult = UploadResult(message: string, filename: string)

  /** The steps of an upload that can raise, in the order they run. */
  datatype Step = EnsureCollection | WriteTemp | Load | Split | AddDocuments | StoreMetadata | RemoveTemp

  /**
   * The step that raises and its exception; `stored` is how many chunks the
   * store had accepted when adding documents raised (ignored for other steps).
   */
  datatype StepFailure = StepFailure(step: Step, error: Exception, stored: nat)

  /** What the wrapped libraries do during one upload. */
  datatype Collaborators = Collaborators(
    chunks: seq<Document>,           // what the splitter makes of the loader's pages
    failure: Option<StepFailure>)    // the first step that raises, if any

  predicate FailsAt(env: Collaborators, step: Step) {
    env.failure.Some? && env.failure.value.step == step
  }

  // ---------------------------------------------------------------------------
  // The temporary path

  const TEMP_DIR: string := "./temp"

  /** The files of the scratch directory, path to content: the file system is passed in and handed back. */
  type TempFiles = map<string, seq<bv8>>

  /**
   * The temporary directory joined with the filename: an absolute filename replaces the
   * directory, any other is appended after a separator.
   */
  function TempPath(filename: string): (path: string)
    ensures |filename| > 0 && filename[0] == '/' ==> path == filename
    ensures !(|filename| > 0 && filename[0] == '/') ==>
      TEMP_DIR + "/" <= path && path[|TEMP_DIR| + 1..] == filename
  {
    if |filename| > 0 && filename[0] == '/' then filename else TEMP_DIR + "/" + filename
  }

  /** Two uploads share a temporary path exactly when they carry the same filename. */
  lemma TempPathCollision(a: string, b: string)
    ensures TempPath(a) == TempPath(b) <==> a == b
  {
    var pa, pb := TempPath(a), TempPath(b);
    if pa == pb && !(|a| > 0 && a[0] == '/') && !(|b| > 0 && b[0] == '/') {
      assert a == pa[|TEMP_DIR| + 1..];
      assert b == pb[|TEMP_DIR| + 1..];
    }
  }

  /** An absolute filename puts the temporary file outside the temporary directory. */
  lemma TempPathAbsoluteEscapes(filename: string)
    requires |filename| > 0 && filename[0] == '/'
    ensures !(TEMP_DIR + "/" <= TempPath(filename))
  {
    assert TempPath(filename)[0] == '/';
  }

  // ---------------------------------------------------------------------------
  // Tagging

  /** One chunk after the tagging loop's body: three metadata keys overwritten. */
  function Tag(d: Document, documentType: string, indexId: string, filename: string): Document {
    d.(metadata := d.metadata["document_type" := JStr(documentType)]
                             ["index_id" := JStr(indexId)]
                             ["filename" := JStr(filename)])
  }

  /** Every chunk tagged, in order. */
  function Tagged(docs: seq<Document>, documentType: string, indexId: string, filename: string): (t: seq<Document>)
    ensures |t| == |docs|
  {
    if docs == [] then []
    else [Tag(docs[0], documentType, indexId, filename)] + Tagged(docs[1..], documentType, indexId, filename)
  }

  lemma {:induction false} TaggedAt(docs: seq<Document>, documentType: string, indexId: string, filename: string)
    ensures |Tagged(docs, documentType, indexId, filename)| == |docs|
    ensures forall i :: 0 <= i < |docs| ==>
      Tagged(docs, documentType, indexId, filename)[i] == Tag(docs[i], documentType, indexId, filename)
  {
    if docs != [] {
      TaggedAt(docs[1..], documentType, indexId, filename);
    }
  }

  /**
   * After tagging, there are as many chunks as before; each keeps its text,
   * carries the three tags, and keeps every other metadata key and value.
   */
  lemma TaggedChunks(docs: seq<Document>, documentType: string, indexId: string, filename: string)
    ensures var t := Tagged(docs, documentType, indexId, filename);
      && |t| == |docs|
      && forall i :: 0 <= i < |docs| ==>
        && t[i].pageContent == docs[i].pageContent
        && t[i].metadata.Keys == docs[i].metadata.Keys + {"document_type", "index_id", "filename"}
        && t[i].metadata["document_type"] == JStr(documentType)
        && t[i].metadata["index_id"] == JStr(indexId)
        && t[i].metadata["filename"] == JStr(filename)
        && forall k :: k in docs[i].metadata && k !in {"document_type", "index_id", "filename"} ==>
             t[i].metadata[k] == docs[i].metadata[k]
  {
    TaggedAt(docs, documentType, indexId, filename);
  }

  /** The tagging loop: overwrites the three keys of every chunk, in place. */
  method TagDocuments(docs: array<Document>, documentType: string, indexId: string, filename: string)
    modifies docs
    ensures docs[..] == Tagged(old(docs[..]), documentType, indexId, filename)
  {
    var i := 0;
    while i < docs.Length
      invariant 0 <= i <= docs.Length
      invariant forall k :: 0 <= k < i ==> docs[k] == Tag(old(docs[k]), documentType, indexId, filename)
      invariant forall k :: i <= k < docs.Length ==> docs[k] == old(docs[k])
    {
      docs[i] := Tag(docs[i], documentType, indexId, filename);
      i := i + 1;
    }
    TaggedAt(old(docs[..]), documentType, indexId, filename);
  }

  // ---------------------------------------------------------------------------
  // What reaches the store

  /** The object the vector store keeps for a chunk: its text under "text", then its metadata. */
  function ToRecord(d: Document): (r: Record)
    ensures r.Keys == d.metadata.Keys + {"text"}
    ensures forall k :: k in d.metadata ==> r[k] == d.metadata[k]
    ensures "text" !in d.metadata ==> r["text"] == JStr(d.pageContent)
  {
    map["text" := JStr(d.pageContent)] + d.metadata
  }

  function Records(docs: seq<Document>): (r: seq<Record>)
    ensures |r| == |docs|
    ensures forall i :: 0 <= i < |docs| ==> r[i] == ToRecord(docs[i])
  {
    seq(|docs|, i requires 0 <= i < |docs| => ToRecord(docs[i]))
  }

  /** The chunks put in a list, tagged in place, and turned into the objects the store receives. */
  method TaggedRecords(chunks: seq<Document>, documentType: string, indexId: string, filename: string)
    returns (records: seq<Record>)
    ensures records == Records(Tagged(chunks, documentType, indexId, filename))
    ensures |records| == |chunks|
  {
    var docs := new Document[|chunks|](i requires 0 <= i < |chunks| => chunks[i]);
    assert docs[..] == chunks;
    TagDocuments(docs, documentType, indexId, filename);
    TaggedAt(chunks, documentType, indexId, filename);
    records := Records(docs[..]);
  }

  /** Every stored chunk object carries the three scope tags of its upload. */
  lemma StoredChunksCarryTags(docs: seq<Document>, documentType: string, indexId: string, filename: string)
    ensures var rs := Records(Tagged(docs, documentType, indexId, filename));
      && |rs| == |docs|
      && forall i :: 0 <= i < |rs| ==>
        && "document_type" in rs[i] && rs[i]["document_type"] == JStr(documentType)
        && "index_id" in rs[i] && rs[i]["index_id"] == JStr(indexId)
        && "filename" in rs[i] && rs[i]["filename"] == JStr(filename)
  {
    TaggedAt(docs, documentType, indexId, filename);
  }

  /** Decimal digits of a natural number, as Python formats it: no leading zero except for zero itself. */
  function NatToString(n: nat): (s: string)
    ensures |s| >= 1
    ensures forall i :: 0 <= i < |s| ==> '0' <= s[i] <= '9'
    ensures s[0] == '0' ==> n == 0
  {
    var digit := ['0' + (n % 10) as char];
    if n < 10 then digit else NatToString(n / 10) + digit
  }

  /** The number a run of decimal digits spells. */
  function DecimalValue(s: string): nat {
    if s == [] then 0
    else
      var d := s[|s| - 1] as int - '0' as int;
      DecimalValue(s[..|s| - 1]) * 10 + (if 0 <= d then d else 0)
  }

  /** The digits printed for a number spell that number. */
  lemma {:induction false} NatToStringValue(n: nat)
    ensures DecimalValue(NatToString(n)) == n
  {
    if n >= 10 {
      NatToStringValue(n / 10);
      var s := NatToString(n);
      assert s[..|s| - 1] == NatToString(n / 10);
    }
  }

  /** The success message: "Stored <count> chunks in <collection>". */
  function StoredMessage(count: nat, collectionName: string): string {
    "Stored " + NatToString(count) + " chunks in " + collectionName
  }

  /**
   * The success message is "Stored ", then decimal digits that spell the
   * count, then " chunks in " and the collection's name.
   */
  lemma StoredMessageSpellsCount(count: nat, collectionName: string)
    ensures var m, tail := StoredMessage(count, collectionName), " chunks in " + collectionName;
      && |m| > |"Stored "| + |tail|
      && m[..|"Stored "|] == "Stored "
      && m[|m| - |tail|..] == tail
      && (forall i :: |"Stored "| <= i < |m| - |tail| ==> '0' <= m[i] <= '9')
      && (m[|"Stored "|] == '0' ==> count == 0)
      && DecimalValue(m[|"Stored "|..|m| - |tail|]) == count
  {
    var digits, tail := NatToString(count), " chunks in " + collectionName;
    var m := StoredMessage(count, collectionName);
    NatToStringValue(count);
    assert m[|"Stored "|..|m| - |tail|] == digits;
    assert m[|m| - |tail|..] == tail;
  }

  // ---------------------------------------------------------------------------
  // One upload

  /** The arguments of one upload, with the clock's reading as `uploadDate`. */
  datatype Upload = Upload(file: UploadFile, collectionName: string, documentType: string,
                           indexId: string, uploadDate: string)

  /** Position of a step in the run. */
  function StepIndex(step: Step): nat {
    match step
    case EnsureCollection => 0
    case WriteTemp => 1
    case Load => 2
    case Split => 3
    case AddDocuments => 4
    case StoreMetadata => 5
    case RemoveTemp => 6
  }

  /** How many steps complete: all seven, or those before the one that raises. */
  function Progress(env: Collaborators): nat {
    if env.failure.None? then 7 else StepIndex(env.failure.value.step)
  }

  /** A step completes when no step up to and including it raises: the steps run in order, one pass. */
  predicate Completed(env: Collaborators, step: Step) {
    StepIndex(step) < Progress(env)
  }

  /** The chunk objects an upload sends to the store: the splitter's chunks, tagged. */
  function ChunkRecords(u: Upload, env: Collaborators): seq<Record> {
    Records(Tagged(env.chunks, u.documentType, u.indexId, u.file.filename))
  }

  /** The chunk objects the store keeps once adding starts: all, or those accepted before it raised. */
  function Accepted(records: seq<Record>, env: Collaborators): seq<Record> {
    if Completed(env, AddDocuments) then records
    else if env.failure.value.stored <= |records| then records[..env.failure.value.stored]
    else records
  }

  /** The store once the collection step ran: the chunk class is created if absent. */
  function Ensured(s: StoreState, u: Upload, env: Collaborators): StoreState {
    if Completed(env, EnsureCollection)
    then s.(classes := EnsureClass(s.classes, ChunkSchema(u.collectionName)))
    else s
  }

  /** What adding the chunks does to the store: the objects it accepted follow the class's objects. */
  function StoreAfterAdd(s: StoreState, u: Upload, records: seq<Record>, env: Collaborators): StoreState {
    if Completed(env, Split) then AppendObjects(s, u.collectionName, Accepted(records, env)) else s
  }

  /** What recording the upload does to the store: one metadata record is added. */
  function StoreAfterMetadata(s: StoreState, u: Upload, env: Collaborators): StoreState {
    if Completed(env, StoreMetadata)
    then AppendObjects(s, Config.METADATA_COLLECTION,
                       [MetadataRecord(u.collectionName, u.documentType, u.indexId, u.file.filename, u.uploadDate)])
    else s
  }

  /**
   * What the steps after saving the file do to the store: the chunk objects,
   * then the metadata record, each only if every step before it completed.
   */
  function StoreAfterSave(s: StoreState, u: Upload, records: seq<Record>, env: Collaborators): StoreState {
    StoreAfterMetadata(StoreAfterAdd(s, u, records, env), u, env)
  }

  /** The store after an upload: the collection step, then the later ones. Nothing is undone. */
  function IngestStore(s: StoreState, u: Upload, records: seq<Record>, env: Collaborators): StoreState {
    StoreAfterSave(Ensured(s, u, env), u, records, env)
  }

  /** What the steps after saving do to the scratch directory: the file is removed only if every step completed. */
  function TempAfterSave(t: TempFiles, u: Upload, env: Collaborators): TempFiles {
    if Completed(env, RemoveTemp) then t - {TempPath(u.file.filename)} else t
  }

  /** The scratch directory after an upload: the file is written, then the later steps run. */
  function IngestTemp(t: TempFiles, u: Upload, env: Collaborators): TempFiles {
    TempAfterSave(if Completed(env, WriteTemp) then t[TempPath(u.file.filename) := u.file.content] else t, u, env)
  }

  /** What an upload returns: the failing step's exception, or the chunk count and filename. */
  function IngestResult(u: Upload, env: Collaborators): Outcome<UploadResult> {
    if env.failure.Some? then Raise(env.failure.value.error)
    else Ok(UploadResult(StoredMessage(|env.chunks|, u.collectionName), u.file.filename))
  }

  /**
   * `upload_document`: runs the steps against the store client and the
   * scratch directory, with the wrapped libraries' behaviour given by `env`
   * and the clock's reading by `uploadDate`.
   */
  method UploadDocument(client: WeaviateClient, temp: TempFiles, file: UploadFile, collectionName: string,
                        documentType: string, indexId: string, uploadDate: string, env: Collaborators)
    returns (r: Outcome<UploadResult>, tempAfter: TempFiles)
    requires client.Valid()
    modifies client
    ensures client.Valid()
    ensures var u := Upload(file, collectionName, documentType, indexId, uploadDate);
      && client.State() == IngestStore(old(client.State()), u, ChunkRecords(u, env), env)
      && tempAfter == IngestTemp(temp, u, env)
      && r == IngestResult(u, env)
  {
    if FailsAt(env, EnsureCollection) {
      return Raise(env.failure.value.error), temp;
    }
    client.InitCollection(collectionName);
    r, tempAfter := SaveAndProcess(client, temp, Upload(file, collectionName, documentType, indexId, uploadDate), env);
  }

  /** The steps of `upload_document` once the collection exists: save the file under its temporary path, then process it. */
  method SaveAndProcess(client: WeaviateClient, temp: TempFiles, u: Upload, env: Collaborators)
    returns (r: Outcome<UploadResult>, tempAfter: TempFiles)
    requires Completed(env, EnsureCollection)
    modifies client
    ensures client.classes == old(client.classes)
    ensures client.State() == StoreAfterSave(old(client.State()), u, ChunkRecords(u, env), env)
    ensures tempAfter == IngestTemp(temp, u, env)
    ensures r == IngestResult(u, env)
  {
    var path := TempPath(u.file.filename);
    if FailsAt(env, WriteTemp) {
      return Raise(env.failure.value.error), temp;
    }
    var written := temp[path := u.file.content];
    r, tempAfter := ProcessSaved(client, written, path, u, env);
  }

  /** The steps of `upload_document` once the file is saved at `path`: load, split, tag, store, clean up. */
  method ProcessSaved(client: WeaviateClient, temp: TempFiles, path: string, u: Upload, env: Collaborators)
    returns (r: Outcome<UploadResult>, tempAfter: TempFiles)
    requires Completed(env, WriteTemp) && path == TempPath(u.file.filename)
    modifies client
    ensures client.classes == old(client.classes)
    ensures client.State() == StoreAfterSave(old(client.State()), u, ChunkRecords(u, env), env)
    ensures tempAfter == TempAfterSave(temp, u, env)
    ensures r == IngestResult(u, env)
  {
    if FailsAt(env, Load) || FailsAt(env, Split) {
      return Raise(env.failure.value.error), temp;
    }
    var records := TaggedRecords(env.chunks, u.documentType, u.indexId, u.file.filename);

    if FailsAt(env, AddDocuments) {
      var stored := env.failure.value.stored;
      if stored <= |records| {
        client.AddObjects(u.collectionName, records[..stored]);
      } else {
        client.AddObjects(u.collectionName, records);
      }
      return Raise(env.failure.value.error), temp;
    }
    client.AddObjects(u.collectionName, records);
    r, tempAfter := FinishUpload(client, temp, path, u, |records|, env);
  }

  /** The last steps of `upload_document`: record the upload, remove the temporary file, report. */
  method FinishUpload(client: WeaviateClient, temp: TempFiles, path: string, u: Upload, count: nat, env: Collaborators)
    returns (r: Outcome<UploadResult>, tempAfter: TempFiles)
    requires Completed(env, AddDocuments) && path == TempPath(u.file.filename) && count == |env.chunks|
    modifies client
    ensures client.classes == old(client.classes)
    ensures client.State() == StoreAfterMetadata(old(client.State()), u, env)
    ensures tempAfter == TempAfterSave(temp, u, env)
    ensures r == IngestResult(u, env)
  {
    if FailsAt(env, StoreMetadata) {
      return Raise(env.failure.value.error), temp;
    }
    client.StoreMetadata(u.collectionName, u.documentType, u.indexId, u.file.filename, u.uploadDate);

    if FailsAt(env, RemoveTemp) {
      return Raise(env.failure.value.error), temp;
    }
    tempAfter := temp - {path};

    r := Ok(UploadResult(StoredMessage(count, u.collectionName), u.file.filename));
  }

  // ---------------------------------------------------------------------------
  // Properties of an upload

  /** The steps complete in order: a step completes only if every earlier step did. */
  lemma CompletedInOrder(env: Collaborators, earlier: Step, later: Step)
    requires StepIndex(earlier) <= StepIndex(later)
    ensures Completed(env, later) ==> Completed(env, earlier)
  {
  }

  /**
   * A successful upload: the collection exists, its chunk objects follow the
   * objects it held, exactly one metadata record is added (also for zero
   * chunks), no other class changes. Nothing stops a collection named like
   * the metadata class: its chunks then land in that class, before the record.
   */
  lemma IngestSuccessStore(s: StoreState, u: Upload, records: seq<Record>, env: Collaborators)
    requires env.failure.None?
    ensures var after := IngestStore(s, u, records, env);
      var record := MetadataRecord(u.collectionName, u.documentType, u.indexId, u.file.filename, u.uploadDate);
      && after.classes == EnsureClass(s.classes, ChunkSchema(u.collectionName))
      && (u.collectionName != Config.METADATA_COLLECTION ==>
            Objects(after, u.collectionName) == Objects(s, u.collectionName) + records)
      && Objects(after, Config.METADATA_COLLECTION)
         == Objects(s, Config.METADATA_COLLECTION)
            + (if u.collectionName == Config.METADATA_COLLECTION then records else [])
            + [record]
      && (forall c :: c != u.collectionName && c != Config.METADATA_COLLECTION ==> Objects(after, c) == Objects(s, c))
  {
  }

  /**
   * A successful upload removes its temporary file and reports the number
   * of chunks the splitter produced, the collection, and the filename.
   */
  lemma IngestSuccessResult(t: TempFiles, u: Upload, env: Collaborators)
    requires env.failure.None?
    ensures IngestTemp(t, u, env) == t - {TempPath(u.file.filename)}
    ensures IngestResult(u, env)
      == Ok(UploadResult("Stored " + NatToString(|env.chunks|) + " chunks in " + u.collectionName,
                         u.file.filename))
  {
  }

  /** An upload raises exactly when one of its steps raises, and then with that step's exception. */
  lemma IngestRaisesIffStepFails(u: Upload, env: Collaborators)
    ensures IngestResult(u, env).Raise? <==> exists step :: FailsAt(env, step)
    ensures IngestResult(u, env).Raise? ==> IngestResult(u, env).error == env.failure.value.error
  {
    if env.failure.Some? {
      assert FailsAt(env, env.failure.value.step);
    }
  }

  /** The chunk objects a failed upload leaves in the store: those the store accepted, once adding was reached. */
  function ChunksKept(records: seq<Record>, env: Collaborators): seq<Record> {
    if Completed(env, Split) then Accepted(records, env) else []
  }

  /**
   * The chunks a failed upload keeps: none when a step before adding raises,
   * the first `stored` of them when adding raises, all of them when
   * recording raises.
   */
  lemma ChunksKeptOnFailure(records: seq<Record>, env: Collaborators)
    requires env.failure.Some?
    ensures var stored := env.failure.value.stored;
      && (StepIndex(env.failure.value.step) < StepIndex(AddDocuments) ==> ChunksKept(records, env) == [])
      && (FailsAt(env, AddDocuments) ==>
            ChunksKept(records, env) == records[..if stored <= |records| then stored else |records|])
      && (FailsAt(env, StoreMetadata) ==> ChunksKept(records, env) == records)
  {
    var stored := env.failure.value.stored;
    if stored > |records| {
      assert records[..|records|] == records;
    }
  }

  /**
   * An upload that raises before or while recording metadata adds no
   * metadata record, and the chunks already accepted stay in the collection
   * (see ChunksKeptOnFailure). A collection named like the metadata class
   * gains just those chunks.
   */
  lemma IngestFailureNoRollback(s: StoreState, u: Upload, records: seq<Record>, env: Collaborators)
    requires env.failure.Some? && env.failure.value.step != RemoveTemp
    ensures var after := IngestStore(s, u, records, env);
      && Objects(after, u.collectionName) == Objects(s, u.collectionName) + ChunksKept(records, env)
      && Objects(after, Config.METADATA_COLLECTION)
         == Objects(s, Config.METADATA_COLLECTION)
            + (if u.collectionName == Config.METADATA_COLLECTION then ChunksKept(records, env) else [])
  {
  }

  /**
   * The temporary file is removed only on success: once it was written,
   * any later failure leaves it in place with the uploaded bytes.
   */
  lemma IngestFailureLeavesTempFile(t: TempFiles, u: Upload, env: Collaborators)
    requires env.failure.Some?
    ensures env.failure.value.step in {EnsureCollection, WriteTemp} ==> IngestTemp(t, u, env) == t
    ensures env.failure.value.step !in {EnsureCollection, WriteTemp} ==>
      IngestTemp(t, u, env) == t[TempPath(u.file.filename) := u.file.content]
  {
  }

  /** Chunks are only ever written after the collection was ensured: the class then exists. */
  lemma IngestEnsuresBeforeWriting(s: StoreState, u: Upload, records: seq<Record>, env: Collaborators)
    ensures var after := IngestStore(s, u, records, env);
      Objects(after, u.collectionName) != Objects(s, u.collectionName) ==>
        && after.classes == EnsureClass(s.classes, ChunkSchema(u.collectionName))
        && HasClass(after.classes, u.collectionName)
  {
    if FailsAt(env, EnsureCollection) {
      assert IngestStore(s, u, records, env) == s;
    }
  }

  // ---------------------------------------------------------------------------
  // The discovery getters: each returns what the client returns

  method GetCollections(client: WeaviateClient) returns (r: seq<string>)
    ensures r == CollectionNames(client.classes)
  {
    r := client.GetAllCollections();
  }

  method GetIndexIds(client: WeaviateClient, collectionName: string, run: Query -> Outcome<Json>)
    returns (r: Outcome<seq<Json>>)
    ensures DistinctResult(run(DistinctFieldQuery("index_id", collectionName)), "index_id", r)
  {
    r := client.GetIndexIds(collectionName, run);
  }

  method GetDocumentTypes(client: WeaviateClient, collectionName: string, run: Query -> Outcome<Json>)
    returns (r: Outcome<seq<Json>>)
    ensures DistinctResult(run(DistinctFieldQuery("document_type", collectionName)), "document_type", r)
  {
    r := client.GetDocumentTypes(collectionName, run);
  }

  function GetFiles(client: WeaviateClient, collectionName: string, documentType: string, indexId: string,
                    run: Query -> Outcome<Json>): (r: Outcome<Json>)
    ensures r == client.GetFiles(collectionName, documentType, indexId, run)
  {
    client.GetFiles(collectionName, documentType, indexId, run)
  }
}
