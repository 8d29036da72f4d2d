# Reg_Server core in Dafny

Reg_Server is a retrieval-augmented question-answering service. It ingests PDF
documents into per-collection classes of a Weaviate vector store. Each chunk is
tagged with a document type, an index id and its filename. A separate
`DocumentMetadata` class holds one record per upload. Questions are answered by
streaming a language model's output over the chunks retrieved for a scope.

This project models the application's own logic around the store:

- `PyValues`: the slice of Python's value model the code relies on. This covers
  JSON-like values, exceptions and their `str()`, truthiness, `in`, `[]`,
  hashability and `list(set)`.
- `Config`: the constants of `src/config.py` that the core reads.
- `VectorStore`: the store as a value. It has a schema list and an object table,
  and this module defines the two schemas the application creates,
  create-if-absent, insertion, and the listing of collection names.
- `Queries`: the where-clauses the client builds, the four-way guard on a query
  response, and reading one field from every item of a response.
- `Database`: the client class `WeaviateClient`, whose fields are the store's
  schema list and object table. Its methods create classes, insert metadata and
  answer the discovery queries. Running a query is the store's work: the query
  methods receive it as a function `run` and apply it to the query they build.
- `DocumentService`: the upload pipeline, which is ensure collection → write
  the temporary file → load → split → tag every chunk → add the chunks → record
  metadata → remove the temporary file. It also holds the four delegating
  getters. The upload is a chain of methods against the client, the scratch
  directory's files (a map, passed in and handed back) and `Collaborators`.
  `Collaborators` gives the splitter's chunks and the step that raises, if one
  does. What every step does to the store and the scratch directory is stated
  by specification functions, and the properties of an upload are proved about
  them.
- `QueryService`: the streaming query as a method that appends each yielded
  value to its output sequence. The libraries that build and run the retrieval
  chain are the function `setup`. It receives everything the service hands them
  and either raises or returns the items the chain streams, followed by the
  exception it raises, if any.

Facts about the code that the model keeps:

- The temporary file is removed only when every step succeeded. There is no
  `try/finally`, so a failure after the file is written leaves it in place
  (src/services/document_service.py:31-66).
- The metadata class schema sets no vectorizer
  (src/database/weaviate_client.py:18-27).
- A query on a missing collection yields the in-stream marker
  `[ERROR] Collection not found` and ends (src/services/query_service.py:18-20).
- The existence check of a query runs before its `try`, so an exception from
  the store there escapes the stream (src/services/query_service.py:18-22).
- No collection name is refused. An upload into a collection named
  `DocumentMetadata` puts its chunks into the metadata class, beside the
  metadata records (src/services/document_service.py:24-63).

## Model

| member | source | states |
|---|---|---|
| PyValues.Message | src/services/query_service.py:55 | `str(e)` of an attribute error is `'<owner>' object has no attribute '<name>'`; a wrapped library's exception shows its own message |
| PyValues.Contains | src/database/weaviate_client.py:92 | `key in x` is dict membership on a dict, and raises exactly on None and int |
| PyValues.Subscript | src/database/weaviate_client.py:95-99 | `x[key]` succeeds exactly on a dict holding the key and yields its value; a dict without the key raises KeyError |
| PyValues.ListOfSet | src/database/weaviate_client.py:101 | `list(s)` holds every element of the set exactly once and nothing else |
| VectorStore.MetadataSchema | src/database/weaviate_client.py:18-27 | the metadata class is `DocumentMetadata` with no vectorizer and the five string properties collection_name, document_type, index_id, filename, upload_date, in that order |
| VectorStore.ChunkSchema | src/database/weaviate_client.py:34-36 | a chunk class carries the caller's name and the `text2vec-ollama` vectorizer |
| VectorStore.ChunkSchemaProperties | src/database/weaviate_client.py:37-44 | a chunk class has exactly the properties text (text), source, page (int), document_type, index_id, filename (string), in that order |
| VectorStore.EnsureClass | src/database/weaviate_client.py:47-48 | create-if-absent: afterwards the class exists; an existing list is kept in place, and at most the new schema is appended at the end, only when no class had its name |
| VectorStore.EnsureClassIdempotent | src/database/weaviate_client.py:47-48 | a second create-if-absent of the same schema changes nothing |
| VectorStore.CountNamedZero | src/database/weaviate_client.py:47 | no class carries the name exactly when `schema.exists(name)` is false |
| VectorStore.CountNamedDistinct | src/database/weaviate_client.py:47-48 | in a list of distinct names, an existing name occurs exactly once |
| VectorStore.EnsureClassExactlyOne | src/database/weaviate_client.py:47-48 | on a list of distinct names, create-if-absent keeps names distinct and leaves exactly one class of the name |
| VectorStore.AppendObjects | src/database/weaviate_client.py:54-63 | inserting into a class never touches the schema list, appends the records after that class's objects in order, and leaves every other class's objects as they were |
| VectorStore.MetadataRecord | src/database/weaviate_client.py:56-62 | the metadata object has exactly the five keys, holding the four arguments and the upload date |
| VectorStore.CollectionNames | src/database/weaviate_client.py:70-74 | the class names of a schema list, in order, without `DocumentMetadata`; what that means is proved in CollectionNamesAppend, CollectionNamesMembership and CollectionNamesLength |
| VectorStore.CollectionNamesAppend | src/database/weaviate_client.py:70-74 | listing distributes over concatenation of schema lists, so it keeps their order |
| VectorStore.CollectionNamesMembership | src/database/weaviate_client.py:70-74 | a name is listed exactly when some class carries it and it is not `DocumentMetadata` |
| VectorStore.CollectionNamesLength | src/database/weaviate_client.py:65-76 | one name per class, except the classes named `DocumentMetadata` |
| Queries.CollectionFilter | src/database/weaviate_client.py:83-87 | the filter is one `Equal` on the path ["collection_name"] with the caller's value |
| Queries.DistinctFieldQuery | src/database/weaviate_client.py:80-88 | the discovery query asks the metadata class for the one field, filtered on the collection name |
| Queries.FilesQuery | src/database/weaviate_client.py:130-141 | the files query; its shape is proved in FilesQueryShape |
| Queries.FilesQueryShape | src/database/weaviate_client.py:130-141 | the files query asks for filename and upload_date under an `And` of exactly three one-path `Equal`s on collection_name, document_type and index_id with the caller's values |
| Queries.Guard | src/database/weaviate_client.py:92-93 | a falsy response, or one lacking `data`, `Get` or the metadata key, returns `[]`; the items are passed on exactly when the nesting is there; anything else that fails is a TypeError |
| Queries.GuardPassesResponse | src/database/weaviate_client.py:92-95 | a well-formed response passes the guard with its items untouched |
| Queries.Collect | src/database/weaviate_client.py:98-99 | reading the field from each item of a list, in order, stopping at the first that raises; CollectOkIff and CollectFirstError say when it succeeds and which exception it raises |
| Queries.FieldValues | src/database/weaviate_client.py:97-99 | the same reading over whatever value the response holds as its items: a list is read item by item; an empty dict or string yields nothing; a non-empty one raises TypeError when indexed by the field; None and int are not iterable |
| Queries.CollectOkIff | src/database/weaviate_client.py:98-99 | reading the field from every item succeeds exactly when every item is a dict with a hashable value under the field, and then yields those values in item order |
| Queries.CollectFirstError | src/database/weaviate_client.py:98-99 | the first unreadable item decides the exception; later items are never read |
| Queries.MissingFieldRaises | src/database/weaviate_client.py:99 | one record without the field makes the whole read raise |
| Database.CollectDistinct | src/database/weaviate_client.py:95-101 | the set loop followed by `list(...)`: the exception reading the items raises, or a list without duplicates whose elements are exactly the values read |
| Database.CollectDistinctItems | src/database/weaviate_client.py:97-101 | the same loop over a list of items, proved against the reading of every item |
| Database.DistinctResult | src/database/weaviate_client.py:90-101 | what the index-id and document-type getters return for the store's outcome: its exception when the query raises, else the answer for the response; the getters' contracts are stated with it |
| Database.DistinctAnswer | src/database/weaviate_client.py:92-101 | for a response the store did answer: the guard's exception or `[]`, else the reading's exception or a duplicate-free list of exactly the values read; the getters' contracts and DistinctOfRecords use it |
| Database.WeaviateClient.constructor | src/database/weaviate_client.py:8-14 | connecting ensures the metadata class by create-if-absent and leaves the objects as they were |
| Database.WeaviateClient.CollectionExists | src/database/weaviate_client.py:150-152 | a collection exists exactly when some class carries its name |
| Database.WeaviateClient.InitMetadataCollection | src/database/weaviate_client.py:16-30 | the schema list becomes create-if-absent of the metadata schema; the objects are unchanged; names stay distinct and the metadata class exists |
| Database.WeaviateClient.InitCollection | src/database/weaviate_client.py:32-48 | the schema list becomes create-if-absent of the chunk schema; the objects are unchanged; the client's invariant is kept |
| Database.WeaviateClient.CreateClass | src/database/weaviate_client.py:47-48 | `schema.create_class` is called only for a name the list lacks; it appends the schema, so names stay distinct, and leaves the objects as they were |
| Database.WeaviateClient.AddObjects | src/services/document_service.py:60 | `add_documents` inserts the objects, in order, into the named class; the schema list and every other class stay as they were |
| Database.WeaviateClient.StoreMetadata | src/database/weaviate_client.py:50-63 | exactly one metadata record is appended, with the four arguments and the upload date; nothing else changes |
| Database.WeaviateClient.GetAllCollections | src/database/weaviate_client.py:65-76 | the loop returns the listing of the schema's class names without the metadata class, in order |
| Database.WeaviateClient.GetIndexIds | src/database/weaviate_client.py:78-101 | runs the index-id query; an exception from the store propagates; otherwise the guard's result, or the distinct index ids of the items |
| Database.WeaviateClient.GetDocumentTypes | src/database/weaviate_client.py:103-126 | runs the document-type query; an exception from the store propagates; otherwise the guard's result, or the distinct document types of the items |
| Database.WeaviateClient.GetFiles | src/database/weaviate_client.py:128-148 | runs the files query; an exception from the store propagates; `[]` when the guard says so, else the items untouched |
| Database.DistinctOfRecords | src/database/weaviate_client.py:95-101 | for metadata records that all carry the field, the result has no duplicates and holds exactly the recorded values |
| Database.DistinctRaisesOnMissingField | src/database/weaviate_client.py:98-99 | a record without the field makes the getter raise |
| Database.GetFilesKeepsItems | src/database/weaviate_client.py:145-148 | for a well-formed response the files getter returns the item list as it is: order and duplicates kept |
| Database.AsWrittenRun | src/database/weaviate_client.py:90 | the query call as written: spreading the query dict into the client's `query.get` raises TypeError for every query |
| Database.AsWrittenDiscoveryRaises | src/database/weaviate_client.py:90-148 | with the call as written, the index-id, document-type and files getters raise that TypeError for every collection |
| DocumentService.TempPathCollision | src/services/document_service.py:27-29 | two uploads get equal temporary path strings exactly when their filenames are equal |
| DocumentService.TempPath | src/services/document_service.py:29 | an absolute filename is the path itself; any other lies under `./temp/` and is recovered as the path's tail |
| DocumentService.TempPathAbsoluteEscapes | src/services/document_service.py:29 | `os.path.join` with an absolute filename puts the file outside `./temp/` |
| DocumentService.Tag | src/services/document_service.py:47-49 | the loop body on one chunk: the three tag keys set; TaggedChunks states that its text and every other metadata key and value are kept |
| DocumentService.Tagged | src/services/document_service.py:46-49 | the chunks tagged in order, as many as before |
| DocumentService.TaggedAt | src/services/document_service.py:46-49 | tagging keeps the number of chunks and tags each one in place |
| DocumentService.TaggedChunks | src/services/document_service.py:46-49 | after tagging, each chunk keeps its text and every other metadata key and value, and carries the document type, index id and filename |
| DocumentService.TagDocuments | src/services/document_service.py:46-49 | the loop overwrites the three keys of every chunk in the array, in place |
| DocumentService.ToRecord | src/services/document_service.py:52-60 | the store object of a chunk holds its text under `text` and every metadata key with its value |
| DocumentService.Records | src/services/document_service.py:52-60 | one store object per chunk, in order |
| DocumentService.TaggedRecords | src/services/document_service.py:43-60 | the objects sent to the store are the splitter's chunks tagged, one per chunk |
| DocumentService.StoredChunksCarryTags | src/services/document_service.py:46-60 | every chunk object sent to the store carries the three scope tags of its upload |
| DocumentService.NatToString | src/services/document_service.py:68 | the count is printed as a non-empty run of decimal digits with no leading zero unless the count is zero |
| DocumentService.DecimalValue | src/services/document_service.py:68 | the number a run of decimal digits spells, the reading under which NatToStringValue is a round trip |
| DocumentService.NatToStringValue | src/services/document_service.py:68 | the digits printed for a count spell that count |
| DocumentService.StoredMessage | src/services/document_service.py:68 | the success message of an upload; StoredMessageSpellsCount states its form |
| DocumentService.StoredMessageSpellsCount | src/services/document_service.py:68 | the message is `Stored `, then digits without a leading zero (unless the count is zero) that spell the chunk count, then ` chunks in ` and the collection name |
| DocumentService.UploadDocument | src/services/document_service.py:14-68 | the store, the scratch directory and the result after an upload are those of the steps that ran, in order, up to the one that raises; the client's invariant is kept |
| DocumentService.IngestStore | src/services/document_service.py:24-63 | the store after an upload: create-if-absent of the collection, then the accepted chunks, then the metadata record, each only once every earlier step completed, and nothing undone; IngestSuccessStore and IngestFailureNoRollback state what it keeps |
| DocumentService.IngestTemp | src/services/document_service.py:29-66 | the scratch directory after an upload: the file is written once saving is reached and removed only when every step completed; IngestSuccessResult and IngestFailureLeavesTempFile state it |
| DocumentService.IngestResult | src/services/document_service.py:24-68 | what an upload returns: the failing step's exception, or the stored-chunks message and the filename; IngestRaisesIffStepFails and IngestSuccessResult state it |
| DocumentService.SaveAndProcess | src/services/document_service.py:26-68 | once the collection exists, the file is written under its temporary path, then processed |
| DocumentService.ProcessSaved | src/services/document_service.py:34-60 | loading and splitting change nothing; adding keeps the chunks the store accepted; the later steps follow |
| DocumentService.FinishUpload | src/services/document_service.py:62-68 | one metadata record, then removal of the temporary file, then the result with the chunk count |
| DocumentService.CompletedInOrder | src/services/document_service.py:23-66 | a check of how the run's progress is encoded: a step counts as completed only if every earlier step did; the step order itself is carried by the method chain and IngestStore |
| DocumentService.IngestSuccessStore | src/services/document_service.py:24-63 | a successful upload ensures the collection, appends its chunks after the collection's objects, adds exactly one metadata record (also for zero chunks), and changes no other class; a collection named `DocumentMetadata` gets its chunks and then the record |
| DocumentService.IngestSuccessResult | src/services/document_service.py:66-68 | a successful upload removes its temporary file and returns "Stored <n> chunks in <collection>" with the filename |
| DocumentService.IngestRaisesIffStepFails | src/services/document_service.py:24-66 | an upload raises exactly when one of its steps raises, with that exception |
| DocumentService.IngestFailureNoRollback | src/services/document_service.py:24-63 | a failure before or while recording adds no metadata record and undoes no chunk: the collection keeps exactly the chunks the store accepted, also when it is named `DocumentMetadata` |
| DocumentService.ChunksKept | src/services/document_service.py:60 | the chunks a failed upload leaves in the store: those accepted if adding ran, none otherwise |
| DocumentService.ChunksKeptOnFailure | src/services/document_service.py:43-63 | none when a step before adding raises, the first `stored` when adding raises, all of them when recording raises |
| DocumentService.IngestFailureLeavesTempFile | src/services/document_service.py:31-66 | once the file is written, any later failure leaves it in place with the uploaded bytes |
| DocumentService.IngestEnsuresBeforeWriting | src/services/document_service.py:24-60 | chunks reach a collection only after create-if-absent ran for it, so its class exists |
| DocumentService.GetCollections | src/services/document_service.py:71-73 | returns the client's collection listing |
| DocumentService.GetIndexIds | src/services/document_service.py:76-78 | returns what the client's index-id getter returns |
| DocumentService.GetDocumentTypes | src/services/document_service.py:81-83 | returns what the client's document-type getter returns |
| DocumentService.GetFiles | src/services/document_service.py:86-88 | returns what the client's files getter returns |
| QueryService.ErrorMarker | src/services/query_service.py:55 | the marker is a string `[ERROR] ` followed by the exception's message |
| QueryService.EffectiveMaxTokens | src/services/query_service.py:33 | the token limit the model gets is never zero, and is the request's value whenever that is given and non-zero |
| QueryService.EffectiveTemperature | src/services/query_service.py:32 | the temperature the model gets is never zero, and is the request's value whenever that is given and non-zero |
| QueryService.EffectiveMaxTokensFallback | src/services/query_service.py:33 | the token limit is 4096 exactly when the request's value is missing, zero or 4096; the fallback is idempotent |
| QueryService.EffectiveTemperatureFallback | src/services/query_service.py:32 | a missing or zero temperature becomes 0.7; the fallback is idempotent |
| QueryService.BuildChainRequest | src/services/query_service.py:23-49 | what the service hands the retrieval libraries; its fields are proved in ChainRequestScope |
| QueryService.ChainRequestScope | src/services/query_service.py:23-49 | the retriever gets the request's collection, document type and index id with k = 10; the model streams with the effective settings; the fixed prompt template; the question is the input |
| QueryService.Forwarded | src/services/query_service.py:52 | the value yielded for one chain item; ForwardedItem states it case by case |
| QueryService.ForwardAllAt | src/services/query_service.py:51-52 | one yielded value per chain item, each the item forwarded, in order |
| QueryService.ForwardedItem | src/services/query_service.py:52 | a dict yields its "answer" or "" without one; any other item is yielded as it is |
| QueryService.AnswerStream | src/services/query_service.py:22-55 | what is yielded once the chain is being built: one marker for an exception while building it, or the forwarded items and a marker if the chain raises; QueryPrefixThenMarker and QueryCompletes state it |
| QueryService.AsWrittenSetup | src/services/query_service.py:23-28 | building the chain as written: `get_retriever` is looked up on a client class that does not define it, so an AttributeError is raised before anything else is built; AsWrittenQueryAlwaysErrors states the stream it gives |
| QueryService.QueryStream | src/services/query_service.py:14-55 | everything the generator yields once the existence check answered; QueryMissingCollection, QueryCompletes and QueryPrefixThenMarker state it |
| QueryService.ForwardChain | src/services/query_service.py:22-55 | the `async for` loop with its `except`, proved to yield exactly the answer stream of the started chain |
| QueryService.QueryDocuments | src/services/query_service.py:14-55 | an exception from the existence check escapes before anything is yielded; otherwise the yielded values are the query stream, and the chain request is handed over exactly when the collection exists |
| QueryService.QueryMissingCollection | src/services/query_service.py:18-20 | a missing collection yields `[ERROR] Collection not found` and nothing else |
| QueryService.QueryCompletes | src/services/query_service.py:51-52 | a chain that runs to the end yields one value per item, in order, with no marker |
| QueryService.QueryPrefixThenMarker | src/services/query_service.py:22-55 | the stream is the forwarded items followed by at most one element, the marker of the exception raised |
| QueryService.AsWrittenQueryAlwaysErrors | src/services/query_service.py:23-28 | with the retriever call as written, every query on an existing collection yields one attribute-error marker and nothing else |

## Left out

- Weaviate itself is not modelled. The schema list and object table stand for it, and query execution is the parameter `run`. The meaning of `Equal` on string properties, vectorization, embeddings and similarity ranking are the store's.
- The LangChain `Weaviate` wrapper's object layout is modelled as the chunk text under `text` plus the chunk's metadata keys.
- Loading the PDF and splitting it are not modelled. Their output is `Collaborators.chunks`, so `CHUNK_SIZE` and `CHUNK_OVERLAP` appear only as constants.
- Which step raises, and how many chunks the store accepted before adding raised, are given by `Collaborators.failure`.
- The store's failures in the read paths are exceptions given from outside: a query's `run` returns an exception or an answer, and `existsRaises` is the exception the existence check of a streamed query raises, if any. `get_all_collections` is modelled without a store failure.
- The retriever, the Ollama model, the prompt and chain builders and the stream they produce are the function `setup` and its `ChainRun`.
- The model name read from the environment (`LLM_MODEL`) is the parameter `llmModel`. The clock reading `datetime.now().isoformat()` is the parameter `uploadDate`.
- The file system is not modelled beyond the scratch directory's files, a map from path to bytes. `os.makedirs` and the byte copy are not modelled; writing the file is one step that either stores the uploaded bytes or raises.
- Async execution, generator suspension and client disconnects are not modelled: the stream is the sequence of values it yields.
- Concurrent uploads are not modelled. `TempPathCollision` is an if-and-only-if on path strings; different strings that name the same file, such as `./a.pdf` and `a.pdf`, are not modelled.
- Floating point is not modelled: the temperature is a `real`, so 0.7 is exact.
- Booleans and floats are not part of `Json`. Python's `True == 1` hashing is therefore not modelled.
- The HTTP routes (src/api), src/main.py, src/utils/helper.py and rag_server.py are not part of this model.
- PyValues.ListOfSet: the order of `list(set)` is Python's and unspecified; the contract fixes only the elements.

## Findings

| source | as written | input that shows it | evidently intended | confidence | as-written member | corrected member |
|---|---|---|---|---|---|---|
| src/services/query_service.py:23-28 | `weaviate_client.get_retriever(...)` is called, but `WeaviateClient` in src/database/weaviate_client.py defines no `get_retriever`, so the lookup raises AttributeError | any query on an existing collection yields only `[ERROR] 'WeaviateClient' object has no attribute 'get_retriever'` | a retriever scoped to the request's collection, document type and index id with k = 10, whose chain's answers are streamed | not executed | QueryService.AsWrittenQueryAlwaysErrors | QueryService.QueryCompletes |
| src/database/weaviate_client.py:90 | `self.client.query.get(**query)` passes the dict's keys `class`, `properties` and `where` as keyword arguments, but the weaviate client's v3 `Query.get` takes only a class name and a property list, so the call raises TypeError (the same holds at lines 115 and 143) | any call of `get_index_ids`, `get_document_types` or `get_files` raises `Query.get() got an unexpected keyword argument 'class'` | the query is sent with its where-filter and the response's items are read | not executed | Database.AsWrittenDiscoveryRaises | Database.DistinctOfRecords |
