/**
 * The vector-store manager of vector_stores/qdrant_store.py: a lazily
 * initialised handle on one collection of a vector database, which maps
 * Dataset records to documents before handing them over for insertion.
 * The database is reduced to the vector settings of its named collections;
 * embedding and storage of the documents belong to the database.
 */
module QdrantStore {
  import opened Wrappers
  import opened Datasets

  /** A search document: the text to embed and its filterable payload. */
  datatype Document = Document(pageContent: string, metadata: map<string, MetaValue>)

  /** The document the manager builds for one dataset. */
  function DocumentOf(d: Dataset): Document
  {
    Document(Content(d), ToMetadata(d))
  }

  /** The documents the manager builds for a list of datasets, in the same order. */
  function DocumentsOf(datasets: seq<Dataset>): seq<Document>
  {
    seq(|datasets|, i requires 0 <= i < |datasets| => DocumentOf(datasets[i]))
  }

  /**
   * `_datasets_to_documents` as written: each document's metadata comes from
   * `to_metadata` as written, so the first dataset makes it raise.
   */
  function DocumentsAsWritten(datasets: seq<Dataset>): Result<seq<Document>, PyError>
  {
    if datasets == [] then Success([])
    else
      match ToMetadataAsWritten(datasets[0])
      case Failure(e) => Failure(e)
      case Success(m) =>
        match DocumentsAsWritten(datasets[1..])
        case Failure(e) => Failure(e)
        case Success(rest) => Success([Document(Content(datasets[0]), m)] + rest)
  }

  /**
   * As written, mapping datasets to documents (and so `add_datasets` after
   * `initialize()`) raises `AttributeError("title")` exactly when the list is non-empty.
   */
  lemma DocumentsAsWrittenRaise(datasets: seq<Dataset>)
    ensures datasets == [] ==> DocumentsAsWritten(datasets) == Success([])
    ensures datasets != [] ==> DocumentsAsWritten(datasets) == Failure(AttributeError("title"))
  {
    if datasets != [] {
      ToMetadataAsWrittenAlwaysRaises(datasets[0]);
    }
  }

  /** The only similarity metric the manager configures. */
  datatype Distance = Cosine

  /** The vector settings of a collection. */
  datatype VectorParams = VectorParams(size: nat, distance: Distance)

  /**
   * The collections after making sure `name` exists: a missing one is created
   * with vectors of the probed size and cosine distance.
   */
  function WithCollection(collections: map<string, VectorParams>, name: string, probedSize: nat): (r: map<string, VectorParams>)
    ensures r.Keys == collections.Keys + {name}
    ensures forall n :: n in collections ==> r[n] == collections[n]
    ensures name !in collections ==> r[name] == VectorParams(probedSize, Cosine)
  {
    if name in collections then collections
    else collections[name := VectorParams(probedSize, Cosine)]
  }

  /** Making sure a collection exists twice changes nothing the first time did not. */
  lemma WithCollectionIdempotent(collections: map<string, VectorParams>, name: string, size1: nat, size2: nat)
    ensures WithCollection(WithCollection(collections, name, size1), name, size2) == WithCollection(collections, name, size1)
  {
  }

  /** The vector database server, as far as the manager observes it. */
  class VectorDatabase {
    var collections: map<string, VectorParams>

    constructor(collections: map<string, VectorParams>)
      ensures this.collections == collections
    {
      this.collections := collections;
    }
  }

  /** The precondition error of an operation called before `initialize()`. */
  datatype StoreError = NotInitialized

  function Message(e: StoreError): string
  {
    match e
    case NotInitialized => "Vector store is not initialized. Call initialize() first."
  }

  const DefaultHost := "localhost"
  const DefaultPort := 6333
  const DefaultCollectionName := "dcat_colllection"
  const EmbeddingModel := "text-embedding-3-large"

  /** The store object bound to one collection and the embedding model that fills it. */
  datatype VectorStore = VectorStore(collectionName: string, embeddingModel: string)

  class QdrantVectorStoreManager {
    const host: string
    const port: int
    const collectionName: string
    /** The embedding model the store embeds documents with. */
    const embeddings: string
    /** The database connection; null until `initialize()`. */
    var client: VectorDatabase?
    /** The store handle; None until `initialize()`. */
    var vectorStore: Option<VectorStore>
    /** The documents handed to the store for insertion, call after call. */
    ghost var submitted: seq<Document>

    /** A store handle only exists together with a connection to its collection. */
    ghost predicate Valid()
      reads this
    {
      vectorStore.Some? ==> client != null && vectorStore.value == VectorStore(collectionName, embeddings)
    }

    /** A new manager has no connection and no store yet. */
    constructor(host: string := DefaultHost, port: int := DefaultPort, collectionName: string := DefaultCollectionName)
      ensures Valid()
      ensures this.host == host && this.port == port && this.collectionName == collectionName
      ensures embeddings == EmbeddingModel
      ensures client == null && vectorStore == None
      ensures submitted == []
    {
      this.host := host;
      this.port := port;
      this.collectionName := collectionName;
      this.embeddings := EmbeddingModel;
      this.client := null;
      this.vectorStore := None;
      this.submitted := [];
    }

    /**
     * `initialize`: connect to the database at host:port, make sure the
     * collection exists, and bind the store to it. `probedSize` is the length
     * of the embedding the embedding model returns for a probe text.
     */
    method Initialize(server: VectorDatabase, probedSize: nat)
      modifies this, server
      ensures Valid()
      ensures client == server
      ensures vectorStore == Some(VectorStore(collectionName, embeddings))
      ensures server.collections == WithCollection(old(server.collections), collectionName, probedSize)
      ensures submitted == old(submitted)
    {
      client := server;
      EnsureCollectionExists(probedSize);
      vectorStore := Some(VectorStore(collectionName, embeddings));
    }

    /** `_ensure_collection_exists`: create the collection only when it is missing. */
    method EnsureCollectionExists(probedSize: nat)
      requires client != null
      modifies client
      ensures client.collections == WithCollection(old(client.collections), collectionName, probedSize)
    {
      if collectionName !in client.collections {
        client.collections := client.collections[collectionName := VectorParams(probedSize, Cosine)];
      }
    }

    /**
     * `add_datasets`: fail with the "not initialized" error and change nothing
     * before `initialize()`; afterwards hand the datasets' documents to the store.
     */
    method AddDatasets(datasets: seq<Dataset>) returns (outcome: Outcome<StoreError>)
      requires Valid()
      modifies this`submitted
      ensures Valid()
      ensures outcome.Fail? <==> vectorStore.None?
      ensures outcome.Fail? ==> outcome.error == NotInitialized && submitted == old(submitted)
      ensures outcome.Fail? ==> Message(outcome.error) == "Vector store is not initialized. Call initialize() first."
      ensures outcome.Pass? ==> client != null && submitted == old(submitted) + DocumentsOf(datasets)
    {
      if vectorStore.None? {
        return Fail(NotInitialized);
      }
      var documents := DatasetsToDocuments(datasets);
      assert documents == DocumentsOf(datasets);
      submitted := submitted + documents;
      outcome := Pass;
    }

    /** `_datasets_to_documents`: one document per dataset, in input order. */
    method DatasetsToDocuments(datasets: seq<Dataset>) returns (documents: seq<Document>)
      ensures |documents| == |datasets|
      ensures forall k :: 0 <= k < |datasets| ==>
        documents[k].pageContent == Content(datasets[k]) && documents[k].metadata == ToMetadata(datasets[k])
    {
      documents := [];
      for i := 0 to |datasets|
        invariant |documents| == i
        invariant forall k :: 0 <= k < i ==> documents[k] == DocumentOf(datasets[k])
      {
        var content := ToContent(datasets[i]);
        var document := Document(content, ToMetadata(datasets[i]));
        documents := documents + [document];
      }
    }
  }

  /**
   * Adding fails on a fresh manager and succeeds once it is initialised. The
   * documents are built with the documented `primary_title`; as written,
   * building them raises (DocumentsAsWrittenRaise).
   */
  method AddRequiresInitialize(server: VectorDatabase, probedSize: nat, datasets: seq<Dataset>)
    returns (before: Outcome<StoreError>, after: Outcome<StoreError>)
    modifies server
    ensures before == Fail(NotInitialized)
    ensures after == Pass
  {
    var manager := new QdrantVectorStoreManager();
    before := manager.AddDatasets(datasets);
    manager.Initialize(server, probedSize);
    after := manager.AddDatasets(datasets);
  }
}
