# DCAT catalog extraction and search-document mapping

This project models, in Dafny, the transformation core of a small search layer.
The layer reads DCAT dataset catalogs (RDF) and stores them in a Qdrant vector
database. Three pieces are modelled:

- **The Dataset record** (`models/dataset.py`). It has five ordered string lists:
  titles, descriptions, keywords, access URLs and download URLs. It maps a
  dataset to an embeddable text chunk (`to_content`) and to a metadata map
  (`to_metadata`). The docstring of `primary_title` describes it as the first
  title, or None when there are no titles. As written it raises instead (see
  "## Findings"). Apart from the as-written members named in "## Findings", the rest of the model uses the documented behaviour.
- **DCAT extraction** (`parsers/rdf_parser.py`). It works on an already-parsed
  graph. A graph is a sequence of (subject, predicate, object) string triples in
  the graph library's iteration order. `objects(s, p)` and `subjects(p, o)` are
  order-preserving filters over that sequence. The extractor builds one Dataset
  for each subject typed `dcat:Dataset`. It reads that subject's `dct:title`,
  `dct:description` and `dcat:keyword` values, then follows its
  `dcat:distribution` edges to collect `dcat:accessURL` and `dcat:downloadURL`
  values. The predicates are IRIs of the W3C DCAT vocabulary and of DCMI
  Metadata Terms.
- **The vector-store manager** (`vector_stores/qdrant_store.py`). It is a class
  whose `client` and `vector_store` fields stay null until `initialize()`. It
  creates its collection only when the collection is missing. `add_datasets`
  refuses to run before initialisation. `_datasets_to_documents` maps datasets
  to documents in order.

Files: `wrappers.dfy` (Option, Result, Outcome), `strings.dfy` (Python's
`str.join` and `str.split`, and the round trip between them), `dataset.dfy`,
`rdf_parser.dfy`, `qdrant_store.dfy`.

How the model is built:

- `to_content`, `_extract_datasets`, `_extract_distribution_urls` and
  `_datasets_to_documents` build their results step by step. They are methods
  with loops or conditional appends. Each is proved equal to a specification
  function: `Content`, `DatasetOf`, `UrlsOf` or `DocumentsOf`.
- The properties of the source are lemmas about those specification functions.
- `Content` is stated declaratively. It takes the fixed section order Title,
  Description, Keywords, keeps the sections whose list is non-empty, and joins
  their texts with line breaks.
- The manager is a class. The database connection is a `VectorDatabase` object
  passed to `Initialize`; it holds only the vector settings of each named
  collection. The size of the probe embedding is a parameter of `Initialize`.
  A ghost field `submitted` records the documents the manager hands to the
  store for insertion.

Choices where the code is narrower than one might expect:

- The Dataset record has no `dataset_id` field (`models/dataset.py:7-11`).
- `to_metadata` returns exactly the keys `title` and `keywords` (`models/dataset.py:40-43`).
- The manager's default collection name is `dcat_colllection` (three `l`s), as
  written in `vector_stores/qdrant_store.py:12`. `config/config.py` uses
  `dcat_collection`, but config is not part of this model.
- Only `add_datasets` checks that the manager is initialised. The shown manager
  has no similarity search.
- `primary_title` fails as written; see "## Findings".

## Model

| member | source | states |
|---|---|---|
| `Datasets.Attribute` | models/dataset.py:7-11 | Lookup among the record's five data fields: it succeeds exactly for those five names and then returns that field's list (`titles`, `descriptions`, `keywords`, `access_urls`, `download_urls`), and any other name fails with `AttributeError` naming it. Method, property and dunder names are outside this lookup. |
| `Datasets.PrimaryTitleAsWrittenAlwaysRaises` | models/dataset.py:19 | As written, `primary_title` raises `AttributeError("title")` for every dataset, because its condition reads the missing attribute `title`. |
| `Datasets.PrimaryTitle` | models/dataset.py:13-18 | The documented intent: None exactly when there are no titles, otherwise the first title. It never fails. |
| `Datasets.PrimaryTitleDiscrepancy` | models/dataset.py:13-19 | For titles `["A"]`, the documented result is `Some("A")`, while the code as written raises. |
| `Datasets.ToContent` | models/dataset.py:21-34 | The three conditional appends followed by the newline join produce exactly the declarative content `Content(d)`. |
| `Datasets.SectionPresentIff` | models/dataset.py:27-32 | A section appears in the content if and only if its source list is non-empty. |
| `Datasets.SectionsInOrder` | models/dataset.py:27-32 | The sections that appear are strictly ordered Title, then Description, then Keywords. |
| `Datasets.ContentEmptyIff` | models/dataset.py:26-34 | The content is the empty string if and only if titles, descriptions and keywords are all empty. |
| `Datasets.ContentSplitsIntoSections` | models/dataset.py:34 | When no value contains a line break and some section appears, splitting the content at line breaks gives back exactly the section texts ("Title: " + titles joined by "; ", "Description: " + descriptions joined by "; ", "Keywords: " + keywords joined by ", "). |
| `Datasets.ContentLineBreakCount` | models/dataset.py:34 | When no value contains a line break, the content has one line break fewer than it has sections, and none when it is blank. |
| `Datasets.ContentStartsWithLabel` | models/dataset.py:27-34 | For every dataset, whatever its values contain, content that is not blank starts with the label of its first present section, and non-empty content never starts with a line break. |
| `Datasets.ContentTrimmed` | models/dataset.py:34 | When no value contains a line break, the content does not end with a line break. |
| `Datasets.ContentExample` | models/dataset.py:26-34 | Titles `["A","B"]`, descriptions `["D"]` and no keywords give exactly `"Title: A; B\nDescription: D"`, whatever the URLs. |
| `Datasets.ToMetadata` | models/dataset.py:36-43 | The map has exactly the keys `title` and `keywords`. `keywords` is the keyword list verbatim, even when empty. `title` is null exactly when there are no titles, and otherwise the first title. |
| `Datasets.ToMetadataAsWrittenAlwaysRaises` | models/dataset.py:40-43 | As written, `to_metadata` raises `AttributeError("title")` for every dataset, because it reads `primary_title`. |
| `Datasets.MetadataEqualIff` | models/dataset.py:40-43 | Two datasets get the same metadata map if and only if they have the same keywords and the same primary title. |
| `Datasets.MappingIgnoresUrls` | models/dataset.py:26-43 | Two datasets that agree on titles, descriptions and keywords have the same content and the same metadata, whatever their access and download URLs. |
| `Strings.SplitJoin` | models/dataset.py:34 | Joining a non-empty list of parts (a part may be the empty string) that avoid a one-character separator, then splitting on that separator, returns the parts. |
| `RdfParser.ObjectsMembers` | parsers/rdf_parser.py:50-52 | `objects(s, p)` answers exactly the objects of the triples with subject `s` and predicate `p`. |
| `RdfParser.SubjectsMembers` | parsers/rdf_parser.py:37 | `subjects(p, o)` answers exactly the subjects of the triples with predicate `p` and object `o`. |
| `RdfParser.ObjectsAppend` | parsers/rdf_parser.py:50-52 | Object queries keep graph order: on a graph made of two parts, the first part's answers come before the second part's. |
| `RdfParser.SubjectsAppend` | parsers/rdf_parser.py:37 | Subject queries keep graph order in the same sense. |
| `RdfParser.ObjectsDistinct` | parsers/rdf_parser.py:50-52 | In a graph without duplicate triples, an object query lists each value once. |
| `RdfParser.SubjectsDistinct` | parsers/rdf_parser.py:37 | In a graph without duplicate triples, each `dcat:Dataset` subject is listed once, so it yields exactly one Dataset. |
| `RdfParser.DatasetSubjectsEmptyIff` | parsers/rdf_parser.py:36-43 | The extractor finds no dataset subjects if and only if the graph has no `rdf:type dcat:Dataset` triple. |
| `RdfParser.DatasetOfFields` | parsers/rdf_parser.py:45-74 | A value is among a dataset's titles, descriptions or keywords exactly when the subject has that triple. A URL is among its access or download URLs exactly when one of the subject's distributions carries it. |
| `RdfParser.UrlsCount` | parsers/rdf_parser.py:68-74 | The URL list is as long as the sum, over the distributions, of each distribution's URL count. |
| `RdfParser.UrlsProvenance` | parsers/rdf_parser.py:72-74 | A URL is collected if and only if one of the listed distributions carries it. A URL on any other node never appears. |
| `RdfParser.NoDistributionsNoUrls` | parsers/rdf_parser.py:68-76 | A subject with no `dcat:distribution` edge gets empty access and download URL lists. |
| `RdfParser.UndescribedSubjectYieldsEmptyLists` | parsers/rdf_parser.py:45-61 | A subject without title, description or keyword triples, whatever other triples it has, gets empty titles, descriptions and keywords, not an error. |
| `RdfParser.BareSubjectYieldsEmptyDataset` | parsers/rdf_parser.py:45-61 | A subject whose only triples are `rdf:type` triples gets a Dataset with five empty lists, not an error. |
| `RdfParser.ExtractDistributionUrls` | parsers/rdf_parser.py:63-76 | The loop that extends both lists, distribution by distribution, returns each URL kind concatenated over the subject's distributions in order. |
| `RdfParser.ExtractSingleDataset` | parsers/rdf_parser.py:45-61 | The extracted record is the specification record `DatasetOf` of that subject. |
| `RdfParser.ExtractDatasets` | parsers/rdf_parser.py:31-43 | One Dataset for each `dcat:Dataset` subject, in graph order; the k-th one is built from the k-th subject. |
| `RdfParser.AirQualityExtraction` | parsers/rdf_parser.py:36-76 | A graph with one dataset titled "Air Quality 2024", keywords "air" and "quality", and one distribution with access URL "http://x/access" extracts to exactly that one Dataset, with no download URLs. |
| `QdrantStore.DocumentsAsWrittenRaise` | vector_stores/qdrant_store.py:57-68 | As written, mapping datasets to documents returns the empty list for no datasets and raises `AttributeError("title")` for any non-empty list, so `add_datasets` after `initialize()` raises then too. |
| `QdrantStore.WithCollection` | vector_stores/qdrant_store.py:43-55 | After the existence check the named collection exists. If it is created, it gets the probed vector size and cosine distance. Every existing collection, including an existing one of that name, is left untouched. |
| `QdrantStore.WithCollectionIdempotent` | vector_stores/qdrant_store.py:47 | A second existence check changes nothing, whatever size it probes. |
| `QdrantStore.QdrantVectorStoreManager.constructor` | vector_stores/qdrant_store.py:12-18 | Host, port and collection name are stored; the defaults are "localhost", 6333 and "dcat_colllection". The embedding model is "text-embedding-3-large". Client and store are null. |
| `QdrantStore.QdrantVectorStoreManager.Initialize` | vector_stores/qdrant_store.py:20-31 | The client is the given database, the collection is ensured, and the store is bound to the collection and the embedding model. |
| `QdrantStore.QdrantVectorStoreManager.EnsureCollectionExists` | vector_stores/qdrant_store.py:43-55 | The database's collections become `WithCollection` of the old ones. |
| `QdrantStore.QdrantVectorStoreManager.AddDatasets` | vector_stores/qdrant_store.py:33-41 | Before initialisation it fails with the not-initialised error, whose message is "Vector store is not initialized. Call initialize() first.", and hands nothing over. Afterwards a connection exists and it hands over exactly the mapped documents, in input order. It keeps `Valid()`. The documents use the documented `primary_title`. |
| `QdrantStore.QdrantVectorStoreManager.DatasetsToDocuments` | vector_stores/qdrant_store.py:57-68 | The result has as many documents as there are datasets. The k-th document's text is the k-th dataset's content, and its metadata is that dataset's metadata. |
| `QdrantStore.AddRequiresInitialize` | vector_stores/qdrant_store.py:12-41 | On a fresh manager, adding fails with the not-initialised error; after `initialize()` the same call succeeds (with the documented `primary_title`). |

## Findings

| source | as written | input that shows it | evidently intended | confidence | as-written member | corrected member |
|---|---|---|---|---|---|---|
| models/dataset.py:19 | The condition reads `self.title`, which is not a field of the record (the field is `titles`), so every call raises `AttributeError`. Because `to_metadata` reads `primary_title`, it also always raises. So `add_datasets` raises for any non-empty list. | any dataset, for example `titles = ["A"]` | the first title, or None when there are no titles (docstring, lines 15-18) | high; not executed | `Datasets.PrimaryTitleAsWritten`, `Datasets.PrimaryTitleDiscrepancy`, `Datasets.ToMetadataAsWrittenAlwaysRaises`, `QdrantStore.DocumentsAsWrittenRaise` | `Datasets.PrimaryTitle` (used by `Datasets.ToMetadata`) |

## Left out

- Datasets.Attribute: looks up only the five data fields. Method names (`to_content`, `to_metadata`), the `primary_title` property and dunder attributes are not modelled; they are not needed to show why line 19 fails.
- Reading and parsing the RDF/XML file (`parse_file`, `_load_graph`): file I/O and the RDF library's parser. The model starts from the parsed triples.
- Term kinds: `str(...)` of a URI or literal is taken to be its string form; language tags and datatypes are not modelled.
- The graph library's iteration order is taken as the order of the triple sequence. The library does not fix that order, and the model does not either.
- The Qdrant client, the store object, the embedding service and `add_documents`: network clients and foreign libraries. The database is reduced to its collections' vector settings. Insertion is recorded only as the sequence of documents handed over; embedding, storage and the store's own ordering are not modelled.
- The probe embedding `embed_query("test")`: its floating-point vector comes from an external service. Only its length enters the model, as the `probedSize` parameter of `Initialize`.
- Host and port are stored but not used to pick a server: the server is the object passed to `Initialize`.
- Similarity search, the LLM query-intent parser (`query parser/query_parser.py`) and the configuration module (`config/config.py`): they are not part of this model.
