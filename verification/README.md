# RAG ingestion and retrieval core, modelled in Dafny

This project models the bookkeeping core of a retrieval-augmented question-answering
service that ingests documents from a local directory, Google Drive and Supabase
Storage, chunks them, stores them with embeddings in a Supabase `documents` table,
and answers questions over them.

Every call into a library or a service is a parameter of the model, as a function
that returns a value or a failure. This covers the format loaders, the text splitter,
uuid generation, the embedding service, table inserts, the `match_documents` call, the
retrieval chain, and the Drive and Storage clients.

The modules, one per file:

- `Common`: `Option` and `Result`, metadata values, and the LangChain `Document`.
  `Document` is a class because the code rewrites its metadata in place.
- `PathText`: the POSIX `os.path` operations the code relies on (`splitext`,
  `basename`, `join`), ASCII `lower()`, and `str.join`.
- `DocumentLoader`: `DocumentProcessor`. It covers extension dispatch and file
  tagging in `load_document`; caller-tag merging and batch-wide chunk numbering in
  `process_documents`; and the skip-and-concatenate directory walk in
  `process_directory`.
- `VectorStore`: `VectorStoreManager.add_documents` fills in ids in place, embeds the
  batch once and inserts each row in isolation. `similarity_search` asks for 5
  matches, ignores its filter, and turns every error into `[]`.
- `RagChain`: `answer_question`, with its three outcomes (nothing found, answered,
  error), and `process_and_store_documents`.
- `GoogleDrive`: the Drive `q` expression, the page-token loop of `list_files`, and
  the per-file concatenation of `process_folder`.
- `SupabaseStorage`: the listing, the filter on entry names, object paths, and the
  per-object concatenation of `process_bucket`, as corrected (see Findings).

Facts about the code that the model keeps:

- No default `type = "upload_file"` filter is injected anywhere. `similarity_search`
  drops whatever filter it is given.
- Chunks are numbered across the whole batch passed to `process_documents`, not per
  document.
- Caller tags overwrite every key of the same name, `id` and `source` included. Only
  the chunk keys, which are written after them, win over caller tags.
- Every file of a walked directory is tried; no file type is filtered out before
  loading.

## Model

| member | source | states |
|---|---|---|
| DocumentLoader.LoaderWhitelist | document_loader.py:27-41 | a loader is chosen exactly when the lower-cased extension is one of .txt, .docx, .pptx, .xlsx, .pdf, each extension selecting its own loader |
| DocumentLoader.LoaderIgnoresCase | document_loader.py:27 | lower-casing the whole path selects the same loader: the comparison is case-insensitive |
| DocumentLoader.FileTypeShape | document_loader.py:27-52 | `file_type` is the lower-cased extension without its dot; it is a whitelisted type for a supported file and holds no dot or separator |
| DocumentLoader.TagFileShape | document_loader.py:46-53 | a tagged document keeps its text and other metadata and gets `id`, `source`, `file_name`, `file_type`, which win over the loader's own keys |
| DocumentLoader.LoadedShape | document_loader.py:29-58 | loading yields documents exactly when a loader is chosen and succeeds; then there is one document per page, all tagged with the one id drawn for the file; otherwise None |
| DocumentLoader.DocumentProcessor.LoadDocument | document_loader.py:24-58 | the method returns new document objects whose values are what `Loaded` specifies, or None exactly when `Loaded` is None |
| DocumentLoader.WriteTags | document_loader.py:47-53 | every listed document has the same tags written over its metadata, its text unchanged |
| DocumentLoader.Merge | document_loader.py:65-67 | with non-empty caller tags, every tag is present with the caller's value and the other keys are unchanged; absent tags change nothing |
| DocumentLoader.MergeTwice | document_loader.py:65-67 | merging the same tags twice equals merging them once |
| DocumentLoader.MergeTags | document_loader.py:65-67 | in place, each document's metadata becomes its merge with the tags, even when a document is listed twice |
| DocumentLoader.NumberChunk | document_loader.py:73-79 | a numbered chunk keeps its text and its other keys and gets `chunk_id`, `chunk_index` and `total_chunks` |
| DocumentLoader.NumberChunksShape | document_loader.py:73-79 | chunk i of the batch gets index i, the id drawn at position i, and the batch's chunk count as total |
| DocumentLoader.NumberInPlace | document_loader.py:73-79 | the in-place numbering loop leaves the chunks equal to `NumberChunks` of their old values |
| DocumentLoader.ChunkIndicesDense | document_loader.py:73-79 | the chunk indices of a processed batch are exactly 0 .. total_chunks - 1, and every chunk's total is the batch size |
| DocumentLoader.ChunksKeepId | document_loader.py:65-79 | with a splitter that copies metadata and caller tags without `id`, a batch whose documents all carry one id gives chunks that all carry it |
| DocumentLoader.FileChunksShareId | document_loader.py:46-79 | with such a splitter and caller tags without `id`, every chunk of one file's documents carries the id drawn for that file |
| DocumentLoader.CallerTagsReachEveryChunk | document_loader.py:65-79 | with a splitter that copies metadata, every caller tag reaches every chunk unless it is one of the chunk keys, which are written after it |
| DocumentLoader.DocumentProcessor.ProcessDocuments | document_loader.py:60-84 | the input documents are tagged in place; the result is the numbered chunks of the split, or nothing when the splitter fails |
| DocumentLoader.DocumentProcessor.LoadEntry | document_loader.py:91-98 | the inner walk loop gathers, in listing order, what each file of one directory yields, skipping failed and unsupported files |
| DocumentLoader.DocumentProcessor.LoadWalkedFile | document_loader.py:92-94 | one file of a visited directory: its joined path is loaded with the id drawn at its visit position, giving that file's entry of `FileDocuments` |
| DocumentLoader.WalkStep | document_loader.py:90-98 | walking one more directory appends what its files yield, their visit positions following the earlier files', whatever each file yields |
| DocumentLoader.DocumentProcessor.ProcessDirectory | document_loader.py:86-106 | the result is nothing when no file yields a document; otherwise it is one `process_documents` run on everything gathered, in visit order |
| DocumentLoader.WalkedFileName | document_loader.py:90-94 | a walked file is tagged with its own name as `file_name` |
| PathText.ExtensionShape | document_loader.py:27 | the extension `splitext` splits off is empty, or a final dot-led suffix of the last path component with no further dot |
| PathText.ExtensionLower | document_loader.py:27 | lower-casing a path lower-cases its extension |
| PathText.BasenameShape | document_loader.py:51 | the base name is the part after the last separator, and holds none |
| PathText.JoinedBasename | document_loader.py:92 | joining a separator-free name to a directory gives back that name as the base name |
| PathText.PathJoinShape | supabase_storage_loader.py:97 | `os.path.join` ends with its second part; an absolute second part replaces the first, and any other extends it |
| Common.ConcatAppend | document_loader.py:98 | extending with two runs of lists equals extending with each run in turn |
| Common.NewDocuments | document_loader.py:43 | new document objects, pairwise distinct, holding the given values |
| VectorStore.WithIdShape | vector_store.py:54-56 | filling in the id adds `id` when it is missing and changes no value already present, an existing id included |
| VectorStore.FillIdTwice | vector_store.py:54-56 | a document that already has an id keeps it |
| VectorStore.FillIds | vector_store.py:54-56 | in place, every document gets the id drawn at its first position when it has none, and keeps its text; afterwards every document has an id |
| VectorStore.RowsShape | vector_store.py:66-73 | row i carries document i's `id`, text and metadata and embedding i; there are as many rows as the shorter of documents and embeddings |
| VectorStore.VectorStoreManager.EmbedAndInsert | vector_store.py:60-77 | one embedding call on the texts; false and no insert when it fails, otherwise true with the rows stored as `InsertRows` says |
| VectorStore.VectorStoreManager.InsertRows | vector_store.py:66-77 | the table ends as the fold of one insert attempt per row, in order, a failed insert skipped |
| VectorStore.DocumentsTable.Insert | vector_store.py:68-77 | an accepted row is appended; a refused row leaves the table as it was |
| VectorStore.StoredGrows | vector_store.py:66-77 | inserts never remove a row, and every row added is one of those attempted |
| VectorStore.IsolatedFailures | vector_store.py:75-77 | when acceptance depends only on the row, the table gains exactly the acceptable rows, in order: a failure costs only its own row |
| VectorStore.KeyedStaysDistinct | vector_store.py:68-73 | a table keyed by id keeps its ids distinct |
| VectorStore.SharedIdStoredOnce | vector_store.py:68-73 | rows that all share one id not yet in a table keyed by id: only the first of them is stored |
| VectorStore.FileStoredOnce | vector_store.py:54-73 | the chunks of one loaded file, processed with caller tags that set no `id`, keep the file's id through `add_documents`' id fill, so a table keyed by id that lacks it stores only the file's first chunk |
| VectorStore.VectorStoreManager.AddDocuments | vector_store.py:49-83 | ids are filled in place; one embedding call is made on all texts in order; the result is true exactly when that call succeeds, and the rows are stored as `InsertRows` says |
| VectorStore.SearchShape | vector_store.py:93-118 | with count 5, a successful match call whose rows all have content and metadata yields exactly one document per row, in order, with that row's content and metadata; conversely a non-empty result comes from such a call; an embedding error, a call error or an incomplete row gives [] |
| VectorStore.SearchBounded | vector_store.py:96-102 | a match call that honours its count gives at most 5 documents |
| VectorStore.VectorStoreManager.SimilaritySearch | vector_store.py:85-118 | the new documents hold exactly `SearchResults`, which does not depend on the filter |
| RagChain.AnswerQuestion | rag_chain.py:58-96 | sources are returned only when the search found something and the chain answered; the error answer appears only when the search found something and the chain failed (or itself answered with that text) |
| RagChain.AnswerOutcomes | rag_chain.py:58-96 | nothing found gives the fallback answer with no sources; a chain error gives the error answer; otherwise the answer is the chain's result (or the fallback) and the sources are its source documents' texts, in order |
| RagChain.ChainNotConsulted | rag_chain.py:70-74 | when the search finds nothing, the chain is not consulted |
| RagChain.FilterOnlyGatesTheChain | rag_chain.py:67-78 | the chain sees the question alone: the filter only decides whether it runs |
| RagChain.FilterIgnored | rag_chain.py:67 | with the vector store's search, the filter has no effect on the answer |
| RagChain.ProcessAndStoreDocuments | rag_chain.py:98-105 | the result is `add_documents`' result, with its effects on the documents and the table |
| GoogleDrive.QueryShape | google_drive_loader.py:66-76 | the query ends with `trashed=false`; it starts with the folder clause exactly when a non-empty folder id is given; the MIME filter part is present exactly when types are given |
| GoogleDrive.BuildQuery | google_drive_loader.py:66-76 | the appended parts joined with " and " are the query `Query` specifies |
| GoogleDrive.ListedAnyBound | google_drive_loader.py:81-100 | what the listing gathers does not depend on the bound it is allowed to run within |
| GoogleDrive.GoogleDriveLoader.ListFiles | google_drive_loader.py:52-100 | the files are the pages' files concatenated in order, up to the first page without a next token or the first failing request |
| GoogleDrive.GoogleDriveLoader.DownloadAndProcessFile | google_drive_loader.py:102-138 | a failure on the way gives no chunks |
| GoogleDrive.FolderChunksAppend | google_drive_loader.py:152-158 | the chunks of two runs of files are the first run's, then the second's |
| GoogleDrive.FailedFileSkipped | google_drive_loader.py:136-138 | a failing file contributes nothing and does not stop the files after it |
| GoogleDrive.GoogleDriveLoader.ProcessFolder | google_drive_loader.py:140-158 | the result is each listed file's chunks, concatenated in listing order |
| SupabaseStorage.ListFiles | supabase_storage_loader.py:24-44 | a listing error gives no entries; with no non-empty folder, a successful listing of the bucket root is returned as it is |
| SupabaseStorage.DownloadAsWritten | supabase_storage_loader.py:46-79 | as written: the result is None exactly when `load_document` returns None, and any documents it returns come from a successful load |
| SupabaseStorage.ProcessBucketAsWritten | supabase_storage_loader.py:81-101 | as written: the call can fail only with the TypeError of `extend(None)`, and only on a non-empty listing |
| SupabaseStorage.ListingFailureGivesNothing | supabase_storage_loader.py:35-44 | a listing error makes the bucket yield nothing |
| SupabaseStorage.ObjectPathShape | supabase_storage_loader.py:97 | with no folder the path is the bare name; otherwise it ends with the name and starts with the folder unless the name is absolute; a separator-free name is the path's base name |
| SupabaseStorage.ObjectPathBasename | supabase_storage_loader.py:97 | an object named without a separator has its name as its base name, in a folder or not |
| SupabaseStorage.SkippedEntry | supabase_storage_loader.py:95-99 | a nameless entry, or an object that fails or yields None, contributes nothing and does not stop the entries after it |
| SupabaseStorage.EntryChunksAppend | supabase_storage_loader.py:93-101 | the documents of two runs of entries are the first run's, then the second's |
| SupabaseStorage.SupabaseStorageLoader.DownloadAndProcessFile | supabase_storage_loader.py:57-79 | the corrected download (see Findings): an error, or None from `load_document`, gives no documents; the code as written passes that None on, as `DownloadAsWritten` keeps it |
| SupabaseStorage.SupabaseStorageLoader.ProcessBucket | supabase_storage_loader.py:81-101 | the result is each named entry's documents, concatenated in listing order |
| SupabaseStorage.PngHasNoLoader | document_loader.py:27-41 | a file named stem + ".png" selects no loader |
| SupabaseStorage.ImageAbortsBucket | supabase_storage_loader.py:70-99 | as written, a bucket holding one image makes `process_bucket` fail, where the corrected version yields nothing |
| SupabaseStorage.AsWrittenAgrees | supabase_storage_loader.py:92-101 | whenever the code as written returns, it returns what the corrected version returns |

## Left out

- The text-splitting algorithm (chunk size, overlap, separators) belongs to the
  library splitter and is a `Splitter` parameter. `chunkSize` and `chunkOverlap` are
  stored and nothing is claimed about them.
- The following are function parameters that may fail; their own behaviour is not
  modelled:
  - the format loaders and the OpenAI embedding and chat models;
  - the RetrievalQA chain and its prompt template;
  - the Supabase table, RPC and storage clients.
- The `documents` table is a sequence of rows and an acceptance function. Its schema
  and constraints are unknown, so the key-by-id lemmas are stated under that
  assumption only.
- uuid4 calls are supplied id sources, indexed by the position at which an id is
  drawn. That the ids are fresh and distinct is not modelled.
- The following are I/O and are not modelled:
  - the Google OAuth flow, and the `if not self.service: authenticate()` checks
    (google_drive_loader.py:35-50, 63-64, 113-114);
  - media downloads, temporary files and their removal
    (google_drive_loader.py:116-134, supabase_storage_loader.py:59-73);
  - `upload_to_storage` (supabase_storage_loader.py:103-132).
- The per-file work of both adapters (download, then processing) is one function
  parameter. As a consequence, `source` and `file_name` would name the temporary
  file, and the model does not show this.
- All `print` logging is left out.
- The constructors' wiring and environment checks are left out, as are the prompt
  and `get_retriever` (vector_store.py:11-47, 120-123; rag_chain.py:11-56).
- api.py and main.py are HTTP and command-line plumbing and are not part of this
  model.
- Cross-file mismatches:
  - google_drive_loader.py:14 imports a `DocumentLoader` that document_loader.py does
    not define, and line 131 calls a `process_document` method that does not exist.
    The Drive model uses a per-file processing function instead.
  - supabase_storage_loader.py:70 returns documents, not the strings its signature
    names.
- `os.walk` is given as its sequence of visited directories and their file names.
  The order of directories and names is whatever that sequence says.
- Exceptions that come from malformed service data are not modelled: a Drive file
  without `id` or `name`, a `match_documents` response whose `data` is not a list, or
  a metadata value other than a string or an integer. Only missing keys where the
  code uses `get` are modelled, and a missing `content` or `metadata` key in a match
  row is modelled as an error that gives [].
- Embedding vectors are sequences of reals; floating point is not modelled.
- PathText.Lower: lower-cases ASCII letters only, where Python's `str.lower`
  also maps other Unicode letters.
- GoogleDrive.GoogleDriveLoader.ListFiles and GoogleDrive.GoogleDriveLoader.ProcessFolder:
  both require that the listing ends within some number of requests. A service that
  hands out next-page tokens forever makes the code loop forever, and the model does
  not cover that case.
- VectorStore.VectorStoreManager.AddDocuments: the `False` result for an exception
  while filling ids is not reachable, because drawing an id cannot fail in the model.
- DocumentLoader.DocumentProcessor.ProcessDocuments: only the splitter can fail.
  Merging tags and numbering chunks cannot raise in the model.

## Findings

| source | as written | input that shows it | evidently intended | confidence | as-written member | corrected member |
|---|---|---|---|---|---|---|
| supabase_storage_loader.py:70-99 | `download_and_process_file` passes on `load_document`'s None for an unsupported extension or a failing format loader, and `process_bucket` hands it to `all_chunks.extend`, which raises a TypeError that nothing catches | a listing of bucket `docs` holding one entry named `photo.png` (any separator-free, dot-free stem followed by `.png`) | such an object contributes no documents and the other objects are still processed, as `process_directory` does for files that load nothing | high; not executed | SupabaseStorage.ImageAbortsBucket | SupabaseStorage.SupabaseStorageLoader.ProcessBucket, SupabaseStorage.SupabaseStorageLoader.DownloadAndProcessFile |
