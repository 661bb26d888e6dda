/** The document processor: it picks a format loader by file extension, tags every
    document loaded from a file with that file's identity, merges the caller's tags,
    numbers the chunks the text splitter returns, and processes a directory walk. */
module DocumentLoader {
  import opened Common
  import opened PathText

  /** The format loaders the processor dispatches to. */
  datatype LoaderKind = TextLoader | WordLoader | PowerPointLoader | ExcelLoader | PdfLoader

  /** A format loader run on a file: the documents (pages, sheets) it extracts, or its error. */
  type FormatLoad = (LoaderKind, string) -> Result<seq<DocValue>>

  /** The library text splitter run on a batch of documents: its chunks, or its error. */
  type Splitter = seq<DocValue> -> Result<seq<DocValue>>

  /** One directory visited by the walk: its path and the names of the files in it. */
  datatype WalkEntry = WalkEntry(root: string, files: seq<string>)

  const SupportedExtensions: set<string> := {".txt", ".docx", ".pptx", ".xlsx", ".pdf"}
  const SupportedFileTypes: set<string> := {"txt", "docx", "pptx", "xlsx", "pdf"}

  /** The metadata keys a loaded file contributes, and those a numbered chunk gets. */
  const FileKeys: set<string> := {"id", "source", "file_name", "file_type"}
  const ChunkKeys: set<string> := {"chunk_id", "chunk_index", "total_chunks"}

  /** The extension of a path, lower-cased, with its leading dot. */
  function FileExtension(path: string): string {
    Lower(Extension(path))
  }

  /** The loader chosen for a file by its lower-cased extension. */
  function LoaderFor(path: string): Option<LoaderKind> {
    LoaderForExtension(FileExtension(path))
  }

  /** The dispatch on a lower-cased extension. */
  function LoaderForExtension(ext: string): Option<LoaderKind> {
    if ext == ".txt" then Some(TextLoader)
    else if ext == ".docx" then Some(WordLoader)
    else if ext == ".pptx" then Some(PowerPointLoader)
    else if ext == ".xlsx" then Some(ExcelLoader)
    else if ext == ".pdf" then Some(PdfLoader)
    else None
  }

  /** Only the five whitelisted extensions, compared after lower-casing, select a
      loader, each its own; every other extension selects none. */
  lemma LoaderWhitelist(path: string)
    ensures LoaderFor(path).Some? <==> FileExtension(path) in SupportedExtensions
    ensures LoaderFor(path) == Some(TextLoader) <==> FileExtension(path) == ".txt"
    ensures LoaderFor(path) == Some(WordLoader) <==> FileExtension(path) == ".docx"
    ensures LoaderFor(path) == Some(PowerPointLoader) <==> FileExtension(path) == ".pptx"
    ensures LoaderFor(path) == Some(ExcelLoader) <==> FileExtension(path) == ".xlsx"
    ensures LoaderFor(path) == Some(PdfLoader) <==> FileExtension(path) == ".pdf"
  {
  }

  /** Lower-casing a whole path selects the same loader: the comparison is
      case-insensitive. */
  lemma {:induction false} LoaderIgnoresCase(path: string)
    ensures LoaderFor(Lower(path)) == LoaderFor(path)
  {
    ExtensionLower(path);
    LowerTwice(Extension(path));
    assert FileExtension(Lower(path)) == FileExtension(path);
  }

  /** The `file_type` tag: the lower-cased extension without its dot. */
  function FileType(path: string): string {
    var ext := FileExtension(path);
    if ext == "" then "" else ext[1..]
  }

  /** `file_type` is the lower-cased extension with its dot removed; for a supported
      file it is one of the five whitelisted types, and it never holds a dot or a '/'. */
  lemma FileTypeShape(path: string)
    ensures var t := FileType(path);
      && (FileExtension(path) != "" ==> "." + t == FileExtension(path))
      && (LoaderFor(path).Some? ==> t in SupportedFileTypes)
      && (forall k :: 0 <= k < |t| ==> t[k] != '.' && t[k] != '/')
  {
    var e := Extension(path);
    var ext := FileExtension(path);
    ExtensionShape(path);
    LoaderWhitelist(path);
    LowerAt(e);
    if ext != "" {
      assert ext[0] == LowerChar(e[0]) == '.';
      assert "." + ext[1..] == ext;
      assert forall k :: 0 <= k < |ext| - 1 ==> ext[1..][k] == LowerChar(e[k + 1]);
    }
  }

  /** The tags every document loaded from `path` receives. */
  function FileTags(docId: string, path: string): Metadata {
    map["id" := Str(docId), "source" := Str(path),
        "file_name" := Str(Basename(path)), "file_type" := Str(FileType(path))]
  }

  /** One loaded document with its file's tags written over its own metadata. */
  function TagFile(d: DocValue, docId: string, path: string): DocValue {
    DocValue(d.content, d.metadata + FileTags(docId, path))
  }

  /** A tagged document keeps its text and its other metadata, and gains the four file
      keys, whose values win over any the loader set. */
  lemma TagFileShape(d: DocValue, docId: string, path: string)
    ensures var r := TagFile(d, docId, path);
      && r.content == d.content
      && r.metadata.Keys == d.metadata.Keys + FileKeys
      && r.metadata["id"] == Str(docId)
      && r.metadata["source"] == Str(path)
      && r.metadata["file_name"] == Str(Basename(path))
      && r.metadata["file_type"] == Str(FileType(path))
      && (forall k :: k in d.metadata && k !in FileKeys ==> r.metadata[k] == d.metadata[k])
  {
    FileKeysWritten(d.metadata, Str(docId), Str(path), Str(Basename(path)), Str(FileType(path)));
  }

  /** Writing the four file keys over some metadata sets them and keeps every other key. */
  lemma FileKeysWritten(m: Metadata, id: Value, source: Value, name: Value, fileType: Value)
    ensures var r := m + map["id" := id, "source" := source, "file_name" := name, "file_type" := fileType];
      && r.Keys == m.Keys + FileKeys
      && r["id"] == id && r["source"] == source && r["file_name"] == name && r["file_type"] == fileType
      && (forall k :: k in m && k !in FileKeys ==> r[k] == m[k])
  {
  }

  /** What loading a file yields: None for an unsupported extension or a loader
      error, otherwise the loader's documents tagged with the file's tags. */
  function Loaded(load: FormatLoad, path: string, docId: string): Option<seq<DocValue>> {
    match LoaderFor(path)
    case None => None
    case Some(kind) =>
      match load(kind, path)
      case Failure(_) => None
      case Success(pages) =>
        Some(seq(|pages|, i requires 0 <= i < |pages| => TagFile(pages[i], docId, path)))
  }

  /** Loading yields documents exactly when the extension selects a loader and that
      loader succeeds; then it yields one document per extracted page, each tagged with
      the file's tags, so all of them share the one id drawn for the file. */
  lemma LoadedShape(load: FormatLoad, path: string, docId: string)
    ensures var r := Loaded(load, path, docId);
      && (r.Some? <==> LoaderFor(path).Some? && load(LoaderFor(path).value, path).Success?)
      && (r.Some? ==>
            var pages := load(LoaderFor(path).value, path).value;
            |r.value| == |pages| && forall i :: 0 <= i < |pages| ==> r.value[i] == TagFile(pages[i], docId, path))
  {
  }

  /** The documents a file contributes to a batch: none when loading yields nothing. */
  function LoadedOrEmpty(load: FormatLoad, path: string, docId: string): seq<DocValue> {
    var r := Loaded(load, path, docId);
    if r.Some? then r.value else []
  }

  /** The loader's pages with the file's tags written over them are what `Loaded` yields. */
  lemma LoadedIs(load: FormatLoad, path: string, docId: string, tagged: seq<DocValue>)
    requires LoaderFor(path).Some? && load(LoaderFor(path).value, path).Success?
    requires var pages := load(LoaderFor(path).value, path).value;
      |tagged| == |pages| &&
      forall j | 0 <= j < |pages| :: tagged[j] == DocValue(pages[j].content, pages[j].metadata + FileTags(docId, path))
    ensures Loaded(load, path, docId) == Some(tagged)
  {
    var r := Loaded(load, path, docId).value;
    var pages := load(LoaderFor(path).value, path).value;
    forall j | 0 <= j < |r|
      ensures r[j] == tagged[j]
    {
      assert r[j] == TagFile(pages[j], docId, path);
    }
    assert r == tagged;
  }

  /** Python's `if metadata: doc.metadata.update(metadata)`. */
  function Merge(m: Metadata, tags: Option<Metadata>): (r: Metadata)
    ensures tags.Some? ==> r.Keys == m.Keys + tags.value.Keys
    ensures tags.Some? ==> forall k :: k in tags.value ==> r[k] == tags.value[k]
    ensures forall k :: k in m && (tags.None? || k !in tags.value) ==> k in r && r[k] == m[k]
    ensures tags.None? ==> r == m
  {
    if tags.Some? && tags.value != map[] then m + tags.value else m
  }

  /** Merging the same tags twice changes nothing more than merging them once. */
  lemma MergeTwice(m: Metadata, tags: Option<Metadata>)
    ensures Merge(Merge(m, tags), tags) == Merge(m, tags)
  {
  }

  /** Every document of a batch with the caller's tags merged in. */
  function TagAll(docs: seq<DocValue>, tags: Option<Metadata>): seq<DocValue> {
    seq(|docs|, i requires 0 <= i < |docs| => DocValue(docs[i].content, Merge(docs[i].metadata, tags)))
  }

  /** The positional tags of chunk `i` out of `n`. */
  function ChunkTags(chunkId: string, i: nat, n: nat): Metadata {
    map["chunk_id" := Str(chunkId), "chunk_index" := Int(i), "total_chunks" := Int(n)]
  }

  /** Chunk `i` of `n` with its positional tags written over its metadata. */
  function NumberChunk(c: DocValue, chunkId: string, i: nat, n: nat): (r: DocValue)
    ensures r.content == c.content
    ensures r.metadata.Keys == c.metadata.Keys + ChunkKeys
    ensures r.metadata["chunk_id"] == Str(chunkId)
    ensures r.metadata["chunk_index"] == Int(i)
    ensures r.metadata["total_chunks"] == Int(n)
    ensures forall k :: k in c.metadata && k !in ChunkKeys ==> r.metadata[k] == c.metadata[k]
  {
    DocValue(c.content, c.metadata + ChunkTags(chunkId, i, n))
  }

  /** The splitter's chunks numbered across the whole batch. */
  function NumberChunks(chunks: seq<DocValue>, chunkIds: IdSource): (r: seq<DocValue>)
    ensures |r| == |chunks|
  {
    seq(|chunks|, i requires 0 <= i < |chunks| => NumberChunk(chunks[i], chunkIds(i), i, |chunks|))
  }

  /** Chunk `i` of the batch keeps its text and its other metadata, and is tagged with
      the id drawn at position `i`, its index `i` and the batch's chunk count. */
  lemma NumberChunksShape(chunks: seq<DocValue>, chunkIds: IdSource)
    ensures var r := NumberChunks(chunks, chunkIds);
      && (forall i :: 0 <= i < |r| ==>
            && r[i].content == chunks[i].content
            && r[i].metadata.Keys == chunks[i].metadata.Keys + ChunkKeys
            && r[i].metadata["chunk_id"] == Str(chunkIds(i))
            && r[i].metadata["chunk_index"] == Int(i)
            && r[i].metadata["total_chunks"] == Int(|chunks|))
      && (forall i, k :: 0 <= i < |r| && k in chunks[i].metadata && k !in ChunkKeys ==>
            r[i].metadata[k] == chunks[i].metadata[k])
  {
    var r := NumberChunks(chunks, chunkIds);
    assert forall i :: 0 <= i < |r| ==> r[i] == NumberChunk(chunks[i], chunkIds(i), i, |chunks|);
  }

  /** Chunks numbered one by one are what `NumberChunks` yields. */
  lemma NumberChunksIs(chunks: seq<DocValue>, chunkIds: IdSource, numbered: seq<DocValue>)
    requires |numbered| == |chunks|
    requires forall j | 0 <= j < |chunks| ::
      numbered[j] == DocValue(chunks[j].content, chunks[j].metadata + ChunkTags(chunkIds(j), j, |chunks|))
    ensures NumberChunks(chunks, chunkIds) == numbered
  {
    var r := NumberChunks(chunks, chunkIds);
    forall j | 0 <= j < |r|
      ensures r[j] == numbered[j]
    {
      assert r[j] == NumberChunk(chunks[j], chunkIds(j), j, |chunks|);
    }
    assert r == numbered;
  }

  /** The chunks `process_documents` returns for a batch: none when the splitter fails. */
  function ProcessedChunks(docs: seq<DocValue>, tags: Option<Metadata>, split: Splitter, chunkIds: IdSource): seq<DocValue> {
    match split(TagAll(docs, tags))
    case Failure(_) => []
    case Success(cs) => NumberChunks(cs, chunkIds)
  }

  /** The chunk indices of a processed batch are exactly 0 .. total_chunks - 1. */
  lemma ChunkIndicesDense(docs: seq<DocValue>, tags: Option<Metadata>, split: Splitter, chunkIds: IdSource)
    ensures var r := ProcessedChunks(docs, tags, split, chunkIds);
      && (forall c :: c in r ==> "chunk_index" in c.metadata && "total_chunks" in c.metadata
                                 && c.metadata["total_chunks"] == Int(|r|))
      && (set c | c in r :: c.metadata["chunk_index"]) == (set n | 0 <= n < |r| :: Int(n))
  {
    var r := ProcessedChunks(docs, tags, split, chunkIds);
    if split(TagAll(docs, tags)).Success? {
      NumberChunksShape(split(TagAll(docs, tags)).value, chunkIds);
    }
    forall n | 0 <= n < |r|
      ensures Int(n) in (set c | c in r :: c.metadata["chunk_index"])
    {
      assert r[n] in r;
    }
  }

  /** The library splitter copies each chunk's metadata from the document it came from. */
  ghost predicate CopiesMetadata(split: Splitter) {
    forall docs: seq<DocValue> :: split(docs).Success? ==>
      forall c :: c in split(docs).value ==> exists j :: 0 <= j < |docs| && c.metadata == docs[j].metadata
  }

  /** With such a splitter, every caller tag reaches every chunk, except that the
      positional keys written after it win over a caller tag of the same name. */
  lemma CallerTagsReachEveryChunk(docs: seq<DocValue>, tags: Metadata, split: Splitter, chunkIds: IdSource, k: string)
    requires CopiesMetadata(split)
    requires k in tags && k !in ChunkKeys
    ensures forall c :: c in ProcessedChunks(docs, Some(tags), split, chunkIds) ==>
      k in c.metadata && c.metadata[k] == tags[k]
  {
    forall c | c in ProcessedChunks(docs, Some(tags), split, chunkIds)
      ensures k in c.metadata && c.metadata[k] == tags[k]
    {
      var j := ChunkOrigin(docs, Some(tags), split, chunkIds, c);
    }
  }

  /** With such a splitter, a processed chunk holds, outside the chunk keys, the
      metadata of some document of the batch with the caller's tags merged in. */
  lemma ChunkOrigin(docs: seq<DocValue>, tags: Option<Metadata>, split: Splitter, chunkIds: IdSource, c: DocValue)
    returns (j: nat)
    requires CopiesMetadata(split)
    requires c in ProcessedChunks(docs, tags, split, chunkIds)
    ensures j < |docs|
    ensures forall k :: k in Merge(docs[j].metadata, tags) && k !in ChunkKeys ==>
      k in c.metadata && c.metadata[k] == Merge(docs[j].metadata, tags)[k]
  {
    var tagged := TagAll(docs, tags);
    var cs := split(tagged).value;
    var r := NumberChunks(cs, chunkIds);
    var i :| 0 <= i < |r| && r[i] == c;
    assert c == NumberChunk(cs[i], chunkIds(i), i, |cs|);
    assert cs[i] in cs;
    j :| 0 <= j < |tagged| && cs[i].metadata == tagged[j].metadata;
  }

  /** With such a splitter, and caller tags that set no `id`, every chunk of one
      file's documents carries the id drawn for that file. */
  lemma FileChunksShareId(load: FormatLoad, path: string, docId: string, tags: Option<Metadata>,
                          split: Splitter, chunkIds: IdSource)
    requires CopiesMetadata(split)
    requires tags.None? || "id" !in tags.value
    ensures forall c :: c in ProcessedChunks(LoadedOrEmpty(load, path, docId), tags, split, chunkIds) ==>
      "id" in c.metadata && c.metadata["id"] == Str(docId)
  {
    var docs := LoadedOrEmpty(load, path, docId);
    LoadedShape(load, path, docId);
    forall j | 0 <= j < |docs|
      ensures "id" in docs[j].metadata && docs[j].metadata["id"] == Str(docId)
    {
      TagFileShape(load(LoaderFor(path).value, path).value[j], docId, path);
    }
    ChunksKeepId(docs, tags, split, chunkIds, Str(docId));
  }

  /** With such a splitter, and caller tags that set no `id`, a batch whose documents
      all carry one id gives chunks that all carry it. */
  lemma ChunksKeepId(docs: seq<DocValue>, tags: Option<Metadata>, split: Splitter, chunkIds: IdSource, id: Value)
    requires CopiesMetadata(split)
    requires tags.None? || "id" !in tags.value
    requires forall j :: 0 <= j < |docs| ==> "id" in docs[j].metadata && docs[j].metadata["id"] == id
    ensures forall c :: c in ProcessedChunks(docs, tags, split, chunkIds) ==> "id" in c.metadata && c.metadata["id"] == id
  {
    forall c | c in ProcessedChunks(docs, tags, split, chunkIds)
      ensures "id" in c.metadata && c.metadata["id"] == id
    {
      var j := ChunkOrigin(docs, tags, split, chunkIds, c);
      assert "id" in Merge(docs[j].metadata, tags);
    }
  }

  /** The paths `os.walk` visits inside one directory, in listing order. */
  function EntryPaths(e: WalkEntry): seq<string> {
    seq(|e.files|, j requires 0 <= j < |e.files| => PathJoin(e.root, e.files[j]))
  }

  /** All paths of a walk, in visit order. */
  function WalkPaths(walk: seq<WalkEntry>): seq<string> {
    if walk == [] then [] else WalkPaths(walk[..|walk| - 1]) + EntryPaths(walk[|walk| - 1])
  }

  /** What the file at a path yields when it is visited at position `n`. */
  function FileYield(load: FormatLoad, docIds: IdSource): (string, nat) -> seq<DocValue> {
    (p: string, n: nat) => LoadedOrEmpty(load, p, docIds(n))
  }

  /** What each visited file yields, in visit order, when the first of them is at
      visit position `start`; the file at visit position `n` draws the id `docIds(n)`. */
  function FileDocuments(load: FormatLoad, paths: seq<string>, docIds: IdSource, start: nat): seq<seq<DocValue>> {
    Positional(FileYield(load, docIds), paths, start)
  }

  /** The file at position `j` of a directory listing yields what loading its joined
      path yields. */
  lemma FileDocumentsAt(load: FormatLoad, e: WalkEntry, docIds: IdSource, start: nat, j: nat)
    requires j < |e.files|
    ensures FileDocuments(load, EntryPaths(e), docIds, start)[j]
         == LoadedOrEmpty(load, PathJoin(e.root, e.files[j]), docIds(start + j))
  {
    var p := EntryPaths(e)[j];
    assert p == PathJoin(e.root, e.files[j]);
    PositionalAt(FileYield(load, docIds), EntryPaths(e), start, j);
  }

  /** Walking one more directory appends its paths. */
  lemma WalkPathsSnoc(walk: seq<WalkEntry>, i: nat)
    requires i < |walk|
    ensures WalkPaths(walk[..i + 1]) == WalkPaths(walk[..i]) + EntryPaths(walk[i])
  {
    assert walk[..i + 1][..i] == walk[..i];
  }

  /** Walking one more directory appends what its files yield, their visit positions
      following those of every file visited before, whatever each file yields. */
  lemma WalkStep<T>(each: (string, nat) -> seq<T>, walk: seq<WalkEntry>, i: nat)
    requires i < |walk|
    ensures var done := WalkPaths(walk[..i]);
      && |WalkPaths(walk[..i + 1])| == |done| + |walk[i].files|
      && Concat(Positional(each, WalkPaths(walk[..i + 1]), 0))
         == Concat(Positional(each, done, 0)) + Concat(Positional(each, EntryPaths(walk[i]), |done|))
  {
    WalkPathsSnoc(walk, i);
    ConcatPositionalAppend(each, WalkPaths(walk[..i]), EntryPaths(walk[i]), 0);
  }

  /** The chunks `process_directory` returns: one `process_documents` call on all
      gathered documents, or nothing when no file yields a document. */
  function DirectoryChunks(load: FormatLoad, split: Splitter, walk: seq<WalkEntry>, tags: Option<Metadata>,
                           docIds: IdSource, chunkIds: IdSource): seq<DocValue> {
    var docs := Concat(FileDocuments(load, WalkPaths(walk), docIds, 0));
    if docs == [] then [] else ProcessedChunks(docs, tags, split, chunkIds)
  }

  /** A file of a walked directory is tagged with its own name as `file_name`. */
  lemma WalkedFileName(load: FormatLoad, e: WalkEntry, j: nat, docId: string)
    requires j < |e.files| && e.files[j] != "" && '/' !in e.files[j]
    ensures forall d :: d in LoadedOrEmpty(load, EntryPaths(e)[j], docId) ==>
      d.metadata["file_name"] == Str(e.files[j])
  {
    JoinedBasename(e.root, e.files[j]);
    LoadedShape(load, EntryPaths(e)[j], docId);
  }

  /** The processor: chunk size and overlap configure the library splitter. */
  class DocumentProcessor {
    const chunkSize: int
    const chunkOverlap: int
    const load: FormatLoad
    const split: Splitter

    constructor (chunkSize: int, chunkOverlap: int, load: FormatLoad, split: Splitter)
      ensures this.chunkSize == chunkSize && this.chunkOverlap == chunkOverlap
      ensures this.load == load && this.split == split
    {
      this.chunkSize := chunkSize;
      this.chunkOverlap := chunkOverlap;
      this.load := load;
      this.split := split;
    }

    /** `load_document`: new document objects, tagged in place with the file's tags. */
    method LoadDocument(filePath: string, docId: string) returns (r: Option<seq<Document>>)
      ensures r.Some? == Loaded(load, filePath, docId).Some?
      ensures r.Some? ==> Values(r.value) == Loaded(load, filePath, docId).value
      ensures r.Some? ==> forall d | d in r.value :: fresh(d)
      ensures (if r.Some? then Values(r.value) else []) == LoadedOrEmpty(load, filePath, docId)
    {
      var kind := LoaderFor(filePath);
      if kind.None? {
        return None;
      }
      var loaded := load(kind.value, filePath);
      if loaded.Failure? {
        return None;
      }
      var documents := NewDocuments(loaded.value);
      assert forall j | 0 <= j < |documents| :: documents[j] in documents;
      WriteTags(documents, FileTags(docId, filePath));
      LoadedIs(load, filePath, docId, Values(documents));
      return Some(documents);
    }

    /** `process_documents`: merges the caller's tags into the given documents in
        place, splits them, and numbers the new chunks in place. */
    method ProcessDocuments(documents: seq<Document>, metadata: Option<Metadata>, chunkIds: IdSource)
      returns (chunks: seq<Document>)
      modifies documents
      ensures Values(documents) == TagAll(old(Values(documents)), metadata)
      ensures Values(chunks) == ProcessedChunks(old(Values(documents)), metadata, split, chunkIds)
      ensures forall c | c in chunks :: fresh(c)
    {
      ghost var before := Values(documents);
      if metadata.Some? && metadata.value != map[] {
        MergeTags(documents, metadata.value);
      } else {
        assert TagAll(before, metadata) == before;
      }
      var result := split(Values(documents));
      if result.Failure? {
        return [];
      }
      var made := NewDocuments(result.value);
      assert forall j | 0 <= j < |made| :: made[j] in made;
      assert forall j | 0 <= j < |made| :: made[j] !in documents;
      NumberInPlace(made, chunkIds);
      chunks := made;
    }

    /** The inner loop of `process_directory` over the files of one visited directory,
        the first of them at visit position `start`: loads each and keeps what the
        non-empty loads return. */
    method LoadEntry(entry: WalkEntry, docIds: IdSource, start: nat) returns (found: seq<Document>)
      ensures Values(found) == Concat(FileDocuments(load, EntryPaths(entry), docIds, start))
      ensures forall d | d in found :: fresh(d)
    {
      found := [];
      ghost var perFile := FileDocuments(load, EntryPaths(entry), docIds, start);
      for j := 0 to |entry.files|
        invariant forall d | d in found :: fresh(d)
        invariant Values(found) == Concat(perFile[..j])
      {
        var documents := LoadWalkedFile(entry, docIds, start, j);
        ConcatPrefix(perFile, j);
        if documents.Some? && documents.value != [] {
          ValuesAppend(found, documents.value);
          found := found + documents.value;
        }
      }
      assert perFile[..|entry.files|] == perFile;
    }

    /** One step of that loop: joins the directory with the `j`-th file name and loads
        the file with the id drawn at its visit position. */
    method LoadWalkedFile(entry: WalkEntry, docIds: IdSource, start: nat, j: nat) returns (documents: Option<seq<Document>>)
      requires j < |entry.files|
      ensures (if documents.Some? then Values(documents.value) else []) == FileDocuments(load, EntryPaths(entry), docIds, start)[j]
      ensures documents.Some? ==> forall d | d in documents.value :: fresh(d)
    {
      var filePath := PathJoin(entry.root, entry.files[j]);
      FileDocumentsAt(load, entry, docIds, start, j);
      documents := LoadDocument(filePath, docIds(start + j));
    }

    /** `process_directory`: loads every walked file, skips those that yield nothing,
        and processes everything gathered as one batch. */
    method ProcessDirectory(walk: seq<WalkEntry>, metadata: Option<Metadata>, docIds: IdSource, chunkIds: IdSource)
      returns (chunks: seq<Document>)
      ensures Values(chunks) == DirectoryChunks(load, split, walk, metadata, docIds, chunkIds)
    {
      var all: seq<Document> := [];
      var k := 0;
      for i := 0 to |walk|
        invariant k == |WalkPaths(walk[..i])|
        invariant forall d | d in all :: fresh(d)
        invariant Values(all) == Concat(FileDocuments(load, WalkPaths(walk[..i]), docIds, 0))
      {
        var found := LoadEntry(walk[i], docIds, k);
        WalkStep(FileYield(load, docIds), walk, i);
        ValuesAppend(all, found);
        all := all + found;
        k := k + |walk[i].files|;
      }
      assert walk[..|walk|] == walk;
      if all != [] {
        assert forall j | 0 <= j < |all| :: all[j] in all;
        chunks := ProcessDocuments(all, metadata, chunkIds);
      } else {
        chunks := [];
      }
    }
  }

  /** Python's `for doc in documents: doc.metadata.update(metadata)`; a document
      listed twice is updated twice, to the same effect. */
  method MergeTags(documents: seq<Document>, metadata: Metadata)
    modifies documents
    ensures Values(documents) == TagAll(old(Values(documents)), Some(metadata))
  {
    ghost var before := Values(documents);
    ghost var after := TagAll(before, Some(metadata));
    for i := 0 to |documents|
      invariant forall j | 0 <= j < |documents| ::
        documents[j].Value() == if documents[j] in documents[..i] then after[j] else before[j]
    {
      var doc := documents[i];
      if doc in documents[..i] {
        MergeTwice(before[i].metadata, Some(metadata));
      }
      label Visit:
      doc.metadata := doc.metadata + metadata;
      forall j | 0 <= j < |documents|
        ensures documents[j].Value() == if documents[j] in documents[..i + 1] then after[j] else before[j]
      {
        assert documents[j] in documents[..i + 1] <==> documents[j] in documents[..i] || documents[j] == doc;
        if documents[j] == doc {
          assert before[j] == before[i] && after[j] == after[i];
          assert doc.Value() == after[i];
        } else {
          assert documents[j].Value() == old@Visit(documents[j].Value());
        }
      }
    }
    assert forall j | 0 <= j < |documents| :: documents[j] in documents[..|documents|];
  }

  /** Writes the same tags over the metadata of each of a list of distinct documents. */
  method WriteTags(docs: seq<Document>, tags: Metadata)
    requires forall i, j | 0 <= i < j < |docs| :: docs[i] != docs[j]
    modifies docs
    ensures forall j | 0 <= j < |docs| ::
      docs[j].Value() == DocValue(old(docs[j].pageContent), old(docs[j].metadata) + tags)
  {
    for i := 0 to |docs|
      invariant forall j | 0 <= j < i ::
        docs[j].Value() == DocValue(old(docs[j].pageContent), old(docs[j].metadata) + tags)
      invariant forall j | i <= j < |docs| :: docs[j].Value() == old(docs[j].Value())
    {
      docs[i].metadata := docs[i].metadata + tags;
    }
  }

  /** Python's `for i, chunk in enumerate(chunks): chunk.metadata.update(...)` over the
      splitter's new chunk objects. */
  method NumberInPlace(chunks: seq<Document>, chunkIds: IdSource)
    requires forall i, j | 0 <= i < j < |chunks| :: chunks[i] != chunks[j]
    modifies chunks
    ensures Values(chunks) == NumberChunks(old(Values(chunks)), chunkIds)
  {
    ghost var before := Values(chunks);
    var n := |chunks|;
    for i := 0 to n
      invariant forall j | 0 <= j < i ::
        chunks[j].Value() == DocValue(before[j].content, before[j].metadata + ChunkTags(chunkIds(j), j, n))
      invariant forall j | i <= j < n :: chunks[j].Value() == before[j]
    {
      var tags := ChunkTags(chunkIds(i), i, n);
      assert forall j | 0 <= j < n && j != i :: chunks[j] != chunks[i];
      chunks[i].metadata := chunks[i].metadata + tags;
    }
    NumberChunksIs(before, chunkIds, Values(chunks));
  }
}
