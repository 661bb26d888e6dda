/** The Supabase Storage loader: it lists a bucket (or a folder in it), skips the
    entries without a name, builds each object's path, and concatenates what each
    downloaded and loaded object yields. */
module SupabaseStorage {
  import opened Common
  import opened PathText
  import DocumentLoader

  /** One entry of a bucket listing; folders come back without a name. */
  datatype StorageEntry = StorageEntry(name: Option<string>)

  /** `storage.from_(bucket).list(folder)` (or `.list()` for None): the entries, or
      the error raised. */
  type ListCall = (string, Option<string>) -> Result<seq<StorageEntry>>

  /** Downloading an object of a bucket to a temporary file and running
      `load_document` on it: an error raised on the way, or what `load_document`
      returned, None for an unsupported extension or a failing format loader. */
  type FileLoad = (string, string) -> Result<Option<seq<DocValue>>>

  /** `list_files`: the folder is passed only when it is a non-empty string; a
      listing error gives no entries. */
  function ListFiles(list: ListCall, bucket: string, folderPath: Option<string>): (r: seq<StorageEntry>)
    ensures list(bucket, if Truthy(folderPath) then folderPath else None).Failure? ==> r == []
    ensures !Truthy(folderPath) ==> list(bucket, None).Success? ==> r == list(bucket, None).value
  {
    match list(bucket, if Truthy(folderPath) then folderPath else None)
    case Failure(_) => []
    case Success(entries) => entries
  }

  /** An entry that names an object (`if file.get('name')`). */
  predicate Named(e: StorageEntry) {
    Truthy(e.name)
  }

  /** The path of a named object: the name itself, or the folder joined with it. */
  function ObjectPath(folderPath: Option<string>, name: string): string {
    if Truthy(folderPath) then PathJoin(folderPath.value, name) else name
  }

  /** The object path is the bare name without a folder; with a folder it ends with
      the name, starts with the folder unless the name is absolute, and has the name
      as its base name when the name holds no separator. */
  lemma ObjectPathShape(folderPath: Option<string>, name: string)
    ensures var p := ObjectPath(folderPath, name);
      && (!Truthy(folderPath) ==> p == name)
      && EndsWith(p, name)
      && (Truthy(folderPath) && (name == "" || name[0] != '/') ==> folderPath.value <= p)
      && (name != "" && '/' !in name ==> Basename(p) == name)
  {
    if Truthy(folderPath) {
      assert ObjectPath(folderPath, name) == PathJoin(folderPath.value, name);
      PathJoinShape(folderPath.value, name);
    } else {
      assert ObjectPath(folderPath, name) == name;
      assert name[|name| - |name|..] == name;
    }
    if name != "" && '/' !in name {
      ObjectPathBasename(folderPath, name);
    }
  }

  /** An object named without a separator has its name as its base name, in a
      folder or not. */
  lemma ObjectPathBasename(folderPath: Option<string>, name: string)
    requires name != "" && '/' !in name
    ensures Basename(ObjectPath(folderPath, name)) == name
  {
    if Truthy(folderPath) {
      JoinedBasename(folderPath.value, name);
    } else {
      JoinedBasename("", name);
      assert PathJoin("", name) == name;
    }
  }

  /** What one object yields once `download_and_process_file` has caught errors: an
      error gives no documents, and every other outcome, None included, is passed on. */
  function DownloadAsWritten(fetch: FileLoad, bucket: string, path: string): (r: Option<seq<DocValue>>)
    ensures r.None? <==> fetch(bucket, path) == Success(None)
    ensures r.Some? && r.value != [] ==> fetch(bucket, path) == Success(r)
  {
    match fetch(bucket, path)
    case Failure(_) => Some([])
    case Success(loaded) => loaded
  }

  /** The error `list.extend(None)` raises. */
  const ExtendNoneError: string := "TypeError: 'NoneType' object is not iterable"

  /** `process_bucket` as written: `all_chunks.extend(chunks)` raises when an object
      yields None, so one unsupported or unloadable object makes the whole call fail. */
  function ProcessBucketAsWritten(list: ListCall, fetch: FileLoad, bucket: string, folderPath: Option<string>)
    : (r: Result<seq<DocValue>>)
    ensures r.Failure? ==> r.error == ExtendNoneError && ListFiles(list, bucket, folderPath) != []
  {
    var entries := ListFiles(list, bucket, folderPath);
    if exists i :: 0 <= i < |entries| && Named(entries[i]) &&
                   DownloadAsWritten(fetch, bucket, ObjectPath(folderPath, entries[i].name.value)).None?
    then Failure(ExtendNoneError)
    else Success(EntryChunks(fetch, bucket, folderPath, entries))
  }

  /** A bucket holding one image: the image has no loader, so the listing that
      should yield nothing makes `process_bucket` raise instead. */
  lemma ImageAbortsBucket(list: ListCall, fetch: FileLoad, load: DocumentLoader.FormatLoad, docId: string,
                          bucket: string, stem: string)
    requires stem != "" && '.' !in stem && '/' !in stem
    requires list(bucket, None) == Success([StorageEntry(Some(stem + ".png"))])
    requires fetch(bucket, stem + ".png") == Success(DocumentLoader.Loaded(load, stem + ".png", docId))
    ensures DocumentLoader.Loaded(load, stem + ".png", docId).None?
    ensures ProcessBucketAsWritten(list, fetch, bucket, None).Failure?
    ensures BucketChunks(list, fetch, bucket, None) == []
  {
    PngHasNoLoader(stem);
    var entries := ListFiles(list, bucket, None);
    assert Named(entries[0]) && ObjectPath(None, entries[0].name.value) == stem + ".png";
    var none: seq<seq<DocValue>> := [];
    assert PerEntry(fetch, bucket, None, entries) == none + [[]];
    ConcatSnoc(none, []);
  }

  /** `.png` is not among the extensions the document processor loads. */
  lemma PngHasNoLoader(stem: string)
    requires stem != "" && '.' !in stem && '/' !in stem
    ensures DocumentLoader.LoaderFor(stem + ".png").None?
  {
    PngExtension(stem);
    LowerAt(".png");
    assert Lower(".png") == ".png";
    assert DocumentLoader.FileExtension(stem + ".png") == ".png";
  }

  /** A name made of a plain stem and ".png" has the extension ".png". */
  lemma PngExtension(stem: string)
    requires stem != "" && '.' !in stem && '/' !in stem
    ensures Extension(stem + ".png") == ".png"
  {
    var p := stem + ".png";
    var d := |stem|;
    assert forall k :: d < k < |p| ==> p[k] == ".png"[k - d];
    RFindIs(p, '.', d);
    assert forall k :: 0 <= k < d ==> p[k] == stem[k];
    RFindAbsent(p, '/');
    assert p[0..d] == stem && stem[0] != '.';
    ExtensionAt(p, -1, d);
    assert p[d..] == ".png";
  }

  /** What one object contributes: nothing when it raises or yields None. */
  function FileChunks(fetch: FileLoad, bucket: string, path: string): seq<DocValue> {
    match fetch(bucket, path)
    case Success(Some(docs)) => docs
    case _ => []
  }

  /** What each listed entry contributes, in listing order: nothing for a nameless one. */
  function PerEntry(fetch: FileLoad, bucket: string, folderPath: Option<string>, entries: seq<StorageEntry>)
    : (r: seq<seq<DocValue>>)
    ensures |r| == |entries|
  {
    seq(|entries|, i requires 0 <= i < |entries| =>
      if Named(entries[i]) then FileChunks(fetch, bucket, ObjectPath(folderPath, entries[i].name.value)) else [])
  }

  /** The documents of a run of entries, each entry's in listing order. */
  function EntryChunks(fetch: FileLoad, bucket: string, folderPath: Option<string>, entries: seq<StorageEntry>)
    : seq<DocValue>
  {
    Concat(PerEntry(fetch, bucket, folderPath, entries))
  }

  /** `process_bucket` with None treated as no documents: every listed object's
      documents, in listing order. */
  function BucketChunks(list: ListCall, fetch: FileLoad, bucket: string, folderPath: Option<string>): seq<DocValue> {
    EntryChunks(fetch, bucket, folderPath, ListFiles(list, bucket, folderPath))
  }

  /** Two runs of entries contribute the first run's documents, then the second's. */
  lemma EntryChunksAppend(fetch: FileLoad, bucket: string, folderPath: Option<string>, a: seq<StorageEntry>, b: seq<StorageEntry>)
    ensures EntryChunks(fetch, bucket, folderPath, a + b)
         == EntryChunks(fetch, bucket, folderPath, a) + EntryChunks(fetch, bucket, folderPath, b)
  {
    assert PerEntry(fetch, bucket, folderPath, a + b)
        == PerEntry(fetch, bucket, folderPath, a) + PerEntry(fetch, bucket, folderPath, b);
    ConcatAppend(PerEntry(fetch, bucket, folderPath, a), PerEntry(fetch, bucket, folderPath, b));
  }

  /** A nameless entry, or an object whose download or loading fails or yields None,
      contributes nothing and does not stop the entries after it. */
  lemma SkippedEntry(fetch: FileLoad, bucket: string, folderPath: Option<string>, entries: seq<StorageEntry>, i: nat)
    requires i < |entries|
    requires !Named(entries[i]) || !fetch(bucket, ObjectPath(folderPath, entries[i].name.value)).Success?
             || fetch(bucket, ObjectPath(folderPath, entries[i].name.value)).value.None?
    ensures EntryChunks(fetch, bucket, folderPath, entries)
         == EntryChunks(fetch, bucket, folderPath, entries[..i]) + EntryChunks(fetch, bucket, folderPath, entries[i + 1..])
  {
    assert entries == entries[..i] + [entries[i]] + entries[i + 1..];
    EntryChunksAppend(fetch, bucket, folderPath, entries[..i] + [entries[i]], entries[i + 1..]);
    EntryChunksAppend(fetch, bucket, folderPath, entries[..i], [entries[i]]);
    var none: seq<seq<DocValue>> := [];
    assert PerEntry(fetch, bucket, folderPath, [entries[i]]) == none + [[]];
    ConcatSnoc(none, []);
  }

  /** A listing error leaves the bucket with no documents. */
  lemma ListingFailureGivesNothing(list: ListCall, fetch: FileLoad, bucket: string, folderPath: Option<string>)
    requires list(bucket, if Truthy(folderPath) then folderPath else None).Failure?
    ensures BucketChunks(list, fetch, bucket, folderPath) == []
  {
  }

  /** Whenever the code as written does return, it returns what the corrected
      version returns. */
  lemma AsWrittenAgrees(list: ListCall, fetch: FileLoad, bucket: string, folderPath: Option<string>)
    ensures ProcessBucketAsWritten(list, fetch, bucket, folderPath).Success? ==>
      ProcessBucketAsWritten(list, fetch, bucket, folderPath).value == BucketChunks(list, fetch, bucket, folderPath)
  {
  }

  /** The loader, wired to the storage listing and the per-object download and load. */
  class SupabaseStorageLoader {
    const list: ListCall
    const fetch: FileLoad

    constructor (list: ListCall, fetch: FileLoad)
      ensures this.list == list && this.fetch == fetch
    {
      this.list := list;
      this.fetch := fetch;
    }

    /** `download_and_process_file`, with None from `load_document` read as no
        documents. */
    method DownloadAndProcessFile(bucket: string, filePath: string) returns (chunks: seq<DocValue>)
      ensures chunks == FileChunks(fetch, bucket, filePath)
      ensures !fetch(bucket, filePath).Success? || fetch(bucket, filePath).value.None? ==> chunks == []
    {
      var result := fetch(bucket, filePath);
      if result.Failure? || result.value.None? {
        return [];
      }
      chunks := result.value.value;
    }

    /** `process_bucket`: skips nameless entries, builds each object's path, and
        concatenates what each object yields, in listing order. */
    method ProcessBucket(bucket: string, folderPath: Option<string>) returns (allChunks: seq<DocValue>)
      ensures allChunks == BucketChunks(list, fetch, bucket, folderPath)
    {
      var files := ListFiles(list, bucket, folderPath);
      allChunks := [];
      ghost var perEntry := PerEntry(fetch, bucket, folderPath, files);
      for i := 0 to |files|
        invariant allChunks == Concat(perEntry[..i])
      {
        ConcatPrefix(perEntry, i);
        var file := files[i];
        if file.name.Some? && file.name.value != "" {
          var filePath := if folderPath.Some? && folderPath.value != "" then PathJoin(folderPath.value, file.name.value)
                          else file.name.value;
          var chunks := DownloadAndProcessFile(bucket, filePath);
          allChunks := allChunks + chunks;
        }
      }
      assert perEntry[..|files|] == perEntry;
    }
  }
}
