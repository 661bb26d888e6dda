/** The Google Drive loader: it builds the Drive search expression for a folder and a
    set of MIME types, gathers the listing page by page, and processes every listed
    file, concatenating what each yields. */
module GoogleDrive {
  import opened Common
  import opened PathText

  /** One listed file: its Drive id and its name. */
  datatype DriveFile = DriveFile(id: string, name: string)

  /** One response of `files().list`; a key the response lacks is None. */
  datatype Page = Page(files: Option<seq<DriveFile>>, nextPageToken: Option<string>)

  /** `files().list(q=query, pageToken=token).execute()`: a page, or its error. */
  type ListCall = (string, Option<string>) -> Result<Page>

  /** Downloading a file by id and processing it under its name: the chunks, or the
      error raised on the way. */
  type FileProcess = (string, string) -> Result<seq<DocValue>>

  /** The clause every query ends with. */
  const NotTrashed: string := "trashed=false"

  /** The clause restricting the search to one folder. */
  function FolderClause(folderId: string): string {
    "'" + folderId + "' in parents"
  }

  /** The clause for one MIME type. */
  function MimeClause(mimeType: string): string {
    "mimeType='" + mimeType + "'"
  }

  /** The MIME types as alternatives, in the given order, in parentheses. */
  function MimeFilter(fileTypes: seq<string>): string {
    "(" + Join(seq(|fileTypes|, i requires 0 <= i < |fileTypes| => MimeClause(fileTypes[i])), " or ") + ")"
  }

  /** The MIME filter is present when some type is given. */
  predicate HasTypes(fileTypes: Option<seq<string>>) {
    fileTypes.Some? && fileTypes.value != []
  }

  /** The parts of the query, in the order `list_files` appends them. */
  function QueryParts(folderId: Option<string>, fileTypes: Option<seq<string>>): seq<string> {
    (if Truthy(folderId) then [FolderClause(folderId.value)] else [])
    + (if HasTypes(fileTypes) then [MimeFilter(fileTypes.value)] else [])
    + [NotTrashed]
  }

  /** The `q` expression of a listing. */
  function Query(folderId: Option<string>, fileTypes: Option<seq<string>>): string {
    Join(QueryParts(folderId, fileTypes), " and ")
  }

  /** The query always ends with `trashed=false`; it starts with the folder clause
      followed by " and " exactly when a non-empty folder id is given (it starts with
      a quote then and only then); the MIME filter is the part after the folder
      clause, or the first part, exactly when some type is given. */
  lemma QueryShape(folderId: Option<string>, fileTypes: Option<seq<string>>)
    ensures var parts := QueryParts(folderId, fileTypes);
      var q := Query(folderId, fileTypes);
      && |parts| == 1 + (if Truthy(folderId) then 1 else 0) + (if HasTypes(fileTypes) then 1 else 0)
      && parts[|parts| - 1] == NotTrashed
      && EndsWith(q, NotTrashed)
      && (Truthy(folderId) ==> FolderClause(folderId.value) + " and " <= q)
      && (q != [] && (q[0] == '\'' <==> Truthy(folderId)))
      && (HasTypes(fileTypes) ==> parts[if Truthy(folderId) then 1 else 0] == MimeFilter(fileTypes.value))
  {
    var parts := QueryParts(folderId, fileTypes);
    JoinFirst(parts, " and ");
    JoinLast(parts, " and ");
    assert parts[0][0] == '\'' <==> Truthy(folderId);
  }


  /** The query-building half of `list_files`: the folder clause, the MIME filter and
      `trashed=false`, appended in that order and joined with " and ". */
  method BuildQuery(folderId: Option<string>, fileTypes: Option<seq<string>>) returns (query: string)
    ensures query == Query(folderId, fileTypes)
  {
    var queryParts: seq<string> := [];
    if folderId.Some? && folderId.value != "" {
      queryParts := queryParts + [FolderClause(folderId.value)];
    }
    if fileTypes.Some? && fileTypes.value != [] {
      queryParts := queryParts + [MimeFilter(fileTypes.value)];
    }
    queryParts := queryParts + [NotTrashed];
    assert queryParts == QueryParts(folderId, fileTypes);
    query := Join(queryParts, " and ");
  }

  /** The listing ends within `bound` requests: some page in that many has no next
      token, or some request fails. */
  predicate ListingEnds(list: ListCall, query: string, token: Option<string>, bound: nat)
    decreases bound
  {
    bound > 0 &&
    match list(query, token)
    case Failure(_) => true
    case Success(page) => !Truthy(page.nextPageToken) || ListingEnds(list, query, page.nextPageToken, bound - 1)
  }

  /** The files of a page; none when the response has no `files` key. */
  function PageFiles(page: Page): seq<DriveFile> {
    if page.files.Some? then page.files.value else []
  }

  /** The files of every page from `token` on, in page order, up to the first page
      without a next token or the first failing request. */
  function Listed(list: ListCall, query: string, token: Option<string>, bound: nat): seq<DriveFile>
    requires ListingEnds(list, query, token, bound)
    decreases bound
  {
    match list(query, token)
    case Failure(_) => []
    case Success(page) =>
      PageFiles(page) + (if Truthy(page.nextPageToken) then Listed(list, query, page.nextPageToken, bound - 1) else [])
  }

  /** How long the listing is allowed to run does not change what it gathers. */
  lemma {:induction false} ListedAnyBound(list: ListCall, query: string, token: Option<string>, bound1: nat, bound2: nat)
    requires ListingEnds(list, query, token, bound1) && ListingEnds(list, query, token, bound2)
    ensures Listed(list, query, token, bound1) == Listed(list, query, token, bound2)
    decreases bound1
  {
    var r := list(query, token);
    if r.Success? && Truthy(r.value.nextPageToken) {
      ListedAnyBound(list, query, r.value.nextPageToken, bound1 - 1, bound2 - 1);
    }
  }

  /** What processing one file contributes: nothing when it raises. */
  function FileChunks(process: FileProcess, f: DriveFile): seq<DocValue> {
    match process(f.id, f.name)
    case Failure(_) => []
    case Success(chunks) => chunks
  }

  /** What each listed file contributes, in listing order. */
  function PerFile(process: FileProcess, files: seq<DriveFile>): (r: seq<seq<DocValue>>)
    ensures |r| == |files|
  {
    seq(|files|, i requires 0 <= i < |files| => FileChunks(process, files[i]))
  }

  /** The chunks of a folder: each file's chunks, in listing order. */
  function FolderChunks(process: FileProcess, files: seq<DriveFile>): seq<DocValue> {
    Concat(PerFile(process, files))
  }

  /** The chunks of two runs of files are the first run's followed by the second's. */
  lemma FolderChunksAppend(process: FileProcess, a: seq<DriveFile>, b: seq<DriveFile>)
    ensures FolderChunks(process, a + b) == FolderChunks(process, a) + FolderChunks(process, b)
  {
    assert PerFile(process, a + b) == PerFile(process, a) + PerFile(process, b);
    ConcatAppend(PerFile(process, a), PerFile(process, b));
  }

  /** A file whose download or processing fails contributes nothing and does not
      stop the files after it. */
  lemma FailedFileSkipped(process: FileProcess, files: seq<DriveFile>, i: nat)
    requires i < |files| && process(files[i].id, files[i].name).Failure?
    ensures FolderChunks(process, files) == FolderChunks(process, files[..i]) + FolderChunks(process, files[i + 1..])
  {
    assert files == files[..i] + [files[i]] + files[i + 1..];
    FolderChunksAppend(process, files[..i] + [files[i]], files[i + 1..]);
    FolderChunksAppend(process, files[..i], [files[i]]);
    var none: seq<seq<DocValue>> := [];
    assert PerFile(process, [files[i]]) == none + [[]];
    ConcatSnoc(none, []);
  }

  /** The loader, wired to the Drive listing call and the per-file processing. */
  class GoogleDriveLoader {
    const list: ListCall
    const process: FileProcess

    constructor (list: ListCall, process: FileProcess)
      ensures this.list == list && this.process == process
    {
      this.list := list;
      this.process := process;
    }

    /** `list_files`: builds the query, then requests pages, passing each page's
        token to the next request, until a page has no next token or a request
        fails; the files gathered so far are kept either way. */
    method ListFiles(folderId: Option<string>, fileTypes: Option<seq<string>>, ghost bound: nat)
      returns (results: seq<DriveFile>)
      requires ListingEnds(list, Query(folderId, fileTypes), None, bound)
      ensures results == Listed(list, Query(folderId, fileTypes), None, bound)
    {
      var query := BuildQuery(folderId, fileTypes);
      results := [];
      var pageToken: Option<string> := None;
      ghost var left := bound;
      while true
        invariant ListingEnds(list, query, pageToken, left)
        invariant results + Listed(list, query, pageToken, left) == Listed(list, query, None, bound)
        decreases left
      {
        var response := list(query, pageToken);
        if response.Failure? {
          break;
        }
        results := results + PageFiles(response.value);
        pageToken := response.value.nextPageToken;
        if pageToken.None? || pageToken.value == "" {
          break;
        }
        left := left - 1;
      }
    }

    /** `process_folder`: lists the folder and concatenates what each listed file
        yields, in listing order. */
    method ProcessFolder(folderId: string, fileTypes: Option<seq<string>>, ghost bound: nat)
      returns (allChunks: seq<DocValue>)
      requires ListingEnds(list, Query(Some(folderId), fileTypes), None, bound)
      ensures allChunks == FolderChunks(process, Listed(list, Query(Some(folderId), fileTypes), None, bound))
    {
      var files := ListFiles(Some(folderId), fileTypes, bound);
      allChunks := [];
      ghost var perFile := PerFile(process, files);
      for i := 0 to |files|
        invariant allChunks == Concat(perFile[..i])
      {
        ConcatPrefix(perFile, i);
        var chunks := DownloadAndProcessFile(files[i].id, files[i].name);
        allChunks := allChunks + chunks;
      }
      assert perFile[..|files|] == perFile;
    }

    /** `download_and_process_file`: an error on the way gives no chunks. */
    method DownloadAndProcessFile(fileId: string, fileName: string) returns (chunks: seq<DocValue>)
      ensures chunks == FileChunks(process, DriveFile(fileId, fileName))
      ensures process(fileId, fileName).Failure? ==> chunks == []
    {
      var result := process(fileId, fileName);
      if result.Failure? {
        return [];
      }
      chunks := result.value;
    }
  }
}
