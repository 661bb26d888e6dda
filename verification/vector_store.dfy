/** The vector store manager: it gives every document an id, embeds the batch once
    and inserts one row per document into the `documents` table, each insert on its
    own; and it turns the rows of a `match_documents` call back into documents. */
module VectorStore {
  import opened Common
  import DocumentLoader

  /** One row of the `documents` table. */
  datatype Row = Row(id: Value, content: string, metadata: Metadata, embedding: seq<real>)

  /** The embedding service on a batch of texts: one vector per text, or its error. */
  type Embedder = seq<string> -> Result<seq<seq<real>>>

  /** The embedding service on one query text. */
  type QueryEmbedder = string -> Result<seq<real>>

  /** One row of a `match_documents` response; a key the row lacks is None. */
  datatype MatchRow = MatchRow(content: Option<string>, metadata: Option<Metadata>)

  /** The `match_documents` call: a query vector and a match count, the rows it matches. */
  type MatchRpc = (seq<real>, nat) -> Result<seq<MatchRow>>

  /** Whether the table accepts a row, given the rows it already holds. */
  type Accepts = (seq<Row>, Row) -> bool

  /** The match count every search requests. */
  const MatchCount: nat := 5

  /** Python's `if 'id' not in metadata: metadata['id'] = str(uuid4())`. */
  function WithId(m: Metadata, id: string): (r: Metadata)
    ensures "id" in r
  {
    if "id" in m then m else m["id" := Str(id)]
  }

  /** Filling in the id adds the `id` key with the drawn value when it is missing,
      and changes no value already present, an existing id included. */
  lemma WithIdShape(m: Metadata, id: string)
    ensures var r := WithId(m, id);
      && r.Keys == m.Keys + {"id"}
      && (forall k :: k in m ==> r[k] == m[k])
      && ("id" !in m ==> r["id"] == Str(id))
  {
  }

  /** A document with its missing id filled in. */
  function FillId(d: DocValue, id: string): DocValue {
    DocValue(d.content, WithId(d.metadata, id))
  }

  /** A document that already has an id keeps it: filling twice is filling once. */
  lemma FillIdTwice(d: DocValue, a: string, b: string)
    ensures FillId(FillId(d, a), b) == FillId(d, a)
  {
  }

  /** The first position at which an object occurs in a list. */
  function FirstIndex(docs: seq<Document>, d: Document): (r: nat)
    requires d in docs
    ensures r < |docs| && docs[r] == d && d !in docs[..r]
  {
    if docs[0] == d then 0
    else
      var r' := FirstIndex(docs[1..], d);
      assert docs[..r' + 1] == [docs[0]] + docs[1..][..r'];
      r' + 1
  }

  /** An object's first position is at or before any position it is found at. */
  lemma FirstIndexAtMost(docs: seq<Document>, i: nat)
    requires i < |docs|
    ensures FirstIndex(docs, docs[i]) <= i
  {
  }

  /** The row inserted for a document with the given embedding. */
  function RowOf(v: DocValue, embedding: seq<real>): Row
    requires "id" in v.metadata
  {
    Row(v.metadata["id"], v.content, v.metadata, embedding)
  }

  /** The rows `zip(texts, metadatas, embeddings)` yields: as many as the shorter of
      the documents and the embeddings. */
  function Rows(vs: seq<DocValue>, embeddings: seq<seq<real>>): (r: seq<Row>)
    requires forall i :: 0 <= i < |vs| ==> "id" in vs[i].metadata
    ensures |r| == if |vs| < |embeddings| then |vs| else |embeddings|
  {
    var n := if |vs| < |embeddings| then |vs| else |embeddings|;
    seq(n, i requires 0 <= i < n => RowOf(vs[i], embeddings[i]))
  }

  /** Row `i` carries the id, the text and the metadata of document `i` and the
      embedding of text `i`. */
  lemma RowsShape(vs: seq<DocValue>, embeddings: seq<seq<real>>)
    requires forall i :: 0 <= i < |vs| ==> "id" in vs[i].metadata
    ensures var r := Rows(vs, embeddings);
      forall i :: 0 <= i < |r| ==>
        && r[i].id == vs[i].metadata["id"]
        && r[i].content == vs[i].content
        && r[i].metadata == vs[i].metadata
        && r[i].embedding == embeddings[i]
  {
  }

  /** The table after an insert of each row in turn, a rejected insert leaving it as
      it was and the next insert still attempted. */
  function Stored(table: seq<Row>, attempts: seq<Row>, accepts: Accepts): seq<Row> {
    if attempts == [] then table
    else
      var s := Stored(table, attempts[..|attempts| - 1], accepts);
      var row := attempts[|attempts| - 1];
      if accepts(s, row) then s + [row] else s
  }

  /** Inserting never removes a row, and every row added is one of those attempted. */
  lemma {:induction false} StoredGrows(table: seq<Row>, attempts: seq<Row>, accepts: Accepts)
    ensures table <= Stored(table, attempts, accepts)
    ensures forall k :: |table| <= k < |Stored(table, attempts, accepts)| ==>
      Stored(table, attempts, accepts)[k] in attempts
  {
    if attempts != [] {
      var n := |attempts| - 1;
      StoredGrows(table, attempts[..n], accepts);
      var s := Stored(table, attempts[..n], accepts);
      assert forall k :: |table| <= k < |s| ==> s[k] in attempts[..n];
    }
  }

  /** The rows of a run that satisfy `good`, in order. */
  function Kept(good: Row -> bool, rows: seq<Row>): seq<Row> {
    if rows == [] then []
    else Kept(good, rows[..|rows| - 1]) + (if good(rows[|rows| - 1]) then [rows[|rows| - 1]] else [])
  }

  /** When whether a row is accepted depends on that row alone, the table gains
      exactly the acceptable rows, in the order they were attempted: a failed insert
      costs only its own row. */
  lemma {:induction false} IsolatedFailures(table: seq<Row>, attempts: seq<Row>, accepts: Accepts, good: Row -> bool)
    requires forall s, r :: accepts(s, r) == good(r)
    ensures Stored(table, attempts, accepts) == table + Kept(good, attempts)
  {
    if attempts != [] {
      IsolatedFailures(table, attempts[..|attempts| - 1], accepts, good);
    }
  }

  /** A table that refuses a row whose id it already holds. */
  ghost predicate KeyedById(accepts: Accepts) {
    forall s: seq<Row>, r: Row :: accepts(s, r) == (forall x :: x in s ==> x.id != r.id)
  }

  predicate DistinctIds(rows: seq<Row>) {
    forall i, j :: 0 <= i < j < |rows| ==> rows[i].id != rows[j].id
  }

  /** A table keyed by id keeps its ids distinct through any run of inserts. */
  lemma {:induction false} KeyedStaysDistinct(table: seq<Row>, attempts: seq<Row>, accepts: Accepts)
    requires KeyedById(accepts) && DistinctIds(table)
    ensures DistinctIds(Stored(table, attempts, accepts))
  {
    if attempts != [] {
      var n := |attempts| - 1;
      KeyedStaysDistinct(table, attempts[..n], accepts);
      var s := Stored(table, attempts[..n], accepts);
      if accepts(s, attempts[n]) {
        assert forall i :: 0 <= i < |s| ==> s[i] in s;
      }
    }
  }

  /** The chunks of one file all carry that file's id; a table keyed by id therefore
      stores only the first of them and refuses the rest. */
  lemma {:induction false} SharedIdStoredOnce(table: seq<Row>, attempts: seq<Row>, accepts: Accepts, id: Value)
    requires KeyedById(accepts)
    requires forall x :: x in table ==> x.id != id
    requires attempts != [] && forall r :: r in attempts ==> r.id == id
    ensures Stored(table, attempts, accepts) == table + [attempts[0]]
  {
    var n := |attempts| - 1;
    if n == 0 {
      assert accepts(table, attempts[0]);
    } else {
      assert forall r :: r in attempts[..n] ==> r in attempts;
      SharedIdStoredOnce(table, attempts[..n], accepts, id);
      var s := Stored(table, attempts[..n], accepts);
      assert attempts[0] in s && attempts[n] in attempts;
      assert !accepts(s, attempts[n]);
    }
  }

  /** The chunks of one loaded file, processed with caller tags that set no `id` by a
      splitter that copies metadata, all carry the file's id; so when the table is
      keyed by id and does not hold that id yet, inserting their rows stores only the
      first chunk of the file. */
  lemma FileStoredOnce(load: DocumentLoader.FormatLoad, path: string, docId: string, tags: Option<Metadata>,
                       split: DocumentLoader.Splitter, chunkIds: IdSource,
                       table: seq<Row>, embeddings: seq<seq<real>>, accepts: Accepts)
    requires DocumentLoader.CopiesMetadata(split)
    requires tags.None? || "id" !in tags.value
    requires KeyedById(accepts)
    requires forall x :: x in table ==> x.id != Str(docId)
    requires DocumentLoader.ProcessedChunks(DocumentLoader.LoadedOrEmpty(load, path, docId), tags, split, chunkIds) != []
    requires embeddings != []
    ensures var chunks := DocumentLoader.ProcessedChunks(DocumentLoader.LoadedOrEmpty(load, path, docId), tags, split, chunkIds);
      && (forall i :: 0 <= i < |chunks| ==> "id" in chunks[i].metadata)
      && Stored(table, Rows(chunks, embeddings), accepts) == table + [RowOf(chunks[0], embeddings[0])]
  {
    var chunks := DocumentLoader.ProcessedChunks(DocumentLoader.LoadedOrEmpty(load, path, docId), tags, split, chunkIds);
    DocumentLoader.FileChunksShareId(load, path, docId, tags, split, chunkIds);
    assert forall i :: 0 <= i < |chunks| ==> chunks[i] in chunks;
    var rows := Rows(chunks, embeddings);
    RowsShape(chunks, embeddings);
    assert forall r :: r in rows ==> r.id == Str(docId);
    SharedIdStoredOnce(table, rows, accepts, Str(docId));
  }

  /** A match row with both keys present. */
  predicate Complete(m: MatchRow) {
    m.content.Some? && m.metadata.Some?
  }

  /** One document per matched row, in response order. */
  function Hits(rows: seq<MatchRow>): (r: seq<DocValue>)
    requires forall i :: 0 <= i < |rows| ==> Complete(rows[i])
    ensures |r| == |rows|
  {
    seq(|rows|, i requires 0 <= i < |rows| && Complete(rows[i]) => DocValue(rows[i].content.value, rows[i].metadata.value))
  }

  /** One more complete row adds its document. */
  lemma HitsSnoc(rows: seq<MatchRow>, i: nat)
    requires i < |rows| && forall k :: 0 <= k <= i ==> Complete(rows[k])
    ensures Hits(rows[..i + 1]) == Hits(rows[..i]) + [DocValue(rows[i].content.value, rows[i].metadata.value)]
  {
  }

  /** What `similarity_search` returns for a query; no failure escapes it. */
  function SearchResults(embedQuery: QueryEmbedder, rpc: MatchRpc, query: string): seq<DocValue> {
    match embedQuery(query)
    case Failure(_) => []
    case Success(v) =>
      match rpc(v, MatchCount)
      case Failure(_) => []
      case Success(rows) =>
        if forall i :: 0 <= i < |rows| ==> Complete(rows[i]) then Hits(rows) else []
  }

  /** A search finds documents only when the query is embedded and the match call
      with count 5 succeeds; then it holds one document per response row, in order,
      with that row's content and metadata. An embedding error, a call error or a
      row without content or metadata gives no documents at all; a successful call
      whose rows all have both keys gives exactly one document per row. */
  lemma SearchShape(embedQuery: QueryEmbedder, rpc: MatchRpc, query: string)
    ensures var r := SearchResults(embedQuery, rpc, query);
      && (r != [] ==>
            && embedQuery(query).Success?
            && rpc(embedQuery(query).value, 5).Success?
            && var rows := rpc(embedQuery(query).value, 5).value;
               && |r| == |rows|
               && forall i :: 0 <= i < |rows| ==>
                    rows[i].content == Some(r[i].content) && rows[i].metadata == Some(r[i].metadata))
      && (embedQuery(query).Failure? ==> r == [])
      && (embedQuery(query).Success? && rpc(embedQuery(query).value, 5).Failure? ==> r == [])
      && ((embedQuery(query).Success? && rpc(embedQuery(query).value, 5).Success? &&
           exists m :: m in rpc(embedQuery(query).value, 5).value && !Complete(m)) ==> r == [])
      && ((embedQuery(query).Success? && rpc(embedQuery(query).value, 5).Success? &&
           forall m :: m in rpc(embedQuery(query).value, 5).value ==> Complete(m)) ==>
            var rows := rpc(embedQuery(query).value, 5).value;
            && |r| == |rows|
            && forall i :: 0 <= i < |rows| ==> r[i] == DocValue(rows[i].content.value, rows[i].metadata.value))
  {
    if embedQuery(query).Success? && rpc(embedQuery(query).value, 5).Success? {
      var rows := rpc(embedQuery(query).value, 5).value;
      if exists m :: m in rows && !Complete(m) {
        var m :| m in rows && !Complete(m);
        var i :| 0 <= i < |rows| && rows[i] == m;
      } else {
        forall i | 0 <= i < |rows| ensures Complete(rows[i]) {
          assert rows[i] in rows;
        }
      }
    }
  }

  /** When the match call honours its count, a search yields at most five documents. */
  lemma SearchBounded(embedQuery: QueryEmbedder, rpc: MatchRpc, query: string)
    requires forall v, k :: rpc(v, k).Success? ==> |rpc(v, k).value| <= k
    ensures |SearchResults(embedQuery, rpc, query)| <= 5
  {
  }

  /** The rows of the `documents` table, as the service holds them. */
  class DocumentsTable {
    var rows: seq<Row>
    const accepts: Accepts

    constructor (rows: seq<Row>, accepts: Accepts)
      ensures this.rows == rows && this.accepts == accepts
    {
      this.rows := rows;
      this.accepts := accepts;
    }

    /** `table("documents").insert(row).execute()`: false when the insert raises. */
    method Insert(row: Row) returns (ok: bool)
      modifies this
      ensures ok == accepts(old(rows), row)
      ensures rows == if ok then old(rows) + [row] else old(rows)
    {
      ok := accepts(rows, row);
      if ok {
        rows := rows + [row];
      }
    }
  }

  /** The manager, wired to the table, the embedding service and the match call. */
  class VectorStoreManager {
    const table: DocumentsTable
    const embedDocuments: Embedder
    const embedQuery: QueryEmbedder
    const matchDocuments: MatchRpc

    constructor (table: DocumentsTable, embedDocuments: Embedder, embedQuery: QueryEmbedder, matchDocuments: MatchRpc)
      ensures this.table == table && this.embedDocuments == embedDocuments
      ensures this.embedQuery == embedQuery && this.matchDocuments == matchDocuments
    {
      this.table := table;
      this.embedDocuments := embedDocuments;
      this.embedQuery := embedQuery;
      this.matchDocuments := matchDocuments;
    }

    /** `add_documents`: fills in each missing id in place (a document listed twice
        keeps the id drawn at its first position), embeds all texts in one call, and
        attempts one insert per row; true exactly when the embedding call succeeds. */
    method AddDocuments(documents: seq<Document>, ids: IdSource) returns (ok: bool)
      modifies documents, table
      ensures forall j | 0 <= j < |documents| ::
        documents[j].Value() == FillId(old(documents[j].Value()), ids(FirstIndex(documents, documents[j])))
      ensures forall j | 0 <= j < |documents| :: "id" in documents[j].metadata
      ensures ok == embedDocuments(Contents(old(Values(documents)))).Success?
      ensures table.rows ==
        if ok then Stored(old(table.rows), Rows(Values(documents), embedDocuments(Contents(old(Values(documents)))).value), table.accepts)
        else old(table.rows)
    {
      ghost var before := Values(documents);
      FillIds(documents, ids);
      var vals := Values(documents);
      var texts := Contents(vals);
      assert forall j | 0 <= j < |documents| :: texts[j] == before[j].content;
      assert texts == Contents(before);
      ok := EmbedAndInsert(vals, texts);
    }

    /** The second half of `add_documents`: one embedding call on all texts, then the
        insert loop; an embedding error ends the call with false and no insert. */
    method EmbedAndInsert(vals: seq<DocValue>, texts: seq<string>) returns (ok: bool)
      requires forall i :: 0 <= i < |vals| ==> "id" in vals[i].metadata
      requires texts == Contents(vals)
      modifies table
      ensures ok == embedDocuments(texts).Success?
      ensures table.rows ==
        if ok then Stored(old(table.rows), Rows(vals, embedDocuments(texts).value), table.accepts)
        else old(table.rows)
    {
      var embedded := embedDocuments(texts);
      if embedded.Failure? {
        return false;
      }
      var embeddings := embedded.value;
      InsertRows(vals, texts, embeddings);
      return true;
    }

    /** The insert loop of `add_documents` over `zip(texts, metadatas, embeddings)`:
        a row whose insert raises is skipped and the loop goes on. */
    method InsertRows(vals: seq<DocValue>, texts: seq<string>, embeddings: seq<seq<real>>)
      requires forall i :: 0 <= i < |vals| ==> "id" in vals[i].metadata
      requires texts == Contents(vals)
      modifies table
      ensures table.rows == Stored(old(table.rows), Rows(vals, embeddings), table.accepts)
    {
      ghost var attempts := Rows(vals, embeddings);
      var n := if |vals| < |embeddings| then |vals| else |embeddings|;
      for i := 0 to n
        invariant table.rows == Stored(old(table.rows), attempts[..i], table.accepts)
      {
        var metadata := vals[i].metadata;
        var row := Row(metadata["id"], texts[i], metadata, embeddings[i]);
        var _ := table.Insert(row);
        assert attempts[..i + 1][..i] == attempts[..i];
      }
      assert attempts[..n] == attempts;
    }

    /** `similarity_search`: the filter is not passed on; the match call asks for five
        rows, and each row becomes a new document. */
    method SimilaritySearch(query: string, filter: Option<Metadata>) returns (results: seq<Document>)
      ensures Values(results) == SearchResults(embedQuery, matchDocuments, query)
      ensures forall d | d in results :: fresh(d)
    {
      var embedded := embedQuery(query);
      if embedded.Failure? {
        return [];
      }
      var response := matchDocuments(embedded.value, MatchCount);
      if response.Failure? {
        return [];
      }
      var rows := response.value;
      results := [];
      for i := 0 to |rows|
        invariant forall k :: 0 <= k < i ==> Complete(rows[k])
        invariant Values(results) == Hits(rows[..i])
        invariant forall d | d in results :: fresh(d)
      {
        var m := rows[i];
        if m.content.None? || m.metadata.None? {
          return [];
        }
        var doc := new Document(m.content.value, m.metadata.value);
        HitsSnoc(rows, i);
        ValuesAppend(results, [doc]);
        results := results + [doc];
      }
      assert rows[..|rows|] == rows;
    }
  }

  /** The first loop of `add_documents`: a document without an `id` gets the one
      drawn at its position; a document listed twice keeps the id drawn at its first
      position. */
  method FillIds(documents: seq<Document>, ids: IdSource)
    modifies documents
    ensures forall j | 0 <= j < |documents| ::
      documents[j].Value() == FillId(old(documents[j].Value()), ids(FirstIndex(documents, documents[j])))
    ensures forall j | 0 <= j < |documents| :: "id" in documents[j].metadata
  {
    ghost var first := seq(|documents|, j requires 0 <= j < |documents| => FirstIndex(documents, documents[j]));
    for i := 0 to |documents|
      invariant forall j | 0 <= j < |documents| ::
        documents[j].Value() == if first[j] < i then FillId(old(documents[j].Value()), ids(first[j])) else old(documents[j].Value())
    {
      var doc := documents[i];
      FirstIndexAtMost(documents, i);
      label Visit:
      if "id" !in doc.metadata {
        doc.metadata := doc.metadata["id" := Str(ids(i))];
      }
      forall j | 0 <= j < |documents|
        ensures documents[j].Value() ==
          if first[j] < i + 1 then FillId(old(documents[j].Value()), ids(first[j])) else old(documents[j].Value())
      {
        if documents[j] == doc {
          assert first[j] == first[i] <= i;
          if first[i] < i {
            assert old@Visit(doc.Value()) == FillId(old(doc.Value()), ids(first[i]));
            assert doc.Value() == old@Visit(doc.Value());
          } else {
            assert old@Visit(doc.Value()) == old(doc.Value());
            assert doc.Value() == FillId(old(doc.Value()), ids(i));
          }
        } else {
          assert documents[j].Value() == old@Visit(documents[j].Value());
          assert documents[first[j]] == documents[j];
          assert first[j] != i;
        }
      }
    }
  }
}
