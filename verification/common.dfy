/** Values shared by every component: failure wrappers, metadata, and the Document
    object that the loaders, the splitter and the vector store hand to each other. */
module Common {

  datatype Option<+T> = None | Some(value: T)

  /** The outcome of a call into code outside the core (a format loader, the
      embedding service, a storage client): a value, or the error it raised. */
  datatype Result<+T> = Success(value: T) | Failure(error: string)

  /** A source of fresh uuid4 strings: `ids(n)` is the id drawn at position `n` of a
      run of draws. */
  type IdSource = nat -> string

  /** Python truthiness of an optional string: None and "" are both false. */
  predicate Truthy(s: Option<string>) {
    s.Some? && s.value != ""
  }

  /** A metadata value; the core itself writes strings and integers. */
  datatype Value = Str(s: string) | Int(i: int)

  type Metadata = map<string, Value>

  /** The value of a document at one moment: its text and its metadata. */
  datatype DocValue = DocValue(content: string, metadata: Metadata)

  /** A LangChain document: the core rewrites its metadata dictionary in place. */
  class Document {
    var pageContent: string
    var metadata: Metadata

    constructor (content: string, metadata: Metadata)
      ensures pageContent == content && this.metadata == metadata
    {
      pageContent := content;
      this.metadata := metadata;
    }

    function Value(): DocValue
      reads this
    {
      DocValue(pageContent, metadata)
    }
  }

  /** The values of a list of documents, position by position. */
  function Values(docs: seq<Document>): seq<DocValue>
    reads docs
  {
    seq(|docs|, i reads docs requires 0 <= i < |docs| => docs[i].Value())
  }

  /** The values of two lists one after the other. */
  lemma ValuesAppend(a: seq<Document>, b: seq<Document>)
    ensures Values(a + b) == Values(a) + Values(b)
  {
  }

  /** Lists joined one after the other, as repeated `extend` calls build them. */
  function Concat<T>(parts: seq<seq<T>>): seq<T> {
    if parts == [] then [] else Concat(parts[..|parts| - 1]) + parts[|parts| - 1]
  }

  /** Joining one more list appends it. */
  lemma ConcatSnoc<T>(parts: seq<seq<T>>, p: seq<T>)
    ensures Concat(parts + [p]) == Concat(parts) + p
  {
    assert (parts + [p])[..|parts|] == parts;
  }

  /** Joining one more list of a run appends it. */
  lemma ConcatPrefix<T>(parts: seq<seq<T>>, j: nat)
    requires j < |parts|
    ensures Concat(parts[..j + 1]) == Concat(parts[..j]) + parts[j]
  {
    assert parts[..j + 1] == parts[..j] + [parts[j]];
    ConcatSnoc(parts[..j], parts[j]);
  }

  /** Joining two runs of lists joins their joins. */
  lemma {:induction false} ConcatAppend<T>(a: seq<seq<T>>, b: seq<seq<T>>)
    ensures Concat(a + b) == Concat(a) + Concat(b)
    decreases |b|
  {
    if b == [] {
      assert a + b == a;
    } else {
      var n := |b| - 1;
      assert a + b == (a + b[..n]) + [b[n]];
      ConcatSnoc(a + b[..n], b[n]);
      ConcatAppend(a, b[..n]);
      assert b == b[..n] + [b[n]];
      ConcatSnoc(b[..n], b[n]);
    }
  }

  /** `f` applied to each element together with its position, counted from `start`. */
  function Positional<A, B>(f: (A, nat) -> B, xs: seq<A>, start: nat): (r: seq<B>)
    ensures |r| == |xs|
  {
    seq(|xs|, n requires 0 <= n < |xs| => f(xs[n], start + n))
  }

  /** Element `n` of a positional run is the function at that element and its position. */
  lemma PositionalAt<A, B>(f: (A, nat) -> B, xs: seq<A>, start: nat, n: nat)
    requires n < |xs|
    ensures Positional(f, xs, start)[n] == f(xs[n], start + n)
  {
  }

  /** Two runs one after the other: the second run's positions continue the first's. */
  lemma PositionalAppend<A, B>(f: (A, nat) -> B, a: seq<A>, b: seq<A>, start: nat)
    ensures Positional(f, a + b, start) == Positional(f, a, start) + Positional(f, b, start + |a|)
  {
    var whole := Positional(f, a + b, start);
    var parts := Positional(f, a, start) + Positional(f, b, start + |a|);
    forall n | 0 <= n < |a + b|
      ensures whole[n] == parts[n]
    {
      if n >= |a| {
        assert (a + b)[n] == b[n - |a|];
      }
    }
  }
  /** Joining what two runs yield, the second run's positions continuing the first's,
      joins what each run yields. */
  lemma ConcatPositionalAppend<A, B>(f: (A, nat) -> seq<B>, a: seq<A>, b: seq<A>, start: nat)
    ensures Concat(Positional(f, a + b, start))
         == Concat(Positional(f, a, start)) + Concat(Positional(f, b, start + |a|))
  {
    PositionalAppend(f, a, b, start);
    ConcatAppend(Positional(f, a, start), Positional(f, b, start + |a|));
  }


  /** The texts of a list of document values, in order. */
  function Contents(docs: seq<DocValue>): seq<string> {
    seq(|docs|, i requires 0 <= i < |docs| => docs[i].content)
  }

  /** Wraps values into new, pairwise distinct document objects, as LangChain does
      when a loader or a splitter returns its output. */
  method NewDocuments(vs: seq<DocValue>) returns (docs: seq<Document>)
    ensures Values(docs) == vs
    ensures forall d | d in docs :: fresh(d)
    ensures forall i, j | 0 <= i < j < |docs| :: docs[i] != docs[j]
  {
    docs := [];
    for n := 0 to |vs|
      invariant Values(docs) == vs[..n]
      invariant forall d | d in docs :: fresh(d)
      invariant forall i, j | 0 <= i < j < |docs| :: docs[i] != docs[j]
    {
      var d := new Document(vs[n].content, vs[n].metadata);
      docs := docs + [d];
    }
  }
}
