/** The question-answering front end: a similarity search decides whether the
    retrieval chain runs at all, and every outcome, an error included, becomes an
    answer with its sources. */
module RagChain {
  import opened Common
  import VectorStore

  /** The answer given when nothing relevant is found, or the chain gives no result. */
  const NoInformation: string := "I don't have enough information to answer that question."

  /** The answer given when a step raises. */
  const ErrorAnswer: string := "An error occurred while processing your question."

  /** The `{"answer": ..., "sources": [...]}` dictionary. */
  datatype Answer = Answer(answer: string, sources: seq<string>)

  /** What the retrieval chain returns; a key the dictionary lacks is None. */
  datatype ChainOutput = ChainOutput(result: Option<string>, sourceDocuments: Option<seq<DocValue>>)

  /** The retrieval chain called with `{"query": question}`: its output, or its error. */
  type QaChain = string -> Result<ChainOutput>

  /** The vector store's similarity search, given the question and the filter. */
  type Search = (string, Option<Metadata>) -> seq<DocValue>

  /** `answer_question`: an empty search answers with the fallback text and no
      sources; otherwise the chain runs on the question alone, and its result (or the
      fallback text) and the contents of its source documents are the answer. An
      error in the chain gives the error answer. */
  function AnswerQuestion(question: string, filter: Option<Metadata>, search: Search, chain: QaChain): (r: Answer)
    ensures r.sources != [] ==> search(question, filter) != [] && chain(question).Success?
    ensures r.answer == ErrorAnswer ==>
      search(question, filter) != [] && (chain(question).Failure? || chain(question).value.result == Some(ErrorAnswer))
  {
    var docs := search(question, filter);
    if docs == [] then Answer(NoInformation, [])
    else
      match chain(question)
      case Failure(_) => Answer(ErrorAnswer, [])
      case Success(out) =>
        Answer(if out.result.Some? then out.result.value else NoInformation,
               if out.sourceDocuments.Some? then Contents(out.sourceDocuments.value) else [])
  }

  /** The three outcomes: nothing found gives the fallback answer; a failing chain
      gives the error answer; a chain that answers gives its result, or the fallback
      text when it has none, with one source per source document, in order, holding
      that document's text. */
  lemma AnswerOutcomes(question: string, filter: Option<Metadata>, search: Search, chain: QaChain)
    ensures var r := AnswerQuestion(question, filter, search, chain);
      && (search(question, filter) == [] ==> r == Answer(NoInformation, []))
      && (search(question, filter) != [] && chain(question).Failure? ==> r == Answer(ErrorAnswer, []))
      && (search(question, filter) != [] && chain(question).Success? ==>
            var out := chain(question).value;
            && (out.result.Some? ==> r.answer == out.result.value)
            && (out.result.None? ==> r.answer == NoInformation)
            && (out.sourceDocuments.None? ==> r.sources == [])
            && (out.sourceDocuments.Some? ==>
                  |r.sources| == |out.sourceDocuments.value| &&
                  forall i :: 0 <= i < |r.sources| ==> r.sources[i] == out.sourceDocuments.value[i].content))
  {
  }

  /** When the search finds nothing, the chain is never consulted: any two chains
      give the same answer. */
  lemma ChainNotConsulted(question: string, filter: Option<Metadata>, search: Search, chain1: QaChain, chain2: QaChain)
    requires search(question, filter) == []
    ensures AnswerQuestion(question, filter, search, chain1) == AnswerQuestion(question, filter, search, chain2)
  {
  }

  /** The chain sees the question and not the filter: two filters under which the
      search finds something give the same answer. */
  lemma FilterOnlyGatesTheChain(question: string, filter1: Option<Metadata>, filter2: Option<Metadata>,
                                search: Search, chain: QaChain)
    requires search(question, filter1) != [] && search(question, filter2) != []
    ensures AnswerQuestion(question, filter1, search, chain) == AnswerQuestion(question, filter2, search, chain)
  {
  }

  /** With the vector store's search, which drops the filter, the filter has no
      effect on the answer at all. */
  lemma FilterIgnored(question: string, filter1: Option<Metadata>, filter2: Option<Metadata>,
                      embedQuery: VectorStore.QueryEmbedder, rpc: VectorStore.MatchRpc, chain: QaChain)
    ensures var search := (q: string, f: Option<Metadata>) => VectorStore.SearchResults(embedQuery, rpc, q);
      AnswerQuestion(question, filter1, search, chain) == AnswerQuestion(question, filter2, search, chain)
  {
  }

  /** `process_and_store_documents`: hands the documents to the vector store; since
      `add_documents` catches every error itself, its result is passed on unchanged. */
  method ProcessAndStoreDocuments(store: VectorStore.VectorStoreManager, documents: seq<Document>, ids: IdSource)
    returns (ok: bool)
    modifies documents, store.table
    ensures forall j | 0 <= j < |documents| ::
      documents[j].Value() == VectorStore.FillId(old(documents[j].Value()), ids(VectorStore.FirstIndex(documents, documents[j])))
    ensures forall j | 0 <= j < |documents| :: "id" in documents[j].metadata
    ensures ok == store.embedDocuments(Contents(old(Values(documents)))).Success?
    ensures store.table.rows ==
      if ok then VectorStore.Stored(old(store.table.rows),
                                    VectorStore.Rows(Values(documents), store.embedDocuments(Contents(old(Values(documents)))).value),
                                    store.table.accepts)
      else old(store.table.rows)
  {
    ok := store.AddDocuments(documents, ids);
  }
}
