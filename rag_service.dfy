/** `AIService`: document ingestion (extract, chunk, embed, replace the
    stored corpus) and retrieval-augmented answering (embed the question,
    search, prompt, generate, clean up).

    The embedding model, the generative model, the chunker and the
    similarity search are outside the model: they are the function values of
    `Providers`, each of which answers or fails. Every provider and store
    request the two procedures make is reported, in order, as a `Call`, so
    that what was NOT requested can be stated. */
module RagService {
  import opened Wrappers
  import opened JsStrings
  import opened Prompts
  import FileProcessing
  import GeminiKey

  type Vector = seq<real>

  /** A row of the `documents` table. The embedding is absent when the batch
      returned fewer embeddings than there were chunks (`embeddings[i]` is
      then `undefined`). */
  datatype Row = Row(content: string, embedding: Option<Vector>)

  /** One row returned by the `match_documents` search. */
  datatype Match = Match(content: string, similarity: real)

  /** The `{ data, error }` reply of the `match_documents` call. */
  datatype SearchReply = SearchReply(data: Option<seq<Match>>, error: Option<string>)

  /** The collaborators the service calls: the chunker, the batch and single
      embedding calls, the similarity search (query vector, threshold, count)
      and text generation. A failure carries the message it rejects with. */
  datatype Providers = Providers(
    chunkText: string -> seq<string>,
    batchEmbed: seq<string> -> Result<seq<Vector>, string>,
    embedQuery: string -> Result<Vector, string>,
    matchDocuments: (Vector, real, nat) -> SearchReply,
    generate: string -> Result<string, string>)

  /** The store's replies to the clearing delete and to the insert. */
  datatype StoreReplies = StoreReplies(deleteError: Option<string>, insertError: Option<string>)

  /** A request made to a collaborator. */
  datatype Call =
    | ExtractFile(file: FileProcessing.File)
    | ChunkText(text: string)
    | BatchEmbed(chunks: seq<string>)
    | DeleteAllRows
    | InsertRows(rows: seq<Row>)
    | EmbedQuery(query: string)
    | MatchDocuments(embedding: Vector, threshold: real, count: nat)
    | Generate(prompt: string)

  /** What a successful ingestion resolves to. */
  datatype IngestSummary = IngestSummary(chunks: nat, fileSize: nat)

  const NotInitializedError := "AI Service not initialized. Check API key."
  const ClearFailedError := "Could not clear old documents from the database."
  const InsertFailedError := "Could not save document vectors to the database."
  const NotConfiguredReply := "AI is not configured. Please add your Gemini API key in the settings."
  const SearchFailedReply := "I'm sorry, I had trouble searching the document. Please try again."
  const MatchThreshold: real := 0.70
  const MatchCount: nat := 5

  /** `chunks.map((chunk, i) => ({ content: chunk, embedding: embeddings[i] }))` */
  function PairChunks(chunks: seq<string>, embeddings: seq<Vector>): (rows: seq<Row>)
    ensures |rows| == |chunks|
    ensures forall i :: 0 <= i < |rows| ==> rows[i].content == chunks[i]
    ensures forall i :: 0 <= i < |rows| && i < |embeddings| ==> rows[i].embedding == Some(embeddings[i])
    ensures forall i :: |embeddings| <= i < |rows| ==> rows[i].embedding == None
  {
    seq(|chunks|, i requires 0 <= i < |chunks| =>
      Row(chunks[i], if i < |embeddings| then Some(embeddings[i]) else None))
  }

  /** The search found nothing: `!relevantChunks || relevantChunks.length === 0`. */
  predicate NoMatches(reply: SearchReply)
  {
    reply.data.None? || |reply.data.value| == 0
  }

  /** `relevantChunks.map(item => item.content)` */
  function MatchContents(matches: seq<Match>): (contents: seq<string>)
    ensures |contents| == |matches|
    ensures forall i :: 0 <= i < |matches| ==> contents[i] == matches[i].content
  {
    seq(|matches|, i requires 0 <= i < |matches| => matches[i].content)
  }

  /** The `documents` table of the vector store. */
  class DocumentTable {
    var rows: seq<Row>

    constructor(initial: seq<Row>)
      ensures rows == initial
    {
      rows := initial;
    }

    /** `delete().neq('id', -1)`: removes every row unless the store reports an error. */
    method DeleteAll(reply: Option<string>) returns (error: Option<string>)
      modifies this
      ensures error == reply
      ensures rows == if reply.None? then [] else old(rows)
    {
      error := reply;
      if reply.None? {
        rows := [];
      }
    }

    /** `insert(rows)`: appends the rows unless the store reports an error. */
    method Insert(newRows: seq<Row>, reply: Option<string>) returns (error: Option<string>)
      modifies this
      ensures error == reply
      ensures rows == if reply.None? then old(rows) + newRows else old(rows)
    {
      error := reply;
      if reply.None? {
        rows := rows + newRows;
      }
    }
  }

  class AIService {
    /** `process.env.REACT_APP_GEMINI_API_KEY` */
    const apiKey: Option<string>
    /** Whether constructing the Gemini client and its two models succeeded. */
    const clientCreated: bool
    const isInitialized: bool

    ghost predicate Valid()
    {
      isInitialized == (GeminiKey.IsUsable(apiKey) && clientCreated)
    }

    /** The constructor: initialised only with a usable key and a client that
        could be created. */
    constructor(apiKey: Option<string>, clientCreated: bool)
      ensures Valid()
      ensures this.apiKey == apiKey && this.clientCreated == clientCreated
    {
      this.apiKey := apiKey;
      this.clientCreated := clientCreated;
      this.isInitialized := GeminiKey.IsUsable(apiKey) && clientCreated;
    }

    /** `isConfigured()` */
    function IsConfigured(): (configured: bool)
      requires Valid()
      ensures configured <==> GeminiKey.IsUsable(apiKey) && clientCreated
    {
      isInitialized
    }

    /** `getModelInfo()` */
    function GetModelInfo(): (info: string)
      requires Valid()
      ensures info == "Simulated Mode" <==> !IsConfigured()
      ensures IsConfigured() ==> info == "Gemini (RAG/Supabase)"
    {
      if !isInitialized then "Simulated Mode" else "Gemini (RAG/Supabase)"
    }

    /** `processAndEmbedDocument(file)`. The old corpus is deleted before the
        new rows are inserted, and nothing is inserted when the delete fails. */
    method ProcessAndEmbedDocument(file: FileProcessing.File, p: Providers, table: DocumentTable,
                                   replies: StoreReplies)
      returns (r: Result<IngestSummary, string>, calls: seq<Call>)
      modifies table
      ensures !isInitialized ==> r == Failure(NotInitializedError) && calls == [] && table.rows == old(table.rows)
      ensures isInitialized && FileProcessing.ExtractText(file).Failure? ==>
                r == Failure(FileProcessing.ExtractText(file).error) && calls == [ExtractFile(file)] &&
                table.rows == old(table.rows)
      ensures isInitialized && FileProcessing.ExtractText(file).Success? ==>
                var text := FileProcessing.ExtractText(file).value;
                var chunks := p.chunkText(text);
                var start := [ExtractFile(file), ChunkText(text), BatchEmbed(chunks)];
                match p.batchEmbed(chunks)
                case Failure(e) => r == Failure(e) && calls == start && table.rows == old(table.rows)
                case Success(embeddings) =>
                  var rows := PairChunks(chunks, embeddings);
                  if replies.deleteError.Some? then
                    r == Failure(ClearFailedError) && calls == start + [DeleteAllRows] &&
                    table.rows == old(table.rows)
                  else if replies.insertError.Some? then
                    r == Failure(InsertFailedError) && calls == start + [DeleteAllRows, InsertRows(rows)] &&
                    table.rows == []
                  else
                    r == Success(IngestSummary(|chunks|, file.size)) &&
                    calls == start + [DeleteAllRows, InsertRows(rows)] && table.rows == rows
    {
      calls := [];
      if !isInitialized {
        return Failure(NotInitializedError), calls;
      }
      var extracted := FileProcessing.ExtractTextFromFile(file);
      calls := calls + [ExtractFile(file)];
      if extracted.Failure? {
        return Failure(extracted.error), calls;
      }
      var documentText := extracted.value;
      var chunks := p.chunkText(documentText);
      calls := calls + [ChunkText(documentText)];
      var embeddingResult := p.batchEmbed(chunks);
      calls := calls + [BatchEmbed(chunks)];
      if embeddingResult.Failure? {
        return Failure(embeddingResult.error), calls;
      }
      var documentsToInsert := PairChunks(chunks, embeddingResult.value);
      var deleteError := table.DeleteAll(replies.deleteError);
      calls := calls + [DeleteAllRows];
      if deleteError.Some? {
        return Failure(ClearFailedError), calls;
      }
      var insertError := table.Insert(documentsToInsert, replies.insertError);
      calls := calls + [InsertRows(documentsToInsert)];
      if insertError.Some? {
        return Failure(InsertFailedError), calls;
      }
      r := Success(IngestSummary(|documentsToInsert|, file.size));
    }

    /** `getRAGAnswer(query, chatHistory)`. A failure is a rejection of the
        returned promise (the query embedding or the generation failed). */
    method GetRAGAnswer(query: string, history: seq<Turn>, p: Providers)
      returns (r: Result<string, string>, calls: seq<Call>)
      ensures !isInitialized ==> r == Success(NotConfiguredReply) && calls == []
      ensures isInitialized ==> |calls| >= 1 && calls[0] == EmbedQuery(query)
      ensures isInitialized && p.embedQuery(query).Failure? ==>
                r == Failure(p.embedQuery(query).error) && calls == [EmbedQuery(query)]
      ensures isInitialized && p.embedQuery(query).Success? ==>
                var vector := p.embedQuery(query).value;
                var reply := p.matchDocuments(vector, MatchThreshold, MatchCount);
                var searched := [EmbedQuery(query), MatchDocuments(vector, MatchThreshold, MatchCount)];
                reply.error.Some? ==> r == Success(SearchFailedReply) && calls == searched
      ensures isInitialized && p.embedQuery(query).Success? ==>
                var vector := p.embedQuery(query).value;
                var reply := p.matchDocuments(vector, MatchThreshold, MatchCount);
                var searched := [EmbedQuery(query), MatchDocuments(vector, MatchThreshold, MatchCount)];
                var prompt := UngroundedPrompt(history, query);
                reply.error.None? && NoMatches(reply) ==>
                  calls == searched + [Generate(prompt)] && r == p.generate(prompt)
      ensures isInitialized && p.embedQuery(query).Success? ==>
                var vector := p.embedQuery(query).value;
                var reply := p.matchDocuments(vector, MatchThreshold, MatchCount);
                var searched := [EmbedQuery(query), MatchDocuments(vector, MatchThreshold, MatchCount)];
                reply.error.None? && !NoMatches(reply) ==>
                  var prompt := GroundedPrompt(MatchContents(reply.data.value), history, query);
                  calls == searched + [Generate(prompt)] &&
                  (p.generate(prompt).Failure? ==> r == p.generate(prompt)) &&
                  (p.generate(prompt).Success? ==>
                     r == Success(StripDoubleStars(p.generate(prompt).value)) && !Contains(r.value, "**"))
    {
      calls := [];
      if !isInitialized {
        return Success(NotConfiguredReply), calls;
      }
      var embedded := p.embedQuery(query);
      calls := calls + [EmbedQuery(query)];
      if embedded.Failure? {
        return Failure(embedded.error), calls;
      }
      var queryEmbedding := embedded.value;
      var reply := p.matchDocuments(queryEmbedding, MatchThreshold, MatchCount);
      calls := calls + [MatchDocuments(queryEmbedding, MatchThreshold, MatchCount)];
      if reply.error.Some? {
        return Success(SearchFailedReply), calls;
      }
      if NoMatches(reply) {
        var prompt := UngroundedPrompt(history, query);
        r := p.generate(prompt);
        calls := calls + [Generate(prompt)];
        return;
      }
      var context := MatchContents(reply.data.value);
      var prompt := GroundedPrompt(context, history, query);
      var result := p.generate(prompt);
      calls := calls + [Generate(prompt)];
      if result.Failure? {
        return result, calls;
      }
      var cleanedText := StripDoubleStars(result.value);
      CleanedAnswerHasNoDoubleStar(result.value);
      r := Success(cleanedText);
    }
  }

  /** Whenever the answering path generates from the grounded prompt, that
      prompt carries the document-context heading and every retrieved
      passage; the ungrounded prompt never carries the heading unless the
      user wrote it. */
  lemma AnswerPromptsMatchTheirMode(matches: seq<Match>, history: seq<Turn>, query: string, k: nat)
    requires k < |matches|
    ensures Contains(GroundedPrompt(MatchContents(matches), history, query), ContextMarker)
    ensures Contains(GroundedPrompt(MatchContents(matches), history, query), matches[k].content)
    ensures (!Contains(query, ContextMarker) &&
             forall i :: 0 <= i < |history| ==>
               !Contains(history[i].sender, ContextMarker) && !Contains(history[i].text, ContextMarker))
            ==> !Contains(UngroundedPrompt(history, query), ContextMarker)
  {
    GroundedPromptMentions(MatchContents(matches), history, query);
    GroundedPromptMentionsEachMatch(MatchContents(matches), history, query, k);
    if !Contains(query, ContextMarker) &&
       forall i :: 0 <= i < |history| ==>
         !Contains(history[i].sender, ContextMarker) && !Contains(history[i].text, ContextMarker) {
      UngroundedPromptOmitsContextMarker(history, query);
    }
  }
}
