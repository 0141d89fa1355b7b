/**
 * The PyPal API (python-programming-assistant/api/app.py): the globals
 * `vector_db` and `is_initialized`, the initialisation that tags every chunk
 * of the documentation with its file name, the chat handler that retries
 * initialisation and assembles the prompt, the search endpoint's result
 * formatting, and the status report.
 *
 * The file system, the text splitter and the vector store are foreign: what
 * initialisation finds on disk and what the store returns are parameters.
 */
module PyPalRag {
  import opened Text
  import opened Wrappers

  /** A built vector store, known by the number of vectors it holds. */
  datatype VectorDb = VectorDb(vectorCount: nat)

  /** An `HTTPException`: status code and detail. */
  datatype HttpError = HttpError(status: nat, detail: string)

  /** A documentation file as the splitter leaves it: its name and its chunks. */
  datatype DocFile = DocFile(name: string, chunks: seq<string>)

  // ---------------------------------------------------------------------------
  // Chunk tagging
  // ---------------------------------------------------------------------------

  const TagOpen: string := "[From: "

  /** `f"[From: {doc_files[i]}]\n{chunk}"` */
  function Tag(name: string, chunk: string): (r: string)
    ensures TagOpen <= r && |r| == |TagOpen| + |name| + 2 + |chunk|
    ensures r[|r| - |chunk|..] == chunk
  {
    TagOpen + name + "]\n" + chunk
  }

  /** The index of the first `c` in `s`, or `|s|` when there is none. */
  function IndexOf(s: string, c: char): (k: nat)
    ensures k <= |s|
    ensures forall i :: 0 <= i < k ==> s[i] != c
    ensures k < |s| ==> s[k] == c
  {
    if s == [] || s[0] == c then 0 else 1 + IndexOf(s[1..], c)
  }

  /** Reads a tagged chunk back into its file name and its text. */
  function ParseTag(s: string): Option<(string, string)> {
    if TagOpen <= s then
      var rest := s[|TagOpen|..];
      var k := IndexOf(rest, ']');
      if k + 1 < |rest| && rest[k + 1] == '\n' then Some((rest[..k], rest[k + 2..])) else None
    else None
  }

  /** The tag loses nothing: the file name and the chunk can be read back, as long as the name holds no ']'. */
  lemma TagRoundTrip(name: string, chunk: string)
    requires forall i :: 0 <= i < |name| ==> name[i] != ']'
    ensures ParseTag(Tag(name, chunk)) == Some((name, chunk))
  {
    var s := Tag(name, chunk);
    assert s == TagOpen + (name + "]\n" + chunk);
    var rest := s[|TagOpen|..];
    assert rest == name + "]\n" + chunk;
    var k := IndexOf(rest, ']');
    assert rest[|name|] == ']';
    assert k == |name|;
    assert rest[..k] == name;
    assert rest[k + 2..] == chunk;
  }

  function TagAll(name: string, chunks: seq<string>): (r: seq<string>)
    ensures |r| == |chunks|
    ensures forall j :: 0 <= j < |chunks| ==> r[j] == Tag(name, chunks[j])
  {
    seq(|chunks|, j requires 0 <= j < |chunks| => Tag(name, chunks[j]))
  }

  /** `all_chunks`: every chunk of every file, tagged, file by file in load order. */
  function TaggedChunks(docs: seq<DocFile>): (r: seq<string>)
    ensures forall k :: 0 <= k < |r| ==> TagOpen <= r[k]
  {
    if docs == [] then []
    else
      var last := docs[|docs| - 1];
      TaggedChunks(docs[..|docs| - 1]) + TagAll(last.name, last.chunks)
  }

  function ChunkCount(docs: seq<DocFile>): nat {
    if docs == [] then 0 else ChunkCount(docs[..|docs| - 1]) + |docs[|docs| - 1].chunks|
  }

  /** `chunks_created` counts every chunk of every file. */
  lemma {:induction false} TaggedChunksCount(docs: seq<DocFile>)
    ensures |TaggedChunks(docs)| == ChunkCount(docs)
  {
    if docs != [] {
      TaggedChunksCount(docs[..|docs| - 1]);
    }
  }

  /** Tagging file lists one after the other gives their tagged chunks one after the other. */
  lemma {:induction false} TaggedChunksAppend(a: seq<DocFile>, b: seq<DocFile>)
    ensures TaggedChunks(a + b) == TaggedChunks(a) + TaggedChunks(b)
  {
    if b == [] {
      assert a + b == a;
    } else {
      var b' := b[..|b| - 1];
      assert (a + b)[..|a + b| - 1] == a + b';
      TaggedChunksAppend(a, b');
    }
  }

  /** Every tagged chunk names a file it came from. */
  lemma {:induction false} TaggedChunksProvenance(docs: seq<DocFile>, k: nat)
    requires k < |TaggedChunks(docs)|
    ensures exists i, j :: 0 <= i < |docs| && 0 <= j < |docs[i].chunks| && TaggedChunks(docs)[k] == Tag(docs[i].name, docs[i].chunks[j])
  {
    var init := docs[..|docs| - 1];
    var last := docs[|docs| - 1];
    if k < |TaggedChunks(init)| {
      TaggedChunksProvenance(init, k);
      var i, j :| 0 <= i < |init| && 0 <= j < |init[i].chunks| && TaggedChunks(init)[k] == Tag(init[i].name, init[i].chunks[j]);
      assert docs[i] == init[i];
    } else {
      var j := k - |TaggedChunks(init)|;
      assert TaggedChunks(docs)[k] == Tag(last.name, last.chunks[j]);
    }
  }

  /** The nested loops of the initialisation that tag the chunks. */
  method TagChunks(docs: seq<DocFile>) returns (all: seq<string>)
    ensures all == TaggedChunks(docs)
  {
    all := [];
    var i := 0;
    while i < |docs|
      invariant 0 <= i <= |docs|
      invariant all == TaggedChunks(docs[..i])
    {
      assert docs[..i + 1][..i] == docs[..i];
      var done := all;
      var j := 0;
      while j < |docs[i].chunks|
        invariant 0 <= j <= |docs[i].chunks|
        invariant all == done + TagAll(docs[i].name, docs[i].chunks[..j])
      {
        assert TagAll(docs[i].name, docs[i].chunks[..j + 1])
          == TagAll(docs[i].name, docs[i].chunks[..j]) + [Tag(docs[i].name, docs[i].chunks[j])];
        all := all + [Tag(docs[i].name, docs[i].chunks[j])];
        j := j + 1;
      }
      assert docs[i].chunks[..j] == docs[i].chunks;
      i := i + 1;
    }
    assert docs[..i] == docs;
  }

  // ---------------------------------------------------------------------------
  // Search result formatting
  // ---------------------------------------------------------------------------

  const ContentLimit: nat := 500

  /** `text[:500] + "..." if len(text) > 500 else text` */
  function Truncate(text: string): (r: string)
    ensures |r| <= ContentLimit + 3
    ensures |text| <= ContentLimit ==> r == text
    ensures |text| > ContentLimit ==> |r| == ContentLimit + 3 && r[..ContentLimit] == text[..ContentLimit] && r[ContentLimit..] == "..."
  {
    if |text| > ContentLimit then text[..ContentLimit] + "..." else text
  }

  /** Truncating again changes nothing: a truncated text keeps its own first 500 characters and ellipsis. */
  lemma TruncateIdempotent(text: string)
    ensures Truncate(Truncate(text)) == Truncate(text)
  {
    var r := Truncate(text);
    if |text| > ContentLimit {
      assert r[..ContentLimit] + "..." == r;
    }
  }

  /** `text.split('\n')[0]` */
  function FirstLine(text: string): (r: string)
    ensures r <= text
    ensures forall i :: 0 <= i < |r| ==> r[i] != '\n'
    ensures |r| < |text| ==> text[|r|] == '\n'
  {
    text[..IndexOf(text, '\n')]
  }

  /** The snippet of a text that already is one line is the text itself. */
  lemma FirstLineOfLine(text: string)
    ensures FirstLine(FirstLine(text)) == FirstLine(text)
  {
    var r := FirstLine(text);
    var k := IndexOf(r, '\n');
    assert k == |r|;
  }

  /** Text placed after a newline never reaches the snippet. */
  lemma {:induction false} FirstLineIgnoresRest(line: string, rest: string)
    requires forall i :: 0 <= i < |line| ==> line[i] != '\n'
    ensures FirstLine(line + "\n" + rest) == line
  {
    var s := line + "\n" + rest;
    var k := IndexOf(s, '\n');
    assert s[|line|] == '\n';
    assert k == |line|;
    assert s[..k] == line;
  }

  datatype FormattedResult = FormattedResult(content: string, similarityScore: real, snippet: string)

  datatype SearchResponse = SearchResponse(query: string, results: seq<FormattedResult>, totalFound: nat)

  function Format(text: string, score: real): (f: FormattedResult)
    ensures f.similarityScore == score
    ensures f.snippet <= text
    ensures forall c :: 0 <= c < |f.snippet| ==> f.snippet[c] != '\n'
    ensures |f.content| <= ContentLimit + 3 && (|text| <= ContentLimit ==> f.content == text)
  {
    FormattedResult(Truncate(text), score, FirstLine(text))
  }

  function FormattedResults(results: seq<(string, real)>): (r: seq<FormattedResult>)
    ensures |r| == |results|
    ensures forall i :: 0 <= i < |results| ==> r[i] == Format(results[i].0, results[i].1)
  {
    seq(|results|, i requires 0 <= i < |results| => Format(results[i].0, results[i].1))
  }

  /** The loop that formats the search results one by one. */
  method FormatResults(results: seq<(string, real)>) returns (formatted: seq<FormattedResult>)
    ensures formatted == FormattedResults(results)
  {
    formatted := [];
    var i := 0;
    while i < |results|
      invariant 0 <= i <= |results|
      invariant formatted == FormattedResults(results[..i])
    {
      var (text, score) := results[i];
      var content := if |text| > 500 then text[..500] + "..." else text;
      formatted := formatted + [FormattedResult(content, score, FirstLine(text))];
      i := i + 1;
    }
    assert results[..i] == results;
  }

  /** Every formatted result keeps its score, a content of at most 503 characters and a one-line snippet of the text. */
  lemma FormattedResultsFaithful(results: seq<(string, real)>, i: nat)
    requires i < |results|
    ensures var f := FormattedResults(results)[i];
      && f.similarityScore == results[i].1
      && |f.content| <= 503
      && (|results[i].0| <= 500 ==> f.content == results[i].0)
      && (|results[i].0| > 500 ==> f.content == results[i].0[..500] + "...")
      && f.snippet <= results[i].0
      && forall c :: 0 <= c < |f.snippet| ==> f.snippet[c] != '\n'
  {
  }

  // ---------------------------------------------------------------------------
  // The prompt
  // ---------------------------------------------------------------------------

  const PromptHead: string :=
    "You are PyPal, a Python Programming Assistant. You help developers with Python programming "
    + "questions by providing accurate, helpful information based on the Python documentation provided.\n\n"
    + "Instructions:\n"
    + "1. Answer questions about Python programming using the provided context\n"
    + "2. Provide clear, practical code examples when helpful\n"
    + "3. Use proper Python syntax highlighting in your responses\n"
    + "4. If the context doesn't contain enough information, say \"I don't have enough information "
    + "in the Python documentation to answer that question accurately.\"\n"
    + "5. Keep your answers focused, practical, and beginner-friendly\n"
    + "6. When showing code, explain what it does step by step\n\n"
    + "Context from Python Documentation:\n"

  /** `system_prompt.format(context=context, question=question)` */
  function Prompt(context: string, question: string): (p: string)
    ensures Contains(p, context) && Contains(p, question)
  {
    SelfContains(context);
    SelfContains(question);
    ContainsInRight(PromptHead, context, context);
    ContainsInLeft(PromptHead + context, "\n\nUser Question: ", context);
    ContainsInLeft(PromptHead + context + "\n\nUser Question: ", question, context);
    ContainsInLeft(PromptHead + context + "\n\nUser Question: " + question, "\n\nAnswer:", context);
    ContainsInRight(PromptHead + context + "\n\nUser Question: ", question, question);
    ContainsInLeft(PromptHead + context + "\n\nUser Question: " + question, "\n\nAnswer:", question);
    PromptHead + context + "\n\nUser Question: " + question + "\n\nAnswer:"
  }

  /** The prompt carries the question and every retrieved chunk. */
  lemma PromptCarriesEvidence(retrieved: seq<string>, question: string, i: nat)
    requires i < |retrieved|
    ensures Contains(Prompt(Join("\n\n", retrieved), question), retrieved[i])
    ensures Contains(Prompt(Join("\n\n", retrieved), question), question)
  {
    var context := Join("\n\n", retrieved);
    JoinContainsPart("\n\n", retrieved, i);
    ContainsInRight(PromptHead, context, retrieved[i]);
    ContainsInLeft(PromptHead + context, "\n\nUser Question: ", retrieved[i]);
    ContainsInLeft(PromptHead + context + "\n\nUser Question: ", question, retrieved[i]);
    ContainsInLeft(PromptHead + context + "\n\nUser Question: " + question, "\n\nAnswer:", retrieved[i]);
    SelfContains(question);
    ContainsInRight(PromptHead + context + "\n\nUser Question: ", question, question);
    ContainsInLeft(PromptHead + context + "\n\nUser Question: " + question, "\n\nAnswer:", question);
  }

  // ---------------------------------------------------------------------------
  // The server state
  // ---------------------------------------------------------------------------

  /** What initialisation finds: client construction, the data directory, the files, the store build. */
  datatype BuildOutcome = BuildFailed(reason: string) | Built(vectorCount: nat)

  datatype InitEnv =
    | ClientsFailed(reason: string)             // EmbeddingModel or ChatOpenAI raised
    | DataDirMissing                             // ../data does not exist
    | ReadFailed(reason: string)                 // opening or decoding a .txt file raised
    | Loaded(docs: seq<DocFile>, build: BuildOutcome)

  datatype InitSummary = InitSummary(documentsLoaded: nat, chunksCreated: nat)

  datatype StatusResponse = StatusResponse(status: string, initialized: bool, documentsLoaded: nat, vectorDbSize: nat)

  const MissingDataDir: string := "Could not find Python documentation directory"
  const NotInitializedDetail: string := "System not initialized. Please initialize first with /api/initialize"

  function InitFailure(reason: string): HttpError {
    HttpError(500, "Failed to initialize RAG system: " + reason)
  }

  /** Why initialisation failed in `env`, or None when it succeeds. */
  function InitFailureReason(env: InitEnv): Option<string> {
    match env
    case ClientsFailed(reason) => Some(reason)
    case DataDirMissing => Some(MissingDataDir)
    case ReadFailed(reason) => Some(reason)
    case Loaded(_, BuildFailed(reason)) => Some(reason)
    case Loaded(_, Built(_)) => None
  }

  class PyPalServer {
    var vectorDb: Option<VectorDb>
    var isInitialized: bool

    /** Once initialised, a store exists. */
    ghost predicate Valid()
      reads this
    {
      isInitialized ==> vectorDb.Some?
    }

    constructor ()
      ensures Valid()
      ensures vectorDb == None && !isInitialized
    {
      vectorDb, isInitialized := None, false;
    }

    /**
     * `initialize_rag_system`. Once the clients are built the store is
     * replaced by a fresh empty one, so every later failure leaves an empty
     * store behind, and a failure never resets `is_initialized`.
     */
    method InitializeRagSystem(env: InitEnv) returns (r: Result<InitSummary, HttpError>)
      requires Valid()
      modifies this
      ensures Valid()
      ensures InitFailureReason(env).Some? ==> r == Err(InitFailure(InitFailureReason(env).value))
      ensures InitFailureReason(env).Some? ==> isInitialized == old(isInitialized)
      ensures env.ClientsFailed? ==> vectorDb == old(vectorDb)
      ensures InitFailureReason(env).Some? && !env.ClientsFailed? ==> vectorDb == Some(VectorDb(0))
      ensures env.Loaded? && env.build.Built? ==>
        && r == Ok(InitSummary(|env.docs|, ChunkCount(env.docs)))
        && vectorDb == Some(VectorDb(env.build.vectorCount))
        && isInitialized
    {
      if env.ClientsFailed? {
        return Err(InitFailure(env.reason));
      }
      vectorDb := Some(VectorDb(0));
      match env {
        case DataDirMissing =>
          r := Err(InitFailure(MissingDataDir));
        case ReadFailed(reason) =>
          r := Err(InitFailure(reason));
        case Loaded(docs, build) =>
          var allChunks := TagChunks(docs);
          match build {
            case BuildFailed(reason) =>
              r := Err(InitFailure(reason));
            case Built(n) =>
              vectorDb := Some(VectorDb(n));
              isInitialized := true;
              TaggedChunksCount(docs);
              r := Ok(InitSummary(|docs|, |allChunks|));
          }
      }
    }

    /**
     * POST /api/chat up to the streamed answer: initialise on demand, search,
     * and build the prompt. A failed initialisation is reported as a 400.
     */
    method ChatWithAssistant(question: string, env: InitEnv, search: Result<seq<string>, string>)
      returns (r: Result<string, HttpError>)
      requires Valid()
      modifies this
      ensures Valid()
      ensures old(isInitialized) ==> vectorDb == old(vectorDb) && isInitialized
      ensures !old(isInitialized) && InitFailureReason(env).Some? ==>
        && r == Err(HttpError(400, NotInitializedDetail))
        && !isInitialized
        && (env.ClientsFailed? ==> vectorDb == old(vectorDb))
        && (!env.ClientsFailed? ==> vectorDb == Some(VectorDb(0)))
      ensures !old(isInitialized) && env.Loaded? && env.build.Built? ==>
        vectorDb == Some(VectorDb(env.build.vectorCount))
      ensures old(isInitialized) || InitFailureReason(env).None? ==>
        && isInitialized
        && (search.Err? ==> r == Err(HttpError(500, "Error processing chat request: " + search.error)))
        && (search.Ok? ==> r == Ok(Prompt(Join("\n\n", search.value), question)))
    {
      if !isInitialized {
        var init := InitializeRagSystem(env);
        if init.Err? {
          return Err(HttpError(400, NotInitializedDetail));
        }
      }
      match search {
        case Err(reason) =>
          r := Err(HttpError(500, "Error processing chat request: " + reason));
        case Ok(retrieved) =>
          var context := Join("\n\n", retrieved);
          r := Ok(Prompt(context, question));
      }
    }

    /** GET /api/search: the 400 guard, then the formatted results. */
    method SearchDocumentation(query: string, search: Result<seq<(string, real)>, string>)
      returns (r: Result<SearchResponse, HttpError>)
      ensures !isInitialized || vectorDb.None? ==> r == Err(HttpError(400, "System not initialized"))
      ensures isInitialized && vectorDb.Some? && search.Err? ==>
        r == Err(HttpError(500, "Error searching documentation: " + search.error))
      ensures isInitialized && vectorDb.Some? && search.Ok? ==>
        && r.Ok?
        && r.value.query == query
        && r.value.results == FormattedResults(search.value)
        && r.value.totalFound == |search.value|
    {
      if !isInitialized || vectorDb.None? {
        return Err(HttpError(400, "System not initialized"));
      }
      match search {
        case Err(reason) =>
          r := Err(HttpError(500, "Error searching documentation: " + reason));
        case Ok(results) =>
          var formatted := FormatResults(results);
          r := Ok(SearchResponse(query, formatted, |formatted|));
      }
    }

    /** GET /api/status; `dataFiles` is the number of .txt files found in the data directory (0 without one). */
    function Status(dataFiles: nat): (s: StatusResponse)
      reads this
      ensures s.initialized == isInitialized
      ensures s.status == "ready" <==> isInitialized
      ensures s.status == "ready" || s.status == "not_initialized"
      ensures s.documentsLoaded == dataFiles
      ensures vectorDb.None? ==> s.vectorDbSize == 0
      ensures vectorDb.Some? ==> s.vectorDbSize == vectorDb.value.vectorCount
    {
      StatusResponse(if isInitialized then "ready" else "not_initialized", isInitialized, dataFiles,
                     if vectorDb.Some? then vectorDb.value.vectorCount else 0)
    }
  }
}
