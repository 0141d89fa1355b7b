/**
 * The ChillGPT API (api/app.py): the document registry held in three
 * module globals (`vector_db`, `has_documents`, `uploaded_docs`), the upload,
 * status, list and clear endpoints that read and reset it, and the rewriting
 * of the last chat message into a document-only prompt before the
 * conversation is forwarded to the model.
 *
 * The vector store is foreign code: a store is known here only by how many
 * vectors it holds, and a similarity search by the (text, score) pairs it
 * returns, passed in as a parameter. Scores are `real`s.
 */
module ChillRag {
  import opened Text
  import opened Wrappers

  datatype ChatMessage = ChatMessage(role: string, content: string)

  /** A built vector store, known by the number of chunks it embeds. */
  datatype VectorDb = VectorDb(vectorCount: nat)

  /** An entry of `uploaded_docs`; the timestamp is the temporary file's mtime. */
  datatype DocRecord = DocRecord(filename: string, timestamp: int)

  /** One pair returned by `search_by_text(..., k=3, return_as_text=False)`. */
  datatype Hit = Hit(text: string, score: real)

  /** An `HTTPException`: status code and detail. */
  datatype HttpError = HttpError(status: nat, detail: string)

  const UserRole: string := "user"
  const SimilarityThreshold: real := 0.7

  // ---------------------------------------------------------------------------
  // The last message and the history before it
  // ---------------------------------------------------------------------------

  /** `request.messages[-1]["content"] if request.messages else ""` */
  function LastUserMessage(messages: seq<ChatMessage>): (r: string)
    ensures messages == [] ==> r == ""
    ensures messages != [] ==> ButLast(messages) + [ChatMessage(messages[|messages| - 1].role, r)] == messages
  {
    if messages == [] then "" else messages[|messages| - 1].content
  }

  /** `request.messages[:-1]`, which is empty for an empty list. */
  function ButLast(messages: seq<ChatMessage>): (r: seq<ChatMessage>)
    ensures messages == [] ==> r == []
    ensures messages != [] ==> r + [messages[|messages| - 1]] == messages
  {
    if messages == [] then [] else messages[..|messages| - 1]
  }

  // ---------------------------------------------------------------------------
  // Meta-query detection
  // ---------------------------------------------------------------------------

  const MetaKeywords: seq<string> := [
    "what documents", "which documents", "what files", "which files",
    "what do you have", "what's in your context", "what context",
    "available documents", "uploaded documents", "document list"
  ]

  /** `any(keyword in user_message.lower() for keyword in meta_query_keywords)` */
  predicate IsMetaQuery(msg: string) {
    exists i :: 0 <= i < |MetaKeywords| && Contains(Lower(msg), MetaKeywords[i])
  }

  /** Detection ignores the case of the question. */
  lemma MetaQueryIgnoresCase(msg: string)
    ensures IsMetaQuery(Lower(msg)) <==> IsMetaQuery(msg)
  {
    LowerIdempotent(msg);
  }

  /** Whatever surrounds a meta question, the message stays a meta question. */
  lemma MetaQueryInfix(before: string, msg: string, after: string)
    requires IsMetaQuery(msg)
    ensures IsMetaQuery(before + msg + after)
  {
    var i :| 0 <= i < |MetaKeywords| && Contains(Lower(msg), MetaKeywords[i]);
    LowerAppend(before + msg, after);
    LowerAppend(before, msg);
    ContainsInfix(Lower(before), Lower(msg), Lower(after), MetaKeywords[i]);
  }

  /** A keyword written in any letter case, anywhere in the message, makes it a meta question. */
  lemma MetaQueryAnyCase(before: string, keyword: string, after: string, i: nat)
    requires i < |MetaKeywords| && Lower(keyword) == MetaKeywords[i]
    ensures IsMetaQuery(before + keyword + after)
  {
    LowerAppend(before + keyword, after);
    LowerAppend(before, keyword);
    SelfContains(Lower(keyword));
    ContainsInfix(Lower(before), Lower(keyword), Lower(after), MetaKeywords[i]);
  }

  lemma MetaQueryExample()
    ensures IsMetaQuery("Which files did I upload?")
  {
    var msg := "Which files did I upload?";
    assert Lower(msg) == "which files did i upload?";
    assert MetaKeywords[3] == "which files";
    assert MetaKeywords[3] <= Lower(msg);
  }

  // ---------------------------------------------------------------------------
  // Relevant contexts
  // ---------------------------------------------------------------------------

  predicate Relevant(h: Hit) {
    h.score >= SimilarityThreshold
  }

  /** The texts of the hits scoring at least the threshold, in search order. */
  function RelevantContexts(hits: seq<Hit>): (r: seq<string>)
    ensures |r| <= |hits|
  {
    if hits == [] then []
    else
      var last := hits[|hits| - 1];
      RelevantContexts(hits[..|hits| - 1]) + (if Relevant(last) then [last.text] else [])
  }

  /** Filtering a concatenation filters each part in turn, so order is kept. */
  lemma {:induction false} RelevantContextsAppend(a: seq<Hit>, b: seq<Hit>)
    ensures RelevantContexts(a + b) == RelevantContexts(a) + RelevantContexts(b)
  {
    if b == [] {
      assert a + b == a;
    } else {
      var b' := b[..|b| - 1];
      assert (a + b)[..|a + b| - 1] == a + b';
      RelevantContextsAppend(a, b');
    }
  }

  /** A text is kept exactly when it is the text of a hit that clears the threshold. */
  lemma {:induction false} RelevantContextsMembers(hits: seq<Hit>)
    ensures forall j :: 0 <= j < |hits| && Relevant(hits[j]) ==> hits[j].text in RelevantContexts(hits)
    ensures forall t :: t in RelevantContexts(hits) ==> exists j :: 0 <= j < |hits| && Relevant(hits[j]) && hits[j].text == t
  {
    if hits != [] {
      var init := hits[..|hits| - 1];
      RelevantContextsMembers(init);
      forall t | t in RelevantContexts(hits)
        ensures exists j :: 0 <= j < |hits| && Relevant(hits[j]) && hits[j].text == t
      {
        if t in RelevantContexts(init) {
          var j :| 0 <= j < |init| && Relevant(init[j]) && init[j].text == t;
          assert hits[j] == init[j];
        } else {
          assert hits[|hits| - 1].text == t;
        }
      }
      forall j | 0 <= j < |hits| && Relevant(hits[j])
        ensures hits[j].text in RelevantContexts(hits)
      {
        if j < |init| {
          assert init[j] == hits[j];
        }
      }
    }
  }

  /** Nothing is dropped exactly when every hit clears the threshold. */
  lemma {:induction false} RelevantContextsKeepAll(hits: seq<Hit>)
    ensures |RelevantContexts(hits)| == |hits| <==> forall j :: 0 <= j < |hits| ==> Relevant(hits[j])
  {
    if hits != [] {
      var init := hits[..|hits| - 1];
      RelevantContextsKeepAll(init);
      if forall j :: 0 <= j < |hits| ==> Relevant(hits[j]) {
        assert forall j :: 0 <= j < |init| ==> init[j] == hits[j];
      }
    }
  }

  /** The loop over the search results that keeps the relevant texts. */
  method CollectRelevantContexts(hits: seq<Hit>) returns (contexts: seq<string>)
    ensures contexts == RelevantContexts(hits)
  {
    contexts := [];
    var i := 0;
    while i < |hits|
      invariant 0 <= i <= |hits|
      invariant contexts == RelevantContexts(hits[..i])
    {
      assert hits[..i + 1][..i] == hits[..i];
      if hits[i].score >= SimilarityThreshold {
        contexts := contexts + [hits[i].text];
      }
      i := i + 1;
    }
    assert hits[..i] == hits;
  }

  /** "Context 1: ...", "Context 2: ..." in order. */
  function NumberedContexts(contexts: seq<string>): (r: seq<string>)
    ensures |r| == |contexts|
    ensures forall i :: 0 <= i < |r| ==> r[i] == "Context " + NatToString(i + 1) + ": " + contexts[i]
  {
    seq(|contexts|, i requires 0 <= i < |contexts| => "Context " + NatToString(i + 1) + ": " + contexts[i])
  }

  function ContextString(contexts: seq<string>): string {
    Join("\n\n", NumberedContexts(contexts))
  }

  /** Every relevant context reaches the prompt. */
  lemma ContextStringHoldsEach(contexts: seq<string>, i: nat)
    requires i < |contexts|
    ensures Contains(ContextString(contexts), contexts[i])
  {
    var numbered := NumberedContexts(contexts);
    JoinContainsPart("\n\n", numbered, i);
    var tag := "Context " + NatToString(i + 1) + ": ";
    SelfContains(contexts[i]);
    ContainsInfix(tag, contexts[i], "", contexts[i]);
    assert tag + contexts[i] + "" == numbered[i];
    ContainsTransitive(ContextString(contexts), numbered[i], contexts[i]);
  }

  /** A substring of a substring is a substring. */
  lemma ContainsTransitive(hay: string, mid: string, needle: string)
    requires Contains(hay, mid) && Contains(mid, needle)
    ensures Contains(hay, needle)
  {
    ContainsIffOccurs(hay, mid);
    var i: nat :| OccursAt(hay, mid, i);
    ContainsInfix(hay[..i], mid, hay[i + |mid|..], needle);
    assert hay[..i] + mid + hay[i + |mid|..] == hay;
  }

  // ---------------------------------------------------------------------------
  // The document summary for meta questions
  // ---------------------------------------------------------------------------

  function DocLines(docs: seq<DocRecord>): (r: seq<string>)
    ensures |r| == |docs|
    ensures forall i :: 0 <= i < |docs| ==> r[i] == "- " + docs[i].filename + "\n"
  {
    seq(|docs|, i requires 0 <= i < |docs| => "- " + docs[i].filename + "\n")
  }

  function DocInfoHead(docCount: nat): string {
    "I have access to " + NatToString(docCount) + " uploaded document(s):\n"
  }

  function DocInfoTail(vectorCount: nat): string {
    "\nTotal document chunks in vector database: " + NatToString(vectorCount)
  }

  function DocInfo(docs: seq<DocRecord>, vectorCount: nat): string {
    DocInfoHead(|docs|) + Concat(DocLines(docs)) + DocInfoTail(vectorCount)
  }

  /** The summary names every uploaded file. */
  lemma DocInfoNamesEveryFile(docs: seq<DocRecord>, vectorCount: nat, i: nat)
    requires i < |docs|
    ensures Contains(DocInfo(docs, vectorCount), docs[i].filename)
  {
    var lines := DocLines(docs);
    ConcatContainsPart(lines, i);
    SelfContains(docs[i].filename);
    ContainsInfix("- ", docs[i].filename, "\n", docs[i].filename);
    ContainsTransitive(Concat(lines), lines[i], docs[i].filename);
    ContainsInfix(DocInfoHead(|docs|), Concat(lines), DocInfoTail(vectorCount), docs[i].filename);
  }

  /** The loop that builds `doc_info` one line per uploaded file. */
  method BuildDocInfo(docs: seq<DocRecord>, vectorCount: nat) returns (info: string)
    ensures info == DocInfo(docs, vectorCount)
  {
    info := DocInfoHead(|docs|);
    var i := 0;
    while i < |docs|
      invariant 0 <= i <= |docs|
      invariant info == DocInfoHead(|docs|) + Concat(DocLines(docs[..i]))
    {
      assert DocLines(docs[..i + 1]) == DocLines(docs[..i]) + ["- " + docs[i].filename + "\n"];
      info := info + "- " + docs[i].filename + "\n";
      i := i + 1;
    }
    assert docs[..i] == docs;
    info := info + DocInfoTail(vectorCount);
  }

  // ---------------------------------------------------------------------------
  // The rewritten prompts
  // ---------------------------------------------------------------------------

  const MetaPromptHead: string :=
    "I am a document-only assistant with access to the following documents:\n\n"

  const MetaPromptTail: string :=
    "\n\nI can only answer questions based on the content of these uploaded documents. "
    + "Please ask me specific questions about the information contained in these files."

  function MetaPrompt(docInfo: string, question: string): (p: string)
    ensures Contains(p, docInfo) && Contains(p, question)
  {
    SelfContains(docInfo);
    SelfContains(question);
    ContainsInRight(MetaPromptHead, docInfo, docInfo);
    ContainsInLeft(MetaPromptHead + docInfo, "\n\nYou asked: ", docInfo);
    ContainsInLeft(MetaPromptHead + docInfo + "\n\nYou asked: ", question, docInfo);
    ContainsInLeft(MetaPromptHead + docInfo + "\n\nYou asked: " + question, MetaPromptTail, docInfo);
    ContainsInRight(MetaPromptHead + docInfo + "\n\nYou asked: ", question, question);
    ContainsInLeft(MetaPromptHead + docInfo + "\n\nYou asked: " + question, MetaPromptTail, question);
    MetaPromptHead + docInfo + "\n\nYou asked: " + question + MetaPromptTail
  }

  const ContextPromptHead: string :=
    "You are a document-only assistant. You can ONLY answer questions based on the following "
    + "context from uploaded documents. If the information is not in the context below, you MUST "
    + "respond with \"I don't know - this information is not available in the uploaded documents. "
    + "Please ask about topics covered in the documents.\"\n\nContext from uploaded documents:\n"

  const ContextPromptTail: string :=
    "\n\nInstructions: Answer ONLY based on the context above. If the answer is not in the context, "
    + "respond with \"I don't know - this information is not available in the uploaded documents."

  function ContextPrompt(contextStr: string, question: string): (p: string)
    ensures Contains(p, contextStr) && Contains(p, question)
  {
    SelfContains(contextStr);
    SelfContains(question);
    ContainsInRight(ContextPromptHead, contextStr, contextStr);
    ContainsInLeft(ContextPromptHead + contextStr, "\n\nQuestion: ", contextStr);
    ContainsInLeft(ContextPromptHead + contextStr + "\n\nQuestion: ", question, contextStr);
    ContainsInLeft(ContextPromptHead + contextStr + "\n\nQuestion: " + question, ContextPromptTail, contextStr);
    ContainsInRight(ContextPromptHead + contextStr + "\n\nQuestion: ", question, question);
    ContainsInLeft(ContextPromptHead + contextStr + "\n\nQuestion: " + question, ContextPromptTail, question);
    ContextPromptHead + contextStr + "\n\nQuestion: " + question + ContextPromptTail
  }

  function NoContextPrompt(docCount: nat): string {
    "I don't know - this information is not available in the uploaded documents. \n\n"
    + "I can only answer questions based on the content of the " + NatToString(docCount)
    + " document(s) you've uploaded. Please try rephrasing your question to focus on topics "
    + "covered in these documents, or ask about specific sections, concepts, or details mentioned in the files."
  }

  function NoDocumentsPrompt(): string {
    "I am a document-only assistant, but no documents have been uploaded yet. \n\n"
    + "Please upload some PDF documents first, then I'll be able to answer questions about their content."
  }

  /** The conditions under which the question goes through the document search. */
  predicate UsesRag(messages: seq<ChatMessage>, useRag: bool, hasDocuments: bool, db: Option<VectorDb>)
    ensures UsesRag(messages, useRag, hasDocuments, db) ==> messages != [] && db.Some? && hasDocuments
  {
    useRag && hasDocuments && LastUserMessage(messages) != "" && db.Some?
  }

  /** `request.messages[:-1] + [{"role": "user", "content": prompt}]` */
  function Enhanced(messages: seq<ChatMessage>, prompt: string): (r: seq<ChatMessage>)
    ensures |r| == |ButLast(messages)| + 1 && ButLast(messages) <= r
    ensures r[|r| - 1] == ChatMessage(UserRole, prompt)
  {
    ButLast(messages) + [ChatMessage(UserRole, prompt)]
  }

  /**
   * The prompt that replaces the question on the search path: the document
   * summary for a meta question, else the numbered relevant contexts, else
   * the "I don't know" notice; a failing search is a 500.
   */
  function RagPrompt(question: string, vectorCount: nat, docs: seq<DocRecord>,
                     search: Result<seq<Hit>, string>): (r: Result<string, HttpError>)
    ensures r.Err? <==> !IsMetaQuery(question) && search.Err?
    ensures r.Err? ==> r.error == HttpError(500, search.error)
  {
    if IsMetaQuery(question) then Ok(MetaPrompt(DocInfo(docs, vectorCount), question))
    else
      match search
      case Err(reason) => Err(HttpError(500, reason))
      case Ok(hits) =>
        var contexts := RelevantContexts(hits);
        if contexts != [] then Ok(ContextPrompt(ContextString(contexts), question))
        else Ok(NoContextPrompt(|docs|))
  }

  /**
   * The conversation forwarded to the model, or the 500 that a failing
   * search turns into.
   */
  function Rewrite(messages: seq<ChatMessage>, useRag: bool, hasDocuments: bool, db: Option<VectorDb>,
                   docs: seq<DocRecord>, search: Result<seq<Hit>, string>): (r: Result<seq<ChatMessage>, HttpError>)
    ensures r.Err? ==> r.error.status == 500 && search.Err?
    ensures !hasDocuments ==> r.Ok?
  {
    if UsesRag(messages, useRag, hasDocuments, db) then
      match RagPrompt(LastUserMessage(messages), db.value.vectorCount, docs, search)
      case Ok(prompt) => Ok(Enhanced(messages, prompt))
      case Err(e) => Err(e)
    else if !hasDocuments then
      Ok(Enhanced(messages, NoDocumentsPrompt()))
    else
      Ok(messages)
  }

  /**
   * The shape of every outcome: the request fails only when a search was
   * needed and failed; the history is forwarded untouched only when the
   * search is skipped while documents exist; otherwise the earlier history
   * is kept and the last message is replaced by one user message.
   */
  lemma RewriteShape(messages: seq<ChatMessage>, useRag: bool, hasDocuments: bool, db: Option<VectorDb>,
                     docs: seq<DocRecord>, search: Result<seq<Hit>, string>)
    ensures var r := Rewrite(messages, useRag, hasDocuments, db, docs, search);
      && (r.Err? <==> UsesRag(messages, useRag, hasDocuments, db) && !IsMetaQuery(LastUserMessage(messages)) && search.Err?)
      && (r.Err? ==> r.error == HttpError(500, search.error))
      && (!UsesRag(messages, useRag, hasDocuments, db) && hasDocuments ==> r == Ok(messages))
      && (UsesRag(messages, useRag, hasDocuments, db) || !hasDocuments ==>
            r.Ok? ==> |r.value| == |ButLast(messages)| + 1 && ButLast(messages) <= r.value
                      && r.value[|r.value| - 1].role == UserRole)
  {
  }

  /** Without documents every request, RAG or not, gets the upload notice. */
  lemma NoDocumentsNotice(messages: seq<ChatMessage>, useRag: bool, db: Option<VectorDb>,
                          docs: seq<DocRecord>, search: Result<seq<Hit>, string>)
    ensures Rewrite(messages, useRag, false, db, docs, search) ==
      Ok(ButLast(messages) + [ChatMessage(UserRole, NoDocumentsPrompt())])
  {
  }

  /** On the search path the last message is the chosen prompt. */
  lemma RewriteUsesRagPrompt(messages: seq<ChatMessage>, useRag: bool, hasDocuments: bool, db: Option<VectorDb>,
                             docs: seq<DocRecord>, search: Result<seq<Hit>, string>)
    requires UsesRag(messages, useRag, hasDocuments, db)
    ensures var p := RagPrompt(LastUserMessage(messages), db.value.vectorCount, docs, search);
      var r := Rewrite(messages, useRag, hasDocuments, db, docs, search);
      && (p.Err? ==> r == Err(p.error))
      && (p.Ok? ==> r.Ok? && r.value[|r.value| - 1] == ChatMessage(UserRole, p.value))
  {
  }

  /**
   * When the search finds relevant text, the prompt carries the question and
   * every relevant context.
   */
  lemma ContextPromptCarriesEvidence(question: string, vectorCount: nat, docs: seq<DocRecord>, hits: seq<Hit>, j: nat)
    requires !IsMetaQuery(question)
    requires j < |hits| && Relevant(hits[j])
    ensures var p := RagPrompt(question, vectorCount, docs, Ok(hits));
      && p.Ok?
      && Contains(p.value, question)
      && Contains(p.value, hits[j].text)
  {
    var contexts := RelevantContexts(hits);
    RelevantContextsMembers(hits);
    var k :| 0 <= k < |contexts| && contexts[k] == hits[j].text;
    var ctx := ContextString(contexts);
    var text := hits[j].text;
    assert RagPrompt(question, vectorCount, docs, Ok(hits)) == Ok(ContextPrompt(ctx, question));
    ContextStringHoldsEach(contexts, k);
    ContainsInRight(ContextPromptHead, ctx, text);
    ContainsInLeft(ContextPromptHead + ctx, "\n\nQuestion: ", text);
    ContainsInLeft(ContextPromptHead + ctx + "\n\nQuestion: ", question, text);
    ContainsInLeft(ContextPromptHead + ctx + "\n\nQuestion: " + question, ContextPromptTail, text);
    SelfContains(question);
    ContainsInRight(ContextPromptHead + ctx + "\n\nQuestion: ", question, question);
    ContainsInLeft(ContextPromptHead + ctx + "\n\nQuestion: " + question, ContextPromptTail, question);
  }

  /** A meta question is answered from the summary, which names every file and repeats the question. */
  lemma MetaPromptCarriesSummary(question: string, vectorCount: nat, docs: seq<DocRecord>,
                                 search: Result<seq<Hit>, string>, j: nat)
    requires IsMetaQuery(question)
    requires j < |docs|
    ensures var p := RagPrompt(question, vectorCount, docs, search);
      && p.Ok?
      && Contains(p.value, question)
      && Contains(p.value, docs[j].filename)
  {
    var info := DocInfo(docs, vectorCount);
    var name := docs[j].filename;
    assert RagPrompt(question, vectorCount, docs, search) == Ok(MetaPrompt(info, question));
    DocInfoNamesEveryFile(docs, vectorCount, j);
    ContainsInRight(MetaPromptHead, info, name);
    ContainsInLeft(MetaPromptHead + info, "\n\nYou asked: ", name);
    ContainsInLeft(MetaPromptHead + info + "\n\nYou asked: ", question, name);
    ContainsInLeft(MetaPromptHead + info + "\n\nYou asked: " + question, MetaPromptTail, name);
    SelfContains(question);
    ContainsInRight(MetaPromptHead + info + "\n\nYou asked: ", question, question);
    ContainsInLeft(MetaPromptHead + info + "\n\nYou asked: " + question, MetaPromptTail, question);
  }

  /** The search path of the chat handler, with its two loops. */
  method BuildRagPrompt(question: string, vectorCount: nat, docs: seq<DocRecord>,
                        search: Result<seq<Hit>, string>) returns (r: Result<string, HttpError>)
    ensures r == RagPrompt(question, vectorCount, docs, search)
  {
    if IsMetaQuery(question) {
      var info := BuildDocInfo(docs, vectorCount);
      return Ok(MetaPrompt(info, question));
    }
    match search {
      case Err(reason) =>
        r := Err(HttpError(500, reason));
      case Ok(hits) =>
        var contexts := CollectRelevantContexts(hits);
        if contexts != [] {
          r := Ok(ContextPrompt(ContextString(contexts), question));
        } else {
          r := Ok(NoContextPrompt(|docs|));
        }
    }
  }

  // ---------------------------------------------------------------------------
  // Upload validation, as written and as intended
  // ---------------------------------------------------------------------------

  /** The two validation failures, each raised as a 400. */
  function UploadValidation(filename: string, apiKey: string): (r: Option<HttpError>)
    ensures r.None? <==> EndsWith(filename, ".pdf") && apiKey != ""
    ensures r.Some? ==> r.value.status == 400
  {
    if !EndsWith(filename, ".pdf") then Some(HttpError(400, "Only PDF files are allowed"))
    else if apiKey == "" then Some(HttpError(400, "API key is required"))
    else None
  }

  /** What the handler's `except Exception` makes of any exception: a 500 around `str(e)`. */
  function UploadFailure(reason: string): HttpError {
    HttpError(500, "Error uploading document: " + reason)
  }

  /** `str()` of an `HTTPException`: its status, a colon and its detail. */
  function HttpErrorText(e: HttpError): string {
    NatToString(e.status) + ": " + e.detail
  }

  /**
   * The validation as written: the 400 is raised inside the `try` whose
   * `except Exception` turns it into a 500.
   */
  function UploadValidationAsWritten(filename: string, apiKey: string): (r: Option<HttpError>)
    ensures r.None? <==> UploadValidation(filename, apiKey).None?
  {
    match UploadValidation(filename, apiKey)
    case None => None
    case Some(e) => Some(UploadFailure(HttpErrorText(e)))
  }

  /** As written, a rejected upload never reaches the client as the 400 it raises. */
  lemma UploadValidationLosesStatus(filename: string, apiKey: string)
    requires UploadValidation(filename, apiKey).Some?
    ensures UploadValidationAsWritten(filename, apiKey).value.status == 500
    ensures UploadValidationAsWritten(filename, apiKey).value.status != UploadValidation(filename, apiKey).value.status
  {
  }

  lemma UploadValidationTextFile()
    ensures UploadValidationAsWritten("notes.txt", "sk-key")
      == Some(HttpError(500, "Error uploading document: " + "400: " + "Only PDF files are allowed"))
  {
    assert !EndsWith("notes.txt", ".pdf") by {
      assert "notes.txt"[5..][1] == 't' && ".pdf"[1] == 'p';
    }
    var rejected := HttpError(400, "Only PDF files are allowed");
    assert UploadValidation("notes.txt", "sk-key") == Some(rejected);
    assert NatToString(400) == "400" by {
      assert NatToString(4) == "4";
      assert NatToString(40) == "40";
    }
    assert "400" + ": " == "400: ";
    var detail := "Only PDF files are allowed";
    assert HttpErrorText(rejected) == "400: " + detail;
    assert "Error uploading document: " + ("400: " + detail) == "Error uploading document: " + "400: " + detail;
  }

  // ---------------------------------------------------------------------------
  // The registry
  // ---------------------------------------------------------------------------

  /** What happens after validation: `PDFLoader`, the splitter, and the store build. */
  datatype Ingest =
    | FailedBeforeStore(reason: string)   // reading, loading or splitting raised
    | FailedAfterStore(reason: string)    // the fresh store was assigned, then the build raised
    | Built(vectorCount: nat)

  datatype DocumentStatus = DocumentStatus(hasDocuments: bool, documentCount: nat, uploadedDocuments: seq<DocRecord>)

  datatype DocumentList = DocumentList(documents: seq<DocRecord>, total: nat)

  class DocumentStore {
    var vectorDb: Option<VectorDb>
    var hasDocuments: bool
    var uploadedDocs: seq<DocRecord>

    /** Documents are reported exactly when some upload succeeded since the last clear, and then a store exists. */
    ghost predicate Valid()
      reads this
    {
      && (hasDocuments <==> uploadedDocs != [])
      && (hasDocuments ==> vectorDb.Some?)
    }

    constructor ()
      ensures Valid()
      ensures vectorDb == None && !hasDocuments && uploadedDocs == []
    {
      vectorDb, hasDocuments, uploadedDocs := None, false, [];
    }

    /** POST /api/chat up to the call to the model: the conversation that is forwarded. */
    method Chat(messages: seq<ChatMessage>, useRag: bool, search: Result<seq<Hit>, string>)
      returns (r: Result<seq<ChatMessage>, HttpError>)
      requires Valid()
      ensures r == Rewrite(messages, useRag, hasDocuments, vectorDb, uploadedDocs, search)
    {
      var question := if messages == [] then "" else messages[|messages| - 1].content;
      if useRag && hasDocuments && question != "" && vectorDb.Some? {
        var prompt := BuildRagPrompt(question, vectorDb.value.vectorCount, uploadedDocs, search);
        match prompt {
          case Ok(p) => r := Ok(Enhanced(messages, p));
          case Err(e) => r := Err(e);
        }
      } else if !hasDocuments {
        r := Ok(Enhanced(messages, NoDocumentsPrompt()));
      } else {
        r := Ok(messages);
      }
    }

    /**
     * POST /api/upload-document. A successful upload replaces the store with
     * one built from this file alone, while the list of uploads grows.
     */
    method Upload(filename: string, apiKey: string, ingest: Ingest, mtime: int)
      returns (r: Result<string, HttpError>)
      requires Valid()
      modifies this
      ensures Valid()
      ensures UploadValidation(filename, apiKey).Some? ==>
        r == Err(UploadValidation(filename, apiKey).value) && unchanged(this)
      ensures UploadValidation(filename, apiKey).None? && ingest.FailedBeforeStore? ==>
        r == Err(UploadFailure(ingest.reason)) && unchanged(this)
      ensures UploadValidation(filename, apiKey).None? && ingest.FailedAfterStore? ==>
        && r == Err(UploadFailure(ingest.reason))
        && vectorDb == Some(VectorDb(0))
        && hasDocuments == old(hasDocuments) && uploadedDocs == old(uploadedDocs)
      ensures UploadValidation(filename, apiKey).None? && ingest.Built? ==>
        && r == Ok("Document " + filename + " uploaded successfully")
        && vectorDb == Some(VectorDb(ingest.vectorCount))
        && hasDocuments
        && uploadedDocs == old(uploadedDocs) + [DocRecord(filename, mtime)]
    {
      var rejected := UploadValidation(filename, apiKey);
      if rejected.Some? {
        return Err(rejected.value);
      }
      match ingest {
        case FailedBeforeStore(reason) =>
          r := Err(UploadFailure(reason));
        case FailedAfterStore(reason) =>
          vectorDb := Some(VectorDb(0));
          r := Err(UploadFailure(reason));
        case Built(n) =>
          vectorDb := Some(VectorDb(n));
          hasDocuments := true;
          uploadedDocs := uploadedDocs + [DocRecord(filename, mtime)];
          r := Ok("Document " + filename + " uploaded successfully");
      }
    }

    /** POST /api/documents/clear */
    method Clear() returns (message: string)
      modifies this
      ensures Valid()
      ensures vectorDb == None && !hasDocuments && uploadedDocs == []
      ensures message == "Documents cleared successfully"
    {
      vectorDb, hasDocuments, uploadedDocs := None, false, [];
      message := "Documents cleared successfully";
    }

    /** GET /api/documents/status */
    function Status(): (s: DocumentStatus)
      reads this
      requires Valid()
      ensures s.hasDocuments <==> s.uploadedDocuments != []
      ensures s.uploadedDocuments == uploadedDocs
      ensures !s.hasDocuments ==> s.documentCount == 0
      ensures s.hasDocuments ==> s.documentCount == vectorDb.value.vectorCount
    {
      DocumentStatus(hasDocuments, if hasDocuments && vectorDb.Some? then vectorDb.value.vectorCount else 0, uploadedDocs)
    }

    /** GET /api/documents/list */
    function List(): (l: DocumentList)
      reads this
      ensures l.documents == uploadedDocs
      ensures l.total == |l.documents|
    {
      DocumentList(uploadedDocs, |uploadedDocs|)
    }
  }
}
