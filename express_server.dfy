/** The Express back-end (nodejs/server.js). Its globals, the current vector
    store and the list of single turns, are the fields of `Server`; the
    `/upload`, `/chat` and `/clear` routes are its methods. History is stored
    as turns, two per exchange, and never trimmed; only the last six turns
    reach the prompt. */
module ExpressServer {
  import opened Text
  import opened Rag

  const HistoryTurns: nat := 6

  datatype UploadBody = UploadBody(message: string, chunks: nat)
  datatype ChatBody = ChatBody(answer: string, sources: seq<string>)

  const NoFile := "No file uploaded"
  const Processed := "Document processed successfully"
  const NoDocument := "No document loaded. Please upload a document first."
  const Cleared := "Chat history cleared"

  /** The history section of the prompt: the placeholder when no turn is
      stored, otherwise the last six turns labelled by role, one per line. */
  function HistoryText(turns: seq<Turn>): (r: string)
    ensures r == NoConversation <==> turns == []
    ensures turns != [] ==> r == Join(LabelledAll(Window(turns, HistoryTurns)), "\n")
  {
    if |turns| > 0 then
      SliceFromEndIsWindow(turns, HistoryTurns);
      var window := Slice(turns, -(HistoryTurns as int), |turns|);
      LabelledIsNotPlaceholder(window, "\n");
      Join(LabelledAll(window), "\n")
    else
      NoConversation
  }

  /** The `sources` of a reply: one excerpt per retrieved passage, in
      retrieval order. */
  function Excerpts(docs: seq<Document>): (r: seq<string>)
    ensures |r| == |docs|
    ensures forall i :: 0 <= i < |docs| ==> r[i] == Excerpt(docs[i].pageContent)
  {
    seq(|docs|, i requires 0 <= i < |docs| => Excerpt(docs[i].pageContent))
  }

  /** What the body of `/chat` computes once a store is loaded: retrieve,
      fill the template with the context, the history text and the message,
      and answer with the model's reply and the excerpts. Either external
      call may fail. */
  function Respond(store: Index, h: seq<Turn>, message: string, retrieve: Retriever, generate: Generator): (r: Outcome<ChatBody>)
    ensures retrieve(store, message).Fail? ==> r == Fail(retrieve(store, message).message)
    ensures retrieve(store, message).Ok? ==>
              var reply := generate(ConversationalPrompt(FormatDocs(retrieve(store, message).value), HistoryText(h), message));
              && (reply.Fail? ==> r == Fail(reply.message))
              && (reply.Ok? ==> r.Ok?)
    ensures r.Ok? ==> retrieve(store, message).Ok?
    ensures r.Ok? ==> var docs := retrieve(store, message).value;
                      && generate(ConversationalPrompt(FormatDocs(docs), HistoryText(h), message)) == Ok(r.value.answer)
                      && r.value.sources == Excerpts(docs)
  {
    match retrieve(store, message)
    case Fail(e) => Fail(e)
    case Ok(docs) =>
      match generate(ConversationalPrompt(FormatDocs(docs), HistoryText(h), message))
      case Fail(e) => Fail(e)
      case Ok(answer) => Ok(ChatBody(answer, Excerpts(docs)))
  }

  /** The stored turns are whole exchanges: a user turn, then the assistant's
      answer to it. */
  ghost predicate Paired(h: seq<Turn>)
    decreases |h|
  {
    h == [] || (|h| >= 2 && h[0].role == User && h[1].role == Assistant && Paired(h[2..]))
  }

  class Server {
    var vectorStore: Option<Index>
    var chatHistory: seq<Turn>

    /** Turns are pushed two at a time, and only while a store is loaded. */
    ghost predicate Valid()
      reads this
    {
      Paired(chatHistory) && (chatHistory != [] ==> vectorStore.Some?)
    }

    constructor ()
      ensures Valid()
      ensures vectorStore == None && chatHistory == []
    {
      vectorStore := None;
      chatHistory := [];
    }

    /** `POST /upload`. `hasFile` says whether the request carried a file,
        `built` is the outcome of loading, splitting and embedding it, and
        `cleanup` that of deleting the uploaded file. The store is replaced
        before the file is deleted and the history reset after, so a failed
        deletion reports a 500 with the new store loaded and the old history
        kept. */
    method Upload(hasFile: bool, built: Outcome<Index>, cleanup: Outcome<()>) returns (reply: Reply<UploadBody>)
      requires Valid()
      modifies this
      ensures Valid()
      ensures !hasFile ==>
                reply == HttpError(400, NoFile) && vectorStore == old(vectorStore) && chatHistory == old(chatHistory)
      ensures hasFile && built.Fail? ==>
                reply == HttpError(500, built.message) && vectorStore == old(vectorStore) && chatHistory == old(chatHistory)
      ensures hasFile && built.Ok? ==> vectorStore == Some(built.value)
      ensures hasFile && built.Ok? && cleanup.Fail? ==>
                reply == HttpError(500, cleanup.message) && chatHistory == old(chatHistory)
      ensures hasFile && built.Ok? && cleanup.Ok? ==>
                reply == Success(UploadBody(Processed, |built.value.passages|)) && chatHistory == []
    {
      if !hasFile {
        return HttpError(400, NoFile);
      }
      if built.Fail? {
        return HttpError(500, built.message);
      }
      var splits := built.value.passages;
      vectorStore := Some(built.value);
      if cleanup.Fail? {
        return HttpError(500, cleanup.message);
      }
      chatHistory := [];
      reply := Success(UploadBody(Processed, |splits|));
    }

    /** `POST /chat`. Without a store the request is refused and nothing
        changes. If retrieval or generation fails the reply is a 500 and the
        history is untouched, because the pushes come after both calls. On
        success exactly two turns are pushed, the message and then the
        answer, and nothing is dropped. */
    method Chat(message: string, retrieve: Retriever, generate: Generator) returns (reply: Reply<ChatBody>)
      requires Valid()
      modifies this`chatHistory
      ensures Valid()
      ensures vectorStore == old(vectorStore)
      ensures vectorStore == None ==> reply == HttpError(400, NoDocument) && chatHistory == old(chatHistory)
      ensures vectorStore.Some? ==>
                match Respond(vectorStore.value, old(chatHistory), message, retrieve, generate)
                case Fail(e) => reply == HttpError(500, e) && chatHistory == old(chatHistory)
                case Ok(body) =>
                  reply == Success(body) && chatHistory == old(chatHistory) + [Turn(User, message), Turn(Assistant, body.answer)]
    {
      if vectorStore == None {
        return HttpError(400, NoDocument);
      }
      var retrieved := retrieve(vectorStore.value, message);
      if retrieved.Fail? {
        return HttpError(500, retrieved.message);
      }
      var relevantDocs := retrieved.value;
      var context := FormatDocs(relevantDocs);
      var historyText := HistoryText(chatHistory);
      var response := generate(ConversationalPrompt(context, historyText, message));
      if response.Fail? {
        return HttpError(500, response.message);
      }
      var answer := response.value;
      ghost var before := chatHistory;
      PairedAfterExchange(before, message, answer);
      chatHistory := chatHistory + [Turn(User, message)];
      chatHistory := chatHistory + [Turn(Assistant, answer)];
      assert chatHistory == before + [Turn(User, message), Turn(Assistant, answer)];
      reply := Success(ChatBody(answer, Excerpts(relevantDocs)));
    }

    /** `POST /clear`: forget the turns, keep the store. */
    method Clear() returns (message: string)
      requires Valid()
      modifies this`chatHistory
      ensures Valid()
      ensures chatHistory == [] && vectorStore == old(vectorStore)
      ensures message == Cleared
    {
      chatHistory := [];
      message := Cleared;
    }
  }

  /** Because turns are stored in pairs and the window is even, the six
      turns shown to the model are the last three whole exchanges, each
      starting with the user's message. */
  lemma {:induction false} WindowHoldsWholeExchanges(h: seq<Turn>)
    requires Paired(h)
    ensures Paired(Window(h, HistoryTurns))
    ensures |h| >= HistoryTurns ==> Window(h, HistoryTurns) == h[|h| - HistoryTurns..]
    decreases |h|
  {
    if |h| > HistoryTurns {
      PairedTail(h);
      WindowHoldsWholeExchanges(h[2..]);
      WindowOfSuffix(h, 2, HistoryTurns);
    }
  }

  /** Past the window, dropping the oldest exchange keeps the rest paired and
      still at least a window long. */
  lemma PairedTail(h: seq<Turn>)
    requires Paired(h) && |h| > HistoryTurns
    ensures Paired(h[2..]) && |h[2..]| >= HistoryTurns
  {
    PairedIsEven(h);
  }

  /** Paired turns come in whole exchanges, so there is an even number of them. */
  lemma {:induction false} PairedIsEven(h: seq<Turn>)
    requires Paired(h)
    ensures |h| % 2 == 0
    decreases |h|
  {
    if h != [] {
      PairedIsEven(h[2..]);
    }
  }

  /** Pushing a user turn and then an assistant turn keeps the turns paired. */
  lemma {:induction false} PairedAfterExchange(h: seq<Turn>, question: string, answer: string)
    requires Paired(h)
    ensures Paired(h + [Turn(User, question), Turn(Assistant, answer)])
    decreases |h|
  {
    var pair := [Turn(User, question), Turn(Assistant, answer)];
    if h == [] {
      assert h + pair == pair && pair[2..] == [];
    } else {
      PairedAfterExchange(h[2..], question, answer);
      assert (h + pair)[2..] == h[2..] + pair;
    }
  }
}
