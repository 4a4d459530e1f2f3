/** The FastAPI back-end (server/main.py). Its module globals, the current
    vector store and the list of question/answer exchanges, are the fields of
    `Server`; the `/upload`, `/chat` and `DELETE /history` handlers are its
    methods. History is stored as exchanges and trimmed to the last six. */
module FastApiServer {
  import opened Text
  import opened Rag

  const MaxHistory: nat := 6

  /** One stored `{question, answer}` entry. */
  datatype Exchange = Exchange(question: string, answer: string)

  datatype UploadBody = UploadBody(message: string, chunks: nat, filename: string)
  datatype ChatBody = ChatBody(answer: string, sources: seq<string>)

  const TextSuffix := ".txt"
  const OnlyText := "Only .txt files are supported"
  const FileError := "Error processing file: "
  const NoDocument := "Please upload a document first"
  const QuestionError := "Error processing question: "
  const Cleared := "History cleared"

  const HumanLabel := "Human: "
  const AssistantLabel := "\nAssistant: "

  /** An exchange as the model sees it: "Human: q" and "Assistant: a" on two
      lines, each part at a fixed offset. */
  function Rendered(e: Exchange): (r: string)
    ensures var a := |HumanLabel| + |e.question|;
            var b := a + |AssistantLabel|;
            && |r| == b + |e.answer|
            && r[..|HumanLabel|] == HumanLabel
            && r[|HumanLabel|..a] == e.question
            && r[a..b] == AssistantLabel
            && r[b..] == e.answer
    ensures |e.answer| < |r| && r[|r| - |e.answer|..] == e.answer
  {
    HumanLabel + e.question + AssistantLabel + e.answer
  }

  function RenderedAll(es: seq<Exchange>): (r: seq<string>)
    ensures |r| == |es|
    ensures forall i :: 0 <= i < |es| ==> r[i] == Rendered(es[i])
  {
    seq(|es|, i requires 0 <= i < |es| => Rendered(es[i]))
  }

  /** The history section of the prompt: the empty string when nothing is
      stored, otherwise the last six exchanges rendered one after another.
      The text is empty exactly when the history is, and it ends with the
      latest answer. */
  function HistoryText(h: seq<Exchange>): (r: string)
    ensures r == "" <==> h == []
    ensures h != [] ==> |h[|h| - 1].answer| <= |r| && r[|r| - |h[|h| - 1].answer|..] == h[|h| - 1].answer
  {
    if |h| > 0 then
      SliceFromEndIsWindow(h, MaxHistory);
      var parts := RenderedAll(Slice(h, -(MaxHistory as int), |h|));
      JoinEnds(parts, "\n");
      Join(parts, "\n")
    else ""
  }

  /** The history section shows exactly the six most recent exchanges, oldest
      first; a history that is within the bound is shown whole. */
  lemma HistoryTextShowsLatest(h: seq<Exchange>)
    requires h != []
    ensures HistoryText(h) == Join(RenderedAll(Window(h, MaxHistory)), "\n")
    ensures |h| <= MaxHistory ==> HistoryText(h) == Join(RenderedAll(h), "\n")
  {
    SliceFromEndIsWindow(h, MaxHistory);
  }

  const Instructions := "You are a helpful assistant answering questions about a document.\nUse the following context and chat history to answer the question.\nIf you don't know the answer, say so - don't make up information.\n\nChat History:\n"
  const ContextHeading := "\n\nContext from document:\n"
  const QuestionHeading := "\n\nQuestion: "
  const AnswerCue := "\n\nAnswer:"

  /** The prompt of server/main.py: the chat history first, then the context,
      then the question, each under its fixed heading. */
  function DocumentPrompt(history: string, context: string, question: string): (r: string)
    ensures var h := |Instructions|;
            var c := h + |history| + |ContextHeading|;
            var q := c + |context| + |QuestionHeading|;
            && |r| == q + |question| + |AnswerCue|
            && r[..h] == Instructions
            && r[h..h + |history|] == history
            && r[h + |history|..c] == ContextHeading
            && r[c..c + |context|] == context
            && r[c + |context|..q] == QuestionHeading
            && r[q..q + |question|] == question
            && r[q + |question|..] == AnswerCue
  {
    Instructions + history + ContextHeading + context + QuestionHeading + question + AnswerCue
  }

  /** What the body of `/chat` computes once a store is loaded: retrieve three
      passages, prompt the model with them and the stored history, and answer
      with the reply and the full passage texts. Either external call may fail. */
  function Respond(store: Index, h: seq<Exchange>, question: string, retrieve: Retriever, generate: Generator): (r: Outcome<ChatBody>)
    ensures retrieve(store, question).Fail? ==> r == Fail(retrieve(store, question).message)
    ensures retrieve(store, question).Ok? ==>
              var reply := generate(DocumentPrompt(HistoryText(h), FormatDocs(retrieve(store, question).value), question));
              && (reply.Fail? ==> r == Fail(reply.message))
              && (reply.Ok? ==> r.Ok?)
    ensures r.Ok? ==> retrieve(store, question).Ok?
    ensures r.Ok? ==> var docs := retrieve(store, question).value;
                      && generate(DocumentPrompt(HistoryText(h), FormatDocs(docs), question)) == Ok(r.value.answer)
                      && r.value.sources == Contents(docs)
  {
    match retrieve(store, question)
    case Fail(e) => Fail(e)
    case Ok(docs) =>
      match generate(DocumentPrompt(HistoryText(h), FormatDocs(docs), question))
      case Fail(e) => Fail(e)
      case Ok(answer) => Ok(ChatBody(answer, Contents(docs)))
  }

  class Server {
    var vectorStore: Option<Index>
    var chatHistory: seq<Exchange>

    /** Trimming after every append keeps the stored history within the bound. */
    ghost predicate Valid()
      reads this
    {
      |chatHistory| <= MaxHistory
    }

    constructor ()
      ensures Valid()
      ensures vectorStore == None && chatHistory == []
    {
      vectorStore := None;
      chatHistory := [];
    }

    /** `POST /upload`. `built` is the outcome of saving, reading, splitting
        and embedding the file. A name without the ".txt" suffix is refused
        before anything happens; a failure leaves the state as it was; success
        replaces the store, forgets the history and reports the chunk count. */
    method UploadDocument(filename: string, built: Outcome<Index>) returns (reply: Reply<UploadBody>)
      requires Valid()
      modifies this
      ensures Valid()
      ensures !EndsWith(filename, TextSuffix) ==>
                reply == HttpError(400, OnlyText) && vectorStore == old(vectorStore) && chatHistory == old(chatHistory)
      ensures EndsWith(filename, TextSuffix) && built.Fail? ==>
                reply == HttpError(500, FileError + built.message) && vectorStore == old(vectorStore) && chatHistory == old(chatHistory)
      ensures EndsWith(filename, TextSuffix) && built.Ok? ==>
                && reply == Success(UploadBody("Successfully processed " + filename, |built.value.passages|, filename))
                && vectorStore == Some(built.value) && chatHistory == []
    {
      if !EndsWith(filename, TextSuffix) {
        return HttpError(400, OnlyText);
      }
      match built
      case Fail(e) =>
        reply := HttpError(500, FileError + e);
      case Ok(store) =>
        vectorStore := Some(store);
        chatHistory := [];
        reply := Success(UploadBody("Successfully processed " + filename, |store.passages|, filename));
    }

    /** `POST /chat`. Without a store the request is refused and nothing
        changes. If retrieval or generation fails the reply is a 500 and the
        history is untouched, because the append comes after both calls. On
        success exactly one exchange is appended and the history is cut back
        to its last six entries. */
    method Chat(question: string, retrieve: Retriever, generate: Generator) returns (reply: Reply<ChatBody>)
      requires Valid()
      modifies this`chatHistory
      ensures Valid()
      ensures vectorStore == old(vectorStore)
      ensures vectorStore == None ==> reply == HttpError(400, NoDocument) && chatHistory == old(chatHistory)
      ensures vectorStore.Some? ==>
                match Respond(vectorStore.value, old(chatHistory), question, retrieve, generate)
                case Fail(e) => reply == HttpError(500, QuestionError + e) && chatHistory == old(chatHistory)
                case Ok(body) =>
                  reply == Success(body) && chatHistory == Window(old(chatHistory) + [Exchange(question, body.answer)], MaxHistory)
    {
      if vectorStore == None {
        return HttpError(400, NoDocument);
      }
      var retrieved := retrieve(vectorStore.value, question);
      if retrieved.Fail? {
        return HttpError(500, QuestionError + retrieved.message);
      }
      var docs := retrieved.value;
      var historyText := HistoryText(chatHistory);
      var generated := generate(DocumentPrompt(historyText, FormatDocs(docs), question));
      if generated.Fail? {
        return HttpError(500, QuestionError + generated.message);
      }
      var answer := generated.value;
      chatHistory := chatHistory + [Exchange(question, answer)];
      if |chatHistory| > MaxHistory {
        SliceFromEndIsWindow(chatHistory, MaxHistory);
        chatHistory := Slice(chatHistory, -(MaxHistory as int), |chatHistory|);
      }
      var sources := Contents(docs);
      reply := Success(ChatBody(answer, sources));
    }

    /** `DELETE /history`: forget the exchanges, keep the store. */
    method ClearHistory() returns (message: string)
      requires Valid()
      modifies this`chatHistory
      ensures Valid()
      ensures chatHistory == [] && vectorStore == old(vectorStore)
      ensures message == Cleared
    {
      chatHistory := [];
      message := Cleared;
    }
  }

  /** The stored history after a run of successful chats that add the
      exchanges `es`, one per chat, each followed by the trim. */
  function AfterChats(h: seq<Exchange>, es: seq<Exchange>): seq<Exchange>
    decreases |es|
  {
    if es == [] then h else AfterChats(Window(h + [es[0]], MaxHistory), es[1..])
  }

  /** However many chats succeed, the stored history is exactly the six most
      recent exchanges of the whole conversation, in order: trimming after
      each append drops only the oldest entries. */
  lemma {:induction false} StoredHistoryIsLatest(h: seq<Exchange>, es: seq<Exchange>)
    requires |h| <= MaxHistory
    ensures AfterChats(h, es) == Window(h + es, MaxHistory)
    ensures |AfterChats(h, es)| <= MaxHistory
    decreases |es|
  {
    if es == [] {
      assert h + es == h;
    } else {
      var next := Window(h + [es[0]], MaxHistory);
      StoredHistoryIsLatest(next, es[1..]);
      WindowOfAppend(h + [es[0]], es[1..], MaxHistory);
      assert h + [es[0]] + es[1..] == h + es;
    }
  }

  /** After a successful chat the next prompt's history section ends with the
      answer just given. */
  lemma NextPromptEndsWithLatestAnswer(h: seq<Exchange>, e: Exchange)
    ensures var next := Window(h + [e], MaxHistory);
            next != [] && next[|next| - 1] == e
            && HistoryText(next)[|HistoryText(next)| - |e.answer|..] == e.answer
  {
    var next := Window(h + [e], MaxHistory);
    assert h + [e] == (h + [e])[..|h + [e]| - |next|] + next;
  }
}
