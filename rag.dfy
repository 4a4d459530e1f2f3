/** Definitions the three back-ends share: the values that cross the
    boundary to the vector store and the language model, conversation turns
    and their labels, the context built from retrieved passages, and the
    prompt template used verbatim by the Express server and the Streamlit
    app. */
module Rag {
  import opened Text

  datatype Option<T> = None | Some(value: T)

  /** The result of a call that may throw: its value, or the exception's message. */
  datatype Outcome<T> = Ok(value: T) | Fail(message: string)

  /** A passage returned by the retriever; only its text is used. */
  datatype Document = Document(pageContent: string)

  /** A vector store built from the chunks of one uploaded document. */
  datatype Index = Index(passages: seq<string>)

  /** The store's top-3 similarity search, and the chat model's completion of
      a prompt. Both are external calls; each may fail. */
  type Retriever = (Index, string) -> Outcome<seq<Document>>
  type Generator = string -> Outcome<string>

  /** An HTTP reply: a JSON body with status 200, or an error status with its message. */
  datatype Reply<T> = Success(body: T) | HttpError(status: nat, detail: string)

  datatype Role = User | Assistant

  /** One message of a conversation stored as single turns. */
  datatype Turn = Turn(role: Role, content: string)

  /** The texts of the retrieved documents, one per document, in retrieval order. */
  function Contents(docs: seq<Document>): (r: seq<string>)
    ensures |r| == |docs|
    ensures forall i :: 0 <= i < |docs| ==> r[i] == docs[i].pageContent
  {
    seq(|docs|, i requires 0 <= i < |docs| => docs[i].pageContent)
  }

  const BlankLine := "\n\n"

  /** `format_docs`: the retrieved passages separated by a blank line. */
  function FormatDocs(docs: seq<Document>): (r: string)
    ensures docs == [] ==> r == ""
    ensures |docs| > 0 ==> docs[0].pageContent <= r
  {
    Join(Contents(docs), BlankLine)
  }

  /** Passage `i` appears whole in the context, after exactly the passages
      retrieved before it and before exactly the ones retrieved after it. */
  lemma ContextInRetrievalOrder(docs: seq<Document>, i: nat)
    requires i < |docs|
    ensures FormatDocs(docs) == Before(Contents(docs), BlankLine, i) + docs[i].pageContent + After(Contents(docs), BlankLine, i)
  {
    JoinedInOrder(Contents(docs), BlankLine, i);
  }

  /** "User: content" or "Assistant: content", by the turn's role. */
  function Labelled(t: Turn): (r: string)
    ensures t.role == User ==> r == "User: " + t.content
    ensures t.role == Assistant ==> r == "Assistant: " + t.content
  {
    (if t.role == User then "User" else "Assistant") + ": " + t.content
  }

  /** Each turn labelled by role, in order. */
  function LabelledAll(ts: seq<Turn>): (r: seq<string>)
    ensures |r| == |ts|
    ensures forall i :: 0 <= i < |ts| ==> r[i] == Labelled(ts[i])
  {
    seq(|ts|, i requires 0 <= i < |ts| => Labelled(ts[i]))
  }

  /** The text shown to the model when there are no earlier turns. */
  const NoConversation := "No previous conversation."

  /** A labelled turn never reads like the empty-history placeholder. */
  lemma LabelledIsNotPlaceholder(ts: seq<Turn>, sep: string)
    requires ts != []
    ensures Join(LabelledAll(ts), sep) != NoConversation
  {
    var parts := LabelledAll(ts);
    JoinEnds(parts, sep);
    assert parts[0][0] == 'U' || parts[0][0] == 'A';
    assert NoConversation[0] == 'N';
  }

  const Preamble := "You are a helpful AI assistant. Answer the question based on the following context and our conversation history.\n\nContext from document:\n"
  const HistoryHeading := "\n\nChat History:\n"
  const QuestionHeading := "\n\nCurrent Question: "
  const AnswerCue := "\n\nAnswer:"

  /** The template filled by the Express server and the Streamlit app: the
      context, then the chat history, then the question, each under its
      fixed heading, and the prompt ends by asking for the answer. */
  function ConversationalPrompt(context: string, history: string, question: string): (r: string)
    ensures var c := |Preamble|;
            var h := c + |context| + |HistoryHeading|;
            var q := h + |history| + |QuestionHeading|;
            && |r| == q + |question| + |AnswerCue|
            && r[..c] == Preamble
            && r[c..c + |context|] == context
            && r[c + |context|..h] == HistoryHeading
            && r[h..h + |history|] == history
            && r[h + |history|..q] == QuestionHeading
            && r[q..q + |question|] == question
            && r[q + |question|..] == AnswerCue
  {
    Preamble + context + HistoryHeading + history + QuestionHeading + question + AnswerCue
  }
}
