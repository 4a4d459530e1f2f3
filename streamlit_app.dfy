/** The Streamlit front end (app.py). The fields of `st.session_state` that
    the script reads and writes, whether the chain is configured, the
    retriever and the list of single turns, are the fields of `Session`; one
    run of the script that handles one interaction is one method. The user's
    message is stored before the model is asked, so a failed answer leaves it
    behind. */
module StreamlitApp {
  import opened Text
  import opened Rag

  const PriorTurns: nat := 6

  /** A numbered excerpt under "View source excerpts". */
  datatype SourceExcerpt = SourceExcerpt(number: nat, text: string)

  /** The banner shown in the sidebar after "Process Document". */
  datatype Notice = Succeeded(message: string) | Failed(message: string)

  /** What a run shows for a message: nothing (the chat box is not there or
      was submitted empty), the answer with its sources, or an error, shown
      after the answer when only the second retrieval failed. */
  datatype ChatView =
    | NotShown
    | Replied(answer: string, sources: seq<SourceExcerpt>)
    | ErrorShown(shownAnswer: Option<string>, error: string)

  const Processed := " Document processed successfully!"
  const ProcessError := " Error processing document: "
  const ChatError := "Error: "

  /** One history line: the role's label, the content and a newline. */
  function Line(t: Turn): (r: string)
    ensures r == Labelled(t) + "\n"
  {
    (if t.role == User then "User" else "Assistant") + ": " + t.content + "\n"
  }

  /** The lines of the turns, in order, each ended by a newline. */
  function Lines(ts: seq<Turn>): (r: string)
    decreases |ts|
  {
    if ts == [] then "" else Lines(ts[..|ts| - 1]) + Line(ts[|ts| - 1])
  }

  /** The history section of the prompt, built after the new message has
      been stored: the placeholder when there was nothing before it,
      otherwise the lines of the six turns before it. */
  function HistoryText(h: seq<Turn>): (r: string)
    ensures r == NoConversation <==> |h| <= 1
    ensures |h| > 1 ==> r == Lines(Window(h[..|h| - 1], PriorTurns))
  {
    var text := if |h| > 1 then Lines(Slice(h, -7, -1)) else "";
    assert |h| > 1 ==> text == Lines(Window(h[..|h| - 1], PriorTurns)) && text != "" && text != NoConversation by {
      if |h| > 1 {
        SliceBeforeLastIsWindow(h, PriorTurns);
        LinesEndWithNewline(Slice(h, -7, -1));
        assert NoConversation[|NoConversation| - 1] == '.';
      }
    }
    if text == "" then NoConversation else text
  }

  /** Written lines always end with a newline. */
  lemma LinesEndWithNewline(ts: seq<Turn>)
    requires ts != []
    ensures |Lines(ts)| > 0 && Lines(ts)[|Lines(ts)| - 1] == '\n'
  {
    var last := Line(ts[|ts| - 1]);
    assert last[|last| - 1] == '\n';
  }

  /** Writing one more turn appends its line. */
  lemma LinesStep(ts: seq<Turn>, i: nat)
    requires i < |ts|
    ensures Lines(ts[..i + 1]) == Lines(ts[..i]) + Line(ts[i])
  {
    assert ts[..i + 1][..i] == ts[..i];
  }

  /** Lines 129-136 of the script: a loop appends one line per turn of
      `chat_history[-7:-1]`, and the placeholder replaces an empty result. */
  method FormatHistory(chatHistory: seq<Turn>) returns (historyText: string)
    ensures historyText == HistoryText(chatHistory)
  {
    historyText := "";
    if |chatHistory| > 1 {
      var recent := Slice(chatHistory, -7, -1);
      for i := 0 to |recent|
        invariant historyText == Lines(recent[..i])
      {
        LinesStep(recent, i);
        var role := if recent[i].role == User then "User" else "Assistant";
        historyText := historyText + role + ": " + recent[i].content + "\n";
      }
      assert recent[..|recent|] == recent;
    }
    if historyText == "" {
      historyText := NoConversation;
    }
  }

  /** The excerpts shown for the retrieved passages: "Source 1", "Source 2",
      ... in retrieval order, each the passage's excerpt. */
  function SourceExcerpts(docs: seq<Document>): (r: seq<SourceExcerpt>)
    ensures |r| == |docs|
    ensures forall i :: 0 <= i < |docs| ==> r[i].number == i + 1
    ensures forall i :: 0 <= i < |docs| ==>
              |r[i].text| <= ExcerptLength + |Ellipsis| && r[i].text == Excerpt(docs[i].pageContent)
  {
    seq(|docs|, i requires 0 <= i < |docs| => SourceExcerpt(i + 1, Excerpt(docs[i].pageContent)))
  }

  /** Lines 163-166 of the script: a loop over `enumerate(docs, 1)` that
      shows one numbered excerpt per passage. */
  method ShowSourceExcerpts(docs: seq<Document>) returns (shown: seq<SourceExcerpt>)
    ensures shown == SourceExcerpts(docs)
  {
    shown := [];
    var number := 1;
    for k := 0 to |docs|
      invariant number == k + 1
      invariant |shown| == k
      invariant forall j :: 0 <= j < k ==> shown[j] == SourceExcerpt(j + 1, Excerpt(docs[j].pageContent))
    {
      shown := shown + [SourceExcerpt(number, Slice(docs[k].pageContent, 0, ExcerptLength) + Ellipsis)];
      number := number + 1;
    }
  }

  /** What the chat block computes after storing the message: retrieve,
      fill the template with the context, the history text and the message,
      and ask the model. Either external call may fail. */
  function Respond(store: Index, h: seq<Turn>, prompt: string, retrieve: Retriever, generate: Generator): (r: Outcome<string>)
    ensures retrieve(store, prompt).Fail? ==> r == Fail(retrieve(store, prompt).message)
    ensures retrieve(store, prompt).Ok? ==>
              r == generate(ConversationalPrompt(FormatDocs(retrieve(store, prompt).value), HistoryText(h), prompt))
  {
    match retrieve(store, prompt)
    case Fail(e) => Fail(e)
    case Ok(docs) => generate(ConversationalPrompt(FormatDocs(docs), HistoryText(h), prompt))
  }

  /** Every assistant turn directly follows a user turn: the answer is stored
      right after the message it answers. */
  ghost predicate AnswersFollowQuestions(h: seq<Turn>)
    decreases |h|
  {
    h == [] ||
    (AnswersFollowQuestions(h[..|h| - 1]) &&
     (h[|h| - 1].role == Assistant ==> |h| >= 2 && h[|h| - 2].role == User))
  }

  class Session {
    var ragChain: bool
    var retriever: Option<Index>
    var chatHistory: seq<Turn>

    /** The chain and the retriever are set together; turns exist only once a
        document is loaded, and answers follow questions. */
    ghost predicate Valid()
      reads this
    {
      && (ragChain <==> retriever.Some?)
      && (chatHistory != [] ==> ragChain)
      && AnswersFollowQuestions(chatHistory)
    }

    /** Lines 25-28: a new browser session starts with no chain and no history. */
    constructor ()
      ensures Valid()
      ensures !ragChain && retriever == None && chatHistory == []
    {
      ragChain := false;
      retriever := None;
      chatHistory := [];
    }

    /** "Process Document": `built` is the outcome of decoding, splitting and
        embedding the file, `cleanup` that of deleting the temporary copy.
        The chain and retriever are stored before the copy is deleted and the
        history reset after, so a failed deletion shows an error with the new
        document loaded and the old history kept. */
    method ProcessDocument(built: Outcome<Index>, cleanup: Outcome<()>) returns (notice: Notice)
      requires Valid()
      modifies this
      ensures Valid()
      ensures built.Fail? ==>
                && notice == Failed(ProcessError + built.message)
                && ragChain == old(ragChain) && retriever == old(retriever) && chatHistory == old(chatHistory)
      ensures built.Ok? ==> ragChain && retriever == Some(built.value)
      ensures built.Ok? && cleanup.Fail? ==>
                notice == Failed(ProcessError + cleanup.message) && chatHistory == old(chatHistory)
      ensures built.Ok? && cleanup.Ok? ==> notice == Succeeded(Processed) && chatHistory == []
    {
      if built.Fail? {
        return Failed(ProcessError + built.message);
      }
      ragChain := true;
      retriever := Some(built.value);
      if cleanup.Fail? {
        return Failed(ProcessError + cleanup.message);
      }
      notice := Succeeded(Processed);
      chatHistory := [];
    }

    /** The chat block, for a message `prompt`. It runs only once the chain is
        configured and the message is not empty. The message is stored first;
        if retrieval or generation then fails, an error is shown and only the
        message stays. Otherwise the answer is stored right after it and the
        passages are retrieved again for the excerpts; if that second call
        fails, the answer has been shown and stored, and an error follows. */
    method Chat(prompt: string, retrieve: Retriever, generate: Generator, retrieveAgain: Retriever) returns (view: ChatView)
      requires Valid()
      modifies this`chatHistory
      ensures Valid()
      ensures ragChain == old(ragChain) && retriever == old(retriever)
      ensures !ragChain || prompt == "" ==> view == NotShown && chatHistory == old(chatHistory)
      ensures ragChain && prompt != "" ==>
                var asked := old(chatHistory) + [Turn(User, prompt)];
                match Respond(retriever.value, asked, prompt, retrieve, generate)
                case Fail(e) => view == ErrorShown(None, ChatError + e) && chatHistory == asked
                case Ok(answer) =>
                  && chatHistory == asked + [Turn(Assistant, answer)]
                  && match retrieveAgain(retriever.value, prompt)
                     case Fail(e) => view == ErrorShown(Some(answer), ChatError + e)
                     case Ok(docs) => view == Replied(answer, SourceExcerpts(docs))
    {
      if !ragChain || prompt == "" {
        return NotShown;
      }
      ghost var before := chatHistory;
      chatHistory := chatHistory + [Turn(User, prompt)];
      assert chatHistory[..|chatHistory| - 1] == before;
      var historyText := FormatHistory(chatHistory);
      var retrieved := retrieve(retriever.value, prompt);
      if retrieved.Fail? {
        return ErrorShown(None, ChatError + retrieved.message);
      }
      var context := FormatDocs(retrieved.value);
      var response := generate(ConversationalPrompt(context, historyText, prompt));
      if response.Fail? {
        return ErrorShown(None, ChatError + response.message);
      }
      var answer := response.value;
      ghost var asked := chatHistory;
      chatHistory := chatHistory + [Turn(Assistant, answer)];
      assert chatHistory[..|chatHistory| - 1] == asked;
      var again := retrieveAgain(retriever.value, prompt);
      if again.Fail? {
        return ErrorShown(Some(answer), ChatError + again.message);
      }
      var shown := ShowSourceExcerpts(again.value);
      view := Replied(answer, shown);
    }

    /** "Clear Chat History", offered only while there is history: forget the
        turns, keep the loaded document. */
    method ClearHistory()
      requires Valid()
      modifies this`chatHistory
      ensures Valid()
      ensures chatHistory == [] && ragChain == old(ragChain) && retriever == old(retriever)
    {
      if chatHistory != [] {
        chatHistory := [];
      }
    }
  }

  /** The history shown with a new message leaves that message out: it is the
      placeholder for the first message, and otherwise the lines of the six
      turns stored before it. */
  lemma HistoryExcludesCurrentMessage(h: seq<Turn>, prompt: string)
    ensures HistoryText(h + [Turn(User, prompt)]) ==
            if h == [] then NoConversation else Lines(Window(h, PriorTurns))
  {
    var asked := h + [Turn(User, prompt)];
    assert asked[..|asked| - 1] == h;
  }

  /** Written as lines, the turns are the labelled turns joined by newlines,
      plus a final newline. */
  lemma {:induction false} LinesAreJoinedLabels(ts: seq<Turn>)
    requires ts != []
    ensures Lines(ts) == Join(LabelledAll(ts), "\n") + "\n"
    decreases |ts|
  {
    var n := |ts|;
    var init := ts[..n - 1];
    var last := Labelled(ts[n - 1]);
    if n == 1 {
      assert LabelledAll(ts) == [last];
      assert Lines(ts) == Lines([]) + Line(ts[0]);
    } else {
      var front := Join(LabelledAll(init), "\n");
      assert Lines(ts) == front + "\n" + (last + "\n") by {
        LinesAreJoinedLabels(init);
      }
      assert Join(LabelledAll(ts), "\n") == front + "\n" + last by {
        JoinSplit(LabelledAll(ts), "\n", n - 1);
        assert LabelledAll(ts)[..n - 1] == LabelledAll(init);
        assert LabelledAll(ts)[n - 1..] == [last];
      }
    }
  }
}
