/** How the back-ends that store single turns differ in what they show the
    model. */
module Comparison {
  import opened Text
  import opened Rag
  import ExpressServer
  import StreamlitApp

  /** Given the same turns stored before a new message, the Streamlit app and
      the Express server put the same six turns, labelled the same way, in
      the prompt; the app's text only adds a newline after the last one. */
  lemma SameWindowForNewMessage(h: seq<Turn>, message: string)
    ensures StreamlitApp.HistoryText(h + [Turn(User, message)]) ==
            if h == [] then NoConversation else ExpressServer.HistoryText(h) + "\n"
  {
    StreamlitApp.HistoryExcludesCurrentMessage(h, message);
    if h != [] {
      StreamlitApp.LinesAreJoinedLabels(Window(h, 6));
    }
  }
}
