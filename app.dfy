/** The session side of the chat application: building the request in a loop, calling the
    backend with every failure contained, and the history the session keeps between script passes. */
module App {

  import opened Wrappers
  import opened Chat
  import opened Completion

  /** The completion backend as seen by the session: one call per request, with a fixed client,
      model name and request options. */
  type Backend = seq<Message> -> Reply

  /** Builds the outbound request by appending to a list: the system message, each stored turn as a
      User/Assistant pair, then the new user message. The history is only read. */
  method BuildMessages(systemPrompt: string, chatHistory: seq<Turn>, userMessage: string)
    returns (messages: seq<Message>)
    ensures messages == Build(systemPrompt, chatHistory, userMessage)
    ensures IsRequestFor(systemPrompt, chatHistory, userMessage, messages)
  {
    messages := [Message(System, systemPrompt)];
    for i := 0 to |chatHistory|
      invariant messages == [Message(System, systemPrompt)] + HistoryMessages(chatHistory[..i])
    {
      var chat := chatHistory[i];
      messages := messages + [Message(User, chat.user)];
      messages := messages + [Message(Assistant, chat.assistant)];
      assert chatHistory[..i + 1][..i] == chatHistory[..i];
    }
    assert chatHistory[..|chatHistory|] == chatHistory;
    messages := messages + [Message(User, userMessage)];
    BuildIsRequest(systemPrompt, chatHistory, userMessage);
  }

  /** Sends the request for `userMessage` and returns the assistant text. Any failure of the call,
      or an answer without choices, comes back as a diagnostic string, never as an error. */
  method GetLlmResponse(backend: Backend, systemPrompt: string, userMessage: string, chatHistory: seq<Turn>)
    returns (text: string)
    ensures text == ResponseText(backend(Build(systemPrompt, chatHistory, userMessage)))
  {
    var messages := BuildMessages(systemPrompt, chatHistory, userMessage);
    var response := backend(messages);
    match response
    case Raised(e) =>
      text := ErrorPrefix + e;
    case Completed(choices) =>
      if |choices| == 0 {
        text := ErrorPrefix + IndexErrorCause;
      } else {
        text := choices[0];
      }
  }

  /** The per-session store that outlives script passes; `chatHistory` is absent until a pass
      first initialises it. */
  class SessionState {
    var chatHistory: Option<seq<Turn>>

    constructor ()
      ensures chatHistory == None
    {
      chatHistory := None;
    }

    /** Creates an empty history if there is none; an existing history is kept as it is. */
    method InitChatHistory()
      modifies this
      ensures old(chatHistory).None? ==> chatHistory == Some([])
      ensures old(chatHistory).Some? ==> chatHistory == old(chatHistory)
    {
      if chatHistory.None? {
        chatHistory := Some([]);
      }
    }

    /** Replaces the whole history with an empty one, whatever it held. */
    method ClearChatHistory()
      modifies this
      ensures chatHistory == Some([])
    {
      chatHistory := Some([]);
    }

    /** Answers one user input: the request is built from the history as it stood before this
        call, and exactly one complete turn is appended, whether the backend succeeded or not. */
    method SendMessage(backend: Backend, systemPrompt: string, userInput: string)
      returns (assistantResponse: string)
      requires chatHistory.Some?
      modifies this
      ensures assistantResponse == ResponseText(backend(Build(systemPrompt, old(chatHistory).value, userInput)))
      ensures chatHistory == Some(old(chatHistory).value + [Turn(userInput, assistantResponse)])
      ensures |chatHistory.value| == |old(chatHistory).value| + 1
      ensures chatHistory.value[..|old(chatHistory).value|] == old(chatHistory).value
    {
      assistantResponse := GetLlmResponse(backend, systemPrompt, userInput, chatHistory.value);
      chatHistory := Some(chatHistory.value + [Turn(userInput, assistantResponse)]);
    }

    /** One pass of the application script as far as the session history is concerned. A click on
        the clear button empties the history and restarts the script, so nothing else happens in
        that pass; otherwise the history is initialised if absent and a non-empty input is sent. */
    method RunScript(backend: Backend, systemPrompt: string, clearClicked: bool, chatInput: Option<string>)
      modifies this
      ensures clearClicked ==> chatHistory == Some([])
      ensures !clearClicked ==>
        var before := if old(chatHistory).Some? then old(chatHistory).value else [];
        if chatInput.Some? && chatInput.value != "" then
          var reply := ResponseText(backend(Build(systemPrompt, before, chatInput.value)));
          chatHistory == Some(before + [Turn(chatInput.value, reply)])
        else
          chatHistory == Some(before)
    {
      if clearClicked {
        ClearChatHistory();
        return;
      }
      InitChatHistory();
      if chatInput.Some? && chatInput.value != "" {
        var _ := SendMessage(backend, systemPrompt, chatInput.value);
      }
    }
  }

  /** Two exchanges followed by a clear, as a caller of the session sees them. */
  method Conversation(backend: Backend)
    requires backend([Message(System, "P"), Message(User, "Hello")]) == Completed(["Hi"])
  {
    var session := new SessionState();
    session.InitChatHistory();
    assert HistoryMessages([]) == [];
    var first := session.SendMessage(backend, "P", "Hello");
    assert Build("P", [], "Hello") == [Message(System, "P"), Message(User, "Hello")];
    assert first == "Hi";
    SecondRequest();
    var second := session.SendMessage(backend, "P", "How are you?");
    assert session.chatHistory.value[0] == Turn("Hello", "Hi");
    assert |session.chatHistory.value| == 2;
    session.ClearChatHistory();
    assert session.chatHistory == Some([]);
  }
}
