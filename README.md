# Chat session core of an AI chat assistant

This project models, in Dafny, the conversation-state core of a small web chat application that
talks to a hosted completion backend (`app.py`). It covers three things:

- **Request construction** (`get_llm_response`): from the system prompt, the stored chat history
  and the new user input, one ordered message list is built by appending in a loop. It holds one
  System message, then a User/Assistant pair per stored turn in history order, then the new User
  message.
- **Failure containment**: a successful call yields the first choice's text. Every exception
  inside the call, including indexing an empty `choices` list, becomes the string
  `"エラーが発生しました: " + str(e)`. It is returned as a value and is never raised.
- **Session history**: the history in the per-session store is created empty when absent,
  replaced by an empty list on "clear", and grows by exactly one complete `{user, assistant}` turn
  per input. The request for that input is built from the history as it stood before the append.

Modules:

- `Wrappers` (wrappers.dfy): an `Option` datatype.
- `Chat` (chat.dfy): `Role`, `Message`, `Turn`. It also holds the specification function `Build`
  of the request, an index-wise description `IsRequestFor` of a well-formed request, and the
  lemmas relating them.
- `Completion` (completion.dfy): the backend outcome `Reply = Completed(choices) | Raised(cause)`.
  It also holds the mapping `ResponseText` to the assistant text, and `DiagnosticCause`, which
  reads a cause back out of a diagnostic string.
- `App` (app.dfy): the loop method `BuildMessages` and the method `GetLlmResponse`. It also holds
  the class `SessionState`, whose field `chatHistory` is the per-session history, absent until
  first initialised. Its methods are `InitChatHistory`, `ClearChatHistory`, `SendMessage` and
  `RunScript`; `RunScript` is one pass of `main` as far as the history is concerned. The method
  `Conversation` is a usage example: two exchanges and a clear, as a caller of the session sees them.

The backend is a parameter of type `seq<Message> -> Reply`: one call per request. The client, the
model name and the request options are fixed inside it. The system prompt is a parameter of each
pass, because the application reads it from a text box on every pass. A changed prompt therefore
affects only the next request and never a stored turn.

The model follows the code in three details:

- The code sends only a non-empty input. The walrus test in `main` treats `None` and `""` alike.
- An empty `choices` list is a failure with cause `list index out of range`. That is the text of
  the `IndexError` raised by `choices[0]` inside the `try`.
- Clicking "clear" restarts the script straight after emptying the history. Nothing else happens
  in that pass.

## Model

| member | source | states |
|---|---|---|
| `Chat.HistoryMessages` | app.py:45-47 | the stored turns contribute exactly two messages each |
| `Chat.HistoryMessagesAt` | app.py:45-47 | turn i is sent as a User message with its user text at position 2i, followed by an Assistant message with its reply |
| `Chat.HistoryMessagesRoles` | app.py:45-47 | the history part of a request alternates User, Assistant and holds no System message |
| `Chat.BuildIsRequest` | app.py:42-50 | the built request is well formed: length 2*len(history)+2, the System prompt first, each turn's pair in history order, the new input last |
| `Chat.RequestCharacterization` | app.py:42-50 | a message list is well formed for (prompt, history, input) if and only if it is the built request |
| `Chat.BuildShape` | app.py:42-50 | length 2*len(history)+2, first message System with the prompt and the only System message, last message User with the new input |
| `Chat.BuildExtends` | app.py:42-50 | with the prompt unchanged, the next request is the previous one plus the assistant's reply and the next input |
| `Chat.PromptChangesOnlyHead` | app.py:42 | a different system prompt changes only the first message of the request |
| `Chat.SecondRequest` | app.py:42-50 | after the exchange Hello/Hi under prompt P, the request for "How are you?" is System(P), User(Hello), Assistant(Hi), User(How are you?) |
| `Chat.InputSentOnce` | app.py:45-50 | the new input occurs as a User message once more than among the stored user turns, so it is sent exactly once |
| `Chat.SnapshotAfterAppendDuplicates` | app.py:127-136 | building from the history after the append would send the input one extra time; the snapshot taken before it avoids that |
| `Completion.DiagnosticCause` | app.py:62 | a text has a cause read back exactly when it starts with the error marker, and is then the marker followed by that cause |
| `Completion.DiagnosticRoundTrip` | app.py:62 | the cause is recovered from the diagnostic built from it |
| `Completion.ResponseText` | app.py:52-62 | success gives the first choice's text; every failure, including no choices, gives a longer diagnostic that carries its cause; the mapping is total |
| `Completion.FailuresDistinguished` | app.py:61-62 | two failures give the same text if and only if they have the same cause |
| `Completion.DiagnosticMarksFailure` | app.py:59-62 | when the answer does not itself start with the marker, the text carries a cause if and only if the call failed |
| `App.BuildMessages` | app.py:42-50 | the loop produces exactly the specified request, which is well formed, and only reads the history |
| `App.GetLlmResponse` | app.py:38-62 | the result is the assistant text for the backend's reply to the request built from the given history |
| `App.SessionState.constructor` | app.py:103 | a new session has no history yet |
| `App.SessionState.InitChatHistory` | app.py:103-104 | an absent history becomes empty; an existing one is left unchanged, so repeating it changes nothing |
| `App.SessionState.ClearChatHistory` | app.py:93-94 | the history becomes empty whatever it held |
| `App.SessionState.SendMessage` | app.py:127-136 | the request uses the history before the call; exactly one turn {input, response} is appended, earlier turns are unchanged and the length grows by one, on failure too |
| `App.SessionState.RunScript` | app.py:93-136 | one pass: clear ends the pass with an empty history; otherwise the history is initialised and a non-empty input appends its one turn |

## Left out

- Rendering and widgets (page configuration, title, sidebar, chat bubbles, spinner, captions, the history display loop) are user interface, not state.
- The `st.rerun()` calls are modelled only by ending the pass after a clear. Re-rendering after a send has no effect on the history.
- Loading the environment and building the client (`init_azure_client`) are I/O and a foreign SDK. A missing endpoint, model name or key stops start-up before any session work (app.py:25-27).
- The backend call is not modelled. It is an opaque network call, seen only through its `Reply`.
- The request options `max_tokens=4096` and `temperature=0.7`, and the model name, are fixed inside the backend parameter. They are opaque to the session.
- The exact `str(e)` text of each exception type is an arbitrary cause string. The only exception is the empty-choices `IndexError`.
- Completion.ResponseText: a successful choice whose content is `None` is not modelled, because texts are strings here.
- The default system prompt text (app.py:73-75) is a text-box default. It enters the model as the prompt parameter.
