/** The conversation data of a chat session and the outbound request built from it.

    A request to the completion backend is one System message carrying the
    current system prompt, then a User/Assistant pair for every stored turn in
    conversational order, then one User message carrying the new input. */
module Chat {

  datatype Role = System | User | Assistant

  /** One role-tagged message of an outbound request. */
  datatype Message = Message(role: Role, content: string)

  /** One completed exchange as stored in the session history: both sides are always present. */
  datatype Turn = Turn(user: string, assistant: string)

  /** The two messages a stored turn contributes to a request, user side first. */
  function TurnMessages(t: Turn): seq<Message>
  {
    [Message(User, t.user), Message(Assistant, t.assistant)]
  }

  /** The messages the stored history contributes, in history order (built by appending, like the loop in `get_llm_response`). */
  function HistoryMessages(history: seq<Turn>): (ms: seq<Message>)
    ensures |ms| == 2 * |history|
  {
    if history == [] then []
    else HistoryMessages(history[..|history| - 1]) + TurnMessages(history[|history| - 1])
  }

  /** The outbound request for `input`, given the system prompt and the history as it stands. */
  function Build(systemPrompt: string, history: seq<Turn>, input: string): seq<Message>
  {
    [Message(System, systemPrompt)] + HistoryMessages(history) + [Message(User, input)]
  }

  /** Position-by-position description of a well-formed request, independent of how it is built. */
  ghost predicate IsRequestFor(systemPrompt: string, history: seq<Turn>, input: string, ms: seq<Message>)
  {
    && |ms| == 2 * |history| + 2
    && ms[0] == Message(System, systemPrompt)
    && (forall i :: 0 <= i < |history| ==>
          ms[2 * i + 1] == Message(User, history[i].user) &&
          ms[2 * i + 2] == Message(Assistant, history[i].assistant))
    && ms[|ms| - 1] == Message(User, input)
  }

  /** Turn i of the history sits at positions 2i (its user text) and 2i+1 (its reply). */
  lemma {:induction false} HistoryMessagesAt(history: seq<Turn>, i: nat)
    requires i < |history|
    ensures HistoryMessages(history)[2 * i] == Message(User, history[i].user)
    ensures HistoryMessages(history)[2 * i + 1] == Message(Assistant, history[i].assistant)
  {
    var n := |history| - 1;
    var front := history[..n];
    assert HistoryMessages(history) == HistoryMessages(front) + TurnMessages(history[n]);
    if i < n {
      HistoryMessagesAt(front, i);
    }
  }

  /** The history part of a request holds no System message: even positions are User, odd ones Assistant. */
  lemma {:induction false} HistoryMessagesRoles(history: seq<Turn>, k: nat)
    requires k < 2 * |history|
    ensures HistoryMessages(history)[k].role == (if k % 2 == 0 then User else Assistant)
  {
    HistoryMessagesAt(history, k / 2);
  }

  /** Build produces a well-formed request. */
  lemma BuildIsRequest(systemPrompt: string, history: seq<Turn>, input: string)
    ensures IsRequestFor(systemPrompt, history, input, Build(systemPrompt, history, input))
  {
    var ms := Build(systemPrompt, history, input);
    forall i | 0 <= i < |history|
      ensures ms[2 * i + 1] == Message(User, history[i].user)
      ensures ms[2 * i + 2] == Message(Assistant, history[i].assistant)
    {
      HistoryMessagesAt(history, i);
    }
  }

  /** A well-formed request is exactly what Build produces, and nothing else is. */
  lemma RequestCharacterization(systemPrompt: string, history: seq<Turn>, input: string, ms: seq<Message>)
    ensures IsRequestFor(systemPrompt, history, input, ms) <==> ms == Build(systemPrompt, history, input)
  {
    var b := Build(systemPrompt, history, input);
    BuildIsRequest(systemPrompt, history, input);
    if IsRequestFor(systemPrompt, history, input, ms) {
      forall k | 0 <= k < |ms|
        ensures ms[k] == b[k]
      {
        if 0 < k < |ms| - 1 {
          var i := (k - 1) / 2;
          assert 0 <= i < |history|;
          if k == 2 * i + 1 {
            assert ms[2 * i + 1] == Message(User, history[i].user) == b[2 * i + 1];
          } else {
            assert ms[2 * i + 2] == Message(Assistant, history[i].assistant) == b[2 * i + 2];
          }
        }
      }
    }
  }

  /** The shape of every request: length 2*|history|+2, the system prompt first and as the only
      System message, the new input last. */
  lemma BuildShape(systemPrompt: string, history: seq<Turn>, input: string)
    ensures var ms := Build(systemPrompt, history, input);
      && |ms| == 2 * |history| + 2
      && ms[0] == Message(System, systemPrompt)
      && ms[|ms| - 1] == Message(User, input)
      && forall k :: 0 < k < |ms| ==> ms[k].role != System
  {
    var ms := Build(systemPrompt, history, input);
    forall k | 0 < k < |ms|
      ensures ms[k].role != System
    {
      if k < |ms| - 1 {
        HistoryMessagesRoles(history, k - 1);
      }
    }
  }

  /** The next request of a conversation extends the previous one by the reply and the next input,
      as long as the system prompt is unchanged. */
  lemma BuildExtends(systemPrompt: string, history: seq<Turn>, input: string, reply: string, next: string)
    ensures Build(systemPrompt, history + [Turn(input, reply)], next)
         == Build(systemPrompt, history, input) + [Message(Assistant, reply), Message(User, next)]
  {
    var h' := history + [Turn(input, reply)];
    assert h'[..|h'| - 1] == history;
  }

  /** Changing the system prompt changes only the first message of the next request. */
  lemma PromptChangesOnlyHead(oldPrompt: string, newPrompt: string, history: seq<Turn>, input: string)
    ensures Build(newPrompt, history, input)[0] == Message(System, newPrompt)
    ensures Build(newPrompt, history, input)[1..] == Build(oldPrompt, history, input)[1..]
  {
  }

  /** A second exchange: after Hello/Hi under prompt P, the request for the next input carries the
      first exchange in full between the system prompt and the new input. */
  lemma SecondRequest()
    ensures Build("P", [Turn("Hello", "Hi")], "How are you?")
         == [Message(System, "P"), Message(User, "Hello"), Message(Assistant, "Hi"), Message(User, "How are you?")]
  {
    assert HistoryMessages([Turn("Hello", "Hi")]) == [Message(User, "Hello"), Message(Assistant, "Hi")];
  }

  /** Number of User messages carrying `text`. */
  function CountUser(ms: seq<Message>, text: string): nat
  {
    if ms == [] then 0
    else (if ms[0] == Message(User, text) then 1 else 0) + CountUser(ms[1..], text)
  }

  /** Number of stored turns whose user side is `text`. */
  function CountTurns(history: seq<Turn>, text: string): nat
  {
    if history == [] then 0
    else CountTurns(history[..|history| - 1], text) + (if history[|history| - 1].user == text then 1 else 0)
  }

  lemma {:induction false} CountUserAppend(a: seq<Message>, b: seq<Message>, text: string)
    ensures CountUser(a + b, text) == CountUser(a, text) + CountUser(b, text)
  {
    if a == [] {
      assert a + b == b;
    } else {
      assert (a + b)[0] == a[0];
      assert (a + b)[1..] == a[1..] + b;
      CountUserAppend(a[1..], b, text);
    }
  }

  lemma {:induction false} CountHistory(history: seq<Turn>, text: string)
    ensures CountUser(HistoryMessages(history), text) == CountTurns(history, text)
  {
    if history != [] {
      var n := |history| - 1;
      CountHistory(history[..n], text);
      CountUserAppend(HistoryMessages(history[..n]), TurnMessages(history[n]), text);
      var t := TurnMessages(history[n]);
      assert t[1..] == [Message(Assistant, history[n].assistant)];
      assert t[1..][1..] == [];
      assert CountUser(t[1..], text) == 0;
      assert CountUser(t, text) == (if history[n].user == text then 1 else 0);
    }
  }

  /** The new input occurs in a request once more than among the stored user turns: it is sent
      exactly once, as the trailing User message. */
  lemma InputSentOnce(systemPrompt: string, history: seq<Turn>, input: string)
    ensures CountUser(Build(systemPrompt, history, input), input) == CountTurns(history, input) + 1
  {
    var sys := [Message(System, systemPrompt)];
    CountUserAppend(sys + HistoryMessages(history), [Message(User, input)], input);
    CountUserAppend(sys, HistoryMessages(history), input);
    CountHistory(history, input);
  }

  /** Had the request been built from the history after the new turn was appended, the input would
      have been sent one extra time; building from the history taken before the append avoids it. */
  lemma SnapshotAfterAppendDuplicates(systemPrompt: string, history: seq<Turn>, input: string, reply: string)
    ensures CountUser(Build(systemPrompt, history + [Turn(input, reply)], input), input)
         == CountUser(Build(systemPrompt, history, input), input) + 1
  {
    var h' := history + [Turn(input, reply)];
    assert h'[..|h'| - 1] == history;
    assert CountTurns(h', input) == CountTurns(history, input) + 1;
    InputSentOnce(systemPrompt, h', input);
    InputSentOnce(systemPrompt, history, input);
  }
}
