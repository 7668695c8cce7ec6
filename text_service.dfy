/** The text chat: a chain of a system prompt, the session's history and the
    new input, wrapped so that each session's `ChatMessageHistory` is created
    on first use and records every completed turn. */
module TextService {
  import opened Base
  import opened Documents

  const SystemText: string := "You are a helpful assistant."

  /** A `ChatMessageHistory`: one object per session, updated in place. */
  class ChatHistory {
    var messages: seq<Message>

    constructor()
      ensures messages == []
    {
      messages := [];
    }
  }

  /** The prompt the chain sends: the system message, the history, the
      input. */
  function ChainPrompt(history: seq<Message>, userInput: string): Prompt
  {
    ChatPrompt([Message(System, SystemText)] + history + [Message(Human, userInput)])
  }

  /** The system message always comes first and the input last, with the
      whole history in between and in order. */
  lemma ChainPromptSpec(history: seq<Message>, userInput: string)
    ensures var ms := ChainPrompt(history, userInput).messages;
      && |ms| == |history| + 2
      && ms[0] == Message(System, SystemText)
      && ms[|ms| - 1] == Message(Human, userInput)
      && ms[1..|ms| - 1] == history
  {
    var ms := ChainPrompt(history, userInput).messages;
    assert ms[1..|ms| - 1] == history;
  }

  class SessionStore {
    const llm: Llm
    /** `session_histories` */
    var histories: map<string, ChatHistory>

    /** Distinct sessions never share a history object. */
    ghost predicate Valid()
      reads this
    {
      forall a, b :: a in histories && b in histories && a != b ==> histories[a] != histories[b]
    }

    constructor(llm: Llm)
      ensures Valid() && this.llm == llm && histories == map[]
    {
      this.llm := llm;
      histories := map[];
    }

    /** `get_session_history`: the stored history of a known session, or a
        new empty one that is stored under the id. The store only grows. */
    method GetSessionHistory(sessionId: string) returns (h: ChatHistory)
      requires Valid()
      modifies this
      ensures Valid()
      ensures sessionId in old(histories) ==> h == old(histories)[sessionId] && histories == old(histories)
      ensures sessionId !in old(histories) ==> fresh(h) && h.messages == [] && histories == old(histories)[sessionId := h]
      ensures sessionId in histories && histories[sessionId] == h
    {
      if sessionId !in histories {
        var created := new ChatHistory();
        histories := histories[sessionId := created];
      }
      h := histories[sessionId];
    }

    /** `ask_text_model`: the reply's content, unstripped. The session's
        history is fetched (and created if new) before the model is called;
        a completed turn appends the input and the reply to it, and a
        failing call propagates and records nothing. No other session's
        messages change. */
    method AskTextModel(userInput: string, sessionId: string := "default") returns (r: Result<string>)
      requires Valid()
      modifies this, histories.Values
      ensures Valid()
      ensures sessionId in histories
      ensures histories.Keys == old(histories.Keys) + {sessionId}
      ensures forall id :: id in old(histories) ==> histories[id] == old(histories)[id]
      ensures forall id :: id in old(histories) && id != sessionId ==> histories[id].messages == old(histories[id].messages)
      ensures var history := if sessionId in old(histories) then old(histories[sessionId].messages) else [];
        match llm(ChainPrompt(history, userInput))
        case Failure => r == Err(Raised("llm")) && histories[sessionId].messages == history
        case Content(c) => r == Ok(c) && histories[sessionId].messages == history + [Message(Human, userInput), Message(Ai, c)]
    {
      var h := GetSessionHistory(sessionId);
      var response := llm(ChainPrompt(h.messages, userInput));
      if response.Failure? {
        return Err(Raised("llm"));
      }
      h.messages := h.messages + [Message(Human, userInput), Message(Ai, response.content)];
      r := Ok(response.content);
    }
  }
}
