/** The Gemini chat with one conversation memory per session: each question
    is sent after the session's earlier turns, and the turn is remembered
    once the model has answered. */
module ChatMemory {
  import opened Base
  import opened Text
  import opened Documents

  /** A stored LangChain message: its `type` and its `content`. */
  datatype ChatMessage = ChatMessage(kind: string, content: string)

  /** The dict a stored message becomes: `"human"` stays a human message,
      every other type is sent as the AI's. */
  function ToInput(m: ChatMessage): Message
  {
    if m.kind == "human" then Message(Human, m.content) else Message(Ai, m.content)
  }

  /** `input_history` before the new question. */
  function Converted(history: seq<ChatMessage>): (r: seq<Message>)
    ensures |r| == |history|
  {
    seq(|history|, i requires 0 <= i < |history| => ToInput(history[i]))
  }

  /** The conversion keeps order and content, and a message is human
      exactly when it was stored as `"human"`. */
  lemma ConvertedSpec(history: seq<ChatMessage>)
    ensures forall i :: 0 <= i < |history| ==> Converted(history)[i].content == history[i].content
    ensures forall i :: 0 <= i < |history| ==>
      (Converted(history)[i].role == Human <==> history[i].kind == "human")
      && (Converted(history)[i].role == Human || Converted(history)[i].role == Ai)
  {
  }

  /** Converting a longer history converts its parts. */
  lemma {:induction false} ConvertedAppend(a: seq<ChatMessage>, b: seq<ChatMessage>)
    ensures Converted(a + b) == Converted(a) + Converted(b)
  {
    var l, r := Converted(a + b), Converted(a) + Converted(b);
    assert |l| == |r|;
    forall i | 0 <= i < |l| ensures l[i] == r[i] {
      if i < |a| {
        assert (a + b)[i] == a[i];
      } else {
        assert (a + b)[i] == b[i - |a|];
      }
    }
  }

  /** The session's remembered messages; a new session starts empty. */
  function History(sessions: map<string, seq<ChatMessage>>, sessionId: string): seq<ChatMessage>
  {
    if sessionId in sessions then sessions[sessionId] else []
  }

  /** What the model is sent: the converted history and then the question. */
  function AskPrompt(history: seq<ChatMessage>, userInput: string): Prompt
  {
    ChatPrompt(Converted(history) + [Message(Human, userInput)])
  }

  /** One `ask_text_model` call: the sessions afterwards and the answer, or
      the model's exception. The session exists afterwards either way. */
  function Asked(sessions: map<string, seq<ChatMessage>>, llm: Llm, userInput: string, sessionId: string)
    : (map<string, seq<ChatMessage>>, Result<string>)
  {
    var history := History(sessions, sessionId);
    match llm(AskPrompt(history, userInput))
    case Failure => (sessions[sessionId := history], Err(Raised("llm")))
    case Content(c) =>
      var aiText := Strip(c);
      (sessions[sessionId := history + [ChatMessage("human", userInput), ChatMessage("ai", aiText)]], Ok(aiText))
  }

  /** The session exists afterwards and no other session changes. On
      success the session gains exactly the question and then the answer
      returned; on failure its messages are unchanged, though a new session
      is created. */
  lemma AskedSpec(sessions: map<string, seq<ChatMessage>>, llm: Llm, userInput: string, sessionId: string)
    ensures var (after, r) := Asked(sessions, llm, userInput, sessionId);
      var history := History(sessions, sessionId);
      && after.Keys == sessions.Keys + {sessionId}
      && (forall other :: other in sessions && other != sessionId ==> after[other] == sessions[other])
      && (r.Ok? ==> after[sessionId] == history + [ChatMessage("human", userInput), ChatMessage("ai", r.value)])
      && (r.Err? ==> after[sessionId] == history)
      && (r.Ok? <==> llm(AskPrompt(history, userInput)).Content?)
  {
  }

  /** Two successful turns in a session: the second is sent everything the
      first was sent, then the first answer, then the new question. */
  lemma SecondTurnReplaysFirst(sessions: map<string, seq<ChatMessage>>, llm: Llm, first: string, second: string, sessionId: string)
    requires Asked(sessions, llm, first, sessionId).1.Ok?
    ensures var (after, r) := Asked(sessions, llm, first, sessionId);
      AskPrompt(History(after, sessionId), second).messages
        == AskPrompt(History(sessions, sessionId), first).messages + [Message(Ai, r.value), Message(Human, second)]
  {
    var (after, r) := Asked(sessions, llm, first, sessionId);
    var history := History(sessions, sessionId);
    var turn := [ChatMessage("human", first), ChatMessage("ai", r.value)];
    assert History(after, sessionId) == history + turn;
    ConvertedAppend(history, turn);
    assert Converted(turn) == [Message(Human, first), Message(Ai, r.value)];
  }

  lemma UpdateTwice<K, V>(m: map<K, V>, k: K, a: V, b: V)
    ensures m[k := a][k := b] == m[k := b]
  {
  }

  lemma UpdateSame<K, V>(m: map<K, V>, k: K)
    requires k in m
    ensures m[k := m[k]] == m
  {
  }

  class SessionMemories {
    const llm: Llm
    /** `session_memories`, each memory as its chat messages. */
    var sessions: map<string, seq<ChatMessage>>

    constructor(llm: Llm)
      ensures this.llm == llm && sessions == map[]
    {
      this.llm := llm;
      sessions := map[];
    }

    /** `ask_text_model` */
    method AskTextModel(userInput: string, sessionId: string := "default") returns (r: Result<string>)
      modifies this
      ensures (sessions, r) == Asked(old(sessions), llm, userInput, sessionId)
    {
      ghost var before := sessions;
      if sessionId !in sessions {
        sessions := sessions[sessionId := []];
      } else {
        UpdateSame(sessions, sessionId);
      }
      var history := sessions[sessionId];
      assert history == History(before, sessionId);
      assert sessions == before[sessionId := history];
      var inputHistory := Converted(history) + [Message(Human, userInput)];
      var response := llm(ChatPrompt(inputHistory));
      if response.Failure? {
        return Err(Raised("llm"));
      }
      var aiText := Strip(response.content);
      var memory := history + [ChatMessage("human", userInput)];
      memory := memory + [ChatMessage("ai", aiText)];
      assert memory == history + [ChatMessage("human", userInput), ChatMessage("ai", aiText)];
      sessions := sessions[sessionId := memory];
      UpdateTwice(before, sessionId, history, memory);
      r := Ok(aiText);
    }
  }
}
