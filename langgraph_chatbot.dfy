/** The chatbot session around the workflow graph: it keeps the conversation state between turns,
    adds each user message to it, runs the graph, and answers with the last agent message. The
    compiled graph is a parameter; a run that raises is an `Err` carrying the exception's text. */
module LangGraphChatbot {
  import opened Wrappers
  import opened Strings
  import opened Messages
  import opened WorkflowState
  import opened AgentAvatars

  const NoReply: string := "I'm not sure how to respond to that."
  const ErrorPrefix: string := "Sorry, I encountered an error: "
  const ClearedReply: string := "Conversation history cleared."
  const NoMessagesSummary: string := "Conversation: No messages yet"

  /** The content of the last agent message, if there is one. */
  function LastAIReply(ms: seq<Message>): Option<string>
    decreases |ms|
  {
    if ms == [] then None
    else if ms[|ms| - 1].AIMessage? then Some(ms[|ms| - 1].content)
    else LastAIReply(ms[..|ms| - 1])
  }

  /** There is a reply exactly when there is an agent message. */
  lemma {:induction false} NoReplyWithoutAI(ms: seq<Message>)
    ensures LastAIReply(ms).None? <==> forall i :: 0 <= i < |ms| ==> !ms[i].AIMessage?
    decreases |ms|
  {
    if ms != [] {
      var init := ms[..|ms| - 1];
      NoReplyWithoutAI(init);
      assert forall i :: 0 <= i < |init| ==> init[i] == ms[i];
    }
  }

  /** The reply is the content of the agent message that comes after every other. */
  lemma ReplyIsLastAI(ms: seq<Message>)
    requires LastAIReply(ms).Some?
    ensures exists i :: 0 <= i < |ms| && ms[i] == AIMessage(LastAIReply(ms).value)
                        && forall j :: i < j < |ms| ==> !ms[j].AIMessage?
  {
    var i := LastAIIndex(ms);
  }

  /** The position of the agent message the reply comes from. */
  lemma {:induction false} LastAIIndex(ms: seq<Message>) returns (i: nat)
    requires LastAIReply(ms).Some?
    ensures i < |ms| && ms[i] == AIMessage(LastAIReply(ms).value)
    ensures forall j :: i < j < |ms| ==> !ms[j].AIMessage?
    decreases |ms|
  {
    var last := |ms| - 1;
    if ms[last].AIMessage? {
      i := last;
    } else {
      var init := ms[..last];
      assert LastAIReply(ms) == LastAIReply(init);
      i := LastAIIndex(init);
      assert ms[i] == init[i];
      assert forall j :: i < j < last ==> ms[j] == init[j];
    }
  }

  /** The answer to a turn: the last agent message, or the fixed text when there is none. */
  function ReplyOf(ms: seq<Message>): string {
    LastAIReply(ms).GetOr(NoReply)
  }

  /** "Conversation: n messages (n // 2 exchanges)", or the fixed text for no messages. */
  function SummaryText(n: nat): (s: string)
    ensures n == 0 ==> s == NoMessagesSummary
    ensures n > 0 ==> s == "Conversation: " + NatToString(n) + " messages (" + NatToString(n / 2) + " exchanges)"
  {
    if n > 0 then "Conversation: " + NatToString(n) + " messages (" + NatToString(n / 2) + " exchanges)"
    else NoMessagesSummary
  }

  /** The state with the user's message added after the others, everything else as it was. */
  function WithUserMessage(s: State, userMessage: string): (t: State)
    ensures t.messages == s.messages + [HumanMessage(userMessage)]
  {
    s.(messages := s.messages + [HumanMessage(userMessage)])
  }

  /** The history the chat interface shows: the user and agent messages, in order. */
  method RebuildMemory(ms: seq<Message>) returns (rebuilt: seq<Message>)
    ensures rebuilt == Conversation(ms)
  {
    rebuilt := [];
    for i := 0 to |ms|
      invariant rebuilt == Conversation(ms[..i])
    {
      ConversationSnoc(ms[..i], ms[i]);
      assert ms[..i + 1] == ms[..i] + [ms[i]];
      if !ms[i].SystemMessage? {
        rebuilt := rebuilt + [ms[i]];
      }
    }
    assert ms[..|ms|] == ms;
  }

  /** The reverse search of `chat` for the last agent message. */
  method LatestReply(ms: seq<Message>) returns (reply: string)
    ensures reply == ReplyOf(ms)
  {
    var i := |ms|;
    assert ms[..i] == ms;
    while i > 0
      invariant 0 <= i <= |ms|
      invariant LastAIReply(ms) == LastAIReply(ms[..i])
    {
      if ms[i - 1].AIMessage? {
        assert LastAIReply(ms[..i]) == Some(ms[i - 1].content);
        return ms[i - 1].content;
      }
      assert ms[..i][..i - 1] == ms[..i - 1];
      i := i - 1;
    }
    reply := NoReply;
  }

  /** `LangGraphChatbot`: the session's user, its graph, the conversation state and the message
      history mirrored for the chat interface. */
  class Chatbot {
    const userId: string
    const sessionId: string
    const graph: State -> Result<State, string>
    var state: State
    var memory: seq<Message>

    /** A new session: no messages, the user's id, every flag false, every optional value absent. */
    constructor(userId: string, sessionId: string, graph: State -> Result<State, string>)
      ensures this.userId == userId && this.sessionId == sessionId && this.graph == graph
      ensures state == DefaultState([], userId) && memory == []
    {
      this.userId := userId;
      this.sessionId := sessionId;
      this.graph := graph;
      state := DefaultState([], userId);
      memory := [];
    }

    /** `chat`: the user's message is added to the state and to the history, then the graph runs
        on that state. When it succeeds, its result becomes the state, the history is rebuilt from
        the result's user and agent messages, and the reply is the last agent message. When it
        raises, the state keeps the added message and the reply reports the error. */
    method Chat(userMessage: string) returns (reply: string)
      modifies this
      ensures var sent := WithUserMessage(old(state), userMessage);
              var result := graph(sent);
              && (result.Ok? ==> state == result.value && memory == Conversation(result.value.messages)
                                 && reply == ReplyOf(result.value.messages))
              && (result.Err? ==> state == sent && memory == old(memory) + [HumanMessage(userMessage)]
                                  && reply == ErrorPrefix + result.error)
    {
      var sent := WithUserMessage(state, userMessage);
      state := sent;
      memory := memory + [HumanMessage(userMessage)];
      var result := graph(sent);
      if result.Err? {
        return ErrorPrefix + result.error;
      }
      state := result.value;
      memory := RebuildMemory(result.value.messages);
      reply := LatestReply(result.value.messages);
    }

    /** `clear_conversation`: the state a new session starts with, for the same user. The message
        history is left as it is. */
    method ClearConversation() returns (reply: string)
      modifies this
      ensures state == DefaultState([], userId) && memory == old(memory)
      ensures reply == ClearedReply
    {
      state := DefaultState([], userId);
      reply := ClearedReply;
    }

    /** `get_conversation_summary` */
    function Summary(): (s: string)
      reads this
      ensures s == SummaryText(|state.messages|)
    {
      SummaryText(|state.messages|)
    }

    /** `get_last_intent`: the key is always present, so its value is returned, absent or not. */
    function LastIntent(): (intent: Option<string>)
      reads this
      ensures intent == state.currentIntent
    {
      state.currentIntent
    }

    /** `get_current_avatar`: the stored avatar when it is a non-empty text, the system's avatar
        otherwise. */
    function CurrentAvatar(): (a: string)
      reads this
      ensures state.currentAgentAvatar.Some? && state.currentAgentAvatar.value != "" ==>
                a == state.currentAgentAvatar.value
      ensures !(state.currentAgentAvatar.Some? && state.currentAgentAvatar.value != "") ==> a == RobotAvatar
    {
      assert Lower("system") == "system";
      if state.currentAgentAvatar.Some? && state.currentAgentAvatar.value != "" then state.currentAgentAvatar.value
      else AgentAvatar("system")
    }
  }

  /** Clearing twice is clearing once. */
  method ClearTwice(bot: Chatbot) returns (first: string, second: string)
    modifies bot
    ensures bot.state == DefaultState([], bot.userId) && first == second == ClearedReply
    ensures bot.memory == old(bot.memory)
  {
    first := bot.ClearConversation();
    var afterFirst := bot.state;
    second := bot.ClearConversation();
    assert bot.state == afterFirst;
  }

  /** A cleared session reports no messages. */
  lemma ClearedSummary(userId: string)
    ensures SummaryText(|DefaultState([], userId).messages|) == NoMessagesSummary
  {
  }

  /** Each message counted as half an exchange: the summary of an even number of messages counts
      exactly half as many exchanges, and one more message adds no exchange. */
  lemma SummaryExchanges(k: nat)
    requires k > 0
    ensures SummaryText(2 * k) == "Conversation: " + NatToString(2 * k) + " messages (" + NatToString(k) + " exchanges)"
    ensures SummaryText(2 * k + 1) == "Conversation: " + NatToString(2 * k + 1) + " messages (" + NatToString(k) + " exchanges)"
  {
    assert (2 * k) / 2 == k && (2 * k + 1) / 2 == k;
  }
}
