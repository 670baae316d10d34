/** The chat messages exchanged between the student and the agents. */
module Messages {
  /** A message with its author's role; `SystemMessage` stands for every other message class. */
  datatype Message = HumanMessage(content: string) | AIMessage(content: string) | SystemMessage(content: string)

  /** The messages written by the student or by an agent, in order. */
  function Conversation(ms: seq<Message>): (r: seq<Message>)
    ensures |r| <= |ms|
    ensures forall i :: 0 <= i < |r| ==> !r[i].SystemMessage?
    ensures forall i :: 0 <= i < |ms| && !ms[i].SystemMessage? ==> ms[i] in r
  {
    if |ms| == 0 then []
    else (if ms[0].SystemMessage? then [] else [ms[0]]) + Conversation(ms[1..])
  }

  /** The conversation of one more message: that message is added unless it is a system message. */
  lemma {:induction false} ConversationSnoc(ms: seq<Message>, m: Message)
    ensures Conversation(ms + [m]) == Conversation(ms) + (if m.SystemMessage? then [] else [m])
    decreases |ms|
  {
    if ms != [] {
      ConversationSnoc(ms[1..], m);
      assert (ms + [m])[1..] == ms[1..] + [m];
    } else {
      assert [m][1..] == [];
    }
  }
}
