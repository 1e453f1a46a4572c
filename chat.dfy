/** Chat transcript entries shared by the chat views, and the placeholder
    replacement of the task chat (`prevMessages.map(msg => msg.isLoading ? reply : msg)`). */
module Chat {

  datatype Sender = User | Bot

  /** `{ sender, text, isLoading }`; an entry without `isLoading` has it false. */
  datatype Message = Message(sender: Sender, text: string, isLoading: bool)

  function UserMessage(text: string): Message {
    Message(User, text, false)
  }

  function BotMessage(text: string): Message {
    Message(Bot, text, false)
  }

  const LoadingText := "Loading..."

  /** The pending entry inserted at send time. */
  const LoadingMessage := Message(Bot, LoadingText, true)

  /** Replaces EVERY pending entry by `reply`; all other entries keep their
      value and position. */
  function ReplaceLoading(msgs: seq<Message>, reply: Message): (r: seq<Message>)
    ensures |r| == |msgs|
    ensures forall i | 0 <= i < |msgs| && msgs[i].isLoading :: r[i] == reply
    ensures forall i | 0 <= i < |msgs| && !msgs[i].isLoading :: r[i] == msgs[i]
    ensures !reply.isLoading ==> forall i | 0 <= i < |r| :: !r[i].isLoading
  {
    seq(|msgs|, i requires 0 <= i < |msgs| => if msgs[i].isLoading then reply else msgs[i])
  }

  /** No pending entry left means nothing to replace. */
  predicate NonePending(msgs: seq<Message>) {
    forall i | 0 <= i < |msgs| :: !msgs[i].isLoading
  }

  /** Replacing is idempotent once the reply itself is not pending. */
  lemma ReplaceLoadingIdempotent(msgs: seq<Message>, reply: Message, other: Message)
    requires !reply.isLoading
    ensures ReplaceLoading(ReplaceLoading(msgs, reply), other) == ReplaceLoading(msgs, reply)
  {
  }

  /** Two sends whose replies have not arrived yet: the first reply to arrive
      overwrites BOTH placeholders, and the second reply then finds nothing to
      replace. Transcript position is kept; which reply fills which slot is not. */
  lemma FirstReplyFillsEveryPlaceholder(prior: seq<Message>, m1: string, m2: string, reply1: Message, reply2: Message)
    requires NonePending(prior)
    requires !reply1.isLoading
    ensures var sent := prior + [UserMessage(m1), LoadingMessage] + [UserMessage(m2), LoadingMessage];
            var after1 := ReplaceLoading(sent, reply1);
            && after1 == prior + [UserMessage(m1), reply1, UserMessage(m2), reply1]
            && ReplaceLoading(after1, reply2) == after1
  {
    var sent := prior + [UserMessage(m1), LoadingMessage] + [UserMessage(m2), LoadingMessage];
    var after1 := ReplaceLoading(sent, reply1);
    assert after1 == prior + [UserMessage(m1), reply1, UserMessage(m2), reply1];
  }
}
