/** The support view (eagle-task/src/components/Support.jsx): a chat answered
    by a fixed local template, and five resource cards that send their name. */
module Support {
  import opened Text
  import opened Chat

  /** The names of the resource cards, in display order. */
  const ResourceNames: seq<string> := [
    "Counseling Services",
    "Academic Advising",
    "Health Services",
    "Disability Services",
    "Career Center"
  ]

  const ReplyLead := "You asked about: **"
  const ReplyTail := "**. Here is some information:\n\n*Please visit the official site for more details.*"

  /** The mock reply: the message set in bold between a fixed lead and tail. */
  function BotReply(message: string): (r: string)
    ensures |r| == |ReplyLead| + |message| + |ReplyTail|
    ensures r[..|ReplyLead|] == ReplyLead
    ensures r[|ReplyLead|..|ReplyLead| + |message|] == message
    ensures r[|ReplyLead| + |message|..] == ReplyTail
  {
    ReplyLead + message + ReplyTail
  }

  /** The message can be read back out of the reply, so different messages get different replies. */
  lemma BotReplyInjective(m1: string, m2: string)
    requires BotReply(m1) == BotReply(m2)
    ensures m1 == m2
  {
    assert |m1| == |m2|;
    assert m1 == BotReply(m1)[|ReplyLead|..|ReplyLead| + |m1|];
  }

  /** Every resource name is non-blank, so a card click always sends. */
  lemma ResourceNamesNotBlank()
    ensures |ResourceNames| == 5
    ensures forall i | 0 <= i < |ResourceNames| :: !IsBlank(ResourceNames[i])
  {
    forall i | 0 <= i < |ResourceNames| ensures !IsBlank(ResourceNames[i]) {
      var name := ResourceNames[i];
      assert !IsSpace(name[0]);
    }
  }

  class SupportView {
    var messages: seq<Message>
    var input: string

    constructor()
      ensures messages == [] && input == ""
    {
      messages, input := [], "";
    }

    method OnInputChange(text: string)
      modifies this
      ensures input == text && messages == old(messages)
    {
      input := text;
    }

    /** `sendMessage(message)`: a blank message is ignored; otherwise the user
        entry and then the templated bot entry are appended and the input is
        cleared. */
    method SendMessage(message: string) returns (sent: bool)
      modifies this
      ensures sent == !IsBlank(message)
      ensures !sent ==> messages == old(messages) && input == old(input)
      ensures sent ==> messages == old(messages) + [UserMessage(message), BotMessage(BotReply(message))]
      ensures sent ==> input == ""
    {
      if IsBlank(message) {
        return false;
      }
      messages := messages + [UserMessage(message)];
      messages := messages + [BotMessage(BotReply(message))];
      input := "";
      sent := true;
    }

    /** A click on resource card `index` sends that resource's name. */
    method ClickResource(index: nat)
      requires index < |ResourceNames|
      modifies this
      ensures messages == old(messages) + [UserMessage(ResourceNames[index]), BotMessage(BotReply(ResourceNames[index]))]
      ensures input == ""
    {
      ResourceNamesNotBlank();
      var sent := SendMessage(ResourceNames[index]);
    }
  }
}
