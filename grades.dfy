/** The grades view (eagle-task/src/components/Grades.jsx): the stored course
    list with per-course dropdowns, and a chat whose messages are sent to the
    grade-analysis endpoint. The endpoint's result is the `outcome` parameter. */
module Grades {
  import opened Text
  import opened Outcomes
  import opened Chat
  import opened Courses
  import Storage

  /** The user entry a send appends: none for a blank message. */
  function UserEntry(message: string): seq<Message> {
    if IsBlank(message) then [] else [UserMessage(message)]
  }

  /** The bot entry a resolved request appends: none after a failure. */
  function ReplyEntry(outcome: Outcome<string>): seq<Message> {
    if outcome.Success? then [BotMessage(outcome.payload)] else []
  }

  class GradesView {
    var courses: seq<Course>
    var messages: seq<Message>
    var input: string

    /** First render plus the mount effect, which reads the stored course
        list; `parse` stands for `JSON.parse`. */
    constructor(store: Storage.LocalStorage, parse: string -> seq<Course>)
      ensures courses == LoadOnMount(store.GetItem(Storage.GradesKey), parse)
      ensures !Storage.Truthy(store.GetItem(Storage.GradesKey)) ==> courses == []
      ensures messages == [] && input == ""
    {
      courses := LoadOnMount(store.GetItem(Storage.GradesKey), parse);
      messages, input := [], "";
    }

    method OnInputChange(text: string)
      modifies this
      ensures input == text && courses == old(courses) && messages == old(messages)
    {
      input := text;
    }

    /** `toggleDropdown(index)` */
    method ToggleDropdown(index: int)
      modifies this
      ensures courses == Courses.ToggleDropdown(old(courses), index)
      ensures messages == old(messages) && input == old(input)
    {
      courses := Courses.ToggleDropdown(courses, index);
    }

    /** `sendMessage(message)` up to its `await`: a blank message returns
        before any state change; otherwise the user entry is appended. The
        input is left as it is until the request has resolved. */
    method BeginSend(message: string) returns (sent: bool)
      modifies this
      ensures sent == !IsBlank(message)
      ensures !sent ==> messages == old(messages)
      ensures sent ==> messages == old(messages) + [UserMessage(message)]
      ensures courses == old(courses) && input == old(input)
    {
      if IsBlank(message) {
        return false;
      }
      messages := messages + [UserMessage(message)];
      sent := true;
    }

    /** `sendMessage` after its `await`: the bot entry is appended to the
        transcript as it is by then, only if the request succeeded, and the
        input is cleared either way, wiping whatever was typed meanwhile. */
    method FinishSend(outcome: Outcome<string>)
      modifies this
      ensures outcome.Success? ==> messages == old(messages) + [BotMessage(outcome.payload)]
      ensures outcome.Failure? ==> messages == old(messages)
      ensures input == "" && courses == old(courses)
    {
      if outcome.Success? {
        messages := messages + [BotMessage(outcome.payload)];
      }
      input := "";
    }

    /** `sendMessage(message)` with no other event between its two halves. */
    method SendMessage(message: string, outcome: Outcome<string>) returns (sent: bool)
      modifies this
      ensures sent == !IsBlank(message)
      ensures !sent ==> messages == old(messages) && input == old(input)
      ensures sent && outcome.Success? ==>
        messages == old(messages) + [UserMessage(message), BotMessage(outcome.payload)]
      ensures sent && outcome.Failure? ==> messages == old(messages) + [UserMessage(message)]
      ensures sent ==> input == ""
      ensures courses == old(courses)
    {
      sent := BeginSend(message);
      if sent {
        FinishSend(outcome);
      }
    }

    /** Two sends whose requests overlap, with text typed in between: both
        user entries come first, then the replies in the order the requests
        resolve (here the second first), and any resolved send wipes the
        typed text. */
    method OverlappingSends(m1: string, m2: string, typed: string, first: Outcome<string>, second: Outcome<string>)
      modifies this
      ensures messages == old(messages) + UserEntry(m1) + UserEntry(m2)
                          + (if IsBlank(m2) then [] else ReplyEntry(second))
                          + (if IsBlank(m1) then [] else ReplyEntry(first))
      ensures input == if IsBlank(m1) && IsBlank(m2) then typed else ""
      ensures courses == old(courses)
    {
      var sent1 := BeginSend(m1);
      OnInputChange(typed);
      var sent2 := BeginSend(m2);
      if sent2 {
        FinishSend(second);
      }
      if sent1 {
        FinishSend(first);
      }
    }
  }
}
