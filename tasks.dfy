/** The task view (eagle-task/src/components/Tasks.jsx): a task list refreshed
    from the backend and a task chat whose pending reply is shown as a
    placeholder entry. Each awaited request is split at its `await` into a
    Begin and a Finish step; the request's result is the Finish step's
    `outcome` parameter. */
module Tasks {
  import opened Text
  import opened Outcomes
  import opened Chat
  import opened TaskLines

  /** Shown in the list while a refresh is in flight. */
  const RefreshingText := "LoadingPage..."
  const RefreshFailedText := "Failed to load tasks. Please try again."
  const SendFailedText := "Sorry, something went wrong. Please try again."

  /** The entry that replaces the pending placeholders once a send resolves:
      the bot's response, or the apology text. It is never pending. */
  function ReplyFor(outcome: Outcome<string>): (m: Message)
    ensures m.sender == Bot && !m.isLoading
    ensures outcome.Success? ==> m.text == outcome.payload
    ensures outcome.Failure? ==> m.text == SendFailedText
  {
    match outcome
    case Success(response) => BotMessage(response)
    case Failure => BotMessage(SendFailedText)
  }

  /** The task list a resolved refresh leaves: the parsed lines, or the single
      failure entry (earlier tasks are not kept). */
  function RefreshedList(outcome: Outcome<string>): (r: seq<string>)
    ensures outcome.Failure? ==> r == [RefreshFailedText]
    ensures outcome.Success? ==> forall i | 0 <= i < |r| :: r[i] != "" && Trim(r[i]) == r[i]
    ensures outcome.Success? ==> ParseTaskList(Join(r, '\n')) == r
  {
    match outcome
    case Success(response) =>
      ParseIdempotent(response);
      ParseTaskList(response)
    case Failure => [RefreshFailedText]
  }

  class TasksView {
    var messages: seq<Message>
    var taskList: seq<string>
    var input: string
    var loadingResponse: bool
    var loadingTasks: bool

    /** Once no send is in flight, no placeholder is left in the transcript. */
    ghost predicate Valid()
      reads this
    {
      loadingResponse || NonePending(messages)
    }

    constructor()
      ensures Valid()
      ensures messages == [] && taskList == [] && input == ""
      ensures !loadingResponse && !loadingTasks
    {
      messages, taskList, input := [], [], "";
      loadingResponse, loadingTasks := false, false;
    }

    /** The input box's `onChange`. */
    method OnInputChange(text: string)
      requires Valid()
      modifies this
      ensures Valid()
      ensures input == text
      ensures messages == old(messages) && taskList == old(taskList)
      ensures loadingResponse == old(loadingResponse) && loadingTasks == old(loadingTasks)
    {
      input := text;
    }

    /** `refreshTasks` up to its `await`: the list is replaced by the loading entry. */
    method BeginRefresh()
      requires Valid()
      modifies this
      ensures Valid()
      ensures loadingTasks && taskList == [RefreshingText]
      ensures messages == old(messages) && input == old(input) && loadingResponse == old(loadingResponse)
    {
      loadingTasks := true;
      taskList := [RefreshingText];
    }

    /** `refreshTasks` after its `await`: the list is wholly replaced and
        `loadingTasks` is cleared in the `finally`. */
    method FinishRefresh(outcome: Outcome<string>)
      requires Valid()
      modifies this
      ensures Valid()
      ensures taskList == RefreshedList(outcome)
      ensures outcome.Success? ==> taskList == ParseTaskList(outcome.payload)
      ensures !loadingTasks
      ensures messages == old(messages) && input == old(input) && loadingResponse == old(loadingResponse)
    {
      match outcome {
        case Success(response) => taskList := ParseTaskList(response);
        case Failure => taskList := [RefreshFailedText];
      }
      loadingTasks := false;
    }

    /** `refreshTasks` with no other event between its two halves. */
    method RefreshTasks(outcome: Outcome<string>)
      requires Valid()
      modifies this
      ensures Valid()
      ensures taskList == RefreshedList(outcome) && !loadingTasks
      ensures messages == old(messages) && input == old(input) && loadingResponse == old(loadingResponse)
    {
      BeginRefresh();
      FinishRefresh(outcome);
    }

    /** `sendMessage(message)` up to its `await`. A blank message returns
        before any state change; otherwise the user entry and then a pending
        "Loading..." entry are appended and the input is cleared. */
    method BeginSend(message: string) returns (sent: bool)
      requires Valid()
      modifies this
      ensures Valid()
      ensures sent == !IsBlank(message)
      ensures !sent ==> messages == old(messages) && input == old(input) && loadingResponse == old(loadingResponse)
      ensures sent ==> messages == old(messages) + [UserMessage(message), LoadingMessage]
      ensures sent ==> input == "" && loadingResponse
      ensures taskList == old(taskList) && loadingTasks == old(loadingTasks)
    {
      if IsBlank(message) {
        return false;
      }
      messages := messages + [UserMessage(message), LoadingMessage];
      input := "";
      loadingResponse := true;
      sent := true;
    }

    /** `sendMessage` after its `await`: every pending entry, not only the one
        this send inserted, becomes the reply; `loadingResponse` is cleared. */
    method FinishSend(outcome: Outcome<string>)
      requires Valid()
      modifies this
      ensures Valid()
      ensures messages == ReplaceLoading(old(messages), ReplyFor(outcome))
      ensures NonePending(messages) && !loadingResponse
      ensures taskList == old(taskList) && input == old(input) && loadingTasks == old(loadingTasks)
    {
      messages := ReplaceLoading(messages, ReplyFor(outcome));
      loadingResponse := false;
    }

    /** `sendMessage(message)` with no other event between its two halves:
        with nothing pending before, exactly the user entry and the reply are
        appended. */
    method SendMessage(message: string, outcome: Outcome<string>) returns (sent: bool)
      requires Valid()
      modifies this
      ensures Valid()
      ensures sent == !IsBlank(message)
      ensures !sent ==> messages == old(messages) && input == old(input) && loadingResponse == old(loadingResponse)
      ensures sent ==> messages == ReplaceLoading(old(messages) + [UserMessage(message), LoadingMessage], ReplyFor(outcome))
      ensures sent && NonePending(old(messages)) ==> messages == old(messages) + [UserMessage(message), ReplyFor(outcome)]
      ensures sent ==> input == "" && !loadingResponse
      ensures taskList == old(taskList) && loadingTasks == old(loadingTasks)
    {
      sent := BeginSend(message);
      if sent {
        FinishSend(outcome);
        assert NonePending(old(messages)) ==> messages == old(messages) + [UserMessage(message), ReplyFor(outcome)] by {
          if NonePending(old(messages)) {
            assert forall i | 0 <= i < |old(messages)| :: messages[i] == old(messages)[i];
          }
        }
      }
    }

    /** `clearMessages`. */
    method ClearMessages()
      requires Valid()
      modifies this
      ensures Valid()
      ensures messages == []
      ensures taskList == old(taskList) && input == old(input)
      ensures loadingResponse == old(loadingResponse) && loadingTasks == old(loadingTasks)
    {
      messages := [];
    }
  }
}
