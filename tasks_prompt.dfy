/** The earlier task view (eagle-task/src/components/tasks.jsx): the typed
    prompt is posted to /create-tasks; the full response becomes a bot entry and
    its lines become the task list. The request's result is the `outcome`
    parameter. */
module TasksPrompt {
  import opened Text
  import opened Outcomes
  import opened Chat
  import opened TaskLines

  class TasksPromptView {
    var messages: seq<Message>
    var taskList: seq<string>
    var input: string

    constructor()
      ensures messages == [] && taskList == [] && input == ""
    {
      messages, taskList, input := [], [], "";
    }

    method OnInputChange(text: string)
      modifies this
      ensures input == text && messages == old(messages) && taskList == old(taskList)
    {
      input := text;
    }

    /** `sendMessage`: a blank input changes nothing. Otherwise the user entry
        is appended; on success the bot entry follows and the task list is
        wholly replaced by the response's lines, on failure the task list is
        kept. The input is cleared after either outcome. */
    method SendMessage(outcome: Outcome<string>) returns (sent: bool)
      modifies this
      ensures sent == !IsBlank(old(input))
      ensures !sent ==> messages == old(messages) && taskList == old(taskList) && input == old(input)
      ensures sent && outcome.Success? ==>
        messages == old(messages) + [UserMessage(old(input)), BotMessage(outcome.payload)]
        && taskList == ParseTaskList(outcome.payload)
      ensures sent && outcome.Failure? ==>
        messages == old(messages) + [UserMessage(old(input))] && taskList == old(taskList)
      ensures sent ==> input == ""
    {
      if IsBlank(input) {
        return false;
      }
      var prompt := input;
      var before := messages;
      messages := before + [UserMessage(prompt)];
      if outcome.Success? {
        messages := messages + [BotMessage(outcome.payload)];
        assert messages == before + [UserMessage(prompt), BotMessage(outcome.payload)];
        taskList := ParseTaskList(outcome.payload);
      }
      input := "";
      sent := true;
    }
  }
}
