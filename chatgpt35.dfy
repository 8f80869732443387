/** The echo component of module/chatgpt35.py: it stores the configured model
    version, runs an optional setup step, and answers a command by echoing its
    "input" entry back as the response. */
module ChatGpt35 {
  import opened Values

  const InputKey: string := "input"
  const InvalidRequestMessage: string := "invalid request, no 'input' given"
  /** What Python raises when a method declared without `self` is called on
      an instance. */
  const SetupArityMessage: string := "setup() takes 0 positional arguments but 1 was given"

  class ChatGptInstance {
    var chatGptVersion: string

    /** `new`: create the component and configure it. */
    constructor (attrs: Attributes)
      ensures chatGptVersion == StringValue(attrs, "chat_gpt_version")
    {
      new;
      Reconfigure(attrs);
    }

    /** `reconfigure`, as intended: store the version and, when the "setup"
        flag is set, run `setup`, which does nothing. */
    method Reconfigure(attrs: Attributes)
      modifies this
      ensures chatGptVersion == StringValue(attrs, "chat_gpt_version")
    {
      chatGptVersion := StringValue(attrs, "chat_gpt_version");
      if BoolValue(attrs, "setup") {
        Setup();
      }
    }

    /** `reconfigure` as written: `setup` is declared without `self`, so the
        call on the instance raises once the version has been stored. */
    method ReconfigureAsWritten(attrs: Attributes) returns (r: Outcome)
      modifies this
      ensures chatGptVersion == StringValue(attrs, "chat_gpt_version")
      ensures r.Fail? <==> BoolValue(attrs, "setup")
      ensures r.Fail? ==> r.error == TypeError(SetupArityMessage)
    {
      chatGptVersion := StringValue(attrs, "chat_gpt_version");
      if BoolValue(attrs, "setup") {
        return Fail(TypeError(SetupArityMessage));
      }
      return Pass;
    }

    /** `setup`, with the `self` parameter it needs: it changes nothing. */
    method Setup()
      ensures unchanged(this)
    {
    }

    /** `do_command`: raises exactly when the command has no "input" entry,
        and otherwise answers with that entry under the single key
        "response". It reads and changes no state of the instance. */
    function DoCommand(command: map<string, Value>): (r: Result<map<string, Value>>)
      ensures r.Err? <==> InputKey !in command
      ensures r.Err? ==> r.error == InvalidRequest(InvalidRequestMessage)
      ensures r.Ok? ==> r.value.Keys == {"response"} && r.value["response"] == command[InputKey]
    {
      if InputKey !in command then Err(InvalidRequest(InvalidRequestMessage))
      else Ok(map["response" := command[InputKey]])
    }
  }

  /** A configuration with the "setup" flag set makes the as-written
      `reconfigure` raise. */
  method SetupFlagRaises() returns (r: Outcome)
    ensures r == Fail(TypeError(SetupArityMessage))
  {
    var instance := new ChatGptInstance(map[]);
    r := instance.ReconfigureAsWritten(map["setup" := Bool(true)]);
  }
}
