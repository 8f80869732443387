/** The chat-completion component of module/chatgpt.py: a configuration check,
    a configuration step that fills in defaults, and a command handler that
    keeps a conversation buffer of role-tagged messages, clears it when more
    than the timeout has passed since the last answered request or reset,
    forwards it to a remote chat-completion service and answers with the reply
    or with a fallback text that repeats the command's "request" entry.

    The specification is the value-level `Session` with `Configure`, `Reset`
    and `Handle`; the class `ChatGptInstance` holds the same state in fields
    and its methods are proved to follow those functions. */
module ChatGpt {
  import opened Values

  /** The model versions a configuration may name. */
  const SupportedVersions: seq<string> := ["gpt-3.5-turbo"]

  const SystemPrompt: string := "You are a intelligent assistant."
  const DefaultRequestKey: string := "request"
  const DefaultTimeoutSeconds: int := 0
  const InvalidRequestReply: string := "invalid request, no 'input' given"
  const FallbackPrefix: string := "Unable to reach ChatGPT. Request was "
  /** The key the fallback reply reads: always this literal, never the
      configured request key. */
  const FallbackKey: string := "request"
  const ConcatenationError: string := "can only concatenate str to str"

  /** One entry of the conversation buffer. */
  datatype Message = Message(role: string, content: Value)

  function SystemEntry(): Message { Message("system", Str(SystemPrompt)) }

  function UserEntry(content: Value): Message { Message("user", content) }

  /** What the remote service does with one request: reply, or fail in any way. */
  datatype Completion = Completed(reply: string) | Unreachable

  /** The remote service, asked with (api key, model version, buffer). */
  type Oracle = (string, string, seq<Message>) -> Completion

  /** `sep.join(items)`. */
  function Join(sep: string, items: seq<string>): string
  {
    if |items| == 0 then ""
    else if |items| == 1 then items[0]
    else items[0] + sep + Join(sep, items[1..])
  }

  /** `validate`: a configuration is accepted exactly when it names the one
      supported model version; otherwise the error names the allowed list. */
  function Validate(attrs: Attributes): (r: Outcome)
    ensures r.Pass? <==> StringValue(attrs, "chat_gpt_version") == "gpt-3.5-turbo"
    ensures r.Fail? ==> r.error == UnsupportedVersion(
      StringValue(attrs, "chat_gpt_version") + " must be one of the follow: [gpt-3.5-turbo]")
  {
    var version := StringValue(attrs, "chat_gpt_version");
    if version in SupportedVersions then Pass
    else
      var allowed := Join(", ", SupportedVersions);
      assert allowed == "gpt-3.5-turbo";
      assert " must be one of the follow: [" + allowed + "]" == " must be one of the follow: [gpt-3.5-turbo]";
      Fail(UnsupportedVersion(version + (" must be one of the follow: [" + allowed + "]")))
  }

  /** Everything the component keeps between calls. */
  datatype Session = Session(
    apiKey: string,
    version: string,
    requestKey: string,
    timeoutSeconds: int,
    messages: seq<Message>,
    lastTime: nat)

  /** The buffer's shape: the single system entry first, then user entries
      only (replies from the service are never stored). */
  predicate WellFormed(buffer: seq<Message>)
  {
    && |buffer| >= 1
    && buffer[0] == SystemEntry()
    && forall i :: 1 <= i < |buffer| ==> buffer[i].role == "user"
  }

  /** Two sessions agree on everything the configuration step sets. */
  predicate SameConfiguration(s: Session, t: Session)
  {
    && s.apiKey == t.apiKey
    && s.version == t.version
    && s.requestKey == t.requestKey
    && s.timeoutSeconds == t.timeoutSeconds
  }

  /** `setupMessage`: the buffer becomes the system entry alone and the clock
      is stamped; the configuration is kept. */
  function Reset(s: Session, now: nat): (r: Session)
    ensures r.messages == [SystemEntry()] && WellFormed(r.messages)
    ensures r.lastTime == now
    ensures SameConfiguration(r, s)
  {
    s.(messages := [SystemEntry()], lastTime := now)
  }

  /** `reconfigure`: key and version are taken as given (empty when absent),
      the request key defaults to "request" and the timeout to 0 when the
      field is missing, and the buffer is reset. */
  function Configure(attrs: Attributes, now: nat): (s: Session)
    ensures s.apiKey == StringValue(attrs, "api_key")
    ensures s.version == StringValue(attrs, "chat_gpt_version")
    ensures "request_key" !in attrs ==> s.requestKey == "request"
    ensures "request_key" in attrs && attrs["request_key"].Str? ==> s.requestKey == attrs["request_key"].s
    ensures "request_key" in attrs && !attrs["request_key"].Str? ==> s.requestKey == ""
    ensures "timeout" !in attrs ==> s.timeoutSeconds == 0
    ensures "timeout" in attrs && attrs["timeout"].Num? ==> s.timeoutSeconds == attrs["timeout"].n
    ensures "timeout" in attrs && !attrs["timeout"].Num? ==> s.timeoutSeconds == 0
    ensures s.messages == [SystemEntry()] && WellFormed(s.messages)
    ensures s.lastTime == now
  {
    var requestKey := if "request_key" in attrs then StringValue(attrs, "request_key") else DefaultRequestKey;
    var timeout := if "timeout" in attrs then NumberValue(attrs, "timeout") else DefaultTimeoutSeconds;
    var configured := Session(StringValue(attrs, "api_key"), StringValue(attrs, "chat_gpt_version"),
                              requestKey, timeout, [], 0);
    Reset(configured, now)
  }

  /** More than the timeout has passed since the last request (strictly). */
  predicate Expired(s: Session, now: nat)
  {
    now - s.lastTime > s.timeoutSeconds
  }

  /** The session after one command, and what the command returns or raises. */
  datatype Handled = Handled(next: Session, result: Result<map<string, Value>>)

  /** `do_command`, its effect on the session. A command without the request
      key gets the fixed invalid reply and changes nothing. Otherwise the
      buffer is reset first when the session has expired and the request is
      appended as a user entry; the clock moves to now unless the command
      raises (see `HandleResponds` for what it returns). */
  function Handle(s: Session, input: map<string, Value>, now: nat, ask: Oracle): (h: Handled)
    ensures SameConfiguration(h.next, s)
    ensures s.requestKey !in input ==> h == Handled(s, Ok(map["response" := Str(InvalidRequestReply)]))
    ensures s.requestKey in input && Expired(s, now) ==>
      h.next.messages == [SystemEntry(), UserEntry(input[s.requestKey])]
    ensures s.requestKey in input && !Expired(s, now) ==>
      h.next.messages == s.messages + [UserEntry(input[s.requestKey])]
    ensures s.requestKey in input ==>
      h.next.lastTime == (if h.result.Ok? || Expired(s, now) then now else s.lastTime)
  {
    if s.requestKey !in input then
      Handled(s, Ok(map["response" := Str(InvalidRequestReply)]))
    else
      var started := if Expired(s, now) then Reset(s, now) else s;
      var sent := started.(messages := started.messages + [UserEntry(input[s.requestKey])]);
      var stamp := Time(sent.lastTime);
      match ask(sent.apiKey, sent.version, sent.messages)
      case Completed(reply) =>
        Handled(sent.(lastTime := now), Ok(map["response" := Str(reply), "timestamp" := stamp]))
      case Unreachable =>
        if FallbackKey !in input then
          Handled(sent, Err(KeyError(FallbackKey)))
        else if !input[FallbackKey].Str? then
          Handled(sent, Err(TypeError(ConcatenationError)))
        else
          Handled(sent.(lastTime := now),
                  Ok(map["response" := Str(FallbackPrefix + input[FallbackKey].s), "timestamp" := stamp]))
  }

  /** What a command with the request key returns: the service is asked with
      the new buffer; its reply, or the fallback prefix and the "request"
      string, comes back with the clock reading from before this command (or
      from the reset) as timestamp. Without a "request" string the failure
      path raises, and the clock keeps that earlier reading. */
  lemma HandleResponds(s: Session, input: map<string, Value>, now: nat, ask: Oracle)
    requires s.requestKey in input
    ensures
      var h := Handle(s, input, now, ask);
      var stamp := Time(if Expired(s, now) then now else s.lastTime);
      match ask(s.apiKey, s.version, h.next.messages)
      case Completed(reply) =>
        h.result == Ok(map["response" := Str(reply), "timestamp" := stamp]) && h.next.lastTime == now
      case Unreachable =>
        if FallbackKey in input && input[FallbackKey].Str? then
          && h.result == Ok(map["response" := Str(FallbackPrefix + input[FallbackKey].s), "timestamp" := stamp])
          && h.next.lastTime == now
        else
          && h.result == Err(if FallbackKey in input then TypeError(ConcatenationError) else KeyError(FallbackKey))
          && Time(h.next.lastTime) == stamp
  {
  }

  /** A command raises exactly on the failure path without a "request"
      string: the if-and-only-if form of what `HandleResponds` states case by
      case. */
  lemma HandleRaisesOnlyOnFallback(s: Session, input: map<string, Value>, now: nat, ask: Oracle)
    ensures Handle(s, input, now, ask).result.Err? <==>
      && s.requestKey in input
      && ask(s.apiKey, s.version, Handle(s, input, now, ask).next.messages).Unreachable?
      && !(FallbackKey in input && input[FallbackKey].Str?)
  {
  }

  /** One command keeps the buffer's shape. */
  lemma HandleKeepsWellFormed(s: Session, input: map<string, Value>, now: nat, ask: Oracle)
    requires WellFormed(s.messages)
    ensures WellFormed(Handle(s, input, now, ask).next.messages)
  {
  }

  /** One call of the host: a command, the clock reading, and how the remote
      service behaves on that call. */
  datatype Call = Call(input: map<string, Value>, now: nat, ask: Oracle)

  /** The session after a series of calls, each handled in turn (a raised
      exception ends that call only; the state it left is kept). */
  function Run(s: Session, calls: seq<Call>): (r: Session)
    ensures SameConfiguration(r, s)
    decreases |calls|
  {
    if |calls| == 0 then s
    else Run(Handle(s, calls[0].input, calls[0].now, calls[0].ask).next, calls[1..])
  }

  /** Any series of calls keeps the buffer's shape. */
  lemma {:induction false} RunKeepsWellFormed(s: Session, calls: seq<Call>)
    requires WellFormed(s.messages)
    ensures WellFormed(Run(s, calls).messages)
    decreases |calls|
  {
    if |calls| > 0 {
      var next := Handle(s, calls[0].input, calls[0].now, calls[0].ask).next;
      HandleKeepsWellFormed(s, calls[0].input, calls[0].now, calls[0].ask);
      RunKeepsWellFormed(next, calls[1..]);
    }
  }

  /** The buffer never grows by more than one entry per call. */
  lemma {:induction false} RunGrowsByAtMostOnePerCall(s: Session, calls: seq<Call>)
    requires |s.messages| >= 1
    ensures 1 <= |Run(s, calls).messages| <= |s.messages| + |calls|
    decreases |calls|
  {
    if |calls| > 0 {
      var next := Handle(s, calls[0].input, calls[0].now, calls[0].ask).next;
      RunGrowsByAtMostOnePerCall(next, calls[1..]);
    }
  }

  /** Each call comes at most `timeout` seconds after the one before it (the
      first after `last`). */
  predicate Paced(last: nat, timeout: int, calls: seq<Call>)
    decreases |calls|
  {
    |calls| == 0 || (calls[0].now - last <= timeout && Paced(calls[0].now, timeout, calls[1..]))
  }

  /** Each call comes more than `timeout` seconds after the one before it. */
  predicate Spaced(last: nat, timeout: int, calls: seq<Call>)
    decreases |calls|
  {
    |calls| == 0 || (calls[0].now - last > timeout && Spaced(calls[0].now, timeout, calls[1..]))
  }

  /** The user entries a series of commands adds to the buffer. */
  function UserEntries(requestKey: string, calls: seq<Call>): (r: seq<Message>)
    requires forall i :: 0 <= i < |calls| ==> requestKey in calls[i].input
    ensures |r| == |calls|
    decreases |calls|
  {
    if |calls| == 0 then []
    else [UserEntry(calls[0].input[requestKey])] + UserEntries(requestKey, calls[1..])
  }

  /** A command that carries the request key and a "request" string, within
      the timeout: its request is appended and the clock moves to now. */
  lemma AnsweredInWindow(s: Session, input: map<string, Value>, now: nat, ask: Oracle)
    requires s.requestKey in input && FallbackKey in input && input[FallbackKey].Str?
    requires !Expired(s, now)
    ensures Handle(s, input, now, ask).next.messages == s.messages + [UserEntry(input[s.requestKey])]
    ensures Handle(s, input, now, ask).next.lastTime == now
  {
  }

  /** Within the timeout window the conversation accumulates: every request
      is appended, in order, and nothing is dropped. */
  lemma {:induction false} PacedCallsAccumulate(s: Session, calls: seq<Call>)
    requires forall i :: 0 <= i < |calls| ==> s.requestKey in calls[i].input
    requires forall i :: 0 <= i < |calls| ==> FallbackKey in calls[i].input && calls[i].input[FallbackKey].Str?
    requires Paced(s.lastTime, s.timeoutSeconds, calls)
    ensures Run(s, calls).messages == s.messages + UserEntries(s.requestKey, calls)
    decreases |calls|
  {
    if |calls| > 0 {
      var c, rest := calls[0], calls[1..];
      var next := Handle(s, c.input, c.now, c.ask).next;
      AnsweredInWindow(s, c.input, c.now, c.ask);
      assert next.requestKey == s.requestKey && next.timeoutSeconds == s.timeoutSeconds;
      assert Paced(next.lastTime, next.timeoutSeconds, rest);
      PacedCallsAccumulate(next, rest);
      calc {
        Run(s, calls).messages;
        Run(next, rest).messages;
        (s.messages + [UserEntry(c.input[s.requestKey])]) + UserEntries(s.requestKey, rest);
        s.messages + ([UserEntry(c.input[s.requestKey])] + UserEntries(s.requestKey, rest));
        s.messages + UserEntries(s.requestKey, calls);
      }
    }
  }

  /** When every call comes after the timeout, each one starts a fresh
      conversation: only the system entry and the last request remain. With
      the default timeout of 0 this holds for any strictly later clock
      readings. */
  lemma {:induction false} SpacedCallsKeepOnlyLastRequest(s: Session, calls: seq<Call>)
    requires |calls| > 0
    requires forall i :: 0 <= i < |calls| ==> s.requestKey in calls[i].input
    requires Spaced(s.lastTime, s.timeoutSeconds, calls)
    ensures Run(s, calls).messages
         == [SystemEntry(), UserEntry(calls[|calls| - 1].input[s.requestKey])]
    decreases |calls|
  {
    var c := calls[0];
    var next := Handle(s, c.input, c.now, c.ask).next;
    assert next.lastTime == c.now;
    if |calls| > 1 {
      SpacedCallsKeepOnlyLastRequest(next, calls[1..]);
    }
  }

  /** The component object. Its state lives in fields that the lifecycle calls
      and the command handler update in place. */
  class ChatGptInstance {
    var apiKey: string
    var chatGptVersion: string
    var requestKey: string
    var timeoutSeconds: int
    var messages: seq<Message>
    var lastTime: nat

    /** The fields as a `Session` value. */
    function State(): Session
      reads this
    {
      Session(apiKey, chatGptVersion, requestKey, timeoutSeconds, messages, lastTime)
    }

    ghost predicate Valid()
      reads this
    {
      WellFormed(messages)
    }

    /** `new`: create the component and configure it. */
    constructor (attrs: Attributes, now: nat)
      ensures Valid()
      ensures State() == Configure(attrs, now)
    {
      new;
      Reconfigure(attrs, now);
    }

    /** `reconfigure`. */
    method Reconfigure(attrs: Attributes, now: nat)
      modifies this
      ensures Valid()
      ensures State() == Configure(attrs, now)
    {
      apiKey := StringValue(attrs, "api_key");
      chatGptVersion := StringValue(attrs, "chat_gpt_version");
      if "request_key" in attrs {
        requestKey := StringValue(attrs, "request_key");
      } else {
        requestKey := DefaultRequestKey;
      }
      if "timeout" in attrs {
        timeoutSeconds := NumberValue(attrs, "timeout");
      } else {
        timeoutSeconds := DefaultTimeoutSeconds;
      }
      SetupMessage(now);
    }

    /** `setupMessage`. */
    method SetupMessage(now: nat)
      modifies this`messages, this`lastTime
      ensures Valid()
      ensures messages == [SystemEntry()] && lastTime == now
      ensures State() == Reset(old(State()), now)
    {
      messages := [SystemEntry()];
      lastTime := now;
    }

    /** `do_command`: the buffer is changed in place and the response (or the
        raised exception) is returned. */
    method DoCommand(input: map<string, Value>, now: nat, ask: Oracle)
      returns (r: Result<map<string, Value>>)
      requires Valid()
      modifies this
      ensures Valid()
      ensures Handled(State(), r) == Handle(old(State()), input, now, ask)
      ensures old(requestKey) !in input ==> messages == old(messages) && lastTime == old(lastTime)
      ensures old(requestKey) in input ==>
        messages == (if Expired(old(State()), now) then [SystemEntry()] else old(messages))
                    + [UserEntry(input[requestKey])]
    {
      if requestKey !in input {
        r := Ok(map["response" := Str(InvalidRequestReply)]);
        return;
      }
      if now - lastTime > timeoutSeconds {
        SetupMessage(now);
      }
      messages := messages + [UserEntry(input[requestKey])];
      var chat := ask(apiKey, chatGptVersion, messages);
      match chat {
        case Completed(reply) =>
          r := Ok(map["response" := Str(reply), "timestamp" := Time(lastTime)]);
        case Unreachable =>
          if FallbackKey !in input {
            r := Err(KeyError(FallbackKey));
            return;
          }
          if !input[FallbackKey].Str? {
            r := Err(TypeError(ConcatenationError));
            return;
          }
          r := Ok(map["response" := Str(FallbackPrefix + input[FallbackKey].s), "timestamp" := Time(lastTime)]);
      }
      lastTime := now;
    }
  }
}
