# Chat-completion plugin component: verified model

This project models the two chat components of a robotics plugin module.

- `module/chatgpt.py` is the chat-completion component. `validate` checks that the configured model version is on an allow-list. `reconfigure` stores the API key, the model version, the request key (default `"request"`) and the timeout (default 0), then resets the conversation. `do_command` keeps a conversation buffer of role-tagged messages. The buffer starts with one system entry and each request adds one user entry. The buffer is cleared when more than the timeout has passed since the last answered request or reset. The buffer goes to a remote chat-completion service, and the handler answers with the service's reply or with a fallback text that repeats the command's `"request"` entry.
- `module/chatgpt35.py` is an echo variant. It stores the model version, runs an optional setup step, and answers a command by echoing its `"input"` entry.

Files:

- `values.dfy` (module `Values`) holds the values that commands, responses and configuration attributes carry. It also has the protobuf-style accessors. Like `fields[k].string_value`, they yield `""`, `0` or `false` when a field is absent or has another type. The module also defines the exceptions, as `Error`, `Result` and `Outcome`.
- `chatgpt.dfy` (module `ChatGpt`) holds the specification as values: `Session`, `Configure`, `Reset`, `Handle`, and `Run`, which handles a series of calls. Lemmas about the conversation buffer sit beside them. The class `ChatGptInstance` keeps the same state in fields that its methods update in place. Each method is proved to follow the specification functions.
- `chatgpt35.dfy` (module `ChatGpt35`) holds the echo component's class.

Python exceptions become `Err`/`Fail` results. The clock is a `now: nat` parameter in whole seconds. The remote service is an oracle `(api key, model, buffer) -> Completed(reply) | Unreachable`. It is given per call, so the model says the service is asked with the buffer after the append. It says nothing about what the service replies.

Three behaviours of the code are easy to miss:
- No assistant entries ever enter the buffer. Only the system entry and user entries do.
- The failure reply is not a fixed string alone. It is the fixed prefix followed by the command's `"request"` entry. The code reads the literal key `"request"` here, not the configured request key. So a failure raises `KeyError` when that entry is absent and `TypeError` when it is not a string. In both cases `lastTime` is left as it was.
- The timeout test is strict. With timeout 0, a request resets the buffer only when the clock reading is strictly later than the last one.

## Model

| member | source | states |
|---|---|---|
| `ChatGpt.Validate` | module/chatgpt.py:39-46 | passes exactly when the configured version is `"gpt-3.5-turbo"`; otherwise fails with an error that names the version and the allowed list |
| `ChatGpt.Configure` | module/chatgpt.py:50-73 | api key and version are taken from the attributes; request key is the configured one (empty if it is not a string), else `"request"`; timeout is the configured number (0 if it is not a number), else 0; the buffer is the single system entry and the clock reads now |
| `ChatGpt.Reset` | module/chatgpt.py:118-121 | buffer becomes exactly `[system entry]`, well-formed, clock reads now, configuration unchanged |
| `ChatGpt.Handle` | module/chatgpt.py:77-114 | without the request key: the fixed invalid reply, and the session is unchanged. Otherwise the buffer becomes `[system, user(input)]` after a strict timeout, else the old buffer plus one user entry. The clock moves to now unless the command raises; on a raise it keeps its earlier reading, which is now if the buffer was reset. The configuration never changes |
| `ChatGpt.HandleResponds` | module/chatgpt.py:92-114 | the service is asked with the key, the version and the new buffer. Its reply, or the fallback prefix followed by the `"request"` string, is returned with the earlier clock reading (the reset time after a reset) as `"timestamp"`. Without a `"request"` entry the failure path raises KeyError, with a non-string entry TypeError, and the clock is not moved |
| `ChatGpt.HandleRaisesOnlyOnFallback` | module/chatgpt.py:106-111 | a command raises if and only if it carries the request key, the service fails, and there is no `"request"` string |
| `ChatGpt.HandleKeepsWellFormed` | module/chatgpt.py:86-90 | one command keeps the buffer one system entry followed by user entries only |
| `ChatGpt.Run` | module/chatgpt.py:77-114 | a series of commands never changes the configuration |
| `ChatGpt.RunKeepsWellFormed` | module/chatgpt.py:86-90 | any series of commands keeps the buffer one system entry followed by user entries only |
| `ChatGpt.RunGrowsByAtMostOnePerCall` | module/chatgpt.py:86-90 | after n commands the buffer is non-empty and at most n entries longer |
| `ChatGpt.PacedCallsAccumulate` | module/chatgpt.py:85-90 | when each command comes within the timeout of the previous one and cannot raise, the buffer ends as the old buffer plus every request, in order |
| `ChatGpt.SpacedCallsKeepOnlyLastRequest` | module/chatgpt.py:85-90 | when each command comes more than the timeout after the previous one, the buffer ends as the system entry and the last request only |
| `ChatGpt.ChatGptInstance.constructor` | module/chatgpt.py:29-35 | the new object's state is `Configure(attrs, now)` and its buffer is well-formed |
| `ChatGpt.ChatGptInstance.Reconfigure` | module/chatgpt.py:50-73 | fields become `Configure(attrs, now)`; buffer well-formed |
| `ChatGpt.ChatGptInstance.SetupMessage` | module/chatgpt.py:118-121 | `messages` is exactly the system entry, `lastTime` is now, other fields unchanged |
| `ChatGpt.ChatGptInstance.DoCommand` | module/chatgpt.py:77-114 | new fields and result are exactly `Handle` of the old state; without the request key neither `messages` nor `lastTime` changes; otherwise `messages` is the reset-or-old buffer plus one user entry; the buffer stays well-formed |
| `ChatGpt35.ChatGptInstance.constructor` | module/chatgpt35.py:13-17 | the new object stores the configured version. It runs the corrected `Reconfigure`, so it completes even with `setup: true`. The `new` of the source calls the as-written `reconfigure` and raises TypeError on that flag, as `ReconfigureAsWritten` does |
| `ChatGpt35.ChatGptInstance.Reconfigure` | module/chatgpt35.py:20-29 | stores the configured version (empty when absent) and completes whether or not the setup flag is set |
| `ChatGpt35.ChatGptInstance.ReconfigureAsWritten` | module/chatgpt35.py:20-29 | stores the version, then raises TypeError exactly when the setup flag is true |
| `ChatGpt35.ChatGptInstance.Setup` | module/chatgpt35.py:41-42 | changes nothing |
| `ChatGpt35.ChatGptInstance.DoCommand` | module/chatgpt35.py:31-39 | raises the invalid-request error exactly when `"input"` is absent; otherwise returns a map whose only key is `"response"`, holding `command["input"]`; touches no state |
| `ChatGpt35.SetupFlagRaises` | module/chatgpt35.py:25-27 | a configuration with `setup: true` makes the as-written reconfigure raise TypeError |

## Findings

| source | as written | input that shows it | evidently intended | confidence | as-written member | corrected member |
|---|---|---|---|---|---|---|
| module/chatgpt35.py:41-42 | `setup` is declared without `self`, so `self.setup()` at line 27 raises TypeError | a configuration with `setup: true`, given to `reconfigure` or to `new`, which calls it (the model's constructor uses the corrected `Reconfigure`) | `setup` runs, does nothing, and `reconfigure` completes | high; not executed | `ChatGpt35.ChatGptInstance.ReconfigureAsWritten` | `ChatGpt35.ChatGptInstance.Reconfigure` |

## Left out

- The remote chat-completion call and the `openai.api_key` assignment (module/chatgpt.py:95-99). This is a third-party service. It is an oracle that replies or fails, and what it replies is not modelled.
- `datetime.now()` and `timedelta`. The clock is a whole-second `now` argument. `do_command` reads the clock up to three times (the timeout test, the reset, the final update). The model uses one reading per call, so sub-second differences between those readings are not captured. One consequence: with the default timeout of 0, two commands in the same second add to the buffer without a reset, whereas the source's microsecond clock makes practically every command reset it.
- `timeout` is a protobuf float (`number_value`). It is modelled as whole seconds.
- Every method in module/chatgpt.py is a `@classmethod` that writes class-level fields shared by all instances. The model has one state object per instance and does not capture the sharing.
- A `do_command` call on an object that was never configured is not modelled. The model's constructor always configures the object, as `new` does.
- Host plugin plumbing is not modelled: the `Generic` base class, protobuf config parsing, `ParseDict`, registration (module/__init__.py is not part of this model), `async`/`await`, and `get_geometries`, which returns nothing.
- `main()` in both files, with its console loop, file reading, `print` and `sys.exit`, is not modelled. Neither is `LOGGER.warn`, nor the `print("not a valid request")` on the invalid-request path (module/chatgpt.py:82, module/chatgpt35.py:34).
- The exact text of Python's TypeError messages is stood in for by fixed strings.
