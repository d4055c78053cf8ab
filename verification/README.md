# Mycroft conversation agent — a Dafny model of one turn

The Mycroft plugin is a Home Assistant conversation agent. It forwards each
utterance to a hosted completion model and expects a JSON reply that holds a
spoken `comment` and, optionally, a `command` for the smart-home service bus.
This project models what `OpenAIAgent` does with one utterance, as pure
functions over immutable values:

- **History step** (`History`). The process-wide history maps a conversation
  id to a message list.
  - A known id is continued with the recorded list plus the new user
    message, and nothing is written back.
  - An unknown or absent id is opened under a fresh id. It gets a
    five-message seed (system prompt, `{"comment":"Ok!"}`, rendered home
    information, `{"comment":"Got it!"}`, the new message), which is recorded.
- **Response parser** (`Parser`). It applies the one-shot repair of a
  trailing `,}`, decodes the JSON, and reads `comment` and `command`. When
  anything fails, it builds a fallback comment that embeds the repaired text
  and the error text.
- **Command dispatcher** (`Commands`).
  - A dict command is one service call.
  - A list is one call per element.
  - Anything else is ignored.
  - A failure goes to an `except` handler, which reads `domain`, `service`
    and `data` from the command again.
- **Turn** (`Agent`). It builds the user message, takes the history step,
  builds the request with option defaults, parses the reply and dispatches
  the command. It then decides what is spoken and under which conversation
  id.

Supporting modules:
- `Python`: optional values, the exceptions that can escape, and the truth
  value of an optional string.
- `Json`: RFC 8259 values as Python's decoder produces them, and `v[key]`.
- `Settings`: the option names and defaults of `const.py`, including the
  default system prompt, verbatim.

Collaborators the agent only calls appear as parameters (`Agent.Host`):
- the completion service, a function from the request to the raw text of
  the first choice;
- `json.loads`, a function from text to a value or an error text;
- the service bus, a function from a call to success or an error text;
- Python's `repr` of the `(domain, service, data)` tuple.

The fresh conversation id and the rendered home information (or its
rendering failure) are inputs of the turn.

Four behaviours of the code are easy to miss; the model keeps each of them.
- Exceptions escape the turn. A template failure, the parser's unbound
  `error_message` and the dispatcher handler's own indexing all propagate
  out of `async_process`.
- A failed list command raises. The handler indexes the list with
  `'domain'`, and the resulting `TypeError` propagates instead of an error
  message.
- History does not grow. A continued conversation never records the new
  turn or the assistant's reply, so every request is the five seed messages
  plus the latest utterance.
- The parse fallback embeds the *repaired* text, not the raw reply.

## Model

| member | source | states |
|---|---|---|
| History.Continue | custom_components/mycroft/__init__.py:125-127 | a known conversation keeps its id; the messages are the recorded list followed by exactly the new message; the store is unchanged |
| History.Open | custom_components/mycroft/__init__.py:128-139 | a new conversation gets the fresh id and the five seed messages in order; they are recorded under that id, and every other entry keeps its list |
| History.Generate | custom_components/mycroft/__init__.py:122-141 | known id: continued, store untouched; unknown or absent id: opened under the fresh id with the given system prompt, unless rendering the home information raised, in which case that exception escapes and nothing is recorded |
| History.OpenThenContinue | custom_components/mycroft/__init__.py:122-141 | a second turn on the id the first turn opened sends the first turn's messages plus the new one (six messages), while the store still holds the five seed messages |
| Parser.Repair | custom_components/mycroft/__init__.py:160-161 | a text ending in `,}` loses exactly that comma and becomes one character shorter; any other text is unchanged |
| Parser.RepairRemovesOneComma | custom_components/mycroft/__init__.py:160-161 | putting `,` back before the final brace of a repaired text gives back the raw text |
| Parser.RepairLeavesCommaIff | custom_components/mycroft/__init__.py:160-161 | the repaired text still ends in `,}` exactly when the raw text ended in `,,}`: the repair runs once |
| Parser.RepairIdempotentIff | custom_components/mycroft/__init__.py:160-161 | repairing twice equals repairing once exactly when the text does not end in `,,}` |
| Parser.RepairNotIdempotent | custom_components/mycroft/__init__.py:160-161 | `,,}` repairs to `,}`, and only a second repair would give `}` |
| Parser.Try | custom_components/mycroft/__init__.py:163-166 | the fields are read exactly when the text decodes to an object holding `comment`; the comment is that member and the command is `command` or null; a decode error's text is caught, and a missing `comment` is caught as `'comment'` |
| Parser.Fallback | custom_components/mycroft/__init__.py:166-169 | the fallback has no command, carries the error text as `error_message`, and its comment starts with `Unable to parse: ` followed by the text that failed |
| Parser.ParseAsWritten | custom_components/mycroft/__init__.py:156-171 | the parser as written raises `UnboundLocalError` for `error_message` exactly when the reply was read successfully |
| Parser.Parse | custom_components/mycroft/__init__.py:156-171 | the intended parser reports no error exactly when the repaired reply decodes to an object holding `comment` |
| Parser.ParseSuccess | custom_components/mycroft/__init__.py:163-165 | on success the comment is the `comment` member and the command the `command` member, or null when absent |
| Parser.ParseFallback | custom_components/mycroft/__init__.py:159-169 | otherwise: no command, the comment is `Unable to parse: ` + repaired text + ` \n Error: ` + error text, and the error text is the decoder's message, `'comment'` for an object without it, or the `TypeError` text for a non-object |
| Parser.ParseAsWrittenDiffers | custom_components/mycroft/__init__.py:163-171 | the parser as written raises exactly when the intended one succeeds, and agrees with it on every fallback |
| Parser.TrailingCommaReplyRaises | custom_components/mycroft/__init__.py:159-171 | `{"comment":"ok",}` is repaired and decoded, then raises as written, but yields comment `ok` with no command when intended |
| Commands.ReadCall | custom_components/mycroft/__init__.py:177 | reading the three keys succeeds exactly on a dict holding all three; otherwise `KeyError` names the first missing one in `domain`, `service`, `data` order, and a non-dict raises `TypeError` |
| Commands.ReadCalls | custom_components/mycroft/__init__.py:180-186 | a list yields one call per element, in order, exactly when every element is well formed; otherwise the exception of the first element that cannot be read, every element before it being well formed |
| Commands.FirstFailure | custom_components/mycroft/__init__.py:180-187 | the gathered calls raise exactly when one of them fails, and the text reported is one failing call's |
| Commands.Message | custom_components/mycroft/__init__.py:189-190 | the error message starts with `Unable to execute: ` and is never empty |
| Commands.Handler | custom_components/mycroft/__init__.py:188-191 | the handler returns a non-empty message exactly when the command is a dict holding all three keys, and raises otherwise |
| Commands.Dispatch | custom_components/mycroft/__init__.py:173-192 | a well-formed dict issues exactly its one call; a list issues one call per element if all can be read, else none; anything else issues nothing and returns None. A message is returned exactly when a well-formed dict's call failed. An exception escapes exactly for a dict missing a key, or a list with an unreadable element or a failed call |
| Commands.ListFailureEscapes | custom_components/mycroft/__init__.py:179-190 | a list of two well-formed calls issues both, and a failure of either escapes as the handler's `TypeError` |
| Agent.UserMessage | custom_components/mycroft/__init__.py:80-83 | the user message has role user, and its content is the utterance followed by ` Answer in syntactically perfect json only` |
| Agent.Respond | custom_components/mycroft/__init__.py:105-120 | a truthy parse error speaks the comment and issues nothing; every reply keeps the step's id and the input's language; the store is the step's |
| Agent.AnswerAsWritten | custom_components/mycroft/__init__.py:103-120 | with the parser as written, a successful parse ends the turn in `UnboundLocalError` with no call issued; a failed parse behaves as intended |
| Agent.SpeechRule | custom_components/mycroft/__init__.py:103-120 | after the history step, speech is the fallback comment when parsing failed; otherwise the dispatch error message when one is returned, with the comment discarded; otherwise the comment. A dispatch exception escapes, and nothing is issued after a failed parse |
| Agent.Process | custom_components/mycroft/__init__.py:77-141 | a request is sent unless the conversation is new and rendering failed, in which case the store is untouched. A known conversation is sent its recorded list plus the new user message, and the store is left unchanged. A new one is sent the five seed messages, opening with the `prompt` option or the default prompt, and they are recorded under the fresh id. Model, max tokens, top-p and temperature are each the option or `gpt-3.5-turbo`, `150`, `1`, `0.5`. The request's `user` and every reply carry the input's id when known and the fresh id otherwise, and the reply has the input's language |
| Agent.ConverseNeverExtends | custom_components/mycroft/__init__.py:125-127 | over any number of successive turns on a known id, whatever the hosts answer, each request is the recorded list plus only that turn's user message and the store stays as it was: history is never extended |
| Agent.ProcessAsWritten | custom_components/mycroft/__init__.py:77-120 | as written, a turn whose reply parses ends in `UnboundLocalError` with no call issued, after a new conversation was already recorded; on every other turn it is identical to the intended one |

## Findings

| source | as written | input that shows it | evidently intended | confidence | as-written member | corrected member |
|---|---|---|---|---|---|---|
| custom_components/mycroft/__init__.py:159-171 | `error_message` is bound only in the `except` branch, so `return comment, command, error_message` raises `UnboundLocalError` whenever parsing succeeds | a reply `{"comment":"ok",}` or `{"comment":"ok"}` | `error_message` starts as `None`, and a successful parse returns `(comment, command, None)` | high; not executed | Parser.ParseAsWritten (shown by Parser.TrailingCommaReplyRaises; turn level: Agent.ProcessAsWritten) | Parser.Parse (Parser.ParseSuccess, used by Agent.Process) |

## Left out

- Setting up and unloading the integration (`async_setup_entry`, `async_unload_entry`): credential check, network I/O and host registration.
- The completion call (`execute_openai_api_call`) and the extraction of the first choice's text. `OpenAIAgent` does not define `execute_openai_api_call`, and its transport errors are not modelled. Its result text is the host function `Host.complete`.
- Rendering the home-information template (Jinja, area registry). The rendered text, or the exception rendering raised, is an input.
- Generating ULIDs. The fresh id is an input that must not already be a key.
- The internals of `json.loads`. It is the host function `Host.decode`, with an abstract error text.
- The service bus and `asyncio.gather`. Only per-call success or failure is modelled. All calls of a list run concurrently, which the model represents as all being issued, with no order between them.
- Commands.FirstFailure: reports the first failing call in list order, where `gather` reports the first to fail in time. The handler raises for lists regardless, so the choice never reaches the reply.
- Python's `repr` of the `(domain, service, data)` tuple. It is the host function `Host.repr`.
- Option values (`temperature`, `top_p`, `max_tokens`, `model`, `prompt`). They are opaque text; the numeric defaults appear as their decimal text, and floating point is not modelled.
- Json.Json: objects are maps, so the member order of Python's dict is lost. The order shows only where `repr` prints `data`, or an object comment, in speech. Two replies that differ only in member order give the same error message in the model, while Python prints the members in their own order.
- Json.NotSubscriptable: the `TypeError` texts use CPython 3.11's wording, which varies between Python versions.
- Python.Exc.Str: the `UnboundLocalError` text uses the wording of Python 3.11 and later. That text and the `TemplateError` text never reach a reply, because both exceptions only escape.
- Concurrency between turns on the same conversation id: the store is modelled one turn at a time.
- The host's intent-response object built by `create_conversation_result`. A reply is reduced to its speech, language and conversation id.
- Logging, the `attribution` property, and the typing and import defects on lines 5 and 70.
