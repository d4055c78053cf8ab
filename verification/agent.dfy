/** One turn of the conversation agent: build the user message, take the
    history step, ask the completion service, parse its reply, dispatch the
    command, and decide what is spoken and under which conversation id. */
module Agent {
  import opened Python
  import opened Json
  import opened Settings
  import opened History
  import opened Parser
  import opened Commands

  /** The instruction appended to every utterance. */
  const JsonOnly := " Answer in syntactically perfect json only"

  /** An incoming utterance; the conversation id may be absent. */
  datatype UserInput = UserInput(text: string, conversationId: Option<string>, language: string)

  /** The parameters of the completion request; `user` carries the
      conversation id. */
  datatype Request = Request(model: string, messages: seq<Message>, maxTokens: string,
                             topP: string, temperature: string, user: string)

  /** The reply handed back to the host: speech, conversation id, language. */
  datatype Reply = Reply(speech: Json, conversationId: string, language: string)

  /** The collaborators the agent calls but does not implement: the
      completion service (its reply's first choice text), the JSON decoder,
      the service bus, and Python's rendering of a call tuple. */
  datatype Host = Host(complete: Request -> string, decode: string -> Decoded,
                       bus: ServiceCall -> CallResult, repr: ServiceCall -> string)

  /** Everything a turn leaves behind: the history store, the request sent
      (if any), the service calls issued, and the reply or the exception
      that escaped. */
  datatype Turn = Turn(store: Store, request: Option<Request>, issued: seq<ServiceCall>, reply: Outcome<Reply>)

  /** The user message of a turn. */
  function UserMessage(text: string): (m: Message)
    ensures m.role == User
    ensures |m.content| == |text| + |JsonOnly| && m.content[..|text|] == text && m.content[|text|..] == JsonOnly
  {
    Message(User, text + JsonOnly)
  }

  /** The completion request: the option values, each with its default. */
  function RequestFor(options: Options, step: Step): Request
  {
    Request(Lookup(options, ModelKey, DefaultModel), step.messages, Lookup(options, MaxTokensKey, DefaultMaxTokens),
            Lookup(options, TopPKey, DefaultTopP), Lookup(options, TemperatureKey, DefaultTemperature),
            step.conversationId)
  }

  /** Everything after the parse: a truthy parse error speaks the comment;
      otherwise the command is dispatched and a truthy error message from it
      replaces the comment. */
  function Respond(step: Step, request: Request, parsed: Parsed, language: string, host: Host): (t: Turn)
    ensures t.store == step.store && t.request == Some(request)
    ensures t.reply.Value? ==> t.reply.value.conversationId == step.conversationId && t.reply.value.language == language
    ensures Truthy(parsed.error) ==> t.issued == [] && t.reply == Value(Reply(parsed.comment, step.conversationId, language))
  {
    if Truthy(parsed.error) then
      Turn(step.store, Some(request), [], Value(Reply(parsed.comment, step.conversationId, language)))
    else
      var d := Dispatch(parsed.command, host.bus, host.repr);
      match d.result
      case Raised(e) => Turn(step.store, Some(request), d.issued, Raised(e))
      case Value(err) =>
        var speech := if Truthy(err) then JString(err.value) else parsed.comment;
        Turn(step.store, Some(request), d.issued, Value(Reply(speech, step.conversationId, language)))
  }

  /** The turn after the history step, given the raw reply of the
      completion service, with the parser as evidently intended. */
  function Answer(step: Step, request: Request, raw: string, language: string, host: Host): Turn {
    Respond(step, request, Parse(raw, host.decode), language, host)
  }

  /** The same with the parser as written: its `UnboundLocalError` escapes
      before any command runs. */
  function AnswerAsWritten(step: Step, request: Request, raw: string, language: string, host: Host): (t: Turn)
    ensures Parse(raw, host.decode).error.None? ==>
      t == Turn(step.store, Some(request), [], Raised(UnboundLocalError("error_message")))
    ensures Parse(raw, host.decode).error.Some? ==> t == Answer(step, request, raw, language, host)
  {
    ParseAsWrittenDiffers(raw, host.decode);
    match ParseAsWritten(raw, host.decode)
    case Raised(e) => Turn(step.store, Some(request), [], Raised(e))
    case Value(parsed) => Respond(step, request, parsed, language, host)
  }

  /** Which text a turn speaks once its history step is done: the fallback
      comment when parsing failed; otherwise the dispatcher's error message
      when it returned one (the comment is dropped); otherwise the comment.
      An exception from the dispatcher escapes. A fallback whose error text
      is empty is falsy, so its null command is dispatched, which issues
      nothing, and the fallback comment is spoken all the same. */
  lemma SpeechRule(step: Step, request: Request, raw: string, language: string, host: Host)
    ensures var parsed := Parse(raw, host.decode);
            var d := Dispatch(parsed.command, host.bus, host.repr);
            var t := Answer(step, request, raw, language, host);
            && t.store == step.store
            && (parsed.error.Some? ==> t.issued == [] && t.reply == Value(Reply(parsed.comment, step.conversationId, language)))
            && (parsed.error.None? && d.result.Raised? ==> t.issued == d.issued && t.reply == Raised(d.result.exc))
            && (parsed.error.None? && d.result.Value? && d.result.value.Some? ==>
                  t.issued == d.issued && t.reply == Value(Reply(JString(d.result.value.value), step.conversationId, language)))
            && (parsed.error.None? && d.result == Value(None) ==>
                  t.issued == d.issued && t.reply == Value(Reply(parsed.comment, step.conversationId, language)))
  {
  }

  /** A turn. `freshId` is the newly generated conversation id and
      `homeInfo` the outcome of rendering the home-information template. */
  function Process(store: Store, options: Options, input: UserInput, freshId: string,
                   homeInfo: Outcome<string>, host: Host): (t: Turn)
    requires freshId !in store
    // The only thing that escapes before the request is a rendering failure, and then nothing is recorded.
    ensures t.request.None? <==> !Known(store, input.conversationId) && homeInfo.Raised?
    ensures t.request.None? ==> t == Turn(store, None, [], Raised(homeInfo.exc))
    // The request carries the id of the history step; so does every reply, with the input's language.
    ensures t.request.Some? ==> t.request.value.user == (if Known(store, input.conversationId) then input.conversationId.value else freshId)
    ensures t.reply.Value? ==>
      t.reply.value.language == input.language &&
      t.reply.value.conversationId == (if Known(store, input.conversationId) then input.conversationId.value else freshId)
    // A known conversation is sent its recorded list plus the new user message, and the store is left as it was:
    // neither the new turn nor the assistant's reply is ever saved.
    ensures t.request.Some? && Known(store, input.conversationId) ==>
      t.request.value.messages == store[input.conversationId.value] + [UserMessage(input.text)] && t.store == store
    // A new conversation is sent the seed, which is recorded under the fresh id; every other entry is kept.
    ensures t.request.Some? && !Known(store, input.conversationId) ==>
      IsSeed(t.request.value.messages, SystemPrompt(options), homeInfo.value, UserMessage(input.text)) &&
      t.store == store[freshId := t.request.value.messages]
    // Each request parameter is its option, or the default when the option is not set.
    ensures t.request.Some? ==>
      && t.request.value.model == (if "model" in options then options["model"] else "gpt-3.5-turbo")
      && t.request.value.maxTokens == (if "max_tokens" in options then options["max_tokens"] else "150")
      && t.request.value.topP == (if "top_p" in options then options["top_p"] else "1")
      && t.request.value.temperature == (if "temperature" in options then options["temperature"] else "0.5")
  {
    match Generate(store, input.conversationId, UserMessage(input.text), SystemPrompt(options), freshId, homeInfo)
    case Raised(e) => Turn(store, None, [], Raised(e))
    case Value(step) =>
      var request := RequestFor(options, step);
      Answer(step, request, host.complete(request), input.language, host)
  }

  /** A turn with the parser as written: whenever the reply it gets parses,
      the turn ends in `UnboundLocalError` before any command runs, keeping
      what the history step recorded; on every other reply it is the
      intended turn. */
  function ProcessAsWritten(store: Store, options: Options, input: UserInput, freshId: string,
                            homeInfo: Outcome<string>, host: Host): (t: Turn)
    requires freshId !in store
    ensures t.request.None? <==> !Known(store, input.conversationId) && homeInfo.Raised?
    ensures t.request.Some? && Parse(host.complete(t.request.value), host.decode).error.None? ==>
      t.reply == Raised(UnboundLocalError("error_message")) && t.issued == [] &&
      t.store == Process(store, options, input, freshId, homeInfo, host).store
    ensures (t.request.None? || Parse(host.complete(t.request.value), host.decode).error.Some?) ==>
      t == Process(store, options, input, freshId, homeInfo, host)
  {
    match Generate(store, input.conversationId, UserMessage(input.text), SystemPrompt(options), freshId, homeInfo)
    case Raised(e) => Turn(store, None, [], Raised(e))
    case Value(step) =>
      var request := RequestFor(options, step);
      AnswerAsWritten(step, request, host.complete(request), input.language, host)
  }

  /** The turns `texts` on conversation `id`, one after another, each on the
      store the previous one left behind and each with its own host. For an
      id the store does not know, the first turn uses up `freshId`, and the
      sequence stops there. */
  function Converse(store: Store, options: Options, id: string, texts: seq<string>, language: string,
                    freshId: string, homeInfo: Outcome<string>, hosts: seq<Host>): (ts: seq<Turn>)
    requires freshId !in store && |hosts| == |texts|
    decreases |texts|
  {
    if |texts| == 0 then []
    else
      var t := Process(store, options, UserInput(texts[0], Some(id), language), freshId, homeInfo, hosts[0]);
      if freshId in t.store then [t]
      else [t] + Converse(t.store, options, id, texts[1..], language, freshId, homeInfo, hosts[1..])
  }

  /** However many turns continue a known conversation, whatever the
      completion service, the bus and the decoder do, every turn sends the
      recorded list plus only its own user message and leaves the store as
      it was: the history is never extended. */
  lemma {:induction false} ConverseNeverExtends(store: Store, options: Options, id: string, texts: seq<string>,
                                                language: string, freshId: string, homeInfo: Outcome<string>,
                                                hosts: seq<Host>)
    requires freshId !in store && |hosts| == |texts| && id in store
    ensures var ts := Converse(store, options, id, texts, language, freshId, homeInfo, hosts);
            && |ts| == |texts|
            && forall i :: 0 <= i < |ts| ==>
                 && ts[i].store == store
                 && ts[i].request == Some(RequestFor(options, Step(id, store[id] + [UserMessage(texts[i])], store)))
    decreases |texts|
  {
    if |texts| > 0 {
      var t := Process(store, options, UserInput(texts[0], Some(id), language), freshId, homeInfo, hosts[0]);
      assert t.store == store;
      ConverseNeverExtends(store, options, id, texts[1..], language, freshId, homeInfo, hosts[1..]);
    }
  }
}
