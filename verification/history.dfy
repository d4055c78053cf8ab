/** The conversation-history step of a turn: the store maps a conversation
    id to the message list recorded for it. A known id is continued, an
    unknown one is opened with a fixed five-message seed. */
module History {
  import opened Python

  datatype Role = User | Assistant

  /** One turn of a conversation as sent to the completion service. */
  datatype Message = Message(role: Role, content: string)

  /** The process-wide history: conversation id to its recorded messages. */
  type Store = map<string, seq<Message>>

  /** The ids, the messages of the current request and the store after the step. */
  datatype Step = Step(conversationId: string, messages: seq<Message>, store: Store)

  /** The canned acknowledgements the seed puts in the assistant's mouth. */
  const PromptAck := "{\"comment\":\"Ok!\"}"
  const HomeInfoAck := "{\"comment\":\"Got it!\"}"

  /** The request's conversation id names a conversation the store holds
      (an absent id never does). */
  predicate Known(store: Store, requested: Option<string>) {
    requested.Some? && requested.value in store
  }

  /** The five messages that open a new conversation, in order. */
  predicate IsSeed(messages: seq<Message>, systemPrompt: string, homeInfo: string, newMessage: Message) {
    && |messages| == 5
    && messages[0] == Message(User, systemPrompt)
    && messages[1] == Message(Assistant, PromptAck)
    && messages[2] == Message(User, homeInfo)
    && messages[3] == Message(Assistant, HomeInfoAck)
    && messages[4] == newMessage
  }

  /** Continuing a known conversation: the recorded list plus the new turn;
      nothing is written back. */
  function Continue(store: Store, id: string, newMessage: Message): (s: Step)
    requires id in store
    ensures s.conversationId == id
    ensures |s.messages| == |store[id]| + 1
    ensures s.messages[..|store[id]|] == store[id] && s.messages[|store[id]|] == newMessage
    ensures s.store == store
  {
    Step(id, store[id] + [newMessage], store)
  }

  /** Opening a conversation under a fresh id with the seed, which is
      recorded under that id. */
  function Open(store: Store, freshId: string, newMessage: Message, systemPrompt: string, homeInfo: string): (s: Step)
    requires freshId !in store
    ensures s.conversationId == freshId
    ensures IsSeed(s.messages, systemPrompt, homeInfo, newMessage)
    ensures s.store.Keys == store.Keys + {freshId}
    ensures s.store[freshId] == s.messages
    ensures forall k :: k in store ==> s.store[k] == store[k]
  {
    var messages := [
      Message(User, systemPrompt),
      Message(Assistant, PromptAck),
      Message(User, homeInfo),
      Message(Assistant, HomeInfoAck),
      newMessage
    ];
    Step(freshId, messages, store[freshId := messages])
  }

  /** The history step. `systemPrompt` is the configured system prompt,
      `freshId` the newly generated unique id and `homeInfo` the outcome of
      rendering the home-information template; they are only consulted for
      an unknown conversation. A rendering failure escapes before anything
      is recorded. */
  function Generate(store: Store, requested: Option<string>, newMessage: Message,
                    systemPrompt: string, freshId: string, homeInfo: Outcome<string>): (r: Outcome<Step>)
    requires freshId !in store
    ensures Known(store, requested) ==>
      r.Value? && r.value.conversationId == requested.value &&
      r.value.messages == store[requested.value] + [newMessage] && r.value.store == store
    ensures !Known(store, requested) && homeInfo.Raised? ==> r == Raised(homeInfo.exc)
    ensures !Known(store, requested) && homeInfo.Value? ==>
      r.Value? && r.value.conversationId == freshId &&
      IsSeed(r.value.messages, systemPrompt, homeInfo.value, newMessage) &&
      r.value.store == store[freshId := r.value.messages]
  {
    if Known(store, requested) then
      Value(Continue(store, requested.value, newMessage))
    else
      match homeInfo
      case Raised(e) => Raised(e)
      case Value(text) => Value(Open(store, freshId, newMessage, systemPrompt, text))
  }

  /** A conversation opened by one turn is continued by the next turn that
      names its id: the second request is the first one's messages plus the
      second turn, and the store still holds only the seed. */
  lemma OpenThenContinue(store: Store, requested: Option<string>, first: Message, second: Message,
                         systemPrompt: string, freshId: string, homeInfo: string, otherId: string)
    requires freshId !in store && !Known(store, requested)
    requires otherId !in store && otherId != freshId
    ensures var s1 := Generate(store, requested, first, systemPrompt, freshId, Value(homeInfo)).value;
            var s2 := Generate(s1.store, Some(s1.conversationId), second, systemPrompt, otherId, Value(homeInfo)).value;
            && s2.conversationId == s1.conversationId
            && s2.messages == s1.messages + [second]
            && |s2.messages| == 6
            && s2.store == s1.store
            && |s2.store[s2.conversationId]| == 5
  {
  }
}
