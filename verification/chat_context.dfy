/**
  The chat session store (`ChatProvider` and `useChat` in
  src/contexts/ChatContext.tsx): a session id kept in browser storage under
  `chatSessionId`, and an append-only message list persisted under
  `chat_<sessionId>`.

  Browser storage is the map `storage`. `JSON.stringify` and `JSON.parse` of
  the message list are the pair of functions in a `Codec`; `uuid()` is the
  argument `freshId` of the constructor. React's persistence effect is the
  method `SyncStorage`, which the chat panel runs after each of its state
  changes, as React does after each render that changed the list.
*/
module ChatContext {
  import opened JsValues

  datatype Role = User | Assistant

  /** `{role, content}`. The declared type says `content` is a string; the
      panel stores whatever the server's reply held there. */
  datatype Message = Message(role: Role, content: JsValue)

  const SessionIdKey := "chatSessionId"
  const ChatKeyPrefix := "chat_"
  const OutsideProviderMessage := "useChat must be used within ChatProvider"

  /** `JSON.stringify` of a message list, and `JSON.parse` back to one
      (`None` when the stored text does not parse). */
  datatype Codec = Codec(encode: seq<Message> -> string, decode: string -> Option<seq<Message>>)

  /** What JSON guarantees of the pair: encoding is never empty text, and
      decoding an encoding gives the list back. */
  ghost predicate Faithful(codec: Codec) {
    forall ms :: codec.encode(ms) != "" && codec.decode(codec.encode(ms)) == Some(ms)
  }

  /** The storage key of a session's messages. It never collides with the
      key of the session id, and different sessions have different keys. */
  function ChatKey(sessionId: string): (k: string)
    ensures k != SessionIdKey
    ensures |k| == |ChatKeyPrefix| + |sessionId| && k[|ChatKeyPrefix|..] == sessionId
  {
    var k := ChatKeyPrefix + sessionId;
    assert k[4] == '_' != SessionIdKey[4];
    k
  }

  lemma ChatKeyInjective(a: string, b: string)
    ensures ChatKey(a) == ChatKey(b) ==> a == b
  {
  }

  datatype SessionInit = SessionInit(sessionId: string, storage: map<string, string>)

  /** The session id initialiser: a non-empty stored id is reused and storage
      is left alone; otherwise the fresh id is stored and used. Either way
      storage then holds the id returned, and no other key changes. */
  function InitSessionId(storage: map<string, string>, freshId: string): (r: SessionInit)
    ensures SessionIdKey in r.storage && r.storage[SessionIdKey] == r.sessionId
    ensures r.storage - {SessionIdKey} == storage - {SessionIdKey}
    ensures SessionIdKey in storage && storage[SessionIdKey] != "" ==>
              r.sessionId == storage[SessionIdKey] && r.storage == storage
    ensures !(SessionIdKey in storage && storage[SessionIdKey] != "") ==> r.sessionId == freshId
  {
    if SessionIdKey in storage && storage[SessionIdKey] != "" then SessionInit(storage[SessionIdKey], storage)
    else SessionInit(freshId, storage[SessionIdKey := freshId])
  }

  /** Once a non-empty id has been stored, every later initialisation returns
      it and changes nothing, whatever fresh id it is offered. */
  lemma SessionIdStable(storage: map<string, string>, freshId: string, laterId: string)
    requires freshId != ""
    ensures var first := InitSessionId(storage, freshId);
      InitSessionId(first.storage, laterId) == first
  {
  }

  /** The initial message list: the decoding of what is stored under the
      session's key, or the empty list when nothing (or empty text) is
      stored there. `None` is the case where `JSON.parse` throws. */
  function LoadMessages(storage: map<string, string>, sessionId: string, decode: string -> Option<seq<Message>>)
    : (r: Option<seq<Message>>)
    ensures ChatKey(sessionId) !in storage ==> r == Some([])
    ensures ChatKey(sessionId) in storage && storage[ChatKey(sessionId)] == "" ==> r == Some([])
    ensures ChatKey(sessionId) in storage && storage[ChatKey(sessionId)] != "" ==>
              r == decode(storage[ChatKey(sessionId)])
  {
    var key := ChatKey(sessionId);
    if key in storage && storage[key] != "" then decode(storage[key]) else Some([])
  }

  /** A page reload after the persistence effect has run restores the same
      session and the same messages. */
  lemma ReloadRestoresConversation(storage: map<string, string>, sessionId: string, messages: seq<Message>,
                                   codec: Codec, freshId: string)
    requires Faithful(codec)
    requires sessionId != "" && SessionIdKey in storage && storage[SessionIdKey] == sessionId
    requires ChatKey(sessionId) in storage && storage[ChatKey(sessionId)] == codec.encode(messages)
    ensures InitSessionId(storage, freshId) == SessionInit(sessionId, storage)
    ensures LoadMessages(storage, sessionId, codec.decode) == Some(messages)
  {
  }

  /** The state of one mounted `ChatProvider`, together with the browser
      storage it reads and writes. */
  class ChatStore {
    const sessionId: string
    const codec: Codec
    var messages: seq<Message>
    var storage: map<string, string>

    /** The session id is non-empty and is what storage holds under `chatSessionId`. */
    ghost predicate Valid()
      reads this
    {
      sessionId != "" && SessionIdKey in storage && storage[SessionIdKey] == sessionId
    }

    /** The persistence effect has run for the current messages. */
    ghost predicate Persisted()
      reads this
    {
      ChatKey(sessionId) in storage && storage[ChatKey(sessionId)] == codec.encode(messages)
    }

    /** Mounting: initialise the session id, load the messages, then run the
        persistence effect of the first render. The source's render throws
        when the stored list does not parse; that case is `LoadMessages`
        returning `None`, and no store is mounted. */
    constructor Mount(storage0: map<string, string>, freshId: string, codec: Codec)
      requires freshId != ""
      requires LoadMessages(InitSessionId(storage0, freshId).storage, InitSessionId(storage0, freshId).sessionId,
                            codec.decode).Some?
      ensures Valid() && Persisted()
      ensures this.codec == codec
      ensures sessionId == InitSessionId(storage0, freshId).sessionId
      ensures messages == LoadMessages(InitSessionId(storage0, freshId).storage, sessionId, codec.decode).value
      ensures storage == InitSessionId(storage0, freshId).storage[ChatKey(sessionId) := codec.encode(messages)]
    {
      var init := InitSessionId(storage0, freshId);
      sessionId := init.sessionId;
      this.codec := codec;
      var loaded := LoadMessages(init.storage, init.sessionId, codec.decode).value;
      messages := loaded;
      storage := init.storage[ChatKey(init.sessionId) := codec.encode(loaded)];
    }

    /** `addMessage`: append at the end; earlier messages and storage are untouched. */
    method AddMessage(m: Message)
      modifies this`messages
      ensures messages == old(messages) + [m]
    {
      messages := messages + [m];
    }

    /** `clearChat`: empty the list and remove the session's stored list;
        every other key, the session id's included, is untouched. */
    method ClearChat()
      requires Valid()
      modifies this
      ensures Valid()
      ensures messages == []
      ensures storage == old(storage) - {ChatKey(sessionId)}
    {
      messages := [];
      storage := storage - {ChatKey(sessionId)};
    }

    /** The persistence effect: store the encoding of the current list under
        the session's key. */
    method SyncStorage()
      requires Valid()
      modifies this`storage
      ensures Valid() && Persisted()
      ensures storage == old(storage)[ChatKey(sessionId) := codec.encode(messages)]
    {
      storage := storage[ChatKey(sessionId) := codec.encode(messages)];
    }
  }

  /** What `useChat` returns: the store of the enclosing provider, or the
      error it throws outside one. */
  datatype ContextLookup = Provided(store: ChatStore) | Thrown(message: string)

  /** `useChat`, given what `useContext` returns (`null` outside a provider). */
  function UseChat(context: ChatStore?): (r: ContextLookup)
    ensures r.Provided? <==> context != null
    ensures r.Provided? ==> r.store == context
    ensures r.Thrown? ==> r.message == OutsideProviderMessage
  {
    if context == null then Thrown(OutsideProviderMessage) else Provided(context)
  }
}
