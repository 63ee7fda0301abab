/**
  The chat panel (`handleSubmit` and `handleClearChat` in
  src/components/Chat.tsx): a guard against blank input and requests in
  flight, the user message appended and sent with the history before it, the
  server's answer classified into one assistant reply or one error with an
  apology, and the loading flag reset at the end.

  `handleSubmit` awaits the network, so it is two methods: `BeginSubmit`, up
  to the `fetch`, and `CompleteSubmit`, from the response to the `finally`.
  `Submit` runs both back to back. The `fetch` outcome is an input and
  `JSON.parse` the oracle `parse`.
*/
module ChatPanel {
  import opened JsValues
  import opened ChatContext

  const SendFailed := "Failed to send message. Please try again."
  const NoResponse := "No response received"
  const InvalidFormat := "Invalid response format"
  const UnexpectedClientError := "An unexpected error occurred"
  const Apology := "Sorry, I encountered an error. Please try again."

  /** What `fetch('/api/chat', ...)` and `response.text()` give: the
      response's `ok` flag and body text, or a rejection. */
  datatype FetchOutcome = Responded(ok: bool, text: string) | Rejected(error: Thrown)

  /** How a request ends for the user: a reply whose content is shown, or an
      error message. */
  datatype Classification = Reply(content: JsValue) | Failed(message: string)

  /** `error instanceof Error ? error.message : 'An unexpected error occurred'`. */
  function ErrorText(e: Thrown): (r: string)
    ensures e.ErrorInstance? ==> r == e.message
    ensures e.NonErrorValue? ==> r == UnexpectedClientError
  {
    match e
    case ErrorInstance(m) => m
    case NonErrorValue => UnexpectedClientError
  }

  /** `data.choices?.[0]?.message`. */
  function FirstChoiceMessage(data: JsValue): JsValue
    requires !Nullish(data)
  {
    var choices := Prop(data, "choices");
    if Nullish(choices) then Undefined
    else
      var first := Index(choices, 0);
      if Nullish(first) then Undefined else Prop(first, "message")
  }

  /** The `try` block of `handleSubmit` after the request is sent: each
      failed check throws an `Error` whose message the `catch` shows. Reading
      `data.error` of a `null` body throws a `TypeError`. */
  function Classify(fetched: FetchOutcome, parse: string -> ParseOutcome): (c: Classification)
    ensures c.Reply? ==> fetched.Responded? && fetched.ok && fetched.text != ""
  {
    match fetched
    case Rejected(e) => Failed(ErrorText(e))
    case Responded(ok, text) =>
      if !ok then Failed(SendFailed)
      else if text == "" then Failed(NoResponse)
      else match parse(text)
        case SyntaxError(_) => Failed(InvalidFormat)
        case Parsed(data) =>
          if Nullish(data) then Failed(ReadOfNullishMessage(data, "error"))
          else if Truthy(Prop(data, "error")) then Failed(JsString(Prop(data, "error")))
          else
            var message := FirstChoiceMessage(data);
            if Truthy(message) then Reply(Prop(message, "content")) else Failed(InvalidFormat)
  }

  /** The one assistant message appended for a classification: the reply,
      or the fixed apology. */
  function AssistantMessageFor(c: Classification): (m: Message)
    ensures m.role == Assistant
    ensures c.Reply? ==> m.content == c.content
    ensures c.Failed? ==> m.content == Str(Apology)
  {
    match c
    case Reply(content) => Message(Assistant, content)
    case Failed(_) => Message(Assistant, Str(Apology))
  }

  /** The checks run in order and the first one that fails decides the
      error: a rejected request (its `Error` message, or the generic text
      for anything else thrown), a non-ok status, then an empty body, then unparsable JSON, then
      a truthy `error` field, then a missing first choice message. */
  lemma ClassificationOrder(ok: bool, text: string, parse: string -> ParseOutcome, e: Thrown)
    ensures e.ErrorInstance? ==> Classify(Rejected(e), parse) == Failed(e.message)
    ensures e.NonErrorValue? ==> Classify(Rejected(e), parse) == Failed(UnexpectedClientError)
    ensures !ok ==> Classify(Responded(ok, text), parse) == Failed(SendFailed)
    ensures ok && text == "" ==> Classify(Responded(ok, text), parse) == Failed(NoResponse)
    ensures ok && text != "" && parse(text).SyntaxError? ==> Classify(Responded(ok, text), parse) == Failed(InvalidFormat)
    ensures ok && text != "" && parse(text).Parsed? && !Nullish(parse(text).value)
            && Truthy(Prop(parse(text).value, "error")) ==>
              Classify(Responded(ok, text), parse) == Failed(JsString(Prop(parse(text).value, "error")))
    ensures ok && text != "" && parse(text).Parsed? && !Nullish(parse(text).value)
            && !Truthy(Prop(parse(text).value, "error")) && !Truthy(FirstChoiceMessage(parse(text).value)) ==>
              Classify(Responded(ok, text), parse) == Failed(InvalidFormat)
  {
  }

  /** A reply is recognised exactly when the response is ok, non-empty,
      parses to a non-null value without a truthy `error`, and has a truthy
      first choice message; the reply's content is that message's `content`. */
  lemma ReplyExactly(fetched: FetchOutcome, parse: string -> ParseOutcome)
    ensures Classify(fetched, parse).Reply?
            <==> (&& fetched.Responded? && fetched.ok && fetched.text != ""
                  && parse(fetched.text).Parsed? && !Nullish(parse(fetched.text).value)
                  && !Truthy(Prop(parse(fetched.text).value, "error"))
                  && Truthy(FirstChoiceMessage(parse(fetched.text).value)))
    ensures Classify(fetched, parse).Reply? ==>
              Classify(fetched, parse).content == Prop(FirstChoiceMessage(parse(fetched.text).value), "content")
  {
  }

  /** The state of the `Chat` component: its own input, loading flag and
      error, and the session store it shares through `useChat`. */
  class ChatPanel {
    const store: ChatStore
    var input: string
    var isLoading: bool
    var error: Option<string>

    /** The store is valid and its persistence effect is up to date, as it
        is after every render. */
    ghost predicate Valid()
      reads this, store
    {
      store.Valid() && store.Persisted()
    }

    constructor (store: ChatStore)
      requires store.Valid() && store.Persisted()
      ensures this.store == store && Valid()
      ensures input == "" && !isLoading && error == None
    {
      this.store := store;
      input := "";
      isLoading := false;
      error := None;
    }

    /** The input's `onChange`; the input is disabled while loading. */
    method SetInput(text: string)
      requires !isLoading
      modifies this`input
      ensures input == text
    {
      input := text;
    }

    /** `handleSubmit` up to the `fetch`. Blank input or a request in flight
        changes nothing and sends nothing. Otherwise the error is cleared,
        the untrimmed input is appended as a user message and sent after the
        history before it, the input is emptied, loading starts, and the
        effect persists the list. */
    method BeginSubmit() returns (request: Option<seq<Message>>)
      requires Valid()
      modifies this, store
      ensures Valid()
      ensures Blank(old(input)) || old(isLoading) ==>
        && request == None
        && input == old(input) && isLoading == old(isLoading) && error == old(error)
        && store.messages == old(store.messages) && store.storage == old(store.storage)
      ensures !(Blank(old(input)) || old(isLoading)) ==>
        var user := Message(User, Str(old(input)));
        && request == Some(old(store.messages) + [user])
        && store.messages == old(store.messages) + [user]
        && input == "" && isLoading && error == None
        && store.storage == old(store.storage)[ChatKey(store.sessionId) := store.codec.encode(store.messages)]
    {
      TrimIsEmptyIffBlank(input);
      if Trim(input) == "" || isLoading {
        return None;
      }
      error := None;
      var user := Message(User, Str(input));
      request := Some(store.messages + [user]);
      store.AddMessage(user);
      input := "";
      isLoading := true;
      store.SyncStorage();
    }

    /** `handleSubmit` from the response on: exactly one assistant message
        is appended (the reply, or the apology with the error set), the
        input is left alone, loading ends, and the effect persists the list. */
    method CompleteSubmit(fetched: FetchOutcome, parse: string -> ParseOutcome)
      requires Valid() && isLoading
      modifies this, store
      ensures Valid()
      ensures var c := Classify(fetched, parse);
        && store.messages == old(store.messages) + [AssistantMessageFor(c)]
        && error == (if c.Failed? then Some(c.message) else old(error))
      ensures !isLoading && input == old(input)
      ensures store.storage == old(store.storage)[ChatKey(store.sessionId) := store.codec.encode(store.messages)]
    {
      var c := Classify(fetched, parse);
      if c.Failed? {
        error := Some(c.message);
      }
      store.AddMessage(AssistantMessageFor(c));
      isLoading := false;
      store.SyncStorage();
    }

    /** The whole of `handleSubmit` when nothing else happens while the
        request is in flight. An accepted submit grows the history by
        exactly two messages, the user's and one assistant message, keeps
        everything before them, and always ends with loading off; the error
        is cleared on a reply and set on a failure. */
    method Submit(fetched: FetchOutcome, parse: string -> ParseOutcome) returns (request: Option<seq<Message>>)
      requires Valid()
      modifies this, store
      ensures Valid()
      ensures Blank(old(input)) || old(isLoading) ==>
        && request == None
        && input == old(input) && isLoading == old(isLoading) && error == old(error)
        && store.messages == old(store.messages) && store.storage == old(store.storage)
      ensures !(Blank(old(input)) || old(isLoading)) ==>
        var user := Message(User, Str(old(input)));
        var c := Classify(fetched, parse);
        && request == Some(old(store.messages) + [user])
        && store.messages == old(store.messages) + [user, AssistantMessageFor(c)]
        && |store.messages| == |old(store.messages)| + 2
        && input == "" && !isLoading
        && error == (if c.Failed? then Some(c.message) else None)
        && store.storage == old(store.storage)[ChatKey(store.sessionId) := store.codec.encode(store.messages)]
    {
      request := BeginSubmit();
      if request.Some? {
        CompleteSubmit(fetched, parse);
      }
    }

    /** `handleClearChat`: the list is emptied (the store removes its stored
        copy and the effect then writes the empty list back), the input is
        emptied and the error cleared. */
    method HandleClearChat()
      requires Valid()
      modifies this, store
      ensures Valid()
      ensures store.messages == [] && input == "" && error == None && isLoading == old(isLoading)
      ensures store.storage == old(store.storage)[ChatKey(store.sessionId) := store.codec.encode([])]
    {
      store.ClearChat();
      input := "";
      error := None;
      store.SyncStorage();
    }
  }
}
