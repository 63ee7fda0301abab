/**
  The serverless chat endpoint (`handler` in netlify/functions/chat.ts) as a
  total function from an inbound request, the configuration and the outcomes
  of the external calls it makes, to the HTTP response it returns and the
  list of external calls it made.

  `JSON.parse` is the oracle `parse` and `JSON.stringify` of the saved
  contact the oracle `stringify`; the first completion, the contact-save
  response and the follow-up completion are inputs. Response bodies are kept
  as values: `EmptyObject` is `{}`, `ErrorBody(e)` is `{error: e}` and
  `ChoicesBody(c)` is `{choices: [c]}`, with `None` for a missing choice
  (serialised as `null`).
*/
module ChatFunction {
  import opened JsValues

  const MethodNotAllowed := "Method not allowed"
  const BodyRequired := "Request body is required"
  const KeyNotConfigured := "OpenAI API key is not configured. Please check your environment variables."
  const InvalidJson := "Invalid JSON in request body"
  const MessagesNotArray := "Invalid messages format. Expected an array."
  const NoMessageContent := "No message content provided."
  const SaveFailed := "Failed to save contact information"
  const ProcessingErrorPrefix := "Error processing chat request: "
  const UnexpectedError := "An unexpected error occurred while processing the chat request"

  /** The one function offered to the model, and the parameters its schema
      declares as required. The handler itself never checks them. */
  const SaveContactFunction := "saveContact"
  const RequiredContactFields := ["from_name", "from_email", "service_category", "budget", "project_details"]

  /** The inbound event: its HTTP method and its body, if any. */
  datatype Request = Request(httpMethod: string, body: Option<string>)

  /** `process.env.OPENAI_API_KEY`. */
  datatype Env = Env(apiKey: Option<string>)

  datatype FunctionCall = FunctionCall(name: string, arguments: string)

  /** The assistant message of a completion choice; `content` is `null`
      when the model asks for a function call. */
  datatype AssistantMessage = AssistantMessage(content: Option<string>, functionCall: Option<FunctionCall>)

  datatype Choice = Choice(index: int, message: AssistantMessage, finishReason: string)

  /** What a chat-completion call does: resolve with its choices, or throw. */
  datatype Completion = Completed(choices: seq<Choice>) | CompletionFailed(error: Thrown)

  /** What the `fetch` to the contact-save function does: resolve with a
      response (its `ok` flag and its body text), or reject. */
  datatype SaveResponse = SaveResponded(ok: bool, text: string) | SaveRejected(error: Thrown)

  datatype Body = EmptyObject | ErrorBody(error: string) | ChoicesBody(choice: Option<Choice>)

  datatype Response = Response(status: int, body: Body)

  /** An external call the handler makes: a chat completion (with or
      without the `saveContact` function offered) or a contact save. */
  datatype Call = ChatCompletion(messages: seq<JsValue>, offersSaveContact: bool) | SaveContact(args: JsValue)

  datatype Outcome = Outcome(response: Response, calls: seq<Call>)

  /** How the `try` block ends: by returning, or by throwing after the calls
      made so far. */
  datatype TryResult = Returned(outcome: Outcome) | Threw(error: Thrown, calls: seq<Call>)

  /** How validation of a present body ends: the message list to send, an
      early return, or an exception. */
  datatype Checked = Accepted(messages: seq<JsValue>) | Refused(response: Response) | Raised(error: Thrown)

  /** A string from the environment or the event counts as given when it is
      neither missing nor empty (JavaScript truthiness). */
  predicate Given(s: Option<string>) {
    s.Some? && s.value != ""
  }

  /** `messages[messages.length - 1]`, which is `undefined` for an empty array. */
  function LastMessage(messages: seq<JsValue>): (r: JsValue)
    ensures messages == [] ==> r == Undefined
    ensures messages != [] ==> r == messages[|messages| - 1]
  {
    if |messages| == 0 then Undefined else messages[|messages| - 1]
  }

  /** The message of the `TypeError` thrown by `const { messages } = parsedBody`
      when the body parses to `null`. */
  function DestructureMessage(v: JsValue): string
    requires Nullish(v)
  {
    "Cannot destructure property 'messages' of 'parsedBody' as it is " + JsString(v) + "."
  }

  /** The catch-all at the end of the handler. */
  function CatchAll(e: Thrown): (r: Response)
    ensures r.status == 500 && r.body.ErrorBody?
    ensures e.ErrorInstance? ==> r.body.error == ProcessingErrorPrefix + e.message
    ensures e.NonErrorValue? ==> r.body.error == UnexpectedError
  {
    Response(500, ErrorBody(
      match e
      case ErrorInstance(m) => ProcessingErrorPrefix + m
      case NonErrorValue => UnexpectedError))
  }

  /** The checks inside the `try` block, in source order: API key, JSON,
      `messages` is an array, the last message has truthy `content`. */
  function Validate(body: string, env: Env, parse: string -> ParseOutcome): (c: Checked)
    ensures c.Refused? ==> c.response.status in {400, 500} && c.response.body.ErrorBody?
    ensures c.Accepted? ==> |c.messages| > 0 && Truthy(LastMessage(c.messages)) && Truthy(Prop(LastMessage(c.messages), "content"))
  {
    if !Given(env.apiKey) then Refused(Response(500, ErrorBody(KeyNotConfigured)))
    else match parse(body)
      case SyntaxError(_) => Refused(Response(400, ErrorBody(InvalidJson)))
      case Parsed(parsed) =>
        if Nullish(parsed) then Raised(ErrorInstance(DestructureMessage(parsed)))
        else
          var messages := Prop(parsed, "messages");
          if !messages.Arr? then Refused(Response(400, ErrorBody(MessagesNotArray)))
          else
            var latest := LastMessage(messages.elems);
            if !Truthy(latest) || !Truthy(Prop(latest, "content")) then
              Refused(Response(400, ErrorBody(NoMessageContent)))
            else Accepted(messages.elems)
  }

  /** The assistant message as the SDK serialises it when it is sent back
      in the follow-up request. */
  function MessageJs(m: AssistantMessage): JsValue {
    var content := if m.content.Some? then Str(m.content.value) else Null;
    Obj(map["role" := Str("assistant"), "content" := content]
        + (if m.functionCall.Some?
           then map["function_call" := Obj(map["name" := Str(m.functionCall.value.name),
                                               "arguments" := Str(m.functionCall.value.arguments)])]
           else map[]))
  }

  /** `{role: 'function', name, content}`: the function result folded back
      into the conversation. */
  function FunctionResultJs(name: string, content: string): JsValue {
    Obj(map["role" := Str("function"), "name" := Str(name), "content" := Str(content)])
  }

  /** The messages of the follow-up completion: the request's messages,
      then the assistant's function-call message, then the function result. */
  function FollowUpMessages(messages: seq<JsValue>, m: AssistantMessage, name: string, result: string): (r: seq<JsValue>)
    ensures |r| == |messages| + 2 && r[..|messages|] == messages
    ensures r[|messages|] == MessageJs(m) && r[|messages| + 1] == FunctionResultJs(name, result)
  {
    messages + [MessageJs(m), FunctionResultJs(name, result)]
  }

  /** The conversation part of the `try` block: the first completion, the
      function-call dispatch, and the single follow-up completion. */
  function Converse(messages: seq<JsValue>, parse: string -> ParseOutcome, stringify: JsValue -> string,
                    first: Completion, save: SaveResponse, followUp: Completion): (t: TryResult)
  {
    var asked := [ChatCompletion(messages, true)];
    match first
    case CompletionFailed(e) => Threw(e, asked)
    case Completed(choices) =>
      if |choices| == 0 then Threw(ErrorInstance(ReadOfNullishMessage(Undefined, "message")), asked)
      else
        var message := choices[0].message;
        match message.functionCall
        case None => Returned(Outcome(Response(200, ChoicesBody(Some(choices[0]))), asked))
        case Some(call) =>
          match parse(call.arguments)
          case SyntaxError(m) => Threw(ErrorInstance(m), asked)
          case Parsed(args) =>
            var saved := asked + [SaveContact(args)];
            match save
            case SaveRejected(e) => Threw(e, saved)
            case SaveResponded(ok, text) =>
              if !ok then Returned(Outcome(Response(500, ErrorBody(SaveFailed)), saved))
              else match parse(text)
                case SyntaxError(m) => Threw(ErrorInstance(m), saved)
                case Parsed(saveResult) =>
                  var all := saved + [ChatCompletion(FollowUpMessages(messages, message, call.name, stringify(saveResult)), false)];
                  match followUp
                  case CompletionFailed(e) => Threw(e, all)
                  case Completed(more) =>
                    Returned(Outcome(Response(200, ChoicesBody(if |more| == 0 then None else Some(more[0]))), all))
  }

  /** The external calls a handler run may make, in order: one completion
      offering `saveContact`, then one contact save, then one follow-up
      completion without functions whose messages extend the first ones by
      exactly two. Never more. */
  predicate CallsInOrder(calls: seq<Call>) {
    && |calls| <= 3
    && (|calls| >= 1 ==> calls[0].ChatCompletion? && calls[0].offersSaveContact)
    && (|calls| >= 2 ==> calls[1].SaveContact?)
    && (|calls| == 3 ==>
          && calls[2].ChatCompletion? && !calls[2].offersSaveContact
          && |calls[2].messages| == |calls[0].messages| + 2
          && calls[2].messages[..|calls[0].messages|] == calls[0].messages)
  }

  /** The handler. */
  function Handle(req: Request, env: Env, parse: string -> ParseOutcome, stringify: JsValue -> string,
                  first: Completion, save: SaveResponse, followUp: Completion): (out: Outcome)
    ensures out.response.status in {200, 204, 400, 405, 500}
    ensures out.response.status == 204 <==> out.response.body == EmptyObject
    ensures out.response.status == 200 <==> out.response.body.ChoicesBody?
    ensures CallsInOrder(out.calls)
  {
    if req.httpMethod == "OPTIONS" then Outcome(Response(204, EmptyObject), [])
    else if req.httpMethod != "POST" then Outcome(Response(405, ErrorBody(MethodNotAllowed)), [])
    else if !Given(req.body) then Outcome(Response(400, ErrorBody(BodyRequired)), [])
    else match Validate(req.body.value, env, parse)
      case Refused(r) => Outcome(r, [])
      case Raised(e) => Outcome(CatchAll(e), [])
      case Accepted(messages) =>
        match Converse(messages, parse, stringify, first, save, followUp)
        case Returned(o) => o
        case Threw(e, calls) => Outcome(CatchAll(e), calls)
  }

  // Properties of the handler.

  /** A request the handler forwards to the model with `messages`: a POST
      with a body, the API key configured, and a body that parses to a
      non-null value whose `messages` field is the non-empty array
      `messages` whose last element has truthy `content`. */
  predicate ChatRequest(req: Request, env: Env, parse: string -> ParseOutcome, messages: seq<JsValue>) {
    && req.httpMethod == "POST" && Given(req.body) && Given(env.apiKey)
    && parse(req.body.value).Parsed?
    && !Nullish(parse(req.body.value).value)
    && Prop(parse(req.body.value).value, "messages") == Arr(messages)
    && messages != []
    && Truthy(messages[|messages| - 1])
    && Truthy(Prop(messages[|messages| - 1], "content"))
  }

  /** A body the handler answers with 400 once the key is configured: not
      JSON, or a non-null value whose `messages` is not an array or whose
      last message is missing or has no truthy `content`. */
  predicate MalformedChatBody(p: ParseOutcome) {
    || p.SyntaxError?
    || (&& !Nullish(p.value)
        && var messages := Prop(p.value, "messages");
           || !messages.Arr?
           || messages.elems == []
           || !Truthy(messages.elems[|messages.elems| - 1])
           || !Truthy(Prop(messages.elems[|messages.elems| - 1], "content")))
  }

  /** A preflight request is answered 204 with `{}`, whatever its body and
      whatever the configuration, and nothing is called. */
  lemma PreflightAlwaysAnswered(req: Request, env: Env, parse: string -> ParseOutcome, stringify: JsValue -> string,
                                first: Completion, save: SaveResponse, followUp: Completion)
    requires req.httpMethod == "OPTIONS"
    ensures Handle(req, env, parse, stringify, first, save, followUp) == Outcome(Response(204, EmptyObject), [])
  {
  }

  /** Any method other than OPTIONS and POST is answered 405 and nothing is called. */
  lemma OtherMethodsNotAllowed(req: Request, env: Env, parse: string -> ParseOutcome, stringify: JsValue -> string,
                               first: Completion, save: SaveResponse, followUp: Completion)
    requires req.httpMethod != "OPTIONS" && req.httpMethod != "POST"
    ensures Handle(req, env, parse, stringify, first, save, followUp)
            == Outcome(Response(405, ErrorBody(MethodNotAllowed)), [])
  {
  }

  /** The checks of a POST run in order and the first failing one decides
      the response; no external call is made before all of them pass. In
      particular a missing key is reported even when the body is not JSON. */
  lemma ValidationLadder(req: Request, env: Env, parse: string -> ParseOutcome, stringify: JsValue -> string,
                         first: Completion, save: SaveResponse, followUp: Completion)
    requires req.httpMethod == "POST"
    ensures var out := Handle(req, env, parse, stringify, first, save, followUp);
      && (!Given(req.body) ==>
            out == Outcome(Response(400, ErrorBody(BodyRequired)), []))
      && (Given(req.body) && !Given(env.apiKey) ==>
            out == Outcome(Response(500, ErrorBody(KeyNotConfigured)), []))
      && (Given(req.body) && Given(env.apiKey) && parse(req.body.value).SyntaxError? ==>
            out == Outcome(Response(400, ErrorBody(InvalidJson)), []))
      && (Given(req.body) && Given(env.apiKey) && parse(req.body.value).Parsed? && Nullish(parse(req.body.value).value) ==>
            out == Outcome(Response(500, ErrorBody(ProcessingErrorPrefix + DestructureMessage(parse(req.body.value).value))), []))
      && (Given(req.body) && Given(env.apiKey) && parse(req.body.value).Parsed? && !Nullish(parse(req.body.value).value)
          && !Prop(parse(req.body.value).value, "messages").Arr? ==>
            out == Outcome(Response(400, ErrorBody(MessagesNotArray)), []))
      && (Given(req.body) && Given(env.apiKey) && parse(req.body.value).Parsed? && !Nullish(parse(req.body.value).value)
          && Prop(parse(req.body.value).value, "messages") == Arr([]) ==>
            out == Outcome(Response(400, ErrorBody(NoMessageContent)), []))
  {
  }

  /** 400 is answered exactly to a POST without a body, or with the key
      configured and a malformed body; never to anything the model or the
      contact sink did. */
  lemma BadRequestExactly(req: Request, env: Env, parse: string -> ParseOutcome, stringify: JsValue -> string,
                          first: Completion, save: SaveResponse, followUp: Completion)
    ensures Handle(req, env, parse, stringify, first, save, followUp).response.status == 400
            <==> (req.httpMethod == "POST"
                  && (!Given(req.body) || (Given(env.apiKey) && MalformedChatBody(parse(req.body.value)))))
  {
  }

  /** The model is called exactly for chat requests, and first with the
      request's own messages and the `saveContact` function offered. */
  lemma ModelCalledExactlyForChatRequests(req: Request, env: Env, parse: string -> ParseOutcome, stringify: JsValue -> string,
                                          first: Completion, save: SaveResponse, followUp: Completion,
                                          messages: seq<JsValue>)
    ensures var out := Handle(req, env, parse, stringify, first, save, followUp);
      && (out.calls != [] ==> ChatRequest(req, env, parse, out.calls[0].messages))
      && (ChatRequest(req, env, parse, messages) ==>
            out.calls != [] && out.calls[0] == ChatCompletion(messages, true))
  {
  }

  /** A first reply without a function call is passed through unchanged as
      the only choice, and the contact sink is not called. */
  lemma ReplyWithoutFunctionCallPassedThrough(req: Request, env: Env, parse: string -> ParseOutcome, stringify: JsValue -> string,
                                              choices: seq<Choice>, save: SaveResponse, followUp: Completion,
                                              messages: seq<JsValue>)
    requires ChatRequest(req, env, parse, messages)
    requires |choices| > 0 && choices[0].message.functionCall.None?
    ensures Handle(req, env, parse, stringify, Completed(choices), save, followUp)
            == Outcome(Response(200, ChoicesBody(Some(choices[0]))), [ChatCompletion(messages, true)])
  {
  }

  /** Function-call arguments that are not JSON throw inside the `try`: the
      answer is 500 with the parser's message after the prefix, and nothing
      is saved. */
  lemma MalformedArgumentsAre500(req: Request, env: Env, parse: string -> ParseOutcome, stringify: JsValue -> string,
                                 choices: seq<Choice>, save: SaveResponse, followUp: Completion,
                                 messages: seq<JsValue>, call: FunctionCall, reason: string)
    requires ChatRequest(req, env, parse, messages)
    requires |choices| > 0 && choices[0].message.functionCall == Some(call)
    requires parse(call.arguments) == SyntaxError(reason)
    ensures Handle(req, env, parse, stringify, Completed(choices), save, followUp)
            == Outcome(Response(500, ErrorBody(ProcessingErrorPrefix + reason)), [ChatCompletion(messages, true)])
  {
  }

  /** The contact sink receives the parsed arguments exactly as the model
      gave them, whatever they are: required fields are not checked first. */
  lemma SinkReceivesArgumentsVerbatim(req: Request, env: Env, parse: string -> ParseOutcome, stringify: JsValue -> string,
                                      choices: seq<Choice>, save: SaveResponse, followUp: Completion,
                                      messages: seq<JsValue>, call: FunctionCall, args: JsValue)
    requires ChatRequest(req, env, parse, messages)
    requires |choices| > 0 && choices[0].message.functionCall == Some(call)
    requires parse(call.arguments) == Parsed(args)
    ensures var out := Handle(req, env, parse, stringify, Completed(choices), save, followUp);
      |out.calls| >= 2 && out.calls[..2] == [ChatCompletion(messages, true), SaveContact(args)]
  {
  }

  /** Every parameter the `saveContact` schema declares as required is a
      field of `args`. */
  predicate HasRequiredContactFields(args: JsValue) {
    args.Obj? && forall f :: f in RequiredContactFields ==> f in args.props
  }

  /** Arguments that lack a parameter the schema declares as required (an
      e-mail address, say) are still sent to the sink. */
  lemma IncompleteContactStillSaved(req: Request, env: Env, parse: string -> ParseOutcome, stringify: JsValue -> string,
                                    choices: seq<Choice>, save: SaveResponse, followUp: Completion,
                                    messages: seq<JsValue>, call: FunctionCall, args: JsValue)
    requires ChatRequest(req, env, parse, messages)
    requires |choices| > 0 && choices[0].message.functionCall == Some(call)
    requires parse(call.arguments) == Parsed(args) && !HasRequiredContactFields(args)
    ensures SaveContact(args) in Handle(req, env, parse, stringify, Completed(choices), save, followUp).calls
  {
    SinkReceivesArgumentsVerbatim(req, env, parse, stringify, choices, save, followUp, messages, call, args);
    var out := Handle(req, env, parse, stringify, Completed(choices), save, followUp);
    assert out.calls[1] == SaveContact(args);
  }

  /** A save the sink answers with a non-ok status is a 500 with a fixed
      message, and the model is not called again. */
  lemma SaveFailureStops(req: Request, env: Env, parse: string -> ParseOutcome, stringify: JsValue -> string,
                         choices: seq<Choice>, followUp: Completion,
                         messages: seq<JsValue>, call: FunctionCall, args: JsValue, text: string)
    requires ChatRequest(req, env, parse, messages)
    requires |choices| > 0 && choices[0].message.functionCall == Some(call)
    requires parse(call.arguments) == Parsed(args)
    ensures Handle(req, env, parse, stringify, Completed(choices), SaveResponded(false, text), followUp)
            == Outcome(Response(500, ErrorBody(SaveFailed)), [ChatCompletion(messages, true), SaveContact(args)])
  {
  }

  /** After a successful save the model is called exactly once more, with the
      request's messages followed by the function-call message and the
      function result, and its first choice is returned with 200 as it is,
      even when it asks for another function call. */
  lemma SingleFollowUpAfterSave(req: Request, env: Env, parse: string -> ParseOutcome, stringify: JsValue -> string,
                                choices: seq<Choice>, more: seq<Choice>,
                                messages: seq<JsValue>, call: FunctionCall, args: JsValue, text: string, saved: JsValue)
    requires ChatRequest(req, env, parse, messages)
    requires |choices| > 0 && choices[0].message.functionCall == Some(call)
    requires parse(call.arguments) == Parsed(args)
    requires parse(text) == Parsed(saved)
    ensures var out := Handle(req, env, parse, stringify, Completed(choices), SaveResponded(true, text), Completed(more));
      && out.calls == [ChatCompletion(messages, true), SaveContact(args),
                       ChatCompletion(messages + [MessageJs(choices[0].message),
                                                  FunctionResultJs(call.name, stringify(saved))], false)]
      && out.response == Response(200, ChoicesBody(if more == [] then None else Some(more[0])))
  {
  }

  /** A body that parses to `null` is not a 400: destructuring it throws,
      and the catch-all answers 500 before anything is called. */
  lemma NullBodyIsServerError(req: Request, env: Env, parse: string -> ParseOutcome, stringify: JsValue -> string,
                              first: Completion, save: SaveResponse, followUp: Completion)
    requires req.httpMethod == "POST" && Given(req.body) && Given(env.apiKey)
    requires parse(req.body.value) == Parsed(Null)
    ensures Handle(req, env, parse, stringify, first, save, followUp)
            == Outcome(Response(500, ErrorBody(ProcessingErrorPrefix + DestructureMessage(Null))), [])
  {
  }

  /** Every exception inside the `try` block after validation reaches the
      catch-all, which answers 500, with the calls made up to the throw: a
      rejected first completion, a first completion without choices (reading
      `message` of `undefined`), a rejected save, a save body that is not
      JSON, and a rejected follow-up completion. */
  lemma ThrownErrorsAreCaught(req: Request, env: Env, parse: string -> ParseOutcome, stringify: JsValue -> string,
                              messages: seq<JsValue>, choices: seq<Choice>, call: FunctionCall, args: JsValue,
                              save: SaveResponse, followUp: Completion, e: Thrown, text: string)
    requires ChatRequest(req, env, parse, messages)
    ensures Handle(req, env, parse, stringify, CompletionFailed(e), save, followUp)
            == Outcome(CatchAll(e), [ChatCompletion(messages, true)])
    ensures Handle(req, env, parse, stringify, Completed([]), save, followUp)
            == Outcome(CatchAll(ErrorInstance(ReadOfNullishMessage(Undefined, "message"))), [ChatCompletion(messages, true)])
    ensures |choices| > 0 && choices[0].message.functionCall == Some(call) && parse(call.arguments) == Parsed(args) ==>
      var asked := [ChatCompletion(messages, true), SaveContact(args)];
      && Handle(req, env, parse, stringify, Completed(choices), SaveRejected(e), followUp)
         == Outcome(CatchAll(e), asked)
      && (parse(text).SyntaxError? ==>
            Handle(req, env, parse, stringify, Completed(choices), SaveResponded(true, text), followUp)
            == Outcome(CatchAll(ErrorInstance(parse(text).message)), asked))
      && (parse(text).Parsed? ==>
            Handle(req, env, parse, stringify, Completed(choices), SaveResponded(true, text), CompletionFailed(e))
            == Outcome(CatchAll(e), asked + [ChatCompletion(FollowUpMessages(messages, choices[0].message, call.name,
                                                                             stringify(parse(text).value)), false)]))
  {
  }

  /** The error texts of a 500: the missing key, the failed save, or the
      catch-all's (the prefix and the thrown error's message, or the generic
      text). */
  lemma ServerErrorTexts(req: Request, env: Env, parse: string -> ParseOutcome, stringify: JsValue -> string,
                         first: Completion, save: SaveResponse, followUp: Completion)
    ensures var r := Handle(req, env, parse, stringify, first, save, followUp).response;
      r.status == 500 ==>
        || r.body == ErrorBody(KeyNotConfigured)
        || r.body == ErrorBody(SaveFailed)
        || r.body == ErrorBody(UnexpectedError)
        || (r.body.ErrorBody? && |r.body.error| >= |ProcessingErrorPrefix|
            && r.body.error[..|ProcessingErrorPrefix|] == ProcessingErrorPrefix)
  {
  }
}
