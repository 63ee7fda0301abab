/**
  The two ends of the chat request together: what the panel makes of each
  response the endpoint can give. The endpoint's body reaches the panel as
  JSON text; `BodyJs` is the value that text parses back to.
*/
module Wire {
  import opened JsValues
  import opened ChatFunction
  import opened ChatPanel

  /** `{index, message, finish_reason}` of a completion choice. */
  function ChoiceJs(c: Choice): JsValue {
    Obj(map["index" := Num(c.index), "message" := MessageJs(c.message), "finish_reason" := Str(c.finishReason)])
  }

  /** The value the panel parses out of an endpoint body. A missing choice
      is serialised as `null`. */
  function BodyJs(b: Body): JsValue {
    match b
    case EmptyObject => Obj(map[])
    case ErrorBody(e) => Obj(map["error" := Str(e)])
    case ChoicesBody(c) => Obj(map["choices" := Arr([if c.Some? then ChoiceJs(c.value) else Null])])
  }

  /** `response.ok`: a status in the 2xx range. */
  predicate StatusOk(status: int) {
    200 <= status <= 299
  }

  /** What the panel shows as a reply's content: the assistant's text, or
      `null` when the assistant asked for a function call instead. */
  function ContentJs(content: Option<string>): JsValue {
    if content.Some? then Str(content.value) else Null
  }

  /** How the panel classifies an endpoint body that arrives with status
      flag `ok`: a non-ok response is the generic send failure whatever the
      body says; an ok choices body is a reply with the choice's message
      content, or an invalid format when the choice is missing. */
  lemma PanelClassifiesBody(b: Body, ok: bool, text: string, parse: string -> ParseOutcome)
    requires text != "" && parse(text) == Parsed(BodyJs(b))
    ensures var c := Classify(Responded(ok, text), parse);
      && (!ok ==> c == Failed(SendFailed))
      && (ok && b.ChoicesBody? && b.choice.Some? ==> c == Reply(ContentJs(b.choice.value.message.content)))
      && (ok && b == ChoicesBody(None) ==> c == Failed(InvalidFormat))
  {
    if ok && b.ChoicesBody? {
      var data := BodyJs(b);
      assert Prop(data, "error") == Undefined;
      if b.choice.Some? {
        var m := MessageJs(b.choice.value.message);
        assert FirstChoiceMessage(data) == m;
        assert Prop(m, "content") == ContentJs(b.choice.value.message.content);
      } else {
        assert FirstChoiceMessage(data) == Undefined;
      }
    }
  }

  /** For every answer the endpoint gives a POST: an error status reaches the
      user only as the generic send failure, never with the endpoint's own
      error text (the panel checks `ok` before it reads `error`); a choice
      reaches the user as its message content, `null` included; a missing
      follow-up choice is an invalid format. */
  lemma PanelClassifiesEndpointAnswers(req: Request, env: Env, parse: string -> ParseOutcome, stringify: JsValue -> string,
                                       first: Completion, save: SaveResponse, followUp: Completion, text: string)
    requires req.httpMethod == "POST"
    requires text != ""
    requires parse(text) == Parsed(BodyJs(Handle(req, env, parse, stringify, first, save, followUp).response.body))
    ensures var r := Handle(req, env, parse, stringify, first, save, followUp).response;
      var c := Classify(Responded(StatusOk(r.status), text), parse);
      && (r.status != 200 ==> c == Failed(SendFailed))
      && (r.body.ChoicesBody? && r.body.choice.Some? ==> c == Reply(ContentJs(r.body.choice.value.message.content)))
      && (r.body == ChoicesBody(None) ==> c == Failed(InvalidFormat))
  {
    var r := Handle(req, env, parse, stringify, first, save, followUp).response;
    PanelClassifiesBody(r.body, StatusOk(r.status), text, parse);
  }
}
