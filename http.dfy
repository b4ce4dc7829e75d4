/** What the two handlers share: the request and the environment they read, the response
    record they return, the CORS header sets, the outbound chat-completion call, and the
    reading of the goal from the request body and of the reply text from the provider's answer. */
module Http {
  import opened Text
  import opened Js

  type Headers = map<string, string>

  /** A `Response`: its status (200 when the source passes none), its headers, and the JSON
      value its body serialises (`None` is a `null` body). */
  datatype Response = Response(status: int, headers: Headers, body: Option<Json>)

  const ContentType := "Content-Type"
  const AllowOrigin := "Access-Control-Allow-Origin"
  const AllowMethods := "Access-Control-Allow-Methods"
  const AllowHeaders := "Access-Control-Allow-Headers"

  /** The CORS preflight headers: any origin, the methods POST and OPTIONS, the header Content-Type. */
  const PreflightHeaders: Headers := map[AllowOrigin := "*", AllowMethods := "POST, OPTIONS", AllowHeaders := "Content-Type"]
  const JsonHeaders: Headers := map[ContentType := "application/json"]
  const JsonCorsHeaders: Headers := map[ContentType := "application/json", AllowOrigin := "*"]

  /** The answer to an `OPTIONS` request: default status, the three CORS headers, no body. */
  function Preflight(): (r: Response)
    ensures r.status == 200 && r.body.None?
    ensures r.headers.Keys == {AllowOrigin, AllowMethods, AllowHeaders}
    ensures r.headers[AllowOrigin] == "*" && r.headers[AllowMethods] == "POST, OPTIONS"
    ensures r.headers[AllowHeaders] == "Content-Type"
  {
    Response(200, PreflightHeaders, None)
  }

  /** `{ error: message }`. */
  function ErrorBody(message: Json): Json {
    Obj(map["error" := message])
  }

  /** A JSON error response without the CORS header. */
  function ErrorResponse(status: int, message: string): Response {
    Response(status, JsonHeaders, Some(ErrorBody(Str(message))))
  }

  const MethodNotAllowed := "Method not allowed"
  const TitleRequired := "Title is required"
  const KeyNotConfigured := "API key not configured"

  /** The incoming request: its method (`request.method`) and the text of its body. */
  datatype Request = Request(verb: string, body: string)

  /** What the handlers read from their host: `process.env.OPENAI_API_KEY`,
      `Netlify.env.get('OPENAI_API_KEY')` (each `None` when unset) and the current year. */
  datatype Env = Env(processKey: Option<string>, netlifyKey: Option<string>, year: int)

  /** `JSON.parse`, and `request.json()`/`response.json()` which apply it to a body's text:
      a foreign parser that yields a value or throws a SyntaxError. */
  type Parser = string -> Completion<Json>

  /** The properties `const { title, description } = await request.json()` binds. */
  datatype Goal = Goal(title: Value, description: Value)

  const DestructureNull := "Cannot destructure property 'title' of '(intermediate value)' as it is null."

  /** Parses the request body and destructures it. A parse error propagates; a `null` body
      cannot be destructured; any other value yields its own `title` and `description`
      fields, `undefined` when it has none. */
  function ReadGoal(parse: Parser, body: string): (r: Completion<Goal>)
    ensures parse(body).Throw? ==> r == Throw(parse(body).message)
    ensures parse(body) == Normal(Null) ==> r.Throw?
    ensures parse(body).Normal? && parse(body).value.Obj? ==>
              var fields := parse(body).value.fields;
              r.Normal?
              && (r.value.title.Some? <==> "title" in fields)
              && ("title" in fields ==> r.value.title.value == fields["title"])
              && (r.value.description.Some? <==> "description" in fields)
              && ("description" in fields ==> r.value.description.value == fields["description"])
    ensures parse(body).Normal? && !parse(body).value.Obj? && parse(body).value != Null ==>
              r == Normal(Goal(None, None))
  {
    match parse(body)
    case Throw(m) => Throw(m)
    case Normal(Null) => Throw(DestructureNull)
    case Normal(v) => Normal(Goal(Get(v, "title"), Get(v, "description")))
  }

  /** The strings a prompt substitutes for `${title}` and, when the description is truthy,
      for `${description}` (`None` when the description line is left empty). The title is
      converted first; a conversion that throws ends the handler's `try` block. */
  function GoalStrings(title: Json, description: Value): (r: Completion<(string, Option<string>)>)
    ensures r.Normal? ==> (r.value.1.Some? <==> Truthy(description))
    ensures r.Normal? ==> TemplateString(title) == Normal(r.value.0)
    ensures r.Normal? && Truthy(description) ==> TemplateString(description.value) == Normal(r.value.1.value)
    ensures r.Throw? <==> TemplateString(title).Throw? || (Truthy(description) && TemplateString(description.value).Throw?)
    ensures r.Throw? ==> r.message == CannotConvertObject
  {
    match TemplateString(title)
    case Throw(m) => Throw(m)
    case Normal(t) =>
      if !Truthy(description) then Normal((t, None))
      else
        match TemplateString(description.value)
        case Throw(m) => Throw(m)
        case Normal(d) => Normal((t, Some(d)))
  }

  /** The prompt line that quotes the title; both handlers' templates carry it. */
  function ResolutionLine(title: string): string {
    "Resolution: \"" + title + "\""
  }

  /** The prompt line after the title: empty unless the description is truthy. Both
      handlers' templates carry it. */
  function DescriptionLine(description: Option<string>): (line: string)
    ensures line == "" <==> description.None?
    ensures description.Some? ==> line == "Description: \"" + description.value + "\""
  {
    match description
    case None => ""
    case Some(d) => "Description: \"" + d + "\""
  }

  const Endpoint := "https://api.openai.com/v1/chat/completions"
  const ChatModel := "gpt-4o-mini"

  /** The outbound chat-completion request: where it goes, the model it names, its
      Authorization header and the one user message it carries. */
  datatype ProviderCall = ProviderCall(url: string, model: string, authorization: string, prompt: string)

  function Call(key: string, prompt: string): (c: ProviderCall)
    ensures c.url == Endpoint && c.model == ChatModel && c.authorization == "Bearer " + key && c.prompt == prompt
  {
    ProviderCall(Endpoint, ChatModel, "Bearer " + key, prompt)
  }

  /** How the provider answers the call: `fetch` throws, or a response arrives with its
      `ok` flag and the text of its body. */
  datatype ProviderOutcome = FetchFailed(message: string) | Answered(ok: bool, body: string)

  /** A handler's result: the response, and the outbound call it made, if any. */
  datatype Exchange = Exchange(response: Response, call: Option<ProviderCall>)

  /** `data.choices[0]?.message?.content`. Reading `choices` from `null`, or `[0]` from a
      missing or `null` `choices`, throws; every later step is optional, so a missing
      message or content yields `undefined`. */
  function ReplyContent(data: Json): (r: Completion<Value>)
    ensures r.Throw? <==> !(data.Obj? && "choices" in data.fields && data.fields["choices"] != Null)
    ensures data.Obj? && "choices" in data.fields && data.fields["choices"].Arr?
            && |data.fields["choices"].items| > 0 ==>
              var first := data.fields["choices"].items[0];
              r.Normal? &&
              (r.value.Some? <==> first.Obj? && "message" in first.fields && first.fields["message"].Obj?
                                   && "content" in first.fields["message"].fields)
              && (r.value.Some? ==> r.value.value == first.fields["message"].fields["content"])
  {
    if data == Null then Throw(CannotRead(Some(Null), "choices"))
    else
      var choices := Get(data, "choices");
      if choices.None? || choices == Some(Null) then Throw(CannotRead(choices, "0"))
      else Normal(OptionalGet(OptionalGet(ElementZero(choices.value), "message"), "content"))
  }

  /** The reply body the provider sends when it answers normally. */
  function ChatReply(content: string): Json {
    Obj(map["choices" := Arr([Obj(map["message" := Obj(map["role" := Str("assistant"), "content" := Str(content)])])])])
  }

  /** A normal reply yields exactly the text of its first message. */
  lemma ChatReplyContent(content: string)
    ensures ReplyContent(ChatReply(content)) == Normal(Some(Str(content)))
  {
  }
}
