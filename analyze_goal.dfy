/** The goal-analysis handler: validates the request, asks the chat model for a SMART analysis
    of the goal, and relays the JSON object embedded in the model's reply. */
module AnalyzeGoal {
  import opened Text
  import opened Js
  import opened Http
  import opened JsonSpan

  const InvalidAiResponse := "Invalid AI response"
  const GenericProviderError := "AI service error"

  const Intro := "You are a goal-setting coach. Analyze this New Year's resolution and help make it SMART (Specific, Measurable, Achievable, Relevant, Time-bound)."

  /** The prompt up to and including the line that quotes the title. */
  function Opening(title: string): string {
    Concat([Intro, "\n\n", ResolutionLine(title), "\n"])
  }

  const TargetKey := "\"targetDate\": \""

  /** The quoted milestone date a prompt line asks for. */
  function TargetDate(date: string): string {
    TargetKey + date + "\""
  }

  /** The start of a milestone line, up to its percentage. */
  const MilestoneLead := "    { \"title\": \"milestone name\", \"targetPercent\": "

  /** The end of the last milestone line, of the shape, and the start of the closing sentence. */
  const KeepPractical := " }\n  ]\n}\n\nKeep milestones practical and achievable "

  /** The start of the requested JSON shape, up to the milestone list. */
  const Shape :=
    "\n\nRespond in JSON format with this exact structure:\n{\n"
    + "  \"isSmart\": boolean (true if the goal is already SMART enough),\n"
    + "  \"analysis\": {\n"
    + "    \"specific\": { \"pass\": boolean, \"feedback\": \"brief feedback\" },\n"
    + "    \"measurable\": { \"pass\": boolean, \"feedback\": \"brief feedback\" },\n"
    + "    \"achievable\": { \"pass\": boolean, \"feedback\": \"brief feedback\" },\n"
    + "    \"relevant\": { \"pass\": boolean, \"feedback\": \"brief feedback\" },\n"
    + "    \"timeBound\": { \"pass\": boolean, \"feedback\": \"brief feedback\" }\n"
    + "  },\n"
    + "  \"improvedGoal\": \"A more specific, measurable version of the goal (or the same if already good)\",\n"
    + "  \"improvedDescription\": \"A brief description with clear success criteria\",\n"
    + "  \"suggestedMilestones\": [\n"

  /** The milestone list and the closing sentence, split at the template's substitutions of
      the year: the four quarterly milestone dates in `year`, and the year the milestones
      should be achieved within. */
  function MilestoneParts(year: string): seq<string> {
    [MilestoneLead + "25, ",
     TargetKey, year + "-03-31", "\"",
     " },\n" + MilestoneLead + "50, ",
     TargetKey, year + "-06-30", "\"",
     " },\n" + MilestoneLead + "75, ",
     TargetKey, year + "-09-30", "\"",
     " },\n" + MilestoneLead + "100, ",
     TargetKey, year + "-12-31", "\"",
     KeepPractical,
     "within ", year, ".",
     " Only include 3-4 milestones."]
  }

  function Milestones(year: string): string {
    Concat(MilestoneParts(year))
  }

  /** The rest of the prompt after the description line. */
  function Closing(year: string): string {
    Shape + Milestones(year)
  }

  /** The analysis prompt for the converted title, the converted description when it is
      truthy, and the current year. */
  function Prompt(title: string, description: Option<string>, year: int): string {
    Opening(title) + DescriptionLine(description) + Closing(IntToString(year))
  }

  /** The prompt quotes the title on its `Resolution:` line. */
  lemma PromptQuotesTitle(title: string, description: Option<string>, year: int)
    ensures Contains(Prompt(title, description, year), ResolutionLine(title))
  {
    ContainsSelf(ResolutionLine(title));
    ContainsPart([Intro, "\n\n", ResolutionLine(title), "\n"], 2, ResolutionLine(title));
    ContainsInLeft(Opening(title), DescriptionLine(description), ResolutionLine(title));
    ContainsInLeft(Opening(title) + DescriptionLine(description), Closing(IntToString(year)), ResolutionLine(title));
  }

  /** The line after the title quotes the description when there is one and is empty
      otherwise; nothing else in the prompt depends on the description. */
  lemma PromptDescriptionLine(title: string, description: Option<string>, year: int)
    ensures var p := Prompt(title, description, year);
            var k := |Opening(title)|;
            var rest := Closing(IntToString(year));
            p[..k] == Opening(title) && p[|p| - |rest|..] == rest
            && (description.Some? ==> p[k..|p| - |rest|] == "Description: \"" + description.value + "\"")
            && (description.None? ==> p[k..|p| - |rest|] == "")
  {
    SliceThree(Opening(title), DescriptionLine(description), Closing(IntToString(year)));
  }

  /** The milestone list quotes every milestone date, and the closing sentence names the year. */
  lemma MilestonesUseYear(y: string)
    ensures var m := Milestones(y);
            Contains(m, TargetDate(y + "-03-31")) && Contains(m, TargetDate(y + "-06-30"))
            && Contains(m, TargetDate(y + "-09-30")) && Contains(m, TargetDate(y + "-12-31"))
            && Contains(m, "within " + y + ".")
  {
    var parts := MilestoneParts(y);
    assert parts[1] + parts[2] + parts[3] == TargetDate(y + "-03-31");
    ContainsRun(parts, 1);
    assert parts[5] + parts[6] + parts[7] == TargetDate(y + "-06-30");
    ContainsRun(parts, 5);
    assert parts[9] + parts[10] + parts[11] == TargetDate(y + "-09-30");
    ContainsRun(parts, 9);
    assert parts[13] + parts[14] + parts[15] == TargetDate(y + "-12-31");
    ContainsRun(parts, 13);
    assert parts[17] + parts[18] + parts[19] == "within " + y + ".";
    ContainsRun(parts, 17);
  }

  /** Every milestone date, and the closing sentence, name the supplied year. */
  lemma PromptUsesYear(title: string, description: Option<string>, year: int)
    ensures var p := Prompt(title, description, year);
            var y := IntToString(year);
            Contains(p, TargetDate(y + "-03-31")) && Contains(p, TargetDate(y + "-06-30"))
            && Contains(p, TargetDate(y + "-09-30")) && Contains(p, TargetDate(y + "-12-31"))
            && Contains(p, "within " + y + ".")
  {
    var y := IntToString(year);
    var head := Opening(title) + DescriptionLine(description) + Shape;
    var m := Milestones(y);
    assert Prompt(title, description, year) == head + m;
    MilestonesUseYear(y);
    ContainsInRight(head, m, TargetDate(y + "-03-31"));
    ContainsInRight(head, m, TargetDate(y + "-06-30"));
    ContainsInRight(head, m, TargetDate(y + "-09-30"));
    ContainsInRight(head, m, TargetDate(y + "-12-31"));
    ContainsInRight(head, m, "within " + y + ".");
  }

  /** The `error` of a non-OK provider answer: `JSON.parse(text).error?.message` when the
      text parses to a value whose `error` field holds an object with a truthy `message`,
      and otherwise (a parse error, `null`, a missing or falsy message) the generic text. */
  function ProviderErrorMessage(parse: Parser, text: string): (message: Json)
    ensures var d := parse(text);
            if d.Normal? && d.value.Obj? && "error" in d.value.fields && d.value.fields["error"].Obj?
               && "message" in d.value.fields["error"].fields
               && Truthy(Some(d.value.fields["error"].fields["message"]))
            then message == d.value.fields["error"].fields["message"]
            else message == Str(GenericProviderError)
    ensures Truthy(Some(message))
  {
    var fallback := Str(GenericProviderError);
    match parse(text)
    case Throw(_) => fallback
    case Normal(data) =>
      // Reading `error` of null throws inside the inner try, which keeps the fallback.
      if data == Null then fallback
      else
        var message := OptionalGet(Get(data, "error"), "message");
        match message
        case Some(m) => if Truthy(message) then m else fallback
        case None => fallback
  }

  /** A 500 response carrying a caught exception's message. */
  function Failure(message: string): Response {
    ErrorResponse(500, message)
  }

  /** `content.match(...)` on the reply content: a string is searched; `undefined` and `null`
      have no properties and anything else has no `match` method, so those throw. */
  function ContentText(content: Value): (r: Completion<string>)
    ensures r.Normal? <==> content.Some? && content.value.Str?
    ensures r.Normal? ==> r.value == content.value.s
  {
    match content
    case None => Throw(CannotRead(None, "match"))
    case Some(Null) => Throw(CannotRead(Some(Null), "match"))
    case Some(Str(s)) => Normal(s)
    case Some(_) => Throw(NotAFunction("content.match"))
  }

  /** What the handler answers once the provider call has been made. */
  function Answer(provider: ProviderOutcome, parse: Parser): (r: Response)
    ensures r.status == 200 || r.status == 500
    ensures provider.FetchFailed? ==> r == Failure(provider.message)
    ensures provider.Answered? && !provider.ok ==>
              r == Response(500, JsonCorsHeaders, Some(ErrorBody(ProviderErrorMessage(parse, provider.body))))
    ensures r.status == 200 ==> provider.Answered? && provider.ok && r.headers == JsonCorsHeaders
    ensures r.status == 500 ==> r.body.Some? && r.body.value.Obj? && r.body.value.fields.Keys == {"error"}
  {
    match provider
    case FetchFailed(m) => Failure(m)
    case Answered(ok, text) =>
      if !ok then Response(500, JsonCorsHeaders, Some(ErrorBody(ProviderErrorMessage(parse, text))))
      else
        match parse(text)
        case Throw(m) => Failure(m)
        case Normal(data) =>
          match ReplyContent(data)
          case Throw(m) => Failure(m)
          case Normal(content) =>
            match ContentText(content)
            case Throw(m) => Failure(m)
            case Normal(c) =>
              match ExtractJsonSpan(c)
              case None => ErrorResponse(500, InvalidAiResponse)
              case Some(span) =>
                match parse(span.text)
                case Throw(m) => Failure(m)
                case Normal(result) => Response(200, JsonCorsHeaders, Some(result))
  }

  /** The handler once the request body has been read into a goal: the title check, the key
      check, the prompt and the call. */
  function Submit(goal: Goal, env: Env, provider: ProviderOutcome, parse: Parser): (x: Exchange)
    ensures x.response.status in {200, 400, 500} && x.response.body.Some?
    ensures x.call.Some? ==> Present(env.netlifyKey)
                             && x.call.value.url == Endpoint && x.call.value.model == ChatModel
                             && x.call.value.authorization == "Bearer " + env.netlifyKey.value
    ensures x.response.status == 200 ==>
              x.call.Some? && provider.Answered? && provider.ok && x.response.headers == JsonCorsHeaders
    ensures x.response.status != 200 ==> x.response.body.value.Obj? && x.response.body.value.fields.Keys == {"error"}
  {
    if !Truthy(goal.title) then Exchange(ErrorResponse(400, TitleRequired), None)
    else if !Present(env.netlifyKey) then Exchange(ErrorResponse(500, KeyNotConfigured), None)
    else
      match GoalStrings(goal.title.value, goal.description)
      case Throw(m) => Exchange(Failure(m), None)
      case Normal((title, description)) => Dispatch(env.netlifyKey.value, Prompt(title, description, env.year), provider, parse)
  }

  /** The call with `key` and `prompt`, and the response made from the provider's answer.
      Its ensures spell out its body only so that the proof of `Submit` need not unfold the
      prompt text. */
  function Dispatch(key: string, prompt: string, provider: ProviderOutcome, parse: Parser): (x: Exchange)
    ensures x.call == Some(ProviderCall(Endpoint, ChatModel, "Bearer " + key, prompt))
    ensures x.response == Answer(provider, parse)
  {
    Exchange(Answer(provider, parse), Some(Call(key, prompt)))
  }

  /** The handler. */
  function Handle(request: Request, env: Env, provider: ProviderOutcome, parse: Parser): (x: Exchange)
    ensures x.response.body.None? <==> request.verb == "OPTIONS"
    ensures request.verb == "OPTIONS" ==> x == Exchange(Preflight(), None)
    ensures x.response.status == 405 <==> request.verb != "OPTIONS" && request.verb != "POST"
    ensures x.response.status == 405 ==> x == Exchange(ErrorResponse(405, MethodNotAllowed), None)
    ensures x.response.status in {200, 400, 405, 500}
    ensures x.call.Some? ==> request.verb == "POST" && Present(env.netlifyKey)
                             && x.call.value.url == Endpoint && x.call.value.model == ChatModel
                             && x.call.value.authorization == "Bearer " + env.netlifyKey.value
    ensures x.response.status == 200 && request.verb != "OPTIONS" ==>
              x.call.Some? && provider.Answered? && provider.ok && x.response.headers == JsonCorsHeaders
    ensures x.response.status != 200 ==> x.response.body.Some? && x.response.body.value.Obj?
                                         && x.response.body.value.fields.Keys == {"error"}
  {
    if request.verb == "OPTIONS" then Exchange(Preflight(), None)
    else if request.verb != "POST" then Exchange(ErrorResponse(405, MethodNotAllowed), None)
    else
      match ReadGoal(parse, request.body)
      case Throw(m) => Exchange(Failure(m), None)
      case Normal(goal) => Submit(goal, env, provider, parse)
  }

  /** A POST whose body parses to a goal without a truthy title is refused with 400, whatever
      the environment and the provider: neither the key nor the provider is consulted. */
  lemma TitleCheckedFirst(request: Request, env1: Env, env2: Env, provider1: ProviderOutcome,
                          provider2: ProviderOutcome, parse: Parser)
    requires request.verb == "POST"
    requires ReadGoal(parse, request.body).Normal? && !Truthy(ReadGoal(parse, request.body).value.title)
    ensures Handle(request, env1, provider1, parse) == Handle(request, env2, provider2, parse)
                                                    == Exchange(ErrorResponse(400, TitleRequired), None)
  {
  }

  /** With a title but no key, the answer is 500 and no call is made, whatever the provider would do. */
  lemma KeyCheckedBeforeCall(request: Request, env: Env, provider1: ProviderOutcome,
                             provider2: ProviderOutcome, parse: Parser)
    requires request.verb == "POST"
    requires ReadGoal(parse, request.body).Normal? && Truthy(ReadGoal(parse, request.body).value.title)
    requires !Present(env.netlifyKey)
    ensures Handle(request, env, provider1, parse) == Handle(request, env, provider2, parse)
                                                   == Exchange(ErrorResponse(500, KeyNotConfigured), None)
  {
  }

  /** Once the request passes every check, the one call made carries the key and the prompt
      built from the title, the truthy description and the year, and the response is the
      provider's answer. */
  lemma CallCarriesPrompt(request: Request, env: Env, provider: ProviderOutcome, parse: Parser,
                          goal: Goal, title: string, description: Option<string>)
    requires request.verb == "POST"
    requires ReadGoal(parse, request.body) == Normal(goal)
    requires Truthy(goal.title) && Present(env.netlifyKey)
    requires GoalStrings(goal.title.value, goal.description) == Normal((title, description))
    ensures var x := Handle(request, env, provider, parse);
            x.call == Some(ProviderCall(Endpoint, ChatModel, "Bearer " + env.netlifyKey.value,
                                        Prompt(title, description, env.year)))
            && x.response == Answer(provider, parse)
            && (description.Some? <==> Truthy(goal.description))
  {
  }

  /** A reply whose text has no `}` after its first `{` is refused as an invalid AI response. */
  lemma NoSpanIsInvalid(text: string, parse: Parser, data: Json, content: string)
    requires parse(text) == Normal(data) && ReplyContent(data) == Normal(Some(Str(content)))
    requires forall i, j :: 0 <= i < j < |content| && content[i] == '{' ==> content[j] != '}'
    ensures Answer(Answered(true, text), parse) == ErrorResponse(500, InvalidAiResponse)
  {
  }

  /** A reply whose span parses is relayed unchanged, with status 200 and the CORS header. */
  lemma SpanPassedThrough(text: string, parse: Parser, data: Json, content: string, result: Json)
    requires parse(text) == Normal(data) && ReplyContent(data) == Normal(Some(Str(content)))
    requires ExtractJsonSpan(content).Some? && parse(ExtractJsonSpan(content).value.text) == Normal(result)
    ensures Answer(Answered(true, text), parse) == Response(200, JsonCorsHeaders, Some(result))
  {
  }

  /** A request body that does not parse, or parses to `null`, ends in the `catch` block: 500
      with the exception's message, and no call. */
  lemma UnreadableBodyFails(request: Request, env: Env, provider: ProviderOutcome, parse: Parser)
    requires request.verb == "POST" && ReadGoal(parse, request.body).Throw?
    ensures Handle(request, env, provider, parse) == Exchange(Failure(ReadGoal(parse, request.body).message), None)
  {
  }

  /** A provider answer whose body does not parse, or has no `choices` to index, ends in the
      `catch` block with the exception's message. */
  lemma MalformedReplyFails(text: string, parse: Parser)
    ensures parse(text).Throw? ==> Answer(Answered(true, text), parse) == Failure(parse(text).message)
    ensures parse(text).Normal? && ReplyContent(parse(text).value).Throw? ==>
              Answer(Answered(true, text), parse) == Failure(ReplyContent(parse(text).value).message)
  {
  }

  /** Reply content that is missing, `null` or not a string makes `content.match` throw, which
      ends in the `catch` block with that exception's message. */
  lemma ContentWithoutTextFails(text: string, parse: Parser, data: Json, content: Value)
    requires parse(text) == Normal(data) && ReplyContent(data) == Normal(content)
    requires content.None? || !content.value.Str?
    ensures ContentText(content).Throw?
    ensures Answer(Answered(true, text), parse) == Failure(ContentText(content).message)
  {
  }

  /** A title or description whose string conversion throws ends in the `catch` block: 500
      with the conversion's TypeError message, and no call. */
  lemma UnconvertibleGoalFails(request: Request, env: Env, provider: ProviderOutcome, parse: Parser, goal: Goal)
    requires request.verb == "POST"
    requires ReadGoal(parse, request.body) == Normal(goal)
    requires Truthy(goal.title) && Present(env.netlifyKey)
    requires GoalStrings(goal.title.value, goal.description).Throw?
    ensures Handle(request, env, provider, parse) == Exchange(Failure(CannotConvertObject), None)
  {
  }

  /** A span that is not valid JSON ends in the `catch` block with the parser's message. */
  lemma SpanParseErrorFails(text: string, parse: Parser, data: Json, content: string)
    requires parse(text) == Normal(data) && ReplyContent(data) == Normal(Some(Str(content)))
    requires ExtractJsonSpan(content).Some? && parse(ExtractJsonSpan(content).value.text).Throw?
    ensures Answer(Answered(true, text), parse) == Failure(parse(ExtractJsonSpan(content).value.text).message)
  {
  }
}
