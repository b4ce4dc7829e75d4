/** The category handler: validates the request like the analysis handler, asks the chat model
    for one of five category words, and answers with a valid category, falling back to
    `other` whenever the provider fails or answers with anything else. */
module DetectCategory {
  import opened Text
  import opened Js
  import opened Http

  datatype Category = Health | MoneyCareer | FamilyLifeBalance | Learning | Other {
    /** The word the handler and the prompt use for the category. */
    function Name(): string {
      match this
      case Health => "health"
      case MoneyCareer => "money_career"
      case FamilyLifeBalance => "family_life_balance"
      case Learning => "learning"
      case Other => "other"
    }
  }

  /** `validCategories`, in the order the source lists them. */
  const ValidCategories: seq<string> := ["health", "money_career", "family_life_balance", "learning", "other"]

  /** The category a word names, if it is one of the five. */
  function CategoryNamed(word: string): (c: Option<Category>)
    ensures c.Some? <==> word in ValidCategories
    ensures c.Some? ==> c.value.Name() == word
  {
    if word == "health" then Some(Health)
    else if word == "money_career" then Some(MoneyCareer)
    else if word == "family_life_balance" then Some(FamilyLifeBalance)
    else if word == "learning" then Some(Learning)
    else if word == "other" then Some(Other)
    else None
  }

  /** Every category's word is valid and names that category back. */
  lemma CategoryNameRoundTrip(c: Category)
    ensures c.Name() in ValidCategories
    ensures CategoryNamed(c.Name()) == Some(c)
  {
  }

  /** Distinct categories have distinct words. */
  lemma NameInjective(a: Category, b: Category)
    requires a.Name() == b.Name()
    ensures a == b
  {
    assert |a.Name()| == |b.Name()|;
  }

  /** `content?.trim().toLowerCase()`, then membership in `validCategories`, else `other`.
      `None` is an absent content (`undefined`). */
  function NormalizeCategory(content: Option<string>): (c: Category)
    ensures c.Name() in ValidCategories
    ensures content.Some? && ToLowerAscii(Trim(content.value)) in ValidCategories ==>
              c.Name() == ToLowerAscii(Trim(content.value))
    ensures content.None? || ToLowerAscii(Trim(content.value)) !in ValidCategories ==> c == Other
  {
    CategoryNameRoundTrip(Other);
    match content
    case None => Other
    case Some(s) =>
      match CategoryNamed(ToLowerAscii(Trim(s)))
      case Some(c) => CategoryNameRoundTrip(c); c
      case None => Other
  }

  /** A category word is lower-case letters and underscores. */
  ghost predicate IsWord(w: string) {
    |w| > 0 && 'a' <= w[0] <= 'z' && 'a' <= w[|w| - 1] <= 'z'
    && forall i :: 0 <= i < |w| ==> 'a' <= w[i] <= 'z' || w[i] == '_'
  }

  lemma CategoryWords(c: Category)
    ensures IsWord(c.Name())
  {
  }

  /** Trimming and lower-casing leave such a word unchanged. */
  lemma WordIsNormal(w: string)
    requires IsWord(w)
    ensures ToLowerAscii(Trim(w)) == w
  {
    assert !IsJsWhiteSpace(w[0]) && !IsJsWhiteSpace(w[|w| - 1]);
    TrimOfTrimmed(w);
    ToLowerAsciiOfLower(w);
    assert Trim(w) == w && ToLowerAscii(w) == w;
  }

  /** Normalising a category's own word gives that category back. */
  lemma NormalizeCategoryIdempotent(c: Category)
    ensures NormalizeCategory(Some(c.Name())) == c
  {
    var w := c.Name();
    CategoryWords(c);
    WordIsNormal(w);
    CategoryNameRoundTrip(c);
    var r := NormalizeCategory(Some(w));
    assert r.Name() == w;
    NameInjective(r, c);
  }

  /** Surrounding white space and capital letters do not matter: a category word in any ASCII
      case, with any white space around it, gives that category. */
  lemma NormalizeIgnoresSpaceAndCase(before: string, word: string, after: string, c: Category)
    requires AllWhiteSpace(before) && AllWhiteSpace(after)
    requires ToLowerAscii(word) == c.Name()
    ensures NormalizeCategory(Some(before + word + after)) == c
  {
    CategoryWords(c);
    var n := |word|;
    assert LowerChar(word[0]) == c.Name()[0] && LowerChar(word[n - 1]) == c.Name()[n - 1];
    TrimOfPadded(before, word, after);
    NormalizedWordIsCategory(before + word + after, c);
  }

  /** For instance, "  Health\n" is `health`. */
  lemma NormalizeSpacedCapitalised()
    ensures NormalizeCategory(Some("  " + "Health" + "\n")) == Health
  {
    assert ToLowerAscii("Health") == "health";
    NormalizeIgnoresSpaceAndCase("  ", "Health", "\n", Health);
  }

  /** A lower-case word without surrounding white space that is not one of the five falls
      back to `other`. */
  lemma NormalizeNonCategory(w: string)
    requires w != [] && !IsJsWhiteSpace(w[0]) && !IsJsWhiteSpace(w[|w| - 1])
    requires forall i :: 0 <= i < |w| ==> !('A' <= w[i] <= 'Z')
    requires w !in ValidCategories
    ensures NormalizeCategory(Some(w)) == Other
  {
    TrimOfTrimmed(w);
    ToLowerAsciiOfLower(w);
  }

  /** For instance, "banana" is `other`. */
  lemma NormalizeUnknownWord()
    ensures NormalizeCategory(Some("banana")) == Other
  {
    NormalizeNonCategory("banana");
  }

  const Intro :=
    "Categorize this New Year's resolution into exactly ONE of these categories:\n"
    + "- health (fitness, exercise, diet, sleep, mental health, wellness, weight loss, meditation, yoga, etc.)\n"
    + "- money_career (job, salary, savings, investing, business, promotion, side hustle, professional development, etc.)\n"
    + "- family_life_balance (relationships, family time, travel, hobbies, social life, work-life balance, relaxation, etc.)\n"
    + "- learning (education, reading, courses, new skills, languages, certifications, creative skills, etc.)\n"
    + "- other (anything that doesn't fit the above categories)\n\n"

  const Instruction :=
    "\n\nRespond with ONLY the category name, nothing else. Just one word from: health, money_career, family_life_balance, learning, other"

  /** The prompt up to and including the line that quotes the title. */
  function Opening(title: string): string {
    Concat([Intro, ResolutionLine(title), "\n"])
  }

  /** The classification prompt for the converted title and, when truthy, description. */
  function Prompt(title: string, description: Option<string>): string {
    Opening(title) + DescriptionLine(description) + Instruction
  }

  /** The prompt quotes the title; the line after it quotes the description when there is
      one and is empty otherwise. */
  lemma PromptLines(title: string, description: Option<string>)
    ensures Contains(Prompt(title, description), ResolutionLine(title))
    ensures var p := Prompt(title, description);
            var k := |Opening(title)|;
            p[..k] == Opening(title) && p[|p| - |Instruction|..] == Instruction
            && (description.Some? ==> p[k..|p| - |Instruction|] == "Description: \"" + description.value + "\"")
            && (description.None? ==> p[k..|p| - |Instruction|] == "")
  {
    ContainsSelf(ResolutionLine(title));
    ContainsPart([Intro, ResolutionLine(title), "\n"], 1, ResolutionLine(title));
    ContainsInLeft(Opening(title), DescriptionLine(description), ResolutionLine(title));
    ContainsInLeft(Opening(title) + DescriptionLine(description), Instruction, ResolutionLine(title));
    SliceThree(Opening(title), DescriptionLine(description), Instruction);
  }

  /** The API key: `process.env.OPENAI_API_KEY` when it is set and non-empty, otherwise
      `Netlify.env.get('OPENAI_API_KEY')`. */
  function ApiKey(env: Env): (key: Option<string>)
    ensures Present(key) <==> Present(env.processKey) || Present(env.netlifyKey)
    ensures Present(env.processKey) ==> key == env.processKey
    ensures !Present(env.processKey) ==> key == env.netlifyKey
  {
    if Present(env.processKey) then env.processKey else env.netlifyKey
  }

  /** `{ category: c }`. */
  function CategoryBody(c: Category): Json {
    Obj(map["category" := Str(c.Name())])
  }

  /** A 200 JSON response with the CORS header naming category `c`. */
  function CategoryResponse(c: Category): Response {
    Response(200, JsonCorsHeaders, Some(CategoryBody(c)))
  }

  /** The category in the reply content: a string is normalised, `undefined` and `null`
      short-circuit the optional chain to `undefined` (so `other`), and anything else has no
      `trim` method, which throws. */
  function ContentCategory(content: Value): (r: Completion<Category>)
    ensures content.None? || content == Some(Null) ==> r == Normal(Other)
    ensures content.Some? && content.value.Str? ==> r == Normal(NormalizeCategory(Some(content.value.s)))
    ensures r.Throw? <==> content.Some? && content.value != Null && !content.value.Str?
  {
    match content
    case None => Normal(NormalizeCategory(None))
    case Some(Null) => Normal(NormalizeCategory(None))
    case Some(Str(s)) => Normal(NormalizeCategory(Some(s)))
    case Some(_) => Throw(NotAFunction("data.choices[0]?.message?.content?.trim"))
  }

  /** What the handler answers once the provider call has been made: the reply's category,
      or `other` on any failure. */
  function Answer(provider: ProviderOutcome, parse: Parser): (r: Response)
    ensures exists c: Category :: r == CategoryResponse(c)
    ensures !(provider.Answered? && provider.ok) ==> r == CategoryResponse(Other)
  {
    match provider
    case FetchFailed(_) => CategoryResponse(Other)
    case Answered(ok, text) =>
      if !ok then CategoryResponse(Other)
      else
        match parse(text)
        case Throw(_) => CategoryResponse(Other)
        case Normal(data) =>
          match ReplyContent(data)
          case Throw(_) => CategoryResponse(Other)
          case Normal(content) =>
            match ContentCategory(content)
            case Throw(_) => CategoryResponse(Other)
            case Normal(c) => CategoryResponse(c)
  }

  /** The handler. */
  function Handle(request: Request, env: Env, provider: ProviderOutcome, parse: Parser): (x: Exchange)
    ensures x.response.body.None? <==> request.verb == "OPTIONS"
    ensures request.verb == "OPTIONS" ==> x == Exchange(Preflight(), None)
    ensures x.response.status == 405 <==> request.verb != "OPTIONS" && request.verb != "POST"
    ensures x.response.status == 405 ==> x == Exchange(ErrorResponse(405, MethodNotAllowed), None)
    ensures x.response.status in {200, 400, 405, 500}
    ensures x.response.status == 400 ==> x == Exchange(ErrorResponse(400, TitleRequired), None)
    ensures x.response.status == 500 ==> x == Exchange(ErrorResponse(500, KeyNotConfigured), None)
    ensures x.call.Some? ==> request.verb == "POST" && Present(ApiKey(env))
                             && x.call.value.url == Endpoint && x.call.value.model == ChatModel
                             && x.call.value.authorization == "Bearer " + ApiKey(env).value
    ensures x.call.Some? ==> x.response == Answer(provider, parse)
    ensures x.response.status == 200 && request.verb != "OPTIONS" ==>
              exists c: Category :: x.response == CategoryResponse(c)
  {
    if request.verb == "OPTIONS" then Exchange(Preflight(), None)
    else if request.verb != "POST" then Exchange(ErrorResponse(405, MethodNotAllowed), None)
    else
      match ReadGoal(parse, request.body)
      case Throw(_) => Exchange(CategoryResponse(Other), None)
      case Normal(goal) =>
        if !Truthy(goal.title) then Exchange(ErrorResponse(400, TitleRequired), None)
        else
          var key := ApiKey(env);
          if !Present(key) then Exchange(ErrorResponse(500, KeyNotConfigured), None)
          else
            match GoalStrings(goal.title.value, goal.description)
            case Throw(_) => Exchange(CategoryResponse(Other), None)
            case Normal((title, description)) =>
              var call := Call(key.value, Prompt(title, description));
              Exchange(Answer(provider, parse), Some(call))
  }

  /** A POST whose body parses to a goal without a truthy title is refused with 400, and one
      with a title but no key anywhere with 500: these two are not softened to `other`. */
  lemma ChecksNotSoftened(request: Request, env: Env, provider: ProviderOutcome, parse: Parser)
    requires request.verb == "POST" && ReadGoal(parse, request.body).Normal?
    ensures !Truthy(ReadGoal(parse, request.body).value.title) ==>
              Handle(request, env, provider, parse) == Exchange(ErrorResponse(400, TitleRequired), None)
    ensures Truthy(ReadGoal(parse, request.body).value.title) && !Present(env.processKey) && !Present(env.netlifyKey) ==>
              Handle(request, env, provider, parse) == Exchange(ErrorResponse(500, KeyNotConfigured), None)
  {
  }

  /** A body that cannot be read (it does not parse, or it is `null`) yields `other` with 200. */
  lemma UnreadableBodyIsOther(request: Request, env: Env, provider: ProviderOutcome, parse: Parser)
    requires request.verb == "POST" && ReadGoal(parse, request.body).Throw?
    ensures Handle(request, env, provider, parse) == Exchange(CategoryResponse(Other), None)
  {
  }

  /** Once the request passes every check, the one call made carries the key and the prompt
      built from the title and the truthy description, and the response is the category the
      provider's answer yields. */
  lemma CallCarriesPrompt(request: Request, env: Env, provider: ProviderOutcome, parse: Parser,
                          goal: Goal, title: string, description: Option<string>)
    requires request.verb == "POST"
    requires ReadGoal(parse, request.body) == Normal(goal)
    requires Truthy(goal.title) && Present(ApiKey(env))
    requires GoalStrings(goal.title.value, goal.description) == Normal((title, description))
    ensures var x := Handle(request, env, provider, parse);
            x.call == Some(ProviderCall(Endpoint, ChatModel, "Bearer " + ApiKey(env).value,
                                        Prompt(title, description)))
            && x.response == Answer(provider, parse)
            && (description.Some? <==> Truthy(goal.description))
  {
  }

  /** A title or description whose string conversion throws ends in the `catch` block:
      `other` with 200, and no call. */
  lemma UnconvertibleGoalIsOther(request: Request, env: Env, provider: ProviderOutcome, parse: Parser, goal: Goal)
    requires request.verb == "POST"
    requires ReadGoal(parse, request.body) == Normal(goal)
    requires Truthy(goal.title) && Present(ApiKey(env))
    requires GoalStrings(goal.title.value, goal.description).Throw?
    ensures Handle(request, env, provider, parse) == Exchange(CategoryResponse(Other), None)
  {
  }

  /** An OK answer whose reply parses and has `choices` to index yields the category of the
      first message's content: a string is normalised, an absent or `null` content gives
      `other`, and any other content makes `trim` throw, which also gives `other`. */
  lemma ReplyCategory(text: string, parse: Parser, data: Json, content: Value)
    requires parse(text) == Normal(data) && ReplyContent(data) == Normal(content)
    ensures ContentCategory(content).Normal? ==>
              Answer(Answered(true, text), parse) == CategoryResponse(ContentCategory(content).value)
    ensures content.Some? && content.value.Str? ==>
              Answer(Answered(true, text), parse) == CategoryResponse(NormalizeCategory(Some(content.value.s)))
    ensures (content.None? || !content.value.Str?) ==> Answer(Answered(true, text), parse) == CategoryResponse(Other)
  {
  }

  /** An OK answer whose body does not parse, or has no `choices` to index, ends in the
      `catch` block: `other` with 200. */
  lemma MalformedReplyIsOther(text: string, parse: Parser)
    ensures parse(text).Throw? ==> Answer(Answered(true, text), parse) == CategoryResponse(Other)
    ensures parse(text).Normal? && ReplyContent(parse(text).value).Throw? ==>
              Answer(Answered(true, text), parse) == CategoryResponse(Other)
  {
  }

  /** A reply whose content is a category word, in any ASCII case and with surrounding
      white space, yields that category. */
  lemma ReplyWordIsCategory(text: string, parse: Parser, data: Json, content: string, c: Category)
    requires parse(text) == Normal(data) && ReplyContent(data) == Normal(Some(Str(content)))
    requires ToLowerAscii(Trim(content)) == c.Name()
    ensures Answer(Answered(true, text), parse) == CategoryResponse(c)
  {
    NormalizedWordIsCategory(content, c);
    assert ContentCategory(Some(Str(content))) == Normal(c);
  }

  /** Content whose trimmed, lower-cased form is a category's word normalises to that category. */
  lemma NormalizedWordIsCategory(content: string, c: Category)
    requires ToLowerAscii(Trim(content)) == c.Name()
    ensures NormalizeCategory(Some(content)) == c
  {
    CategoryNameRoundTrip(c);
    NameInjective(NormalizeCategory(Some(content)), c);
  }
}
