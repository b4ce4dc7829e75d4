# Goal analysis and category detection handlers, modelled in Dafny

The repository serves two stateless Netlify functions for a New Year's resolution tracker.

- `analyze-goal` takes a goal (`title`, optional `description`) and asks a chat-completion model for a SMART analysis. It extracts the JSON object embedded in the model's reply and returns it.
- `detect-category` asks the same model to put the goal in one of five categories: `health`, `money_career`, `family_life_balance`, `learning`, `other`. It answers with that category. It answers `other` when the request body cannot be read, when the title or description cannot be converted to a string, and when anything goes wrong with the provider call or its reply. A falsy title still gets 400, and a missing key still gets 500.

Each handler is modelled as a pure function `Handle(request, env, provider, parse)`:

- `request` is the HTTP method and the body text.
- `env` holds the two places the API key can be read from and the current year.
- `provider` is how the outbound call ends: `fetch` throws, or an answer arrives with its `ok` flag and body text.
- `parse` stands for `JSON.parse`, `request.json()` and `response.json()`. It is a foreign function that yields a value or throws.

`Handle` returns an `Exchange`: the response record (status, headers, JSON body) and the outbound call, if one was made. So "no call is made" can be stated.

JavaScript behaviour the handlers rely on is modelled explicitly:

- truthiness;
- property reads and optional chaining;
- `[0]`;
- the `String()` conversion a template literal applies to `title` and `description` (objects, arrays, numbers, booleans, `null`);
- the TypeErrors thrown when reading from `null`/`undefined` or calling a missing method;
- `try`/`catch` as a `Completion` value (`Normal` or `Throw(message)`).

Modules:

- `Text`: substring occurrence, template concatenation, `trim` over the full ECMAScript white-space set, ASCII `toLowerCase`, and integer-to-decimal conversion.
- `Js`: JSON values, truthiness, property access, template-literal string conversion, and V8's TypeError messages.
- `Http`: request, environment, response, the CORS header sets, and the outbound call. It also reads the goal from the request body and the content from a chat reply.
- `JsonSpan`: `content.match(/\{[\s\S]*\}/)`. It is modelled both as the ECMAScript backtracking search (section 22.2 of ECMA-262) and as "first `{` to last `}`", and the two are proved equal.
- `AnalyzeGoal` and `DetectCategory`: the two handlers, their prompts, and their answer logic.

## Model

| member | source | states |
|---|---|---|
| Http.Preflight | netlify/functions/analyze-goal.mjs:6-14 | the OPTIONS answer has the default status 200, no body, and exactly the three CORS headers `*`, `POST, OPTIONS`, `Content-Type` |
| Http.ReadGoal | netlify/functions/analyze-goal.mjs:24 | a parse error propagates; a `null` body throws on destructuring; an object yields its own `title`/`description` (absent iff the field is missing); any other value yields two `undefined`s |
| Http.GoalStrings | netlify/functions/analyze-goal.mjs:45-46 | the description is substituted iff it is truthy; both substitutions are the values' `String()` conversions; the step throws iff a conversion throws, and then with the object-conversion TypeError |
| Http.DescriptionLine | netlify/functions/analyze-goal.mjs:46 | the line after the title is empty iff there is no truthy description, and otherwise quotes it after `Description: `; the same template line is at netlify/functions/detect-category.mjs:49 |
| Http.Call | netlify/functions/analyze-goal.mjs:70-82 | the outbound call goes to the chat-completions endpoint, names `gpt-4o-mini`, carries `Bearer <key>` and the prompt as its one message |
| Http.ReplyContent | netlify/functions/analyze-goal.mjs:98-99 | `data.choices[0]?.message?.content` throws iff `data` is not an object with a non-null `choices`; for a non-empty `choices` array it is present iff the first element has a `message` object with a `content` field, and then it is exactly that field's value, whatever other fields the reply carries |
| Http.ChatReplyContent | netlify/functions/analyze-goal.mjs:99 | the minimal reply with one choice and one message yields exactly that message's text |
| Js.FalsyValues | netlify/functions/analyze-goal.mjs:26 | a value is falsy exactly when it is `undefined`, `null`, `false`, `0` or `""`; every other value, including `[]` and `{}`, is truthy |
| Js.OptionalGet | netlify/functions/analyze-goal.mjs:99 | `v?.name` is `undefined` for `null` or `undefined`; otherwise it is defined iff `v` is an object with that own field, and then it is that field |
| Js.ElementZero | netlify/functions/analyze-goal.mjs:99 | `v[0]` is defined for a non-empty array (its first element), a non-empty string (its first character) and an object with a field `"0"`, and for nothing else |
| Js.TemplateString | netlify/functions/analyze-goal.mjs:45-46 | `String(v)` of a string is that string; when it throws, `v` is an object or array and the message is the object-conversion TypeError |
| Js.JoinFrom | netlify/functions/analyze-goal.mjs:45-46 | joining array elements gives the empty string past the last element, and throws only with the object-conversion TypeError |
| Js.JoinStringsAroundNull | netlify/functions/analyze-goal.mjs:45-46 | `String([x, null, y])` is `x,,y`: elements are joined with commas and `null` is written as nothing |
| Text.Trim | netlify/functions/detect-category.mjs:76 | `trim` leaves the text with only white space stripped from both ends and with no white space at either end |
| Text.TrimStart | netlify/functions/detect-category.mjs:76 | what is left is a suffix, everything dropped is white space, and it does not start with white space |
| Text.TrimEnd | netlify/functions/detect-category.mjs:76 | what is left is a prefix, everything dropped is white space, and it does not end with white space |
| Text.TrimUnique | netlify/functions/detect-category.mjs:76 | the trimmed form is unique, so the characterisation determines `trim` |
| Text.TrimOfTrimmed | netlify/functions/detect-category.mjs:76 | a string with no white space at either end is its own trim |
| Text.TrimOfPadded | netlify/functions/detect-category.mjs:76 | `trim` removes exactly the white space around a string that neither starts nor ends with white space |
| Text.ToLowerAscii | netlify/functions/detect-category.mjs:76 | lower-casing keeps the length and maps each character through ASCII lower-casing |
| Text.ToLowerAsciiOfLower | netlify/functions/detect-category.mjs:76 | lower-casing a string with no capital letter leaves it unchanged |
| Text.NatToString | netlify/functions/analyze-goal.mjs:42-68 | the decimal form of the year is a non-empty run of digits with no leading zero |
| Text.DecimalRoundTrip | netlify/functions/analyze-goal.mjs:42-68 | the decimal form of a natural number reads back as that number |
| Text.ContainsPart | netlify/functions/analyze-goal.mjs:43-68 | text occurring in one part of a template occurs in the whole template |
| JsonSpan.IndexOf | netlify/functions/analyze-goal.mjs:102 | the first position at or after a start holding a character, or none when no such position exists |
| JsonSpan.LastIndexOf | netlify/functions/analyze-goal.mjs:102 | the last position before a bound holding a character, or none when no such position exists |
| JsonSpan.ExtractJsonSpan | netlify/functions/analyze-goal.mjs:102 | a match is a contiguous substring that starts with `{` and ends with `}`, with no `{` before it and no `}` after it; there is no match iff no `}` follows any `{` |
| JsonSpan.Backtrack | netlify/functions/analyze-goal.mjs:102 | the greedy `[\s\S]*` keeps the largest count of characters after which `}` matches, or none if no count works |
| JsonSpan.SearchFromFirstToLast | netlify/functions/analyze-goal.mjs:102 | from any start, the leftmost greedy regex search finds the first `{` and the last `}` of the text, or nothing when that `}` does not follow the `{` |
| JsonSpan.ExtractJsonSpanIsRegexMatch | netlify/functions/analyze-goal.mjs:102 | first-`{`-to-last-`}` equals `SearchFrom`, the ECMAScript leftmost greedy search for `\{[\s\S]*\}` from position 0 |
| JsonSpan.SpanOfWrappedObject | netlify/functions/analyze-goal.mjs:102 | an object wrapped in prose without braces is extracted exactly, at the position it starts |
| JsonSpan.SpanOfTwoObjects | netlify/functions/analyze-goal.mjs:102 | with two objects in the reply, the match runs from the first `{` to the last `}` and includes the text between them |
| AnalyzeGoal.PromptQuotesTitle | netlify/functions/analyze-goal.mjs:43-45 | `Prompt`, the analysis prompt, contains `Resolution: "<title>"` |
| AnalyzeGoal.PromptDescriptionLine | netlify/functions/analyze-goal.mjs:43-68 | the prompt is the opening, then the quoted description line if there is one (empty otherwise), then the closing, which does not depend on the description |
| AnalyzeGoal.MilestonesUseYear | netlify/functions/analyze-goal.mjs:61-68 | the milestone list quotes each of the four quarterly target dates of the year, and the closing sentence names that year |
| AnalyzeGoal.PromptUsesYear | netlify/functions/analyze-goal.mjs:42-68 | the four milestone dates are `<year>-03-31`, `-06-30`, `-09-30`, `-12-31` of the supplied year, and the closing sentence names that year |
| AnalyzeGoal.ProviderErrorMessage | netlify/functions/analyze-goal.mjs:85-91 | the error is the provider's `error.message` when the body parses to an object whose `error` object has a truthy `message`, and `"AI service error"` otherwise; it is always truthy |
| AnalyzeGoal.ContentText | netlify/functions/analyze-goal.mjs:99-102 | `content.match` runs iff the content is a string; `undefined`, `null` and other values throw |
| AnalyzeGoal.Answer | netlify/functions/analyze-goal.mjs:70-124 | after the call the status is 200 or 500; a failed fetch gives 500 with its message; non-OK gives 500 with the CORS header and the provider error message; 200 only for an OK answer, with the CORS header; every 500 body is `{error}` |
| AnalyzeGoal.Submit | netlify/functions/analyze-goal.mjs:26-117 | once the body is read, the status is 200, 400 or 500 with a body; a call needs a non-empty Netlify key and goes to the endpoint with `Bearer <key>`; a 200 needs an OK answer and carries the CORS header; every other body is `{error}` |
| AnalyzeGoal.Handle | netlify/functions/analyze-goal.mjs:4-125 | no body iff OPTIONS, which gets the preflight; 405 iff neither OPTIONS nor POST; status in {200, 400, 405, 500}; a call happens only for POST with a non-empty key, to the endpoint with `Bearer <key>`; a 200 to a POST needs an OK answer and carries the CORS header; every non-200 body is `{error}` |
| AnalyzeGoal.TitleCheckedFirst | netlify/functions/analyze-goal.mjs:26-31 | a falsy title gives 400 `Title is required` with no call, whatever the key and the provider |
| AnalyzeGoal.KeyCheckedBeforeCall | netlify/functions/analyze-goal.mjs:33-40 | with a title but no non-empty key the answer is 500 `API key not configured` with no call, whatever the provider |
| AnalyzeGoal.CallCarriesPrompt | netlify/functions/analyze-goal.mjs:42-82 | a request that passes every check makes exactly the call carrying the key and the prompt from title, truthy description and year, and answers with the provider's outcome |
| AnalyzeGoal.NoSpanIsInvalid | netlify/functions/analyze-goal.mjs:102-108 | a reply with no `}` after its first `{` is answered 500 `Invalid AI response` |
| AnalyzeGoal.SpanPassedThrough | netlify/functions/analyze-goal.mjs:110-117 | a span that parses is returned unchanged with status 200 and the CORS header |
| AnalyzeGoal.SpanParseErrorFails | netlify/functions/analyze-goal.mjs:110-124 | a span that does not parse gives 500 with the parser's message |
| AnalyzeGoal.MalformedReplyFails | netlify/functions/analyze-goal.mjs:98-124 | a reply body that does not parse, or has no `choices` to index, gives 500 with the exception's message |
| AnalyzeGoal.ContentWithoutTextFails | netlify/functions/analyze-goal.mjs:99-124 | reply content that is missing, `null` or not a string makes `content.match` throw, and the answer is 500 with that exception's message |
| AnalyzeGoal.UnconvertibleGoalFails | netlify/functions/analyze-goal.mjs:43-124 | a title or description whose string conversion throws gives 500 with the object-conversion TypeError message, and no call |
| AnalyzeGoal.UnreadableBodyFails | netlify/functions/analyze-goal.mjs:118-124 | a request body that does not parse or is `null` gives 500 with the exception's message and no call |
| DetectCategory.CategoryNamed | netlify/functions/detect-category.mjs:79-80 | a word names a category iff it is in the list of valid categories, and then that category's word is the word |
| DetectCategory.CategoryNameRoundTrip | netlify/functions/detect-category.mjs:79-80 | every category's word is valid and names that category back |
| DetectCategory.NameInjective | netlify/functions/detect-category.mjs:79 | distinct categories have distinct words |
| DetectCategory.NormalizeCategory | netlify/functions/detect-category.mjs:76-80 | the category is always valid; it is the trimmed, lower-cased content when that is a valid word, and `other` when the content is absent or anything else |
| DetectCategory.CategoryWords | netlify/functions/detect-category.mjs:79 | every category word is lower-case letters and underscores, starting and ending with a letter |
| DetectCategory.WordIsNormal | netlify/functions/detect-category.mjs:76 | trimming and lower-casing leave such a word unchanged |
| DetectCategory.NormalizeCategoryIdempotent | netlify/functions/detect-category.mjs:76-80 | normalising a category's own word gives that category back |
| DetectCategory.NormalizeIgnoresSpaceAndCase | netlify/functions/detect-category.mjs:76-80 | a category word in any ASCII case, with any white space around it, gives that category |
| DetectCategory.NormalizedWordIsCategory | netlify/functions/detect-category.mjs:76-80 | content whose trimmed, lower-cased form is a category's word gives that category |
| DetectCategory.NormalizeNonCategory | netlify/functions/detect-category.mjs:76-80 | a non-empty word with no surrounding white space and no capital letters that is not in the list gives `other` |
| DetectCategory.NormalizeSpacedCapitalised | netlify/functions/detect-category.mjs:76-80 | `"  Health\n"` gives `health` |
| DetectCategory.NormalizeUnknownWord | netlify/functions/detect-category.mjs:76-80 | `"banana"` gives `other` |
| DetectCategory.PromptLines | netlify/functions/detect-category.mjs:41-51 | `Prompt`, the classification prompt, contains `Resolution: "<title>"`, and the line after it quotes the description iff there is one |
| DetectCategory.ApiKey | netlify/functions/detect-category.mjs:32 | the key is the process environment's when that is non-empty, the Netlify environment's otherwise; it is present iff either is |
| DetectCategory.ContentCategory | netlify/functions/detect-category.mjs:76-80 | absent or `null` content gives `other`; a string is normalised; any other value throws because it has no `trim` |
| DetectCategory.Answer | netlify/functions/detect-category.mjs:53-94 | after the call the answer is always 200 with the CORS header and a valid category; it is `other` when fetch fails or the answer is not OK |
| DetectCategory.Handle | netlify/functions/detect-category.mjs:3-95 | no body iff OPTIONS; 405 iff neither OPTIONS nor POST; status in {200, 400, 405, 500}; 400 only as `Title is required` and 500 only as `API key not configured`, both with no call; a call happens only for POST with a key, and the response after it is exactly `Answer` of the provider's outcome; every 200 to a POST is a category response |
| DetectCategory.ChecksNotSoftened | netlify/functions/detect-category.mjs:25-39 | a falsy title still gives 400 and a title with no key anywhere still gives 500; neither becomes `other` |
| DetectCategory.UnreadableBodyIsOther | netlify/functions/detect-category.mjs:88-94 | a request body that does not parse or is `null` gives 200 `{category: "other"}` with the CORS header and no call |
| DetectCategory.CallCarriesPrompt | netlify/functions/detect-category.mjs:41-87 | a request that passes every check makes exactly the call carrying the key and the prompt from title and truthy description, and answers with what the provider's outcome yields |
| DetectCategory.UnconvertibleGoalIsOther | netlify/functions/detect-category.mjs:41-94 | a title or description whose string conversion throws gives 200 `{category: "other"}` with the CORS header, and no call |
| DetectCategory.ReplyCategory | netlify/functions/detect-category.mjs:75-94 | an OK reply that parses and has `choices` yields the category of its content: the normalised text for a string, `other` for missing, `null` or any other content |
| DetectCategory.MalformedReplyIsOther | netlify/functions/detect-category.mjs:75-94 | an OK reply that does not parse, or has no `choices` to index, gives `other` with 200 |
| DetectCategory.ReplyWordIsCategory | netlify/functions/detect-category.mjs:75-87 | a reply of any shape whose first message's content is a category word, in any ASCII case and padded with white space, is answered with that category |

## Left out

- The network call itself: its outcome is an input (`ProviderOutcome`). `response.text()` and `response.ok` are folded into that outcome, so a failure while reading the body text is not modelled.
- The JSON grammar: `JSON.parse`, `request.json()` and `response.json()` are a parameter `parse`, and `JSON.stringify` of the response body is left as the `Json` value it serialises.
- `console.error` logging, `async`/`await`, and the `Response` object, which is a plain record here.
- The `temperature` and `max_tokens` fields of the outbound request, its `POST` method, its `Content-Type: application/json` header, and the `user` role of its one message: they are fixed and no handler logic depends on them.
- Numbers are integers. Fractions and exponent forms, and `String()` of such numbers, are not modelled.
- Strings are sequences of Unicode scalar values rather than UTF-16 code units, so a lone surrogate (which `JSON.parse` yields for `"\ud800"`) cannot be represented. No decision of either handler depends on this.
- Text.ToLowerAscii: lower-cases ASCII letters only, not full Unicode `toLowerCase`. The only non-ASCII character that lower-cases to an ASCII letter is the Kelvin sign (to `k`), and no category word contains `k`, so category membership is unaffected. This argument is not proved.
- Text.Trim: uses the full set of ECMAScript white-space and line-terminator characters, rather than ASCII white space only.
- The TypeError messages use V8's wording. A different engine would put different text into the 500 body of `analyze-goal`.
- `String()` of an object in a template literal is modelled for values `JSON.parse` can produce. An own `toString` field can never be callable, so the conversion throws; otherwise it gives `[object Object]`.

## Behaviour worth noting

- `detect-category` does not answer `other` for every failure. A falsy title still gets 400, and a title with no key still gets 500 (`detect-category.mjs:25-39`). Every other failure inside the `try` block becomes 200 `other`, including a request body that does not parse or parses to `null` (`detect-category.mjs:23`, `88-93`).
- The pattern in `analyze-goal.mjs:102` is greedy. It runs from the first `{` of the reply to the last `}`, so a reply with two objects yields both together, with the text between them. `JsonSpan.SpanOfTwoObjects` shows this.
- In `analyze-goal`, only the 200 and the non-OK-provider 500 carry `Access-Control-Allow-Origin`. The 400, the key 500, `Invalid AI response` and the `catch` 500 carry only `Content-Type`.
