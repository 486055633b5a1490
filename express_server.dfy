/** The Express route `POST /api/generate`: the key check, then a try block
    that validates the body, asks the model and parses its text, and a catch
    block that maps any error to 429 or 500 with the error's message as
    `details`. The model call and `JSON.parse` are parameters. */
module ExpressServer {
  import opened JsRuntime
  import opened Upstream

  const ConfigError: string := "Server configuration error: Missing API Key"
  const MissingFields: string := "Missing required fields: chapterTitle or difficulty"
  const DefaultGuidance: string := "Standard difficulty"

  /** `difficultyDescription || 'Standard difficulty'`: a falsy description is
      replaced by the default. */
  function Guidance(f: Field): (g: string)
    ensures Truthy(f) ==> g == Shown(f)
    ensures !Truthy(f) ==> g == DefaultGuidance
  {
    if Truthy(f) then Shown(f) else DefaultGuidance
  }

  /** The values the route writes into its prompt. */
  function PromptFor(f: Fields): (p: Prompt)
    ensures p.chapterTitle == Shown(f.chapterTitle) && p.difficulty == Shown(f.difficulty)
    ensures p.guidance == Guidance(f.difficultyDescription)
  {
    Prompt(Shown(f.chapterTitle), Shown(f.difficulty), Guidance(f.difficultyDescription))
  }

  /** The try block: a response it sends itself (400, or the parsed JSON), or
      the error that escapes to the catch block. `body` is the destructured
      `req.body`, or the error destructuring it raised. */
  function TryBlock(body: Throws<Fields>, gemini: Prompt -> Outcome, parse: string -> Throws<string>): (res: Throws<Response>)
    ensures body.Thrown? ==> res == Thrown(body.error)
    ensures res.Returned? ==> res.value.status in {200, 400} && res.value.contentType == Json
    ensures res.Returned? && res.value.status == 400 <==> body.Returned? && !HasRequiredFields(body.value)
    ensures res.Returned? && res.value.status == 400 ==> res.value.body == ErrorObject(MissingFields, None)
    ensures res.Returned? && res.value.status == 200 ==>
      body.Returned? && gemini(PromptFor(body.value)).Text?
      && var t := gemini(PromptFor(body.value)).text;
      t != "" && parse(t).Returned? && res.value.body == Raw(parse(t).value)
    ensures body.Returned? && HasRequiredFields(body.value) && gemini(PromptFor(body.value)) == Text("") ==>
      res == Thrown(EmptyResponse)
  {
    match body
    case Thrown(e) => Thrown(e)
    case Returned(f) =>
      if !HasRequiredFields(f) then Returned(Response(400, Json, ErrorObject(MissingFields, None)))
      else
        match gemini(PromptFor(f))
        case Fail(e) => Thrown(e)
        case Text(t) =>
          if t == "" then Thrown(EmptyResponse)
          else
            match parse(t)
            case Thrown(e) => Thrown(e)
            case Returned(json) => Returned(Response(200, Json, Raw(json)))
  }

  /** The catch block: status and message by the rate-limit rule, with the
      error's message as `details`. */
  function Caught(e: JsError): (r: Response)
    ensures r.status == ErrorStatus(e) && r.contentType == Json
    ensures r.body == ErrorObject(ErrorMessage(e), e.message)
  {
    Response(ErrorStatus(e), Json, ErrorObject(ErrorMessage(e), e.message))
  }

  /** The whole route. A missing key is answered before the body is looked at;
      every answer is JSON with one of four statuses; 429 is given exactly for
      a rate-limit error caught in the try block; success carries the parsed
      model output; every error answer carries `error`, and the answers of the
      catch block carry `details` equal to the error's message, omitted when it
      has none; the missing-key and missing-field answers carry no `details`. */
  function Generate(apiKey: Option<string>, body: Throws<Fields>, gemini: Prompt -> Outcome, parse: string -> Throws<string>): (r: Response)
    ensures r.status in {200, 400, 429, 500} && r.contentType == Json
    ensures !KeyConfigured(apiKey) ==> r == Response(500, Json, ErrorObject(ConfigError, None))
    ensures r.status == 429 <==>
      KeyConfigured(apiKey) && TryBlock(body, gemini, parse).Thrown? && IsRateLimit(TryBlock(body, gemini, parse).error)
    ensures r.status == 400 <==> KeyConfigured(apiKey) && body.Returned? && !HasRequiredFields(body.value)
    ensures r.status == 400 ==> r.body == ErrorObject(MissingFields, None)
    ensures r.status == 200 <==> KeyConfigured(apiKey) && TryBlock(body, gemini, parse).Returned? && r.body.Raw?
    ensures KeyConfigured(apiKey) && TryBlock(body, gemini, parse).Thrown? ==>
      r.body == ErrorObject(ErrorMessage(TryBlock(body, gemini, parse).error), TryBlock(body, gemini, parse).error.message)
  {
    if !KeyConfigured(apiKey) then Response(500, Json, ErrorObject(ConfigError, None))
    else
      match TryBlock(body, gemini, parse)
      case Returned(r) => r
      case Thrown(e) => Caught(e)
  }

  /** An empty model text is answered with 500 "Internal Server Error", the
      thrown error's message as `details`. */
  lemma EmptyTextIsInternalError(apiKey: Option<string>, f: Fields, gemini: Prompt -> Outcome, parse: string -> Throws<string>)
    requires KeyConfigured(apiKey) && HasRequiredFields(f)
    requires gemini(PromptFor(f)) == Text("")
    ensures Generate(apiKey, Returned(f), gemini, parse) ==
      Response(500, Json, ErrorObject("Internal Server Error", Some("Empty response from Gemini")))
  {
    EmptyResponseIsInternal();
  }

  /** A failed model call is answered by the rate-limit rule, its message as `details`. */
  lemma ModelFailureIsCaught(apiKey: Option<string>, f: Fields, gemini: Prompt -> Outcome, parse: string -> Throws<string>)
    requires KeyConfigured(apiKey) && HasRequiredFields(f)
    requires gemini(PromptFor(f)).Fail?
    ensures
      var e := gemini(PromptFor(f)).error;
      Generate(apiKey, Returned(f), gemini, parse) ==
        Response(if IsRateLimit(e) then 429 else 500, Json,
          ErrorObject(if IsRateLimit(e) then "API Limit Exceeded" else "Internal Server Error", e.message))
  {
  }

  /** Output the parser rejects lands in the catch block: 500, or 429 when the
      parser's error itself matches the rate-limit rule. */
  lemma ParseFailureIsCaught(apiKey: Option<string>, f: Fields, gemini: Prompt -> Outcome, parse: string -> Throws<string>)
    requires KeyConfigured(apiKey) && HasRequiredFields(f)
    requires gemini(PromptFor(f)).Text? && gemini(PromptFor(f)).text != ""
    requires parse(gemini(PromptFor(f)).text).Thrown?
    ensures
      var e := parse(gemini(PromptFor(f)).text).error;
      Generate(apiKey, Returned(f), gemini, parse) == Response(if IsRateLimit(e) then 429 else 500, Json, ErrorObject(ErrorMessage(e), e.message))
  {
  }

  /** Non-empty model text the parser accepts is sent back as parsed, with 200. */
  lemma SuccessPassesThrough(apiKey: Option<string>, f: Fields, gemini: Prompt -> Outcome, parse: string -> Throws<string>)
    requires KeyConfigured(apiKey) && HasRequiredFields(f)
    requires gemini(PromptFor(f)).Text? && gemini(PromptFor(f)).text != ""
    requires parse(gemini(PromptFor(f)).text).Returned?
    ensures Generate(apiKey, Returned(f), gemini, parse) ==
      Response(200, Json, Raw(parse(gemini(PromptFor(f)).text).value))
  {
  }
}
