/** The Netlify function that serves the same endpoint: a method check and a
    key check, then a try block that reads the body, validates it and asks the
    model, and a catch block that maps any error to 429 or 500. Unlike the
    Express route it passes the model's text through unparsed, applies no
    default guidance, and its error bodies carry no `details`. */
module NetlifyFunction {
  import opened JsRuntime
  import opened Upstream

  const MethodNotAllowed: string := "Method Not Allowed"
  const ConfigError: string := "Server configuration error"
  const MissingFields: string := "Missing required fields"

  /** The values the function writes into its prompt: the description as it
      is, `undefined` when absent. */
  function PromptFor(f: Fields): (p: Prompt)
    ensures p.chapterTitle == Shown(f.chapterTitle) && p.difficulty == Shown(f.difficulty)
    ensures p.guidance == Shown(f.difficultyDescription)
    ensures f.difficultyDescription.Missing? ==> p.guidance == "undefined"
  {
    Prompt(Shown(f.chapterTitle), Shown(f.difficulty), Shown(f.difficultyDescription))
  }

  /** The try block: a response it returns itself (400, or the model's text),
      or the error that escapes to the catch block. `body` is what
      `await req.json()` and the destructuring give, or the error they raised. */
  function TryBlock(body: Throws<Fields>, gemini: Prompt -> Outcome): (res: Throws<Response>)
    ensures body.Thrown? ==> res == Thrown(body.error)
    ensures res.Returned? ==> res.value.status in {200, 400} && res.value.contentType == Json
    ensures res.Returned? && res.value.status == 400 <==> body.Returned? && !HasRequiredFields(body.value)
    ensures res.Returned? && res.value.status == 400 ==> res.value.body == ErrorObject(MissingFields, None)
    ensures res.Returned? && res.value.status == 200 ==>
      body.Returned? && gemini(PromptFor(body.value)).Text?
      && gemini(PromptFor(body.value)).text != "" && res.value.body == Raw(gemini(PromptFor(body.value)).text)
    ensures body.Returned? && HasRequiredFields(body.value) && gemini(PromptFor(body.value)) == Text("") ==>
      res == Thrown(EmptyResponse)
  {
    match body
    case Thrown(e) => Thrown(e)
    case Returned(f) =>
      if !HasRequiredFields(f) then Returned(Response(400, Json, ErrorObject(MissingFields, None)))
      else
        match gemini(PromptFor(f))
        case Fail(e) => Thrown(e)
        case Text(t) =>
          if t == "" then Thrown(EmptyResponse)
          else Returned(Response(200, Json, Raw(t)))
  }

  /** The catch block: status and message by the rate-limit rule, no details. */
  function Caught(e: JsError): (r: Response)
    ensures r.status == ErrorStatus(e) && r.contentType == Json
    ensures r.body == ErrorObject(ErrorMessage(e), None)
  {
    Response(ErrorStatus(e), Json, ErrorObject(ErrorMessage(e), None))
  }

  /** The whole function. A method other than POST is refused before anything
      else, then a missing key; 429 is given exactly for a rate-limit error
      caught in the try block; success returns the model's text verbatim as
      JSON; no answer carries `details`. */
  function Generate(verb: string, apiKey: Option<string>, body: Throws<Fields>, gemini: Prompt -> Outcome): (r: Response)
    ensures r.status in {200, 400, 405, 429, 500}
    ensures r.status == 405 <==> verb != "POST"
    ensures verb != "POST" ==> r == Response(405, PlainText, Raw(MethodNotAllowed))
    ensures verb == "POST" && !KeyConfigured(apiKey) ==> r == Response(500, Json, ErrorObject(ConfigError, None))
    ensures r.status == 429 <==>
      verb == "POST" && KeyConfigured(apiKey) && TryBlock(body, gemini).Thrown? && IsRateLimit(TryBlock(body, gemini).error)
    ensures r.status == 400 <==> verb == "POST" && KeyConfigured(apiKey) && body.Returned? && !HasRequiredFields(body.value)
    ensures r.status != 405 ==> r.contentType == Json
    ensures r.body.ErrorObject? ==> r.body.details.None?
  {
    if verb != "POST" then Response(405, PlainText, Raw(MethodNotAllowed))
    else if !KeyConfigured(apiKey) then Response(500, Json, ErrorObject(ConfigError, None))
    else
      match TryBlock(body, gemini)
      case Returned(r) => r
      case Thrown(e) => Caught(e)
  }

  /** A body that cannot be read is answered by the catch block, 500 unless the
      error matches the rate-limit rule. */
  lemma UnreadableBodyIsCaught(apiKey: Option<string>, e: JsError, gemini: Prompt -> Outcome)
    requires KeyConfigured(apiKey)
    ensures Generate("POST", apiKey, Thrown(e), gemini) == Response(ErrorStatus(e), Json, ErrorObject(ErrorMessage(e), None))
  {
  }

  /** An empty model text is answered with 500 "Internal Server Error". */
  lemma EmptyTextIsInternalError(apiKey: Option<string>, f: Fields, gemini: Prompt -> Outcome)
    requires KeyConfigured(apiKey) && HasRequiredFields(f)
    requires gemini(PromptFor(f)) == Text("")
    ensures Generate("POST", apiKey, Returned(f), gemini) ==
      Response(500, Json, ErrorObject("Internal Server Error", None))
  {
    EmptyResponseIsInternal();
  }

  /** Non-empty model text is returned verbatim with 200 and a JSON content type. */
  lemma SuccessIsVerbatim(apiKey: Option<string>, f: Fields, gemini: Prompt -> Outcome)
    requires KeyConfigured(apiKey) && HasRequiredFields(f)
    requires gemini(PromptFor(f)).Text? && gemini(PromptFor(f)).text != ""
    ensures Generate("POST", apiKey, Returned(f), gemini) == Response(200, Json, Raw(gemini(PromptFor(f)).text))
  {
  }
}
