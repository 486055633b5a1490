/** How the client and the two proxies fit together: the requests the client
    builds always pass the proxies' validation, the two proxies agree on the
    status of every request the client can send, and every proxy error ends on
    the quiz's error panel. */
module EndToEnd {
  import opened JsRuntime
  import opened QuizTypes
  import Api
  import Quiz
  import opened Upstream
  import ExpressServer
  import NetlifyFunction

  /** The request body as the proxies destructure it: three strings. */
  function FieldsOf(b: Api.RequestBody): (f: Fields)
    ensures Shown(f.chapterTitle) == b.chapterTitle && Shown(f.difficulty) == b.difficulty
    ensures Shown(f.difficultyDescription) == b.difficultyDescription
  {
    Fields(Str(b.chapterTitle), Str(b.difficulty), Str(b.difficultyDescription))
  }

  /** Every chapter title is non-empty. */
  lemma ChaptersNonEmpty()
    ensures "" !in Api.Chapters
  {
  }

  /** Whatever chapter is drawn and whatever the difficulty, the client's
      request carries truthy required fields and a truthy description: neither
      proxy answers it with 400, the Netlify function does not answer it with
      405, and the Express route uses the client's description rather than its
      default. */
  lemma ClientRequestsPassValidation(
    prod: bool, d: Difficulty, r: real, apiKey: Option<string>,
    gemini: Prompt -> Outcome, parse: string -> Throws<string>)
    requires 0.0 <= r < 1.0
    ensures
      var req := Api.QuestionRequest(prod, d, r);
      var f := FieldsOf(req.body);
      HasRequiredFields(f)
      && ExpressServer.PromptFor(f).guidance == req.body.difficultyDescription
      && ExpressServer.Generate(apiKey, Returned(f), gemini, parse).status != 400
      && NetlifyFunction.Generate(req.verb, apiKey, Returned(f), gemini).status !in {400, 405}
  {
  }

  /** For a body whose description is truthy, the two proxies send the model
      the same prompt and, when the Express route can parse the model's
      non-empty text, answer with the same status. */
  lemma ProxiesAgree(
    apiKey: Option<string>, body: Throws<Fields>,
    gemini: Prompt -> Outcome, parse: string -> Throws<string>)
    requires body.Returned? ==> Truthy(body.value.difficultyDescription)
    requires body.Returned? ==>
      var out := gemini(ExpressServer.PromptFor(body.value));
      out.Text? && out.text != "" ==> parse(out.text).Returned?
    ensures body.Returned? ==> ExpressServer.PromptFor(body.value) == NetlifyFunction.PromptFor(body.value)
    ensures ExpressServer.Generate(apiKey, body, gemini, parse).status
         == NetlifyFunction.Generate("POST", apiKey, body, gemini).status
  {
  }

  /** Without a description the Express route asks for "Standard difficulty"
      while the Netlify function writes "undefined" into its prompt. */
  lemma MissingDescriptionGuidance(f: Fields)
    requires f.difficultyDescription.Missing?
    ensures ExpressServer.PromptFor(f).guidance == "Standard difficulty"
    ensures NetlifyFunction.PromptFor(f).guidance == "undefined"
  {
  }

  /** Any Express answer other than 200 makes the client's fetch fail with its
      fixed error, and completing the pending load then shows the quiz's error
      panel with the streak and difficulty kept. */
  lemma ProxyErrorReachesQuiz(
    s: Quiz.Session, apiKey: Option<string>, body: Throws<Fields>,
    gemini: Prompt -> Outcome, parse: string -> Throws<string>, json: Throws<Question>)
    requires Quiz.Inv(s) && s.loading
    requires ExpressServer.Generate(apiKey, body, gemini, parse).status != 200
    ensures
      var reply := Api.HttpReply(ExpressServer.Generate(apiKey, body, gemini, parse).status, json);
      var t := Quiz.LoadCompleted(s, Api.ReadReply(reply));
      Api.ReadReply(reply) == Thrown(Api.FetchFailed)
      && Quiz.ViewOf(t) == Quiz.ErrorPanel(Quiz.LoadFailedMessage)
      && t.streak == s.streak && t.difficulty == s.difficulty
  {
  }
}
