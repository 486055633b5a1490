/** The client's question-request contract: which endpoint it posts to, the
    request body it builds from a random chapter and the difficulty, and how a
    reply becomes a question or a failure. The random draw and `fetch` are
    parameters. */
module Api {
  import opened JsRuntime
  import opened QuizTypes

  /** The endpoint: relative in a production build, the local dev server otherwise. */
  function ApiUrl(prod: bool): (url: string)
    ensures url == "/api/generate" || url == "http://localhost:3000/api/generate"
    ensures prod <==> url == "/api/generate"
  {
    if prod then "/api/generate" else "http://localhost:3000/api/generate"
  }

  /** The fixed list of chapters a question is drawn from. */
  const Chapters: seq<string> := [
    "Chapter I: The Arm's Length Principle",
    "Chapter II: Transfer Pricing Methods",
    "Chapter III: Comparability Analysis",
    "Chapter IV: Administrative Approaches",
    "Chapter V: Documentation",
    "Chapter VI: Intangibles",
    "Chapter VII: Intra-group Services",
    "Chapter VIII: Cost Contribution Arrangements",
    "Chapter IX: Business Restructurings",
    "Chapter X: Financial Transactions"
  ]

  /** There are ten chapters and no two are the same. */
  lemma ChaptersAreTen()
    ensures |Chapters| == 10
    ensures forall i, j :: 0 <= i < j < |Chapters| ==> Chapters[i] != Chapters[j]
  {
  }

  /** `Math.floor(r * chapters.length)` for a draw `r` of `Math.random()`. */
  function ChapterIndex(r: real): (k: nat)
    requires 0.0 <= r < 1.0
    ensures k < |Chapters|
  {
    var x := r * (|Chapters| as real);
    assert 0.0 <= x < 10.0;
    x.Floor
  }

  /** Each index is drawn for exactly the draws in a tenth of [0, 1): the
      choice is uniform when the draw is. */
  lemma ChapterIndexBand(r: real, k: nat)
    requires 0.0 <= r < 1.0
    ensures ChapterIndex(r) == k <==> k as real <= 10.0 * r < k as real + 1.0
  {
  }

  /** `getRandomChapter()`: always one of the chapters. */
  function RandomChapter(r: real): (c: string)
    requires 0.0 <= r < 1.0
    ensures c in Chapters
  {
    Chapters[ChapterIndex(r)]
  }

  /** The JSON body the client sends. */
  datatype RequestBody = RequestBody(chapterTitle: string, difficulty: string, difficultyDescription: string)

  /** A request as given to `fetch`. */
  datatype Request = Request(url: string, verb: string, contentType: string, body: RequestBody)

  /** The request `fetchQuestion(difficulty)` issues for the draw `r`. */
  function QuestionRequest(prod: bool, d: Difficulty, r: real): (req: Request)
    requires 0.0 <= r < 1.0
    ensures req.verb == "POST" && req.contentType == "application/json"
    ensures req.url == ApiUrl(prod)
    ensures req.body.chapterTitle in Chapters
    ensures req.body.difficulty == Name(d)
    ensures req.body.difficultyDescription == "Generate a " + Name(d) + " question."
  {
    Request(ApiUrl(prod), "POST", "application/json",
      RequestBody(RandomChapter(r), Name(d), "Generate a " + Name(d) + " question."))
  }

  /** A response as `fetch` resolves it: its status and what `response.json()`
      yields, a question of whatever shape or a parse failure. */
  datatype HttpReply = HttpReply(status: int, json: Throws<Question>)

  /** `response.ok`. */
  predicate Ok(reply: HttpReply)
  {
    200 <= reply.status <= 299
  }

  /** The error `fetchQuestion` throws for a response that is not OK. */
  const FetchFailed: JsError := ErrorOf("Failed to fetch question")

  /** What `fetchQuestion` makes of a response: a non-OK status fails with a
      fixed error, an OK one yields the body as it is, with no structural check. */
  function ReadReply(reply: HttpReply): (res: Throws<Question>)
    ensures !Ok(reply) ==> res == Thrown(FetchFailed)
    ensures Ok(reply) ==> res == reply.json
  {
    if !Ok(reply) then Thrown(FetchFailed) else reply.json
  }

  /** `fetchQuestion(difficulty)` with the draw `r` and the transport `send`. */
  function FetchQuestion(prod: bool, d: Difficulty, r: real, send: Request -> Throws<HttpReply>): (res: Throws<Question>)
    requires 0.0 <= r < 1.0
    ensures res.Returned? ==>
      var sent := send(QuestionRequest(prod, d, r));
      sent.Returned? && Ok(sent.value) && sent.value.json == res
    ensures res.Thrown? ==>
      var sent := send(QuestionRequest(prod, d, r));
      if sent.Thrown? then res.error == sent.error else !Ok(sent.value) || sent.value.json == res
    ensures
      var sent := send(QuestionRequest(prod, d, r));
      sent.Returned? && !Ok(sent.value) ==> res == Thrown(FetchFailed)
  {
    match send(QuestionRequest(prod, d, r))
    case Thrown(e) => Thrown(e)
    case Returned(reply) => ReadReply(reply)
  }
}
