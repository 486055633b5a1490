/** What the two question proxies (the Express route and the Netlify
    function) have in common: the request fields they read, the abstract outcome
    of the generation call, the response they answer with, and the rule that
    turns a caught error into a status and a message. */
module Upstream {
  import opened JsRuntime

  /** A field of the parsed request body, as JavaScript sees it. */
  datatype Field =
    | Missing                             // `undefined`: the key is absent
    | Str(s: string)                      // a string
    | Other(truthy: bool, shown: string)  // any other value: its truthiness and `${…}` text

  /** Whether `!field` is false. */
  predicate Truthy(f: Field)
  {
    match f
    case Missing => false
    case Str(s) => s != ""
    case Other(truthy, _) => truthy
  }

  /** What `${field}` writes into the prompt. */
  function Shown(f: Field): string
  {
    match f
    case Missing => "undefined"
    case Str(s) => s
    case Other(_, shown) => shown
  }

  /** The three fields both proxies destructure from the body. */
  datatype Fields = Fields(chapterTitle: Field, difficulty: Field, difficultyDescription: Field)

  /** Both required fields are truthy. */
  predicate HasRequiredFields(f: Fields)
  {
    Truthy(f.chapterTitle) && Truthy(f.difficulty)
  }

  /** `process.env.GEMINI_API_KEY || process.env.API_KEY`. */
  function ResolveApiKey(geminiKey: Option<string>, apiKey: Option<string>): (k: Option<string>)
    ensures geminiKey.Some? && geminiKey.value != "" ==> k == geminiKey
    ensures !(geminiKey.Some? && geminiKey.value != "") ==> k == apiKey
  {
    if geminiKey.Some? && geminiKey.value != "" then geminiKey else apiKey
  }

  /** Whether `!API_KEY` is false. */
  predicate KeyConfigured(k: Option<string>)
  {
    k.Some? && k.value != ""
  }

  /** The key is configured exactly when one of the two variables is set to a non-empty value. */
  lemma ResolvedKeyConfigured(geminiKey: Option<string>, apiKey: Option<string>)
    ensures KeyConfigured(ResolveApiKey(geminiKey, apiKey)) <==> KeyConfigured(geminiKey) || KeyConfigured(apiKey)
  {
  }

  /** The values interpolated into the generation prompt. */
  datatype Prompt = Prompt(chapterTitle: string, difficulty: string, guidance: string)

  /** The generation call, seen from the handler: the `text` of its result
      (empty when the model gave none) or the error it rejected with. */
  datatype Outcome = Text(text: string) | Fail(error: JsError)

  /** The error the handlers throw when the model's text is empty:
      `new Error("Empty response from Gemini")`, written out. */
  const EmptyResponse: JsError := JsError(Some("Empty response from Gemini"), "Error: Empty response from Gemini")

  /** The content type of a response. */
  datatype ContentType = Json | PlainText

  /** A response body: text sent as it is, or a JSON error object whose
      `details` key is omitted when absent. */
  datatype Body = Raw(text: string) | ErrorObject(error: string, details: Option<string>)

  datatype Response = Response(status: int, contentType: ContentType, body: Body)

  /** `error.message?.includes('429') || error.toString().includes('Quota')`. */
  predicate IsRateLimit(e: JsError)
  {
    (e.message.Some? && Contains(e.message.value, "429")) || Contains(e.shown, "Quota")
  }

  /** The status a caught error is answered with. */
  function ErrorStatus(e: JsError): (status: int)
    ensures status == 429 || status == 500
    ensures status == 429 <==> IsRateLimit(e)
  {
    if IsRateLimit(e) then 429 else 500
  }

  /** The message a caught error is answered with. */
  function ErrorMessage(e: JsError): (message: string)
    ensures message == "API Limit Exceeded" <==> IsRateLimit(e)
    ensures message == "Internal Server Error" <==> !IsRateLimit(e)
  {
    if IsRateLimit(e) then "API Limit Exceeded" else "Internal Server Error"
  }

  /** The message of the empty-response error has no "429" in it. */
  lemma EmptyMessageLacks429()
    ensures !Contains("Empty response from Gemini", "429")
  {
    var message := "Empty response from Gemini";
    assert '4' !in message;
    NotContainedWithoutHead(message, "429");
  }

  /** The text of the empty-response error has no "Quota" in it. */
  lemma EmptyShownLacksQuota()
    ensures !Contains("Error: Empty response from Gemini", "Quota")
  {
    var shown := "Error: Empty response from Gemini";
    assert 'Q' !in shown;
    NotContainedWithoutHead(shown, "Quota");
  }

  /** The error thrown for an empty model text is not a rate-limit error. */
  lemma EmptyResponseIsInternal()
    ensures !IsRateLimit(EmptyResponse)
    ensures ErrorStatus(EmptyResponse) == 500 && ErrorMessage(EmptyResponse) == "Internal Server Error"
  {
    EmptyMessageLacks429();
    EmptyShownLacksQuota();
  }

  /** A quota message from the model is answered with 429. */
  lemma QuotaErrorIsRateLimit(text: string)
    ensures ErrorStatus(ErrorOf("Quota exceeded: " + text)) == 429
  {
    var e := ErrorOf("Quota exceeded: " + text);
    assert e.shown == "Error: Quota exceeded: " + text;
    assert e.shown[7..12] == "Quota";
    assert OccursAt(e.shown, "Quota", 7);
  }
}
