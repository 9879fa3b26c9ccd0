/** The narrative-summary endpoint (`POST /api/analyze-sentiment`): input
    validation, the newline-joined review text, the prompt sent to the
    language model and the fallback when it returns nothing. The model is an
    oracle passed in as a function of the request it is sent. */
module SentimentSummary {
  import opened Wrappers
  import opened Text

  /** The `reviews` member of the request body: absent (or another falsy
      value), present but not an array, or an array of review texts. */
  datatype ReviewsField = Absent | NotArray | Items(texts: seq<string>)

  datatype Body = Body(reviews: ReviewsField, locationName: Option<string>)

  /** What the chat completion does: throws, or returns the content of its
      first choice (absent when there is no choice, message or content). */
  datatype Completion = Threw | Content(text: Option<string>)

  /** The chat-completion request: system instruction, user message,
      sampling temperature and token limit. */
  datatype ChatRequest = ChatRequest(system: string, user: string, temperature: real, maxTokens: nat)

  datatype Response = ErrorResponse(status: int, error: string) | Analysis(analysis: string)

  const SystemPrompt := "You are an expert in analyzing customer reviews for local businesses (mainly restaurants). Provide a concise but comprehensive analysis that includes: 1) Overall sentiment direction 2) Key themes or patterns 3) Notable strengths or areas for improvement. Keep the response to 5-7 sentences maximum and focus on actionable insights. make sure the response flows well and can be read as a paragraph."

  const PromptPrefix := "Please analyze these reviews for "
  const PromptMiddle := " and provide a detailed summary of the overall sentiment:\n\n"
  const Fallback := "No analysis available"

  /** Reviews without line breaks are recovered by splitting the joined text
      at newlines. */
  lemma CombinedSplitsBack(texts: seq<string>)
    requires |texts| >= 1
    requires forall i :: 0 <= i < |texts| ==> '\n' !in texts[i]
    ensures Split(Join(texts, "\n"), '\n') == texts
  {
    SplitJoin(texts, '\n');
  }

  /** `${locationName}` renders an absent name as `undefined`. */
  function NameText(locationName: Option<string>): string {
    if locationName.Some? then locationName.value else "undefined"
  }

  /** The user message: the fixed request naming the location, a blank line,
      then the combined review text. */
  function UserMessage(locationName: Option<string>, combined: string): (m: string)
    ensures |m| == |PromptPrefix| + |NameText(locationName)| + |PromptMiddle| + |combined|
    ensures m[..|PromptPrefix|] == PromptPrefix
    ensures m[|PromptPrefix|..|PromptPrefix| + |NameText(locationName)|] == NameText(locationName)
    ensures m[|m| - |combined|..] == combined
    ensures m[|PromptPrefix| + |NameText(locationName)|..|m| - |combined|] == PromptMiddle
    ensures m[|m| - |combined| - 2..|m| - |combined|] == "\n\n"
  {
    PromptPrefix + NameText(locationName) + PromptMiddle + combined
  }

  /** The request sent for a list of review texts: the fixed system
      instruction, the user message over the newline-joined reviews (which
      begins with the first review and has one newline more per further
      review), temperature 0.7 and at most 200 tokens. */
  function SummaryRequest(locationName: Option<string>, texts: seq<string>): (q: ChatRequest)
    ensures q.system == SystemPrompt && q.temperature == 0.7 && q.maxTokens == 200
    ensures q.user == UserMessage(locationName, Join(texts, "\n"))
    ensures |texts| >= 1 ==>
      var combined := Join(texts, "\n");
      && texts[0] <= combined
      && Occurrences(combined, '\n') == TotalOccurrences(texts, '\n') + |texts| - 1
  {
    ChatRequest(SystemPrompt, UserMessage(locationName, Join(texts, "\n")), 0.7, 200)
  }

  /** `POST /api/analyze-sentiment`: 400 without a non-empty array of reviews,
      500 when the body is not JSON or the model call throws, otherwise the
      model's text, or the fallback when that is empty or missing. */
  function Analyze(body: Option<Body>, complete: ChatRequest -> Completion): (r: Response)
    ensures body.None? ==> r == ErrorResponse(500, "Failed to analyze sentiment")
    ensures body.Some? && (body.value.reviews.Items? ==> body.value.reviews.texts == []) ==>
      r == ErrorResponse(400, "Invalid or missing reviews")
    ensures body.Some? && body.value.reviews.Items? && body.value.reviews.texts != []
            && complete(SummaryRequest(body.value.locationName, body.value.reviews.texts)).Threw? ==>
      r == ErrorResponse(500, "Failed to analyze sentiment")
    ensures r.Analysis? ==>
      && body.Some? && body.value.reviews.Items? && body.value.reviews.texts != []
      && var reply := complete(SummaryRequest(body.value.locationName, body.value.reviews.texts));
      && reply.Content?
      && (Truthy(reply.text) ==> r.analysis == reply.text.value)
      && (!Truthy(reply.text) ==> r.analysis == Fallback)
    ensures r.Analysis? ==> r.analysis != ""
  {
    match body
    case None => ErrorResponse(500, "Failed to analyze sentiment")
    case Some(b) =>
      if !b.reviews.Items? || b.reviews.texts == [] then ErrorResponse(400, "Invalid or missing reviews")
      else
        match complete(SummaryRequest(b.locationName, b.reviews.texts))
        case Threw => ErrorResponse(500, "Failed to analyze sentiment")
        case Content(text) => Analysis(Or(text, Fallback))
  }

  /** A valid request whose model call does not throw always yields an
      analysis. */
  lemma AnalyzeSucceeds(b: Body, complete: ChatRequest -> Completion)
    requires b.reviews.Items? && b.reviews.texts != []
    requires complete(SummaryRequest(b.locationName, b.reviews.texts)).Content?
    ensures Analyze(Some(b), complete).Analysis?
  {
  }
}
