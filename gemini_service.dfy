/** The tutor gateway (services/geminiService.ts): shaping the request for
    the remote generative-language service and the answer it gives back.
    The remote calls themselves are parameters: `service` maps the request
    to what the call produced, `parse` stands for `JSON.parse`. */
module GeminiService {
  import opened Wrappers
  import opened Types
  import Strings

  /** The roles the remote service knows: "user" and "model". */
  datatype WireRole = UserRole | ModelRole

  /** A part of a request turn: text, or an inline image with its mime type and
      base64 payload (absent when the data URI has no comma). */
  datatype Part = TextPart(text: string) | InlineDataPart(mimeType: string, data: Option<string>)

  /** One turn of the `contents` list sent to the service. */
  datatype Content = Content(role: WireRole, parts: seq<Part>)

  /** A failure of a remote call, passed on as it was raised. */
  datatype ServiceError = ServiceError(description: string)

  /** What the conversation call produced: a response whose `text` may be
      absent, or a thrown error. */
  datatype ServiceReply = Replied(text: Option<string>) | CallFailed(error: ServiceError)

  /** What the planning call produced. */
  datatype PlanReply = PlanText(text: Option<string>) | PlanFailed

  const ImageMimeType: string := "image/jpeg"

  const EmptyReplyFallback: string :=
    "I'm sorry, I couldn't process that. Let's try rephrasing the problem."

  const FallbackPlan: seq<string> := ["Identify Problem", "Analysis", "Calculation", "Verification"]

  /** What is parsed when the planning response has no text. */
  const EmptyJsonArray: string := "[]"

  const PlanPromptPrefix: string :=
    "Break this problem down into 4-6 high-level logical steps for a learning journey. Return ONLY a JSON array of strings. Problem: "

  function WireRoleOf(role: Role): (w: WireRole)
    ensures w == ModelRole <==> role == Assistant
  {
    if role == Assistant then ModelRole else UserRole
  }

  /** `url.split(',')[1]`: the second comma-separated segment, or undefined. */
  function ImageData(url: string): (r: Option<string>)
    ensures r.None? <==> ',' !in url
    ensures r.Some? ==> ',' !in r.value
  {
    Strings.SplitSeveralIff(url, ',');
    var pieces := Strings.Split(url, ',');
    if |pieces| > 1 then Some(pieces[1]) else None
  }

  /** `seg` is the text of `url` strictly after its first comma, at `i`, up to
      the next comma or the end, at `j`. */
  predicate SecondSegmentAt(url: string, i: int, j: int, seg: string)
  {
    && 0 <= i < j <= |url| && url[i] == ',' && ',' !in url[..i]
    && seg == url[i + 1..j] && ',' !in seg
    && (j == |url| || url[j] == ',')
  }

  /** The image payload is absent exactly when the URI has no comma, and
      otherwise is the text between the first comma and the next one (or the
      end). */
  lemma ImageDataSecondSegment(url: string)
    ensures ImageData(url).None? <==> ',' !in url
    ensures ImageData(url).Some? ==> exists i, j :: SecondSegmentAt(url, i, j, ImageData(url).value)
  {
    var pieces := Strings.Split(url, ',');
    Strings.SplitSeveralIff(url, ',');
    if |pieces| > 1 {
      Strings.JoinSplit(url, ',');
      var i := |pieces[0]|;
      var j := i + 1 + |pieces[1]|;
      var rest := Strings.Join(pieces[2..], ',');
      assert pieces[1..][1..] == pieces[2..];
      if |pieces| > 2 {
        assert url == pieces[0] + [','] + (pieces[1] + [','] + rest);
        assert url[j] == ',';
      } else {
        assert url == pieces[0] + [','] + pieces[1];
      }
      assert url[..i] == pieces[0];
      assert url[i + 1..j] == pieces[1];
      assert SecondSegmentAt(url, i, j, ImageData(url).value);
    }
  }

  /** One message as a request turn. */
  function FormatMessage(m: Message): (c: Content)
    ensures c.role == WireRoleOf(m.role)
    ensures 1 <= |c.parts| <= 2 && c.parts[0] == TextPart(m.content)
    ensures |c.parts| == 2 <==> Truthy(m.imageUrl)
    ensures |c.parts| == 2 ==> c.parts[1] == InlineDataPart(ImageMimeType, ImageData(m.imageUrl.value))
  {
    Content(WireRoleOf(m.role),
            if Truthy(m.imageUrl) then [TextPart(m.content), InlineDataPart(ImageMimeType, ImageData(m.imageUrl.value))]
            else [TextPart(m.content)])
  }

  /** `messages.map(...)`: the `contents` list, one turn per message, in order. */
  function FormatContents(messages: seq<Message>): (cs: seq<Content>)
    ensures |cs| == |messages|
    ensures forall i :: 0 <= i < |messages| ==> cs[i] == FormatMessage(messages[i])
    decreases |messages|
  {
    if messages == [] then [] else [FormatMessage(messages[0])] + FormatContents(messages[1..])
  }

  /** Formatting commutes with appending a turn: the request for a longer log
      extends the request for the shorter one. */
  lemma FormatContentsAppend(messages: seq<Message>, m: Message)
    ensures FormatContents(messages + [m]) == FormatContents(messages) + [FormatMessage(m)]
  {
  }

  /** `response.text || fallback`. */
  function ReplyText(text: Option<string>): (r: string)
    ensures r != ""
    ensures Truthy(text) ==> r == text.value
    ensures !Truthy(text) ==> r == EmptyReplyFallback
  {
    if Truthy(text) then text.value else EmptyReplyFallback
  }

  /** `sendMessageToTutor(messages, imageUri)`: the service's answer to the
      formatted history, shaped; a failure is rethrown as it was. `imageUri` is
      not read. How often the service is asked is recorded by the session's
      `tutorRequests`, not here. */
  function SendMessageToTutor(messages: seq<Message>, imageUri: Option<string>,
                              service: seq<Content> -> ServiceReply): (r: Result<string, ServiceError>)
    ensures r.Failure? <==> service(FormatContents(messages)).CallFailed?
    ensures r.Failure? ==> r.error == service(FormatContents(messages)).error
    ensures r.Success? ==> r.value != ""
    ensures r.Success? ==> r.value == ReplyText(service(FormatContents(messages)).text)
  {
    match service(FormatContents(messages))
    case CallFailed(e) => Failure(e)
    case Replied(text) => Success(ReplyText(text))
  }

  /** The result does not depend on `imageUri`: an image reaches the service
      only through a message's `imageUrl`. */
  lemma TutorIgnoresImageUri(messages: seq<Message>, u: Option<string>, v: Option<string>,
                             service: seq<Content> -> ServiceReply)
    ensures SendMessageToTutor(messages, u, service) == SendMessageToTutor(messages, v, service)
  {
  }

  /** The result is decided by the service's answer to the formatted
      request: two services that answer that request alike give the same
      result, whatever they would answer to anything else. */
  lemma TutorSingleRequest(messages: seq<Message>, u: Option<string>,
                           s1: seq<Content> -> ServiceReply, s2: seq<Content> -> ServiceReply)
    requires s1(FormatContents(messages)) == s2(FormatContents(messages))
    ensures SendMessageToTutor(messages, u, s1) == SendMessageToTutor(messages, u, s2)
  {
  }

  /** The planning prompt, with the problem text embedded verbatim at its end. */
  function PlanPrompt(problem: string): (p: string)
    ensures |p| == |PlanPromptPrefix| + |problem|
    ensures p[..|PlanPromptPrefix|] == PlanPromptPrefix && p[|PlanPromptPrefix|..] == problem
  {
    PlanPromptPrefix + problem
  }

  /** `generateProblemSteps(problem)`: the parsed list of labels, or the
      fallback plan when the call or the parse fails. */
  function GenerateProblemSteps(problem: string, service: string -> PlanReply,
                                parse: string -> Option<seq<string>>): (r: seq<string>)
    ensures service(PlanPrompt(problem)).PlanFailed? ==> r == FallbackPlan
  {
    match service(PlanPrompt(problem))
    case PlanFailed => FallbackPlan
    case PlanText(text) =>
      match parse(PlanBody(text))
      case None => FallbackPlan
      case Some(labels) => labels
  }

  /** The text handed to `JSON.parse`: the response text, or "[]" when the
      text is absent or empty. */
  function PlanBody(text: Option<string>): (body: string)
    ensures body != ""
    ensures Truthy(text) ==> body == text.value
    ensures !Truthy(text) ==> body == EmptyJsonArray
  {
    if Truthy(text) then text.value else EmptyJsonArray
  }

  /** A parse failure gives exactly the fallback plan. */
  lemma PlanParseFailureFallback(problem: string, service: string -> PlanReply,
                                 parse: string -> Option<seq<string>>, text: Option<string>)
    requires service(PlanPrompt(problem)) == PlanText(text)
    requires parse(PlanBody(text)) == None
    ensures GenerateProblemSteps(problem, service, parse) == FallbackPlan
  {
  }

  /** A successful parse is returned verbatim. */
  lemma PlanParsedVerbatim(problem: string, service: string -> PlanReply,
                           parse: string -> Option<seq<string>>, text: Option<string>, labels: seq<string>)
    requires service(PlanPrompt(problem)) == PlanText(text)
    requires parse(PlanBody(text)) == Some(labels)
    ensures GenerateProblemSteps(problem, service, parse) == labels
  {
  }

  /** A response without text, or with empty text, is parsed as an empty JSON array, so with a
      faithful parser the plan is empty: it is not guaranteed non-empty. */
  lemma PlanMayBeEmpty(problem: string, service: string -> PlanReply, parse: string -> Option<seq<string>>,
                       text: Option<string>)
    requires service(PlanPrompt(problem)) == PlanText(text) && !Truthy(text)
    requires parse(EmptyJsonArray) == Some([])
    ensures GenerateProblemSteps(problem, service, parse) == []
  {
  }
}
