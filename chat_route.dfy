/** The `POST /api/chat` handler: a decision from the server's API key, the parsed request
    body and the outcome of the external model call to a status and a JSON envelope.
    The checks run in a fixed order: the key, then the body, then the (truncated) message,
    then the model call and the extraction of the reply text. The model call and
    `JSON.stringify` of the model's response are parameters; the persona block prepended
    to every prompt is a parameter too, since only its position in the prompt matters. */
module ChatRoute {
  import opened JsText

  /** Longest user text, in code units, that reaches the prompt. */
  const MaxUserText: nat := 4000
  const MissingKeyError: string := "Missing Gemini API key on server"
  const EmptyMessageError: string := "Empty message"
  const ServerError: string := "Server error"
  const UserLabel: string := "\nUser: "
  const AssistantCue: string := "\nAssistant:"

  /** The value of `body?.message`, as far as `(x || "").toString()` can tell it apart:
      missing (`undefined`, `null`, or no body), another falsy value (`false`, `0`, `NaN`),
      a string, or another truthy value together with its `toString()` rendering. */
  datatype MessageField = Missing | OtherFalsy | Text(s: string) | OtherTruthy(rendered: string)

  /** The settled `await req.json()`: a parsed body, or the message of the exception it threw. */
  datatype RequestBody = Parsed(message: MessageField) | Malformed(reason: string)

  /** The settled result of calling `response.text()`. */
  datatype AccessorResult = Returned(s: string) | Raised(reason: string)

  /** The `text` member of the model's response: absent, a method, or a string property. */
  datatype TextMember = NoText | TextMethod(result: AccessorResult) | TextValue(value: string)

  /** The model's response: the two members the handler looks at, and `others`, the rest of
      the response as a value that only the `stringify` parameter reads. An empty
      `outputText` stands for an absent or falsy `output_text`. */
  datatype ModelResponse = ModelResponse(text: TextMember, outputText: string, others: string)

  /** The settled model call (client construction included): a response or the message of
      the exception it threw. */
  datatype ModelCall = Responded(response: ModelResponse) | Rejected(reason: string)

  /** The outcome of extracting the reply: some string, or the exception `text()` threw. */
  datatype Extraction = Extracted(text: string) | AccessorThrew(reason: string)

  /** The JSON envelope: `{reply}`, `{error}` or `{error, detail}`. */
  datatype Envelope = ReplyBody(reply: string) | ErrorBody(error: string) | ErrorWithDetail(error: string, detail: string)

  datatype Response = Response(status: int, body: Envelope)

  /** `!apiKey` is false: the key is defined and not the empty string. */
  predicate HasKey(apiKey: Option<string>) {
    apiKey.Some? && apiKey.value != []
  }

  /** `(body?.message || "").toString()`. */
  function MessageString(field: MessageField): (r: string)
    ensures field.Text? ==> r == field.s
    ensures field.Missing? || field.OtherFalsy? ==> r == []
    ensures field.OtherTruthy? ==> r == field.rendered
  {
    match field
    case Missing => []
    case OtherFalsy => []
    case Text(s) => s
    case OtherTruthy(rendered) => rendered
  }

  /** `MessageString(field).slice(0, 4000)`: the first min(4000, n) code units. */
  function UserText(field: MessageField): (r: string)
    ensures |r| <= MaxUserText && |r| <= |MessageString(field)|
    ensures r == MessageString(field)[..|r|]
    ensures |r| == MaxUserText || r == MessageString(field)
  {
    Prefix(MessageString(field), MaxUserText)
  }

  /** `buildPrompt`: the persona block, the user label, the untrimmed user text and the cue. */
  function BuildPrompt(persona: string, userText: string): string {
    persona + UserLabel + userText + AssistantCue
  }

  /** Reads the user text back out of a prompt built with `persona`. */
  function PromptUserText(persona: string, prompt: string): (r: Option<string>)
    ensures r.Some? ==> |persona| + |UserLabel| + |r.value| + |AssistantCue| == |prompt|
  {
    var start := |persona| + |UserLabel|;
    if start + |AssistantCue| <= |prompt| && prompt[..start] == persona + UserLabel
      && prompt[|prompt| - |AssistantCue|..] == AssistantCue
    then Some(prompt[start..|prompt| - |AssistantCue|])
    else None
  }

  /** The prompt determines the user text: reading it back gives exactly what was sent. */
  lemma PromptRoundTrip(persona: string, userText: string)
    ensures PromptUserText(persona, BuildPrompt(persona, userText)) == Some(userText)
  {
    var p := BuildPrompt(persona, userText);
    var start := |persona| + |UserLabel|;
    assert p == (persona + UserLabel) + userText + AssistantCue;
    assert p[..start] == persona + UserLabel;
    assert p[|p| - |AssistantCue|..] == AssistantCue;
    assert p[start..|p| - |AssistantCue|] == userText;
  }

  /** The reply text, by priority: a callable `text` (whatever it returns, `""` included),
      else a non-empty `text` string, else a non-empty `output_text`, else the serialised
      response. Only the callable can throw; otherwise some string always comes out. */
  function ReplyText(response: ModelResponse, stringify: ModelResponse -> string): (r: Extraction)
    ensures r.AccessorThrew? <==> response.text.TextMethod? && response.text.result.Raised?
    ensures r.AccessorThrew? ==> r.reason == response.text.result.reason
    ensures response.text.TextMethod? && response.text.result.Returned? ==> r == Extracted(response.text.result.s)
    ensures response.text.TextValue? && response.text.value != [] ==> r == Extracted(response.text.value)
    ensures r.Extracted? && r.text == [] ==> response.text.TextMethod? || stringify(response) == []
    ensures response.text.NoText? || response.text == TextValue([]) ==>
      r == Extracted(if response.outputText != [] then response.outputText else stringify(response))
  {
    match response.text
    case TextMethod(Returned(s)) => Extracted(s)
    case TextMethod(Raised(reason)) => AccessorThrew(reason)
    case TextValue(value) =>
      if value != [] then Extracted(value) else OutputTextOrSerialised(response, stringify)
    case NoText => OutputTextOrSerialised(response, stringify)
  }

  /** `response.output_text || JSON.stringify(response)`. */
  function OutputTextOrSerialised(response: ModelResponse, stringify: ModelResponse -> string): Extraction {
    if response.outputText != [] then Extracted(response.outputText) else Extracted(stringify(response))
  }

  /** The `catch`: status 500 with the exception's message as `detail`. */
  function ServerFailure(reason: string): Response {
    Response(500, ErrorWithDetail(ServerError, reason))
  }

  /** `POST`. */
  function Post(apiKey: Option<string>, persona: string, body: RequestBody,
                generate: string -> ModelCall, stringify: ModelResponse -> string): (r: Response)
    ensures r.status in {200, 400, 500}
    ensures r.status == 200 <==> r.body.ReplyBody?
    ensures !HasKey(apiKey) ==> r == Response(500, ErrorBody(MissingKeyError))
    ensures body.Malformed? && HasKey(apiKey) ==> r == ServerFailure(body.reason)
  {
    if !HasKey(apiKey) then Response(500, ErrorBody(MissingKeyError))
    else match body
      case Malformed(reason) => ServerFailure(reason)
      case Parsed(field) =>
        var userText := UserText(field);
        if Trim(userText) == [] then Response(400, ErrorBody(EmptyMessageError))
        else match generate(BuildPrompt(persona, userText))
          case Rejected(reason) => ServerFailure(reason)
          case Responded(response) =>
            match ReplyText(response, stringify)
            case AccessorThrew(reason) => ServerFailure(reason)
            case Extracted(text) => Response(200, ReplyBody(text))
  }

  /** Without a key the request is never looked at: the answer is the same whatever the body,
      the model and the serialiser would do. */
  lemma MissingKeyIgnoresRequest(apiKey: Option<string>, persona: string, persona': string,
                                 body: RequestBody, body': RequestBody,
                                 generate: string -> ModelCall, generate': string -> ModelCall,
                                 stringify: ModelResponse -> string, stringify': ModelResponse -> string)
    requires !HasKey(apiKey)
    ensures Post(apiKey, persona, body, generate, stringify) == Post(apiKey, persona', body', generate', stringify')
  {
  }

  /** A blank message (empty or whitespace only after truncation) is answered 400, and the
      model is not called: the answer is the same for every model. */
  lemma BlankMessageRejected(apiKey: Option<string>, persona: string, field: MessageField,
                             generate: string -> ModelCall, stringify: ModelResponse -> string)
    requires HasKey(apiKey) && Blank(UserText(field))
    ensures Post(apiKey, persona, Parsed(field), generate, stringify) == Response(400, ErrorBody(EmptyMessageError))
  {
    TrimEmptyIffBlank(UserText(field));
  }

  /** Truncation comes before the blank check: a message whose first 4000 code units are
      whitespace is rejected whatever follows them. */
  lemma TruncationBeforeBlankCheck(apiKey: Option<string>, persona: string, s: string,
                                   generate: string -> ModelCall, stringify: ModelResponse -> string)
    requires HasKey(apiKey) && |s| > MaxUserText && Blank(s[..MaxUserText])
    ensures Post(apiKey, persona, Parsed(Text(s)), generate, stringify) == Response(400, ErrorBody(EmptyMessageError))
  {
    assert UserText(Text(s)) == s[..MaxUserText];
    BlankMessageRejected(apiKey, persona, Text(s), generate, stringify);
  }

  /** A non-blank message reaches the model as `BuildPrompt(persona, UserText(field))`, and the
      answer depends on the model only through that one call. */
  lemma ModelCalledOnceWithPrompt(apiKey: Option<string>, persona: string, field: MessageField,
                                  generate: string -> ModelCall, generate': string -> ModelCall,
                                  stringify: ModelResponse -> string)
    requires HasKey(apiKey) && !Blank(UserText(field))
    requires generate(BuildPrompt(persona, UserText(field))) == generate'(BuildPrompt(persona, UserText(field)))
    ensures Post(apiKey, persona, Parsed(field), generate, stringify) == Post(apiKey, persona, Parsed(field), generate', stringify)
    ensures Post(apiKey, persona, Parsed(field), generate, stringify).status != 400
  {
    TrimEmptyIffBlank(UserText(field));
  }

  /** The status is 400 exactly for a readable body with a blank message, and 200 exactly when
      the model answered and a reply could be extracted; the reply is then that text. */
  lemma PostOutcomes(apiKey: Option<string>, persona: string, body: RequestBody,
                     generate: string -> ModelCall, stringify: ModelResponse -> string)
    ensures var r := Post(apiKey, persona, body, generate, stringify);
      && (r.status == 400 <==> HasKey(apiKey) && body.Parsed? && Blank(UserText(body.message)))
      && (r.status == 200 <==>
            && HasKey(apiKey) && body.Parsed? && !Blank(UserText(body.message))
            && var call := generate(BuildPrompt(persona, UserText(body.message)));
            && call.Responded? && ReplyText(call.response, stringify).Extracted?
            && r.body.reply == ReplyText(call.response, stringify).text)
  {
    if body.Parsed? {
      TrimEmptyIffBlank(UserText(body.message));
    }
  }

  /** Every exception after the key check (unreadable body, failed model call, throwing
      `text()`) is answered 500 with the fixed error and the exception's message as detail. */
  lemma ExceptionsAnswerServerError(apiKey: Option<string>, persona: string, body: RequestBody,
                                    generate: string -> ModelCall, stringify: ModelResponse -> string)
    requires HasKey(apiKey)
    ensures var r := Post(apiKey, persona, body, generate, stringify);
      r.body.ErrorWithDetail? ==> r.status == 500 && r.body.error == ServerError
    ensures body.Parsed? && !Blank(UserText(body.message)) ==>
      var call := generate(BuildPrompt(persona, UserText(body.message)));
      && (call.Rejected? ==> Post(apiKey, persona, body, generate, stringify) == ServerFailure(call.reason))
      && (call.Responded? && call.response.text.TextMethod? && call.response.text.result.Raised? ==>
            Post(apiKey, persona, body, generate, stringify) == ServerFailure(call.response.text.result.reason))
  {
    if body.Parsed? {
      TrimEmptyIffBlank(UserText(body.message));
    }
  }

  /** A model response whose plain `text` property is non-empty is passed through unchanged,
      and one with no text of any kind is answered with its serialisation. */
  lemma TextPassedThrough(apiKey: Option<string>, persona: string, field: MessageField,
                          generate: string -> ModelCall, stringify: ModelResponse -> string)
    requires HasKey(apiKey) && !Blank(UserText(field))
    requires generate(BuildPrompt(persona, UserText(field))).Responded?
    ensures var response := generate(BuildPrompt(persona, UserText(field))).response;
      var r := Post(apiKey, persona, Parsed(field), generate, stringify);
      && (response.text.TextValue? && response.text.value != [] ==> r == Response(200, ReplyBody(response.text.value)))
      && (response.text.NoText? && response.outputText == [] ==> r == Response(200, ReplyBody(stringify(response))))
  {
    TrimEmptyIffBlank(UserText(field));
  }
}
