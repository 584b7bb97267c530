/**
 * `generateSummary` (src/shared/api.js): rejects a missing API key, bounds the page text
 * sent to the model, assembles the chat-completion request around the system prompt,
 * and maps the reply to the summary text or an error.
 *
 * `fetch` is a parameter: a function from the request to what came back (a reply, or
 * a failure of the network call itself). JSON decoding of the reply happens inside it.
 */
module Api {
  import opened Wrappers
  import opened Text
  import opened Prompt

  // ---------------------------------------------------------------------------
  // Truncation of the page text

  const MaxContentLength: nat := 15000
  const TruncationMarker: string := "...(content truncated for token efficiency)"

  /**
   * The text sent as the user message: unchanged when it is at most 15000 characters
   * long, otherwise its first 15000 characters followed by the marker.
   */
  function Truncated(content: string): (sent: string)
    ensures |sent| <= MaxContentLength + |TruncationMarker|
    ensures |content| <= MaxContentLength ==> sent == content
    ensures |content| > MaxContentLength ==>
      && content[..MaxContentLength] <= sent
      && EndsWith(sent, TruncationMarker)
      && |sent| == MaxContentLength + |TruncationMarker|
  {
    if |content| > MaxContentLength then content[..MaxContentLength] + TruncationMarker else content
  }

  /** Every character the model receives is the page's own, up to the cut. */
  lemma TruncatedKeepsLeadingText(content: string)
    ensures var sent := Truncated(content);
      forall i :: 0 <= i < |content| && i < MaxContentLength ==> sent[i] == content[i]
  {
    var sent := Truncated(content);
    if |content| > MaxContentLength {
      forall i | 0 <= i < MaxContentLength ensures sent[i] == content[i] {
        assert sent[i] == content[..MaxContentLength][i];
      }
    }
  }

  /**
   * Truncation leaves a text alone exactly when it is short enough, or when it already
   * is its own first 15000 characters followed by the marker.
   */
  lemma TruncatedFixedPoints(content: string)
    ensures Truncated(content) == content <==>
      |content| <= MaxContentLength || content == content[..MaxContentLength] + TruncationMarker
  {
  }

  // ---------------------------------------------------------------------------
  // The request

  const Endpoint: string := "https://api.openai.com/v1/chat/completions"
  const ModelName: string := "gpt-3.5-turbo"
  /** The sampling temperature 0.5, kept as the literal the body is serialised with. */
  const Temperature: string := "0.5"

  datatype Message = Message(role: string, content: string)

  datatype Request = Request(
    url: string,
    httpMethod: string,
    contentType: string,
    authorization: string,
    model: string,
    messages: seq<Message>,
    temperature: string)

  /** The `fetch` call's arguments for a given prompt, user text and key. */
  function Assemble(systemPrompt: string, userContent: string, apiKey: string): (r: Request)
    ensures |r.messages| == 2
    ensures r.messages[0].content == systemPrompt && r.messages[1].content == userContent
    ensures "Bearer " <= r.authorization && r.authorization[|"Bearer "|..] == apiKey
  {
    Request(Endpoint, "POST", "application/json", "Bearer " + apiKey, ModelName,
            [Message("system", systemPrompt), Message("user", userContent)], Temperature)
  }

  /**
   * The request sent for some content and options: two messages, the system prompt
   * first and the bounded page text second, authorised by the key as a bearer token.
   */
  lemma RequestCarriesPromptAndContent(content: string, options: Options, apiKey: string)
    ensures var r := Assemble(SystemPrompt(options), Truncated(content), apiKey);
      && |r.messages| == 2
      && r.messages[0].role == "system" && Preamble <= r.messages[0].content
      && EndsWith(r.messages[0].content, Trailer)
      && r.messages[1].role == "user"
      && |r.messages[1].content| <= MaxContentLength + |TruncationMarker|
      && (|content| <= MaxContentLength ==> r.messages[1].content == content)
      && r.authorization[..7] == "Bearer " && r.authorization[7..] == apiKey
  {
    PromptStartsWithOpening(options);
    PromptEndsWithTrailer(options);
  }

  // ---------------------------------------------------------------------------
  // The reply

  /** The decoded body: the `content` of each choice's message, or a body that is not such JSON. */
  datatype Body = Completion(choices: seq<string>) | Unreadable

  datatype Reply =
    | Response(ok: bool, status: nat, statusText: string, body: Body)
    | NetworkFailure(reason: string)

  datatype ApiError =
    | ApiKeyRequired
    | RequestFailed(status: nat, statusText: string)
    | TransportFailed(reason: string)
    | MalformedResponse

  /** `if (!apiKey)`: an absent key and the empty string are falsy; any other string is not. */
  predicate Falsy(apiKey: Option<string>): (r: bool)
    ensures apiKey.Some? && |apiKey.value| > 0 ==> !r
    ensures apiKey == None || apiKey == Some("") ==> r
  {
    apiKey.None? || apiKey.value == ""
  }

  /**
   * Lines 63-70 and the rethrow at 72-74: a non-ok status fails with that status, an ok
   * reply yields the first choice's content unchanged, and a failed call or an unreadable
   * body is passed on as a failure.
   */
  function Outcome(reply: Reply): (r: Result<string, ApiError>)
    ensures r.Success? <==>
      reply.Response? && reply.ok && reply.body.Completion? && |reply.body.choices| > 0
    ensures r.Success? ==> r.value == reply.body.choices[0]
    ensures reply.Response? && !reply.ok ==> r == Failure(RequestFailed(reply.status, reply.statusText))
    ensures reply.NetworkFailure? ==> r == Failure(TransportFailed(reply.reason))
    ensures r != Failure(ApiKeyRequired)
  {
    match reply
    case NetworkFailure(reason) => Failure(TransportFailed(reason))
    case Response(ok, status, statusText, body) =>
      if !ok then Failure(RequestFailed(status, statusText))
      else if body.Unreadable? || |body.choices| == 0 then Failure(MalformedResponse)
      else Success(body.choices[0])
  }

  const RequestFailedPrefix: string := "API request failed: "

  /** The messages of the two errors the function raises itself. */
  function ErrorMessage(e: ApiError): (m: string)
    requires e.ApiKeyRequired? || e.RequestFailed?
    ensures e.ApiKeyRequired? ==> m == "API key is required"
    ensures e.RequestFailed? ==> RequestFailedPrefix <= m && EndsWith(m, " " + e.statusText)
  {
    match e
    case ApiKeyRequired => "API key is required"
    case RequestFailed(status, statusText) => RequestFailedPrefix + NatToDecimal(status) + " " + statusText
  }

  /**
   * The failure message names the status: after the prefix, the text up to the first
   * space reads back as the status code, and the rest is the status text.
   */
  lemma FailureMessageNamesStatus(status: nat, statusText: string)
    ensures var m := ErrorMessage(RequestFailed(status, statusText));
      && RequestFailedPrefix <= m
      && var parts := Split(m[|RequestFailedPrefix|..], ' ');
      && ParseNat(parts[0]) == Some(status)
      && Join(parts[1..], ' ') == statusText
  {
    var m := ErrorMessage(RequestFailed(status, statusText));
    var digits := NatToDecimal(status);
    assert m == RequestFailedPrefix + (digits + [' '] + statusText);
    assert m[|RequestFailedPrefix|..] == digits + [' '] + statusText;
    assert ' ' !in digits by {
      forall i | 0 <= i < |digits| ensures digits[i] != ' ' {
        assert IsDigit(digits[i]);
      }
    }
    SplitAfterPiece(digits, ' ', statusText);
    ParseNatToDecimal(status);
    var parts := Split(m[|RequestFailedPrefix|..], ' ');
    assert parts[1..] == Split(statusText, ' ');
    JoinSplit(statusText, ' ');
  }

  // ---------------------------------------------------------------------------
  // generateSummary

  /**
   * `generateSummary(content, options, apiKey)`. `sent` is the request handed to the
   * transport, if any: a falsy key fails before anything is sent.
   */
  method GenerateSummary(content: string, options: Options, apiKey: Option<string>, transport: Request -> Reply)
    returns (result: Result<string, ApiError>, sent: Option<Request>)
    ensures result == Failure(ApiKeyRequired) <==> Falsy(apiKey)
    ensures Falsy(apiKey) ==> sent == None
    ensures !Falsy(apiKey) ==>
      && sent == Some(Assemble(SystemPrompt(options), Truncated(content), apiKey.value))
      && result == Outcome(transport(sent.value))
  {
    if apiKey.None? || apiKey.value == "" {
      return Failure(ApiKeyRequired), None;
    }
    var key := apiKey.value;
    var truncatedContent := Truncated(content);
    var systemPrompt := GetSystemPrompt(options);
    var request := Assemble(systemPrompt, truncatedContent, key);
    sent := Some(request);
    var reply := transport(request);
    if reply.NetworkFailure? {
      return Failure(TransportFailed(reply.reason)), sent;
    }
    if !reply.ok {
      return Failure(RequestFailed(reply.status, reply.statusText)), sent;
    }
    if reply.body.Unreadable? || |reply.body.choices| == 0 {
      return Failure(MalformedResponse), sent;
    }
    result := Success(reply.body.choices[0]);
  }
}
