/**
 * `getOpenAIResponse`: one call to the chat-completions endpoint. The HTTP
 * exchange itself is abstracted as `provider`, which maps the request that
 * would be sent to what came back; everything around it (the key check, the
 * input normalisation, the choice of error and the response-shape check) is
 * modelled as it is written.
 */
module Completion {
  import opened Wrappers
  import opened JsText

  /** One `{role, content}` entry of the request's `messages` array. */
  datatype ChatMessage = ChatMessage(role: string, content: string)

  /** The function accepts either a string or an array of messages. */
  datatype Input = Text(text: string) | Messages(messages: seq<ChatMessage>)

  const ModelName: string := "gpt-4o-mini"

  /** What is sent: the key from the environment as the bearer token, the model and the messages. */
  datatype Request = Request(apiKey: string, model: string, messages: seq<ChatMessage>)

  /**
   * A response body as the code reads it: text that is not JSON, the JSON
   * literal `null`, or any other JSON value, seen through the two paths the
   * code reads from it (`error?.message` and `choices?.[0]?.message?.content`).
   */
  datatype Body =
    | NotJson(parseError: string)
    | JsonNull
    | Json(errorMessage: Option<string>, content: Option<string>)

  /** The outcome of `fetch`: it rejects, or it resolves to a response. */
  datatype Exchange =
    | FetchRejected(reason: string)
    | Response(ok: bool, status: nat, statusText: string, body: Body)

  /** What the function throws. */
  datatype Thrown =
    | Error(message: string)       // an Error the function constructs itself
    | SyntaxError(detail: string)  // `response.json()` on a body that is not JSON
    | TypeError                    // a property read on a `null` body
    | Rejected(reason: string)     // the rejection of `fetch`, passed on as it is

  /** A call: the request it made, if any, and what it returned or threw. */
  datatype Call = Call(sent: Option<Request>, result: Result<string, Thrown>)

  const NotConfiguredMessage: string := "OPENAI_API_KEY is not configured"
  const ApiErrorMessage: string := "OpenAI API error"
  const InvalidResponseMessage: string := "Invalid response from OpenAI"

  /** A string becomes a one-message conversation from the user; an array is used as it is. */
  function Normalize(input: Input): seq<ChatMessage>
  {
    match input
    case Text(s) => [ChatMessage("user", s)]
    case Messages(ms) => ms
  }

  function DigitChar(d: nat): char
    requires d < 10
  {
    ('0' as int + d) as char
  }

  /** The number a string of decimal digits spells, most significant digit first. */
  function DigitsValue(s: string): nat
    requires forall i :: 0 <= i < |s| ==> '0' <= s[i] <= '9'
  {
    if s == [] then 0 else DigitsValue(s[..|s| - 1]) * 10 + (s[|s| - 1] as int - '0' as int)
  }

  /**
   * The decimal text of a number, as template interpolation prints it: the
   * digits spell `n`, and there is no leading zero unless `n` is 0.
   */
  function Decimal(n: nat): (s: string)
    ensures |s| >= 1 && forall i :: 0 <= i < |s| ==> '0' <= s[i] <= '9'
    ensures DigitsValue(s) == n
    ensures s[0] == '0' <==> n == 0
    ensures n < 10 <==> |s| == 1
  {
    if n < 10 then [DigitChar(n)] else Decimal(n / 10) + [DigitChar(n % 10)]
  }

  /** The message for a failed response whose body is not JSON. */
  function StatusMessage(status: nat, statusText: string): string
  {
    ApiErrorMessage + ": " + Decimal(status) + " " + statusText
  }

  /**
   * What happens once `fetch` has settled: a rejection and every error
   * raised here leave the function as they are (nothing is retried).
   */
  function Classify(ex: Exchange): (r: Result<string, Thrown>)
    ensures r.Ok? <==> ex.Response? && ex.ok && ex.body.Json? && Truthy(ex.body.content)
    ensures r.Ok? ==> r.value != "" && ex.body.content == Some(r.value)
    ensures ex.FetchRejected? ==> r == Err(Rejected(ex.reason))
    ensures ex.Response? && !ex.ok && ex.body.NotJson? ==> r == Err(Error(StatusMessage(ex.status, ex.statusText)))
    ensures ex.Response? && !ex.ok && ex.body.Json? ==>
              r == Err(Error(if Truthy(ex.body.errorMessage) then ex.body.errorMessage.value else ApiErrorMessage))
    ensures ex.Response? && ex.ok && ex.body.Json? && !Truthy(ex.body.content) ==> r == Err(Error(InvalidResponseMessage))
    ensures ex.Response? && ex.ok && ex.body.NotJson? ==> r == Err(SyntaxError(ex.body.parseError))
    ensures ex.Response? && ex.body.JsonNull? ==> r == Err(TypeError)
  {
    match ex
    case FetchRejected(reason) => Err(Rejected(reason))
    case Response(ok, status, statusText, body) =>
      if !ok then
        match body
        case NotJson(_) => Err(Error(StatusMessage(status, statusText)))
        case JsonNull => Err(TypeError)
        case Json(errorMessage, _) =>
          Err(Error(if Truthy(errorMessage) then errorMessage.value else ApiErrorMessage))
      else
        match body
        case NotJson(detail) => Err(SyntaxError(detail))
        case JsonNull => Err(TypeError)
        case Json(_, content) =>
          if Truthy(content) then Ok(content.value) else Err(Error(InvalidResponseMessage))
  }

  /**
   * `getOpenAIResponse(input)`: without a key it throws before any request;
   * otherwise it makes exactly one request, carrying the normalised messages.
   */
  function GetResponse(apiKey: Option<string>, input: Input, provider: Request -> Exchange): (c: Call)
    ensures c.sent.None? <==> !Truthy(apiKey)
    ensures !Truthy(apiKey) ==> c.result == Err(Error(NotConfiguredMessage))
    ensures c.sent.Some? ==> (c.sent.value == Request(apiKey.value, ModelName, Normalize(input))
                              && c.result == Classify(provider(c.sent.value)))
    ensures c.result.Ok? ==> c.result.value != ""
  {
    if !Truthy(apiKey) then
      Call(None, Err(Error(NotConfiguredMessage)))
    else
      var request := Request(apiKey.value, ModelName, Normalize(input));
      Call(Some(request), Classify(provider(request)))
  }

  /** A string input is the same call as the one-message array from the user. */
  lemma TextIsOneUserMessage(apiKey: Option<string>, s: string, provider: Request -> Exchange)
    ensures GetResponse(apiKey, Text(s), provider) == GetResponse(apiKey, Messages([ChatMessage("user", s)]), provider)
  {
  }
}
