/** The server route between the browser client and the image service: POST
    starts a generation, GET asks for its status. Each handler checks its
    inputs, makes at most one upstream request, and answers 200 with the
    upstream payload, 400 for missing inputs, or 500 with an error message.
    The upstream answer is an input; the header and query values are given
    already decoded. */
module GenerateRoute {

  import opened Wrappers
  import Text
  import Polling

  /** How the image service answers the one upstream request: a 2xx answer
      whose body parses, another status with its body as text, a thrown
      `Error` (no answer, or a body that does not parse) with its message, or
      a thrown value that is not an `Error` and so carries no message. */
  datatype Upstream<T> =
    | UpOk(body: T)
    | UpNotOk(status: nat, statusText: string, bodyText: string)
    | Thrown(message: string)
    | ThrownValue

  /** The POST body: JSON that does not parse, or the two fields, either of
      which may be missing. */
  datatype PostBody =
    | Malformed(message: string)
    | PostBody(prompt: Option<string>, inputImage: Option<string>)

  /** The upstream request a handler sends. */
  datatype UpstreamCall =
    | StartGeneration(url: string, apiKey: string, prompt: string, inputImage: string, safetyTolerance: nat)
    | FetchStatus(url: string, apiKey: string)

  /** A handler's answer: the upstream request it sent, if any, the HTTP
      status, and the JSON body, which is the upstream payload on success
      and `{ error }` otherwise. */
  datatype Reply<T> = Reply(sent: Option<UpstreamCall>, status: nat, body: Result<T, string>)

  const StartEndpoint := "https://api.bfl.ai/v1/flux-kontext-pro"
  const SafetyTolerance: nat := 6

  const MissingKey := "缺少API密钥"
  const MissingStartParams := "缺少必要参数: prompt 或 input_image"
  const MissingPollParams := "缺少必要参数: pollingUrl, requestId 或 API密钥"
  const StartFailedPrefix := "BFL API请求失败: "
  const PollFailedPrefix := "轮询请求失败: "
  const UnknownError := "未知错误"

  /** The message of the error the upstream helpers throw for a non-2xx
      answer: the prefix, the status code, the status text and the body text. */
  function UpstreamError(prefix: string, status: nat, statusText: string, bodyText: string): string {
    prefix + Text.NatToString(status) + " " + statusText + " - " + bodyText
  }

  /** The outcome of the upstream request. */
  function UpstreamOutcome<T>(answer: Upstream<T>, prefix: string): (r: Result<T, string>)
    ensures r.Success? <==> answer.UpOk?
    ensures answer.UpOk? ==> r.value == answer.body
    ensures answer.UpNotOk? ==> Text.StartsWith(r.error, prefix)
    ensures answer.Thrown? ==> r.error == answer.message
    ensures answer.ThrownValue? ==> r.error == UnknownError
  {
    match answer
    case UpOk(body) => Success(body)
    case UpNotOk(status, statusText, bodyText) =>
      var m := UpstreamError(prefix, status, statusText, bodyText);
      assert m == prefix + m[|prefix|..];
      Failure(m)
    case Thrown(message) => Failure(message)
    case ThrownValue => Failure(UnknownError)
  }

  /** The answer for an upstream request that was sent: 200 with the payload,
      or 500 with the error message. */
  function Answered<T>(call: UpstreamCall, answer: Upstream<T>, prefix: string): (r: Reply<T>)
    ensures r.sent == Some(call)
    ensures r.body == UpstreamOutcome(answer, prefix)
    ensures r.status == 200 <==> answer.UpOk?
    ensures r.status != 200 ==> r.status == 500
  {
    var outcome := UpstreamOutcome(answer, prefix);
    if outcome.Success? then Reply(Some(call), 200, outcome) else Reply(Some(call), 500, outcome)
  }

  /** `POST`: the body is parsed first, then the key is checked, then both
      parameters; only then is the start request sent. */
  function Post(apiKey: Option<string>, body: PostBody, answer: Upstream<Polling.Handle>): (r: Reply<Polling.Handle>)
    ensures body.Malformed? ==> r == Reply(None, 500, Failure(body.message))
    ensures body.PostBody? && !Text.Present(apiKey) ==> r == Reply(None, 400, Failure(MissingKey))
    ensures body.PostBody? && Text.Present(apiKey) && !(Text.Present(body.prompt) && Text.Present(body.inputImage))
            ==> r == Reply(None, 400, Failure(MissingStartParams))
    ensures r.sent.Some? <==> body.PostBody? && Text.Present(apiKey) && Text.Present(body.prompt) && Text.Present(body.inputImage)
    ensures r.sent.Some? ==> r.sent.value == StartGeneration(StartEndpoint, apiKey.value, body.prompt.value, body.inputImage.value, 6)
    ensures r.sent.Some? ==> r == Answered(r.sent.value, answer, StartFailedPrefix)
    ensures r.status == 200 <==> r.sent.Some? && answer.UpOk?
    ensures r.status == 200 ==> r.body == Success(answer.body)
    ensures r.status == 200 || r.status == 400 || r.status == 500
  {
    match body
    case Malformed(message) => Reply(None, 500, Failure(message))
    case PostBody(prompt, inputImage) =>
      if !Text.Present(apiKey) then Reply(None, 400, Failure(MissingKey))
      else if !Text.Present(prompt) || !Text.Present(inputImage) then Reply(None, 400, Failure(MissingStartParams))
      else
        var call := StartGeneration(StartEndpoint, apiKey.value, prompt.value, inputImage.value, SafetyTolerance);
        Answered(call, answer, StartFailedPrefix)
  }

  /** `GET`: all three inputs must be present; the status request goes to the
      polling URL as given, and the request id is only checked for presence. */
  function Get(pollingUrl: Option<string>, requestId: Option<string>, apiKey: Option<string>,
               answer: Upstream<Polling.PollingResponse>): (r: Reply<Polling.PollingResponse>)
    ensures !(Text.Present(pollingUrl) && Text.Present(requestId) && Text.Present(apiKey))
            ==> r == Reply(None, 400, Failure(MissingPollParams))
    ensures r.sent.Some? <==> Text.Present(pollingUrl) && Text.Present(requestId) && Text.Present(apiKey)
    ensures r.sent.Some? ==> r.sent.value == FetchStatus(pollingUrl.value, apiKey.value)
    ensures r.sent.Some? ==> r == Answered(r.sent.value, answer, PollFailedPrefix)
    ensures r.status == 200 <==> r.sent.Some? && answer.UpOk?
    ensures r.status == 200 ==> r.body == Success(answer.body)
    ensures r.status == 200 || r.status == 400 || r.status == 500
  {
    if !Text.Present(pollingUrl) || !Text.Present(requestId) || !Text.Present(apiKey) then
      Reply(None, 400, Failure(MissingPollParams))
    else
      Answered(FetchStatus(pollingUrl.value, apiKey.value), answer, PollFailedPrefix)
  }

  /** The key is checked before the parameters: a parsed request without a key
      gets the same answer whatever its parameters and whatever the upstream
      would say. */
  lemma KeyCheckedFirst(p1: Option<string>, i1: Option<string>, p2: Option<string>, i2: Option<string>,
                        a1: Upstream<Polling.Handle>, a2: Upstream<Polling.Handle>)
    ensures Post(None, PostBody(p1, i1), a1) == Post(None, PostBody(p2, i2), a2)
    ensures Post(Some(""), PostBody(p1, i1), a1) == Post(None, PostBody(p2, i2), a2)
  {
  }

  /** The request id does not reach the upstream request: two polls that
      differ only in a present request id get the same answer. */
  lemma RequestIdOnlyChecked(pollingUrl: string, id1: string, id2: string, apiKey: string,
                             answer: Upstream<Polling.PollingResponse>)
    requires id1 != "" && id2 != ""
    ensures Get(Some(pollingUrl), Some(id1), Some(apiKey), answer) == Get(Some(pollingUrl), Some(id2), Some(apiKey), answer)
  {
  }

  /** The message for a non-2xx upstream answer can be taken apart again: it
      starts with the prefix, the status code follows and reads back as the
      status, and it ends with the upstream body text. */
  lemma {:induction false} UpstreamErrorParts(prefix: string, status: nat, statusText: string, bodyText: string)
    ensures var m := UpstreamError(prefix, status, statusText, bodyText);
            var d := Text.NatToString(status);
            && |prefix| + |d| <= |m|
            && m[..|prefix|] == prefix
            && Text.ParseDigits(m[|prefix|..|prefix| + |d|]) == status
            && |bodyText| <= |m|
            && m[|m| - |bodyText|..] == bodyText
  {
    var m := UpstreamError(prefix, status, statusText, bodyText);
    var d := Text.NatToString(status);
    var rest := " " + statusText + " - " + bodyText;
    assert m == prefix + d + rest;
    assert m[|prefix|..|prefix| + |d|] == d;
    Text.NatToStringRoundTrip(status);
    assert m == (prefix + d + " " + statusText + " - ") + bodyText;
  }

  /** The status text the framework sends with the route's own statuses. */
  function ReasonPhrase(status: nat): string {
    if status == 200 then "OK"
    else if status == 400 then "Bad Request"
    else "Internal Server Error"
  }

  /** The route's reply as the browser client receives it: a 2xx answer with
      its payload, or another status with the `error` field of its body. */
  function AsClientAnswer<T>(reply: Reply<T>): (a: Polling.Answer<T>)
    ensures a.Ok? <==> reply.body.Success?
  {
    match reply.body
    case Success(payload) => Polling.Ok(payload)
    case Failure(message) => Polling.NotOk(reply.status, ReasonPhrase(reply.status), Some(message))
  }

  /** Client and route together: a status poll through the route yields the
      upstream payload unchanged, or rejects with the route's own message; an
      upstream error status reaches the client with its code and body text. */
  lemma PollThroughRoute(apiKey: string, pollingUrl: string, requestId: string,
                         answer: Upstream<Polling.PollingResponse>)
    requires apiKey != "" && pollingUrl != "" && requestId != ""
    ensures var reply := Get(Some(pollingUrl), Some(requestId), Some(apiKey), answer);
            var call := Polling.PollResult(Polling.Client(apiKey), pollingUrl, requestId, AsClientAnswer(reply));
            && call.sent == Some(Polling.StatusRequest(apiKey, pollingUrl, requestId))
            && reply.sent == Some(FetchStatus(pollingUrl, apiKey))
            && (answer.UpOk? ==> call.result == Success(answer.body))
            && (answer.UpNotOk? ==> call.result == Failure(UpstreamError(PollFailedPrefix, answer.status, answer.statusText, answer.bodyText)))
            && (answer.Thrown? && answer.message != "" ==> call.result == Failure(answer.message))
            && (answer.ThrownValue? ==> call.result == Failure(UnknownError))
  {
    var reply := Get(Some(pollingUrl), Some(requestId), Some(apiKey), answer);
    if answer.UpNotOk? {
      var m := UpstreamError(PollFailedPrefix, answer.status, answer.statusText, answer.bodyText);
      assert |m| > 0 by { assert |m| >= |PollFailedPrefix|; }
      assert reply.body == Failure(m);
    }
  }

  /** A start request through the route: the client's prompt and image reach
      the image service with the client's key and tolerance 6, and the handle
      comes back unchanged. */
  lemma StartThroughRoute(apiKey: string, prompt: string, image: string, answer: Upstream<Polling.Handle>)
    requires apiKey != "" && prompt != "" && image != ""
    ensures var reply := Post(Some(apiKey), PostBody(Some(prompt), Some(image)), answer);
            var call := Polling.GenerateImage(Polling.Client(apiKey), prompt, image, AsClientAnswer(reply));
            && call.sent == Some(Polling.StartRequest(apiKey, prompt, image))
            && reply.sent == Some(StartGeneration(StartEndpoint, apiKey, prompt, image, SafetyTolerance))
            && (answer.UpOk? ==> call.result == Success(answer.body))
            && (answer.UpNotOk? ==> call.result == Failure(UpstreamError(StartFailedPrefix, answer.status, answer.statusText, answer.bodyText)))
  {
    if answer.UpNotOk? {
      var m := UpstreamError(StartFailedPrefix, answer.status, answer.statusText, answer.bodyText);
      assert |m| > 0 by { assert |m| >= |StartFailedPrefix|; }
    }
  }
}
