/** The browser-side client of the generation backend: the API-key guard on
    each request, the start request, the status request, and the loop that
    polls until the generation is ready, fails, or 120 polls have been made.
    Every backend answer is an input; the 500 ms pause between polls is not
    modelled. */
module Polling {

  import opened Wrappers
  import Text

  /** A status answer: the status string, `result.sample` when present, and
      `error` when present. */
  datatype PollingResponse = PollingResponse(status: string, sample: Option<string>, error: Option<string>)

  /** The answer to a start request: the request id and its polling URL. */
  datatype Handle = Handle(id: string, pollingUrl: string)

  /** How the backend answers one request: a 2xx answer with its body, another
      status with the `error` field of its JSON body (absent when the body is
      not JSON or has none), or a thrown error with its message: no answer at
      all, or a 2xx answer whose body does not parse. */
  datatype Answer<T> =
    | Ok(body: T)
    | NotOk(status: nat, statusText: string, errorField: Option<string>)
    | NetworkError(message: string)

  /** A request the client sends to its backend. */
  datatype BackendRequest =
    | StartRequest(apiKey: string, prompt: string, inputImage: string)
    | StatusRequest(apiKey: string, pollingUrl: string, requestId: string)

  /** The client holds only its API key. */
  datatype Client = Client(apiKey: string)

  /** One client call: the request it sent (None when it threw before
      sending) and its outcome. */
  datatype Call<T> = Call(sent: Option<BackendRequest>, result: Result<T, string>)

  /** The outcome of waiting: the image URL or the error message, how many
      status requests were sent, and the statuses reported to the progress
      callback, in order. */
  datatype Completion = Completion(result: Result<string, string>, polls: nat, progress: seq<string>)

  const MaxAttempts: nat := 120

  const StartKeyMissing := "API密钥未设置，请在设置中配置BFL API密钥"
  const PollKeyMissing := "API密钥未设置"
  const TimeoutMessage := "图像生成超时"
  const FailurePrefix := "图像生成失败: "
  const UnknownError := "未知错误"

  /** A new client takes the stored key, or the empty key when none is stored. */
  function NewClient(stored: Option<string>): (c: Client)
    ensures stored.Some? ==> c.apiKey == stored.value
    ensures stored.None? ==> c.apiKey == ""
  {
    Client(stored.GetOr(""))
  }

  /** Replaces the key; the same key is written to storage. */
  function UpdateApiKey(c: Client, key: string): (r: (Client, string))
    ensures r.0.apiKey == key && r.1 == key
  {
    (Client(key), key)
  }

  /** A key is set when it is not the empty string. */
  predicate IsApiKeySet(c: Client) {
    Text.Truthy(c.apiKey)
  }

  /** After updating the key, a key is set exactly when the new key is not
      empty, whatever the client held before. */
  lemma UpdateThenIsSet(c: Client, key: string)
    ensures IsApiKeySet(UpdateApiKey(c, key).0) <==> key != ""
  {
  }

  /** The outcome of a sent request: a 2xx body, or an error whose message is
      the backend's `error` field when it has one and otherwise `prefix`
      followed by the status code and status text. */
  function Outcome<T>(answer: Answer<T>, prefix: string): (r: Result<T, string>)
    ensures answer.Ok? <==> r.Success?
    ensures answer.Ok? ==> r.value == answer.body
    ensures answer.NotOk? && Text.Present(answer.errorField) ==> r.error == answer.errorField.value
    ensures answer.NotOk? && !Text.Present(answer.errorField) ==> Text.StartsWith(r.error, prefix)
    ensures answer.NetworkError? ==> r.error == answer.message
  {
    match answer
    case Ok(body) => Success(body)
    case NotOk(status, statusText, errorField) =>
      if Text.Present(errorField) then Failure(errorField.value)
      else
        var m := prefix + Text.NatToString(status) + " " + statusText;
        assert m == prefix + m[|prefix|..];
        Failure(m)
    case NetworkError(message) => Failure(message)
  }

  /** Without an `error` field, the message of a non-2xx answer can be taken
      apart again: the prefix, then the status code, which reads back as the
      status, then a space and the status text. */
  lemma {:induction false} FallbackMessageParts<T>(prefix: string, status: nat, statusText: string,
                                                   errorField: Option<string>)
    requires !Text.Present(errorField)
    ensures var m := Outcome<T>(NotOk(status, statusText, errorField), prefix).error;
            var d := Text.NatToString(status);
            && |prefix| + |d| <= |m|
            && m[..|prefix|] == prefix
            && Text.ParseDigits(m[|prefix|..|prefix| + |d|]) == status
            && m[|prefix| + |d|..] == " " + statusText
  {
    var d := Text.NatToString(status);
    var m := prefix + d + " " + statusText;
    assert Outcome<T>(NotOk(status, statusText, errorField), prefix).error == m;
    assert m == prefix + d + (" " + statusText);
    assert m[|prefix|..|prefix| + |d|] == d;
    Text.NatToStringRoundTrip(status);
  }

  /** `generateImage`: with no key it throws before sending anything;
      otherwise it sends the prompt and image with the key. */
  function GenerateImage(c: Client, prompt: string, imageBase64: string, answer: Answer<Handle>): (call: Call<Handle>)
    ensures !IsApiKeySet(c) ==> call == Call(None, Failure(StartKeyMissing))
    ensures IsApiKeySet(c) ==> call.sent == Some(StartRequest(c.apiKey, prompt, imageBase64))
    ensures IsApiKeySet(c) ==> (call.result.Success? <==> answer.Ok?)
  {
    if !IsApiKeySet(c) then Call(None, Failure(StartKeyMissing))
    else Call(Some(StartRequest(c.apiKey, prompt, imageBase64)), Outcome(answer, "API请求失败: "))
  }

  /** `pollResult`: with no key it throws before sending anything; otherwise it
      sends one status request with the key. */
  function PollResult(c: Client, pollingUrl: string, requestId: string,
                      answer: Answer<PollingResponse>): (call: Call<PollingResponse>)
    ensures !IsApiKeySet(c) ==> call == Call(None, Failure(PollKeyMissing))
    ensures IsApiKeySet(c) ==> call.sent == Some(StatusRequest(c.apiKey, pollingUrl, requestId))
    ensures IsApiKeySet(c) ==> (call.result.Success? <==> answer.Ok?)
  {
    if !IsApiKeySet(c) then Call(None, Failure(PollKeyMissing))
    else Call(Some(StatusRequest(c.apiKey, pollingUrl, requestId)), Outcome(answer, "轮询请求失败: "))
  }

  /** A status that ends the wait. */
  predicate IsTerminal(status: string) {
    status == "Ready" || status == "Error" || status == "Failed"
  }

  /** The value a Ready answer resolves to: `result.sample`, or '' without one. */
  function ReadyValue(resp: PollingResponse): string {
    if Text.Present(resp.sample) then resp.sample.value else ""
  }

  /** The message an Error or Failed answer rejects with. */
  function FailureMessage(resp: PollingResponse): string {
    FailurePrefix + (if Text.Present(resp.error) then resp.error.value else UnknownError)
  }

  /** The wait from attempt `attempts` on, given the backend's answers to the
      status requests in order. */
  function Wait(c: Client, pollingUrl: string, requestId: string,
                answers: seq<Answer<PollingResponse>>, attempts: nat): (w: Completion)
    requires |answers| >= MaxAttempts && attempts <= MaxAttempts
    ensures w.polls <= MaxAttempts - attempts
    ensures |w.progress| <= w.polls
    decreases MaxAttempts - attempts
  {
    if attempts == MaxAttempts then Completion(Failure(TimeoutMessage), 0, [])
    else
      var call := PollResult(c, pollingUrl, requestId, answers[attempts]);
      if call.result.Failure? then
        Completion(Failure(call.result.error), if call.sent.Some? then 1 else 0, [])
      else
        var resp := call.result.value;
        if resp.status == "Ready" then Completion(Success(ReadyValue(resp)), 1, [resp.status])
        else if resp.status == "Error" || resp.status == "Failed" then
          Completion(Failure(FailureMessage(resp)), 1, [resp.status])
        else
          var rest := Wait(c, pollingUrl, requestId, answers, attempts + 1);
          Completion(rest.result, 1 + rest.polls, [resp.status] + rest.progress)
  }

  /** `waitForCompletion`: polls until a terminal status, a failed request, or
      120 polls. */
  function WaitForCompletion(c: Client, pollingUrl: string, requestId: string,
                             answers: seq<Answer<PollingResponse>>): (w: Completion)
    requires |answers| >= MaxAttempts
    ensures w.polls <= MaxAttempts
    ensures !IsApiKeySet(c) ==> w == Completion(Failure(PollKeyMissing), 0, [])
  {
    Wait(c, pollingUrl, requestId, answers, 0)
  }

  /** The answer keeps the wait going: a 2xx status answer that is not terminal. */
  predicate Continues(a: Answer<PollingResponse>) {
    a.Ok? && !IsTerminal(a.body.status)
  }

  /** The status a 2xx answer reports. */
  function StatusOf(a: Answer<PollingResponse>): string {
    if a.Ok? then a.body.status else ""
  }

  /** The statuses reported by a run of answers. */
  function Statuses(run: seq<Answer<PollingResponse>>): (s: seq<string>)
    ensures |s| == |run|
  {
    seq(|run|, i requires 0 <= i < |run| => StatusOf(run[i]))
  }

  /** How the wait ends when answer `k` is the first one that does not keep it
      going: with that answer's outcome, after exactly k + 1 polls, having
      reported the k + 1 statuses received (k when the last request failed). */
  function StopOutcome(a: Answer<PollingResponse>): Result<string, string>
    requires !Continues(a)
  {
    match a
    case Ok(resp) =>
      if resp.status == "Ready" then Success(ReadyValue(resp)) else Failure(FailureMessage(resp))
    case NotOk(_, _, _) => Failure(Outcome(a, "轮询请求失败: ").error)
    case NetworkError(m) => Failure(m)
  }

  /** One poll that keeps the wait going: its status is reported and the wait
      continues with the next attempt. */
  lemma WaitStep(c: Client, pollingUrl: string, requestId: string,
                 answers: seq<Answer<PollingResponse>>, a: nat)
    requires |answers| >= MaxAttempts && a < MaxAttempts
    requires IsApiKeySet(c) && Continues(answers[a])
    ensures var rest := Wait(c, pollingUrl, requestId, answers, a + 1);
            Wait(c, pollingUrl, requestId, answers, a)
              == Completion(rest.result, 1 + rest.polls, [answers[a].body.status] + rest.progress)
  {
  }

  /** The statuses of a run are its first answer's status and then those of
      the rest of the run. */
  lemma StatusesCons(answers: seq<Answer<PollingResponse>>, j: nat, k: nat)
    requires j < k <= |answers|
    ensures Statuses(answers[j..k]) == [StatusOf(answers[j])] + Statuses(answers[j + 1..k])
  {
  }

  /** One poll that stops the wait: it ends with that answer's outcome after
      one poll, reporting the status when the request succeeded. */
  lemma WaitStop(c: Client, pollingUrl: string, requestId: string,
                 answers: seq<Answer<PollingResponse>>, a: nat)
    requires |answers| >= MaxAttempts && a < MaxAttempts
    requires IsApiKeySet(c) && !Continues(answers[a])
    ensures Wait(c, pollingUrl, requestId, answers, a)
              == Completion(StopOutcome(answers[a]), 1, if answers[a].Ok? then [StatusOf(answers[a])] else [])
  {
  }

  /** From attempt `j` on, with answer `k` the first to stop the wait. */
  lemma {:induction false} WaitStopsAt(c: Client, pollingUrl: string, requestId: string,
                                       answers: seq<Answer<PollingResponse>>, j: nat, k: nat)
    requires |answers| >= MaxAttempts && j <= k < MaxAttempts
    requires IsApiKeySet(c)
    requires forall i :: j <= i < k ==> Continues(answers[i])
    requires !Continues(answers[k])
    ensures var w := Wait(c, pollingUrl, requestId, answers, j);
            && w.result == StopOutcome(answers[k])
            && w.polls == k + 1 - j
            && w.progress == Statuses(answers[j..k]) + (if answers[k].Ok? then [StatusOf(answers[k])] else [])
    decreases k - j
  {
    if j < k {
      WaitStopsAt(c, pollingUrl, requestId, answers, j + 1, k);
      WaitStep(c, pollingUrl, requestId, answers, j);
      StatusesCons(answers, j, k);
    } else {
      WaitStop(c, pollingUrl, requestId, answers, k);
    }
  }

  /** From attempt `j` on, with every remaining answer keeping the wait going. */
  lemma {:induction false} WaitRunsOut(c: Client, pollingUrl: string, requestId: string,
                                       answers: seq<Answer<PollingResponse>>, j: nat)
    requires |answers| >= MaxAttempts && j <= MaxAttempts
    requires IsApiKeySet(c)
    requires forall i :: j <= i < MaxAttempts ==> Continues(answers[i])
    ensures var w := Wait(c, pollingUrl, requestId, answers, j);
            w == Completion(Failure(TimeoutMessage), MaxAttempts - j, Statuses(answers[j..MaxAttempts]))
    decreases MaxAttempts - j
  {
    if j < MaxAttempts {
      WaitRunsOut(c, pollingUrl, requestId, answers, j + 1);
      WaitStep(c, pollingUrl, requestId, answers, j);
      StatusesCons(answers, j, MaxAttempts);
    }
  }

  /** The wait in terms of the first answer that stops it: a Ready answer
      resolves to its sample, an Error or Failed answer rejects with its
      message, a failed request rejects with that request's error, each after
      exactly k + 1 polls with no retry; 120 non-terminal answers time out after
      the 120th poll. */
  lemma WaitCharacterised(c: Client, pollingUrl: string, requestId: string,
                          answers: seq<Answer<PollingResponse>>, k: nat)
    requires |answers| >= MaxAttempts && IsApiKeySet(c)
    ensures k < MaxAttempts && (forall i :: 0 <= i < k ==> Continues(answers[i])) && !Continues(answers[k]) ==>
              var w := WaitForCompletion(c, pollingUrl, requestId, answers);
              && w.result == StopOutcome(answers[k])
              && w.polls == k + 1
              && w.progress == Statuses(answers[..k]) + (if answers[k].Ok? then [StatusOf(answers[k])] else [])
    ensures (forall i :: 0 <= i < MaxAttempts ==> Continues(answers[i])) ==>
              WaitForCompletion(c, pollingUrl, requestId, answers)
                == Completion(Failure(TimeoutMessage), MaxAttempts, Statuses(answers[..MaxAttempts]))
  {
    if k < MaxAttempts && (forall i :: 0 <= i < k ==> Continues(answers[i])) && !Continues(answers[k]) {
      WaitStopsAt(c, pollingUrl, requestId, answers, 0, k);
    }
    if forall i :: 0 <= i < MaxAttempts ==> Continues(answers[i]) {
      WaitRunsOut(c, pollingUrl, requestId, answers, 0);
    }
  }

  /** The loop as written: poll, report the status, stop on a terminal status,
      otherwise count the attempt and poll again; a thrown error ends it. */
  method WaitLoop(c: Client, pollingUrl: string, requestId: string,
                  answers: seq<Answer<PollingResponse>>) returns (w: Completion)
    requires |answers| >= MaxAttempts
    ensures w == WaitForCompletion(c, pollingUrl, requestId, answers)
    ensures w.polls <= MaxAttempts
  {
    var attempts: nat := 0;
    var polls: nat := 0;
    var progress: seq<string> := [];
    while attempts < MaxAttempts
      invariant attempts <= MaxAttempts
      invariant polls == attempts && |progress| == attempts
      invariant var rest := Wait(c, pollingUrl, requestId, answers, attempts);
                WaitForCompletion(c, pollingUrl, requestId, answers)
                  == Completion(rest.result, polls + rest.polls, progress + rest.progress)
      decreases MaxAttempts - attempts
    {
      var call := PollResult(c, pollingUrl, requestId, answers[attempts]);
      if call.result.Failure? {
        polls := polls + (if call.sent.Some? then 1 else 0);
        return Completion(Failure(call.result.error), polls, progress);
      }
      var resp := call.result.value;
      polls := polls + 1;
      if resp.status == "Ready" {
        return Completion(Success(ReadyValue(resp)), polls, progress + [resp.status]);
      } else if resp.status == "Error" || resp.status == "Failed" {
        return Completion(Failure(FailureMessage(resp)), polls, progress + [resp.status]);
      }
      WaitStep(c, pollingUrl, requestId, answers, attempts);
      var rest := Wait(c, pollingUrl, requestId, answers, attempts + 1);
      assert progress + ([resp.status] + rest.progress) == (progress + [resp.status]) + rest.progress;
      progress := progress + [resp.status];
      attempts := attempts + 1;
    }
    w := Completion(Failure(TimeoutMessage), polls, progress);
  }

  /** Four Processing answers and then a Ready answer with a sample resolve to
      that sample after exactly five polls. */
  lemma ReadyAfterFourProcessing(c: Client, pollingUrl: string, requestId: string,
                                 answers: seq<Answer<PollingResponse>>)
    requires |answers| >= MaxAttempts && IsApiKeySet(c)
    requires forall i :: 0 <= i < 4 ==> answers[i] == Ok(PollingResponse("Processing", None, None))
    requires answers[4] == Ok(PollingResponse("Ready", Some("https://x/y.png"), None))
    ensures WaitForCompletion(c, pollingUrl, requestId, answers)
         == Completion(Success("https://x/y.png"), 5, ["Processing", "Processing", "Processing", "Processing", "Ready"])
  {
    WaitCharacterised(c, pollingUrl, requestId, answers, 4);
    assert Statuses(answers[..4]) == ["Processing", "Processing", "Processing", "Processing"];
  }

  /** A Failed answer carrying "bad input" rejects with that message. */
  lemma FailedCarriesMessage(c: Client, pollingUrl: string, requestId: string,
                             answers: seq<Answer<PollingResponse>>)
    requires |answers| >= MaxAttempts && IsApiKeySet(c)
    requires answers[0] == Ok(PollingResponse("Failed", None, Some("bad input")))
    ensures WaitForCompletion(c, pollingUrl, requestId, answers).result == Failure("图像生成失败: bad input")
    ensures WaitForCompletion(c, pollingUrl, requestId, answers).polls == 1
  {
    assert FailurePrefix + "bad input" == "图像生成失败: bad input";
  }
}
