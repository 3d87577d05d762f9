/**
 * The client for an OpenAI-compatible chat endpoint: the settings fixed at construction,
 * the request a chat call posts, the retry policy over the outcomes of its attempts, and
 * the recovery of a JSON answer wrapped in a fenced block.
 *
 * The network is the function `outcome`: `outcome(k)` is what the k-th attempt (from 1)
 * meets. Waiting is recorded, not performed: a chat call returns the list of waits, in seconds.
 */
module LLM {
  import opened Wrappers
  import opened Text

  const DefaultEndpoint := "http://localhost:8439/v1"
  const DefaultModel := "claude-4.5"
  const DefaultTimeout := 300
  const DefaultMaxRetries := 3

  /** The endpoint without its trailing slashes, or the default endpoint when nothing is left. */
  function EndpointOrDefault(endpoint: string): (r: string)
    ensures |r| > 0 && r[|r| - 1] != '/'
    ensures RStripChar(endpoint, '/') == "" ==> r == DefaultEndpoint
    ensures RStripChar(endpoint, '/') != "" ==> r == RStripChar(endpoint, '/')
  {
    var e := RStripChar(endpoint, '/');
    if e == "" then DefaultEndpoint else e
  }

  /** A stripped endpoint is the given one without its trailing slashes, and only slashes were removed. */
  lemma EndpointKeepsPrefix(endpoint: string)
    requires RStripChar(endpoint, '/') != ""
    ensures endpoint == EndpointOrDefault(endpoint) + endpoint[|EndpointOrDefault(endpoint)|..]
    ensures forall k :: |EndpointOrDefault(endpoint)| <= k < |endpoint| ==> endpoint[k] == '/'
  {
    var r := EndpointOrDefault(endpoint);
    assert endpoint == endpoint[..|r|] + endpoint[|r|..];
  }

  /** One chat message. */
  datatype Message = Message(role: string, content: string)

  /** The JSON body of a chat request; absent keys are `None`. */
  datatype Payload = Payload(
    model: string,
    messages: seq<Message>,
    temperature: real,
    maxTokens: Option<int>,
    responseFormat: Option<map<string, string>>)

  /** What each attempt posts: the URL, the body and the timeout. */
  datatype Request = Request(url: string, payload: Payload, timeout: int)

  /** What one attempt meets: a response with the content of its first choice, or one of the errors. */
  datatype Outcome =
    | Success(content: string)
    | Timeout
    | HttpError(status: int, detail: string)
    | OtherError(detail: string)
    // a body that is not JSON or lacks `choices[0].message.content` is an `OtherError`

  /** After one attempt: the call ends with a result, or it waits this long and tries again. */
  datatype Step = Done(result: Result<string>) | Retry(wait: nat)

  /** The decision after attempt `k` of `maxRetries`. */
  function Attempt(k: nat, maxRetries: int, o: Outcome): Step
    requires 1 <= k <= maxRetries
  {
    match o
    case Success(content) => Done(Ok(content))
    case Timeout =>
      if k < maxRetries then Retry(5 * k)
      else Done(Err("LLM request timed out after " + NatToDigits(maxRetries) + " attempts"))
    case HttpError(status, detail) =>
      if k < maxRetries && 500 <= status < 600 then Retry(5 * k)
      else Done(Err("LLM HTTP error: " + detail))
    case OtherError(detail) => Done(Err("LLM request failed: " + detail))
  }

  /** The attempt is retried exactly when attempts remain and it timed out or met a 5xx status. */
  lemma AttemptRetries(k: nat, maxRetries: int, o: Outcome)
    requires 1 <= k <= maxRetries
    ensures Attempt(k, maxRetries, o).Retry? <==>
      k < maxRetries && (o.Timeout? || (o.HttpError? && 500 <= o.status < 600))
    ensures Attempt(k, maxRetries, o).Retry? ==> Attempt(k, maxRetries, o).wait == 5 * k
    ensures o.Success? ==> Attempt(k, maxRetries, o) == Done(Ok(o.content))
    ensures !o.Success? && Attempt(k, maxRetries, o).Done? ==> Attempt(k, maxRetries, o).result.Err?
    ensures o.HttpError? && Attempt(k, maxRetries, o).Done? ==> Attempt(k, maxRetries, o).result == Err("LLM HTTP error: " + o.detail)
    ensures o.OtherError? ==> Attempt(k, maxRetries, o) == Done(Err("LLM request failed: " + o.detail))
  {
  }

  /** The whole chat call: its result, the waits between attempts, and how many requests were made. */
  datatype Run = Run(result: Result<string>, waits: seq<nat>, attempts: nat)

  /** The retry loop from attempt `k` on. */
  function RunFrom(k: nat, maxRetries: int, outcome: nat -> Outcome): Run
    requires k >= 1
    decreases if k <= maxRetries then maxRetries - k + 1 else 0
  {
    if k > maxRetries then Run(Err("LLM request failed after all retries"), [], k - 1)
    else match Attempt(k, maxRetries, outcome(k))
      case Done(result) => Run(result, [], k)
      case Retry(w) =>
        var rest := RunFrom(k + 1, maxRetries, outcome);
        Run(rest.result, [w] + rest.waits, rest.attempts)
  }

  /**
   * From attempt `k` on: the run stops at the first attempt that is not retried, never later
   * than the last allowed attempt, with that attempt's result, after one wait of `5*j`
   * seconds for each retried attempt `j`.
   */
  lemma {:induction false} RunFromShape(k: nat, maxRetries: int, outcome: nat -> Outcome)
    requires 1 <= k <= maxRetries
    ensures k <= RunFrom(k, maxRetries, outcome).attempts <= maxRetries
    ensures |RunFrom(k, maxRetries, outcome).waits| == RunFrom(k, maxRetries, outcome).attempts - k
    ensures forall j :: 0 <= j < |RunFrom(k, maxRetries, outcome).waits| ==>
      RunFrom(k, maxRetries, outcome).waits[j] == 5 * (k + j)
    ensures forall a :: k <= a < RunFrom(k, maxRetries, outcome).attempts ==>
      Attempt(a, maxRetries, outcome(a)).Retry?
    ensures Attempt(RunFrom(k, maxRetries, outcome).attempts, maxRetries,
                    outcome(RunFrom(k, maxRetries, outcome).attempts))
      == Done(RunFrom(k, maxRetries, outcome).result)
    decreases maxRetries - k
  {
    if Attempt(k, maxRetries, outcome(k)).Retry? {
      AttemptRetries(k, maxRetries, outcome(k));
      RunFromShape(k + 1, maxRetries, outcome);
    }
  }

  /**
   * The retry policy of a chat call: with `maxRetries <= 0` no request is made and the call
   * fails; otherwise between 1 and `maxRetries` requests are made, every attempt but the last
   * was retried after waiting 5, 10, 15, ... seconds, and the last attempt's decision is the result.
   */
  lemma RetryPolicy(maxRetries: int, outcome: nat -> Outcome)
    ensures maxRetries <= 0 ==>
      RunFrom(1, maxRetries, outcome) == Run(Err("LLM request failed after all retries"), [], 0)
    ensures maxRetries >= 1 ==>
      1 <= RunFrom(1, maxRetries, outcome).attempts <= maxRetries
      && |RunFrom(1, maxRetries, outcome).waits| == RunFrom(1, maxRetries, outcome).attempts - 1
      && (forall j :: 0 <= j < |RunFrom(1, maxRetries, outcome).waits| ==>
            RunFrom(1, maxRetries, outcome).waits[j] == 5 * (j + 1))
      && (forall a :: 1 <= a < RunFrom(1, maxRetries, outcome).attempts ==>
            Attempt(a, maxRetries, outcome(a)).Retry?)
      && Attempt(RunFrom(1, maxRetries, outcome).attempts, maxRetries,
                 outcome(RunFrom(1, maxRetries, outcome).attempts))
         == Done(RunFrom(1, maxRetries, outcome).result)
  {
    if maxRetries >= 1 {
      RunFromShape(1, maxRetries, outcome);
    }
  }

  /** When attempt `k` succeeds and every earlier one was retried, the call returns its content after `k` requests. */
  lemma FirstSuccess(maxRetries: int, outcome: nat -> Outcome, k: nat)
    requires 1 <= k <= maxRetries && outcome(k).Success?
    requires forall a :: 1 <= a < k ==> Attempt(a, maxRetries, outcome(a)).Retry?
    ensures RunFrom(1, maxRetries, outcome).result == Ok(outcome(k).content)
    ensures RunFrom(1, maxRetries, outcome).attempts == k
  {
    RetryPolicy(maxRetries, outcome);
    var n := RunFrom(1, maxRetries, outcome).attempts;
    if n < k {
      assert false;
    } else if n > k {
      assert false;
    }
  }

  /** An error that is not retried ends the call at once with an error. */
  lemma FatalErrorStops(maxRetries: int, outcome: nat -> Outcome, k: nat)
    requires 1 <= k <= maxRetries && !outcome(k).Success? && !outcome(k).Timeout?
    requires !(outcome(k).HttpError? && 500 <= outcome(k).status < 600)
    requires forall a :: 1 <= a < k ==> Attempt(a, maxRetries, outcome(a)).Retry?
    ensures RunFrom(1, maxRetries, outcome).result.Err?
    ensures RunFrom(1, maxRetries, outcome).attempts == k
  {
    RetryPolicy(maxRetries, outcome);
    AttemptRetries(k, maxRetries, outcome(k));
    var n := RunFrom(1, maxRetries, outcome).attempts;
    if n < k {
      assert false;
    } else if n > k {
      assert false;
    }
    AttemptRetries(n, maxRetries, outcome(n));
  }

  /** Python's truthiness of the optional arguments. */
  predicate SomeText(x: Option<string>) { x.Some? && x.value != "" }
  predicate SomeInt(x: Option<int>) { x.Some? && x.value != 0 }
  predicate SomeDict(x: Option<map<string, string>>) { x.Some? && |x.value| > 0 }

  /** The response format `chat_json` asks for. */
  const JsonObject: map<string, string> := map["type" := "json_object"]

  /** `LLMClient`: the settings are fixed when the client is built. */
  class LLMClient {
    const endpoint: string
    const model: string
    const timeout: int
    const maxRetries: int

    /** `LLMClient(endpoint, model, timeout, max_retries)`. */
    constructor(endpoint: string, model: Option<string>, timeout: int, maxRetries: int)
      ensures this.endpoint == EndpointOrDefault(endpoint)
      ensures this.model == (if SomeText(model) then model.value else DefaultModel)
      ensures this.timeout == timeout && this.maxRetries == maxRetries
    {
      this.endpoint := EndpointOrDefault(endpoint);
      this.model := if SomeText(model) then model.value else DefaultModel;
      this.timeout := timeout;
      this.maxRetries := maxRetries;
    }

    /**
     * The request `chat` posts: the model and temperature as given, the system message first
     * and only when a system prompt is given, then the user message; `max_tokens` and
     * `response_format` only when given and not empty.
     */
    predicate RequestFor(request: Request, prompt: string, systemPrompt: Option<string>, temperature: real,
                         maxTokens: Option<int>, responseFormat: Option<map<string, string>>)
    {
      && request.url == endpoint + "/chat/completions" && request.timeout == timeout
      && request.payload.model == model && request.payload.temperature == temperature
      && |request.payload.messages| == (if SomeText(systemPrompt) then 2 else 1)
      && request.payload.messages[|request.payload.messages| - 1] == Message("user", prompt)
      && (SomeText(systemPrompt) ==> request.payload.messages[0] == Message("system", systemPrompt.value))
      && request.payload.maxTokens == (if SomeInt(maxTokens) then maxTokens else None)
      && request.payload.responseFormat == (if SomeDict(responseFormat) then responseFormat else None)
    }

    /** The message list and payload assembly of `chat`. */
    method BuildRequest(prompt: string, systemPrompt: Option<string>, temperature: real,
                        maxTokens: Option<int>, responseFormat: Option<map<string, string>>)
      returns (request: Request)
      ensures RequestFor(request, prompt, systemPrompt, temperature, maxTokens, responseFormat)
    {
      var messages: seq<Message> := [];
      if SomeText(systemPrompt) {
        messages := messages + [Message("system", systemPrompt.value)];
      }
      messages := messages + [Message("user", prompt)];
      var payload := Payload(model, messages, temperature, None, None);
      if SomeInt(maxTokens) {
        payload := payload.(maxTokens := maxTokens);
      }
      if SomeDict(responseFormat) {
        payload := payload.(responseFormat := responseFormat);
      }
      request := Request(endpoint + "/chat/completions", payload, timeout);
    }

    /** `chat`: posts the request until an attempt is not retried; the attempts follow `RunFrom`. */
    method Chat(prompt: string, systemPrompt: Option<string>, temperature: real,
                maxTokens: Option<int>, responseFormat: Option<map<string, string>>,
                outcome: nat -> Outcome)
      returns (r: Result<string>, request: Request, waits: seq<nat>, attempts: nat)
      ensures Run(r, waits, attempts) == RunFrom(1, maxRetries, outcome)
      ensures RequestFor(request, prompt, systemPrompt, temperature, maxTokens, responseFormat)
    {
      request := BuildRequest(prompt, systemPrompt, temperature, maxTokens, responseFormat);
      waits := [];
      var attempt: nat := 1;
      while attempt <= maxRetries
        invariant attempt >= 1
        invariant RunFrom(1, maxRetries, outcome) == Run(RunFrom(attempt, maxRetries, outcome).result,
          waits + RunFrom(attempt, maxRetries, outcome).waits, RunFrom(attempt, maxRetries, outcome).attempts)
        decreases maxRetries - attempt
      {
        var o := outcome(attempt);
        match o {
          case Success(content) =>
            return Ok(content), request, waits, attempt;
          case Timeout =>
            if attempt < maxRetries {
              var waitTime := 5 * attempt;
              assert (waits + [waitTime]) + RunFrom(attempt + 1, maxRetries, outcome).waits == waits + ([waitTime] + RunFrom(attempt + 1, maxRetries, outcome).waits);
              waits := waits + [waitTime];
            } else {
              return Err("LLM request timed out after " + NatToDigits(maxRetries) + " attempts"), request, waits, attempt;
            }
          case HttpError(status, detail) =>
            if attempt < maxRetries && 500 <= status < 600 {
              var waitTime := 5 * attempt;
              assert (waits + [waitTime]) + RunFrom(attempt + 1, maxRetries, outcome).waits == waits + ([waitTime] + RunFrom(attempt + 1, maxRetries, outcome).waits);
              waits := waits + [waitTime];
            } else {
              return Err("LLM HTTP error: " + detail), request, waits, attempt;
            }
          case OtherError(detail) =>
            return Err("LLM request failed: " + detail), request, waits, attempt;
        }
        attempt := attempt + 1;
      }
      return Err("LLM request failed after all retries"), request, waits, attempt - 1;
    }

    /**
     * `chat_json`: the request of `chat` with `response_format` set to a JSON object, and the
     * answer decoded with `parse` (`json.loads`, which gives the value or the decoder's message);
     * an answer that does not decode is tried once more as a fenced block.
     */
    method ChatJson<D>(prompt: string, systemPrompt: Option<string>, temperature: real, maxTokens: Option<int>,
                       outcome: nat -> Outcome, parse: string -> Result<D>)
      returns (r: Result<D>, request: Request, waits: seq<nat>, attempts: nat)
      ensures RequestFor(request, prompt, systemPrompt, temperature, maxTokens, Some(JsonObject))
      ensures request.payload.responseFormat == Some(JsonObject)
      ensures waits == RunFrom(1, maxRetries, outcome).waits && attempts == RunFrom(1, maxRetries, outcome).attempts
      ensures RunFrom(1, maxRetries, outcome).result.Err? ==> r == Err(RunFrom(1, maxRetries, outcome).result.msg)
      ensures RunFrom(1, maxRetries, outcome).result.Ok? ==> r == DecodeAnswer(RunFrom(1, maxRetries, outcome).result.value, parse)
    {
      var response;
      response, request, waits, attempts := Chat(prompt, systemPrompt, temperature, maxTokens, Some(JsonObject), outcome);
      if response.Err? {
        return Err(response.msg), request, waits, attempts;
      }
      r := DecodeAnswer(response.value, parse);
    }
  }

  /** Python's `s[start:end]` for the two cases `chat_json` meets: `end` an index at or after `start`, or -1. */
  function SliceToFind(s: string, start: nat, end: int): string
    requires start <= |s| && (end == -1 || start <= end <= |s|)
  {
    if end >= 0 then s[start..end]
    else if start < |s| then s[start..|s| - 1]
    else ""
  }

  /** The text `chat_json` re-parses: from 7 characters past the first "```json" to the next "```", stripped. */
  function FencedJson(response: string): string
    requires Contains(response, "```json")
  {
    var start := Find(response, "```json", 0) + 7;
    var end := Find(response, "```", start);
    Strip(SliceToFind(response, start, end))
  }

  /**
   * What `chat_json` makes of an answer: the decoded value; else, with a `json` fence, the
   * decoded fenced text, its decoder error passing through unwrapped; else the first decoder
   * error, prefixed.
   */
  function DecodeAnswer<D>(response: string, parse: string -> Result<D>): Result<D> {
    match parse(response)
    case Ok(v) => Ok(v)
    case Err(e) =>
      if Contains(response, "```json") then parse(FencedJson(response))
      else Err("Failed to parse JSON response: " + e)
  }

  /** With the marker at `p` and the next fence at `q`, the re-parsed text is what lies between them, stripped. */
  lemma FencedJsonAt(s: string, p: nat, q: nat)
    requires p + 7 <= q && OccursAt(s, "```json", p) && OccursAt(s, "```", q)
    requires forall j :: 0 <= j < p ==> s[j] != '`'
    requires forall j :: p + 7 <= j < q ==> s[j] != '`'
    ensures Contains(s, "```json") && FencedJson(s) == Strip(s[p + 7..q])
  {
    NoOccurrenceWithout(s, "```json", 0, p);
    FindAt(s, "```json", 0, p);
    NoOccurrenceWithout(s, "```", p + 7, q);
    FindAt(s, "```", p + 7, q);
  }

  /**
   * With the marker at `p` and no fence after it, `find` gives -1 and the slice `[start:-1]`
   * stops one character short of the end: the last character of the answer is lost.
   */
  lemma UnclosedFencedJsonAt(s: string, p: nat)
    requires OccursAt(s, "```json", p)
    requires forall j :: 0 <= j < p ==> s[j] != '`'
    requires forall j :: p + 7 <= j < |s| ==> s[j] != '`'
    ensures Contains(s, "```json")
    ensures FencedJson(s) == if p + 7 < |s| then Strip(s[p + 7..|s| - 1]) else ""
  {
    NoOccurrenceWithout(s, "```json", 0, p);
    FindAt(s, "```json", 0, p);
    var e := Find(s, "```", p + 7);
    if e != -1 {
      OccursAtFirst(s, "```", e);
      assert false;
    }
  }

  /** A block `"```json" + m + "```"` after text without backticks re-parses as `m` stripped. */
  lemma FencedJsonOf(a: string, m: string, b: string)
    requires '`' !in a && '`' !in m
    ensures Contains(a + "```json" + m + "```" + b, "```json")
    ensures FencedJson(a + "```json" + m + "```" + b) == Strip(m)
  {
    var s := a + "```json" + m + "```" + b;
    var p := |a|;
    var q := |a| + 7 + |m|;
    assert s[p..p + 7] == "```json" && s[q..q + 3] == "```";
    OccursAtSlice(s, "```json", p);
    OccursAtSlice(s, "```", q);
    assert s[p + 7..q] == m;
    forall j | 0 <= j < p ensures s[j] != '`' { assert s[j] == a[j]; }
    forall j | p + 7 <= j < q ensures s[j] != '`' { assert s[j] == m[j - p - 7]; }
    FencedJsonAt(s, p, q);
  }

  /** Without a closing fence, the answer `a + "```json" + m` re-parses as `m` without its last character, stripped. */
  lemma UnclosedFencedJsonOf(a: string, m: string)
    requires '`' !in a && '`' !in m && |m| > 0
    ensures Contains(a + "```json" + m, "```json")
    ensures FencedJson(a + "```json" + m) == Strip(m[..|m| - 1])
  {
    var s := a + "```json" + m;
    var p := |a|;
    assert s[p..p + 7] == "```json";
    OccursAtSlice(s, "```json", p);
    assert s[p + 7..|s| - 1] == m[..|m| - 1];
    forall j | 0 <= j < p ensures s[j] != '`' { assert s[j] == a[j]; }
    forall j | p + 7 <= j < |s| ensures s[j] != '`' { assert s[j] == m[j - p - 7]; }
    UnclosedFencedJsonAt(s, p);
  }
}
