/** The provider-independent logic of `OptimizedAIService`: what one request
    to a provider turns into, which errors are worth a retry, the bounded
    retry with exponential backoff, and the fallback chain over providers.
    The network is an oracle: for a provider name, the entry text and the
    attempt number it gives the response that request received. */
module Providers {
  import opened Wrappers
  import opened Text

  /** The fields of the JSON object a model answers with that the service
      reads or fills in.  `confidence` is `None` when absent or not a number;
      an empty string stands for a missing or empty field. */
  datatype Reply = Reply(flag: string, title: string, message: string, suggestions: seq<string>, confidence: Option<real>)

  /** A status for which `response.ok` is false. */
  type NotOkStatus = s: nat | !(200 <= s < 300)

  /** What a request ended in: a non-OK HTTP status with the body text, a
      reply parsed from the body, or an exception thrown on the way (a failed
      `fetch`, a body without content, a JSON syntax error) with its
      message. */
  datatype Response =
    | HttpError(status: NotOkStatus, body: string)
    | Parsed(reply: Reply)
    | Broken(message: string)

  /** A successful analysis as the service returns it. */
  datatype AiResult = AiResult(
    flag: string, title: string, message: string, suggestions: seq<string>,
    confidence: real, provider: string)

  const DefaultConfidence: real := 0.8

  /** `{ ...result, provider, confidence: result.confidence || 0.8 }`. */
  function Tag(reply: Reply, provider: string): (r: AiResult)
    ensures r.flag == reply.flag && r.title == reply.title && r.message == reply.message
    ensures r.suggestions == reply.suggestions && r.provider == provider
    ensures r.confidence != 0.0
  {
    AiResult(reply.flag, reply.title, reply.message, reply.suggestions,
      if reply.confidence == None || reply.confidence == Some(0.0) then DefaultConfidence
      else reply.confidence.value,
      provider)
  }

  const InvalidStructure := "Invalid response structure"

  /** `isRetryableError`: the substrings that mark an error as temporary. */
  const RetryableMessages: seq<string> :=
    ["temporary error", "rate limit", "timeout", "network", "fetch", "503", "429", "500", "502", "504"]

  predicate IsRetryable(message: string)
  {
    exists i | 0 <= i < |RetryableMessages| :: Contains(Lower(message), RetryableMessages[i])
  }

  /** The test ignores case: a message and its lower-cased form are
      retried alike. */
  lemma RetryableIgnoresCase(message: string)
    ensures IsRetryable(Lower(message)) == IsRetryable(message)
  {
    LowerIdempotent(message);
  }

  /** The statuses Gemini and Groq report as `Temporary error: <status>`. */
  predicate IsTemporaryStatus(status: nat)
  {
    status == 429 || status == 503 || status >= 500
  }

  /** How a provider words a non-OK response: Gemini and Groq separate
      temporary statuses and add the body, Together and Perplexity give the
      status only. */
  datatype ErrorStyle = Detailed(prefix: string) | Plain(prefix: string)

  /** The message thrown for a non-OK status; every form names the status. */
  function HttpErrorMessage(style: ErrorStyle, status: nat, body: string): (r: string)
    ensures Contains(r, NatToString(status))
  {
    var digits := NatToString(status);
    assert Contains(digits, digits) by { assert OccursAt(digits, digits, 0); }
    match style
    case Detailed(prefix) =>
      if IsTemporaryStatus(status) then
        ContainsExtended(digits, digits, "Temporary error: ", "");
        assert "Temporary error: " + digits + "" == "Temporary error: " + digits;
        "Temporary error: " + digits
      else
        ContainsExtended(digits, digits, prefix, " - " + body);
        assert prefix + digits + (" - " + body) == prefix + digits + " - " + body;
        prefix + digits + " - " + body
    case Plain(prefix) =>
      ContainsExtended(digits, digits, prefix, "");
      assert prefix + digits + "" == prefix + digits;
      prefix + digits
  }

  lemma LowerDigits(s: string)
    requires forall i | 0 <= i < |s| :: IsDigit(s[i])
    ensures Lower(s) == s
  {
  }

  /** A temporary status always gives a message that `isRetryableError`
      accepts, because it contains "temporary error" once lower-cased. */
  lemma TemporaryIsRetryable(prefix: string, status: nat, body: string)
    requires IsTemporaryStatus(status)
    ensures IsRetryable(HttpErrorMessage(Detailed(prefix), status, body))
  {
    var digits := NatToString(status);
    LowerConcat("Temporary error: ", digits);
    LowerDigits(digits);
    var lowered := Lower("Temporary error: " + digits);
    assert Lower("Temporary error: ") == "temporary error: ";
    assert lowered[0..15] == "temporary error";
    assert OccursAt(lowered, RetryableMessages[0], 0);
  }

  /** A browser's failed `fetch` ("Failed to fetch") is retried. */
  lemma FailedFetchIsRetryable()
    ensures IsRetryable("Failed to fetch")
  {
    assert Lower("Failed to fetch") == "failed to fetch";
    assert OccursAt("failed to fetch", RetryableMessages[4], 10);
  }

  /** The lower-cased structure error lacks a character of each retryable
      phrase ("temporary error", "rate limit", "timeout"), */
  lemma InvalidStructureNoPhrase(i: nat)
    requires i < 3
    ensures !Contains("invalid response structure", RetryableMessages[i])
  {
    var t := "invalid response structure";
    if i == 0 {
      MissingCharNotContained(t, RetryableMessages[0], 2);
    } else if i == 1 {
      MissingCharNotContained(t, RetryableMessages[1], 7);
    } else {
      MissingCharNotContained(t, RetryableMessages[2], 2);
    }
  }

  /** and of each retryable word ("network", "fetch"), */
  lemma InvalidStructureNoWord(i: nat)
    requires 3 <= i < 5
    ensures !Contains("invalid response structure", RetryableMessages[i])
  {
    var t := "invalid response structure";
    if i == 3 {
      MissingCharNotContained(t, RetryableMessages[3], 3);
    } else {
      MissingCharNotContained(t, RetryableMessages[4], 0);
    }
  }

  /** and it has no digit at all, so no status code occurs in it. */
  lemma InvalidStructureNoStatus(i: nat)
    requires 5 <= i < 10
    ensures !Contains("invalid response structure", RetryableMessages[i])
  {
    var t := "invalid response structure";
    assert forall k | 0 <= k < |t| :: !IsDigit(t[k]);
    assert IsDigit(RetryableMessages[i][0]);
    MissingCharNotContained(t, RetryableMessages[i], 0);
  }

  lemma LowerInvalidStructure()
    ensures Lower(InvalidStructure) == "invalid response structure"
  {
  }

  /** A reply that fails Gemini's structure check is not retried. */
  lemma InvalidStructureNotRetryable()
    ensures !IsRetryable(InvalidStructure)
  {
    LowerInvalidStructure();
    forall i | 0 <= i < |RetryableMessages| ensures !Contains(Lower(InvalidStructure), RetryableMessages[i]) {
      if i < 3 {
        InvalidStructureNoPhrase(i);
      } else if i < 5 {
        InvalidStructureNoWord(i);
      } else {
        InvalidStructureNoStatus(i);
      }
    }
  }

  /** Everything that distinguishes one provider's `analyzeWith…` method:
      its name (used for tagging and for the network), the display name in its
      "API key not configured" message, whether its key is set, its retry
      budget and base delay, its error wording, and whether it checks the
      reply for `flag`, `title` and `message` (Gemini only). */
  datatype Policy = Policy(
    name: string, display: string, enabled: bool,
    maxRetries: nat, retryDelay: nat, style: ErrorStyle, validates: bool)

  /** The body of the `try` block for one response: success with the tagged
      result, or the message of the error it throws. */
  function AttemptOutcome(p: Policy, response: Response): (r: Result<AiResult, string>)
    ensures r.Success? <==>
              response.Parsed? && !(p.validates && (response.reply.flag == "" || response.reply.title == ""
                                                    || response.reply.message == ""))
    ensures r.Success? ==> r.value.provider == p.name && r.value.flag == response.reply.flag
    ensures response.Parsed? && r.Failure? ==> r.error == InvalidStructure
    ensures response.Broken? ==> r == Failure(response.message)
    ensures response.HttpError? ==> r.Failure? && Contains(r.error, NatToString(response.status))
  {
    match response
    case HttpError(status, body) => Failure(HttpErrorMessage(p.style, status, body))
    case Broken(message) => Failure(message)
    case Parsed(reply) =>
      if p.validates && (reply.flag == "" || reply.title == "" || reply.message == "")
      then Failure(InvalidStructure)
      else Success(Tag(reply, p.name))
  }

  /** One request: to which provider, and which attempt it was. */
  datatype Call = Call(provider: string, attempt: nat)

  /** The observable course of an analysis: its result (a returned value or
      a thrown message), the requests made in order, and the delays slept. */
  datatype Run = Run(result: Result<AiResult, string>, calls: seq<Call>, delays: seq<nat>)

  /** Provider name, entry text, attempt number to the response received. */
  type Network = (string, string, nat) -> Response

  function Pow2(k: nat): (r: nat)
    ensures r >= 1
  {
    if k == 0 then 1 else 2 * Pow2(k - 1)
  }

  function NotConfigured(p: Policy): string
  {
    p.display + " API key not configured"
  }

  function Outcome(p: Policy, text: string, net: Network, k: nat): Result<AiResult, string>
  {
    AttemptOutcome(p, net(p.name, text, k))
  }

  /** `analyzeWith…(text, k)`: with no key, the "not configured" error and
      no request (the check sits outside the `try`); otherwise request
      attempt `k`, and on a retryable error with budget left sleep
      `retryDelay * 2^k` and try attempt `k + 1`. */
  function RetryRun(p: Policy, text: string, net: Network, k: nat): (r: Run)
    decreases p.maxRetries - k
  {
    if !p.enabled then Run(Failure(NotConfigured(p)), [], [])
    else
      var outcome := Outcome(p, text, net, k);
      if outcome.Failure? && k < p.maxRetries && IsRetryable(outcome.error) then
        var rest := RetryRun(p, text, net, k + 1);
        Run(rest.result, [Call(p.name, k)] + rest.calls, [p.retryDelay * Pow2(k)] + rest.delays)
      else Run(outcome, [Call(p.name, k)], [])
  }

  /** A provider without a key fails at once, without any request. */
  lemma RetryDisabled(p: Policy, text: string, net: Network, k: nat)
    requires !p.enabled
    ensures RetryRun(p, text, net, k) == Run(Failure(NotConfigured(p)), [], [])
  {
  }

  /** With no budget left, an enabled provider makes exactly one request
      and returns its outcome. */
  lemma RetryLast(p: Policy, text: string, net: Network, k: nat)
    requires p.enabled && p.maxRetries <= k
    ensures RetryRun(p, text, net, k) == Run(Outcome(p, text, net, k), [Call(p.name, k)], [])
  {
  }

  /** The requests of a retry run starting at attempt `k`: consecutive
      attempts `k, k+1, …` to this provider, at most `maxRetries - k + 1` of
      them. */
  lemma {:induction false} RetryCalls(p: Policy, text: string, net: Network, k: nat)
    requires p.enabled
    ensures var r := RetryRun(p, text, net, k);
            && 1 <= |r.calls| <= (if k <= p.maxRetries then p.maxRetries - k + 1 else 1)
            && (forall i | 0 <= i < |r.calls| :: r.calls[i] == Call(p.name, k + i))
    decreases p.maxRetries - k
  {
    var outcome := Outcome(p, text, net, k);
    if outcome.Failure? && k < p.maxRetries && IsRetryable(outcome.error) {
      RetryCalls(p, text, net, k + 1);
      var rest := RetryRun(p, text, net, k + 1);
      var r := RetryRun(p, text, net, k);
      assert r.calls == [Call(p.name, k)] + rest.calls;
      forall i | 1 <= i < |r.calls| ensures r.calls[i] == Call(p.name, k + i) {
        assert r.calls[i] == rest.calls[i - 1];
      }
    }
  }

  /** The delays of a retry run starting at attempt `k`: `retryDelay * 2^j`
      after each attempt `j` but the last. */
  lemma {:induction false} RetryDelays(p: Policy, text: string, net: Network, k: nat)
    requires p.enabled
    ensures var r := RetryRun(p, text, net, k);
            && |r.delays| == |r.calls| - 1
            && (forall i | 0 <= i < |r.delays| :: r.delays[i] == p.retryDelay * Pow2(k + i))
    decreases p.maxRetries - k
  {
    var outcome := Outcome(p, text, net, k);
    if outcome.Failure? && k < p.maxRetries && IsRetryable(outcome.error) {
      RetryDelays(p, text, net, k + 1);
      var rest := RetryRun(p, text, net, k + 1);
      var r := RetryRun(p, text, net, k);
      assert r.delays == [p.retryDelay * Pow2(k)] + rest.delays;
      forall i | 1 <= i < |r.delays| ensures r.delays[i] == p.retryDelay * Pow2(k + i) {
        assert r.delays[i] == rest.delays[i - 1];
      }
    }
  }

  /** Why a retry run starting at attempt `k` stopped where it did: every
      attempt but the last failed retryably with budget left, and the last
      attempt's outcome is the result: a success, a non-retryable failure, or
      a retryable one once the budget is spent. */
  lemma {:induction false} RetryStops(p: Policy, text: string, net: Network, k: nat)
    requires p.enabled
    ensures var r := RetryRun(p, text, net, k);
            && |r.calls| >= 1
            && (forall j | k <= j < k + |r.calls| - 1 ::
                  && Outcome(p, text, net, j).Failure?
                  && IsRetryable(Outcome(p, text, net, j).error)
                  && j < p.maxRetries)
            && r.result == Outcome(p, text, net, k + |r.calls| - 1)
            && (r.result.Failure? ==>
                  !IsRetryable(r.result.error) || k + |r.calls| - 1 >= p.maxRetries)
    decreases p.maxRetries - k
  {
    var outcome := Outcome(p, text, net, k);
    if outcome.Failure? && k < p.maxRetries && IsRetryable(outcome.error) {
      RetryStops(p, text, net, k + 1);
      var rest := RetryRun(p, text, net, k + 1);
      assert RetryRun(p, text, net, k) == Run(rest.result, [Call(p.name, k)] + rest.calls,
                                              [p.retryDelay * Pow2(k)] + rest.delays);
    } else {
      assert RetryRun(p, text, net, k) == Run(outcome, [Call(p.name, k)], []);
    }
  }

  /** The whole course of a retry run: its requests, its delays and why it
      stopped. */
  lemma RetryShape(p: Policy, text: string, net: Network, k: nat)
    requires p.enabled
    ensures var r := RetryRun(p, text, net, k);
            && 1 <= |r.calls| <= (if k <= p.maxRetries then p.maxRetries - k + 1 else 1)
            && (forall i | 0 <= i < |r.calls| :: r.calls[i] == Call(p.name, k + i))
            && |r.delays| == |r.calls| - 1
            && (forall i | 0 <= i < |r.delays| :: r.delays[i] == p.retryDelay * Pow2(k + i))
            && (forall j | k <= j < k + |r.calls| - 1 ::
                  && Outcome(p, text, net, j).Failure?
                  && IsRetryable(Outcome(p, text, net, j).error)
                  && j < p.maxRetries)
            && r.result == Outcome(p, text, net, k + |r.calls| - 1)
            && (r.result.Failure? ==>
                  !IsRetryable(r.result.error) || k + |r.calls| - 1 >= p.maxRetries)
  {
    RetryCalls(p, text, net, k);
    RetryDelays(p, text, net, k);
    RetryStops(p, text, net, k);
  }

  /** When every attempt fails retryably the budget is used up exactly:
      `maxRetries - k + 1` requests, ending with the last attempt's error. */
  lemma {:induction false} RetryExhausts(p: Policy, text: string, net: Network, k: nat)
    requires p.enabled && k <= p.maxRetries
    requires forall j | k <= j <= p.maxRetries ::
               Outcome(p, text, net, j).Failure? && IsRetryable(Outcome(p, text, net, j).error)
    ensures |RetryRun(p, text, net, k).calls| == p.maxRetries - k + 1
    ensures RetryRun(p, text, net, k).result == Outcome(p, text, net, p.maxRetries)
    decreases p.maxRetries - k
  {
    if k < p.maxRetries {
      RetryExhausts(p, text, net, k + 1);
    }
  }

  /** A success is the reply of the answering attempt tagged with this
      provider's name; for a validating provider it has a non-empty flag,
      title and message. */
  lemma SuccessTagged(p: Policy, text: string, net: Network, k: nat)
    requires RetryRun(p, text, net, k).result.Success?
    ensures var r := RetryRun(p, text, net, k);
            var last := k + |r.calls| - 1;
            && |r.calls| >= 1
            && net(p.name, text, last).Parsed?
            && r.result.value == Tag(net(p.name, text, last).reply, p.name)
            && r.result.value.provider == p.name
            && (p.validates ==> r.result.value.flag != "" && r.result.value.title != ""
                                && r.result.value.message != "")
  {
    RetryShape(p, text, net, k);
  }

  /** `Tag`: the confidence is the reply's own unless missing or zero. */
  lemma TagConfidence(reply: Reply, provider: string)
    ensures Tag(reply, provider).confidence ==
            (if reply.confidence.Some? && reply.confidence.value != 0.0 then reply.confidence.value
             else DefaultConfidence)
    ensures Tag(reply, provider).provider == provider
  {
  }

  const AllFailed := "All AI providers failed - will fall back to local analysis"

  /** One run followed by another: the second's result, the requests and
      delays of both in order. */
  function Then(r: Run, t: Run): Run
  {
    Run(t.result, r.calls + t.calls, r.delays + t.delays)
  }

  lemma ThenAssoc(a: Run, b: Run, c: Run)
    ensures Then(Then(a, b), c) == Then(a, Then(b, c))
  {
    assert (a.calls + b.calls) + c.calls == a.calls + (b.calls + c.calls);
    assert (a.delays + b.delays) + c.delays == a.delays + (b.delays + c.delays);
  }

  /** `analyzeRelationshipEntry` over a provider order: the first run that
      succeeds ends the chain; when every provider fails the chain throws
      its own message. */
  function ChainRun(order: seq<Policy>, text: string, net: Network): (r: Run)
    ensures r.result.Failure? ==> r.result.error == AllFailed
  {
    if order == [] then Run(Failure(AllFailed), [], [])
    else
      var r := RetryRun(order[0], text, net, 0);
      if r.result.Success? then r else Then(r, ChainRun(order[1..], text, net))
  }

  /** The chain over a first provider and the rest. */
  lemma ChainCons(p: Policy, rest: seq<Policy>, text: string, net: Network)
    ensures var r := RetryRun(p, text, net, 0);
            ChainRun([p] + rest, text, net) ==
              if r.result.Success? then r else Then(r, ChainRun(rest, text, net))
  {
    assert ([p] + rest)[0] == p;
    assert ([p] + rest)[1..] == rest;
  }

  /** The requests of the providers of `order`, each run from attempt 0. */
  function AllCalls(order: seq<Policy>, text: string, net: Network): seq<Call>
  {
    if order == [] then [] else RetryRun(order[0], text, net, 0).calls + AllCalls(order[1..], text, net)
  }

  /** The first provider to succeed supplies the result, and only it and the
      providers before it were asked. */
  lemma {:induction false} ChainFirstSuccess(order: seq<Policy>, text: string, net: Network, i: nat)
    requires i < |order|
    requires RetryRun(order[i], text, net, 0).result.Success?
    requires forall j | 0 <= j < i :: RetryRun(order[j], text, net, 0).result.Failure?
    ensures ChainRun(order, text, net).result == RetryRun(order[i], text, net, 0).result
    ensures ChainRun(order, text, net).calls == AllCalls(order[..i + 1], text, net)
  {
    if i == 0 {
      assert order[..1][1..] == [];
      assert AllCalls(order[..1][1..], text, net) == [];
    } else {
      var rest := order[1..];
      forall j | 0 <= j < i - 1 ensures RetryRun(rest[j], text, net, 0).result.Failure? {
        assert rest[j] == order[j + 1];
      }
      ChainFirstSuccess(rest, text, net, i - 1);
      assert order[..i + 1][1..] == rest[..i];
      assert order[..i + 1][0] == order[0];
    }
  }

  /** The chain fails exactly when every provider fails, and then with its
      own message after asking every provider. */
  lemma {:induction false} ChainAllFail(order: seq<Policy>, text: string, net: Network)
    ensures ChainRun(order, text, net).result.Failure? <==>
            forall j | 0 <= j < |order| :: RetryRun(order[j], text, net, 0).result.Failure?
    ensures ChainRun(order, text, net).result.Failure? ==>
            ChainRun(order, text, net).result.error == AllFailed
            && ChainRun(order, text, net).calls == AllCalls(order, text, net)
  {
    if order != [] {
      var rest := order[1..];
      ChainAllFail(rest, text, net);
      assert forall j | 1 <= j < |order| :: order[j] == rest[j - 1];
      if RetryRun(order[0], text, net, 0).result.Failure? {
        if forall j | 0 <= j < |rest| :: RetryRun(rest[j], text, net, 0).result.Failure? {
          assert forall j | 0 <= j < |order| :: RetryRun(order[j], text, net, 0).result.Failure? by {
            forall j | 0 <= j < |order| ensures RetryRun(order[j], text, net, 0).result.Failure? {
              if j > 0 {
                assert order[j] == rest[j - 1];
              }
            }
          }
        } else {
          var j :| 0 <= j < |rest| && !RetryRun(rest[j], text, net, 0).result.Failure?;
          assert order[j + 1] == rest[j];
        }
      }
    }
  }
}
