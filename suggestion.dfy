/**
 * The `/suggest` handler (app.py) with the web framework taken away: check the
 * API key, make a first attempt (call, clean, parse), retry once with the
 * stricter payload when the first attempt yields no usable list, and reply
 * with the list, the fixed placeholder, or an `"Error: …"` line when a call
 * raises. The Groq service is a stub object that answers its n-th call with a
 * scripted response and records every call.
 */
module Suggestion {
  import opened Wrappers
  import opened Text
  import opened Json
  import opened Sanitizer
  import opened Validator
  import opened Envelope

  const KeyMissingMessage: string := "Groq API key not found. Check Render environment."
  const Placeholder: string := "Unable to fetch live property suggestions. Please retry."
  const ErrorPrefix: string := "Error: "

  /** Which of the two fixed payloads a call sends: the first prompt or the stricter retry prompt. */
  datatype Attempt = FirstAttempt | RetryAttempt

  /** What one `requests.post` yields: a 200 response with its decoded body, or a raised exception. */
  datatype Response = Delivered(body: JsonValue) | Raised(message: string)

  /** The Groq endpoint as a scripted stub that counts and logs the calls made to it. */
  class GroqClient {
    /** The response the service gives to its n-th call (counting from 0). */
    const respond: nat -> Response
    /** The number of calls made so far. */
    var calls: nat
    /** The payload of every call made so far, in order. */
    var sent: seq<Attempt>

    ghost predicate Valid()
      reads this
    {
      |sent| == calls
    }

    constructor (respond: nat -> Response)
      ensures Valid()
      ensures this.respond == respond && calls == 0 && sent == []
    {
      this.respond := respond;
      calls := 0;
      sent := [];
    }

    /** One request: answered from the script, and recorded. */
    method Post(attempt: Attempt) returns (r: Response)
      requires Valid()
      modifies this
      ensures Valid()
      ensures r == respond(old(calls))
      ensures calls == old(calls) + 1 && sent == old(sent) + [attempt]
    {
      r := respond(calls);
      calls := calls + 1;
      sent := sent + [attempt];
    }
  }

  /** `call_groq` on a given response: its stripped content, or the exception it raises. */
  function Fetch(r: Response): (t: Result<string, Fault>)
    ensures t.Success? ==> IsStripped(t.value)
    ensures r.Raised? ==> t == Failure(ServiceError(r.message))
  {
    match r
    case Raised(m) => Failure(ServiceError(m))
    case Delivered(j) => Extract(j)
  }

  /** `call_groq(payload)`: one call through the client. */
  method CallGroq(client: GroqClient, attempt: Attempt) returns (t: Result<string, Fault>)
    requires client.Valid()
    modifies client
    ensures client.Valid()
    ensures t == Fetch(client.respond(old(client.calls)))
    ensures client.calls == old(client.calls) + 1 && client.sent == old(client.sent) + [attempt]
  {
    var r := client.Post(attempt);
    match r
    case Raised(m) => t := Failure(ServiceError(m));
    case Delivered(j) => t := Extract(j);
  }

  /** One attempt on a given response: call, `clean_text`, `parse_json_array`. */
  function AttemptResult(r: Response, loads: string -> Option<JsonValue>): (p: Result<Option<seq<string>>, Fault>)
    ensures p.Success? && p.value.Some? ==> forall k :: 0 <= k < |p.value.value| ==> IsSuggestion(p.value.value[k])
    ensures r.Raised? ==> p.Failure?
  {
    match Fetch(r)
    case Failure(f) => Failure(f)
    case Success(text) => Success(ParseJsonArray(CleanText(text), loads))
  }

  /** Python's truth value of `parsed`: neither `None` nor the empty list. */
  predicate Usable(parsed: Option<seq<string>>) {
    parsed.Some? && parsed.value != []
  }

  /** `not GROQ_KEY` is false: the variable is set and not empty. */
  predicate HasKey(key: Option<string>) {
    key.Some? && key.value != []
  }

  /** How a request ends. */
  datatype Verdict =
    | KeyMissing                       // no API key configured
    | Suggested(items: seq<string>)    // a usable list from one of the attempts
    | Fallback                         // both attempts gave no usable list
    | Errored(fault: Fault)            // a call raised

  /** A request's verdict and the calls it made, in order. */
  datatype Run = Run(verdict: Verdict, attempts: seq<Attempt>)

  /**
   * The control flow of `suggest`, given the responses the first and the
   * second call would receive.
   */
  function Plan(key: Option<string>, first: Response, second: Response, loads: string -> Option<JsonValue>): (run: Run)
    ensures |run.attempts| <= 2
    ensures run.attempts == [FirstAttempt, RetryAttempt][..|run.attempts|]
    ensures HasKey(key) <==> |run.attempts| >= 1
    ensures run.verdict.Suggested? ==> run.verdict.items != []
    ensures run.verdict.Suggested? ==> forall k :: 0 <= k < |run.verdict.items| ==> IsSuggestion(run.verdict.items[k])
  {
    if !HasKey(key) then Run(KeyMissing, [])
    else
      match AttemptResult(first, loads)
      case Failure(f) => Run(Errored(f), [FirstAttempt])
      case Success(parsed) =>
        if Usable(parsed) then Run(Suggested(parsed.value), [FirstAttempt])
        else
          match AttemptResult(second, loads)
          case Failure(f) => Run(Errored(f), [FirstAttempt, RetryAttempt])
          case Success(parsed2) =>
            Run(if Usable(parsed2) then Suggested(parsed2.value) else Fallback, [FirstAttempt, RetryAttempt])
  }

  /** `str(e)` for an exception raised inside `call_groq`; built-in exception texts come from `describe`. */
  function FaultText(f: Fault, describe: (Site, Kind) -> string): string {
    match f
    case ServiceError(m) => m
    case ShapeError(site, kind) => describe(site, kind)
  }

  /** The `"suggestion"` list of the JSON reply for each verdict. */
  function Reply(v: Verdict, describe: (Site, Kind) -> string): (r: seq<string>)
    ensures v.Suggested? ==> r == v.items
    ensures !v.Suggested? ==> |r| == 1
    ensures v.Errored? ==> r[0] == ErrorPrefix + FaultText(v.fault, describe)
    ensures v.Fallback? ==> r == [Placeholder]
  {
    match v
    case KeyMissing => [KeyMissingMessage]
    case Suggested(items) => items
    case Fallback => [Placeholder]
    case Errored(f) => [ErrorPrefix + FaultText(f, describe)]
  }

  /**
   * `suggest()`: the key check, the first attempt, at most one retry, and
   * the reply. `loads` stands for `json.loads`, `describe` for the text of
   * Python's built-in exceptions.
   */
  method Suggest(key: Option<string>, loads: string -> Option<JsonValue>, describe: (Site, Kind) -> string,
                 client: GroqClient)
    returns (suggestion: seq<string>)
    requires client.Valid()
    modifies client
    ensures client.Valid()
    ensures var run := Plan(key, client.respond(old(client.calls)), client.respond(old(client.calls) + 1), loads);
            && suggestion == Reply(run.verdict, describe)
            && client.sent == old(client.sent) + run.attempts
            && client.calls == old(client.calls) + |run.attempts|
    ensures old(client.calls) <= client.calls <= old(client.calls) + 2
    ensures !HasKey(key) ==> client.calls == old(client.calls) && suggestion == [KeyMissingMessage]
    ensures |suggestion| >= 1
  {
    ghost var first, second := client.respond(client.calls), client.respond(client.calls + 1);
    if !HasKey(key) {
      return [KeyMissingMessage];
    }
    var raw := CallGroq(client, FirstAttempt);
    if raw.Failure? {
      assert Plan(key, first, second, loads) == Run(Errored(raw.error), [FirstAttempt]);
      return [ErrorPrefix + FaultText(raw.error, describe)];
    }
    var rawClean := CleanText(raw.value);
    var parsed := ParseJsonArray(rawClean, loads);
    assert AttemptResult(first, loads) == Success(parsed);
    if !Usable(parsed) {
      var raw2 := CallGroq(client, RetryAttempt);
      if raw2.Failure? {
        assert Plan(key, first, second, loads) == Run(Errored(raw2.error), [FirstAttempt, RetryAttempt]);
        return [ErrorPrefix + FaultText(raw2.error, describe)];
      }
      var raw2Clean := CleanText(raw2.value);
      parsed := ParseJsonArray(raw2Clean, loads);
      assert AttemptResult(second, loads) == Success(parsed);
    }
    if Usable(parsed) {
      suggestion := parsed.value;
    } else {
      suggestion := [Placeholder];
    }
  }

  // ---------------------------------------------------------------------------
  // Properties of the control flow
  // ---------------------------------------------------------------------------

  /** Without a key, the reply is the key-not-found message and no call is made. */
  lemma NoKeyNoCalls(key: Option<string>, first: Response, second: Response, loads: string -> Option<JsonValue>,
                     describe: (Site, Kind) -> string)
    requires !HasKey(key)
    ensures Plan(key, first, second, loads).attempts == []
    ensures Reply(Plan(key, first, second, loads).verdict, describe) == [KeyMissingMessage]
  {
  }

  /** The retry happens exactly when the first attempt neither raised nor gave a usable list. */
  lemma RetryExactlyWhenUnusable(key: Option<string>, first: Response, second: Response, loads: string -> Option<JsonValue>)
    requires HasKey(key)
    ensures |Plan(key, first, second, loads).attempts| == 2 <==>
            (AttemptResult(first, loads).Success? && !Usable(AttemptResult(first, loads).value))
  {
  }

  /** A usable first list is the reply, verbatim, after one call. */
  lemma FirstListVerbatim(key: Option<string>, first: Response, second: Response, loads: string -> Option<JsonValue>,
                          items: seq<string>, describe: (Site, Kind) -> string)
    requires HasKey(key)
    requires AttemptResult(first, loads) == Success(Some(items)) && items != []
    ensures Plan(key, first, second, loads) == Run(Suggested(items), [FirstAttempt])
    ensures Reply(Plan(key, first, second, loads).verdict, describe) == items
  {
  }

  /** A first call that raises ends the request with one `"Error: …"` line and no retry. */
  lemma RaisedCallStops(key: Option<string>, message: string, second: Response, loads: string -> Option<JsonValue>,
                        describe: (Site, Kind) -> string)
    requires HasKey(key)
    ensures Plan(key, Raised(message), second, loads) == Run(Errored(ServiceError(message)), [FirstAttempt])
    ensures Reply(Plan(key, Raised(message), second, loads).verdict, describe) == [ErrorPrefix + message]
  {
  }

  /** A retry that raises ends the request with one `"Error: …"` line after two calls. */
  lemma RaisedRetryStops(key: Option<string>, first: Response, message: string, loads: string -> Option<JsonValue>)
    requires HasKey(key)
    requires AttemptResult(first, loads).Success? && !Usable(AttemptResult(first, loads).value)
    ensures Plan(key, first, Raised(message), loads) == Run(Errored(ServiceError(message)), [FirstAttempt, RetryAttempt])
  {
  }

  /** A first attempt with no usable list and a usable retry: two calls, and the retry's list. */
  lemma RetryRescues(key: Option<string>, first: Response, second: Response, loads: string -> Option<JsonValue>,
                     items: seq<string>)
    requires HasKey(key)
    requires AttemptResult(first, loads).Success? && !Usable(AttemptResult(first, loads).value)
    requires AttemptResult(second, loads) == Success(Some(items)) && items != []
    ensures Plan(key, first, second, loads) == Run(Suggested(items), [FirstAttempt, RetryAttempt])
  {
  }

  /** The placeholder is the reply exactly when both attempts returned text but no usable list. */
  lemma FallbackExactlyWhenBothUnusable(key: Option<string>, first: Response, second: Response,
                                        loads: string -> Option<JsonValue>)
    requires HasKey(key)
    ensures Plan(key, first, second, loads).verdict == Fallback <==>
            && AttemptResult(first, loads).Success? && !Usable(AttemptResult(first, loads).value)
            && AttemptResult(second, loads).Success? && !Usable(AttemptResult(second, loads).value)
  {
  }

  /** Every reply is a non-empty list; a suggested one holds only non-blank, stripped strings. */
  lemma ReplyWellFormed(key: Option<string>, first: Response, second: Response, loads: string -> Option<JsonValue>,
                        describe: (Site, Kind) -> string)
    ensures var run := Plan(key, first, second, loads);
            var reply := Reply(run.verdict, describe);
            && |reply| >= 1
            && (run.verdict.Suggested? ==> forall k :: 0 <= k < |reply| ==> IsSuggestion(reply[k]))
  {
  }

  // ---------------------------------------------------------------------------
  // A sample run
  // ---------------------------------------------------------------------------

  /** A 200 response whose first choice's content is `text`. */
  function ContentResponse(text: string): Response {
    Delivered(JObject(map["choices" := JArray([JObject(map["message" := JObject(map["content" := JString(text)])])])]))
  }

  /** `"garbage"` has nothing for `clean_text` to remove. */
  lemma GarbageIsClean()
    ensures CleanText("garbage") == "garbage"
  {
    var g := "garbage";
    assert NoTags(g) by {
      assert '<' !in g;
      NoTagsWithoutOpeners(g);
    }
    NoTagsNoThink(g);
    NoTagsFixpoint(g);
    StrippedFixpoint(g);
  }

  /** Text without any `<` has no tag. */
  lemma {:induction false} NoTagsWithoutOpeners(s: string)
    requires '<' !in s
    ensures NoTags(s)
    decreases |s|
  {
    if s != [] {
      assert s[0] in s;
      assert forall c :: c in s[1..] ==> c in s;
      NoTagsWithoutOpeners(s[1..]);
    }
  }

  /** The sample response yields its content, stripped. */
  lemma FetchContent(text: string)
    ensures Fetch(ContentResponse(text)) == Success(Strip(text))
  {
    var message := map["content" := JString(text)];
    var first := map["message" := JObject(message)];
    var top := map["choices" := JArray([JObject(first)])];
    assert [JObject(first)] + [] == [JObject(first)];
    ExtractsContent(top, first, [], message, text);
  }

  /** A service whose content never decodes gets two calls and the placeholder reply. */
  lemma UndecodableTwiceFallsBack(key: Option<string>, text: string, loads: string -> Option<JsonValue>)
    requires HasKey(key)
    requires loads(CleanText(Strip(text))) == None
    ensures Plan(key, ContentResponse(text), ContentResponse(text), loads) == Run(Fallback, [FirstAttempt, RetryAttempt])
  {
    FetchContent(text);
    assert AttemptResult(ContentResponse(text), loads) == Success(None);
  }

  /** The sample response's content survives fetching and cleaning unchanged. */
  lemma GarbageSurvives()
    ensures CleanText(Strip("garbage")) == "garbage"
  {
    StrippedFixpoint("garbage");
    GarbageIsClean();
  }

  /** A service that answers `"garbage"` twice gets two calls and the placeholder reply. */
  lemma GarbageTwiceFallsBack(key: Option<string>, loads: string -> Option<JsonValue>)
    requires HasKey(key)
    requires loads("garbage") == None
    ensures Plan(key, ContentResponse("garbage"), ContentResponse("garbage"), loads) == Run(Fallback, [FirstAttempt, RetryAttempt])
  {
    GarbageSurvives();
    UndecodableTwiceFallsBack(key, "garbage", loads);
  }
}
