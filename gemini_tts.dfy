/**
 * The `/api/gemini-tts` route. A request is validated, answered from the audio
 * cache when its key is present, and otherwise sent to the speech model: first
 * with the text wrapped in a Malayalam reading instruction, then, on an answer
 * without audio, once more with the plain text (and, after a silent rate limit
 * that turned into a plain missing-audio answer, a third time). Audio is cached;
 * every other ending is a typed error response.
 *
 * The upstream model is an oracle `(attempt, call) -> Reply`: any behaviour,
 * including one that changes from one attempt to the next, is one oracle.
 */
module GeminiTts {
  import opened Wrappers
  import opened Strings
  import opened ResponseCache

  const DefaultVoice := "Kore"
  /** The `finishReason` the model gives when it silently refuses for quota reasons. */
  const SilentRateLimitReason := "OTHER"
  const SampleRate := 24000
  const Channels := 1
  const RetryAfterMs := 5000
  const MaxCalls := 3

  const MethodNotAllowed := "Method not allowed"
  const MissingApiKey := "Missing GEMINI_API_KEY on server"
  const MissingText := "Missing text"
  const RateLimitMessage := "Gemini TTS rate limit reached. Please wait a few seconds and try again."
  const NoAudioMessage := "Gemini TTS returned no audio. The model may be temporarily unavailable."
  const InternalFailure := "Failed to generate speech"

  /** The incoming request: its method, and `text`/`voiceName` when they are strings. */
  datatype Request = Request(httpMethod: string, text: Option<string>, voiceName: Option<string>)

  /** `GEMINI_API_KEY` and `GOOGLE_API_KEY` from the environment. */
  datatype Env = Env(geminiApiKey: Option<string>, googleApiKey: Option<string>)

  /** The rate-limit headers of an upstream reply, passed through untouched. */
  datatype RateLimitInfo = RateLimitInfo(
    retryAfter: Option<string>, limitRequests: Option<string>, remainingRequests: Option<string>,
    limitTokens: Option<string>, remainingTokens: Option<string>)

  // The part of the generateContent JSON that the route reads. A missing field,
  // `null`, or a `parts` value that is not an array are all `None`.
  datatype InlineData = InlineData(data: Option<string>)
  datatype Part = Part(inlineData: Option<InlineData>)
  datatype Content = Content(parts: Option<seq<Option<Part>>>)
  datatype Candidate = Candidate(finishReason: Option<string>, content: Option<Content>)
  datatype GenerateResponse = GenerateResponse(candidates: Option<seq<Candidate>>)

  /** One request to the model: the prompt, the voice and the API key sent. */
  datatype Call = Call(prompt: string, voiceName: string, apiKey: string)

  /** What the network gave back: an exception (from `fetch`, `text()` or `json()`), or an
      HTTP reply whose `errorText` is read when it is not ok and whose JSON body when it is. */
  datatype Reply =
    | Threw(message: string)
    | HttpReply(status: int, errorText: string, body: GenerateResponse, rateLimitInfo: RateLimitInfo)

  /** The record `callGeminiTTS` returns, or the exception it lets through. */
  datatype CallResult =
    | Raised(message: string)
    | NotOk(status: int, errorText: string, rateLimitInfo: RateLimitInfo)
    | Answered(finishReason: Option<string>, audioPart: Option<Part>, rateLimitInfo: RateLimitInfo)

  /** The JSON (or forwarded text) the route answers with. */
  datatype Body =
    | ErrorMessage(error: string)
    | Audio(audio: Payload, fromCache: bool)
    | RateLimited(error: string, retryAfterMs: int, rateLimitInfo: RateLimitInfo)
    | NoAudio(error: string, finishReason: Option<string>, rateLimitInfo: RateLimitInfo)
    | Forwarded(text: string)
    | Failure(error: string, detail: string)

  datatype Response = Response(status: int, body: Body)

  /** A JavaScript string value used as a condition. */
  predicate Truthy(s: Option<string>) {
    s.Some? && s.value != ""
  }

  /** `p?.inlineData?.data` is truthy. */
  predicate HasAudio(p: Option<Part>) {
    p.Some? && p.value.inlineData.Some? && Truthy(p.value.inlineData.value.data)
  }

  /** `response.ok`. */
  predicate IsOk(status: int) {
    200 <= status <= 299
  }

  // ---------------------------------------------------------------------------
  // The end of callGeminiTTS: reading the reply

  /** The index `parts.find(p => p?.inlineData?.data)` stops at. */
  function FirstAudioIndex(parts: seq<Option<Part>>): (r: Option<nat>)
    ensures r.Some? ==> r.value < |parts| && HasAudio(parts[r.value])
    ensures r.Some? ==> forall j :: 0 <= j < r.value ==> !HasAudio(parts[j])
    ensures r.None? <==> forall j :: 0 <= j < |parts| ==> !HasAudio(parts[j])
    decreases |parts|
  {
    if parts == [] then None
    else if HasAudio(parts[0]) then Some(0)
    else
      match FirstAudioIndex(parts[1..])
      case None => None
      case Some(i) => Some(i + 1)
  }

  function FindAudioPart(parts: seq<Option<Part>>): Option<Part> {
    match FirstAudioIndex(parts)
    case Some(i) => parts[i]
    case None => None
  }

  function FirstCandidate(body: GenerateResponse): Option<Candidate> {
    if body.candidates.Some? && |body.candidates.value| > 0 then Some(body.candidates.value[0]) else None
  }

  function CandidateParts(candidate: Option<Candidate>): Option<seq<Option<Part>>> {
    if candidate.Some? && candidate.value.content.Some? then candidate.value.content.value.parts else None
  }

  /** What `callGeminiTTS` makes of the network's reply. */
  function Interpret(reply: Reply): CallResult {
    match reply
    case Threw(message) => Raised(message)
    case HttpReply(status, errorText, body, info) =>
      if !IsOk(status) then NotOk(status, errorText, info)
      else
        var candidate := FirstCandidate(body);
        var finishReason := if candidate.Some? then candidate.value.finishReason else None;
        var parts := CandidateParts(candidate);
        var audioPart := if parts.Some? then FindAudioPart(parts.value) else None;
        Answered(finishReason, audioPart, info)
  }

  /** `audioPart.inlineData.data`. */
  function AudioData(p: Part): string {
    match p.inlineData
    case Some(d) => d.data.GetOr("")
    case None => ""
  }

  /** An ok reply is read as: the first candidate's `finishReason` (null when missing),
      and as audio part the first part of that candidate with truthy inline data, or
      none when no part has it. A reply that is not ok keeps its status and text. */
  lemma InterpretReply(reply: Reply)
    ensures reply.Threw? ==> Interpret(reply) == Raised(reply.message)
    ensures reply.HttpReply? && !IsOk(reply.status) ==>
      Interpret(reply) == NotOk(reply.status, reply.errorText, reply.rateLimitInfo)
    ensures reply.HttpReply? && IsOk(reply.status) ==>
      var r := Interpret(reply);
      var candidate := FirstCandidate(reply.body);
      var parts := CandidateParts(candidate);
      && r.Answered? && r.rateLimitInfo == reply.rateLimitInfo
      && (r.finishReason.Some? <==> candidate.Some? && candidate.value.finishReason.Some?)
      && (candidate.Some? ==> r.finishReason == candidate.value.finishReason)
      && (r.audioPart.Some? <==>
            parts.Some? && exists j :: 0 <= j < |parts.value| && HasAudio(parts.value[j]))
      && (r.audioPart.Some? ==>
            exists j :: 0 <= j < |parts.value| && parts.value[j] == r.audioPart && HasAudio(r.audioPart)
              && forall k :: 0 <= k < j ==> !HasAudio(parts.value[k]))
  {
    if reply.HttpReply? && IsOk(reply.status) {
      var parts := CandidateParts(FirstCandidate(reply.body));
      if parts.Some? {
        var idx := FirstAudioIndex(parts.value);
        if idx.Some? {
          assert parts.value[idx.value] == Interpret(reply).audioPart;
        }
      }
    }
  }

  // ---------------------------------------------------------------------------
  // The retry policy as a state machine

  /** Which attempt is being made: the first (wrapped prompt), the retry after a silent
      rate limit, or the plain-text fallback after an answer without audio. */
  datatype Phase = Primary | RateLimitRetry | PlainRetry

  /** Attempts left after this one; every retry moves to a smaller rank. */
  function Rank(phase: Phase): nat {
    match phase
    case Primary => 2
    case RateLimitRetry => 1
    case PlainRetry => 0
  }

  function WrappedPrompt(text: string): string {
    "Read the following Malayalam text clearly: \"" + text + "\""
  }

  function PromptFor(phase: Phase, text: string): string {
    if phase == Primary then WrappedPrompt(text) else text
  }

  datatype Outcome = Synthesized(payload: Payload) | Refused(response: Response)

  datatype Step = Finish(outcome: Outcome) | Retry(next: Phase)

  /** `finishReason === "OTHER"` without audio. */
  predicate SilentlyLimited(r: CallResult) {
    r.Answered? && r.audioPart.None? && r.finishReason == Some(SilentRateLimitReason)
  }

  /** What the policy does with the result of an attempt made in `phase`: audio is a
      success, an exception is a 500, an HTTP error is forwarded, and an answer without
      audio is retried or is the end, by phase. */
  function Classify(phase: Phase, r: CallResult): (s: Step)
    ensures s.Retry? ==> Rank(s.next) < Rank(phase)
    ensures s.Retry? ==> (s.next == RateLimitRetry <==> phase == Primary && SilentlyLimited(r))
    ensures s.Retry? <==> r.Answered? && r.audioPart.None? && phase != PlainRetry
                          && !(phase == RateLimitRetry && SilentlyLimited(r))
  {
    match r
    case Raised(message) => Finish(Refused(Response(500, Failure(InternalFailure, message))))
    case NotOk(status, errorText, _) => Finish(Refused(Response(status, Forwarded(errorText))))
    case Answered(finishReason, audioPart, info) =>
      if audioPart.Some? then
        Finish(Synthesized(Payload(AudioData(audioPart.value), SampleRate, Channels)))
      else if phase == PlainRetry then
        Finish(Refused(Response(502, NoAudio(NoAudioMessage, finishReason, info))))
      else if SilentlyLimited(r) then
        if phase == Primary then Retry(RateLimitRetry)
        else
          assert phase == RateLimitRetry;
          Finish(Refused(Response(429, RateLimited(RateLimitMessage, RetryAfterMs, info))))
      else Retry(PlainRetry)
  }

  datatype Attempts = Attempts(outcome: Outcome, calls: seq<Call>)

  /** The attempts from `phase` on, after `calls` were made; attempt `i` gets
      `upstream(i, call)`. */
  function Run(phase: Phase, text: string, voiceName: string, apiKey: string,
               upstream: (nat, Call) -> Reply, calls: seq<Call>): (a: Attempts)
    ensures |calls| < |a.calls| <= |calls| + Rank(phase) + 1
    ensures a.calls[..|calls|] == calls
    decreases Rank(phase)
  {
    var call := Call(PromptFor(phase, text), voiceName, apiKey);
    var made := calls + [call];
    match Classify(phase, Interpret(upstream(|calls|, call)))
    case Finish(outcome) => Attempts(outcome, made)
    case Retry(next) =>
      var a := Run(next, text, voiceName, apiKey, upstream, made);
      assert a.calls[..|calls|] == a.calls[..|made|][..|calls|];
      a
  }

  // ---------------------------------------------------------------------------
  // The route

  /** `GEMINI_API_KEY || GOOGLE_API_KEY`, when truthy. */
  function ApiKey(env: Env): Option<string> {
    if Truthy(env.geminiApiKey) then env.geminiApiKey
    else if Truthy(env.googleApiKey) then env.googleApiKey
    else None
  }

  function TextOf(req: Request): string {
    req.text.GetOr("")
  }

  function VoiceOf(req: Request): string {
    req.voiceName.GetOr(DefaultVoice)
  }

  function KeyOf(req: Request): Key {
    CacheKey(TextOf(req), VoiceOf(req))
  }

  /** A request that passes validation and so reaches the cache. */
  predicate Admitted(req: Request, env: Env) {
    req.httpMethod == "POST" && ApiKey(env).Some? && JsTrim(TextOf(req)) != ""
  }

  datatype Handled = Handled(response: Response, calls: seq<Call>, cache: CacheState)

  /** The response, the upstream calls made, and the cache afterwards. */
  function Respond(cache: CacheState, req: Request, env: Env, upstream: (nat, Call) -> Reply): Handled {
    if req.httpMethod != "POST" then
      Handled(Response(405, ErrorMessage(MethodNotAllowed)), [], cache)
    else if ApiKey(env).None? then
      Handled(Response(500, ErrorMessage(MissingApiKey)), [], cache)
    else if JsTrim(TextOf(req)) == "" then
      Handled(Response(400, ErrorMessage(MissingText)), [], cache)
    else
      var key := KeyOf(req);
      var looked := Lookup(cache, key);
      if looked.0.Some? then
        Handled(Response(200, Audio(looked.0.value, true)), [], looked.1)
      else
        Conclude(looked.1, key, Run(Primary, TextOf(req), VoiceOf(req), ApiKey(env).value, upstream, []))
  }

  /** After a miss: audio is cached under `key` and returned, anything else is returned. */
  function Conclude(cache: CacheState, key: Key, a: Attempts): Handled {
    match a.outcome
    case Synthesized(p) => Handled(Response(200, Audio(p, false)), a.calls, Insert(cache, key, p))
    case Refused(r) => Handled(r, a.calls, cache)
  }

  // ---------------------------------------------------------------------------
  // Properties of the route

  /** Anything but POST is a 405, with no call and no cache access. */
  lemma NonPostRejected(c: CacheState, req: Request, env: Env, upstream: (nat, Call) -> Reply)
    requires req.httpMethod != "POST"
    ensures Respond(c, req, env, upstream) == Handled(Response(405, ErrorMessage(MethodNotAllowed)), [], c)
  {
  }

  /** For a POST with an API key configured, a text that is missing, not a string, or
      blank after trimming is a 400 "Missing text", with no call and no cache access.
      (Without a key the route has already answered 500.) */
  lemma BlankTextRejected(c: CacheState, req: Request, env: Env, upstream: (nat, Call) -> Reply)
    requires req.httpMethod == "POST" && ApiKey(env).Some?
    requires req.text.None? || AllSpace(req.text.value, JsWhitespace)
    ensures Respond(c, req, env, upstream) == Handled(Response(400, ErrorMessage(MissingText)), [], c)
  {
    if req.text.Some? {
      var t := req.text.value;
      StripIgnoresSurroundingSpace(t, [], [], JsWhitespace);
      assert t + [] + [] == t;
    }
  }

  /** A POST with neither `GEMINI_API_KEY` nor `GOOGLE_API_KEY` set to a non-empty value
      is a 500, with no call and no cache access, whatever the body holds. */
  lemma MissingKeyRejected(c: CacheState, req: Request, env: Env, upstream: (nat, Call) -> Reply)
    requires req.httpMethod == "POST" && !Truthy(env.geminiApiKey) && !Truthy(env.googleApiKey)
    ensures Respond(c, req, env, upstream) == Handled(Response(500, ErrorMessage(MissingApiKey)), [], c)
  {
  }

  /** Every upstream call carries the request's voice (`Kore` when it is not a string) and
      the key from `GEMINI_API_KEY`, or from `GOOGLE_API_KEY` when the first is unset or
      empty; the first call sends the wrapped text and any later one the text itself. */
  lemma CallsCarryRequest(c: CacheState, req: Request, env: Env, upstream: (nat, Call) -> Reply)
    ensures var h := Respond(c, req, env, upstream);
      h.calls != [] ==>
        && Admitted(req, env) && req.text.Some?
        && forall i :: 0 <= i < |h.calls| ==>
             && h.calls[i].voiceName == (if req.voiceName.Some? then req.voiceName.value else DefaultVoice)
             && h.calls[i].apiKey ==
                  (if Truthy(env.geminiApiKey) then env.geminiApiKey.value else env.googleApiKey.value)
             && h.calls[i].prompt == (if i == 0 then WrappedPrompt(req.text.value) else req.text.value)
  {
    RespondMiss(c, req, env, upstream);
    if Admitted(req, env) && KeyOf(req) !in c.entries {
      RunCalls(Primary, TextOf(req), VoiceOf(req), ApiKey(env).value, upstream, []);
    }
  }

  /** A cache hit is a 200 with the stored payload and `fromCache: true`; nothing is
      called, and the only change is the key's promotion. */
  lemma CacheHitServed(c: CacheState, req: Request, env: Env, upstream: (nat, Call) -> Reply)
    requires ValidCache(c) && Admitted(req, env) && KeyOf(req) in c.entries
    ensures var h := Respond(c, req, env, upstream);
      && h.response == Response(200, Audio(c.entries[KeyOf(req)], true))
      && h.calls == []
      && h.cache == Lookup(c, KeyOf(req)).1
      && h.cache.entries == c.entries
  {
    LookupHit(c, KeyOf(req));
  }

  /** A request that passes validation and misses the cache is answered by the
      attempts, and only they touch the upstream. */
  lemma RespondMiss(c: CacheState, req: Request, env: Env, upstream: (nat, Call) -> Reply)
    ensures var h := Respond(c, req, env, upstream);
      (Admitted(req, env) && KeyOf(req) !in c.entries) || h.calls == []
    ensures Admitted(req, env) && KeyOf(req) !in c.entries ==>
      Respond(c, req, env, upstream)
        == Conclude(c, KeyOf(req), Run(Primary, TextOf(req), VoiceOf(req), ApiKey(env).value, upstream, []))
  {
  }

  /** A response that is the route's own 429, `{error, retryAfterMs, rateLimitInfo}`. */
  predicate RateLimitedOutcome(o: Outcome) {
    o.Refused? && o.response.body.RateLimited?
  }

  /** How the result of the last attempt determines the outcome: audio is the
      synthesised payload, an HTTP error is forwarded, an exception is a 500, an answer
      without audio is either the route's 429 (only when it is a silent rate limit) or
      the 502 "no audio" body, and no refusal carries a success status or audio. */
  predicate Decides(r: CallResult, o: Outcome) {
    && (o.Synthesized? <==> r.Answered? && r.audioPart.Some?)
    && (o.Synthesized? ==> o.payload == Payload(AudioData(r.audioPart.value), SampleRate, Channels))
    && (r.NotOk? ==> o == Refused(Response(r.status, Forwarded(r.errorText))))
    && (r.Raised? ==> o == Refused(Response(500, Failure(InternalFailure, r.message))))
    && (RateLimitedOutcome(o) ==>
          SilentlyLimited(r)
          && o == Refused(Response(429, RateLimited(RateLimitMessage, RetryAfterMs, r.rateLimitInfo))))
    && (r.Answered? && r.audioPart.None? && !RateLimitedOutcome(o) ==>
          o == Refused(Response(502, NoAudio(NoAudioMessage, r.finishReason, r.rateLimitInfo))))
    && (o.Refused? ==> !IsOk(o.response.status) && !o.response.body.Audio?)
  }

  /** Every attempt after the first is made with the plain text because the one before
      answered without audio. */
  lemma {:induction false} RunCalls(phase: Phase, text: string, voiceName: string, apiKey: string,
                                    upstream: (nat, Call) -> Reply, calls: seq<Call>)
    ensures var a := Run(phase, text, voiceName, apiKey, upstream, calls);
      && a.calls[|calls|] == Call(PromptFor(phase, text), voiceName, apiKey)
      && (forall i :: |calls| < i < |a.calls| ==> a.calls[i] == Call(text, voiceName, apiKey))
      && (forall i :: |calls| <= i < |a.calls| - 1 ==>
            var r := Interpret(upstream(i, a.calls[i]));
            r.Answered? && r.audioPart.None?)
    decreases Rank(phase)
  {
    var call := Call(PromptFor(phase, text), voiceName, apiKey);
    var made := calls + [call];
    var a := Run(phase, text, voiceName, apiKey, upstream, calls);
    var step := Classify(phase, Interpret(upstream(|calls|, call)));
    if step.Retry? {
      RunCalls(step.next, text, voiceName, apiKey, upstream, made);
      assert a == Run(step.next, text, voiceName, apiKey, upstream, made);
      assert a.calls[|calls|] == a.calls[..|made|][|calls|];
    }
  }

  /** The last attempt decides the outcome. */
  lemma {:induction false} RunOutcome(phase: Phase, text: string, voiceName: string, apiKey: string,
                                      upstream: (nat, Call) -> Reply, calls: seq<Call>)
    ensures var a := Run(phase, text, voiceName, apiKey, upstream, calls);
      var n := |a.calls| - 1;
      Decides(Interpret(upstream(n, a.calls[n])), a.outcome)
    decreases Rank(phase)
  {
    var call := Call(PromptFor(phase, text), voiceName, apiKey);
    var made := calls + [call];
    var r := Interpret(upstream(|calls|, call));
    var step := Classify(phase, r);
    if step.Retry? {
      RunOutcome(step.next, text, voiceName, apiKey, upstream, made);
      assert Run(phase, text, voiceName, apiKey, upstream, calls) == Run(step.next, text, voiceName, apiKey, upstream, made);
    } else {
      FinishDecides(phase, upstream(|calls|, call));
      assert Run(phase, text, voiceName, apiKey, upstream, calls) == Attempts(step.outcome, made);
    }
  }

  /** An attempt that ends the run decides its outcome. */
  lemma FinishDecides(phase: Phase, reply: Reply)
    requires Classify(phase, Interpret(reply)).Finish?
    ensures Decides(Interpret(reply), Classify(phase, Interpret(reply)).outcome)
  {
    var r := Interpret(reply);
    if r.Answered? && r.audioPart.None? {
      if phase == PlainRetry {
        assert Classify(phase, r).outcome == Refused(Response(502, NoAudio(NoAudioMessage, r.finishReason, r.rateLimitInfo)));
      } else {
        assert phase == RateLimitRetry && SilentlyLimited(r);
      }
    }
  }

  /** A handled request makes at most three upstream calls. */
  lemma AtMostThreeCalls(c: CacheState, req: Request, env: Env, upstream: (nat, Call) -> Reply)
    ensures |Respond(c, req, env, upstream).calls| <= MaxCalls
  {
  }

  /** An upstream that keeps answering with no audio and `finishReason "OTHER"` gets
      exactly two calls, wrapped prompt first and plain text second, and the route
      answers 429 with `retryAfterMs: 5000`; the cache is left as it was. */
  lemma PersistentSilentRateLimit(c: CacheState, req: Request, env: Env, upstream: (nat, Call) -> Reply)
    requires Admitted(req, env) && KeyOf(req) !in c.entries
    requires forall i, call :: SilentlyLimited(Interpret(upstream(i, call)))
    ensures var h := Respond(c, req, env, upstream);
      var key := ApiKey(env).value;
      && h.calls == [Call(WrappedPrompt(TextOf(req)), VoiceOf(req), key), Call(TextOf(req), VoiceOf(req), key)]
      && h.response.status == 429
      && h.response.body.RateLimited? && h.response.body.retryAfterMs == RetryAfterMs
      && h.cache == c
  {
    var key := ApiKey(env).value;
    var c1 := Call(WrappedPrompt(TextOf(req)), VoiceOf(req), key);
    var c2 := Call(TextOf(req), VoiceOf(req), key);
    assert SilentlyLimited(Interpret(upstream(0, c1)));
    assert SilentlyLimited(Interpret(upstream(1, c2)));
    assert Run(RateLimitRetry, TextOf(req), VoiceOf(req), key, upstream, [c1]).calls == [c1, c2];
  }

  /** An upstream that keeps answering with no audio for another reason gets exactly
      two calls, wrapped then plain, and the route answers 502; the cache is unchanged. */
  lemma PersistentNoAudio(c: CacheState, req: Request, env: Env, upstream: (nat, Call) -> Reply)
    requires Admitted(req, env) && KeyOf(req) !in c.entries
    requires forall i, call :: var r := Interpret(upstream(i, call));
      r.Answered? && r.audioPart.None? && !SilentlyLimited(r)
    ensures var h := Respond(c, req, env, upstream);
      var key := ApiKey(env).value;
      && h.calls == [Call(WrappedPrompt(TextOf(req)), VoiceOf(req), key), Call(TextOf(req), VoiceOf(req), key)]
      && h.response.status == 502 && h.response.body.NoAudio?
      && h.cache == c
  {
    var key := ApiKey(env).value;
    var c1 := Call(WrappedPrompt(TextOf(req)), VoiceOf(req), key);
    var c2 := Call(TextOf(req), VoiceOf(req), key);
    var r1 := Interpret(upstream(0, c1));
    var r2 := Interpret(upstream(1, c2));
    assert r1.Answered? && r1.audioPart.None? && !SilentlyLimited(r1);
    assert r2.Answered? && r2.audioPart.None? && !SilentlyLimited(r2);
    assert Run(PlainRetry, TextOf(req), VoiceOf(req), key, upstream, [c1]).calls == [c1, c2];
  }

  /** On a miss whose last upstream answer has no audio, the route answers the 502
      "no audio" body with that answer's `finishReason` and rate-limit headers, unless it
      is the route's own 429; the cache is unchanged either way. */
  lemma NoAudioIsBadGateway(c: CacheState, req: Request, env: Env, upstream: (nat, Call) -> Reply)
    requires Admitted(req, env) && KeyOf(req) !in c.entries
    ensures var h := Respond(c, req, env, upstream);
      var n := |h.calls| - 1;
      var r := Interpret(upstream(n, h.calls[n]));
      r.Answered? && r.audioPart.None? ==>
        && h.cache == c
        && (!h.response.body.RateLimited? ==>
              h.response == Response(502, NoAudio(NoAudioMessage, r.finishReason, r.rateLimitInfo)))
  {
    var a := Run(Primary, TextOf(req), VoiceOf(req), ApiKey(env).value, upstream, []);
    RespondMiss(c, req, env, upstream);
    assert Respond(c, req, env, upstream) == Conclude(c, KeyOf(req), a);
    RunOutcome(Primary, TextOf(req), VoiceOf(req), ApiKey(env).value, upstream, []);
  }

  /** The three-call path: a silent rate limit, then an answer without audio for another
      reason, then no audio again. The third call is the plain text once more, and the
      route answers the 502 "no audio" body of that third answer, cache unchanged. */
  lemma SilentLimitThenNoAudio(c: CacheState, req: Request, env: Env, upstream: (nat, Call) -> Reply)
    requires Admitted(req, env) && KeyOf(req) !in c.entries
    requires var key := ApiKey(env).value;
      var r2 := Interpret(upstream(1, Call(TextOf(req), VoiceOf(req), key)));
      var r3 := Interpret(upstream(2, Call(TextOf(req), VoiceOf(req), key)));
      && SilentlyLimited(Interpret(upstream(0, Call(WrappedPrompt(TextOf(req)), VoiceOf(req), key))))
      && r2.Answered? && r2.audioPart.None? && !SilentlyLimited(r2)
      && r3.Answered? && r3.audioPart.None?
    ensures var h := Respond(c, req, env, upstream);
      var key := ApiKey(env).value;
      var c1 := Call(WrappedPrompt(TextOf(req)), VoiceOf(req), key);
      var c2 := Call(TextOf(req), VoiceOf(req), key);
      var r3 := Interpret(upstream(2, c2));
      && h.calls == [c1, c2, c2]
      && h.response == Response(502, NoAudio(NoAudioMessage, r3.finishReason, r3.rateLimitInfo))
      && h.cache == c
  {
    var text, voice, key := TextOf(req), VoiceOf(req), ApiKey(env).value;
    var c1 := Call(WrappedPrompt(text), voice, key);
    var c2 := Call(text, voice, key);
    RespondMiss(c, req, env, upstream);
    assert Run(Primary, text, voice, key, upstream, []) == Run(RateLimitRetry, text, voice, key, upstream, [c1]);
    assert Run(RateLimitRetry, text, voice, key, upstream, [c1]) == Run(PlainRetry, text, voice, key, upstream, [c1, c2]);
  }

  /** The plain-text fallback never ends in the route's own 429. */
  lemma PlainRetryNotRateLimited(text: string, voiceName: string, apiKey: string,
                                 upstream: (nat, Call) -> Reply, calls: seq<Call>)
    ensures !RateLimitedOutcome(Run(PlainRetry, text, voiceName, apiKey, upstream, calls).outcome)
  {
  }

  /** After a silent rate limit, the retry ends in the route's own 429 exactly when it is
      silently limited too. */
  lemma RateLimitRetryOutcome(text: string, voiceName: string, apiKey: string,
                              upstream: (nat, Call) -> Reply, calls: seq<Call>)
    ensures var r := Interpret(upstream(|calls|, Call(text, voiceName, apiKey)));
      var a := Run(RateLimitRetry, text, voiceName, apiKey, upstream, calls);
      && (RateLimitedOutcome(a.outcome) <==> SilentlyLimited(r))
      && (SilentlyLimited(r) ==> a.calls == calls + [Call(text, voiceName, apiKey)])
  {
    var call := Call(text, voiceName, apiKey);
    var step := Classify(RateLimitRetry, Interpret(upstream(|calls|, call)));
    if step.Retry? {
      PlainRetryNotRateLimited(text, voiceName, apiKey, upstream, calls + [call]);
    }
  }

  /** On a miss, the route answers with its own 429 exactly when the first two upstream
      answers are both silent rate limits; it then made those two calls and nothing was
      cached. */
  lemma RateLimitedExactly(c: CacheState, req: Request, env: Env, upstream: (nat, Call) -> Reply)
    requires Admitted(req, env) && KeyOf(req) !in c.entries
    ensures var h := Respond(c, req, env, upstream);
      var key := ApiKey(env).value;
      var c1 := Call(WrappedPrompt(TextOf(req)), VoiceOf(req), key);
      var c2 := Call(TextOf(req), VoiceOf(req), key);
      var silent := SilentlyLimited(Interpret(upstream(0, c1))) && SilentlyLimited(Interpret(upstream(1, c2)));
      && (h.response.body.RateLimited? <==> silent)
      && (silent ==> h.response.status == 429 && h.calls == [c1, c2] && h.cache == c)
  {
    var text, voice, key := TextOf(req), VoiceOf(req), ApiKey(env).value;
    var c1 := Call(WrappedPrompt(text), voice, key);
    RespondMiss(c, req, env, upstream);
    var a := Run(Primary, text, voice, key, upstream, []);
    assert Respond(c, req, env, upstream) == Conclude(c, KeyOf(req), a);
    var step := Classify(Primary, Interpret(upstream(0, c1)));
    if step.Retry? {
      assert a == Run(step.next, text, voice, key, upstream, [c1]);
      if step.next == RateLimitRetry {
        RateLimitRetryOutcome(text, voice, key, upstream, [c1]);
      } else {
        PlainRetryNotRateLimited(text, voice, key, upstream, [c1]);
      }
    }
  }

  /** A 429 status alone does not identify the route's own rate-limit answer: an upstream
      HTTP 429 on the first call is forwarded with its status and error text. */
  lemma UpstreamTooManyRequestsForwarded(c: CacheState, req: Request, env: Env, upstream: (nat, Call) -> Reply)
    requires Admitted(req, env) && KeyOf(req) !in c.entries
    requires var r := Interpret(upstream(0, Call(WrappedPrompt(TextOf(req)), VoiceOf(req), ApiKey(env).value)));
      r.NotOk? && r.status == 429
    ensures var h := Respond(c, req, env, upstream);
      var r := Interpret(upstream(0, Call(WrappedPrompt(TextOf(req)), VoiceOf(req), ApiKey(env).value)));
      && h.response == Response(429, Forwarded(r.errorText))
      && !h.response.body.RateLimited?
  {
    RespondMiss(c, req, env, upstream);
  }

  /** A third call happens only after a silent rate limit whose retry answered without
      audio for another reason. */
  lemma ThirdCallOnlyAfterRateLimit(c: CacheState, req: Request, env: Env, upstream: (nat, Call) -> Reply)
    requires |Respond(c, req, env, upstream).calls| == 3
    ensures var h := Respond(c, req, env, upstream);
      && SilentlyLimited(Interpret(upstream(0, h.calls[0])))
      && var r := Interpret(upstream(1, h.calls[1]));
         r.Answered? && r.audioPart.None? && !SilentlyLimited(r)
  {
    RespondMiss(c, req, env, upstream);
    ThirdAttempt(TextOf(req), VoiceOf(req), ApiKey(env).value, upstream);
  }

  lemma ThirdAttempt(text: string, voice: string, key: string, upstream: (nat, Call) -> Reply)
    requires |Run(Primary, text, voice, key, upstream, []).calls| == 3
    ensures var a := Run(Primary, text, voice, key, upstream, []);
      && SilentlyLimited(Interpret(upstream(0, a.calls[0])))
      && var r := Interpret(upstream(1, a.calls[1]));
         r.Answered? && r.audioPart.None? && !SilentlyLimited(r)
  {
    var c1 := Call(WrappedPrompt(text), voice, key);
    var c2 := Call(text, voice, key);
    var a := Run(Primary, text, voice, key, upstream, []);
    RunCalls(Primary, text, voice, key, upstream, []);
    var s1 := Classify(Primary, Interpret(upstream(0, c1)));
    assert s1.Retry?;
    assert a == Run(s1.next, text, voice, key, upstream, [c1]);
    assert s1.next == RateLimitRetry;
    var s2 := Classify(RateLimitRetry, Interpret(upstream(1, c2)));
    assert s2.Retry?;
  }

  /** Only the last upstream call can be answered with an HTTP error, and then that
      status and body are forwarded as they are. */
  lemma HardErrorForwarded(c: CacheState, req: Request, env: Env, upstream: (nat, Call) -> Reply, i: nat)
    requires var h := Respond(c, req, env, upstream);
      i < |h.calls| && Interpret(upstream(i, h.calls[i])).NotOk?
    ensures var h := Respond(c, req, env, upstream);
      var r := Interpret(upstream(i, h.calls[i]));
      && i == |h.calls| - 1
      && h.response == Response(r.status, Forwarded(r.errorText))
      && h.cache == Lookup(c, KeyOf(req)).1
  {
    var text, voice, key := TextOf(req), VoiceOf(req), ApiKey(env).value;
    RunCalls(Primary, text, voice, key, upstream, []);
    RunOutcome(Primary, text, voice, key, upstream, []);
  }

  /** The cache is written only when the last attempt gave audio: then the response is
      a 200 with `fromCache: false` carrying `{data, sampleRate: 24000, channels: 1}`, and
      the payload is what `cacheSet` stored. Every other miss leaves the cache as it was. */
  lemma CacheWrittenOnlyOnAudio(c: CacheState, req: Request, env: Env, upstream: (nat, Call) -> Reply)
    requires Admitted(req, env) && KeyOf(req) !in c.entries
    ensures var h := Respond(c, req, env, upstream);
      var last := Interpret(upstream(|h.calls| - 1, h.calls[|h.calls| - 1]));
      && (h.response.body.Audio? ==>
            && h.response.status == 200 && !h.response.body.fromCache
            && h.response.body.audio.sampleRate == SampleRate && h.response.body.audio.channels == Channels
            && last.Answered? && last.audioPart.Some?
            && h.response.body.audio.data == AudioData(last.audioPart.value)
            && h.cache == Insert(c, KeyOf(req), h.response.body.audio))
      && (!h.response.body.Audio? ==> h.cache == c)
  {
    var text, voice, key := TextOf(req), VoiceOf(req), ApiKey(env).value;
    RespondMiss(c, req, env, upstream);
    RunOutcome(Primary, text, voice, key, upstream, []);
  }

  /** A success status is given exactly when audio is returned: a forwarded upstream
      error is never 2xx. */
  lemma SuccessMeansAudio(c: CacheState, req: Request, env: Env, upstream: (nat, Call) -> Reply)
    ensures var h := Respond(c, req, env, upstream);
      IsOk(h.response.status) <==> h.response.body.Audio?
  {
    var h := Respond(c, req, env, upstream);
    if Admitted(req, env) && Lookup(c, KeyOf(req)).0.None? {
      var text, voice, key := TextOf(req), VoiceOf(req), ApiKey(env).value;
      RunOutcome(Primary, text, voice, key, upstream, []);
    }
  }

  /** The route keeps the cache's invariant. */
  lemma RespondKeepsCacheValid(c: CacheState, req: Request, env: Env, upstream: (nat, Call) -> Reply)
    requires ValidCache(c)
    ensures ValidCache(Respond(c, req, env, upstream).cache)
  {
    if Admitted(req, env) {
      var key := KeyOf(req);
      if key in c.entries {
        LookupHit(c, key);
      } else {
        var a := Run(Primary, TextOf(req), VoiceOf(req), ApiKey(env).value, upstream, []);
        if a.outcome.Synthesized? {
          InsertValid(c, key, a.outcome.payload);
        }
      }
    }
  }

  /** Whenever audio is returned, hit or miss, the cache afterwards is valid and holds
      that audio under the request's key. */
  lemma AudioIsCached(c: CacheState, req: Request, env: Env, upstream: (nat, Call) -> Reply)
    requires ValidCache(c)
    requires Respond(c, req, env, upstream).response.body.Audio?
    ensures var h := Respond(c, req, env, upstream);
      && Admitted(req, env) && ValidCache(h.cache)
      && KeyOf(req) in h.cache.entries && h.cache.entries[KeyOf(req)] == h.response.body.audio
  {
    var h := Respond(c, req, env, upstream);
    assert Admitted(req, env);
    var key := KeyOf(req);
    if key in c.entries {
      CacheHitServed(c, req, env, upstream);
      LookupHit(c, key);
    } else {
      RespondMiss(c, req, env, upstream);
      var a := Run(Primary, TextOf(req), VoiceOf(req), ApiKey(env).value, upstream, []);
      assert h == Conclude(c, key, a);
      assert a.outcome.Synthesized?;
      InsertValid(c, key, a.outcome.payload);
    }
  }

  /** After audio is returned, the same request is served from the cache with the same
      payload and no upstream call, whatever the upstream would answer. */
  lemma RepeatServedFromCache(c: CacheState, req: Request, env: Env,
                              first: (nat, Call) -> Reply, second: (nat, Call) -> Reply)
    requires ValidCache(c)
    requires Respond(c, req, env, first).response.body.Audio?
    ensures var h1 := Respond(c, req, env, first);
      var h2 := Respond(h1.cache, req, env, second);
      && h2.response == Response(200, Audio(h1.response.body.audio, true))
      && h2.calls == []
  {
    AudioIsCached(c, req, env, first);
    CacheHitServed(Respond(c, req, env, first).cache, req, env, second);
  }

  // ---------------------------------------------------------------------------
  // The route as the source runs it: one attempt after another, reassigning `result`

  /** `callGeminiTTS`: one request to the model, made as attempt `attempt`. */
  method CallGeminiTts(upstream: (nat, Call) -> Reply, attempt: nat, promptText: string,
                       voiceName: string, apiKey: string)
    returns (result: CallResult)
    ensures result == Interpret(upstream(attempt, Call(promptText, voiceName, apiKey)))
  {
    var reply := upstream(attempt, Call(promptText, voiceName, apiKey));
    match reply
    case Threw(message) =>
      result := Raised(message);
    case HttpReply(status, errorText, body, rateLimitInfo) =>
      if !IsOk(status) {
        return NotOk(status, errorText, rateLimitInfo);
      }
      var candidate := FirstCandidate(body);
      var finishReason := if candidate.Some? then candidate.value.finishReason else None;
      var parts := CandidateParts(candidate);
      var audioPart := if parts.Some? then FindAudioPart(parts.value) else None;
      result := Answered(finishReason, audioPart, rateLimitInfo);
  }

  /** The route handler. `cache` is the process-wide `audioCache`. */
  method Handler(cache: AudioCache, req: Request, env: Env, upstream: (nat, Call) -> Reply)
    returns (response: Response, calls: seq<Call>)
    requires cache.Valid()
    modifies cache
    ensures cache.Valid()
    ensures Respond(old(cache.State()), req, env, upstream) == Handled(response, calls, cache.State())
  {
    calls := [];
    if req.httpMethod != "POST" {
      return Response(405, ErrorMessage(MethodNotAllowed)), calls;
    }
    var apiKey := ApiKey(env);
    if apiKey.None? {
      return Response(500, ErrorMessage(MissingApiKey)), calls;
    }
    var text := req.text.GetOr("");
    var voiceName := req.voiceName.GetOr(DefaultVoice);
    if JsTrim(text) == "" {
      return Response(400, ErrorMessage(MissingText)), calls;
    }

    // 1. cache hit: no upstream call
    var cacheKey := CacheKey(text, voiceName);
    var cached := cache.Get(cacheKey);
    if cached.Some? {
      return Response(200, Audio(cached.value, true)), calls;
    }
    RespondMiss(old(cache.State()), req, env, upstream);
    response, calls := Synthesize(cache, cacheKey, text, voiceName, apiKey.value, upstream);
  }

  /** Steps 2-6 of the `try` block: up to three attempts, ending in the response that
      refuses the request or in the audio payload to cache. */
  method AttemptChain(text: string, voiceName: string, apiKey: string, upstream: (nat, Call) -> Reply)
    returns (outcome: Outcome, calls: seq<Call>)
    ensures Attempts(outcome, calls) == Run(Primary, text, voiceName, apiKey, upstream, [])
  {
    ghost var run := Run(Primary, text, voiceName, apiKey, upstream, []);

    // 2. first attempt, with the wrapped prompt
    var attempt: nat := 0;
    var result := CallGeminiTts(upstream, attempt, WrappedPrompt(text), voiceName, apiKey);
    calls, attempt := [Call(WrappedPrompt(text), voiceName, apiKey)], attempt + 1;
    ghost var step := Classify(Primary, result);
    if step.Retry? {
      run := Run(step.next, text, voiceName, apiKey, upstream, calls);
    }
    if result.Raised? {
      return Refused(Response(500, Failure(InternalFailure, result.message))), calls;
    }
    // 3. HTTP error: forward it
    if result.NotOk? {
      return Refused(Response(result.status, Forwarded(result.errorText))), calls;
    }

    // 4. silent rate limit: one retry with the plain text
    if result.audioPart.None? && result.finishReason == Some(SilentRateLimitReason) {
      result := CallGeminiTts(upstream, attempt, text, voiceName, apiKey);
      calls, attempt := calls + [Call(text, voiceName, apiKey)], attempt + 1;
      step := Classify(RateLimitRetry, result);
      if step.Retry? {
        run := Run(step.next, text, voiceName, apiKey, upstream, calls);
      }
      if result.Raised? {
        return Refused(Response(500, Failure(InternalFailure, result.message))), calls;
      }
      if result.NotOk? {
        return Refused(Response(result.status, Forwarded(result.errorText))), calls;
      }
      if result.audioPart.None? && result.finishReason == Some(SilentRateLimitReason) {
        return Refused(Response(429, RateLimited(RateLimitMessage, RetryAfterMs, result.rateLimitInfo))), calls;
      }
    }

    // 5. still no audio: one more try with the plain text
    if result.audioPart.None? {
      result := CallGeminiTts(upstream, attempt, text, voiceName, apiKey);
      calls, attempt := calls + [Call(text, voiceName, apiKey)], attempt + 1;
      if result.Raised? {
        return Refused(Response(500, Failure(InternalFailure, result.message))), calls;
      }
      if result.NotOk? {
        return Refused(Response(result.status, Forwarded(result.errorText))), calls;
      }
    }

    // 6. no audio after all attempts
    if result.audioPart.None? {
      return Refused(Response(502, NoAudio(NoAudioMessage, result.finishReason, result.rateLimitInfo))), calls;
    }

    outcome := Synthesized(Payload(AudioData(result.audioPart.value), SampleRate, Channels));
  }

  /** The `try` block of the handler: the attempts, then caching the audio. */
  method Synthesize(cache: AudioCache, cacheKey: Key, text: string, voiceName: string, apiKey: string,
                    upstream: (nat, Call) -> Reply)
    returns (response: Response, calls: seq<Call>)
    requires cache.Valid()
    modifies cache
    ensures cache.Valid()
    ensures Conclude(old(cache.State()), cacheKey, Run(Primary, text, voiceName, apiKey, upstream, []))
            == Handled(response, calls, cache.State())
  {
    var outcome;
    outcome, calls := AttemptChain(text, voiceName, apiKey, upstream);
    match outcome
    case Refused(r) =>
      response := r;
    case Synthesized(payload) =>
      // 7. success: cache and return
      cache.Set(cacheKey, payload);
      response := Response(200, Audio(payload, false));
  }

}
