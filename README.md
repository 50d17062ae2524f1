# GestureMate: text-to-speech route, sign-to-sentence engine and browser helpers

GestureMate turns Malayalam sign-language gestures into a sentence and reads text aloud.
This project models three of its parts in Dafny and proves properties of them.

- **The text-to-speech route**, `pages/api/gemini-tts.js`.
  - It validates a POST request.
  - It serves repeated texts from an in-memory cache of at most 50 audio payloads.
  - The cache is ordered by recency: a hit moves the key to the end, and an insert into a full cache evicts the oldest key.
  - On a miss it calls the Gemini text-to-speech model up to three times. A silent rate limit (`finishReason "OTHER"`) gets one plain-text retry and then a 429. A missing audio part gets one plain-text retry and then a 502. An HTTP error is forwarded.
  - Audio is cached and returned.

  Modules: `ResponseCache` (the cache, as functions on an abstract `Map` and as the class `AudioCache`), `GeminiTts` (the reply extraction, the retry policy as a function `Run`, and the route as the function `Respond`), and the methods `Handler`, `Synthesize`, `AttemptChain` and `CallGeminiTts`, which follow the source step by step on an `AudioCache`.
- **The sign-to-sentence engine**, `test_live_core.py`.
  - `load_labels` parses `index,label` lines.
  - `GestureMateEngine` keeps a five-entry history of confident predictions and the most confident plain letter seen.
  - From three entries on, it commits when the most frequent entry of the history (not necessarily a majority) is `NEXT` (append the best letter) or `SPACE` (append a space).

  Module `SignEngine`: the specification functions `HandStep`/`Hands`/`Frame` and the class `GestureMateEngine`, whose methods are proved equal to them.
- **The browser helpers**, `pages/sign-recognition.js`:
  - the 44-byte PCM WAVE header written with `DataView` in front of the decoded audio bytes;
  - backspace by code point;
  - the speech-recognition transcript join;
  - the wait shown after a 429.

  Module `SignClient`.

Shared modules: `Wrappers` (`Option`) and `Strings`. `Strings` holds JavaScript `trim` and Python `strip` with their whitespace sets, and Python's `split`/`join` on one character.

Inputs the programs get from the outside are parameters:
- The Gemini endpoint is an oracle `upstream: (nat, Call) -> Reply`. It gives, for the attempt number and the prompt/voice/key sent, either an exception or an HTTP reply with its status, error text, JSON body and rate-limit headers.
- The classifier's output for each detected hand is a `Reading(prediction, confidence)`.
- Which of several equally frequent history entries Python's `max(set(...), key=count)` returns is a function `pick` constrained only to return a most frequent entry (`PicksMode`).

## Model

| member | source | states |
|---|---|---|
| Strings.TrimStartSpec | pages/api/gemini-tts.js:22 | trimming the start leaves the suffix after all leading whitespace, which starts with a non-space or is empty |
| Strings.TrimEndSpec | pages/api/gemini-tts.js:22 | trimming the end leaves the prefix before all trailing whitespace, which ends with a non-space or is empty |
| Strings.JsTrim | pages/api/gemini-tts.js:22 | definition of JavaScript `trim()` as `Strip` over the JavaScript whitespace set; its properties are stated by `TrimStartSpec`, `TrimEndSpec` and `StripIgnoresSurroundingSpace` |
| Strings.PyStrip | test_live_core.py:21-23 | definition of Python `strip()` as `Strip` over Python's whitespace set; its properties are stated by `TrimStartSpec`, `TrimEndSpec` and `StripIgnoresSurroundingSpace` |
| Strings.StripIgnoresSurroundingSpace | test_live_core.py:21 | `strip`/`trim` of a text surrounded by whitespace equals that of the text itself |
| Strings.Split | test_live_core.py:21 | `split` always yields at least one field |
| Strings.SplitCount | test_live_core.py:21-22 | `split(sep)` yields one field more than there are separators |
| Strings.SplitFieldsFree | test_live_core.py:21-22 | no field of `split(sep)` holds the separator |
| Strings.JoinSplit | test_live_core.py:21 | joining the fields of a split with the separator gives the text back |
| Strings.SplitInTwo | test_live_core.py:21-23 | a text splits into exactly two fields iff it holds exactly one comma; the second field is then everything after it |
| ResponseCache.CacheKey | pages/api/gemini-tts.js:21-23 | definition of `getCacheKey`: the voice, `|` and the trimmed text; its properties are stated by `CacheKeyIgnoresSurroundingSpace` and `CacheKeyInjective` |
| ResponseCache.CacheKeyIgnoresSurroundingSpace | pages/api/gemini-tts.js:21-23 | texts differing only in surrounding whitespace get the same key |
| ResponseCache.CacheKeyInjective | pages/api/gemini-tts.js:21-23 | for voice names without `|`, two keys are equal iff the voices are equal and the trimmed texts are equal |
| ResponseCache.EmptyValid | pages/api/gemini-tts.js:18-19 | the initial empty map satisfies the cache invariant and has size 0 |
| ResponseCache.MapDelete | pages/api/gemini-tts.js:29 | definition of `map.delete(k)` on the abstract map; its properties are stated by `DeleteWellFormed` and `EvictFirstWellFormed` |
| ResponseCache.MapSet | pages/api/gemini-tts.js:30 | definition of `map.set(k, v)`: a present key keeps its place, a new key goes last; its properties are stated by `SetWellFormed` |
| ResponseCache.DeleteWellFormed | pages/api/gemini-tts.js:29 | `delete` keeps the map well formed, removes exactly the key from the entries, keeps the other keys in order, and shrinks the size by one exactly when the key was present |
| ResponseCache.EvictFirstWellFormed | pages/api/gemini-tts.js:35-38 | deleting the first key of a non-empty map keeps it well formed and shrinks it by one |
| ResponseCache.SetWellFormed | pages/api/gemini-tts.js:30 | `set` keeps the map well formed, maps the key to the value, and grows the size by one exactly for a new key |
| ResponseCache.Lookup | pages/api/gemini-tts.js:25-32 | definition of `cacheGet` on the abstract map: the value and the promoted map, or nothing and no change; its properties are stated by `LookupMiss`, `PromoteShape` and `LookupHit` |
| ResponseCache.Insert | pages/api/gemini-tts.js:34-40 | definition of `cacheSet`: delete the first key when full, then `set`; its properties are stated by `InsertValid`, `InsertEvictsOldest` and `InsertBelowCapacity` |
| ResponseCache.LookupMiss | pages/api/gemini-tts.js:25-26 | a get of an absent key returns nothing and leaves keys, values and order unchanged |
| ResponseCache.PromoteShape | pages/api/gemini-tts.js:27-30 | a get of a present key returns its value and moves the key to the end, the other keys keeping their order |
| ResponseCache.LookupHit | pages/api/gemini-tts.js:25-31 | on a valid cache a hit returns the stored value, keeps the entries and the size, keeps the other keys' relative order, puts the key last and keeps the invariant |
| ResponseCache.InsertValid | pages/api/gemini-tts.js:34-40 | after a set the cache still holds at most 50 distinct keys and maps the key to the new value |
| ResponseCache.InsertEvictsOldest | pages/api/gemini-tts.js:34-39 | at capacity the first key is removed before the set, also when the key being set is present; the entries and the order that follow are given exactly |
| ResponseCache.InsertBelowCapacity | pages/api/gemini-tts.js:34-40 | below capacity a set replaces a present key's value in place or appends a new key last |
| ResponseCache.PromotedKeySurvivesEviction | pages/api/gemini-tts.js:25-40 | in a full cache, reading the oldest key saves it from the next eviction, which then removes the second oldest |
| ResponseCache.AudioCache.constructor | pages/api/gemini-tts.js:19 | a new cache is the empty, valid map |
| ResponseCache.AudioCache.Delete | pages/api/gemini-tts.js:29 | `Map.delete` removes the key from the entries and from the order |
| ResponseCache.AudioCache.Put | pages/api/gemini-tts.js:30 | `Map.set` updates the value in place or appends the key |
| ResponseCache.AudioCache.Get | pages/api/gemini-tts.js:25-32 | the method returns the value and leaves the state `Lookup` prescribes, keeping the invariant |
| ResponseCache.AudioCache.Set | pages/api/gemini-tts.js:34-40 | the method tests `audioCache.size` (the entry count, equal to the order's length by `SizeIsEntryCount`), leaves the state `Insert` prescribes, keeps the invariant and never holds more than 50 entries |
| GeminiTts.FirstAudioIndex | pages/api/gemini-tts.js:94-96 | the index found holds truthy inline data and no earlier part does; none is found iff no part has it |
| GeminiTts.Interpret | pages/api/gemini-tts.js:83-98 | definition of what `callGeminiTTS` makes of one reply; its properties are stated by `InterpretReply` |
| GeminiTts.InterpretReply | pages/api/gemini-tts.js:83-98 | an exception is passed on, a non-ok reply keeps status, text and rate-limit info, and an ok reply yields the first candidate's finishReason (null when missing) and its first part with truthy inline data |
| GeminiTts.CallGeminiTts | pages/api/gemini-tts.js:60-99 | one call sends the given prompt, voice and key and returns the interpreted reply |
| GeminiTts.Classify | pages/api/gemini-tts.js:139-186 | the policy retries exactly on an answer without audio that is not the last allowed attempt; it moves to the rate-limit retry iff the first attempt was silently limited; every retry lowers the attempts left |
| GeminiTts.Run | pages/api/gemini-tts.js:132-186 | the attempts add at least one and at most the remaining allowed calls and keep the earlier calls |
| GeminiTts.RunCalls | pages/api/gemini-tts.js:132-177 | the first call uses the phase's prompt, later calls the plain text, and every call but the last answered without audio |
| GeminiTts.RunOutcome | pages/api/gemini-tts.js:139-198 | the outcome is decided by the last call alone: audio iff it answered with an audio part, a forwarded error, a 500 for an exception; an answer without audio is the route's 429 only when it is a silent rate limit, and otherwise the 502 `no audio` body with that answer's finishReason and rate-limit info; never a 2xx without audio |
| GeminiTts.Respond | pages/api/gemini-tts.js:103-203 | definition of the handler as a function of the cache, the request, the environment and the upstream; its properties are stated by the lemmas below and `Handler` is proved equal to it |
| GeminiTts.Conclude | pages/api/gemini-tts.js:178-198 | definition of steps 6-7 after the attempts: audio is cached and returned with `fromCache: false`, anything else is returned with the cache untouched; its properties are stated by `CacheWrittenOnlyOnAudio` and `AudioIsCached` |
| GeminiTts.ApiKey | pages/api/gemini-tts.js:108 | definition of the key choice: `GEMINI_API_KEY` when truthy, else `GOOGLE_API_KEY` when truthy, else none; its properties are stated by `MissingKeyRejected` and `CallsCarryRequest` |
| GeminiTts.TextOf | pages/api/gemini-tts.js:113 | definition of the `typeof` default of `text` (empty when not a string); its properties are stated by `BlankTextRejected` and `CallsCarryRequest` |
| GeminiTts.VoiceOf | pages/api/gemini-tts.js:114 | definition of the `typeof` default of `voiceName` (`Kore` when not a string); its properties are stated by `CallsCarryRequest` |
| GeminiTts.NonPostRejected | pages/api/gemini-tts.js:104-106 | a non-POST request gets 405 `Method not allowed`, no calls, cache unchanged |
| GeminiTts.MissingKeyRejected | pages/api/gemini-tts.js:108-111 | a POST with neither key variable set to a non-empty value gets 500 `Missing GEMINI_API_KEY on server`, no calls, cache unchanged |
| GeminiTts.BlankTextRejected | pages/api/gemini-tts.js:108-118 | a POST, with an API key configured, whose text is missing, not a string or blank after trimming gets 400 `Missing text`, no calls, cache unchanged (without a key the route answers 500 first) |
| GeminiTts.CacheHitServed | pages/api/gemini-tts.js:121-126 | a cached key gets 200 with the stored payload and `fromCache: true`, with zero calls and the key promoted |
| GeminiTts.RespondMiss | pages/api/gemini-tts.js:121-136 | calls are made only for an admitted request whose key is not cached, and then the response is that of the retry policy from the first attempt |
| GeminiTts.CallsCarryRequest | pages/api/gemini-tts.js:108-177 | every call made carries the request's voice (`Kore` when it is not a string) and the Gemini key, or the Google key when the first is unset or empty; the first call sends the wrapped text, later calls the text itself |
| GeminiTts.AtMostThreeCalls | pages/api/gemini-tts.js:132-177 | every request makes at most three upstream calls |
| GeminiTts.PersistentSilentRateLimit | pages/api/gemini-tts.js:132-165 | an upstream that is always silently limited gets exactly the wrapped-prompt call then the plain-text call, and the answer is 429 with `retryAfterMs: 5000`, cache unchanged |
| GeminiTts.PersistentNoAudio | pages/api/gemini-tts.js:132-186 | an upstream that always answers without audio for another reason gets exactly two calls and the answer is 502, cache unchanged |
| GeminiTts.NoAudioIsBadGateway | pages/api/gemini-tts.js:146-186 | on a miss whose last answer has no audio the cache is unchanged, and unless the response is the route's own 429 it is 502 with the `no audio` message and that answer's finishReason and rate-limit info |
| GeminiTts.SilentLimitThenNoAudio | pages/api/gemini-tts.js:146-186 | a silent rate limit, then no audio for another reason, then no audio again: the calls are the wrapped text and the plain text twice, and the answer is the 502 `no audio` body of the third answer, cache unchanged |
| GeminiTts.PlainRetryNotRateLimited | pages/api/gemini-tts.js:167-186 | the plain-text fallback never ends in the route's own 429 |
| GeminiTts.RateLimitRetryOutcome | pages/api/gemini-tts.js:146-165 | the retry after a silent rate limit ends in the route's own 429 iff it is silently limited too, and then it was the only further call |
| GeminiTts.RateLimitedExactly | pages/api/gemini-tts.js:132-165 | for every upstream, on a miss the route answers with its own rate-limit body iff the first two answers are both silent rate limits; that answer is a 429 after exactly those two calls, with nothing cached |
| GeminiTts.UpstreamTooManyRequestsForwarded | pages/api/gemini-tts.js:138-144 | an upstream HTTP 429 on the first call is forwarded as a 429 with its error text, which is not the route's own rate-limit body |
| GeminiTts.ThirdAttempt | pages/api/gemini-tts.js:146-177 | a third call only follows a silently limited first answer and a second answer without audio that was not limited |
| GeminiTts.ThirdCallOnlyAfterRateLimit | pages/api/gemini-tts.js:146-177 | the same for a whole request: three calls imply that sequence of answers |
| GeminiTts.HardErrorForwarded | pages/api/gemini-tts.js:138-177 | a non-ok answer is the last call made, its status and text are the response, and nothing is cached |
| GeminiTts.CacheWrittenOnlyOnAudio | pages/api/gemini-tts.js:180-198 | after a miss, an audio response is 200, `fromCache: false`, 24000 Hz, one channel, carries the last answer's data and is inserted under the key; any other response leaves the cache unchanged |
| GeminiTts.SuccessMeansAudio | pages/api/gemini-tts.js:103-203 | a response has a 2xx status iff it carries audio |
| GeminiTts.RespondKeepsCacheValid | pages/api/gemini-tts.js:120-198 | a request keeps the cache invariant (at most 50 distinct keys) |
| GeminiTts.AudioIsCached | pages/api/gemini-tts.js:188-198 | whenever audio is returned, the cache afterwards maps the request's key to that audio |
| GeminiTts.RepeatServedFromCache | pages/api/gemini-tts.js:120-126 | repeating a request that returned audio is answered from the cache with the same payload and no call, whatever the upstream does |
| GeminiTts.Handler | pages/api/gemini-tts.js:103-203 | the handler's response, its calls and the cache afterwards are those of `Respond` on the cache before, and the cache invariant holds |
| GeminiTts.AttemptChain | pages/api/gemini-tts.js:130-192 | steps 2-6 run in order with an attempt counter: the calls made and the refusal or audio payload they end in are exactly those of the retry policy `Run` from the first attempt |
| GeminiTts.Synthesize | pages/api/gemini-tts.js:130-203 | after a miss, the response, the calls and the cache afterwards are `Conclude` of `Run` from the first attempt: audio is cached before the 200, any refusal leaves the cache alone, and the cache invariant holds |
| SignEngine.Labels | test_live_core.py:10-29 | the labels are never empty: a missing or unreadable file or no parsed label gives the seven defaults |
| SignEngine.LineLabel | test_live_core.py:20-23 | definition of what one line contributes; its properties are stated by `LineLabelDefined` |
| SignEngine.ParseLabels | test_live_core.py:19-23 | definition of the labels of the lines in file order; its properties are stated by `ParseLabelsAppend` and `LoadLabels` |
| SignEngine.LineLabelDefined | test_live_core.py:20-23 | a line contributes a label iff the stripped line holds exactly one comma; the label is the stripped text after that comma |
| SignEngine.ParseLabelsAppend | test_live_core.py:19-23 | the labels of two runs of lines are those of each run, in order |
| SignEngine.LoadLabels | test_live_core.py:10-29 | the loop over the lines yields exactly `Labels(file)` |
| SignEngine.Append | test_live_core.py:147 | definition of `append` on the `deque(maxlen=5)` of line 56; its properties are stated by `AppendKeepsLatest` and `AppendFullDropsOldest` |
| SignEngine.AppendKeepsLatest | test_live_core.py:147 | appending to the history keeps the last at most five entries of the history followed by the new one |
| SignEngine.AppendFullDropsOldest | test_live_core.py:56 | appending to a full history drops exactly the oldest entry |
| SignEngine.Reset | test_live_core.py:183-186 | definition of `_reset_state` on the engine's fields; its properties are stated by `ResetValid` |
| SignEngine.ResetValid | test_live_core.py:183-186 | a reset engine has an empty history and no best letter, keeps the sentence, meets the engine invariant, and a second reset changes nothing |
| SignEngine.Track | test_live_core.py:147-153 | definition of recording a confident reading and updating the best letter; its properties are stated by `ObserveKeepsInv` and `BestCharOnlyImproves` |
| SignEngine.Observe | test_live_core.py:145-153 | definition of the 0.7 threshold in front of `Track`; its properties are stated by `OnlyConfidentBuffered` and `ObserveKeepsInv` |
| SignEngine.ObserveKeepsInv | test_live_core.py:145-153 | recording an accepted reading keeps the engine invariant |
| SignEngine.HandStepKeepsInv | test_live_core.py:115-179 | one hand's step keeps the engine invariant: at most five valid label indices, best letter a plain label with positive confidence |
| SignEngine.Decide | test_live_core.py:155-178 | definition of the stable-decision block; its properties are stated by `DecideCommits` and `CommitNeedsMode` |
| SignEngine.HandStep | test_live_core.py:124-178 | definition of one pass of the hand loop; its properties are stated by `HandStepKeepsInv`, `RejectedReadingClears`, `OnlyConfidentBuffered` and `BestCharOnlyImproves` |
| SignEngine.DecideCommits | test_live_core.py:155-178 | below three entries nothing happens; otherwise the chosen entry is a most frequent one, NEXT appends the best letter and resets, SPACE appends a space and resets, any other label is only shown |
| SignEngine.Hands | test_live_core.py:115-180 | the loop over the hands keeps the engine invariant |
| SignEngine.Frame | test_live_core.py:98-180 | a frame keeps the engine invariant |
| SignEngine.NoHandClears | test_live_core.py:110-113 | a frame without a hand clears the history, shows `—` with confidence 0 and keeps sentence and best letter |
| SignEngine.RejectedReadingClears | test_live_core.py:133-143 | an out-of-range index or a confidence below 0.5 clears the history, ends the frame and keeps sentence and best letter |
| SignEngine.OnlyConfidentBuffered | test_live_core.py:145-147 | a reading enters the history only with a valid index and confidence above 0.7; otherwise the history is kept or cleared |
| SignEngine.BestCharOnlyImproves | test_live_core.py:149-153 | between resets the best confidence never decreases, and the best letter changes only to a more confident plain label read in this step |
| SignEngine.CommitNeedsMode | test_live_core.py:155-174 | the sentence changes only through a commit from at least three entries whose most frequent label is NEXT or SPACE, it grows by the best letter or a space, and the state is reset |
| SignEngine.HandsExtendSentence | test_live_core.py:115-180 | the sentence before the hands is a prefix of the sentence after them |
| SignEngine.FrameExtendsSentence | test_live_core.py:98-180 | a frame only ever extends the sentence |
| SignEngine.MajorityPicked | test_live_core.py:157-160 | an entry holding more than half of the history is the one chosen, whatever the tie break |
| SignEngine.PickInRange | test_live_core.py:157-161 | the chosen entry is a valid label index |
| SignEngine.GestureMateEngine.constructor | test_live_core.py:50-61 | a new engine holds the loaded labels, an empty history, an empty sentence and no best letter |
| SignEngine.GestureMateEngine.ResetState | test_live_core.py:183-186 | reset clears the best letter, its confidence and the history, keeps the sentence, and leaves the engine valid whatever state it started in |
| SignEngine.GestureMateEngine.ProcessFrame | test_live_core.py:98-180 | the fields after a frame, the character shown, the confidence reported and the sentence returned are those of `Frame` |
| SignEngine.GestureMateEngine.ProcessHand | test_live_core.py:124-178 | one iteration of the hand loop does what `HandStep` prescribes, including leaving the frame early |
| SignEngine.GestureMateEngine.StableDecision | test_live_core.py:155-178 | the stable decision does what `Decide` prescribes |
| SignClient.LE16RoundTrip | pages/sign-recognition.js:143-146 | a 16-bit little-endian field reads back as the value written modulo 2^16 |
| SignClient.LE32RoundTrip | pages/sign-recognition.js:141-147 | a 32-bit little-endian field reads back as the value written modulo 2^32 |
| SignClient.LE32Decode | pages/sign-recognition.js:141-147 | any four bytes are the encoding of the number they decode to |
| SignClient.LE16 | pages/sign-recognition.js:143-146 | definition of the two bytes `setUint16(_, x, true)` writes; its properties are stated by `LE16RoundTrip` |
| SignClient.LE32 | pages/sign-recognition.js:141-147 | definition of the four bytes `setUint32(_, x, true)` writes; its properties are stated by `LE32RoundTrip` and `LE32Decode` |
| SignClient.SetUint32 | pages/sign-recognition.js:141-147 | `setUint32(offset, x, true)` overwrites exactly the four bytes at the offset with the encoding of x |
| SignClient.SetUint16 | pages/sign-recognition.js:143-146 | `setUint16(offset, x, true)` overwrites exactly the two bytes at the offset with the encoding of x |
| SignClient.WavHeader | pages/sign-recognition.js:139-147 | definition of the 44 header bytes: RIFF header, fmt chunk and data header; its properties are stated by `WavHeaderLayout` and `ServedAudioHeader` |
| SignClient.WriteRiffHeader | pages/sign-recognition.js:141-142 | the writes at offsets 0-8 fill bytes 0-11 with the RIFF header and leave the rest zero |
| SignClient.WriteFmtChunk | pages/sign-recognition.js:142-146 | the writes at offsets 12-34 fill bytes 12-35 with the format chunk and leave the rest as it was |
| SignClient.WriteDataHeader | pages/sign-recognition.js:146-147 | the writes at offsets 36 and 40 fill the last eight bytes with the data header |
| SignClient.Uint8ArrayOf | pages/sign-recognition.js:137-138 | the copy loop stores every character code of the decoded string modulo 256 |
| SignClient.CreateWavBlob | pages/sign-recognition.js:135-149 | the blob is the 44-byte header for n bytes, sample rate sr, ch channels and byte rate `sr * ch * 2`, followed by the copied bytes |
| SignClient.TagBytes | pages/sign-recognition.js:141-146 | the four tag constants written little-endian spell `RIFF`, `WAVE`, `fmt ` and `data` |
| SignClient.RiffHeaderLayout | pages/sign-recognition.js:141-142 | the RIFF header reads `RIFF`, 36 + n, `WAVE` |
| SignClient.FmtChunkLayout | pages/sign-recognition.js:142-146 | the format chunk reads `fmt `, 16, format 1, the channels, the sample rate, the byte rate, block align `ch * 2` and 16 bits |
| SignClient.DataHeaderLayout | pages/sign-recognition.js:146-147 | the data header reads `data` and n |
| SignClient.WavHeaderLayout | pages/sign-recognition.js:139-147 | the header is 44 bytes with every tag and field at its standard offset, little-endian, each modulo its width |
| SignClient.ServedAudioHeader | pages/sign-recognition.js:178 | the route's 24000 Hz mono audio gets a header announcing 24000 Hz, one channel, 48000 bytes per second and 2-byte frames |
| SignClient.WavBlobBytes | pages/sign-recognition.js:136-148 | the blob has 44 + n bytes, byte 44 + i is character i modulo 256, and characters below 256 (all `atob` yields) are copied unchanged |
| SignClient.Backspace | pages/sign-recognition.js:110-111 | definition of `[...prev].slice(0, -1).join('')` on UTF-16 code units; its properties are stated by `BackspaceDropsLastCodePoint` |
| SignClient.CodePoints | pages/sign-recognition.js:111 | definition of `[...prev]`: the string cut into code points, a surrogate pair staying together; its properties are stated by `JoinSpread` and `BackspaceDropsLastCodePoint` |
| SignClient.JoinSpread | pages/sign-recognition.js:111 | joining the code points of a spread string gives the string back |
| SignClient.BackspaceDropsLastCodePoint | pages/sign-recognition.js:110-111 | backspace removes the last two code units when they are a surrogate pair and the last one otherwise; an empty sentence stays empty |
| SignClient.OnResult | pages/sign-recognition.js:228-236 | the handler's loop yields the final and interim texts of the results from `resultIndex` on, and the transcript becomes `AppendFinal` of them |
| SignClient.Finals | pages/sign-recognition.js:230-233 | definition of the `final` accumulation; its properties are stated by `FinalsAppend`, `FinalsEmpty` and `OnResult` |
| SignClient.Interims | pages/sign-recognition.js:230-233 | definition of the `interim` accumulation; its properties are stated by `InterimsAppend` and `OnResult` |
| SignClient.FinalsAppend | pages/sign-recognition.js:230-233 | the final text of two runs of results is that of each run, in order |
| SignClient.InterimsAppend | pages/sign-recognition.js:230-233 | the interim text of two runs of results is that of each run, in order |
| SignClient.FinalsEmpty | pages/sign-recognition.js:234 | nothing is appended iff every final result is empty, in particular when no result is final |
| SignClient.AppendFinal | pages/sign-recognition.js:234 | definition of the `setVoiceTranscript` update; its properties are stated by `FinalsEmpty` and `AppendFinalSeparates` |
| SignClient.AppendFinalSeparates | pages/sign-recognition.js:234 | the old transcript is kept as a prefix and the final text ends the new one; exactly one space is inserted iff the old transcript is non-empty and does not end in a space |
| SignClient.Ceil | pages/sign-recognition.js:170 | `Math.ceil` gives the least integer not below its argument |
| SignClient.RetryWaitSeconds | pages/sign-recognition.js:169-171 | a truthy `retryAfterMs` gives the least whole number of seconds not below it; otherwise the wait is 5 |
| SignClient.RouteRateLimitShowsFiveSeconds | pages/sign-recognition.js:169-171 | the route's own 429 (`retryAfterMs: 5000`) is shown as a 5-second wait |

## Left out

- The network: the `fetch` to the model endpoint, JSON serialisation of the request, `response.json()`/`text()` and `extractRateLimitInfo`. The reply, including any exception, is the oracle's value, and the rate-limit headers are an opaque record. JSON shapes the reply datatypes cannot hold are not modelled: a `finishReason` that is a number, boolean or object (passed on unchanged by `?? null`), a `candidates` value that is an object or a string (which `?.[0]` indexes as well), and a candidate or `content` that is not an object. A `parts` value that is not an array, and part elements that are not objects with an `inlineData` object, behave as the `None` cases of the datatypes.
- `sleep` before the retries: only the order of the calls is modelled.
- Concurrent requests interleaving at `await` points between the cache read and the cache write: one request is handled at a time.
- Logging (`console.*`, Python `print`).
- `res.status(...)` with a status Node refuses: an upstream status is taken as a valid HTTP status.
- Strings that JSON and JavaScript allow but the model does not hold: request `text` and `voiceName` are Dafny strings of Unicode scalar values, so lone UTF-16 surrogates are not represented, and `inlineData.data` is an optional string, so a truthy non-string `data`, which `p?.inlineData?.data` would accept as audio, is not represented.
- JSON values of other types in the request body: `text` and `voiceName` are either strings or absent, which is all `typeof … === 'string'` distinguishes.
- `if (cached)` on a stored payload: payloads are objects and always truthy, so any stored value is a hit.
- `lazy_init`, `pickle`, MediaPipe, `cv2`, `normalize_landmarks` and `predict_proba`: each hand's prediction index and confidence are inputs, and the frame image is not modelled.
- Opening and decoding the labels file: the file is given as missing, unreadable or its lines.
- SignEngine.PicksMode: the tie break of `max(set(buffer), key=buffer.count)` is left open (any most frequent entry), because CPython's set order is not part of the language.
- The `deque` is a sequence trimmed to its last five entries.
- `atob`, `Blob`, `Audio`, object URLs, React state, toasts, timers and the Web Speech API object: the decoded string, the results list and the previous transcript are inputs, and the returned values are what the source hands to the setters.
- `syncToFlask` after backspace and the Flask server in `app.py`.
- SignClient.CreateWavBlob: sample rate and channel count are integers; a fractional JSON number, which `DataView` truncates before wrapping, is not modelled.
- SignClient.RetryWaitSeconds: `retryAfterMs` is a number or absent; `NaN` (falsy) and non-number values are not modelled, and `retryAfterMs / 1000` is exact real division, so the IEEE-754 rounding of the quotient before `Math.ceil` is not modelled (for the route's own 5000 the quotient is exact).
- SignClient.Backspace: JavaScript strings are sequences of UTF-16 code units here, while the engine's sentence is a Dafny `string` of Unicode scalar values; the two are not linked.
