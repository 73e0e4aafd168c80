# VoiceFit front end: a verified model of its core logic

VoiceFit's web front end records or uploads a short voice clip, sends it for analysis, and shows
the song recommendations that come back. This project models the logic of that front end in
Dafny, with the browser and the network taken out, and proves properties of the model. The
pieces modelled are:

- the WAV encoder used for recordings: a 44-byte RIFF/WAVE header, then interleaved 16-bit
  little-endian PCM. This is the canonical PCM layout of the "Waveform Audio File Format"
  section of the IBM/Microsoft *Multimedia Programming Interface and Data Specifications 1.0*.
  The model includes an independent reader of that layout and proves the decode/encode round
  trip.
- the recorder component: the `mm:ss` display, the choice of capture format, the one-shot stop
  guard, the 20-second auto-stop, the cleanup of the preview effect (which can cancel that
  auto-stop), and the hand-off of a finished recording. The last is an error for a near-empty
  blob, otherwise the WAV or, if conversion failed, the raw blob.
- the upload form: ordered checks of type, then size, then duration. They run when a file is
  chosen and again at submit.
- the analysis service client: user-facing error texts, the typed API error, the request's
  form fields, and the mapping of a transport outcome to a result or an error.
- the home page: the decision to analyse and then retry in mock mode, the credit balance, and
  spending and charging credits.
- the three browser-stored logs, each newest first and capped.
- the precision-plan gate.
- recommendation filtering, tag groups, platform search links, and the top-five list with what
  each card shows.
- the re-recording guide text.
- the older analysis client, which falls back to built-in mock data.

One Dafny module per source file: `Wav` and `Recorder` (`src/components/Recorder.tsx`),
`Uploader`, `Voicefit`, `Home`, `History`, `Premium`, `Recommendations` (the service and the
top-five component), `Guide`, `Client` and `Types`. `Wrappers` (Option/Result) and `Text`
(decimal rendering, substring search, ASCII lower-casing) are shared helpers.

Browser calls become parameters whose values the caller supplies:

- the microphone permission answer, the set of supported capture formats, and the decoded
  audio or decoding failure;
- the duration probe's outcome;
- the reply or exception of `fetch`;
- the parsed form of stored text;
- `encodeURIComponent`;
- the ids and timestamps built from `Date.now` and `Math.random`.

## Model

| member | source | states |
|---|---|---|
| Wav.EncodeWav | src/components/Recorder.tsx:17-62 | The output is exactly 44 + frames·channels·2 bytes. With no channels or no frames it is the 44-byte header alone. `RIFF`, `WAVE`, `fmt ` and `data` sit at bytes 0-3, 8-11, 12-15 and 36-39. |
| Wav.ParseHeaderOfEncode | src/components/Recorder.tsx:36-48 | An independent reader of the header gets back: ChunkSize = 36 + dataSize, fmt size 16, format 1, the channel count, the sample rate, ByteRate = sampleRate·blockAlign, BlockAlign = channels·2, 16 bits per sample and the data size. Each is little-endian and taken modulo its field width. |
| Wav.HeaderExact | src/components/Recorder.tsx:36-48 | When every field fits its width, the header states the buffer's exact geometry, and the data-size field equals the number of bytes after the header. |
| Wav.EncodeWavSampleAt | src/components/Recorder.tsx:50-59 | The sample of frame i, channel c is the 16-bit little-endian value at byte 44 + 2·(i·channels + c). |
| Wav.PcmSample | src/components/Recorder.tsx:52-56 | The value is clamped to [-1, 1], scaled by 32768 if negative and 32767 otherwise, and truncated toward zero. It always fits int16, keeps its sign, saturates at ±1, and lies within one step of the exact scaled value. |
| Wav.EncodeSamplesAt | src/components/Recorder.tsx:50-59 | Sample k occupies bytes 2k and 2k+1 of the data chunk, as its little-endian PCM value. |
| Wav.InterleaveAt | src/components/Recorder.tsx:50-58 | Frame-major interleaving: channel c of frame i is at position i·channels + c. |
| Wav.LE16RoundTrip | src/components/Recorder.tsx:44-47 | Reading back a little-endian 16-bit write gives the value modulo 2^16, as `setUint16` stores it. |
| Wav.LE32RoundTrip | src/components/Recorder.tsx:37-48 | Reading back a little-endian 32-bit write gives the value modulo 2^32, as `setUint32` stores it. |
| Wav.LE16OfRead | src/components/Recorder.tsx:44-47 | Writing what was read from two bytes reproduces those bytes, so the 16-bit encoding is a bijection. |
| Wav.LE32OfRead | src/components/Recorder.tsx:37-48 | Writing what was read from four bytes reproduces those bytes. |
| Wav.Int16RoundTrip | src/components/Recorder.tsx:56 | A two's-complement `setInt16` of any int16 value reads back as that value. |
| Wav.DecodeOfEncode | src/components/Recorder.tsx:17-62 | Decoding an encoded buffer returns the written header and every frame's clamped, scaled and truncated samples. |
| Wav.TagsAreAscii | src/components/Recorder.tsx:30-34 | The four chunk tags are written one byte per character, unchanged. |
| Recorder.FormatSecondsRoundTrip | src/components/Recorder.tsx:10-15 | The display is `mm:ss`. The seconds field is two digits in 00..59 and the minutes field has at least two digits. Read back, 60·mm + ss equals the floored elapsed time, with negatives clamped to 0. |
| Recorder.WholeSeconds | src/components/Recorder.tsx:11 | Floors a non-negative time and clamps a negative one to 0. |
| Recorder.FirstSupported | src/components/Recorder.tsx:126-132 | The chosen capture format is the first entry of the preference list that the browser supports. There is none exactly when no entry is supported. |
| Recorder.StartReusesStream | src/components/Recorder.tsx:122-135 | With a stream already open, a start asks for no permission. It starts a new recorder in the first supported format, or the recorder default if none is supported, and clears the stop guard. |
| Recorder.StartWithoutStream | src/components/Recorder.tsx:108-124 | Without a stream, a start asks for permission. A refusal reports the denial message and starts nothing. |
| Recorder.StopOnlyThroughGuard | src/components/Recorder.tsx:176-192 | `stop()` is called only on a recorder whose guard is clear. A user stop reaches only the current recorder. A tick reaches only the recorder whose timer it is, only while that timer runs, and only at 20 seconds or later. |
| Recorder.HandOff | src/components/Recorder.tsx:143-169 | A blob under 1000 bytes yields exactly the too-short error. Otherwise exactly one recording is handed off. It is the `audio/wav` blob of 44 + 2·frames·channels bytes when conversion succeeds, with no error. It is the raw blob, together with the conversion-failure notice, when conversion fails. |
| Recorder.PerRecorderStopsAtMostOnce | src/components/Recorder.tsx:187-192 | With a guard and timer per recorder, no sequence of events calls `stop()` on any recorder twice. |
| Recorder.SequentialStopsAtMostOnce | src/components/Recorder.tsx:135-192 | As written, with one shared guard, every recorder is stopped at most once as long as each start comes after the previous recorder's `onstop` has begun (its `stopTimer` has run), even while that recording's WAV conversion is still pending. |
| Recorder.SharedRefsOverlapCounterexample | src/components/Recorder.tsx:135-184 | As written, this trace stops the first recorder twice and leaves the second unstoppable and without a timer: start, stop, start again before the first `onstop`, that `onstop` arrives, then the first recorder's timer reaches 20 s. |
| Recorder.PerRecorderOverlap | src/components/Recorder.tsx:135-192 | On the same trace, per-recorder guards stop the first recorder once, the second keeps its timer, and a user stop still stops the second. |
| Recorder.PreviewCleanup | src/components/Recorder.tsx:90-99 | As written, the cleanup of the preview effect clears the interval held in the shared handle and keeps the handle. It stops no recorder and changes no guard. With per-recorder timers it changes nothing. |
| Recorder.PreviewCleanupCancelsAutoStop | src/components/Recorder.tsx:90-99 | As written: record; stop; the first `onstop` begins (its `stopTimer` runs) and awaits the WAV conversion; a second recording starts while that conversion is pending; the conversion finishes and the first recording's preview arrives. No tick of the second recording's timer does anything from then on, even at 20 s or later, so it keeps recording. The second start followed the first `onstop`'s `stopTimer`. |
| Recorder.PerRecorderTimerSurvives | src/components/Recorder.tsx:90-106 | With per-recorder timers, a running timer is cleared only by its own recorder's `onstop`. No other event clears it, the preview cleanup included. |
| Recorder.PerRecorderAutoStopSurvivesPreview | src/components/Recorder.tsx:176-184 | With per-recorder timers, on the same trace the second recording's timer still stops it at 20 s, exactly once. |
| Uploader.ValidateWavAndSize | src/components/AnalyzeUploader.tsx:38-46 | Any type other than exactly `audio/wav` gives the format error, checked before size. Otherwise a size above 5·1024·1024 gives the size error. Otherwise the file passes. |
| Uploader.Validate | src/components/AnalyzeUploader.tsx:38-80 | The full check passes exactly when the type, the size and a probed duration in [3, 20] all pass, and then yields the duration. Each failure is the first check that fails. |
| Uploader.Boundaries | src/components/AnalyzeUploader.tsx:11-13 | Exactly 5 MiB passes and one byte more fails. 3 s and 20 s are accepted; 2.9 s and 20.1 s are not. |
| Uploader.DurationAcceptedInclusive | src/components/AnalyzeUploader.tsx:66 | The duration is accepted if and only if 3 ≤ d ≤ 20. |
| Uploader.AssignMatchesValidate | src/components/AnalyzeUploader.tsx:55-82 | Choosing a file keeps it with its duration and clears the error exactly when the full check passes. Otherwise it clears the file and the duration and shows the refusal's message. |
| Uploader.ProbeFailureMessage | src/components/AnalyzeUploader.tsx:77-80 | A probe that fails as written gives the same message at selection as at submit. |
| Uploader.RecordedFile | src/components/AnalyzeUploader.tsx:84-88 | A recording is wrapped as a file of type `audio/wav` with the blob's size. |
| Uploader.RecordedNeverFormatError | src/components/AnalyzeUploader.tsx:84-89 | A recording is never refused for its type. |
| Uploader.SubmitMatchesValidate | src/components/AnalyzeUploader.tsx:146-169 | Submit requests an analysis exactly when the full check passes again. The request carries the chosen options and mock = false. A refusal sets the error, keeps the selected file, and requests nothing. |
| Uploader.SubmitDisabled | src/components/AnalyzeUploader.tsx:145-147 | Nothing happens without a file or while a request is in flight. |
| Voicefit.EmptyPayloadGivesFallback | src/services/voicefit.ts:25-27 | With no code, message or hint, the text is the fallback if one is given, else the generic text. |
| Voicefit.KnownCodeGivesTableText | src/services/voicefit.ts:29-49 | A code in the table yields the table's text, whatever the envelope's message, plus any hint. |
| Voicefit.UnknownCodeChain | src/services/voicefit.ts:48 | An absent or unknown code yields the first non-empty of: the envelope message, the fallback, the short fixed text. |
| Voicefit.HintSuffix | src/services/voicefit.ts:49 | A non-empty hint is appended as ` (hint)` and can be read back. An empty or absent hint leaves the base text unchanged. |
| Voicefit.MessageNonEmpty | src/services/voicefit.ts:20-50 | The text is never empty, except when nothing is known and the caller's fallback is empty. |
| Voicefit.TableTextsNonEmpty | src/services/voicefit.ts:29-46 | Every table text is non-empty, so a known code always decides the text. |
| Voicefit.ParseError | src/services/voicefit.ts:52-65 | A failed response always becomes a typed API error carrying its status. |
| Voicefit.ParseErrorUnparsable | src/services/voicefit.ts:53-63 | With an unparsable body, the message is the status text, whose digits read back as the status, and there is no code or hint. |
| Voicefit.ParseErrorParsed | src/services/voicefit.ts:56-61 | With a parsed body, the error carries the body's code and hint and the status. Its message is the friendly text, falling back to the status text. |
| Voicefit.FormFieldsRoundTrip | src/services/voicefit.ts:80-90 | The fields are `file`, `vocal_range_mode`, `allow_cross_gender` and `mock`, in that order. Reading them back recovers the parameters, with defaults `any`, `false`, `false` applied. |
| Voicefit.FormFields | src/services/voicefit.ts:86-90 | There are four fields, with those names in that order. |
| Voicefit.AnalyzeVoice | src/services/voicefit.ts:92-106 | A result is returned exactly for an OK reply with a readable body, and it is that body. A non-OK reply throws that reply's parsed API error. An OK reply whose body does not parse throws the parse error's message. A thrown `Error` is rethrown with its own message. A thrown non-`Error` becomes the network-failure error. Nothing but an `Error` is thrown. |
| Voicefit.ApiErrorOnlyFromStatus | src/services/voicefit.ts:98-100 | A typed API error comes exactly from a non-OK reply and carries its status. |
| Home.HandleAnalyze | src/pages/Home.tsx:177-206 | Afterwards loading is off, exactly one of result and error is set, a notice appears only with a mock record, a history record is pushed exactly when a result is shown (and holds that result), and the first request uses the given parameters. |
| Home.AnalyzeOutcomes | src/pages/Home.tsx:182-202 | A first success shows the data with an `api` record and no error or notice. A no-retry code shows its message, with no retry. Any other failure retries once with the same parameters and mock = true. A successful retry shows the mock data with a `mock` record and the degraded notice. A failed retry shows the first error's message. |
| Home.ClientErrorsAreErrors | src/pages/Home.tsx:199 | With outcomes from the service client, any error shown is the first failure's own message: the generic text is never needed. |
| Home.NoMockCodesHaveText | src/pages/Home.tsx:27-40 | Every one of the 12 no-retry codes has a friendly text in the service's table. |
| Home.LoadFromHistory | src/pages/Home.tsx:208-212 | Choosing a past record shows its result with the history notice. The error on screen and the loading flag are left as they were. |
| Home.HistoryLoadKeepsError | src/pages/Home.tsx:186-212 | After a run refused with a no-retry code, loading a past record shows its result while the refusal's error stays on screen beside it. |
| Home.CreditsIsChargesMinusUses | src/pages/Home.tsx:70-72 | The balance is the sum of charge amounts minus the sum of use amounts. |
| Home.CreditsAppend | src/pages/Home.tsx:70-72 | The balance of a joined log is the sum of the parts' balances. |
| Home.PushCreditEvent | src/pages/Home.tsx:74-77 | The page's list becomes the stored log after the add, and the two stay in step. |
| Home.ConsumeOneCredit | src/pages/Home.tsx:155-165 | The spend is refused, changing nothing, exactly when the balance is below 1. Otherwise one use of amount 1 is logged first. |
| Home.AddCredits | src/pages/Home.tsx:144-153 | A charge of the amount, with its note, is logged first, and the page stays in step with the store. The notice ends with the fixed charged text. |
| Home.ChargeNoticeNamesAmount | src/pages/Home.tsx:152 | The notice's text before the fixed suffix is the amount's digits and reads back as the amount. |
| Home.PushBalance | src/pages/Home.tsx:74-77 | Below the cap, logging an event moves the balance by exactly that event's amount. At the cap, the balance also loses the contribution of the oldest event, which is trimmed away. |
| Home.ChargeBelowCap | src/pages/Home.tsx:144-153 | While the log is below its cap, a charge raises the balance by exactly its amount. |
| Home.ConsumeBelowCap | src/pages/Home.tsx:155-165 | While the log is below its cap, spending a credit lowers the balance by exactly one. |
| Home.ConsumeAtCapLosesOldest | src/pages/Home.tsx:155-165 | At the cap, spending one credit also removes the dropped oldest event's amount from the balance. |
| Home.CappedLedgerCounterexample | src/pages/Home.tsx:155-165 | With one hundred one-credit charges the balance is 100, and spending one leaves 98. |
| Home.Consume | src/pages/Home.tsx:155-165 | With the balance kept as a running total: refused exactly below one credit, otherwise exactly one less, at any log length. |
| Home.RecordAllBalance | src/pages/Home.tsx:70-77 | With a running total, the balance is the sum over every event ever recorded, and the log is the same capped list the page keeps. |
| Home.AccountAgreesBelowCap | src/pages/Home.tsx:70-72 | Below the cap, the running total equals the page's fold over the log. |
| Home.ChargeAccount | src/pages/Home.tsx:144-153 | A charge raises the running total by the amount and is logged first. |
| Home.HandleRunPrecision | src/pages/Home.tsx:167-175 | A `requested` precision event for the plan and the credit used is logged first. The next load returns that log, and the credit log is untouched. |
| History.SafeParse | src/services/history.ts:7-14 | A missing, empty or unparsable text gives the fallback. Otherwise the parsed value is returned. |
| History.LoadFallsBack | src/services/history.ts:33-36 | A missing, blank or non-JSON entry loads as the empty list. |
| History.AddTrim | src/services/history.ts:28 | The new item is first. The length is min(cap, old length + 1) and never exceeds the cap. The rest is the old list's prefix. |
| History.AddTrimDrops | src/services/history.ts:45 | Below the cap nothing is dropped. At the cap exactly the oldest items are dropped. |
| History.AddAllIsOneTrim | src/services/history.ts:26-31 | Adding items one at a time keeps the newest, newest first: the same list as trimming all of them at once. |
| History.AddAnalysisThenLoad | src/services/history.ts:16-31 | The returned list is what the next load reads. It starts with the record and holds at most 30 entries. The other two logs are unchanged. |
| History.AddCreditThenLoad | src/services/history.ts:33-48 | The same for credit events, with a cap of 100. |
| History.AddPrecisionThenLoad | src/services/history.ts:50-65 | The same for precision events, with a cap of 100. |
| Premium.PrecisionGate | src/components/PremiumAccess.tsx:36-54 | For any spending callback. When not logged in: the login message, no call, no request. On the free plan when the callback declines: the insufficient-credit message and no request. On the free plan when it accepts: a request using 1, with the callback's new credit state. On plus or pro: a request using 0 and no call. |
| Premium.HandleRunPrecision | src/components/PremiumAccess.tsx:36-54 | A request is passed on exactly when the accepted message is shown, and the plan stays selected. |
| Premium.LedgerGate | src/components/PremiumAccess.tsx:42-51 | With the page's `consumeOneCredit` over the capped log: a free-plan request is accepted exactly when the balance is at least 1, and it logs a use first. Below the cap it costs exactly the credit it says it used. At the cap it also costs the trimmed oldest event's contribution. A refused or paid-plan request leaves the credits alone. |
| Premium.RequestPaysWhatItUses | src/components/PremiumAccess.tsx:42-51 | With the corrected running-total account: a free-plan request is accepted exactly when the balance is at least 1. An accepted request costs exactly the credits it says it used, at any log length. A refused one costs nothing. |
| Premium.LabelsDistinct | src/components/PremiumAccess.tsx:11-25 | The three plans have three different precision labels and three different names. |
| Premium.HandleUpgrade | src/components/PremiumAccess.tsx:27-34 | Upgrading selects the given plan. |
| Premium.UpgradeMessageNamesPlan | src/components/PremiumAccess.tsx:29-33 | The upgrade message differs for each plan: the free-plan text, or one naming the trial plan. |
| Recommendations.BuildPlatformLinks | src/services/recommendations.ts:5-14 | Links sent by the server are returned unchanged. Otherwise the YouTube, Melon and Spotify links are searches built from the encoded `title artist`. |
| Recommendations.BuiltLinksShareQuery | src/services/recommendations.ts:8-13 | All three built links search for the same query, which can be read back after each prefix. |
| Recommendations.FilterRecommendations | src/services/recommendations.ts:35-43 | The result is an order-preserving subsequence of the input. It holds exactly the items whose genre, mood, difficulty and range each match, with `all` as a wildcard. |
| Recommendations.FilterAppend | src/services/recommendations.ts:35-36 | Filtering a joined list filters each part where it stands. |
| Recommendations.AllFilterIsIdentity | src/services/recommendations.ts:37-41 | The all-`all` filter returns the list unchanged. |
| Recommendations.SetAddAllIsFirstAppearances | src/services/recommendations.ts:46-47 | Adding every tag to a `Set` gives the distinct tags in order of first appearance. |
| Recommendations.TagGroupsSpec | src/services/recommendations.ts:45-56 | Each group lists, without repeats and in first-appearance order, exactly the candidate tags that some item carries. The genre and mood groups share no tag. |
| Recommendations.CandidatesDisjoint | src/services/recommendations.ts:49-50 | No tag is both a genre candidate and a mood candidate. |
| Recommendations.SortByRank | src/components/Recommendations.tsx:8-9 | The sorted copy is a permutation of the input, in ascending rank. |
| Recommendations.SortByRankStable | src/components/Recommendations.tsx:8-9 | Items of equal rank keep their input order. |
| Recommendations.Top5 | src/components/Recommendations.tsx:8-10 | min(5, n) items are shown, sorted by rank, all taken from the input, and they are the leading items of the stable sort. |
| Recommendations.Top5Stable | src/components/Recommendations.tsx:8-10 | For every rank, the shown items of that rank are the first items of that rank in the input, in input order. |
| Recommendations.OmittedRankNoLower | src/components/Recommendations.tsx:8-10 | Every omitted item's rank is at least every shown item's rank. |
| Recommendations.CardView | src/components/Recommendations.tsx:18-46 | The cover is shown exactly when `cover_url` is non-empty, and the link exactly when `external_url` is non-empty. At most the first two reasons are shown, in order. |
| Guide.GetGuide | src/components/RecordingGuide.tsx:5-11 | The result is always one of the five fixed texts. It is the default text exactly when there is no message or the message is empty. |
| Guide.GuidePriority | src/components/RecordingGuide.tsx:7-9 | Silence beats length, and length beats `wav`; a non-empty message with none of the three keywords gets the generic text. |
| Guide.UpperCaseWavIsGeneric | src/components/RecordingGuide.tsx:9-10 | Matching is case-sensitive. A message with no lower-case `w` and neither other keyword gets the generic text, even if it says `WAV`. |
| Guide.ServerMessagesGuide | src/components/RecordingGuide.tsx:7-8 | The server's silent-audio and empty-audio texts lead to the silence guide, and its too-short text to the length guide. |
| Client.EnvMockModeCases | src/api/client.ts:4 | The environment switch is on exactly for `true` in any mix of upper and lower case. |
| Client.AnalyzeVoice | src/api/client.ts:104-141 | Mock mode sends nothing. Otherwise the wrapped file is sent. The result is the reply's data exactly on an OK reply with a readable body. Every other outcome gives the mock data with a reason. |
| Client.FallbackReasons | src/api/client.ts:105-139 | The reasons, in order: `mockMode=true`; for a non-OK reply, the body's `detail`, then its `message`, then `Server error: N`; for an OK reply whose body fails to parse, the parser's message; for a throw, the thrown message or the network text. |
| Client.UploadFile | src/api/client.ts:114-115 | A bare blob is wrapped as `recording.webm` with its own type, or `audio/webm` if it has none. A `File` is sent as it is. |
| Client.UploadFileIdempotent | src/api/client.ts:114-115 | Wrapping is idempotent: the wrapped file is sent unchanged if given again, and re-wrapping a blob of its type and size yields the same file. |
| Client.MockDataShape | src/api/client.ts:29-95 | The mock data has five songs ranked 1..5 in order. Each has match_percent = score·100, within 0..100, and levels within 1..5. |
| Client.ServerErrorReasonNamesStatus | src/api/client.ts:126 | The default reason's digits read back as the status. |
| Types.LevelNumberInjective | src/types.ts:112-117 | The five level strings denote five distinct numbers in 1..5. |
| Text.ParseDecimalOfDecimal | src/services/voicefit.ts:53 | Rendering a status in decimal and reading it back gives the status. |

## Left out

- Browser media (`getUserMedia`, `MediaRecorder`, `decodeAudioData`, object URLs, preview
  players) enters only as parameters: the permission answer, the supported formats, the decoded
  buffer or decoding failure, and the chunk size.
- The `<audio>` duration probe (`src/components/AnalyzeUploader.tsx:19-36`) is an oracle
  outcome. A `NaN` or infinite duration is not modelled: durations are reals.
- The network is left out: `fetch`, multipart encoding, the `/health` call
  (`src/services/voicefit.ts:67-78`), the iTunes artwork lookup and its regular expression
  (`src/services/recommendations.ts:16-33`), and the base URLs. A reply is a status plus the
  body read under each expected shape.
- `localStorage`, `JSON.parse` and `JSON.stringify` are replaced by an abstract key-to-value
  store whose values are already parsed. Stored JSON of a different shape is treated like
  unparsable text, where the code would return it unchecked. The `typeof window` guard for
  server-side rendering is left out. Storage writes are assumed never to fail. In the page,
  `pushAnalysisRecord` runs inside the `try` of `handleAnalyze` (src/pages/Home.tsx:182-186), so
  a `setItem` that throws (on a full quota, say) after a successful analysis would start the
  mock retry and replace the real result; the model does not include that path.
- `encodeURIComponent` is a function parameter.
- Floating-point display is left out: the measured values appended in parentheses to the size
  and duration messages (`toFixed`, `src/components/AnalyzeUploader.tsx:15-17, 43, 70`),
  profile percentages, and confidence rounding. `Uploader.Message` renders the fixed part only.
- Uploader.Message: the size and duration texts omit the `(현재 …)` suffix, so they are a
  prefix of the displayed text, not all of it.
- Ids and timestamps (`createId`, `new Date().toISOString()`, `Date.now`) are parameters.
  Timer intervals are discrete `Tick` events carrying the elapsed seconds.
- React's state batching and stale closures are not modelled: each handler reads the state as
  it is when the handler runs.
- The authentication handlers and `src/services/auth.ts` are stubs that always fail, and the
  page then logs in locally. They are left out, as are the presentational components
  (AuthModal, SignupModal, MyPage, AnalysisHistory, ProfileBars, FileUploader,
  ShareProfileCard).
- Voicefit.ToUserFriendlyErrorMessage: the code table is a plain map. A code naming an
  `Object.prototype` member (such as `toString`) is treated as unknown, where the code would
  use the inherited function.
- Text.LowerAscii: `toLowerCase` is modelled on ASCII letters only. No other character lowers
  to one of `t`, `r`, `u`, `e`, so comparing the lowered flag with `true` is exact.
- Wav.DecodeOfEncode requires that every header field fits its width (`FitsHeader`). Without
  that, `Wav.ParseHeaderOfEncode` still gives the wrapped values.
- Wav.EncodeWav: the sample rate is a whole number (`nat`) and every sample is a real number.
  In the browser `sampleRate` is a float, and `setUint32` truncates a fractional rate or byte
  rate (src/components/Recorder.tsx:19, 24, 43-44). A NaN sample passes through
  `Math.max`/`Math.min` and `setInt16` writes it as 0 (lines 53-56). Neither float case is
  modelled.
- Recorder: MIME selection stops at the first supported entry, as `find` does. The chunks of a
  recording enter only as their total size.
- Recorder: the `RecorderStopped` event models `onstop` up to its `await`: `stopTimer`, the
  recorded time and the too-short check. It emits the hand-off (`onRecorded`, or the conversion
  failure notice) at that point. The program calls `onRecorded` only after the WAV conversion and
  after `setPreviewUrl` (src/components/Recorder.tsx:155-167); the preview update is the separate
  `PreviewReplaced` event.
- Premium.RequestPaysWhatItUses holds only with the corrected running-total account
  (`Home.Consume`) described under Findings. With the page's `consumeOneCredit`,
  `Premium.LedgerGate` states the cost as written, including the extra loss at the cap.
- The page's view-mode switch (`setViewMode`) is not modelled. `Home.LoadFromHistory` models
  only the result, error, notice and loading state of the analysis view.

## Findings

| source | as written | input that shows it | evidently intended | confidence | as-written member | corrected member |
|---|---|---|---|---|---|---|
| src/pages/Home.tsx:155-165 | The balance is recomputed from the credit log, which `addCreditEvent` (src/services/history.ts:45) trims to its newest 100 entries, so each trimmed event's amount silently leaves the balance. | A log of 100 charges of 1 credit (balance 100). Spending one credit leaves 98, not 99. | Spending one credit lowers the balance by exactly one, and trimming the display log never changes the balance. | high, not executed | Home.CappedLedgerCounterexample | Home.Consume |
| src/components/Recorder.tsx:135-192 | The stop guard and the timer handle are shared across recorders. A second start resets the guard and overwrites the timer handle while the first recorder's `onstop` is still pending, and that `onstop` then clears the new timer. | Start; stop; start again before the first `onstop`; that `onstop` then clears the second recorder's timer; the first recorder's interval reaches 20 s. It calls `stop()` on the already-stopped first recorder and sets the shared guard, so the user's stop of the second recorder does nothing, and no timer stops it either. | Each recorder is stopped at most once, and the current recorder can always be stopped by the user. | medium, not executed | Recorder.SharedRefsOverlapCounterexample | Recorder.PerRecorderStopsAtMostOnce |
| src/components/Recorder.tsx:90-99 | The cleanup of the effect keyed on `previewUrl` clears `intervalRef.current` but does not reset it. The WAV conversion in `onstop` is asynchronous, and when it finishes it sets a new preview. If a new recording has started by then, the cleanup clears that recording's interval. | Record and stop. Start a second recording before the first conversion finishes; the conversion then succeeds. The second recording's timer is cleared: its elapsed display freezes and the 20-second auto-stop never fires. | The preview cleanup releases the old preview only, and every recording stops itself at 20 s. | medium, not executed | Recorder.PreviewCleanupCancelsAutoStop | Recorder.PerRecorderTimerSurvives |
