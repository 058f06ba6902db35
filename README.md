# Arabic voice chat: a verified model of its core

The application is an Arabic-language voice tutor. The browser captures the
microphone at 48 kHz and cuts it into 4096-sample worklet frames. Each frame
is downsampled to 16 kHz, converted to 16-bit PCM, base64-encoded and
streamed to a live speech model. Audio that comes back is queued and played
one chunk at a time. Around this sit:

- the scoring rules of a Python analysis service and of the client;
- a session report with grades and teacher feedback;
- a cost meter;
- a file-backed store of per-character prompt overrides, and a policy that
  syncs it with the prompts shipped in code;
- the server routes for admin login and sync, ephemeral token issuing and
  transcription;
- the triple-click gesture that opens the admin panel.

This project models that core in Dafny and proves what each part promises.
It has one module per source file, plus four shared modules:

- `Wrappers`: Option and Result.
- `JsNumber`: `Math.round`, truncation, the JavaScript `%`, and Python's
  `round`.
- `Text`: decimal digits and `toFixed`.
- `Base64`: `btoa`/`atob`, following section 4 of RFC 4648 and the
  forgiving-base64 decode of the WHATWG Infra standard.

Some code is stateful: the worklet processor, the playback queue, the
connection hook, the store, the admin session map and the click counter.
Each of these is a Dafny `class`. Its methods carry `modifies` clauses and
state the whole new state. Array converters keep their arrays. Loops in the
source are `while`/`for` loops with invariants:

- the PCM conversions, the copy loop of the worklet and the resampler;
- the filler scan and the playback drain;
- the model fallback loop and the cleanup of expired sessions;
- `syncAllCharacters`.

Each loop is proved against a specification function, and the promised
properties are proved about that function as lemmas.

### Behaviour the model exposes

These are properties of the code as written. Each is proved.

- Decoding a PCM sample and encoding it again gives `v - 1` for every
  positive `v`, because the encoder scales positives by 32767 while the
  decoder divides by 32768 (`AudioUtils.PcmOfFloat`).
- The articulation rate of the analysis service is always 300 (or 0 without
  speech). Its articulation points are therefore only ever 0 or 10
  (`Analyze.TimingRates`, `Analyze.ArticulationPointsOfTiming`).
- The shipped character table declares no `lastUpdated`. So the code date is
  an invalid date, and a stored override is never "outdated"
  (`SyncInstructions.ShippedTableNeverOutdated`).
- The status report and the sync disagree on what a deliberate override is.
  The report counts a missing entry, a missing `updatedBy` and an empty one
  as deliberate; the sync counts none of these
  (`SyncInstructions.DeliberateDisagreement`).
- Version comparison treats a non-numeric component as NaN. Every comparison
  with NaN is false, so the order is not transitive
  (`SyncInstructions.NaNBreaksTransitivity`).
- The bearer token is the header with its first `Bearer ` removed wherever it
  occurs, not only at the start (`AdminSync.BearerTokenShape`).
- Filler detection counts overlapping fillers: a phrase filler also counts
  the single-word filler inside it (`SpeechAnalysis.PhraseCountsItsWord`).
- `connect` stores the new session without closing a previous one, and
  `onclose` leaves the session handle stored (`GeminiLive.LiveConnection.Connect`,
  `GeminiLive.LiveConnection.OnClose`).
- When the worklet module fails to load, the stream and the audio context
  stay stored while recording does not start
  (`GeminiLive.LiveConnection.StartRecording`).
- `onerror` and `onclose` change only the status; capture keeps running
  (`GeminiLive.LiveConnection.OnError`, `GeminiLive.LiveConnection.OnClose`).
- The hook connects with the API key it is given; the token route is
  modelled on its own (`AuthToken.PostOutcome`).
- The transcription route answers 500 with the last error when every model
  fails (`Transcribe.Post`).

## Model

| member | source | states |
|---|---|---|
| AudioUtils.Clamp | lib/audio/audioUtils.ts:14 | the result lies in [-1, 1], equals the input inside it and saturates outside it |
| AudioUtils.PcmSample | lib/audio/audioUtils.ts:14-16 | -1 or below gives -32768, 1 or above gives 32767, and the sign is preserved; the result is an int16 |
| AudioUtils.PcmZero | lib/audio/audioUtils.ts:16 | silence (0) encodes to 0 |
| AudioUtils.PcmMonotone | lib/audio/audioUtils.ts:14-16 | a larger input never gives a smaller sample |
| AudioUtils.PcmQuantisation | lib/audio/audioUtils.ts:16 | the sample is within one step of the clamped input scaled by 32768 (negative) or 32767 (otherwise) |
| AudioUtils.Float32To16BitPcm | lib/audio/audioUtils.ts:10-19 | a new array of the same length whose every element is the PCM sample of the input element |
| AudioUtils.ToFloat | lib/audio/audioUtils.ts:55 | a sample divided by 32768 lies in [-1, 1) and keeps its sign and zero |
| AudioUtils.Int16ToFloat32 | lib/audio/audioUtils.ts:50-58 | a new array of the same length, every element the sample divided by 32768, all in [-1, 1) |
| AudioUtils.PcmOfFloat | lib/audio/audioUtils.ts:50-58 | encoding a decoded sample gives it back for v <= 0 and gives v - 1 for v > 0 |
| AudioUtils.ByteRoundTrip | lib/audio/audioUtils.ts:25 | the little-endian byte pair of a sample reads back as that sample (two's complement) |
| AudioUtils.SampleBytes | lib/audio/audioUtils.ts:25 | the byte view of a sample buffer has two bytes per sample, low byte first |
| AudioUtils.SamplesFromBytes | lib/audio/audioUtils.ts:44 | the sample view of an even byte buffer has one sample per byte pair |
| AudioUtils.BytesRoundTrip | lib/audio/audioUtils.ts:24-45 | viewing the bytes of a sample buffer as samples gives the very samples back |
| AudioUtils.Latin1 | lib/audio/audioUtils.ts:26-30 | the binary string has one character per byte, whose code is that byte |
| AudioUtils.Codes | lib/audio/audioUtils.ts:40-43 | `charCodeAt` of every character of a binary string |
| AudioUtils.Btoa | lib/audio/audioUtils.ts:31 | `btoa` succeeds exactly on binary strings |
| AudioUtils.Atob | lib/audio/audioUtils.ts:38 | `atob` succeeds exactly when the text decodes, and the decoded string's codes are the decoded bytes |
| AudioUtils.SamplesRoundTrip | lib/audio/audioUtils.ts:24-45 | decoding the base64 transport text of a sample buffer gives back exactly those samples |
| AudioUtils.Int16ArrayToBase64 | lib/audio/audioUtils.ts:24-32 | the text is the base64 of the buffer's bytes taken as a binary string |
| AudioUtils.Base64ToInt16Array | lib/audio/audioUtils.ts:37-45 | fails exactly when `atob` throws or the byte count is odd; otherwise holds the decoded samples |
| AudioUtils.CopyCodes | lib/audio/audioUtils.ts:39-43 | the loop fills a new byte array with the code of every character |
| AudioUtils.PcmOfBytes | lib/audio/audioUtils.ts:44 | the sample view of the byte array |
| AudioUtils.CatmullRomEnds | lib/audio/audioUtils.ts:89-97 | the spline passes through its second point at t = 0 and its third at t = 1 |
| AudioUtils.InterpolateAtSample | lib/audio/audioUtils.ts:78-97 | at an integral position the interpolated value is that source sample |
| AudioUtils.Position | lib/audio/audioUtils.ts:78 | the source position of an output sample is non-negative |
| AudioUtils.Resampled | lib/audio/audioUtils.ts:73-98 | round(length / ratio) samples, each the interpolation at i * ratio |
| AudioUtils.PositionInRange | lib/audio/audioUtils.ts:79-86 | every position lies inside the input, and all four neighbour indices are clamped into [0, length) |
| AudioUtils.DownsampleByThree | lib/audio/audioUtils.ts:78-97 | resampling 48000 to 16000 keeps every third sample: output[i] = input[3i] |
| AudioUtils.ResampleAudio | lib/audio/audioUtils.ts:64-101 | the same array when the rates are equal, otherwise the resampled signal |
| AudioUtils.Frames | lib/audio/audioUtils.ts:111-131 | every frame the processor posts has exactly 4096 samples |
| AudioUtils.Leftover | lib/audio/audioUtils.ts:111-131 | the samples held between calls number fewer than 4096 |
| AudioUtils.FramesSplit | lib/audio/audioUtils.ts:121-131 | the frames, concatenated in order, followed by the leftover, are the whole stream; there are length / 4096 frames and length % 4096 leftover samples |
| AudioUtils.FramesSnoc | lib/audio/audioUtils.ts:122-130 | one more sample either extends the leftover or completes and posts a frame |
| AudioUtils.AudioProcessor.constructor | lib/audio/audioUtils.ts:109-114 | a 4096-sample buffer with nothing received and nothing posted |
| AudioUtils.AudioProcessor.Push | lib/audio/audioUtils.ts:122-131 | one sample is received and the posted frames grow by what it completes, keeping the buffer equal to the leftover |
| AudioUtils.AudioProcessor.PushAll | lib/audio/audioUtils.ts:121-132 | all samples of the channel are received in order, and the posted frames stay the frames of everything received |
| AudioUtils.AudioProcessor.Process | lib/audio/audioUtils.ts:116-136 | the first channel of the first input (if any) is pushed and the processor stays alive |
| Base64.EncodeSextet | lib/audio/audioUtils.ts:31 | a 6-bit value maps to an alphabet character, never `=` |
| Base64.DecodeSextet | lib/audio/audioUtils.ts:38 | an alphabet character decodes to the value that encodes to it |
| Base64.SextetRoundTrip | lib/audio/audioUtils.ts:31-38 | encoding then decoding a 6-bit value gives it back |
| Base64.EncodeBody | lib/audio/audioUtils.ts:31 | the unpadded encoding is all alphabet and never one character past a multiple of four |
| Base64.BodyLength | lib/audio/audioUtils.ts:31 | 3n bytes give 4n characters, 3n+1 give 4n+2 and 3n+2 give 4n+3 |
| Base64.Padding | lib/audio/audioUtils.ts:31 | two `=` after a single trailing byte, one after a pair, none otherwise |
| Base64.Encode | lib/audio/audioUtils.ts:31 | the padded encoding has a length that is a multiple of four |
| Base64.RemoveWhitespace | lib/audio/audioUtils.ts:38 | `atob` drops ASCII whitespace, and text without any is unchanged |
| Base64.GroupRoundTrip | lib/audio/audioUtils.ts:31-38 | the four characters of a three-byte group decode to those bytes |
| Base64.PairRoundTrip | lib/audio/audioUtils.ts:31-38 | the three characters of a trailing pair decode to the pair |
| Base64.SingleRoundTrip | lib/audio/audioUtils.ts:31-38 | the two characters of a trailing byte decode to that byte |
| Base64.BodyRoundTrip | lib/audio/audioUtils.ts:31-38 | decoding the unpadded encoding gives the bytes back |
| Base64.EncodedHasNoWhitespace | lib/audio/audioUtils.ts:31-38 | whitespace removal leaves an encoding unchanged |
| Base64.StripEncoded | lib/audio/audioUtils.ts:31-38 | stripping the padding of an encoding leaves its unpadded body |
| Base64.RoundTrip | lib/audio/audioUtils.ts:31-38 | `atob(btoa(x))` gives the bytes back for every byte string |
| AudioPlayer.FirstAudible | components/AudioPlayer.tsx:84-89 | the position of the first non-empty chunk: every chunk before it is empty |
| AudioPlayer.SkipFront | components/AudioPlayer.tsx:85-86 | shifting an empty chunk off the queue keeps the FIFO bookkeeping |
| AudioPlayer.PlayFront | components/AudioPlayer.tsx:85-88 | shifting and playing an audible chunk keeps the FIFO bookkeeping, and it is the next in enqueue order |
| AudioPlayer.PlaybackQueue.constructor | components/AudioPlayer.tsx:15-19 | an empty queue, not playing, nothing played |
| AudioPlayer.PlaybackQueue.SkipEmpty | components/AudioPlayer.tsx:84-89 | the drain drops exactly the empty chunks in front of the first audible one |
| AudioPlayer.PlaybackQueue.Advance | components/AudioPlayer.tsx:84-96 | the drain plays the first audible chunk, or empties the queue, clears the flag and calls the completion once |
| AudioPlayer.PlaybackQueue.ProcessQueue | components/AudioPlayer.tsx:76-97 | nothing happens while a drain runs or the queue is empty; otherwise the first audible chunk plays or the drain ends |
| AudioPlayer.PlaybackQueue.Enqueue | components/AudioPlayer.tsx:102-105 | the chunk joins the back of the queue, and a drain starts when none is running |
| AudioPlayer.PlaybackQueue.PlaybackEnded | components/AudioPlayer.tsx:65-67 | after a chunk ends, the next audible chunk in FIFO order plays, or the drain ends |
| AudioPlayer.PlaybackQueue.ClearQueue | components/AudioPlayer.tsx:110-112 | only waiting chunks are dropped; the chunk playing and the flag are untouched |
| GeminiLive.FirstText | hooks/useGeminiLive.ts:89-95 | the first part with a non-empty text, or none exactly when no part has one |
| GeminiLive.Pcm | hooks/useGeminiLive.ts:169-170 | the PCM sample of every resampled value |
| GeminiLive.FramePayloadDecodes | hooks/useGeminiLive.ts:162-172 | the text sent for a frame decodes to the PCM value of every third captured sample |
| GeminiLive.LiveConnection.constructor | hooks/useGeminiLive.ts:25-39 | disconnected, not recording, no session and no resources |
| GeminiLive.LiveConnection.Connect | hooks/useGeminiLive.ts:45-122 | status 'connecting' and the new session stored (the old one not closed), or on failure the session kept, status 'error' and the message reported |
| GeminiLive.LiveConnection.OnOpen | hooks/useGeminiLive.ts:77-80 | the status becomes 'connected' |
| GeminiLive.LiveConnection.OnClose | hooks/useGeminiLive.ts:106-109 | the status becomes 'disconnected' and nothing else changes |
| GeminiLive.LiveConnection.OnError | hooks/useGeminiLive.ts:99-105 | status 'error', and the error's message or 'Connection error' reported |
| GeminiLive.LiveConnection.OnMessage | hooks/useGeminiLive.ts:81-98 | every message is queued, and its audio is forwarded when present |
| GeminiLive.LiveConnection.StartRecording | hooks/useGeminiLive.ts:127-196 | connects only when no session is stored; a refused microphone changes no resource; a module failure leaves stream and context stored; success records |
| GeminiLive.LiveConnection.OnWorkletFrame | hooks/useGeminiLive.ts:161-182 | a frame is sent, resampled, PCM-encoded and base64-encoded, only while a session is stored |
| GeminiLive.LiveConnection.StopRecording | hooks/useGeminiLive.ts:201-226 | all three resources released in order and cleared, recording off; a second call releases nothing |
| GeminiLive.LiveConnection.Disconnect | hooks/useGeminiLive.ts:231-240 | recording stopped, the session closed only if one exists, status 'disconnected'; a second call releases nothing |
| SpeechAnalysis.FillersNonEmpty | lib/audio/speechAnalysis.ts:97-109 | the filler list has eleven non-empty entries |
| SpeechAnalysis.MatchesFit | lib/audio/speechAnalysis.ts:115-126 | the non-overlapping matches of a filler fit in the text |
| SpeechAnalysis.OccurrenceIsFound | lib/audio/speechAnalysis.ts:115-126 | any occurrence of a filler makes its count at least one |
| SpeechAnalysis.MatchesStep | lib/audio/speechAnalysis.ts:118-124 | the scan skips past a match or moves one character on |
| SpeechAnalysis.Entries | lib/audio/speechAnalysis.ts:115-126 | one entry per non-overlapping match of every filler, grouped in list order, each from the list with timestamp 0 |
| SpeechAnalysis.TotalCountsOne | lib/audio/speechAnalysis.ts:115-126 | the total count includes every match of any one filler |
| SpeechAnalysis.TotalCountsTwo | lib/audio/speechAnalysis.ts:115-126 | the total count includes the matches of any two fillers, each counted separately |
| SpeechAnalysis.NestedFillerCounted | lib/audio/speechAnalysis.ts:97-126 | a filler inside another is found wherever the outer one occurs, and both count toward the total |
| SpeechAnalysis.PhraseCountsItsWord | lib/audio/speechAnalysis.ts:97-126 | the phrase ya'ni kaza counts both as itself and as the ya'ni it opens with |
| SpeechAnalysis.FillerEntries | lib/audio/speechAnalysis.ts:96-129 | the number of entries is the total filler count |
| SpeechAnalysis.ScanFiller | lib/audio/speechAnalysis.ts:115-126 | the scan loop yields one entry per non-overlapping match of the filler |
| SpeechAnalysis.DetectArabicFillers | lib/audio/speechAnalysis.ts:96-129 | the count equals the number of words, which is the total filler count |
| SpeechAnalysis.SpaceRuns | lib/audio/speechAnalysis.ts:136 | whitespace runs number at most the text length |
| SpeechAnalysis.Pieces | lib/audio/speechAnalysis.ts:136 | splitting on whitespace gives between 1 and length + 1 pieces |
| SpeechAnalysis.NoSpaceOnePiece | lib/audio/speechAnalysis.ts:136 | text without whitespace is one piece |
| SpeechAnalysis.HesitationRatio | lib/audio/speechAnalysis.ts:134-145 | non-negative, zero exactly without fillers, and times the piece count equals 100 times the filler count; the duration is ignored |
| SpeechAnalysis.CalculateHesitationRatio | lib/audio/speechAnalysis.ts:134-145 | the hesitation ratio of the transcript |
| SpeechAnalysis.Band | lib/audio/speechAnalysis.ts:150-156 | the band is how many of the thresholds 20, 40, 60 and 80 the score reaches |
| SpeechAnalysis.BandMonotone | lib/audio/speechAnalysis.ts:150-167 | a higher score never gives a lower band |
| SpeechAnalysis.ConfidenceLevel | lib/audio/speechAnalysis.ts:150-156 | the confidence label of the score's band |
| SpeechAnalysis.FluencyLevel | lib/audio/speechAnalysis.ts:161-167 | the fluency label of the score's band |
| SpeechAnalysis.ProficiencyLevel | lib/audio/speechAnalysis.ts:172-187 | the label of the band of (confidence + fluency) / 2 - hesitation |
| SpeechAnalysis.ProficiencyMonotone | lib/audio/speechAnalysis.ts:172-187 | more confidence or fluency, or less hesitation, never lowers the band |
| SpeechAnalysis.ConfidenceFeedback | lib/audio/speechAnalysis.ts:199-211 | advice only below 50, praise only at 80 or more, nothing from 50 to 79; every line is one of the four confidence lines |
| SpeechAnalysis.FluencyFeedback | lib/audio/speechAnalysis.ts:214-225 | advice only below 50, praise only at 80 or more, nothing from 50 to 79, never both pace lines; every line is one of the four fluency lines |
| SpeechAnalysis.FillerLineStart | lib/audio/speechAnalysis.ts:228-240 | the filler line starts with its fixed prefix |
| SpeechAnalysis.FillerFeedback | lib/audio/speechAnalysis.ts:228-240 | at most one filler line |
| SpeechAnalysis.EncouragementShape | lib/audio/speechAnalysis.ts:199-249 | no encouragement opens with R or is a confidence or fluency line |
| SpeechAnalysis.FeedbackShape | lib/audio/speechAnalysis.ts:192-252 | one to seven lines, ending with the encouragement for the overall score and with no other encouragement |
| SpeechAnalysis.FillerLines | lib/audio/speechAnalysis.ts:228-240 | the filler lines of the result |
| SpeechAnalysis.ConfidenceLines | lib/audio/speechAnalysis.ts:199-211 | the confidence lines of the result |
| SpeechAnalysis.FluencyLines | lib/audio/speechAnalysis.ts:214-225 | the fluency lines of the result |
| SpeechAnalysis.GenerateFeedback | lib/audio/speechAnalysis.ts:192-252 | the feedback: confidence, fluency and filler lines, then one encouragement |
| Analyze.Positive | python-service/analyze.py:46 | holds exactly the positive values of the input, and is empty exactly when none is positive |
| Analyze.Defined | python-service/analyze.py:75 | holds exactly the defined values of the input, and drops nothing exactly when every value is defined |
| Analyze.SumPositive | python-service/analyze.py:51 | a non-empty sum of positives is positive |
| Analyze.MeanPositive | python-service/analyze.py:51-58 | the mean of voiced pitch is positive |
| Analyze.MinOf | python-service/analyze.py:53 | a member no larger than any element |
| Analyze.MaxOf | python-service/analyze.py:54 | a member no smaller than any element |
| Analyze.CountAbove | python-service/analyze.py:95 | the number of indices whose value is above the threshold: all of them exactly when each is above, none exactly when none is |
| Analyze.Timing | python-service/analyze.py:92-110 | speaking and silence time add up to the duration |
| Analyze.FractionBounds | python-service/analyze.py:99 | a fraction of frames times the duration lies in [0, duration] |
| Analyze.TimingBounds | python-service/analyze.py:99-104 | speaking and silence time lie in [0, duration] and the pause ratio in [0, 100] |
| Analyze.TimingRates | python-service/analyze.py:106-110 | the speech rate is 300 times the speaking share, and the articulation rate is 300 whenever anyone speaks |
| Analyze.ConfidenceScore | python-service/analyze.py:167-214 | the confidence score lies in [50, 100] |
| Analyze.CalculateConfidenceScore | python-service/analyze.py:167-214 | the point-by-point computation gives the confidence score |
| Analyze.ConfidenceMonotone | python-service/analyze.py:187-207 | more intensity or harmonicity, or less pitch variation, jitter or shimmer, never lowers the score |
| Analyze.RatePoints | python-service/analyze.py:230-241 | at most 35; 35 exactly for a rate in [150, 200]; 0 exactly for a non-positive rate |
| Analyze.FluencyScore | python-service/analyze.py:217-263 | the fluency score lies in [50, 100] |
| Analyze.CalculateFluencyScore | python-service/analyze.py:217-263 | the point-by-point computation gives the fluency score |
| Analyze.FluencyMonotoneInPauses | python-service/analyze.py:243-251 | fewer pauses never lower the fluency score |
| Analyze.ArticulationPointsOfTiming | python-service/analyze.py:108-110 | the articulation points are 10 whenever anyone speaks, and 0 otherwise |
| Analyze.RoundedScoresExact | python-service/analyze.py:156-159 | rounding whole scores to two decimals changes nothing, and the overall is their exact mean |
| Analyze.Round2Whole | python-service/analyze.py:156-157 | a whole number rounds to itself |
| Analyze.Round2Half | python-service/analyze.py:159 | a half-integer rounds to itself |
| Analyze.AnalysisOutcome | python-service/analyze.py:28-161 | fails exactly when no frame is voiced, with the no-voice message; otherwise both scores are whole and in [50, 100] and the overall is their mean |
| Analyze.PitchVariation | python-service/analyze.py:51-58 | the variation coefficient is the rounded ratio of deviation to mean pitch, which is positive |
| Analyze.RecordPitch | python-service/analyze.py:130-161 | the pitch record holds the rounded statistics of the voiced frames |
| Analyze.RoundedCv | python-service/analyze.py:58 | the coefficient of variation is std / mean * 100 rounded to two decimals |
| Analyze.AnalyzeAudio | python-service/analyze.py:266-305 | 400 exactly for a non-audio content type, 500 exactly when analysis fails, and otherwise the analysis and the filename |
| SessionReport.CalculateAverages | components/SessionReport.tsx:19-64 | all seven averages are 0 for no results, otherwise each is the rounded mean of its metric |
| SessionReport.SumWithin | components/SessionReport.tsx:32-51 | a sum of values in [lo, hi] lies in [n lo, n hi] |
| SessionReport.AverageWithin | components/SessionReport.tsx:55-62 | a rounded average of values in [lo, hi] lies in [lo, hi] |
| SessionReport.PushOverall | components/SessionReport.tsx:74-82 | appends the overall message for the average |
| SessionReport.PushConfidence | components/SessionReport.tsx:84-91 | appends the confidence message |
| SessionReport.PushFluency | components/SessionReport.tsx:93-100 | appends the fluency message |
| SessionReport.PushPace | components/SessionReport.tsx:102-109 | appends the pace message |
| SessionReport.PushPauses | components/SessionReport.tsx:111-118 | appends the pause message |
| SessionReport.GenerateTeacherFeedback | components/SessionReport.tsx:71-122 | the teacher feedback for the averages |
| SessionReport.TeacherFeedbackShape | components/SessionReport.tsx:71-122 | exactly five messages, one per category in order, and the pace message is the praise exactly for an optimal rate |
| SessionReport.GradeRank | components/SessionReport.tsx:127-140 | one of the twelve grades |
| SessionReport.Grade | components/SessionReport.tsx:127-140 | the grade of the score's rank |
| SessionReport.GradeMonotone | components/SessionReport.tsx:127-140 | a higher score never gives a lower grade |
| SessionReport.GradeEnds | components/SessionReport.tsx:128-139 | 'A+' exactly at 90 or more, 'F' exactly below 40 |
| SessionReport.PerformanceLevel | components/SessionReport.tsx:145-151 | the label of the band at 80/60/40/20 |
| SessionReport.OptimalRateAgrees | components/SessionReport.tsx:290-299 | feedback, indicator, strengths and areas all treat a rate in [150, 200] as optimal |
| SessionReport.FallbackItems | components/SessionReport.tsx:348-374 | the fallback strength and the fallback area each appear exactly when no other item of voice, flow or pace does, so neither list is empty |
| SessionReport.FallbackStrength | components/SessionReport.tsx:348-358 | 'Consistent practice' appears exactly when voice, flow and pace are all missing from the strengths |
| SessionReport.FallbackArea | components/SessionReport.tsx:364-374 | 'Continue challenging yourself' appears exactly when no area of voice, flow or pace is listed |
| SessionReport.AreaMembers | components/SessionReport.tsx:364-374 | each area appears exactly under its own condition |
| ChatMeter.MeterCosts | components/ChatMeter.tsx:23-35 | the total is the input cost plus the output cost |
| ChatMeter.CostPerSecond | components/ChatMeter.tsx:25-30 | 25 tokens a second at 2.10 and 8.50 dollars a million tokens |
| ChatMeter.CostsMonotone | components/ChatMeter.tsx:23-35 | costs are non-negative and never decrease as seconds grow |
| ChatMeter.FormatCostDecimals | components/ChatMeter.tsx:37-40 | a dollar sign, then the cost rounded to 4 decimals below 0.01 and to 3 otherwise |
| ChatMeter.FormatTimeShape | components/ChatMeter.tsx:42-47 | under a minute, seconds with one decimal; otherwise whole minutes and seconds |
| JsNumber.RoundHalfUp | components/SessionReport.tsx:56-62 | `Math.round` is within one half of its argument, rounding halves up |
| JsNumber.Trunc | lib/audio/audioUtils.ts:16 | truncation toward zero |
| JsNumber.Rem | components/SessionReport.tsx:68 | JavaScript `%` takes the sign of the dividend and stays below the divisor |
| JsNumber.RemBounds | components/ChatMeter.tsx:45 | the remainder is the dividend less a truncated multiple of the divisor |
| JsNumber.NearestEven | python-service/analyze.py:159 | the nearest integer, exact on integers |
| JsNumber.RoundHalfEven | python-service/analyze.py:130-161 | Python `round` to a number of decimals is within half a unit |
| JsNumber.RoundHalfEvenExact | python-service/analyze.py:156-159 | a value already at that precision rounds to itself |
| JsNumber.MinutesSecondsSplit | components/SessionReport.tsx:67-68 | seconds lie in [0, 60) and 60 minutes plus seconds is the whole duration |
| Text.NatToStringValue | components/ChatMeter.tsx:46 | the decimal digits of a number read back as that number |
| Text.IntToString | components/ChatMeter.tsx:46 | at least one character, with a minus sign exactly for negatives |
| Text.PadZerosValue | components/ChatMeter.tsx:38-39 | leading zeros do not change the value |
| Text.FixedUnits | components/ChatMeter.tsx:38-39 | `toFixed` rounds the scaled value to the nearest unit |
| Text.ToFixedShape | components/ChatMeter.tsx:38-39 | `toFixed` writes digits, a point and exactly the requested decimals, reading as the rounded value |
| Text.ToFixedNonNegative | components/ChatMeter.tsx:38-39 | a non-negative `toFixed` is the fixed text of its rounded units |
| SyncInstructions.Split | lib/syncInstructions.ts:32-33 | at least one piece, none holding the separator |
| SyncInstructions.SplitJoin | lib/syncInstructions.ts:32-33 | joining the pieces with the separator gives the text back |
| SyncInstructions.ComponentValue | lib/syncInstructions.ts:32-33 | a component is a number exactly when it is all digits, and NaN otherwise |
| SyncInstructions.ParseVersion | lib/syncInstructions.ts:32-33 | one component per piece |
| SyncInstructions.CompareFrom | lib/syncInstructions.ts:35-40 | the comparison returns only -1, 0 or 1 |
| SyncInstructions.CompareVersions | lib/syncInstructions.ts:31-41 | the loop gives the comparison of the two parsed versions |
| SyncInstructions.CompareReflexive | lib/syncInstructions.ts:31-41 | a version compares equal to itself |
| SyncInstructions.CompareAntisymmetric | lib/syncInstructions.ts:31-41 | swapping the arguments negates the result |
| SyncInstructions.CompareDecided | lib/syncInstructions.ts:35-40 | the result is 1 exactly when the first differing component of the first three is greater |
| SyncInstructions.CompareTransitive | lib/syncInstructions.ts:31-41 | for numeric versions the order is transitive |
| SyncInstructions.NaNBreaksTransitivity | lib/syncInstructions.ts:31-41 | with a NaN component the order is not transitive |
| SyncInstructions.IsCustomInstructionOutdated | lib/syncInstructions.ts:46-60 | true exactly when a stored entry exists for a known character and the code date is later |
| SyncInstructions.SyncStep | lib/syncInstructions.ts:66-148 | the result names the character, and only a sync writes |
| SyncInstructions.SyncCharacterInstruction | lib/syncInstructions.ts:66-148 | the result and the new store are those of the sync policy |
| SyncInstructions.SyncErrorIff | lib/syncInstructions.ts:72-79 | 'error' exactly for an unknown character, with the store untouched and version 'unknown' |
| SyncInstructions.SyncOutcome | lib/syncInstructions.ts:84-147 | first sync writes with 'auto-sync'; up-to-date without force leaves it; a deliberate outdated override without force is skipped; otherwise it is rewritten; a write stores the code's prompt and voice at now and changes nothing else |
| SyncInstructions.ResyncIsNoOp | lib/syncInstructions.ts:101-114 | right after a sync, an unforced sync at any later time reports 'up-to-date' and changes nothing |
| SyncInstructions.WrittenAt | lib/syncInstructions.ts:134-147 | a sync writes the entry at the current time |
| SyncInstructions.FreshIsUpToDate | lib/syncInstructions.ts:101-114 | a stored entry that is not outdated is left alone by an unforced sync |
| SyncInstructions.ForcedSyncSticks | lib/syncInstructions.ts:117-139 | a forced sync writes 'force-sync', which later unforced syncs treat as a deliberate override |
| SyncInstructions.ShippedTableNeverOutdated | lib/syncInstructions.ts:46-60 | with the shipped table no entry is ever outdated |
| SyncInstructions.Ids | lib/syncInstructions.ts:155 | the ids of the table, in order |
| SyncInstructions.SyncSeq | lib/syncInstructions.ts:154-163 | one result per id, in order |
| SyncInstructions.SyncAllCharacters | lib/syncInstructions.ts:154-163 | the loop syncs every character of the table in order |
| SyncInstructions.SyncAllNoErrors | lib/syncInstructions.ts:154-163 | syncing known characters never gives 'error' |
| SyncInstructions.SyncAllOnePerCharacter | lib/syncInstructions.ts:154-163 | exactly one non-error result per character, in table order |
| SyncInstructions.GetSyncStatus | lib/syncInstructions.ts:168-198 | one status per character, with an override flagged exactly when stored |
| SyncInstructions.DeliberateDisagreement | lib/syncInstructions.ts:182-184 | the report calls a missing entry or tag deliberate where the sync does not, and agrees for any other tag |
| Characters.Find | lib/characters.ts:129-131 | an entry with that id, or none exactly when no entry has it |
| Characters.FindUnique | lib/characters.ts:129-131 | with distinct ids, looking up an entry's id finds that entry |
| Characters.GetCharacterById | lib/characters.ts:129-131 | the shipped entry with that id, or none exactly when there is none |
| Characters.GetDefaultCharacter | lib/characters.ts:136-138 | the first entry, which lookup finds |
| Characters.IdsDistinct | lib/characters.ts:18-124 | three entries, ahmed, layla and omar, with distinct ids |
| Characters.LookupFindsEach | lib/characters.ts:18-131 | every shipped entry is found by its id |
| Characters.Genders | lib/characters.ts:18-124 | two male characters and one female |
| Characters.EntriesComplete | lib/characters.ts:18-124 | every entry has a voice and a prompt, and no date or version |
| InstructionStore.ReadStore | lib/instructionStore.ts:37-51 | the parsed file, or an empty store when it is missing or unreadable |
| InstructionStore.Record | lib/instructionStore.ts:84-91 | the record holds the given id, prompt, voice and tag, written at now |
| InstructionStore.WriteFrame | lib/instructionStore.ts:84-94 | a write changes only the entry of its id |
| InstructionStore.DeleteFrame | lib/instructionStore.ts:100-104 | a delete removes only its id, and deleting an absent id changes nothing |
| InstructionStore.Store.Load | lib/instructionStore.ts:37-51 | the store as read from its file |
| InstructionStore.Store.Get | lib/instructionStore.ts:70-73 | the stored record, or none exactly when the id is absent |
| InstructionStore.Store.Set | lib/instructionStore.ts:78-95 | the entry for the id becomes the new record and nothing else changes |
| InstructionStore.Store.Delete | lib/instructionStore.ts:100-104 | the entry is gone and nothing else changes |
| InstructionStore.Store.GetAll | lib/instructionStore.ts:109-112 | the whole map |
| AdminVerify.Live | app/api/admin/verify/route.ts:19-26 | keeps exactly the sessions aged at most the lifetime, unchanged |
| AdminVerify.CleanupIdempotent | app/api/admin/verify/route.ts:19-26 | cleaning up twice at the same time equals cleaning up once |
| AdminVerify.ValidIff | app/api/admin/verify/route.ts:81-91 | valid exactly when present and younger than the lifetime; a session aged exactly the lifetime survives cleanup but is not valid |
| AdminVerify.AdminPassword | app/api/admin/verify/route.ts:44 | the configured password when set and non-empty, else the fallback |
| AdminVerify.LoginOutcome | app/api/admin/verify/route.ts:31-76 | 400 without a password and 401 for a wrong one, neither creating a session; success purges and adds the token at now with expiry 1800; the fallback password is '0502' |
| AdminVerify.Sessions.constructor | app/api/admin/verify/route.ts:14 | no sessions |
| AdminVerify.Sessions.CleanupExpiredSessions | app/api/admin/verify/route.ts:19-26 | the loop leaves exactly the live sessions |
| AdminVerify.Sessions.Post | app/api/admin/verify/route.ts:31-76 | the response and the new sessions of the login |
| AdminVerify.Sessions.VerifySession | app/api/admin/verify/route.ts:81-91 | cleans up, then answers whether the token is valid |
| AdminSync.FindFrom | app/api/admin/sync/route.ts:17 | the first occurrence of the pattern at or after a position, or none exactly when it does not occur |
| AdminSync.BearerToken | app/api/admin/sync/route.ts:17 | a token exactly when a header is present |
| AdminSync.BearerTokenShape | app/api/admin/sync/route.ts:17 | a leading prefix is removed, a header without it is kept, and a prefix in the middle is removed too |
| AdminSync.AuthorizedIff | app/api/admin/sync/route.ts:17-20 | no header or an empty token is refused; a prefixed token is accepted exactly when its session is valid |
| AdminSync.Gate | app/api/admin/sync/route.ts:17-20 | the authorization answer and the sessions after verifying |
| AdminSync.Get | app/api/admin/sync/route.ts:14-32 | 401 without authorization, otherwise the sync status |
| AdminSync.Post | app/api/admin/sync/route.ts:38-68 | 401 or 400 without syncing; otherwise exactly the sync of the character with force defaulting to false |
| AuthToken.PostOutcome | app/api/auth/token/route.ts:15-91 | 500 without a key, 400 exactly without prompt or voice, a token exactly for a valid request that issues, expiring 30 minutes on and opening 1 minute on |
| AuthToken.TokenLocked | app/api/auth/token/route.ts:45-66 | the token is single-use, locked to the given voice and prompt, and its start window closes before it expires |
| Transcribe.ChoosePrompt | app/api/transcribe/route.ts:127 | the prompt for both tracks, for the user only or for the AI only, by which tracks are present |
| Transcribe.AudioPartsDecode | app/api/transcribe/route.ts:87-116 | a present track gives one WAV part whose data decodes back to the track |
| Transcribe.PartsOrder | app/api/transcribe/route.ts:87-116 | the prompt, then the user audio, then the AI audio, each only if present |
| Transcribe.FirstAnswer | app/api/transcribe/route.ts:129-146 | the first ok answer, every earlier attempt failing |
| Transcribe.AttemptModels | app/api/transcribe/route.ts:118-146 | models are tried in order up to the first ok answer and no later one; the last error is recorded |
| Transcribe.Post | app/api/transcribe/route.ts:8-166 | 500 without a key, 400 and no call without audio, 500 with the last error when every model fails, and the transcript or 'No transcript generated' otherwise |
| CharacterSelection.HeaderClicks.constructor | components/CharacterSelection.tsx:16-19 | no clicks, no timer, panel closed |
| CharacterSelection.HeaderClicks.HandleHeaderClick | components/CharacterSelection.tsx:24-44 | the third click opens the panel and resets the count and the timer; an earlier click counts and schedules a reset |
| CharacterSelection.HeaderClicks.TimerFires | components/CharacterSelection.tsx:39-41 | a pending reset sets the count to 0 and never opens the panel |
| CharacterSelection.Run | components/CharacterSelection.tsx:24-44 | the count stays below three and the panel opens at most once per event |
| CharacterSelection.ThreeClicksOpen | components/CharacterSelection.tsx:33-37 | three quick clicks open the panel once |
| CharacterSelection.TimeoutForgets | components/CharacterSelection.tsx:38-42 | a reset between clicks forgets the earlier clicks |
| CharacterSelection.OpensAtMostEveryThird | components/CharacterSelection.tsx:24-44 | the panel opens at most once for every three clicks |

## Left out

- Platform audio I/O is not modelled: microphone capture, audio contexts, worklet registration and buffer playback. These appear only as opaque handles and outcome parameters.
- The live speech SDK, the calls to the model REST API and the calls to the Python service are not modelled. Their results are parameters.
- Float32 and IEEE rounding are not modelled. Samples are reals, and conversions truncate explicitly.
- `toFixed` is not modelled for values of 1e21 or more, where JavaScript switches to exponent notation.
- Feature extraction with Praat and NumPy is not modelled. Its outputs are a `Measurements` value.
- Python `round` is modelled on exact reals, not on binary floats.
- The JSON file persistence of the instruction store is not modelled. The store is a map, and the file a parsed or missing value.
- Token generation with crypto is not modelled. The token is a parameter.
- Interleavings of asynchronous handlers and stale closures are not modelled. Events run one at a time.
- Prompt texts are abbreviated to the `Prompt` datatype.
- `Number()` of a non-digit version component is modelled as NaN, without parsing other numeric syntax.
- Each request reads one `now`, where the source reads the clock several times.
- The model outcomes of the transcription route are given as four entries, one per model tried.
- Request bodies are typed: `force` as a boolean and the password as a string.
- AudioUtils.AudioProcessor.Process: requires a non-empty `inputs`, which the audio engine always supplies.
- Dates in `updatedAt` and `lastUpdated` are integers (milliseconds), not date strings.
- Console logging is not modelled.
- The analyze proxy route, the presentational components and the tests are not modelled.
- The fade, decoding and scheduling of a played chunk in the audio player are not modelled. Playback is one chunk that starts and later ends.
- `String(e)` of a thrown error is given as its message text.
- GeminiLive.LiveConnection.StartRecording: the capture setup is given as one outcome. Intermediate awaits are not modelled separately.
