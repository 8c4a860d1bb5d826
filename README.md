# AudiosAmigos synthesis core, modelled in Dafny

AudiosAmigos is a browser text-to-speech app. The user writes or uploads
a text. The app may have it translated, then splits it into chunks of
sentences. Each chunk is sent to a speech provider with retries and a
small pool of workers. The 16-bit PCM replies are joined with silent gaps
into one RIFF WAVE file, and the result is cached under a hash of the
request. While the audio plays, the interface highlights the current chunk
and an estimated current word.

This project models that core and proves what it promises:

- **Chunker** (`TextUtils`): the sentence pattern `/[^.!?]+[.!?]+(\s+|$)|[^.!?]+$/g`
  as a left-to-right scanner, and the loop that groups sentences under a
  word budget.
- **Audio assembler** (`AudioEngine`, with its properties in `AudioProperties`):
  decoding, merging and WAV encoding over arrays.
- **Dispatcher** (`TtsService`): `withRetry`, the worker pool over a FIFO
  queue and a slot array, the progress reports, and `synthesize` end to end.
- **Cache** (`Cache`): the JSON key serialisation with its hex digest, and
  the IndexedDB store as a class holding a `map`.
- **Interface helpers**:
  - `App`: history, highlight tracking and `handleGenerate`;
  - `FileUtils`: file-extension dispatch and PDF text;
  - `ContentDisplay`: word count and reading-time label;
  - `PlaybackInterface`: time label, fill width and speeds;
  - `ProgressBar`: the render and exit state machine, and the segment dots;
  - `TranscriptHighlighter`: the highlight rule.
- **Shared pieces**:
  - `Types`: the data model;
  - `Strings`: JavaScript white space, `trim`, `split(/\s+/)` and decimal text;
  - `Wrappers`: `Option` and `Result`.

These run outside the model, so the model takes them as inputs:

- the provider, given as how each attempt for each chunk ends;
- the abort signal, the clock and the virtual-progress creep;
- the order in which in-flight chunks finish;
- `atob`, which may refuse text that is not base64, SHA-256 over UTF-8,
  and the JSON text of the speed number;
- how each IndexedDB operation goes (opens, fails to open, request fails).

Samples and times are exact reals. Bytes are integers below 256, and
integer fields written into 16- or 32-bit slots are reduced modulo 2^16
or 2^32 explicitly.

A few constants and choices of the code shape the model:

- a chunk holds at most 300 words, unless one sentence alone is longer;
- one concurrent pass runs `min(2, n)` workers over the chunks;
- each request gets 3 retries (4 attempts), each raced against a 30 s timer;
- the abort signal is checked only after an attempt fails.

One behaviour of the code is easy to miss. The sentence pattern drops text
in front of a delimiter that is followed by neither white space nor the
end of the text: "Hello.World" yields only "World"
(`TextUtils.SentencesSkipUnterminatedPrefix`).

## Model

| member | source | states |
|---|---|---|
| Types.VoiceOf | types.ts:1-12 | reading a string value back gives the voice that has that value |
| Types.VoiceIdRoundTrip | types.ts:1-12 | every voice's string value reads back as that voice |
| Types.VoiceIdInjective | types.ts:1-12 | distinct voices have distinct string values |
| Types.VoiceNamesDistinct | types.ts:1-12 | there are exactly ten voices, each listed once |
| Types.VoiceIdsLowerCase | types.ts:1-12 | every voice's string value is non-empty and lower-case |
| Types.VoiceMetadataTotal | types.ts:14-25 | every voice has exactly one gender; Kore, Aoede and Leda are the female ones |
| Types.LanguagesListEachCodeOnce | types.ts:27-39 | the list has nine entries, 'original' first, each code exactly once, with distinct string values |
| Strings.TrimSlice | utils/textUtils.ts:10 | `trim()` cuts exactly a white-space prefix and suffix; the result is empty iff the text is all white space |
| Strings.TrimIdempotent | utils/cache.ts:35 | trimming twice is trimming once |
| Strings.TrimIgnoresPadding | utils/fileUtils.ts:42 | leading and trailing white space never changes `trim()` |
| Strings.SplitWsPieces | utils/textUtils.ts:29 | `split(/\s+/)` gives at least one piece, each without white space, none empty for a trimmed non-empty text |
| Strings.PieceCount | utils/textUtils.ts:29 | the count of pieces of `trim().split(/\s+/)` is at least one |
| Strings.NatToStringRoundTrip | services/ttsService.ts:128 | decimal text reads back as the number |
| Strings.NatToStringInjective | services/ttsService.ts:128 | distinct numbers have distinct decimal texts |
| Strings.NumberThenMark | components/ContentDisplay.tsx:27 | a number followed by a non-digit mark is read back unambiguously: number, mark and rest |
| TextUtils.MatchAt | utils/textUtils.ts:17-18 | a match attempted at a delimiter fails; any match is non-empty, and one ending before the end of the text contains a delimiter |
| TextUtils.MatchSpans | utils/textUtils.ts:17-18 | the successive matches are non-empty, inside the text, and do not overlap |
| TextUtils.SentencesShape | utils/textUtils.ts:17-18 | every sentence is non-empty; every sentence but the last holds a delimiter and is not blank |
| TextUtils.DelimiterOnlyTextHasNoSentences | utils/textUtils.ts:17-22 | a text of only '.', '!' and '?' matches nothing, so it comes back whole |
| TextUtils.SentencesSkipUnterminatedPrefix | utils/textUtils.ts:17-18 | "Hello.World" yields the single sentence "World" |
| TextUtils.SentenceWordCount | utils/textUtils.ts:29 | every sentence counts at least one word |
| TextUtils.ChunkText | utils/textUtils.ts:9-49 | the method with its early returns and loop computes exactly `Chunked` |
| TextUtils.GroupSentences | utils/textUtils.ts:24-48 | the loop over sentences and the final push produce the trimmed non-blank texts of the runs |
| TextUtils.LoopStep | utils/textUtils.ts:33-40 | one iteration: over budget with a non-blank chunk, it pushes the trimmed chunk and restarts with the sentence; otherwise it appends the sentence and adds its count |
| TextUtils.FoldPartition | utils/textUtils.ts:28-41 | every sentence lands in exactly one run, in the original order |
| TextUtils.FoldBoundaries | utils/textUtils.ts:33-36 | runs are cut exactly where the flush test fires, and never inside a run |
| TextUtils.RuleFiresOnNonBlank | utils/textUtils.ts:33 | the flush test fires only on a current chunk whose text is not blank |
| TextUtils.ClosedRunsNotBlank | utils/textUtils.ts:33-36 | every pushed run has a non-blank text |
| TextUtils.TallyOverBudgetOnlyAlone | utils/textUtils.ts:33-40 | a run's tally exceeds the budget only when it holds a single sentence |
| TextUtils.ChunksTrimmedNonEmpty | utils/textUtils.ts:34-46 | every chunk is trimmed and non-empty |
| TextUtils.ChunksShape | utils/textUtils.ts:34-46 | chunk i is the trimmed text of run i, with one chunk per run except a blank last run |
| TextUtils.RunsShape | utils/textUtils.ts:28-45 | the runs partition the sentences in order, none empty, all but the last non-blank, over budget only when alone |
| TextUtils.ChunkedShape | utils/textUtils.ts:9-49 | blank text gives no chunks; an unmatched text gives `[text]` untrimmed; otherwise trimmed non-empty texts of contiguous runs that partition the sentences, over budget only alone |
| AudioEngine.LE16 | utils/audioEngine.ts:98 | a 16-bit little-endian field is two bytes |
| AudioEngine.ReadLE16 | utils/audioEngine.ts:98-99 | reading back a written 16-bit field gives the value modulo 2^16 |
| AudioEngine.ReadLE32 | utils/audioEngine.ts:94 | reading back a written 32-bit field gives the value modulo 2^32 |
| AudioEngine.Int16LE | utils/audioEngine.ts:27 | a byte pair read as a signed value lies in the signed 16-bit range |
| AudioEngine.Int16RoundTrip | utils/audioEngine.ts:107-110 | writing a signed 16-bit value and reading it back is the identity |
| AudioEngine.Int16BytesRoundTrip | utils/audioEngine.ts:27 | reading a byte pair as signed and writing it back gives the same bytes |
| AudioEngine.BytesOf | utils/audioEngine.ts:14-17 | one stored byte per character, as the byte-copy loop and `writeString` store them |
| AudioEngine.DecodeAudio | utils/audioEngine.ts:7-41 | text `atob` refuses fails with its `InvalidCharacterError`; fewer than two bytes make no frame and `createBuffer` fails with `NotSupportedError`; otherwise the decoded buffer, with at least one frame |
| AudioEngine.DecodeAudioData | utils/audioEngine.ts:7-41 | `atob`, the byte loop, the odd-byte cut, the zero-frame refusal and the sample loop compute exactly `DecodeAudio` |
| AudioEngine.DecodedShape | utils/audioEngine.ts:10-38 | the buffer is mono at the given rate with floor(len/2) frames; frame i is the signed LE value of bytes 2i, 2i+1 over 32768, in [-1, 1) |
| AudioEngine.DecodedDropsOddByte | utils/audioEngine.ts:22-25 | a trailing odd byte is dropped and changes nothing |
| AudioEngine.Timings | utils/audioEngine.ts:60-74 | there is one timing per buffer |
| AudioEngine.CopyInto | utils/audioEngine.ts:81 | `set` writes the source at the offset and leaves every other sample alone |
| AudioEngine.MergeAudioBuffers | utils/audioEngine.ts:46-87 | the empty check, both loops and the encoding compute exactly `MergedOf` |
| AudioEngine.TimingLoop | utils/audioEngine.ts:57-74 | the first loop computes the total sample count and one timing per buffer |
| AudioEngine.CopyLoop | utils/audioEngine.ts:76-83 | the second loop leaves the array equal to the buffers joined with `gapSamples` zeros between them |
| AudioEngine.CopyStep | utils/audioEngine.ts:79-83 | buffer i is placed right after the joined buffers before it and one gap, within the total |
| AudioEngine.JoinedPrefixFits | utils/audioEngine.ts:76-83 | every prefix of the joined samples fits in the allocated total |
| AudioEngine.Header | utils/audioEngine.ts:90-105 | the header is 44 bytes |
| AudioEngine.Clamp | utils/audioEngine.ts:109 | the clamped sample lies in [-1, 1] |
| AudioEngine.PcmBytes | utils/audioEngine.ts:107-111 | the sample area holds two bytes per sample |
| AudioEngine.WriteString | utils/audioEngine.ts:116-120 | the characters land at the offset as bytes, and nothing else changes |
| AudioEngine.SetUint16 | utils/audioEngine.ts:98 | the value modulo 2^16 lands at the offset low byte first, and nothing else changes |
| AudioEngine.SetUint32 | utils/audioEngine.ts:94 | the value modulo 2^32 lands at the offset low byte first, and nothing else changes |
| AudioEngine.WriteRiffDescriptor | utils/audioEngine.ts:93-95 | bytes 0-11 become 'RIFF', the size field and 'WAVE' |
| AudioEngine.WriteFmtChunk | utils/audioEngine.ts:96-103 | bytes 12-35 become the "fmt " chunk |
| AudioEngine.WriteFormatFields | utils/audioEngine.ts:96-99 | bytes 12-23 become 'fmt ', 16, 1 and 1 |
| AudioEngine.WriteRateFields | utils/audioEngine.ts:100-103 | bytes 24-35 become the rate, the byte rate, 2 and 16 |
| AudioEngine.WriteDataHeader | utils/audioEngine.ts:104-105 | bytes 36-43 become 'data' and the sample byte count |
| AudioEngine.WriteHeader | utils/audioEngine.ts:93-105 | the twelve writes leave exactly the 44-byte header and nothing after it changed |
| AudioEngine.EncodeWAV | utils/audioEngine.ts:89-114 | the file is exactly the header followed by the sample bytes |
| AudioEngine.WriteSamples | utils/audioEngine.ts:107-111 | the fill loop leaves the header followed by every sample's 16-bit bytes |
| AudioEngine.WriteSample | utils/audioEngine.ts:108-111 | one iteration appends sample i's clamped, scaled bytes after the samples before it |
| AudioProperties.OffsetNext | utils/audioEngine.ts:82 | the next offset is this one plus the buffer's length and one gap |
| AudioProperties.JoinedPrefix | utils/audioEngine.ts:79-83 | the copies made so far are a prefix of the final samples |
| AudioProperties.JoinedLayout | utils/audioEngine.ts:78-83 | sample k of buffer i is sample offset(i)+k of the merged array |
| AudioProperties.JoinedGapSilent | utils/audioEngine.ts:71-83 | the gap after every buffer but the last is silent |
| AudioProperties.JoinedTotal | utils/audioEngine.ts:57-76 | the total is the sum of the lengths plus (n-1) gaps, and the last buffer ends at the end |
| AudioProperties.TimingAt | utils/audioEngine.ts:64-68 | timing i starts at buffer i's offset over the first rate, spans its length over that rate, and keeps the buffer's own duration |
| AudioProperties.TimingNext | utils/audioEngine.ts:64-73 | the next timing starts one gap after this one ends |
| AudioProperties.TimingsEnds | utils/audioEngine.ts:60-74 | the first timing starts at 0 and the last ends at the end of the merged samples |
| AudioProperties.TimingsOrdered | utils/audioEngine.ts:60-74 | timings never go backwards |
| AudioProperties.TimingStartsIncrease | utils/audioEngine.ts:60-74 | a non-empty buffer or a positive gap makes the next start strictly later |
| AudioProperties.TimingDurationPositive | utils/audioEngine.ts:64-68 | a buffer of at least one frame is recorded with a positive duration |
| AudioProperties.TimingDurationMatchesSpan | utils/audioEngine.ts:54-68 | when a buffer has the first buffer's rate, its duration equals its span |
| AudioProperties.ToPcmRange | utils/audioEngine.ts:109-110 | every stored sample value is within the signed 16-bit range |
| AudioProperties.PcmBytesAt | utils/audioEngine.ts:107-111 | bytes 2i and 2i+1 of the sample area are sample i's value, low byte first |
| AudioProperties.EncodeThenDecode | utils/audioEngine.ts:107-111 | decoding encoded samples gives each sample's 16-bit value over 32768 |
| AudioProperties.DecodedSampleReencodes | utils/audioEngine.ts:109-110 | a decoded negative sample re-encodes to the same value; a non-negative one is rescaled by 32767/32768 |
| AudioProperties.HeaderFields | utils/audioEngine.ts:93-105 | the header holds 'RIFF', 36+2n, 'WAVE', 'fmt ', 16, 1, 1, rate, 2·rate, 2, 16, 'data', 2n at their fixed offsets |
| AudioProperties.WavShape | utils/audioEngine.ts:89-111 | the file is 44 + 2n bytes: the header, then the sample bytes |
| AudioProperties.WavRiffSize | utils/audioEngine.ts:94 | the RIFF size field reads 36 + 2n modulo 2^32 |
| AudioProperties.WavDataSize | utils/audioEngine.ts:105 | the data size field reads 2n modulo 2^32 |
| AudioProperties.WavSizeFields | utils/audioEngine.ts:94-105 | under 4 GiB, the size fields are the bytes after the first eight and the sample bytes |
| AudioProperties.MergedShape | utils/audioEngine.ts:46-87 | merging nothing fails with "No audio buffers to merge."; otherwise a WAV of the total samples at the first rate, one timing per buffer |
| Cache.HexDigit | utils/cache.ts:44 | each value below 16 gets a lowercase hex digit that reads back as that value |
| Cache.EscapeChar | utils/cache.ts:34-39 | every character is written as at least one character |
| Cache.ReadEscapeChar | utils/cache.ts:34-39 | reading back one escaped character gives that character |
| Cache.JsonStringRoundTrip | utils/cache.ts:34-39 | reading back a serialised string literal gives the string and what followed |
| Cache.JsonStringPrefixFree | utils/cache.ts:34-39 | a string literal and what follows it are both determined by the text |
| Cache.HexByte | utils/cache.ts:44 | each byte is two hex digits |
| Cache.Hex | utils/cache.ts:43-44 | the key has two digits per digest byte |
| Cache.HexRoundTrip | utils/cache.ts:44 | the hex digits read back as the digest bytes |
| Cache.HexDigitsOnly | utils/cache.ts:44 | every key character is a lowercase hex digit |
| Cache.CacheKeyShape | utils/cache.ts:41-44 | a 32-byte digest gives a 64-character lowercase hex key |
| Cache.CacheKeyIgnoresOuterSpace | utils/cache.ts:34-35 | texts differing only in outer white space share a key |
| Cache.LanguageFieldInjective | utils/cache.ts:38 | equal language fields mean equal languages |
| Cache.SpeedFieldInjective | utils/cache.ts:37-38 | equal texts from the speed field on mean equal speed texts and languages |
| Cache.VoiceFieldInjective | utils/cache.ts:36-38 | equal texts from the voice field on mean equal configurations |
| Cache.KeyInputInjective | utils/cache.ts:28-39 | equal serialisations mean equal trimmed text, voice, speed and language |
| Cache.CacheKeyInjective | utils/cache.ts:28-44 | with an injective digest, changing the trimmed text, voice, speed or language changes the key |
| Cache.Lookup | utils/cache.ts:53-61 | an entry is found iff the key is stored, and comes back without its key and timestamp |
| Cache.ReadOutcome | utils/cache.ts:47-68 | a read gives the lookup; null on an open failure; the request's error when the request fails (it escapes the try) |
| Cache.LookupAfterStore | utils/cache.ts:76-81 | a stored entry reads back as stored, and other keys read as before |
| Cache.StoreOverwrites | utils/cache.ts:81 | storing twice under one key keeps only the second |
| Cache.AudioCache.constructor | utils/cache.ts:14-26 | the store starts empty, each entry under its own key |
| Cache.AudioCache.Get | utils/cache.ts:47-68 | a read changes nothing and gives `ReadOutcome` |
| Cache.AudioCache.Put | utils/cache.ts:70-88 | an open database stores the entry with the timestamp; an open failure is swallowed; a failed request rejects; both leave the store as it was |
| Cache.AudioCache.Clear | utils/cache.ts:90-104 | an open database is emptied; an open failure is rethrown and a failed request rejects, both leaving the store as it was |
| Cache.ClearedReadsNothing | utils/cache.ts:96 | after a clear, no read finds an entry |
| TtsService.Pow2 | services/ttsService.ts:57 | a power of two is at least one |
| TtsService.WithRetry | services/ttsService.ts:47-62 | at most three waits from retry count 0: the retry stops at `MAX_RETRIES` |
| TtsService.RetryOutcome | services/ttsService.ts:47-62 | attempts before the last failed retryably and unaborted, each followed by a 2^k·1000 ms wait; the last decides: its value, "Aborted", or its own error when not retryable or out of retries |
| TtsService.RetryWaits | services/ttsService.ts:54-58 | every attempt before the last failed retryably, unaborted, and was followed by its backoff |
| TtsService.RetryLast | services/ttsService.ts:52-60 | the last attempt decides the outcome as above |
| TtsService.RetrySchedule | services/ttsService.ts:47-62 | at most four attempts; the waits are a prefix of 1000, 2000, 4000 ms |
| TtsService.RetryFirstSuccess | services/ttsService.ts:52 | a first attempt that succeeds is the result, with no wait |
| TtsService.FetchChunkAudio | services/ttsService.ts:162-175 | a missing key fails first; a rejection passes through; no or empty inline data fails with "No audio data returned from API"; otherwise what decoding at 24 kHz gives, so it succeeds iff `atob` accepts the data and yields at least two bytes |
| TtsService.TimeoutIsRetryable | services/ttsService.ts:50-55 | a timeout is retryable |
| TtsService.NoTimeoutWithoutT | services/ttsService.ts:55 | a text without a capital T does not mention "Timeout" |
| TtsService.FetchErrorsNotRetryable | services/ttsService.ts:55 | neither the missing-key nor the no-audio error is retried |
| TtsService.DecodeErrorsNotRetryable | services/ttsService.ts:55 | neither the `atob` refusal nor the zero-frame refusal is retried |
| TtsService.NoKeyFailsAtOnce | services/ttsService.ts:39-62 | without an API key a chunk fails after one attempt with the missing-key error, or "Aborted" |
| TtsService.PreviewVoice | services/ttsService.ts:156-160 | the preview is the one fetch merged alone, with no gap |
| TtsService.PreviewShape | services/ttsService.ts:156-160 | a preview is a 24 kHz WAV of exactly the decoded samples |
| TtsService.RealProgressBounds | services/ttsService.ts:91 | the real progress runs from 10 to 90 and never decreases as segments complete |
| TtsService.MulDivCancel | services/ttsService.ts:91 | dividing a multiple by its factor cancels |
| TtsService.PoolReports | services/ttsService.ts:101-124 | one report at the start and one per completed segment |
| TtsService.PoolReportAt | services/ttsService.ts:90-124 | report j is in range, counts j segments done and shows at least the real progress |
| TtsService.PoolReportStep | services/ttsService.ts:94 | with non-decreasing virtual progress, consecutive reports never go back |
| TtsService.PoolReportsProgress | services/ttsService.ts:90-139 | all reports are in range, count the segments done, show max(real, virtual), never go back, and stay at or below the assembling 95 |
| TtsService.SegmentMessageNamesChunk | services/ttsService.ts:128 | distinct segments give distinct failure messages |
| TtsService.AbortedSegmentError | services/ttsService.ts:125-128 | an abort surfaces as "Aborted", not as a segment failure |
| TtsService.Buffers | services/ttsService.ts:112-122 | one buffer per chunk |
| TtsService.Without | services/ttsService.ts:117 | taking one chunk out of the in-flight set leaves one fewer in flight |
| TtsService.WithoutMembers | services/ttsService.ts:117-123 | what stays in flight is everything except the finished chunk, without repeats |
| TtsService.PoolStart | services/ttsService.ts:112-134 | every worker starts busy on the next queued chunk, and every slot is empty |
| TtsService.SlotsStep | services/ttsService.ts:117-123 | storing the finished chunk at its index keeps every slot in agreement with its fetch |
| TtsService.PoolStep | services/ttsService.ts:116-124 | one completion keeps the queue, in-flight set, slot and count invariant |
| TtsService.PoolDone | services/ttsService.ts:116-134 | with nothing left in flight, every chunk's slot holds its own fetch result |
| TtsService.RunPool | services/ttsService.ts:112-134 | whatever the completion order: all succeed and each slot i holds chunk i's buffer, or some chunk failed, fail-fast; the reports are `PoolReports` |
| TtsService.SynthesizeChunks | services/ttsService.ts:112-144 | a chunk failure gives its error with the cache untouched; otherwise assembling, merge in chunk order, cache write, success report, result with the chunks |
| TtsService.Synthesize | services/ttsService.ts:68-145 | a cache hit returns the stored audio with one 100% report and no provider call; a read error fails; no chunks fails with "No text found to process"; otherwise `MissOutcome` |
| App.Prepended | App.tsx:174 | the new item comes first, then the old list, cut to at most 15 |
| App.PrependedNewestFirst | App.tsx:174 | successive prepends keep the newest first and the list within 15 |
| App.DeletedMembers | App.tsx:197-199 | delete keeps exactly the items with another id |
| App.DeletedConcat | App.tsx:198 | delete works piecewise, so the kept items stay in order |
| App.DeletedNoMatch | App.tsx:198 | a list without the id is left as it is |
| App.DeletedIdempotent | App.tsx:198 | deleting twice is deleting once |
| App.FindFrom | App.tsx:129 | the first playing timing at or after `from`, or -1 iff none plays |
| App.ActiveChunkIndex | App.tsx:129 | the first chunk with start ≤ t < end, or -1 iff none |
| App.EstimatedWordIndex | App.tsx:133-134 | while the chunk plays with a positive duration, the index lies in 0..words, reaches the word count exactly when `Math.min` caps the progress, and names a word when the duration is the span |
| App.ProgressRange | App.tsx:133 | the capped progress lies in [0, 1] and is 1 exactly when the elapsed time reaches the duration |
| App.ScaledMonotone | App.tsx:134 | the scaled index grows with the progress |
| App.ScaledFloor | App.tsx:134 | a progress in [0, 1] scales to an index in 0..words, below the count unless the progress is 1 |
| App.WordIndexMonotone | App.tsx:133-134 | later in the same chunk, the estimated word is never earlier |
| App.HighlightAt | App.tsx:129-135 | the active chunk is the first playing one; the word index stays when none plays or the chunk is empty, else lies in 0..words, and names a word of the chunk when every duration is its span |
| App.ShownError | App.tsx:176 | "Aborted" is never shown; otherwise a non-empty message, the error's own when it has one |
| App.SourceOf | App.tsx:152-164 | 'original' uses the raw text; a remembered translation is reused iff both its source and its language match |
| App.TextToSynthesize | App.tsx:150-166 | the raw text for 'original', the remembered result when it matches; an empty result raises "Could not obtain text for synthesis." |
| App.BlankTextOnlySetsError | App.tsx:144 | blank text sets "Please enter text." and changes nothing else |
| App.TrimOfSpace | App.tsx:144 | all-white-space text trims to empty |
| App.HistoryOnlyOnSuccess | App.tsx:168-174 | the history changes only after a successful synthesis, gaining the original text and configuration first, within 15 |
| App.AbortNotShown | App.tsx:176-177 | an aborted synthesis shows no error |
| App.AppModel.constructor | App.tsx:24-40 | the component starts with the saved history, no error, no audio or chunks, editing, and the idle 'Ready' state |
| App.AppModel.HandleGenerate | App.tsx:143-179 | the handler leaves exactly the state `Generated` describes |
| App.AppModel.Begin | App.tsx:145-161 | error and audio cleared, and the translation report shown when one is awaited |
| App.AppModel.Finish | App.tsx:168-177 | on failure the catch block's state; on success the result, not editing, and the new history |
| App.AppModel.HandleDeleteHistory | App.tsx:197-199 | only the history changes, to the filtered list |
| FileUtils.LastPiece | utils/fileUtils.ts:11 | the longest dot-free suffix of the name, preceded by a dot when shorter than the name |
| FileUtils.LastPieceOfDotted | utils/fileUtils.ts:11 | the piece after the last dot is exactly what follows it |
| FileUtils.LastPieceOfUndotted | utils/fileUtils.ts:11 | a name without a dot is its own piece |
| FileUtils.ExtractPdfText | utils/fileUtils.ts:22-47 | the page loop computes exactly `PdfText`: any failure gives the one message |
| FileUtils.PagesTextConcat | utils/fileUtils.ts:33-40 | page texts are appended in page order |
| FileUtils.PdfFailureIsUniform | utils/fileUtils.ts:43-46 | a library, document or page failure gives "Failed to read PDF file. ..." |
| FileUtils.PdfTextShape | utils/fileUtils.ts:36-42 | the text is trimmed; one page gives its items joined by spaces, trimmed |
| FileUtils.ExtractTextFromFile | utils/fileUtils.ts:10-20 | 'pdf' goes to PDF extraction, 'txt' and 'md' to the file's text, anything else is unsupported |
| FileUtils.DispatchByLastDot | utils/fileUtils.ts:11-19 | only the lower-cased text after the last dot decides |
| FileUtils.UndottedNameIsItsExtension | utils/fileUtils.ts:11 | a name without a dot is judged by the whole lower-cased name |
| ContentDisplay.NonEmpty | components/ContentDisplay.tsx:25 | the filter keeps only non-empty pieces |
| ContentDisplay.NonEmptyKeepsAll | components/ContentDisplay.tsx:25 | the filter keeps a list without empty pieces whole |
| ContentDisplay.WordCountMeaning | components/ContentDisplay.tsx:25 | the count is 0 iff the text is blank, else the number of white-space-separated words |
| ContentDisplay.EstSecondsExact | components/ContentDisplay.tsx:26 | the estimate is the least whole number of seconds covering 0.4 s per word |
| ContentDisplay.EstDisplayParts | components/ContentDisplay.tsx:27 | below 60 the label is the seconds then 's', else the minutes, 'm ', the remaining seconds, 's' |
| ContentDisplay.EstDisplayInjective | components/ContentDisplay.tsx:27 | distinct estimates give distinct labels |
| ContentDisplay.EstimateOf | components/ContentDisplay.tsx:26-54 | the estimate is shown iff there is a word, with the label of ceil(0.4·words) seconds |
| ContentDisplay.FooterOf | components/ContentDisplay.tsx:25-56 | the preview shows iff the language is not 'original'; the estimate iff the text is not blank; the badge iff more than 50 words |
| PlaybackInterface.TwoDigits | components/PlaybackInterface.tsx:28 | a number below 100 gives two decimal digits |
| PlaybackInterface.FloorDiv60 | components/PlaybackInterface.tsx:26-27 | for t ≥ 0, the minutes and seconds are the whole seconds divided by 60 and their remainder |
| PlaybackInterface.PaddedSeconds | components/PlaybackInterface.tsx:28 | the padded seconds field is always two digits |
| PlaybackInterface.FormatTimeWhole | components/PlaybackInterface.tsx:24-29 | for t ≥ 0 the label is the whole minutes, ':' and the seconds as two digits |
| PlaybackInterface.LabelOfWhole | components/PlaybackInterface.tsx:28 | the label of a whole number of seconds reads minutes then two-digit seconds |
| PlaybackInterface.WholeLabelInjective | components/PlaybackInterface.tsx:24-29 | distinct whole seconds give distinct labels |
| PlaybackInterface.FillWidthBounds | components/PlaybackInterface.tsx:38 | within the track the fill is 0-100%; a zero or missing duration counts as 1 |
| PlaybackInterface.SpeedsAscending | components/PlaybackInterface.tsx:31 | seven speeds from 0.5 to 2.0 in strictly increasing quarter steps, including 1.0 |
| ProgressBar.StepsKeepCoherence | components/ProgressBar.tsx:12-25 | the effect and the timer keep "exiting iff the timer is pending, and only while rendered" |
| ProgressBar.ProcessingShows | components/ProgressBar.tsx:13-15 | while processing, the bar is rendered and not exiting |
| ProgressBar.StopThenTimer | components/ProgressBar.tsx:16-22 | stopping on a rendered bar starts the exit, and the timer then clears both flags; an unrendered bar stays hidden |
| ProgressBar.ResumeCancelsExit | components/ProgressBar.tsx:13-23 | resuming before the timer fires cancels the exit |
| ProgressBar.ProgressBarModel.constructor | components/ProgressBar.tsx:9-10 | the bar mounts hidden, not exiting |
| ProgressBar.ProgressBarModel.Effect | components/ProgressBar.tsx:12-25 | the effect leaves exactly the flags `Effected` describes |
| ProgressBar.ProgressBarModel.TimerFires | components/ProgressBar.tsx:19-22 | the timer leaves exactly the flags `Fired` describes |
| ProgressBar.View | components/ProgressBar.tsx:27-66 | nothing is drawn iff not rendered; dots appear iff more than one chunk and not exiting, one per chunk |
| ProgressBar.DotsShape | components/ProgressBar.tsx:53-62 | dots before the processed count are done, the one at it current, so at most one is current, and one iff some chunk is left |
| ProgressBar.RoundBounds | components/ProgressBar.tsx:36 | the shown percentage is the progress rounded to the nearest whole, within 0-100 |
| TranscriptHighlighter.ChunkViewOf | components/TranscriptHighlighter.tsx:27-55 | a chunk renders its `split(/\s+/)` pieces in order; active iff its index matches; a word is highlighted iff its chunk is active and its index matches |
| TranscriptHighlighter.Transcript | components/TranscriptHighlighter.tsx:27-58 | one rendered chunk per chunk, in order |
| TranscriptHighlighter.AtMostOneHighlight | components/TranscriptHighlighter.tsx:28-42 | at most one chunk is active and at most one word highlighted, inside it; -1 activates nothing |
| TranscriptHighlighter.ScrollTarget | components/TranscriptHighlighter.tsx:16-23 | the view scrolls to the active chunk when its element exists, and never for -1 |
| TranscriptHighlighter.PlayingChunkHighlightsOneWord | components/TranscriptHighlighter.tsx:27-42 | while a non-empty chunk plays and every duration is its span, exactly that chunk is active and exactly one of its words is highlighted |

## Left out

- Floating point: samples, times and progress are exact reals. Float32 storage, IEEE rounding of the `/32768` and of the timing divisions, and `NaN`/`Infinity` are not modelled.
- App.EstimatedWordIndex: its requires excludes a zero duration, where `0 / 0` gives `NaN`. The merge records a buffer's frames over its own rate, and decoding refuses a buffer of zero frames, so every recorded duration is positive (`AudioProperties.TimingDurationPositive`).
- App.HighlightAt: the same positive-duration requires, for every timing.
- `atob` (base64, section 4 of RFC 4648), `AudioContext.createBuffer`, `Blob` and `URL.createObjectURL` are foreign calls. `atob` is a parameter returning `None` for text it refuses; the blob is held as its bytes instead of an object URL.
- AudioEngine.DecodeAudio: the two `DOMException`s carry browser-specific messages; the model represents each by its name, `InvalidCharacterError` or `NotSupportedError`. Neither name mentions "Timeout", as no browser message does, so neither is retried.
- App.AppModel.Finish: `handleGenerate` reads `Date.now()` twice, for the history item's id and for its timestamp; the model takes one clock reading `now` for both, so it does not describe the two readings differing.
- SHA-256 (FIPS 180-4), `TextEncoder` and the JSON text of the speed number are foreign calls, given as the `digest` and `speedText` parameters. Key injectivity is proved only under an injective `digest` and an injective, comma-free `speedText`.
- Cache.EscapeChar: lone UTF-16 surrogates, which `JSON.stringify` writes as `\u` escapes, are written as themselves; Dafny's `char` has no surrogates.
- IndexedDB's open and request plumbing, the `onupgradeneeded` store creation and the console warnings are not modelled; each operation takes a `DbCondition` that says how it goes.
- The 30 s `Promise.race` timer is not a clock. Each attempt's input says whether it timed out, and the never-cleared timer is not modelled.
- The `setInterval` creep uses `Math.random` and adds its own reports between segments. Its value at each segment report is the `virtualProgress` input, and its intermediate reports and messages are not in the report sequence.
- The interleaving of the `Promise.all` workers is chosen by `pick`. After a failure, other workers may still report or store results in the source; the model ends the pool at the first failure.
- `GoogleGenAI` requests, `translateText` and all of utils/gemini.ts are provider calls. The provider's replies and the translation results are inputs, and `getAI`'s `localStorage` read is the `apiKeyPresent` flag.
- `handleRestoreHistory`, the translation-preview debounce effect, `localStorage` persistence, keyboard shortcuts, the abort button and `requestAnimationFrame` scheduling are interface plumbing outside the modelled handlers.
- The transcript's `scrollIntoView` effect is reduced to the chunk it would scroll to.
- Strings.Lower: `toLowerCase` is modelled on ASCII letters only; other scripts' case mappings are not.
- pdf.js loading, `file.arrayBuffer()` and `file.text()` are foreign calls. The file's text and how pdf.js reads its pages are inputs.
- The presentation components (history panel, key dialog, player, visualiser, selectors, decorations) and the styling configuration render only.
- PlaybackInterface.FormatTimeWhole: the label is characterised for non-negative times only; negative times are not described.
