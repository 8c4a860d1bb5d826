/**
 * The synthesis dispatcher: one provider call per chunk, each wrapped in a
 * retry with exponential backoff, drained from a FIFO queue by a small pool
 * of workers into a slot array by chunk index; then the merge and the
 * whole-request cache.
 *
 * The provider, the clock, the abort signal and the scheduling of the
 * workers are inputs: `Env.provider(i, k)` is how attempt `k` for chunk `i`
 * ends, and `pick` chooses which in-flight chunk finishes next.
 */
module TtsService {
  import opened Wrappers
  import opened Strings
  import opened Types
  import opened TextUtils
  import opened AudioEngine
  import opened Cache

  const ChunkSizeWords := 300
  const SilenceGapSeconds: real := 0.4
  const ConcurrencyLimit := 2
  const MaxRetries := 3
  const RequestTimeoutMs := 30000

  /** `SYNTHESIS_MESSAGES`; the first is the step shown before any segment is done. */
  const SynthesisMessages: seq<string> := [
    "Initializing neural pathways...",
    "Authenticating synthesis tokens...",
    "Analyzing linguistic patterns...",
    "Encoding phonetic structures...",
    "Harmonizing vocal timbres...",
    "Synthesizing rhythmic prosody...",
    "Calibrating acoustic dynamics...",
    "Applying inflection matrices...",
    "Mapping harmonic resonance...",
    "Optimizing audio stream...",
    "Refining vocal textures...",
    "Finalizing neural export..."]

  // ----- withRetry -----

  /** How one attempt of a task ended, and whether the signal was aborted when its failure was caught. */
  datatype Attempt<T> = Attempt(outcome: Result<T, Error>, aborted: bool)

  /**
   * What `withRetry` settles to, the waits it made before each retry, in
   * milliseconds, and whether the signal was aborted when the last failure
   * was caught.
   */
  datatype Retried<T> = Retried(result: Result<T, Error>, delays: seq<nat>, aborted: bool)

  /** A failure worth retrying: HTTP 429, 500 or 503, or a message mentioning a timeout. */
  predicate Retryable(e: Error) {
    e.status == Some(429) || e.status == Some(500) || e.status == Some(503)
    || (e.message.Some? && Contains(e.message.value, "Timeout"))
  }

  function Pow2(k: nat): (p: nat)
    ensures p >= 1
  {
    if k == 0 then 1 else 2 * Pow2(k - 1)
  }

  /** `Math.pow(2, retryCount) * 1000` */
  function Backoff(retryCount: nat): nat {
    Pow2(retryCount) * 1000
  }

  /**
   * `withRetry(task, retryCount, signal)`, where `attempts(k)` is how the
   * attempt made with retry count `k` ends. The abort check comes first
   * after a failure; a retryable failure is retried while fewer than
   * `MaxRetries` retries have been made; any other failure is rethrown.
   */
  function WithRetry<T>(attempts: nat -> Attempt<T>, retryCount: nat): (r: Retried<T>)
    ensures |r.delays| <= if retryCount < MaxRetries then MaxRetries - retryCount else 0
    decreases if retryCount < MaxRetries then MaxRetries - retryCount else 0
  {
    var a := attempts(retryCount);
    if a.outcome.Ok? then Retried(a.outcome, [], false)
    else if a.aborted then Retried(Err(Raise("Aborted")), [], true)
    else if Retryable(a.outcome.error) && retryCount < MaxRetries then
      var rest := WithRetry(attempts, retryCount + 1);
      Retried(rest.result, [Backoff(retryCount)] + rest.delays, rest.aborted)
    else Retried(a.outcome, [], false)
  }

  /**
   * The retry in full: every attempt before the last failed retryably, with
   * the signal not aborted, and was followed by the wait `2^k * 1000`; the
   * last attempt decides the outcome: its value, `Error("Aborted")` if the
   * signal was aborted when it failed, or its own error when that is not
   * retryable or the retries are used up.
   */
  lemma RetryOutcome<T>(attempts: nat -> Attempt<T>, retryCount: nat)
    ensures var r := WithRetry(attempts, retryCount);
            var last := retryCount + |r.delays|;
            && (forall k :: retryCount <= k < last ==>
                  && k < MaxRetries
                  && attempts(k).outcome.Err? && !attempts(k).aborted
                  && Retryable(attempts(k).outcome.error))
            && (forall j :: 0 <= j < |r.delays| ==> r.delays[j] == Backoff(retryCount + j))
            && (attempts(last).outcome.Ok? ==> r.result == attempts(last).outcome && !r.aborted)
            && (attempts(last).outcome.Err? && attempts(last).aborted ==>
                  r.result == Err(Raise("Aborted")) && r.aborted)
            && (attempts(last).outcome.Err? && !attempts(last).aborted ==>
                  && r.result == attempts(last).outcome && !r.aborted
                  && (!Retryable(attempts(last).outcome.error) || last >= MaxRetries))
  {
    RetryWaits(attempts, retryCount);
    RetryLast(attempts, retryCount);
  }

  /** Every attempt before the last failed retryably, unaborted, and was followed by its backoff. */
  lemma {:induction false} RetryWaits<T>(attempts: nat -> Attempt<T>, retryCount: nat)
    ensures var r := WithRetry(attempts, retryCount);
            && (forall k :: retryCount <= k < retryCount + |r.delays| ==>
                  && k < MaxRetries
                  && attempts(k).outcome.Err? && !attempts(k).aborted
                  && Retryable(attempts(k).outcome.error))
            && (forall j :: 0 <= j < |r.delays| ==> r.delays[j] == Backoff(retryCount + j))
    decreases if retryCount < MaxRetries then MaxRetries - retryCount else 0
  {
    var a := attempts(retryCount);
    if a.outcome.Err? && !a.aborted && Retryable(a.outcome.error) && retryCount < MaxRetries {
      RetryWaits(attempts, retryCount + 1);
      var rest := WithRetry(attempts, retryCount + 1);
      assert WithRetry(attempts, retryCount) == Retried(rest.result, [Backoff(retryCount)] + rest.delays, rest.aborted);
    } else {
      assert |WithRetry(attempts, retryCount).delays| == 0;
    }
  }

  /** The last attempt decides the outcome. */
  lemma {:induction false} RetryLast<T>(attempts: nat -> Attempt<T>, retryCount: nat)
    ensures var r := WithRetry(attempts, retryCount);
            var last := retryCount + |r.delays|;
            && (attempts(last).outcome.Ok? ==> r.result == attempts(last).outcome && !r.aborted)
            && (attempts(last).outcome.Err? && attempts(last).aborted ==>
                  r.result == Err(Raise("Aborted")) && r.aborted)
            && (attempts(last).outcome.Err? && !attempts(last).aborted ==>
                  && r.result == attempts(last).outcome && !r.aborted
                  && (!Retryable(attempts(last).outcome.error) || last >= MaxRetries))
    decreases if retryCount < MaxRetries then MaxRetries - retryCount else 0
  {
    var a := attempts(retryCount);
    if a.outcome.Err? && !a.aborted && Retryable(a.outcome.error) && retryCount < MaxRetries {
      RetryLast(attempts, retryCount + 1);
      var rest := WithRetry(attempts, retryCount + 1);
      assert WithRetry(attempts, retryCount) == Retried(rest.result, [Backoff(retryCount)] + rest.delays, rest.aborted);
    } else {
      assert |WithRetry(attempts, retryCount).delays| == 0;
    }
  }

  /** A call makes at most four attempts, waiting 1000, 2000 and 4000 ms before the retries it makes. */
  lemma RetrySchedule<T>(attempts: nat -> Attempt<T>)
    ensures var d := WithRetry(attempts, 0).delays;
            |d| <= MaxRetries && d == [1000, 2000, 4000][..|d|]
  {
    RetryOutcome(attempts, 0);
    var d := WithRetry(attempts, 0).delays;
    assert Pow2(1) == 2 && Pow2(2) == 4;
    assert forall j :: 0 <= j < |d| ==> d[j] == [1000, 2000, 4000][j];
  }

  /** A first attempt that succeeds is the result, with no wait. */
  lemma RetryFirstSuccess<T>(attempts: nat -> Attempt<T>)
    requires attempts(0).outcome.Ok?
    ensures WithRetry(attempts, 0) == Retried(attempts(0).outcome, [], false)
  {
  }

  // ----- fetchChunkAudio -----

  /** What the provider sent back: inline audio data (base64), a reply without it, or a rejection. */
  datatype ApiResponse = InlineAudio(data: string) | NoInlineAudio | Rejected(err: Error)

  /** An attempt either gets a reply or loses the race against the 30 s timer. */
  datatype Reply = Responded(response: ApiResponse) | TimedOut

  /** How provider attempt `k` for one chunk ends, and the abort signal when its failure is caught. */
  datatype AttemptInput = AttemptInput(reply: Reply, aborted: bool)

  /**
   * The request's surroundings: whether an API key is stored, `atob`, the
   * provider, the virtual progress at each segment report (the value the
   * interval timer has raised it to), the digest and the speed's JSON text.
   */
  datatype Env = Env(
    apiKeyPresent: bool,
    atob: string -> Option<string>,
    provider: (nat, nat) -> AttemptInput,
    virtualProgress: nat -> real,
    digest: string -> seq<Byte>,
    speedText: real -> string)

  const ApiKeyMissingMessage := "Gemini API Key missing. " + "Please set it using the key " + "icon in the top-left corner."
  const NoAudioMessage := "No audio data returned from API"
  const TimeoutMessage := "Request Timeout"

  /**
   * `fetchChunkAudio` given the provider's response: the missing-key error
   * first, the provider's rejection, the no-data error when there is no
   * (or empty) inline data, else what decoding the data at 24 kHz gives.
   */
  function FetchChunkAudio(apiKeyPresent: bool, response: ApiResponse, atob: string -> Option<string>): (r: Result<AudioBuffer, Error>)
    ensures !apiKeyPresent ==> r == Err(Raise(ApiKeyMissingMessage))
    ensures apiKeyPresent && response.Rejected? ==> r == Err(response.err)
    ensures apiKeyPresent && (response.NoInlineAudio? || response == InlineAudio("")) ==> r == Err(Raise(NoAudioMessage))
    ensures apiKeyPresent && response.InlineAudio? && response.data != "" ==> r == DecodeAudio(response.data, atob, DefaultSampleRate)
    ensures r.Ok? <==> && apiKeyPresent && response.InlineAudio? && response.data != ""
                       && atob(response.data).Some? && |atob(response.data).value| >= 2
    ensures r.Ok? ==> r.value == Decoded(atob(response.data).value, DefaultSampleRate) && |r.value.data| >= 1
  {
    if !apiKeyPresent then Err(Raise(ApiKeyMissingMessage))
    else match response
      case Rejected(e) => Err(e)
      case NoInlineAudio => Err(Raise(NoAudioMessage))
      case InlineAudio(data) =>
        if data == "" then Err(Raise(NoAudioMessage)) else DecodeAudio(data, atob, DefaultSampleRate)
  }

  /**
   * One attempt inside `withRetry`: the fetch raced against the timer. A
   * missing key rejects at once, before the timer can fire.
   */
  function AttemptOutcome(env: Env, reply: Reply): Result<AudioBuffer, Error> {
    if reply.TimedOut? && env.apiKeyPresent then Err(Raise(TimeoutMessage))
    else if reply.TimedOut? then Err(Raise(ApiKeyMissingMessage))
    else FetchChunkAudio(env.apiKeyPresent, reply.response, env.atob)
  }

  function ChunkAttempt(env: Env, i: nat, k: nat): Attempt<AudioBuffer> {
    var input := env.provider(i, k);
    Attempt(AttemptOutcome(env, input.reply), input.aborted)
  }

  /** The retried fetch of chunk `i`. */
  function ChunkRetried(env: Env, i: nat): Retried<AudioBuffer> {
    WithRetry(k => ChunkAttempt(env, i, k), 0)
  }

  /** A timeout is retryable: its message mentions "Timeout". */
  lemma TimeoutIsRetryable()
    ensures Retryable(Raise(TimeoutMessage))
  {
    assert "Timeout" <= TimeoutMessage[8..];
  }

  /** A text without a capital T does not mention "Timeout". */
  lemma NoTimeoutWithoutT(s: string)
    requires forall k :: 0 <= k < |s| ==> s[k] != 'T'
    ensures !Contains(s, "Timeout")
  {
    forall i | 0 <= i <= |s| ensures !("Timeout" <= s[i..]) {
      if i < |s| {
        assert s[i..][0] == s[i];
      }
    }
  }

  lemma NoTAcross(a: string, b: string)
    requires forall k :: 0 <= k < |a| ==> a[k] != 'T'
    requires forall k :: 0 <= k < |b| ==> b[k] != 'T'
    ensures forall k :: 0 <= k < |a + b| ==> (a + b)[k] != 'T'
  {
  }

  /** Neither the missing key nor missing audio data is retried. */
  lemma FetchErrorsNotRetryable()
    ensures !Retryable(Raise(ApiKeyMissingMessage)) && !Retryable(Raise(NoAudioMessage))
  {
    var p1, p2, p3 := "Gemini API Key missing. ", "Please set it using the key ", "icon in the top-left corner.";
    forall k | 0 <= k < |p1| ensures p1[k] != 'T' {}
    forall k | 0 <= k < |p2| ensures p2[k] != 'T' {}
    forall k | 0 <= k < |p3| ensures p3[k] != 'T' {}
    NoTAcross(p1, p2);
    NoTAcross(p1 + p2, p3);
    assert ApiKeyMissingMessage == p1 + p2 + p3;
    NoTimeoutWithoutT(ApiKeyMissingMessage);
    var m := NoAudioMessage;
    forall k | 0 <= k < |m| ensures m[k] != 'T' {}
    NoTimeoutWithoutT(m);
  }

  /** Neither decoding failure is retried: they carry no status and do not mention "Timeout". */
  lemma DecodeErrorsNotRetryable()
    ensures !Retryable(InvalidCharacterError) && !Retryable(NotSupportedError)
  {
    var m1, m2 := "InvalidCharacterError", "NotSupportedError";
    forall k | 0 <= k < |m1| ensures m1[k] != 'T' {}
    NoTimeoutWithoutT(m1);
    forall k | 0 <= k < |m2| ensures m2[k] != 'T' {}
    NoTimeoutWithoutT(m2);
  }

  /** Without an API key a chunk fails after one attempt with the missing-key error, or "Aborted". */
  lemma NoKeyFailsAtOnce(env: Env, i: nat)
    requires !env.apiKeyPresent
    ensures var r := ChunkRetried(env, i);
            && r.delays == []
            && r.result == (if env.provider(i, 0).aborted then Err(Raise("Aborted")) else Err(Raise(ApiKeyMissingMessage)))
  {
    FetchErrorsNotRetryable();
  }

  // ----- previewVoice -----

  /** What `previewVoice` produces from the provider's reply to "Neural check.": the buffer as a WAV file. */
  function PreviewOf(env: Env, response: ApiResponse): Result<seq<Byte>, Error> {
    var b := FetchChunkAudio(env.apiKeyPresent, response, env.atob);
    if b.Err? then Err(b.error) else Ok(Wav(b.value.data, b.value.sampleRate))
  }

  /** `previewVoice`: one fetch, no retry and no timeout, then a merge of that one buffer with no gap. */
  method PreviewVoice(env: Env, response: ApiResponse) returns (r: Result<seq<Byte>, Error>)
    ensures r == PreviewOf(env, response)
  {
    var buffer := FetchChunkAudio(env.apiKeyPresent, response, env.atob);
    if buffer.Err? {
      return Err(buffer.error);
    }
    var merged := MergeAudioBuffers([buffer.value], 0.0);
    assert Joined([buffer.value], GapSamples(0.0, buffer.value.sampleRate)) == buffer.value.data;
    return Ok(merged.value.blob);
  }

  /** A preview is a 24 kHz WAV file of exactly the decoded samples. */
  lemma PreviewShape(env: Env, response: ApiResponse)
    requires PreviewOf(env, response).Ok?
    ensures var b := FetchChunkAudio(env.apiKeyPresent, response, env.atob).value;
            var w := PreviewOf(env, response).value;
            && b.sampleRate == DefaultSampleRate
            && |w| == 44 + 2 * |b.data|
            && w[..44] == Header(|b.data|, DefaultSampleRate)
  {
  }

  // ----- Progress -----

  /** `10 + Math.floor((completedCount / totalChunks) * 80)` */
  function RealProgress(completed: nat, total: nat): int
    requires total > 0
  {
    10 + (completed * 80) / total
  }

  function Max(a: real, b: real): real {
    if a >= b then a else b
  }

  /** The real part of the progress runs from 10 to 90 and never goes back as segments complete. */
  lemma RealProgressBounds(c1: nat, c2: nat, total: nat)
    requires total > 0 && c1 <= c2 <= total
    ensures 10 <= RealProgress(c1, total) <= RealProgress(c2, total) <= 90
    ensures RealProgress(0, total) == 10 && RealProgress(total, total) == 90
  {
    MulLeftMono(80, c1, c2);
    MulLeftMono(80, c2, total);
    DivMono(c1 * 80, c2 * 80, total);
    DivMono(c2 * 80, total * 80, total);
    MulDivCancel(80, total);
  }

  lemma MulDivCancel(k: nat, d: nat)
    requires d > 0
    ensures (d * k) / d == k && (k * d) / d == k
  {
    var q := (d * k) / d;
    assert d * k == d * q + (d * k) % d;
    if q < k {
      MulLeftMono(d, q + 1, k);
      assert false;
    }
    if q > k {
      MulLeftMono(d, k + 1, q);
      assert false;
    }
    assert d * k == k * d;
  }

  lemma DivMono(a: nat, b: nat, d: nat)
    requires a <= b && d > 0
    ensures a / d <= b / d
  {
    var qa, qb := a / d, b / d;
    if qa > qb {
      assert d * qa >= d * (qb + 1) by { MulLeftMono(d, qb + 1, qa); }
      assert false;
    }
  }

  lemma MulLeftMono(d: nat, x: nat, y: nat)
    requires x <= y
    ensures d * x <= d * y
  {
  }

  /** The report before any segment is done: `updateProgress(SYNTHESIS_MESSAGES[0])`, virtual progress still 10. */
  function InitialReport(total: nat): ProcessingState {
    ProcessingState(true, 10.0, SynthesisMessages[0], total, 0)
  }

  /** The report after the `completed`-th segment: the larger of the real and the virtual progress. */
  function SegmentReport(env: Env, completed: nat, total: nat): ProcessingState
    requires total > 0
  {
    ProcessingState(true, Max(RealProgress(completed, total) as real, env.virtualProgress(completed)),
                    "Segment " + NatToString(completed) + "/" + NatToString(total) + " synthesized",
                    total, completed)
  }

  /** The reports made while `completed` segments have finished, in order. */
  function PoolReports(env: Env, total: nat, completed: nat): (rs: seq<ProcessingState>)
    requires total > 0
    ensures |rs| == completed + 1
  {
    seq(completed + 1, j requires 0 <= j <= completed => if j == 0 then InitialReport(total) else SegmentReport(env, j, total))
  }

  lemma PoolReportsSnoc(env: Env, total: nat, completed: nat)
    requires total > 0
    ensures PoolReports(env, total, completed + 1) == PoolReports(env, total, completed) + [SegmentReport(env, completed + 1, total)]
  {
  }

  function AssemblingReport(total: nat): ProcessingState {
    ProcessingState(true, 95.0, "Assembling audio stream...", total, total)
  }

  function SuccessReport(total: nat): ProcessingState {
    ProcessingState(false, 100.0, "Success!", total, total)
  }

  function CacheHitReport(count: nat): ProcessingState {
    ProcessingState(false, 100.0, "Retrieved from neural cache", count, count)
  }

  /** Report `j` lies in the documented range and shows at least the real progress. */
  lemma PoolReportAt(env: Env, total: nat, completed: nat, j: nat)
    requires total > 0 && j <= completed <= total
    requires 0 < j ==> 10.0 <= env.virtualProgress(j) <= 94.0
    ensures var r := PoolReports(env, total, completed)[j];
            && ProgressInRange(r) && r.processedChunks == j && r.totalChunks == total
            && r.progress >= RealProgress(j, total) as real && r.progress <= 94.0
  {
    RealProgressBounds(0, j, total);
    RealProgressBounds(j, total, total);
    var r := PoolReports(env, total, completed)[j];
    if j == 0 {
      assert r == InitialReport(total);
    } else {
      assert r == SegmentReport(env, j, total);
    }
  }

  /** Report `j + 1` shows no less progress than report `j` when the virtual progress does not go back. */
  lemma PoolReportStep(env: Env, total: nat, completed: nat, j: nat)
    requires total > 0 && j < completed <= total
    requires 10.0 <= env.virtualProgress(j + 1)
    requires 0 < j ==> env.virtualProgress(j) <= env.virtualProgress(j + 1)
    ensures var rs := PoolReports(env, total, completed);
            rs[j].progress <= rs[j + 1].progress
  {
    RealProgressBounds(0, j, total);
    RealProgressBounds(j, j + 1, total);
    var rs := PoolReports(env, total, completed);
    assert rs[j + 1] == SegmentReport(env, j + 1, total);
    if j == 0 {
      assert rs[j] == InitialReport(total);
    } else {
      assert rs[j] == SegmentReport(env, j, total);
    }
  }

  /**
   * If the virtual progress stays within [10, 94], as the interval timer
   * keeps it, and never goes back, every report lies in the documented
   * range, counts the segments done, shows at least the real progress, and
   * never goes back, up to the 95 of the assembling step.
   */
  lemma PoolReportsProgress(env: Env, total: nat, completed: nat)
    requires total > 0 && completed <= total
    requires forall c :: 0 < c <= completed ==> 10.0 <= env.virtualProgress(c) <= 94.0
    requires forall c :: 0 < c < completed ==> env.virtualProgress(c) <= env.virtualProgress(c + 1)
    ensures var rs := PoolReports(env, total, completed);
            && (forall j :: 0 <= j < |rs| ==>
                  && ProgressInRange(rs[j]) && rs[j].processedChunks == j && rs[j].totalChunks == total
                  && rs[j].progress >= RealProgress(j, total) as real)
            && (forall j :: 0 <= j < |rs| - 1 ==> rs[j].progress <= rs[j + 1].progress)
            && rs[|rs| - 1].progress <= AssemblingReport(total).progress
  {
    var rs := PoolReports(env, total, completed);
    forall j | 0 <= j < |rs|
      ensures && ProgressInRange(rs[j]) && rs[j].processedChunks == j && rs[j].totalChunks == total
              && rs[j].progress >= RealProgress(j, total) as real && rs[j].progress <= 94.0
    {
      PoolReportAt(env, total, completed, j);
    }
    forall j | 0 <= j < |rs| - 1
      ensures rs[j].progress <= rs[j + 1].progress
    {
      PoolReportStep(env, total, completed, j);
    }
  }

  // ----- synthesize -----

  /** The error a failed chunk makes the request throw: the abort error as is, else the segment message. */
  function SegmentError(env: Env, i: nat): Error {
    var r := ChunkRetried(env, i);
    if r.aborted && r.result.Err? then r.result.error
    else Raise("Synthesis failed at segment " + NatToString(i + 1) + ".")
  }

  /** The segment message names the failed chunk: distinct chunks give distinct messages. */
  lemma SegmentMessageNamesChunk(i: nat, j: nat)
    ensures "Synthesis failed at segment " + NatToString(i + 1) + "." == "Synthesis failed at segment " + NatToString(j + 1) + "." ==> i == j
  {
    var p := "Synthesis failed at segment ";
    if p + NatToString(i + 1) + "." == p + NatToString(j + 1) + "." {
      var a, b := p + NatToString(i + 1) + ".", p + NatToString(j + 1) + ".";
      assert a[|p|..|a| - 1] == NatToString(i + 1);
      assert b[|p|..|b| - 1] == NatToString(j + 1);
      NatToStringInjective(i + 1, j + 1);
    }
  }

  /** An abort while a chunk fails surfaces as `Error("Aborted")`. */
  lemma AbortedSegmentError(env: Env, i: nat)
    requires ChunkRetried(env, i).aborted
    ensures SegmentError(env, i) == Raise("Aborted")
  {
    RetryOutcome(k => ChunkAttempt(env, i, k), 0);
  }

  /** Every chunk's fetch succeeds. */
  predicate AllSucceed(env: Env, n: nat) {
    forall i :: 0 <= i < n ==> ChunkRetried(env, i).result.Ok?
  }

  /** The chunks' buffers in chunk order. */
  function Buffers(env: Env, n: nat): (bufs: seq<AudioBuffer>)
    requires AllSucceed(env, n)
    ensures |bufs| == n
  {
    seq(n, i requires 0 <= i < n => ChunkRetried(env, i).result.value)
  }

  /** The values of a slot array every slot of which is filled. */
  function Values(slots: seq<Option<AudioBuffer>>): (vs: seq<AudioBuffer>)
    requires forall i :: 0 <= i < |slots| ==> slots[i].Some?
    ensures |vs| == |slots| && forall i :: 0 <= i < |slots| ==> vs[i] == slots[i].value
  {
    seq(|slots|, i requires 0 <= i < |slots| => slots[i].value)
  }

  /** The indices `lo` up to `hi`, in order. */
  function Range(lo: nat, hi: nat): (r: seq<nat>)
    ensures |r| == if lo <= hi then hi - lo else 0
    ensures forall k :: 0 <= k < |r| ==> r[k] == lo + k
  {
    if lo >= hi then [] else seq(hi - lo, k requires 0 <= k < hi - lo => lo + k)
  }

  /** Slot `i` holds a buffer exactly when chunk `i` has been popped and has finished, and that buffer is its fetch result. */
  ghost predicate SlotsAgree(env: Env, slots: seq<Option<AudioBuffer>>, next: nat, inFlight: seq<nat>) {
    forall i :: 0 <= i < |slots| ==>
      && (slots[i].Some? <==> i < next && i !in inFlight)
      && (slots[i].Some? ==> ChunkRetried(env, i).result == Ok(slots[i].value))
  }

  /** A sequence without repeats. */
  predicate Distinct(xs: seq<nat>) {
    forall a, b :: 0 <= a < b < |xs| ==> xs[a] != xs[b]
  }

  /**
   * The pool's state between completions: chunks below `next` have been
   * popped, the queue holds the rest in order, each in-flight chunk is
   * held by one of the `workers` workers (all of them busy while the queue
   * is not empty), and the slots agree.
   */
  ghost predicate PoolInv(env: Env, n: nat, workers: nat, slots: seq<Option<AudioBuffer>>,
                          next: nat, queue: seq<nat>, inFlight: seq<nat>, completed: nat) {
    && |slots| == n && next <= n && queue == Range(next, n)
    && completed + |inFlight| == next
    && 1 <= workers && |inFlight| <= workers && (next < n ==> |inFlight| == workers)
    && (forall a :: 0 <= a < |inFlight| ==> inFlight[a] < next)
    && Distinct(inFlight)
    && SlotsAgree(env, slots, next, inFlight)
  }

  /** Dropping the `j`-th in-flight chunk. */
  function Without(xs: seq<nat>, j: nat): (ys: seq<nat>)
    requires j < |xs|
    ensures |ys| == |xs| - 1
  {
    xs[..j] + xs[j + 1..]
  }

  lemma WithoutMembers(xs: seq<nat>, j: nat)
    requires j < |xs| && Distinct(xs)
    ensures Distinct(Without(xs, j))
    ensures forall x :: x in Without(xs, j) <==> x in xs && x != xs[j]
  {
    var ys := Without(xs, j);
    forall x | x in xs && x != xs[j] ensures x in ys {
      var a :| 0 <= a < |xs| && xs[a] == x;
      if a < j { assert ys[a] == x; } else { assert ys[a - 1] == x; }
    }
  }

  /** The pool's start: the first `workers` chunks are in flight and every slot is empty. */
  lemma PoolStart(env: Env, n: nat, workers: nat)
    requires 1 <= workers <= n
    ensures PoolInv(env, n, workers, seq(n, _ => None), workers, Range(0, n)[workers..], Range(0, n)[..workers], 0)
  {
    var f := Range(0, n)[..workers];
    assert forall i :: 0 <= i < workers ==> f[i] == i;
    forall i | 0 <= i < workers ensures i in f {
      assert f[i] == i;
    }
    assert Range(0, n)[workers..] == Range(workers, n);
  }

  /** The slots after chunk `f[j]` stores its buffer and the worker pops the next chunk, if any. */
  lemma SlotsStep(env: Env, slots: seq<Option<AudioBuffer>>, next: nat, f: seq<nat>, j: nat, v: AudioBuffer, next': nat)
    requires j < |f| && f[j] < next <= |slots| && Distinct(f) && SlotsAgree(env, slots, next, f)
    requires ChunkRetried(env, f[j]).result == Ok(v)
    requires next' == next || (next' == next + 1 && next < |slots|)
    requires forall i :: next <= i < |slots| ==> slots[i].None?
    ensures SlotsAgree(env, slots[f[j] := Some(v)], next', if next' == next then Without(f, j) else Without(f, j) + [next])
  {
    WithoutMembers(f, j);
    assert f[j] in f;
    var slots' := slots[f[j] := Some(v)];
    var f' := if next' == next then Without(f, j) else Without(f, j) + [next];
    forall i | 0 <= i < |slots'|
      ensures slots'[i].Some? <==> i < next' && i !in f'
      ensures slots'[i].Some? ==> ChunkRetried(env, i).result == Ok(slots'[i].value)
    {
      if i != f[j] && i != next {
        assert slots'[i] == slots[i];
        assert i in f' <==> i in f;
      }
    }
  }

  /** One completion keeps the pool's state. */
  lemma PoolStep(env: Env, n: nat, workers: nat, slots: seq<Option<AudioBuffer>>,
                 next: nat, queue: seq<nat>, inFlight: seq<nat>, completed: nat, j: nat, v: AudioBuffer)
    requires PoolInv(env, n, workers, slots, next, queue, inFlight, completed)
    requires j < |inFlight| && ChunkRetried(env, inFlight[j]).result == Ok(v)
    ensures var slots' := slots[inFlight[j] := Some(v)];
            var f := Without(inFlight, j);
            if queue != [] then PoolInv(env, n, workers, slots', next + 1, queue[1..], f + [queue[0]], completed + 1)
            else PoolInv(env, n, workers, slots', next, queue, f, completed + 1)
  {
    WithoutMembers(inFlight, j);
    assert inFlight[j] in inFlight;
    forall i | next <= i < n ensures slots[i].None? {
    }
    if queue != [] {
      assert queue[0] == next;
      assert queue[1..] == Range(next + 1, n);
      SlotsStep(env, slots, next, inFlight, j, v, next + 1);
      var f := Without(inFlight, j) + [queue[0]];
      assert forall a :: 0 <= a < |f| - 1 ==> f[a] in inFlight;
    } else {
      SlotsStep(env, slots, next, inFlight, j, v, next);
    }
  }

  /** When no chunk is left in flight, every chunk has its buffer. */
  lemma PoolDone(env: Env, n: nat, workers: nat, slots: seq<Option<AudioBuffer>>, next: nat, queue: seq<nat>, completed: nat)
    requires PoolInv(env, n, workers, slots, next, queue, [], completed)
    ensures completed == n
    ensures forall i :: 0 <= i < n ==> slots[i].Some? && ChunkRetried(env, i).result == Ok(slots[i].value)
  {
  }

  /**
   * The worker pool of `synthesize`: `min(2, n)` workers each pop the next
   * chunk from the FIFO queue, await its retried fetch, store the buffer at
   * the chunk's index and report; the first failure ends the pool.
   * `pick(s)` chooses which in-flight chunk finishes at step `s`.
   */
  method RunPool(env: Env, n: nat, pick: nat -> nat)
    returns (slots: array<Option<AudioBuffer>>, failed: Option<nat>, completed: nat, reports: seq<ProcessingState>)
    requires n > 0
    ensures fresh(slots) && slots.Length == n
    ensures failed.None? ==> completed == n && forall i :: 0 <= i < n ==>
              slots[i].Some? && ChunkRetried(env, i).result == Ok(slots[i].value)
    ensures failed.Some? ==> failed.value < n && ChunkRetried(env, failed.value).result.Err? && completed < n
    ensures reports == PoolReports(env, n, completed)
  {
    slots := new Option<AudioBuffer>[n](_ => None);
    var workers := if ConcurrencyLimit < n then ConcurrencyLimit else n;
    failed := None;
    var queue: seq<nat> := Range(0, n);
    // Each worker pops one chunk before its first await.
    var inFlight: seq<nat> := queue[..workers];
    queue := queue[workers..];
    ghost var next: nat := workers;
    PoolStart(env, n, workers);
    assert slots[..] == seq(n, _ => None);
    completed := 0;
    reports := [InitialReport(n)];
    var step := 0;
    while inFlight != []
      invariant PoolInv(env, n, workers, slots[..], next, queue, inFlight, completed)
      invariant reports == PoolReports(env, n, completed)
      decreases n - completed
    {
      var j := pick(step) % |inFlight|;
      var index := inFlight[j];
      var r := ChunkRetried(env, index);
      if r.result.Err? {
        return slots, Some(index), completed, reports;
      }
      PoolStep(env, n, workers, slots[..], next, queue, inFlight, completed, j, r.result.value);
      PoolReportsSnoc(env, n, completed);
      slots[index] := Some(r.result.value);
      inFlight := Without(inFlight, j);
      completed := completed + 1;
      reports := reports + [SegmentReport(env, completed, n)];
      if queue != [] {
        inFlight := inFlight + [queue[0]];
        queue := queue[1..];
        next := next + 1;
      }
      step := step + 1;
    }
    PoolDone(env, n, workers, slots[..], next, queue, completed);
  }

  /** The merged audio of a run in which every chunk succeeded. */
  function Assembled(env: Env, n: nat): (m: Merged)
    requires n > 0 && AllSucceed(env, n)
  {
    MergedOf(Buffers(env, n), SilenceGapSeconds).value
  }

  /**
   * What `synthesize` ends with once the chunks are known and not empty:
   * some failed chunk's error and the reports up to then, with the cache
   * untouched; or, when every chunk succeeds, the assembled audio cached
   * under `key` (a failed write request fails the call after the
   * assembling report; a database that does not open is skipped).
   */
  ghost predicate MissOutcome(env: Env, chunks: seq<string>, key: string, writeDb: DbCondition, now: int,
                              before: map<string, CacheEntry>, after: map<string, CacheEntry>,
                              r: Result<SynthesisResult, Error>, reports: seq<ProcessingState>)
    requires |chunks| > 0
  {
    var n := |chunks|;
    if !AllSucceed(env, n) then
      && (exists i :: 0 <= i < n && ChunkRetried(env, i).result.Err? && r == Err(SegmentError(env, i)))
      && (exists c :: 0 <= c < n && reports == PoolReports(env, n, c))
      && after == before
    else
      var m := Assembled(env, n);
      if writeDb.RequestFails? then
        r == Err(writeDb.requestError) && reports == PoolReports(env, n, n) + [AssemblingReport(n)] && after == before
      else
        && r == Ok(SynthesisResult(m.blob, chunks, m.timings))
        && reports == PoolReports(env, n, n) + [AssemblingReport(n), SuccessReport(n)]
        && after == (if writeDb.Opens? then Stored(before, key, CachedAudio(m.blob, chunks, m.timings), now) else before)
  }

  /** The pool, the merge and the cache write of `synthesize`, for non-empty `chunks`. */
  method SynthesizeChunks(chunks: seq<string>, key: string, env: Env, cache: AudioCache,
                          writeDb: DbCondition, now: int, pick: nat -> nat)
    returns (r: Result<SynthesisResult, Error>, reports: seq<ProcessingState>)
    requires |chunks| > 0 && cache.Valid()
    modifies cache
    ensures cache.Valid()
    ensures MissOutcome(env, chunks, key, writeDb, now, old(cache.entries), cache.entries, r, reports)
  {
    var n := |chunks|;
    var slots, failed, completed;
    slots, failed, completed, reports := RunPool(env, n, pick);
    if failed.Some? {
      return Err(SegmentError(env, failed.value)), reports;
    }
    reports := reports + [AssemblingReport(n)];
    var bufs := Values(slots[..]);
    assert bufs == Buffers(env, n);
    var merged := MergeAudioBuffers(bufs, SilenceGapSeconds);
    assert merged.Ok?;
    var m := merged.value;
    var stored := cache.Put(key, CachedAudio(m.blob, chunks, m.timings), now, writeDb);
    if stored.Err? {
      return Err(stored.error), reports;
    }
    reports := reports + [SuccessReport(n)];
    r := Ok(SynthesisResult(m.blob, chunks, m.timings));
  }

  /**
   * `synthesize`: a cached entry for the key is returned as is; otherwise
   * the text is chunked, the pool fetches every chunk, the buffers are
   * merged with 0.4 s gaps, and the result is cached under the key.
   * `readDb` and `writeDb` say how the cache read and write go; `now` is
   * the write's timestamp.
   */
  method Synthesize(text: string, config: TTSConfig, env: Env, cache: AudioCache,
                    readDb: DbCondition, writeDb: DbCondition, now: int, pick: nat -> nat)
    returns (r: Result<SynthesisResult, Error>, reports: seq<ProcessingState>)
    requires cache.Valid()
    modifies cache
    ensures cache.Valid()
    ensures var read := ReadOutcome(old(cache.entries), CacheKey(text, config, env.digest, env.speedText), readDb);
            read.Err? ==> r == Err(read.error) && reports == [] && cache.entries == old(cache.entries)
    ensures var read := ReadOutcome(old(cache.entries), CacheKey(text, config, env.digest, env.speedText), readDb);
            read.Ok? && read.value.Some? ==>
              var c := read.value.value;
              r == Ok(SynthesisResult(c.blob, c.chunks, c.timings)) && reports == [CacheHitReport(|c.chunks|)]
              && cache.entries == old(cache.entries)
    ensures var read := ReadOutcome(old(cache.entries), CacheKey(text, config, env.digest, env.speedText), readDb);
            read == Ok(None) && Chunked(text, ChunkSizeWords) == [] ==>
              r == Err(Raise("No text found to process")) && reports == [] && cache.entries == old(cache.entries)
    ensures var key := CacheKey(text, config, env.digest, env.speedText);
            var chunks := Chunked(text, ChunkSizeWords);
            ReadOutcome(old(cache.entries), key, readDb) == Ok(None) && |chunks| > 0 ==>
              MissOutcome(env, chunks, key, writeDb, now, old(cache.entries), cache.entries, r, reports)
  {
    var key := CacheKey(text, config, env.digest, env.speedText);
    var cached := cache.Get(key, readDb);
    if cached.Err? {
      return Err(cached.error), [];
    }
    if cached.value.Some? {
      var c := cached.value.value;
      return Ok(SynthesisResult(c.blob, c.chunks, c.timings)), [CacheHitReport(|c.chunks|)];
    }
    var chunks := ChunkText(text, ChunkSizeWords);
    if |chunks| == 0 {
      return Err(Raise("No text found to process")), [];
    }
    r, reports := SynthesizeChunks(chunks, key, env, cache, writeDb, now, pick);
  }
}
