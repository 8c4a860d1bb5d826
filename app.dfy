// The pure helpers and the generate/delete handlers of the top-level
// component: the choice of text to synthesise, the history list, and the
// chunk/word highlight tracking.

module App {
  import opened Wrappers
  import opened Strings
  import opened Types

  // ----- History -----

  const HistoryLimit: nat := 15

  function Min(a: int, b: int): int {
    if a <= b then a else b
  }

  /** The new item goes first, then the old list, cut to at most 15 items. */
  function Prepended(prev: seq<HistoryItem>, item: HistoryItem): (h: seq<HistoryItem>)
    ensures |h| == Min(HistoryLimit, |prev| + 1) && h[0] == item
    ensures h[1..] == prev[..|h| - 1]
  {
    ([item] + prev)[..Min(HistoryLimit, |prev| + 1)]
  }

  /** Every prepend keeps the list within the limit and keeps the newest items first. */
  lemma PrependedNewestFirst(prev: seq<HistoryItem>, a: HistoryItem, b: HistoryItem)
    requires |prev| <= HistoryLimit
    ensures var h := Prepended(Prepended(prev, a), b);
            |h| <= HistoryLimit && h[0] == b && h[1] == a
            && |h| == Min(HistoryLimit, |prev| + 2)
            && h[2..] == prev[..|h| - 2]
  {
    var h1 := Prepended(prev, a);
    var h := Prepended(h1, b);
    assert h[1] == h1[0];
    assert h[2..] == h1[1..][..|h| - 2];
  }

  /** `prev.filter(item => item.id !== id)` */
  function Deleted(prev: seq<HistoryItem>, id: string): seq<HistoryItem> {
    if prev == [] then []
    else if prev[0].id != id then [prev[0]] + Deleted(prev[1..], id)
    else Deleted(prev[1..], id)
  }

  /** Deleting keeps exactly the items with another id. */
  lemma {:induction false} DeletedMembers(prev: seq<HistoryItem>, id: string)
    ensures forall x :: x in Deleted(prev, id) <==> x in prev && x.id != id
    ensures |Deleted(prev, id)| <= |prev|
  {
    if prev != [] {
      DeletedMembers(prev[1..], id);
      assert forall x :: x in prev <==> x == prev[0] || x in prev[1..];
    }
  }

  /** Deleting works piecewise, so the kept items stay in their order. */
  lemma {:induction false} DeletedConcat(a: seq<HistoryItem>, b: seq<HistoryItem>, id: string)
    ensures Deleted(a + b, id) == Deleted(a, id) + Deleted(b, id)
  {
    if a != [] {
      assert (a + b)[1..] == a[1..] + b;
      DeletedConcat(a[1..], b, id);
    } else {
      assert a + b == b;
    }
  }

  /** A list without the id is left as it is, so deleting twice is deleting once. */
  lemma {:induction false} DeletedNoMatch(prev: seq<HistoryItem>, id: string)
    requires forall i :: 0 <= i < |prev| ==> prev[i].id != id
    ensures Deleted(prev, id) == prev
  {
    if prev != [] {
      DeletedNoMatch(prev[1..], id);
    }
  }

  lemma DeletedIdempotent(prev: seq<HistoryItem>, id: string)
    ensures Deleted(Deleted(prev, id), id) == Deleted(prev, id)
  {
    var d := Deleted(prev, id);
    DeletedMembers(prev, id);
    assert forall i :: 0 <= i < |d| ==> d[i] in d;
    DeletedNoMatch(d, id);
  }

  // ----- Highlight tracking -----

  /** `time >= t.start && time < t.end` */
  predicate Plays(t: ChunkTiming, time: real) {
    t.start <= time < t.end
  }

  /** A timing whose duration is its span, as the merge produces them. */
  predicate Consistent(timings: seq<ChunkTiming>) {
    forall i :: 0 <= i < |timings| ==> timings[i].duration == timings[i].end - timings[i].start
  }

  function FindFrom(timings: seq<ChunkTiming>, time: real, from: nat): (r: int)
    requires from <= |timings|
    ensures r == -1 || from <= r < |timings|
    ensures r == -1 <==> forall i :: from <= i < |timings| ==> !Plays(timings[i], time)
    ensures r >= 0 ==> Plays(timings[r], time) && forall i :: from <= i < r ==> !Plays(timings[i], time)
    decreases |timings| - from
  {
    if from == |timings| then -1
    else if Plays(timings[from], time) then from
    else FindFrom(timings, time, from + 1)
  }

  /** `findIndex`: the first chunk playing at `time`, or -1 when none is. */
  function ActiveChunkIndex(timings: seq<ChunkTiming>, time: real): (r: int)
    ensures -1 <= r < |timings|
    ensures r == -1 <==> forall i :: 0 <= i < |timings| ==> !Plays(timings[i], time)
    ensures r >= 0 ==> Plays(timings[r], time) && forall i :: 0 <= i < r ==> !Plays(timings[i], time)
  {
    FindFrom(timings, time, 0)
  }

  function MinReal(a: real, b: real): real {
    if a <= b then a else b
  }

  /** Every duration is positive, as the merge records them for buffers of at least one frame. */
  predicate PositiveDurations(timings: seq<ChunkTiming>) {
    forall i :: 0 <= i < |timings| ==> timings[i].duration > 0.0
  }

  /**
   * `Math.floor(Math.min(1, (time - start) / duration) * wordCount)`. While
   * the chunk plays the index lies between 0 and the word count, and reaches
   * the count only when the progress is capped at 1; for a timing whose
   * duration is its span it always names one of the chunk's words.
   */
  function EstimatedWordIndex(t: ChunkTiming, time: real, wordCount: nat): (k: int)
    requires Plays(t, time) && t.duration > 0.0
    ensures 0 <= k <= wordCount
    ensures wordCount == 0 ==> k == 0
    ensures k == wordCount <==> wordCount == 0 || time - t.start >= t.duration
    ensures t.duration == t.end - t.start && wordCount > 0 ==> k < wordCount
  {
    var progress := MinReal(1.0, (time - t.start) / t.duration);
    ProgressRange(t, time);
    ScaledFloor(progress, wordCount);
    Scaled(progress, wordCount)
  }

  /** `Math.floor(progress * wordCount)` */
  function Scaled(progress: real, wordCount: nat): int {
    (progress * wordCount as real).Floor
  }

  lemma ScaledMonotone(p1: real, p2: real, n: nat)
    requires p1 <= p2
    ensures Scaled(p1, n) <= Scaled(p2, n)
  {
    assert (p2 - p1) * n as real >= 0.0;
    assert p2 * n as real - p1 * n as real == (p2 - p1) * n as real;
  }

  /** The capped progress lies in [0, 1], and is 1 exactly when the elapsed time reaches the duration. */
  lemma ProgressRange(t: ChunkTiming, time: real)
    requires Plays(t, time) && t.duration > 0.0
    ensures var p := MinReal(1.0, (time - t.start) / t.duration);
            && 0.0 <= p <= 1.0
            && (p == 1.0 <==> time - t.start >= t.duration)
  {
    QuotientVersusOne(time - t.start, t.duration);
  }

  lemma QuotientVersusOne(x: real, d: real)
    requires 0.0 <= x && d > 0.0
    ensures 0.0 <= x / d
    ensures x / d < 1.0 <==> x < d
  {
    var q := x / d;
    assert q * d == x;
    assert (1.0 - q) * d == d - x;
  }

  lemma ScaledFloor(p: real, n: nat)
    requires 0.0 <= p <= 1.0
    ensures n == 0 ==> (p * n as real).Floor == 0
    ensures 0 <= (p * n as real).Floor <= n
    ensures p < 1.0 && n > 0 ==> (p * n as real).Floor < n
    ensures p == 1.0 ==> (p * n as real).Floor == n
  {
    assert 0.0 <= p * n as real <= n as real;
    if p < 1.0 && n > 0 {
      assert p * n as real < n as real;
    }
  }

  lemma DivMonotone(x1: real, x2: real, d: real)
    requires x1 <= x2 && d > 0.0
    ensures x1 / d <= x2 / d
  {
    var q := x2 / d - x1 / d;
    assert q * d == x2 - x1;
  }

  /** Later in the same chunk, the estimated word is never an earlier one. */
  lemma WordIndexMonotone(t: ChunkTiming, time1: real, time2: real, wordCount: nat)
    requires Plays(t, time1) && Plays(t, time2) && t.duration > 0.0
    requires time1 <= time2
    ensures EstimatedWordIndex(t, time1, wordCount) <= EstimatedWordIndex(t, time2, wordCount)
  {
    var p1 := (time1 - t.start) / t.duration;
    var p2 := (time2 - t.start) / t.duration;
    DivMonotone(time1 - t.start, time2 - t.start, t.duration);
    assert MinReal(1.0, p1) <= MinReal(1.0, p2);
    ScaledMonotone(MinReal(1.0, p1), MinReal(1.0, p2), wordCount);
  }

  /** One animation-frame update: the active chunk, and the word index (kept when there is no text to index). */
  datatype Highlight = Highlight(activeChunk: int, wordIndex: int)

  function HighlightAt(timings: seq<ChunkTiming>, chunks: seq<string>, time: real, prevWord: int): (h: Highlight)
    requires PositiveDurations(timings)
    ensures h.activeChunk == ActiveChunkIndex(timings, time)
    ensures h.activeChunk == -1 || h.activeChunk >= |chunks| || chunks[h.activeChunk] == [] ==> h.wordIndex == prevWord
    ensures 0 <= h.activeChunk < |chunks| && chunks[h.activeChunk] != [] ==>
              0 <= h.wordIndex <= |SplitWs(chunks[h.activeChunk])|
    ensures 0 <= h.activeChunk < |chunks| && chunks[h.activeChunk] != [] && Consistent(timings) ==>
              h.wordIndex < |SplitWs(chunks[h.activeChunk])|
  {
    var i := ActiveChunkIndex(timings, time);
    if i == -1 || i >= |chunks| || chunks[i] == [] then Highlight(i, prevWord)
    else
      SplitWsPieces(chunks[i]);
      Highlight(i, EstimatedWordIndex(timings[i], time, |SplitWs(chunks[i])|))
  }

  // ----- Generate -----

  /** What the catch block shows: nothing for an abort, else the message or a fallback. */
  function ShownError(e: Error): (shown: Option<string>)
    ensures shown.None? <==> e.message == Some("Aborted")
    ensures shown.Some? ==> shown.value != []
    ensures e.message.Some? && e.message.value != [] && e.message.value != "Aborted" ==> shown == e.message
  {
    match e.message
    case None => Some("Synthesis failed.")
    case Some(m) =>
      if m == "Aborted" then None
      else if m == [] then Some("Synthesis failed.")
      else Some(m)
  }

  /** The translation remembered by the preview: the text it was made from, its language and the result. */
  datatype Remembered = Remembered(source: string, lang: LanguageCode, result: string)

  /**
   * Where the text to synthesise comes from: the text itself for
   * 'original', a remembered translation of exactly this text and language,
   * the preview translation still in flight, or a fresh translation.
   */
  datatype TextSource = Raw | Reused | Pending | Fresh

  function SourceOf(text: string, language: LanguageCode, last: Option<Remembered>, pendingTranslation: bool): (s: TextSource)
    ensures s == Raw <==> language == Original
    ensures s == Reused <==> language != Original && last.Some? && last.value.source == text && last.value.lang == language
  {
    if language == Original then Raw
    else if last.Some? && last.value.source == text && last.value.lang == language then Reused
    else if pendingTranslation then Pending
    else Fresh
  }

  /** The text handed to `synthesize`, or the error that stops the attempt. */
  function TextToSynthesize(text: string, language: LanguageCode, last: Option<Remembered>,
                            pending: Option<Result<string, Error>>, translate: Result<string, Error>): (r: Result<string, Error>)
    ensures r.Ok? ==> r.value != []
    ensures language == Original ==> r == (if text == [] then Err(Raise(NoTextMessage)) else Ok(text))
    ensures SourceOf(text, language, last, pending.Some?) == Reused ==>
              r == (if last.value.result == [] then Err(Raise(NoTextMessage)) else Ok(last.value.result))
  {
    var chosen := match SourceOf(text, language, last, pending.Some?)
      case Raw => Ok(text)
      case Reused => Ok(last.value.result)
      case Pending => pending.value
      case Fresh => translate;
    if chosen.Err? then chosen
    else if chosen.value == [] then Err(Raise(NoTextMessage))
    else chosen
  }

  const BlankMessage := "Please enter text."
  const NoTextMessage := "Could not obtain text for synthesis."
  const SynthesisFallback := "Synthesis failed."

  /** The state shown while a translation is awaited. */
  function TranslationReport(s: TextSource): Option<ProcessingState> {
    match s
    case Pending => Some(ProcessingState(true, 5.0, "Finalizing background translation...", 0, 0))
    case Fresh => Some(ProcessingState(true, 5.0, "Syncing linguistic context...", 0, 0))
    case _ => None
  }

  /** What `synthesize` gives back for a text: its result and the progress it reported. */
  datatype SynthRun = SynthRun(result: Result<SynthesisResult, Error>, reports: seq<ProcessingState>)

  /** The component state the handlers touch. */
  datatype View = View(
    history: seq<HistoryItem>,
    error: Option<string>,
    audio: Option<seq<Byte>>,
    generatedChunks: seq<string>,
    chunkTimings: seq<ChunkTiming>,
    isEditing: bool,
    processing: ProcessingState)

  function Last(reports: seq<ProcessingState>, otherwise: ProcessingState): ProcessingState {
    if reports == [] then otherwise else reports[|reports| - 1]
  }

  /** The state once the text is accepted: error and audio cleared, and the translation report shown if one is awaited. */
  function Waiting(v: View, text: string, config: TTSConfig, last: Option<Remembered>, pendingTranslation: bool): View {
    var started := v.(error := None, audio := None);
    var report := TranslationReport(SourceOf(text, config.language, last, pendingTranslation));
    if report.Some? then started.(processing := report.value) else started
  }

  /** The state after `synthesize` ran on the chosen text: the catch block on failure, the result and a new history item on success. */
  function Finished(w: View, run: SynthRun, item: HistoryItem): View {
    var shown := Last(run.reports, w.processing);
    match run.result
    case Err(e) => w.(error := ShownError(e), processing := shown.(isProcessing := false))
    case Ok(res) =>
      w.(audio := Some(res.audio), generatedChunks := res.chunks, chunkTimings := res.timings,
         isEditing := false, processing := shown, history := Prepended(w.history, item))
  }

  /** `handleGenerate` on the state `v`, at time `now` (milliseconds). */
  function Generated(v: View, text: string, config: TTSConfig, last: Option<Remembered>,
                     pending: Option<Result<string, Error>>, translate: Result<string, Error>,
                     synthesize: string -> SynthRun, now: nat): View
  {
    if Trim(text) == [] then v.(error := Some(BlankMessage))
    else
      var w := Waiting(v, text, config, last, pending.Some?);
      var t := TextToSynthesize(text, config.language, last, pending, translate);
      if t.Err? then w.(error := ShownError(t.error), processing := w.processing.(isProcessing := false))
      else Finished(w, synthesize(t.value), HistoryItem(NatToString(now), now, text, config))
  }

  /** Blank text only sets the error: nothing else changes and no synthesis starts. */
  lemma BlankTextOnlySetsError(v: View, text: string, config: TTSConfig, last: Option<Remembered>,
                               pending: Option<Result<string, Error>>, translate: Result<string, Error>,
                               synthesize: string -> SynthRun, now: nat)
    requires AllSpace(text)
    ensures Generated(v, text, config, last, pending, translate, synthesize, now) == v.(error := Some(BlankMessage))
  {
    TrimOfSpace(text);
  }

  lemma {:induction false} TrimOfSpace(s: string)
    requires AllSpace(s)
    ensures Trim(s) == []
  {
    TrimStartShape(s);
  }

  /**
   * The history changes only on a successful synthesis, and then gains the
   * original text and configuration at its head; the list never exceeds 15.
   */
  lemma HistoryOnlyOnSuccess(v: View, text: string, config: TTSConfig, last: Option<Remembered>,
                             pending: Option<Result<string, Error>>, translate: Result<string, Error>,
                             synthesize: string -> SynthRun, now: nat)
    requires |v.history| <= HistoryLimit
    ensures var w := Generated(v, text, config, last, pending, translate, synthesize, now);
            var t := TextToSynthesize(text, config.language, last, pending, translate);
            |w.history| <= HistoryLimit
            && (w.history != v.history ==>
                  Trim(text) != [] && t.Ok? && synthesize(t.value).result.Ok?
                  && w.history == Prepended(v.history, HistoryItem(NatToString(now), now, text, config)))
  {
    var t := TextToSynthesize(text, config.language, last, pending, translate);
    if Trim(text) != [] && t.Ok? {
      var w := Waiting(v, text, config, last, pending.Some?);
      assert w.history == v.history;
      var item := HistoryItem(NatToString(now), now, text, config);
      assert Generated(v, text, config, last, pending, translate, synthesize, now) == Finished(w, synthesize(t.value), item);
    }
  }

  /** An abort is never shown, whatever stage raised it. */
  lemma AbortNotShown(v: View, text: string, config: TTSConfig, last: Option<Remembered>,
                      pending: Option<Result<string, Error>>, translate: Result<string, Error>,
                      synthesize: string -> SynthRun, now: nat)
    requires Trim(text) != []
    requires var t := TextToSynthesize(text, config.language, last, pending, translate);
             t.Ok? && synthesize(t.value).result == Err(Raise("Aborted"))
    ensures Generated(v, text, config, last, pending, translate, synthesize, now).error == None
  {
  }

  /** The component's state, updated in place by its handlers. */
  class AppModel {
    var history: seq<HistoryItem>
    var error: Option<string>
    var audio: Option<seq<Byte>>
    var generatedChunks: seq<string>
    var chunkTimings: seq<ChunkTiming>
    var isEditing: bool
    var processing: ProcessingState

    function Snapshot(): View
      reads this
    {
      View(history, error, audio, generatedChunks, chunkTimings, isEditing, processing)
    }

    /** The initial state: no history, no error, no audio, editing. */
    constructor (initialHistory: seq<HistoryItem>)
      ensures Snapshot() == View(initialHistory, None, None, [], [], true, ProcessingState(false, 0.0, "Ready", 0, 0))
    {
      history := initialHistory;
      error := None;
      audio := None;
      generatedChunks := [];
      chunkTimings := [];
      isEditing := true;
      processing := ProcessingState(false, 0.0, "Ready", 0, 0);
    }

    /** `handleGenerate` */
    method HandleGenerate(text: string, config: TTSConfig, last: Option<Remembered>,
                          pending: Option<Result<string, Error>>, translate: Result<string, Error>,
                          synthesize: string -> SynthRun, now: nat)
      modifies this
      ensures Snapshot() == Generated(old(Snapshot()), text, config, last, pending, translate, synthesize, now)
    {
      if Trim(text) == [] {
        error := Some(BlankMessage);
        return;
      }
      Begin(text, config, last, pending.Some?);
      var t := TextToSynthesize(text, config.language, last, pending, translate);
      if t.Err? {
        error := ShownError(t.error);
        processing := processing.(isProcessing := false);
        return;
      }
      Finish(synthesize(t.value), HistoryItem(NatToString(now), now, text, config));
    }

    /** Accepting the text: clear the error and the audio, show the translation report if one is awaited. */
    method Begin(text: string, config: TTSConfig, last: Option<Remembered>, pendingTranslation: bool)
      modifies this
      ensures Snapshot() == Waiting(old(Snapshot()), text, config, last, pendingTranslation)
    {
      error := None;
      audio := None;
      var report := TranslationReport(SourceOf(text, config.language, last, pendingTranslation));
      if report.Some? {
        processing := report.value;
      }
    }

    /** Taking in what `synthesize` gave back. */
    method Finish(run: SynthRun, item: HistoryItem)
      modifies this
      ensures Snapshot() == Finished(old(Snapshot()), run, item)
    {
      processing := Last(run.reports, processing);
      match run.result {
        case Err(e) =>
          error := ShownError(e);
          processing := processing.(isProcessing := false);
        case Ok(res) =>
          audio := Some(res.audio);
          generatedChunks := res.chunks;
          chunkTimings := res.timings;
          isEditing := false;
          history := Prepended(history, item);
      }
    }

    /** `handleDeleteHistory` */
    method HandleDeleteHistory(id: string)
      modifies this
      ensures Snapshot() == old(Snapshot()).(history := Deleted(old(history), id))
    {
      history := Deleted(history, id);
    }
  }
}
