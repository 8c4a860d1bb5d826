// The transcript view: every chunk's words in order, the active chunk
// marked, and the estimated word of the active chunk highlighted.

module TranscriptHighlighter {
  import opened Wrappers
  import opened Strings
  import opened Types
  import App

  /** One rendered word and whether it is the highlighted one. */
  datatype WordView = WordView(text: string, highlighted: bool)

  /** One rendered chunk: its index, whether it is the active one, and its words. */
  datatype ChunkView = ChunkView(index: nat, active: bool, words: seq<WordView>)

  function ChunkViewOf(chunk: string, cIdx: nat, activeChunkIndex: int, estimatedWordIndex: int): (v: ChunkView)
    ensures v.index == cIdx && (v.active <==> cIdx == activeChunkIndex)
    ensures |v.words| == |SplitWs(chunk)|
    ensures forall w :: 0 <= w < |v.words| ==>
              v.words[w].text == SplitWs(chunk)[w]
              && (v.words[w].highlighted <==> cIdx == activeChunkIndex && w == estimatedWordIndex)
  {
    var words := SplitWs(chunk);
    var isActive := cIdx == activeChunkIndex;
    ChunkView(cIdx, isActive, seq(|words|, w requires 0 <= w < |words| => WordView(words[w], isActive && w == estimatedWordIndex)))
  }

  /** The whole transcript, chunk by chunk. */
  function Transcript(chunks: seq<string>, activeChunkIndex: int, estimatedWordIndex: int): (t: seq<ChunkView>)
    ensures |t| == |chunks|
    ensures forall c :: 0 <= c < |t| ==> t[c] == ChunkViewOf(chunks[c], c, activeChunkIndex, estimatedWordIndex)
  {
    seq(|chunks|, c requires 0 <= c < |chunks| => ChunkViewOf(chunks[c], c, activeChunkIndex, estimatedWordIndex))
  }

  predicate Highlighted(t: seq<ChunkView>, c: nat, w: nat) {
    c < |t| && w < |t[c].words| && t[c].words[w].highlighted
  }

  /**
   * At most one chunk is active and at most one word is highlighted, and
   * that word lies in the active chunk; with index -1 nothing is active.
   */
  lemma AtMostOneHighlight(chunks: seq<string>, activeChunkIndex: int, estimatedWordIndex: int,
                           c1: nat, w1: nat, c2: nat, w2: nat)
    ensures var t := Transcript(chunks, activeChunkIndex, estimatedWordIndex);
            && (Highlighted(t, c1, w1) && Highlighted(t, c2, w2) ==> c1 == c2 && w1 == w2)
            && (Highlighted(t, c1, w1) ==> t[c1].active)
            && (c1 < |t| && c2 < |t| && t[c1].active && t[c2].active ==> c1 == c2)
            && (activeChunkIndex == -1 ==> c1 < |t| ==> !t[c1].active && forall w :: 0 <= w < |t[c1].words| ==> !t[c1].words[w].highlighted)
  {
  }

  /** The chunk the view scrolls to: the active one, when there is an element for it. */
  function ScrollTarget(chunks: seq<string>, activeChunkIndex: int): (s: Option<nat>)
    ensures s.Some? <==> 0 <= activeChunkIndex < |chunks|
    ensures s.Some? ==> s.value == activeChunkIndex
  {
    if activeChunkIndex != -1 && 0 <= activeChunkIndex < |chunks| then Some(activeChunkIndex as nat) else None
  }

  /**
   * With the highlight tracking of the player: while a non-empty chunk
   * plays, exactly that chunk is active and exactly one of its words is
   * highlighted.
   */
  lemma PlayingChunkHighlightsOneWord(timings: seq<ChunkTiming>, chunks: seq<string>, time: real, prevWord: int)
    requires App.PositiveDurations(timings) && App.Consistent(timings)
    requires var i := App.ActiveChunkIndex(timings, time); 0 <= i < |chunks| && chunks[i] != []
    ensures var h := App.HighlightAt(timings, chunks, time, prevWord);
            var t := Transcript(chunks, h.activeChunk, h.wordIndex);
            && t[h.activeChunk].active
            && Highlighted(t, h.activeChunk, h.wordIndex)
            && forall c, w :: 0 <= c < |t| && 0 <= w < |t[c].words| && t[c].words[w].highlighted ==>
                 c == h.activeChunk && w == h.wordIndex
  {
    var h := App.HighlightAt(timings, chunks, time, prevWord);
    var t := Transcript(chunks, h.activeChunk, h.wordIndex);
    assert t[h.activeChunk] == ChunkViewOf(chunks[h.activeChunk], h.activeChunk, h.activeChunk, h.wordIndex);
  }
}
