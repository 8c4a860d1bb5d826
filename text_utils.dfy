/**
 * The sentence chunker: the sentence pattern
 * `/[^.!?]+[.!?]+(\s+|$)|[^.!?]+$/g` applied with `String.prototype.match`,
 * and the loop that groups consecutive sentences into chunks under a word
 * budget.
 */
module TextUtils {
  import opened Wrappers
  import opened Strings

  /** The default word budget of `chunkText`. */
  const DefaultMaxWords := 300

  predicate IsDelim(c: char) {
    c == '.' || c == '!' || c == '?'
  }

  predicate HasDelim(s: string) {
    exists k :: 0 <= k < |s| && IsDelim(s[k])
  }

  /** End of the maximal run of `[^.!?]` characters that starts at `i`. */
  function NonDelimEnd(text: string, i: nat): (j: nat)
    requires i <= |text|
    ensures i <= j <= |text|
    ensures forall k :: i <= k < j ==> !IsDelim(text[k])
    ensures j < |text| ==> IsDelim(text[j])
    decreases |text| - i
  {
    if i == |text| || IsDelim(text[i]) then i else NonDelimEnd(text, i + 1)
  }

  /** End of the maximal run of `[.!?]` characters that starts at `i`. */
  function DelimEnd(text: string, i: nat): (j: nat)
    requires i <= |text|
    ensures i <= j <= |text|
    ensures forall k :: i <= k < j ==> IsDelim(text[k])
    ensures j < |text| ==> !IsDelim(text[j])
    decreases |text| - i
  {
    if i < |text| && IsDelim(text[i]) then DelimEnd(text, i + 1) else i
  }

  /** End of the maximal run of `\s` characters that starts at `i`. */
  function SpaceEnd(text: string, i: nat): (j: nat)
    requires i <= |text|
    ensures i <= j <= |text|
    ensures forall k :: i <= k < j ==> IsSpace(text[k])
    ensures j < |text| ==> !IsSpace(text[j])
    decreases |text| - i
  {
    if i < |text| && IsSpace(text[i]) then SpaceEnd(text, i + 1) else i
  }

  /**
   * Where a match of the sentence pattern attempted at position `i` ends, or
   * `None` when neither alternative matches there. Both quantifiers are
   * greedy, and no backtracking can rescue a failed attempt: a shorter
   * `[^.!?]+` leaves a non-delimiter next, and a shorter `[.!?]+` leaves a
   * delimiter next, which is neither white space nor the end.
   */
  function MatchAt(text: string, i: nat): (r: Option<nat>)
    requires i < |text|
    ensures r.Some? ==> i < r.value <= |text|
    ensures r.Some? && r.value < |text| ==> HasDelim(text[i..r.value])
    ensures IsDelim(text[i]) ==> r == None
  {
    var a := NonDelimEnd(text, i);
    if a == i then None
    else if a == |text| then Some(|text|)
    else
      var d := DelimEnd(text, a);
      assert IsDelim(text[i..d][a - i]);
      if d == |text| then Some(d)
      else if IsSpace(text[d]) then
        var e := SpaceEnd(text, d);
        assert text[i..e][a - i] == text[a];
        Some(e)
      else None
  }

  /** The spans `[start, end)` of the successive matches found from position `i` on. */
  function MatchSpans(text: string, i: nat): (spans: seq<(nat, nat)>)
    requires i <= |text|
    ensures forall k :: 0 <= k < |spans| ==> i <= spans[k].0 < spans[k].1 <= |text|
    ensures forall k :: 0 < k < |spans| ==> spans[k - 1].1 <= spans[k].0
    decreases |text| - i
  {
    if i == |text| then []
    else match MatchAt(text, i)
      case Some(j) => [(i, j)] + MatchSpans(text, j)
      case None => MatchSpans(text, i + 1)
  }

  /** `text.match(sentenceRegex)`, with `null` modelled as the empty list. */
  function Sentences(text: string): (s: seq<string>)
  {
    var spans := MatchSpans(text, 0);
    seq(|spans|, k requires 0 <= k < |spans| => text[spans[k].0..spans[k].1])
  }

  /**
   * Every match but the last one holds a delimiter; only the last one may
   * run to the end of the text without one.
   */
  lemma {:induction false} SpansBeforeLastHaveDelim(text: string, i: nat)
    requires i <= |text|
    ensures forall k :: 0 <= k < |MatchSpans(text, i)| - 1 ==>
              HasDelim(text[MatchSpans(text, i)[k].0..MatchSpans(text, i)[k].1])
    decreases |text| - i
  {
    if i < |text| {
      match MatchAt(text, i)
      case Some(j) =>
        SpansBeforeLastHaveDelim(text, j);
        if j == |text| { assert MatchSpans(text, j) == []; }
      case None =>
        SpansBeforeLastHaveDelim(text, i + 1);
    }
  }

  lemma DelimNotBlank(s: string)
    requires HasDelim(s)
    ensures !AllSpace(s)
  {
    var k :| 0 <= k < |s| && IsDelim(s[k]);
    assert !IsSpace(s[k]);
  }

  /**
   * Every match is non-empty, and every match except possibly the last one
   * contains a delimiter, so it is not white space only.
   */
  lemma SentencesShape(text: string)
    ensures forall k :: 0 <= k < |Sentences(text)| ==> Sentences(text)[k] != []
    ensures forall k :: 0 <= k < |Sentences(text)| - 1 ==> HasDelim(Sentences(text)[k])
    ensures forall k :: 0 <= k < |Sentences(text)| - 1 ==> !AllSpace(Sentences(text)[k])
  {
    SpansBeforeLastHaveDelim(text, 0);
    var s := Sentences(text);
    forall k | 0 <= k < |s| - 1 ensures !AllSpace(s[k]) {
      DelimNotBlank(s[k]);
    }
  }

  predicate AllDelims(s: string) {
    forall k :: 0 <= k < |s| ==> IsDelim(s[k])
  }

  lemma {:induction false} NoSpansInDelims(text: string, i: nat)
    requires i <= |text| && forall k :: i <= k < |text| ==> IsDelim(text[k])
    ensures MatchSpans(text, i) == []
    decreases |text| - i
  {
    if i < |text| {
      assert MatchAt(text, i) == None;
      NoSpansInDelims(text, i + 1);
    }
  }

  /** A text made only of '.', '!' and '?' has no sentence at all. */
  lemma DelimiterOnlyTextHasNoSentences(text: string)
    requires AllDelims(text)
    ensures Sentences(text) == []
  {
    NoSpansInDelims(text, 0);
  }

  /**
   * The pattern skips the text in front of a delimiter that is followed by
   * neither white space nor the end: "Hello.World" yields the single
   * sentence "World".
   */
  lemma SentencesSkipUnterminatedPrefix()
    ensures Sentences("Hello.World") == ["World"]
  {
    var t := "Hello.World";
    assert NonDelimEnd(t, 5) == 5;
    assert DelimEnd(t, 6) == 6;
    assert DelimEnd(t, 5) == 6;
    assert NonDelimEnd(t, 6) == 11 by {
      assert NonDelimEnd(t, 11) == 11;
      assert NonDelimEnd(t, 10) == 11;
      assert NonDelimEnd(t, 9) == 11;
      assert NonDelimEnd(t, 8) == 11;
      assert NonDelimEnd(t, 7) == 11;
    }
    forall i | 0 <= i < 5 ensures NonDelimEnd(t, i) == 5 && MatchAt(t, i) == None {
      assert NonDelimEnd(t, 4) == 5;
      assert NonDelimEnd(t, 3) == 5;
      assert NonDelimEnd(t, 2) == 5;
      assert NonDelimEnd(t, 1) == 5;
      assert !IsSpace(t[6]);
    }
    assert MatchSpans(t, 11) == [];
    assert MatchAt(t, 6) == Some(11);
    assert MatchSpans(t, 6) == [(6, 11)];
    assert MatchAt(t, 5) == None;
    assert MatchSpans(t, 5) == [(6, 11)];
    assert MatchSpans(t, 4) == [(6, 11)];
    assert MatchSpans(t, 3) == [(6, 11)];
    assert MatchSpans(t, 2) == [(6, 11)];
    assert MatchSpans(t, 1) == [(6, 11)];
    assert MatchSpans(t, 0) == [(6, 11)];
    assert t[6..11] == "World";
  }

  // ----- Grouping sentences into chunks -----

  /** `sentence.trim().split(/\s+/).length`: at least one for every sentence. */
  function SentenceWordCount(sentence: string): (n: nat)
    ensures n >= 1
  {
    PieceCount(sentence)
  }

  /** A run of sentences concatenated, the way `currentChunk += sentence` builds it. */
  function Concat(run: seq<string>): string {
    if run == [] then "" else Concat(run[..|run| - 1]) + run[|run| - 1]
  }

  /** The word tally the loop keeps for a run, `currentWordCount`. */
  function Tally(run: seq<string>): nat {
    if run == [] then 0 else Tally(run[..|run| - 1]) + SentenceWordCount(run[|run| - 1])
  }

  lemma ConcatSnoc(run: seq<string>, s: string)
    ensures Concat(run + [s]) == Concat(run) + s
    ensures Tally(run + [s]) == Tally(run) + SentenceWordCount(s)
  {
    assert (run + [s])[..|run|] == run;
  }

  /** A run whose concatenated text is white space only, so that `currentChunk.trim()` is empty. */
  predicate Blank(run: seq<string>) {
    AllSpace(Concat(run))
  }

  /** True when the loop pushes the current chunk and starts a new one before adding `s`. */
  predicate Flushes(current: seq<string>, s: string, maxWords: int) {
    Tally(current) + SentenceWordCount(s) > maxWords && !Blank(current)
  }

  /**
   * The test that decides, before a sentence is added, whether the current
   * run is pushed and a new one started.
   */
  type FlushRule = (seq<string>, string) -> bool

  /** The rule of `chunkText` for a word budget. */
  function Rule(maxWords: int): FlushRule {
    (current, s) => Flushes(current, s, maxWords)
  }

  /** The loop's state, by sentence: the runs already pushed and the one being built. */
  datatype Acc = Acc(closed: seq<seq<string>>, current: seq<string>)

  /** One iteration of the loop. */
  function Step(acc: Acc, s: string, flush: FlushRule): Acc {
    if flush(acc.current, s) then Acc(acc.closed + [acc.current], [s])
    else Acc(acc.closed, acc.current + [s])
  }

  /** The loop's state after the given sentences. */
  function Fold(sentences: seq<string>, flush: FlushRule): Acc
    decreases |sentences|
  {
    if sentences == [] then Acc([], [])
    else Step(Fold(sentences[..|sentences| - 1], flush), sentences[|sentences| - 1], flush)
  }

  lemma FoldSnoc(sentences: seq<string>, s: string, flush: FlushRule)
    ensures Fold(sentences + [s], flush) == Step(Fold(sentences, flush), s, flush)
  {
    assert (sentences + [s])[..|sentences|] == sentences;
  }

  /** All the runs of sentences under the word budget, the open one last. */
  function Runs(sentences: seq<string>, maxWords: int): (runs: seq<seq<string>>)
    ensures |runs| >= 1
  {
    var acc := Fold(sentences, Rule(maxWords));
    acc.closed + [acc.current]
  }

  /** The trimmed text of each run. */
  function RunTexts(runs: seq<seq<string>>): (texts: seq<string>)
    ensures |texts| == |runs|
  {
    seq(|runs|, j requires 0 <= j < |runs| => Trim(Concat(runs[j])))
  }

  /** The non-empty strings of a list, in order. */
  function NonEmpty(xs: seq<string>): seq<string> {
    if xs == [] then []
    else NonEmpty(xs[..|xs| - 1]) + (if xs[|xs| - 1] != "" then [xs[|xs| - 1]] else [])
  }

  /** The trimmed, non-blank runs, in order; what `chunks.push(currentChunk.trim())` collects. */
  function ChunksOf(runs: seq<seq<string>>): seq<string> {
    NonEmpty(RunTexts(runs))
  }

  lemma ChunksOfSnoc(runs: seq<seq<string>>, r: seq<string>)
    ensures ChunksOf(runs + [r]) == ChunksOf(runs) + (if Trim(Concat(r)) != "" then [Trim(Concat(r))] else [])
  {
    var xs := RunTexts(runs + [r]);
    assert xs[..|runs|] == RunTexts(runs);
    assert xs[|runs|] == Trim(Concat(r));
  }

  /** What `chunkText(text, maxWords)` returns. */
  function Chunked(text: string, maxWords: int): seq<string> {
    if Trim(text) == "" then []
    else if Sentences(text) == [] then [text]
    else ChunksOf(Runs(Sentences(text), maxWords))
  }

  /** `chunkText`: the early returns, then the accumulation loop over the matched sentences. */
  method ChunkText(text: string, maxWords: int := DefaultMaxWords) returns (chunks: seq<string>)
    ensures chunks == Chunked(text, maxWords)
  {
    if Trim(text) == "" {
      return [];
    }
    var sentences := Sentences(text);
    if sentences == [] {
      return [text];
    }
    chunks := GroupSentences(sentences, maxWords);
  }

  /** The `for (const sentence of sentences)` loop of `chunkText` and the final push. */
  method GroupSentences(sentences: seq<string>, maxWords: int) returns (chunks: seq<string>)
    ensures chunks == ChunksOf(Runs(sentences, maxWords))
  {
    chunks := [];
    var currentChunk := "";
    var currentWordCount := 0;
    ghost var acc := Acc([], []);
    assert sentences[..0] == [];
    for i := 0 to |sentences|
      invariant Fold(sentences[..i], Rule(maxWords)) == acc
      invariant chunks == ChunksOf(acc.closed)
      invariant currentChunk == Concat(acc.current) && currentWordCount == Tally(acc.current)
    {
      var sentence := sentences[i];
      var sentenceWordCount := SentenceWordCount(sentence);
      PrefixSnoc(sentences, i);
      FoldSnoc(sentences[..i], sentence, Rule(maxWords));
      LoopStep(acc, sentence, maxWords);
      if currentWordCount + sentenceWordCount > maxWords && Trim(currentChunk) != "" {
        chunks := chunks + [Trim(currentChunk)];
        currentChunk := sentence;
        currentWordCount := sentenceWordCount;
      } else {
        currentChunk := currentChunk + sentence;
        currentWordCount := currentWordCount + sentenceWordCount;
      }
      acc := Step(acc, sentence, Rule(maxWords));
    }
    assert sentences[..|sentences|] == sentences;
    ChunksOfSnoc(acc.closed, acc.current);
    if Trim(currentChunk) != "" {
      chunks := chunks + [Trim(currentChunk)];
    }
  }

  /** What one iteration of the loop does to the chunks, the text and the tally it keeps. */
  lemma LoopStep(acc: Acc, s: string, maxWords: int)
    ensures var next := Step(acc, s, Rule(maxWords));
            if Tally(acc.current) + SentenceWordCount(s) > maxWords && Trim(Concat(acc.current)) != "" then
              && ChunksOf(next.closed) == ChunksOf(acc.closed) + [Trim(Concat(acc.current))]
              && Concat(next.current) == s && Tally(next.current) == SentenceWordCount(s)
            else
              && next.closed == acc.closed
              && Concat(next.current) == Concat(acc.current) + s
              && Tally(next.current) == Tally(acc.current) + SentenceWordCount(s)
  {
    TrimSlice(Concat(acc.current));
    ConcatSnoc(acc.current, s);
    ChunksOfSnoc(acc.closed, acc.current);
    ConcatSnoc([], s);
    assert [] + [s] == [s];
  }

  // ----- Properties of the grouping -----

  /** The runs laid end to end. */
  function Flatten(runs: seq<seq<string>>): seq<string> {
    if runs == [] then [] else Flatten(runs[..|runs| - 1]) + runs[|runs| - 1]
  }

  lemma FlattenSnoc(runs: seq<seq<string>>, r: seq<string>)
    ensures Flatten(runs + [r]) == Flatten(runs) + r
  {
    assert (runs + [r])[..|runs|] == runs;
  }

  /** Whatever the rule, each sentence lands in exactly one run, in the original order. */
  lemma {:induction false} FoldPartition(sentences: seq<string>, flush: FlushRule)
    ensures Flatten(Fold(sentences, flush).closed) + Fold(sentences, flush).current == sentences
    ensures sentences != [] ==> Fold(sentences, flush).current != []
    decreases |sentences|
  {
    if sentences != [] {
      var prefix := sentences[..|sentences| - 1];
      var s := sentences[|sentences| - 1];
      assert sentences == prefix + [s];
      FoldPartition(prefix, flush);
      var acc := Fold(prefix, flush);
      assert Fold(sentences, flush) == Step(acc, s, flush);
      StepPartition(acc, s, flush);
    }
  }

  /** One step appends the sentence to the runs laid end to end. */
  lemma StepPartition(acc: Acc, s: string, flush: FlushRule)
    ensures var next := Step(acc, s, flush);
            Flatten(next.closed) + next.current == Flatten(acc.closed) + acc.current + [s]
            && next.current != []
  {
    if flush(acc.current, s) {
      FlattenSnoc(acc.closed, acc.current);
    } else {
      assert Flatten(acc.closed) + (acc.current + [s]) == (Flatten(acc.closed) + acc.current) + [s];
    }
  }

  /** Run `b` follows run `a` because the rule fired on `a` and the first sentence of `b`. */
  predicate Cut(a: seq<string>, b: seq<string>, flush: FlushRule) {
    b != [] && flush(a, b[0])
  }

  predicate CutAt(runs: seq<seq<string>>, j: nat, flush: FlushRule)
    requires 0 < j < |runs|
  {
    Cut(runs[j - 1], runs[j], flush)
  }

  /** Inside a run, the rule did not fire on any sentence and the ones before it. */
  predicate Kept(run: seq<string>, flush: FlushRule) {
    forall p :: 0 < p < |run| ==> !flush(run[..p], run[p])
  }

  lemma KeptSnoc(run: seq<string>, s: string, flush: FlushRule)
    requires Kept(run, flush) && !flush(run, s)
    ensures Kept(run + [s], flush)
  {
    var r := run + [s];
    forall p | 0 < p < |r| ensures !flush(r[..p], r[p]) {
      if p < |run| {
        assert r[..p] == run[..p];
      } else {
        assert r[..p] == run;
      }
    }
  }

  /**
   * The rule, both ways: consecutive runs are separated exactly where the
   * rule fires on the run so far and the next sentence; inside a run it
   * never fires.
   */
  lemma {:induction false} FoldBoundaries(sentences: seq<string>, flush: FlushRule)
    ensures var acc := Fold(sentences, flush);
            && (forall j :: 0 < j < |acc.closed| ==> CutAt(acc.closed, j, flush))
            && (acc.closed != [] ==> Cut(acc.closed[|acc.closed| - 1], acc.current, flush))
            && (forall j :: 0 <= j < |acc.closed| ==> Kept(acc.closed[j], flush))
            && Kept(acc.current, flush)
    decreases |sentences|
  {
    if sentences != [] {
      var prefix := sentences[..|sentences| - 1];
      var s := sentences[|sentences| - 1];
      FoldBoundaries(prefix, flush);
      FoldPartition(prefix, flush);
      var acc := Fold(prefix, flush);
      var next := Fold(sentences, flush);
      if flush(acc.current, s) {
        assert next.closed == acc.closed + [acc.current];
        forall j | 0 < j < |next.closed| ensures CutAt(next.closed, j, flush) {
          if j < |acc.closed| { assert CutAt(acc.closed, j, flush); }
        }
      } else {
        KeptSnoc(acc.current, s, flush);
        if acc.closed != [] {
          assert (acc.current + [s])[0] == acc.current[0];
        }
      }
    }
  }

  lemma BlankEmpty()
    ensures Blank([])
  {
    assert Concat([]) == "";
  }

  /** The rule of `chunkText` fires only on a run whose text is not blank. */
  lemma RuleFiresOnNonBlank(current: seq<string>, s: string, maxWords: int)
    requires Rule(maxWords)(current, s)
    ensures !Blank(current) && current != []
  {
    BlankEmpty();
  }

  /** Every run `chunkText` pushed had a non-blank text, and so is not empty. */
  lemma ClosedRunsNotBlank(sentences: seq<string>, maxWords: int)
    ensures var closed := Fold(sentences, Rule(maxWords)).closed;
            forall j :: 0 <= j < |closed| ==> !Blank(closed[j]) && closed[j] != []
  {
    var acc := Fold(sentences, Rule(maxWords));
    FoldBoundaries(sentences, Rule(maxWords));
    forall j | 0 <= j < |acc.closed| ensures !Blank(acc.closed[j]) && acc.closed[j] != [] {
      var after := if j < |acc.closed| - 1 then acc.closed[j + 1] else acc.current;
      if j < |acc.closed| - 1 {
        assert CutAt(acc.closed, j + 1, Rule(maxWords));
      }
      assert Cut(acc.closed[j], after, Rule(maxWords));
      RuleFiresOnNonBlank(acc.closed[j], after[0], maxWords);
    }
  }

  lemma {:induction false} ConcatNotBlank(run: seq<string>, k: nat)
    requires k < |run| && !AllSpace(run[k])
    ensures !Blank(run)
    decreases |run|
  {
    var init := run[..|run| - 1];
    assert Concat(run) == Concat(init) + run[|run| - 1];
    if k < |run| - 1 {
      assert run[k] == init[k];
      ConcatNotBlank(init, k);
      var i :| 0 <= i < |Concat(init)| && !IsSpace(Concat(init)[i]);
      assert Concat(run)[i] == Concat(init)[i];
    } else {
      var i :| 0 <= i < |run[k]| && !IsSpace(run[k][i]);
      assert Concat(run)[|Concat(init)| + i] == run[k][i];
    }
  }

  /** A run goes over the budget only with a single sentence (or none, before the first). */
  predicate WithinBudgetUnlessAlone(run: seq<string>, maxWords: int) {
    Tally(run) > maxWords ==> |run| <= 1
  }

  /** One step of the loop keeps every run within the budget unless it is alone. */
  lemma StepWithinBudget(acc: Acc, s: string, maxWords: int)
    requires acc.current == [] || !AllSpace(acc.current[0])
    requires forall j :: 0 <= j < |acc.closed| ==> WithinBudgetUnlessAlone(acc.closed[j], maxWords)
    requires WithinBudgetUnlessAlone(acc.current, maxWords)
    ensures var next := Step(acc, s, Rule(maxWords));
            && (forall j :: 0 <= j < |next.closed| ==> WithinBudgetUnlessAlone(next.closed[j], maxWords))
            && WithinBudgetUnlessAlone(next.current, maxWords)
  {
    ConcatSnoc(acc.current, s);
    if acc.current != [] {
      ConcatNotBlank(acc.current, 0);
    }
  }

  /**
   * Under the word budget, a run's tally exceeds the budget only when the
   * run holds a single sentence, provided no sentence but the last is white
   * space only (which the sentence pattern guarantees).
   */
  lemma {:induction false} TallyOverBudgetOnlyAlone(sentences: seq<string>, maxWords: int)
    requires forall k :: 0 <= k < |sentences| - 1 ==> !AllSpace(sentences[k])
    ensures var acc := Fold(sentences, Rule(maxWords));
            && (forall j :: 0 <= j < |acc.closed| ==> WithinBudgetUnlessAlone(acc.closed[j], maxWords))
            && WithinBudgetUnlessAlone(acc.current, maxWords)
    decreases |sentences|
  {
    if sentences != [] {
      var prefix := sentences[..|sentences| - 1];
      var s := sentences[|sentences| - 1];
      assert forall k :: 0 <= k < |prefix| ==> prefix[k] == sentences[k];
      TallyOverBudgetOnlyAlone(prefix, maxWords);
      var acc := Fold(prefix, Rule(maxWords));
      if acc.current != [] {
        FoldPartition(prefix, Rule(maxWords));
        var n := |Flatten(acc.closed)|;
        assert n < |prefix| && acc.current[0] == prefix[n];
      }
      StepWithinBudget(acc, s, maxWords);
    }
  }

  /** Filtering keeps exactly the non-empty strings, in order. */
  lemma {:induction false} NonEmptyMembers(xs: seq<string>)
    ensures forall i :: 0 <= i < |NonEmpty(xs)| ==> NonEmpty(xs)[i] != "" && NonEmpty(xs)[i] in xs
    ensures |NonEmpty(xs)| <= |xs|
  {
    if xs != [] {
      var init := xs[..|xs| - 1];
      NonEmptyMembers(init);
      assert forall x :: x in init ==> x in xs;
    }
  }

  /**
   * When only the last string may be empty, filtering keeps the list whole,
   * or drops just an empty last string.
   */
  lemma {:induction false} NonEmptyKeepsAllButLast(xs: seq<string>)
    requires forall j :: 0 <= j < |xs| - 1 ==> xs[j] != ""
    ensures NonEmpty(xs) == xs || (xs != [] && xs[|xs| - 1] == "" && NonEmpty(xs) == xs[..|xs| - 1])
  {
    if xs != [] {
      var init := xs[..|xs| - 1];
      NonEmptyKeepsAllButLast(init);
      if init != [] {
        assert init[|init| - 1] == xs[|xs| - 2];
      }
      assert init + [xs[|xs| - 1]] == xs;
    }
  }

  /** Every chunk the loop pushes is trimmed and non-empty. */
  lemma ChunksTrimmedNonEmpty(runs: seq<seq<string>>)
    ensures forall i :: 0 <= i < |ChunksOf(runs)| ==> ChunksOf(runs)[i] != "" && IsTrimmed(ChunksOf(runs)[i])
  {
    var texts := RunTexts(runs);
    NonEmptyMembers(texts);
    forall i | 0 <= i < |ChunksOf(runs)| ensures IsTrimmed(ChunksOf(runs)[i]) {
      var j :| 0 <= j < |texts| && texts[j] == ChunksOf(runs)[i];
      TrimSlice(Concat(runs[j]));
    }
  }

  /**
   * When only the last run may have a blank text, chunk `i` is the trimmed
   * text of run `i`, and there is one chunk per run except for a blank last
   * run.
   */
  lemma ChunksAreTrimmedRuns(runs: seq<seq<string>>)
    requires forall j :: 0 <= j < |runs| - 1 ==> Trim(Concat(runs[j])) != ""
    ensures |ChunksOf(runs)| == |runs| || (runs != [] && |ChunksOf(runs)| == |runs| - 1
                                           && Trim(Concat(runs[|runs| - 1])) == "")
    ensures forall i :: 0 <= i < |ChunksOf(runs)| ==> ChunksOf(runs)[i] == Trim(Concat(runs[i]))
  {
    NonEmptyKeepsAllButLast(RunTexts(runs));
  }

  /**
   * The runs of a non-empty sentence list whose sentences, except perhaps
   * the last, are not blank: they partition the sentences in order, none is
   * empty, all but the last have a non-blank text, and a run goes over the
   * budget only with a single sentence.
   */
  lemma RunsShape(sentences: seq<string>, maxWords: int)
    requires sentences != []
    requires forall k :: 0 <= k < |sentences| - 1 ==> !AllSpace(sentences[k])
    ensures var runs := Runs(sentences, maxWords);
            && Flatten(runs) == sentences
            && (forall j :: 0 <= j < |runs| ==> runs[j] != [])
            && (forall j :: 0 <= j < |runs| - 1 ==> !Blank(runs[j]))
            && (forall j :: 0 <= j < |runs| && Tally(runs[j]) > maxWords ==> |runs[j]| == 1)
  {
    RunsFlatten(sentences, maxWords);
    var runs := Runs(sentences, maxWords);
    forall j | 0 <= j < |runs|
      ensures runs[j] != [] && (j < |runs| - 1 ==> !Blank(runs[j]))
      ensures Tally(runs[j]) > maxWords ==> |runs[j]| == 1
    {
      RunAt(sentences, maxWords, j);
    }
  }

  lemma RunsFlatten(sentences: seq<string>, maxWords: int)
    ensures Flatten(Runs(sentences, maxWords)) == sentences
  {
    var acc := Fold(sentences, Rule(maxWords));
    FoldPartition(sentences, Rule(maxWords));
    FlattenSnoc(acc.closed, acc.current);
  }

  lemma RunAt(sentences: seq<string>, maxWords: int, j: nat)
    requires sentences != []
    requires forall k :: 0 <= k < |sentences| - 1 ==> !AllSpace(sentences[k])
    requires j < |Runs(sentences, maxWords)|
    ensures var runs := Runs(sentences, maxWords);
            && runs[j] != [] && (j < |runs| - 1 ==> !Blank(runs[j]))
            && (Tally(runs[j]) > maxWords ==> |runs[j]| == 1)
  {
    var acc := Fold(sentences, Rule(maxWords));
    var runs := Runs(sentences, maxWords);
    TallyOverBudgetOnlyAlone(sentences, maxWords);
    if j < |acc.closed| {
      ClosedRunsNotBlank(sentences, maxWords);
      assert runs[j] == acc.closed[j];
      assert WithinBudgetUnlessAlone(acc.closed[j], maxWords);
    } else {
      assert runs[j] == acc.current;
    }
  }

  /**
   * When only the last run may be blank, the chunks are the trimmed texts
   * of the runs, one per run except for a blank last run, each non-empty and
   * trimmed.
   */
  lemma ChunksShape(runs: seq<seq<string>>)
    requires forall j :: 0 <= j < |runs| - 1 ==> !Blank(runs[j])
    ensures var chunks := ChunksOf(runs);
            && (|chunks| == |runs| || |chunks| == |runs| - 1)
            && (forall i :: 0 <= i < |chunks| ==> chunks[i] == Trim(Concat(runs[i])))
            && (forall i :: 0 <= i < |chunks| ==> chunks[i] != "" && IsTrimmed(chunks[i]))
  {
    forall j | 0 <= j < |runs| - 1 ensures Trim(Concat(runs[j])) != "" {
      TrimSlice(Concat(runs[j]));
    }
    ChunksAreTrimmedRuns(runs);
    ChunksTrimmedNonEmpty(runs);
  }

  /**
   * What `chunkText` returns, in one place: nothing for blank text; the text
   * itself, untrimmed, when the pattern matches nothing; otherwise the
   * trimmed, non-empty texts of the runs of sentences, which partition the
   * sentences in order, and go over the budget only with a single sentence.
   */
  lemma ChunkedShape(text: string, maxWords: int)
    ensures Trim(text) == "" ==> Chunked(text, maxWords) == []
    ensures Trim(text) != "" && Sentences(text) == [] ==> Chunked(text, maxWords) == [text]
    ensures Trim(text) != "" && Sentences(text) != [] ==>
              var runs := Runs(Sentences(text), maxWords);
              var chunks := Chunked(text, maxWords);
              && Flatten(runs) == Sentences(text)
              && (forall j :: 0 <= j < |runs| ==> runs[j] != [])
              && (|chunks| == |runs| || |chunks| == |runs| - 1)
              && (forall i :: 0 <= i < |chunks| ==> chunks[i] == Trim(Concat(runs[i])))
              && (forall i :: 0 <= i < |chunks| ==> chunks[i] != "" && IsTrimmed(chunks[i]))
              && (forall j :: 0 <= j < |runs| && Tally(runs[j]) > maxWords ==> |runs[j]| == 1)
  {
    var sentences := Sentences(text);
    if Trim(text) != "" && sentences != [] {
      SentencesShape(text);
      RunsShape(sentences, maxWords);
      ChunksShape(Runs(sentences, maxWords));
    }
  }
}
