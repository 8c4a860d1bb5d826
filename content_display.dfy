// The footer of the text editor: word count, reading-time estimate, and
// which panels and badges show.

module ContentDisplay {
  import opened Wrappers
  import opened Strings
  import opened Types

  /** The non-empty pieces, as `filter(w => w.length > 0)` keeps them. */
  function NonEmpty(pieces: seq<string>): (kept: seq<string>)
    ensures |kept| <= |pieces|
    ensures forall i :: 0 <= i < |kept| ==> kept[i] != []
  {
    if pieces == [] then []
    else if pieces[0] == [] then NonEmpty(pieces[1..])
    else [pieces[0]] + NonEmpty(pieces[1..])
  }

  /** `text.trim().split(/\s+/).filter(w => w.length > 0).length` */
  function WordCount(text: string): nat {
    |NonEmpty(SplitWs(Trim(text)))|
  }

  lemma {:induction false} NonEmptyKeepsAll(pieces: seq<string>)
    requires forall i :: 0 <= i < |pieces| ==> pieces[i] != []
    ensures NonEmpty(pieces) == pieces
  {
    if pieces != [] {
      NonEmptyKeepsAll(pieces[1..]);
    }
  }

  /**
   * The count is zero exactly for blank text; otherwise it is the number of
   * white-space-separated words, the filter dropping nothing.
   */
  lemma WordCountMeaning(text: string)
    ensures WordCount(text) == 0 <==> AllSpace(text)
    ensures !AllSpace(text) ==> WordCount(text) == |SplitWs(Trim(text))|
  {
    var t := Trim(text);
    TrimSlice(text);
    SplitWsPieces(t);
    if t == [] {
      assert SplitWs(t) == [[]];
    } else {
      NonEmptyKeepsAll(SplitWs(t));
    }
  }

  /** `Math.ceil(x)`, written with the floor Dafny provides. */
  function Ceil(x: real): int {
    -((-x).Floor)
  }

  /** `Math.ceil((wordCount / 150) * 60)`: the reading time at 150 words a minute. */
  function EstSeconds(wordCount: nat): int {
    Ceil((wordCount as real / 150.0) * 60.0)
  }

  /** The estimate is the least whole number of seconds covering two fifths of a second per word. */
  lemma EstSecondsExact(wordCount: nat)
    ensures EstSeconds(wordCount) == (2 * wordCount + 4) / 5
    ensures 5 * EstSeconds(wordCount) >= 2 * wordCount && 5 * (EstSeconds(wordCount) - 1) < 2 * wordCount
  {
    var x := (wordCount as real / 150.0) * 60.0;
    assert x == 2.0 * wordCount as real / 5.0;
    var k := (2 * wordCount + 4) / 5;
    assert 5 * k >= 2 * wordCount && 5 * (k - 1) < 2 * wordCount;
    var y := -x;
    assert (-k) as real <= y < (-k + 1) as real;
  }

  /** `estSeconds < 60 ? `${s}s` : `${Math.floor(s / 60)}m ${s % 60}s``, for a non-negative estimate. */
  function EstDisplay(s: nat): string {
    if s < 60 then NatToString(s) + "s"
    else NatToString(s / 60) + "m " + NatToString(s % 60) + "s"
  }

  /** The mark after the leading number: 's' for seconds only, 'm' for minutes and seconds. */
  lemma EstDisplayParts(s: nat)
    ensures s < 60 ==> EstDisplay(s) == NatToString(s) + ['s'] + []
    ensures s >= 60 ==> EstDisplay(s) == NatToString(s / 60) + ['m'] + (" " + NatToString(s % 60) + "s")
  {
  }

  /** Different estimates never read the same: the label shows the seconds exactly. */
  lemma EstDisplayInjective(s1: nat, s2: nat)
    requires EstDisplay(s1) == EstDisplay(s2)
    ensures s1 == s2
  {
    EstDisplayParts(s1);
    EstDisplayParts(s2);
    var m1 := if s1 < 60 then s1 else s1 / 60;
    var m2 := if s2 < 60 then s2 else s2 / 60;
    var c1 := if s1 < 60 then 's' else 'm';
    var c2 := if s2 < 60 then 's' else 'm';
    var r1 := if s1 < 60 then "" else " " + NatToString(s1 % 60) + "s";
    var r2 := if s2 < 60 then "" else " " + NatToString(s2 % 60) + "s";
    NumberThenMark(m1, m2, c1, c2, r1, r2);
    if s1 >= 60 {
      var t1, t2 := NatToString(s1 % 60) + ['s'] + [], NatToString(s2 % 60) + ['s'] + [];
      assert r1 == " " + t1 && r2 == " " + t2;
      assert t1 == r1[1..] && t2 == r2[1..];
      NumberThenMark(s1 % 60, s2 % 60, 's', 's', [], []);
    }
  }

  /** What the editor shows besides the text. */
  datatype Footer = Footer(
    wordCount: nat,
    estimate: Option<string>,
    chunkingBadge: bool,
    translationPreview: bool)

  /** The estimate label, shown only when there is at least one word. */
  function EstimateOf(wordCount: nat): (e: Option<string>)
    ensures e.Some? <==> wordCount > 0
    ensures e.Some? ==> e.value == EstDisplay((2 * wordCount + 4) / 5)
  {
    if wordCount > 0 then
      EstSecondsExact(wordCount);
      Some(EstDisplay(EstSeconds(wordCount)))
    else None
  }

  /** The footer for `text` and the target language. */
  function FooterOf(text: string, targetLanguage: LanguageCode): (f: Footer)
    ensures f.translationPreview <==> targetLanguage != Original
    ensures f.estimate.Some? <==> !AllSpace(text)
    ensures f.estimate.Some? ==> f.estimate.value == EstDisplay((2 * f.wordCount + 4) / 5)
    ensures f.chunkingBadge <==> f.wordCount > 50
    ensures f.wordCount == WordCount(text)
  {
    var wc := WordCount(text);
    WordCountMeaning(text);
    Footer(wc, EstimateOf(wc), wc > 50, targetLanguage != Original)
  }
}
