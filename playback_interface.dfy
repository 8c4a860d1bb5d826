// The playback bar: the time labels, the progress fill and the speed list.

module PlaybackInterface {
  import opened Wrappers
  import opened Strings

  /** `Math.trunc` */
  function Trunc(x: real): int {
    if x >= 0.0 then x.Floor else -((-x).Floor)
  }

  /** JavaScript's `%` on numbers: the remainder takes the sign of the dividend. */
  function JsMod(x: real, d: real): real
    requires d != 0.0
  {
    x - d * Trunc(x / d) as real
  }

  /**
   * `formatTime`: minutes, a colon, and the whole seconds padded to two
   * digits when below 10. `None` stands for `NaN`, which shows as "0:00".
   */
  function FormatTime(time: Option<real>): string {
    match time
    case None => "0:00"
    case Some(t) =>
      Label((t / 60.0).Floor, JsMod(t, 60.0).Floor)
  }

  /** `${minutes}:${seconds < 10 ? '0' : ''}${seconds}` */
  function Label(minutes: int, seconds: int): string {
    IntToString(minutes) + ":" + (if seconds < 10 then "0" else "") + IntToString(seconds)
  }

  /** Two decimal digits of a number below 100. */
  function TwoDigits(n: nat): (s: string)
    requires n < 100
    ensures |s| == 2 && AllDigits(s)
  {
    [Digit(n / 10), Digit(n % 10)]
  }

  /** The label of a whole number of seconds: minutes, then the seconds of the minute as two digits. */
  function WholeLabel(w: nat): string {
    NatToString(w / 60) + ":" + TwoDigits(w % 60)
  }

  lemma FloorDiv60(t: real)
    requires t >= 0.0
    ensures (t / 60.0).Floor == t.Floor / 60
    ensures JsMod(t, 60.0).Floor == t.Floor % 60
  {
    var w := t.Floor;
    var m := w / 60;
    assert m as real * 60.0 <= w as real <= t;
    assert t < (w + 1) as real <= (m + 1) as real * 60.0;
    assert m as real <= t / 60.0 < (m + 1) as real;
    assert Trunc(t / 60.0) == m;
    var r := JsMod(t, 60.0);
    assert r == t - 60.0 * m as real;
    assert (w - 60 * m) as real <= r < (w - 60 * m + 1) as real;
  }

  /** The seconds field, padded or not, is the two digits of the seconds. */
  lemma PaddedSeconds(s: nat)
    requires s < 60
    ensures (if s < 10 then "0" else "") + IntToString(s) == TwoDigits(s)
  {
    if s >= 10 {
      assert NatToString(s) == NatToString(s / 10) + [Digit(s % 10)];
    }
  }

  /**
   * For a non-negative time the label is the whole seconds written as
   * minutes and a two-digit seconds field.
   */
  lemma FormatTimeWhole(t: real)
    requires t >= 0.0
    ensures FormatTime(Some(t)) == WholeLabel(t.Floor)
  {
    var m, sec := (t / 60.0).Floor, JsMod(t, 60.0).Floor;
    assert FormatTime(Some(t)) == Label(m, sec);
    FloorDiv60(t);
    var w: nat := t.Floor;
    assert m == w / 60 && sec == w % 60;
    LabelOfWhole(w);
  }

  lemma LabelOfWhole(w: nat)
    ensures Label(w / 60, w % 60) == WholeLabel(w)
  {
    PaddedSeconds(w % 60);
    assert IntToString(w / 60) == NatToString(w / 60);
    assert IntToString(w % 60) == NatToString(w % 60);
  }

  /** Different whole seconds never show the same label. */
  lemma WholeLabelInjective(w1: nat, w2: nat)
    requires WholeLabel(w1) == WholeLabel(w2)
    ensures w1 == w2
  {
    assert WholeLabel(w1) == NatToString(w1 / 60) + [':'] + TwoDigits(w1 % 60);
    assert WholeLabel(w2) == NatToString(w2 / 60) + [':'] + TwoDigits(w2 % 60);
    NumberThenMark(w1 / 60, w2 / 60, ':', ':', TwoDigits(w1 % 60), TwoDigits(w2 % 60));
    var a, b := TwoDigits(w1 % 60), TwoDigits(w2 % 60);
    assert a[0] == b[0] && a[1] == b[1];
    DigitInjective((w1 % 60) / 10, (w2 % 60) / 10);
    DigitInjective((w1 % 60) % 10, (w2 % 60) % 10);
  }

  lemma DigitInjective(a: nat, b: nat)
    requires a < 10 && b < 10 && Digit(a) == Digit(b)
    ensures a == b
  {
  }

  /** `(currentTime / (duration || 1)) * 100`: a zero or `NaN` (`None`) duration counts as 1. */
  function FillWidth(currentTime: real, duration: Option<real>): real {
    var d := if duration.None? || duration.value == 0.0 then 1.0 else duration.value;
    currentTime / d * 100.0
  }

  /** Within the track the fill stays between 0 and 100 per cent; without a duration it is the time times 100. */
  lemma FillWidthBounds(currentTime: real, duration: Option<real>)
    ensures duration.Some? && 0.0 <= currentTime <= duration.value && duration.value > 0.0 ==>
              0.0 <= FillWidth(currentTime, duration) <= 100.0
    ensures duration.None? || duration.value == 0.0 ==> FillWidth(currentTime, duration) == currentTime * 100.0
  {
    if duration.Some? && 0.0 <= currentTime <= duration.value && duration.value > 0.0 {
      var d := duration.value;
      var q := currentTime / d;
      assert q * d == currentTime;
      assert 0.0 <= q <= 1.0;
    }
  }

  /** The playback-rate options. */
  const Speeds: seq<real> := [0.5, 0.75, 1.0, 1.25, 1.5, 1.75, 2.0]

  /** The options go up strictly from half to double speed, in quarter steps, and include normal speed. */
  lemma SpeedsAscending()
    ensures |Speeds| == 7 && Speeds[0] == 0.5 && Speeds[6] == 2.0 && 1.0 in Speeds
    ensures forall i :: 0 <= i < |Speeds| - 1 ==> Speeds[i + 1] - Speeds[i] == 0.25
    ensures forall i, j :: 0 <= i < j < |Speeds| ==> Speeds[i] < Speeds[j]
  {
    assert Speeds[2] == 1.0;
  }
}
