/** Elapsed times written as "mm:ss": the engine's `timeToSeconds` (daily-challenges.js) and the
    tracker's formatting in `complete` (line-tracker.js). */
module ElapsedTime {
  import opened Wrappers
  import opened Strings

  /** `Number(piece)` for the pieces `timeToSeconds` meets: the empty string is 0, decimal digits read as
      their value, a '-' followed by digits as the negated value; `None` stands for NaN. */
  function FieldValue(f: string): (v: Option<int>)
    ensures AllDigits(f) ==> v == Some(DigitsValue(f))
    ensures |f| >= 2 && f[0] == '-' && AllDigits(f[1..]) ==> v == Some(0 - DigitsValue(f[1..]) as int)
    ensures v.Some? ==> AllDigits(f) || (|f| >= 2 && f[0] == '-' && AllDigits(f[1..]))
    ensures v.Some? && v.value < 0 ==> f[0] == '-'
    ensures ':' in f ==> v.None?
  {
    if AllDigits(f) then Some(DigitsValue(f))
    else if |f| >= 2 && f[0] == '-' && AllDigits(f[1..]) then
      var magnitude: int := DigitsValue(f[1..]);
      Some(-magnitude)
    else None
  }

  /** `timeToSeconds`: split at ':', read the first two pieces with `Number` as minutes and seconds
      and return `minutes * 60 + seconds`; `None` stands for NaN (fewer than two pieces, or a piece
      `Number` does not read). Pieces after the second are ignored, as destructuring
      `[minutes, seconds]` ignores them. */
  function TimeToSeconds(time: string): (r: Option<int>)
    ensures ':' !in time ==> r.None?
    ensures r.Some? ==>
      var parts := Split(time, ':');
      |parts| >= 2 && FieldValue(parts[0]).Some? && FieldValue(parts[1]).Some? &&
      r.value == FieldValue(parts[0]).value * 60 + FieldValue(parts[1]).value
  {
    var parts := Split(time, ':');
    SplitNoSeparator(time, ':');
    if |parts| >= 2 && FieldValue(parts[0]).Some? && FieldValue(parts[1]).Some?
    then Some(FieldValue(parts[0]).value * 60 + FieldValue(parts[1]).value)
    else None
  }

  /** A well-formed time's value, for use as a sort key; malformed times (excluded wherever a key is
      needed) read as 0. */
  function Seconds(time: string): int {
    TimeToSeconds(time).GetOr(0)
  }

  /** Two digit groups around one ':' read as minutes and seconds. */
  lemma MinutesSeconds(minutes: string, seconds: string, time: string)
    requires AllDigits(minutes) && AllDigits(seconds)
    requires time == minutes + ":" + seconds
    ensures TimeToSeconds(time) == Some(DigitsValue(minutes) * 60 + DigitsValue(seconds))
  {
    DigitsExclude(minutes, ':');
    DigitsExclude(seconds, ':');
    SplitTwo(minutes, seconds, ':');
    assert Split(time, ':') == [minutes, seconds];
  }

  /** `String(n)` for any integer: a '-' before the digits of a negative number. */
  function IntString(n: int): (s: string)
    ensures 1 <= |s|
    ensures n >= 0 ==> s == DecimalString(n)
    ensures n < 0 ==> s == "-" + DecimalString(-n)
  {
    if n < 0 then "-" + DecimalString(-n) else DecimalString(n)
  }

  /** `s.padStart(2, '0')`: zeros in front up to two characters; a longer string is left alone. */
  function PadStart2(s: string): (r: string)
    ensures |s| >= 2 ==> r == s
    ensures |s| < 2 ==> |r| == 2 && r[2 - |s|..] == s && forall i :: 0 <= i < 2 - |s| ==> r[i] == '0'
  {
    if |s| == 0 then "00" else if |s| == 1 then "0" + s else s
  }

  /** `String(n).padStart(2, '0')`: for a non-negative number digits with its value, two of them below
      100; a negative number keeps its sign and is not padded beyond two characters. */
  function Pad2(n: int): (s: string)
    ensures n >= 0 ==> AllDigits(s) && DigitsValue(s) == n
    ensures 0 <= n < 100 ==> |s| == 2
    ensures n < 0 ==> s == "-" + DecimalString(-n)
  {
    if n >= 0 then
      DecimalRoundTrip(n);
      if n < 10 then
        LeadingZero([DigitChar(n)]);
        PadStart2(IntString(n))
      else
        assert n < 100 ==> n / 10 < 10;
        PadStart2(IntString(n))
    else
      PadStart2(IntString(n))
  }

  /** JavaScript's `t % 60`: the remainder takes the sign of `t` (Dafny's `%` never is negative). */
  function JsRemainder60(t: int): (r: int)
    ensures t >= 0 ==> r == t % 60
    ensures t < 0 ==> -60 < r <= 0
    ensures (t - r) % 60 == 0
  {
    if t >= 0 || t % 60 == 0 then t % 60 else t % 60 - 60
  }

  /** The completion time string built in `complete`: `Math.floor(t / 60)` (Dafny's `/` by a positive
      divisor is the floor) and `t % 60`, each through `String` and `padStart(2, '0')`. */
  function FormatTime(totalSeconds: int): string {
    Pad2(totalSeconds / 60) + ":" + Pad2(JsRemainder60(totalSeconds))
  }

  /** The formatted time has a two-digit seconds field below 60 after the only ':' and reads back as the
      number of seconds it was made from. */
  lemma FormatTimeRoundTrip(totalSeconds: nat)
    ensures var parts := Split(FormatTime(totalSeconds), ':');
      |parts| == 2 && |parts[1]| == 2 && AllDigits(parts[1]) && DigitsValue(parts[1]) < 60
    ensures TimeToSeconds(FormatTime(totalSeconds)) == Some(totalSeconds)
  {
    var m, s := Pad2(totalSeconds / 60), Pad2(JsRemainder60(totalSeconds));
    DigitsExclude(m, ':');
    DigitsExclude(s, ':');
    SplitTwo(m, s, ':');
    MinutesSeconds(m, s, FormatTime(totalSeconds));
  }

  /** A worked example: "02:15" is 135 seconds. */
  lemma ExampleTime()
    ensures TimeToSeconds("02:15") == Some(135)
  {
    MinutesSeconds("02", "15", "02:15");
    assert DigitsValue("02") == 2 by { assert "02"[..1] == "0"; }
    assert DigitsValue("15") == 15 by { assert "15"[..1] == "1"; }
  }

  /** A clock reading 1.5 seconds before the start gives -2 whole seconds, which `complete` writes as
      "-1:-2" (minus one minute, minus two seconds) and `timeToSeconds` reads back as -62, not -2. */
  lemma NegativeElapsed()
    ensures FormatTime(-1500 / 1000) == "-1:-2"
    ensures TimeToSeconds("-1:-2") == Some(-62)
  {
    assert -1500 / 1000 == -2 && -2 / 60 == -1 && JsRemainder60(-2) == -2;
    assert DecimalString(1) == "1" && DecimalString(2) == "2";
    SplitTwo("-1", "-2", ':');
    assert "-1" + [':'] + "-2" == "-1:-2";
    assert "-1"[1..] == "1" && "-2"[1..] == "2";
    assert DigitsValue("1") == 1 && DigitsValue("2") == 2;
  }
}
