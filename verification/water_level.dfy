/** Watering durations: `get_water_time`, which reads the seconds field of a
    `water_level` string with `datetime.strptime(s, "%Ss")` and falls back to
    ten seconds when that raises.

    Python's strptime turns the format "%Ss" into the regular expression
    `(6[0-1]|[0-5]\d|\d)s`, matched case-insensitively from the start of the
    string; the match must then cover the whole string, and the datetime
    constructor refuses a seconds value above 59.
 */
module WaterLevel {
  import opened Outcome

  /** The duration used when the string is not a valid seconds field. */
  const FallbackSeconds: nat := 10

  /** The `water_level` substituted when a plant entry has none. */
  const DefaultWaterLevel: string := "10s"

  predicate IsDigit(c: char) {
    '0' <= c <= '9'
  }

  function DigitValue(c: char): (n: nat)
    requires IsDigit(c)
    ensures n < 10
  {
    (c as int) - ('0' as int)
  }

  /** The characters the literal `s` of the format matches under Python's
      case-insensitive matching: `s`, `S`, and the long s U+017F, which
      case-folds to `s`. */
  predicate IsSecondsMark(c: char) {
    c == 's' || c == 'S' || c == 'ſ'
  }

  /** The regular-expression match at the start of `s`: the seconds value
      read, and where the match ends. The three alternatives are tried in
      order, as the regular expression engine does. */
  function MatchSecondsField(s: string): (m: Option<(nat, nat)>)
    ensures m.Some? ==> m.value.1 <= |s| && m.value.0 <= 61
  {
    if |s| >= 3 && s[0] == '6' && (s[1] == '0' || s[1] == '1') && IsSecondsMark(s[2]) then
      Some((60 + DigitValue(s[1]), 3))
    else if |s| >= 3 && '0' <= s[0] <= '5' && IsDigit(s[1]) && IsSecondsMark(s[2]) then
      Some((10 * DigitValue(s[0]) + DigitValue(s[1]), 3))
    else if |s| >= 2 && IsDigit(s[0]) && IsSecondsMark(s[1]) then
      Some((DigitValue(s[0]), 2))
    else
      None
  }

  /** `datetime.strptime(s, "%Ss").second`; `None` stands for the ValueError
      it raises: no match, unconverted data after the match, or a seconds
      value the datetime constructor refuses. */
  function StrptimeSeconds(s: string): (r: Option<nat>)
    ensures r.Some? ==> r.value < 60
  {
    match MatchSecondsField(s)
    case None => None
    case Some((v, end)) =>
      if end != |s| then None
      else if v > 59 then None
      else Some(v)
  }

  /** `get_water_time`: the seconds field, or the fallback. It never raises. */
  function GetWaterTime(s: string): (n: nat)
    ensures n < 60
    ensures StrptimeSeconds(s).None? ==> n == FallbackSeconds
  {
    match StrptimeSeconds(s)
    case Some(v) => v
    case None => FallbackSeconds
  }

  /** The strings that denote `n` seconds, stated independently of the
      matcher: one digit, or two digits of value at most 59, then the seconds
      mark. */
  ghost predicate Denotes(s: string, n: nat) {
    || (|s| == 2 && IsDigit(s[0]) && IsSecondsMark(s[1]) && DigitValue(s[0]) == n)
    || (|s| == 3 && IsDigit(s[0]) && IsDigit(s[1]) && IsSecondsMark(s[2])
        && 10 * DigitValue(s[0]) + DigitValue(s[1]) == n && n < 60)
  }

  /** strptime accepts exactly the strings that denote a duration, and reads
      the duration they denote. */
  lemma StrptimeAcceptsExactlyDenotations(s: string, n: nat)
    ensures StrptimeSeconds(s) == Some(n) <==> Denotes(s, n)
  {
    if Denotes(s, n) && |s| == 3 {
      assert s[0] != '6' && '0' <= s[0] <= '5' by {
        assert DigitValue(s[0]) <= 5;
      }
    }
  }

  /** `get_water_time` returns N on a string denoting N seconds and the
      fallback on every string that denotes nothing. */
  lemma GetWaterTimeSpec(s: string)
    ensures forall n: nat :: Denotes(s, n) ==> GetWaterTime(s) == n
    ensures (forall n: nat :: !Denotes(s, n)) ==> GetWaterTime(s) == FallbackSeconds
  {
    forall n: nat | Denotes(s, n)
      ensures GetWaterTime(s) == n
    {
      StrptimeAcceptsExactlyDenotations(s, n);
    }
    if StrptimeSeconds(s).Some? {
      StrptimeAcceptsExactlyDenotations(s, StrptimeSeconds(s).value);
    }
  }

  /** Every duration below a minute can be written as a two-digit,
      zero-padded field: the reference format round-trips. */
  lemma ZeroPaddedRoundTrip(n: nat)
    requires n < 60
    ensures GetWaterTime(['0' + ((n / 10) as char), '0' + ((n % 10) as char), 's']) == n
  {
    var s := ['0' + ((n / 10) as char), '0' + ((n % 10) as char), 's'];
    assert DigitValue(s[0]) == n / 10;
    assert DigitValue(s[1]) == n % 10;
  }

  /** The documented edge cases: zero-padded fields read as their value,
      upper case is accepted, and out-of-range, over-long, non-numeric and
      empty strings fall back to ten seconds; the default string itself
      reads as ten. */
  lemma WaterTimeExamples()
    ensures GetWaterTime("05s") == 5
    ensures GetWaterTime("5s") == 5
    ensures GetWaterTime("59S") == 59
    ensures GetWaterTime("60s") == 10
    ensures GetWaterTime("61s") == 10
    ensures GetWaterTime("100s") == 10
    ensures GetWaterTime("5ss") == 10
    ensures GetWaterTime("abc") == 10
    ensures GetWaterTime("") == 10
    ensures GetWaterTime(DefaultWaterLevel) == 10
  {
  }
}
