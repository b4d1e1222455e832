/**
 * The client's journey formatters: `formatDuration` splits a millisecond
 * difference into `HH:MM:SS`, and `formatDistance` / `formatSpeed` print
 * "N/A" for a missing value. Date parsing and `toFixed` are parameters.
 */
module Formatters {
  import opened Wrappers
  import opened JsText

  const MsPerHour: int := 3600000
  const MsPerMinute: int := 60000
  const MsPerSecond: int := 1000

  /** JavaScript's `a % b` for a positive divisor: the remainder takes the sign of `a`. */
  function JsRem(a: int, b: int): (r: int)
    requires b > 0
    ensures a >= 0 ==> 0 <= r < b
    ensures a < 0 ==> -b < r <= 0
    ensures a >= 0 ==> r == a % b
    ensures a < 0 ==> -r == (-a) % b
  {
    if a >= 0 then a % b else -((-a) % b)
  }

  /** `Math.floor(diffMs / 3600000)`; Dafny's `/` with a positive divisor is floor division. */
  function Hours(diffMs: int): int {
    diffMs / MsPerHour
  }

  /** `Math.floor((diffMs % 3600000) / 60000)`. */
  function Minutes(diffMs: int): int {
    JsRem(diffMs, MsPerHour) / MsPerMinute
  }

  /** `Math.floor(((diffMs % 3600000) % 60000) / 1000)`. */
  function Seconds(diffMs: int): int {
    JsRem(JsRem(diffMs, MsPerHour), MsPerMinute) / MsPerSecond
  }

  /** `n.toString().padStart(2, "0")`. */
  function Pad2(n: int): string {
    PadStart(IntToString(n), 2, '0')
  }

  function DurationText(diffMs: int): string {
    Pad2(Hours(diffMs)) + ":" + Pad2(Minutes(diffMs)) + ":" + Pad2(Seconds(diffMs))
  }

  /** A string argument is truthy: present and not empty. */
  predicate Present(s: Option<string>) {
    s.Some? && s.value != ""
  }

  /** The text for two parsed instants: "00:00:00" when either is NaN. */
  function Elapsed(start: Option<int>, end: Option<int>): (r: string)
    ensures start.None? || end.None? ==> r == "00:00:00"
    ensures start.Some? && end.Some? ==> r == DurationText(end.value - start.value)
  {
    if start.None? || end.None? then "00:00:00" else DurationText(end.value - start.value)
  }

  /**
   * `formatDuration(startTime, endTime)`: an empty, null or undefined start
   * gives "00:00:00", then an empty, null or undefined end gives
   * "In Progress"; otherwise the elapsed text of the two parsed dates.
   */
  function FormatDuration(startTime: Option<string>, endTime: Option<string>, parseDate: string -> Option<int>): (r: string)
    ensures !Present(startTime) ==> r == "00:00:00"
    ensures Present(startTime) && !Present(endTime) ==> r == "In Progress"
    ensures Present(startTime) && Present(endTime) ==> r == Elapsed(parseDate(startTime.value), parseDate(endTime.value))
  {
    if !Present(startTime) then "00:00:00"
    else if !Present(endTime) then "In Progress"
    else Elapsed(parseDate(startTime.value), parseDate(endTime.value))
  }

  /** `formatDistance`: "N/A" exactly for null or undefined, otherwise kilometres via `toFixed(2)`. */
  function FormatDistance(meters: Option<real>, toFixed2: real -> string): (r: string)
    ensures r == "N/A" <==> meters.None?
    ensures meters.Some? ==> r == toFixed2(meters.value / 1000.0) + " km"
  {
    if meters.None? then "N/A"
    else
      var text := toFixed2(meters.value / 1000.0) + " km";
      assert text[|text| - 1] == 'm';
      text
  }

  /** `formatSpeed`: "N/A" exactly for null or undefined, otherwise km/h via `toFixed(1)`. */
  function FormatSpeed(mps: Option<real>, toFixed1: real -> string): (r: string)
    ensures r == "N/A" <==> mps.None?
    ensures mps.Some? ==> r == toFixed1(mps.value * 3.6) + " km/h"
  {
    if mps.None? then "N/A"
    else
      var text := toFixed1(mps.value * 3.6) + " km/h";
      assert text[|text| - 1] == 'h';
      text
  }

  /** For a non-negative difference the three fields recompose it, up to a sub-second rest. */
  lemma DurationDecomposition(diffMs: int)
    requires diffMs >= 0
    ensures 0 <= Minutes(diffMs) < 60 && 0 <= Seconds(diffMs) < 60 && Hours(diffMs) >= 0
    ensures var rest := diffMs - (Hours(diffMs) * MsPerHour + Minutes(diffMs) * MsPerMinute + Seconds(diffMs) * MsPerSecond);
      0 <= rest < MsPerSecond
  {
    var h, m, s := Hours(diffMs), Minutes(diffMs), Seconds(diffMs);
    var inHour := diffMs % MsPerHour;
    assert diffMs == h * MsPerHour + inHour;
    var inMinute := inHour % MsPerMinute;
    assert inHour == m * MsPerMinute + inMinute;
    assert inMinute == s * MsPerSecond + inMinute % MsPerSecond;
  }

  /** A number below 100 pads to its two decimal digits, which read back as the number. */
  lemma Pad2Small(n: nat)
    requires n < 100
    ensures |Pad2(n)| == 2
    ensures forall k :: 0 <= k < 2 ==> IsDecimalDigit(Pad2(n)[k])
    ensures DecimalValue(Pad2(n)) == n
  {
    DecimalOfSmallDigits(n);
    DecimalRoundTrip(n);
    if n < 10 {
      DecimalValueLeadingZero(NatToString(n, 10));
      assert Pad2(n) == "0" + NatToString(n, 10);
    }
  }

  /** Any non-negative number pads to at least two decimal digits that read back as the number. */
  lemma Pad2Reads(n: nat)
    ensures |Pad2(n)| >= 2
    ensures forall k :: 0 <= k < |Pad2(n)| ==> IsDecimalDigit(Pad2(n)[k])
    ensures DecimalValue(Pad2(n)) == n
  {
    if n < 100 {
      Pad2Small(n);
    } else {
      DecimalRoundTrip(n);
      assert NatToString(n, 10) == NatToString(n / 10, 10) + [DigitChar(n % 10)];
      DecimalRoundTrip(n / 10);
      assert n / 10 >= 10;
      assert NatToString(n / 10, 10) == NatToString(n / 100, 10) + [DigitChar((n / 10) % 10)];
    }
  }

  predicate AllDigits(s: string) {
    forall k :: 0 <= k < |s| ==> IsDecimalDigit(s[k])
  }

  /** `t` is `H:MM:SS` with at least two hour digits and fields reading as the given values. */
  predicate ReadsAsClock(t: string, hours: nat, minutes: nat, seconds: nat) {
    && |t| >= 8 && t[|t| - 3] == ':' && t[|t| - 6] == ':'
    && AllDigits(t[..|t| - 6]) && AllDigits(t[|t| - 5..|t| - 3]) && AllDigits(t[|t| - 2..])
    && DecimalValue(t[..|t| - 6]) == hours
    && DecimalValue(t[|t| - 5..|t| - 3]) == minutes
    && DecimalValue(t[|t| - 2..]) == seconds
  }

  /** Three digit fields joined by colons split back into those fields. */
  lemma FieldsReadBack(h: string, m: string, s: string)
    requires |h| >= 2 && |m| == 2 && |s| == 2
    requires AllDigits(h) && AllDigits(m) && AllDigits(s)
    ensures ReadsAsClock(h + ":" + m + ":" + s, DecimalValue(h), DecimalValue(m), DecimalValue(s))
  {
    var t := h + ":" + m + ":" + s;
    assert |t| == |h| + 6;
    assert t[..|t| - 6] == h;
    assert t[|t| - 5..|t| - 3] == m;
    assert t[|t| - 2..] == s;
    assert t[|t| - 3] == ':' && t[|t| - 6] == ':';
    assert AllDigits(t[..|t| - 6]) && AllDigits(t[|t| - 5..|t| - 3]) && AllDigits(t[|t| - 2..]);
    assert DecimalValue(t[..|t| - 6]) == DecimalValue(h);
    assert DecimalValue(t[|t| - 5..|t| - 3]) == DecimalValue(m);
    assert DecimalValue(t[|t| - 2..]) == DecimalValue(s);
  }

  /**
   * For a non-negative difference the text is `H:MM:SS`: minutes and seconds
   * exactly two digits, hours at least two (and as many more as needed), and
   * each field reads back as its value.
   */
  lemma DurationTextReadsBack(diffMs: int)
    requires diffMs >= 0
    ensures Hours(diffMs) >= 0 && Minutes(diffMs) >= 0 && Seconds(diffMs) >= 0
    ensures ReadsAsClock(DurationText(diffMs), Hours(diffMs), Minutes(diffMs), Seconds(diffMs))
  {
    DurationDecomposition(diffMs);
    var hours: nat, minutes: nat, seconds: nat := Hours(diffMs), Minutes(diffMs), Seconds(diffMs);
    var h, m, s := Pad2(hours), Pad2(minutes), Pad2(seconds);
    Pad2Reads(hours);
    Pad2Small(minutes);
    Pad2Small(seconds);
    FieldsReadBack(h, m, s);
    assert DurationText(diffMs) == h + ":" + m + ":" + s;
  }

  /** A negative difference prints negative fields: one millisecond early is "-1:-1:-1". */
  lemma NegativeDuration()
    ensures DurationText(-1) == "-1:-1:-1"
  {
    assert Hours(-1) == -1;
    assert JsRem(-1, MsPerHour) == -1;
    assert Minutes(-1) == -1;
    assert JsRem(-1, MsPerMinute) == -1;
    assert Seconds(-1) == -1;
    assert IntToString(-1) == "-1";
    assert Pad2(-1) == "-1";
  }

  /** A negative difference has a negative hours field, printed with its minus sign first. */
  lemma NegativeDurationSign(diffMs: int)
    requires diffMs < 0
    ensures Hours(diffMs) < 0 && Minutes(diffMs) <= 0 && Seconds(diffMs) <= 0
    ensures DurationText(diffMs)[0] == '-'
  {
    var h := Hours(diffMs);
    DecimalRoundTrip(-h);
    assert IntToString(h) == "-" + NatToString(-h, 10);
    assert |IntToString(h)| >= 2;
    assert Pad2(h) == IntToString(h);
  }
}
