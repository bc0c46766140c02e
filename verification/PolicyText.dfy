/** Policy values as text: what the file may say, and what the system prints back. */
module PolicyText {
  import opened Sequences
  import opened Models
  import opened Policies

  // -- integers ------------------------------------------------------------

  predicate IsDigit(c: char) {
    '0' <= c <= '9'
  }

  function DigitValue(c: char): (d: nat)
    requires IsDigit(c)
    ensures d < 10
  {
    (c - '0') as int
  }

  function DigitChar(d: nat): (c: char)
    requires d < 10
    ensures IsDigit(c) && DigitValue(c) == d
  {
    '0' + d as char
  }

  /** A run of digits, in which single underscores may stand between two of them. */
  function ParseNat(s: string): Option<nat>
    decreases |s|
  {
    if s == [] || !IsDigit(s[|s| - 1]) then None
    else
      var digit := DigitValue(s[|s| - 1]);
      var front := s[..|s| - 1];
      if front == [] then Some(digit)
      else
        var rest := if front[|front| - 1] == '_' then front[..|front| - 1] else front;
        var high := ParseNat(rest);
        if high.None? then None else Some(10 * high.value + digit)
  }

  predicate IsSpace(c: char) {
    c in {' ', '\t', '\n', '\r'}
  }

  function Strip(s: string): string
    decreases |s|
  {
    if s != [] && IsSpace(s[0]) then Strip(s[1..])
    else if s != [] && IsSpace(s[|s| - 1]) then Strip(s[..|s| - 1])
    else s
  }

  function ParseInt(raw: string): Option<int> {
    var s := Strip(raw);
    if s != [] && (s[0] == '-' || s[0] == '+') then
      var n := ParseNat(s[1..]);
      if n.None? then None
      else if s[0] == '-' then Some(-(n.value as int))
      else Some(n.value)
    else
      var n := ParseNat(s);
      if n.None? then None else Some(n.value)
  }

  function NatText(n: nat): (s: string)
    ensures s != [] && forall i :: 0 <= i < |s| ==> IsDigit(s[i])
  {
    if n < 10 then [DigitChar(n)] else NatText(n / 10) + [DigitChar(n % 10)]
  }

  function IntText(n: int): string {
    if n < 0 then "-" + NatText(-n) else NatText(n)
  }

  lemma {:induction false} NatRoundTrip(n: nat)
    ensures ParseNat(NatText(n)) == Some(n)
  {
    var s := NatText(n);
    if n >= 10 {
      NatRoundTrip(n / 10);
      var front := NatText(n / 10);
      assert s[..|s| - 1] == front;
      assert IsDigit(front[|front| - 1]);
    }
  }

  lemma IntRoundTrip(n: int)
    ensures ParseInt(IntText(n)) == Some(n)
  {
    NatRoundTrip(if n < 0 then -n else n);
    var s := IntText(n);
    assert IsDigit(s[|s| - 1]) && !IsSpace(s[|s| - 1]) && !IsSpace(s[0]);
    assert Strip(s) == s;
    if n < 0 {
      assert s[1..] == NatText(-n);
    }
  }

  // -- durations -----------------------------------------------------------

  /** Division that drops the remainder towards zero, as Python's `int()` does to a float. */
  function Truncate(n: int, divisor: int): int
    requires divisor > 0
  {
    if n >= 0 then n / divisor else -(-n / divisor)
  }

  /** A duration printed in the largest unit that divides it. */
  function DurationText(td: Duration): string {
    var seconds := Truncate(td, 1_000_000);
    if seconds % 86400 == 0 then IntText(seconds / 86400) + "d"
    else if seconds % 3600 == 0 then IntText(seconds / 3600) + "h"
    else IntText(seconds / 60) + "m"
  }

  /** An integer followed by its unit, minutes, hours or days. */
  function ParseDuration(raw: string): Option<Duration> {
    if raw == [] || raw[|raw| - 1] !in {'m', 'h', 'd'} then None
    else
      var amount := ParseInt(raw[..|raw| - 1]);
      if amount.None? then None
      else
        match raw[|raw| - 1]
        case 'm' => Some(amount.value * 60_000_000)
        case 'h' => Some(amount.value * 3_600_000_000)
        case _ => Some(amount.value * 86_400_000_000)
  }

  /** Every duration that can be read is a whole number of minutes. */
  lemma ParsedDurationsAreWholeMinutes(raw: string)
    ensures ParseDuration(raw).Some? ==> ParseDuration(raw).value % MINUTE == 0
  {
    if ParseDuration(raw).Some? {
      var amount := ParseInt(raw[..|raw| - 1]).value;
      WholeMinutes(amount);
      WholeMinutes(amount * 60);
      WholeMinutes(amount * 1440);
    }
  }

  lemma WholeMinutes(n: int)
    ensures n * 60_000_000 % MINUTE == 0
  {
  }

  /** Printer and parser undo each other on exactly the whole-minute durations. */
  lemma DurationRoundTrip(td: Duration)
    ensures ParseDuration(DurationText(td)) == Some(td) <==> td % MINUTE == 0
  {
    ParsedDurationsAreWholeMinutes(DurationText(td));
    if td % MINUTE == 0 {
      var seconds := Truncate(td, 1_000_000);
      WholeSeconds(td);
      var s := DurationText(td);
      var amount := if seconds % 86400 == 0 then seconds / 86400
                    else if seconds % 3600 == 0 then seconds / 3600
                    else seconds / 60;
      assert s[..|s| - 1] == IntText(amount);
      IntRoundTrip(amount);
    }
  }

  lemma WholeSeconds(td: Duration)
    requires td % MINUTE == 0
    ensures var seconds := Truncate(td, 1_000_000);
            seconds * 1_000_000 == td && seconds % 60 == 0
  {
  }

  lemma DaysAreWholeDays(td: Duration)
    requires td % MINUTE == 0
    ensures DurationText(td) != ""
    ensures DurationText(td)[|DurationText(td)| - 1] == 'd' <==> td % DAY == 0
  {
    hide IntText;
    WholeSeconds(td);
  }

  /** Canonical: printing what was read, and reading it again, settles on one spelling per duration. */
  lemma DurationTextIsCanonical(raw: string)
    requires ParseDuration(raw).Some?
    ensures var canonical := DurationText(ParseDuration(raw).value);
            && ParseDuration(canonical) == ParseDuration(raw)
            && DurationText(ParseDuration(canonical).value) == canonical
            && canonical != ""
            && (canonical[|canonical| - 1] == 'd' <==> ParseDuration(raw).value % DAY == 0)
  {
    hide ParseDuration, DurationText;
    ParsedDurationsAreWholeMinutes(raw);
    DurationRoundTrip(ParseDuration(raw).value);
    DaysAreWholeDays(ParseDuration(raw).value);
  }

  // -- times of day --------------------------------------------------------

  function TwoDigits(n: nat): string
    requires n < 100
  {
    [DigitChar(n / 10), DigitChar(n % 10)]
  }

  function TimeText(tod: Duration): string
    requires 0 <= tod < DAY
  {
    TwoDigits(tod / HOUR) + ":" + TwoDigits(tod / MINUTE % 60)
  }

  /** Where the first colon stands, or the length of the text. */
  function Colon(s: string): (k: nat)
    ensures k <= |s|
    ensures k < |s| ==> s[k] == ':'
    ensures ':' !in s[..k]
  {
    if s == [] || s[0] == ':' then 0
    else
      var k := Colon(s[1..]);
      assert s[..k + 1] == [s[0]] + s[1..][..k];
      k + 1
  }

  function ParseTime(raw: string): Option<Duration> {
    var k := Colon(raw);
    if k == |raw| || ':' in raw[k + 1..] then None
    else
      var hh, mm := ParseInt(raw[..k]), ParseInt(raw[k + 1..]);
      if hh.None? || mm.None? || !(0 <= hh.value < 24) || !(0 <= mm.value < 60) then None
      else Some(hh.value * 3_600_000_000 + mm.value * 60_000_000)
  }

  lemma TwoDigitsRoundTrip(n: nat)
    requires n < 100
    ensures ParseInt(TwoDigits(n)) == Some(n)
    ensures ':' !in TwoDigits(n)
  {
    var s := TwoDigits(n);
    assert Strip(s) == s;
    assert s[..1] == [s[0]];
    assert ParseNat(s[..1]) == Some(n / 10) by { assert s[..1][..0] == []; }
  }

  lemma TwoLong(n: nat)
    requires n < 100
    ensures |TwoDigits(n)| == 2
  {
  }

  lemma TimeRoundTrip(tod: Duration)
    requires 0 <= tod < DAY
    ensures ParseTime(TimeText(tod)).Some?
    ensures ParseTime(TimeText(tod)) == Some(tod) <==> tod % MINUTE == 0
  {
    hide TwoDigits, ParseInt, Colon;
    var hh, mm := tod / HOUR, tod / MINUTE % 60;
    TwoDigitsRoundTrip(hh);
    TwoDigitsRoundTrip(mm);
    TwoLong(hh);
    TwoLong(mm);
    var s := TimeText(tod);
    assert s[2] == ':' && s[..2] == TwoDigits(hh) && s[3..] == TwoDigits(mm);
    assert ':' !in s[..2];
    ColonIsFirst(s, 2);
  }

  lemma {:induction false} ColonIsFirst(s: string, k: nat)
    requires k < |s| && s[k] == ':' && ':' !in s[..k]
    ensures Colon(s) == k
  {
    if k > 0 {
      assert s[0] in s[..k];
      assert s[1..][..k - 1] == s[..k][1..];
      ColonIsFirst(s[1..], k - 1);
    }
  }

  // -- the policy printed back -------------------------------------------------

  datatype PrintedPolicy = PrintedPolicy(
    bands: seq<(string, string)>, cap: int, open: string, close: string, rupees: seq<int>)

  /** Every time of day in the policy is one. */
  predicate OnTheClock(p: RawPolicy) {
    && 0 <= p.contactOpen < DAY
    && 0 <= p.contactClose < DAY
    && forall i :: 0 <= i < |p.bands| ==> 0 <= p.bands[i].start < DAY && 0 <= p.bands[i].end < DAY
  }

  function Amounts(p: RawPolicy): seq<int> {
    [p.frictionlessUpi, p.frictionlessUpiBfsi, p.upiMandateMax, p.cardRecurringMax, p.emandateMax]
  }

  /** The current values of the fields a circular may change, in the shape the file holds them. */
  function Printed(p: RawPolicy): PrintedPolicy
    requires OnTheClock(p)
  {
    PrintedPolicy(
      seq(|p.bands|, i requires 0 <= i < |p.bands| => (TimeText(p.bands[i].start), TimeText(p.bands[i].end))),
      p.retryCap,
      TimeText(p.contactOpen),
      TimeText(p.contactClose),
      seq(|Amounts(p)|, i requires 0 <= i < |Amounts(p)| => Amounts(p)[i] / 100))
  }

  predicate BandsReadBack(t: PrintedPolicy, p: RawPolicy) {
    |t.bands| == |p.bands| &&
    forall i :: 0 <= i < |p.bands| ==>
      ParseTime(t.bands[i].0) == Some(p.bands[i].start) && ParseTime(t.bands[i].1) == Some(p.bands[i].end)
  }

  predicate AmountsReadBack(t: PrintedPolicy, p: RawPolicy) {
    |t.rupees| == |Amounts(p)| && forall i :: 0 <= i < |Amounts(p)| ==> t.rupees[i] * 100 == Amounts(p)[i]
  }

  /** Whether loading what was printed gives back every one of those values. */
  predicate ReadsBackAs(t: PrintedPolicy, p: RawPolicy) {
    && BandsReadBack(t, p)
    && t.cap == p.retryCap
    && ParseTime(t.open) == Some(p.contactOpen)
    && ParseTime(t.close) == Some(p.contactClose)
    && AmountsReadBack(t, p)
  }

  predicate WholeMinuteBands(p: RawPolicy) {
    forall i :: 0 <= i < |p.bands| ==> p.bands[i].start % MINUTE == 0 && p.bands[i].end % MINUTE == 0
  }

  predicate WholeRupees(p: RawPolicy) {
    forall i :: 0 <= i < |Amounts(p)| ==> Amounts(p)[i] % 100 == 0
  }

  lemma BandRoundTrip(p: RawPolicy)
    requires OnTheClock(p)
    ensures BandsReadBack(Printed(p), p) <==> WholeMinuteBands(p)
  {
    var t := Printed(p);
    assert |t.bands| == |p.bands|;
    forall i | 0 <= i < |p.bands|
      ensures ParseTime(t.bands[i].0) == Some(p.bands[i].start) <==> p.bands[i].start % MINUTE == 0
      ensures ParseTime(t.bands[i].1) == Some(p.bands[i].end) <==> p.bands[i].end % MINUTE == 0
    {
      assert t.bands[i] == (TimeText(p.bands[i].start), TimeText(p.bands[i].end));
      TimeRoundTrip(p.bands[i].start);
      TimeRoundTrip(p.bands[i].end);
    }
  }

  lemma AmountRoundTrip(p: RawPolicy)
    requires OnTheClock(p)
    ensures AmountsReadBack(Printed(p), p) <==> WholeRupees(p)
  {
    var t := Printed(p);
    assert |t.rupees| == |Amounts(p)|;
    assert forall i :: 0 <= i < |Amounts(p)| ==>
      t.rupees[i] == Amounts(p)[i] / 100 &&
      (t.rupees[i] * 100 == Amounts(p)[i] <==> Amounts(p)[i] % 100 == 0);
  }

  /** A policy survives being printed and loaded again exactly when its times and sums are whole. */
  lemma PolicyRoundTrip(p: RawPolicy)
    requires OnTheClock(p)
    ensures ReadsBackAs(Printed(p), p)
            <==>
            (&& WholeMinuteBands(p)
             && p.contactOpen % MINUTE == 0
             && p.contactClose % MINUTE == 0
             && WholeRupees(p))
  {
    BandRoundTrip(p);
    AmountRoundTrip(p);
    TimeRoundTrip(p.contactOpen);
    TimeRoundTrip(p.contactClose);
  }
}
