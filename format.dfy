/** The monitor's pure formatting helpers: durations, magnitudes, faction names. */
module Format {
  import opened Wrappers
  import opened Text

  predicate IsDigit(c: char) { '0' <= c <= '9' }

  predicate AllDigits(s: string) { forall i :: 0 <= i < |s| ==> IsDigit(s[i]) }

  function DigitChar(d: nat): (c: char)
    requires d < 10
    ensures IsDigit(c) && c as int - '0' as int == d
  {
    ('0' as int + d) as char
  }

  /** Python's `"{:d}".format(n)` for a non-negative integer. */
  function NatToString(n: nat): (s: string)
    ensures |s| > 0
    ensures AllDigits(s)
    ensures s[0] == '0' <==> n == 0
    decreases n
  {
    if n < 10 then [DigitChar(n)] else NatToString(n / 10) + [DigitChar(n % 10)]
  }

  /** The number a string of decimal digits denotes. */
  function DigitsValue(s: string): int
    decreases |s|
  {
    if s == [] then 0 else DigitsValue(s[..|s| - 1]) * 10 + (s[|s| - 1] as int - '0' as int)
  }

  lemma {:induction false} DigitsRoundTrip(n: nat)
    ensures DigitsValue(NatToString(n)) == n
    decreases n
  {
    if n >= 10 {
      DigitsRoundTrip(n / 10);
      var p := NatToString(n / 10);
      var s := p + [DigitChar(n % 10)];
      assert s[..|s| - 1] == p;
    }
  }

  /** The length of the longest all-digit prefix of `s`. */
  function LeadingDigits(s: string): (k: nat)
    ensures k <= |s|
    decreases |s|
  {
    if s == [] || !IsDigit(s[0]) then 0
    else
      1 + LeadingDigits(s[1..])
  }

  lemma {:induction false} LeadingDigitsOf(d: string, rest: string)
    requires AllDigits(d)
    requires rest == [] || !IsDigit(rest[0])
    ensures LeadingDigits(d + rest) == |d|
    decreases |d|
  {
    if d != [] {
      assert (d + rest)[1..] == d[1..] + rest;
      LeadingDigitsOf(d[1..], rest);
    }
  }

  /**
   * Python's `time_format(seconds)` for an integer number of seconds: hours and
   * minutes when there is at least one hour, minutes and seconds when there is
   * at least one minute, else seconds. `//` and `%` floor in Python and Dafny
   * alike for the positive divisors used here, so negative inputs agree too.
   */
  function TimeFormat(t: int): string {
    Render(t / 3600, t % 3600 / 60, t % 3600 % 60)
  }

  /** The rendering of whole hours, minutes and seconds. */
  function Render(h: int, m: nat, s: nat): string {
    if h > 0 then NatToString(h) + ("h" + (NatToString(m) + "m"))
    else if m > 0 then NatToString(m) + ("m" + (NatToString(s) + "s"))
    else NatToString(s) + "s"
  }

  /** Splits a leading decimal number off `s`. */
  function SplitNumber(s: string): Option<(int, string)> {
    var i := LeadingDigits(s);
    if i == 0 then None else Some((DigitsValue(s[..i]), s[i..]))
  }

  lemma {:induction false} SplitNumberOf(d: string, rest: string)
    requires |d| > 0 && AllDigits(d)
    requires rest == [] || !IsDigit(rest[0])
    ensures SplitNumber(d + rest) == Some((DigitsValue(d), rest))
  {
    LeadingDigitsOf(d, rest);
    assert (d + rest)[..|d|] == d;
    assert (d + rest)[|d|..] == rest;
  }

  /**
   * Reads back a rendered duration ("XhYm", "XmYs" or "Xs") as seconds.
   * This is the reference decoding that TimeFormat is checked against.
   */
  function ParseDuration(s: string): Option<int> {
    match SplitNumber(s)
    case None => None
    case Some((a, rest)) =>
      if rest == "s" then Some(a)
      else if rest == [] || (rest[0] != 'h' && rest[0] != 'm') then None
      else
        var unit := if rest[0] == 'h' then 3600 else 60;
        var tail := if rest[0] == 'h' then "m" else "s";
        match SplitNumber(rest[1..])
        case None => None
        case Some((b, r)) => if r == tail then Some(a * unit + b * (unit / 60)) else None
  }

  /**
   * ParseDuration on "<x>h<y>m" or "<x>m<y>s" once both numbers are known to
   * split off; stated over the split results rather than the digits so that
   * the decoding is read in one step.
   */
  lemma ParseTwoUnits(d: string, u: char, e: string, v: char, x: nat, y: nat)
    requires u == 'h' || u == 'm'
    requires v == (if u == 'h' then 'm' else 's')
    requires SplitNumber(d + ([u] + (e + [v]))) == Some((x, [u] + (e + [v])))
    requires SplitNumber(e + [v]) == Some((y, [v]))
    ensures ParseDuration(d + ([u] + (e + [v]))) == Some(x * (if u == 'h' then 3600 else 60) + y * (if u == 'h' then 60 else 1))
  {
    var rest := [u] + (e + [v]);
    assert rest[1..] == e + [v];
    assert rest != "s" by { assert |rest| >= 2; }
  }

  /** A rendered number splits back off whatever non-digit text follows it. */
  lemma SplitRendered(n: nat, rest: string)
    requires rest == [] || !IsDigit(rest[0])
    ensures SplitNumber(NatToString(n) + rest) == Some((n, rest))
  {
    SplitNumberOf(NatToString(n), rest);
    DigitsRoundTrip(n);
  }

  /** Reading back the hours-and-minutes and the minutes-and-seconds renderings. */
  lemma ReadTwoUnits(x: nat, u: char, y: nat, v: char)
    requires u == 'h' || u == 'm'
    requires v == (if u == 'h' then 'm' else 's')
    ensures ParseDuration(NatToString(x) + ([u] + (NatToString(y) + [v])))
      == Some(x * (if u == 'h' then 3600 else 60) + y * (if u == 'h' then 60 else 1))
  {
    SplitRendered(x, [u] + (NatToString(y) + [v]));
    SplitRendered(y, [v]);
    ParseTwoUnits(NatToString(x), u, NatToString(y), v, x, y);
  }

  lemma ModShift(a: int, k: int)
    ensures (a + 60 * k) % 60 == a % 60
  {
    var b := a + 60 * k;
    assert 60 * (b / 60 - a / 60 - k) == a % 60 - b % 60;
  }

  lemma TimeFormatParts(t: int)
    ensures 0 <= t % 3600 / 60 < 60 && 0 <= t % 3600 % 60 < 60
    ensures t % 3600 == t % 3600 / 60 * 60 + t % 3600 % 60
    ensures t == t / 3600 * 3600 + t % 3600
    ensures t % 60 == t % 3600 % 60
  {
    var q, r := t / 3600, t % 3600;
    assert t == r + 60 * (60 * q);
    ModShift(r, 60 * q);
  }

  lemma ReadHours(h: int, m: nat, s: nat)
    requires h > 0
    ensures ParseDuration(Render(h, m, s)) == Some(h * 3600 + m * 60)
  {
    ReadTwoUnits(h, 'h', m, 'm');
  }

  lemma ReadMinutes(h: int, m: nat, s: nat)
    requires h <= 0 && m > 0
    ensures ParseDuration(Render(h, m, s)) == Some(m * 60 + s)
  {
    ReadTwoUnits(m, 'm', s, 's');
  }

  lemma ReadSeconds(h: int, m: nat, s: nat)
    requires h <= 0 && m == 0
    ensures ParseDuration(Render(h, m, s)) == Some(s)
  {
    SplitRendered(s, "s");
  }

  /**
   * TimeFormat denotes its input exactly below one hour and drops only the
   * seconds from one hour on; a negative input renders as its remainder
   * modulo one hour.
   */
  lemma TimeFormatDenotes(t: int)
    ensures ParseDuration(TimeFormat(t)) == Some(if t >= 3600 then t - t % 60 else t % 3600)
  {
    var h, m, s := t / 3600, t % 3600 / 60, t % 3600 % 60;
    TimeFormatParts(t);
    if h > 0 {
      ReadHours(h, m, s);
    } else if m > 0 {
      ReadMinutes(h, m, s);
    } else {
      ReadSeconds(h, m, s);
    }
  }

  /** Three worked examples of the rendering. */
  lemma TimeFormatExamples()
    ensures TimeFormat(120) == "2m0s"
    ensures TimeFormat(59) == "59s"
    ensures TimeFormat(3725) == "1h2m"
  {
    assert NatToString(0) == "0" && NatToString(1) == "1" && NatToString(2) == "2";
    assert NatToString(59) == NatToString(5) + "9";
    assert TimeFormat(120) == Render(0, 2, 0);
    assert TimeFormat(59) == Render(0, 0, 59);
    assert TimeFormat(3725) == Render(1, 2, 5);
  }

  /** Which notation `num_format` picks: millions, thousands or the plain number. */
  datatype Magnitude = Plain | Thousands | Millions

  function MagnitudeRank(u: Magnitude): nat {
    match u
    case Plain => 0
    case Thousands => 1
    case Millions => 2
  }

  function NumMagnitude(n: int): (u: Magnitude)
    ensures u == Millions <==> n >= 999_500
    ensures u == Thousands <==> 1_000 <= n < 999_500
    ensures u == Plain <==> n < 1_000
  {
    if n >= 999_500 then Millions else if n >= 1_000 then Thousands else Plain
  }

  /** A larger number never gets a smaller notation. */
  lemma NumMagnitudeMonotone(a: int, b: int)
    requires a <= b
    ensures MagnitudeRank(NumMagnitude(a)) <= MagnitudeRank(NumMagnitude(b))
  {
  }

  const TruncFaction := 30

  /**
   * The faction label of a kill: names of up to 33 characters are kept whole;
   * longer ones are cut to their first 30 characters, trailing whitespace is
   * stripped and "..." is appended.
   */
  function TruncateFaction(name: string): (r: string)
    ensures |r| <= TruncFaction + 3
    ensures |name| <= TruncFaction + 3 <==> r == name
    ensures |name| > TruncFaction + 3 ==>
      |r| >= 3 && r[|r| - 3..] == "..." && IsPrefix(r[..|r| - 3], name[..TruncFaction])
      && (|r| == 3 || !IsSpace(r[|r| - 4]))
      && forall i :: |r| - 3 <= i < TruncFaction ==> IsSpace(name[i])
  {
    if |name| <= TruncFaction + 3 then name
    else
      var kept := RStrip(name[..TruncFaction]);
      var r := kept + "...";
      assert r[..|r| - 3] == kept;
      r
  }
}
