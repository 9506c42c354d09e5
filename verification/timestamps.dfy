/** The date and time helpers of the store: `combineDateTime`, `formatDate`
    and `formatTime`.

    Everything these helpers ask of the platform's `Date` depends on the local
    time zone and on the clock, so it is gathered in a `Calendar` value that the
    caller supplies. What the helpers do with the answers (the `split("T")[0]`,
    the number-to-string conversion, the two-digit padding) is modelled exactly. */
module Timestamps {
  import opened JsValues

  type Hour = h: int | 0 <= h < 24
  type Minute = m: int | 0 <= m < 60

  /** What `new Date(s)` makes of a timestamp string that parses: its
      `toISOString()` rendering (UTC) and its local `getHours()`/`getMinutes()`. */
  datatype Moment = Moment(iso: string, hour: Hour, minute: Minute)

  /** The platform's date arithmetic in one fixed time zone and at one instant.
      - `parse(s)`: `new Date(s)`; `None` is an Invalid Date.
      - `combine(d, t)`: `new Date(d)`, then `setHours` from the "HH:MM" text `t`
        when one is given, then `toISOString()`; `None` when that throws.
      - `now`: `new Date().toISOString()` at the moment of the call.
      - `rangeError`: the message of the RangeError `toISOString()` throws on an
        Invalid Date. ECMAScript does not fix its wording; V8 says
        "Invalid time value", other engines say it differently. */
  datatype Calendar = Calendar(
    parse: string -> Option<Moment>,
    combine: (string, Option<string>) -> Option<string>,
    now: string,
    rangeError: string)

  predicate IsDigit(c: char) {
    '0' <= c <= '9'
  }

  predicate AllDigits(s: string) {
    forall i :: 0 <= i < |s| ==> IsDigit(s[i])
  }

  function DigitChar(d: nat): (c: char)
    requires d < 10
    ensures IsDigit(c)
  {
    ('0' as int + d) as char
  }

  function DigitValue(c: char): nat
    requires IsDigit(c)
  {
    c as int - '0' as int
  }

  /** `n.toString()` for a non-negative integer: its decimal digits, with no
      leading zero. */
  function Decimal(n: nat): (r: string)
    ensures 1 <= |r|
    ensures AllDigits(r)
    ensures |r| == 1 <==> n < 10
    ensures r[0] == '0' ==> n == 0
    decreases n
  {
    if n < 10 then [DigitChar(n)] else Decimal(n / 10) + [DigitChar(n % 10)]
  }

  /** The number a string of decimal digits denotes. */
  function DecimalValue(s: string): nat
    requires AllDigits(s)
  {
    if s == [] then 0 else DecimalValue(s[..|s| - 1]) * 10 + DigitValue(s[|s| - 1])
  }

  /** `Decimal` loses nothing: reading its digits back gives the number. */
  lemma {:induction false} DecimalRoundTrip(n: nat)
    ensures DecimalValue(Decimal(n)) == n
    decreases n
  {
    var r := Decimal(n);
    if n >= 10 {
      DecimalRoundTrip(n / 10);
      assert r[..|r| - 1] == Decimal(n / 10);
    }
  }

  /** `s.padStart(2, "0")`: zeros in front up to length two; longer text is kept. */
  function PadStart2(s: string): (r: string)
    ensures |s| >= 2 ==> r == s
    ensures |s| < 2 ==> |r| == 2 && r[2 - |s|..] == s && forall i :: 0 <= i < 2 - |s| ==> r[i] == '0'
  {
    if |s| == 0 then "00" else if |s| == 1 then "0" + s else s
  }

  /** `n.toString().padStart(2, "0")`: below 100 always two digits whose value
      is `n`; from 100 on the full decimal text, never cut. */
  function TwoDigits(n: nat): (r: string)
    ensures n < 100 ==> |r| == 2 && AllDigits(r) && DigitValue(r[0]) * 10 + DigitValue(r[1]) == n
    ensures 100 <= n ==> r == Decimal(n)
  {
    var d := Decimal(n);
    assert 10 <= n < 100 ==> Decimal(n / 10) == [DigitChar(n / 10)] && d == [DigitChar(n / 10), DigitChar(n % 10)];
    PadStart2(d)
  }

  /** Reads "HH:MM" back into an hour and a minute; `None` for any other text. */
  function ReadClock(s: string): Option<(int, int)> {
    if |s| == 5 && s[2] == ':' && IsDigit(s[0]) && IsDigit(s[1]) && IsDigit(s[3]) && IsDigit(s[4])
    then Some((DigitValue(s[0]) * 10 + DigitValue(s[1]), DigitValue(s[3]) * 10 + DigitValue(s[4])))
    else None
  }

  /** The clock text `formatTime` builds from a local hour and minute: exactly
      five characters, "HH:MM", each part zero-padded to two digits, and it reads
      back as the same hour and minute. */
  function ClockText(h: Hour, m: Minute): (r: string)
    ensures |r| == 5 && r[2] == ':' && AllDigits(r[..2]) && AllDigits(r[3..])
    ensures ReadClock(r) == Some((h as int, m as int))
  {
    var hh := TwoDigits(h);
    var mm := TwoDigits(m);
    var r := hh + ":" + mm;
    assert r[0] == hh[0] && r[1] == hh[1] && r[3] == mm[0] && r[4] == mm[1];
    r
  }

  /** `s.split("T")[0]`: the text before the first 'T', or all of `s` when it has none. */
  function UpToFirstT(s: string): (r: string)
    ensures 'T' !in r
    ensures r <= s
    ensures r == s || s[|r|] == 'T'
  {
    if s == [] || s[0] == 'T' then [] else [s[0]] + UpToFirstT(s[1..])
  }

  /** The text before the first 'T' is exactly the prefix that ends at the
      first 'T' (or at the end of a string without one). */
  lemma UpToFirstTEndsAtFirstT(s: string, k: nat)
    requires k <= |s|
    requires forall j :: 0 <= j < k ==> s[j] != 'T'
    requires k == |s| || s[k] == 'T'
    ensures UpToFirstT(s) == s[..k]
  {
  }

  /** `combineDateTime(dateStr, timeStr)`: the current instant when there is no
      date; otherwise the date combined with the time when one is given. It can
      only fail the way `toISOString` does. */
  function CombineDateTime(cal: Calendar, dateStr: Option<string>, timeStr: Option<string>): (r: Completion<string>)
    ensures !Truthy(dateStr) ==> r == Normal(cal.now)
    ensures r.Throw? ==> r.message == cal.rangeError
    ensures Truthy(dateStr) ==> (r.Normal? <==> cal.combine(dateStr.value, if Truthy(timeStr) then timeStr else None).Some?)
    ensures Truthy(dateStr) && r.Normal? ==> r.value == cal.combine(dateStr.value, if Truthy(timeStr) then timeStr else None).value
  {
    if !Truthy(dateStr) then Normal(cal.now)
    else
      match cal.combine(dateStr.value, if Truthy(timeStr) then timeStr else None)
      case Some(iso) => Normal(iso)
      case None => Throw(cal.rangeError)
  }

  /** `formatDate(dateStr)`: "" for a falsy argument; otherwise the calendar
      date (the part of the UTC ISO text before its 'T'), or a RangeError when
      the string is not a date. The result never contains a 'T'. */
  function FormatDate(cal: Calendar, dateStr: Option<string>): (r: Completion<string>)
    ensures !Truthy(dateStr) ==> r == Normal("")
    ensures Truthy(dateStr) ==> (r.Throw? <==> cal.parse(dateStr.value).None?)
    ensures r.Throw? ==> r.message == cal.rangeError
    ensures r.Normal? ==> 'T' !in r.value
    ensures Truthy(dateStr) && r.Normal? ==>
      var iso := cal.parse(dateStr.value).value.iso;
      r.value <= iso && (r.value == iso || iso[|r.value|] == 'T')
  {
    if !Truthy(dateStr) then Normal("")
    else
      match cal.parse(dateStr.value)
      case Some(m) => Normal(UpToFirstT(m.iso))
      case None => Throw(cal.rangeError)
  }

  /** `formatTime(dateStr)`: "" for a falsy argument; otherwise the local hour
      and minute as "HH:MM", and "NaN:NaN" when the string is not a date. */
  function FormatTime(cal: Calendar, dateStr: Option<string>): (r: string)
    ensures !Truthy(dateStr) ==> r == ""
    ensures Truthy(dateStr) && cal.parse(dateStr.value).None? ==> r == "NaN:NaN"
    ensures Truthy(dateStr) && cal.parse(dateStr.value).Some? ==>
      var m := cal.parse(dateStr.value).value;
      ReadClock(r) == Some((m.hour as int, m.minute as int))
  {
    if !Truthy(dateStr) then ""
    else
      match cal.parse(dateStr.value)
      case Some(m) => ClockText(m.hour, m.minute)
      case None => PadStart2("NaN") + ":" + PadStart2("NaN")
  }
}
