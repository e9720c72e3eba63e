/** `Date.prototype.toISOString` for time values from the epoch up to the
    end of year 9999, where the ECMAScript Date Time String Format
    (ECMA-262, section 20.3.1.16 of the 6th edition) is the 24-character
    `YYYY-MM-DDTHH:mm:ss.sssZ`, and `String.prototype.substr`. */
module IsoDate {

  const MsPerSecond: nat := 1000
  const MsPerMinute: nat := 60000
  const MsPerHour: nat := 3600000
  const MsPerDay: nat := 86400000

  /** The first time value of year 10000, from which on the year is written
      with six digits and a sign. */
  const YearTenThousandMs: nat := 253402300800000

  function Digit(d: nat): (c: char)
    requires d < 10
    ensures '0' <= c <= '9'
  {
    ('0' as int + d) as char
  }

  /** The last `width` decimal digits of `n`, zero-padded on the left. */
  function Padded(n: nat, width: nat): (r: string)
    ensures |r| == width
    ensures forall i :: 0 <= i < width ==> '0' <= r[i] <= '9'
  {
    if width == 0 then "" else Padded(n / 10, width - 1) + [Digit(n % 10)]
  }

  predicate IsLeapYear(y: nat) {
    y % 4 == 0 && (y % 100 != 0 || y % 400 == 0)
  }

  function DaysInYear(y: nat): nat {
    if IsLeapYear(y) then 366 else 365
  }

  function DaysInMonth(y: nat, m: nat): nat
    requires 1 <= m <= 12
  {
    if m == 2 then (if IsLeapYear(y) then 29 else 28)
    else if m == 4 || m == 6 || m == 9 || m == 11 then 30
    else 31
  }

  /** The year that `days` days after the start of `year` fall in, and the
      zero-based day within it. */
  function YearAndDay(days: nat, year: nat): (nat, nat)
    decreases days
  {
    if days < DaysInYear(year) then (year, days)
    else YearAndDay(days - DaysInYear(year), year + 1)
  }

  /** The month and the one-based day of month of zero-based day `day` of
      year `year`, counting from month `month`. */
  function MonthAndDay(day: nat, year: nat, month: nat): (nat, nat)
    requires 1 <= month <= 12
    decreases 12 - month
  {
    if month == 12 || day < DaysInMonth(year, month) then (month, day + 1)
    else MonthAndDay(day - DaysInMonth(year, month), year, month + 1)
  }

  /** `YYYY-MM-DD` of the day `days` days after 1970-01-01. */
  function DatePart(days: nat): (r: string)
    ensures |r| == 10
  {
    var (year, day) := YearAndDay(days, 1970);
    var (month, dayOfMonth) := MonthAndDay(day, year, 1);
    Padded(year, 4) + "-" + Padded(month, 2) + "-" + Padded(dayOfMonth, 2)
  }

  /** `new Date(ms).toISOString()`. */
  function ToIsoString(ms: nat): string
    requires ms < YearTenThousandMs
  {
    var inDay := ms % MsPerDay;
    DatePart(ms / MsPerDay) + "T" +
    Padded(inDay / MsPerHour, 2) + ":" +
    Padded(inDay / MsPerMinute % 60, 2) + ":" +
    Padded(inDay / MsPerSecond % 60, 2) + "." +
    Padded(ms % MsPerSecond, 3) + "Z"
  }

  /** The ISO string is 24 characters long; characters 14 to 18 are the
      minutes and seconds of the time of day, `mm:ss`. */
  lemma IsoStringLayout(ms: nat)
    requires ms < YearTenThousandMs
    ensures |ToIsoString(ms)| == 24
    ensures ToIsoString(ms)[14..19] ==
            Padded(ms % MsPerDay / MsPerMinute % 60, 2) + ":" + Padded(ms % MsPerDay / MsPerSecond % 60, 2)
  {
    var inDay := ms % MsPerDay;
    var d := DatePart(ms / MsPerDay);
    var hh := Padded(inDay / MsPerHour, 2);
    var mm := Padded(inDay / MsPerMinute % 60, 2);
    var ss := Padded(inDay / MsPerSecond % 60, 2);
    var fr := Padded(ms % MsPerSecond, 3);
    var s := d + "T" + hh + ":" + mm + ":" + ss + "." + fr + "Z";
    assert ToIsoString(ms) == s;
    assert s[14..19] == mm + ":" + ss;
  }

  /** `str.substr(start, length)` for non-negative arguments. */
  function Substr(str: string, start: nat, length: nat): (r: string)
    ensures start + length <= |str| ==> r == str[start..start + length]
    ensures |r| <= length
  {
    var b := if start < |str| then start else |str|;
    var e := if start + length < |str| then start + length else |str|;
    str[b..e]
  }
}
